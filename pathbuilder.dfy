/**
 * Turning a Pathbuilder 2e export into a player record
 * (src/helpers/parsePathbuilderCharacter.ts): ability modifiers, defences
 * and skills as proficiency + level + modifier, the dexterity penalty of
 * worn armour that is too heavy for the character's strength, and lores.
 */
module Pathbuilder {
  import opened Wrappers
  import opened Js
  import opened Json

  datatype Ability = Strength | Dexterity | Constitution | Intelligence | Wisdom | Charisma

  datatype Abilities = Abilities(str: int, dex: int, con: int, intl: int, wis: int, cha: int)

  datatype Armor = Armor(worn: bool, prof: string)

  /** The fields of `build` that the import reads; a missing string field is `None`. */
  datatype Build = Build(
    name: Option<string>,
    className: Option<string>,
    level: int,
    abilities: Option<Abilities>,
    proficiencies: Option<seq<(string, Json)>>,
    armor: seq<Armor>,
    lores: seq<(Json, Json)>,
    acItemBonus: int)

  /** The JSON document: `success` and `build`. */
  datatype Export = Export(success: bool, build: Option<Build>)

  datatype ParsedPlayer = ParsedPlayer(
    pathbuilderId: string,
    name: string,
    alias: string,
    className: string,
    level: int,
    perception: int,
    fortitude: int,
    reflex: int,
    will: int,
    skills: seq<(string, Json)>)

  /** `SKILL_ATTRIBUTE_MAP`. */
  const SkillAttributeMap: seq<(string, Ability)> := [
    ("acrobatics", Dexterity), ("arcana", Intelligence), ("athletics", Strength),
    ("crafting", Intelligence), ("deception", Charisma), ("diplomacy", Charisma),
    ("intimidation", Charisma), ("medicine", Wisdom), ("nature", Wisdom),
    ("occultism", Intelligence), ("performance", Charisma), ("religion", Wisdom),
    ("society", Intelligence), ("stealth", Dexterity), ("survival", Wisdom),
    ("thievery", Dexterity)
  ]

  /** Proficiency keys that are not skills. */
  const Excluded: seq<string> := [
    "advanced", "classdc", "perception", "fortitude", "reflex", "will", "heavy", "medium",
    "light", "unarmored", "martial", "simple", "unarmed", "castingarcane", "castingdivine",
    "castingoccult", "castingprimal"
  ]

  /** `calculateModifier`: `Math.floor((score - 10) / 2)`. */
  function Modifier(score: int): (m: int)
    ensures 2 * m <= score - 10 < 2 * m + 2
  {
    (score - 10) / 2
  }

  function ModOf(a: Ability, mods: Abilities): int
  {
    match a
    case Strength => mods.str
    case Dexterity => mods.dex
    case Constitution => mods.con
    case Intelligence => mods.intl
    case Wisdom => mods.wis
    case Charisma => mods.cha
  }

  function Modifiers(scores: Abilities): Abilities
  {
    Abilities(Modifier(scores.str), Modifier(scores.dex), Modifier(scores.con),
              Modifier(scores.intl), Modifier(scores.wis), Modifier(scores.cha))
  }

  /** What a skill value is computed from: the skill-to-ability table, the level, the ability
    * modifiers and the armour penalty on dexterity skills. */
  datatype Scoring = Scoring(abilityOf: seq<(string, Ability)>, level: int, mods: Abilities, dexPenalty: int)

  /** `SKILL_ATTRIBUTE_MAP[skillKey] || 'int'`. */
  function SkillAbility(abilityOf: seq<(string, Ability)>, skillKey: string): Ability
  {
    Get(abilityOf, skillKey).GetOr(Intelligence)
  }

  /** `estimateRequiredStrength`. */
  function RequiredStrength(acItemBonus: int): (r: Option<int>)
    ensures r.None? <==> acItemBonus < 2
  {
    if acItemBonus >= 6 then Some(18)
    else if acItemBonus >= 4 then Some(16)
    else if acItemBonus == 3 then Some(14)
    else if acItemBonus == 2 then Some(12)
    else None
  }

  /** `hasArmorStrengthPenalty`. */
  predicate HasArmorStrengthPenalty(acItemBonus: int, strMod: int)
  {
    var required := RequiredStrength(acItemBonus);
    required.Some? && 10 + strMod < required.value
  }

  function ArmorProfPenalty(prof: string): nat
  {
    if prof == "light" then 1 else if prof == "medium" then 2 else if prof == "heavy" then 3 else 0
  }

  /** `getDexPenaltyFromArmor`: the penalty of the first worn light, medium or heavy armour. */
  function ArmorDexPenalty(armor: seq<Armor>): (p: nat)
    ensures p <= 3
    ensures p == 0 <==> forall i :: 0 <= i < |armor| ==> !armor[i].worn || ArmorProfPenalty(armor[i].prof) == 0
  {
    if |armor| == 0 then 0
    else if armor[0].worn && ArmorProfPenalty(armor[0].prof) > 0 then ArmorProfPenalty(armor[0].prof)
    else
      var p := ArmorDexPenalty(armor[1..]);
      assert forall i :: 1 <= i < |armor| ==> armor[i] == armor[1..][i - 1];
      p
  }

  /** The dexterity penalty applied to dex skills. */
  function DexPenalty(b: Build, mods: Abilities): nat
  {
    if HasArmorStrengthPenalty(b.acItemBonus, mods.str) then ArmorDexPenalty(b.armor) else 0
  }

  /** The modifier of a skill: its ability's, less the armour penalty for dex skills. */
  function SkillMod(sc: Scoring, skillKey: string): int
  {
    var a := SkillAbility(sc.abilityOf, skillKey);
    if a == Dexterity then ModOf(a, sc.mods) - sc.dexPenalty else ModOf(a, sc.mods)
  }

  /** One proficiency entry, its key already lower-cased, added to the skills. */
  function SkillStep(skills: seq<(string, Json)>, skillKey: string, value: Json, sc: Scoring): seq<(string, Json)>
  {
    if !Listed(skillKey, Excluded) && value.JNum? then
      Set(skills, skillKey, JNum(value.n + sc.level + SkillMod(sc, skillKey)))
    else skills
  }

  /** The skills after the first proficiency entries. */
  function SkillsOf(prof: seq<(string, Json)>, sc: Scoring): seq<(string, Json)>
  {
    if |prof| == 0 then []
    else SkillStep(SkillsOf(prof[..|prof| - 1], sc), ToLower(prof[|prof| - 1].0), prof[|prof| - 1].1, sc)
  }

  /** One `[name, rank]` lore pair added to the lores. */
  function LoreStep(lores: seq<(string, Json)>, e: (Json, Json), level: int, intMod: int): seq<(string, Json)>
  {
    if e.0.JStr? && e.1.JNum? then Set(lores, ToLower(e.0.s), JNum(e.1.n + level + intMod)) else lores
  }

  function LoresOf(lores: seq<(Json, Json)>, level: int, intMod: int): seq<(string, Json)>
  {
    if |lores| == 0 then []
    else LoreStep(LoresOf(lores[..|lores| - 1], level, intMod), lores[|lores| - 1], level, intMod)
  }

  /** `calculateDefense(prof[key], level, mod)`, where a missing proficiency defaults to 0. */
  function Defense(prof: seq<(string, Json)>, key: string, level: int, mod: int): int
  {
    var p := Get(prof, key);
    (if p.Some? && p.value.JNum? then p.value.n else 0) + level + mod
  }

  /** Whether the export has everything the import needs. */
  predicate Complete(doc: Export)
  {
    doc.success && doc.build.Some?
    && doc.build.value.name.Some? && doc.build.value.name.value != ""
    && doc.build.value.className.Some? && doc.build.value.className.value != ""
    && doc.build.value.level != 0
    && doc.build.value.abilities.Some? && doc.build.value.proficiencies.Some?
  }

  /** The player record `parsePathbuilderCharacter` builds from a complete export. */
  function Parsed(doc: Export, id: string): ParsedPlayer
    requires Complete(doc)
  {
    var b := doc.build.value;
    var prof := b.proficiencies.value;
    var mods := Modifiers(b.abilities.value);
    var skills := SkillsOf(prof, Scoring(SkillAttributeMap, b.level, mods, DexPenalty(b, mods)));
    var lores := LoresOf(b.lores, b.level, mods.intl);
    var name := Trim(b.name.value);
    ParsedPlayer(
      id, name, Split(name, ' ')[0], b.className.value, b.level,
      Defense(prof, "perception", b.level, mods.wis),
      Defense(prof, "fortitude", b.level, mods.con),
      Defense(prof, "reflex", b.level, mods.dex),
      Defense(prof, "will", b.level, mods.wis),
      if |lores| > 0 then Set(skills, "lores", JObj(lores)) else skills)
  }

  function Parse(doc: Export, id: string): (r: Option<ParsedPlayer>)
    ensures r.None? <==> !Complete(doc)
    ensures r.Some? ==> r.value.pathbuilderId == id
  {
    if Complete(doc) then Some(Parsed(doc, id)) else None
  }

  /** `parsePathbuilderCharacter`. */
  method ParsePathbuilderCharacter(doc: Export, id: string) returns (r: Option<ParsedPlayer>)
    ensures r == Parse(doc, id)
  {
    if !doc.success {
      return None;
    }
    var build := doc.build;
    if build.None? || build.value.name.None? || build.value.name.value == ""
       || build.value.className.None? || build.value.className.value == ""
       || build.value.level == 0 || build.value.abilities.None? || build.value.proficiencies.None? {
      return None;
    }
    var b := build.value;
    var prof := b.proficiencies.value;
    var mods := Modifiers(b.abilities.value);
    var level := b.level;
    var dexPenalty := if HasArmorStrengthPenalty(b.acItemBonus, mods.str) then ArmorDexPenalty(b.armor) else 0;

    var skills := CollectSkills(prof, Scoring(SkillAttributeMap, level, mods, dexPenalty));
    var loreSkills := CollectLores(b.lores, level, mods.intl);
    if |loreSkills| > 0 {
      skills := Set(skills, "lores", JObj(loreSkills));
    }
    var name := Trim(b.name.value);
    return Some(ParsedPlayer(
      id, name, Split(name, ' ')[0], b.className.value, level,
      Defense(prof, "perception", level, mods.wis),
      Defense(prof, "fortitude", level, mods.con),
      Defense(prof, "reflex", level, mods.dex),
      Defense(prof, "will", level, mods.wis),
      skills));
  }

  /** The loop of `parsePathbuilderCharacter` over the proficiencies. */
  method CollectSkills(prof: seq<(string, Json)>, sc: Scoring) returns (skills: seq<(string, Json)>)
    ensures skills == SkillsOf(prof, sc)
  {
    skills := [];
    for i := 0 to |prof|
      invariant skills == SkillsOf(prof[..i], sc)
    {
      assert prof[..i + 1][..i] == prof[..i];
      var (key, value) := prof[i];
      var skillKey := ToLower(key);
      if !Listed(skillKey, Excluded) && value.JNum? {
        var ability := SkillAbility(sc.abilityOf, skillKey);
        var mod := ModOf(ability, sc.mods);
        if ability == Dexterity {
          mod := mod - sc.dexPenalty;
        }
        assert SkillStep(skills, skillKey, value, sc) == Set(skills, skillKey, JNum(value.n + sc.level + mod));
        skills := Set(skills, skillKey, JNum(value.n + sc.level + mod));
      } else {
        assert SkillStep(skills, skillKey, value, sc) == skills;
      }
    }
    assert prof[..|prof|] == prof;
  }

  /** The loop of `parsePathbuilderCharacter` over the `[name, rank]` lore pairs. */
  method CollectLores(lores: seq<(Json, Json)>, level: int, intMod: int) returns (loreSkills: seq<(string, Json)>)
    ensures loreSkills == LoresOf(lores, level, intMod)
  {
    loreSkills := [];
    for i := 0 to |lores|
      invariant loreSkills == LoresOf(lores[..i], level, intMod)
    {
      assert lores[..i + 1][..i] == lores[..i];
      var (name, rank) := lores[i];
      if name.JStr? && rank.JNum? {
        assert LoreStep(loreSkills, lores[i], level, intMod) == Set(loreSkills, ToLower(name.s), JNum(rank.n + level + intMod));
        loreSkills := Set(loreSkills, ToLower(name.s), JNum(rank.n + level + intMod));
      } else {
        assert LoreStep(loreSkills, lores[i], level, intMod) == loreSkills;
      }
    }
    assert lores[..|lores|] == lores;
  }

  // ---------------------------------------------------------------------
  // Properties

  /** The saves and perception are proficiency + level + the wis/con/dex/wis modifier. */
  lemma DefensesAreProfPlusLevelPlusMod(doc: Export, id: string)
    requires Complete(doc)
    ensures var b := doc.build.value;
            var p := Parsed(doc, id);
            var mods := Modifiers(b.abilities.value);
            var prof := b.proficiencies.value;
            && p.perception == Defense(prof, "perception", 0, 0) + b.level + Modifier(b.abilities.value.wis)
            && p.fortitude == Defense(prof, "fortitude", 0, 0) + b.level + Modifier(b.abilities.value.con)
            && p.reflex == Defense(prof, "reflex", 0, 0) + b.level + Modifier(b.abilities.value.dex)
            && p.will == Defense(prof, "will", 0, 0) + b.level + Modifier(b.abilities.value.wis)
  {
  }

  /** A dex skill loses the armour penalty only when the strength is below what the armour needs. */
  lemma DexPenaltyOnlyWhenTooWeak(b: Build, mods: Abilities)
    ensures DexPenalty(b, mods) <= 3
    ensures DexPenalty(b, mods) > 0 ==> RequiredStrength(b.acItemBonus).Some? && 10 + mods.str < RequiredStrength(b.acItemBonus).value
    ensures DexPenalty(b, mods) > 0 ==> exists i :: 0 <= i < |b.armor| && b.armor[i].worn && b.armor[i].prof in {"light", "medium", "heavy"}
  {
    if DexPenalty(b, mods) > 0 {
      var i :| 0 <= i < |b.armor| && b.armor[i].worn && ArmorProfPenalty(b.armor[i].prof) != 0;
    }
  }

  /** A skill that is not in the attribute map uses the intelligence modifier. */
  lemma UnmappedSkillUsesInt(sc: Scoring, skillKey: string)
    requires !HasKey(sc.abilityOf, skillKey)
    ensures SkillMod(sc, skillKey) == sc.mods.intl
  {
  }

  /** What one proficiency entry does to a lookup in the skills. */
  lemma SkillStepGet(skills: seq<(string, Json)>, skillKey: string, value: Json, sc: Scoring, k: string)
    ensures Get(SkillStep(skills, skillKey, value, sc), k)
         == if !Listed(skillKey, Excluded) && value.JNum? && skillKey == k
            then Some(JNum(value.n + sc.level + SkillMod(sc, skillKey)))
            else Get(skills, k)
  {
    if !Listed(skillKey, Excluded) && value.JNum? {
      var v := JNum(value.n + sc.level + SkillMod(sc, skillKey));
      assert SkillStep(skills, skillKey, value, sc) == Set(skills, skillKey, v);
      GetSet(skills, skillKey, v, k);
    } else {
      assert SkillStep(skills, skillKey, value, sc) == skills;
    }
  }

  /** Proficiency entry `j` is where the skill `k` with lookup result `r` comes from. */
  predicate SkillSource(prof: seq<(string, Json)>, j: int, k: string, sc: Scoring, r: Option<Json>)
  {
    0 <= j < |prof| && ToLower(prof[j].0) == k && prof[j].1.JNum?
    && r == Some(JNum(prof[j].1.n + sc.level + SkillMod(sc, k)))
  }

  /** Every skill the proficiencies produce is a non-excluded, lower-cased proficiency key whose value is a
    * number, and holds that number + level + the skill's modifier. */
  lemma {:induction false} SkillsSound(prof: seq<(string, Json)>, sc: Scoring, k: string)
    requires Get(SkillsOf(prof, sc), k).Some?
    ensures !Listed(k, Excluded)
    ensures exists j :: SkillSource(prof, j, k, sc, Get(SkillsOf(prof, sc), k))
  {
    var init := prof[..|prof| - 1];
    var e := prof[|prof| - 1];
    var r := Get(SkillsOf(prof, sc), k);
    assert SkillsOf(prof, sc) == SkillStep(SkillsOf(init, sc), ToLower(e.0), e.1, sc);
    SkillStepGet(SkillsOf(init, sc), ToLower(e.0), e.1, sc, k);
    if !Listed(ToLower(e.0), Excluded) && e.1.JNum? && ToLower(e.0) == k {
      assert SkillSource(prof, |prof| - 1, k, sc, r);
    } else {
      SkillsSound(init, sc, k);
      var j :| SkillSource(init, j, k, sc, Get(SkillsOf(init, sc), k));
      assert prof[j] == init[j];
      assert SkillSource(prof, j, k, sc, r);
    }
  }

  /** Every number-valued, non-excluded proficiency ends up among the skills, under its lower-cased key. */
  lemma {:induction false} SkillsComplete(prof: seq<(string, Json)>, sc: Scoring, j: nat)
    requires j < |prof| && prof[j].1.JNum? && !Listed(ToLower(prof[j].0), Excluded)
    ensures Get(SkillsOf(prof, sc), ToLower(prof[j].0)).Some?
  {
    var init := prof[..|prof| - 1];
    var e := prof[|prof| - 1];
    var k := ToLower(prof[j].0);
    assert SkillsOf(prof, sc) == SkillStep(SkillsOf(init, sc), ToLower(e.0), e.1, sc);
    SkillStepGet(SkillsOf(init, sc), ToLower(e.0), e.1, sc, k);
    if j < |init| {
      assert init[j] == prof[j];
      SkillsComplete(init, sc, j);
    }
  }

  lemma LoreStepGet(lores: seq<(string, Json)>, e: (Json, Json), level: int, intMod: int, k: string)
    ensures Get(LoreStep(lores, e, level, intMod), k)
         == if e.0.JStr? && e.1.JNum? && ToLower(e.0.s) == k then Some(JNum(e.1.n + level + intMod)) else Get(lores, k)
  {
    if e.0.JStr? && e.1.JNum? {
      var key := ToLower(e.0.s);
      var v := JNum(e.1.n + level + intMod);
      assert LoreStep(lores, e, level, intMod) == Set(lores, key, v);
      GetSet(lores, key, v, k);
    } else {
      assert LoreStep(lores, e, level, intMod) == lores;
    }
  }

  /** Lore pair `j` is where the lore `k` with lookup result `r` comes from. */
  predicate LoreSource(lores: seq<(Json, Json)>, j: int, k: string, level: int, intMod: int, r: Option<Json>)
  {
    0 <= j < |lores| && lores[j].0.JStr? && ToLower(lores[j].0.s) == k && lores[j].1.JNum?
    && r == Some(JNum(lores[j].1.n + level + intMod))
  }

  /** Every lore is stored lower-cased, at rank + level + the intelligence modifier. */
  lemma {:induction false} LoresSound(lores: seq<(Json, Json)>, level: int, intMod: int, k: string)
    requires Get(LoresOf(lores, level, intMod), k).Some?
    ensures exists j :: LoreSource(lores, j, k, level, intMod, Get(LoresOf(lores, level, intMod), k))
  {
    var init := lores[..|lores| - 1];
    var e := lores[|lores| - 1];
    assert LoresOf(lores, level, intMod) == LoreStep(LoresOf(init, level, intMod), e, level, intMod);
    LoreStepGet(LoresOf(init, level, intMod), e, level, intMod, k);
    if e.0.JStr? && e.1.JNum? && ToLower(e.0.s) == k {
      assert LoreSource(lores, |lores| - 1, k, level, intMod, Get(LoresOf(lores, level, intMod), k));
    } else {
      LoresSound(init, level, intMod, k);
      var j :| LoreSource(init, j, k, level, intMod, Get(LoresOf(init, level, intMod), k));
      assert lores[j] == init[j];
      assert LoreSource(lores, j, k, level, intMod, Get(LoresOf(lores, level, intMod), k));
    }
  }

  /** `lores` appears among the skills exactly when at least one lore pair is a (string, number). */
  lemma {:induction false} LoresPresentIffValid(lores: seq<(Json, Json)>, level: int, intMod: int)
    ensures |LoresOf(lores, level, intMod)| > 0 <==> exists j :: 0 <= j < |lores| && lores[j].0.JStr? && lores[j].1.JNum?
  {
    if |lores| > 0 {
      var init := lores[..|lores| - 1];
      LoresPresentIffValid(init, level, intMod);
      var e := lores[|lores| - 1];
      if exists j :: 0 <= j < |init| && init[j].0.JStr? && init[j].1.JNum? {
        var j :| 0 <= j < |init| && init[j].0.JStr? && init[j].1.JNum?;
        assert lores[j] == init[j];
      }
      if exists j :: 0 <= j < |lores| && lores[j].0.JStr? && lores[j].1.JNum? {
        var j :| 0 <= j < |lores| && lores[j].0.JStr? && lores[j].1.JNum?;
        if j < |init| { assert init[j] == lores[j]; }
      }
    }
  }

  /** The imported skills are the proficiency skills, with `lores` replaced by the lore table when there is one. */
  lemma ParsedSkills(doc: Export, id: string, k: string)
    requires Complete(doc)
    ensures var b := doc.build.value;
            var mods := Modifiers(b.abilities.value);
            var skills := SkillsOf(b.proficiencies.value, Scoring(SkillAttributeMap, b.level, mods, DexPenalty(b, mods)));
            var lores := LoresOf(b.lores, b.level, mods.intl);
            Get(Parsed(doc, id).skills, k)
            == if k == "lores" && |lores| > 0 then Some(JObj(lores)) else Get(skills, k)
  {
    var b := doc.build.value;
    var mods := Modifiers(b.abilities.value);
    var skills := SkillsOf(b.proficiencies.value, Scoring(SkillAttributeMap, b.level, mods, DexPenalty(b, mods)));
    var lores := LoresOf(b.lores, b.level, mods.intl);
    if |lores| > 0 {
      GetSet(skills, "lores", JObj(lores), k);
    }
  }

  /** The alias is the first space-separated word of the trimmed name. */
  lemma AliasIsFirstWord(doc: Export, id: string)
    requires Complete(doc)
    ensures var p := Parsed(doc, id);
            ' ' !in p.alias && StartsWith(p.name, p.alias)
            && (|p.alias| < |p.name| ==> p.name[|p.alias|] == ' ')
  {
    var p := Parsed(doc, id);
    var ws := Split(p.name, ' ');
    JoinSplit(p.name, ' ');
    if |ws| > 1 {
      assert Join(ws, ' ') == ws[0] + [' '] + Join(ws[1..], ' ');
      assert p.name[..|ws[0]|] == ws[0];
    } else {
      assert Join(ws, ' ') == ws[0];
    }
  }
}
