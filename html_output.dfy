/**
 * The HTML formatting of src/utils/htmlOutputFormat.ts that the player and
 * list screens use: the player sheet (`formatPlayerHtml`), the region list
 * entry (`formatRegionListItem`), `capitalize` and the icon tables with
 * their fallbacks. Translation is a parameter `t` from key to text.
 */
module HtmlOutput {
  import opened Wrappers
  import opened Js

  // ---------------------------------------------------------------------
  // capitalize

  /** `str.charAt(0).toUpperCase() + str.slice(1)`, for ASCII letters. */
  function Capitalize(s: string): (r: string)
    ensures |r| == |s|
    ensures s != [] ==> r[0] == UpperChar(s[0])
    ensures forall i :: 1 <= i < |s| ==> r[i] == s[i]
  {
    if s == [] then [] else [UpperChar(s[0])] + s[1..]
  }

  /** Capitalizing twice is capitalizing once. */
  lemma CapitalizeIdempotent(s: string)
    ensures Capitalize(Capitalize(s)) == Capitalize(s)
  {
    if s != [] {
      var c := Capitalize(s);
      assert UpperChar(c[0]) == c[0];
      assert Capitalize(c) == [UpperChar(c[0])] + c[1..];
      assert c == [c[0]] + c[1..];
    }
  }

  // ---------------------------------------------------------------------
  // Icon tables

  /** A `Record<string, string>` literal, as its entries. */
  type Table = seq<(string, string)>

  predicate HasKey(table: Table, key: string)
  {
    exists i :: 0 <= i < |table| && table[i].0 == key
  }

  /** `icons[key] || fallback`: the first entry for the key unless it is empty, else the fallback. */
  function Lookup(table: Table, key: string, fallback: string): (r: string)
    ensures !HasKey(table, key) ==> r == fallback
    ensures r == fallback || exists i :: 0 <= i < |table| && table[i] == (key, r) && r != ""
  {
    if table == [] then fallback
    else if table[0].0 == key then (if table[0].1 != "" then table[0].1 else fallback)
    else
      var r := Lookup(table[1..], key, fallback);
      assert r != fallback ==> exists i :: 0 <= i < |table| && table[i] == (key, r) && r != "" by {
        if r != fallback {
          var i :| 0 <= i < |table[1..]| && table[1..][i] == (key, r) && r != "";
          assert table[i + 1] == (key, r);
        }
      }
      assert !HasKey(table, key) ==> !HasKey(table[1..], key) by {
        if HasKey(table[1..], key) {
          var i :| 0 <= i < |table[1..]| && table[1..][i].0 == key;
          assert table[i + 1].0 == key;
        }
      }
      r
  }

  /** A key whose first entry holds a non-empty icon gets that icon. */
  lemma {:induction false} LookupFound(table: Table, key: string, fallback: string, i: nat)
    requires i < |table| && table[i].0 == key && table[i].1 != ""
    requires forall j :: 0 <= j < i ==> table[j].0 != key
    ensures Lookup(table, key, fallback) == table[i].1
  {
    if i > 0 {
      LookupFound(table[1..], key, fallback, i - 1);
    }
  }

  const TerrainIcons: Table := [
    ("forest", "🌲"), ("cave", "🦇"), ("desert", "🏜️"), ("city", "🏙️"), ("mountains", "🗻"),
    ("swamp", "🐊"), ("plains", "🌾"), ("ocean", "🌊"), ("dungeon", "🕳️"), ("ruins", "🏛️"),
    ("underground", "⚫"), ("arctic", "❄️"), ("volcanic", "🌋"), ("urban", "🏙️")]

  const DifficultyIcons: Table := [
    ("trivial", "🟢"), ("low", "🟡"), ("moderate", "🟠"), ("severe", "🔴"), ("extreme", "💀")]

  const PlaceTypeIcons: Table := [
    ("city", "🏙️"), ("town", "🏘️"), ("village", "🛖"), ("dungeon", "🕳️"), ("ruins", "🏛️"),
    ("tomb", "⚰️"), ("cave", "🦇"), ("forest", "🌲"), ("mountain", "🗻"), ("swamp", "🐊"),
    ("desert", "🏜️"), ("lake", "🏞️"), ("fortress", "🏰"), ("temple", "⛪"), ("tower", "🗼"),
    ("bridge", "🌉"), ("portal", "🌀"), ("shrine", "🕯️"), ("camp", "⛺")]

  const RegionTypeIcons: Table := [
    ("kingdom", "🏰"), ("wilderness", "🌲"), ("plane", "🌀"), ("continent", "🌍"), ("underworld", "🕳️")]

  const RarityIcons: Table := [
    ("common", "⚪"), ("uncommon", "🟢"), ("rare", "🔵"), ("very-rare", "🟣"), ("legendary", "🟠"), ("artifact", "🔴")]

  const EventTypeIcons: Table := [
    ("obstacle", "🧗"), ("social", "💬"), ("exploration", "🗺️"), ("puzzle", "🧩"), ("trap", "🕳️"),
    ("environmental", "🌩️"), ("mystery", "🔍")]

  const EventDifficultyIcons: Table := [
    ("trivial", "🟢"), ("easy", "🟡"), ("moderate", "🟠"), ("hard", "🔴"), ("extreme", "💀")]

  /** `getTerrainIcon`: an unknown terrain gets the globe. */
  function TerrainIcon(terrain: string): (r: string)
    ensures !HasKey(TerrainIcons, terrain) ==> r == "🌍"
  {
    Lookup(TerrainIcons, terrain, "🌍")
  }

  /** `getDifficultyIcon`: an unknown difficulty gets the white circle. */
  function DifficultyIcon(difficulty: string): (r: string)
    ensures !HasKey(DifficultyIcons, difficulty) ==> r == "⚪"
  {
    Lookup(DifficultyIcons, difficulty, "⚪")
  }

  /** `getPlaceTypeIcon`: an unknown place type gets the construction sign. */
  function PlaceTypeIcon(placeType: string): (r: string)
    ensures !HasKey(PlaceTypeIcons, placeType) ==> r == "🏗️"
  {
    Lookup(PlaceTypeIcons, placeType, "🏗️")
  }

  /** `getRegionTypeIcon`: an unknown region type gets the castle. */
  function RegionTypeIcon(regionType: string): (r: string)
    ensures !HasKey(RegionTypeIcons, regionType) ==> r == "🏰"
  {
    Lookup(RegionTypeIcons, regionType, "🏰")
  }

  /** `getRarityIcon`: an unknown rarity gets the white circle. */
  function RarityIcon(rarity: string): (r: string)
    ensures !HasKey(RarityIcons, rarity) ==> r == "⚪"
  {
    Lookup(RarityIcons, rarity, "⚪")
  }

  /** `getEventTypeIcon`: an unknown event type gets the masks. */
  function EventTypeIcon(eventType: string): (r: string)
    ensures !HasKey(EventTypeIcons, eventType) ==> r == "🎭"
  {
    Lookup(EventTypeIcons, eventType, "🎭")
  }

  /** `getEventDifficultyIcon`: an unknown difficulty gets the white circle. */
  function EventDifficultyIcon(difficulty: string): (r: string)
    ensures !HasKey(EventDifficultyIcons, difficulty) ==> r == "⚪"
  {
    Lookup(EventDifficultyIcons, difficulty, "⚪")
  }

  /** The array of `getDangerLevelIcon` and `getThreatLevelIcon`: index 0 is empty. */
  const LevelIcons: seq<string> := ["", "🟢", "🟡", "🟠", "🔴", "💀"]

  /**
   * `icons[level] || '🟡'`, the body of both `getDangerLevelIcon` and
   * `getThreatLevelIcon`: level 0 reads the empty entry and a level
   * outside the array reads nothing, so both fall back to the yellow
   * circle, which is also the icon of level 2.
   */
  function LevelIcon(level: int): (r: string)
    ensures (level <= 0 || level > 5) ==> r == "🟡"
    ensures 1 <= level <= 5 ==> r == LevelIcons[level]
  {
    if 0 <= level < |LevelIcons| && LevelIcons[level] != "" then LevelIcons[level] else "🟡"
  }

  // ---------------------------------------------------------------------
  // formatRegionListItem

  datatype Region = Region(id: string, name: string, regionType: string, threatLevel: int, autoTags: Option<seq<string>>)

  /** The entry `formatRegionListItem` returns; `title` is the source's `label`. */
  datatype RegionEntry = RegionEntry(title: string, subtitle: string, callbackId: string)

  /** `tags.map(tag => '#' + tag)`. */
  function Hashed(tags: seq<string>): (r: seq<string>)
    ensures |r| == |tags| && forall i :: 0 <= i < |tags| ==> r[i] == "#" + tags[i]
  {
    if tags == [] then [] else ["#" + tags[0]] + Hashed(tags[1..])
  }

  /** `autoTags.slice(0, 3).map(tag => '#' + tag).join(' ')`. */
  function PreviewTags(tags: seq<string>): (r: string)
  {
    Join(Hashed(if |tags| <= 3 then tags else tags[..3]), ' ')
  }

  /** A join of non-empty parts is empty only when there are no parts. */
  lemma {:induction false} JoinEmpty(parts: seq<string>, sep: char)
    requires forall i :: 0 <= i < |parts| ==> parts[i] != ""
    ensures Join(parts, sep) == "" <==> parts == []
  {
    if |parts| > 1 {
      assert parts[0] != "";
    } else if |parts| == 1 {
      assert Join(parts, sep) == parts[0];
    }
  }

  /** The preview reads only the first three tags, and is empty exactly when there are none. */
  lemma PreviewTagsProperties(tags: seq<string>)
    ensures PreviewTags(tags) == "" <==> tags == []
    ensures |tags| > 3 ==> PreviewTags(tags) == PreviewTags(tags[..3])
  {
    var shown := if |tags| <= 3 then tags else tags[..3];
    JoinEmpty(Hashed(shown), ' ');
    if |tags| > 3 {
      assert tags[..3][..3] == tags[..3];
    }
  }

  /** `formatRegionListItem`: the icons, the translated type, and the tag preview or `no_tags`. */
  function FormatRegionListItem(region: Region, t: string -> string): (entry: RegionEntry)
    ensures entry.callbackId == region.id
    ensures entry.title == RegionTypeIcon(region.regionType) + " " + region.name
  {
    var tags := if region.autoTags.Some? then region.autoTags.value else [];
    var preview := PreviewTags(tags);
    RegionEntry(
      RegionTypeIcon(region.regionType) + " " + region.name,
      LevelIcon(region.threatLevel) + " " + t("region_type_" + region.regionType) + " • "
        + (if preview != "" then preview else t("no_tags")),
      region.id)
  }

  /** The subtitle ends with the tag preview, or with the `no_tags` text when the region has no tag. */
  lemma RegionSubtitle(region: Region, t: string -> string)
    ensures var tags := if region.autoTags.Some? then region.autoTags.value else [];
      var head := LevelIcon(region.threatLevel) + " " + t("region_type_" + region.regionType) + " • ";
      FormatRegionListItem(region, t).subtitle
        == head + (if tags == [] then t("no_tags") else PreviewTags(tags))
  {
    var tags := if region.autoTags.Some? then region.autoTags.value else [];
    PreviewTagsProperties(tags);
  }

  // ---------------------------------------------------------------------
  // formatPlayerHtml

  /** A value of `player.skills`: a number, an object of lores, or anything else. */
  datatype SkillValue = Num(n: int) | LoreTable(lores: seq<(string, int)>) | NotNumber

  datatype Attributes = Attributes(strength: int, dexterity: int, constitution: int,
                                   intelligence: int, wisdom: int, charisma: int)

  /** `metadata.spells`: an absent field is `None`. */
  datatype Spells = Spells(spellAttack: Option<int>, spellDc: Option<int>)

  /** `player.metadata`, with only the fields the sheet reads. */
  datatype Metadata = Metadata(
    ancestry: Option<string>,
    hp: Option<int>,
    ac: Option<int>,
    classDc: Option<int>,
    attributes: Option<Attributes>,
    attacks: seq<string>,
    spells: Option<Spells>)

  datatype PlayerSheet = PlayerSheet(
    name: string,
    className: string,
    level: int,
    perception: int,
    fortitude: int,
    reflex: int,
    will: int,
    skills: seq<(string, SkillValue)>,
    metadata: Option<Metadata>)

  /** A save line: the icon, the label, then a literal `+` before the value, whatever its sign. */
  function SaveLine(icon: string, name: string, v: int): string
  {
    icon + " <b>" + name + "</b>: +" + IntToString(v)
  }

  /** `${value > 0 ? '+' : ''}${value}`. */
  function SignedValue(v: int): string
  {
    (if v > 0 then "+" else "") + IntToString(v)
  }

  /** The line of a numeric skill. */
  function SkillLine(key: string, v: int): string
  {
    "• " + Capitalize(key) + ": " + SignedValue(v)
  }

  /** The line of one lore. */
  function LoreLine(lore: string, bonus: int): string
  {
    "📖 <b>Lore (" + Capitalize(lore) + ")</b>: +" + IntToString(bonus)
  }

  /** The skill lines the loop has pushed after reading `entries`, in their order. */
  function SkillLinesOf(entries: seq<(string, SkillValue)>): seq<string>
  {
    if entries == [] then []
    else
      var last := entries[|entries| - 1];
      SkillLinesOf(entries[..|entries| - 1])
        + (if !(last.0 == "lores" && last.1.LoreTable?) && last.1.Num? then [SkillLine(last.0, last.1.n)] else [])
  }

  /** The lines of the lores of one object, in their order. */
  function LoreLinesIn(lores: seq<(string, int)>): seq<string>
  {
    if lores == [] then []
    else LoreLinesIn(lores[..|lores| - 1]) + [LoreLine(lores[|lores| - 1].0, lores[|lores| - 1].1)]
  }

  /** The lore lines the loop has pushed after reading `entries`. */
  function LoreLinesOf(entries: seq<(string, SkillValue)>): seq<string>
  {
    if entries == [] then []
    else
      var last := entries[|entries| - 1];
      LoreLinesOf(entries[..|entries| - 1])
        + (if last.0 == "lores" && last.1.LoreTable? then LoreLinesIn(last.1.lores) else [])
  }

  /** How many entries hold a number. */
  function NumberCount(entries: seq<(string, SkillValue)>): nat
  {
    if entries == [] then 0
    else NumberCount(entries[..|entries| - 1]) + (if entries[|entries| - 1].1.Num? then 1 else 0)
  }

  /** Exactly the numeric entries give skill lines, one each, and each line is that of a numeric entry. */
  lemma {:induction false} SkillLinesFromNumbers(entries: seq<(string, SkillValue)>)
    ensures |SkillLinesOf(entries)| == NumberCount(entries)
    ensures forall l :: l in SkillLinesOf(entries) ==>
      exists i :: 0 <= i < |entries| && entries[i].1.Num? && l == SkillLine(entries[i].0, entries[i].1.n)
  {
    if entries != [] {
      var init := entries[..|entries| - 1];
      SkillLinesFromNumbers(init);
      forall l | l in SkillLinesOf(entries)
        ensures exists i :: 0 <= i < |entries| && entries[i].1.Num? && l == SkillLine(entries[i].0, entries[i].1.n)
      {
        if l in SkillLinesOf(init) {
          var i :| 0 <= i < |init| && init[i].1.Num? && l == SkillLine(init[i].0, init[i].1.n);
          assert entries[i] == init[i];
        } else {
          assert entries[|entries| - 1].1.Num?;
        }
      }
    }
  }

  /** A lore object under `lores` gives one line per lore, in its order. */
  lemma {:induction false} LoreLinesCount(lores: seq<(string, int)>)
    ensures |LoreLinesIn(lores)| == |lores|
    ensures forall i :: 0 <= i < |lores| ==> LoreLinesIn(lores)[i] == LoreLine(lores[i].0, lores[i].1)
  {
    hide LoreLine;
    if lores != [] {
      LoreLinesCount(lores[..|lores| - 1]);
    }
  }

  /** The value of a skill line has a `+` exactly when it is positive. */
  lemma SignShownOnlyWhenPositive(v: int)
    ensures SignedValue(v)[0] == '+' <==> v > 0
  {
    var s := IntToString(v);
    if v >= 0 {
      assert s[0] != '+' by {
        assert IsDigit(s[0]);
      }
    } else {
      assert s[0] == '-';
    }
  }

  /** A negative save is still printed after a `+`. */
  lemma NegativeSavePrintedWithPlus(icon: string, name: string, v: int)
    requires v < 0
    ensures SaveLine(icon, name, v) == icon + " <b>" + name + "</b>: +-" + NatToString(-v)
  {
  }

  // Ordering of the lines

  /** Code-point lexicographic order. */
  predicate LessEq(a: string, b: string)
    decreases |a|
  {
    a == [] || (b != [] && (a[0] < b[0] || (a[0] == b[0] && LessEq(a[1..], b[1..]))))
  }

  lemma {:induction false} LessEqTotal(a: string, b: string)
    ensures LessEq(a, b) || LessEq(b, a)
    decreases |a|
  {
    if a != [] && b != [] && a[0] == b[0] {
      LessEqTotal(a[1..], b[1..]);
    }
  }

  predicate Ordered(xs: seq<string>)
  {
    forall i :: 0 < i < |xs| ==> LessEq(xs[i - 1], xs[i])
  }

  /** Inserts `x` before the first line it does not follow. */
  function Insert(x: string, xs: seq<string>): (r: seq<string>)
    requires Ordered(xs)
    ensures Ordered(r) && multiset(r) == multiset(xs) + multiset{x}
    ensures r != [] && (r[0] == x || (xs != [] && r[0] == xs[0]))
  {
    if xs == [] then [x]
    else if LessEq(x, xs[0]) then [x] + xs
    else
      var rest := Insert(x, xs[1..]);
      LessEqTotal(x, xs[0]);
      assert xs == [xs[0]] + xs[1..];
      [xs[0]] + rest
  }

  /** `lines.sort(...)`: the lines in order, none lost or added. */
  function SortLines(xs: seq<string>): (r: seq<string>)
    ensures Ordered(r) && multiset(r) == multiset(xs)
  {
    if xs == [] then []
    else
      assert xs == [xs[0]] + xs[1..];
      Insert(xs[0], SortLines(xs[1..]))
  }

  // The sheet

  /** The header: name, class and level, then the ancestry when it is set. */
  function HeaderLines(p: PlayerSheet, t: string -> string): seq<string>
  {
    ["🧙 <b>" + p.name + "</b> – " + p.className + " (lvl " + IntToString(p.level) + ")"]
      + (if p.metadata.Some? && p.metadata.value.ancestry.Some? && p.metadata.value.ancestry.value != ""
         then ["🏞️ <b>" + t("ancestry") + ":</b> " + p.metadata.value.ancestry.value] else [])
  }

  /** A blank line, then the four save lines. */
  function SaveLines(p: PlayerSheet, t: string -> string): seq<string>
  {
    ["", SaveLine("🎯", t("perception"), p.perception), SaveLine("🛡️", t("fortitude"), p.fortitude),
     SaveLine("💨", t("reflex"), p.reflex), SaveLine("🧠", t("will"), p.will)]
  }

  /** The parts of the HP, AC and class DC line, in that order. */
  function CombatParts(m: Metadata): seq<string>
  {
    (if m.hp.Some? then ["❤️ HP " + IntToString(m.hp.value)] else [])
      + (if m.ac.Some? then ["🛡️ AC " + IntToString(m.ac.value)] else [])
      + (if m.classDc.Some? then ["🎓 Class DC " + IntToString(m.classDc.value)] else [])
  }

  /** The HP, AC and class DC line, when one of them is defined. */
  function CombatLines(p: PlayerSheet): seq<string>
  {
    if p.metadata.Some? && (p.metadata.value.hp.Some? || p.metadata.value.ac.Some? || p.metadata.value.classDc.Some?)
    then ["\n" + JoinText(CombatParts(p.metadata.value), " | ")]
    else []
  }

  /** `parts.join(sep)` for a separator of several characters. */
  function JoinText(parts: seq<string>, sep: string): string
  {
    if |parts| == 0 then ""
    else if |parts| == 1 then parts[0]
    else parts[0] + sep + JoinText(parts[1..], sep)
  }

  /** A number or an absent spell field is truthy unless absent or zero. */
  predicate Truthy(v: Option<int>)
  {
    v.Some? && v.value != 0
  }

  /** The attributes, the first attack and the spells, each when present. */
  function ExtraLines(p: PlayerSheet, t: string -> string): seq<string>
  {
    if p.metadata.None? then []
    else
      var m := p.metadata.value;
      (if m.attributes.Some? then
         var a := m.attributes.value;
         ["\n🧬 <b>" + t("attributes") + ":</b> "
          + "STR " + IntToString(a.strength) + ", DEX " + IntToString(a.dexterity) + ", CON " + IntToString(a.constitution) + ", "
          + "INT " + IntToString(a.intelligence) + ", WIS " + IntToString(a.wisdom) + ", CHA " + IntToString(a.charisma)]
       else [])
      + (if |m.attacks| > 0 then ["\n🗡️ <b>" + t("attack") + ":</b> " + m.attacks[0]] else [])
      + (if m.spells.Some? && (Truthy(m.spells.value.spellAttack) || Truthy(m.spells.value.spellDc)) then
           var sp := m.spells.value;
           ["✨ <b>" + t("spells") + ":</b> "
            + (if sp.spellAttack.Some? then "Atk +" + IntToString(sp.spellAttack.value) else "")
            + (if sp.spellAttack.Some? && sp.spellDc.Some? then ", " else "")
            + (if sp.spellDc.Some? then "DC " + IntToString(sp.spellDc.value) else "")]
         else [])
  }

  /** The skill block, sorted, when a skill line exists. */
  function SkillBlock(skillLines: seq<string>, t: string -> string): seq<string>
  {
    if skillLines == [] then []
    else ["\n📚 <b>" + t("skills") + "</b>:\n" + Join(SortLines(skillLines), '\n')]
  }

  /** The lore block, sorted, when a lore line exists. */
  function LoreBlock(loreLines: seq<string>): seq<string>
  {
    if loreLines == [] then []
    else ["\n" + Join(SortLines(loreLines), '\n')]
  }

  /** Every line of the sheet, before they are joined. */
  function SheetLines(p: PlayerSheet, t: string -> string): seq<string>
  {
    HeaderLines(p, t) + SaveLines(p, t) + CombatLines(p) + ExtraLines(p, t)
      + SkillBlock(SkillLinesOf(p.skills), t) + LoreBlock(LoreLinesOf(p.skills))
  }

  /** The loop of `formatPlayerHtml` over `player.skills`: the skill lines and the lore lines, unsorted. */
  method CollectSkillLines(skills: seq<(string, SkillValue)>) returns (skillLines: seq<string>, loreLines: seq<string>)
    ensures skillLines == SkillLinesOf(skills) && loreLines == LoreLinesOf(skills)
  {
    hide SkillLine, LoreLine;
    skillLines := [];
    loreLines := [];
    var i := 0;
    while i < |skills|
      invariant 0 <= i <= |skills|
      invariant skillLines == SkillLinesOf(skills[..i])
      invariant loreLines == LoreLinesOf(skills[..i])
    {
      var (key, value) := skills[i];
      assert skills[..i + 1][..i] == skills[..i];
      if key == "lores" && value.LoreTable? {
        var j := 0;
        var before := loreLines;
        while j < |value.lores|
          invariant 0 <= j <= |value.lores|
          invariant loreLines == before + LoreLinesIn(value.lores[..j])
        {
          assert value.lores[..j + 1][..j] == value.lores[..j];
          loreLines := loreLines + [LoreLine(value.lores[j].0, value.lores[j].1)];
          j := j + 1;
        }
        assert value.lores[..j] == value.lores;
      } else if value.Num? {
        skillLines := skillLines + [SkillLine(key, value.n)];
      }
      i := i + 1;
    }
    assert skills[..i] == skills;
  }

  /**
   * `formatPlayerHtml`: the header and save lines, the optional lines,
   * then the skill lines and the lore lines of `player.skills`, each group
   * sorted, all joined with new lines.
   */
  method FormatPlayerHtml(p: PlayerSheet, t: string -> string) returns (html: string)
    ensures html == Join(SheetLines(p, t), '\n')
  {
    hide HeaderLines, SaveLines, CombatLines, ExtraLines, SkillLinesOf, LoreLinesOf, Join, SortLines;
    var lines := HeaderLines(p, t) + SaveLines(p, t) + CombatLines(p) + ExtraLines(p, t);
    var skillLines, loreLines := CollectSkillLines(p.skills);
    if |skillLines| > 0 {
      var sorted := SortLines(skillLines);
      lines := lines + ["\n📚 <b>" + t("skills") + "</b>:\n" + Join(sorted, '\n')];
    }
    assert lines == HeaderLines(p, t) + SaveLines(p, t) + CombatLines(p) + ExtraLines(p, t) + SkillBlock(skillLines, t);
    if |loreLines| > 0 {
      var sorted := SortLines(loreLines);
      lines := lines + ["\n" + Join(sorted, '\n')];
    }
    assert lines == SheetLines(p, t);
    html := Join(lines, '\n');
  }

  /** The HP, AC and class DC line is there exactly when one of the three is defined, joined with ` | `. */
  lemma CombatLineWhenDefined(p: PlayerSheet)
    ensures |CombatLines(p)| == 1 <==>
      p.metadata.Some? && (p.metadata.value.hp.Some? || p.metadata.value.ac.Some? || p.metadata.value.classDc.Some?)
    ensures |CombatLines(p)| == 1 ==> |CombatParts(p.metadata.value)| >= 1
    ensures CombatLines(p) == [] <==> !(p.metadata.Some? && (p.metadata.value.hp.Some? || p.metadata.value.ac.Some? || p.metadata.value.classDc.Some?))
  {
  }

  /** The header is the name line, and the ancestry line when there is one. */
  lemma HeaderSize(p: PlayerSheet, t: string -> string)
    ensures |HeaderLines(p, t)| == 1 || |HeaderLines(p, t)| == 2
  {
  }

  /** The save lines follow the header and a blank line, each with a literal `+`. */
  lemma SavesFollowHeader(p: PlayerSheet, t: string -> string)
    ensures var k := |HeaderLines(p, t)|;
      (k == 1 || k == 2)
      && SheetLines(p, t)[k] == ""
      && SheetLines(p, t)[k + 1] == SaveLine("🎯", t("perception"), p.perception)
      && SheetLines(p, t)[k + 2] == SaveLine("🛡️", t("fortitude"), p.fortitude)
      && SheetLines(p, t)[k + 3] == SaveLine("💨", t("reflex"), p.reflex)
      && SheetLines(p, t)[k + 4] == SaveLine("🧠", t("will"), p.will)
  {
    HeaderSize(p, t);
    hide HeaderLines, SaveLine, CombatLines, ExtraLines, SkillBlock, LoreBlock;
    var k := |HeaderLines(p, t)|;
    var lines := SheetLines(p, t);
    assert lines[k..k + 5] == SaveLines(p, t) by {
      assert lines == HeaderLines(p, t) + SaveLines(p, t) + (CombatLines(p) + ExtraLines(p, t)
        + SkillBlock(SkillLinesOf(p.skills), t) + LoreBlock(LoreLinesOf(p.skills)));
    }
  }

  /** The skill block holds the skill lines sorted and nothing else, and exists only when a skill line does. */
  lemma SkillBlockSorted(p: PlayerSheet, t: string -> string)
    ensures var lines := SkillLinesOf(p.skills);
      (SkillBlock(lines, t) == [] <==> NumberCount(p.skills) == 0)
      && Ordered(SortLines(lines)) && multiset(SortLines(lines)) == multiset(lines)
  {
    SkillLinesFromNumbers(p.skills);
  }
}
