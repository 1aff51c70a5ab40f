/**
 * One player's roll of an attribute (src/helpers/rollResult.ts). The d20
 * is an input: `die(k)` is the k-th value the die produces, and every roll
 * consumes the next one. Result lines are appended to the caller's list.
 */
module RollResultHelper {
  import opened Wrappers
  import opened Js
  import opened Json
  import opened Players

  /** What a line rolled: a named attribute, or one lore of the player's lore table. */
  datatype Attribute = Named(key: string) | Lore(lore: string)

  /**
   * One line of the reply, before translation. A rolled line keeps the
   * modifier as a number; `AttributeLabel` and `ModDisplay` give the text
   * the translation receives for it.
   */
  datatype Entry =
    | Rolled(name: string, stat: Attribute, die: int, base: Number, modifier: Number, total: Number)
    | NoLores(name: string)
    | AttributeNotFound(attribute: string, name: string)
    | PlayerNotFound(name: string)

  /** The attribute names that roll every lore. */
  const LoreNames: seq<string> := ["lore", "lores"]

  const SaveFields: seq<string> := ["perception", "fortitude", "reflex", "will"]

  /** Perception and the three saves, read from the player's own columns. */
  function SaveTable(p: Player): seq<(string, int)>
  {
    [("perception", p.perception), ("fortitude", p.fortitude), ("reflex", p.reflex), ("will", p.will)]
  }

  /** The number a stored JSON value contributes to a sum; anything else is `NaN`. */
  function NumberOf(j: Json): Number
  {
    if j.JNum? then Int(j.n) else NaN
  }

  /** `Math.abs` on a number that may be `NaN`. */
  function Abs(m: Number): Number
  {
    if m.Int? && m.i < 0 then Int(-m.i) else m
  }

  /** `modifier !== 0 ? ` ${sign} ${Math.abs(modifier)}` : ''`, where `NaN >= 0` is false. */
  function ModDisplay(modifier: Number): (s: string)
    ensures s == "" <==> modifier == Int(0)
  {
    if modifier == Int(0) then ""
    else
      var sign := if modifier.Int? && modifier.i >= 0 then "+" else "-";
      " " + sign + " " + NumberToString(Abs(modifier))
  }

  /** `capitalize`: the first character upper-cased, the rest as is. */
  function Capitalize(s: string): (r: string)
    ensures |r| == |s| && (|s| > 0 ==> r[0] == UpperChar(s[0]) && r[1..] == s[1..])
  {
    if s == "" then s else [UpperChar(s[0])] + s[1..]
  }

  /** The attribute as the reply names it: `Lore (<Capitalized>)` for a lore. */
  function AttributeLabel(a: Attribute): (s: string)
    ensures a.Named? ==> s == a.key
    ensures a.Lore? ==> |s| == |a.lore| + 7 && s[..6] == "Lore (" && s[|s| - 1] == ')'
                        && (|a.lore| > 0 ==> s[6] == UpperChar(a.lore[0]) && s[7..|s| - 1] == a.lore[1..])
  {
    match a
    case Named(key) => key
    case Lore(lore) => "Lore (" + Capitalize(lore) + ")"
  }

  /** The lore table of a player: `player.skills?.lores ?? {}` read as entries. */
  function Lores(p: Player): seq<(string, Json)>
  {
    var l := Get(p.skills, "lores");
    if l.Some? && l.value.JObj? then l.value.fields else []
  }

  /** The line for lore `k` of `lores`, rolled with `die(next + k)`. */
  function LoreEntry(p: Player, lores: seq<(string, Json)>, k: nat, modifier: Number, die: nat -> int, next: nat): Entry
    requires k < |lores|
  {
    var d := die(next + k);
    Rolled(p.name, Lore(lores[k].0), d, NumberOf(lores[k].1), modifier, Int(d).Plus(NumberOf(lores[k].1)).Plus(modifier))
  }

  function LoreEntries(p: Player, lores: seq<(string, Json)>, n: nat, modifier: Number, die: nat -> int, next: nat): (r: seq<Entry>)
    requires n <= |lores|
    ensures |r| == n
  {
    if n == 0 then [] else LoreEntries(p, lores, n - 1, modifier, die, next) + [LoreEntry(p, lores, n - 1, modifier, die, next)]
  }

  lemma {:induction false} LoreEntriesAt(p: Player, lores: seq<(string, Json)>, n: nat, k: nat, modifier: Number, die: nat -> int, next: nat)
    requires k < n <= |lores|
    ensures LoreEntries(p, lores, n, modifier, die, next)[k] == LoreEntry(p, lores, k, modifier, die, next)
  {
    if k < n - 1 {
      LoreEntriesAt(p, lores, n - 1, k, modifier, die, next);
    }
  }

  /** The base value of a non-lore attribute: a save field, or the skill, when present. */
  function Base(p: Player, attribute: string): Option<Number>
  {
    var save := Get(SaveTable(p), attribute);
    if save.Some? then Some(Int(save.value))
    else
      var v := Get(p.skills, attribute);
      if v.None? then None
      else if v.value.JNull? then Some(Int(0))
      else Some(NumberOf(v.value))
  }

  /** What `rollResult` appends, and how many die values it uses. */
  function Rolls(p: Player, inputAttribute: string, modifier: Number, die: nat -> int, next: nat): (seq<Entry>, nat)
  {
    var attribute := ToLower(inputAttribute);
    if Listed(attribute, LoreNames) then
      var lores := Lores(p);
      if |lores| == 0 then ([NoLores(p.name)], 0)
      else (LoreEntries(p, lores, |lores|, modifier, die, next), |lores|)
    else
      match Base(p, attribute)
      case None => ([AttributeNotFound(attribute, p.name)], 0)
      case Some(base) =>
        var d := die(next);
        ([Rolled(p.name, Named(attribute), d, base, modifier, Int(d).Plus(base).Plus(modifier))], 1)
  }

  /** The loop over the lore table: one roll per lore, in table order. */
  method RollLores(p: Player, lores: seq<(string, Json)>, modifier: Number, results: seq<Entry>, die: nat -> int, next: nat)
    returns (out: seq<Entry>)
    ensures out == results + LoreEntries(p, lores, |lores|, modifier, die, next)
  {
    out := results;
    for k := 0 to |lores|
      invariant out == results + LoreEntries(p, lores, k, modifier, die, next)
    {
      var d := die(next + k);
      var loreValue := NumberOf(lores[k].1);
      var total := Int(d).Plus(loreValue).Plus(modifier);
      out := out + [Rolled(p.name, Lore(lores[k].0), d, loreValue, modifier, total)];
      assert out == results + LoreEntries(p, lores, k, modifier, die, next) + [LoreEntry(p, lores, k, modifier, die, next)];
    }
  }

  /** `rollResult`: appends to `results`; `used` die values are consumed from `next` on. */
  method RollResult(p: Player, inputAttribute: string, modifier: Number, results: seq<Entry>, die: nat -> int, next: nat)
    returns (out: seq<Entry>, used: nat)
    ensures out == results + Rolls(p, inputAttribute, modifier, die, next).0
    ensures used == Rolls(p, inputAttribute, modifier, die, next).1
  {
    var attribute := ToLower(inputAttribute);
    if Listed(attribute, LoreNames) {
      var lores := Lores(p);
      if |lores| == 0 {
        return results + [NoLores(p.name)], 0;
      }
      out := RollLores(p, lores, modifier, results, die, next);
      return out, |lores|;
    }
    var base := Base(p, attribute);
    if base.None? {
      return results + [AttributeNotFound(attribute, p.name)], 0;
    }
    var d := die(next);
    var total := Int(d).Plus(base.value).Plus(modifier);
    return results + [Rolled(p.name, Named(attribute), d, base.value, modifier, total)], 1;
  }

  /**
   * Results of rolling for each of `xs` in turn into one shared list: each
   * step appends its lines and starts on the die value the previous steps
   * left off at.
   */
  function FoldRolls<T>(step: (T, nat) -> (seq<Entry>, nat), xs: seq<T>, next: nat): (seq<Entry>, nat)
  {
    if |xs| == 0 then ([], 0)
    else
      var init := FoldRolls(step, xs[..|xs| - 1], next);
      var last := step(xs[|xs| - 1], next + init.1);
      (init.0 + last.0, init.1 + last.1)
  }

  lemma FoldRollsStep<T>(step: (T, nat) -> (seq<Entry>, nat), xs: seq<T>, k: nat, next: nat)
    requires k < |xs|
    ensures var init := FoldRolls(step, xs[..k], next);
            var last := step(xs[k], next + init.1);
            FoldRolls(step, xs[..k + 1], next) == (init.0 + last.0, init.1 + last.1)
  {
    var ys := xs[..k + 1];
    assert ys[..|ys| - 1] == xs[..k];
  }

  // ---------------------------------------------------------------------
  // Properties

  /** The attribute is lower-cased before any lookup, so its letter case never matters. */
  lemma AttributeCaseIgnored(p: Player, a: string, b: string, modifier: Number, die: nat -> int, next: nat)
    requires ToLower(a) == ToLower(b)
    ensures Rolls(p, a, modifier, die, next) == Rolls(p, b, modifier, die, next)
  {
  }

  /** Rolling lores with none stored appends a single notice and rolls nothing. */
  lemma NoLoresNotice(p: Player, modifier: Number, die: nat -> int, next: nat)
    requires Lores(p) == []
    ensures Rolls(p, "lore", modifier, die, next) == ([NoLores(p.name)], 0)
    ensures Rolls(p, "lores", modifier, die, next) == ([NoLores(p.name)], 0)
  {
    assert ToLower("lore") == "lore";
    assert ToLower("lores") == "lores";
  }

  /** With lores stored, there is one line per lore, in order, each totalling die + lore value + modifier. */
  lemma OneLinePerLore(p: Player, modifier: Number, die: nat -> int, next: nat)
    requires |Lores(p)| > 0
    ensures var (entries, used) := Rolls(p, "lores", modifier, die, next);
            var lores := Lores(p);
            |entries| == |lores| == used
            && forall k :: 0 <= k < |lores| ==>
                 entries[k].Rolled? && entries[k].die == die(next + k)
                 && entries[k].total == Int(die(next + k)).Plus(NumberOf(lores[k].1)).Plus(modifier)
  {
    assert ToLower("lores") == "lores";
    var lores := Lores(p);
    forall k | 0 <= k < |lores|
      ensures LoreEntries(p, lores, |lores|, modifier, die, next)[k] == LoreEntry(p, lores, k, modifier, die, next)
    {
      LoreEntriesAt(p, lores, |lores|, k, modifier, die, next);
    }
  }

  /** The player's own column that a save name stands for. */
  function StatField(p: Player, save: string): int
    requires save in SaveFields
  {
    if save == "perception" then p.perception
    else if save == "fortitude" then p.fortitude
    else if save == "reflex" then p.reflex
    else p.will
  }

  /** Perception and each save, in any letter case, read the player's own field; one line, one die. */
  lemma SaveUsesStatField(p: Player, a: string, modifier: Number, die: nat -> int, next: nat)
    requires ToLower(a) in SaveFields
    ensures var s := ToLower(a);
            var (entries, used) := Rolls(p, a, modifier, die, next);
            used == 1 && entries == [Rolled(p.name, Named(s), die(next), Int(StatField(p, s)), modifier,
                                            Int(die(next) + StatField(p, s)).Plus(modifier))]
  {
    var s := ToLower(a);
    ListedIsIn(s, LoreNames);
    SaveTableGet(p, s);
  }

  lemma SaveTableGet(p: Player, s: string)
    requires s in SaveFields
    ensures Get(SaveTable(p), s) == Some(StatField(p, s))
  {
    var t := SaveTable(p);
    if s == "perception" {
      assert Get(t, s) == Some(p.perception);
    } else if s == "fortitude" {
      assert Get(t, s) == Get(t[1..], s) == Some(p.fortitude);
    } else if s == "reflex" {
      assert Get(t, s) == Get(t[1..], s) == Get(t[2..], s) == Some(p.reflex);
    } else {
      assert Get(t, s) == Get(t[1..], s) == Get(t[2..], s) == Get(t[3..], s) == Some(p.will);
    }
  }

  /** A skill the player does not have gives the not-found line and rolls nothing; a stored 0 still rolls. */
  lemma MissingSkillNotRolled(p: Player, attribute: string, modifier: Number, die: nat -> int, next: nat)
    requires attribute == ToLower(attribute)
    requires !Listed(attribute, LoreNames) && !Listed(attribute, SaveFields)
    ensures !HasKey(p.skills, attribute) ==> Rolls(p, attribute, modifier, die, next) == ([AttributeNotFound(attribute, p.name)], 0)
    ensures Get(p.skills, attribute) == Some(JNum(0)) ==> Rolls(p, attribute, modifier, die, next).1 == 1
  {
    SaveTableKeys(p, attribute);
  }

  /** The save table answers exactly for the four save names. */
  lemma SaveTableKeys(p: Player, attribute: string)
    ensures Get(SaveTable(p), attribute).Some? <==> Listed(attribute, SaveFields)
  {
    ListedIsIn(attribute, SaveFields);
    assert Keys(SaveTable(p)) == SaveFields;
  }

  /** Every non-lore attribute appends exactly one line. */
  lemma NonLoreOneLine(p: Player, inputAttribute: string, modifier: Number, die: nat -> int, next: nat)
    requires !Listed(ToLower(inputAttribute), LoreNames)
    ensures |Rolls(p, inputAttribute, modifier, die, next).0| == 1
    ensures Rolls(p, inputAttribute, modifier, die, next).1 <= 1
    ensures !Rolls(p, inputAttribute, modifier, die, next).0[0].PlayerNotFound?
  {
  }
}
