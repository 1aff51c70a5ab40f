/**
 * `attr=value` parsing and range validation of player attributes
 * (src/helpers/playerAttributeParser.ts). Updates are JavaScript objects,
 * modelled as entry lists in insertion order, so that validation meets the
 * keys in the order the user typed them (none of the keys is integer-like).
 */
module AttributeParser {
  import opened Wrappers
  import opened Js
  import opened Json

  const ValidSkills: seq<string> := [
    "acrobatics", "arcana", "athletics", "crafting", "deception", "diplomacy",
    "intimidation", "medicine", "nature", "occultism", "performance", "religion",
    "society", "stealth", "survival", "thievery"
  ]

  const NumericKeys: seq<string> := ["level", "perception", "fortitude", "reflex", "will"]
  const NameKeys: seq<string> := ["name", "alias", "className"]
  const StatKeys: seq<string> := ["perception", "fortitude", "reflex", "will"]

  /** `isSkillName`: the lower-cased key is one of the valid skills. */
  predicate IsSkillName(key: string)
  {
    Listed(ToLower(key), ValidSkills)
  }


  // ---------------------------------------------------------------------
  // One argument against ^(\w+)=(.+)$

  /** The longest run of `\w` characters at the start of `s`. */
  function WordPrefix(s: string): (w: string)
    ensures |w| <= |s| && w == s[..|w|]
    ensures forall i :: 0 <= i < |w| ==> IsWordChar(w[i])
    ensures |w| == |s| || !IsWordChar(s[|w|])
  {
    if |s| > 0 && IsWordChar(s[0]) then
      var rest := WordPrefix(s[1..]);
      assert s[1..][..|rest|] == s[1..|rest| + 1];
      [s[0]] + rest
    else ""
  }

  /** The (key, value) captured by `^(\w+)=(.+)$`, if the argument matches. */
  function MatchAssignment(arg: string): (m: Option<(string, string)>)
    ensures m.Some? ==> arg == m.value.0 + "=" + m.value.1
    ensures m.Some? ==> |m.value.0| > 0 && forall i :: 0 <= i < |m.value.0| ==> IsWordChar(m.value.0[i])
    ensures m.Some? ==> IsDotRun(m.value.1)
  {
    var key := WordPrefix(arg);
    if |key| > 0 && |key| < |arg| && arg[|key|] == '=' && IsDotRun(arg[|key| + 1..]) then
      assert arg == key + "=" + arg[|key| + 1..];
      Some((key, arg[|key| + 1..]))
    else None
  }

  /** A key made of word characters followed by '=' and a value is matched back exactly. */
  lemma MatchAssignmentOf(key: string, value: string)
    requires |key| > 0 && forall i :: 0 <= i < |key| ==> IsWordChar(key[i])
    requires IsDotRun(value)
    ensures MatchAssignment(key + "=" + value) == Some((key, value))
  {
    var arg := key + "=" + value;
    assert arg == key + ("=" + value);
    WordPrefixOf(key, "=" + value);
    assert arg[|key|] == '=';
    assert arg[|key| + 1..] == value;
  }

  lemma {:induction false} WordPrefixOf(key: string, rest: string)
    requires forall i :: 0 <= i < |key| ==> IsWordChar(key[i])
    requires rest == [] || !IsWordChar(rest[0])
    ensures WordPrefix(key + rest) == key
  {
    if |key| > 0 {
      assert (key + rest)[1..] == key[1..] + rest;
      WordPrefixOf(key[1..], rest);
      assert [key[0]] + key[1..] == key;
    } else {
      assert key + rest == rest;
    }
  }

  /** `value.replace(/^["']|["']$/g, '')`: one leading and one trailing quote go. */
  function StripQuotes(s: string): (r: string)
    ensures |s| - 2 <= |r| <= |s|
    ensures exists a, b :: 0 <= a <= b <= |s| && r == s[a..b]
  {
    var a := if |s| > 0 && IsQuote(s[0]) then 1 else 0;
    var b := if |s| > a && IsQuote(s[|s| - 1]) then |s| - 1 else |s|;
    s[a..b]
  }

  predicate IsQuote(c: char) { c == '"' || c == '\'' }

  /** A quoted name loses exactly its surrounding quotes; an unquoted one is kept. */
  lemma StripQuotesCases(inner: string, q1: char, q2: char)
    requires IsQuote(q1) && IsQuote(q2)
    requires |inner| == 0 || (!IsQuote(inner[0]) && !IsQuote(inner[|inner| - 1]))
    ensures StripQuotes([q1] + inner + [q2]) == inner
    ensures StripQuotes([q1] + inner) == inner
    ensures StripQuotes(inner + [q2]) == inner
    ensures StripQuotes(inner) == inner
  {
    assert ([q1] + inner + [q2])[1..|inner| + 1] == inner;
    assert ([q1] + inner)[1..] == inner;
    assert (inner + [q2])[..|inner|] == inner;
    assert inner[0..|inner|] == inner;
  }

  // ---------------------------------------------------------------------
  // parseAttributeUpdates

  /** What one argument does to the updates object. */
  function ParseStep(updates: seq<(string, Json)>, arg: string): seq<(string, Json)>
  {
    match MatchAssignment(arg)
    case None => updates
    case Some((key, value)) =>
      if key in NumericKeys then
        (match ParseInt(value)
         case None => updates
         case Some(n) => Set(updates, key, JNum(n)))
      else if key in NameKeys then
        Set(updates, key, JStr(StripQuotes(value)))
      else if IsSkillName(key) then
        (match ParseInt(value)
         case None => updates
         case Some(n) =>
           var skills := GetObject(updates, "skills");
           Set(updates, "skills", JObj(Set(skills, ToLower(key), JNum(n)))))
      else updates
  }

  /** The updates after the arguments have been read in order. */
  function ParsedUpdates(args: seq<string>): seq<(string, Json)>
  {
    if |args| == 0 then [] else ParseStep(ParsedUpdates(args[..|args| - 1]), args[|args| - 1])
  }

  lemma ParsedUpdatesPrefix(args: seq<string>, i: nat)
    requires i < |args|
    ensures ParsedUpdates(args[..i + 1]) == ParseStep(ParsedUpdates(args[..i]), args[i])
  {
    assert args[..i + 1][..i] == args[..i];
  }

  /** `parseAttributeUpdates`. */
  method ParseAttributeUpdates(args: seq<string>) returns (updates: seq<(string, Json)>)
    ensures updates == ParsedUpdates(args)
    ensures WellFormedUpdates(updates)
  {
    hide WellFormedUpdates;
    updates := [];
    assert updates == ParsedUpdates(args[..0]);
    hide ParsedUpdates;
    for i := 0 to |args|
      invariant updates == ParsedUpdates(args[..i])
    {
      var before := updates;
      var m := MatchAssignment(args[i]);
      if m.Some? {
        var (key, value) := m.value;
        if key in NumericKeys {
          var n := ParseInt(value);
          if n.Some? {
            updates := Set(updates, key, JNum(n.value));
          }
        } else if key in NameKeys {
          updates := Set(updates, key, JStr(StripQuotes(value)));
        } else if IsSkillName(key) {
          var n := ParseInt(value);
          if n.Some? {
            var skills := GetObject(updates, "skills");
            updates := Set(updates, "skills", JObj(Set(skills, ToLower(key), JNum(n.value))));
          }
        }
      }
      assert updates == ParseStep(before, args[i]);
      ParsedUpdatesPrefix(args, i);
    }
    assert args[..|args|] == args;
    ParsedUpdatesWellFormed(args);
  }

  /** The keys `validatePlayerUpdates` has a case for. */
  predicate KnownKey(k: string)
  {
    k in NumericKeys || k in NameKeys || k == "skills"
  }

  /** The kind of value the parser stores under a key: numbers, names as strings, skills as an object of numbers. */
  predicate KindOk(k: string, v: Json)
  {
    (k in NumericKeys ==> v.JNum?)
    && (k in NameKeys ==> v.JStr?)
    && (k == "skills" ==> v.JObj? && forall e :: e in v.fields ==> e.1.JNum?)
  }

  /** The shape of every updates object the parser produces: distinct, known keys, each with its kind of value. */
  predicate WellFormedUpdates(u: seq<(string, Json)>)
  {
    UniqueKeys(u)
    && (forall k :: k in Keys(u) ==> KnownKey(k))
    && forall e :: e in u ==> KindOk(e.0, e.1)
  }

  lemma SetWellFormed(u: seq<(string, Json)>, k: string, v: Json)
    requires WellFormedUpdates(u) && KnownKey(k) && KindOk(k, v)
    ensures WellFormedUpdates(Set(u, k, v))
  {
    SetKeepsUnique(u, k, v);
    SetEntries(u, k, v);
    SetKeys(u, k, v);
    forall k' | k' in Keys(Set(u, k, v)) ensures KnownKey(k') {
      if k' !in Keys(u) { assert k' == k; }
    }
  }

  /** The skills object the parser extends holds numbers only. */
  lemma SkillsAreNumbers(u: seq<(string, Json)>)
    requires WellFormedUpdates(u)
    ensures forall e :: e in GetObject(u, "skills") ==> e.1.JNum?
  {
    var r := GetObject(u, "skills");
    if r != [] {
      var i :| 0 <= i < |u| && u[i] == ("skills", JObj(r));
      assert u[i] in u;
    }
  }

  lemma ParseStepWellFormed(u: seq<(string, Json)>, arg: string)
    requires WellFormedUpdates(u)
    ensures WellFormedUpdates(ParseStep(u, arg))
  {
    hide WellFormedUpdates, KindOk, Set, GetObject;
    var m := MatchAssignment(arg);
    if m.Some? {
      var (key, value) := m.value;
      var n := ParseInt(value);
      if key in NumericKeys {
        if n.Some? {
          NumberKindOk(key, n.value);
          SetWellFormed(u, key, JNum(n.value));
        }
      } else if key in NameKeys {
        NameKindOk(key, StripQuotes(value));
        SetWellFormed(u, key, JStr(StripQuotes(value)));
      } else if IsSkillName(key) && n.Some? {
        SkillWriteWellFormed(u, ToLower(key), n.value);
      }
    }
  }

  lemma NumberKindOk(k: string, n: int)
    requires k in NumericKeys
    ensures KnownKey(k) && KindOk(k, JNum(n))
  {
  }

  lemma NameKindOk(k: string, name: string)
    requires k in NameKeys
    ensures KnownKey(k) && KindOk(k, JStr(name))
  {
  }

  lemma SkillWriteWellFormed(u: seq<(string, Json)>, skill: string, n: int)
    requires WellFormedUpdates(u)
    ensures WellFormedUpdates(Set(u, "skills", JObj(Set(GetObject(u, "skills"), skill, JNum(n)))))
  {
    var skills := GetObject(u, "skills");
    SkillsAreNumbers(u);
    SetEntries(skills, skill, JNum(n));
    SetWellFormed(u, "skills", JObj(Set(skills, skill, JNum(n))));
  }

  /** Every key the parser writes is one validation has a case for, holds the kind of value validation expects, and is written once. */
  lemma {:induction false} ParsedUpdatesWellFormed(args: seq<string>)
    ensures WellFormedUpdates(ParsedUpdates(args))
  {
    if |args| > 0 {
      ParsedUpdatesWellFormed(args[..|args| - 1]);
      ParseStepWellFormed(ParsedUpdates(args[..|args| - 1]), args[|args| - 1]);
    }
  }

  /** An argument that does not match `^(\w+)=(.+)$` changes nothing. */
  lemma UnmatchedArgumentIgnored(args: seq<string>, arg: string)
    requires MatchAssignment(arg).None?
    ensures ParsedUpdates(args + [arg]) == ParsedUpdates(args)
  {
    assert (args + [arg])[..|args|] == args;
  }

  /** A key that is neither numeric, a name nor a skill in any case is dropped; keys are case-sensitive, so `Level=5` is one. */
  lemma UnknownKeyIgnored(args: seq<string>, key: string, value: string)
    requires |key| > 0 && forall i :: 0 <= i < |key| ==> IsWordChar(key[i])
    requires IsDotRun(value)
    requires key !in NumericKeys && key !in NameKeys && !IsSkillName(key)
    ensures ParsedUpdates(args + [key + "=" + value]) == ParsedUpdates(args)
  {
    MatchAssignmentOf(key, value);
    assert (args + [key + "=" + value])[..|args|] == args;
  }

  /** A later numeric key overwrites an earlier one; a value parseInt rejects leaves it alone. */
  lemma LaterNumericKeyWins(args: seq<string>, key: string, value: string)
    requires key in NumericKeys && IsDotRun(value)
    ensures var after := ParsedUpdates(args + [key + "=" + value]);
            match ParseInt(value)
            case Some(n) => Get(after, key) == Some(JNum(n))
            case None => after == ParsedUpdates(args)
  {
    var arg := key + "=" + value;
    assert forall i :: 0 <= i < |key| ==> IsWordChar(key[i]);
    MatchAssignmentOf(key, value);
    assert (args + [arg])[..|args|] == args;
    if ParseInt(value).Some? {
      GetSetSame(ParsedUpdates(args), key, JNum(ParseInt(value).value));
    }
  }

  /** A skill key in any letter case is stored lower-cased under `skills`. */
  lemma SkillStoredLowercased(args: seq<string>, key: string, value: string, n: int)
    requires IsSkillName(key) && key !in NumericKeys && key !in NameKeys
    requires |key| > 0 && forall i :: 0 <= i < |key| ==> IsWordChar(key[i])
    requires IsDotRun(value) && ParseInt(value) == Some(n)
    ensures Get(GetObject(ParsedUpdates(args + [key + "=" + value]), "skills"), ToLower(key)) == Some(JNum(n))
  {
    var arg := key + "=" + value;
    MatchAssignmentOf(key, value);
    assert (args + [arg])[..|args|] == args;
    var u := ParsedUpdates(args);
    var skills := GetObject(u, "skills");
    GetSetSame(skills, ToLower(key), JNum(n));
    GetSetSame(u, "skills", JObj(Set(skills, ToLower(key), JNum(n))));
  }

  // ---------------------------------------------------------------------
  // validatePlayerUpdates

  datatype ValidationError =
    | InvalidLevel(value: Json)
    | InvalidStat(key: string, value: Json)
    | InvalidSkill(skill: string, value: Json)
    | InvalidAttribute(key: string)

  datatype Validation = Valid(updates: seq<(string, Json)>) | Invalid(error: ValidationError)

  /** `Object.entries` of an object or array value. */
  function Entries(j: Json): seq<(string, Json)>
  {
    match j
    case JObj(fs) => fs
    case JArr(items) => seq(|items|, i requires 0 <= i < |items| => (NatToString(i), items[i]))
    case _ => []
  }

  predicate IsStatValue(v: Json) { v.JNum? && -10 <= v.n <= 50 }

  predicate IsLevelValue(v: Json) { v.JNum? && 1 <= v.n <= 20 }

  predicate SkillEntryOk(e: (string, Json)) { IsSkillName(e.0) && IsStatValue(e.1) }

  /** The existing skills overlaid with `entries`, stopping at the first bad entry. */
  function MergeSkills(current: seq<(string, Json)>, entries: seq<(string, Json)>): Validation
  {
    if |entries| == 0 then Valid(current)
    else match MergeSkills(current, entries[..|entries| - 1])
      case Invalid(e) => Invalid(e)
      case Valid(acc) =>
        var e := entries[|entries| - 1];
        if SkillEntryOk(e) then Valid(Set(acc, e.0, e.1)) else Invalid(InvalidSkill(e.0, e.1))
  }

  /** What one entry of the updates does to the validated object. */
  function ValidateEntry(acc: seq<(string, Json)>, e: (string, Json), existing: Option<seq<(string, Json)>>): Validation
  {
    var (key, value) := e;
    if key in NameKeys then
      Valid(if value.JStr? && |value.s| > 0 then Set(acc, key, value) else acc)
    else if key == "level" then
      if IsLevelValue(value) then Valid(Set(acc, key, value)) else Invalid(InvalidLevel(value))
    else if key in StatKeys then
      if IsStatValue(value) then Valid(Set(acc, key, value)) else Invalid(InvalidStat(key, value))
    else if key == "skills" then
      if value.JObj? || value.JArr? then
        match MergeSkills(existing.GetOr([]), Entries(value))
        case Invalid(err) => Invalid(err)
        case Valid(skills) => Valid(Set(acc, key, JObj(skills)))
      else Valid(acc)
    else Invalid(InvalidAttribute(key))
  }

  /** The verdict on the first entries of the updates, in insertion order. */
  function ValidateAll(updates: seq<(string, Json)>, existing: Option<seq<(string, Json)>>): Validation
  {
    if |updates| == 0 then Valid([])
    else match ValidateAll(updates[..|updates| - 1], existing)
      case Invalid(e) => Invalid(e)
      case Valid(acc) => ValidateEntry(acc, updates[|updates| - 1], existing)
  }

  lemma {:induction false} MergeInvalidPersists(current: seq<(string, Json)>, entries: seq<(string, Json)>, j: nat)
    requires j <= |entries| && MergeSkills(current, entries[..j]).Invalid?
    ensures MergeSkills(current, entries) == MergeSkills(current, entries[..j])
    decreases |entries| - j
  {
    if j < |entries| {
      assert entries[..j + 1][..j] == entries[..j];
      MergeInvalidPersists(current, entries, j + 1);
    } else {
      assert entries[..j] == entries;
    }
  }

  lemma {:induction false} ValidateInvalidPersists(updates: seq<(string, Json)>, existing: Option<seq<(string, Json)>>, i: nat)
    requires i <= |updates| && ValidateAll(updates[..i], existing).Invalid?
    ensures ValidateAll(updates, existing) == ValidateAll(updates[..i], existing)
    decreases |updates| - i
  {
    if i < |updates| {
      assert updates[..i + 1][..i] == updates[..i];
      ValidateInvalidPersists(updates, existing, i + 1);
    } else {
      assert updates[..i] == updates;
    }
  }

  /** The inner loop of `validatePlayerUpdates` over the entries of `skills`. */
  method MergeSkillValues(current: seq<(string, Json)>, entries: seq<(string, Json)>) returns (v: Validation)
    ensures v == MergeSkills(current, entries)
  {
    var updatedSkills := current;
    for j := 0 to |entries|
      invariant MergeSkills(current, entries[..j]) == Valid(updatedSkills)
    {
      assert entries[..j + 1][..j] == entries[..j];
      var (skillName, skillValue) := entries[j];
      if IsSkillName(skillName) && IsStatValue(skillValue) {
        updatedSkills := Set(updatedSkills, skillName, skillValue);
      } else {
        MergeInvalidPersists(current, entries, j + 1);
        return Invalid(InvalidSkill(skillName, skillValue));
      }
    }
    assert entries[..|entries|] == entries;
    return Valid(updatedSkills);
  }

  /** `validatePlayerUpdates`: returns at the first bad entry, otherwise the validated object. */
  method ValidatePlayerUpdates(updates: seq<(string, Json)>, existing: Option<seq<(string, Json)>>) returns (v: Validation)
    ensures v == ValidateAll(updates, existing)
  {
    var validated: seq<(string, Json)> := [];
    for i := 0 to |updates|
      invariant ValidateAll(updates[..i], existing) == Valid(validated)
    {
      assert updates[..i + 1][..i] == updates[..i];
      var (key, value) := updates[i];
      if key in NameKeys {
        if value.JStr? && |value.s| > 0 {
          validated := Set(validated, key, value);
        }
      } else if key == "level" {
        if IsLevelValue(value) {
          validated := Set(validated, key, value);
        } else {
          ValidateInvalidPersists(updates, existing, i + 1);
          return Invalid(InvalidLevel(value));
        }
      } else if key in StatKeys {
        if IsStatValue(value) {
          validated := Set(validated, key, value);
        } else {
          ValidateInvalidPersists(updates, existing, i + 1);
          return Invalid(InvalidStat(key, value));
        }
      } else if key == "skills" {
        if value.JObj? || value.JArr? {
          var merged := MergeSkillValues(existing.GetOr([]), Entries(value));
          if merged.Invalid? {
            ValidateInvalidPersists(updates, existing, i + 1);
            return merged;
          }
          validated := Set(validated, key, JObj(merged.updates));
        }
      } else {
        ValidateInvalidPersists(updates, existing, i + 1);
        return Invalid(InvalidAttribute(key));
      }
    }
    assert updates[..|updates|] == updates;
    return Valid(validated);
  }

  /** Whether one entry passes validation on its own. */
  predicate EntryOk(e: (string, Json))
  {
    var (key, value) := e;
    if key in NameKeys then true
    else if key == "level" then IsLevelValue(value)
    else if key in StatKeys then IsStatValue(value)
    else if key == "skills" then
      forall j :: 0 <= j < |Entries(value)| ==> SkillEntryOk(Entries(value)[j])
    else false
  }

  /** Merging the skills succeeds exactly when every entry names a skill and holds a value in -10..50. */
  lemma {:induction false} MergeSkillsValid(current: seq<(string, Json)>, entries: seq<(string, Json)>)
    ensures MergeSkills(current, entries).Valid? <==> forall j :: 0 <= j < |entries| ==> SkillEntryOk(entries[j])
  {
    if |entries| > 0 {
      var init := entries[..|entries| - 1];
      MergeSkillsValid(current, init);
      MergeSkillsLast(current, entries);
      AllSkillEntriesOkLast(entries, init);
    }
  }

  lemma MergeSkillsLast(current: seq<(string, Json)>, entries: seq<(string, Json)>)
    requires |entries| > 0
    ensures MergeSkills(current, entries).Valid?
            <==> MergeSkills(current, entries[..|entries| - 1]).Valid? && SkillEntryOk(entries[|entries| - 1])
  {
  }

  lemma MergeSkillsSnoc(current: seq<(string, Json)>, entries: seq<(string, Json)>)
    requires |entries| > 0 && MergeSkills(current, entries).Valid?
    requires MergeSkills(current, entries[..|entries| - 1]).Valid?
    ensures var last := entries[|entries| - 1];
            MergeSkills(current, entries).updates == Set(MergeSkills(current, entries[..|entries| - 1]).updates, last.0, last.1)
  {
  }

  lemma AllSkillEntriesOkLast(entries: seq<(string, Json)>, init: seq<(string, Json)>)
    requires |entries| > 0 && init == entries[..|entries| - 1]
    ensures (forall j :: 0 <= j < |entries| ==> SkillEntryOk(entries[j]))
            <==> (forall j :: 0 <= j < |init| ==> SkillEntryOk(init[j])) && SkillEntryOk(entries[|entries| - 1])
  {
    assert forall j :: 0 <= j < |init| ==> init[j] == entries[j];
  }

  /** One entry passes validation exactly when it is acceptable on its own. */
  lemma ValidateEntryValid(acc: seq<(string, Json)>, e: (string, Json), existing: Option<seq<(string, Json)>>)
    ensures ValidateEntry(acc, e, existing).Valid? <==> EntryOk(e)
  {
    if e.0 == "skills" && (e.1.JObj? || e.1.JArr?) {
      MergeSkillsValid(existing.GetOr([]), Entries(e.1));
    }
  }

  /** Validation succeeds exactly when every entry is acceptable on its own. */
  lemma {:induction false} ValidIffAllEntriesOk(updates: seq<(string, Json)>, existing: Option<seq<(string, Json)>>)
    ensures ValidateAll(updates, existing).Valid? <==> forall i :: 0 <= i < |updates| ==> EntryOk(updates[i])
  {
    if |updates| > 0 {
      var init := updates[..|updates| - 1];
      ValidIffAllEntriesOk(init, existing);
      ValidateAllLast(updates, existing);
      AllEntriesOkLast(updates, init);
    }
  }

  lemma ValidateAllLast(updates: seq<(string, Json)>, existing: Option<seq<(string, Json)>>)
    requires |updates| > 0
    ensures ValidateAll(updates, existing).Valid?
            <==> ValidateAll(updates[..|updates| - 1], existing).Valid? && EntryOk(updates[|updates| - 1])
  {
    var prev := ValidateAll(updates[..|updates| - 1], existing);
    if prev.Valid? {
      ValidateEntryValid(prev.updates, updates[|updates| - 1], existing);
    }
  }

  lemma AllEntriesOkLast(updates: seq<(string, Json)>, init: seq<(string, Json)>)
    requires |updates| > 0 && init == updates[..|updates| - 1]
    ensures (forall i :: 0 <= i < |updates| ==> EntryOk(updates[i]))
            <==> (forall i :: 0 <= i < |init| ==> EntryOk(init[i])) && EntryOk(updates[|updates| - 1])
  {
    assert forall i :: 0 <= i < |init| ==> init[i] == updates[i];
  }

  /** A level outside 1..20, a stat outside -10..50 or an unknown key anywhere makes validation fail. */
  lemma RejectsBadEntry(updates: seq<(string, Json)>, existing: Option<seq<(string, Json)>>, i: nat)
    requires i < |updates|
    requires (updates[i].0 == "level" && !IsLevelValue(updates[i].1))
          || (updates[i].0 in StatKeys && !IsStatValue(updates[i].1))
          || (updates[i].0 !in NameKeys && updates[i].0 !in NumericKeys && updates[i].0 != "skills")
    ensures ValidateAll(updates, existing).Invalid?
  {
    ValidIffAllEntriesOk(updates, existing);
    assert !EntryOk(updates[i]);
  }

  /** Updates produced by the parser never hit the unknown-attribute error. */
  lemma ParsedNeverUnknownAttribute(args: seq<string>, existing: Option<seq<(string, Json)>>)
    ensures !ValidateAll(ParsedUpdates(args), existing).Invalid?
         || !ValidateAll(ParsedUpdates(args), existing).error.InvalidAttribute?
  {
    ParsedUpdatesWellFormed(args);
    NoUnknownKey(ParsedUpdates(args), existing);
  }

  lemma {:induction false} NoUnknownKey(u: seq<(string, Json)>, existing: Option<seq<(string, Json)>>)
    requires forall k :: k in Keys(u) ==> KnownKey(k)
    ensures !ValidateAll(u, existing).Invalid? || !ValidateAll(u, existing).error.InvalidAttribute?
  {
    if |u| > 0 {
      var init := u[..|u| - 1];
      var e := u[|u| - 1];
      forall k | k in Keys(init) ensures KnownKey(k) {
        var i :| 0 <= i < |init| && Keys(init)[i] == k;
        assert Keys(u)[i] == k;
      }
      NoUnknownKey(init, existing);
      assert Keys(u)[|u| - 1] == e.0;
      assert KnownKey(e.0);
      assert e.0 in NumericKeys ==> e.0 == "level" || e.0 in StatKeys;
      if e.0 == "skills" && (e.1.JObj? || e.1.JArr?) {
        MergeNeverUnknown(existing.GetOr([]), Entries(e.1));
      }
    }
  }

  lemma {:induction false} MergeNeverUnknown(current: seq<(string, Json)>, entries: seq<(string, Json)>)
    ensures !MergeSkills(current, entries).Invalid? || MergeSkills(current, entries).error.InvalidSkill?
  {
    if |entries| > 0 { MergeNeverUnknown(current, entries[..|entries| - 1]); }
  }

  /** On success the skills are the existing ones overlaid with the new values. */
  lemma MergeSkillsOverlay(current: seq<(string, Json)>, entries: seq<(string, Json)>, k: string)
    requires UniqueKeys(entries)
    requires MergeSkills(current, entries).Valid?
    ensures Get(MergeSkills(current, entries).updates, k) == if HasKey(entries, k) then Get(entries, k) else Get(current, k)
  {
    MergeIsAssign(current, entries);
    GetAssign(current, entries, k);
  }

  lemma {:induction false} MergeIsAssign(current: seq<(string, Json)>, entries: seq<(string, Json)>)
    requires MergeSkills(current, entries).Valid?
    ensures MergeSkills(current, entries).updates == Assign(current, entries)
  {
    if |entries| > 0 {
      var init := entries[..|entries| - 1];
      var last := entries[|entries| - 1];
      MergeSkillsLast(current, entries);
      calc {
        MergeSkills(current, entries).updates;
        { MergeSkillsSnoc(current, entries); }
        Set(MergeSkills(current, init).updates, last.0, last.1);
        { MergeIsAssign(current, init); }
        Set(Assign(current, init), last.0, last.1);
        { AssignSnoc(current, init, last); }
        Assign(current, init + [last]);
        { assert init + [last] == entries; }
        Assign(current, entries);
      }
    }
  }

  lemma {:induction false} AssignSnoc<V>(a: seq<(string, V)>, b: seq<(string, V)>, e: (string, V))
    ensures Assign(a, b + [e]) == Set(Assign(a, b), e.0, e.1)
    decreases |b|
  {
    if |b| == 0 {
      assert b + [e] == [e];
    } else {
      assert (b + [e])[1..] == b[1..] + [e];
      AssignSnoc(Set(a, b[0].0, b[0].1), b[1..], e);
    }
  }

  /** The validated object never holds a key twice. */
  lemma {:induction false} ValidatedUnique(updates: seq<(string, Json)>, existing: Option<seq<(string, Json)>>)
    requires ValidateAll(updates, existing).Valid?
    ensures UniqueKeys(ValidateAll(updates, existing).updates)
  {
    if |updates| > 0 {
      var init := updates[..|updates| - 1];
      var e := updates[|updates| - 1];
      var prev := ValidateAll(init, existing);
      ValidatedUnique(init, existing);
      var acc := prev.updates;
      if e.0 == "skills" && (e.1.JObj? || e.1.JArr?) {
        var merged := MergeSkills(existing.GetOr([]), Entries(e.1));
        if merged.Valid? {
          SetKeepsUnique(acc, e.0, JObj(merged.updates));
        }
      } else {
        SetKeepsUnique(acc, e.0, e.1);
      }
    }
  }

  /** An empty name, alias or className is dropped without an error. */
  lemma EmptyNameDropped(acc: seq<(string, Json)>, key: string, existing: Option<seq<(string, Json)>>)
    requires key in NameKeys
    ensures ValidateEntry(acc, (key, JStr("")), existing) == Valid(acc)
  {
  }

  // ---------------------------------------------------------------------
  // createDefaultSkills

  /** The default skills: every valid skill, in list order, at 0. */
  function DefaultSkills(): (skills: seq<(string, Json)>)
    ensures Keys(skills) == ValidSkills
    ensures forall i :: 0 <= i < |skills| ==> skills[i].1 == JNum(0)
  {
    seq(|ValidSkills|, i requires 0 <= i < |ValidSkills| => (ValidSkills[i], JNum(0)))
  }

  /** The first two characters of a name as one number, enough to order the skill list. */
  function Rank(s: string): int
  {
    if |s| < 2 then 0 else (s[0] as int) * 0x1_0000 + s[1] as int
  }

  /** No skill is listed twice: the list is in strictly increasing order of its first two letters. */
  lemma SkillsDistinct()
    ensures forall i, j :: 0 <= i < j < |ValidSkills| ==> ValidSkills[i] != ValidSkills[j]
  {
    assert forall i :: 0 <= i < |ValidSkills| - 1 ==> Rank(ValidSkills[i]) < Rank(ValidSkills[i + 1]);
    forall i, j | 0 <= i < j < |ValidSkills| ensures Rank(ValidSkills[i]) < Rank(ValidSkills[j]) {
      var k := i + 1;
      while k < j
        invariant i < k <= j && Rank(ValidSkills[i]) < Rank(ValidSkills[k])
      {
        k := k + 1;
      }
    }
  }

  /** `createDefaultSkills`. */
  method CreateDefaultSkills() returns (skills: seq<(string, Json)>)
    ensures skills == DefaultSkills()
  {
    skills := [];
    for i := 0 to |ValidSkills|
      invariant skills == DefaultSkills()[..i]
    {
      assert !HasKey(skills, ValidSkills[i]) by {
        SkillsDistinct();
        forall j | 0 <= j < |skills| ensures skills[j].0 != ValidSkills[i] {
          assert skills[j].0 == ValidSkills[j];
        }
      }
      SetAbsentAppends(skills, ValidSkills[i], JNum(0));
      skills := Set(skills, ValidSkills[i], JNum(0));
      assert DefaultSkills()[..i + 1] == DefaultSkills()[..i] + [(ValidSkills[i], JNum(0))];
    }
  }
}
