/**
 * The keyboard builders and the `#tag` parser shared by the commands
 * (src/helpers/commandHelpers.ts). Button labels are translation keys or
 * literal texts; only their callback data is interpreted by the bot.
 */
module CommandHelpers {
  import opened Wrappers
  import opened Js

  /** An inline keyboard button: its text and the callback data it sends. */
  datatype Button = Button(text: string, data: string)

  type Keyboard = seq<seq<Button>>

  // ---------------------------------------------------------------------
  // createLevelButtons

  /** Button `j`: labelled with the level, sending `${prefix}_${j}`. */
  function LevelButton(prefix: string, j: nat): Button
  {
    Button(NatToString(j), prefix + "_" + NatToString(j))
  }

  function Min(a: int, b: int): int { if a <= b then a else b }

  /** Row `r` (from 0) holds the levels 5r+1 up to 5r+5, cut off at `maxLevel`. */
  predicate LevelRow(row: seq<Button>, prefix: string, r: nat, maxLevel: int)
  {
    |row| == Min(5, maxLevel - 5 * r)
    && forall k :: 0 <= k < |row| ==> row[k] == LevelButton(prefix, 5 * r + k + 1)
  }

  /** The keyboard `createLevelButtons(prefix, maxLevel)` must produce. */
  predicate LevelRows(rows: Keyboard, prefix: string, maxLevel: int)
  {
    |rows| == (if maxLevel <= 0 then 0 else (maxLevel + 4) / 5)
    && forall r :: 0 <= r < |rows| ==> LevelRow(rows[r], prefix, r, maxLevel)
  }

  /** `createLevelButtons`: the levels 1 to `maxLevel` in order, five to a row. */
  method CreateLevelButtons(prefix: string, maxLevel: int) returns (rows: Keyboard)
    ensures LevelRows(rows, prefix, maxLevel)
  {
    rows := [];
    var i := 1;
    while i <= maxLevel
      invariant i >= 1 && (i - 1) % 5 == 0 && |rows| == (i - 1) / 5
      invariant i <= 1 || i - 5 <= maxLevel
      invariant forall r :: 0 <= r < |rows| ==> LevelRow(rows[r], prefix, r, maxLevel)
    {
      var row := [];
      var j := i;
      while j < i + 5 && j <= maxLevel
        invariant i <= j <= i + 5 && j <= maxLevel + 1
        invariant |row| == j - i
        invariant forall k :: 0 <= k < |row| ==> row[k] == LevelButton(prefix, i + k)
      {
        row := row + [LevelButton(prefix, j)];
        j := j + 1;
      }
      assert LevelRow(row, prefix, |rows|, maxLevel);
      rows := rows + [row];
      i := i + 5;
    }
  }

  /** Every level 1..maxLevel has its button, at row (l-1)/5 and column (l-1)%5. */
  lemma LevelButtonPosition(rows: Keyboard, prefix: string, maxLevel: int, l: int)
    requires LevelRows(rows, prefix, maxLevel)
    requires 1 <= l <= maxLevel
    ensures (l - 1) / 5 < |rows| && (l - 1) % 5 < |rows[(l - 1) / 5]|
    ensures rows[(l - 1) / 5][(l - 1) % 5] == LevelButton(prefix, l)
  {
    var r := (l - 1) / 5;
    assert LevelRow(rows[r], prefix, r, maxLevel);
  }

  /** The text after `${prefix}_` in a level button's data parses back to its level. */
  lemma LevelButtonDecodes(prefix: string, j: nat)
    ensures StartsWith(LevelButton(prefix, j).data, prefix + "_")
    ensures ParseInt(LevelButton(prefix, j).data[|prefix| + 1..]) == Some(j)
  {
    var data := LevelButton(prefix, j).data;
    assert data[..|prefix| + 1] == prefix + "_";
    assert data[|prefix| + 1..] == IntToString(j);
    ParseIntOfIntToString(j);
  }

  // ---------------------------------------------------------------------
  // createTerrainButtons, createItemTypeButtons

  /** The button whose label is `labelKey` and whose data is `${prefix}_${value}`. */
  function Choice(prefix: string, labelKey: string, value: string): Button
  {
    Button(labelKey, prefix + "_" + value)
  }

  const Terrains: seq<string> := ["forest", "cave", "desert", "city", "mountains"]
  const ItemTypes: seq<string> := ["weapon", "armor", "consumable", "accessory"]

  /** The button for the `i`-th value of `values`, labelled with `${keyPrefix}${value}`. */
  function ChoiceAt(prefix: string, keyPrefix: string, values: seq<string>, i: nat): Button
    requires i < |values|
  {
    Choice(prefix, keyPrefix + values[i], values[i])
  }

  /** `createTerrainButtons`: rows of two, two and one. */
  function TerrainButtons(prefix: string): (k: Keyboard)
    ensures |k| == 3 && |k[0]| == 2 && |k[1]| == 2 && |k[2]| == 1
    ensures k[0] + k[1] + k[2] == seq(5, i requires 0 <= i < 5 => ChoiceAt(prefix, "encounter_type_", Terrains, i))
  {
    var b := (i: nat) requires i < 5 => ChoiceAt(prefix, "encounter_type_", Terrains, i);
    [[b(0), b(1)], [b(2), b(3)], [b(4)]]
  }

  /** `createItemTypeButtons`: two rows of two. */
  function ItemTypeButtons(prefix: string): (k: Keyboard)
    ensures |k| == 2 && |k[0]| == 2 && |k[1]| == 2
    ensures k[0] + k[1] == seq(4, i requires 0 <= i < 4 => ChoiceAt(prefix, "item_type_", ItemTypes, i))
  {
    var b := (i: nat) requires i < 4 => ChoiceAt(prefix, "item_type_", ItemTypes, i);
    [[b(0), b(1)], [b(2), b(3)]]
  }

  /** The value a choice button sends is what follows `${prefix}_`, so different values give different data. */
  lemma ChoiceDecodes(prefix: string, keyPrefix: string, values: seq<string>, i: nat, j: nat)
    requires i < |values| && j < |values|
    ensures ChoiceAt(prefix, keyPrefix, values, i).data[|prefix| + 1..] == values[i]
    ensures ChoiceAt(prefix, keyPrefix, values, i).data == ChoiceAt(prefix, keyPrefix, values, j).data <==> values[i] == values[j]
  {
    var di, dj := ChoiceAt(prefix, keyPrefix, values, i).data, ChoiceAt(prefix, keyPrefix, values, j).data;
    assert di[|prefix| + 1..] == values[i];
    assert dj[|prefix| + 1..] == values[j];
  }

  // ---------------------------------------------------------------------
  // parseUserTags, parseArgsWithTags

  /** The tag an argument `#Tag` stands for: without `#`, lower-cased, trimmed. */
  function CleanTag(arg: string): string
    requires StartsWith(arg, "#")
  {
    Trim(ToLower(arg[1..]))
  }

  predicate IsTagArg(arg: string) { StartsWith(arg, "#") }

  /** What the `forEach` of `parseUserTags` has collected after `args`. */
  function TagsAfter(args: seq<string>, maxTags: int): (seq<string>, seq<string>)
    decreases |args|
  {
    if args == [] then ([], [])
    else
      var (tags, remaining) := TagsAfter(args[..|args| - 1], maxTags);
      var arg := args[|args| - 1];
      if IsTagArg(arg) && |tags| < maxTags then
        (if |CleanTag(arg)| > 0 then tags + [CleanTag(arg)] else tags, remaining)
      else if !IsTagArg(arg) then (tags, remaining + [arg])
      else (tags, remaining)
  }

  /** `parseUserTags`: splits the arguments into at most `maxTags` tags and the other arguments. */
  method ParseUserTags(args: seq<string>, maxTags: int) returns (userTags: seq<string>, remainingArgs: seq<string>)
    ensures (userTags, remainingArgs) == TagsAfter(args, maxTags)
  {
    userTags, remainingArgs := [], [];
    var i := 0;
    while i < |args|
      invariant 0 <= i <= |args|
      invariant (userTags, remainingArgs) == TagsAfter(args[..i], maxTags)
    {
      var arg := args[i];
      assert args[..i + 1][..i] == args[..i];
      if IsTagArg(arg) && |userTags| < maxTags {
        var cleanTag := CleanTag(arg);
        if |cleanTag| > 0 {
          userTags := userTags + [cleanTag];
        }
      } else if !IsTagArg(arg) {
        remainingArgs := remainingArgs + [arg];
      }
      i := i + 1;
    }
    assert args[..|args|] == args;
  }

  /** The non-tag arguments, in order: an independent definition of `remainingArgs`. */
  function NonTags(args: seq<string>): seq<string>
  {
    if args == [] then [] else (if IsTagArg(args[0]) then [] else [args[0]]) + NonTags(args[1..])
  }

  /** Every non-empty clean tag, in order, before any limit applies. */
  function AllTags(args: seq<string>): seq<string>
  {
    if args == [] then []
    else (if IsTagArg(args[0]) && |CleanTag(args[0])| > 0 then [CleanTag(args[0])] else []) + AllTags(args[1..])
  }

  function Take(s: seq<string>, n: int): seq<string>
  {
    if n <= 0 then [] else if n >= |s| then s else s[..n]
  }

  lemma {:induction false} NonTagsSnoc(args: seq<string>, arg: string)
    ensures NonTags(args + [arg]) == NonTags(args) + (if IsTagArg(arg) then [] else [arg])
    decreases |args|
  {
    if args == [] {
      assert [arg][1..] == [];
    } else {
      assert (args + [arg])[1..] == args[1..] + [arg];
      NonTagsSnoc(args[1..], arg);
    }
  }

  lemma {:induction false} AllTagsSnoc(args: seq<string>, arg: string)
    ensures AllTags(args + [arg]) == AllTags(args) + (if IsTagArg(arg) && |CleanTag(arg)| > 0 then [CleanTag(arg)] else [])
    decreases |args|
  {
    hide CleanTag;
    if args == [] {
      assert [arg][1..] == [];
    } else {
      assert (args + [arg])[1..] == args[1..] + [arg];
      AllTagsSnoc(args[1..], arg);
    }
  }

  /**
   * The arguments without `#` keep their order, and the tags are the first
   * `maxTags` clean tags: once the limit is reached, later tags are dropped.
   */
  lemma {:induction false} TagsAfterMeaning(args: seq<string>, maxTags: int)
    ensures TagsAfter(args, maxTags).1 == NonTags(args)
    ensures TagsAfter(args, maxTags).0 == Take(AllTags(args), maxTags)
    decreases |args|
  {
    hide CleanTag;
    if args != [] {
      var init, arg := args[..|args| - 1], args[|args| - 1];
      assert args == init + [arg];
      TagsAfterMeaning(init, maxTags);
      NonTagsSnoc(init, arg);
      AllTagsSnoc(init, arg);
    }
  }

  /** `userTags.length <= maxTags`: the limit is respected. */
  lemma TagsWithinLimit(args: seq<string>, maxTags: int)
    ensures |TagsAfter(args, maxTags).0| <= (if maxTags < 0 then 0 else maxTags)
  {
    TagsAfterMeaning(args, maxTags);
  }

  /** `parseArgsWithTags`: the tags, or `undefined` when none was collected, and the other arguments. */
  function ArgsWithTags(args: seq<string>, maxTags: int): (r: (Option<seq<string>>, seq<string>))
    ensures r.1 == NonTags(args)
    ensures r.0.None? <==> maxTags <= 0 || AllTags(args) == []
    ensures r.0.Some? ==> r.0.value == Take(AllTags(args), maxTags)
  {
    TagsAfterMeaning(args, maxTags);
    var (tags, remaining) := TagsAfter(args, maxTags);
    (if |tags| > 0 then Some(tags) else None, remaining)
  }
}
