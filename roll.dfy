/**
 * The `/roll` command (src/commands/roll.ts): tokenising the message,
 * reading names, attribute and modifier from the tokens, the help/menu
 * precedence, and one lookup and roll per name. The player lookup is the
 * database's `findFirst`; it is modelled as a scan of the user's players in
 * the order the database returns them.
 */
module Roll {
  import opened Wrappers
  import opened Js
  import opened Json
  import opened Players
  import opened RollResultHelper
  import opened CommandArgs

  // ---------------------------------------------------------------------
  // Tokens: text.match(/".*?"|[^\s]+/g)

  /** The length of the longest prefix of `s` without whitespace. */
  function NonSpaceRun(s: string): (n: nat)
    ensures n <= |s|
    ensures forall i :: 0 <= i < n ==> !IsSpace(s[i])
    ensures n < |s| ==> IsSpace(s[n])
  {
    if |s| == 0 || IsSpace(s[0]) then 0 else 1 + NonSpaceRun(s[1..])
  }

  /** The index of the first `"` at or after `j`, provided no line terminator comes first (`.` stops at those). */
  function ClosingQuote(s: string, j: nat): (r: Option<nat>)
    ensures r.Some? ==> j <= r.value < |s| && s[r.value] == '"'
    ensures r.Some? ==> forall i :: j <= i < r.value ==> s[i] != '"' && !IsLineTerminator(s[i])
    decreases |s| - j
  {
    if j >= |s| then None
    else if s[j] == '"' then Some(j)
    else if IsLineTerminator(s[j]) then None
    else ClosingQuote(s, j + 1)
  }

  /** All matches of `".*?"|[^\s]+`, left to right. */
  function Tokens(s: string): seq<string>
    decreases |s|
  {
    if |s| == 0 then []
    else if IsSpace(s[0]) then Tokens(s[1..])
    else if s[0] == '"' && ClosingQuote(s, 1).Some? then
      var j := ClosingQuote(s, 1).value;
      [s[..j + 1]] + Tokens(s[j + 1..])
    else
      var n := NonSpaceRun(s);
      [s[..n]] + Tokens(s[n..])
  }

  /** A quoted token: `"` … `"` with no line terminator or other `"` inside. */
  predicate IsQuotedToken(t: string)
  {
    |t| >= 2 && t[0] == '"' && t[|t| - 1] == '"'
    && forall i :: 1 <= i < |t| - 1 ==> t[i] != '"' && !IsLineTerminator(t[i])
  }

  predicate NoSpace(t: string)
  {
    forall i :: 0 <= i < |t| ==> !IsSpace(t[i])
  }

  /** The characters of `s` that are not whitespace, in order. */
  function NonSpaceChars(s: string): string
  {
    if |s| == 0 then "" else (if IsSpace(s[0]) then "" else [s[0]]) + NonSpaceChars(s[1..])
  }

  function Concat(ts: seq<string>): string
  {
    if |ts| == 0 then "" else ts[0] + Concat(ts[1..])
  }

  /** Every token is non-empty and either a quoted run or a run without whitespace. */
  lemma {:induction false} TokenShapes(s: string)
    ensures forall k :: 0 <= k < |Tokens(s)| ==> |Tokens(s)[k]| > 0 && (IsQuotedToken(Tokens(s)[k]) || NoSpace(Tokens(s)[k]))
    decreases |s|
  {
    if |s| == 0 {
    } else if IsSpace(s[0]) {
      TokenShapes(s[1..]);
    } else if s[0] == '"' && ClosingQuote(s, 1).Some? {
      var j := ClosingQuote(s, 1).value;
      TokenShapes(s[j + 1..]);
      assert IsQuotedToken(s[..j + 1]);
    } else {
      var n := NonSpaceRun(s);
      TokenShapes(s[n..]);
      assert NoSpace(s[..n]);
    }
  }

  /** Without quotes, the tokens are the whitespace-separated words: together they hold exactly the non-space characters. */
  lemma {:induction false} TokensWithoutQuotes(s: string)
    requires '"' !in s
    ensures Concat(Tokens(s)) == NonSpaceChars(s)
    ensures forall k :: 0 <= k < |Tokens(s)| ==> |Tokens(s)[k]| > 0 && NoSpace(Tokens(s)[k])
    decreases |s|
  {
    if |s| == 0 {
    } else if IsSpace(s[0]) {
      TokensWithoutQuotes(s[1..]);
    } else {
      var n := NonSpaceRun(s);
      assert s[0] != '"';
      TokensWithoutQuotes(s[n..]);
      NonSpaceCharsOfRun(s, n);
      assert NoSpace(s[..n]);
    }
  }

  lemma {:induction false} NonSpaceCharsOfRun(s: string, n: nat)
    requires n <= |s|
    requires forall i :: 0 <= i < n ==> !IsSpace(s[i])
    ensures NonSpaceChars(s) == s[..n] + NonSpaceChars(s[n..])
    decreases n
  {
    if n > 0 {
      NonSpaceCharsOfRun(s[1..], n - 1);
      assert s[1..][n - 1..] == s[n..];
      assert [s[0]] + s[1..][..n - 1] == s[..n];
    }
  }

  /** `ctx.message?.text?.match(...)?.slice(1) || []`: the tokens after the command. */
  function Args(text: Option<string>): seq<string>
  {
    if text.None? then [] else Slice(Tokens(text.value), 1, |Tokens(text.value)|)
  }

  // ---------------------------------------------------------------------
  // parseDirectArgs

  datatype RollParams = RollParams(names: seq<string>, attribute: string, modifier: int)

  /** Drop every `"`, then trim. */
  function CleanName(n: string): (r: string)
    ensures '"' !in r
  {
    var unquoted := RemoveChars(n, {'"'});
    TrimKeepsOut(unquoted, '"');
    Trim(unquoted)
  }

  /** `.map(CleanName).filter(Boolean)`. */
  function CleanNames(parts: seq<string>): (r: seq<string>)
    ensures forall k :: 0 <= k < |r| ==> r[k] != "" && '"' !in r[k]
  {
    if |parts| == 0 then []
    else
      var c := CleanName(parts[0]);
      (if c == "" then [] else [c]) + CleanNames(parts[1..])
  }

  /** `nameParts.join(' ').split(',')`, cleaned. */
  function Names(nameParts: seq<string>): seq<string>
  {
    CleanNames(Split(Join(nameParts, ' '), ','))
  }

  /** `parseDirectArgs`. */
  function ParseDirectArgs(args: seq<string>): (r: Option<RollParams>)
    ensures r.Some? <==> |args| >= 2
    ensures r.Some? && IsSignedInteger(args[|args| - 1]) ==>
              r.value.attribute == args[|args| - 2] && ParseInt(args[|args| - 1]) == Some(r.value.modifier)
              && r.value.names == Names(args[..|args| - 2])
    ensures r.Some? && !IsSignedInteger(args[|args| - 1]) ==>
              r.value.attribute == args[|args| - 1] && r.value.modifier == 0
              && r.value.names == Names(args[..|args| - 1])
  {
    if |args| < 2 then None
    else
      var last := args[|args| - 1];
      if IsSignedInteger(last) then
        ParseIntOfSignedInteger(last);
        Some(RollParams(Names(args[..|args| - 2]), args[|args| - 2], ParseInt(last).value))
      else
        Some(RollParams(Names(args[..|args| - 1]), last, 0))
  }

  predicate IsCleanName(n: string)
  {
    n != "" && ',' !in n && '"' !in n && Trim(n) == n
  }

  lemma CleanNameOfClean(n: string)
    requires IsCleanName(n)
    ensures CleanName(n) == n
  {
    RemoveCharsKeepsOthers(n, {'"'});
  }

  lemma {:induction false} CleanNamesOfClean(ns: seq<string>)
    requires forall k :: 0 <= k < |ns| ==> ns[k] != "" && CleanName(ns[k]) == ns[k]
    ensures CleanNames(ns) == ns
  {
    if |ns| > 0 {
      var rest := ns[1..];
      assert forall k :: 0 <= k < |rest| ==> rest[k] == ns[k + 1];
      CleanNamesOfClean(rest);
      assert CleanNames(ns) == [ns[0]] + CleanNames(rest);
      assert ns == [ns[0]] + rest;
    }
  }

  /** A comma-separated list of clean names, written as one token, reads back as those names. */
  lemma NamesRoundTrip(ns: seq<string>)
    requires |ns| >= 1
    requires forall k :: 0 <= k < |ns| ==> IsCleanName(ns[k])
    ensures Names([Join(ns, ',')]) == ns
  {
    assert Join([Join(ns, ',')], ' ') == Join(ns, ',');
    SplitJoin(ns, ',');
    forall k | 0 <= k < |ns| ensures ns[k] != "" && CleanName(ns[k]) == ns[k] {
      CleanNameOfClean(ns[k]);
    }
    CleanNamesOfClean(ns);
  }

  // ---------------------------------------------------------------------
  // rollCommand

  datatype RollReply = Help | Menu | InvalidSyntax | Results(entries: seq<Entry>)

  /** The `findFirst` filter: the player's name or alias contains `name`, ignoring case. */
  predicate Matches(p: Player, name: string)
  {
    Contains(ToLower(p.name), ToLower(name))
    || (p.alias.Some? && Contains(ToLower(p.alias.value), ToLower(name)))
  }

  /** `findFirst`: the first of the user's players that matches `name`; none exactly when no player matches. */
  function FindPlayer(players: seq<Player>, name: string): (r: Option<Player>)
    ensures r.None? <==> forall p :: p in players ==> !Matches(p, name)
    ensures r.Some? ==> r.value in players && Matches(r.value, name)
    ensures r.Some? ==> exists k :: 0 <= k < |players| && players[k] == r.value
                          && forall j :: 0 <= j < k ==> !Matches(players[j], name)
  {
    if |players| == 0 then None
    else if Matches(players[0], name) then Some(players[0])
    else
      var r := FindPlayer(players[1..], name);
      assert forall p :: p in players ==> p == players[0] || p in players[1..];
      assert r.Some? ==> exists k :: 0 <= k < |players| && players[k] == r.value
                          && forall j :: 0 <= j < k ==> !Matches(players[j], name) by {
        if r.Some? {
          var k :| 0 <= k < |players[1..]| && players[1..][k] == r.value
                   && forall j :: 0 <= j < k ==> !Matches(players[1..][j], name);
          assert forall j :: 0 <= j < k + 1 ==> !Matches(players[j], name) by {
            forall j | 0 <= j < k + 1 ensures !Matches(players[j], name) {
              if j > 0 { assert players[j] == players[1..][j - 1]; }
            }
          }
          assert players[k + 1] == r.value;
        }
      }
      r
  }

  /** The lines one name contributes, and the die values it uses. */
  function NameLines(players: seq<Player>, name: string, attribute: string, modifier: int, die: nat -> int, next: nat): (seq<Entry>, nat)
  {
    match FindPlayer(players, name)
    case None => ([PlayerNotFound(name)], 0)
    case Some(p) => Rolls(p, attribute, Int(modifier), die, next)
  }

  /** `NameLines` for fixed players, attribute, modifier and die, as a step of `FoldRolls`. */
  function NameStep(players: seq<Player>, attribute: string, modifier: int, die: nat -> int): (string, nat) -> (seq<Entry>, nat)
  {
    (name, n) => NameLines(players, name, attribute, modifier, die, n)
  }

  /** The lines of `executeRoll` for `names`, in order. */
  function RollLines(players: seq<Player>, names: seq<string>, attribute: string, modifier: int, die: nat -> int, next: nat): (seq<Entry>, nat)
  {
    FoldRolls(NameStep(players, attribute, modifier, die), names, next)
  }

  /**
   * One iteration of `executeRoll`: look the name up, then roll or report it
   * missing. `step` is `NameStep(...)`; the loop reasons about it without
   * unfolding what a step does.
   */
  method RollName(players: seq<Player>, name: string, attribute: string, modifier: int, results: seq<Entry>, die: nat -> int, next: nat, ghost step: (string, nat) -> (seq<Entry>, nat))
    returns (out: seq<Entry>, used: nat)
    requires forall name, n {:trigger NameLines(players, name, attribute, modifier, die, n)} :: step(name, n) == NameLines(players, name, attribute, modifier, die, n)
    ensures out == results + step(name, next).0
    ensures used == step(name, next).1
  {
    assert step(name, next) == NameLines(players, name, attribute, modifier, die, next);
    var player := FindPlayer(players, name);
    if player.None? {
      return results + [PlayerNotFound(name)], 0;
    }
    out, used := RollResult(player.value, attribute, Int(modifier), results, die, next);
  }

  /** `executeRoll`: one lookup per name, then `rollResult` into the shared list. */
  method ExecuteRoll(players: seq<Player>, params: RollParams, die: nat -> int, next: nat) returns (results: seq<Entry>, used: nat)
    ensures results == RollLines(players, params.names, params.attribute, params.modifier, die, next).0
    ensures used == RollLines(players, params.names, params.attribute, params.modifier, die, next).1
  {
    results, used := RollEach(players, params.names, params.attribute, params.modifier, die, next, NameStep(players, params.attribute, params.modifier, die));
  }

  /** The loop of `executeRoll`, over the names in order. */
  method RollEach(players: seq<Player>, names: seq<string>, attribute: string, modifier: int, die: nat -> int, next: nat, ghost step: (string, nat) -> (seq<Entry>, nat))
    returns (results: seq<Entry>, used: nat)
    requires forall name, n {:trigger NameLines(players, name, attribute, modifier, die, n)} :: step(name, n) == NameLines(players, name, attribute, modifier, die, n)
    ensures results == FoldRolls(step, names, next).0
    ensures used == FoldRolls(step, names, next).1
  {
    assert FoldRolls(step, names[..0], next) == ([], 0);
    hide NameLines, FoldRolls;
    results := [];
    used := 0;
    for k := 0 to |names|
      invariant results == FoldRolls(step, names[..k], next).0
      invariant used == FoldRolls(step, names[..k], next).1
    {
      FoldRollsStep(step, names, k, next);
      var n;
      results, n := RollName(players, names[k], attribute, modifier, results, die, next + used, step);
      used := used + n;
    }
    assert names[..|names|] == names;
  }

  /** `rollCommand`: help first, then the menu, then the direct roll. */
  method RollCommand(text: Option<string>, players: seq<Player>, die: nat -> int, next: nat) returns (reply: RollReply, used: nat)
    ensures var args := Args(text);
            (WantsHelp(args) ==> reply == Help)
            && (!WantsHelp(args) && WantsMenu(args) ==> reply == Menu)
            && (!WantsHelp(args) && !WantsMenu(args) && |args| < 2 ==> reply == InvalidSyntax)
            && (!WantsHelp(args) && !WantsMenu(args) && |args| >= 2 ==>
                  var p := ParseDirectArgs(args).value;
                  (reply, used) == (Results(RollLines(players, p.names, p.attribute, p.modifier, die, next).0),
                                    RollLines(players, p.names, p.attribute, p.modifier, die, next).1))
    ensures !reply.Results? ==> used == 0
  {
    var args := Args(text);
    if WantsHelp(args) {
      return Help, 0;
    }
    if WantsMenu(args) {
      return Menu, 0;
    }
    var params := ParseDirectArgs(args);
    if params.None? {
      return InvalidSyntax, 0;
    }
    var entries;
    entries, used := ExecuteRoll(players, params.value, die, next);
    reply := Results(entries);
  }

  /** For a non-lore attribute there is exactly one line per name, in order; a name without a match gives the not-found line. */
  lemma OneLinePerName(players: seq<Player>, names: seq<string>, attribute: string, modifier: int, die: nat -> int, next: nat)
    requires !Listed(ToLower(attribute), LoreNames)
    ensures var lines := RollLines(players, names, attribute, modifier, die, next).0;
            |lines| == |names|
            && forall k :: 0 <= k < |names| ==>
                 (lines[k] == PlayerNotFound(names[k]) <==> forall p :: p in players ==> !Matches(p, names[k]))
  {
    hide FindPlayer, Matches, RollLines;
    LinesPerName(players, names, attribute, modifier, die, next);
  }

  /** `OneLinePerName` in terms of the lookup, by induction on the names. */
  lemma {:induction false} LinesPerName(players: seq<Player>, names: seq<string>, attribute: string, modifier: int, die: nat -> int, next: nat)
    requires !Listed(ToLower(attribute), LoreNames)
    ensures var lines := RollLines(players, names, attribute, modifier, die, next).0;
            |lines| == |names|
            && forall k :: 0 <= k < |names| ==>
                 (lines[k] == PlayerNotFound(names[k]) <==> FindPlayer(players, names[k]).None?)
  {
    hide FindPlayer, Matches;
    if |names| > 0 {
      var init := names[..|names| - 1];
      LinesPerName(players, init, attribute, modifier, die, next);
      var used := RollLines(players, init, attribute, modifier, die, next).1;
      var name := names[|names| - 1];
      var p := FindPlayer(players, name);
      if p.Some? {
        NonLoreOneLine(p.value, attribute, Int(modifier), die, next + used);
      }
      forall k | 0 <= k < |names| - 1
        ensures names[k] == init[k]
      {
      }
    }
  }
}
