/**
 * `/rollall` (src/commands/rollAll.ts): help, then the menu, then one
 * `rollResult` per player of the user, in the order the database returns
 * them. The dice are the function `die` read from position `next` on.
 */
module RollAll {
  import opened Wrappers
  import opened Js
  import opened Players
  import opened RollResultHelper
  import opened CommandArgs

  datatype RollAllParams = RollAllParams(attribute: string, modifier: Number)

  /** `parseDirectArgs`: the first word is the attribute; the second, read by `parseInt`, the modifier. */
  function ParseDirectArgs(args: seq<string>): (r: Option<RollAllParams>)
    ensures r.None? <==> |args| == 0
    ensures r.Some? ==> r.value.attribute == args[0]
    ensures |args| == 1 ==> r.value.modifier == Int(0)
    ensures |args| >= 2 ==> (r.value.modifier.Int? <==> ParseInt(args[1]).Some?)
    ensures |args| >= 2 && ParseInt(args[1]).Some? ==> r.value.modifier == Int(ParseInt(args[1]).value)
  {
    if |args| < 1 then None
    else
      ParseIntOfIntToString(0);
      Some(RollAllParams(args[0], FromParse(ParseInt(if |args| >= 2 then args[1] else IntToString(0)))))
  }

  /** What `/rollall` answers. */
  datatype RollAllReply = Help | Menu | InvalidSyntax | NoPlayers | Results(entries: seq<Entry>)

  /** `rollResult` for one player, as a step of `FoldRolls`. */
  function PlayerStep(attribute: string, modifier: Number, die: nat -> int): (Player, nat) -> (seq<Entry>, nat)
  {
    (p, n) => Rolls(p, attribute, modifier, die, n)
  }

  /** `executeRollAll`: nothing to roll for no players, otherwise one `rollResult` per player, in order. */
  method ExecuteRollAll(players: seq<Player>, params: RollAllParams, die: nat -> int, next: nat)
    returns (reply: RollAllReply, used: nat)
    ensures players == [] ==> reply == NoPlayers && used == 0
    ensures players != [] ==>
      var folded := FoldRolls(PlayerStep(params.attribute, params.modifier, die), players, next);
      reply == Results(folded.0) && used == folded.1
  {
    if |players| == 0 {
      return NoPlayers, 0;
    }
    var results;
    results, used := RollEachPlayer(players, params.attribute, params.modifier, die, next,
                                    PlayerStep(params.attribute, params.modifier, die));
    reply := Results(results);
  }

  /** The loop of `executeRollAll`; `step` is `PlayerStep(...)`, used without unfolding what one roll does. */
  method RollEachPlayer(players: seq<Player>, attribute: string, modifier: Number, die: nat -> int, next: nat,
                        ghost step: (Player, nat) -> (seq<Entry>, nat))
    returns (results: seq<Entry>, used: nat)
    requires forall p, n {:trigger Rolls(p, attribute, modifier, die, n)} :: step(p, n) == Rolls(p, attribute, modifier, die, n)
    ensures results == FoldRolls(step, players, next).0
    ensures used == FoldRolls(step, players, next).1
  {
    assert FoldRolls(step, players[..0], next) == ([], 0);
    hide *;
    results := [];
    used := 0;
    for k := 0 to |players|
      invariant results == FoldRolls(step, players[..k], next).0
      invariant used == FoldRolls(step, players[..k], next).1
    {
      FoldRollsStep(step, players, k, next);
      var n;
      results, n := RollPlayer(players[k], attribute, modifier, results, die, next + used, step);
      used := used + n;
    }
    assert players[..|players|] == players;
  }

  /** One iteration of `executeRollAll`: `rollResult` for one player, seen through `step`. */
  method RollPlayer(p: Player, attribute: string, modifier: Number, results: seq<Entry>, die: nat -> int, next: nat,
                    ghost step: (Player, nat) -> (seq<Entry>, nat))
    returns (out: seq<Entry>, used: nat)
    requires forall p, n {:trigger Rolls(p, attribute, modifier, die, n)} :: step(p, n) == Rolls(p, attribute, modifier, die, n)
    ensures out == results + step(p, next).0
    ensures used == step(p, next).1
  {
    assert step(p, next) == Rolls(p, attribute, modifier, die, next);
    out, used := RollResult(p, attribute, modifier, results, die, next);
  }

  /**
   * `rollAllCommand`: help first, then the menu (which no arguments also
   * ask for), then the roll. With at least one argument `parseDirectArgs`
   * always succeeds, so the invalid-syntax reply is never given.
   */
  method RollAllCommand(text: Option<string>, players: seq<Player>, die: nat -> int, next: nat)
    returns (reply: RollAllReply, used: nat)
    ensures var args := SpaceArgs(text);
      (WantsHelp(args) ==> reply == Help)
      && (!WantsHelp(args) && WantsMenu(args) ==> reply == Menu)
      && (!WantsHelp(args) && !WantsMenu(args) ==>
            var p := ParseDirectArgs(args).value;
            (players == [] ==> reply == NoPlayers)
            && (players != [] ==>
                  reply == Results(FoldRolls(PlayerStep(p.attribute, p.modifier, die), players, next).0)
                  && used == FoldRolls(PlayerStep(p.attribute, p.modifier, die), players, next).1))
    ensures reply != InvalidSyntax
    ensures !reply.Results? ==> used == 0
  {
    var args := SpaceArgs(text);
    if WantsHelp(args) {
      return Help, 0;
    }
    if WantsMenu(args) {
      return Menu, 0;
    }
    var params := ParseDirectArgs(args);
    if params.None? {
      assert false;  // every non-empty argument list parses
      reply := InvalidSyntax;
      return;
    }
    reply, used := ExecuteRollAll(players, params.value, die, next);
  }

  /** `rollResult` always appends at least one line. */
  lemma RollsNotEmpty(p: Player, attribute: string, modifier: Number, die: nat -> int, next: nat)
    ensures |Rolls(p, attribute, modifier, die, next).0| >= 1
  {
  }

  /** Every player of the user gets at least one line in the reply. */
  lemma {:induction false} EveryPlayerAnswered(players: seq<Player>, attribute: string, modifier: Number, die: nat -> int, next: nat)
    ensures |FoldRolls(PlayerStep(attribute, modifier, die), players, next).0| >= |players|
    decreases |players|
  {
    if players != [] {
      var init := players[..|players| - 1];
      EveryPlayerAnswered(init, attribute, modifier, die, next);
      var n := FoldRolls(PlayerStep(attribute, modifier, die), init, next).1;
      RollsNotEmpty(players[|players| - 1], attribute, modifier, die, next + n);
    }
  }
}
