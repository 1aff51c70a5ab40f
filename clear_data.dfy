/**
 * `/cleardata` (src/commands/clearData.ts): which entities the direct form
 * names, deleting the user's players with a summary of the count, and the
 * menu with its one button.
 */
module ClearData {
  import opened Wrappers
  import opened Js
  import opened Sessions
  import opened BotContext
  import opened CommandArgs
  import SessionManager

  /** The entities `/cleardata` knows. */
  const ValidEntities: seq<string> := ["players"]

  predicate IsEntity(name: string) { name in ValidEntities }

  /** The callback data of the menu's only button. */
  const MenuButton := "clear_players"


  /** Some comma-separated part names an entity. */
  predicate NamesEntity(parts: seq<string>)
  {
    exists i :: 0 <= i < |parts| && IsEntity(Trim(parts[i]))
  }

  /** The comma-separated names that are valid entities, trimmed, in order. */
  function Entities(parts: seq<string>): (r: seq<string>)
    ensures forall i :: 0 <= i < |r| ==> IsEntity(r[i])
    ensures |r| > 0 <==> NamesEntity(parts)
  {
    if |parts| == 0 then []
    else
      var rest := Entities(parts[1..]);
      NamesEntityCons(parts);
      if IsEntity(Trim(parts[0])) then [Trim(parts[0])] + rest else rest
  }

  lemma NamesEntityCons(parts: seq<string>)
    requires |parts| > 0
    ensures NamesEntity(parts) <==> IsEntity(Trim(parts[0])) || NamesEntity(parts[1..])
  {
    if NamesEntity(parts[1..]) {
      var i :| 0 <= i < |parts[1..]| && IsEntity(Trim(parts[1..][i]));
      assert parts[i + 1] == parts[1..][i];
    }
    if NamesEntity(parts) && !IsEntity(Trim(parts[0])) {
      var i :| 0 <= i < |parts| && IsEntity(Trim(parts[i]));
      assert parts[1..][i - 1] == parts[i];
    }
  }

  /** `parseDirectArgs`: `all`, or a comma-separated list, compared in lower case. */
  function ParseDirectArgs(args: seq<string>): (r: Option<seq<string>>)
    ensures r.Some? ==> |r.value| > 0 && forall i :: 0 <= i < |r.value| ==> IsEntity(r.value[i])
    ensures var input := ToLower(Join(args, ' '));
            r.Some? <==> |args| > 0 && (input == "all" || NamesEntity(Split(input, ',')))
    ensures |args| > 0 && ToLower(Join(args, ' ')) == "all" ==> r == Some(ValidEntities)
  {
    if |args| == 0 then None
    else
      var input := ToLower(Join(args, ' '));
      if input == "all" then Some(ValidEntities)
      else
        var entities := Entities(Split(input, ','));
        if |entities| > 0 then Some(entities) else None
  }

  /** What `executeClearData` deletes and says, when it does not raise; `deleted` is deleteMany's count, None when it raises. */
  function ExecuteEffects(deleted: Option<int>): seq<Effect>
  {
    match deleted
    case None => [Reply(Key("cleardata_error"))]
    case Some(count) =>
      [DeletePlayers, Reply(if count > 0 then ClearSummary(count) else Key("cleardata_no_data"))]
  }

  /** `executeClearData`. */
  method ExecuteClearData(ctx: Ctx) returns (raised: Option<Failure>)
    modifies ctx`trace
    ensures raised == ctx.Raises(AtExecutor)
    ensures raised.Some? ==> ctx.trace == old(ctx.trace)
    ensures raised.None? ==> ctx.trace == old(ctx.trace) + ExecuteEffects(ctx.world.deleted)
  {
    raised := ctx.Raises(AtExecutor);
    if raised.Some? {
      return;
    }
    var deleted := ctx.world.deleted;
    if deleted.None? {
      Emit(ctx, Reply(Key("cleardata_error")));
      return;
    }
    Emit(ctx, DeletePlayers);
    var count := deleted.value;
    if count > 0 {
      Emit(ctx, Reply(ClearSummary(count)));
    } else {
      Emit(ctx, Reply(Key("cleardata_no_data")));
    }
  }

  /** `showClearDataMenu`. */
  method ShowClearDataMenu(ctx: Ctx)
    modifies ctx`trace, ctx`session
    ensures ctx.trace == old(ctx.trace) + [Menu(MenuMessage("cleardata"), MenuButton)]
    ensures ctx.session == Some(Installed(old(ctx.session), "cleardata_menu", CallbackInput,
                                          Some(ctx.world.sentMessageId), Some([]), Some(ClearDataInput)))
  {
    Emit(ctx, Menu(MenuMessage("cleardata"), MenuButton));
    SessionManager.InitCommand(ctx, "cleardata_menu", CallbackInput, Some(ctx.world.sentMessageId), Some([]), Some(ClearDataInput));
  }

  /** `clearDataCommand`: help first, then the direct form (whatever entities it names), otherwise the menu. */
  method ClearDataCommand(ctx: Ctx) returns (raised: Option<Failure>)
    modifies ctx`trace, ctx`session
    ensures var args := SpaceArgs(ctx.update.MessageText());
            if WantsHelp(args) then
              raised.None? && ctx.trace == old(ctx.trace) + [Reply(HelpMessage("cleardata"))]
              && ctx.session == old(ctx.session)
            else if ParseDirectArgs(args).Some? then
              raised == ctx.Raises(AtExecutor) && ctx.session == old(ctx.session)
              && (raised.None? ==> ctx.trace == old(ctx.trace) + ExecuteEffects(ctx.world.deleted))
            else
              raised.None? && ctx.trace == old(ctx.trace) + [Menu(MenuMessage("cleardata"), MenuButton)]
              && CurrentContext(ctx.session)
                 == Some(SessionContext("cleardata_menu", CallbackInput, Some(ctx.world.sentMessageId), [], Some(ClearDataInput), None, None, None))
  {
    var args := SpaceArgs(ctx.update.MessageText());
    if WantsHelp(args) {
      Emit(ctx, Reply(HelpMessage("cleardata")));
      return None;
    }
    var direct := ParseDirectArgs(args);
    if direct.Some? {
      raised := ExecuteClearData(ctx);
      return;
    }
    ShowClearDataMenu(ctx);
    raised := None;
  }

  // ---------------------------------------------------------------------
  // Properties

  /** The summary names the count only when something was deleted; a failed delete reports an error. */
  lemma ClearReports(deleted: Option<int>)
    ensures deleted.None? ==> DeletePlayers !in ExecuteEffects(deleted)
    ensures deleted.Some? ==> ExecuteEffects(deleted)[0] == DeletePlayers
    ensures forall n :: Reply(ClearSummary(n)) in ExecuteEffects(deleted) <==> deleted == Some(n) && n > 0
  {
  }

  /** `players` with spaces around it selects the players. */
  lemma {:induction false} PlayersNamed(w1: string, w2: string)
    requires AllSpace(w1) && AllSpace(w2)
    ensures Entities([w1 + ValidEntities[0] + w2]) == ValidEntities
  {
    var name := ValidEntities[0];
    assert Trim(name) == name by {
      assert name[0] == 'p' && name[|name| - 1] == 's';
      TrimStartStop(name);
      TrimEndStop(name);
    }
    TrimIgnoresPadding(w1, name, w2);
    hide Trim;
    var parts := [w1 + name + w2];
    assert parts[1..] == [];
    assert Entities(parts) == [name] + Entities([]);
  }
}
