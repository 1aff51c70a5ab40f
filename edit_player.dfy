/**
 * `/editplayer` (src/commands/editPlayer.ts): the direct arguments
 * `target attr=value ...`, the guards of `executeEditPlayer`, and the menu
 * that starts the dialogue instead.
 */
module EditPlayer {
  import opened Wrappers
  import opened Js
  import opened Json
  import opened Players
  import opened Sessions
  import opened BotContext
  import opened CommandArgs
  import opened AttributeParser
  import SessionManager
  import Actions

  /** Which player to edit: `playerId` for an all-digit target, `playerName` otherwise. */
  datatype Target = ById(id: string) | ByName(name: string)

  /** The callback data of the menu's button. */
  const StartButton := "editplayer_start"

  datatype EditPlayerParams = EditPlayerParams(target: Target, updates: seq<(string, Json)>)

  /** `/^\d+$/.test(target) ? {playerId: target} : {playerName: target.replace(/^["']|["']$/g, '')}`. */
  function TargetOf(raw: string): (t: Target)
    ensures |raw| > 0 && AllDigits(raw) ==> t == ById(raw)
    ensures !(|raw| > 0 && AllDigits(raw)) ==> t == ByName(StripQuotes(raw))
  {
    if |raw| > 0 && AllDigits(raw) then ById(raw) else ByName(StripQuotes(raw))
  }

  /** `parseDirectArgs`. */
  function ParseDirectArgs(args: seq<string>): (r: Option<EditPlayerParams>)
    ensures r.Some? <==> |args| >= 2 && |ParsedUpdates(args[1..])| > 0
    ensures r.Some? ==> r.value == EditPlayerParams(TargetOf(args[0]), ParsedUpdates(args[1..]))
  {
    if |args| < 2 then None
    else
      var updates := ParsedUpdates(args[1..]);
      if |updates| == 0 then None else Some(EditPlayerParams(TargetOf(args[0]), updates))
  }

  /** The search key `findPlayer` queries with; an empty name is not looked up. */
  function LookupKey(t: Target): string
  {
    match t
    case ById(id) => id
    case ByName(name) => name
  }

  /** A string column after the update: the written string, or the stored one. */
  function StrColumn(u: seq<(string, Json)>, k: string, current: string): string
  {
    match Get<Json>(u, k)
    case Some(JStr(v)) => v
    case _ => current
  }

  /** A number column after the update: the written number, or the stored one. */
  function NumColumn(u: seq<(string, Json)>, k: string, current: int): int
  {
    match Get<Json>(u, k)
    case Some(JNum(v)) => v
    case _ => current
  }

  /** The row `prisma.player.update` answers: the stored player with the validated columns written over it. */
  function Updated(p: Player, u: seq<(string, Json)>): Player
  {
    p.(name := StrColumn(u, "name", p.name),
       alias := (match Get<Json>(u, "alias") case Some(JStr(a)) => Some(a) case _ => p.alias),
       className := StrColumn(u, "className", p.className),
       level := NumColumn(u, "level", p.level),
       perception := NumColumn(u, "perception", p.perception),
       fortitude := NumColumn(u, "fortitude", p.fortitude),
       reflex := NumColumn(u, "reflex", p.reflex),
       will := NumColumn(u, "will", p.will),
       skills := (match Get<Json>(u, "skills") case Some(JObj(fs)) => fs case _ => p.skills))
  }

  /** A column of a stored player as JSON, under the key an updates object gives it. */
  function Column(p: Player, k: string): Json
  {
    if k == "name" then JStr(p.name)
    else if k == "alias" then (if p.alias.Some? then JStr(p.alias.value) else JNull)
    else if k == "className" then JStr(p.className)
    else if k == "level" then JNum(p.level)
    else if k == "perception" then JNum(p.perception)
    else if k == "fortitude" then JNum(p.fortitude)
    else if k == "reflex" then JNum(p.reflex)
    else if k == "will" then JNum(p.will)
    else if k == "skills" then JObj(p.skills)
    else JNull
  }

  /** The effects of `executeEditPlayer` when it does not raise; `found` is what the lookup answers. */
  function ExecuteEffects(p: EditPlayerParams, found: Option<Player>, updateFails: bool): seq<Effect>
  {
    if |p.updates| == 0 then [Reply(Key("editplayer_no_updates"))]
    else if LookupKey(p.target) == "" then [Reply(Key("editplayer_player_not_found"))]
    else
      [LookUpPlayer(LookupKey(p.target))]
      + if found.None? then [Reply(Key("editplayer_player_not_found"))]
        else match ValidateAll(p.updates, Some(found.value.skills))
          case Invalid(e) => [Reply(ValidationText(e))]
          case Valid(u) =>
            if |u| == 0 then [Reply(Key("editplayer_no_valid_updates"))]
            else if updateFails then [Reply(Key("editplayer_error"))]
            else
              var updated := Updated(found.value, u);
              [UpdatePlayer(found.value.id, u), ReplyWithButtons(EditSuccess(u, updated), Actions.ActionButtons("player", updated.id))]
  }

  /** `executeEditPlayer`. */
  method ExecuteEditPlayer(ctx: Ctx, p: EditPlayerParams) returns (raised: Option<Failure>)
    modifies ctx`trace
    ensures raised == ctx.Raises(AtExecutor)
    ensures raised.Some? ==> ctx.trace == old(ctx.trace)
    ensures raised.None? ==> ctx.trace == old(ctx.trace) + ExecuteEffects(p, ctx.world.editTarget, ctx.world.updateFails)
  {
    hide Updated, Actions.ActionButtons;
    raised := ctx.Raises(AtExecutor);
    if raised.Some? {
      return;
    }
    if |p.updates| == 0 {
      Emit(ctx, Reply(Key("editplayer_no_updates")));
      return;
    }
    var key := LookupKey(p.target);
    if key == "" {
      Emit(ctx, Reply(Key("editplayer_player_not_found")));
      return;
    }
    Emit(ctx, LookUpPlayer(key));
    var player := ctx.world.editTarget;
    if player.None? {
      Emit(ctx, Reply(Key("editplayer_player_not_found")));
      return;
    }
    var validation := ValidatePlayerUpdates(p.updates, Some(player.value.skills));
    if validation.Invalid? {
      Emit(ctx, Reply(ValidationText(validation.error)));
      return;
    }
    var validated := validation.updates;
    if |validated| == 0 {
      Emit(ctx, Reply(Key("editplayer_no_valid_updates")));
      return;
    }
    if ctx.world.updateFails {
      Emit(ctx, Reply(Key("editplayer_error")));
      return;
    }
    Emit(ctx, UpdatePlayer(player.value.id, validated));
    var updatedPlayer := Updated(player.value, validated);
    var ab := Actions.ActionButtons("player", updatedPlayer.id);
    Emit(ctx, ReplyWithButtons(EditSuccess(validated, updatedPlayer), ab));
  }

  /** `showEditPlayerMenu`. */
  method ShowEditPlayerMenu(ctx: Ctx)
    modifies ctx`trace, ctx`session
    ensures ctx.trace == old(ctx.trace) + [Menu(MenuMessage("editplayer"), StartButton)]
    ensures ctx.session == Some(Installed(old(ctx.session), "editplayer_menu", CallbackInput,
                                          Some(ctx.world.sentMessageId), Some([]), Some(EditPlayerInput)))
  {
    Emit(ctx, Menu(MenuMessage("editplayer"), StartButton));
    SessionManager.InitCommand(ctx, "editplayer_menu", CallbackInput, Some(ctx.world.sentMessageId), Some([]), Some(EditPlayerInput));
  }

  /** `editPlayerCommand`: help first, then the direct form, otherwise the menu. */
  method EditPlayerCommand(ctx: Ctx) returns (raised: Option<Failure>)
    modifies ctx`trace, ctx`session
    ensures var args := SpaceArgs(ctx.update.MessageText());
            if WantsHelp(args) then
              raised.None? && ctx.trace == old(ctx.trace) + [Reply(HelpMessage("editplayer"))]
              && ctx.session == old(ctx.session)
            else if ParseDirectArgs(args).Some? then
              raised == ctx.Raises(AtExecutor) && ctx.session == old(ctx.session)
              && (raised.None? ==> ctx.trace == old(ctx.trace) + ExecuteEffects(ParseDirectArgs(args).value, ctx.world.editTarget, ctx.world.updateFails))
            else
              raised.None? && ctx.trace == old(ctx.trace) + [Menu(MenuMessage("editplayer"), StartButton)]
              && CurrentContext(ctx.session)
                 == Some(SessionContext("editplayer_menu", CallbackInput, Some(ctx.world.sentMessageId), [], Some(EditPlayerInput), None, None, None))
  {
    var args := SpaceArgs(ctx.update.MessageText());
    if WantsHelp(args) {
      Emit(ctx, Reply(HelpMessage("editplayer")));
      return None;
    }
    var direct := ParseDirectArgs(args);
    if direct.Some? {
      raised := ExecuteEditPlayer(ctx, direct.value);
      return;
    }
    ShowEditPlayerMenu(ctx);
    raised := None;
  }

  // ---------------------------------------------------------------------
  // Properties

  /** Empty updates are answered before any lookup; a failed validation or lookup updates nothing. */
  lemma EditGuards(p: EditPlayerParams, found: Option<Player>, updateFails: bool)
    ensures |p.updates| == 0 ==> ExecuteEffects(p, found, updateFails) == [Reply(Key("editplayer_no_updates"))]
    ensures found.None? || updateFails || (found.Some? && ValidateAll(p.updates, Some(found.value.skills)).Invalid?) ==>
              forall e :: e in ExecuteEffects(p, found, updateFails) ==> !e.UpdatePlayer?
    ensures found.Some? && |p.updates| > 0 && LookupKey(p.target) != "" && ValidateAll(p.updates, Some(found.value.skills)).Invalid? ==>
              ExecuteEffects(p, found, updateFails)
              == [LookUpPlayer(LookupKey(p.target)), Reply(ValidationText(ValidateAll(p.updates, Some(found.value.skills)).error))]
  {
  }

  /** A written update is exactly the validated one, for the player the lookup found. */
  lemma EditWritesValidated(p: EditPlayerParams, found: Option<Player>, updateFails: bool, e: Effect)
    requires e in ExecuteEffects(p, found, updateFails) && e.UpdatePlayer?
    ensures found.Some? && e.id == found.value.id
    ensures ValidateAll(p.updates, Some(found.value.skills)) == Valid(e.data) && |e.data| > 0
  {
  }

  /**
   * The updated row keeps the stored player's identity and unlisted
   * columns; each column the updates object names takes the written value
   * (when it is of that column's kind), and every other column keeps the
   * stored one.
   */
  lemma UpdatedColumns(p: Player, u: seq<(string, Json)>, k: string)
    requires KnownKey(k)
    ensures var q := Updated(p, u);
            q.id == p.id && q.pathbuilderId == p.pathbuilderId && q.status == p.status
            && q.autoTags == p.autoTags && q.metadata == p.metadata
    ensures !HasKey(u, k) ==> Column(Updated(p, u), k) == Column(p, k)
    ensures HasKey(u, k) && KindOk(k, Get(u, k).value) && Get(u, k).value != JNull ==>
              Column(Updated(p, u), k) == Get(u, k).value
  {
    hide Get, HasKey;
    assert k in NameKeys || k in NumericKeys || k == "skills";
    if k in NameKeys {
      assert k == "name" || k == "alias" || k == "className";
    } else if k in NumericKeys {
      assert k == "level" || k == "perception" || k == "fortitude" || k == "reflex" || k == "will";
    }
  }

  /**
   * A successful edit answers with the changes and the updated row, and
   * with the action keyboard of the edited player: its buttons view and
   * delete the row the lookup found.
   */
  lemma EditSuccessShowsUpdatedRow(p: EditPlayerParams, found: Option<Player>, updateFails: bool, e: Effect)
    requires e in ExecuteEffects(p, found, updateFails) && e.ReplyWithButtons?
    ensures found.Some? && !updateFails
    ensures ValidateAll(p.updates, Some(found.value.skills)).Valid?
    ensures var u := ValidateAll(p.updates, Some(found.value.skills)).updates;
            UpdatePlayer(found.value.id, u) in ExecuteEffects(p, found, updateFails)
            && e.text == EditSuccess(u, Updated(found.value, u))
    ensures e.buttons == Actions.ActionButtons("player", found.value.id)
    ensures IsDotRun(found.value.id) ==>
              Actions.DecodeAction(e.buttons[0][0].data) == Some(Actions.Action("player", "webapp", found.value.id))
              && Actions.DecodeAction(e.buttons[0][1].data) == Some(Actions.Action("player", "delete", found.value.id))
  {
    hide Updated, Actions.ActionButtons, Actions.DecodeAction, ValidateAll;
    var effects := ExecuteEffects(p, found, updateFails);
    assert found.Some? && !updateFails && LookupKey(p.target) != "" && |p.updates| > 0;
    var v := ValidateAll(p.updates, Some(found.value.skills));
    assert v.Valid? && |v.updates| > 0;
    var updated := Updated(found.value, v.updates);
    assert effects == [LookUpPlayer(LookupKey(p.target)), UpdatePlayer(found.value.id, v.updates),
                       ReplyWithButtons(EditSuccess(v.updates, updated), Actions.ActionButtons("player", updated.id))];
    UpdatedColumns(found.value, v.updates, "name");
    if IsDotRun(found.value.id) {
      Actions.ActionButtonsDecode("player", found.value.id);
    }
  }

  /** A quoted target is a name, looked up without its quotes; an all-digit target is an id. */
  lemma {:induction false} TargetCases(inner: string, q1: char, q2: char)
    requires IsQuote(q1) && IsQuote(q2)
    requires |inner| == 0 || (!IsQuote(inner[0]) && !IsQuote(inner[|inner| - 1]))
    ensures TargetOf([q1] + inner + [q2]) == ByName(inner)
    ensures TargetOf([q1] + inner) == ByName(inner)
    ensures |inner| > 0 && AllDigits(inner) ==> TargetOf(inner) == ById(inner)
  {
    StripQuotesCases(inner, q1, q2);
    assert ([q1] + inner + [q2])[0] == q1;
    assert ([q1] + inner)[0] == q1;
  }
}
