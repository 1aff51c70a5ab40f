/**
 * `/newplayer` (src/commands/newPlayer.ts): the direct arguments
 * `name className level [attr=value ...]`, the record `executeNewPlayer`
 * assembles from them, and the menu that starts the dialogue instead.
 */
module NewPlayer {
  import opened Wrappers
  import opened Js
  import opened Json
  import opened Sessions
  import opened BotContext
  import opened CommandArgs
  import opened AttributeParser
  import SessionManager
  import Actions

  /** The callback data of the menu's button. */
  const StartButton := "newplayer_start"

  /** `NewPlayerParams`; `attributes` is undefined when no argument follows the level. */
  datatype NewPlayerParams = NewPlayerParams(name: string, className: string, level: int, attributes: Option<seq<(string, Json)>>)

  /** `parseInt(levelRaw, 10)` when it is a level, 1 to 20. */
  function Level(raw: string): Option<int>
  {
    var n := ParseInt(raw);
    if n.Some? && 1 <= n.value <= 20 then n else None
  }

  /** `parseDirectArgs`. */
  function ParseDirectArgs(args: seq<string>): (r: Option<NewPlayerParams>)
    ensures r.Some? <==> |args| >= 3 && Level(args[2]).Some?
    ensures r.Some? ==> r.value.name == args[0] && r.value.className == args[1]
                        && 1 <= r.value.level <= 20 && ParseInt(args[2]) == Some(r.value.level)
                        && (r.value.attributes.None? <==> |args| == 3)
                        && (|args| > 3 ==> r.value.attributes == Some(ParsedUpdates(args[3..])))
  {
    if |args| < 3 then None
    else
      var level := Level(args[2]);
      if level.None? then None
      else Some(NewPlayerParams(args[0], args[1], level.value,
                                if |args| > 3 then Some(ParsedUpdates(args[3..])) else None))
  }

  /** The record `executeNewPlayer` starts from: alias = name, the four stats at 0, the default skills. */
  function DefaultData(p: NewPlayerParams): seq<(string, Json)>
  {
    [("name", JStr(p.name)), ("alias", JStr(p.name)), ("className", JStr(p.className)), ("level", JNum(p.level)),
     ("perception", JNum(0)), ("fortitude", JNum(0)), ("reflex", JNum(0)), ("will", JNum(0)),
     ("skills", JObj(DefaultSkills()))]
  }

  /** The verdict on the extra attributes: nothing to check unless some were given. */
  function Validated(p: NewPlayerParams): Validation
  {
    if p.attributes.Some? && |p.attributes.value| > 0 then ValidateAll(p.attributes.value, Some(DefaultSkills()))
    else Valid([])
  }

  datatype Assembly = Rejected(reply: Text) | Assembled(data: seq<(string, Json)>)

  /** What `executeNewPlayer` does before it writes: reject the parameters, or the record to create. */
  function PlayerData(p: NewPlayerParams): Assembly
  {
    if p.name == "" || p.className == "" || p.level == 0 then Rejected(Key("createplayer_usage_error"))
    else match Validated(p)
      case Invalid(e) => Rejected(ValidationText(e))
      case Valid(u) => Assembled(Assign(DefaultData(p), u))
  }

  /** The effects of `executeNewPlayer` when it does not raise; `created` is the new row's id, None when the write raises. */
  function ExecuteEffects(p: NewPlayerParams, created: Option<string>): seq<Effect>
  {
    match PlayerData(p)
    case Rejected(t) => [Reply(t)]
    case Assembled(d) =>
      if created.None? then [Reply(Key("createplayer_error"))]
      else [CreatePlayer(d), ReplyWithButtons(PlayerCard(d), Actions.ActionButtons("player", created.value))]
  }

  /** `executeNewPlayer`. */
  method ExecuteNewPlayer(ctx: Ctx, p: NewPlayerParams) returns (raised: Option<Failure>)
    modifies ctx`trace
    ensures raised == ctx.Raises(AtExecutor)
    ensures raised.Some? ==> ctx.trace == old(ctx.trace)
    ensures raised.None? ==> ctx.trace == old(ctx.trace) + ExecuteEffects(p, ctx.world.created)
  {
    raised := ctx.Raises(AtExecutor);
    if raised.Some? {
      return;
    }
    if p.name == "" || p.className == "" || p.level == 0 {
      Emit(ctx, Reply(Key("createplayer_usage_error")));
      return;
    }
    var skills := CreateDefaultSkills();
    var playerData := [("name", JStr(p.name)), ("alias", JStr(p.name)), ("className", JStr(p.className)),
                       ("level", JNum(p.level)), ("perception", JNum(0)), ("fortitude", JNum(0)),
                       ("reflex", JNum(0)), ("will", JNum(0)), ("skills", JObj(skills))];
    var validated: seq<(string, Json)> := [];
    if p.attributes.Some? && |p.attributes.value| > 0 {
      var validation := ValidatePlayerUpdates(p.attributes.value, Some(skills));
      if validation.Invalid? {
        Emit(ctx, Reply(ValidationText(validation.error)));
        return;
      }
      validated := validation.updates;
    }
    playerData := Assign(playerData, validated);
    var player := ctx.world.created;
    if player.None? {
      Emit(ctx, Reply(Key("createplayer_error")));
      return;
    }
    Emit(ctx, CreatePlayer(playerData));
    var ab := Actions.ActionButtons("player", player.value);
    Emit(ctx, ReplyWithButtons(PlayerCard(playerData), ab));
  }

  /** `showNewPlayerMenu`: one button, then a context that waits for it. */
  method ShowNewPlayerMenu(ctx: Ctx)
    modifies ctx`trace, ctx`session
    ensures ctx.trace == old(ctx.trace) + [Menu(MenuMessage("newplayer"), StartButton)]
    ensures ctx.session == Some(Installed(old(ctx.session), "newplayer_menu", CallbackInput,
                                          Some(ctx.world.sentMessageId), Some([]), Some(NewPlayerInput)))
  {
    Emit(ctx, Menu(MenuMessage("newplayer"), StartButton));
    SessionManager.InitCommand(ctx, "newplayer_menu", CallbackInput, Some(ctx.world.sentMessageId), Some([]), Some(NewPlayerInput));
  }

  /** `newPlayerCommand`: help first, then the direct form, otherwise the menu. */
  method NewPlayerCommand(ctx: Ctx) returns (raised: Option<Failure>)
    modifies ctx`trace, ctx`session
    ensures var args := SpaceArgs(ctx.update.MessageText());
            if WantsHelp(args) then
              raised.None? && ctx.trace == old(ctx.trace) + [Reply(HelpMessage("newplayer"))]
              && ctx.session == old(ctx.session)
            else if ParseDirectArgs(args).Some? then
              raised == ctx.Raises(AtExecutor) && ctx.session == old(ctx.session)
              && (raised.None? ==> ctx.trace == old(ctx.trace) + ExecuteEffects(ParseDirectArgs(args).value, ctx.world.created))
            else
              raised.None? && ctx.trace == old(ctx.trace) + [Menu(MenuMessage("newplayer"), StartButton)]
              && CurrentContext(ctx.session)
                 == Some(SessionContext("newplayer_menu", CallbackInput, Some(ctx.world.sentMessageId), [], Some(NewPlayerInput), None, None, None))
  {
    var args := SpaceArgs(ctx.update.MessageText());
    if WantsHelp(args) {
      Emit(ctx, Reply(HelpMessage("newplayer")));
      return None;
    }
    var direct := ParseDirectArgs(args);
    if direct.Some? {
      raised := ExecuteNewPlayer(ctx, direct.value);
      return;
    }
    ShowNewPlayerMenu(ctx);
    raised := None;
  }

  // ---------------------------------------------------------------------
  // Properties

  /**
   * A created record starts from the defaults: every key reads the
   * validated update when there is one, and otherwise alias = name, the
   * stats 0 and the default skills.
   */
  lemma CreatedRecord(p: NewPlayerParams, k: string)
    requires PlayerData(p).Assembled?
    ensures Validated(p).Valid?
    ensures var u := Validated(p).updates;
            Get(PlayerData(p).data, k) == if HasKey(u, k) then Get(u, k) else Get(DefaultData(p), k)
  {
    var u := Validated(p).updates;
    if p.attributes.Some? && |p.attributes.value| > 0 {
      ValidatedUnique(p.attributes.value, Some(DefaultSkills()));
    }
    GetAssign(DefaultData(p), u, k);
  }

  /** Rejected parameters, and a failed write, create nothing; rejected ones reply the reason. */
  lemma NothingCreatedUnlessValid(p: NewPlayerParams, created: Option<string>)
    ensures (PlayerData(p).Rejected? || created.None?) ==> forall e :: e in ExecuteEffects(p, created) ==> !e.CreatePlayer?
    ensures Validated(p).Invalid? && p.name != "" && p.className != "" && p.level != 0 ==>
              ExecuteEffects(p, created) == [Reply(ValidationText(Validated(p).error))]
    ensures p.name == "" ==> ExecuteEffects(p, created) == [Reply(Key("createplayer_usage_error"))]
  {
  }

  /**
   * The card of a created player comes with the action keyboard exactly
   * when the record is written, and its two buttons are routed to
   * `actionHandler` as the web-app view and the deletion of the new row.
   */
  lemma CreatedPlayerGetsButtons(p: NewPlayerParams, created: Option<string>)
    ensures (exists e :: e in ExecuteEffects(p, created) && e.ReplyWithButtons?) <==> PlayerData(p).Assembled? && created.Some?
    ensures PlayerData(p).Assembled? && created.Some? && IsDotRun(created.value) ==>
              var r := ExecuteEffects(p, created)[1];
              r.ReplyWithButtons? && r.text == PlayerCard(PlayerData(p).data)
              && Actions.DecodeAction(r.buttons[0][0].data) == Some(Actions.Action("player", "webapp", created.value))
              && Actions.DecodeAction(r.buttons[0][1].data) == Some(Actions.Action("player", "delete", created.value))
  {
    if PlayerData(p).Assembled? && created.Some? {
      assert ExecuteEffects(p, created)[1] in ExecuteEffects(p, created);
      if IsDotRun(created.value) {
        Actions.ActionButtonsDecode("player", created.value);
      }
    }
  }
}
