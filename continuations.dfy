/**
 * The continuations a session context can hold: `handleNewPlayerInput`,
 * `handleEditPlayerInput`, `handleImportPlayerInput`,
 * `handleSyncPlayersInput` (src/handlers/text/) and `handleClearData`
 * (src/handlers/handleClearData.ts).
 *
 * Each is a method on the context, proved against a function giving the
 * session it leaves, what it sends or stores, and how it ends. The
 * executors they hand over to raise, when they raise, before doing
 * anything, so a continuation that raises has done only what came before
 * the executor.
 */
module Continuations {
  import opened Wrappers
  import opened Js
  import opened Json
  import opened Telegram
  import opened Sessions
  import opened BotContext
  import opened CancelInput
  import opened AttributeParser
  import SessionManager
  import CommandArgs
  import NewPlayer
  import EditPlayer
  import ImportPlayer
  import SyncPlayers
  import ClearData

  /** What a continuation leaves: the session, what it sent or stored, and how it ended. */
  datatype Step = Step(session: Option<Session>, effects: seq<Effect>, outcome: Outcome)

  /** The update is a press of the inline button carrying `data`. */
  predicate Pressed(u: Update, data: string)
  {
    u.callbackQuery.Some? && u.callbackQuery.value.data == Some(data)
  }

  /** A menu's start button pressed: the press answered, the menu deleted, the prompt sent, and a text step armed. */
  function Prompted(s: Option<Session>, w: World, prompt: string, stepId: string, id: HandlerId): Step
  {
    Step(Some(Installed(s, stepId, TextInput, Some(w.sentMessageId), Some([]), Some(id))),
         [AnswerCallback, DeleteMenuMessage, Reply(Key(prompt))], Done(true))
  }

  /** The session cleared after `before`, then the executor: it raises, or does `effects`. */
  function Executed(s: Option<Session>, before: seq<Effect>, raised: Option<Failure>, effects: seq<Effect>): Step
  {
    match raised
    case Some(e) => Step(Some(Cleared(s)), before, Threw(e))
    case None => Step(Some(Cleared(s)), before + effects, Done(true))
  }

  /** Nothing to do: `return false` with the session as it was. */
  function Declined(s: Option<Session>): Step
  {
    Step(s, [], Done(false))
  }

  /** A reply, the session kept for another try, and `return true`. */
  function Answered(s: Option<Session>, key: string): Step
  {
    Step(s, [Reply(Key(key))], Done(true))
  }

  /** The cancel word: `operation_cancelled` and the session cleared. */
  function Cancelled(s: Option<Session>): Step
  {
    Step(Some(Cleared(s)), [Reply(Key("operation_cancelled"))], Done(true))
  }

  /** `text.trim().split(' ')`. */
  function Words(text: string): seq<string>
  {
    Split(Trim(text), ' ')
  }

  // ---------------------------------------------------------------------
  // handleNewPlayerInput

  function NewPlayerStep(s: Option<Session>, u: Update, w: World, raised: Option<Failure>): Step
  {
    if Pressed(u, NewPlayer.StartButton) then Prompted(s, w, "newplayer_input_prompt", "newplayer_input", NewPlayerInput)
    else match MessageText(s)
      case None => Declined(s)
      case Some(text) =>
        if IsCancelInput(JStr(text)) then Cancelled(s)
        else
          var input := Words(text);
          if |input| < 3 then Answered(s, "createplayer_usage_error")
          else if NewPlayer.Level(input[2]).None? then Answered(s, "createplayer_invalid_level")
          else Executed(s, [], raised, NewPlayer.ExecuteEffects(NewPlayer.ParseDirectArgs(input).value, w.created))
  }

  method HandleNewPlayerInput(ctx: Ctx) returns (outcome: Outcome)
    modifies ctx`trace, ctx`session
    ensures var st := NewPlayerStep(old(ctx.session), ctx.update, ctx.world, ctx.Raises(AtExecutor));
            ctx.session == st.session && ctx.trace == old(ctx.trace) + st.effects && outcome == st.outcome
  {
    // the parsers and the creation's own effects only pass through here
    hide NewPlayer.ExecuteEffects, IsCancelInput, Split, Trim, ParseInt, ParsedUpdates;
    if ctx.update.callbackQuery.Some? && ctx.update.callbackQuery.value.data == Some(NewPlayer.StartButton) {
      Emit(ctx, AnswerCallback);
      Emit(ctx, DeleteMenuMessage);
      Emit(ctx, Reply(Key("newplayer_input_prompt")));
      SessionManager.InitCommand(ctx, "newplayer_input", TextInput, Some(ctx.world.sentMessageId), Some([]), Some(NewPlayerInput));
      return Done(true);
    }
    var text := SessionManager.GetMessageText(ctx);
    if text.None? {
      return Done(false);
    }
    if IsCancelInput(JStr(text.value)) {
      Emit(ctx, Reply(Key("operation_cancelled")));
      SessionManager.ClearSession(ctx);
      return Done(true);
    }
    var input := Split(Trim(text.value), ' ');
    if |input| < 3 {
      Emit(ctx, Reply(Key("createplayer_usage_error")));
      return Done(true);
    }
    var level := ParseInt(input[2]);
    if level.None? || level.value < 1 || level.value > 20 {
      Emit(ctx, Reply(Key("createplayer_invalid_level")));
      return Done(true);
    }
    var attributes: Option<seq<(string, Json)>> := None;
    if |input| > 3 {
      var updates := ParseAttributeUpdates(input[3..]);
      attributes := Some(updates);
    }
    var params := NewPlayer.NewPlayerParams(input[0], input[1], level.value, attributes);
    assert NewPlayer.ParseDirectArgs(input) == Some(params);
    assert NewPlayerStep(old(ctx.session), ctx.update, ctx.world, ctx.Raises(AtExecutor))
        == Executed(old(ctx.session), [], ctx.Raises(AtExecutor), NewPlayer.ExecuteEffects(params, ctx.world.created));
    SessionManager.ClearSession(ctx);
    var raised := NewPlayer.ExecuteNewPlayer(ctx, params);
    outcome := if raised.Some? then Threw(raised.value) else Done(true);
  }

  // ---------------------------------------------------------------------
  // handleEditPlayerInput

  function EditPlayerStep(s: Option<Session>, u: Update, w: World, raised: Option<Failure>): Step
  {
    if Pressed(u, EditPlayer.StartButton) then Prompted(s, w, "editplayer_input_prompt", "editplayer_input", EditPlayerInput)
    else match MessageText(s)
      case None => Declined(s)
      case Some(text) =>
        if IsCancelInput(JStr(text)) then Cancelled(s)
        else
          var input := Words(text);
          if |input| < 2 then Answered(s, "editplayer_usage_error")
          else if |ParsedUpdates(input[1..])| == 0 then Answered(s, "editplayer_no_updates")
          else Executed(s, [], raised, EditPlayer.ExecuteEffects(EditPlayer.ParseDirectArgs(input).value, w.editTarget, w.updateFails))
  }

  method HandleEditPlayerInput(ctx: Ctx) returns (outcome: Outcome)
    modifies ctx`trace, ctx`session
    ensures var st := EditPlayerStep(old(ctx.session), ctx.update, ctx.world, ctx.Raises(AtExecutor));
            ctx.session == st.session && ctx.trace == old(ctx.trace) + st.effects && outcome == st.outcome
  {
    // the parsers and the edit's own effects only pass through here
    hide EditPlayer.ExecuteEffects, IsCancelInput, Split, Trim;
    if ctx.update.callbackQuery.Some? && ctx.update.callbackQuery.value.data == Some(EditPlayer.StartButton) {
      Emit(ctx, AnswerCallback);
      Emit(ctx, DeleteMenuMessage);
      Emit(ctx, Reply(Key("editplayer_input_prompt")));
      SessionManager.InitCommand(ctx, "editplayer_input", TextInput, Some(ctx.world.sentMessageId), Some([]), Some(EditPlayerInput));
      return Done(true);
    }
    var text := SessionManager.GetMessageText(ctx);
    if text.None? {
      return Done(false);
    }
    if IsCancelInput(JStr(text.value)) {
      Emit(ctx, Reply(Key("operation_cancelled")));
      SessionManager.ClearSession(ctx);
      return Done(true);
    }
    var input := Split(Trim(text.value), ' ');
    if |input| < 2 {
      Emit(ctx, Reply(Key("editplayer_usage_error")));
      return Done(true);
    }
    var target := input[0];
    var updates := ParseAttributeUpdates(input[1..]);
    if |updates| == 0 {
      Emit(ctx, Reply(Key("editplayer_no_updates")));
      return Done(true);
    }
    var params: EditPlayer.EditPlayerParams;
    if |target| > 0 && AllDigits(target) {
      params := EditPlayer.EditPlayerParams(EditPlayer.ById(target), updates);
    } else {
      params := EditPlayer.EditPlayerParams(EditPlayer.ByName(StripQuotes(target)), updates);
    }
    assert EditPlayer.ParseDirectArgs(input) == Some(params);
    assert EditPlayerStep(old(ctx.session), ctx.update, ctx.world, ctx.Raises(AtExecutor))
        == Executed(old(ctx.session), [], ctx.Raises(AtExecutor), EditPlayer.ExecuteEffects(params, ctx.world.editTarget, ctx.world.updateFails));
    SessionManager.ClearSession(ctx);
    var raised := EditPlayer.ExecuteEditPlayer(ctx, params);
    outcome := if raised.Some? then Threw(raised.value) else Done(true);
  }

  // ---------------------------------------------------------------------
  // handleImportPlayerInput

  function ImportPlayerStep(s: Option<Session>, u: Update, w: World, raised: Option<Failure>): Step
  {
    if Pressed(u, ImportPlayer.StartButton) then Prompted(s, w, "import_player_input_prompt", "import_player_input", ImportPlayerInput)
    else match MessageText(s)
      case None => Declined(s)
      case Some(text) =>
        if Trim(text) == "" then Answered(s, "import_player_input_prompt")
        else Executed(s, [], raised, ImportPlayer.ExecuteEffects(Trim(text), w.importFetch, w.upserted))
  }

  method HandleImportPlayerInput(ctx: Ctx) returns (outcome: Outcome)
    modifies ctx`trace, ctx`session
    ensures var st := ImportPlayerStep(old(ctx.session), ctx.update, ctx.world, ctx.Raises(AtExecutor));
            ctx.session == st.session && ctx.trace == old(ctx.trace) + st.effects && outcome == st.outcome
  {
    hide ImportPlayer.ExecuteEffects;  // the import's own effects only pass through here
    if ctx.update.callbackQuery.Some? && ctx.update.callbackQuery.value.data == Some(ImportPlayer.StartButton) {
      Emit(ctx, AnswerCallback);
      Emit(ctx, DeleteMenuMessage);
      Emit(ctx, Reply(Key("import_player_input_prompt")));
      SessionManager.InitCommand(ctx, "import_player_input", TextInput, Some(ctx.world.sentMessageId), Some([]), Some(ImportPlayerInput));
      return Done(true);
    }
    var text := SessionManager.GetMessageText(ctx);
    if text.None? {
      return Done(false);
    }
    var input := Trim(text.value);
    if input == "" {
      Emit(ctx, Reply(Key("import_player_input_prompt")));
      return Done(true);
    }
    SessionManager.ClearSession(ctx);
    var raised := ImportPlayer.ExecuteImportPlayer(ctx, input);
    outcome := if raised.Some? then Threw(raised.value) else Done(true);
  }

  // ---------------------------------------------------------------------
  // handleSyncPlayersInput

  function SyncPlayersStep(s: Option<Session>, u: Update, w: World, raised: Option<Failure>): Step
  {
    if Pressed(u, SyncPlayers.StartButton) then Executed(s, [AnswerCallback, DeleteMenuMessage], raised, SyncPlayers.SyncEffects(w))
    else Declined(s)
  }

  method HandleSyncPlayersInput(ctx: Ctx) returns (outcome: Outcome)
    modifies ctx`trace, ctx`session
    ensures var st := SyncPlayersStep(old(ctx.session), ctx.update, ctx.world, ctx.Raises(AtExecutor));
            ctx.session == st.session && ctx.trace == old(ctx.trace) + st.effects && outcome == st.outcome
  {
    hide SyncPlayers.SyncEffects;  // the sync's own effects only pass through here
    if ctx.update.callbackQuery.Some? && ctx.update.callbackQuery.value.data == Some(SyncPlayers.StartButton) {
      Emit(ctx, AnswerCallback);
      Emit(ctx, DeleteMenuMessage);
      SessionManager.ClearSession(ctx);
      var raised := SyncPlayers.ExecuteSyncPlayers(ctx);
      return if raised.Some? then Threw(raised.value) else Done(true);
    }
    return Done(false);
  }

  // ---------------------------------------------------------------------
  // handleClearData

  /**
   * The `switch` on the button data as the source writes it: only
   * `clear_all` names something to clear, and every other value returns
   * false from the `default` branch.
   */
  function ClearChoiceAsWritten(data: string): (r: Option<seq<string>>)
    ensures r.Some? <==> data == "clear_all"
  {
    if data == "clear_all" then Some(ClearData.ValidEntities) else None
  }

  /** The switch with the menu's own button among its cases: `clear_all` and `clear_players` both clear the players. */
  function ClearChoice(data: string): (r: Option<seq<string>>)
    ensures r.Some? <==> data == "clear_all" || data == ClearData.MenuButton
    ensures r.Some? ==> r.value == ClearData.ValidEntities
  {
    if data == "clear_all" || data == ClearData.MenuButton then Some(ClearData.ValidEntities) else None
  }

  /** `handleClearData` with the corrected switch; the running model keeps the switch as written. */
  function ClearDataStep(s: Option<Session>, w: World, raised: Option<Failure>): Step
  {
    match ButtonData(s)
    case None => Declined(s)
    case Some(data) =>
      if !StartsWith(data, "clear_") || ClearChoice(data).None? then Declined(s)
      else Executed(s, [AnswerCallback, DeleteMenuMessage], raised, ClearData.ExecuteEffects(w.deleted))
  }

  /** `handleClearData` with the switch as the source writes it. */
  function ClearDataStepAsWritten(s: Option<Session>, w: World, raised: Option<Failure>): Step
  {
    match ButtonData(s)
    case None => Declined(s)
    case Some(data) =>
      if !StartsWith(data, "clear_") || ClearChoiceAsWritten(data).None? then Declined(s)
      else Executed(s, [AnswerCallback, DeleteMenuMessage], raised, ClearData.ExecuteEffects(w.deleted))
  }

  /** `handleClearData`, with the switch as written: only `clear_all` goes on to delete. */
  method HandleClearData(ctx: Ctx) returns (outcome: Outcome)
    modifies ctx`trace, ctx`session
    ensures var st := ClearDataStepAsWritten(old(ctx.session), ctx.world, ctx.Raises(AtExecutor));
            ctx.session == st.session && ctx.trace == old(ctx.trace) + st.effects && outcome == st.outcome
  {
    var data := SessionManager.GetButtonData(ctx);
    if data.None? || !StartsWith(data.value, "clear_") {
      return Done(false);
    }
    var entities := ClearChoiceAsWritten(data.value);
    if entities.None? {
      return Done(false);
    }
    Emit(ctx, AnswerCallback);
    Emit(ctx, DeleteMenuMessage);
    SessionManager.ClearSession(ctx);
    var raised := ClearData.ExecuteClearData(ctx);
    outcome := if raised.Some? then Threw(raised.value) else Done(true);
  }

  // ---------------------------------------------------------------------
  // The stored continuation, by its id

  /** The text step each continuation arms when its menu button is pressed. */
  function InputStep(id: HandlerId): string
  {
    match id
    case NewPlayerInput => "newplayer_input"
    case EditPlayerInput => "editplayer_input"
    case ImportPlayerInput => "import_player_input"
    case SyncPlayersInput => ""
    case ClearDataInput => ""
  }

  function ContinuationStep(id: HandlerId, s: Option<Session>, u: Update, w: World, raised: Option<Failure>): Step
  {
    match id
    case NewPlayerInput => NewPlayerStep(s, u, w, raised)
    case EditPlayerInput => EditPlayerStep(s, u, w, raised)
    case ImportPlayerInput => ImportPlayerStep(s, u, w, raised)
    case SyncPlayersInput => SyncPlayersStep(s, u, w, raised)
    case ClearDataInput => ClearDataStepAsWritten(s, w, raised)
  }

  /** `context.handler(ctx)`: runs the continuation the id names. */
  method RunHandler(ctx: Ctx, id: HandlerId) returns (outcome: Outcome)
    modifies ctx`trace, ctx`session
    ensures var st := ContinuationStep(id, old(ctx.session), ctx.update, ctx.world, ctx.Raises(AtExecutor));
            ctx.session == st.session && ctx.trace == old(ctx.trace) + st.effects && outcome == st.outcome
  {
    hide NewPlayerStep, EditPlayerStep, ImportPlayerStep, SyncPlayersStep, ClearDataStepAsWritten;  // each is its method's contract
    match id
    case NewPlayerInput => outcome := HandleNewPlayerInput(ctx);
    case EditPlayerInput => outcome := HandleEditPlayerInput(ctx);
    case ImportPlayerInput => outcome := HandleImportPlayerInput(ctx);
    case SyncPlayersInput => outcome := HandleSyncPlayersInput(ctx);
    case ClearDataInput => outcome := HandleClearData(ctx);
  }

  // ---------------------------------------------------------------------
  // Properties

  /**
   * Every continuation leaves the slot as it was, clears it, or arms the
   * text step of its own dialogue; returning false changes and sends
   * nothing; raising happens only after the session is cleared.
   */
  lemma ContinuationShapes(id: HandlerId, s: Option<Session>, u: Update, w: World, raised: Option<Failure>)
    ensures var st := ContinuationStep(id, s, u, w, raised);
            st.session == s || st.session == Some(Cleared(s))
            || (InputStep(id) != "" && st.session == Some(Installed(s, InputStep(id), TextInput, Some(w.sentMessageId), Some([]), Some(id))))
    ensures var st := ContinuationStep(id, s, u, w, raised);
            st.outcome == Done(false) ==> st.session == s && st.effects == []
    ensures var st := ContinuationStep(id, s, u, w, raised);
            st.outcome.Threw? ==> raised == Some(st.outcome.error) && st.session == Some(Cleared(s))
    ensures !ContinuationStep(id, s, u, w, raised).outcome.Returned?
  {
    hide NewPlayer.ExecuteEffects, EditPlayer.ExecuteEffects, ImportPlayer.ExecuteEffects, SyncPlayers.SyncEffects;
    hide IsCancelInput, Split, Trim, ParseInt, ParsedUpdates, ClearData.ExecuteEffects, NewPlayer.Level, StripQuotes, AllDigits;
  }

  /**
   * The text answering the new-player prompt is read as the arguments of
   * `/newplayer`: it runs the creation exactly when the command's direct
   * form would, with the same parameters, after clearing the session; any
   * other text gets one reply and keeps the session for another try.
   */
  lemma {:induction false} NewPlayerInputAsCommand(s: Option<Session>, u: Update, w: World, t: string)
    requires !Pressed(u, NewPlayer.StartButton) && MessageText(s) == Some(t) && !IsCancelInput(JStr(t))
    ensures var st := NewPlayerStep(s, u, w, None);
            var direct := NewPlayer.ParseDirectArgs(SpaceArgsOf("/newplayer", t));
            (direct.Some? ==> st == Step(Some(Cleared(s)), NewPlayer.ExecuteEffects(direct.value, w.created), Done(true)))
            && (direct.None? ==> st.session == s && |st.effects| == 1 && st.outcome == Done(true))
  {
    hide NewPlayer.ExecuteEffects, IsCancelInput, Split, Trim, ParseInt, ParsedUpdates;
    ArgsOfCommand("/newplayer", t);
  }

  /**
   * The text answering the edit prompt is read as the arguments of
   * `/editplayer`: the same target rule and the same updates, after
   * clearing the session; text the direct form refuses keeps the session.
   */
  lemma {:induction false} EditPlayerInputAsCommand(s: Option<Session>, u: Update, w: World, t: string)
    requires !Pressed(u, EditPlayer.StartButton) && MessageText(s) == Some(t) && !IsCancelInput(JStr(t))
    ensures var st := EditPlayerStep(s, u, w, None);
            var direct := EditPlayer.ParseDirectArgs(SpaceArgsOf("/editplayer", t));
            (direct.Some? ==> st == Step(Some(Cleared(s)), EditPlayer.ExecuteEffects(direct.value, w.editTarget, w.updateFails), Done(true)))
            && (direct.None? ==> st.session == s && |st.effects| == 1 && st.outcome == Done(true))
  {
    hide EditPlayer.ExecuteEffects, IsCancelInput, Split, Trim, ParsedUpdates;
    ArgsOfCommand("/editplayer", t);
  }

  /** The words after a command followed by the trimmed text: the text's own words. */
  function SpaceArgsOf(command: string, t: string): seq<string>
  {
    CommandArgs.SpaceArgs(Some(command + " " + Trim(t)))
  }

  lemma ArgsOfCommand(command: string, t: string)
    requires ' ' !in command
    ensures SpaceArgsOf(command, t) == Words(t)
  {
    assert command + " " + Trim(t) == command + [' '] + Trim(t);
    SplitPrefix(command, Trim(t), ' ');
  }

  /**
   * A captured message is trimmed and non-empty, so the blank-input
   * re-prompt of the import dialogue is never reached: whatever text comes,
   * the session is cleared and the import runs on exactly the captured
   * text, as `/importplayer` followed by that text would.
   */
  lemma {:induction false} ImportInputAlwaysImports(s: Option<Session>, messageId: int, text: string, u: Update, w: World)
    requires !Pressed(u, ImportPlayer.StartButton)
    requires MessageText(MessageCaptured(s, messageId, Some(text))).Some?
    ensures var captured := MessageCaptured(s, messageId, Some(text));
            var st := ImportPlayerStep(captured, u, w, None);
            st == Step(Some(Cleared(captured)), ImportPlayer.ExecuteEffects(Trim(text), w.importFetch, w.upserted), Done(true))
            && ImportPlayer.ParseDirectArgs(SpaceArgsOf("/importplayer", text)) == Some(Trim(text))
  {
    hide ImportPlayer.ExecuteEffects, ImportPlayer.ParseDirectArgs, MessageCaptured, MessageText, Trim, SpaceArgsOf;
    CapturedIsTrimmed(s, messageId, text);
    TrimIdempotent(text);
    ImportArgsOfText(text);
  }

  lemma CapturedIsTrimmed(s: Option<Session>, messageId: int, text: string)
    requires MessageText(MessageCaptured(s, messageId, Some(text))).Some?
    ensures MessageText(MessageCaptured(s, messageId, Some(text))) == Some(Trim(text)) && Trim(text) != ""
  {
  }

  lemma ImportArgsOfText(text: string)
    requires Trim(text) != ""
    ensures ImportPlayer.ParseDirectArgs(SpaceArgsOf("/importplayer", text)) == Some(Trim(text))
  {
    hide Split, Join;
    TrimIdempotent(text);
    ArgsOfCommand("/importplayer", text);
    JoinSplit(Trim(text), ' ');
  }

  /**
   * The sync continuation acts only on its own button, and then clears the
   * session before the sync; on anything else, text included, it returns
   * false and changes nothing. It never arms a context.
   */
  lemma SyncInputOnlyOnButton(s: Option<Session>, u: Update, w: World, raised: Option<Failure>)
    ensures var st := SyncPlayersStep(s, u, w, raised);
            !Pressed(u, SyncPlayers.StartButton) ==> st == Declined(s)
    ensures var st := SyncPlayersStep(s, u, w, raised);
            Pressed(u, SyncPlayers.StartButton) ==>
              st.session == Some(Cleared(s)) && st.effects[..2] == [AnswerCallback, DeleteMenuMessage]
              && (raised.None? ==> st.effects[2..] == SyncPlayers.SyncEffects(w) && st.outcome == Done(true))
    ensures var st := SyncPlayersStep(s, u, w, raised);
            st.session == s || CurrentContext(st.session).None?
  {
    hide SyncPlayers.SyncEffects;
    ClearedProperties(s);
  }

  /** The session after `/cleardata` shows its menu and the menu's button is pressed. */
  function MenuPressed(s: Option<Session>, messageId: int): Option<Session>
  {
    ButtonCaptured(Some(Installed(s, "cleardata_menu", CallbackInput, Some(messageId), Some([]), Some(ClearDataInput))),
                   Some(ClearData.MenuButton))
  }

  /**
   * As written, pressing the `/cleardata` menu's only button does nothing:
   * `clear_players` falls into the `default` branch, the press is not
   * answered, and the menu context stays armed.
   */
  lemma MenuButtonIgnoredAsWritten(s: Option<Session>, messageId: int, u: Update, w: World, raised: Option<Failure>)
    ensures ClearDataStepAsWritten(MenuPressed(s, messageId), w, raised) == Declined(MenuPressed(s, messageId))
    ensures ContinuationStep(ClearDataInput, MenuPressed(s, messageId), u, w, raised) == Declined(MenuPressed(s, messageId))
    ensures CurrentContext(MenuPressed(s, messageId)).Some?
  {
    var name := ClearData.MenuButton;
    assert name[6] == 'p';
    assert name != "clear_all";
  }

  /** With the menu's button among the cases, pressing it clears the players after clearing the session. */
  lemma MenuButtonClears(s: Option<Session>, messageId: int, w: World)
    ensures var pressed := MenuPressed(s, messageId);
            ClearDataStep(pressed, w, None)
            == Step(Some(Cleared(pressed)), [AnswerCallback, DeleteMenuMessage] + ClearData.ExecuteEffects(w.deleted), Done(true))
  {
    var name := ClearData.MenuButton;
    assert StartsWith(name, "clear_") by { assert name[..6] == "clear_"; }
  }

  /**
   * Button data that is not `clear_all` changes nothing and returns false;
   * `clear_all` clears the session before the deletion runs.
   */
  lemma ClearDataDeclines(s: Option<Session>, u: Update, w: World, raised: Option<Failure>)
    ensures ButtonData(s) != Some("clear_all") ==> ContinuationStep(ClearDataInput, s, u, w, raised) == Declined(s)
    ensures ButtonData(s) == Some("clear_all") ==>
      ContinuationStep(ClearDataInput, s, u, w, raised)
      == Executed(s, [AnswerCallback, DeleteMenuMessage], raised, ClearData.ExecuteEffects(w.deleted))
  {
    if ButtonData(s) == Some("clear_all") {
      assert StartsWith("clear_all", "clear_") by { assert "clear_all"[..6] == "clear_"; }
    }
  }

  /** The correction changes the outcome of the menu's own button and of no other data. */
  lemma CorrectionOnlyAddsMenuButton(s: Option<Session>, w: World, raised: Option<Failure>)
    requires ButtonData(s) != Some(ClearData.MenuButton)
    ensures ClearDataStep(s, w, raised) == ClearDataStepAsWritten(s, w, raised)
  {
  }
}
