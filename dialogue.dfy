/**
 * How an update reaches a continuation: `executeCurrentHandler`
 * (src/utils/SessionManager.ts), the text router `handleTextInput`
 * (src/handlers/text/handleTextInput.ts) and the wrapper every handler runs
 * in, `safeWrapper` (src/utils/makeSafeWrapper.ts).
 *
 * Each is a method on the context, proved against a function giving the
 * session it leaves, what it sends, and how it ends. Only continuations
 * and the text router are run here. Every other wrapped handler leaves the
 * marker `Ran(h)` in the trace, keeps the session it is given and ends
 * with the value it is given, or raises when the update's fault is at
 * `AtHandler`. Audio generation and the command bodies are not modelled
 * at all; `actionHandler`, `handleDeleteConfirmation` and
 * `paginationHandler` are modelled on their own (`Actions`, `Pagination`)
 * but not connected here.
 */
module Dialogue {
  import opened Wrappers
  import opened Js
  import opened Telegram
  import opened Sessions
  import opened BotContext
  import opened SessionManager
  import opened Continuations

  const SessionResetKey := "session_reset_try_again"

  // ---------------------------------------------------------------------
  // executeCurrentHandler

  /** `handleCorruptedSession` after what was sent so far: context and pagination flag dropped, the reset notice sent, false. */
  function Corrupted(s: Option<Session>, before: seq<Effect>): Step
  {
    Step(ResetAfterCorruption(s), before + [Reply(Key(SessionResetKey))], Done(false))
  }

  /** What `executeCurrentHandler` does from session `s`. */
  function ExecuteStep(s: Option<Session>, u: Update, w: World, raised: Option<Failure>): Step
  {
    match CurrentContext(s)
    case None => Corrupted(s, [])
    case Some(c) =>
      if c.handler.None? then Corrupted(s, [])
      else
        var st := ContinuationStep(c.handler.value, s, u, w, raised);
        if st.outcome.Threw? then Corrupted(st.session, st.effects) else st
  }

  /** `executeCurrentHandler`. */
  method ExecuteCurrentHandler(ctx: Ctx) returns (result: Outcome)
    modifies ctx`session, ctx`trace
    ensures var st := ExecuteStep(old(ctx.session), ctx.update, ctx.world, ctx.Raises(AtExecutor));
            ctx.session == st.session && ctx.trace == old(ctx.trace) + st.effects && result == st.outcome
  {
    var context := GetCurrentContext(ctx);
    if context.None? {
      HandleCorruptedSession(ctx);
      return Done(false);
    }
    if context.value.handler.None? {
      HandleCorruptedSession(ctx);
      return Done(false);
    }
    result := RunHandler(ctx, context.value.handler.value);
    if result.Threw? {
      HandleCorruptedSession(ctx);
      result := Done(false);
    }
  }

  /**
   * `executeCurrentHandler` always ends with a boolean. Without a valid
   * context, without a handler, or when the handler raises, it is false,
   * the context is gone, the pagination flag is off and the reset notice is
   * the last thing sent; otherwise the handler's own run is the whole
   * result, nothing cleared.
   */
  lemma ExecuteCurrentHandlerResult(s: Option<Session>, u: Update, w: World, raised: Option<Failure>)
    ensures ExecuteStep(s, u, w, raised).outcome.Done?
    ensures var st := ExecuteStep(s, u, w, raised);
      var c := CurrentContext(s);
      var fails := c.None? || c.value.handler.None?
                   || ContinuationStep(c.value.handler.value, s, u, w, raised).outcome.Threw?;
      (fails ==> st.outcome == Done(false) && CurrentContext(st.session).None?
                 && (st.session.Some? ==> !st.session.value.paginationEnabled)
                 && |st.effects| > 0 && st.effects[|st.effects| - 1] == Reply(Key(SessionResetKey)))
      && (!fails ==> st == ContinuationStep(c.value.handler.value, s, u, w, raised))
  {
    var c := CurrentContext(s);
    if c.Some? && c.value.handler.Some? {
      ContinuationShapes(c.value.handler.value, s, u, w, raised);
    }
  }

  // ---------------------------------------------------------------------
  // handleTextInput

  /** `text.toLowerCase() === 'cancel' || text.toLowerCase() === 'cancelar'`. */
  predicate IsCancelWord(text: string)
  {
    ToLower(text) == "cancel" || ToLower(text) == "cancelar"
  }

  /** What `handleTextInput` does from session `s`; it returns nothing. */
  function TextInputStep(s: Option<Session>, u: Update, w: World, raised: Option<Failure>): Step
  {
    if !Expecting(s, u.callbackQuery.Some?, u.MessageText(), TextInput) then Step(s, [], Returned)
    else
      match MessageText(s)
      case None => Step(s, [], Returned)
      case Some(text) =>
        if IsCancelWord(text) then Step(Some(Cleared(s)), [Reply(Key("operation_cancelled"))], Returned)
        else
          var st := ExecuteStep(s, u, w, raised);
          Step(st.session, st.effects, Returned)
  }

  /** `handleTextInput`. */
  method HandleTextInput(ctx: Ctx)
    modifies ctx`session, ctx`trace
    ensures var st := TextInputStep(old(ctx.session), ctx.update, ctx.world, ctx.Raises(AtExecutor));
            ctx.session == st.session && ctx.trace == old(ctx.trace) + st.effects
  {
    if !IsExpecting(ctx, TextInput) {
      return;
    }
    var text := GetMessageText(ctx);
    if text.None? {
      return;
    }
    if ToLower(text.value) == "cancel" || ToLower(text.value) == "cancelar" {
      ClearSession(ctx);
      Emit(ctx, Reply(Key("operation_cancelled")));
      return;
    }
    var handled := ExecuteCurrentHandler(ctx);
  }

  /**
   * The text router. Without a valid context nothing is sent and the
   * session stays as it was, whatever the text. `cancel` or `cancelar` in
   * any letter case clears the context, sends `operation_cancelled` and
   * runs no continuation. Any other captured text runs
   * `executeCurrentHandler` once, and its run is all that happens.
   */
  lemma TextInputCases(s: Option<Session>, u: Update, w: World, raised: Option<Failure>)
    ensures CurrentContext(s).None? ==> TextInputStep(s, u, w, raised) == Step(s, [], Returned)
    ensures var st := TextInputStep(s, u, w, raised);
      MessageText(s).Some? && u.MessageText().Some? && u.MessageText().value != ""
      && (SameIgnoringCase(MessageText(s).value, "cancel") || SameIgnoringCase(MessageText(s).value, "CANCELAR")) ==>
        st.session == Some(Cleared(s)) && CurrentContext(st.session).None?
        && st.effects == [Reply(Key("operation_cancelled"))]
    ensures var st := TextInputStep(s, u, w, raised);
      MessageText(s).Some? && u.MessageText().Some? && u.MessageText().value != "" && !IsCancelWord(MessageText(s).value) ==>
        var ex := ExecuteStep(s, u, w, raised);
        st.session == ex.session && st.effects == ex.effects
    ensures TextInputStep(s, u, w, raised).outcome == Returned
  {
    ExpectingCases(s, u.callbackQuery.Some?, u.MessageText(), TextInput);
    assert ToLower("cancel") == "cancel" && ToLower("CANCELAR") == "cancelar";
  }

  // ---------------------------------------------------------------------
  // safeWrapper

  /** `allCommands`: the commands the wrapper lets through when no input is expected. */
  const AllCommands: seq<string> :=
    ["start", "d20", "roll", "rollall", "newplayer", "editplayer", "importplayer",
     "syncplayers", "listplayers", "menu", "help", "about"]

  /** `ctx.message?.text?.split(' ')[0] ?? ''`. */
  function FullCommand(text: Option<string>): string
  {
    if text.Some? then Split(text.value, ' ')[0] else ""
  }

  /** `fullCommand.startsWith('/') ? fullCommand.slice(1).split('@')[0] : ''`. */
  function CommandName(full: string): string
  {
    if StartsWith(full, "/") then Split(full[1..], '@')[0] else ""
  }

  /** The session once `ctx.session ??= {}` and the two captures have run. */
  function Prepared(s: Option<Session>, u: Update): (r: Option<Session>)
    ensures r.Some?
  {
    var s0 := Some(if s.None? then EmptySession else s.value);
    var data := u.CallbackData();
    var s1 := if data.Some? && data.value != "" then ButtonCaptured(s0, data) else s0;
    if u.message.Some? then MessageCaptured(s1, u.message.value.messageId, u.message.value.text) else s1
  }

  /** Where the wrapper's checks before the user lookup lead. */
  datatype Gate = RunStart | NotACommand | Proceed

  /** The start branch and the command gate, for the session the captures left. */
  function GateOf(s: Option<Session>, u: Update): Gate
  {
    var cb := u.callbackQuery.Some?;
    var actionOrCallback := Expecting(s, cb, u.MessageText(), CallbackInput) || Expecting(s, cb, u.MessageText(), TextInput)
                            || (s.Some? && s.value.paginationEnabled);
    var full := FullCommand(u.MessageText());
    var command := CommandName(full);
    if (!actionOrCallback && full == "/") || command == "start" then RunStart
    else if !actionOrCallback && !Listed(command, AllCommands) then NotACommand
    else Proceed
  }

  /** `isForbidden`: error code 403, or a description that mentions `forbidden` or `bot was kicked` in any case. */
  predicate IsForbidden(e: Failure)
  {
    e.errorCode == Some(403)
    || (e.description.Some? && (Contains(ToLower(e.description.value), "forbidden")
                                || Contains(ToLower(e.description.value), "bot was kicked")))
  }

  /** What the catch block sends: the generic error, unless the chat cannot be written to. */
  function ErrorReply(e: Failure): seq<Effect>
  {
    if IsForbidden(e) then [] else [Reply(GenericError)]
  }

  /** What the wrapped handler itself does; `value` is what a handler not run here returns. */
  function HandlerStep(h: Wrapped, s: Option<Session>, u: Update, w: World, fault: Fault, value: Outcome): Step
  {
    match h
    case Continuation(id) => ContinuationStep(id, s, u, w, RaisedAt(fault, AtExecutor))
    case TextInputHandler => TextInputStep(s, u, w, RaisedAt(fault, AtExecutor))
    case _ =>
      match RaisedAt(fault, AtHandler)
      case Some(e) => Step(s, [Ran(h)], Threw(e))
      case None => Step(s, [Ran(h)], value)
  }

  /** What `safeWrapper(h)` does from session `s`. */
  function WrapperStep(h: Wrapped, s: Option<Session>, u: Update, w: World, fault: Fault, value: Outcome): Step
  {
    var s' := Prepared(s, u);
    match GateOf(s', u)
    case RunStart => Step(s', [StartCommand, InitDynamicCommands], Returned)
    case NotACommand => Step(s', [], Returned)
    case Proceed =>
      if w.user.None? then Step(s', [Reply(Key("user_not_found"))], Done(false))
      else
        var st := HandlerStep(h, s', u, w, fault, value);
        if st.outcome.Threw? then Step(st.session, st.effects + ErrorReply(st.outcome.error), Done(false)) else st
  }

  /** `ctx.user` after the wrapper: looked up only once the gate lets the update through. */
  function UserAfter(s: Option<Session>, u: Update, w: World, user: Option<string>): Option<string>
  {
    if GateOf(Prepared(s, u), u) == Proceed then w.user else user
  }

  /** Runs the wrapped handler. */
  method RunWrapped(ctx: Ctx, h: Wrapped, value: Outcome) returns (outcome: Outcome)
    modifies ctx`session, ctx`trace
    ensures var st := HandlerStep(h, old(ctx.session), ctx.update, ctx.world, ctx.fault, value);
            ctx.session == st.session && ctx.trace == old(ctx.trace) + st.effects && outcome == st.outcome
  {
    match h
    case Continuation(id) =>
      outcome := RunHandler(ctx, id);
    case TextInputHandler =>
      HandleTextInput(ctx);
      outcome := Returned;
    case _ =>
      Emit(ctx, Ran(h));
      var raised := ctx.Raises(AtHandler);
      if raised.Some? {
        outcome := Threw(raised.value);
      } else {
        outcome := value;
      }
  }

  /** `ctx.session ??= {}`, then the captures of the button data and of the message. */
  method Prepare(ctx: Ctx)
    modifies ctx`session
    ensures ctx.session == Prepared(old(ctx.session), ctx.update)
  {
    if ctx.session.None? {
      ctx.session := Some(EmptySession);
    }
    var data := ctx.update.CallbackData();
    if data.Some? && data.value != "" {
      CaptureButtonData(ctx);
    }
    if ctx.update.message.Some? {
      CaptureMessage(ctx);
    }
  }

  /** `safeWrapper(h)(ctx)`. */
  method SafeWrapper(ctx: Ctx, h: Wrapped, value: Outcome) returns (outcome: Outcome)
    modifies ctx`session, ctx`trace, ctx`user
    ensures var st := WrapperStep(h, old(ctx.session), ctx.update, ctx.world, ctx.fault, value);
            ctx.session == st.session && ctx.trace == old(ctx.trace) + st.effects && outcome == st.outcome
    ensures ctx.user == UserAfter(old(ctx.session), ctx.update, ctx.world, old(ctx.user))
  {
    hide HandlerStep, Prepared, Expecting, Split, Listed, IsForbidden;
    Prepare(ctx);
    var actionOrCallback := IsExpecting(ctx, CallbackInput) || IsExpecting(ctx, TextInput) || ctx.session.value.paginationEnabled;
    var full := FullCommand(ctx.update.MessageText());
    var command := CommandName(full);
    if (!actionOrCallback && full == "/") || command == "start" {
      Emit(ctx, StartCommand);
      Emit(ctx, InitDynamicCommands);
      return Returned;
    }
    if !actionOrCallback && !Listed(command, AllCommands) {
      return Returned;
    }
    assert GateOf(ctx.session, ctx.update) == Proceed;
    ctx.user := ctx.world.user;
    if ctx.user.None? {
      Emit(ctx, Reply(Key("user_not_found")));
      return Done(false);
    }
    outcome := RunWrapped(ctx, h, value);
    if outcome.Threw? {
      if !IsForbidden(outcome.error) {
        Emit(ctx, Reply(GenericError));
      }
      outcome := Done(false);
    }
  }

  /** A missing session becomes `{}`, and nothing is captured into a session without a context. */
  lemma MissingSessionBecomesEmpty(u: Update)
    ensures Prepared(None, u) == Some(EmptySession)
  {
  }

  /**
   * Before the handler runs, a valid context has the press's data as its
   * `buttonData` and the message's trimmed text and id as its
   * `messageText` and `messageId`; its step, input type, params and
   * handler are as they were, and so is every other session field.
   */
  lemma CapturedBeforeHandler(s: Option<Session>, u: Update)
    requires CurrentContext(s).Some?
    ensures var c, r := CurrentContext(s).value, Prepared(s, u).value;
      var data := u.CallbackData();
      r == s.value.(currentContext := r.currentContext)
      && CurrentContext(Prepared(s, u)).Some?
      && var c' := CurrentContext(Prepared(s, u)).value;
         c'.stepId == c.stepId && c'.inputType == c.inputType && c'.params == c.params && c'.handler == c.handler
         && c'.lastMessageId == c.lastMessageId
         && c'.buttonData == (if data.Some? && data.value != "" then data else c.buttonData)
         && c'.messageText == (if u.message.Some? then (if u.message.value.text.Some? then Some(Trim(u.message.value.text.value)) else None)
                               else c.messageText)
         && c'.messageId == (if u.message.Some? then Some(u.message.value.messageId) else c.messageId)
  {
  }

  /** The first part `split` gives is a prefix of the string, and it is not empty when the string starts with another character. */
  lemma {:induction false} SplitHead(s: string, sep: char)
    ensures StartsWith(s, Split(s, sep)[0])
    ensures |s| > 0 && s[0] != sep ==> |Split(s, sep)[0]| > 0 && Split(s, sep)[0][0] == s[0]
    decreases |s|
  {
    if |s| > 0 {
      SplitHead(s[1..], sep);
    }
  }

  /**
   * The command is the first word without its `/` and without an `@bot`
   * suffix, and there is none when the message does not start with `/`.
   */
  lemma CommandNameOf(name: string, bot: string, rest: string)
    requires ' ' !in name && '@' !in name && ' ' !in bot
    ensures CommandName(FullCommand(Some("/" + name))) == name
    ensures CommandName(FullCommand(Some("/" + name + " " + rest))) == name
    ensures CommandName(FullCommand(Some("/" + name + "@" + bot + " " + rest))) == name
    ensures forall text :: !StartsWith(text, "/") ==> CommandName(FullCommand(Some(text))) == ""
  {
    var word := "/" + name;
    assert ' ' !in word;
    SplitNoSeparator(word, ' ');
    assert word[1..] == name;
    SplitNoSeparator(name, '@');
    assert word + " " + rest == word + [' '] + rest;
    SplitPrefix(word, rest, ' ');
    var long := word + "@" + bot;
    assert ' ' !in long;
    assert long + " " + rest == long + [' '] + rest;
    SplitPrefix(long, rest, ' ');
    assert long[1..] == name + ['@'] + bot;
    SplitPrefix(name, bot, '@');
    forall text | !StartsWith(text, "/")
      ensures CommandName(FullCommand(Some(text))) == ""
    {
      SplitHead(text, ' ');
    }
  }

  /**
   * The start branch runs exactly for the command `start`: its other
   * condition, a bare `/` while nothing is expected, cannot hold, because a
   * message with text always makes text expected. Then `startCommand` and
   * `initDynamicCommands` run, and the wrapped handler does not.
   */
  lemma StartOnlyForStart(h: Wrapped, s: Option<Session>, u: Update, w: World, fault: Fault, value: Outcome)
    ensures GateOf(Prepared(s, u), u) == RunStart <==> CommandName(FullCommand(u.MessageText())) == "start"
    ensures CommandName(FullCommand(u.MessageText())) == "start" ==>
      WrapperStep(h, s, u, w, fault, value) == Step(Prepared(s, u), [StartCommand, InitDynamicCommands], Returned)
  {
    var text := u.MessageText();
    if text.Some? && text.value == "" {
      assert FullCommand(text) == "";
    }
    ExpectingCases(Prepared(s, u), u.callbackQuery.Some?, text, TextInput);
  }

  /**
   * The command gate never silences a message with text or a button press:
   * both make input expected.
   */
  lemma GateNeverSilencesInput(s: Option<Session>, u: Update)
    requires (u.MessageText().Some? && u.MessageText().value != "") || u.callbackQuery.Some?
    ensures GateOf(s, u) != NotACommand
  {
    ExpectingCases(s, u.callbackQuery.Some?, u.MessageText(), TextInput);
    ExpectingCases(s, u.callbackQuery.Some?, u.MessageText(), CallbackInput);
  }

  /**
   * A handler the dialogue does not run itself runs exactly when the gate lets the update
   * through and the user lookup finds someone; when it does, it runs first.
   * Without a user the only thing sent is `user_not_found`, with false.
   */
  lemma HandlerRunsOnlyWhenAdmitted(h: Wrapped, s: Option<Session>, u: Update, w: World, fault: Fault, value: Outcome)
    requires !h.Continuation? && !h.TextInputHandler?
    ensures var st := WrapperStep(h, s, u, w, fault, value);
      (Ran(h) in st.effects <==> GateOf(Prepared(s, u), u) == Proceed && w.user.Some?)
      && (Ran(h) in st.effects ==> st.effects[0] == Ran(h))
      && (forall i :: 0 <= i < |st.effects| && st.effects[i].Ran? ==> i == 0 && st.effects[i] == Ran(h))
    ensures GateOf(Prepared(s, u), u) == Proceed && w.user.None? ==>
      WrapperStep(h, s, u, w, fault, value) == Step(Prepared(s, u), [Reply(Key("user_not_found"))], Done(false))
  {
  }

  /**
   * Nothing raised in the wrapper escapes it: it ends with false, after
   * what the handler did, and with the generic error message unless the
   * error says the chat cannot be written to.
   */
  lemma NothingEscapes(h: Wrapped, s: Option<Session>, u: Update, w: World, fault: Fault, value: Outcome)
    ensures !WrapperStep(h, s, u, w, fault, value).outcome.Threw?
    ensures var s' := Prepared(s, u);
      var st := HandlerStep(h, s', u, w, fault, value);
      GateOf(s', u) == Proceed && w.user.Some? && st.outcome.Threw? ==>
        WrapperStep(h, s, u, w, fault, value)
          == Step(st.session, st.effects + (if IsForbidden(st.outcome.error) then [] else [Reply(GenericError)]), Done(false))
  {
  }

  /**
   * A context waiting for a button press still runs on a text message: the
   * capture fills its text, and nothing on the way checks the input type.
   */
  lemma CallbackContextRunsOnText(s: Option<Session>, u: Update, w: World, fault: Fault, value: Outcome, m: Message, t: string)
    requires CurrentContext(s).Some? && CurrentContext(s).value.inputType == CallbackInput && CurrentContext(s).value.handler.Some?
    requires u.callbackQuery.None? && u.message == Some(m) && m.text == Some(t)
    requires Trim(t) != "" && !IsCancelWord(Trim(t)) && CommandName(FullCommand(Some(t))) != "start"
    requires w.user.Some?
    ensures CurrentContext(Prepared(s, u)).Some? && CurrentContext(Prepared(s, u)).value.handler == CurrentContext(s).value.handler
    ensures var ex := ExecuteStep(Prepared(s, u), u, w, RaisedAt(fault, AtExecutor));
      WrapperStep(TextInputHandler, s, u, w, fault, value) == Step(ex.session, ex.effects, Returned)
  {
    var s', raised := Prepared(s, u), RaisedAt(fault, AtExecutor);
    TextPassesGate(s, u, m, t);
    TextInputCases(s', u, w, raised);
    hide Prepared, GateOf, ExecuteStep, TextInputStep, ContinuationStep, IsCancelWord, Expecting, CommandName, FullCommand;
    assert HandlerStep(TextInputHandler, s', u, w, fault, value) == TextInputStep(s', u, w, raised);
  }

  /** Text sent to a context that waits for a button passes the gate, and the captured text is the trimmed message. */
  lemma TextPassesGate(s: Option<Session>, u: Update, m: Message, t: string)
    requires CurrentContext(s).Some?
    requires u.callbackQuery.None? && u.message == Some(m) && m.text == Some(t)
    requires Trim(t) != "" && CommandName(FullCommand(Some(t))) != "start"
    ensures GateOf(Prepared(s, u), u) == Proceed
    ensures CurrentContext(Prepared(s, u)).Some? && CurrentContext(Prepared(s, u)).value.handler == CurrentContext(s).value.handler
    ensures MessageText(Prepared(s, u)) == Some(Trim(t)) && u.MessageText() == Some(t) && t != ""
  {
    var s' := Prepared(s, u);
    CapturedBeforeHandler(s, u);
    assert Trim("") == "";
    assert t != "";
    ExpectingCases(s', false, u.MessageText(), TextInput);
    hide Prepared, Trim;
    assert MessageText(s') == Some(Trim(t));
    assert Expecting(s', false, u.MessageText(), TextInput);
    hide Expecting, MessageText, CurrentContext;
    assert GateOf(s', u) == Proceed;
  }
}
