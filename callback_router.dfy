/**
 * The callback router `handleCallbackQuery`
 * (src/handlers/handleCallbackQuery.ts): an active context wins, then the
 * patterns of the button data in a fixed order, then the legacy pagination
 * flag, then the `callback_invalid` notice. Every handler runs inside
 * `safeWrapper`; what raises outside it, the notice, clears the context
 * and sends the reset message.
 */
module CallbackRouter {
  import opened Wrappers
  import opened Js
  import opened Telegram
  import opened Sessions
  import opened BotContext
  import opened SessionManager
  import opened Continuations
  import opened Dialogue
  import opened CallbackPatterns
  import Actions
  import InteractiveList

  const CallbackInvalid := "callback_invalid"

  /** Where the router sends a callback update. */
  datatype Route =
    | SessionContinuation(id: HandlerId)   // the active context's continuation
    | ContextWithoutHandler                // an active context that has none
    | ToHandler(handler: Wrapped)          // a handler picked by the data or the pagination flag
    | Unmatched                            // nothing: the `callback_invalid` notice

  /** `ctx.callbackQuery?.data`, with a missing value read as the empty string. */
  function DataOf(u: Update): string
  {
    if u.CallbackData().Some? then u.CallbackData().value else ""
  }

  /** The routing decision, from the session before the wrapper touches it. */
  function RouteOf(s: Option<Session>, u: Update): Route
  {
    var c := CurrentContext(s);
    if c.Some? && Expecting(s, u.callbackQuery.Some?, u.MessageText(), CallbackInput) then
      if c.value.handler.None? then ContextWithoutHandler else SessionContinuation(c.value.handler.value)
    else
      match PatternOf(DataOf(u))
      case AudioPattern => ToHandler(AudioGeneration)
      case ActionPattern => ToHandler(ActionHandler)
      case ConfirmationPattern => ToHandler(DeleteConfirmation)
      case ListPattern => ToHandler(PaginationHandler)
      case NoPattern => if s.Some? && s.value.paginationEnabled then ToHandler(PaginationHandler) else Unmatched
  }

  /** The notice `callback_invalid`, then `after`; or, when sending it raises, the catch block. */
  function Notice(s: Option<Session>, fault: Fault, after: Option<Session>): Step
  {
    if RaisedAt(fault, AtNotice).Some? then Step(Some(Cleared(s)), [Reply(SessionReset)], Returned)
    else Step(after, [Reply(Key(CallbackInvalid))], Returned)
  }

  /** What `handleCallbackQuery` does from session `s`; `value` is what a handler not run here returns. */
  function CallbackStep(s: Option<Session>, u: Update, w: World, fault: Fault, value: Outcome): Step
  {
    match RouteOf(s, u)
    case ContextWithoutHandler => Notice(s, fault, Some(Cleared(s)))
    case SessionContinuation(id) => WrapperStep(Continuation(id), s, u, w, fault, value)
    case ToHandler(h) => WrapperStep(h, s, u, w, fault, value)
    case Unmatched => Notice(s, fault, s)
  }

  /** `ctx.user` after the router: set by the wrapper, when one runs. */
  function RouterUser(s: Option<Session>, u: Update, w: World, user: Option<string>): Option<string>
  {
    match RouteOf(s, u)
    case SessionContinuation(_) => UserAfter(s, u, w, user)
    case ToHandler(_) => UserAfter(s, u, w, user)
    case _ => user
  }

  /** The catch block: clear the context and send the reset message. */
  method Recover(ctx: Ctx)
    modifies ctx`session, ctx`trace
    ensures ctx.session == Some(Cleared(old(ctx.session)))
    ensures ctx.trace == old(ctx.trace) + [Reply(SessionReset)]
  {
    ClearSession(ctx);
    Emit(ctx, Reply(SessionReset));
  }

  /** `handleCallbackQuery(ctx, safeWrapper)`. */
  method HandleCallbackQuery(ctx: Ctx, value: Outcome)
    modifies ctx`session, ctx`trace, ctx`user
    ensures var st := CallbackStep(old(ctx.session), ctx.update, ctx.world, ctx.fault, value);
            ctx.session == st.session && ctx.trace == old(ctx.trace) + st.effects
    ensures ctx.user == RouterUser(old(ctx.session), ctx.update, ctx.world, old(ctx.user))
  {
    hide WrapperStep, UserAfter, Actions.ActionRoute, ListRoute;
    var currentContext := GetCurrentContext(ctx);
    if currentContext.Some? && IsExpecting(ctx, CallbackInput) {
      if currentContext.value.handler.None? {
        if ctx.Raises(AtNotice).Some? {
          Recover(ctx);
          return;
        }
        Emit(ctx, Reply(Key(CallbackInvalid)));
        ClearSession(ctx);
        return;
      }
      var handled := SafeWrapper(ctx, Continuation(currentContext.value.handler.value), value);
      return;
    }
    var data := ctx.update.CallbackData();
    if data.Some? && data.value != "" {
      var d := data.value;
      if StartsWith(d, AudioPrefix) {
        var handled := SafeWrapper(ctx, AudioGeneration, value);
        return;
      }
      if Actions.ActionRoute(d) {
        var handled := SafeWrapper(ctx, ActionHandler, value);
        return;
      }
      if StartsWith(d, Actions.ConfirmPrefix) || d == Actions.CancelDelete {
        var handled := SafeWrapper(ctx, DeleteConfirmation, value);
        return;
      }
      if ListRoute(d) {
        var handled := SafeWrapper(ctx, PaginationHandler, value);
        return;
      }
    }
    if ctx.session.Some? && ctx.session.value.paginationEnabled {
      var handled := SafeWrapper(ctx, PaginationHandler, value);
      return;
    }
    if ctx.Raises(AtNotice).Some? {
      Recover(ctx);
      return;
    }
    Emit(ctx, Reply(Key(CallbackInvalid)));
  }

  // ---------------------------------------------------------------------
  // Properties

  /**
   * During a button press an active context wins over every pattern of the
   * data, whatever input type it waits for: a press always makes a
   * callback expected.
   */
  lemma SessionBranchWins(s: Option<Session>, u: Update)
    requires u.callbackQuery.Some? && CurrentContext(s).Some?
    ensures var c := CurrentContext(s).value;
      RouteOf(s, u) == (if c.handler.None? then ContextWithoutHandler else SessionContinuation(c.handler.value))
  {
    ExpectingCases(s, true, u.MessageText(), CallbackInput);
  }

  /**
   * An active context without a handler gets one `callback_invalid` notice
   * and is cleared; nothing else runs.
   */
  lemma ContextWithoutHandlerCleared(s: Option<Session>, u: Update, w: World, fault: Fault, value: Outcome)
    requires RouteOf(s, u) == ContextWithoutHandler && RaisedAt(fault, AtNotice).None?
    ensures var st := CallbackStep(s, u, w, fault, value);
      st.effects == [Reply(Key(CallbackInvalid))] && st.session == Some(Cleared(s)) && CurrentContext(st.session).None?
      && st.session.value.paginationEnabled == (s.Some? && s.value.paginationEnabled)
  {
  }

  /**
   * The continuation of the active context runs in `safeWrapper`, not in
   * `executeCurrentHandler`: when it raises, the update ends with the
   * generic error message instead of `session_reset_try_again`, and the
   * pagination flag is not dropped.
   */
  lemma ThrowingContinuationNotReset(s: Option<Session>, u: Update, w: World, fault: Fault, value: Outcome, id: HandlerId)
    requires RouteOf(s, u) == SessionContinuation(id)
    requires u.message.None? && u.callbackQuery.Some? && w.user.Some?
    requires var st := ContinuationStep(id, Prepared(s, u), u, w, RaisedAt(fault, AtExecutor));
      st.outcome.Threw? && !IsForbidden(st.outcome.error)
    ensures var st := ContinuationStep(id, Prepared(s, u), u, w, RaisedAt(fault, AtExecutor));
      var r := CallbackStep(s, u, w, fault, value);
      r == Step(st.session, st.effects + [Reply(GenericError)], Done(false))
      && Reply(Key(SessionResetKey)) !in r.effects[|st.effects|..]
      && r.session.Some? && r.session.value.paginationEnabled == Prepared(s, u).value.paginationEnabled
  {
    var s' := Prepared(s, u);
    GateNeverSilencesInput(s', u);
    assert FullCommand(u.MessageText()) == "";
    ContinuationShapes(id, s', u, w, RaisedAt(fault, AtExecutor));
  }

  /**
   * A press nothing matches gets exactly one `callback_invalid` notice and
   * leaves the session as it was; when sending the notice raises, the
   * catch block clears the context and sends the reset message instead.
   */
  lemma UnmatchedGetsOneNotice(s: Option<Session>, u: Update, w: World, fault: Fault, value: Outcome)
    requires RouteOf(s, u) == Unmatched || RouteOf(s, u) == ContextWithoutHandler
    ensures var st := CallbackStep(s, u, w, fault, value);
      (RaisedAt(fault, AtNotice).None? && RouteOf(s, u) == Unmatched ==> st.session == s && st.effects == [Reply(Key(CallbackInvalid))])
      && (RaisedAt(fault, AtNotice).Some? ==>
            st.session == Some(Cleared(s)) && CurrentContext(st.session).None? && st.effects == [Reply(SessionReset)])
      && (forall h :: Ran(h) !in st.effects)
  {
  }

  /**
   * A press the data or the pagination flag routes runs one handler at
   * most: the only handler marker in the trace is the routed handler's,
   * and it appears at most once.
   */
  lemma OneHandlerPerPress(s: Option<Session>, u: Update, w: World, fault: Fault, value: Outcome)
    requires !RouteOf(s, u).SessionContinuation?
    ensures var st := CallbackStep(s, u, w, fault, value);
      (forall h :: Ran(h) in st.effects ==> RouteOf(s, u) == ToHandler(h))
      && (forall i, j :: 0 <= i < |st.effects| && 0 <= j < |st.effects| && st.effects[i].Ran? && st.effects[j].Ran? ==> i == j)
  {
    hide WrapperStep, PatternOf, Prepared, GateOf;
    match RouteOf(s, u)
    case ToHandler(h) =>
      HandlerRunsOnlyWhenAdmitted(h, s, u, w, fault, value);
    case _ =>
  }

  /**
   * With no active context, data that passes one of the tests goes where
   * that test sends it whatever the session holds: the legacy pagination
   * flag is consulted only when no test passes, and then it alone decides
   * between `paginationHandler` and the notice.
   */
  lemma LegacyFlagLast(s: Option<Session>, u: Update)
    requires CurrentContext(s).None?
    ensures PatternOf(DataOf(u)) != NoPattern ==> RouteOf(s, u).ToHandler? && RouteOf(s, u) == RouteOf(None, u)
    ensures PatternOf(DataOf(u)) == NoPattern ==>
      (RouteOf(s, u) == ToHandler(PaginationHandler) <==> s.Some? && s.value.paginationEnabled)
      && (RouteOf(s, u) == Unmatched <==> !(s.Some? && s.value.paginationEnabled))
  {
  }

  /**
   * Without an active context, the buttons of the events list get
   * `callback_invalid` and nothing else unless the pagination flag is on.
   */
  lemma EventListNotRouted(s: Option<Session>, u: Update, w: World, fault: Fault, value: Outcome, page: int, id: string)
    requires CurrentContext(s).None? && !(s.Some? && s.value.paginationEnabled) && RaisedAt(fault, AtNotice).None?
    requires DataOf(u) == InteractiveList.PageCallback("listevents", page) || DataOf(u) == InteractiveList.ItemCallback("listevents", id)
    ensures RouteOf(s, u) == Unmatched
    ensures CallbackStep(s, u, w, fault, value) == Step(s, [Reply(Key(CallbackInvalid))], Returned)
  {
    EventListUnmatched(page, id);
  }
}
