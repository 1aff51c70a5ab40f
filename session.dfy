/**
 * The per-chat session the dialogue keeps between updates
 * (src/utils/SessionManager.ts), as values, and what each session operation
 * makes of it. A session holds at most one current context: the step the
 * chat is in, the kind of input it waits for, the continuation to run, and
 * the input captured for it.
 *
 * A field the source reads as a string and tests for truthiness is a
 * `string` here, with a missing field and `''` both the empty string: no
 * reader tells them apart.
 */
module Sessions {
  import opened Wrappers
  import opened Js
  import opened Json

  /** The continuations a context can hold (the `handle*Input` functions and `handleClearData`). */
  datatype HandlerId = NewPlayerInput | EditPlayerInput | ImportPlayerInput | SyncPlayersInput | ClearDataInput

  /** `SessionContext`. An absent `params` reads like `{}` everywhere, so it is `[]`. */
  datatype SessionContext = SessionContext(
    stepId: string,
    inputType: string,
    lastMessageId: Option<int>,
    params: seq<(string, Json)>,
    handler: Option<HandlerId>,
    buttonData: Option<string>,
    messageText: Option<string>,
    messageId: Option<int>)

  /** The fields of `ctx.session` the modelled code reads or writes. */
  datatype Session = Session(
    currentContext: Option<SessionContext>,
    lastMessageId: Option<int>,
    paginationEnabled: bool,
    page: Option<Number>,
    state: Option<Json>,
    searchTags: Option<seq<string>>,
    classFilter: Option<string>,
    ancestryFilter: Option<string>,
    levelFilter: Option<int>,
    statusFilter: Option<string>)

  /** `{}`. */
  const EmptySession := Session(None, None, false, None, None, None, None, None, None, None)

  const TextInput := "text"
  const CallbackInput := "callback"

  /** `validateContext`: a context with a non-empty step and input type. */
  predicate ValidContext(c: Option<SessionContext>)
  {
    c.Some? && c.value.stepId != "" && c.value.inputType != ""
  }

  /** `getCurrentContext`: the context, when the session exists and the context is valid. */
  function CurrentContext(s: Option<Session>): Option<SessionContext>
  {
    if s.Some? && ValidContext(s.value.currentContext) then s.value.currentContext else None
  }

  /** `current?.x || null` for an optional string field. */
  function NonEmpty(x: Option<string>): Option<string>
  {
    if x.Some? && x.value != "" then x else None
  }

  /** `getButtonData`. */
  function ButtonData(s: Option<Session>): Option<string>
  {
    match CurrentContext(s)
    case None => None
    case Some(c) => NonEmpty(c.buttonData)
  }

  /** `getMessageText`. */
  function MessageText(s: Option<Session>): Option<string>
  {
    match CurrentContext(s)
    case None => None
    case Some(c) => NonEmpty(c.messageText)
  }

  /** `getParams`. */
  function Params(s: Option<Session>): seq<(string, Json)>
  {
    match CurrentContext(s)
    case None => []
    case Some(c) => c.params
  }

  /** The session after `clearSession`. */
  function Cleared(s: Option<Session>): Session
  {
    if s.None? then EmptySession else s.value.(currentContext := None)
  }

  /** The session after `initCommand` with the given options. */
  function Installed(s: Option<Session>, stepId: string, inputType: string, lastMessageId: Option<int>,
                     params: Option<seq<(string, Json)>>, handler: Option<HandlerId>): Session
  {
    var base := Cleared(s);
    var context := SessionContext(stepId, inputType, lastMessageId, params.GetOr([]), handler, None, None, None);
    if lastMessageId.Some? && lastMessageId.value != 0
    then base.(currentContext := Some(context), lastMessageId := lastMessageId)
    else base.(currentContext := Some(context))
  }

  /** The session after `setCallback`, which needs an existing session. */
  function CallbackSet(s: Option<Session>, callbackType: string, data: seq<(string, Json)>): Option<Session>
  {
    if s.None? then None
    else Some(s.value.(currentContext := Some(SessionContext(callbackType, CallbackInput, None, data, None, None, None, None))))
  }

  /**
   * The session after `updateParams`: `{...params, ...newParams}` on a valid
   * context. The entries of a JavaScript object have distinct keys, so the
   * spread is the old entries with the new ones written over them.
   */
  function ParamsUpdated(s: Option<Session>, newParams: seq<(string, Json)>): Option<Session>
  {
    match CurrentContext(s)
    case None => s
    case Some(c) => Some(s.value.(currentContext := Some(c.(params := Assign(c.params, newParams)))))
  }

  /** The session after `captureButtonData` for the callback data of the update. */
  function ButtonCaptured(s: Option<Session>, data: Option<string>): Option<Session>
  {
    match CurrentContext(s)
    case None => s
    case Some(c) =>
      if data.Some? && data.value != "" then Some(s.value.(currentContext := Some(c.(buttonData := data))))
      else s
  }

  /** The session after `captureMessage` for a message with this id and text. */
  function MessageCaptured(s: Option<Session>, messageId: int, text: Option<string>): Option<Session>
  {
    match CurrentContext(s)
    case None => s
    case Some(c) =>
      var trimmed := if text.Some? then Some(Trim(text.value)) else None;
      Some(s.value.(currentContext := Some(c.(messageText := trimmed, messageId := Some(messageId)))))
  }

  /** `isExpecting`, for the session and the parts of the update it reads. */
  predicate Expecting(s: Option<Session>, hasCallbackQuery: bool, messageText: Option<string>, kind: string)
  {
    (CurrentContext(s).Some? && CurrentContext(s).value.inputType == kind)
    || (kind == CallbackInput && hasCallbackQuery)
    || (kind == TextInput && messageText.Some? && messageText.value != "")
  }

  /** The session after `handleCorruptedSession`. */
  function ResetAfterCorruption(s: Option<Session>): Option<Session>
  {
    if s.None? then None else Some(s.value.(currentContext := None, paginationEnabled := false))
  }

  // ---------------------------------------------------------------------
  // Properties

  /**
   * `setCallback` on a missing session does nothing. Otherwise it replaces
   * the context with a callback context for the given type, holding the
   * data as params and no handler, and leaves every other field alone. The
   * new context is valid exactly when the type is non-empty.
   */
  lemma CallbackSetReads(s: Option<Session>, callbackType: string, data: seq<(string, Json)>)
    ensures s.None? ==> CallbackSet(s, callbackType, data).None?
    ensures s.Some? ==>
      var r := CallbackSet(s, callbackType, data);
      r.Some? && r.value.(currentContext := None) == s.value.(currentContext := None)
      && (CurrentContext(r).Some? <==> callbackType != "")
      && (callbackType != "" ==>
            CurrentContext(r).value.stepId == callbackType && CurrentContext(r).value.inputType == CallbackInput
            && CurrentContext(r).value.handler.None? && Params(r) == data
            && ButtonData(r).None? && MessageText(r).None?)
  {
  }

  /**
   * After `initCommand` with a non-empty step and input type, the current
   * context is exactly the one given: its step, input type, message id and
   * handler, the given params or `{}`, and nothing captured earlier.
   */
  lemma InstalledContext(s: Option<Session>, stepId: string, inputType: string, lastMessageId: Option<int>,
                         params: Option<seq<(string, Json)>>, handler: Option<HandlerId>)
    requires stepId != "" && inputType != ""
    ensures var c := CurrentContext(Some(Installed(s, stepId, inputType, lastMessageId, params, handler)));
            c.Some? && c.value.stepId == stepId && c.value.inputType == inputType
            && c.value.lastMessageId == lastMessageId && c.value.handler == handler
            && c.value.params == (if params.Some? then params.value else [])
            && c.value.buttonData.None? && c.value.messageText.None? && c.value.messageId.None?
  {
  }

  /**
   * `initCommand` copies the message id to the top level only when it is
   * truthy, keeps the earlier one otherwise, and touches no other field.
   */
  lemma InstalledTopLevel(s: Option<Session>, stepId: string, inputType: string, lastMessageId: Option<int>,
                          params: Option<seq<(string, Json)>>, handler: Option<HandlerId>)
    ensures var r := Installed(s, stepId, inputType, lastMessageId, params, handler);
            var before := if s.Some? then s.value else EmptySession;
            r.lastMessageId == (if lastMessageId.Some? && lastMessageId.value != 0 then lastMessageId else before.lastMessageId)
            && r.paginationEnabled == before.paginationEnabled && r.page == before.page && r.state == before.state
            && r.searchTags == before.searchTags && r.classFilter == before.classFilter
            && r.ancestryFilter == before.ancestryFilter && r.levelFilter == before.levelFilter
            && r.statusFilter == before.statusFilter
  {
  }

  /** `clearSession` leaves no current context, is idempotent, and keeps every other field of an existing session. */
  lemma ClearedProperties(s: Option<Session>)
    ensures CurrentContext(Some(Cleared(s))).None?
    ensures Cleared(Some(Cleared(s))) == Cleared(s)
    ensures s.Some? ==> var r := Cleared(s);
              r.lastMessageId == s.value.lastMessageId && r.paginationEnabled == s.value.paginationEnabled
              && r.page == s.value.page && r.state == s.value.state && r.searchTags == s.value.searchTags
              && r.classFilter == s.value.classFilter && r.ancestryFilter == s.value.ancestryFilter
              && r.levelFilter == s.value.levelFilter && r.statusFilter == s.value.statusFilter
    ensures s.None? ==> Cleared(s) == EmptySession
  {
  }

  /** Without a valid context the getters read null, null and `{}`; empty strings also read null. */
  lemma GettersWithoutContext(s: Option<Session>)
    ensures CurrentContext(s).None? <==>
              (s.None? || s.value.currentContext.None? || s.value.currentContext.value.stepId == ""
               || s.value.currentContext.value.inputType == "")
    ensures CurrentContext(s).None? ==> ButtonData(s).None? && MessageText(s).None? && Params(s) == []
    ensures ButtonData(s).Some? ==> ButtonData(s).value != ""
    ensures MessageText(s).Some? ==> MessageText(s).value != ""
  {
  }

  /**
   * `updateParams` gives every key its new value when the new params have
   * it and its old value otherwise, keeps step, input type and handler, and
   * does nothing without a valid context.
   */
  lemma ParamsUpdatedReads(s: Option<Session>, newParams: seq<(string, Json)>, k: string)
    requires UniqueKeys(newParams)
    ensures CurrentContext(s).None? ==> ParamsUpdated(s, newParams) == s
    ensures CurrentContext(s).Some? ==>
              var c := CurrentContext(s).value;
              var c' := CurrentContext(ParamsUpdated(s, newParams));
              c'.Some? && c'.value.stepId == c.stepId && c'.value.inputType == c.inputType
              && c'.value.handler == c.handler
              && Get(c'.value.params, k) == (if HasKey(newParams, k) then Get(newParams, k) else Get(c.params, k))
  {
    if CurrentContext(s).Some? {
      var c := CurrentContext(s).value;
      GetAssign(c.params, newParams, k);
    }
  }

  /**
   * `captureButtonData` writes the callback data into a valid context and
   * nothing else; without a valid context, or without data, it does nothing.
   * It never creates a context.
   */
  lemma ButtonCapturedWritesOnlyButtonData(s: Option<Session>, data: Option<string>)
    ensures CurrentContext(ButtonCaptured(s, data)).Some? <==> CurrentContext(s).Some?
    ensures CurrentContext(s).None? || data.None? || data.value == "" ==> ButtonCaptured(s, data) == s
    ensures CurrentContext(s).Some? && data.Some? && data.value != "" ==>
              var c := CurrentContext(s).value;
              var c' := CurrentContext(ButtonCaptured(s, data)).value;
              ButtonData(ButtonCaptured(s, data)) == data
              && c'.stepId == c.stepId && c'.inputType == c.inputType && c'.lastMessageId == c.lastMessageId
              && c'.params == c.params && c'.handler == c.handler
              && c'.messageText == c.messageText && c'.messageId == c.messageId
              && ButtonCaptured(s, data).value.(currentContext := None) == s.value.(currentContext := None)
  {
  }

  /**
   * `captureMessage` writes the trimmed text and the message id into a
   * valid context and nothing else; without a valid context it does nothing.
   * It never creates a context.
   */
  lemma MessageCapturedWritesOnlyMessage(s: Option<Session>, messageId: int, text: Option<string>)
    ensures CurrentContext(MessageCaptured(s, messageId, text)).Some? <==> CurrentContext(s).Some?
    ensures CurrentContext(s).None? ==> MessageCaptured(s, messageId, text) == s
    ensures CurrentContext(s).Some? ==>
              var c := CurrentContext(s).value;
              var c' := CurrentContext(MessageCaptured(s, messageId, text)).value;
              c'.messageText == (if text.Some? then Some(Trim(text.value)) else None)
              && c'.messageId == Some(messageId)
              && c'.stepId == c.stepId && c'.inputType == c.inputType && c'.lastMessageId == c.lastMessageId
              && c'.params == c.params && c'.handler == c.handler && c'.buttonData == c.buttonData
              && MessageCaptured(s, messageId, text).value.(currentContext := None) == s.value.(currentContext := None)
  {
  }

  /**
   * `isExpecting(k)` holds iff a valid context waits for `k`, or `k` is
   * callback and the update carries a callback query, or `k` is text and
   * the update carries non-empty text. So any callback update expects a
   * callback and any text message expects text, whatever the session holds.
   */
  lemma ExpectingCases(s: Option<Session>, hasCallbackQuery: bool, messageText: Option<string>, kind: string)
    ensures kind == CallbackInput && hasCallbackQuery ==> Expecting(s, hasCallbackQuery, messageText, kind)
    ensures kind == TextInput && messageText.Some? && messageText.value != "" ==> Expecting(s, hasCallbackQuery, messageText, kind)
    ensures CurrentContext(s).None? ==>
              (Expecting(s, hasCallbackQuery, messageText, kind) <==>
                 (kind == CallbackInput && hasCallbackQuery) || (kind == TextInput && messageText.Some? && messageText.value != ""))
    ensures CurrentContext(s).Some? && CurrentContext(s).value.inputType == kind ==> Expecting(s, hasCallbackQuery, messageText, kind)
    ensures Expecting(s, hasCallbackQuery, messageText, kind) && kind != CallbackInput && kind != TextInput ==>
              CurrentContext(s).Some? && CurrentContext(s).value.inputType == kind
  {
  }

  /** `handleCorruptedSession` drops the context and the pagination flag and keeps every other field. */
  lemma ResetAfterCorruptionProperties(s: Option<Session>)
    ensures CurrentContext(ResetAfterCorruption(s)).None?
    ensures s.Some? ==> ResetAfterCorruption(s).value.paginationEnabled == false
                        && ResetAfterCorruption(s).value.lastMessageId == s.value.lastMessageId
                        && ResetAfterCorruption(s).value.page == s.value.page
    ensures s.None? ==> ResetAfterCorruption(s).None?
  {
  }
}
