/**
 * `SessionManager` (src/utils/SessionManager.ts): the operations on the
 * session of the context, as methods that change `ctx.session` and
 * functions that read it. Each method's new session is the matching
 * function of module Sessions, where its properties are proved.
 *
 * `executeCurrentHandler` runs the continuations, which themselves call
 * this module; it is in module Dialogue.
 */
module SessionManager {
  import opened Wrappers
  import opened Js
  import opened Json
  import opened Telegram
  import opened Sessions
  import opened BotContext

  /** `getCurrentContext`. */
  function GetCurrentContext(ctx: Ctx): Option<SessionContext>
    reads ctx
  {
    CurrentContext(ctx.session)
  }

  /** `getButtonData`. */
  function GetButtonData(ctx: Ctx): Option<string>
    reads ctx
  {
    ButtonData(ctx.session)
  }

  /** `getMessageText`. */
  function GetMessageText(ctx: Ctx): Option<string>
    reads ctx
  {
    MessageText(ctx.session)
  }

  /** `getParams`. */
  function GetParams(ctx: Ctx): seq<(string, Json)>
    reads ctx
  {
    Params(ctx.session)
  }

  /** `isExpecting`. */
  predicate IsExpecting(ctx: Ctx, kind: string)
    reads ctx
  {
    Expecting(ctx.session, ctx.update.callbackQuery.Some?, ctx.update.MessageText(), kind)
  }

  /** `shouldHandleMessage`: not a command, and text is expected. */
  predicate ShouldHandleMessage(ctx: Ctx)
    reads ctx
  {
    var text := ctx.update.MessageText();
    !(text.Some? && StartsWith(Trim(text.value), "/")) && IsExpecting(ctx, TextInput)
  }

  /**
   * Every text message that is not a command passes `shouldHandleMessage`,
   * whatever the session holds, because the text alone makes
   * `isExpecting('text')` true; a command never passes.
   */
  lemma ShouldHandleEveryPlainText(ctx: Ctx)
    ensures var text := ctx.update.MessageText();
            text.Some? && text.value != "" && !StartsWith(Trim(text.value), "/") ==> ShouldHandleMessage(ctx)
    ensures var text := ctx.update.MessageText();
            text.Some? && StartsWith(Trim(text.value), "/") ==> !ShouldHandleMessage(ctx)
  {
    ExpectingCases(ctx.session, ctx.update.callbackQuery.Some?, ctx.update.MessageText(), TextInput);
  }

  /** `clearSession`. */
  method ClearSession(ctx: Ctx)
    modifies ctx`session
    ensures ctx.session == Some(Cleared(old(ctx.session)))
    ensures GetCurrentContext(ctx).None?
  {
    if ctx.session.None? {
      ctx.session := Some(EmptySession);
      return;
    }
    ctx.session := Some(ctx.session.value.(currentContext := None));
  }

  /** `initCommand`: a fresh session if there is none, then clear, then install the new context. */
  method InitCommand(ctx: Ctx, stepId: string, inputType: string, lastMessageId: Option<int>,
                     params: Option<seq<(string, Json)>>, handler: Option<HandlerId>)
    modifies ctx`session
    ensures ctx.session == Some(Installed(old(ctx.session), stepId, inputType, lastMessageId, params, handler))
  {
    if ctx.session.None? {
      ctx.session := Some(EmptySession);
    }
    ClearSession(ctx);
    var context := SessionContext(stepId, inputType, lastMessageId, params.GetOr([]), handler, None, None, None);
    ctx.session := Some(ctx.session.value.(currentContext := Some(context)));
    if lastMessageId.Some? && lastMessageId.value != 0 {
      ctx.session := Some(ctx.session.value.(lastMessageId := lastMessageId));
    }
  }

  /** `setCallback`: only with an existing session. */
  method SetCallback(ctx: Ctx, callbackType: string, data: seq<(string, Json)>)
    modifies ctx`session
    ensures ctx.session == CallbackSet(old(ctx.session), callbackType, data)
  {
    if ctx.session.None? {
      return;
    }
    var context := SessionContext(callbackType, CallbackInput, None, data, None, None, None, None);
    ctx.session := Some(ctx.session.value.(currentContext := Some(context)));
  }

  /** `updateParams`. */
  method UpdateParams(ctx: Ctx, newParams: seq<(string, Json)>)
    modifies ctx`session
    ensures ctx.session == ParamsUpdated(old(ctx.session), newParams)
  {
    if ctx.session.None? {
      return;
    }
    var current := ctx.session.value.currentContext;
    if !ValidContext(current) {
      return;
    }
    var merged := Assign(current.value.params, newParams);
    ctx.session := Some(ctx.session.value.(currentContext := Some(current.value.(params := merged))));
  }

  /** `captureButtonData`. */
  method CaptureButtonData(ctx: Ctx)
    modifies ctx`session
    ensures ctx.session == ButtonCaptured(old(ctx.session), ctx.update.CallbackData())
  {
    var data := ctx.update.CallbackData();
    if ctx.session.None? || data.None? || data.value == "" {
      return;
    }
    var current := ctx.session.value.currentContext;
    if !ValidContext(current) {
      return;
    }
    ctx.session := Some(ctx.session.value.(currentContext := Some(current.value.(buttonData := data))));
  }

  /** `captureMessage`. */
  method CaptureMessage(ctx: Ctx)
    modifies ctx`session
    ensures ctx.update.message.None? ==> ctx.session == old(ctx.session)
    ensures ctx.update.message.Some? ==>
              ctx.session == MessageCaptured(old(ctx.session), ctx.update.message.value.messageId, ctx.update.message.value.text)
  {
    if ctx.session.None? || ctx.update.message.None? {
      return;
    }
    var current := ctx.session.value.currentContext;
    if !ValidContext(current) {
      return;
    }
    var message := ctx.update.message.value;
    var text := if message.text.Some? then Some(Trim(message.text.value)) else None;
    ctx.session := Some(ctx.session.value.(currentContext := Some(current.value.(messageText := text, messageId := Some(message.messageId)))));
  }

  /** `handleCorruptedSession`: drop the context and the pagination flag, then ask the user to try again. */
  method HandleCorruptedSession(ctx: Ctx)
    modifies ctx`session, ctx`trace
    ensures ctx.session == ResetAfterCorruption(old(ctx.session))
    ensures ctx.trace == old(ctx.trace) + [Reply(Key("session_reset_try_again"))]
  {
    if ctx.session.Some? {
      ctx.session := Some(ctx.session.value.(currentContext := None, paginationEnabled := false));
    }
    Emit(ctx, Reply(Key("session_reset_try_again")));
  }
}
