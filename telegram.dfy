/**
 * The parts of a Telegram update the bot reads, and the three helpers that
 * look at them: the reply language (src/helpers/getUserLang.ts), the group
 * test (src/helpers/isGroup.ts) and the id the bot keys its data by
 * (src/helpers/getEffectiveTelegramId.ts). Every field the bot reads with
 * `?.` is an `Option`.
 */
module Telegram {
  import opened Wrappers
  import opened Js

  datatype Chat = Chat(id: Option<int>, kind: Option<string>)

  datatype User = User(id: Option<int>, languageCode: Option<string>, firstName: Option<string>, username: Option<string>)

  datatype Message = Message(messageId: int, text: Option<string>, chat: Option<Chat>)

  /** A callback query; `data` is present only for inline-button presses. */
  datatype CallbackQuery = CallbackQuery(data: Option<string>, message: Option<Message>)

  /** `ctx.chat`, `ctx.from`, `ctx.message` and `ctx.callbackQuery` of one update. */
  datatype Update = Update(chat: Option<Chat>, from: Option<User>, message: Option<Message>, callbackQuery: Option<CallbackQuery>)
  {
    /** `ctx.message?.text`. */
    function MessageText(): Option<string>
    {
      if message.Some? then message.value.text else None
    }

    /** `ctx.callbackQuery?.data`. */
    function CallbackData(): Option<string>
    {
      if callbackQuery.Some? then callbackQuery.value.data else None
    }
  }

  datatype Lang = En | Pt

  /** `getUserLang`. */
  function GetUserLang(u: Update): (lang: Lang)
    ensures lang == Pt <==> u.from.Some? && u.from.value.languageCode.Some?
                            && StartsWith(ToLower(u.from.value.languageCode.value), "pt")
  {
    if u.from.Some? && u.from.value.languageCode.Some? && StartsWith(ToLower(u.from.value.languageCode.value), "pt")
    then Pt else En
  }

  /** Language tags differing only in letter case choose the same language (`PT-br` as `pt-BR`). */
  lemma GetUserLangIgnoresCase(u: Update, code: string)
    requires u.from.Some? && u.from.value.languageCode.Some?
    requires ToLower(code) == ToLower(u.from.value.languageCode.value)
    ensures GetUserLang(u.(from := Some(u.from.value.(languageCode := Some(code))))) == GetUserLang(u)
  {
  }

  /** A user without a language tag, or with no user at all, gets English. */
  lemma GetUserLangDefault(u: Update)
    requires u.from.None? || u.from.value.languageCode.None?
    ensures GetUserLang(u) == En
  {
  }

  /** `isGroup`. */
  predicate IsGroup(u: Update)
  {
    var kind := if u.chat.Some? then u.chat.value.kind else None;
    var isCallbackQuery := u.callbackQuery.Some? && u.callbackQuery.value.data.Some?;
    (kind == Some("group") || kind == Some("supergroup")) && !isCallbackQuery
  }

  /** `isGroup` reads only the chat type and whether the callback query has data. */
  lemma IsGroupDependsOnly(u: Update, v: Update)
    requires (if u.chat.Some? then u.chat.value.kind else None) == (if v.chat.Some? then v.chat.value.kind else None)
    requires (u.callbackQuery.Some? && u.callbackQuery.value.data.Some?) == (v.callbackQuery.Some? && v.callbackQuery.value.data.Some?)
    ensures IsGroup(u) == IsGroup(v)
  {
  }

  /** A pressed inline button, a missing chat, or a chat of any other type is never a group. */
  lemma IsGroupNeeds(u: Update)
    ensures IsGroup(u) ==> u.chat.Some? && u.chat.value.kind.Some?
                           && u.chat.value.kind.value in {"group", "supergroup"}
    ensures u.callbackQuery.Some? && u.callbackQuery.value.data.Some? ==> !IsGroup(u)
  {
  }

  /** `ctx.chat?.id ?? ctx.message?.chat?.id ?? ctx.callbackQuery?.message?.chat?.id`. */
  function ChatId(u: Update): (id: Option<int>)
    ensures u.chat.Some? && u.chat.value.id.Some? ==> id == u.chat.value.id
    ensures id.Some? ==> (u.chat.Some? && u.chat.value.id == id)
                         || (u.message.Some? && u.message.value.chat.Some? && u.message.value.chat.value.id == id)
                         || (u.callbackQuery.Some? && u.callbackQuery.value.message.Some?
                             && u.callbackQuery.value.message.value.chat.Some?
                             && u.callbackQuery.value.message.value.chat.value.id == id)
  {
    if u.chat.Some? && u.chat.value.id.Some? then u.chat.value.id
    else if u.message.Some? && u.message.value.chat.Some? && u.message.value.chat.value.id.Some? then u.message.value.chat.value.id
    else if u.callbackQuery.Some? && u.callbackQuery.value.message.Some? && u.callbackQuery.value.message.value.chat.Some?
    then u.callbackQuery.value.message.value.chat.value.id
    else None
  }

  /** `getEffectiveTelegramId`: the chat id in a group, the sender's id elsewhere, as a decimal string. */
  function GetEffectiveTelegramId(u: Update): (r: Option<string>)
    ensures var source := if IsGroup(u) then ChatId(u) else if u.from.Some? then u.from.value.id else None;
            (r.Some? <==> source.Some?) && (r.Some? ==> ParseInt(r.value) == source)
  {
    var source := if IsGroup(u) then ChatId(u) else if u.from.Some? then u.from.value.id else None;
    if source.Some? then
      ParseIntOfIntToString(source.value);
      Some(IntToString(source.value))
    else None
  }
}
