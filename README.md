# pathgm bot core, modelled in Dafny

pathgm is a Telegram bot for Pathfinder 2e game masters. Players are created, edited, imported from Pathbuilder, synced, listed, rolled for and cleaned up through slash commands, inline buttons and short text dialogues. This project models the part of the bot that decides what happens to an update, and proves what that part promises.

- **Dialogue state.** `SessionManager` keeps one optional current context per chat session. The text router `handleTextInput`, the callback router `handleCallbackQuery` and the wrapper `safeWrapper` consult it. The continuations (`handle*Input`, `handleClearData`) re-arm it, leave it alone or clear it. Modules: `Sessions`, `SessionManager`, `BotContext`, `Dialogue`, `Continuations`, `CallbackPatterns`, `CallbackRouter`.
- **Commands.** `/newplayer`, `/editplayer`, `/importplayer`, `/syncplayers`, `/cleardata`, `/roll`, `/rollall`, `/d20` and `/listplayers`: argument parsing, help and menu precedence, the guards of each executor, and the menu context each one installs. Modules: `CommandArgs`, `NewPlayer`, `EditPlayer`, `ImportPlayer`, `SyncPlayers`, `ClearData`, `Roll`, `RollAll`, `D20`, `ListPlayers`.
- **Parsers and arithmetic.** `attr=value` updates and their validation (`AttributeParser`). The Pathbuilder export and its modifier, defence, skill and lore arithmetic (`Pathbuilder`). Die results (`RollResultHelper`). `#tag` arguments and the keyboard builders (`CommandHelpers`). `capitalizeWords` and `capitalizeName` (`StringUtils`). `isCancelInput`, `getUserLang`, `isGroup` and `getEffectiveTelegramId` (`CancelInput`, `Telegram`).
- **Lists.** The paged keyboard (`InteractiveList`), the players' list handler (`PlayerList`), the pagination handler (`Pagination`) and the entity action buttons with their delete confirmation (`Actions`).
- **Services and output.** The inactive-player cleanup singleton (`PlayerCleanup`). The player sheet, the region list entry and the icon tables of the HTML formatter (`HtmlOutput`).
- **JavaScript semantics.** `Js` and `Json` write out the JavaScript built-ins the parsers depend on: `trim`, ASCII case mapping, `split`/`join`, `parseInt`, `slice`, NaN, and objects as entry lists in insertion order. JavaScript lists integer-like keys first; the model does not, and no key the modelled code writes is integer-like.

Each update is handled to completion by a method on a `Ctx` object. The object holds the update, the session, `ctx.user` and a trace of everything the bot sends, stores or fetches. What the outside world answers during the update is fixed in advance as a `World`: the user lookup, database rows and counts, Pathbuilder exports, the id of a sent message. At most one outside call raises, and `fault` says which one and with what error. Every state-changing method is proved against a function giving the new session, the effects appended to the trace and the outcome. The properties are stated about those functions.

## Model

| member | source | states |
|---|---|---|
| `Telegram.GetUserLang` | src/helpers/getUserLang.ts:3-6 | Portuguese exactly when the sender's language tag, lower-cased, starts with `pt`; English otherwise |
| `Telegram.GetUserLangIgnoresCase` | src/helpers/getUserLang.ts:4-5 | tags that differ only in letter case choose the same language |
| `Telegram.GetUserLangDefault` | src/helpers/getUserLang.ts:4-5 | no sender or no language tag gives English |
| `Telegram.IsGroupDependsOnly` | src/helpers/isGroup.ts:1-5 | the verdict depends only on the chat type and on whether a callback query with data is present |
| `Telegram.IsGroupNeeds` | src/helpers/isGroup.ts:2-4 | a group needs a chat of type `group` or `supergroup`; a pressed button with data is never a group |
| `Telegram.ChatId` | src/helpers/getEffectiveTelegramId.ts:4 | the chat's own id wins; any id found comes from the chat, the message's chat or the callback message's chat |
| `Telegram.GetEffectiveTelegramId` | src/helpers/getEffectiveTelegramId.ts:3-9 | defined exactly when the chosen source (chat id in a group, sender id elsewhere) is, and then it is that number's decimal text |
| `CancelInput.IsCancelInput` | src/helpers/isCancelInput.ts:1-5 | a value that is not a string is never a cancellation |
| `CancelInput.CancelIgnoresCase` | src/helpers/isCancelInput.ts:3-4 | inputs equal up to letter case get the same verdict |
| `CancelInput.CancelIgnoresPadding` | src/helpers/isCancelInput.ts:3-4 | surrounding whitespace never changes the verdict |
| `StringUtils.CapitalizeWord` | src/utils/stringUtils.ts:17-20 | one word's capitalisation keeps its length |
| `StringUtils.CapitalizeWordsWords` | src/utils/stringUtils.ts:10-22 | the space-separated words of the result are the input's words, one for one, each capitalised |
| `StringUtils.CapitalizeWordsKeepsWordCount` | src/utils/stringUtils.ts:15-21 | splitting on spaces and re-joining keeps the number of words, empty words included |
| `StringUtils.CapitalizeWordsEmpty` | src/utils/stringUtils.ts:11-13 | the early return for the empty string agrees with the split, map and join path |
| `StringUtils.CapitalizeWordsIdempotent` | src/utils/stringUtils.ts:10-22 | capitalising twice gives the same text as capitalising once |
| `StringUtils.CapitalizeNameWords` | src/utils/stringUtils.ts:29-58 | word by word: the first capitalised, later listed small words lower-cased, every other word capitalised |
| `StringUtils.CapitalizeNameFirstWord` | src/utils/stringUtils.ts:44-47 | the first word is capitalised even when it is a listed small word, and starts with the upper-cased first letter |
| `Sessions.InstalledContext` | src/utils/SessionManager.ts:66-92 | after `initCommand` with a non-empty step and input type the current context is exactly the one given: step, input type, message id, handler, the params or `{}`, nothing captured |
| `Sessions.InstalledTopLevel` | src/utils/SessionManager.ts:73-91 | `initCommand` overwrites the session's `lastMessageId` only with a truthy id and keeps the pagination flag, page, state and filters |
| `Sessions.ClearedProperties` | src/utils/SessionManager.ts:181-188 | `clearSession` leaves no context, is idempotent, keeps every other field, and turns a missing session into `{}` |
| `Sessions.GettersWithoutContext` | src/utils/SessionManager.ts:36-47 | a context is current exactly when the session exists and its context has a non-empty step and input type; without one, button data and text are null and params `{}`; non-null getters are non-empty |
| `Sessions.CallbackSetReads` | src/utils/SessionManager.ts:94-107 | `setCallback` ignores a missing session, otherwise installs a callback context with the data as params and no handler, keeping every other field; it is valid exactly for a non-empty type |
| `Sessions.ParamsUpdatedReads` | src/utils/SessionManager.ts:109-124 | `updateParams` ignores an invalid context; otherwise a key reads its new value when `newParams` has it, its old value otherwise, and step, input type and handler stay |
| `Sessions.ButtonCapturedWritesOnlyButtonData` | src/utils/SessionManager.ts:126-137 | `captureButtonData` writes the button data of a valid context when the data is non-empty, and changes nothing else |
| `Sessions.MessageCapturedWritesOnlyMessage` | src/utils/SessionManager.ts:139-151 | `captureMessage` writes the trimmed text and the message id into a valid context and changes nothing else |
| `Sessions.ExpectingCases` | src/utils/SessionManager.ts:190-200 | `isExpecting` is true for a context of that input type, for any callback when asked about callbacks, for any non-empty text when asked about text, and only then |
| `Sessions.ResetAfterCorruptionProperties` | src/utils/SessionManager.ts:49-55 | `handleCorruptedSession` drops the context and the pagination flag and keeps the message id and page |
| `SessionManager.ShouldHandleEveryPlainText` | src/utils/SessionManager.ts:24-34 | non-empty text that does not start with `/` after trimming is always handled; text that starts with `/` never is |
| `SessionManager.ClearSession` | src/utils/SessionManager.ts:181-188 | the session becomes the cleared session, and no context is current afterwards |
| `SessionManager.InitCommand` | src/utils/SessionManager.ts:66-92 | the session becomes the installed session for these options |
| `SessionManager.SetCallback` | src/utils/SessionManager.ts:94-107 | the session becomes the callback session for this type and data |
| `SessionManager.UpdateParams` | src/utils/SessionManager.ts:109-124 | the session becomes the one with the params merged |
| `SessionManager.CaptureButtonData` | src/utils/SessionManager.ts:126-137 | the session becomes the one with the update's button data captured |
| `SessionManager.CaptureMessage` | src/utils/SessionManager.ts:139-151 | without a message nothing changes; with one, the session captures its id and text |
| `SessionManager.HandleCorruptedSession` | src/utils/SessionManager.ts:49-63 | the session is reset as after corruption and `session_reset_try_again` is sent |
| `Dialogue.ExecuteCurrentHandler` | src/utils/SessionManager.ts:202-221 | session, trace and result are those of the executor's step function for the session before the call |
| `Dialogue.ExecuteCurrentHandlerResult` | src/utils/SessionManager.ts:202-221 | always ends with a boolean; without a valid context, without a handler or when the handler raises it is false, the context and pagination flag are gone and the reset notice is sent last; otherwise the continuation's own run is the whole result |
| `Dialogue.HandleTextInput` | src/handlers/text/handleTextInput.ts:5-21 | session and trace are those of the text-input step function |
| `Dialogue.TextInputCases` | src/handlers/text/handleTextInput.ts:5-21 | nothing happens without a context; `cancel`/`cancelar` in any case clears the context and sends `operation_cancelled`; any other captured text runs `executeCurrentHandler` and nothing else; nothing is returned |
| `Dialogue.RunWrapped` | src/utils/makeSafeWrapper.ts:58 | session, trace and outcome are those of the wrapped handler's step function |
| `Dialogue.Prepare` | src/utils/makeSafeWrapper.ts:28-34 | the session becomes the prepared one: `{}` when missing, then the button data and the message captured |
| `Dialogue.SafeWrapper` | src/utils/makeSafeWrapper.ts:25-80 | session, trace and outcome are those of the wrapper's step function; the user is set exactly when the gate lets the update through |
| `Dialogue.MissingSessionBecomesEmpty` | src/utils/makeSafeWrapper.ts:28 | a missing session becomes `{}` before anything else runs |
| `Dialogue.CapturedBeforeHandler` | src/utils/makeSafeWrapper.ts:28-34 | with a valid context, the handler sees the same step, input type, params and handler, the pressed button's data and the trimmed message text and id, and no other field changed |
| `Dialogue.CommandNameOf` | src/utils/makeSafeWrapper.ts:39-40 | `/name`, `/name rest` and `/name@bot rest` all give the command `name`; text without a leading `/` gives no command |
| `Dialogue.StartOnlyForStart` | src/utils/makeSafeWrapper.ts:42-46 | the start branch runs exactly for the `start` command name, and then only `startCommand` and `initDynamicCommands` run |
| `Dialogue.GateNeverSilencesInput` | src/utils/makeSafeWrapper.ts:37-50 | non-empty text or a button press is never dropped as "not a bot command" |
| `Dialogue.HandlerRunsOnlyWhenAdmitted` | src/utils/makeSafeWrapper.ts:42-58 | a handler runs exactly when the gate lets the update through and a user is found, and then first and once; without a user only `user_not_found` is sent and false returned |
| `Dialogue.NothingEscapes` | src/utils/makeSafeWrapper.ts:59-79 | no error leaves the wrapper; a raising handler's effects are followed by the generic error message unless the error is forbidden, and false is returned |
| `Dialogue.TextPassesGate` | src/utils/makeSafeWrapper.ts:32-50 | non-empty text other than `/start` sent to an active context passes the gate, keeps the context's handler and is captured trimmed |
| `Dialogue.CallbackContextRunsOnText` | src/handlers/text/handleTextInput.ts:6-20 | text sent while a context waits for a button still runs that context's continuation through `executeCurrentHandler` (the text check accepts any non-empty text) |
| `CallbackRouter.Recover` | src/handlers/handleCallbackQuery.ts:66-70 | the catch block clears the context and sends the reset message |
| `CallbackRouter.HandleCallbackQuery` | src/handlers/handleCallbackQuery.ts:7-71 | session and trace are those of the router's step function for the session before the call; the user is the one the chosen wrapper sets, if any |
| `CallbackRouter.SessionBranchWins` | src/handlers/handleCallbackQuery.ts:9-21 | during a button press an active context wins over every data pattern, whatever input type it waits for |
| `CallbackRouter.ContextWithoutHandlerCleared` | src/handlers/handleCallbackQuery.ts:11-16 | an active context without a handler gets one `callback_invalid` notice and is cleared, the pagination flag kept |
| `CallbackRouter.ThrowingContinuationNotReset` | src/handlers/handleCallbackQuery.ts:19 | a continuation that raises inside `safeWrapper` ends with the generic error, not `session_reset_try_again`, and the pagination flag stays |
| `CallbackRouter.UnmatchedGetsOneNotice` | src/handlers/handleCallbackQuery.ts:63-70 | an unmatched press gets exactly one notice and leaves the session as it was; when the notice raises, the context is cleared and the reset message sent; no handler runs |
| `CallbackRouter.OneHandlerPerPress` | src/handlers/handleCallbackQuery.ts:24-61 | a press the data or the pagination flag routes runs at most one handler, the routed one |
| `CallbackRouter.LegacyFlagLast` | src/handlers/handleCallbackQuery.ts:24-61 | with no active context, data matching a pattern goes to its handler whatever the session holds; the legacy pagination flag decides only when no pattern matches |
| `CallbackRouter.EventListNotRouted` | src/handlers/handleCallbackQuery.ts:49-64 | without a context or the pagination flag, the events list's page and item buttons get `callback_invalid` and nothing else |
| `CallbackPatterns.ActionNotAudio` | src/helpers/actionButtons.ts:7-8 | no well-formed action data starts with `audio_generate_` |
| `CallbackPatterns.ActionButtonsMatch` | src/handlers/handleCallbackQuery.ts:27-38 | every well-formed action button's data passes the action test first |
| `CallbackPatterns.ConfirmNotAction` | src/handlers/actions/actionHandler.ts:50-55 | the delete confirmation and cancellation data never match the action pattern |
| `CallbackPatterns.ConfirmationMatches` | src/handlers/handleCallbackQuery.ts:34-45 | the confirmation and cancellation buttons reach the delete-confirmation test and pass it |
| `CallbackPatterns.ListDataMatches` | src/handlers/handleCallbackQuery.ts:49 | a listed name followed by `_page_` or `_item_` passes the list test and no earlier test |
| `CallbackPatterns.ListButtonsMatch` | src/helpers/interactiveList.ts:42-65 | every page and item button of the eight listed lists passes the list test |
| `CallbackPatterns.EventListUnmatched` | src/handlers/handleCallbackQuery.ts:49 | the events list's page and item buttons pass none of the tests |
| `ClearData.Entities` | src/commands/clearData.ts:21-23 | every part kept is a valid entity, and some part is kept exactly when some trimmed part names one |
| `ClearData.ParseDirectArgs` | src/commands/clearData.ts:11-24 | null for no arguments; otherwise a non-empty list of valid entities exactly when the lower-cased input is `all` or a comma-separated part names one; `all` gives every entity |
| `ClearData.PlayersNamed` | src/commands/clearData.ts:21-22 | `players` with surrounding whitespace names the players entity |
| `ClearData.ExecuteClearData` | src/commands/clearData.ts:29-53 | deletes the user's players and reports the count, `cleardata_no_data` for none, or `cleardata_error` when the delete fails |
| `ClearData.ClearReports` | src/commands/clearData.ts:40-51 | without a count nothing is deleted; with one the delete comes first; the summary is sent exactly for a positive count |
| `ClearData.ShowClearDataMenu` | src/commands/clearData.ts:82-101 | sends the menu with the `clear_players` button and installs the `cleardata_menu` callback context with `handleClearData` |
| `ClearData.ClearDataCommand` | src/commands/clearData.ts:55-75 | help when asked for; the direct form deletes without touching the session; otherwise the menu and its callback context |
| `Continuations.HandleNewPlayerInput` | src/handlers/text/handleNewPlayerInput.ts:7-72 | session, trace and outcome are those of the new-player continuation's step function |
| `Continuations.HandleEditPlayerInput` | src/handlers/text/handleEditPlayerInput.ts:8-84 | session, trace and outcome are those of the edit-player continuation's step function |
| `Continuations.HandleImportPlayerInput` | src/handlers/text/handleImportPlayerInput.ts:6-56 | session, trace and outcome are those of the import continuation's step function |
| `Continuations.HandleSyncPlayersInput` | src/handlers/text/handleSyncPlayersInput.ts:5-32 | session, trace and outcome are those of the sync continuation's step function |
| `Continuations.ClearChoiceAsWritten` | src/handlers/handleClearData.ts:12-18 | as written, only the data `clear_all` chooses anything |
| `Continuations.ClearChoice` | src/handlers/handleClearData.ts:12-18 | corrected: `clear_all` and the menu's own `clear_players` button both choose the players |
| `Continuations.HandleClearData` | src/handlers/handleClearData.ts:5-35 | session, trace and outcome are those of the clear-data step with the switch as written: only `clear_all` deletes, and any other data returns false |
| `Continuations.RunHandler` | src/utils/SessionManager.ts:216 | running a context's handler does what that continuation's step function says; the clear-data context runs the switch as written |
| `Continuations.ContinuationShapes` | src/handlers/text/handleNewPlayerInput.ts:7-72 | every continuation leaves the session as it was, cleared, or with its own text-input context installed; false means nothing happened; a raise leaves the context cleared; none returns nothing |
| `Continuations.NewPlayerInputAsCommand` | src/handlers/text/handleNewPlayerInput.ts:39-71 | text that is not a cancellation is read like the arguments of `/newplayer`: valid ones clear the context and create the player, invalid ones get one usage or level message and keep the context |
| `Continuations.EditPlayerInputAsCommand` | src/handlers/text/handleEditPlayerInput.ts:42-83 | text that is not a cancellation is read like the arguments of `/editplayer`: valid ones clear the context and edit, invalid ones get one message and keep the context |
| `Continuations.ImportInputAlwaysImports` | src/handlers/text/handleImportPlayerInput.ts:40-55 | any captured text clears the context and imports from the trimmed text, which is what `/importplayer` would take as its argument |
| `Continuations.CapturedIsTrimmed` | src/handlers/text/handleImportPlayerInput.ts:43-47 | captured text is already trimmed and non-empty, so the empty-input prompt is never sent |
| `Continuations.SyncInputOnlyOnButton` | src/handlers/text/handleSyncPlayersInput.ts:5-32 | only the `sync_players_start` button does anything: it answers, deletes the menu, clears the context and syncs |
| `Continuations.MenuButtonIgnoredAsWritten` | src/handlers/handleClearData.ts:6-18 | as written, pressing the menu's `clear_players` button leaves the context in place and does nothing, and the running clear-data continuation declines the press |
| `Continuations.MenuButtonClears` | src/handlers/handleClearData.ts:20-34 | corrected: the menu button answers, deletes the menu, clears the context and clears the data |
| `Continuations.ClearDataDeclines` | src/handlers/handleClearData.ts:6-34 | any data other than `clear_all` returns false with no effect; `clear_all` answers, deletes the menu, clears the context and then deletes the players |
| `Continuations.CorrectionOnlyAddsMenuButton` | src/handlers/handleClearData.ts:12-18 | the corrected switch differs from the one as written only for the menu's `clear_players` data |
| `CommandHelpers.CreateLevelButtons` | src/helpers/commandHelpers.ts:20-33 | the keyboard holds the buttons 1 to `maxLevel` in order, five to a row, each labelled with its number and carrying `prefix_n` |
| `CommandHelpers.LevelButtonPosition` | src/helpers/commandHelpers.ts:24-30 | level `l` sits in row `(l-1)/5`, column `(l-1)%5` |
| `CommandHelpers.LevelButtonDecodes` | src/helpers/commandHelpers.ts:27 | a level button's data starts with the prefix and `_`, and what follows parses back to the level |
| `CommandHelpers.TerrainButtons` | src/helpers/commandHelpers.ts:38-52 | rows of two, two and one button holding the five terrains in order |
| `CommandHelpers.ItemTypeButtons` | src/helpers/commandHelpers.ts:57-68 | two rows of two buttons holding the four item types in order |
| `CommandHelpers.ChoiceDecodes` | src/helpers/commandHelpers.ts:41-65 | a choice button's data after the prefix is its value, and two buttons share data exactly when they share the value |
| `CommandHelpers.ParseUserTags` | src/helpers/commandHelpers.ts:81-98 | the tags and remaining arguments are those of the tag-splitting function of the arguments |
| `CommandHelpers.TagsAfterMeaning` | src/helpers/commandHelpers.ts:85-95 | the remaining arguments are exactly those not starting with `#`, in order; the tags are the first `maxTags` non-empty cleaned tags |
| `CommandHelpers.TagsWithinLimit` | src/helpers/commandHelpers.ts:86 | never more than `maxTags` tags, and none for a negative limit |
| `CommandHelpers.ArgsWithTags` | src/helpers/commandHelpers.ts:107-119 | the callback sees the non-tag arguments; `userTags` is undefined exactly when no tag was kept, otherwise the kept tags |
| `AttributeParser.WordPrefix` | src/helpers/playerAttributeParser.ts:33 | the longest prefix of word characters |
| `AttributeParser.MatchAssignment` | src/helpers/playerAttributeParser.ts:33 | a match splits the argument into a non-empty word key, `=`, and a value without line breaks |
| `AttributeParser.MatchAssignmentOf` | src/helpers/playerAttributeParser.ts:33 | `key=value` with a word key matches with exactly that key and value |
| `AttributeParser.StripQuotes` | src/helpers/playerAttributeParser.ts:45 | the result is a slice of the input at most two characters shorter |
| `AttributeParser.StripQuotesCases` | src/helpers/playerAttributeParser.ts:45 | one leading and one trailing quote of either kind are removed, independently, and nothing else |
| `AttributeParser.ParseAttributeUpdates` | src/helpers/playerAttributeParser.ts:29-57 | the updates are the parse of the arguments, and only known keys with values of the right kind appear |
| `AttributeParser.ParsedUpdatesWellFormed` | src/helpers/playerAttributeParser.ts:29-57 | every parse is well formed: numeric keys hold numbers, name keys strings, skills an object of numbers |
| `AttributeParser.UnmatchedArgumentIgnored` | src/helpers/playerAttributeParser.ts:33-34 | an argument that is not `key=value` changes nothing |
| `AttributeParser.UnknownKeyIgnored` | src/helpers/playerAttributeParser.ts:38-52 | a key that is neither numeric, nor a name, nor a skill changes nothing |
| `AttributeParser.LaterNumericKeyWins` | src/helpers/playerAttributeParser.ts:38-42 | a numeric key takes the latest parsable value; an unparsable one changes nothing |
| `AttributeParser.SkillStoredLowercased` | src/helpers/playerAttributeParser.ts:46-51 | a skill is stored under its lower-case name with the parsed number |
| `AttributeParser.MergeSkillValues` | src/helpers/playerAttributeParser.ts:102-118 | the merge loop's result is the skill-merge function of the current skills and the entries |
| `AttributeParser.ValidatePlayerUpdates` | src/helpers/playerAttributeParser.ts:62-132 | the validation loop's result is the validation function of the updates |
| `AttributeParser.MergeSkillsValid` | src/helpers/playerAttributeParser.ts:106-115 | a skill merge succeeds exactly when every entry is a known skill with a number from -10 to 50 |
| `AttributeParser.ValidIffAllEntriesOk` | src/helpers/playerAttributeParser.ts:69-131 | validation succeeds exactly when every entry is acceptable |
| `AttributeParser.RejectsBadEntry` | src/helpers/playerAttributeParser.ts:78-124 | a level outside 1 to 20, a stat outside -10 to 50 or an unknown key rejects the whole update |
| `AttributeParser.ParsedNeverUnknownAttribute` | src/helpers/playerAttributeParser.ts:120-124 | what the parser produces never fails validation as an unknown attribute |
| `AttributeParser.MergeNeverUnknown` | src/helpers/playerAttributeParser.ts:110-113 | a failed skill merge always reports a skill error |
| `AttributeParser.MergeSkillsOverlay` | src/helpers/playerAttributeParser.ts:103-117 | after a successful merge a skill reads its new value when updated, its existing value otherwise |
| `AttributeParser.MergeIsAssign` | src/helpers/playerAttributeParser.ts:103-117 | a successful merge is `{...current, ...entries}` |
| `AttributeParser.ValidatedUnique` | src/helpers/playerAttributeParser.ts:67-131 | the validated updates never hold a key twice |
| `AttributeParser.EmptyNameDropped` | src/helpers/playerAttributeParser.ts:71-77 | an empty name, alias or class name is dropped silently |
| `AttributeParser.DefaultSkills` | src/helpers/playerAttributeParser.ts:137-145 | the default skills are the sixteen valid skills, each at 0 |
| `AttributeParser.CreateDefaultSkills` | src/helpers/playerAttributeParser.ts:137-145 | the loop builds the default skills |
| `Pathbuilder.Modifier` | src/helpers/parsePathbuilderCharacter.ts:69-71 | the modifier is the floor of half of `score - 10`, negative scores included |
| `Pathbuilder.RequiredStrength` | src/helpers/parsePathbuilderCharacter.ts:53-59 | a strength requirement exists exactly for an item bonus of 2 or more |
| `Pathbuilder.ArmorDexPenalty` | src/helpers/parsePathbuilderCharacter.ts:35-51 | at most 3, and 0 exactly when no worn armor is light, medium or heavy |
| `Pathbuilder.Parse` | src/helpers/parsePathbuilderCharacter.ts:81-154 | null exactly when the export failed or lacks a name, class, level, abilities or proficiencies; otherwise the player carries the given id |
| `Pathbuilder.ParsePathbuilderCharacter` | src/helpers/parsePathbuilderCharacter.ts:81-154 | the loops build the parse of the export |
| `Pathbuilder.CollectSkills` | src/helpers/parsePathbuilderCharacter.ts:115-127 | the skill loop builds the skills function of the proficiencies |
| `Pathbuilder.CollectLores` | src/helpers/parsePathbuilderCharacter.ts:129-135 | the lore loop builds the lores function of the lore pairs |
| `Pathbuilder.DefensesAreProfPlusLevelPlusMod` | src/helpers/parsePathbuilderCharacter.ts:148-151 | each defense is its proficiency plus the level plus the modifier of its ability (wisdom, constitution, dexterity, wisdom) |
| `Pathbuilder.DexPenaltyOnlyWhenTooWeak` | src/helpers/parsePathbuilderCharacter.ts:106-110 | a dexterity penalty needs armor that demands more strength than the character has, and a worn light, medium or heavy armor |
| `Pathbuilder.UnmappedSkillUsesInt` | src/helpers/parsePathbuilderCharacter.ts:118 | a skill outside the ability map uses the intelligence modifier |
| `Pathbuilder.SkillsSound` | src/helpers/parsePathbuilderCharacter.ts:115-127 | every skill produced comes from a numeric, non-excluded proficiency, and the last such one under that lower-cased name gives its value |
| `Pathbuilder.SkillsComplete` | src/helpers/parsePathbuilderCharacter.ts:115-127 | every numeric, non-excluded proficiency produces a skill under its lower-cased name |
| `Pathbuilder.LoresSound` | src/helpers/parsePathbuilderCharacter.ts:129-135 | every lore produced comes from a string name with a numeric rank, as rank plus level plus intelligence |
| `Pathbuilder.LoresPresentIffValid` | src/helpers/parsePathbuilderCharacter.ts:137-139 | the `lores` object is added exactly when some lore pair has a string name and a numeric rank |
| `Pathbuilder.ParsedSkills` | src/helpers/parsePathbuilderCharacter.ts:113-139 | a parsed skill reads the skill loop's value, except `lores`, which reads the lore object when one exists |
| `Pathbuilder.AliasIsFirstWord` | src/helpers/parsePathbuilderCharacter.ts:141-145 | the alias has no space, starts the trimmed name, and is followed in it by a space when shorter |
| `RollResultHelper.ModDisplay` | src/helpers/rollResult.ts:32-66 | the modifier text is empty exactly for a zero modifier |
| `RollResultHelper.Capitalize` | src/helpers/rollResult.ts:78-80 | same length, the first character upper-cased, the rest unchanged |
| `RollResultHelper.AttributeLabel` | src/helpers/rollResult.ts:37-70 | a named attribute is shown as given; a lore as `Lore (` + capitalised name + `)` |
| `RollResultHelper.LoreEntries` | src/helpers/rollResult.ts:29-43 | one line per lore rolled |
| `RollResultHelper.LoreEntriesAt` | src/helpers/rollResult.ts:29-43 | the k-th lore line is that lore's roll |
| `RollResultHelper.RollLores` | src/helpers/rollResult.ts:29-43 | the lore loop appends the lore lines to the results |
| `RollResultHelper.RollResult` | src/helpers/rollResult.ts:9-76 | appends the lines of the roll function and uses as many dice as it says |
| `RollResultHelper.AttributeCaseIgnored` | src/helpers/rollResult.ts:18 | attributes that differ only in letter case roll alike |
| `RollResultHelper.NoLoresNotice` | src/helpers/rollResult.ts:22-27 | without lores, `lore` and `lores` give one `roll_no_lores` line and roll no die |
| `RollResultHelper.OneLinePerLore` | src/helpers/rollResult.ts:29-43 | with lores, `lores` gives one rolled line per lore, each with its own die and the total die + value + modifier |
| `RollResultHelper.SaveUsesStatField` | src/helpers/rollResult.ts:48-75 | perception and each of the three saves, in any letter case, roll one die against the player's own field of that name and give one line |
| `RollResultHelper.MissingSkillNotRolled` | src/helpers/rollResult.ts:51-60 | a skill the player lacks gives `roll_attribute_not_found` and no die; a skill present at 0 is rolled |
| `RollResultHelper.SaveTableKeys` | src/helpers/rollResult.ts:16-48 | the save table has exactly the four save fields |
| `RollResultHelper.NonLoreOneLine` | src/helpers/rollResult.ts:48-75 | anything but a lore gives exactly one line and at most one die |
| `D20.DisplayName` | src/commands/d20.ts:14 | the name shown is never empty: first name, then username, then `Usuário` |
| `D20.Modifier` | src/commands/d20.ts:16-18 | an optionally signed integer first argument is the modifier; anything else gives 0 |
| `D20.Clamp` | src/commands/d20.ts:20 | the modifier is kept within -100 to 100, unchanged inside that range |
| `D20.SignText` | src/commands/d20.ts:24 | the sign text starts with `+` exactly for a non-negative modifier and `-` otherwise |
| `D20.SignTextReadsBack` | src/commands/d20.ts:24 | the sign text is an integer literal that parses back to the modifier |
| `D20.D20Command` | src/commands/d20.ts:3-31 | help exactly when asked for; otherwise the plain roll for a zero clamped modifier, or the roll with the modifier, whose total is the roll plus the clamped modifier, between -99 and 120 |
| `Roll.NonSpaceRun` | src/commands/roll.ts:88 | the run of non-whitespace characters at the head of the text |
| `Roll.ClosingQuote` | src/commands/roll.ts:88 | the closing quote found is the first quote after the opening one, with no line break between |
| `Roll.TokenShapes` | src/commands/roll.ts:88 | every token is non-empty and is either a quoted token or a run without whitespace |
| `Roll.TokensWithoutQuotes` | src/commands/roll.ts:88 | without quotes the tokens are the whitespace-separated runs, and together they hold every non-space character in order |
| `Roll.CleanName` | src/commands/roll.ts:37 | a cleaned name holds no double quote |
| `Roll.CleanNames` | src/commands/roll.ts:35-38 | the names kept are non-empty and hold no double quote |
| `Roll.ParseDirectArgs` | src/commands/roll.ts:16-43 | parameters exactly for two or more arguments; an integer last argument is the modifier and the one before it the attribute; otherwise the last argument is the attribute with modifier 0; the names come from the arguments before |
| `Roll.NamesRoundTrip` | src/commands/roll.ts:34-38 | clean names joined with commas read back as the same names |
| `Roll.FindPlayer` | src/commands/roll.ts:53-73 | the first of the user's players whose name or alias contains the searched name ignoring case; none exactly when no player matches |
| `Roll.RollName` | src/commands/roll.ts:53-80 | one name's lines are appended: not found, or that player's roll |
| `Roll.RollEach` | src/commands/roll.ts:52-81 | the loop over the names appends every name's lines in order and counts the dice |
| `Roll.ExecuteRoll` | src/commands/roll.ts:48-84 | the results are the roll lines of the names, attribute and modifier |
| `Roll.RollCommand` | src/commands/roll.ts:86-112 | help first, then the menu (also for no arguments), then the invalid-syntax reply for one argument, otherwise the roll lines; no die unless results are sent |
| `Roll.OneLinePerName` | src/commands/roll.ts:52-81 | for a non-lore attribute, exactly one line per name, and it is `roll_player_not_found` exactly when no player matches |
| `RollAll.ParseDirectArgs` | src/commands/rollAll.ts:15-22 | parameters exactly for some argument; the first is the attribute; the modifier is 0 without a second, otherwise the second parsed, NaN when it does not parse |
| `RollAll.ExecuteRollAll` | src/commands/rollAll.ts:25-44 | `listplayers_empty` when the user has no players, otherwise every player's lines in order |
| `RollAll.RollEachPlayer` | src/commands/rollAll.ts:39-41 | the loop appends each player's lines in order and counts the dice |
| `RollAll.RollPlayer` | src/commands/rollAll.ts:40 | one player's lines are appended to the results |
| `RollAll.RollAllCommand` | src/commands/rollAll.ts:46-72 | help first, then the menu, otherwise the roll over all players; the invalid-syntax reply is never sent |
| `RollAll.RollsNotEmpty` | src/helpers/rollResult.ts:22-75 | every player yields at least one line |
| `RollAll.EveryPlayerAnswered` | src/commands/rollAll.ts:39-43 | the reply holds at least one line per player |
| `NewPlayer.ParseDirectArgs` | src/commands/newPlayer.ts:22-35 | parameters exactly for three or more arguments whose third parses to a level from 1 to 20; name and class are the first two; attributes are parsed from the rest and absent without a rest |
| `NewPlayer.ExecuteNewPlayer` | src/commands/newPlayer.ts:40-97 | the trace grows by the creation's effects for these parameters and the created row's id: on success the record is created and its card is sent with the action keyboard of that id |
| `NewPlayer.ShowNewPlayerMenu` | src/commands/newPlayer.ts:126-145 | sends the menu with the `newplayer_start` button and installs the `newplayer_menu` callback context |
| `NewPlayer.NewPlayerCommand` | src/commands/newPlayer.ts:99-119 | help when asked for; valid direct arguments create without touching the session; otherwise the menu and its callback context |
| `NewPlayer.CreatedRecord` | src/commands/newPlayer.ts:48-74 | the created record reads each validated attribute over the defaults (alias = name, stats 0, default skills) |
| `NewPlayer.CreatedPlayerGetsButtons` | src/commands/newPlayer.ts:76-92 | a keyboard reply is sent exactly when the record is assembled and written; it is the record's card, and its buttons decode to the web-app view and the deletion of the created row |
| `NewPlayer.NothingCreatedUnlessValid` | src/commands/newPlayer.ts:43-96 | nothing is created when the data is rejected or the create fails; invalid attributes send only the validation message; a missing name sends only the usage error |
| `EditPlayer.TargetOf` | src/commands/editPlayer.ts:29-34 | a non-empty all-digit target is an id; anything else is a name with one leading and one trailing quote removed |
| `EditPlayer.TargetCases` | src/commands/editPlayer.ts:33 | quoted names lose their quotes, a half-quoted name loses its one quote, digits are an id |
| `EditPlayer.ParseDirectArgs` | src/commands/editPlayer.ts:21-35 | parameters exactly for two or more arguments whose updates parse to something; the target and the updates as parsed |
| `EditPlayer.ExecuteEditPlayer` | src/commands/editPlayer.ts:69-128 | the trace grows by the edit's effects for the target found and the update outcome: on success the update is written and the changes are sent with the updated row and the row's action keyboard |
| `EditPlayer.ShowEditPlayerMenu` | src/commands/editPlayer.ts:157-176 | sends the menu with the `editplayer_start` button and installs the `editplayer_menu` callback context |
| `EditPlayer.EditPlayerCommand` | src/commands/editPlayer.ts:130-150 | help when asked for; valid direct arguments edit without touching the session; otherwise the menu and its callback context |
| `EditPlayer.EditGuards` | src/commands/editPlayer.ts:72-98 | no updates sends `editplayer_no_updates`; no player, a failing update or invalid updates write nothing; invalid updates send the validation message after the lookup |
| `EditPlayer.EditWritesValidated` | src/commands/editPlayer.ts:100-106 | any write goes to the player found and carries exactly the non-empty validated updates |
| `EditPlayer.UpdatedColumns` | src/commands/editPlayer.ts:100-106 | the row the update answers keeps the player's id and unlisted columns; a column the updates name takes the written value of its kind, every other column keeps its stored value |
| `EditPlayer.EditSuccessShowsUpdatedRow` | src/commands/editPlayer.ts:108-122 | the success reply comes only after a written update; it carries the validated changes and the updated row (its name and card), and its buttons view and delete the player found |
| `ImportPlayer.ParseDirectArgs` | src/commands/importPlayer.ts:15-20 | the joined, trimmed arguments when non-empty, otherwise null |
| `ImportPlayer.FirstLink` | src/commands/importPlayer.ts:28 | the leftmost position where a Pathbuilder link with at least five digits starts |
| `ImportPlayer.ExtractPathbuilderId` | src/commands/importPlayer.ts:25-40 | an id found is at least five digits |
| `ImportPlayer.BareIdAccepted` | src/commands/importPlayer.ts:34-37 | a bare number of five or more digits is its own id |
| `ImportPlayer.ShortNumberRejected` | src/commands/importPlayer.ts:34-39 | a number of fewer than five digits is rejected |
| `ImportPlayer.HttpsLinkAccepted` | src/commands/importPlayer.ts:26-31 | the usual `https://pathbuilder2e.com/json.php?id=` link gives its digits as the id |
| `ImportPlayer.ExecuteImportPlayer` | src/commands/importPlayer.ts:45-105 | the trace grows by the import's effects for this input, the fetch answer and the stored row's id: on success the parsed player is stored and its card is sent with the action keyboard of that id |
| `ImportPlayer.FetchAndStore` | src/commands/importPlayer.ts:53-104 | the trace grows by the fetch-parse-upsert effects for this id, ending with the card and action keyboard of the stored row on success |
| `ImportPlayer.ShowImportPlayerMenu` | src/commands/importPlayer.ts:134-153 | sends the menu with the `import_player_start` button and installs the `import_player_menu` callback context |
| `ImportPlayer.ImportPlayerCommand` | src/commands/importPlayer.ts:107-127 | help when asked for; a non-empty argument imports without touching the session; otherwise the menu and its callback context |
| `ImportPlayer.ImportStoresUnderItsId` | src/commands/importPlayer.ts:56-85 | a stored player comes from a successful fetch and upsert, is the parse of the fetched export, and carries the id and a name |
| `ImportPlayer.StoredPlayerGetsButtons` | src/commands/importPlayer.ts:67-95 | a keyboard reply is sent exactly when a named export was parsed and stored; it is the parsed player's card, and its buttons decode to the web-app view and the deletion of the stored row |
| `ImportPlayer.InvalidLinkFetchesNothing` | src/commands/importPlayer.ts:46-51 | input without an id sends only `addplayer_invalid_link` |
| `SyncPlayers.Readings` | src/commands/syncPlayers.ts:28-34 | one reading per player visited, in the order of the stored players |
| `SyncPlayers.Lines` | src/commands/syncPlayers.ts:26-55 | one report line per player visited, the `i`-th being the line for the `i`-th player and its reading |
| `SyncPlayers.SyncPlayer` | src/commands/syncPlayers.ts:29-54 | one player's line and refresh are the outcome of its own fetch: a lost fetch, an export that does not parse or has no name, or a refresh with the parsed data |
| `SyncPlayers.SyncNext` | src/commands/syncPlayers.ts:28-55 | one more pass of the loop: readings, lines and trace grow by exactly the next player's |
| `SyncPlayers.SyncEach` | src/commands/syncPlayers.ts:26-55 | the loop leaves one line per stored player and a trace of each player's fetch followed by its refresh |
| `SyncPlayers.ExecuteSyncPlayers` | src/commands/syncPlayers.ts:9-58 | a raising query leaves the trace as it was; otherwise the trace grows by the sync's effects for the stored players |
| `SyncPlayers.ShowSyncPlayersMenu` | src/commands/syncPlayers.ts:75-94 | sends the menu with the `sync_players_start` button and installs the `sync_players_menu` callback context |
| `SyncPlayers.SyncPlayersCommand` | src/commands/syncPlayers.ts:60-73 | any argument syncs at once without touching the session; none shows the menu and its callback context |
| `SyncPlayers.SyncedIffRefreshed` | src/commands/syncPlayers.ts:36-53 | a player is refreshed exactly when its line reports success, only from a parsed export with a name, and the line names the new name; a lost fetch reports a connection failure under the old name |
| `SyncPlayers.RefreshKeepsId` | src/commands/syncPlayers.ts:30-34 | a refresh carries the Pathbuilder id it was fetched with |
| `SyncPlayers.RefreshesAreOwn` | src/commands/syncPlayers.ts:41-50 | every refresh in the trace belongs to a stored player whose line reports success, and is that player's only refresh |
| `SyncPlayers.FetchedInOrder` | src/commands/syncPlayers.ts:28-30 | the exports fetched are exactly the stored players' ids, in order |
| `SyncPlayers.LinesPrefix` | src/commands/syncPlayers.ts:28-55 | a later reading does not change the lines and effects of the players before it |
| `Actions.ActionButtons` | src/helpers/actionButtons.ts:4-11 | one row of two buttons |
| `Actions.ActionButtonsDecode` | src/helpers/actionButtons.ts:7-8 | the two buttons decode to the `webapp` and `delete` actions on the model and id they were made for |
| `Actions.DecodeAction` | src/handlers/actions/actionHandler.ts:12-15 | decoded data is well formed and re-encodes to the data |
| `Actions.DecodeActionCallback` | src/handlers/actions/actionHandler.ts:12-15 | encoding a well-formed action and decoding gives the action back |
| `Actions.ActionCallbackRuns` | src/handlers/actions/actionHandler.ts:12 | in action data the entity type is the leading letter run, then the action infix, then the action name as the next letter run |
| `Actions.ActionHandler` | src/handlers/actions/actionHandler.ts:5-35 | data that is no action returns false silently; an action sends one notice and returns true exactly for `delete` or `webapp` when nothing raises; a raise (an unknown type for `webapp`, or a failing item lookup) replies the action error and returns false |
| `Actions.ConfirmButtons` | src/handlers/actions/actionHandler.ts:50-55 | one row of two buttons |
| `Actions.DeleteAction` | src/handlers/actions/actionHandler.ts:37-67 | the confirmation is asked exactly for a supported type whose item is found, and carries the item's name and the confirm and cancel buttons |
| `Actions.DecodeConfirmation` | src/handlers/actions/actionHandler.ts:101-105 | decoded confirmation data re-encodes to the data, with a letter-run type |
| `Actions.DecodeConfirmCallback` | src/handlers/actions/actionHandler.ts:52-105 | the confirm button's data decodes to its type and id |
| `Actions.HandleDeleteConfirmation` | src/handlers/actions/actionHandler.ts:96-139 | true, with a message edit, exactly for confirmation data or `cancel_delete`; a delete is issued exactly for a confirmation of a supported type that does not fail, on its handler and id, and reports success |
| `Actions.DeleteProtocol` | src/handlers/actions/actionHandler.ts:19-136 | pressing delete asks for confirmation; its confirm button deletes the item (or reports the error) and its cancel button deletes nothing |
| `InteractiveList.Icon` | src/helpers/interactiveList.ts:18-23 | players get the mask icon, every other type the clipboard |
| `InteractiveList.TotalPages` | src/helpers/interactiveList.ts:47 | the ceiling of count over page size: enough pages for every item and no empty last page |
| `InteractiveList.GenerateInteractiveListMarkup` | src/helpers/interactiveList.ts:25-73 | the keyboard built button by button is the list's markup |
| `InteractiveList.MarkupRows` | src/helpers/interactiveList.ts:35-70 | one single-button row per item, in order, carrying the item's callback, then the navigation row exactly when it is not empty |
| `InteractiveList.NavButtons` | src/helpers/interactiveList.ts:50-66 | previous exactly after the first page, the indicator exactly with more than one page, next exactly before the last page |
| `InteractiveList.NavRowMembers` | src/helpers/interactiveList.ts:48-66 | the navigation row holds those three buttons under those conditions and nothing else |
| `InteractiveList.NavTargetsInRange` | src/helpers/interactiveList.ts:50-66 | from a page in range, every navigation button leads to a page in range |
| `InteractiveList.PageCallbackInjective` | src/helpers/interactiveList.ts:52-65 | two page buttons of one list carry the same data exactly when they lead to the same page |
| `ListPlayers.LevelValue` | src/commands/listPlayers.ts:40-43 | a level filter is taken exactly when the argument parses to a number from 1 to 20 |
| `ListPlayers.ParseSearchArgs` | src/commands/listPlayers.ts:13-57 | the loop's filters are the left-to-right scan of the arguments, and help is asked by `help`, `--help` or `-h` anywhere |
| `ListPlayers.FlagConsumesNext` | src/commands/listPlayers.ts:25-53 | a flag with a value after it takes that value (the level only when valid) and the scan continues after the value |
| `ListPlayers.TrailingFlagIgnored` | src/commands/listPlayers.ts:25-49 | a flag in last position changes nothing |
| `ListPlayers.LaterFlagWins` | src/commands/listPlayers.ts:26-50 | a later occurrence of a flag overrides an earlier one; an invalid later level keeps the earlier one |
| `ListPlayers.LevelInRange` | src/commands/listPlayers.ts:41 | any level filter the scan leaves is from 1 to 20 |
| `ListPlayers.ScanAppend` | src/commands/listPlayers.ts:22-54 | scanning in two pieces split at a flag boundary equals scanning the whole |
| `ListPlayers.ListPlayersCommand` | src/commands/listPlayers.ts:59-156 | help leaves the session alone; otherwise the session turns on pagination and stores the four filters, and the reply is the empty notice or the first page of six with its markup |
| `PlayerList.QueryFor` | src/handlers/pagination/lists/listplayers.ts:16-104 | the standard query exactly when no filter is truthy, skipping page times size; otherwise a where clause on the user holding each truthy filter and no other |
| `PlayerList.GetItems` | src/handlers/pagination/lists/listplayers.ts:7-120 | unfiltered: the database's page and count; filtered: the window of the candidates for the page and the number of candidates |
| `PlayerList.WindowOfPage` | src/handlers/pagination/lists/listplayers.ts:113 | the window is the candidates' slice from page times size, clamped, and holds at most one page |
| `PlayerList.CandidateOnItsPage` | src/handlers/pagination/lists/listplayers.ts:113-117 | every candidate appears on its page, at its offset, and that page is in range |
| `PlayerList.TopTags` | src/handlers/pagination/lists/listplayers.ts:123-124 | the first two automatic tags, or all of them when fewer |
| `PlayerList.FormatPlayerListItem` | src/handlers/pagination/lists/listplayers.ts:122-141 | the label is name, class and level, then the status exactly when it is set and not `active`, then the top tags exactly when there are any; the item is a player with its id |
| `PlayerList.FormatAll` | src/handlers/pagination/lists/listplayers.ts:62-116 | one list item per player, in order |
| `PlayerList.GetItemDetails` | src/handlers/pagination/lists/listplayers.ts:23-33 | the item is the player found; the text is `player_not_found` exactly when there is none, otherwise the player card |
| `PlayerList.Times` | src/handlers/pagination/lists/listplayers.ts:51 | page times size, NaN staying NaN |
| `Pagination.DecodeListCallback` | src/handlers/pagination/paginationHandler.ts:54-57 | decoded data re-encodes to the data |
| `Pagination.DecodeEncode` | src/handlers/pagination/paginationHandler.ts:54-57 | encoding a capturable callback and decoding gives it back |
| `Pagination.ItemCallbackDecodes` | src/helpers/interactiveList.ts:42 | an item button of a letter-named list decodes to that list, `item` and the id |
| `Pagination.PageCallbackDecodes` | src/helpers/interactiveList.ts:52-65 | a page button decodes to that list, `page` and a value that parses back to the page |
| `Pagination.PaginationHandler` | src/handlers/pagination/paginationHandler.ts:46-80 | the new session and the outcome are those of the handler's specification for this press |
| `Pagination.SessionBookkeeping` | src/handlers/pagination/paginationHandler.ts:7-50 | no data changes nothing; otherwise `state` and `page` are defaulted, a page press of the players list stores the parsed page, and nothing else changes |
| `Pagination.EmptyListReturnsFalse` | src/handlers/pagination/paginationHandler.ts:14-25 | an empty-list outcome comes only from a page press of the players list whose refetch counts nothing |
| `Pagination.UnknownListNotMatched` | src/handlers/pagination/paginationHandler.ts:58-59 | a list name without a handler returns false |
| `Pagination.ItemButtonShowsPlayer` | src/handlers/pagination/paginationHandler.ts:68-77 | an item press replies with the player card and its action buttons, or raises when the player is missing |
| `Pagination.RoutePlayersPage` | src/handlers/pagination/paginationHandler.ts:6-66 | a page press stores the page and runs the page action on it, whatever the fetch and markup sizes |
| `Pagination.StandardPageShown` | src/handlers/pagination/paginationHandler.ts:14-42 | with players and no tags the page shown is the window of the fetch size and its markup |
| `Pagination.AsWrittenPage` | src/handlers/pagination/paginationHandler.ts:14-41 | the page shows eight players while its markup counts pages of six |
| `Pagination.RefetchOffersEmptyPage` | src/handlers/pagination/paginationHandler.ts:14-41 | with 13 players page 1 offers next to page 2, and page 2 shows no player |
| `Pagination.PageInRangeNotEmpty` | src/helpers/interactiveList.ts:47 | a page below the page count has at least one item |
| `Pagination.CorrectedPage` | src/handlers/pagination/paginationHandler.ts:14-41 | corrected: pages are fetched and counted by six, and a page shows the window and markup of that size |
| `Pagination.OfferedPagesNotEmpty` | src/helpers/interactiveList.ts:47-66 | every page a navigation button offers is in range and not empty |
| `Pagination.CorrectedPagesNotEmpty` | src/handlers/pagination/paginationHandler.ts:14-41 | in the corrected handler, a page in range is shown non-empty and every page it offers is non-empty |
| `Pagination.NextFromFirstPageSkips` | src/handlers/pagination/paginationHandler.ts:14-41 | as written, the first page of `/listplayers` holds players 0 to 5 and offers Next to page 1, which shows players from 8 on, so players 6 and 7 are skipped |
| `Pagination.CorrectedPagesCoverPlayers` | src/commands/listPlayers.ts:80-89 | corrected, the first page of `/listplayers` is page 0 of the handler, and its pages read in order hold every player exactly once |
| `HtmlOutput.Capitalize` | src/utils/htmlOutputFormat.ts:456-458 | same length, the first character upper-cased, the rest unchanged |
| `HtmlOutput.CapitalizeIdempotent` | src/utils/htmlOutputFormat.ts:456-458 | capitalizing twice is capitalizing once |
| `HtmlOutput.Lookup` | src/utils/htmlOutputFormat.ts:279 | a key not in the table gives the fallback; any other result is a non-empty entry stored under the key |
| `HtmlOutput.LookupFound` | src/utils/htmlOutputFormat.ts:279 | the first entry under the key wins when it is not empty |
| `HtmlOutput.TerrainIcon` | src/utils/htmlOutputFormat.ts:262-280 | an unknown terrain gets the globe |
| `HtmlOutput.DifficultyIcon` | src/utils/htmlOutputFormat.ts:282-291 | an unknown difficulty gets the white circle |
| `HtmlOutput.PlaceTypeIcon` | src/utils/htmlOutputFormat.ts:576-599 | an unknown place type gets the construction icon |
| `HtmlOutput.RegionTypeIcon` | src/utils/htmlOutputFormat.ts:757-766 | an unknown region type gets the castle |
| `HtmlOutput.RarityIcon` | src/utils/htmlOutputFormat.ts:828-838 | an unknown rarity gets the white circle |
| `HtmlOutput.EventTypeIcon` | src/utils/htmlOutputFormat.ts:1003-1014 | an unknown event type gets the masks |
| `HtmlOutput.EventDifficultyIcon` | src/utils/htmlOutputFormat.ts:1016-1025 | an unknown event difficulty gets the white circle |
| `HtmlOutput.LevelIcon` | src/utils/htmlOutputFormat.ts:768-771 | levels 1 to 5 get their icon; level 0, negative and higher levels fall back to yellow |
| `HtmlOutput.Hashed` | src/utils/htmlOutputFormat.ts:748 | each tag prefixed with `#`, in order |
| `HtmlOutput.JoinEmpty` | src/utils/htmlOutputFormat.ts:748-752 | joining non-empty tags gives the empty string only for no tags |
| `HtmlOutput.PreviewTagsProperties` | src/utils/htmlOutputFormat.ts:747-752 | the preview is empty exactly without tags, and only the first three tags count |
| `HtmlOutput.FormatRegionListItem` | src/utils/htmlOutputFormat.ts:739-755 | the callback is the region's id and the label is its type icon and its name |
| `HtmlOutput.RegionSubtitle` | src/utils/htmlOutputFormat.ts:745-752 | the subtitle is the threat icon, the translated type, then the tag preview or `no_tags` when the region has no tags |
| `HtmlOutput.SkillLinesFromNumbers` | src/utils/htmlOutputFormat.ts:433-441 | one skill line per numeric entry, each the line of such an entry |
| `HtmlOutput.LoreLinesCount` | src/utils/htmlOutputFormat.ts:434-437 | one lore line per lore, in order |
| `HtmlOutput.SignShownOnlyWhenPositive` | src/utils/htmlOutputFormat.ts:439 | a skill value is shown with `+` exactly when it is positive |
| `HtmlOutput.NegativeSavePrintedWithPlus` | src/utils/htmlOutputFormat.ts:389-392 | a negative save is printed as `+-n`: the plus is unconditional |
| `HtmlOutput.LessEqTotal` | src/utils/htmlOutputFormat.ts:444-449 | the order used for sorting compares any two lines |
| `HtmlOutput.Insert` | src/utils/htmlOutputFormat.ts:444-449 | inserting into sorted lines keeps them sorted and adds exactly the line |
| `HtmlOutput.SortLines` | src/utils/htmlOutputFormat.ts:444-449 | the sorted lines are ordered and a permutation of the input |
| `HtmlOutput.CollectSkillLines` | src/utils/htmlOutputFormat.ts:430-441 | the loop's skill and lore lines are the skill lines of the numeric entries and the lore lines of the `lores` entry |
| `HtmlOutput.FormatPlayerHtml` | src/utils/htmlOutputFormat.ts:369-454 | the card is the sheet's lines joined by newlines |
| `HtmlOutput.HeaderSize` | src/utils/htmlOutputFormat.ts:382-386 | the header is the name line, plus the ancestry line when there is one |
| `HtmlOutput.SavesFollowHeader` | src/utils/htmlOutputFormat.ts:388-392 | after the header come a blank line and the perception, fortitude, reflex and will lines, in that order |
| `HtmlOutput.CombatLineWhenDefined` | src/utils/htmlOutputFormat.ts:395-402 | the combat line is there exactly when HP, AC or class DC is defined, and then holds at least one part |
| `HtmlOutput.SkillBlockSorted` | src/utils/htmlOutputFormat.ts:443-446 | the skills block is there exactly when some skill is numeric, and its lines are sorted and a permutation of the skill lines |
| `PlayerCleanup.Inactive` | src/services/playerCleanup.ts:64-69 | exactly the rows updated before the cutoff |
| `PlayerCleanup.Kept` | src/services/playerCleanup.ts:96-102 | exactly the rows updated at or after the cutoff |
| `PlayerCleanup.PartitionOfTable` | src/services/playerCleanup.ts:64-102 | the rows found and the rows kept make up the table, as a multiset and by count |
| `PlayerCleanup.CleanupIdempotent` | src/services/playerCleanup.ts:54-115 | a second run with the same cutoff finds nothing |
| `PlayerCleanup.NothingInactive` | src/services/playerCleanup.ts:84-87 | nothing is found exactly when every row is recent, and then the table is unchanged |
| `PlayerCleanup.PlayerTable.DeleteMany` | src/services/playerCleanup.ts:96-102 | one call more; a failure changes nothing; otherwise the count of the inactive rows and only the recent rows remain |
| `PlayerCleanup.PlayerCleanupService.constructor` | src/services/playerCleanup.ts:9-11 | a new service has no job |
| `PlayerCleanup.PlayerCleanupService.Start` | src/services/playerCleanup.ts:24-38 | a running job is kept; otherwise the daily 2 AM UTC job is scheduled |
| `PlayerCleanup.PlayerCleanupService.Stop` | src/services/playerCleanup.ts:43-49 | the service ends without a job |
| `PlayerCleanup.PlayerCleanupService.CleanupInactivePlayers` | src/services/playerCleanup.ts:54-115 | a failing find changes nothing; nothing inactive deletes nothing; otherwise one delete, which removes exactly the inactive rows and reports their count, or changes nothing when it fails |
| `PlayerCleanup.PlayerCleanupService.RunCleanupNow` | src/services/playerCleanup.ts:120-123 | without faults only the recent rows remain; any fault leaves the table as it was |
| `PlayerCleanup.ServiceRegistry.GetInstance` | src/services/playerCleanup.ts:13-18 | the stored instance is returned; the first call creates it without a job |
| `PlayerCleanup.SameInstance` | src/services/playerCleanup.ts:13-18 | two calls return the same object |

## Left out

- `checkMigrateChat` (src/utils/makeSafeWrapper.ts:84-96) is not part of this model: it reacts to a Telegram group migration through a database update.
- Telegram transport calls are recorded as effects in the trace and not modelled further: `reply`, `editMessageText`, `answerCbQuery`, `setMyCommands`, and the `startCommand`/`initDynamicCommands` pair that `/start` triggers.
- Translation: a text is its translation key (`Key(k)`); i18next and the localised templates are not modelled. `HtmlOutput` takes `t` as a function parameter.
- Prisma and HTTP: query results, row counts, Pathbuilder's answers and thrown errors are inputs (`World`, `Fault`). Query semantics beyond the filters and slices that are written out are not modelled.
- Audio generation and the bodies of the slash commands that the command table hands to `safeWrapper` are not part of this model. When the routers reach one, it leaves a `Ran(h)` marker, keeps the session and ends with a given outcome.
- `CallbackRouter.HandleCallbackQuery`: the three handlers the callback patterns pick, `Actions.ActionHandler`, `Actions.HandleDeleteConfirmation` and `Pagination.PaginationHandler`, are modelled on their own but are not connected to the router. For them the router keeps the prepared session and records only `Ran(h)`. So it does not show the replies and edits of the action handlers, nor pagination's `state ??= {}`, `page ??= 0` and stored page (src/handlers/pagination/paginationHandler.ts:8-50).
- `ImportPlayer.FetchAndStore`: formatting or sending the card has no fault site, so the fallback reply that the source sends when that raises (src/commands/importPlayer.ts:96-100) is not modelled.
- Pagination: only the `listplayers` list is modelled through to its items. The other list names the router knows reach a handler that is not modelled (`OtherList`).
- `Pagination.PaginationHandler`: a page value that parses to NaN with a non-empty listing is modelled as an outcome without its keyboard (`PageShownAtNaN`), because the markup would be built from NaN page numbers.
- The buttons of the events list (`listevents`) match none of the router's patterns. `CallbackPatterns.EventListUnmatched` and `CallbackRouter.EventListNotRouted` state this. The code does not show whether it is intended, so it is not claimed as a defect.
- Async ordering and per-chat serialisation: each update runs to completion before the next.
- Randomness: die values are parameters.
- Cron scheduling and the clock: the cleanup job is the schedule it was created with, and the six-month cutoff is a parameter. Console logging is not modelled.
- `localeCompare` sorting is modelled as code-point order of the lines. Case mapping is ASCII only.
- Objects are looked up by their own keys only. A JavaScript prototype key such as `constructor` would find an inherited function; that case is not modelled. Besides the icon tables, this concerns three lookups:
  - `Pathbuilder.SkillAbility`: for such a skill key, `SKILL_ATTRIBUTE_MAP[key] || 'int'` would give a function, and the model gives `int`.
  - `RollResultHelper.RollResult`: a skill lookup such as `skills["constructor"]` would find a function, and the model reports the attribute as not found.
  - `Pagination.PaginationHandler`: for a list name such as `constructor`, `listHandler[...]` is truthy, so the source stores the page and then raises; the model returns `NotMatched`.
- Levels and stats are integers. Non-integer numbers from JSON are not modelled.
- `Pathbuilder.Parse`: the export's `abilities` and `attributes` are typed records, so a field that is missing or not a number cannot be given. Where the source would compute NaN from such a field, the model has no input.
- Of the formatters in src/utils/htmlOutputFormat.ts, only `formatPlayerHtml`, `formatRegionListItem`, `capitalize` and the icon tables are modelled. The encounter, NPC, lore, note, place, plot, region, item and event formatters are not part of this model.
- Markdown and HTML escaping of user text are not modelled.
- A failing generic error reply of `safeWrapper` (src/utils/makeSafeWrapper.ts:70-74) or a failing reset reply of `handleCorruptedSession` (src/utils/SessionManager.ts:57-62) is caught and logged in the source. The model has no fault site for either reply.
- `RollResultHelper.RollResult`: a skill value that is a string or a boolean is read as NaN, and a `lores` value that is an array or a string is read as no lores. JavaScript's coercion of such values is not modelled.
- `HtmlOutput.CollectSkillLines`: a `lores` value of `null` passes `typeof value === 'object'`, and `Object.entries(null)` then raises (src/utils/htmlOutputFormat.ts:434-437). The model skips it instead.
- `Dialogue.SafeWrapper`: a raise from the user lookup `getEffectiveUserOrGroup`, or from `startCommand` or `initDynamicCommands`, inside the `try` (src/utils/makeSafeWrapper.ts:37-58) has no fault site. In the source the `catch` handles it.
- `SyncPlayers.SyncEach`: a failing `prisma.player.update` after a good export (src/commands/syncPlayers.ts:41-53) is not a separate input. The source catches it and reports `sync_failed_connection` without a refresh. The model reaches the same line and the same missing refresh only through an `Unreachable` fetch.
- Executor faults: a fault at `AtExecutor` lets any executor raise. This over-approximates the source: `executeClearData` (src/commands/clearData.ts:32-52) and the create step of `executeNewPlayer` (src/commands/newPlayer.ts:76-96) catch every error themselves, so for them that raise cannot happen.
- Help and menu texts, seeding, src/utils/jsonUtils.ts and the test files are not part of this model.

## Findings

| source | as written | input that shows it | evidently intended | confidence | as-written member | corrected member |
|---|---|---|---|---|---|---|
| src/handlers/handleClearData.ts:12-18 | the continuation accepts only `clear_all`, but the menu's only button sends `clear_players` (src/commands/clearData.ts:86) | press the menu's button: the continuation returns false and nothing is deleted | the menu's button clears the players | not executed | `Continuations.MenuButtonIgnoredAsWritten` | `Continuations.MenuButtonClears` |
| src/handlers/pagination/paginationHandler.ts:14 | a page is refetched with size 8, while the markup counts pages of its default 6 (line 41) | 13 players: page 1 offers page 2, and page 2 shows only the navigation row; with 7 or more players, Next on the six-player first page of `/listplayers` shows players from 8 on, skipping players 6 and 7 | one page size of six for the first page, the fetch and the markup | not executed | `Pagination.RefetchOffersEmptyPage` | `Pagination.CorrectedPagesNotEmpty` |
