/**
 * The Telegraf context of one update as the dialogue code sees it: the
 * update itself, the session (the only state that outlives the update),
 * `ctx.user`, and everything the bot sends or stores, appended to a trace.
 *
 * What the outside world answers during the update (the user lookup, the
 * database, Pathbuilder's server, the id Telegram gives a sent message) is
 * fixed in advance in a `World`. At most one outside call of the update
 * raises; `fault` says which kind of call and with what error.
 */
module BotContext {
  import opened Wrappers
  import opened Js
  import opened Json
  import opened Telegram
  import opened Players
  import opened Sessions
  import AttributeParser
  import Pathbuilder
  import CommandHelpers

  /** A thrown error, as `safeWrapper` inspects it: `err.response.error_code` and `err.description`. */
  datatype Failure = Failure(errorCode: Option<int>, description: Option<string>)

  /** The kind of outside call that raises. */
  datatype FaultSite =
    | AtExecutor   // the `execute*` function a continuation or command hands over to
    | AtHandler    // a wrapped handler the dialogue does not run (audio, actions, pagination, commands)
    | AtNotice     // `sendLocalizedMessage` in the callback router

  datatype Fault = NoFault | Raise(site: FaultSite, error: Failure)

  /** The error a call of this kind raises, if it is the one that fails. */
  function RaisedAt(fault: Fault, site: FaultSite): Option<Failure>
  {
    if fault.Raise? && fault.site == site then Some(fault.error) else None
  }

  /** What Pathbuilder's server answers for one id: nothing usable, or an export document. */
  datatype Fetch = Unreachable | Answered(doc: Pathbuilder.Export)

  /** What the outside world answers during one update. */
  datatype World = World(
    user: Option<string>,           // getEffectiveUserOrGroup: the id of the stored user or group
    sentMessageId: int,             // `message_id` of a message the bot sends
    created: Option<string>,        // the id of the row prisma.player.create answers; None when it raises
    editTarget: Option<Player>,     // findPlayer's answer
    updateFails: bool,              // prisma.player.update raises
    importFetch: Fetch,             // the export behind the id being imported
    upserted: Option<string>,       // the id of the row prisma.player.upsert answers; None when it raises
    deleted: Option<int>,           // deleteMany's count, None when it raises
    linked: seq<Player>,            // the players the sync query answers
    syncFetches: seq<Fetch>)        // per player, in order: its export, or Unreachable when the fetch or the update fails

  /** The handlers the callback router and the command table hand to `safeWrapper`. */
  datatype Wrapped =
    | Continuation(id: HandlerId)
    | TextInputHandler
    | AudioGeneration
    | ActionHandler
    | DeleteConfirmation
    | PaginationHandler
    | Command(name: string)

  /** One result line of `executeSyncPlayers`: ✅ with the new data, or ❌ with the player's stored name. */
  datatype SyncLine =
    | Synced(name: string, className: string, level: int)
    | InvalidData(name: string)
    | ConnectionFailed(name: string)

  /** What a message says: a translation key, or a text built from data. */
  datatype Text =
    | Key(key: string)
    | HelpMessage(command: string)      // the help text of a command
    | MenuMessage(command: string)      // the text above a command's menu button
    | ValidationText(error: AttributeParser.ValidationError)
    | PlayerCard(player: seq<(string, Json)>)
    | EditSuccess(changes: seq<(string, Json)>, updated: Player)   // the changes, then the updated row's name and card
    | ImportedCard(parsed: Pathbuilder.ParsedPlayer)
    | SyncProgress(count: nat)
    | SyncReport(lines: seq<SyncLine>)
    | ClearSummary(players: int)
    | Importing
    | GenericError
    | SessionReset

  /** What the bot does outside the session. */
  datatype Effect =
    | Reply(text: Text)
    | ReplyWithButtons(text: Text, buttons: CommandHelpers.Keyboard)   // a reply with an inline keyboard under it
    | Menu(text: Text, button: string)          // a reply with one inline button carrying `button` as its callback data
    | AnswerCallback
    | DeleteMenuMessage
    | EditMessage(text: Text)
    | CreatePlayer(data: seq<(string, Json)>)
    | LookUpPlayer(key: string)
    | UpdatePlayer(id: string, data: seq<(string, Json)>)
    | FetchExport(id: string)
    | UpsertPlayer(parsed: Pathbuilder.ParsedPlayer)
    | RefreshPlayer(id: string, parsed: Pathbuilder.ParsedPlayer)
    | DeletePlayers
    | StartCommand
    | InitDynamicCommands
    | Ran(handler: Wrapped)

  /** How a handler ends: with a boolean, without a value, or with the error it raised. */
  datatype Outcome = Done(result: bool) | Returned | Threw(error: Failure)

  class Ctx {
    const update: Update
    const world: World
    const fault: Fault
    var session: Option<Session>
    var user: Option<string>
    var trace: seq<Effect>

    constructor (update: Update, world: World, fault: Fault, session: Option<Session>)
      ensures this.update == update && this.world == world && this.fault == fault
      ensures this.session == session && this.user.None? && this.trace == []
    {
      this.update := update;
      this.world := world;
      this.fault := fault;
      this.session := session;
      this.user := None;
      this.trace := [];
    }

    function Raises(site: FaultSite): Option<Failure>
    {
      RaisedAt(fault, site)
    }
  }

  /** Sends, stores or answers something: appends it to the trace. */
  method Emit(ctx: Ctx, e: Effect)
    modifies ctx`trace
    ensures ctx.trace == old(ctx.trace) + [e]
  {
    ctx.trace := ctx.trace + [e];
  }
}
