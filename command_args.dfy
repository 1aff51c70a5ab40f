/**
 * What the commands read from the message text before they branch:
 * `ctx.message?.text?.split(' ').slice(1) || []`, the help request
 * `args.includes('help') || args.includes('--help') || args.includes('-h')`
 * and the menu request of the roll commands.
 */
module CommandArgs {
  import opened Wrappers
  import opened Js

  /** The words after the command, split on single spaces. */
  function SpaceArgs(text: Option<string>): seq<string>
  {
    if text.None? then [] else Split(text.value, ' ')[1..]
  }

  predicate WantsHelp(args: seq<string>)
  {
    "help" in args || "--help" in args || "-h" in args
  }

  /** The menu request of `/roll` and `/rollall`: a menu flag, or no arguments at all. */
  predicate WantsMenu(args: seq<string>)
  {
    "-m" in args || "--menu" in args || "menu" in args || |args| == 0
  }
}
