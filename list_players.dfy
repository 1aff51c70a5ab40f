/**
 * `/listplayers` (src/commands/listPlayers.ts): the `--class`,
 * `--ancestry`, `--level` and `--status` flags, the help request, the
 * filters the command leaves in the session for the pagination that
 * follows, and the first page of the list.
 */
module ListPlayers {
  import opened Wrappers
  import opened Js
  import opened Sessions
  import opened BotContext
  import opened CommandArgs
  import opened CommandHelpers
  import opened InteractiveList
  import opened PlayerList

  /** The four filters the flags set, each `undefined` until its flag is read. */
  datatype Picked = Picked(
    classFilter: Option<string>,
    ancestryFilter: Option<string>,
    levelFilter: Option<int>,
    statusFilter: Option<string>)

  const NothingPicked := Picked(None, None, None, None)

  /** `SearchParams`. */
  datatype SearchParams = SearchParams(picked: Picked, showHelp: bool)

  predicate IsFlag(arg: string)
  {
    arg == "--class" || arg == "--ancestry" || arg == "--level" || arg == "--status"
  }

  /** The level `--level` keeps: `parseInt` of its value when that is an integer in 1..20. */
  function LevelValue(arg: string): (level: Option<int>)
    ensures level.Some? ==> 1 <= level.value <= 20
    ensures level.Some? <==> ParseIntAnyRadix(arg).Some? && 1 <= ParseIntAnyRadix(arg).value <= 20
  {
    var n := ParseIntAnyRadix(arg);
    if n.Some? && 1 <= n.value <= 20 then n else None
  }

  /**
   * What the loop of `parseSearchArgs` has picked once it has read `args`
   * starting from `p`: a flag with an argument after it consumes that
   * argument as its value; anything else, a flag in the last position
   * included, is passed over.
   */
  function Scan(args: seq<string>, p: Picked): Picked
    decreases |args|
  {
    if |args| < 2 then p
    else if IsFlag(args[0]) then Scan(args[2..], Pick(args[0], args[1], p))
    else Scan(args[1..], p)
  }

  /** What one flag does with its value. */
  function Pick(flag: string, v: string, p: Picked): Picked
    requires IsFlag(flag)
  {
    if flag == "--class" then p.(classFilter := Some(v))
    else if flag == "--ancestry" then p.(ancestryFilter := Some(v))
    else if flag == "--level" then (if LevelValue(v).Some? then p.(levelFilter := LevelValue(v)) else p)
    else p.(statusFilter := Some(v))
  }

  /** `parseSearchArgs`. */
  method ParseSearchArgs(args: seq<string>) returns (params: SearchParams)
    ensures params == SearchParams(Scan(args, NothingPicked), WantsHelp(args))
  {
    var picked := NothingPicked;
    var showHelp := "help" in args || "--help" in args || "-h" in args;
    var i := 0;
    while i < |args|
      invariant 0 <= i <= |args|
      invariant Scan(args[i..], picked) == Scan(args, NothingPicked)
    {
      var arg := args[i];
      if arg == "--class" && i + 1 < |args| {
        picked := picked.(classFilter := Some(args[i + 1]));
        i := i + 2;
        continue;
      }
      if arg == "--ancestry" && i + 1 < |args| {
        picked := picked.(ancestryFilter := Some(args[i + 1]));
        i := i + 2;
        continue;
      }
      if arg == "--level" && i + 1 < |args| {
        var level := ParseIntAnyRadix(args[i + 1]);
        if level.Some? && level.value >= 1 && level.value <= 20 {
          picked := picked.(levelFilter := level);
        }
        i := i + 2;
        continue;
      }
      if arg == "--status" && i + 1 < |args| {
        picked := picked.(statusFilter := Some(args[i + 1]));
        i := i + 2;
        continue;
      }
      i := i + 1;
    }
    params := SearchParams(picked, showHelp);
  }

  /** `args` reads to its end with no flag still waiting for its value. */
  predicate Aligned(args: seq<string>)
    decreases |args|
  {
    if args == [] then true
    else if IsFlag(args[0]) then |args| >= 2 && Aligned(args[2..])
    else Aligned(args[1..])
  }

  /** After aligned arguments the scan goes on from what they picked. */
  lemma {:induction false} ScanAppend(xs: seq<string>, ys: seq<string>, p: Picked)
    requires Aligned(xs)
    ensures Scan(xs + ys, p) == Scan(ys, Scan(xs, p))
    decreases |xs|
  {
    if xs == [] {
      assert xs + ys == ys;
    } else if IsFlag(xs[0]) {
      assert (xs + ys)[2..] == xs[2..] + ys;
      ScanAppend(xs[2..], ys, Pick(xs[0], xs[1], p));
    } else {
      assert (xs + ys)[1..] == xs[1..] + ys;
      if |xs + ys| >= 2 {
        ScanAppend(xs[1..], ys, p);
      } else {
        assert xs[1..] == [] && ys == [];
        assert xs + ys == xs;
      }
    }
  }

  /** A flag in the last position is ignored. */
  lemma TrailingFlagIgnored(xs: seq<string>, flag: string, p: Picked)
    requires Aligned(xs) && IsFlag(flag)
    ensures Scan(xs + [flag], p) == Scan(xs, p)
  {
    ScanAppend(xs, [flag], p);
  }

  /** A later flag overrides an earlier one of the same kind, whatever came before. */
  lemma LaterFlagWins(xs: seq<string>, v: string, p: Picked)
    requires Aligned(xs)
    ensures Scan(xs + ["--class", v], p).classFilter == Some(v)
    ensures Scan(xs + ["--ancestry", v], p).ancestryFilter == Some(v)
    ensures Scan(xs + ["--status", v], p).statusFilter == Some(v)
    ensures LevelValue(v).Some? ==> Scan(xs + ["--level", v], p).levelFilter == LevelValue(v)
    ensures LevelValue(v).None? ==> Scan(xs + ["--level", v], p).levelFilter == Scan(xs, p).levelFilter
  {
    ScanAppend(xs, ["--class", v], p);
    ScanAppend(xs, ["--ancestry", v], p);
    ScanAppend(xs, ["--status", v], p);
    ScanAppend(xs, ["--level", v], p);
  }

  /** Each flag consumes the next argument, even one that is itself a flag. */
  lemma FlagConsumesNext(v: string, rest: seq<string>, p: Picked)
    ensures Scan(["--class", v] + rest, p) == Scan(rest, p.(classFilter := Some(v)))
    ensures Scan(["--status", v] + rest, p) == Scan(rest, p.(statusFilter := Some(v)))
    ensures Scan(["--ancestry", v] + rest, p) == Scan(rest, p.(ancestryFilter := Some(v)))
    ensures Scan(["--level", v] + rest, p) == Scan(rest, if LevelValue(v).Some? then p.(levelFilter := LevelValue(v)) else p)
  {
    assert (["--class", v] + rest)[2..] == rest;
    assert (["--status", v] + rest)[2..] == rest;
    assert (["--ancestry", v] + rest)[2..] == rest;
    assert (["--level", v] + rest)[2..] == rest;
  }

  /** The kept level is always in 1..20; a value out of range or not a number leaves the earlier one. */
  lemma {:induction false} LevelInRange(args: seq<string>, p: Picked)
    requires p.levelFilter.None? || 1 <= p.levelFilter.value <= 20
    ensures var l := Scan(args, p).levelFilter; l.None? || 1 <= l.value <= 20
    decreases |args|
  {
    if |args| >= 2 {
      if IsFlag(args[0]) {
        LevelInRange(args[2..], Pick(args[0], args[1], p));
      } else {
        LevelInRange(args[1..], p);
      }
    }
  }

  /** What `/listplayers` replies. */
  datatype ListPlayersReply =
    | HelpText
    | NothingFound(picked: Picked)                 // `listplayers_empty` with a line per filter
    | Prompt(picked: Picked, keyboard: Keyboard)   // `listplayers_prompt` and the first page
    | QueryFailed                                  // a database query raised

  /** The filters as `getItems` receives them: the class as text. */
  function FiltersOf(p: Picked): Filters
  {
    Filters(if p.classFilter.Some? then Some(Text(p.classFilter.value)) else None,
            p.ancestryFilter, p.levelFilter, p.statusFilter)
  }

  /** The page size of the first page, the default of the list keyboard. */
  const FirstPageSize := 6

  /**
   * `listPlayersCommand`. The help request leaves the session alone.
   * Otherwise the four filters and `paginationEnabled` are stored before
   * the database is asked for page 0 of size 6; nothing found gives the
   * empty message, and the first page comes with the list keyboard.
   */
  method ListPlayersCommand(ctx: Ctx, texts: NavTexts, answer: Answer) returns (reply: ListPlayersReply)
    requires ctx.session.Some? && ctx.user.Some?
    modifies ctx`session
    ensures var args := SpaceArgs(ctx.update.MessageText());
      var p := Scan(args, NothingPicked);
      var listing := GetItems(ctx.user.value, Int(0), FirstPageSize, FiltersOf(p), answer);
      (WantsHelp(args) ==> reply == HelpText && ctx.session == old(ctx.session))
      && (!WantsHelp(args) ==>
            ctx.session == Some(old(ctx.session).value.(paginationEnabled := true, classFilter := p.classFilter,
                                                        ancestryFilter := p.ancestryFilter, levelFilter := p.levelFilter,
                                                        statusFilter := p.statusFilter))
            && (listing.None? ==> reply == QueryFailed)
            && (listing.Some? && listing.value.totalCount == 0 ==> reply == NothingFound(p))
            && (listing.Some? && listing.value.totalCount > 0 ==>
                  reply == Prompt(p, Markup(texts, listing.value.items, 0, "listplayers", FirstPageSize, listing.value.totalCount))))
  {
    var args := SpaceArgs(ctx.update.MessageText());
    var params := ParseSearchArgs(args);
    if params.showHelp {
      return HelpText;
    }
    var p := params.picked;
    ctx.session := Some(ctx.session.value.(paginationEnabled := true, classFilter := p.classFilter,
                                           ancestryFilter := p.ancestryFilter, levelFilter := p.levelFilter,
                                           statusFilter := p.statusFilter));
    var listing := GetItems(ctx.user.value, Int(0), FirstPageSize, FiltersOf(p), answer);
    if listing.None? {
      return QueryFailed;
    }
    if listing.value.totalCount == 0 {
      return NothingFound(p);
    }
    var keyboard := GenerateInteractiveListMarkup(texts, listing.value.items, 0, "listplayers", FirstPageSize, listing.value.totalCount);
    reply := Prompt(p, keyboard);
  }
}
