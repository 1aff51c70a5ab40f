/**
 * `/syncplayers` (src/commands/syncPlayers.ts): fetching every stored
 * player's Pathbuilder export again, refreshing the players whose export
 * parses, one report line per player, and the menu that asks first.
 */
module SyncPlayers {
  import opened Wrappers
  import opened Players
  import opened Sessions
  import opened BotContext
  import opened CommandArgs
  import Pathbuilder
  import SessionManager

  /** The callback data of the menu's button. */
  const StartButton := "sync_players_start"

  /** The id in the export URL: the stored id, or `null` interpolated when there is none. */
  function IdText(p: Player): string
  {
    match p.pathbuilderId
    case Some(id) => id
    case None => "null"
  }

  /** The answer for the `i`-th player; one the world does not list is unreachable. */
  function FetchOf(fetches: seq<Fetch>, i: nat): Fetch
  {
    if i < |fetches| then fetches[i] else Unreachable
  }

  /** What one fetch gives the loop: no answer, or the parser's reading of the export. */
  datatype Reading = Lost | Read(parsed: Option<Pathbuilder.ParsedPlayer>)

  function ReadingOf(f: Fetch, id: string): Reading
  {
    match f
    case Unreachable => Lost
    case Answered(doc) => Read(Pathbuilder.Parse(doc, id))
  }

  /** The reading of the first `n` players' exports, in order. */
  function Readings(players: seq<Player>, fetches: seq<Fetch>, n: nat): (r: seq<Reading>)
    requires n <= |players|
    ensures |r| == n
  {
    if n == 0 then [] else Readings(players, fetches, n - 1) + [ReadingOf(FetchOf(fetches, n - 1), IdText(players[n - 1]))]
  }

  /** One iteration of the loop: the report line, and the refresh it stores. */
  function SyncOne(p: Player, r: Reading): (SyncLine, seq<Effect>)
  {
    match r
    case Lost => (ConnectionFailed(p.name), [])
    case Read(parsed) =>
      if parsed.None? || parsed.value.name == "" then (InvalidData(p.name), [])
      else (Synced(parsed.value.name, parsed.value.className, parsed.value.level), [RefreshPlayer(p.id, parsed.value)])
  }

  /** The report lines of the first `n` players. */
  function Lines(players: seq<Player>, readings: seq<Reading>, n: nat): (lines: seq<SyncLine>)
    requires n <= |players| && n <= |readings|
    ensures |lines| == n
    ensures forall i :: 0 <= i < n ==> lines[i] == SyncOne(players[i], readings[i]).0
  {
    if n == 0 then [] else Lines(players, readings, n - 1) + [SyncOne(players[n - 1], readings[n - 1]).0]
  }

  /** What the loop fetches and stores for the first `n` players. */
  function LoopEffects(players: seq<Player>, readings: seq<Reading>, n: nat): seq<Effect>
    requires n <= |players| && n <= |readings|
  {
    if n == 0 then []
    else LoopEffects(players, readings, n - 1)
         + ([FetchExport(IdText(players[n - 1]))] + SyncOne(players[n - 1], readings[n - 1]).1)
  }

  /** What `executeSyncPlayers` does when it does not raise. */
  function ExecuteEffects(players: seq<Player>, readings: seq<Reading>): seq<Effect>
    requires |players| == |readings|
  {
    if |players| == 0 then [Reply(Key("updateplayers_none_found"))]
    else
      [Reply(SyncProgress(|players|))] + LoopEffects(players, readings, |players|)
      + [Reply(SyncReport(Lines(players, readings, |players|)))]
  }

  /** What `executeSyncPlayers` does in this world when it does not raise. */
  function SyncEffects(w: World): seq<Effect>
  {
    ExecuteEffects(w.linked, Readings(w.linked, w.syncFetches, |w.linked|))
  }

  /** `executeSyncPlayers`. */
  method ExecuteSyncPlayers(ctx: Ctx) returns (raised: Option<Failure>)
    modifies ctx`trace
    ensures raised == ctx.Raises(AtExecutor)
    ensures raised.Some? ==> ctx.trace == old(ctx.trace)
    ensures raised.None? ==> ctx.trace == old(ctx.trace) + SyncEffects(ctx.world)
  {
    hide Pathbuilder.Parse;  // only what the parser answers matters here, not how
    raised := ctx.Raises(AtExecutor);
    if raised.Some? {
      return;
    }
    var players := ctx.world.linked;
    if |players| == 0 {
      Emit(ctx, Reply(Key("updateplayers_none_found")));
      return;
    }
    Emit(ctx, Reply(SyncProgress(|players|)));
    var updated, readings := SyncEach(ctx, players);
    Emit(ctx, Reply(SyncReport(updated)));
  }

  /** The `for` loop of `executeSyncPlayers`: fetches and refreshes each player in turn. */
  method SyncEach(ctx: Ctx, players: seq<Player>) returns (updated: seq<SyncLine>, ghost readings: seq<Reading>)
    modifies ctx`trace
    ensures readings == Readings(players, ctx.world.syncFetches, |players|)
    ensures updated == Lines(players, readings, |players|)
    ensures ctx.trace == old(ctx.trace) + LoopEffects(players, readings, |players|)
  {
    updated := [];
    readings := [];
    var i := 0;
    while i < |players|
      invariant 0 <= i <= |players|
      invariant readings == Readings(players, ctx.world.syncFetches, i)
      invariant updated == Lines(players, readings, i)
      invariant ctx.trace == old(ctx.trace) + LoopEffects(players, readings, i)
    {
      updated, readings := SyncNext(ctx, players, i, updated, readings, old(ctx.trace));
      i := i + 1;
    }
  }

  /** One turn of the loop: the `i`-th player fetched, refreshed if its export parses, and its line added. */
  method SyncNext(ctx: Ctx, players: seq<Player>, i: nat, updated: seq<SyncLine>, ghost readings: seq<Reading>, ghost start: seq<Effect>)
    returns (updated': seq<SyncLine>, ghost readings': seq<Reading>)
    requires i < |players| && readings == Readings(players, ctx.world.syncFetches, i)
    requires updated == Lines(players, readings, i)
    requires ctx.trace == start + LoopEffects(players, readings, i)
    modifies ctx`trace
    ensures readings' == Readings(players, ctx.world.syncFetches, i + 1)
    ensures updated' == Lines(players, readings', i + 1)
    ensures ctx.trace == start + LoopEffects(players, readings', i + 1)
  {
    hide Pathbuilder.Parse;  // only what the parser answers matters here, not how
    var line, stored, reading := SyncPlayer(players, ctx.world.syncFetches, i, readings);
    ctx.trace := ctx.trace + ([FetchExport(IdText(players[i]))] + stored);
    LinesPrefix(players, readings, reading, i);
    readings' := readings + [reading];
    updated' := updated + [line];
  }

  /** The body of the loop in `executeSyncPlayers`, for one player and what its fetch answers. */
  method SyncPlayer(players: seq<Player>, fetches: seq<Fetch>, i: nat, ghost before: seq<Reading>)
    returns (line: SyncLine, stored: seq<Effect>, ghost reading: Reading)
    requires i < |players| && before == Readings(players, fetches, i)
    ensures reading == ReadingOf(FetchOf(fetches, i), IdText(players[i]))
    ensures before + [reading] == Readings(players, fetches, i + 1)
    ensures (line, stored) == SyncOne(players[i], ReadingOf(FetchOf(fetches, i), IdText(players[i])))
  {
    var player := players[i];
    var fetch := FetchOf(fetches, i);
    stored := [];
    if fetch.Unreachable? {
      reading := Lost;
      line := ConnectionFailed(player.name);
      return;
    }
    var parsed := Pathbuilder.ParsePathbuilderCharacter(fetch.doc, IdText(player));
    reading := Read(parsed);
    if parsed.None? || parsed.value.name == "" {
      line := InvalidData(player.name);
      return;
    }
    stored := [RefreshPlayer(player.id, parsed.value)];
    line := Synced(parsed.value.name, parsed.value.className, parsed.value.level);
  }

  /** `showSyncPlayersMenu`. */
  method ShowSyncPlayersMenu(ctx: Ctx)
    modifies ctx`trace, ctx`session
    ensures ctx.trace == old(ctx.trace) + [Menu(Key("sync_players_menu_message"), StartButton)]
    ensures ctx.session == Some(Installed(old(ctx.session), "sync_players_menu", CallbackInput,
                                          Some(ctx.world.sentMessageId), Some([]), Some(SyncPlayersInput)))
  {
    Emit(ctx, Menu(Key("sync_players_menu_message"), StartButton));
    SessionManager.InitCommand(ctx, "sync_players_menu", CallbackInput, Some(ctx.world.sentMessageId), Some([]), Some(SyncPlayersInput));
  }

  /** `syncPlayersCommand`: any argument syncs at once, none shows the menu. */
  method SyncPlayersCommand(ctx: Ctx) returns (raised: Option<Failure>)
    modifies ctx`trace, ctx`session
    ensures if |SpaceArgs(ctx.update.MessageText())| > 0 then
              raised == ctx.Raises(AtExecutor) && ctx.session == old(ctx.session)
              && (raised.None? ==> ctx.trace == old(ctx.trace) + SyncEffects(ctx.world))
            else
              raised.None? && ctx.trace == old(ctx.trace) + [Menu(Key("sync_players_menu_message"), StartButton)]
              && CurrentContext(ctx.session)
                 == Some(SessionContext("sync_players_menu", CallbackInput, Some(ctx.world.sentMessageId), [], Some(SyncPlayersInput), None, None, None))
  {
    var args := SpaceArgs(ctx.update.MessageText());
    if |args| > 0 {
      raised := ExecuteSyncPlayers(ctx);
      return;
    }
    ShowSyncPlayersMenu(ctx);
    raised := None;
  }

  // ---------------------------------------------------------------------
  // Properties

  /** The first `n` lines and effects only read the first `n` readings. */
  lemma {:induction false} LinesPrefix(players: seq<Player>, readings: seq<Reading>, r: Reading, n: nat)
    requires n <= |players| && n <= |readings|
    ensures Lines(players, readings + [r], n) == Lines(players, readings, n)
    ensures LoopEffects(players, readings + [r], n) == LoopEffects(players, readings, n)
  {
    if n > 0 {
      LinesPrefix(players, readings, r, n - 1);
      assert (readings + [r])[n - 1] == readings[n - 1];
    }
  }

  /** A player is refreshed exactly when its line is ✅, and then with its own id and the parsed export. */
  lemma SyncedIffRefreshed(p: Player, r: Reading)
    ensures SyncOne(p, r).0.Synced? <==> SyncOne(p, r).1 != []
    ensures SyncOne(p, r).1 != [] ==>
              r.Read? && r.parsed.Some? && r.parsed.value.name != ""
              && SyncOne(p, r).1 == [RefreshPlayer(p.id, r.parsed.value)]
              && SyncOne(p, r).0.name == r.parsed.value.name
    ensures !SyncOne(p, r).0.Synced? ==> SyncOne(p, r).0.name == p.name
    ensures r.Lost? ==> SyncOne(p, r).0 == ConnectionFailed(p.name)
  {
  }

  /** The parser is asked with the player's own id, so a refresh keeps the player's Pathbuilder id. */
  lemma RefreshKeepsId(p: Player, f: Fetch)
    requires SyncOne(p, ReadingOf(f, IdText(p))).1 != []
    ensures SyncOne(p, ReadingOf(f, IdText(p))).1[0].parsed.pathbuilderId == IdText(p)
  {
  }

  /** Every refresh the loop stores belongs to one of the first `n` players, whose line is ✅. */
  lemma {:induction false} RefreshesAreOwn(players: seq<Player>, readings: seq<Reading>, n: nat, e: Effect)
    requires n <= |players| == |readings|
    requires e in LoopEffects(players, readings, n) && e.RefreshPlayer?
    ensures exists i :: 0 <= i < n && e.id == players[i].id
              && Lines(players, readings, n)[i].Synced?
              && SyncOne(players[i], readings[i]).1 == [e]
  {
    var one := SyncOne(players[n - 1], readings[n - 1]);
    var step := [FetchExport(IdText(players[n - 1]))] + one.1;
    if e in LoopEffects(players, readings, n - 1) {
      RefreshesAreOwn(players, readings, n - 1, e);
    } else {
      assert e in step;
      assert e in one.1;
      SyncedIffRefreshed(players[n - 1], readings[n - 1]);
    }
  }

  /** Each player is fetched once, in the stored order. */
  lemma {:induction false} FetchedInOrder(players: seq<Player>, readings: seq<Reading>, n: nat)
    requires n <= |players| == |readings|
    ensures Fetched(LoopEffects(players, readings, n)) == Ids(players[..n])
  {
    if n > 0 {
      var p := players[n - 1];
      var step := [FetchExport(IdText(p))] + SyncOne(p, readings[n - 1]).1;
      FetchedInOrder(players, readings, n - 1);
      FetchedAppend(LoopEffects(players, readings, n - 1), step);
      FetchedStep(p, readings[n - 1]);
      IdsLast(players, n);
    }
  }

  lemma FetchedStep(p: Player, r: Reading)
    ensures Fetched([FetchExport(IdText(p))] + SyncOne(p, r).1) == [IdText(p)]
  {
    var one := SyncOne(p, r).1;
    var step := [FetchExport(IdText(p))] + one;
    assert step[1..] == one;
    if one != [] {
      assert one[1..] == [];
      assert Fetched(one) == [];
    }
  }

  lemma IdsLast(players: seq<Player>, n: nat)
    requires 0 < n <= |players|
    ensures Ids(players[..n]) == Ids(players[..n - 1]) + [IdText(players[n - 1])]
  {
    assert players[..n] == players[..n - 1] + [players[n - 1]];
    IdsAppend(players[..n - 1], [players[n - 1]]);
  }

  /** The ids fetched in a trace, in order. */
  function Fetched(es: seq<Effect>): seq<string>
  {
    if es == [] then [] else (if es[0].FetchExport? then [es[0].id] else []) + Fetched(es[1..])
  }

  function Ids(players: seq<Player>): seq<string>
  {
    if players == [] then [] else [IdText(players[0])] + Ids(players[1..])
  }

  lemma {:induction false} FetchedAppend(a: seq<Effect>, b: seq<Effect>)
    ensures Fetched(a + b) == Fetched(a) + Fetched(b)
  {
    if a != [] {
      assert (a + b)[1..] == a[1..] + b;
      FetchedAppend(a[1..], b);
    } else {
      assert a + b == b;
    }
  }

  lemma {:induction false} IdsAppend(a: seq<Player>, b: seq<Player>)
    ensures Ids(a + b) == Ids(a) + Ids(b)
  {
    if a != [] {
      assert (a + b)[1..] == a[1..] + b;
      IdsAppend(a[1..], b);
    } else {
      assert a + b == b;
    }
  }
}
