/**
 * `/importplayer` (src/commands/importPlayer.ts): reading a Pathbuilder id out
 * of a link or a bare number, fetching the export and storing the player
 * under that id, and the menu that asks for the link instead.
 */
module ImportPlayer {
  import opened Wrappers
  import opened Js
  import opened Sessions
  import opened BotContext
  import opened CommandArgs
  import Pathbuilder
  import SessionManager
  import Actions

  /** The callback data of the menu's button. */
  const StartButton := "import_player_start"

  /** `parseDirectArgs`: the arguments joined back with spaces and trimmed; nothing left is no input. */
  function ParseDirectArgs(args: seq<string>): (r: Option<string>)
    ensures r.Some? ==> r.value != "" && r.value == Trim(Join(args, ' '))
    ensures r.None? <==> (|args| == 0 || Trim(Join(args, ' ')) == "")
  {
    if |args| == 0 then None
    else
      var input := Trim(Join(args, ' '));
      if input == "" then None else Some(input)
  }

  /** The fixed part of an export link, up to the id. */
  const LinkPrefix: string := "pathbuilder2e.com/json.php?id="

  const Quotes: set<char> := {'\'', '"'}

  /** `pathbuilder2e\.com\/json\.php\?id=(\d{5,})` matches at `j`. */
  predicate LinkAt(s: string, j: int)
  {
    0 <= j && j + |LinkPrefix| <= |s| && s[j..j + |LinkPrefix|] == LinkPrefix
    && |DigitPrefix(s[j + |LinkPrefix|..])| >= 5
  }

  /** The leftmost position at or after `i` where the link pattern matches. */
  function FirstLink(s: string, i: nat): (r: Option<nat>)
    requires i <= |s|
    ensures r.Some? ==> i <= r.value <= |s| && LinkAt(s, r.value)
    ensures r.Some? ==> forall j :: i <= j < r.value ==> !LinkAt(s, j)
    ensures r.None? ==> forall j :: i <= j <= |s| ==> !LinkAt(s, j)
    decreases |s| - i
  {
    if LinkAt(s, i) then Some(i)
    else if i == |s| then None
    else FirstLink(s, i + 1)
  }

  /** `extractPathbuilderId`: quotes removed and trimmed, then the id of the
    * first export link, or the whole text when it is five digits or more. */
  function ExtractPathbuilderId(input: string): (r: Option<string>)
    ensures r.Some? ==> AllDigits(r.value) && |r.value| >= 5
  {
    var cleaned := Trim(RemoveChars(input, Quotes));
    match FirstLink(cleaned, 0)
    case Some(j) => Some(DigitPrefix(cleaned[j + |LinkPrefix|..]))
    case None => if |cleaned| >= 5 && AllDigits(cleaned) then Some(cleaned) else None
  }

  /** What `executeImportPlayer` stores and says once the export is parsed; `upserted` is the stored row's id, None when the write raises. */
  function StoreEffects(parsed: Option<Pathbuilder.ParsedPlayer>, upserted: Option<string>): seq<Effect>
  {
    if parsed.None? || parsed.value.name == "" then [Reply(Key("addplayer_invalid_json"))]
    else if upserted.None? then [Reply(Key("addplayer_error"))]
    else [UpsertPlayer(parsed.value), ReplyWithButtons(ImportedCard(parsed.value), Actions.ActionButtons("player", upserted.value))]
  }

  /** What `executeImportPlayer` stores and says for an id, when it does not raise. */
  function ImportEffects(id: string, fetch: Fetch, upserted: Option<string>): seq<Effect>
  {
    [Reply(Importing), FetchExport(id)]
    + match fetch
      case Unreachable => [Reply(Key("addplayer_error"))]
      case Answered(doc) => StoreEffects(Pathbuilder.Parse(doc, id), upserted)
  }

  function ExecuteEffects(input: string, fetch: Fetch, upserted: Option<string>): seq<Effect>
  {
    match ExtractPathbuilderId(input)
    case None => [Reply(Key("addplayer_invalid_link"))]
    case Some(id) => ImportEffects(id, fetch, upserted)
  }

  /** `executeImportPlayer`. */
  method ExecuteImportPlayer(ctx: Ctx, input: string) returns (raised: Option<Failure>)
    modifies ctx`trace
    ensures raised == ctx.Raises(AtExecutor)
    ensures raised.Some? ==> ctx.trace == old(ctx.trace)
    ensures raised.None? ==> ctx.trace == old(ctx.trace) + ExecuteEffects(input, ctx.world.importFetch, ctx.world.upserted)
  {
    raised := ctx.Raises(AtExecutor);
    if raised.Some? {
      return;
    }
    var id := ExtractPathbuilderId(input);
    if id.None? {
      Emit(ctx, Reply(Key("addplayer_invalid_link")));
      return;
    }
    FetchAndStore(ctx, id.value);
  }

  /** The `try` block of `executeImportPlayer`, for an id read from the input. */
  method FetchAndStore(ctx: Ctx, id: string)
    modifies ctx`trace
    ensures ctx.trace == old(ctx.trace) + ImportEffects(id, ctx.world.importFetch, ctx.world.upserted)
  {
    var fetch := ctx.world.importFetch;
    var stored: seq<Effect>;
    if fetch.Unreachable? {
      stored := [Reply(Key("addplayer_error"))];
    } else {
      var parsed := Pathbuilder.ParsePathbuilderCharacter(fetch.doc, id);
      if parsed.None? || parsed.value.name == "" {
        stored := [Reply(Key("addplayer_invalid_json"))];
      } else if ctx.world.upserted.None? {
        stored := [Reply(Key("addplayer_error"))];
      } else {
        var ab := Actions.ActionButtons("player", ctx.world.upserted.value);
        stored := [UpsertPlayer(parsed.value), ReplyWithButtons(ImportedCard(parsed.value), ab)];
      }
      assert stored == StoreEffects(parsed, ctx.world.upserted);
    }
    Emit(ctx, Reply(Importing));
    Emit(ctx, FetchExport(id));
    ctx.trace := ctx.trace + stored;
  }

  /** `showImportPlayerMenu`. */
  method ShowImportPlayerMenu(ctx: Ctx)
    modifies ctx`trace, ctx`session
    ensures ctx.trace == old(ctx.trace) + [Menu(MenuMessage("importplayer"), StartButton)]
    ensures ctx.session == Some(Installed(old(ctx.session), "import_player_menu", CallbackInput,
                                          Some(ctx.world.sentMessageId), Some([]), Some(ImportPlayerInput)))
  {
    Emit(ctx, Menu(MenuMessage("importplayer"), StartButton));
    SessionManager.InitCommand(ctx, "import_player_menu", CallbackInput, Some(ctx.world.sentMessageId), Some([]), Some(ImportPlayerInput));
  }

  /** `importPlayerCommand`: help first, then the direct form, otherwise the menu. */
  method ImportPlayerCommand(ctx: Ctx) returns (raised: Option<Failure>)
    modifies ctx`trace, ctx`session
    ensures var args := SpaceArgs(ctx.update.MessageText());
            if WantsHelp(args) then
              raised.None? && ctx.trace == old(ctx.trace) + [Reply(HelpMessage("importplayer"))]
              && ctx.session == old(ctx.session)
            else if ParseDirectArgs(args).Some? then
              raised == ctx.Raises(AtExecutor) && ctx.session == old(ctx.session)
              && (raised.None? ==> ctx.trace == old(ctx.trace) + ExecuteEffects(ParseDirectArgs(args).value, ctx.world.importFetch, ctx.world.upserted))
            else
              raised.None? && ctx.trace == old(ctx.trace) + [Menu(MenuMessage("importplayer"), StartButton)]
              && CurrentContext(ctx.session)
                 == Some(SessionContext("import_player_menu", CallbackInput, Some(ctx.world.sentMessageId), [], Some(ImportPlayerInput), None, None, None))
  {
    var args := SpaceArgs(ctx.update.MessageText());
    if WantsHelp(args) {
      Emit(ctx, Reply(HelpMessage("importplayer")));
      return None;
    }
    var direct := ParseDirectArgs(args);
    if direct.Some? {
      raised := ExecuteImportPlayer(ctx, direct.value);
      return;
    }
    ShowImportPlayerMenu(ctx);
    raised := None;
  }

  // ---------------------------------------------------------------------
  // Properties

  /** A bare id of five digits or more is its own Pathbuilder id. */
  lemma BareIdAccepted(d: string)
    requires AllDigits(d) && |d| >= 5
    ensures ExtractPathbuilderId(d) == Some(d)
  {
    RemoveCharsKeepsOthers(d, Quotes);
    TrimStartStop(d);
    TrimEndStop(d);
    assert Trim(RemoveChars(d, Quotes)) == d;
    NoLinkInDigits(d);
  }

  lemma NoLinkInDigits(d: string)
    requires AllDigits(d)
    ensures FirstLink(d, 0).None?
  {
    forall j | 0 <= j <= |d| ensures !LinkAt(d, j) {
      if j + |LinkPrefix| <= |d| {
        assert d[j..j + |LinkPrefix|][0] == d[j];
        assert LinkPrefix[0] == 'p';
      }
    }
  }

  /** A number of fewer than five digits is not an id. */
  lemma ShortNumberRejected(d: string)
    requires AllDigits(d) && |d| < 5
    ensures ExtractPathbuilderId(d).None?
  {
    RemoveCharsKeepsOthers(d, Quotes);
    TrimStartStop(d);
    TrimEndStop(d);
    assert Trim(RemoveChars(d, Quotes)) == d;
    NoLinkInDigits(d);
  }

  /** The id in an https export link is the digit run after `?id=`, whatever follows it. */
  lemma {:induction false} HttpsLinkAccepted(d: string, rest: string)
    requires AllDigits(d) && |d| >= 5
    requires rest == "" || (!IsDigit(rest[0]) && !IsSpace(rest[|rest| - 1]))
    requires forall i :: 0 <= i < |rest| ==> rest[i] !in Quotes
    ensures ExtractPathbuilderId("https://" + LinkPrefix + d + rest) == Some(d)
  {
    var s := "https://" + LinkPrefix + d + rest;
    LinkHasNoQuotes(d, rest);
    RemoveCharsKeepsOthers(s, Quotes);
    assert s[0] == 'h';
    TrimStartStop(s);
    assert s[|s| - 1] == if rest == "" then d[|d| - 1] else rest[|rest| - 1];
    TrimEndStop(s);
    assert Trim(RemoveChars(s, Quotes)) == s;
    LinkFoundAfterScheme(d, rest);
    DigitPrefixAppend(d, rest);
    assert ExtractPathbuilderId(s) == Some(DigitPrefix(s[8 + |LinkPrefix|..]));
  }

  lemma LinkHasNoQuotes(d: string, rest: string)
    requires AllDigits(d)
    requires forall i :: 0 <= i < |rest| ==> rest[i] !in Quotes
    ensures var s := "https://" + LinkPrefix + d + rest;
            forall i :: 0 <= i < |s| ==> s[i] !in Quotes
  {
    var p := "https://" + LinkPrefix;
    var s := p + d + rest;
    forall i | 0 <= i < |s| ensures s[i] !in Quotes {
      if i < |p| {
        assert s[i] == p[i];
      } else if i < |p| + |d| {
        assert s[i] == d[i - |p|];
      } else {
        assert s[i] == rest[i - |p| - |d|];
      }
    }
  }

  lemma {:induction false} LinkFoundAfterScheme(d: string, rest: string)
    requires AllDigits(d) && |d| >= 5
    requires rest == "" || !IsDigit(rest[0])
    ensures var s := "https://" + LinkPrefix + d + rest;
            FirstLink(s, 0) == Some(8) && s[8 + |LinkPrefix|..] == d + rest
  {
    var p := "https://" + LinkPrefix;
    var s := p + d + rest;
    assert |p| == 8 + |LinkPrefix| && p[8..] == LinkPrefix;
    assert s[..|p|] == p;
    assert s[|p|..] == d + rest;
    assert s[8..8 + |LinkPrefix|] == LinkPrefix;
    DigitPrefixAppend(d, rest);
    assert LinkAt(s, 8);
    NoLinkInScheme(s);
  }

  /** No match of the link pattern starts inside `https://`. */
  lemma NoLinkInScheme(s: string)
    requires |s| >= 8 && s[..8] == "https://"
    ensures forall j :: 0 <= j < 8 ==> !LinkAt(s, j)
  {
    forall j | 0 <= j < 8 ensures !LinkAt(s, j) {
      if j + |LinkPrefix| <= |s| {
        assert s[j..j + |LinkPrefix|][0] == s[j] && s[j..j + |LinkPrefix|][1] == s[j + 1];
        if j == 3 {
          assert s[4] == s[..8][4];
        } else {
          assert s[j] == s[..8][j];
        }
      }
    }
  }

  /** The digit run of `d + rest` is `d` when `rest` does not start with a digit. */
  lemma {:induction false} DigitPrefixAppend(d: string, rest: string)
    requires AllDigits(d)
    requires rest == "" || !IsDigit(rest[0])
    ensures DigitPrefix(d + rest) == d
  {
    if |d| > 0 {
      assert (d + rest)[1..] == d[1..] + rest;
      DigitPrefixAppend(d[1..], rest);
      assert [d[0]] + d[1..] == d;
    } else {
      assert d + rest == rest;
    }
  }

  /** Only a named, parsed export is stored, and under the id it was fetched with. */
  lemma ImportStoresUnderItsId(id: string, fetch: Fetch, upserted: Option<string>, e: Effect)
    requires e in ImportEffects(id, fetch, upserted) && e.UpsertPlayer?
    ensures fetch.Answered? && upserted.Some?
    ensures Pathbuilder.Parse(fetch.doc, id) == Some(e.parsed)
    ensures e.parsed.pathbuilderId == id && e.parsed.name != ""
  {
    assert fetch.Answered?;
    assert e in StoreEffects(Pathbuilder.Parse(fetch.doc, id), upserted);
  }

  /**
   * The card of an imported player comes with the action keyboard exactly
   * when the row is stored, and its buttons view and delete the stored row.
   */
  lemma StoredPlayerGetsButtons(id: string, fetch: Fetch, upserted: Option<string>)
    ensures (exists e :: e in ImportEffects(id, fetch, upserted) && e.ReplyWithButtons?)
            <==> fetch.Answered? && Pathbuilder.Parse(fetch.doc, id).Some?
                 && Pathbuilder.Parse(fetch.doc, id).value.name != "" && upserted.Some?
    ensures forall e :: e in ImportEffects(id, fetch, upserted) && e.ReplyWithButtons? ==>
              fetch.Answered? && Pathbuilder.Parse(fetch.doc, id).Some? && upserted.Some?
              && e.text == ImportedCard(Pathbuilder.Parse(fetch.doc, id).value)
              && e.buttons == Actions.ActionButtons("player", upserted.value)
              && (IsDotRun(upserted.value) ==>
                    Actions.DecodeAction(e.buttons[0][0].data) == Some(Actions.Action("player", "webapp", upserted.value))
                    && Actions.DecodeAction(e.buttons[0][1].data) == Some(Actions.Action("player", "delete", upserted.value)))
  {
    hide Pathbuilder.Parse, Actions.DecodeAction, Actions.ActionButtons;
    var effects := ImportEffects(id, fetch, upserted);
    if fetch.Answered? {
      var parsed := Pathbuilder.Parse(fetch.doc, id);
      assert effects == [Reply(Importing), FetchExport(id)] + StoreEffects(parsed, upserted);
      hide ImportEffects;
      if parsed.Some? && parsed.value.name != "" && upserted.Some? {
        var r := ReplyWithButtons(ImportedCard(parsed.value), Actions.ActionButtons("player", upserted.value));
        assert effects == [Reply(Importing), FetchExport(id), UpsertPlayer(parsed.value), r];
        assert r in effects;
        assert forall e :: e in effects && e.ReplyWithButtons? ==> e == r;
        if IsDotRun(upserted.value) {
          Actions.ActionButtonsDecode("player", upserted.value);
        }
      } else {
        assert |effects| == 3 && !effects[2].ReplyWithButtons?;
      }
    } else {
      assert effects == [Reply(Importing), FetchExport(id), Reply(Key("addplayer_error"))];
    }
  }

  /** Input that names no id is answered with `addplayer_invalid_link` and nothing is fetched. */
  lemma InvalidLinkFetchesNothing(input: string, fetch: Fetch, upserted: Option<string>)
    requires ExtractPathbuilderId(input).None?
    ensures ExecuteEffects(input, fetch, upserted) == [Reply(Key("addplayer_invalid_link"))]
  {
  }
}
