/**
 * `paginationHandler` (src/handlers/pagination/paginationHandler.ts): the
 * `_page_` and `_item_` buttons of a list keyboard. The callback data is
 * split into the list's name, the action and its value; a page is fetched
 * again and redrawn, an item is shown with its action buttons.
 *
 * Only the players' list is modelled through: for the other names of the
 * list table the fetch belongs to their own list module, and the outcome
 * only records which list was asked for what.
 */
module Pagination {
  import opened Wrappers
  import opened Js
  import opened Json
  import opened Players
  import opened Sessions
  import opened BotContext
  import opened CommandHelpers
  import opened InteractiveList
  import opened PlayerList
  import opened Actions
  import ListPlayers

  // ---------------------------------------------------------------------
  // The callback data

  datatype ListAction = ShowPage | ShowItem

  /** The three groups of `^([a-z]+?)_(page|item)_(.+)$`. */
  datatype ListCallback = ListCallback(base: string, action: ListAction, value: string)

  function ActionWord(a: ListAction): string
  {
    if a == ShowPage then "page" else "item"
  }

  function Encode(c: ListCallback): string
  {
    c.base + "_" + ActionWord(c.action) + "_" + c.value
  }

  /** What the pattern can capture: a lower-case name and a value on one line. */
  predicate Capturable(c: ListCallback)
  {
    c.base != [] && AllLowerLetters(c.base) && IsDotRun(c.value)
  }

  /**
   * `data.match(/^([a-z]+?)_(page|item)_(.+)$/)`. However lazy, the name
   * cannot stop inside its run of letters, because a `_` must follow it;
   * so the match, when there is one, is the only split of the data.
   */
  function DecodeListCallback(d: string): (r: Option<ListCallback>)
    ensures r.Some? ==> Capturable(r.value) && d == Encode(r.value)
  {
    var n := LowerRun(d);
    if n == 0 || |d| < n + 6 then None
    else
      var word, value := d[n..n + 6], d[n + 6..];
      if (word != "_page_" && word != "_item_") || !IsDotRun(value) then None
      else
        var c := ListCallback(d[..n], if word == "_page_" then ShowPage else ShowItem, value);
        assert d == d[..n] + word + value;
        Some(c)
  }

  /** Every capturable triple is matched by the pattern and read back unchanged. */
  lemma DecodeEncode(c: ListCallback)
    requires Capturable(c)
    ensures DecodeListCallback(Encode(c)) == Some(c)
  {
    var d := Encode(c);
    var word := "_" + ActionWord(c.action) + "_";
    var tail := word + c.value;
    assert d == c.base + tail;
    LowerRunOf(c.base, tail);
    hide LowerRun, AllLowerLetters, IsDotRun, Encode;
    var n := |c.base|;
    assert d[..n] == c.base;
    assert d[n..n + 6] == word;
    assert d[n + 6..] == c.value;
    if c.action == ShowItem {
      assert word[1] == 'i' && word != "_page_";
    }
  }

  /** A page number written by `String` is a single line. */
  lemma IntToStringIsDotRun(p: int)
    ensures IsDotRun(IntToString(p))
  {
    var s := IntToString(p);
    var digits := NatToString(if p < 0 then -p else p);
    forall i | 0 <= i < |s|
      ensures !IsLineTerminator(s[i])
    {
      if p < 0 && i > 0 {
        assert s[i] == digits[i - 1];
      }
    }
  }

  /** An item button of the list keyboard decodes to its list, `item`, and the item's id. */
  lemma ItemCallbackDecodes(base: string, id: string)
    requires base != [] && AllLowerLetters(base) && IsDotRun(id)
    ensures DecodeListCallback(ItemCallback(base, id)) == Some(ListCallback(base, ShowItem, id))
  {
    assert ItemCallback(base, id) == Encode(ListCallback(base, ShowItem, id));
    DecodeEncode(ListCallback(base, ShowItem, id));
  }

  /** A page button of the list keyboard decodes to its list, `page`, and a value `parseInt` reads as the page. */
  lemma PageCallbackDecodes(base: string, page: int)
    requires base != [] && AllLowerLetters(base)
    ensures DecodeListCallback(PageCallback(base, page)) == Some(ListCallback(base, ShowPage, IntToString(page)))
    ensures ParseInt(IntToString(page)) == Some(page)
  {
    IntToStringIsDotRun(page);
    assert PageCallback(base, page) == Encode(ListCallback(base, ShowPage, IntToString(page)));
    hide IntToString, DecodeListCallback, Encode, IsDotRun, AllLowerLetters;
    DecodeEncode(ListCallback(base, ShowPage, IntToString(page)));
    ParseIntOfIntToString(page);
  }

  // ---------------------------------------------------------------------
  // The handler

  /** The page size the list keyboard counts pages with when none is given. */
  const DefaultPageSize := 6
  /** The page size `handlePageAction` fetches. */
  const RefetchPageSize := 8

  /** The database's answers: to the players' query, and to `findUnique` of the item's id. */
  datatype ListDb = ListDb(players: Answer, found: Option<Player>)

  /** How `paginationHandler` ends. */
  datatype PageOutcome =
    | NoData                                              // no `data` in the callback query: returns undefined
    | NotMatched                                          // the pattern fails or names no list: returns false
    | EmptyList(tags: Option<seq<string>>)                // the empty text (with the tags, if any) edited in: returns false
    | PageShown(keyboard: Keyboard)                       // the page edited in: returns true
    | PageShownAtNaN(items: seq<ListItem>, totalCount: nat)  // as above, for a page that is not a number
    | ItemShown(details: DetailsText, keyboard: Keyboard) // the item's card with its action buttons: returns true
    | Raised                                              // a query raised, or `item.name` of a missing item
    | OtherList(callback: ListCallback)                   // another list's fetch, outside this model

  /** `handlePageAction` for the players' list, from the session whose `page` is already stored. */
  function PageAction(s: Session, page: Number, userId: string, texts: NavTexts, db: ListDb, fetchSize: nat, markupSize: nat): (o: PageOutcome)
    requires markupSize > 0
  {
    var tags := s.searchTags;
    var f := Filters(if tags.Some? then Some(Tags(tags.value)) else None, None, None, None);
    var listing := GetItems(userId, page, fetchSize, f, db.players);
    if listing.None? then Raised
    else if listing.value.totalCount == 0 then EmptyList(if tags.Some? && |tags.value| > 0 then tags else None)
    else if page.NaN? then PageShownAtNaN(listing.value.items, listing.value.totalCount)
    else PageShown(Markup(texts, listing.value.items, page.i, "listplayers", markupSize, listing.value.totalCount))
  }

  /** The item action for the players' list: `item.name` of a missing player raises. */
  function ItemAction(db: ListDb): PageOutcome
  {
    var details := GetItemDetails(db.found);
    if details.item.None? then Raised
    else ItemShown(details.formatted, ActionButtons("player", details.item.value.id))
  }

  /** `state ??= {}` and `page ??= 0`. */
  function Defaulted(s: Session): Session
  {
    s.(state := if s.state.Some? then s.state else Some(JObj([])),
       page := if s.page.Some? then s.page else Some(Int(0)))
  }

  /**
   * `paginationHandler` fetching pages of `fetchSize` and with the keyboard
   * counting pages of `markupSize`: the new session and the outcome.
   */
  function PaginateWith(s: Session, data: Option<string>, userId: string, texts: NavTexts, db: ListDb, fetchSize: nat, markupSize: nat): (r: (Session, PageOutcome))
    requires markupSize > 0
  {
    if data.None? then (s, NoData)
    else
      var s1 := Defaulted(s);
      var c := DecodeListCallback(data.value);
      if c.None? || !Listed(c.value.base, ListHandlers) then (s1, NotMatched)
      else if c.value.base != "listplayers" then (s1, OtherList(c.value))
      else if c.value.action == ShowPage then
        var page := FromParse(ParseInt(c.value.value));
        var s2 := s1.(page := Some(page));
        (s2, PageAction(s2, page, userId, texts, db, fetchSize, markupSize))
      else (s1, ItemAction(db))
  }

  /** `paginationHandler` as written: pages fetched by 8, counted by the keyboard's default of 6. */
  function Paginate(s: Session, data: Option<string>, userId: string, texts: NavTexts, db: ListDb): (r: (Session, PageOutcome))
  {
    PaginateWith(s, data, userId, texts, db, RefetchPageSize, DefaultPageSize)
  }

  /** `paginationHandler`, changing `ctx.session` in place. */
  method PaginationHandler(ctx: Ctx, texts: NavTexts, db: ListDb) returns (outcome: PageOutcome)
    requires ctx.session.Some? && ctx.user.Some?
    modifies ctx`session
    ensures var r := Paginate(old(ctx.session).value, ctx.update.CallbackData(), ctx.user.value, texts, db);
      ctx.session == Some(r.0) && outcome == r.1
  {
    var data := ctx.update.CallbackData();
    if data.None? {
      return NoData;
    }
    var s := ctx.session.value;
    if s.state.None? {
      s := s.(state := Some(JObj([])));
    }
    if s.page.None? {
      s := s.(page := Some(Int(0)));
    }
    ctx.session := Some(s);
    var c := DecodeListCallback(data.value);
    if c.None? || !Listed(c.value.base, ListHandlers) {
      return NotMatched;
    }
    if c.value.base != "listplayers" {
      return OtherList(c.value);
    }
    if c.value.action == ShowPage {
      var page := FromParse(ParseInt(c.value.value));
      ctx.session := Some(ctx.session.value.(page := Some(page)));
      outcome := PageAction(ctx.session.value, page, ctx.user.value, texts, db, RefetchPageSize, DefaultPageSize);
      return;
    }
    outcome := ItemAction(db);
  }

  // ---------------------------------------------------------------------
  // Properties

  /**
   * The session: nothing changes without callback data; otherwise `state`
   * and `page` are defaulted only when absent, a page action then stores
   * the parsed page, and no other field changes.
   */
  lemma SessionBookkeeping(s: Session, data: Option<string>, userId: string, texts: NavTexts, db: ListDb)
    ensures var r := Paginate(s, data, userId, texts, db).0;
      (data.None? ==> r == s)
      && (data.Some? ==>
            r.state == (if s.state.Some? then s.state else Some(JObj([])))
            && r == s.(state := r.state, page := r.page)
            && (var c := DecodeListCallback(data.value);
                if c.Some? && c.value.base == "listplayers" && c.value.action == ShowPage
                then r.page == Some(FromParse(ParseInt(c.value.value)))
                else r.page == (if s.page.Some? then s.page else Some(Int(0)))))
  {
  }

  /** What the handler returns: false for no match and for an empty list, true for a page or an item shown. */
  lemma EmptyListReturnsFalse(s: Session, d: string, userId: string, texts: NavTexts, db: ListDb)
    requires Paginate(s, Some(d), userId, texts, db).1.EmptyList?
    ensures var c := DecodeListCallback(d);
      c.Some? && c.value == ListCallback("listplayers", ShowPage, c.value.value)
    ensures var r := Paginate(s, Some(d), userId, texts, db).0;
      var f := Filters(if r.searchTags.Some? then Some(Tags(r.searchTags.value)) else None, None, None, None);
      var listing := GetItems(userId, r.page.value, RefetchPageSize, f, db.players);
      listing.Some? && listing.value.totalCount == 0
  {
  }

  /** A name of the list table other than `listplayers` is handed to its own list; names outside the table return false. */
  lemma UnknownListNotMatched(s: Session, d: string, userId: string, texts: NavTexts, db: ListDb)
    requires DecodeListCallback(d).Some? && !(DecodeListCallback(d).value.base in ListHandlers)
    ensures Paginate(s, Some(d), userId, texts, db).1 == NotMatched
  {
    ListedIsIn(DecodeListCallback(d).value.base, ListHandlers);
  }

  /** The players' item button shows the player's card with the player's two action buttons, or raises when the player is gone. */
  lemma ItemButtonShowsPlayer(s: Session, id: string, userId: string, texts: NavTexts, db: ListDb)
    requires IsDotRun(id)
    ensures var o := Paginate(s, Some(ItemCallback("listplayers", id)), userId, texts, db).1;
      (db.found.None? ==> o == Raised)
      && (db.found.Some? ==> o == ItemShown(DetailsText.PlayerCard(db.found.value), ActionButtons("player", db.found.value.id)))
  {
    ItemCallbackDecodes("listplayers", id);
    assert AllLowerLetters("listplayers");
    ListedIsIn("listplayers", ListHandlers);
  }

  // ---------------------------------------------------------------------
  // Pages counted by 6 but fetched by 8

  /** The database answering the standard query of `page` (skip `page * size`, take `size`) over the user's `owned` players, in order. */
  function StandardAnswer(owned: seq<Player>, page: nat, size: nat): Answer
  {
    Answer(Some(Window(owned, Int(page), size)), Some(|owned|))
  }

  /** A session without search tags, so the refetch is the standard listing. */
  predicate Untagged(s: Session) { s.searchTags.None? }

  /** A players' page button reaches `handlePageAction` with the page it was drawn for, stored in the session. */
  lemma RoutePlayersPage(s: Session, page: int, userId: string, texts: NavTexts, db: ListDb, fetchSize: nat, markupSize: nat)
    requires markupSize > 0
    ensures var r := PaginateWith(s, Some(PageCallback("listplayers", page)), userId, texts, db, fetchSize, markupSize);
      r.0 == Defaulted(s).(page := Some(Int(page)))
      && r.1 == PageAction(r.0, Int(page), userId, texts, db, fetchSize, markupSize)
  {
    hide PageAction, DecodeListCallback, PageCallback, Defaulted, ParseInt, IntToString, Listed, AllLowerLetters;
    PlayersListName();
    PageCallbackDecodes("listplayers", page);
  }

  /** `listplayers` is a lower-case name of the list table. */
  lemma PlayersListName()
    ensures "listplayers" != [] && AllLowerLetters("listplayers") && Listed("listplayers", ListHandlers)
  {
    ListedIsIn("listplayers", ListHandlers);
  }

  /** From an untagged session, a page of a user with players is shown with the players the database skipped to. */
  lemma StandardPageShown(s: Session, owned: seq<Player>, page: nat, userId: string, texts: NavTexts, found: Option<Player>, fetchSize: nat, markupSize: nat)
    requires Untagged(s) && |owned| > 0 && markupSize > 0
    ensures PageAction(s, Int(page), userId, texts, ListDb(StandardAnswer(owned, page, fetchSize), found), fetchSize, markupSize)
      == PageShown(Markup(texts, FormatAll(Window(owned, Int(page), fetchSize)), page, "listplayers", markupSize, |owned|))
  {
    assert Unfiltered(Filters(None, None, None, None));
    hide Markup, FormatAll, Window;
  }

  /** A players' page in an untagged session, as written: fetched by 8, its keyboard counted by 6. */
  lemma AsWrittenPage(s: Session, owned: seq<Player>, page: nat, userId: string, texts: NavTexts, found: Option<Player>)
    requires Untagged(s) && |owned| > 0
    ensures Paginate(s, Some(PageCallback("listplayers", page)), userId, texts,
                     ListDb(StandardAnswer(owned, page, RefetchPageSize), found)).1
      == PageShown(Markup(texts, FormatAll(Window(owned, Int(page), RefetchPageSize)), page, "listplayers", DefaultPageSize, |owned|))
  {
    RoutePlayersPage(s, page, userId, texts, ListDb(StandardAnswer(owned, page, RefetchPageSize), found), RefetchPageSize, DefaultPageSize);
    StandardPageShown(Defaulted(s).(page := Some(Int(page))), owned, page, userId, texts, found, RefetchPageSize, DefaultPageSize);
  }

  /**
   * As written: with 13 players, page 1 offers a Next button to page 2
   * (13 players make 3 pages of 6), but page 2 is fetched from player 16
   * on and shows no player at all: its keyboard is the navigation row alone.
   */
  lemma RefetchOffersEmptyPage(s: Session, owned: seq<Player>, userId: string, texts: NavTexts, found: Option<Player>)
    requires |owned| == 13 && Untagged(s)
    ensures var o1 := Paginate(s, Some(PageCallback("listplayers", 1)), userId, texts,
                               ListDb(StandardAnswer(owned, 1, RefetchPageSize), found)).1;
      o1.PageShown? && |o1.keyboard| > 0 && NextButton(texts, "listplayers", 1) in o1.keyboard[|o1.keyboard| - 1]
      && NextButton(texts, "listplayers", 1).data == PageCallback("listplayers", 2)
    ensures var o2 := Paginate(s, Some(PageCallback("listplayers", 2)), userId, texts,
                               ListDb(StandardAnswer(owned, 2, RefetchPageSize), found)).1;
      o2 == PageShown([NavRow(texts, "listplayers", 2, 3, 13)])
  {
    AsWrittenPage(s, owned, 1, userId, texts, found);
    AsWrittenPage(s, owned, 2, userId, texts, found);
    assert TotalPages(13, DefaultPageSize) == 3;
    var items1 := FormatAll(Window(owned, Int(1), RefetchPageSize));
    assert Window(owned, Int(2), RefetchPageSize) == [];
    var items2 := FormatAll(Window(owned, Int(2), RefetchPageSize));
    assert items2 == [];
    hide Paginate, PaginateWith, Window, FormatAll;
    MarkupRows(texts, items1, 1, "listplayers", DefaultPageSize, 13);
    NavButtons(texts, "listplayers", 1, 3, 13);
    MarkupRows(texts, items2, 2, "listplayers", DefaultPageSize, 13);
    NavButtons(texts, "listplayers", 2, 3, 13);
    var k2 := Markup(texts, items2, 2, "listplayers", DefaultPageSize, 13);
    assert k2 == [NavRow(texts, "listplayers", 2, 3, 13)];
  }

  /**
   * As written: the first page `/listplayers` shows holds players 0 to 5
   * and offers Next to page 1, which is fetched from player 8 on, so
   * players 6 and 7 are on neither page.
   */
  lemma NextFromFirstPageSkips(s: Session, owned: seq<Player>, userId: string, texts: NavTexts, found: Option<Player>)
    requires Untagged(s) && |owned| > ListPlayers.FirstPageSize
    ensures Window(owned, Int(0), ListPlayers.FirstPageSize) == owned[..6]
    ensures var k0 := Markup(texts, FormatAll(Window(owned, Int(0), ListPlayers.FirstPageSize)), 0, "listplayers",
                             ListPlayers.FirstPageSize, |owned|);
      |k0| > 0 && NextButton(texts, "listplayers", 0) in k0[|k0| - 1]
      && NextButton(texts, "listplayers", 0).data == PageCallback("listplayers", 1)
    ensures Paginate(s, Some(PageCallback("listplayers", 1)), userId, texts,
                     ListDb(StandardAnswer(owned, 1, RefetchPageSize), found)).1
      == PageShown(Markup(texts, FormatAll(owned[MinNat(8, |owned|)..MinNat(16, |owned|)]), 1, "listplayers",
                          DefaultPageSize, |owned|))
  {
    AsWrittenPage(s, owned, 1, userId, texts, found);
    WindowOfPage(owned, 0, ListPlayers.FirstPageSize);
    WindowOfPage(owned, 1, RefetchPageSize);
    var items0 := FormatAll(Window(owned, Int(0), ListPlayers.FirstPageSize));
    var pages := TotalPages(|owned|, ListPlayers.FirstPageSize);
    assert pages > 1;
    hide Paginate, PaginateWith, FormatAll, Window, TotalPages;
    MarkupRows(texts, items0, 0, "listplayers", ListPlayers.FirstPageSize, |owned|);
    NavButtons(texts, "listplayers", 0, pages, |owned|);
  }

  /**
   * Corrected: pages are fetched with the size the keyboard counts them
   * by, which is also the size of the first page `/listplayers` shows.
   */
  function PaginateCorrected(s: Session, data: Option<string>, userId: string, texts: NavTexts, db: ListDb): (r: (Session, PageOutcome))
  {
    PaginateWith(s, data, userId, texts, db, DefaultPageSize, DefaultPageSize)
  }

  /** A page below the page count has at least one candidate. */
  lemma PageInRangeNotEmpty<T>(candidates: seq<T>, page: nat, pageSize: nat)
    requires pageSize > 0 && page < TotalPages(|candidates|, pageSize)
    ensures |Window(candidates, Int(page), pageSize)| > 0
  {
    WindowOfPage(candidates, page, pageSize);
    MulMonotone(page, TotalPages(|candidates|, pageSize) - 1, pageSize);
  }

  /** Corrected: a players' page in an untagged session, fetched and counted by 6. */
  lemma CorrectedPage(s: Session, owned: seq<Player>, page: nat, userId: string, texts: NavTexts, found: Option<Player>)
    requires Untagged(s) && |owned| > 0
    ensures PaginateCorrected(s, Some(PageCallback("listplayers", page)), userId, texts,
                              ListDb(StandardAnswer(owned, page, DefaultPageSize), found)).1
      == PageShown(Markup(texts, FormatAll(Window(owned, Int(page), DefaultPageSize)), page, "listplayers", DefaultPageSize, |owned|))
  {
    RoutePlayersPage(s, page, userId, texts, ListDb(StandardAnswer(owned, page, DefaultPageSize), found), DefaultPageSize, DefaultPageSize);
    StandardPageShown(Defaulted(s).(page := Some(Int(page))), owned, page, userId, texts, found, DefaultPageSize, DefaultPageSize);
  }

  /** From a page in range, every page the navigation row offers is in range and has at least one candidate. */
  lemma OfferedPagesNotEmpty<T>(owned: seq<T>, page: nat, texts: NavTexts, base: string, size: nat)
    requires size > 0 && page < TotalPages(|owned|, size)
    ensures forall b, q: nat :: b in NavRow(texts, base, page, TotalPages(|owned|, size), |owned|)
                                && b.data == PageCallback(base, q) ==>
              q < TotalPages(|owned|, size) && |Window(owned, Int(q), size)| > 0
  {
    var pages := TotalPages(|owned|, size);
    NavTargetsInRange(texts, base, page, pages, |owned|);
    forall b, q: nat | b in NavRow(texts, base, page, pages, |owned|) && b.data == PageCallback(base, q)
      ensures q < pages && |Window(owned, Int(q), size)| > 0
    {
      var p :| 0 <= p < pages && b.data == PageCallback(base, p);
      PageCallbackInjective(base, p, q);
      PageInRangeNotEmpty(owned, q, size);
    }
  }

  /**
   * Corrected: a page in range, fetched by 6 from an untagged session, is
   * shown with its players and counted by 6; every page its navigation row
   * offers is in range, so it too shows at least one player.
   */
  lemma CorrectedPagesNotEmpty(s: Session, owned: seq<Player>, page: nat, userId: string, texts: NavTexts, found: Option<Player>)
    requires Untagged(s) && page < TotalPages(|owned|, DefaultPageSize)
    ensures var o := PaginateCorrected(s, Some(PageCallback("listplayers", page)), userId, texts,
                                       ListDb(StandardAnswer(owned, page, DefaultPageSize), found)).1;
      o == PageShown(Markup(texts, FormatAll(Window(owned, Int(page), DefaultPageSize)), page, "listplayers",
                            DefaultPageSize, |owned|))
    ensures |Window(owned, Int(page), DefaultPageSize)| > 0
    ensures forall b, q: nat :: b in NavRow(texts, "listplayers", page, TotalPages(|owned|, DefaultPageSize), |owned|)
                                && b.data == PageCallback("listplayers", q) ==>
              q < TotalPages(|owned|, DefaultPageSize) && |Window(owned, Int(q), DefaultPageSize)| > 0
  {
    hide PaginateCorrected, PaginateWith, Markup, Window, NavRow, TotalPages, FormatAll, StandardAnswer, PageCallback;
    PageInRangeNotEmpty(owned, page, DefaultPageSize);
    CorrectedPage(s, owned, page, userId, texts, found);
    OfferedPagesNotEmpty(owned, page, texts, "listplayers", DefaultPageSize);
  }

  /** The windows of pages `0` to `n - 1`, one after the other. */
  function PagesUpTo<T>(owned: seq<T>, size: nat, n: nat): seq<T>
  {
    if n == 0 then [] else PagesUpTo(owned, size, n - 1) + Window(owned, Int(n - 1), size)
  }

  lemma {:induction false} PagesUpToPrefix<T>(owned: seq<T>, size: nat, n: nat)
    ensures PagesUpTo(owned, size, n) == owned[..MinNat(n * size, |owned|)]
  {
    if n > 0 {
      var m := n - 1;
      PagesUpToPrefix(owned, size, m);
      WindowOfPage(owned, m, size);
      SuccTimes(m, size);
      var a, b := MinNat(m * size, |owned|), MinNat(n * size, |owned|);
      assert PagesUpTo(owned, size, n) == PagesUpTo(owned, size, m) + Window(owned, Int(m), size);
      hide Window, PagesUpTo;
      assert owned[..a] + owned[a..b] == owned[..b];
    }
  }

  lemma SuccTimes(m: nat, size: nat)
    ensures (m + 1) * size == m * size + size
  {
  }

  /**
   * Corrected: the first page `/listplayers` shows is page 0 of the
   * corrected handler, and the pages the keyboard counts, read in order,
   * hold every player exactly once and in order.
   */
  lemma CorrectedPagesCoverPlayers(owned: seq<Player>)
    ensures ListPlayers.FirstPageSize == DefaultPageSize
    ensures PagesUpTo(owned, DefaultPageSize, TotalPages(|owned|, DefaultPageSize)) == owned
  {
    PagesUpToPrefix(owned, DefaultPageSize, TotalPages(|owned|, DefaultPageSize));
  }
}
