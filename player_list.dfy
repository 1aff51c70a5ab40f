/**
 * The players' entry of the list table
 * (src/handlers/pagination/lists/listplayers.ts): which query a page of the
 * list needs, the window of the candidates a page shows, and the list item
 * each player becomes. The database itself is outside: its answers to the
 * queries built here are parameters, `None` when the query raises.
 */
module PlayerList {
  import opened Wrappers
  import opened Js
  import opened Players
  import opened InteractiveList

  /**
   * The value in the class slot of `getItems`: the `--class` text of
   * `/listplayers`, or the `searchTags` array the pagination refetch passes
   * in that position.
   */
  datatype FilterValue = Text(s: string) | Tags(tags: seq<string>)

  /** JavaScript truthiness of an optional slot: an empty string is false, an array (even empty) is true. */
  predicate TruthyValue(v: Option<FilterValue>)
  {
    v.Some? && (v.value.Tags? || v.value.s != "")
  }

  predicate TruthyText(v: Option<string>) { v.Some? && v.value != "" }

  predicate TruthyNumber(v: Option<int>) { v.Some? && v.value != 0 }

  /** The four optional filters of `getItems`. */
  datatype Filters = Filters(
    classFilter: Option<FilterValue>,
    ancestryFilter: Option<string>,
    levelFilter: Option<int>,
    statusFilter: Option<string>)

  const NoFilters := Filters(None, None, None, None)

  /** `!classFilter && !ancestryFilter && !levelFilter && !statusFilter`. */
  predicate Unfiltered(f: Filters)
  {
    !TruthyValue(f.classFilter) && !TruthyText(f.ancestryFilter)
    && !TruthyNumber(f.levelFilter) && !TruthyText(f.statusFilter)
  }

  /** The `where` clause of the filtered listing: each condition is there only for a truthy filter. */
  datatype Where = Where(
    userId: string,
    classContains: Option<FilterValue>,   // `class: { contains, mode: 'insensitive' }`
    ancestryContains: Option<string>,     // `ancestry: { contains, mode: 'insensitive' }`
    level: Option<int>,
    status: Option<string>)

  /** The query a page needs: the user's players skipped and taken, or every candidate of a `where`. */
  datatype Query =
    | Standard(userId: string, skip: Number, take: nat)
    | Filtered(where: Where)

  /** `page * pageSize` on JavaScript numbers. */
  function Times(n: Number, k: int): (r: Number)
    ensures r.Int? <==> n.Int?
    ensures n.Int? ==> r.i == n.i * k
  {
    if n.Int? then Int(n.i * k) else NaN
  }

  function WhereFor(userId: string, f: Filters): Where
  {
    Where(userId,
          if TruthyValue(f.classFilter) then f.classFilter else None,
          if TruthyText(f.ancestryFilter) then f.ancestryFilter else None,
          if TruthyNumber(f.levelFilter) then f.levelFilter else None,
          if TruthyText(f.statusFilter) then f.statusFilter else None)
  }

  /** The query `getItems` sends: the standard listing exactly when no filter is truthy. */
  function QueryFor(userId: string, page: Number, pageSize: nat, f: Filters): (q: Query)
    ensures q.Standard? <==> Unfiltered(f)
    ensures q.Standard? ==> q == Standard(userId, Times(page, pageSize), pageSize)
    ensures q.Filtered? ==>
      q.where.userId == userId
      && (q.where.classContains.Some? <==> TruthyValue(f.classFilter))
      && (q.where.ancestryContains.Some? <==> TruthyText(f.ancestryFilter))
      && (q.where.level.Some? <==> TruthyNumber(f.levelFilter))
      && (q.where.status.Some? <==> TruthyText(f.statusFilter))
      && (q.where.classContains.Some? ==> q.where.classContains == f.classFilter)
      && (q.where.ancestryContains.Some? ==> q.where.ancestryContains == f.ancestryFilter)
      && (q.where.level.Some? ==> q.where.level == f.levelFilter)
      && (q.where.status.Some? ==> q.where.status == f.statusFilter)
  {
    if Unfiltered(f) then Standard(userId, Times(page, pageSize), pageSize)
    else Filtered(WhereFor(userId, f))
  }

  /**
   * `candidatePlayers.slice(page * pageSize, (page + 1) * pageSize)`; a NaN
   * page makes both bounds NaN, which `slice` reads as 0.
   */
  function Window<T>(candidates: seq<T>, page: Number, pageSize: nat): seq<T>
  {
    if page.NaN? then [] else Slice(candidates, page.i * pageSize, (page.i + 1) * pageSize)
  }

  function MinNat(a: nat, b: nat): nat { if a <= b then a else b }

  /** From a page that is not negative, the window is the run of candidates from `page * pageSize`, at most `pageSize` long. */
  lemma WindowOfPage<T>(candidates: seq<T>, page: nat, pageSize: nat)
    ensures var lo, hi := MinNat(page * pageSize, |candidates|), MinNat((page + 1) * pageSize, |candidates|);
      lo <= hi && Window(candidates, Int(page), pageSize) == candidates[lo..hi]
    ensures |Window(candidates, Int(page), pageSize)| <= pageSize
  {
    assert (page + 1) * pageSize == page * pageSize + pageSize;
  }

  /**
   * The windows of consecutive pages tile the candidates: candidate `j` is
   * at position `j % pageSize` of page `j / pageSize`, and that page is one
   * of the `ceil(count / pageSize)` pages the keyboard counts.
   */
  lemma CandidateOnItsPage<T>(candidates: seq<T>, pageSize: nat, j: nat)
    requires pageSize > 0 && j < |candidates|
    ensures j / pageSize < TotalPages(|candidates|, pageSize)
    ensures var w := Window(candidates, Int(j / pageSize), pageSize);
      j % pageSize < |w| && w[j % pageSize] == candidates[j]
  {
    PageOfIndex(|candidates|, pageSize, j);
    DivMod(j, pageSize);
    hide TotalPages, Window;
    WindowAt(candidates, j / pageSize, pageSize, j % pageSize);
  }

  lemma DivMod(j: nat, k: nat)
    requires k > 0
    ensures j == (j / k) * k + j % k && 0 <= j % k < k && j / k >= 0
  {
  }

  /** Position `r` of the window of page `p` is candidate `p * pageSize + r`. */
  lemma WindowAt<T>(candidates: seq<T>, p: nat, pageSize: nat, r: nat)
    requires r < pageSize && p * pageSize + r < |candidates|
    ensures r < |Window(candidates, Int(p), pageSize)|
    ensures Window(candidates, Int(p), pageSize)[r] == candidates[p * pageSize + r]
  {
    WindowOfPage(candidates, p, pageSize);
    assert (p + 1) * pageSize == p * pageSize + pageSize;
  }

  /** The page of an index below the count is one of the counted pages. */
  lemma PageOfIndex(count: nat, pageSize: nat, j: nat)
    requires pageSize > 0 && j < count
    ensures j / pageSize < TotalPages(count, pageSize)
  {
    var p := j / pageSize;
    var pages := TotalPages(count, pageSize);
    assert p * pageSize <= j;
    if pages <= p {
      MulMonotone(pages, p, pageSize);
    }
  }

  lemma MulMonotone(a: nat, b: nat, k: nat)
    requires a <= b
    ensures a * k <= b * k
  {
    assert b * k == a * k + (b - a) * k;
  }

  /** The first two auto tags (`autoTags.slice(0, 2)`). */
  function TopTags(p: Player): (tags: seq<string>)
    ensures |tags| == MinNat(2, |p.autoTags|)
    ensures tags == p.autoTags[..|tags|]
  {
    if |p.autoTags| <= 2 then p.autoTags else p.autoTags[..2]
  }

  /** The status is shown when it is present and not `active`. */
  predicate ShowsStatus(p: Player)
  {
    p.status.Some? && p.status.value != "" && p.status.value != "active"
  }

  /** `parts.join(sep)` with a separator of any length. */
  function JoinWith(parts: seq<string>, sep: string): string
  {
    if parts == [] then "" else if |parts| == 1 then parts[0] else parts[0] + sep + JoinWith(parts[1..], sep)
  }

  /** `formatPlayerListItem`. */
  function FormatPlayerListItem(p: Player): (item: ListItem)
    ensures item.kind == "player" && item.callbackId == p.id
    ensures var head := p.name + " • " + p.className + " • Lv." + IntToString(p.level);
      var statusPart := if ShowsStatus(p) then " • " + p.status.value else "";
      var tagsPart := if TopTags(p) != [] then " • " + JoinWith(TopTags(p), ", ") else "";
      item.title == head + statusPart + tagsPart
      && (statusPart != "" <==> ShowsStatus(p))
      && (tagsPart != "" <==> p.autoTags != [])
  {
    var info := p.className + " • Lv." + IntToString(p.level);
    var info' := if ShowsStatus(p) then info + " • " + p.status.value else info;
    var info'' := if |TopTags(p)| > 0 then info' + " • " + JoinWith(TopTags(p), ", ") else info';
    ListItem(p.name + " • " + info'', "player", p.id)
  }

  /** A page of the list: its items and the count `ceil` works from. */
  datatype Listing = Listing(items: seq<ListItem>, totalCount: nat)

  /** What the database answers: the rows of the query, and for the standard listing the count of the user's players. */
  datatype Answer = Answer(rows: Option<seq<Player>>, count: Option<nat>)

  function FormatAll(players: seq<Player>): (items: seq<ListItem>)
    ensures |items| == |players|
    ensures forall i :: 0 <= i < |players| ==> items[i] == FormatPlayerListItem(players[i])
  {
    seq(|players|, i requires 0 <= i < |players| => FormatPlayerListItem(players[i]))
  }

  /**
   * `listplayers.getItems`: the standard listing's rows and count as the
   * database gives them, or the window of the filtered candidates with the
   * number of candidates as the count. `None` when a query raises.
   */
  function GetItems(userId: string, page: Number, pageSize: nat, f: Filters, answer: Answer): (r: Option<Listing>)
    ensures Unfiltered(f) ==>
      (r.Some? <==> answer.rows.Some? && answer.count.Some?)
      && (r.Some? ==> r.value == Listing(FormatAll(answer.rows.value), answer.count.value))
    ensures !Unfiltered(f) ==>
      (r.Some? <==> answer.rows.Some?)
      && (r.Some? ==> r.value == Listing(FormatAll(Window(answer.rows.value, page, pageSize)), |answer.rows.value|))
  {
    match QueryFor(userId, page, pageSize, f)
    case Standard(_, _, _) =>
      if answer.rows.Some? && answer.count.Some? then Some(Listing(FormatAll(answer.rows.value), answer.count.value))
      else None
    case Filtered(_) =>
      if answer.rows.Some? then
        var candidates := answer.rows.value;
        Some(Listing(FormatAll(Window(candidates, page, pageSize)), |candidates|))
      else None
  }

  /** `getItemDetails`: the player's card and the player, or the not-found text and no item. */
  datatype Details = Details(formatted: DetailsText, item: Option<Player>)
  datatype DetailsText = PlayerNotFound | PlayerCard(player: Player)

  function GetItemDetails(found: Option<Player>): (d: Details)
    ensures d.item == found
    ensures found.None? <==> d.formatted == PlayerNotFound
    ensures found.Some? ==> d.formatted == PlayerCard(found.value)
  {
    if found.None? then Details(PlayerNotFound, None) else Details(PlayerCard(found.value), found)
  }
}
