/**
 * The keyboard of a paged list (src/helpers/interactiveList.ts): one row
 * per item, then a navigation row with a previous button, a page indicator
 * and a next button, each present only when it makes sense.
 */
module InteractiveList {
  import opened Js
  import opened CommandHelpers

  /** `InteractiveListItem`: what a list module makes of one entity. */
  datatype ListItem = ListItem(title: string, kind: string, callbackId: string)

  /** `getIconForType`. */
  function Icon(kind: string): (icon: string)
    ensures kind == "player" ==> icon == "🎭"
    ensures kind != "player" ==> icon == "📋"
  {
    if kind == "player" then "🎭" else "📋"
  }

  /** `${baseCallback}_item_${callbackId}`. */
  function ItemCallback(base: string, id: string): string
  {
    base + "_item_" + id
  }

  /** `${baseCallback}_page_${page}`. */
  function PageCallback(base: string, page: int): string
  {
    base + "_page_" + IntToString(page)
  }

  function ItemButton(base: string, item: ListItem): Button
  {
    Button(Icon(item.kind) + " " + item.title, ItemCallback(base, item.callbackId))
  }

  /** `Math.ceil(totalCount / pageSize)`. */
  function TotalPages(totalCount: nat, pageSize: int): (pages: nat)
    requires pageSize > 0
    ensures pages * pageSize >= totalCount
    ensures pages > 0 ==> (pages - 1) * pageSize < totalCount
  {
    (totalCount + pageSize - 1) / pageSize
  }

  /** The labels of the two arrows: `t('previous')` and `t('next')`, or `Previous` and `Next` without `t`. */
  datatype NavTexts = NavTexts(previous: string, next: string)

  function PrevButton(texts: NavTexts, base: string, page: int): Button
  {
    Button("⬅️ " + texts.previous, PageCallback(base, page - 1))
  }

  /** The page indicator: `page+1/totalPages (totalCount total)`, sending the current page. */
  function IndicatorButton(base: string, page: int, totalPages: nat, totalCount: nat): Button
  {
    Button("📄 " + IntToString(page + 1) + "/" + NatToString(totalPages) + " (" + NatToString(totalCount) + " total)",
           PageCallback(base, page))
  }

  function NextButton(texts: NavTexts, base: string, page: int): Button
  {
    Button(texts.next + " ➡️", PageCallback(base, page + 1))
  }

  /** The navigation row for `page` (from 0) of `totalPages`. */
  function NavRow(texts: NavTexts, base: string, page: int, totalPages: nat, totalCount: nat): seq<Button>
  {
    (if page > 0 then [PrevButton(texts, base, page)] else [])
    + (if totalPages > 1 then [IndicatorButton(base, page, totalPages, totalCount)] else [])
    + (if page < totalPages as int - 1 then [NextButton(texts, base, page)] else [])
  }

  /** The keyboard `generateInteractiveListMarkup` returns. */
  function Markup(texts: NavTexts, items: seq<ListItem>, page: int, base: string, pageSize: int, totalCount: nat): Keyboard
    requires pageSize > 0
  {
    var nav := NavRow(texts, base, page, TotalPages(totalCount, pageSize), totalCount);
    seq(|items|, i requires 0 <= i < |items| => [ItemButton(base, items[i])]) + (if |nav| > 0 then [nav] else [])
  }

  /** `generateInteractiveListMarkup`: the item rows in order, then the navigation row if it has a button. */
  method GenerateInteractiveListMarkup(texts: NavTexts, items: seq<ListItem>, page: int, base: string, pageSize: int, totalCount: nat)
    returns (buttons: Keyboard)
    requires pageSize > 0
    ensures buttons == Markup(texts, items, page, base, pageSize, totalCount)
  {
    buttons := [];
    for i := 0 to |items|
      invariant buttons == seq(i, j requires 0 <= j < i => [ItemButton(base, items[j])])
    {
      buttons := buttons + [[ItemButton(base, items[i])]];
    }
    ghost var itemRows := buttons;
    var totalPages := TotalPages(totalCount, pageSize);
    var navRow: seq<Button> := [];
    if page > 0 {
      navRow := navRow + [PrevButton(texts, base, page)];
    }
    if totalPages > 1 {
      navRow := navRow + [IndicatorButton(base, page, totalPages, totalCount)];
    }
    if page < totalPages as int - 1 {
      navRow := navRow + [NextButton(texts, base, page)];
    }
    if |navRow| > 0 {
      buttons := buttons + [navRow];
    }
    assert navRow == NavRow(texts, base, page, totalPages, totalCount);
    assert itemRows == seq(|items|, i requires 0 <= i < |items| => [ItemButton(base, items[i])]);
  }

  /** One row per item, in order, each sending `${base}_item_${id}`; the navigation row comes last, when it is not empty. */
  lemma MarkupRows(texts: NavTexts, items: seq<ListItem>, page: int, base: string, pageSize: int, totalCount: nat)
    requires pageSize > 0
    ensures var k := Markup(texts, items, page, base, pageSize, totalCount);
      var nav := NavRow(texts, base, page, TotalPages(totalCount, pageSize), totalCount);
      |k| == |items| + (if |nav| > 0 then 1 else 0)
      && (forall i :: 0 <= i < |items| ==> |k[i]| == 1 && k[i][0].data == ItemCallback(base, items[i].callbackId))
      && (|nav| > 0 ==> k[|items|] == nav)
  {
  }

  /** Page callbacks for different pages differ: `String(page)` is one-to-one. */
  lemma PageCallbackInjective(base: string, p: int, q: int)
    ensures PageCallback(base, p) == PageCallback(base, q) <==> p == q
  {
    if PageCallback(base, p) == PageCallback(base, q) {
      var n := |base| + |"_page_"|;
      assert PageCallback(base, p)[n..] == IntToString(p);
      assert PageCallback(base, q)[n..] == IntToString(q);
      ParseIntOfIntToString(p);
      ParseIntOfIntToString(q);
    }
  }

  /** The navigation row holds exactly the buttons whose condition holds. */
  lemma NavRowMembers(texts: NavTexts, base: string, page: int, totalPages: nat, totalCount: nat, b: Button)
    ensures b in NavRow(texts, base, page, totalPages, totalCount) <==>
      (page > 0 && b == PrevButton(texts, base, page))
      || (totalPages > 1 && b == IndicatorButton(base, page, totalPages, totalCount))
      || (page < totalPages as int - 1 && b == NextButton(texts, base, page))
  {
    hide PrevButton, IndicatorButton, NextButton;
  }

  /**
   * Previous appears iff the page is not the first, the indicator iff
   * there is more than one page, and next iff the page is not the last.
   */
  lemma NavButtons(texts: NavTexts, base: string, page: int, totalPages: nat, totalCount: nat)
    ensures var nav := NavRow(texts, base, page, totalPages, totalCount);
      (PrevButton(texts, base, page) in nav <==> page > 0)
      && (IndicatorButton(base, page, totalPages, totalCount) in nav <==> totalPages > 1)
      && (NextButton(texts, base, page) in nav <==> page < totalPages as int - 1)
  {
    var prev, ind, next := PrevButton(texts, base, page), IndicatorButton(base, page, totalPages, totalCount), NextButton(texts, base, page);
    PageCallbackInjective(base, page - 1, page);
    PageCallbackInjective(base, page, page + 1);
    PageCallbackInjective(base, page - 1, page + 1);
    assert prev != ind && ind != next && prev != next by {
      assert prev.data == PageCallback(base, page - 1) && ind.data == PageCallback(base, page)
        && next.data == PageCallback(base, page + 1);
    }
    NavRowMembers(texts, base, page, totalPages, totalCount, prev);
    NavRowMembers(texts, base, page, totalPages, totalCount, ind);
    NavRowMembers(texts, base, page, totalPages, totalCount, next);
    hide NavRow, PrevButton, IndicatorButton, NextButton;
  }

  /** From a page in range, every navigation button sends a page in range. */
  lemma NavTargetsInRange(texts: NavTexts, base: string, page: int, totalPages: nat, totalCount: nat)
    requires 0 <= page < totalPages
    ensures forall b :: b in NavRow(texts, base, page, totalPages, totalCount) ==>
      exists p :: 0 <= p < totalPages && b.data == PageCallback(base, p)
  {
    forall b | b in NavRow(texts, base, page, totalPages, totalCount)
      ensures exists p :: 0 <= p < totalPages && b.data == PageCallback(base, p)
    {
      NavRowMembers(texts, base, page, totalPages, totalCount, b);
      if page > 0 && b == PrevButton(texts, base, page) {
        assert b.data == PageCallback(base, page - 1);
      } else if totalPages > 1 && b == IndicatorButton(base, page, totalPages, totalCount) {
        assert b.data == PageCallback(base, page);
      } else {
        assert b.data == PageCallback(base, page + 1);
      }
    }
  }
}
