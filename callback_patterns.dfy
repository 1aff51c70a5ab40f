/**
 * The tests `handleCallbackQuery` (src/handlers/handleCallbackQuery.ts)
 * applies to the data of a button press when no context is active, in
 * their order, and which producer's buttons each of them catches.
 */
module CallbackPatterns {
  import opened Js
  import opened CommandHelpers
  import Actions
  import InteractiveList

  const AudioPrefix := "audio_generate_"

  /** The list names of the pagination pattern, in its order. */
  const RouterLists: seq<string> :=
    ["listnpcs", "listplots", "listplaces", "listregions", "listencounters", "listitems", "listnotes", "listplayers"]

  /** `^(name|…)_(page|item)_`, trying the names in turn. */
  predicate ListRouteIn(d: string, names: seq<string>)
  {
    |names| > 0
    && (StartsWith(d, names[0] + "_page_") || StartsWith(d, names[0] + "_item_") || ListRouteIn(d, names[1..]))
  }

  predicate ListRoute(d: string)
  {
    ListRouteIn(d, RouterLists)
  }

  /** The first test the data passes. */
  datatype Pattern = AudioPattern | ActionPattern | ConfirmationPattern | ListPattern | NoPattern

  /** The tests of the data, in the router's order; empty data passes none. */
  function PatternOf(d: string): Pattern
  {
    if d == "" then NoPattern
    else if StartsWith(d, AudioPrefix) then AudioPattern
    else if Actions.ActionRoute(d) then ActionPattern
    else if StartsWith(d, Actions.ConfirmPrefix) || d == Actions.CancelDelete then ConfirmationPattern
    else if ListRoute(d) then ListPattern
    else NoPattern
  }

  /** The first letter of each list name is `l`, and every name is lower-case letters. */
  lemma RouterListsLetters()
    ensures forall b :: b in RouterLists ==> |b| > 0 && b[0] == 'l' && AllLowerLetters(b)
  {
  }

  /** A name of the list followed by a page or item infix makes the pattern match. */
  lemma {:induction false} ListRouteInMember(d: string, name: string, names: seq<string>)
    requires name in names && (StartsWith(d, name + "_page_") || StartsWith(d, name + "_item_"))
    ensures ListRouteIn(d, names)
    decreases |names|
  {
    if names[0] != name {
      ListRouteInMember(d, name, names[1..]);
    }
  }

  /** Data whose sixth character no name shares passes no name of the pattern. */
  lemma {:induction false} NoNameMatches(d: string, names: seq<string>)
    requires |d| >= 6
    requires forall b :: b in names ==> |b| >= 6 && b[5] != d[5]
    ensures !ListRouteIn(d, names)
    decreases |names|
  {
    if |names| > 0 {
      var b := names[0];
      assert b in names;
      NoNameMatches(d, names[1..]);
    }
  }

  /** Data that starts like an audio button has the letter run `audio`, then `_g`. */
  lemma AudioRun(d: string)
    requires StartsWith(d, AudioPrefix)
    ensures LowerRun(d) == 5 && d[5] == '_' && d[6] == 'g'
  {
    assert d[..15] == AudioPrefix;
    assert d[..5] == "audio" && d[5] == '_' && d[6] == 'g' by {
      assert d[..5] == d[..15][..5];
    }
    assert d == "audio" + d[5..];
    LowerRunOf("audio", d[5..]);
  }

  /** No well-formed action data starts like an audio button. */
  lemma ActionNotAudio(a: Actions.Action)
    requires Actions.WellFormed(a)
    ensures var d := Actions.ActionCallback(a.entityType, a.actionName, a.entityId);
      d != "" && !StartsWith(d, AudioPrefix)
  {
    var d := Actions.ActionCallback(a.entityType, a.actionName, a.entityId);
    Actions.ActionCallbackRuns(a);
    hide Actions.ActionRoute, LowerRun, AllLowerLetters, IsDotRun;
    if StartsWith(d, AudioPrefix) {
      AudioRun(d);
      assert false;
    }
  }

  /**
   * The buttons of `actionButtons`, and any well-formed action data, pass
   * the action test first: no model name makes them look like an audio
   * button.
   */
  lemma ActionButtonsMatch(a: Actions.Action)
    requires Actions.WellFormed(a)
    ensures PatternOf(Actions.ActionCallback(a.entityType, a.actionName, a.entityId)) == ActionPattern
  {
    hide ListRoute, ListRouteIn, Actions.ActionRoute, LowerRun, AllLowerLetters, IsDotRun, Actions.ActionCallback, StartsWith;
    Actions.DecodeActionCallback(a);
    ActionNotAudio(a);
  }

  /** The letter run at the head of the delete confirmation. */
  lemma ConfirmRun(entityType: string, entityId: string)
    ensures var d := Actions.ConfirmCallback(entityType, entityId);
      LowerRun(d) == 7 && d[7..] == "_delete_" + entityType + "_" + entityId
  {
    var d := Actions.ConfirmCallback(entityType, entityId);
    var rest := "_delete_" + entityType + "_" + entityId;
    assert d == "confirm" + rest;
    LowerRunOf("confirm", rest);
  }

  /** The letter run at the head of the cancellation. */
  lemma CancelRun()
    ensures LowerRun(Actions.CancelDelete) == 6
  {
    assert AllLowerLetters("cancel");
    assert Actions.CancelDelete == "cancel" + "_delete";
    LowerRunOf("cancel", "_delete");
  }

  /** The confirmation and the cancellation of a delete do not look like action data. */
  lemma ConfirmNotAction(entityType: string, entityId: string)
    ensures !Actions.ActionRoute(Actions.ConfirmCallback(entityType, entityId))
    ensures !Actions.ActionRoute(Actions.CancelDelete)
  {
    ConfirmRun(entityType, entityId);
    CancelRun();
    assert |Actions.CancelDelete| == 13;
    hide LowerRun, AllLowerLetters;
    var d := Actions.ConfirmCallback(entityType, entityId);
    assert d[7..][..8][1] == 'd';
  }

  /**
   * The confirmation and the cancellation the delete action offers never
   * pass the action test, which is tried before theirs, and so reach the
   * confirmation handler.
   */
  lemma ConfirmationMatches(entityType: string, entityId: string)
    ensures !Actions.ActionRoute(Actions.ConfirmCallback(entityType, entityId))
    ensures !Actions.ActionRoute(Actions.CancelDelete)
    ensures PatternOf(Actions.ConfirmCallback(entityType, entityId)) == ConfirmationPattern
    ensures PatternOf(Actions.CancelDelete) == ConfirmationPattern
  {
    ConfirmNotAction(entityType, entityId);
    hide ListRoute, ListRouteIn, Actions.ActionRoute, LowerRun, AllLowerLetters;
    var d := Actions.ConfirmCallback(entityType, entityId);
    assert d[..|Actions.ConfirmPrefix|] == Actions.ConfirmPrefix;
  }

  /** After a run of lower-case letters, a page or item infix is not the action infix. */
  lemma NotActionAfterList(base: string, rest: string)
    requires base != [] && AllLowerLetters(base)
    requires |rest| >= 6 && (rest[..6] == "_page_" || rest[..6] == "_item_")
    ensures !Actions.ActionRoute(base + rest)
  {
    LowerRunOf(base, rest);
    assert (base + rest)[|base|..] == rest;
    assert rest[1] != Actions.ActionInfix[1];
  }

  /** Data that starts with `l` passes neither the audio nor the confirmation test. */
  lemma LeadingL(d: string)
    requires d != [] && d[0] == 'l'
    ensures !StartsWith(d, AudioPrefix) && !StartsWith(d, Actions.ConfirmPrefix) && d != Actions.CancelDelete
  {
    assert AudioPrefix[0] == 'a' && Actions.ConfirmPrefix[0] == 'c' && Actions.CancelDelete[0] == 'c';
  }

  /** A letter-run name starting with `l`, then a page or item infix: no action data, and the name's test passes. */
  lemma ListDataPasses(base: string, rest: string, names: seq<string>)
    requires base in names && base != [] && base[0] == 'l' && AllLowerLetters(base)
    requires |rest| >= 6 && (rest[..6] == "_page_" || rest[..6] == "_item_")
    ensures var d := base + rest; d != [] && d[0] == 'l' && !Actions.ActionRoute(d) && ListRouteIn(d, names)
  {
    var d := base + rest;
    NotActionAfterList(base, rest);
    hide Actions.ActionRoute, LowerRun, AllLowerLetters;
    assert StartsWith(d, base + rest[..6]) by {
      assert d[..|base| + 6] == base + rest[..6];
    }
    ListRouteInMember(d, base, names);
  }

  /** A name of the pattern followed by a page or item infix passes the list test and no test before it. */
  lemma ListDataMatches(base: string, rest: string)
    requires base in RouterLists
    requires |rest| >= 6 && (rest[..6] == "_page_" || rest[..6] == "_item_")
    ensures PatternOf(base + rest) == ListPattern
  {
    hide Actions.ActionRoute, LowerRun, AllLowerLetters, ListRouteIn, StartsWith;
    RouterListsLetters();
    ListDataPasses(base, rest, RouterLists);
    LeadingL(base + rest);
  }

  /** Every page and item button of the eight lists the pattern names passes the list test. */
  lemma ListButtonsMatch(base: string, page: int, id: string)
    requires base in RouterLists
    ensures PatternOf(InteractiveList.PageCallback(base, page)) == ListPattern
    ensures PatternOf(InteractiveList.ItemCallback(base, id)) == ListPattern
  {
    assert InteractiveList.PageCallback(base, page) == base + ("_page_" + IntToString(page));
    assert InteractiveList.ItemCallback(base, id) == base + ("_item_" + id);
    ListDataMatches(base, "_page_" + IntToString(page));
    ListDataMatches(base, "_item_" + id);
  }

  /** No name of the pattern has the `v` of `listevents` as its sixth character. */
  lemma RouterListsNotEvents()
    ensures forall b :: b in RouterLists ==> |b| >= 6 && b[5] != 'v'
  {
  }

  /** The page and item buttons of the events list pass none of the tests. */
  lemma EventListUnmatched(page: int, id: string)
    ensures PatternOf(InteractiveList.PageCallback("listevents", page)) == NoPattern
    ensures PatternOf(InteractiveList.ItemCallback("listevents", id)) == NoPattern
  {
    assert InteractiveList.PageCallback("listevents", page) == "listevents" + ("_page_" + IntToString(page));
    assert InteractiveList.ItemCallback("listevents", id) == "listevents" + ("_item_" + id);
    EventButtonUnmatched("_page_" + IntToString(page));
    EventButtonUnmatched("_item_" + id);
  }

  lemma EventButtonUnmatched(rest: string)
    requires |rest| >= 6 && (rest[..6] == "_page_" || rest[..6] == "_item_")
    ensures PatternOf("listevents" + rest) == NoPattern
  {
    var d := "listevents" + rest;
    NotActionAfterList("listevents", rest);
    assert d[0] == 'l' && d[5] == 'v';
    hide Actions.ActionRoute, LowerRun, AllLowerLetters, ListRouteIn, StartsWith;
    LeadingL(d);
    RouterListsNotEvents();
    NoNameMatches(d, RouterLists);
  }
}
