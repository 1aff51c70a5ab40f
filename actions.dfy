/**
 * The entity action protocol: the two buttons `actionButtons` puts under an
 * entity's details (src/helpers/actionButtons.ts), the way `actionHandler`
 * takes their callback data apart, and the confirm/cancel exchange of a
 * deletion (src/handlers/actions/actionHandler.ts).
 *
 * What the list modules answer (the entity's name, whether its deletion
 * fails) is given as input; what the handlers say is a `Notice` or an
 * `Edit` of the message, not its localised text.
 */
module Actions {
  import opened Wrappers
  import opened Js
  import opened CommandHelpers

  // ---------------------------------------------------------------------
  // actionButtons and the callback data it writes

  const ActionInfix := "_action_"

  /** `${model}_action_${action}_${id}`: the data of an entity action button. */
  function ActionCallback(model: string, action: string, id: string): string
  {
    model + ActionInfix + action + "_" + id
  }

  /** `actionButtons`: one row, the web-app button, then the delete button. */
  function ActionButtons(model: string, id: string): (k: Keyboard)
    ensures |k| == 1 && |k[0]| == 2
  {
    [[Button("view_webapp", ActionCallback(model, "webapp", id)),
      Button("delete_" + model, ActionCallback(model, "delete", id))]]
  }

  /** `/^[a-z]+_action_[a-z]+_/`: the test by which the callback router picks `actionHandler`. */
  predicate ActionRoute(d: string)
  {
    var n := LowerRun(d);
    n > 0 && StartsWith(d[n..], ActionInfix)
    && var rest := d[n + |ActionInfix|..];
       var m := LowerRun(rest);
       0 < m < |rest| && rest[m] == '_'
  }

  /** The three groups of `/^([a-z]+)_action_([a-z]+)_(.+)$/`. */
  datatype Action = Action(entityType: string, actionName: string, entityId: string)

  /** What the pattern can capture: two non-empty letter runs and a non-empty single-line id. */
  predicate WellFormed(a: Action)
  {
    a.entityType != [] && AllLowerLetters(a.entityType)
    && a.actionName != [] && AllLowerLetters(a.actionName)
    && IsDotRun(a.entityId)
  }

  /**
   * `data.match(/^([a-z]+)_action_([a-z]+)_(.+)$/)`. Both letter groups
   * must stop where the next `_` is, so the match, when there is one, is
   * the only way to split the data.
   */
  function DecodeAction(d: string): (r: Option<Action>)
    ensures r.Some? ==> ActionRoute(d) && WellFormed(r.value)
    ensures r.Some? ==> d == ActionCallback(r.value.entityType, r.value.actionName, r.value.entityId)
  {
    if !ActionRoute(d) then None
    else
      var n := LowerRun(d);
      var rest := d[n + |ActionInfix|..];
      var m := LowerRun(rest);
      var id := rest[m + 1..];
      if !IsDotRun(id) then None
      else
        assert d == d[..n] + d[n..n + |ActionInfix|] + rest;
        assert rest == rest[..m] + "_" + id;
        Some(Action(d[..n], rest[..m], id))
  }

  /** Where the two letter runs of an action's data end. */
  lemma ActionCallbackRuns(a: Action)
    requires WellFormed(a)
    ensures var d := ActionCallback(a.entityType, a.actionName, a.entityId);
      var rest := d[|a.entityType| + |ActionInfix|..];
      LowerRun(d) == |a.entityType| && d[..|a.entityType|] == a.entityType
      && StartsWith(d[|a.entityType|..], ActionInfix)
      && rest == a.actionName + "_" + a.entityId && LowerRun(rest) == |a.actionName|
  {
    hide LowerRun, AllLowerLetters, IsDotRun;
    var d := ActionCallback(a.entityType, a.actionName, a.entityId);
    var tail := a.actionName + ("_" + a.entityId);
    assert d == a.entityType + (ActionInfix + tail);
    LowerRunOf(a.entityType, ActionInfix + tail);
    assert d[|a.entityType|..] == ActionInfix + tail;
    assert d[|a.entityType| + |ActionInfix|..] == tail;
    LowerRunOf(a.actionName, "_" + a.entityId);
  }

  /** Every well-formed action survives being written into button data and read back. */
  lemma DecodeActionCallback(a: Action)
    requires WellFormed(a)
    ensures ActionRoute(ActionCallback(a.entityType, a.actionName, a.entityId))
    ensures DecodeAction(ActionCallback(a.entityType, a.actionName, a.entityId)) == Some(a)
  {
    hide LowerRun, AllLowerLetters, IsDotRun, ActionCallback;
    ActionCallbackRuns(a);
    var d := ActionCallback(a.entityType, a.actionName, a.entityId);
    assert ActionRoute(d);
    var rest := a.actionName + "_" + a.entityId;
    assert rest[..|a.actionName|] == a.actionName;
    assert rest[|a.actionName| + 1..] == a.entityId;
  }

  /**
   * For a lower-case model name and a single-line id, both buttons are
   * routed to `actionHandler` and decode to the model, the button's action
   * and the id.
   */
  lemma ActionButtonsDecode(model: string, id: string)
    requires model != [] && AllLowerLetters(model) && IsDotRun(id)
    ensures var k := ActionButtons(model, id);
      ActionRoute(k[0][0].data) && DecodeAction(k[0][0].data) == Some(Action(model, "webapp", id))
      && ActionRoute(k[0][1].data) && DecodeAction(k[0][1].data) == Some(Action(model, "delete", id))
  {
    DecodeActionCallback(Action(model, "webapp", id));
    DecodeActionCallback(Action(model, "delete", id));
  }

  // ---------------------------------------------------------------------
  // actionHandler

  /** The keys of `listHandler`: the list modules an entity type can name. */
  const ListHandlers: seq<string> :=
    ["listnpcs", "listencounters", "listevents", "listnotes", "listplayers",
     "listplots", "listitems", "listregions", "listplaces"]

  /** `list${entityType}s`: the list module an entity type is looked up under. */
  function HandlerKey(entityType: string): string
  {
    "list" + entityType + "s"
  }

  predicate Supported(entityType: string)
  {
    Listed(HandlerKey(entityType), ListHandlers)
  }

  /** What the action handlers reply. */
  datatype Notice =
    | UnknownAction(actionName: string)
    | TypeNotSupported(entityType: string)
    | EntityNotFound
    | ConfirmDeletion(name: string, entityType: string, keyboard: Keyboard)
    | WebappLink(name: string)
    | ActionError                       // the reply of the `catch` in `actionHandler`

  /** What a handler returns and what it replied. */
  datatype Handled = Handled(result: bool, notices: seq<Notice>)

  const ConfirmPrefix := "confirm_delete_"
  const CancelDelete := "cancel_delete"

  /** `confirm_delete_${entityType}_${entityId}`. */
  function ConfirmCallback(entityType: string, entityId: string): string
  {
    ConfirmPrefix + entityType + "_" + entityId
  }

  /** The keyboard `handleDeleteAction` offers: confirm, then cancel. */
  function ConfirmButtons(entityType: string, entityId: string): (k: Keyboard)
    ensures |k| == 1 && |k[0]| == 2
  {
    [[Button("confirm_delete", ConfirmCallback(entityType, entityId)), Button("cancel", CancelDelete)]]
  }

  /**
   * `handleDeleteAction`: an unknown list module is reported, and so is a
   * missing entity; otherwise the deletion is offered for confirmation.
   * `item` is the name the list module finds for the id.
   */
  function DeleteAction(entityType: string, entityId: string, item: Option<string>): (n: Notice)
    ensures n.ConfirmDeletion? <==> Supported(entityType) && item.Some?
    ensures n.ConfirmDeletion? ==> n == ConfirmDeletion(item.value, entityType, ConfirmButtons(entityType, entityId))
  {
    if !Supported(entityType) then TypeNotSupported(entityType)
    else if item.None? then EntityNotFound
    else ConfirmDeletion(item.value, entityType, ConfirmButtons(entityType, entityId))
  }

  /** What the list module's `getItemDetails` gives for an id: the item's name, no item, or an error. */
  datatype Lookup = Found(name: string) | NotFound | LookupRaises

  function ItemOf(item: Lookup): Option<string>
  {
    if item.Found? then Some(item.name) else None
  }

  /**
   * Whether the action raises inside the `try`: `webapp` uses the list
   * module without checking that it exists, so an unknown entity type
   * raises; a lookup that raises does so for both actions once the module
   * exists.
   */
  predicate ActionRaises(a: Action, item: Lookup)
  {
    (a.actionName == "webapp" && !Supported(a.entityType))
    || ((a.actionName == "delete" || a.actionName == "webapp") && Supported(a.entityType) && item.LookupRaises?)
  }

  /**
   * `actionHandler`, given the data of the callback query and what the
   * list module finds for the entity. A raise inside the `try` is caught:
   * the action error is replied and the handler returns false.
   */
  function ActionHandler(data: Option<string>, item: Lookup): (h: Handled)
    ensures data.None? || DecodeAction(data.value).None? ==> h == Handled(false, [])
    ensures data.Some? && DecodeAction(data.value).Some? ==> |h.notices| == 1
    ensures data.Some? && DecodeAction(data.value).Some? && ActionRaises(DecodeAction(data.value).value, item)
            ==> h == Handled(false, [ActionError])
    ensures h.result <==>
      data.Some? && DecodeAction(data.value).Some?
      && var a := DecodeAction(data.value).value;
         (a.actionName == "delete" || a.actionName == "webapp") && !ActionRaises(a, item)
  {
    if data.None? then Handled(false, [])
    else match DecodeAction(data.value)
      case None => Handled(false, [])
      case Some(a) =>
        if a.actionName != "delete" && a.actionName != "webapp" then Handled(false, [UnknownAction(a.actionName)])
        else if ActionRaises(a, item) then Handled(false, [ActionError])
        else if a.actionName == "delete" then
          Handled(true, [DeleteAction(a.entityType, a.entityId, ItemOf(item))])
        else Handled(true, [if item.Found? then WebappLink(item.name) else EntityNotFound])
  }

  // ---------------------------------------------------------------------
  // handleDeleteConfirmation

  /** `data.match(/^confirm_delete_([a-z]+)_(.+)$/)`: the entity type and id. */
  function DecodeConfirmation(d: string): (r: Option<(string, string)>)
    ensures r.Some? ==> r.value.0 != [] && AllLowerLetters(r.value.0) && IsDotRun(r.value.1)
    ensures r.Some? ==> d == ConfirmCallback(r.value.0, r.value.1)
  {
    if !StartsWith(d, ConfirmPrefix) then None
    else
      var rest := d[|ConfirmPrefix|..];
      var n := LowerRun(rest);
      if 0 < n < |rest| && rest[n] == '_' && IsDotRun(rest[n + 1..]) then
        assert d == d[..|ConfirmPrefix|] + rest;
        assert rest == rest[..n] + "_" + rest[n + 1..];
        Some((rest[..n], rest[n + 1..]))
      else None
  }

  /** The entity type and id a confirmation carries are read back unchanged. */
  lemma DecodeConfirmCallback(entityType: string, entityId: string)
    requires entityType != [] && AllLowerLetters(entityType) && IsDotRun(entityId)
    ensures DecodeConfirmation(ConfirmCallback(entityType, entityId)) == Some((entityType, entityId))
  {
    var d := ConfirmCallback(entityType, entityId);
    assert d[..|ConfirmPrefix|] == ConfirmPrefix;
    var rest := entityType + ("_" + entityId);
    assert d[|ConfirmPrefix|..] == rest;
    LowerRunOf(entityType, "_" + entityId);
    assert rest[|entityType| + 1..] == entityId;
  }

  /** How `handleDeleteConfirmation` edits the message with the buttons. */
  datatype Edit = EntityDeleted | DeleteError | DeleteCancelled

  /** What `handleDeleteConfirmation` returns, deletes (list module, id) and shows. */
  datatype Confirmation = Confirmation(result: bool, deleted: Option<(string, string)>, edit: Option<Edit>)

  /**
   * `handleDeleteConfirmation`, given whether the list module's `deleteItem`
   * raises. A confirmation reports success or failure in the message and
   * returns true either way; an unknown list module raises inside the `try`
   * and is reported as a failed deletion.
   */
  function HandleDeleteConfirmation(data: Option<string>, deleteFails: bool): (c: Confirmation)
    ensures c.result <==> data.Some? && (DecodeConfirmation(data.value).Some? || data.value == CancelDelete)
    ensures c.edit.Some? <==> c.result
    ensures c.deleted.Some? <==>
      data.Some? && DecodeConfirmation(data.value).Some? && Supported(DecodeConfirmation(data.value).value.0) && !deleteFails
    ensures c.deleted.Some? ==>
      c.deleted.value == (HandlerKey(DecodeConfirmation(data.value).value.0), DecodeConfirmation(data.value).value.1)
      && c.edit == Some(EntityDeleted)
  {
    if data.None? then Confirmation(false, None, None)
    else if StartsWith(data.value, ConfirmPrefix) then
      match DecodeConfirmation(data.value)
        case None => Confirmation(false, None, None)
        case Some((entityType, entityId)) =>
          if Supported(entityType) && !deleteFails then
            Confirmation(true, Some((HandlerKey(entityType), entityId)), Some(EntityDeleted))
          else Confirmation(true, None, Some(DeleteError))
    else if data.value == CancelDelete then Confirmation(true, None, Some(DeleteCancelled))
    else Confirmation(false, None, None)
  }

  /**
   * The deletion protocol end to end: the delete button of a supported
   * entity offers two buttons; confirming deletes exactly that entity from
   * its list module (unless the deletion fails), and cancelling deletes
   * nothing. Both answers return true.
   */
  lemma DeleteProtocol(d: string, name: string, deleteFails: bool)
    requires DecodeAction(d).Some? && DecodeAction(d).value.actionName == "delete"
    requires Supported(DecodeAction(d).value.entityType)
    ensures var a := DecodeAction(d).value;
      var h := ActionHandler(Some(d), Found(name));
      h == Handled(true, [ConfirmDeletion(name, a.entityType, ConfirmButtons(a.entityType, a.entityId))])
      && HandleDeleteConfirmation(Some(h.notices[0].keyboard[0][0].data), deleteFails)
         == Confirmation(true, if deleteFails then None else Some((HandlerKey(a.entityType), a.entityId)),
                         Some(if deleteFails then DeleteError else EntityDeleted))
      && HandleDeleteConfirmation(Some(h.notices[0].keyboard[0][1].data), deleteFails)
         == Confirmation(true, None, Some(DeleteCancelled))
  {
    var a := DecodeAction(d).value;
    DecodeConfirmCallback(a.entityType, a.entityId);
    assert ConfirmCallback(a.entityType, a.entityId)[..|ConfirmPrefix|] == ConfirmPrefix;
    assert !StartsWith(CancelDelete, ConfirmPrefix);
  }
}
