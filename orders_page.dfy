/**
 * The order history page (frontend/src/pages/Orders.js): which buttons an order's status
 * offers, the status colours, and the editing state around a save.
 */
module OrdersPage {
  import opened Optional
  import opened Checkout
  import OrderRoutes
  import MockApp

  const Pending := "Pending"
  const Processing := "Processing"

  /** The statuses the page offers a cancel button for. */
  const CancellableStatuses: seq<string> := [Pending, Processing]

  /** The statuses the page offers an edit button for. */
  const EditableStatuses: seq<string> := [Pending]

  /** `canCancelOrder`. */
  predicate CanCancelOrder(status: string) {
    status in CancellableStatuses
  }

  /** `canEditOrder`. */
  predicate CanEditOrder(status: string) {
    status in EditableStatuses
  }

  /** The page shows a cancel button exactly for "Pending" and "Processing", and an edit button exactly for "Pending". */
  lemma ButtonStatuses(status: string)
    ensures CanCancelOrder(status) <==> status == "Pending" || status == "Processing"
    ensures CanEditOrder(status) <==> status == "Pending"
  {
  }

  /** Every status the page lets one edit, it also lets one cancel. */
  lemma EditableIsCancellable(status: string)
    ensures CanEditOrder(status) ==> CanCancelOrder(status)
  {
  }

  /** The page never offers a cancel or an edit that the server's status guard refuses. */
  lemma ClientGuardsWithinServer(status: string)
    ensures CanCancelOrder(status) ==> !OrderRoutes.CancelBlocked(status)
    ensures CanEditOrder(status) ==> !OrderRoutes.EditBlocked(status)
  {
    if CanCancelOrder(status) {
      assert status[0] == 'P' && |status| >= 7;
      assert status[1] != OrderRoutes.Shipped[1];
      assert status[0] != OrderRoutes.Delivered[0] && status[0] != OrderRoutes.OutForDelivery[0];
    }
  }

  /**
   * The page and the client store use different words: an order the store places has
   * status "Order Placed", for which the page offers neither button although the server
   * would accept both.
   */
  lemma PlacedOrderHasNoButtons(data: OrderData, id: string, now: string)
    ensures var status := MockApp.PlacedOrder(data, id, now).status;
            && !CanCancelOrder(status) && !CanEditOrder(status)
            && !OrderRoutes.CancelBlocked(status) && !OrderRoutes.EditBlocked(status)
  {
    var status := MockApp.PlacedOrder(data, id, now).status;
    assert status[0] == 'O' && status[1] == 'r';
    assert status != Pending && status != Processing;
    assert status[1] != OrderRoutes.OutForDelivery[1];
  }

  // ---------------------------------------------------------------- colours

  /** The colour of a status the switch does not name. */
  const DefaultColor := "#8e8e93"

  /** The five statuses the switch names. */
  const NamedStatuses: seq<string> := [Pending, Processing, "Shipped", "Delivered", "Cancelled"]

  /** `getStatusColor`. */
  function StatusColor(status: string): (color: string)
    ensures color == DefaultColor <==> status !in NamedStatuses
  {
    if status == Pending then "#ff9500"
    else if status == Processing then "#007aff"
    else if status == "Shipped" then "#34c759"
    else if status == "Delivered" then "#30d158"
    else if status == "Cancelled" then "#ff3b30"
    else DefaultColor
  }

  /** The five named statuses get five different colours. */
  lemma NamedColoursDistinct()
    ensures forall i, j :: 0 <= i < j < |NamedStatuses| ==>
              StatusColor(NamedStatuses[i]) != StatusColor(NamedStatuses[j])
  {
    var colours := ["#ff9500", "#007aff", "#34c759", "#30d158", "#ff3b30"];
    forall i | 0 <= i < |NamedStatuses| ensures StatusColor(NamedStatuses[i]) == colours[i] {
    }
    assert forall i, j :: 0 <= i < j < |colours| ==> colours[i][3] != colours[j][3];
  }

  /** The server's "Out for delivery" and the store's "Order Placed" are shown in the default grey. */
  lemma UnnamedStatusesGrey()
    ensures StatusColor(OrderRoutes.OutForDelivery) == DefaultColor
    ensures StatusColor("Order Placed") == DefaultColor
  {
    assert OrderRoutes.OutForDelivery[0] == 'O' && "Order Placed"[0] == 'O';
    assert forall i :: 0 <= i < |NamedStatuses| ==> NamedStatuses[i][0] != 'O';
  }

  // ---------------------------------------------------------------- editing

  /**
   * `editData.shippingAddress`: the order's address object when editing starts, and the
   * textarea's text once the user types into it.
   */
  datatype Draft = AddressDraft(address: Address) | TextDraft(text: string)

  /** `editingOrder` and `editData`: the order being edited and the draft, or none. */
  datatype EditState = EditState(editing: Option<string>, draft: Option<Draft>)

  const NotEditing := EditState(None, None)

  /** `handleEditOrder`: start editing the order, with its current address as the draft. */
  function StartEdit(orderId: string, current: Address): (s: EditState)
    ensures s.editing == Some(orderId) && s.draft == Some(AddressDraft(current))
  {
    EditState(Some(orderId), Some(AddressDraft(current)))
  }

  /** The textarea's `onChange`: the draft becomes the text typed, and the order edited stays. */
  function TypeAddress(s: EditState, text: string): (r: EditState)
    ensures r.editing == s.editing && r.draft == Some(TextDraft(text))
  {
    s.(draft := Some(TextDraft(text)))
  }

  /**
   * The `shippingAddress` the server reads from the body `handleSaveEdit` sends, as the
   * patch `Edit` applies (None when it is falsy and the address is kept). An address object
   * names all six fields. A non-empty string is spread as its character positions
   * ("0", "1", ...), which name no address field; the empty string is falsy.
   */
  function SentPatch(draft: Option<Draft>): (p: Option<OrderRoutes.AddressPatch>)
    ensures draft.None? ==> p.None?
    ensures draft.Some? && draft.value.TextDraft? ==>
              if draft.value.text == "" then p.None?
              else p == Some(OrderRoutes.AddressPatch(None, None, None, None, None, None))
    ensures draft.Some? && draft.value.AddressDraft? ==>
              p.Some? && OrderRoutes.MergeAddress(Address("", "", "", "", "", ""), p.value) == draft.value.address
  {
    match draft
    case None => None
    case Some(AddressDraft(a)) =>
      Some(OrderRoutes.AddressPatch(Some(a.fullName), Some(a.address), Some(a.city),
                                    Some(a.postalCode), Some(a.country), Some(a.phone)))
    case Some(TextDraft(text)) =>
      if text == "" then None else Some(OrderRoutes.AddressPatch(None, None, None, None, None, None))
  }

  /** The address `Edit` stores for the order whose address was `current`, given the draft sent. */
  function SavedAddress(current: Address, draft: Option<Draft>): Address {
    var p := SentPatch(draft);
    if p.Some? then OrderRoutes.MergeAddress(current, p.value) else current
  }

  /** Typing an address into the textarea and saving leaves the stored address as it was. */
  lemma TypedAddressIgnored(current: Address, text: string)
    ensures SavedAddress(current, Some(TextDraft(text))) == current
  {
    if text != "" {
      OrderRoutes.MergeEmptyPatch(current);
    }
  }

  /**
   * Whatever the user does between starting an edit and saving it, the stored address
   * is the one the order had: the draft is either that address, sent back unchanged, or
   * text that names no address field.
   */
  lemma PageEditsKeepAddress(orderId: string, current: Address, typed: seq<string>)
    ensures SavedAddress(current, TypedAll(StartEdit(orderId, current), typed).draft) == current
  {
    var d := TypedAll(StartEdit(orderId, current), typed).draft;
    TypedAllDraft(StartEdit(orderId, current), typed);
    if d.value.TextDraft? {
      TypedAddressIgnored(current, d.value.text);
    } else {
      OrderRoutes.MergeFullPatch(current, current);
    }
  }

  /** The state after typing each text of `typed` in turn. */
  function TypedAll(s: EditState, typed: seq<string>): EditState
    decreases |typed|
  {
    if typed == [] then s else TypedAll(TypeAddress(s, typed[0]), typed[1..])
  }

  /** After typing, the draft is the last text typed, or the draft there was before. */
  lemma {:induction false} TypedAllDraft(s: EditState, typed: seq<string>)
    ensures typed == [] ==> TypedAll(s, typed).draft == s.draft
    ensures typed != [] ==> TypedAll(s, typed).draft == Some(TextDraft(typed[|typed| - 1]))
    decreases |typed|
  {
    if typed != [] {
      TypedAllDraft(TypeAddress(s, typed[0]), typed[1..]);
    }
  }

  /** `handleSaveEdit`: the editing state is cleared only when the save reports success. */
  function AfterSave(s: EditState, success: bool): (r: EditState)
    ensures success ==> r == NotEditing
    ensures !success ==> r == s
  {
    if success then NotEditing else s
  }

  /** A failed save keeps the draft, so the user can retry the same edit. */
  lemma FailedSaveKeepsDraft(orderId: string, current: Address)
    ensures AfterSave(StartEdit(orderId, current), false).draft == Some(AddressDraft(current))
    ensures AfterSave(StartEdit(orderId, current), true).editing == None
  {
  }
}
