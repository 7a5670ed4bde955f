/**
 * The offset-printing order list: the status chip, the one action each row
 * offers, and the modal that collects a unit number before an order is
 * marked completed. Order-service calls are returned as requests, and their
 * outcome is handed back to the screen.
 */
module OpsertOrderList {
  import opened Common
  import opened Text
  import opened JsValues

  /** A row of the list: the order id and the status of its first offset-printing detail. */
  datatype Order = Order(orderId: string, status: string)

  datatype Action = StartPrinting | CompleteOrder | MoveToPackaging

  /** A call to the order service. */
  datatype Request =
    | UpdateStatus(orderId: Value, newStatus: string, unit: Value, remarks: Value)
    | ToPackaging(packagingOrderId: string)

  /** `getStatusColor`: the three known statuses have a colour, every other string is `default`. */
  function StatusColor(status: string): (r: Color)
    ensures status == "pending" <==> r == Warning
    ensures status == "in_progress" <==> r == Info
    ensures status == "completed" <==> r == Success
    ensures r in {Warning, Info, Success, Default}
  {
    if status == "pending" then Warning
    else if status == "in_progress" then Info
    else if status == "completed" then Success
    else Default
  }

  /** The chip text: `status.replace('_', ' ').toUpperCase()`. */
  function ChipLabel(status: string): (r: string)
    ensures |r| == |status|
    ensures forall i :: 0 <= i < |status| ==>
              r[i] == (if i == IndexOf(status, '_') then ' ' else UpperChar(status[i]))
  {
    ToUpper(ReplaceFirst(status, '_', ' '))
  }

  /** Only the first underscore becomes a space; any later one stays in the label. */
  lemma ChipLabelKeepsLaterUnderscores(status: string, i: nat)
    requires i < |status| && status[i] == '_' && i != IndexOf(status, '_')
    ensures ChipLabel(status)[i] == '_'
  {
  }

  /** The buttons a row shows; the three conditions of the action cell are checked in turn. */
  function Offered(status: string): (r: seq<Action>)
    ensures |r| <= 1
    ensures status == "pending" ==> r == [StartPrinting]
    ensures status == "in_progress" ==> r == [CompleteOrder]
    ensures status == "completed" ==> r == [MoveToPackaging]
    ensures r == [] <==> StatusColor(status) == Default
  {
    var first := if status == "pending" then [StartPrinting] else [];
    var second := if status == "in_progress" then [CompleteOrder] else [];
    var third := if status == "completed" then [MoveToPackaging] else [];
    assert first != [] ==> second == [] && third == [];
    assert second != [] ==> third == [];
    first + second + third
  }

  /**
   * The screen state: whether the completion modal is open, the order it
   * is for (`null` at first) and the chosen unit number.
   */
  class OrderList {
    var modalOpen: bool
    var selectedOrderId: Value
    var unitToUpdate: string

    constructor ()
      ensures !modalOpen && selectedOrderId == Null && unitToUpdate == ""
    {
      modalOpen := false;
      selectedOrderId := Null;
      unitToUpdate := "";
    }

    /**
     * The row's button is pressed. Start Printing asks for `in_progress`
     * with `'Printing started'` in the unit position and no remark; Complete
     * Order only opens the modal; Move to Packaging asks for the move.
     */
    method Press(order: Order, action: Action) returns (request: Option<Request>)
      requires action in Offered(order.status)
      modifies this
      ensures action == StartPrinting ==>
        request == Some(UpdateStatus(Str(order.orderId), "in_progress", Str("Printing started"), Undefined))
      ensures action == MoveToPackaging ==> request == Some(ToPackaging(order.orderId))
      ensures action == CompleteOrder ==> request == None && modalOpen && selectedOrderId == Str(order.orderId)
      ensures action == CompleteOrder ==> unitToUpdate == old(unitToUpdate)
      ensures action != CompleteOrder ==> unchanged(this)
    {
      match action
      case StartPrinting =>
        request := Some(UpdateStatus(Str(order.orderId), "in_progress", Str("Printing started"), Undefined));
      case CompleteOrder =>
        OpenModal(order.orderId);
        request := None;
      case MoveToPackaging =>
        request := Some(ToPackaging(order.orderId));
    }

    /** `handleOpenModal`. */
    method OpenModal(orderId: string)
      modifies this
      ensures modalOpen && selectedOrderId == Str(orderId) && unitToUpdate == old(unitToUpdate)
    {
      selectedOrderId := Str(orderId);
      modalOpen := true;
    }

    /** The unit select changes. */
    method ChooseUnit(unit: string)
      modifies this
      ensures unitToUpdate == unit && modalOpen == old(modalOpen) && selectedOrderId == old(selectedOrderId)
    {
      unitToUpdate := unit;
    }

    /** Cancel, or a click outside the modal. */
    method CloseModal()
      modifies this
      ensures !modalOpen && selectedOrderId == old(selectedOrderId) && unitToUpdate == old(unitToUpdate)
    {
      modalOpen := false;
    }

    /** `handleStatusUpdate`: without a unit nothing is sent; with one, the order is asked to become `completed`. */
    method Submit() returns (request: Option<Request>, notice: Option<Notice>)
      ensures request == CompletionRequest(selectedOrderId, unitToUpdate)
      ensures unitToUpdate == "" ==> notice == Some(Failed("Please select a unit number"))
      ensures unitToUpdate != "" ==> notice == None
    {
      request := CompletionRequest(selectedOrderId, unitToUpdate);
      if unitToUpdate == "" {
        notice := Some(Failed("Please select a unit number"));
      } else {
        notice := None;
      }
    }

    /**
     * The status update finished: on success the modal closes and the parent
     * refreshes; on failure the state stays as it was.
     */
    method StatusUpdated(newStatus: string, ok: bool) returns (notice: Notice, refresh: bool)
      modifies this
      ensures notice == UpdateNotice(newStatus, ok) && refresh == ok
      ensures ok ==> !modalOpen && selectedOrderId == old(selectedOrderId) && unitToUpdate == old(unitToUpdate)
      ensures !ok ==> unchanged(this)
    {
      notice := UpdateNotice(newStatus, ok);
      refresh := ok;
      if ok {
        modalOpen := false;
      }
    }
  }

  /** The request `handleStatusUpdate` sends for the selected order and unit, if any. */
  function CompletionRequest(selected: Value, unit: string): (r: Option<Request>)
    ensures unit == "" <==> r == None
    ensures r.Some? ==> r.value.UpdateStatus? && r.value.orderId == selected && r.value.newStatus == "completed"
    ensures r.Some? ==> r.value.unit == Str(unit) && r.value.remarks == Str("order move to completed")
  {
    if unit == "" then None
    else Some(UpdateStatus(selected, "completed", Str(unit), Str("order move to completed")))
  }

  /** The toast after `updateOrderStatus`; the status is shown with its first underscore as a space. */
  function UpdateNotice(newStatus: string, ok: bool): (r: Notice)
    ensures ok <==> r.Succeeded?
    ensures ok ==> r.message == "Order marked as " + ReplaceFirst(newStatus, '_', ' ')
    ensures !ok ==> r.message == "Failed to update order status"
  {
    if ok then Succeeded("Order marked as " + ReplaceFirst(newStatus, '_', ' '))
    else Failed("Failed to update order status")
  }

  /** The toast and refresh after `moveToPackaging`. */
  function PackagingNotice(ok: bool): (r: (Notice, bool))
    ensures r.1 == ok && (ok <==> r.0.Succeeded?)
    ensures r.0.message == if ok then "Order moved to packaging" else "Failed to move to packaging"
  {
    if ok then (Succeeded("Order moved to packaging"), true) else (Failed("Failed to move to packaging"), false)
  }
}
