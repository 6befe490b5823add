// The order board of the admin panel (public/js/admin-orders.js): the status tab
// filter, the action buttons each status offers, the item count of an order card and
// the handlers behind the buttons.
module AdminOrders {
  import opened Js
  import opened Lists

  /** The tab shown when the page opens. */
  const DefaultFilter: string := "new"

  /** The statuses an order moves through, in order; `cancelled` lies outside it. */
  const Lifecycle: seq<string> := ["new", "preparing", "ready", "delivered"]

  /** `o.status === filter`. */
  predicate StatusIs(filter: string, o: Value) {
    StrictEq(Get(o, "status"), Str(filter))
  }

  /** The orders listed under a tab: all of them for `all`, otherwise those whose status
      is exactly the tab's. */
  function FilterOrders(orders: seq<Value>, filter: string): seq<Value> {
    if filter == "all" then orders else Filter(orders, o => StatusIs(filter, o))
  }

  /** The `all` tab lists every order; any other tab lists exactly the orders with that
      status, in the order they were held. */
  lemma FilterOrdersContents(orders: seq<Value>, filter: string)
    ensures filter == "all" ==> FilterOrders(orders, filter) == orders
    ensures filter != "all" ==> forall o ::
      o in FilterOrders(orders, filter) <==> o in orders && Get(o, "status") == Str(filter)
    ensures filter != "all" ==> forall a, b :: FilterOrders(a + b, filter) == FilterOrders(a, filter) + FilterOrders(b, filter)
  {
    if filter != "all" {
      forall o ensures o in FilterOrders(orders, filter) <==> o in orders && Get(o, "status") == Str(filter) {
        FilterMembers(orders, o => StatusIs(filter, o), o);
      }
      forall a, b ensures FilterOrders(a + b, filter) == FilterOrders(a, filter) + FilterOrders(b, filter) {
        FilterAppend(a, b, o => StatusIs(filter, o));
      }
    }
  }

  /** A button on an order card: `updateStatus(id, to)`, `cancelOrderBtn(id)`, or
      `safeUpdateStatus(id, to, from)`. */
  datatype Action = Move(to: string) | Cancel | SafeMove(to: string, from: string)

  /** The buttons rendered for an order with this status. */
  function Actions(status: Value): seq<Action> {
    if status == Str("new") then [Move("preparing"), Cancel]
    else if status == Str("preparing") then [Move("new"), Move("ready")]
    else if status == Str("ready") then [Move("preparing"), Move("delivered")]
    else if status == Str("delivered") then [SafeMove("ready", "delivered")]
    else []
  }

  /** Position of a status in the lifecycle, -1 outside it. */
  function Stage(s: string): (k: int)
    ensures -1 <= k < |Lifecycle|
    ensures k >= 0 ==> Lifecycle[k] == s
    ensures k == -1 ==> s !in Lifecycle
  {
    if s == "new" then 0 else if s == "preparing" then 1 else if s == "ready" then 2
    else if s == "delivered" then 3 else -1
  }

  /** The buttons only step an order one stage forward or back along the lifecycle;
      only a new order can be cancelled; only undoing a delivery goes through the
      confirming handler; and an order outside the lifecycle (a cancelled one) gets
      no buttons at all. */
  lemma ActionsFollowLifecycle(status: Value)
    ensures Actions(status) != [] <==> status.Str? && status.s in Lifecycle
    ensures forall a :: a in Actions(status) ==>
      var k := Stage(status.s);
      && (a.Cancel? ==> status == Str("new"))
      && (a.Move? ==> Stage(a.to) == k + 1 || Stage(a.to) == k - 1)
      && (a.SafeMove? ==> status == Str("delivered") && a.from == "delivered" && Stage(a.to) == k - 1)
    ensures status.Str? && 0 <= Stage(status.s) < |Lifecycle| - 1 ==>
      Move(Lifecycle[Stage(status.s) + 1]) in Actions(status)
  {
  }

  /** `order.items.reduce((sum, i) => sum + i.quantity, 0)`, with JavaScript's `+`. */
  function ItemCount(items: seq<Value>): Value {
    if items == [] then Num(0.0) else Add(ItemCount(items[..|items| - 1]), Get(items[|items| - 1], "quantity"))
  }

  /** The sum of the quantities, when they are all numbers. */
  function QuantitySum(items: seq<Value>): real
    requires forall i :: 0 <= i < |items| ==> Get(items[i], "quantity").Num?
  {
    if items == [] then 0.0 else QuantitySum(items[..|items| - 1]) + Get(items[|items| - 1], "quantity").n
  }

  /** With numeric quantities the card shows their sum. */
  lemma {:induction false} ItemCountIsSum(items: seq<Value>)
    requires forall i :: 0 <= i < |items| ==> Get(items[i], "quantity").Num?
    ensures ItemCount(items) == Num(QuantitySum(items))
  {
    if items != [] {
      ItemCountIsSum(items[..|items| - 1]);
    }
  }

  /** `safeUpdateStatus` asks for confirmation exactly when leaving `delivered`. */
  predicate NeedsConfirmation(currentStatus: Value) {
    StrictEq(currentStatus, Str("delivered"))
  }

  /** The toasts the handlers raise (their wording is presentation). */
  datatype Toast = StatusChanged(status: Value) | StatusFailed | OrderCancelled

  /** A request the board sends: `updateOrderStatus(id, status)` or `cancelOrder(id)`. */
  datatype Request = StatusChange(orderId: Value, status: Value) | Cancellation(orderId: Value)

  /** The board's module state and what its handlers have done. */
  class OrdersPage {
    /** `currentOrderFilter`. */
    var filter: string
    /** How many times `renderOrders()` has been called. */
    var renders: nat
    var toasts: seq<Toast>
    var requests: seq<Request>

    constructor ()
      ensures filter == DefaultFilter && renders == 0 && toasts == [] && requests == []
    {
      filter, renders, toasts, requests := DefaultFilter, 0, [], [];
    }

    /** A click on a status tab. */
    method SelectTab(status: string)
      modifies this`filter, this`renders
      ensures filter == status && renders == old(renders) + 1
    {
      filter := status;
      renders := renders + 1;
    }

    /** The orders `renderOrders()` lists. */
    function Shown(orders: seq<Value>): (r: seq<Value>)
      reads this
      ensures filter == "all" ==> r == orders
      ensures filter != "all" ==> |r| <= |orders|
      ensures filter != "all" ==> forall o :: o in r <==> o in orders && Get(o, "status") == Str(filter)
    {
      FilterOrdersContents(orders, filter);
      FilterOrders(orders, filter)
    }

    /** `updateStatus(orderId, status)`: `result` is what `updateOrderStatus` resolved to;
        a truthy one is reported and re-rendered, a falsy one only reported. */
    method UpdateStatus(orderId: Value, status: Value, result: Value)
      modifies this`renders, this`toasts, this`requests
      ensures requests == old(requests) + [StatusChange(orderId, status)]
      ensures Truthy(result) ==> renders == old(renders) + 1 && toasts == old(toasts) + [StatusChanged(status)]
      ensures !Truthy(result) ==> renders == old(renders) && toasts == old(toasts) + [StatusFailed]
    {
      requests := requests + [StatusChange(orderId, status)];
      if Truthy(result) {
        toasts := toasts + [StatusChanged(status)];
        renders := renders + 1;
      } else {
        toasts := toasts + [StatusFailed];
      }
    }

    /** `safeUpdateStatus(orderId, newStatus, currentStatus)`: leaving `delivered` needs
        the user's confirmation; a refusal sends nothing and changes nothing. */
    method SafeUpdateStatus(orderId: Value, newStatus: Value, currentStatus: Value, confirmed: bool, result: Value)
      modifies this`renders, this`toasts, this`requests
      ensures NeedsConfirmation(currentStatus) && !confirmed ==>
        renders == old(renders) && toasts == old(toasts) && requests == old(requests)
      ensures !NeedsConfirmation(currentStatus) || confirmed ==>
        requests == old(requests) + [StatusChange(orderId, newStatus)]
        && (Truthy(result) ==> renders == old(renders) + 1)
        && (!Truthy(result) ==> renders == old(renders))
    {
      if NeedsConfirmation(currentStatus) && !confirmed {
        return;
      }
      UpdateStatus(orderId, newStatus, result);
    }

    /** `cancelOrderBtn(orderId)`: only a confirmed cancellation is sent, and only a
        successful one is reported and re-rendered. */
    method CancelOrderBtn(orderId: Value, confirmed: bool, success: Value)
      modifies this`renders, this`toasts, this`requests
      ensures !confirmed ==> renders == old(renders) && toasts == old(toasts) && requests == old(requests)
      ensures confirmed ==> requests == old(requests) + [Cancellation(orderId)]
      ensures confirmed && Truthy(success) ==> renders == old(renders) + 1 && toasts == old(toasts) + [OrderCancelled]
      ensures confirmed && !Truthy(success) ==> renders == old(renders) && toasts == old(toasts)
    {
      if confirmed {
        requests := requests + [Cancellation(orderId)];
        if Truthy(success) {
          toasts := toasts + [OrderCancelled];
          renders := renders + 1;
        }
      }
    }
  }
}
