// How the browser store and the route handlers fit together: what the client makes of
// the order listing (app/api/orders/route.js GET read by refreshOrders and
// normalizeOrder in public/js/data.js), and where the status update's fallback
// request lands (data.js sends the values in the query string, the PUT handler reads
// a JSON body).
module Wiring {
  import opened Js
  import opened Lists
  import opened Db
  import opened Data
  import opened OrdersRoute

  /** A listed order after the client's normalisation: its number is the row id and
      its address the customer address. */
  lemma NormalizeListed(o: Value, localDates: Option<Value>, parseJson: string -> Option<Value>)
    ensures var n := NormalizeOrder(ListedOrder(o), localDates, parseJson);
      && Get(n, "orderNumber") == Get(o, "id")
      && Get(n, "address") == Get(o, "customerAddress")
  {
    ListedOrderRenamed(o);
    NormalizeOrderFields(ListedOrder(o), localDates, parseJson);
  }

  /** The listing carries no completion time, so after normalisation a delivered order
      takes the overlay's entry or else its creation time, and any other order has none. */
  lemma NormalizeListedCompletion(o: Value, localDates: Option<Value>, parseJson: string -> Option<Value>)
    ensures var n := NormalizeOrder(ListedOrder(o), localDates, parseJson);
      && (Get(o, "status") != Str("delivered") ==> Get(n, "completedAt") == Undefined)
      && (Get(o, "status") == Str("delivered") && localDates.Some? && localDates.value.Obj? ==>
            Get(n, "completedAt") == Or(Get(localDates.value, ToJsString(Get(o, "id"))), Get(o, "createdAt")))
  {
    var listed := ListedOrder(o);
    ListedOrderRenamed(o);
    ListedOrderCopied(o);
    ListedOrderNoCompletion(o);
    assert "status" in OrdersRoute.Copied && "createdAt" in OrdersRoute.Copied;
    NormalizeOrderFields(listed, localDates, parseJson);
  }

  /** A listed line after normalisation: named by its meal, `Unknown` when it has
      none, and sized by its size, `''` when it has none. */
  lemma NormalizeListedItem(x: Value)
    ensures Get(NormalizeItem(ListedItem(x)), "name") == Or(Get(x, "mealName"), Str("Unknown"))
    ensures Get(NormalizeItem(ListedItem(x)), "sizeName") == Or(Get(x, "size"), Str(""))
  {
  }

  /** The lines of a normalised order whose lines form an array. */
  lemma NormalizedLines(order: Value, localDates: Option<Value>, parseJson: string -> Option<Value>)
    requires Truthy(order) && Get(order, "items").Arr?
    ensures Get(NormalizeOrder(order, localDates, parseJson), "items") == Arr(Map(Get(order, "items").items, NormalizeItem))
  {
  }

  /** Each line of a listed order, after normalisation, is named by its meal and sized
      by its size, with the client's defaults. */
  lemma NormalizeListedLines(o: Value, localDates: Option<Value>, parseJson: string -> Option<Value>)
    ensures var lines := Items(Get(NormalizeOrder(ListedOrder(o), localDates, parseJson), "items"));
      var stored := Items(Get(o, "items"));
      && |lines| == |stored|
      && forall i :: 0 <= i < |lines| ==>
           && Get(lines[i], "name") == Or(Get(stored[i], "mealName"), Str("Unknown"))
           && Get(lines[i], "sizeName") == Or(Get(stored[i], "size"), Str(""))
  {
    var listed := ListedOrder(o);
    var stored := Items(Get(o, "items"));
    var before := Map(stored, ListedItem);
    assert Get(listed, "items") == Arr(before);
    NormalizedLines(listed, localDates, parseJson);
    var lines := Map(before, NormalizeItem);
    forall i | 0 <= i < |lines|
      ensures Get(lines[i], "name") == Or(Get(stored[i], "mealName"), Str("Unknown"))
      ensures Get(lines[i], "sizeName") == Or(Get(stored[i], "size"), Str(""))
    {
      NormalizeListedItem(stored[i]);
    }
  }

  /** `refreshOrders()` answered by the order listing: the list becomes the normalised
      listing, and since the listing is a flat array the paging information stays as it
      was, so `loadMoreOrders()` is no more able to fetch a page than before. */
  method RefreshFromListing(store: Store, db: Database) returns (r: Value)
    requires db.online
    modifies store`orders, store`ordersPagination, store`storage, store`events, store`sent
    ensures store.ordersPagination == old(store.ordersPagination)
    ensures store.HasMorePages() == old(store.HasMorePages())
    ensures store.orders == Arr(NormalizeAll(OrderList(db.orders), old(store.storage), store.parseJson))
    ensures store.sent == old(store.sent) + [ApiCall("getOrders", [])]
  {
    var reply := GetOrders(db);
    r := store.RefreshOrders(Resolved(reply.body));
  }

  /** With no page to load (as in a freshly loaded store, whose paging information is
      `undefined`), a refresh from the listing followed by `loadMoreOrders()` sends
      only the refresh and ends with the normalised listing. */
  method LoadMoreAfterListing(store: Store, db: Database, response: Response) returns (r: Value)
    requires db.online && !store.HasMorePages()
    modifies store`orders, store`ordersPagination, store`storage, store`events, store`sent
    ensures !store.HasMorePages() && r == Undefined
    ensures store.orders == Arr(NormalizeAll(OrderList(db.orders), old(store.storage), store.parseJson))
    ensures store.sent == old(store.sent) + [ApiCall("getOrders", [])]
  {
    var _ := RefreshFromListing(store, db);
    r := store.LoadMoreOrders(response);
  }

  /** Without `ApiClient.updateOrderStatus`, the status change travels in the query
      string of a PUT with no body; the handler's `request.json()` then throws, so the
      server answers 500 and changes no order, whatever the status asked for. */
  method FallbackStatusUpdate(db: Database, orderId: Value, status: Value, changed: Value) returns (reply: Reply)
    requires db.Valid()
    modifies db`orders
    ensures db.Valid()
    ensures reply == Failure(500, UpdateFailed) && db.orders == old(db.orders)
  {
    var request := Store.StatusRequest(orderId, status, changed, false);
    reply := UpdateOrder(db, request.body);
  }
}
