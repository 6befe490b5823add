// The order endpoints (app/api/orders/route.js): the listing the admin board reads,
// order creation from the shop's checkout, the partial update of status, rating and
// review, and deletion.
module OrdersRoute {
  import opened Js
  import opened Lists
  import opened Db

  const FetchFailed: string := "Failed to fetch orders"
  const CreateFailed: string := "Failed to create order"
  const UpdateFailed: string := "Update failed"
  const DeleteFailed: string := "Delete failed"
  const IdRequired: string := "ID required"

  // ---------------------------------------------------------------- GET

  /** An order line as the listing shows it. */
  function ListedItem(item: Value): Value {
    Obj(map["quantity" := Get(item, "quantity"), "name" := Get(item, "mealName"),
            "price" := Get(item, "price"), "sizeName" := Get(item, "size")])
  }

  /** The columns the listing passes through under their own names. */
  const Copied: set<string> := {"customerName", "customerPhone", "location", "total", "subtotal",
                                "deliveryCost", "status", "orderType", "notes", "rating", "review", "createdAt"}

  const Renamed: set<string> := {"id", "orderNumber", "address", "items"}

  lemma Disjoint()
    ensures Copied !! Renamed
    ensures "completedAt" !in Copied && "completedAt" !in Renamed
  {
  }

  /** An order as the listing shows it (`cleanOrders`). */
  function ListedOrder(o: Value): Value {
    Obj((map k | k in Copied :: Get(o, k)) + RenamedColumns(o))
  }

  /** The listed columns that are renamed or rebuilt. */
  function RenamedColumns(o: Value): (r: Record)
    ensures r.Keys == Renamed
  {
    map["id" := Get(o, "id"), "orderNumber" := Get(o, "id"), "address" := Get(o, "customerAddress"),
        "items" := Arr(Map(Items(Get(o, "items")), ListedItem))]
  }

  /** The listing's renamings: the order number is the row id and the address is the
      customer address. */
  lemma ListedOrderRenamed(o: Value)
    ensures Get(ListedOrder(o), "id") == Get(o, "id")
    ensures Get(ListedOrder(o), "orderNumber") == Get(o, "id")
    ensures Get(ListedOrder(o), "address") == Get(o, "customerAddress")
  {
  }

  /** The listed columns pass through unchanged. */
  lemma ListedOrderCopied(o: Value)
    ensures forall k :: k in Copied ==> Get(ListedOrder(o), k) == Get(o, k)
  {
    Disjoint();
  }

  /** No completion time is listed. */
  lemma ListedOrderNoCompletion(o: Value)
    ensures Get(ListedOrder(o), "completedAt") == Undefined
  {
    Disjoint();
  }

  /** One listed line per stored line: its name is the meal name and its size name the size. */
  lemma ListedOrderLines(o: Value)
    ensures var lines := Items(Get(ListedOrder(o), "items"));
      && |lines| == |Items(Get(o, "items"))|
      && (forall i :: 0 <= i < |lines| ==>
            Get(lines[i], "name") == Get(Items(Get(o, "items"))[i], "mealName")
            && Get(lines[i], "sizeName") == Get(Items(Get(o, "items"))[i], "size"))
  {
    var stored := Items(Get(o, "items"));
    var lines := Map(stored, ListedItem);
    assert Items(Get(ListedOrder(o), "items")) == lines;
    forall i | 0 <= i < |lines|
      ensures Get(lines[i], "name") == Get(stored[i], "mealName") && Get(lines[i], "sizeName") == Get(stored[i], "size")
    {
      assert lines[i] == ListedItem(stored[i]);
    }
  }

  /** The listing: every order, newest first. */
  function OrderList(orders: seq<Value>): seq<Value> {
    Map(Sort(NewestFirst, orders), ListedOrder)
  }

  /** `GET`: the listing as a flat array; a failing query answers 500. */
  function GetOrders(db: Database): (r: Reply)
    reads db
    ensures r.status == 200 <==> db.online
    ensures db.online ==> r.body.Arr? && !Truthy(Get(r.body, "orders"))
    ensures !db.online ==> r == Failure(500, FetchFailed)
  {
    if !db.online then Failure(500, FetchFailed) else Ok(Arr(OrderList(db.orders)))
  }

  lemma ListedKeepsCreatedAt(o: Value)
    ensures Get(ListedOrder(o), "createdAt") == Get(o, "createdAt")
  {
    ListedOrderCopied(o);
    assert "createdAt" in Copied;
  }

  lemma ListedKeepsKey()
    ensures KeepsKey(NewestFirst, ListedOrder)
  {
    forall x ensures Key(NewestFirst, ListedOrder(x)) == Key(NewestFirst, x) {
      ListedKeepsCreatedAt(x);
      NewestFirstKey(ListedOrder(x), x);
    }
  }

  /** The listing is sorted by `createdAt`, newest first. */
  lemma OrderListNewestFirst(orders: seq<Value>)
    ensures Sorted(NewestFirst, OrderList(orders))
  {
    SortCorrect(NewestFirst, orders);
    ListedKeepsKey();
    MapSorted(NewestFirst, Sort(NewestFirst, orders), ListedOrder);
  }

  /** The listing holds every stored order, in its listed form. */
  lemma OrderListHasEvery(orders: seq<Value>)
    ensures |OrderList(orders)| == |orders|
    ensures forall o :: o in orders ==> ListedOrder(o) in OrderList(orders)
  {
    var sorted := Sort(NewestFirst, orders);
    SortCorrect(NewestFirst, orders);
    var list := OrderList(orders);
    forall o | o in orders ensures ListedOrder(o) in list {
      assert o in multiset(sorted);
      var i :| 0 <= i < |sorted| && sorted[i] == o;
      assert list[i] == ListedOrder(o);
    }
  }

  /** The listing holds nothing but stored orders in their listed form. */
  lemma OrderListOnlyListed(orders: seq<Value>)
    ensures forall x :: x in OrderList(orders) ==> exists o :: o in orders && x == ListedOrder(o)
  {
    var sorted := Sort(NewestFirst, orders);
    SortCorrect(NewestFirst, orders);
    var list := OrderList(orders);
    forall x | x in list ensures exists o :: o in orders && x == ListedOrder(o) {
      var i :| 0 <= i < |list| && list[i] == x;
      assert sorted[i] in multiset(orders);
    }
  }

  // ---------------------------------------------------------------- POST

  /** An order line as `order.create` stores it. */
  function StoredItem(item: Value): Value {
    Obj(map[
      "mealId" := ParseInt(Or(Get(item, "mealId"), Get(item, "id"))),
      "quantity" := ParseInt(Get(item, "quantity")),
      "price" := ParseFloat(Get(item, "price")),
      "mealName" := Or(Or(Get(item, "name"), Get(item, "mealName")), Str("Unknown")),
      "size" := Or(Or(Get(item, "sizeName"), Get(item, "size")), Str(""))])
  }

  /** The `location` column: a string is kept, any other truthy value is stored as
      its JSON text (`stringify`), and a missing one as `''`. */
  function StoredLocation(loc: Value, stringify: Value -> string): Value {
    if !Truthy(loc) then Str("") else if loc.Str? then loc else Str(stringify(loc))
  }

  /** An amount column: `parseFloat(v) || 0`, so always a number. */
  function Amount(v: Value): (r: Value)
    ensures r.Num?
  {
    Or(ParseFloat(v), Num(0.0))
  }

  /** The `data` of `order.create`; `None` when `body.items.map` throws because the
      items are not an array. */
  function NewOrder(body: Value, stringify: Value -> string): (r: Option<Record>)
    ensures r.Some? <==> Get(body, "items").Arr?
  {
    var items := Get(body, "items");
    if !items.Arr? then None
    else Some((map k | k in OrderColumns :: Column(body, stringify, k))["items" := Arr(Map(items.items, StoredItem))])
  }

  /** The columns `order.create` writes besides the lines. */
  const OrderColumns: set<string> :=
    {"customerName", "customerPhone", "location", "total", "subtotal", "deliveryCost",
     "status", "orderType", "notes", "customerAddress"}

  /** The amount columns of a new order. */
  const AmountColumns: set<string> := {"total", "subtotal", "deliveryCost"}

  /** One column of a new order: the location by `StoredLocation`, the amounts by
      `Amount`, status, type and notes with their defaults, the address by
      `PostedAddress`, and the customer's name and phone as sent. */
  function Column(body: Value, stringify: Value -> string, k: string): Value {
    if k == "location" then StoredLocation(Get(body, "location"), stringify)
    else if k in AmountColumns then Amount(Get(body, k))
    else if k == "status" then Or(Get(body, "status"), Str("new"))
    else if k == "orderType" then Or(Get(body, "orderType"), Str("delivery"))
    else if k == "notes" then Or(Get(body, "notes"), Str(""))
    else if k == "customerAddress" then PostedAddress(body)
    else Get(body, k)
  }

  /** Each fixed column of a new order is its `Column`. */
  lemma NewOrderColumn(body: Value, stringify: Value -> string, k: string)
    requires Get(body, "items").Arr? && k in OrderColumns
    ensures k in NewOrder(body, stringify).value && NewOrder(body, stringify).value[k] == Column(body, stringify, k)
  {
    assert k != "items";
  }

  /** The defaults a new order gets: status `new`, type `delivery` and empty notes. */
  lemma NewOrderDefaults(body: Value, stringify: Value -> string)
    requires Get(body, "items").Arr?
    ensures NewOrder(body, stringify).value["status"] == (if Truthy(Get(body, "status")) then Get(body, "status") else Str("new"))
    ensures NewOrder(body, stringify).value["orderType"] == (if Truthy(Get(body, "orderType")) then Get(body, "orderType") else Str("delivery"))
    ensures NewOrder(body, stringify).value["notes"] == (if Truthy(Get(body, "notes")) then Get(body, "notes") else Str(""))
  {
    NewOrderColumn(body, stringify, "status");
    NewOrderColumn(body, stringify, "orderType");
    NewOrderColumn(body, stringify, "notes");
    DefaultColumns(body, stringify);
  }

  /** The status, type and notes columns fall back to `new`, `delivery` and `''`, and
      the address column is the posted address. */
  lemma DefaultColumns(body: Value, stringify: Value -> string)
    ensures Column(body, stringify, "status") == Or(Get(body, "status"), Str("new"))
    ensures Column(body, stringify, "orderType") == Or(Get(body, "orderType"), Str("delivery"))
    ensures Column(body, stringify, "notes") == Or(Get(body, "notes"), Str(""))
    ensures Column(body, stringify, "customerAddress") == PostedAddress(body)
  {
    assert "status" !in AmountColumns && "orderType" !in AmountColumns && "notes" !in AmountColumns;
    assert "customerAddress" !in AmountColumns;
  }

  /** The address column: `customerAddress`, else `address`, else empty. */
  function PostedAddress(body: Value): (r: Value)
    ensures r == (if Truthy(Get(body, "customerAddress")) then Get(body, "customerAddress")
                  else if Truthy(Get(body, "address")) then Get(body, "address") else Str(""))
  {
    Or(Or(Get(body, "customerAddress"), Get(body, "address")), Str(""))
  }

  /** The address is stored as `PostedAddress` makes it. */
  lemma NewOrderAddress(body: Value, stringify: Value -> string)
    requires Get(body, "items").Arr?
    ensures "customerAddress" in NewOrder(body, stringify).value
    ensures NewOrder(body, stringify).value["customerAddress"] == PostedAddress(body)
  {
    NewOrderColumn(body, stringify, "customerAddress");
    DefaultColumns(body, stringify);
  }

  /** Amounts that do not parse (or parse to 0) are stored as 0. */
  lemma NewOrderAmounts(body: Value, stringify: Value -> string, k: string)
    requires Get(body, "items").Arr? && k in AmountColumns
    ensures NewOrder(body, stringify).value[k] == Amount(Get(body, k))
  {
    NewOrderColumn(body, stringify, k);
  }

  /** The location is stored as `StoredLocation` makes it. */
  lemma NewOrderLocation(body: Value, stringify: Value -> string)
    requires Get(body, "items").Arr?
    ensures NewOrder(body, stringify).value["location"] == StoredLocation(Get(body, "location"), stringify)
  {
    NewOrderColumn(body, stringify, "location");
  }

  /** A location is kept when it is a string, stored as JSON text when it is another
      truthy value, and empty when missing. */
  lemma StoredLocationCases(loc: Value, stringify: Value -> string)
    ensures loc.Str? ==> StoredLocation(loc, stringify) == loc
    ensures !loc.Str? && Truthy(loc) ==> StoredLocation(loc, stringify) == Str(stringify(loc))
    ensures !Truthy(loc) ==> StoredLocation(loc, stringify) == Str("")
  {
  }

  /** A stored line is named `name`, else `mealName`, else `Unknown`, so its name is
      never empty, and sized `sizeName`, else `size`, else empty. */
  lemma StoredLine(line: Value)
    ensures Truthy(Get(StoredItem(line), "mealName"))
    ensures Get(StoredItem(line), "mealName") == (if Truthy(Get(line, "name")) then Get(line, "name")
      else if Truthy(Get(line, "mealName")) then Get(line, "mealName") else Str("Unknown"))
    ensures Get(StoredItem(line), "size") == (if Truthy(Get(line, "sizeName")) then Get(line, "sizeName")
      else if Truthy(Get(line, "size")) then Get(line, "size") else Str(""))
  {
  }

  /** One stored line per posted line, in the posted order. */
  lemma NewOrderLines(body: Value, stringify: Value -> string)
    requires Get(body, "items").Arr?
    ensures |Items(NewOrder(body, stringify).value["items"])| == |Get(body, "items").items|
    ensures forall i :: 0 <= i < |Get(body, "items").items| ==>
      Items(NewOrder(body, stringify).value["items"])[i] == StoredItem(Get(body, "items").items[i])
  {
  }

  /** `POST`: a body that is not JSON, items that are not an array, or a failing
      write answer 500 and store nothing; otherwise the new order is stored, numbered
      with the next id and stamped `now` by the database, and sent back. */
  method CreateOrder(db: Database, body: Option<Value>, stringify: Value -> string, now: real) returns (reply: Reply)
    requires db.Valid()
    modifies db`orders, db`nextOrderId
    ensures db.Valid()
    ensures var data := if body.Some? then NewOrder(body.value, stringify) else None;
      (data.None? || !db.online) ==>
        reply == Failure(500, CreateFailed) && db.orders == old(db.orders) && db.nextOrderId == old(db.nextOrderId)
    ensures var data := if body.Some? then NewOrder(body.value, stringify) else None;
      (data.Some? && db.online) ==>
        var row := Created(data.value["createdAt" := Num(now)], old(db.nextOrderId));
        reply == Ok(row) && db.orders == old(db.orders) + [row] && db.nextOrderId == old(db.nextOrderId) + 1
  {
    if body.None? {
      return Failure(500, CreateFailed);
    }
    var data := NewOrder(body.value, stringify);
    if data.None? || !db.online {
      return Failure(500, CreateFailed);
    }
    reply := StoreOrder(db, data.value["createdAt" := Num(now)]);
  }

  /** `order.create` with the columns ready: the row is appended under the next id. */
  method StoreOrder(db: Database, columns: Record) returns (reply: Reply)
    requires db.Valid()
    modifies db`orders, db`nextOrderId
    ensures db.Valid()
    ensures var row := Created(columns, old(db.nextOrderId));
      reply == Ok(row) && db.orders == old(db.orders) + [row] && db.nextOrderId == old(db.nextOrderId) + 1
  {
    var orders, next := db.orders, db.nextOrderId;
    CreatedKeyed(orders, columns, next);
    db.orders := orders + [Created(columns, next)];
    db.nextOrderId := next + 1;
    reply := Ok(Created(columns, next));
  }

  /** The stored form of a posted order. */
  function PostedRow(body: Value, stringify: Value -> string, now: real, next: nat): Value
    requires Get(body, "items").Arr?
  {
    Created(NewOrder(body, stringify).value["createdAt" := Num(now)], next)
  }

  /** A posted order is listed under the id it was given, with the time the database
      stamped on it. */
  lemma PostedOrderListed(body: Value, stringify: Value -> string, now: real, next: nat)
    requires Get(body, "items").Arr?
    ensures Get(ListedOrder(PostedRow(body, stringify, now, next)), "orderNumber") == IdValue(next)
    ensures Get(ListedOrder(PostedRow(body, stringify, now, next)), "createdAt") == Num(now)
  {
    var row := PostedRow(body, stringify, now, next);
    ListedOrderRenamed(row);
    ListedKeepsCreatedAt(row);
  }

  /** A posted order is listed with the address it was stored with. */
  lemma PostedOrderAddress(body: Value, stringify: Value -> string, now: real, next: nat)
    requires Get(body, "items").Arr?
    ensures Get(ListedOrder(PostedRow(body, stringify, now, next)), "address") ==
      (if Truthy(Get(body, "customerAddress")) then Get(body, "customerAddress")
       else if Truthy(Get(body, "address")) then Get(body, "address") else Str(""))
  {
    var row := PostedRow(body, stringify, now, next);
    ListedOrderRenamed(row);
    NewOrderAddress(body, stringify);
    PostedRowColumn(body, stringify, now, next, "customerAddress");
  }

  /** A posted column other than the id and the time stamp is stored as posted. */
  lemma PostedRowColumn(body: Value, stringify: Value -> string, now: real, next: nat, k: string)
    requires Get(body, "items").Arr? && k != "id" && k != "createdAt" && k in NewOrder(body, stringify).value
    ensures Get(PostedRow(body, stringify, now, next), k) == NewOrder(body, stringify).value[k]
  {
  }

  /** Each line of a posted order is listed under the name it was stored with:
      `name`, else `mealName`, else `Unknown`. */
  lemma PostedLinesListed(body: Value, stringify: Value -> string, now: real, next: nat)
    requires Get(body, "items").Arr?
    ensures |Items(Get(ListedOrder(PostedRow(body, stringify, now, next)), "items"))| == |Get(body, "items").items|
    ensures forall i :: 0 <= i < |Get(body, "items").items| ==>
      Get(Items(Get(ListedOrder(PostedRow(body, stringify, now, next)), "items"))[i], "name")
      == Or(Or(Get(Get(body, "items").items[i], "name"), Get(Get(body, "items").items[i], "mealName")), Str("Unknown"))
  {
    var row := PostedRow(body, stringify, now, next);
    var posted := Get(body, "items").items;
    ListedOrderLines(row);
    NewOrderLines(body, stringify);
    assert Items(Get(row, "items")) == Items(NewOrder(body, stringify).value["items"]);
    var lines := Items(Get(ListedOrder(row), "items"));
    forall i | 0 <= i < |posted|
      ensures Get(lines[i], "name") == Or(Or(Get(posted[i], "name"), Get(posted[i], "mealName")), Str("Unknown"))
    {
      StoredLine(posted[i]);
    }
  }

  // ---------------------------------------------------------------- PUT

  /** The `data` of the update, built field by field: `status` when it is truthy,
      `rating` (through `parseInt`) and `review` when they are not `undefined`. */
  function StatusPatch(body: Value): (data: Record)
    ensures data.Keys <= {"status", "rating", "review"}
    ensures "status" in data <==> Truthy(Get(body, "status"))
    ensures "rating" in data <==> Get(body, "rating") != Undefined
    ensures "review" in data <==> Get(body, "review") != Undefined
    ensures "status" in data ==> data["status"] == Get(body, "status")
    ensures "rating" in data ==> data["rating"] == ParseInt(Get(body, "rating"))
    ensures "review" in data ==> data["review"] == Get(body, "review")
  {
    var d0: Record := map[];
    var d1 := if Truthy(Get(body, "status")) then d0["status" := Get(body, "status")] else d0;
    var d2 := if Get(body, "rating") != Undefined then d1["rating" := ParseInt(Get(body, "rating"))] else d1;
    if Get(body, "review") != Undefined then d2["review" := Get(body, "review")] else d2
  }

  /** The update touches nothing but status, rating and review; in particular the
      completion time, the items and the amounts stay as stored. */
  lemma StatusPatchKeepsOthers(row: Value, body: Value)
    ensures forall k :: k != "status" && k != "rating" && k != "review" ==>
      Get(Patched(row, StatusPatch(body)), k) == Get(row, k)
    ensures Get(Patched(row, StatusPatch(body)), "completedAt") == Get(row, "completedAt")
    ensures !Truthy(Get(body, "status")) ==> Get(Patched(row, StatusPatch(body)), "status") == Get(row, "status")
  {
  }

  /** The row `order.update` returns: with no `include`, every column but the lines. */
  function WithoutLines(row: Value): (r: Value)
    ensures r.Obj? && "items" !in r.props
    ensures forall k :: k != "items" ==> Get(r, k) == Get(row, k)
  {
    Obj(Props(row) - {"items"})
  }

  /** `PUT`: no JSON body, a `null` one (its destructuring throws), or a failing
      update (no order with that id) answers 500; a body without a truthy `id`
      answers 400; otherwise the order is updated in place and sent back without its
      lines. */
  method UpdateOrder(db: Database, body: Option<Value>) returns (reply: Reply)
    requires db.Valid()
    modifies db`orders
    ensures db.Valid()
    ensures body.None? || body.value.Null? ==> reply == Failure(500, UpdateFailed) && db.orders == old(db.orders)
    ensures body.Some? && !body.value.Null? && !Truthy(Get(body.value, "id")) ==>
      reply == Failure(400, IdRequired) && db.orders == old(db.orders)
    ensures body.Some? && Truthy(Get(body.value, "id")) ==>
      var at := Find(old(db.orders), ParseInt(Get(body.value, "id")));
      && (!db.online || at.None? ==> reply == Failure(500, UpdateFailed) && db.orders == old(db.orders))
      && (db.online && at.Some? ==>
            var row := Patched(old(db.orders)[at.value], StatusPatch(body.value));
            reply == Ok(WithoutLines(row)) && db.orders == old(db.orders)[at.value := row])
  {
    if body.None? || body.value.Null? {
      return Failure(500, UpdateFailed);
    }
    var b := body.value;
    if !Truthy(Get(b, "id")) {
      return Failure(400, IdRequired);
    }
    var data := StatusPatch(b);
    if !db.online {
      return Failure(500, UpdateFailed);
    }
    var at := Find(db.orders, ParseInt(Get(b, "id")));
    if at.None? {
      return Failure(500, UpdateFailed);
    }
    var row := Patched(db.orders[at.value], data);
    PatchedKeyed(db.orders, db.nextOrderId, at.value, data);
    db.orders := db.orders[at.value := row];
    reply := Ok(WithoutLines(row));
  }

  // ---------------------------------------------------------------- DELETE

  /** `DELETE ?id=`: a missing or empty id answers 400; an id no order has, or a
      failing query, answers 500; otherwise that order is gone and every other kept. */
  method DeleteOrder(db: Database, id: Option<string>) returns (reply: Reply)
    requires db.Valid()
    modifies db`orders
    ensures db.Valid()
    ensures !Truthy(Param(id)) ==> reply == Failure(400, IdRequired) && db.orders == old(db.orders)
    ensures Truthy(Param(id)) ==>
      var at := Find(old(db.orders), ParseIntStr(id.value));
      && (!db.online || at.None? ==> reply == Failure(500, DeleteFailed) && db.orders == old(db.orders))
      && (db.online && at.Some? ==>
            reply == Ok(Success) && db.orders == Removed(old(db.orders), at.value)
            && Find(db.orders, ParseIntStr(id.value)).None?
            && forall o :: o in db.orders <==> o in old(db.orders) && o != old(db.orders)[at.value])
  {
    if !Truthy(Param(id)) {
      return Failure(400, IdRequired);
    }
    if !db.online {
      return Failure(500, DeleteFailed);
    }
    var at := Find(db.orders, ParseIntStr(id.value));
    if at.None? {
      return Failure(500, DeleteFailed);
    }
    RemovedKeyed(db.orders, db.nextOrderId, at.value);
    db.orders := Removed(db.orders, at.value);
    reply := Ok(Success);
  }
}
