// The settings endpoints (app/api/settings/route.js): the stored row read back in the
// shape the pages use, with the `delivery*` columns nested under `delivery`; and the
// save, which flattens that shape into columns, drops the fields that were not sent
// and upserts the row `id: 1`.
module SettingsRoute {
  import opened Js
  import opened Db

  const FetchFailed: string := "Failed to fetch settings"
  const SaveFailed: string := "Failed to save settings"

  /** The fields a save copies from the body as they are. */
  const Copied: set<string> :=
    {"restaurantName", "phone", "address", "isOpen", "adminPassword", "openTime", "closeTime", "allowPreOrders", "currency"}

  /** The pre-order hours, read with `parseInt` when they are sent. */
  const Hours: set<string> := {"minPreOrderHours", "maxPreOrderHours"}

  /** The keys of the nested `delivery` object. */
  const DeliveryKeys: set<string> := {"enabled", "type", "fixedCost", "costPerKm", "maxDistance", "freeAbove"}

  /** The delivery amounts, read as `parseFloat(x || 0)`. */
  const Costs: set<string> := {"fixedCost", "costPerKm", "maxDistance", "freeAbove"}

  /** The plain fields the row is shown with: its id and every copied or parsed field. */
  const Shown: set<string> := Copied + Hours + {"id"}

  /** The `delivery*` columns. */
  const DeliveryColumns: set<string> :=
    {"deliveryEnabled", "deliveryType", "deliveryFixedCost", "deliveryCostPerKm", "deliveryMaxDistance", "deliveryFreeAbove"}

  /** The column that holds a delivery key. */
  function ColumnOf(k: string): (c: string)
    ensures k in DeliveryKeys ==> c in DeliveryColumns
  {
    if k == "enabled" then "deliveryEnabled"
    else if k == "type" then "deliveryType"
    else if k == "fixedCost" then "deliveryFixedCost"
    else if k == "costPerKm" then "deliveryCostPerKm"
    else if k == "maxDistance" then "deliveryMaxDistance"
    else "deliveryFreeAbove"
  }

  /** The delivery key a `delivery*` column holds. */
  function KeyOf(c: string): (k: string)
    ensures c in DeliveryColumns ==> k in DeliveryKeys && ColumnOf(k) == c
  {
    if c == "deliveryEnabled" then "enabled"
    else if c == "deliveryType" then "type"
    else if c == "deliveryFixedCost" then "fixedCost"
    else if c == "deliveryCostPerKm" then "costPerKm"
    else if c == "deliveryMaxDistance" then "maxDistance"
    else "freeAbove"
  }

  /** Every column a save may write. */
  const Columns: set<string> := Copied + Hours + DeliveryColumns

  /** The field groups name distinct columns, and none of them is the id, `delivery`
      or a Telegram column. */
  lemma Disjoint()
    ensures Copied !! Hours && Copied !! DeliveryColumns && Hours !! DeliveryColumns
    ensures "delivery" !in Shown && "delivery" !in DeliveryColumns
    ensures "id" !in Columns
    ensures forall k :: k == "telegramBotToken" || k == "telegramChatId" ==> k !in Shown && k !in Columns && k != "delivery"
  {
  }

  /** A `delivery*` column is neither a copied nor a parsed field. */
  lemma ColumnApart(c: string)
    requires c in DeliveryColumns
    ensures c !in Copied && c !in Hours
  {
    Disjoint();
  }

  // ---------------------------------------------------------------- row -> page shape

  /** `mapSettingsToFrontend`: `{}` for a missing row; otherwise the plain fields and a
      `delivery` object read from the `delivery*` columns. The Telegram columns are not
      part of the shape. */
  function Frontend(row: Value): (r: Value)
    ensures r.Obj?
    ensures !Truthy(row) ==> r.props == map[]
    ensures "telegramBotToken" !in r.props && "telegramChatId" !in r.props
  {
    Disjoint();
    if !Truthy(row) then Obj(map[])
    else Obj(map k | k in Shown + {"delivery"} :: if k == "delivery" then Obj(DeliveryView(row)) else Get(row, k))
  }

  /** The nested `delivery` object of the page shape. */
  function DeliveryView(row: Value): (d: Record)
    ensures d.Keys == DeliveryKeys
  {
    map k | k in DeliveryKeys :: Get(row, ColumnOf(k))
  }

  /** A stored row is shown with its own plain fields, and with nothing else but
      `delivery`. */
  lemma FrontendFields(row: Value, k: string)
    requires Truthy(row)
    ensures k in Shown ==> Get(Frontend(row), k) == Get(row, k)
    ensures k !in Shown && k != "delivery" ==> Get(Frontend(row), k) == Undefined
  {
    Disjoint();
  }

  /** Each delivery key of the shown row is read from that key's column. */
  lemma FrontendDelivery(row: Value, k: string)
    requires Truthy(row) && k in DeliveryKeys
    ensures Get(Get(Frontend(row), "delivery"), k) == Get(row, ColumnOf(k))
  {
  }

  // ---------------------------------------------------------------- page shape -> columns

  /** `parseInt(x)` when the hours were sent, and `undefined` otherwise. */
  function HoursColumn(v: Value): (r: Value)
    ensures r == Undefined <==> v == Undefined
  {
    if v != Undefined then ParseInt(v) else Undefined
  }

  /** A delivery column's value when `delivery` is truthy: amounts through
      `parseFloat(x || 0)`, the other keys as sent. */
  function DeliveryColumn(d: Value, k: string): (r: Value)
    ensures k in Costs ==> r.Num? || r.NaN?
  {
    if k in Costs then ParseFloat(Or(Get(d, k), Num(0.0))) else Get(d, k)
  }

  /** The `data` object a save builds: one entry per column, `undefined` where the
      body has nothing for it; every delivery column is `undefined` when `delivery`
      is falsy. */
  function FlatData(body: Value): (data: Record)
    ensures data.Keys == Columns
  {
    map c | c in Columns :: FlatColumn(body, c)
  }

  /** The value `FlatData` gives column `c`. */
  function FlatColumn(body: Value, c: string): Value {
    var d := Get(body, "delivery");
    if c in Copied then Get(body, c)
    else if c in Hours then HoursColumn(Get(body, c))
    else if Truthy(d) then DeliveryColumn(d, KeyOf(c))
    else Undefined
  }

  /** What `FlatData` puts in each column, and that it writes neither the id nor the
      Telegram columns. */
  lemma FlatDataColumns(body: Value, k: string)
    ensures k in Copied ==> k in FlatData(body) && FlatData(body)[k] == Get(body, k)
    ensures k in Hours ==> k in FlatData(body) && FlatData(body)[k] == HoursColumn(Get(body, k))
    ensures "id" !in FlatData(body) && "telegramBotToken" !in FlatData(body) && "telegramChatId" !in FlatData(body)
  {
    Disjoint();
  }

  /** A delivery key's column holds the key's value when `delivery` is truthy, and
      `undefined` when it is not. */
  lemma FlatDataDelivery(body: Value, k: string)
    requires k in DeliveryKeys
    ensures ColumnOf(k) in FlatData(body)
    ensures FlatData(body)[ColumnOf(k)] ==
      if Truthy(Get(body, "delivery")) then DeliveryColumn(Get(body, "delivery"), k) else Undefined
  {
    var c := ColumnOf(k);
    ColumnApart(c);
    assert KeyOf(c) == k;
  }

  /** The entries of `data` that are not `undefined`. */
  ghost function Defined(data: Record): (r: Record)
  {
    map k | k in data && data[k] != Undefined :: data[k]
  }

  /** `Object.keys(data).forEach(key => data[key] === undefined && delete data[key])`. */
  method StripUndefined(data: Record) returns (r: Record)
    ensures forall k :: k in r <==> k in data && data[k] != Undefined
    ensures forall k :: k in r ==> r[k] == data[k]
  {
    r := data;
    var keys := data.Keys;
    while keys != {}
      invariant keys <= data.Keys
      invariant forall k :: k in r <==> k in data && (k in keys || data[k] != Undefined)
      invariant forall k :: k in r ==> r[k] == data[k]
      decreases keys
    {
      var k :| k in keys;
      if data[k] == Undefined {
        r := r - {k};
      }
      keys := keys - {k};
    }
  }

  /** `upsert({ where: { id: 1 }, update: data, create: { id: 1, ...data } })`. */
  function Upserted(before: Option<Value>, data: Record): (row: Value)
    requires "id" !in data
    ensures before.None? ==> Get(row, "id") == IdValue(1)
    ensures before.Some? ==> Get(row, "id") == Get(before.value, "id")
    ensures forall k :: k != "id" ==>
      Get(row, k) == if k in data then data[k] else if before.Some? then Get(before.value, k) else Undefined
  {
    if before.Some? then Patched(before.value, data) else Created(data, 1)
  }

  /** The row after saving `body` over `before`. */
  ghost function Saved(before: Option<Value>, body: Value): Value {
    FlatDataColumns(body, "id");
    Upserted(before, Defined(FlatData(body)))
  }

  // ---------------------------------------------------------------- handlers

  /** `GET`: the stored row in the page shape, `{}` when there is none; a failing
      query answers 500. */
  function GetSettings(db: Database): (r: Reply)
    reads db
    ensures r.status == 200 <==> db.online
    ensures !db.online ==> r == Failure(500, FetchFailed)
    ensures db.online && db.settings.None? ==> r.body == Obj(map[])
    ensures db.online && db.settings.Some? && Truthy(db.settings.value) ==>
      forall k :: k in Shown ==> Get(r.body, k) == Get(db.settings.value, k)
  {
    if !db.online then Failure(500, FetchFailed)
    else if db.settings.None? then Ok(Obj(map[]))
    else
      var row := db.settings.value;
      assert Truthy(row) ==> forall k :: k in Shown ==> Get(Frontend(row), k) == Get(row, k) by {
        if Truthy(row) { forall k | k in Shown ensures Get(Frontend(row), k) == Get(row, k) { FrontendFields(row, k); } }
      }
      Ok(Frontend(row))
  }

  /** The answer to a save and the settings row after it. A body that is not JSON, a
      `null` one (reading `body.restaurantName` throws), or a failing database, answers
      500 and leaves the row as it was. */
  ghost function Saving(before: Option<Value>, online: bool, body: Option<Value>): (Reply, Option<Value>) {
    if body.None? || body.value.Null? || !online then (Failure(500, SaveFailed), before)
    else
      var row := Saved(before, body.value);
      (Ok(Frontend(row)), Some(row))
  }

  /** `PUT`. */
  method PutSettings(db: Database, body: Option<Value>) returns (reply: Reply)
    modifies db`settings
    ensures (reply, db.settings) == Saving(old(db.settings), db.online, body)
  {
    if body.None? || body.value.Null? || !db.online {
      reply := Failure(500, SaveFailed);
    } else {
      var data := StripUndefined(FlatData(body.value));
      assert data == Defined(FlatData(body.value));
      FlatDataColumns(body.value, "id");
      var row := Upserted(db.settings, data);
      db.settings := Some(row);
      reply := Ok(Frontend(row));
    }
  }

  /** `POST`, which hands the request to `PUT`. */
  method PostSettings(db: Database, body: Option<Value>) returns (reply: Reply)
    modifies db`settings
    ensures (reply, db.settings) == Saving(old(db.settings), db.online, body)
  {
    reply := PutSettings(db, body);
  }

  // ---------------------------------------------------------------- properties

  /** A failed save answers 500 and writes nothing. */
  lemma SavingFails(before: Option<Value>, online: bool, body: Option<Value>)
    requires body.None? || body.value.Null? || !online
    ensures Saving(before, online, body) == (Failure(500, SaveFailed), before)
  {
  }

  /** A save keeps the row's id, and a first save creates the row `id: 1`. */
  lemma SavedId(before: Option<Value>, body: Value)
    ensures Get(Saved(before, body), "id") == if before.Some? then Get(before.value, "id") else IdValue(1)
  {
    FlatDataColumns(body, "id");
  }

  /** The column `c` after saving: its value in `data` when that is defined, and its
      old value otherwise. */
  lemma SavedColumn(before: Option<Value>, body: Value, c: string)
    requires c != "id" && c in FlatData(body)
    ensures Get(Saved(before, body), c) ==
      if FlatData(body)[c] != Undefined then FlatData(body)[c]
      else if before.Some? then Get(before.value, c) else Undefined
  {
    FlatDataColumns(body, "id");
  }

  /** A save writes the copied and parsed fields that were sent, and leaves the fields
      that were not sent as they were. */
  lemma SavedPlainFields(before: Option<Value>, body: Value, k: string)
    requires k in Copied || k in Hours
    ensures var sent := Get(body, k);
      Get(Saved(before, body), k) ==
        if sent == Undefined then (if before.Some? then Get(before.value, k) else Undefined)
        else if k in Hours then ParseInt(sent) else sent
  {
    FlatDataColumns(body, k);
    SavedColumn(before, body, k);
  }

  /** With a truthy `delivery`, a save writes every amount (as `parseFloat(x || 0)`) and
      the enabled flag and type that were sent; with a falsy one it writes no delivery
      column. */
  lemma SavedDeliveryFields(before: Option<Value>, body: Value, k: string)
    requires k in DeliveryKeys
    ensures var d := Get(body, "delivery");
      var old_ := if before.Some? then Get(before.value, ColumnOf(k)) else Undefined;
      Get(Saved(before, body), ColumnOf(k)) ==
        if !Truthy(d) then old_
        else if k in Costs then ParseFloat(Or(Get(d, k), Num(0.0)))
        else if Get(d, k) == Undefined then old_
        else Get(d, k)
  {
    FlatDataDelivery(body, k);
    SavedColumn(before, body, ColumnOf(k));
  }

  /** A save never writes the Telegram columns. */
  lemma SavedKeepsTelegram(before: Option<Value>, body: Value, k: string)
    requires k == "telegramBotToken" || k == "telegramChatId"
    ensures Get(Saved(before, body), k) == if before.Some? then Get(before.value, k) else Undefined
  {
    FlatDataColumns(body, k);
  }

  /** Reading the page shape back inverts the flattening: the row a save answers with
      holds, for each field sent, the value sent (the hours parsed), and under
      `delivery` the enabled flag and type sent and the parsed amounts. */
  lemma SaveRoundTrip(before: Option<Value>, body: Value, k: string)
    ensures var view := Frontend(Saved(before, body));
      && (k in Copied && Get(body, k) != Undefined ==> Get(view, k) == Get(body, k))
      && (k in Hours && Get(body, k) != Undefined ==> Get(view, k) == ParseInt(Get(body, k)))
      && (k in DeliveryKeys && Truthy(Get(body, "delivery")) && (k in Costs || Get(Get(body, "delivery"), k) != Undefined) ==>
            Get(Get(view, "delivery"), k) == DeliveryColumn(Get(body, "delivery"), k))
  {
    var row := Saved(before, body);
    assert Truthy(row) by { SavedId(before, body); }
    FrontendFields(row, k);
    if k in Copied || k in Hours { SavedPlainFields(before, body, k); }
    if k in DeliveryKeys { FrontendDelivery(row, k); SavedDeliveryFields(before, body, k); }
  }

  /** A field that was not sent is shown as it was stored. */
  lemma SaveKeepsAbsent(row: Value, body: Value, k: string)
    requires Truthy(row)
    ensures var view := Frontend(Saved(Some(row), body));
      && ((k in Copied || k in Hours) && Get(body, k) == Undefined ==> Get(view, k) == Get(row, k))
      && (k in DeliveryKeys && !Truthy(Get(body, "delivery")) ==> Get(Get(view, "delivery"), k) == Get(row, ColumnOf(k)))
  {
    var saved := Saved(Some(row), body);
    assert Truthy(saved) by { SavedId(Some(row), body); }
    FrontendFields(saved, k);
    if k in Copied || k in Hours { SavedPlainFields(Some(row), body, k); }
    if k in DeliveryKeys { FrontendDelivery(saved, k); SavedDeliveryFields(Some(row), body, k); }
  }

  /** After a successful save, `GET` answers with what the save answered. */
  lemma GetAfterSave(db: Database, before: Option<Value>, body: Option<Value>)
    requires db.online && body.Some? && !body.value.Null?
    requires db.settings == Saving(before, db.online, body).1
    ensures GetSettings(db) == Saving(before, db.online, body).0
  {
  }
}
