// The browser-side data layer (public/js/data.js): the in-memory application state
// with its localStorage cache, the deduplicating loader, the optimistic mutators,
// order normalisation, paging and the realtime subscription.
module Data {
  import opened Js
  import opened Lists

  // ---------------------------------------------------------------- constants

  /** The fallback settings used before the server has answered. */
  const FallbackSettings: Record := map[
    "restaurantName" := Str(""),
    "phone" := Str("0555123456"),
    "address" := Str("الجزائر العاصمة"),
    "currency" := Str("دج"),
    "isOpen" := Bool(true),
    "allowPreOrders" := Bool(true),
    "openTime" := Str("10:00"),
    "closeTime" := Str("23:00"),
    "delivery" := Obj(map["enabled" := Bool(true), "type" := Str("fixed"), "fixedCost" := Num(200.0)]),
    "adminPassword" := Str("admin123")]

  /** The defaults `getSettings()` lays under the stored settings. */
  const SettingsDefaults: Record := map[
    "restaurantName" := Str(""),
    "currency" := Str("دج"),
    "isOpen" := Bool(true),
    "delivery" := Obj(map["enabled" := Bool(true), "type" := Str("fixed"), "fixedCost" := Num(200.0)]),
    "adminPassword" := Str("admin123")]

  const RefreshIntervalMs: nat := 5000
  const ResubscribeDelayMs: nat := 5000
  const AutoSubscribeDelayMs: nat := 1000

  // ---------------------------------------------------------------- environment

  /** The outcome of an awaited server call. */
  datatype Response = Rejected | Resolved(data: Value)

  /** How an async function finished: its returned value, or a rejected promise. */
  datatype Completion = Returned(value: Value) | Threw

  /** How an admin form's submit handler ends: the error message it shows, or the
      record it hands to the update or the create mutator. */
  datatype SaveOutcome = Invalid(message: string) | Update(record: Value) | Create(record: Value)

  /** A request sent to the server: an `ApiClient` helper (whose URL is not part of this
      model) or `ApiClient.request(path?query, {method})`. */
  datatype Outgoing =
    | ApiCall(name: string, args: seq<Value>)
    | Http(verb: string, path: string, query: seq<(string, string)>, body: Option<Value>)

  /** What a timer or handler asks to run later. */
  datatype Effect = Refresh | Resubscribe

  datatype Timer = Timer(delayMs: nat, repeat: bool, action: Effect)

  datatype Key = Categories | Meals | Settings | Orders

  /** What `fetchIfNeeded` hands back: already loaded (`Promise.resolve(true)`),
      the promise of a fetch in flight, or the promise of a fetch it has just started. */
  datatype Ticket = AlreadyLoaded | Joined | Started

  /** One run of `initializeData`: the ticket per collection it asked for, the
      collections whose promises it awaits, and whether it fired `refreshOrders()`. */
  datatype InitRun = InitRun(categories: Option<Ticket>, meals: Option<Ticket>, settings: Option<Ticket>,
                             orders: Option<Ticket>, awaited: set<Key>, backgroundRefresh: bool)

  // ---------------------------------------------------------------- order normalisation

  /** The overlay of locally recorded completion times, `None` when its JSON is unreadable. */
  function Overlay(st: Storage): Option<Value> {
    ReadJson(st, "localCompletedDates", Obj(map[]))
  }

  /** `localDates[id]`; `None` when the read throws (the overlay parsed to `null`). */
  function OverlayRead(localDates: Value, id: Value): Option<Value> {
    if localDates.Null? then None
    else Some(if localDates.Obj? then Get(localDates, ToJsString(id)) else Undefined)
  }

  /** An order line with `name` and `sizeName` filled in. */
  function NormalizeItem(item: Value): (r: Value)
    ensures r.Obj?
    ensures Truthy(Get(r, "name"))
    ensures Truthy(Get(item, "name")) ==> Get(r, "name") == Get(item, "name")
    ensures !Truthy(Get(item, "name")) && Truthy(Get(item, "mealName")) ==> Get(r, "name") == Get(item, "mealName")
    ensures !Truthy(Get(item, "name")) && !Truthy(Get(item, "mealName")) ==> Get(r, "name") == Str("Unknown")
    ensures Truthy(Get(item, "sizeName")) ==> Get(r, "sizeName") == Get(item, "sizeName")
    ensures !Truthy(Get(item, "sizeName")) && Truthy(Get(item, "size")) ==> Get(r, "sizeName") == Get(item, "size")
    ensures !Truthy(Get(item, "sizeName")) && !Truthy(Get(item, "size")) ==> Get(r, "sizeName") == Str("")
    ensures forall k :: k in Props(item) && k != "name" && k != "sizeName" ==> k in r.props && r.props[k] == Props(item)[k]
  {
    Obj(Props(item)
      ["name" := Or(Or(Get(item, "name"), Get(item, "mealName")), Str("Unknown"))]
      ["sizeName" := Or(Or(Get(item, "sizeName"), Get(item, "size")), Str(""))])
  }

  /** The `location` after parsing: a string whose trimmed text starts with `{` is
      JSON-parsed, a parse failure giving `null`; anything else is kept. */
  function ParsedLocation(loc: Value, parseJson: string -> Option<Value>): Value {
    if loc.Str? && StartsWith(Trim(loc.s), "{") then
      match parseJson(loc.s)
      case Some(v) => v
      case None => Null
    else loc
  }

  /** The completion time: a delivered order without one takes the overlay's entry,
      or else its creation time; an unreadable overlay leaves it as it was. */
  function CompletedAt(order: Value, localDates: Option<Value>): Value {
    var c := Get(order, "completedAt");
    if !Truthy(c) && Get(order, "status") == Str("delivered") then
      match localDates
      case None => c
      case Some(d) =>
        match OverlayRead(d, Get(order, "id"))
        case None => c
        case Some(x) => Or(x, Get(order, "createdAt"))
    else c
  }

  /** `normalizeOrder(order)`: the server's order shape turned into the one the pages use. */
  function NormalizeOrder(order: Value, localDates: Option<Value>, parseJson: string -> Option<Value>): (r: Value)
    ensures !Truthy(order) <==> r.Null?
    ensures Truthy(order) ==> r.Obj?
  {
    if !Truthy(order) then Null
    else
      var its := Get(order, "items");
      var items := if its.Arr? then Arr(Map(its.items, NormalizeItem)) else Arr([]);
      Obj(Props(order)
        ["location" := ParsedLocation(Get(order, "location"), parseJson)]
        ["orderNumber" := Or(Get(order, "orderNumber"), Get(order, "id"))]
        ["items" := items]
        ["completedAt" := CompletedAt(order, localDates)])
  }

  /** The fields the pages read after normalisation. */
  lemma NormalizeOrderFields(order: Value, localDates: Option<Value>, parseJson: string -> Option<Value>)
    requires Truthy(order)
    ensures var r := NormalizeOrder(order, localDates, parseJson);
      && Get(r, "orderNumber") == Or(Get(order, "orderNumber"), Get(order, "id"))
      && Get(r, "location") == ParsedLocation(Get(order, "location"), parseJson)
      && Get(r, "completedAt") == CompletedAt(order, localDates)
      && Get(r, "id") == Get(order, "id")
      && Get(r, "status") == Get(order, "status")
      && Get(r, "createdAt") == Get(order, "createdAt")
  {
  }

  /** Normalising an order line twice is normalising it once. */
  lemma NormalizeItemIdempotent(item: Value)
    ensures NormalizeItem(NormalizeItem(item)) == NormalizeItem(item)
  {
    var once := NormalizeItem(item);
    assert Props(NormalizeItem(once)) == Props(once);
  }

  lemma {:induction false} MapNormalizeItemIdempotent(s: seq<Value>)
    ensures Map(Map(s, NormalizeItem), NormalizeItem) == Map(s, NormalizeItem)
  {
    var once := Map(s, NormalizeItem);
    forall i | 0 <= i < |s| ensures Map(once, NormalizeItem)[i] == once[i] {
      NormalizeItemIdempotent(s[i]);
    }
  }

  /** Every line of a normalised order has a name and an (empty when unknown) size name. */
  lemma NormalizedItemsNamed(order: Value, localDates: Option<Value>, parseJson: string -> Option<Value>)
    requires Truthy(order)
    ensures var its := Get(NormalizeOrder(order, localDates, parseJson), "items");
      its.Arr? && |its.items| == |Items(Get(order, "items"))|
      && forall i :: 0 <= i < |its.items| ==> Truthy(Get(its.items[i], "name"))
  {
  }

  /** A parsed location is not parsed again, as long as the parser never yields a string
      for a text that starts with `{`. */
  lemma ParsedLocationIdempotent(loc: Value, parseJson: string -> Option<Value>)
    requires loc.Str? && parseJson(loc.s).Some? ==> !parseJson(loc.s).value.Str?
    ensures ParsedLocation(ParsedLocation(loc, parseJson), parseJson) == ParsedLocation(loc, parseJson)
  {
  }

  /** The completion time depends on the fields normalisation keeps, and a back-filled
      time is kept or back-filled again to the same value. */
  lemma CompletedAtIdempotent(order: Value, once: Value, localDates: Option<Value>)
    requires Get(once, "id") == Get(order, "id") && Get(once, "status") == Get(order, "status")
    requires Get(once, "createdAt") == Get(order, "createdAt")
    requires Get(once, "completedAt") == CompletedAt(order, localDates)
    ensures CompletedAt(once, localDates) == CompletedAt(order, localDates)
  {
  }

  /** Normalising an already normalised order changes nothing (with the same overlay),
      provided the JSON parser never returns a string for a text starting with `{`. */
  lemma NormalizeOrderIdempotent(order: Value, localDates: Option<Value>, parseJson: string -> Option<Value>)
    requires var l := Get(order, "location"); l.Str? && parseJson(l.s).Some? ==> !parseJson(l.s).value.Str?
    ensures var once := NormalizeOrder(order, localDates, parseJson);
      NormalizeOrder(once, localDates, parseJson) == once
  {
    if Truthy(order) {
      var once := NormalizeOrder(order, localDates, parseJson);
      NormalizeOrderFields(order, localDates, parseJson);
      NormalizeOrderFields(once, localDates, parseJson);
      ParsedLocationIdempotent(Get(order, "location"), parseJson);
      CompletedAtIdempotent(order, once, localDates);
      var its := Get(order, "items");
      if its.Arr? {
        MapNormalizeItemIdempotent(its.items);
      }
      var p := Props(once);
      var loc := ParsedLocation(Get(once, "location"), parseJson);
      var num := Or(Get(once, "orderNumber"), Get(once, "id"));
      var oi := Get(once, "items");
      var items := if oi.Arr? then Arr(Map(oi.items, NormalizeItem)) else Arr([]);
      var done := CompletedAt(once, localDates);
      UpdateSame(p, "location", loc);
      UpdateSame(p, "orderNumber", num);
      UpdateSame(p, "items", items);
      UpdateSame(p, "completedAt", done);
    }
  }

  /** Writing a key's own value back leaves a record as it was. */
  lemma UpdateSame(m: Record, k: string, v: Value)
    requires k in m && m[k] == v
    ensures m[k := v] == m
  {
  }

  /** Every entry of `orders` normalised against one reading of the overlay. */
  function NormalizeAll(orders: seq<Value>, st: Storage, parseJson: string -> Option<Value>): (r: seq<Value>)
    ensures |r| == |orders|
    ensures forall i :: 0 <= i < |orders| ==> r[i] == NormalizeOrder(orders[i], Overlay(st), parseJson)
  {
    Map(orders, o => NormalizeOrder(o, Overlay(st), parseJson))
  }

  // ---------------------------------------------------------------- initializeData selection

  /** Which collections `initializeData(options)` asks for. An empty options object
      loads everything; settings are loaded unless `options.settings === false`;
      orders only on an admin page or when asked for. */
  function Selected(options: Record, isAdminPage: bool): set<Key> {
    var loadAll := |options| == 0;
    var o := Obj(options);
    (if loadAll || Truthy(Get(o, "categories")) then {Categories} else {})
    + (if loadAll || Truthy(Get(o, "meals")) then {Meals} else {})
    + (if loadAll || Get(o, "settings") != Bool(false) then {Settings} else {})
    + (if (loadAll && isAdminPage) || Truthy(Get(o, "orders")) then {Orders} else {})
  }

  /** Settings are asked for by every call except one that passes `settings: false`. */
  lemma SettingsSelected(options: Record, isAdminPage: bool)
    ensures Settings in Selected(options, isAdminPage) <==> !("settings" in options && options["settings"] == Bool(false))
  {
  }

  /** `initializeData({force: true})` is not a call with empty options: it asks for settings only. */
  lemma ForceAloneLoadsSettingsOnly(isAdminPage: bool)
    ensures Selected(map["force" := Bool(true)], isAdminPage) == {Settings}
  {
    var o := map["force" := Bool(true)];
    assert |o| == 1;
    assert Get(Obj(o), "categories") == Get(Obj(o), "meals") == Get(Obj(o), "settings") == Get(Obj(o), "orders") == Undefined;
    var s := Selected(o, isAdminPage);
    assert Categories !in s && Meals !in s && Orders !in s && Settings in s;
  }

  /** Orders are asked for on storefront pages only when the caller passes `orders`. */
  lemma OrdersSelected(options: Record, isAdminPage: bool)
    ensures Orders in Selected(options, isAdminPage) <==>
      ((|options| == 0 && isAdminPage) || ("orders" in options && Truthy(options["orders"])))
  {
  }

  // ---------------------------------------------------------------- list operations behind the mutators

  /** `e.id === id`. */
  predicate HasId(e: Value, id: Value) {
    StrictEq(Get(e, "id"), id)
  }

  /** `list.findIndex(e => e.id === id)`: the first position holding that id, or -1. */
  function IndexOfId(s: seq<Value>, id: Value): (i: int)
    ensures -1 <= i < |s|
    ensures i >= 0 ==> HasId(s[i], id) && forall j :: 0 <= j < i ==> !HasId(s[j], id)
    ensures i == -1 ==> forall j :: 0 <= j < |s| ==> !HasId(s[j], id)
  {
    if s == [] then -1
    else if HasId(s[0], id) then 0
    else var k := IndexOfId(s[1..], id); if k == -1 then -1 else k + 1
  }

  /** `toggleMealActive(id)` and `toggleCategoryActive(id)`: the entry found by
      `e.id === id`, spread with only `active` flipped; nothing when no entry has that id. */
  function Toggled(s: seq<Value>, id: Value): (r: Option<Value>)
    ensures r.None? <==> forall j :: 0 <= j < |s| ==> !HasId(s[j], id)
    ensures r.Some? ==> Get(r.value, "active") == Bool(!Truthy(Get(s[IndexOfId(s, id)], "active")))
    ensures r.Some? ==> forall key :: key != "active" ==> Get(r.value, key) == Get(s[IndexOfId(s, id)], key)
  {
    var k := IndexOfId(s, id);
    if k == -1 then None
    else Some(Obj(Props(s[k])["active" := Bool(!Truthy(Get(s[k], "active")))]))
  }

  /** `findIndex` by id followed by a replacement when found: the first element with that
      id gives way to `x`; without one the list is unchanged. */
  function ReplaceFirst(s: seq<Value>, id: Value, x: Value): (r: seq<Value>)
    ensures (forall j :: 0 <= j < |s| ==> !HasId(s[j], id)) ==> r == s
    ensures forall j :: 0 <= j < |s| && HasId(s[j], id) && (forall k :: 0 <= k < j ==> !HasId(s[k], id)) ==>
      r == s[j := x]
  {
    var i := IndexOfId(s, id);
    if i == -1 then s else s[i := x]
  }

  /** Replacing by an id with a record that carries that id, and then replacing again by
      the same id, is one replacement with the second record. */
  lemma ReplaceFirstTwice(s: seq<Value>, id: Value, x: Value, y: Value)
    requires Get(x, "id") == id
    ensures ReplaceFirst(ReplaceFirst(s, id, x), id, y) == ReplaceFirst(s, id, y)
  {
    var i := IndexOfId(s, id);
    if i != -1 {
      var t := s[i := x];
      assert HasId(t[i], id);
      assert forall k :: 0 <= k < i ==> t[k] == s[k];
      assert t[i := y] == s[i := y];
    }
  }

  /** `list.filter(e => String(e[field]) !== target)`. */
  function WithoutRefs(s: seq<Value>, field: string, target: string): (r: seq<Value>)
    ensures |r| <= |s|
  {
    if s == [] then []
    else (if ToJsString(Get(s[0], field)) != target then [s[0]] else []) + WithoutRefs(s[1..], field, target)
  }

  /** An element survives exactly when it was there and does not refer to `target`. */
  lemma {:induction false} WithoutRefsMembers(s: seq<Value>, field: string, target: string, x: Value)
    ensures x in WithoutRefs(s, field, target) <==> x in s && ToJsString(Get(x, field)) != target
  {
    if s != [] {
      WithoutRefsMembers(s[1..], field, target, x);
      assert s == [s[0]] + s[1..];
    }
  }

  /** The filter works element by element, so the survivors keep their order. */
  lemma {:induction false} WithoutRefsAppend(a: seq<Value>, b: seq<Value>, field: string, target: string)
    ensures WithoutRefs(a + b, field, target) == WithoutRefs(a, field, target) + WithoutRefs(b, field, target)
  {
    if a == [] {
      assert a + b == b;
    } else {
      var ab := a + b;
      assert ab[0] == a[0] && ab[1..] == a[1..] + b;
      var head := if ToJsString(Get(a[0], field)) != target then [a[0]] else [];
      assert WithoutRefs(ab, field, target) == head + WithoutRefs(ab[1..], field, target);
      assert WithoutRefs(a, field, target) == head + WithoutRefs(a[1..], field, target);
      WithoutRefsAppend(a[1..], b, field, target);
    }
  }

  /** The local part of `deleteCategoryData(id)`: the category's meals leave first, then
      the category; a list that is not an array stops it there with a TypeError. */
  function WithoutCategory(meals: Value, cats: Value, id: Value): (Value, Value) {
    if !meals.Arr? then (meals, cats)
    else (Arr(WithoutRefs(meals.items, "categoryId", ToJsString(id))),
          if cats.Arr? then Arr(WithoutRefs(cats.items, "id", ToJsString(id))) else cats)
  }

  /** After the optimistic category deletion no meal of that category and no category with
      that id is left, and every other meal and category is kept; ids are compared as
      text, so a numeric id and its string form match. */
  lemma DeleteCategoryLocally(meals: Value, cats: Value, id: Value)
    requires meals.Arr? && cats.Arr?
    ensures var r := WithoutCategory(meals, cats, id); r.0.Arr? && r.1.Arr?
    ensures var r := WithoutCategory(meals, cats, id);
      forall m :: m in r.0.items <==> m in meals.items && ToJsString(Get(m, "categoryId")) != ToJsString(id)
    ensures var r := WithoutCategory(meals, cats, id);
      forall c :: c in r.1.items <==> c in cats.items && ToJsString(Get(c, "id")) != ToJsString(id)
  {
    forall m ensures m in WithoutRefs(meals.items, "categoryId", ToJsString(id)) <==>
      m in meals.items && ToJsString(Get(m, "categoryId")) != ToJsString(id)
    {
      WithoutRefsMembers(meals.items, "categoryId", ToJsString(id), m);
    }
    forall c ensures c in WithoutRefs(cats.items, "id", ToJsString(id)) <==>
      c in cats.items && ToJsString(Get(c, "id")) != ToJsString(id)
    {
      WithoutRefsMembers(cats.items, "id", ToJsString(id), c);
    }
  }

  /** `list.filter(m => m.id !== id)`. */
  function WithoutId(s: seq<Value>, id: Value): (r: seq<Value>)
    ensures |r| <= |s|
  {
    if s == [] then [] else (if HasId(s[0], id) then [] else [s[0]]) + WithoutId(s[1..], id)
  }

  /** The optimistic meal deletion removes exactly the meals whose id is `id`. */
  lemma {:induction false} WithoutIdMembers(s: seq<Value>, id: Value, x: Value)
    ensures x in WithoutId(s, id) <==> x in s && !HasId(x, id)
  {
    if s != [] {
      WithoutIdMembers(s[1..], id, x);
      assert s == [s[0]] + s[1..];
    }
  }

  /** With no meal of that id the list comes back as it was. */
  lemma {:induction false} WithoutAbsentId(s: seq<Value>, id: Value)
    requires forall j :: 0 <= j < |s| ==> !HasId(s[j], id)
    ensures WithoutId(s, id) == s
  {
    if s != [] {
      WithoutAbsentId(s[1..], id);
      assert s == [s[0]] + s[1..];
    }
  }

  /** `list.find(o => o.id == id)`: the first position whose id is loosely equal, or -1. */
  function IndexOfLooseId(s: seq<Value>, id: Value): (i: int)
    ensures -1 <= i < |s|
    ensures i >= 0 ==> LooseEq(Get(s[i], "id"), id) && forall j :: 0 <= j < i ==> !LooseEq(Get(s[j], "id"), id)
    ensures i == -1 ==> forall j :: 0 <= j < |s| ==> !LooseEq(Get(s[j], "id"), id)
  {
    if s == [] then -1
    else if LooseEq(Get(s[0], "id"), id) then 0
    else var k := IndexOfLooseId(s[1..], id); if k == -1 then -1 else k + 1
  }

  /** The record `getSettings()` returns: defaults under the stored settings. */
  function SettingsView(stored: Value): (r: Record)
    ensures forall k :: k in Props(stored) ==> k in r && r[k] == Props(stored)[k]
    ensures forall k :: k in SettingsDefaults && k !in Props(stored) ==> k in r && r[k] == SettingsDefaults[k]
    ensures forall k :: k in r ==> k in SettingsDefaults || k in Props(stored)
  {
    SettingsDefaults + Props(stored)
  }

  /** `{...current, ...changes}`: the changed keys take the new values, every other key keeps its old one. */
  lemma MergeSettings(current: Value, changes: Value)
    ensures var m := Props(Or(current, Obj(map[]))) + Props(changes);
      (forall k :: k in Props(changes) ==> m[k] == Props(changes)[k])
      && (forall k :: k in Props(current) && k !in Props(changes) ==> m[k] == Props(current)[k])
      && (forall k :: k in m ==> k in Props(current) || k in Props(changes))
  {
  }

  /** `v.length === 0`, as the cache loader evaluates it. */
  predicate LengthIsZero(v: Value) {
    (v.Arr? && |v.items| == 0) || (v.Str? && v.s == "") || (v.Obj? && Get(v, "length") == Num(0.0))
  }

  /** The query string of the fallback status request. */
  function StatusQuery(orderId: Value, status: Value, completedAt: Value): seq<(string, string)> {
    [("id", ToJsString(orderId)), ("status", ToJsString(status))]
    + (if Truthy(completedAt) then [("completedAt", ToJsString(completedAt))] else [])
  }

  // ---------------------------------------------------------------- the state

  /** `appState` with the module's flags, caches and the realtime connection. */
  class Store {
    var categories: Value
    var meals: Value
    var settings: Value
    var orders: Value
    var ordersPagination: Value
    /** `loadedFlags`: the collections a fetch has filled. */
    var loaded: set<Key>
    /** `loadingPromises`: the collections with a fetch in flight. */
    var pending: set<Key>
    var storage: Storage
    /** Names of the document events dispatched, in order. */
    var events: seq<string>
    /** Requests sent to the server, in order. */
    var sent: seq<Outgoing>
    /** `sseSource !== null`. */
    var sseConnected: bool
    var timers: seq<Timer>
    /** The browser's `JSON.parse`. */
    const parseJson: string -> Option<Value>

    /** Loading the script: the collections come from the cache, parsed in one
        `try` block, so a parse failure keeps what was read before it. */
    constructor (st: Storage, parseJson: string -> Option<Value>)
      ensures storage == st && this.parseJson == parseJson
      ensures var s0 := ReadJson(st, "cachedSettings", Obj(map[]));
        settings == (if s0.Some? then s0.value else Obj(map[]))
      ensures ReadJson(st, "cachedOrders", Arr([])).None? ==>
        orders == Arr([]) && categories == Arr([]) && meals == Arr([])
      ensures var o0 := ReadJson(st, "cachedOrders", Arr([]));
        var c0 := ReadJson(st, "cachedCategories_v2", Arr([]));
        var m0 := ReadJson(st, "cachedMeals_v2", Arr([]));
        o0.Some? ==> (orders == o0.value
          && (c0.None? ==> categories == Arr([]) && meals == Arr([]))
          && (c0.Some? && c0.value.Null? ==> categories == Null && meals == Arr([]))
          && (c0.Some? && !c0.value.Null? ==>
                categories == (if LengthIsZero(c0.value) then Arr([]) else c0.value)
                && meals == (if m0.None? then Arr([])
                             else if LengthIsZero(m0.value) then Arr([]) else m0.value)))
      ensures ordersPagination == Undefined && loaded == {} && pending == {}
      ensures events == [] && sent == [] && !sseConnected && timers == []
    {
      storage := st;
      this.parseJson := parseJson;
      var s0 := ReadJson(st, "cachedSettings", Obj(map[]));
      settings := if s0.Some? then s0.value else Obj(map[]);
      orders, categories, meals := Arr([]), Arr([]), Arr([]);
      var o0 := ReadJson(st, "cachedOrders", Arr([]));
      if o0.Some? {
        orders := o0.value;
        var c0 := ReadJson(st, "cachedCategories_v2", Arr([]));
        if c0.Some? {
          categories := c0.value;
          if !c0.value.Null? {
            // `null.length` throws, leaving `null` in place and the meals unread
            if LengthIsZero(c0.value) { categories := Arr([]); }
            var m0 := ReadJson(st, "cachedMeals_v2", Arr([]));
            if m0.Some? {
              meals := m0.value;
              if LengthIsZero(m0.value) { meals := Arr([]); }
            }
          }
        }
      }
      ordersPagination := Undefined;
      loaded, pending := {}, {};
      events, sent := [], [];
      sseConnected, timers := false, [];
    }

    // ------------------------------------------------------------ getters

    function GetCategories(): (r: Value)
      reads this
      ensures Truthy(categories) ==> r == categories
      ensures !Truthy(categories) ==> r == Arr([])
    {
      Or(categories, Arr([]))
    }

    function GetMeals(): (r: Value)
      reads this
      ensures Truthy(meals) ==> r == meals
      ensures !Truthy(meals) ==> r == Arr([])
    {
      Or(meals, Arr([]))
    }

    function GetSettings(): (r: Record)
      reads this
      ensures forall k :: k in Props(settings) ==> k in r && r[k] == Props(settings)[k]
      ensures forall k :: k in SettingsDefaults && k !in Props(settings) ==> k in r && r[k] == SettingsDefaults[k]
    {
      SettingsView(settings)
    }

    function GetOrders(): (r: Value)
      reads this
      ensures Truthy(orders) ==> r == orders
      ensures !Truthy(orders) ==> r == Arr([])
    {
      Or(orders, Arr([]))
    }

    function GetOrdersPagination(): (r: Value)
      reads this
      ensures Truthy(ordersPagination) ==> r == ordersPagination
      ensures !Truthy(ordersPagination) ==> r == Null
    {
      Or(ordersPagination, Null)
    }

    /** `getCart()`: the stored cart, or an empty one when it is absent or unreadable. */
    function GetCart(): (r: Value)
      reads this
      ensures "cart" !in storage ==> r == Arr([])
      ensures "cart" in storage && storage["cart"].Malformed? ==> r == Arr([])
      ensures "cart" in storage && storage["cart"].Json? ==> r == storage["cart"].v
    {
      var c := ReadJson(storage, "cart", Arr([]));
      if c.Some? then c.value else Arr([])
    }

    method SaveCart(cart: Value)
      modifies this`storage
      ensures storage == old(storage)["cart" := Json(cart)]
    {
      storage := storage["cart" := Json(cart)];
    }

    // ------------------------------------------------------------ loading

    /** The request a collection's fetcher sends. */
    static function Fetcher(key: Key, isAdminPage: bool): Outgoing {
      match key
      case Categories => ApiCall("getCategories", [Bool(isAdminPage)])
      case Meals => ApiCall("getMeals", [])
      case Settings => ApiCall("getSettings", [])
      case Orders => ApiCall("getOrders", [])
    }

    /** What `fetchIfNeeded` does for `key`: nothing when loaded and not forced, joins
        the fetch in flight, or starts one. */
    static function TicketFor(force: bool, isLoaded: bool, inFlight: bool): Ticket {
      if !force && isLoaded then AlreadyLoaded
      else if inFlight then Joined
      else Started
    }

    /** The run `initializeData` makes for the selected collections: one ticket per
        collection it calls `fetchIfNeeded` for, awaiting those not already cached, and
        a background refresh instead of a fetch for cached orders. */
    static function PlannedRun(sel: set<Key>, force: bool, categories: Value, meals: Value, orders: Value,
                               loaded: set<Key>, pending: set<Key>): InitRun {
      var background := Orders in sel && NonEmptyList(orders);
      InitRun(
        if Categories in sel then Some(TicketFor(force, Categories in loaded, Categories in pending)) else None,
        if Meals in sel then Some(TicketFor(force, Meals in loaded, Meals in pending)) else None,
        if Settings in sel then Some(TicketFor(force, Settings in loaded, Settings in pending)) else None,
        if Orders in sel && !background then Some(TicketFor(force, Orders in loaded, Orders in pending)) else None,
        Awaited(sel, categories, meals, background),
        background)
    }

    /** The promises `initializeData` waits for: every fetch it asks for, except those of
        categories and meals already shown from the cache. */
    static function Awaited(sel: set<Key>, categories: Value, meals: Value, background: bool): set<Key> {
      (if Categories in sel && !NonEmptyList(categories) then {Categories} else {})
        + (if Meals in sel && !NonEmptyList(meals) then {Meals} else {})
        + (if Settings in sel then {Settings} else {})
        + (if Orders in sel && !background then {Orders} else {})
    }

    /** The request sent for a collection whose ticket says a fetch was started. */
    static function StartedFetch(key: Key, t: Option<Ticket>, isAdminPage: bool): seq<Outgoing> {
      if t == Some(Started) then [Fetcher(key, isAdminPage)] else []
    }

    /** The collection marked in flight when its ticket says a fetch was started. */
    static function StartedKey(key: Key, t: Option<Ticket>): set<Key> {
      if t == Some(Started) then {key} else {}
    }

    /** The synchronous part of `fetchIfNeeded(key, fetcher)`: at most one fetch per
        collection is in flight, and a loaded collection is fetched again only when forced. */
    method FetchIfNeeded(key: Key, force: bool, isAdminPage: bool) returns (t: Ticket)
      modifies this`pending, this`sent
      ensures t == TicketFor(force, key in loaded, key in old(pending))
      ensures t == Started ==> pending == old(pending) + {key} && sent == old(sent) + [Fetcher(key, isAdminPage)]
      ensures t != Started ==> pending == old(pending) && sent == old(sent)
    {
      if force || key !in loaded {
        if key in pending {
          t := Joined;
        } else {
          pending := pending + {key};
          sent := sent + [Fetcher(key, isAdminPage)];
          t := Started;
        }
      } else {
        t := AlreadyLoaded;
      }
    }

    /** A started fetch settles: the `.then` / `.catch` / `.finally` chain. A truthy
        payload fills the collection, caches it and marks it loaded; a falsy payload
        puts the fallback back (orders are left alone) without marking it loaded; a
        rejected fetch changes nothing. The pending slot is cleared in every case. */
    method FetchSettled(key: Key, response: Response) returns (ok: bool)
      requires key in pending
      modifies this`categories, this`meals, this`settings, this`orders, this`ordersPagination
      modifies this`loaded, this`pending, this`storage, this`events
      ensures pending == old(pending) - {key}
      ensures response.Rejected? ==> (!ok && unchanged(this`categories, this`meals, this`settings, this`orders)
        && ordersPagination == old(ordersPagination) && loaded == old(loaded) && storage == old(storage) && events == old(events))
      ensures response.Resolved? && !Truthy(response.data) ==> (ok && loaded == old(loaded)
        && storage == old(storage) && events == old(events) && ordersPagination == old(ordersPagination)
        && categories == (if key == Categories then Arr([]) else old(categories))
        && meals == (if key == Meals then Arr([]) else old(meals))
        && settings == (if key == Settings then Obj(FallbackSettings) else old(settings))
        && orders == old(orders))
      ensures response.Resolved? && Truthy(response.data) && key == Categories ==> (ok
        && categories == response.data && loaded == old(loaded) + {key}
        && storage == old(storage)["cachedCategories_v2" := Json(response.data)]
        && events == old(events) + ["categories-updated"]
        && unchanged(this`meals, this`settings, this`orders, this`ordersPagination))
      ensures response.Resolved? && Truthy(response.data) && key == Meals ==> (ok
        && meals == (if Truthy(Get(response.data, "meals")) then Get(response.data, "meals")
                     else if response.data.Arr? then response.data else Arr([]))
        && loaded == old(loaded) + {key}
        && storage == old(storage)["cachedMeals_v2" := Json(meals)]
        && events == old(events) + ["meals-updated"]
        && unchanged(this`categories, this`settings, this`orders, this`ordersPagination))
      ensures response.Resolved? && Truthy(response.data) && key == Settings ==> (ok
        && settings == Obj(FallbackSettings + Props(response.data)) && loaded == old(loaded) + {key}
        && storage == old(storage)["cachedSettings" := Json(settings)] && events == old(events)
        && unchanged(this`categories, this`meals, this`orders, this`ordersPagination))
      ensures response.Resolved? && Truthy(response.data) && key == Orders ==>
        var list := Get(response.data, "orders");
        storage == old(storage) && events == old(events)
        && unchanged(this`categories, this`meals, this`settings)
        && (Truthy(list) && !list.Arr? ==> (!ok && orders == old(orders) && loaded == old(loaded)
              && ordersPagination == old(ordersPagination)))
        && (Truthy(list) && list.Arr? ==> (ok && orders == Arr(NormalizeAll(list.items, old(storage), parseJson))
              && ordersPagination == Get(response.data, "pagination") && loaded == old(loaded) + {key}))
        && (!Truthy(list) ==> (ok && orders == Arr(NormalizeAll(Items(response.data), old(storage), parseJson))
              && ordersPagination == old(ordersPagination) && loaded == old(loaded) + {key}))
    {
      pending := pending - {key};
      if response.Rejected? {
        ok := false;
      } else if !Truthy(response.data) {
        ok := true;
        match key {
          case Categories => categories := Arr([]);
          case Meals => meals := Arr([]);
          case Settings => settings := Obj(FallbackSettings);
          case Orders =>
        }
      } else {
        ok := Filled(key, response.data);
      }
    }

    /** The `.then` branch of a fetch that brought a truthy payload. */
    method Filled(key: Key, data: Value) returns (ok: bool)
      requires Truthy(data)
      modifies this`categories, this`meals, this`settings, this`orders, this`ordersPagination
      modifies this`loaded, this`storage, this`events
      ensures key == Categories ==> (ok
        && categories == data && loaded == old(loaded) + {key}
        && storage == old(storage)["cachedCategories_v2" := Json(data)]
        && events == old(events) + ["categories-updated"]
        && unchanged(this`meals, this`settings, this`orders, this`ordersPagination))
      ensures key == Meals ==> (ok
        && meals == (if Truthy(Get(data, "meals")) then Get(data, "meals")
                     else if data.Arr? then data else Arr([]))
        && loaded == old(loaded) + {key}
        && storage == old(storage)["cachedMeals_v2" := Json(meals)]
        && events == old(events) + ["meals-updated"]
        && unchanged(this`categories, this`settings, this`orders, this`ordersPagination))
      ensures key == Settings ==> (ok
        && settings == Obj(FallbackSettings + Props(data)) && loaded == old(loaded) + {key}
        && storage == old(storage)["cachedSettings" := Json(settings)] && events == old(events)
        && unchanged(this`categories, this`meals, this`orders, this`ordersPagination))
      ensures key == Orders ==>
        var list := Get(data, "orders");
        storage == old(storage) && events == old(events)
        && unchanged(this`categories, this`meals, this`settings)
        && (Truthy(list) && !list.Arr? ==> (!ok && orders == old(orders) && loaded == old(loaded)
              && ordersPagination == old(ordersPagination)))
        && (Truthy(list) && list.Arr? ==> (ok && orders == Arr(NormalizeAll(list.items, old(storage), parseJson))
              && ordersPagination == Get(data, "pagination") && loaded == old(loaded) + {key}))
        && (!Truthy(list) ==> (ok && orders == Arr(NormalizeAll(Items(data), old(storage), parseJson))
              && ordersPagination == old(ordersPagination) && loaded == old(loaded) + {key}))
    {
      ok := true;
      match key {
        case Categories =>
          categories := data;
          storage := storage["cachedCategories_v2" := Json(data)];
          events := events + ["categories-updated"];
        case Meals =>
          if Truthy(Get(data, "meals")) {
            meals := Get(data, "meals");
          } else {
            meals := if data.Arr? then data else Arr([]);
          }
          storage := storage["cachedMeals_v2" := Json(meals)];
          events := events + ["meals-updated"];
        case Settings =>
          settings := Obj(FallbackSettings + Props(data));
          storage := storage["cachedSettings" := Json(settings)];
        case Orders =>
          var list := Get(data, "orders");
          if Truthy(list) && !list.Arr? {
            // `data.orders.map` is not a function: the `.catch` turns it into `false`
            ok := false;
          } else if Truthy(list) {
            orders := Arr(NormalizeAll(list.items, storage, parseJson));
            ordersPagination := Get(data, "pagination");
          } else {
            orders := Arr(NormalizeAll(Items(data), storage, parseJson));
          }
      }
      if ok {
        loaded := loaded + {key};
      }
    }

    /** The synchronous part of `initializeData(options)`: the fetches it asks for. A
        collection already cached is still fetched, but the call does not wait for it;
        cached orders are refreshed in the background instead of through the loader. */
    method InitializeData(options: Record, isAdminPage: bool) returns (run: InitRun)
      modifies this`pending, this`sent
      ensures run == PlannedRun(Selected(options, isAdminPage), Truthy(Get(Obj(options), "force")),
        old(categories), old(meals), old(orders), loaded, old(pending))
      ensures pending == old(pending) + StartedKey(Categories, run.categories) + StartedKey(Meals, run.meals)
        + StartedKey(Settings, run.settings) + StartedKey(Orders, run.orders)
      ensures sent == old(sent) + StartedFetch(Categories, run.categories, isAdminPage)
        + StartedFetch(Meals, run.meals, isAdminPage) + StartedFetch(Settings, run.settings, isAdminPage)
        + StartedFetch(Orders, run.orders, isAdminPage)
    {
      run := FetchSelected(Selected(options, isAdminPage), Truthy(Get(Obj(options), "force")), isAdminPage);
    }

    /** The body of `initializeData`, for the collections it selected. */
    method FetchSelected(sel: set<Key>, force: bool, isAdminPage: bool) returns (run: InitRun)
      modifies this`pending, this`sent
      ensures run == PlannedRun(sel, force, old(categories), old(meals), old(orders), loaded, old(pending))
      ensures pending == old(pending) + StartedKey(Categories, run.categories) + StartedKey(Meals, run.meals)
        + StartedKey(Settings, run.settings) + StartedKey(Orders, run.orders)
      ensures sent == old(sent) + StartedFetch(Categories, run.categories, isAdminPage)
        + StartedFetch(Meals, run.meals, isAdminPage) + StartedFetch(Settings, run.settings, isAdminPage)
        + StartedFetch(Orders, run.orders, isAdminPage)
    {
      var background := Orders in sel && NonEmptyList(orders);
      var c := AskFor(Categories, Categories in sel, force, isAdminPage);
      var m := AskFor(Meals, Meals in sel, force, isAdminPage);
      var st := AskFor(Settings, Settings in sel, force, isAdminPage);
      var o := AskFor(Orders, Orders in sel && !background, force, isAdminPage);
      run := InitRun(c, m, st, o, Awaited(sel, categories, meals, background), background);
    }

    /** One `fetchIfNeeded` call of `initializeData`, made when `asked`. */
    method AskFor(key: Key, asked: bool, force: bool, isAdminPage: bool) returns (t: Option<Ticket>)
      modifies this`pending, this`sent
      ensures t == if asked then Some(TicketFor(force, key in loaded, key in old(pending))) else None
      ensures pending == old(pending) + StartedKey(key, t)
      ensures sent == old(sent) + StartedFetch(key, t, isAdminPage)
    {
      if asked {
        var x := FetchIfNeeded(key, force, isAdminPage);
        t := Some(x);
      } else {
        t := None;
      }
    }

    /** The `finally` of `initializeData`: `data-ready` is dispatched whatever the fetches did. */
    method InitializeDone() returns (r: bool)
      modifies this`events
      ensures r && events == old(events) + ["data-ready"]
    {
      events := events + ["data-ready"];
      r := true;
    }

    /** The script's own start: `initializeData()` and, a second later, the realtime
        subscription, unless `window.SKIP_AUTO_INIT` is set. */
    method AutoStart(skipAutoInit: bool, isAdminPage: bool) returns (run: Option<InitRun>)
      modifies this`pending, this`sent, this`timers
      ensures skipAutoInit ==> run == None && pending == old(pending) && sent == old(sent) && timers == old(timers)
      ensures !skipAutoInit ==> run.Some? && timers == old(timers) + [Timer(AutoSubscribeDelayMs, false, Resubscribe)]
      ensures !skipAutoInit ==> (run.Some? && run.value == PlannedRun(Selected(map[], isAdminPage), false,
        old(categories), old(meals), old(orders), loaded, old(pending)))
    {
      if skipAutoInit {
        run := None;
      } else {
        var r := InitializeData(map[], isAdminPage);
        run := Some(r);
        timers := timers + [Timer(AutoSubscribeDelayMs, false, Resubscribe)];
      }
    }

    // ------------------------------------------------------------ categories

    /** `createCategoryData(category)`: pushed at once; on success the pushed entry (found
        by identity, and so the one appended) becomes the saved record; on failure the
        optimistic entry stays and the result is `null`. */
    method CreateCategoryData(category: Value, response: Response) returns (r: Completion)
      modifies this`categories, this`sent
      ensures !old(categories).Arr? ==> r == Threw && categories == old(categories) && sent == old(sent)
      ensures old(categories).Arr? ==> sent == old(sent) + [ApiCall("saveCategory", [category])]
      ensures old(categories).Arr? && response.Rejected? ==>
        r == Returned(Null) && categories == Arr(old(categories).items + [category])
      ensures old(categories).Arr? && response.Resolved? ==>
        r == Returned(response.data) && categories == Arr(old(categories).items + [response.data])
    {
      if !categories.Arr? {
        r := Threw;
        return;
      }
      var optimistic := categories.items + [category];
      categories := Arr(optimistic);
      sent := sent + [ApiCall("saveCategory", [category])];
      match response {
        case Rejected => r := Returned(Null);
        case Resolved(saved) =>
          categories := Arr(optimistic[|optimistic| - 1 := saved]);
          assert optimistic[|optimistic| - 1 := saved] == old(categories).items + [saved];
          r := Returned(saved);
      }
    }

    /** `updateCategoryData(category)`: the first category with the same id is replaced at
        once; the call resolves to the server's answer, or `null` on failure (no rollback). */
    method UpdateCategoryData(category: Value, response: Response) returns (r: Completion)
      modifies this`categories, this`sent
      ensures !old(categories).Arr? ==> r == Threw && categories == old(categories) && sent == old(sent)
      ensures old(categories).Arr? ==> (categories == Arr(ReplaceFirst(old(categories).items, Get(category, "id"), category))
        && sent == old(sent) + [ApiCall("saveCategory", [category])]
        && r == (if response.Resolved? then Returned(response.data) else Returned(Null)))
    {
      if !categories.Arr? {
        r := Threw;
        return;
      }
      categories := Arr(ReplaceFirst(categories.items, Get(category, "id"), category));
      sent := sent + [ApiCall("saveCategory", [category])];
      r := if response.Resolved? then Returned(response.data) else Returned(Null);
    }

    /** `deleteCategoryData(id)`: a falsy id does nothing; otherwise the category and its
        meals leave the local state before the server is asked, and stay gone if it fails. */
    method DeleteCategoryData(id: Value, response: Response) returns (r: Completion)
      modifies this`categories, this`meals, this`sent
      ensures !Truthy(id) ==> (r == Returned(Undefined)
        && unchanged(this`categories, this`meals, this`sent))
      ensures Truthy(id) ==> (meals, categories) == WithoutCategory(old(meals), old(categories), id)
      ensures Truthy(id) && !(old(meals).Arr? && old(categories).Arr?) ==> (r == Threw && sent == old(sent))
      ensures Truthy(id) && old(meals).Arr? && old(categories).Arr? ==>
        (sent == old(sent) + [Http("DELETE", "/categories", [("id", ToJsString(id))], None)]
        && r == (if response.Rejected? then Threw else Returned(Undefined)))
    {
      if !Truthy(id) {
        r := Returned(Undefined);
        return;
      }
      var arrays := meals.Arr? && categories.Arr?;
      var after := WithoutCategory(meals, categories, id);
      meals, categories := after.0, after.1;
      if !arrays {
        r := Threw;
        return;
      }
      sent := sent + [Http("DELETE", "/categories", [("id", ToJsString(id))], None)];
      r := if response.Rejected? then Threw else Returned(Undefined);
    }

    /** `saveCategories(list)` (deprecated bulk replacement). */
    method SaveCategories(list: Value)
      modifies this`categories
      ensures categories == list
    {
      categories := list;
    }

    // ------------------------------------------------------------ meals

    /** `createMealData(meal)`: nothing changes until the server answers; the saved meal
        is then appended; a failure is rethrown. */
    method CreateMealData(meal: Value, response: Response) returns (r: Completion)
      modifies this`meals, this`sent
      ensures sent == old(sent) + [ApiCall("saveMeal", [meal])]
      ensures response.Rejected? ==> r == Threw && meals == old(meals)
      ensures response.Resolved? && !old(meals).Arr? ==> r == Threw && meals == old(meals)
      ensures response.Resolved? && old(meals).Arr? ==>
        r == Returned(response.data) && meals == Arr(old(meals).items + [response.data])
    {
      sent := sent + [ApiCall("saveMeal", [meal])];
      match response {
        case Rejected => r := Threw;
        case Resolved(saved) =>
          if meals.Arr? {
            meals := Arr(meals.items + [saved]);
            r := Returned(saved);
          } else {
            r := Threw;
          }
      }
    }

    /** `updateMealData(meal)`: the meal with the same id is replaced at once, and by the
        server's record once it answers; a failure keeps the optimistic copy and is rethrown. */
    method UpdateMealData(meal: Value, response: Response) returns (r: Completion)
      modifies this`meals, this`sent
      ensures !old(meals).Arr? ==> r == Threw && meals == old(meals) && sent == old(sent)
      ensures old(meals).Arr? ==> sent == old(sent) + [ApiCall("saveMeal", [meal])]
      ensures old(meals).Arr? && response.Rejected? ==>
        r == Threw && meals == Arr(ReplaceFirst(old(meals).items, Get(meal, "id"), meal))
      ensures old(meals).Arr? && response.Resolved? ==>
        r == Returned(response.data) && meals == Arr(ReplaceFirst(old(meals).items, Get(meal, "id"), response.data))
    {
      if !meals.Arr? {
        r := Threw;
        return;
      }
      ghost var s := meals.items;
      meals := Arr(ReplaceFirst(meals.items, Get(meal, "id"), meal));
      sent := sent + [ApiCall("saveMeal", [meal])];
      match response {
        case Rejected => r := Threw;
        case Resolved(saved) =>
          ReplaceFirstTwice(s, Get(meal, "id"), meal, saved);
          meals := Arr(ReplaceFirst(meals.items, Get(meal, "id"), saved));
          r := Returned(saved);
      }
    }

    /** `deleteMealData(id)`: the meal leaves the local list first; a failure is rethrown. */
    method DeleteMealData(id: Value, response: Response) returns (r: Completion)
      modifies this`meals, this`sent
      ensures !old(meals).Arr? ==> r == Threw && meals == old(meals) && sent == old(sent)
      ensures old(meals).Arr? ==> (meals == Arr(WithoutId(old(meals).items, id))
        && sent == old(sent) + [Http("DELETE", "/meals", [("id", ToJsString(id))], None)]
        && r == (if response.Rejected? then Threw else Returned(Undefined)))
    {
      if !meals.Arr? {
        r := Threw;
        return;
      }
      meals := Arr(WithoutId(meals.items, id));
      sent := sent + [Http("DELETE", "/meals", [("id", ToJsString(id))], None)];
      r := if response.Rejected? then Threw else Returned(Undefined);
    }

    /** `saveMeals(list)` (deprecated bulk replacement). */
    method SaveMeals(list: Value)
      modifies this`meals
      ensures meals == list
    {
      meals := list;
    }

    // ------------------------------------------------------------ settings

    /** `updateSettingsData(changes)`: merged over the current settings, stored and cached
        before the server is asked; a failure is rethrown and the merge stays. */
    method UpdateSettingsData(changes: Value, response: Response) returns (r: Completion)
      modifies this`settings, this`storage, this`sent
      ensures settings == Obj(Props(Or(old(settings), Obj(map[]))) + Props(changes))
      ensures storage == old(storage)["cachedSettings" := Json(settings)]
      ensures sent == old(sent) + [ApiCall("saveSettings", [settings])]
      ensures r == (if response.Rejected? then Threw else Returned(settings))
    {
      var current := Or(settings, Obj(map[]));
      var updated := Obj(Props(current) + Props(changes));
      settings := updated;
      storage := storage["cachedSettings" := Json(updated)];
      sent := sent + [ApiCall("saveSettings", [updated])];
      r := if response.Rejected? then Threw else Returned(updated);
    }

    // ------------------------------------------------------------ orders

    /** `submitOrder(orderData)`: after the server accepts the order, its normalised form
        goes to the front of the list. */
    method SubmitOrder(orderData: Value, response: Response) returns (r: Completion)
      modifies this`orders, this`sent
      ensures sent == old(sent) + [ApiCall("createOrder", [orderData])]
      ensures response.Rejected? || !old(orders).Arr? ==> r == Threw && orders == old(orders)
      ensures response.Resolved? && old(orders).Arr? ==>
        var normalized := NormalizeOrder(response.data, Overlay(storage), parseJson);
        r == Returned(normalized) && orders == Arr([normalized] + old(orders).items)
    {
      sent := sent + [ApiCall("createOrder", [orderData])];
      match response {
        case Rejected => r := Threw;
        case Resolved(saved) =>
          var normalized := NormalizeOrder(saved, Overlay(storage), parseJson);
          if orders.Arr? {
            orders := Arr([normalized] + orders.items);
            r := Returned(normalized);
          } else {
            r := Threw;
          }
      }
    }

    /** The overlay after recording `now` for `orderId`: written only when there is no
        entry yet, so the first completion time is kept; unchanged when it cannot be read. */
    static function OverlayAfterDelivery(st: Storage, orderId: Value, now: string): (r: Storage)
      ensures forall k :: k in st && k != "localCompletedDates" ==> k in r && r[k] == st[k]
      ensures forall k :: k in r ==> k in st || k == "localCompletedDates"
      ensures var d := Overlay(st);
        d.Some? && d.value.Obj? && Truthy(Get(d.value, ToJsString(orderId))) ==> r == st
      ensures var d := Overlay(st);
        d.Some? && d.value.Obj? && !Truthy(Get(d.value, ToJsString(orderId))) ==>
          r == st["localCompletedDates" := Json(Obj(d.value.props[ToJsString(orderId) := Str(now)]))]
      ensures var d := Overlay(st); !(d.Some? && d.value.Obj?) ==> r == st
    {
      var d := Overlay(st);
      if d.Some? && d.value.Obj? && !Truthy(Get(d.value, ToJsString(orderId))) then
        st["localCompletedDates" := Json(Obj(d.value.props[ToJsString(orderId) := Str(now)]))]
      else st
    }

    /** The order with its new status and, when it is now delivered without a completion
        time, stamped `now`. */
    static function StatusChanged(o: Value, status: Value, now: string): (r: Value)
      ensures Get(r, "status") == (if o.Obj? then status else Undefined)
      ensures o.Obj? && status == Str("delivered") && !Truthy(Get(o, "completedAt")) ==> Get(r, "completedAt") == Str(now)
      ensures !(status == Str("delivered") && !Truthy(Get(o, "completedAt"))) ==> Get(r, "completedAt") == Get(o, "completedAt")
      ensures forall k :: k != "status" && k != "completedAt" ==> Get(r, k) == Get(o, k)
    {
      var o1 := Set(o, "status", status);
      if status == Str("delivered") && !Truthy(Get(o, "completedAt")) then Set(o1, "completedAt", Str(now)) else o1
    }

    /** The request that carries a status change. */
    static function StatusRequest(orderId: Value, status: Value, changed: Value, hasUpdateOrderStatus: bool): Outgoing {
      if hasUpdateOrderStatus then ApiCall("updateOrderStatus", [orderId, status])
      else Http("PUT", "/orders", StatusQuery(orderId, status, Get(changed, "completedAt")), None)
    }

    /** `updateOrderStatusData(orderId, status)`: the status changes at once; a delivered
        order gets a completion time, in the order and in the write-once overlay; the
        request goes through `ApiClient.updateOrderStatus` when it exists, otherwise as a
        PUT with the values in the query string. On failure only the status is put back. */
    method UpdateOrderStatusData(orderId: Value, status: Value, now: string, hasUpdateOrderStatus: bool,
                                 response: Response) returns (r: Completion)
      modifies this`orders, this`storage, this`sent
      ensures !old(orders).Arr? ==> r == Threw && orders == old(orders) && storage == old(storage) && sent == old(sent)
      ensures old(orders).Arr? ==>
        var s := old(orders).items;
        var i := IndexOfLooseId(s, orderId);
        (i == -1 || !Truthy(s[i])) ==> (r == Returned(Undefined) && orders == old(orders)
          && storage == old(storage) && sent == old(sent))
      ensures old(orders).Arr? ==>
        var s := old(orders).items;
        var i := IndexOfLooseId(s, orderId);
        i != -1 && Truthy(s[i]) ==>
          var changed := StatusChanged(s[i], status, now);
          storage == (if status == Str("delivered") then OverlayAfterDelivery(old(storage), orderId, now) else old(storage))
          && sent == old(sent) + [StatusRequest(orderId, status, changed, hasUpdateOrderStatus)]
          && (response.Resolved? ==> r == Returned(Undefined) && orders == Arr(s[i := changed]))
          && (response.Rejected? ==> r == Threw && orders == Arr(s[i := Set(changed, "status", Get(s[i], "status"))]))
    {
      if !orders.Arr? {
        r := Threw;
      } else {
        var s := orders.items;
        var i := IndexOfLooseId(s, orderId);
        if i == -1 || !Truthy(s[i]) {
          r := Returned(Undefined);
        } else {
          var changed := StatusChanged(s[i], status, now);
          if status == Str("delivered") {
            storage := OverlayAfterDelivery(storage, orderId, now);
          }
          sent := sent + [StatusRequest(orderId, status, changed, hasUpdateOrderStatus)];
          if response.Resolved? {
            orders := Arr(s[i := changed]);
            r := Returned(Undefined);
          } else {
            // the optimistic status is put back
            orders := Arr(s[i := Set(changed, "status", Get(s[i], "status"))]);
            r := Threw;
          }
        }
      }
    }

    /** `saveOrders(list)`. */
    method SaveOrders(list: Value)
      modifies this`orders
      ensures orders == list
    {
      orders := list;
    }

    /** `refreshOrders()`: the server's list (paged or flat) replaces the orders, is cached
        and announced; on failure the current orders are returned untouched. */
    method RefreshOrders(response: Response) returns (r: Value)
      modifies this`orders, this`ordersPagination, this`storage, this`events, this`sent
      ensures sent == old(sent) + [ApiCall("getOrders", [])]
      ensures response.Rejected? ==> (r == old(orders) && orders == old(orders)
        && ordersPagination == old(ordersPagination) && storage == old(storage) && events == old(events))
      ensures response.Resolved? ==>
        var resp := response.data;
        var paged := Truthy(resp) && Truthy(Get(resp, "orders"));
        var list := if paged then Get(resp, "orders") else if resp.Arr? then resp else Arr([]);
        ordersPagination == (if paged then Get(resp, "pagination") else old(ordersPagination))
        && (!list.Arr? ==> r == old(orders) && orders == old(orders) && storage == old(storage) && events == old(events))
        && (list.Arr? ==> (orders == Arr(NormalizeAll(list.items, old(storage), parseJson)) && r == orders
              && storage == old(storage)["cachedOrders" := Json(orders)]
              && events == old(events) + ["orders-updated"]))
    {
      sent := sent + [ApiCall("getOrders", [])];
      if response.Rejected? {
        r := orders;
        return;
      }
      var resp := response.data;
      var list := Arr([]);
      if Truthy(resp) && Truthy(Get(resp, "orders")) {
        list := Get(resp, "orders");
        ordersPagination := Get(resp, "pagination");
      } else if resp.Arr? {
        list := resp;
      }
      if !list.Arr? {
        // `serverOrders.map` is not a function: caught, the current orders are returned
        r := orders;
        return;
      }
      orders := Arr(NormalizeAll(list.items, storage, parseJson));
      storage := storage["cachedOrders" := Json(orders)];
      events := events + ["orders-updated"];
      r := orders;
    }

    /** Whether `loadMoreOrders()` asks for another page. */
    function HasMorePages(): bool
      reads this
    {
      Truthy(ordersPagination)
      && !GreaterEq(Get(ordersPagination, "page"), Get(ordersPagination, "totalPages"))
    }

    /** `loadMoreOrders()`: with paging information and pages left, the next page is
        appended to the orders; otherwise nothing happens. */
    method LoadMoreOrders(response: Response) returns (r: Value)
      modifies this`orders, this`ordersPagination, this`events, this`sent
      ensures !old(HasMorePages()) ==> (r == Undefined && orders == old(orders)
        && ordersPagination == old(ordersPagination) && events == old(events) && sent == old(sent))
      ensures old(HasMorePages()) ==>
        var p := old(ordersPagination);
        sent == old(sent) + [ApiCall("getOrders", [Add(Get(p, "page"), Num(1.0)), Get(p, "limit")])]
      ensures old(HasMorePages()) ==>
        var ok := response.Resolved? && Truthy(response.data) && Get(response.data, "orders").Arr?
                  && old(orders).Arr?;
        (ok ==> var added := NormalizeAll(Get(response.data, "orders").items, storage, parseJson);
                r == Arr(added) && orders == Arr(old(orders).items + added)
                && ordersPagination == Get(response.data, "pagination")
                && events == old(events) + ["orders-updated"])
        && (!ok ==> (r == Undefined && orders == old(orders)
                && ordersPagination == old(ordersPagination) && events == old(events)))
    {
      r := Undefined;
      if !HasMorePages() {
        return;
      }
      var p := ordersPagination;
      sent := sent + [ApiCall("getOrders", [Add(Get(p, "page"), Num(1.0)), Get(p, "limit")])];
      if response.Rejected? || !Truthy(response.data) {
        return;
      }
      var list := Get(response.data, "orders");
      if !list.Arr? || !orders.Arr? {
        // no `orders` in the answer, or a list `map` / spread cannot handle
        return;
      }
      var added := NormalizeAll(list.items, storage, parseJson);
      orders := Arr(orders.items + added);
      ordersPagination := Get(response.data, "pagination");
      events := events + ["orders-updated"];
      r := Arr(added);
    }

    /** `searchOrders(query)`: the first page (50 orders) of the matching orders replaces the list. */
    method SearchOrders(query: Value, response: Response)
      modifies this`orders, this`ordersPagination, this`events, this`sent
      ensures sent == old(sent) + [ApiCall("getOrders", [Num(1.0), Num(50.0), query])]
      ensures var ok := response.Resolved? && Truthy(response.data) && Get(response.data, "orders").Arr?;
        (ok ==> orders == Arr(NormalizeAll(Get(response.data, "orders").items, storage, parseJson))
                && ordersPagination == Get(response.data, "pagination")
                && events == old(events) + ["orders-updated"])
        && (!ok ==> orders == old(orders) && ordersPagination == old(ordersPagination) && events == old(events))
    {
      sent := sent + [ApiCall("getOrders", [Num(1.0), Num(50.0), query])];
      if response.Resolved? && Truthy(response.data) && Get(response.data, "orders").Arr? {
        orders := Arr(NormalizeAll(Get(response.data, "orders").items, storage, parseJson));
        ordersPagination := Get(response.data, "pagination");
        events := events + ["orders-updated"];
      }
    }

    // ------------------------------------------------------------ realtime

    /** `subscribeToRealtimeUpdates()`: a second call while connected does nothing;
        without EventSource the orders are polled every five seconds instead. */
    method SubscribeToRealtimeUpdates(eventSourceSupported: bool)
      modifies this`sseConnected, this`timers
      ensures old(sseConnected) ==> sseConnected && timers == old(timers)
      ensures !old(sseConnected) && eventSourceSupported ==> sseConnected && timers == old(timers)
      ensures !old(sseConnected) && !eventSourceSupported ==>
        !sseConnected && timers == old(timers) + [Timer(RefreshIntervalMs, true, Refresh)]
    {
      if sseConnected {
        return;
      }
      if eventSourceSupported {
        sseConnected := true;
      } else {
        timers := timers + [Timer(RefreshIntervalMs, true, Refresh)];
      }
    }

    /** A message on the stream: whatever its data, `refreshOrders()` runs, so the
        orders become the server's normalised listing, or stay as they were on failure. */
    method OnRealtimeMessage(data: Value, response: Response) returns (r: Value)
      requires sseConnected
      modifies this`orders, this`ordersPagination, this`storage, this`events, this`sent
      ensures sent == old(sent) + [ApiCall("getOrders", [])]
      ensures response.Rejected? ==> (r == old(orders) && orders == old(orders)
        && ordersPagination == old(ordersPagination) && storage == old(storage) && events == old(events))
      ensures response.Resolved? ==>
        var resp := response.data;
        var paged := Truthy(resp) && Truthy(Get(resp, "orders"));
        var list := if paged then Get(resp, "orders") else if resp.Arr? then resp else Arr([]);
        ordersPagination == (if paged then Get(resp, "pagination") else old(ordersPagination))
        && (!list.Arr? ==> r == old(orders) && orders == old(orders) && storage == old(storage) && events == old(events))
        && (list.Arr? ==> (orders == Arr(NormalizeAll(list.items, old(storage), parseJson)) && r == orders
              && storage == old(storage)["cachedOrders" := Json(orders)]
              && events == old(events) + ["orders-updated"]))
    {
      r := RefreshOrders(response);
    }

    /** A stream error: the connection is closed and a new subscription is scheduled in five seconds. */
    method OnRealtimeError()
      requires sseConnected
      modifies this`sseConnected, this`timers
      ensures !sseConnected
      ensures timers == old(timers) + [Timer(ResubscribeDelayMs, false, Resubscribe)]
    {
      sseConnected := false;
      timers := timers + [Timer(ResubscribeDelayMs, false, Resubscribe)];
    }
  }
}
