// The start-up payload (app/api/init/route.js): the active categories and meals by
// `order`, each reduced to the columns the shop page reads, and the settings in the
// page shape of the settings endpoint with Telegram defaults, or a fixed fallback
// when no settings row exists.
module InitRoute {
  import opened Js
  import opened Lists
  import opened Db
  import SettingsRoute

  const FetchFailed: string := "Failed to fetch initialization data"

  /** The category columns selected. */
  const CategoryFields: set<string> := {"id", "name", "icon", "order"}

  /** The meal columns selected. */
  const MealFields: set<string> := {"id", "name", "description", "image", "price", "categoryId", "hasSizes", "sizes"}

  /** `select`: the row reduced to the chosen columns. */
  function Select(row: Value, fields: set<string>): (r: Value)
    ensures r.Obj? && r.props.Keys <= fields
    ensures forall k :: Get(r, k) == if k in fields then Get(row, k) else Undefined
  {
    Obj(map k | k in fields && k in Props(row) :: Props(row)[k])
  }

  function CategoryView(row: Value): Value {
    Select(row, CategoryFields)
  }

  function MealView(row: Value): Value {
    Select(row, MealFields)
  }

  /** `findMany({ where: { active: true }, orderBy: { order: 'asc' } })`. */
  function ActiveByOrder(rows: seq<Value>): seq<Value> {
    Sort(ByOrder, Filter(rows, Active))
  }

  /** The categories of the payload. */
  function CategoryList(rows: seq<Value>): seq<Value> {
    Map(ActiveByOrder(rows), CategoryView)
  }

  /** The meals of the payload. */
  function MealList(rows: seq<Value>): seq<Value> {
    Map(ActiveByOrder(rows), MealView)
  }

  /** The query keeps exactly the active rows, every one of them, in `order`. */
  lemma ActiveByOrderRows(rows: seq<Value>)
    ensures forall x :: x in ActiveByOrder(rows) <==> x in rows && Active(x)
    ensures |ActiveByOrder(rows)| == |Filter(rows, Active)|
    ensures Sorted(ByOrder, ActiveByOrder(rows))
  {
    var kept := Filter(rows, Active);
    SortCorrect(ByOrder, kept);
    forall x ensures x in ActiveByOrder(rows) <==> x in rows && Active(x) {
      FilterMembers(rows, Active, x);
      assert x in ActiveByOrder(rows) <==> x in multiset(kept);
    }
  }

  /** The category columns include `order`, so the listed categories are in `order`
      themselves; each one is an active stored category, and every active stored
      category is listed. */
  lemma CategoryListSorted(rows: seq<Value>)
    ensures Sorted(ByOrder, CategoryList(rows))
    ensures forall i :: 0 <= i < |CategoryList(rows)| ==>
      exists x :: x in rows && Active(x) && CategoryList(rows)[i] == CategoryView(x)
    ensures forall x :: x in rows && Active(x) ==> CategoryView(x) in CategoryList(rows)
  {
    ActiveByOrderRows(rows);
    var s := ActiveByOrder(rows);
    forall x ensures Key(ByOrder, CategoryView(x)) == Key(ByOrder, x) {
      ByOrderKey(CategoryView(x), x);
    }
    MapSorted(ByOrder, s, CategoryView);
    forall i | 0 <= i < |CategoryList(rows)|
      ensures exists x :: x in rows && Active(x) && CategoryList(rows)[i] == CategoryView(x)
    {
      assert s[i] in s;
    }
    forall x | x in rows && Active(x) ensures CategoryView(x) in CategoryList(rows) {
      var j :| 0 <= j < |s| && s[j] == x;
      assert CategoryList(rows)[j] == CategoryView(x);
    }
  }

  /** Each listed meal is an active stored meal, and every active stored meal is listed. */
  lemma MealListRows(rows: seq<Value>)
    ensures |MealList(rows)| == |Filter(rows, Active)|
    ensures forall i :: 0 <= i < |MealList(rows)| ==>
      exists x :: x in rows && Active(x) && MealList(rows)[i] == MealView(x)
    ensures forall x :: x in rows && Active(x) ==> MealView(x) in MealList(rows)
  {
    ActiveByOrderRows(rows);
    var s := ActiveByOrder(rows);
    forall i | 0 <= i < |MealList(rows)|
      ensures exists x :: x in rows && Active(x) && MealList(rows)[i] == MealView(x)
    {
      assert s[i] in s;
    }
    forall x | x in rows && Active(x) ensures MealView(x) in MealList(rows) {
      var j :| 0 <= j < |s| && s[j] == x;
      assert MealList(rows)[j] == MealView(x);
    }
  }

  // ---------------------------------------------------------------- settings

  /** The settings used when the table has no row. */
  const Fallback: Value := Obj(map[
    "restaurantName" := Str("Restaurant"),
    "phone" := Str(""),
    "address" := Str(""),
    "currency" := Str("دج"),
    "isOpen" := Bool(true),
    "delivery" := Obj(map["enabled" := Bool(true), "type" := Str("fixed"), "fixedCost" := Num(200.0)])])

  /** This endpoint's `mapSettingsToFrontend`: `null` for a missing row; otherwise the
      settings endpoint's page shape with the two Telegram fields, `''` when unset. */
  function Mapped(row: Value): (r: Value)
    ensures !Truthy(row) <==> r == Null
  {
    if !Truthy(row) then Null
    else
      Obj(SettingsRoute.Frontend(row).props
        ["telegramBotToken" := Or(Get(row, "telegramBotToken"), Str(""))]
        ["telegramChatId" := Or(Get(row, "telegramChatId"), Str(""))])
  }

  /** `mapSettingsToFrontend(settings) || fallback`, with `findFirst` giving `null`
      when there is no row. */
  function InitSettings(settings: Option<Value>): Value {
    Or(Mapped(if settings.Some? then settings.value else Null), Fallback)
  }

  /** Without a settings row the payload carries the fallback: open, the currency
      `دج`, and fixed-cost delivery at 200. */
  lemma FallbackSettings(settings: Option<Value>)
    requires settings.None? || !Truthy(settings.value)
    ensures InitSettings(settings) == Fallback
    ensures Get(Fallback, "isOpen") == Bool(true) && Get(Fallback, "currency") == Str("دج")
    ensures Get(Get(Fallback, "delivery"), "type") == Str("fixed")
    ensures Get(Get(Fallback, "delivery"), "fixedCost") == Num(200.0)
  {
  }

  /** With a settings row, the payload's settings agree with the settings endpoint's
      answer on every field but the two Telegram ones, which default to `''`. */
  lemma StoredSettings(row: Value, k: string)
    requires Truthy(row)
    ensures Get(InitSettings(Some(row)), k) ==
      if k == "telegramBotToken" || k == "telegramChatId" then Or(Get(row, k), Str(""))
      else Get(SettingsRoute.Frontend(row), k)
  {
    assert InitSettings(Some(row)) == Mapped(row);
  }

  /** With a settings row, the payload's settings carry the row's plain fields, and
      the delivery fields nested from the `delivery*` columns as the settings endpoint
      nests them. */
  lemma StoredSettingsFields(row: Value, k: string)
    requires Truthy(row)
    ensures k in SettingsRoute.Shown ==> Get(InitSettings(Some(row)), k) == Get(row, k)
    ensures k in SettingsRoute.DeliveryKeys ==>
      Get(Get(InitSettings(Some(row)), "delivery"), k) == Get(row, SettingsRoute.ColumnOf(k))
  {
    SettingsRoute.Disjoint();
    if k in SettingsRoute.Shown {
      StoredSettings(row, k);
      SettingsRoute.FrontendFields(row, k);
    }
    if k in SettingsRoute.DeliveryKeys {
      StoredSettings(row, "delivery");
      SettingsRoute.FrontendDelivery(row, k);
    }
  }

  // ---------------------------------------------------------------- GET

  /** The 500 payload: the message and empty lists and settings. */
  const ErrorPayload: Value := Obj(map[
    "error" := Str(FetchFailed),
    "categories" := Arr([]),
    "meals" := Arr([]),
    "settings" := Obj(map[])])

  /** The payload of a successful `GET`. */
  function InitData(categories: seq<Value>, meals: seq<Value>, settings: Option<Value>): (r: Value)
    ensures Get(r, "categories") == Arr(CategoryList(categories))
    ensures Get(r, "meals") == Arr(MealList(meals))
    ensures Get(r, "settings") == InitSettings(settings)
    ensures Get(r, "error") == Undefined
  {
    Obj(map["categories" := Arr(CategoryList(categories)), "meals" := Arr(MealList(meals)), "settings" := InitSettings(settings)])
  }

  /** `GET`: the payload, or 500 with the error payload when a query fails. */
  function GetInit(db: Database): (r: Reply)
    reads db
    ensures r.status == 200 <==> db.online
    ensures !db.online ==> r.status == 500 && r.body == ErrorPayload
    ensures db.online ==> r.body == InitData(db.categories, db.meals, db.settings)
  {
    if db.online then Ok(InitData(db.categories, db.meals, db.settings)) else Reply(500, ErrorPayload)
  }

  /** The error payload has the message and empty `categories`, `meals` and `settings`. */
  lemma ErrorPayloadFields()
    ensures Get(ErrorPayload, "error") == Str(FetchFailed)
    ensures Get(ErrorPayload, "categories") == Arr([]) && Get(ErrorPayload, "meals") == Arr([])
    ensures Get(ErrorPayload, "settings") == Obj(map[])
  {
  }
}
