// The storefront page (public/js/app.js): which categories and meals it lists and in
// what order, the price a meal card shows, quick add, the quantity and price of the
// meal dialog, and the open indicator and phone number taken from the settings.
module Shop {
  import opened Js
  import opened Lists
  import opened Data

  // ---------------------------------------------------------------- listing

  predicate IsActiveEntry(v: Value) {
    Truthy(Get(v, "active"))
  }

  /** `getCategories().filter(c => c.active).sort((a, b) => a.order - b.order)`. */
  function ShownCategories(categories: seq<Value>): seq<Value> {
    Sort(ByOrder, Filter(categories, IsActiveEntry))
  }

  /** The category bar lists exactly the active categories, each as often as it is held,
      in ascending `order`. */
  lemma ShownCategoriesCorrect(categories: seq<Value>)
    ensures Sorted(ByOrder, ShownCategories(categories))
    ensures multiset(ShownCategories(categories)) == multiset(Filter(categories, IsActiveEntry))
    ensures forall c :: c in ShownCategories(categories) <==> c in categories && Truthy(Get(c, "active"))
  {
    var kept := Filter(categories, IsActiveEntry);
    SortCorrect(ByOrder, kept);
    forall c ensures c in ShownCategories(categories) <==> c in categories && Truthy(Get(c, "active")) {
      FilterMembers(categories, IsActiveEntry, c);
      assert c in ShownCategories(categories) <==> c in multiset(ShownCategories(categories));
      assert c in kept <==> c in multiset(kept);
    }
  }

  /** The search box's value as the page keeps it: trimmed and lower-cased. */
  function SearchQuery(input: string): string {
    ToLower(Trim(input))
  }

  /** The text of a name or description (a missing one is treated as empty). */
  function TextOf(v: Value): string {
    if v.Str? then v.s else ""
  }

  /** `m.name.toLowerCase().includes(q) || m.description.toLowerCase().includes(q)`. */
  predicate MatchesQuery(query: string, m: Value) {
    Contains(ToLower(TextOf(Get(m, "name"))), query) || Contains(ToLower(TextOf(Get(m, "description"))), query)
  }

  predicate InCategory(category: Value, m: Value) {
    StrictEq(Get(m, "categoryId"), category)
  }

  /** The meals `renderMeals()` keeps before sorting. */
  function SelectedMeals(meals: seq<Value>, category: Value, query: string): seq<Value> {
    var active := Filter(meals, IsActiveEntry);
    var inCategory := if Truthy(category) then Filter(active, m => InCategory(category, m)) else active;
    if query != "" then Filter(inCategory, m => MatchesQuery(query, m)) else inCategory
  }

  /** `renderMeals()`: the kept meals, popular ones first, each group by ascending `order`. */
  function ShownMeals(meals: seq<Value>, category: Value, query: string): seq<Value> {
    Sort(PopularThenOrder, SelectedMeals(meals, category, query))
  }

  /** A meal is listed exactly when it is active, in the chosen category (if one is
      chosen) and matches the query (if there is one). */
  lemma SelectedMealsMembers(meals: seq<Value>, category: Value, query: string, m: Value)
    ensures m in SelectedMeals(meals, category, query) <==>
      && m in meals && Truthy(Get(m, "active"))
      && (Truthy(category) ==> StrictEq(Get(m, "categoryId"), category))
      && (query != "" ==> MatchesQuery(query, m))
  {
    var active := Filter(meals, IsActiveEntry);
    FilterMembers(meals, IsActiveEntry, m);
    var inCategory := if Truthy(category) then Filter(active, m => InCategory(category, m)) else active;
    if Truthy(category) {
      FilterMembers(active, m => InCategory(category, m), m);
    }
    if query != "" {
      FilterMembers(inCategory, m => MatchesQuery(query, m), m);
    }
  }

  /** The listing holds the kept meals, no more and no fewer, with every popular meal
      before every other one and ascending `order` inside each group. */
  lemma ShownMealsCorrect(meals: seq<Value>, category: Value, query: string)
    ensures multiset(ShownMeals(meals, category, query)) == multiset(SelectedMeals(meals, category, query))
    ensures Sorted(PopularThenOrder, ShownMeals(meals, category, query))
    ensures var r := ShownMeals(meals, category, query);
      forall i, j :: 0 <= i < j < |r| && Truthy(Get(r[j], "popular")) ==> Truthy(Get(r[i], "popular"))
  {
    var r := ShownMeals(meals, category, query);
    SortCorrect(PopularThenOrder, SelectedMeals(meals, category, query));
    forall i, j | 0 <= i < j < |r| && Truthy(Get(r[j], "popular")) ensures Truthy(Get(r[i], "popular")) {
      assert Le(PopularThenOrder, r[i], r[j]);
    }
  }

  // ---------------------------------------------------------------- meal cards

  /** `meal.hasSizes && meal.sizes.length > 0`. */
  predicate PricedBySizes(meal: Value) {
    Truthy(Get(meal, "hasSizes")) && NonEmptyList(Get(meal, "sizes"))
  }

  /** `v[0]` of a list; a string's first character has no properties, so it reads as `Undefined` here. */
  function FirstOf(v: Value): Value {
    if v.Arr? && |v.items| > 0 then v.items[0] else Undefined
  }

  /** The price and label a meal card shows. */
  function DisplayPrice(meal: Value): (Value, string) {
    if PricedBySizes(meal) then (Get(FirstOf(Get(meal, "sizes")), "price"), "يبدأ من ")
    else (Get(meal, "price"), "")
  }

  /** Quoting the first size comes with the "starts from" label, the meal's own price
      with none. */
  lemma DisplayPriceCases(meal: Value)
    ensures DisplayPrice(meal).1 != "" <==> PricedBySizes(meal)
    ensures !PricedBySizes(meal) ==> DisplayPrice(meal).0 == Get(meal, "price")
    ensures PricedBySizes(meal) && Get(meal, "sizes").Arr? ==>
      DisplayPrice(meal).0 == Get(Get(meal, "sizes").items[0], "price")
  {
  }

  /** What quick add does with a meal. */
  datatype QuickAction = OpenModal(mealId: Value) | AddToCart(mealId: Value, sizeName: Value, quantity: int)

  /** `quickAddToCart(mealId)`: nothing for an unknown id; the dialog for a meal with
      sizes; otherwise one plain portion into the cart. */
  function QuickAdd(meals: seq<Value>, mealId: Value): (r: Option<QuickAction>)
    ensures r.None? <==> forall j :: 0 <= j < |meals| ==> !HasId(meals[j], mealId)
    ensures r.Some? && r.value.OpenModal? ==> r.value.mealId == mealId
    ensures r.Some? && r.value.AddToCart? ==> r.value == AddToCart(mealId, Null, 1)
  {
    var i := IndexOfId(meals, mealId);
    if i == -1 then None
    else if PricedBySizes(meals[i]) then Some(OpenModal(mealId))
    else Some(AddToCart(mealId, Null, 1))
  }

  /** Quick add opens the dialog exactly for a found meal priced by sizes. */
  lemma QuickAddOpensForSizes(meals: seq<Value>, mealId: Value)
    ensures var i := IndexOfId(meals, mealId);
      i >= 0 ==> (QuickAdd(meals, mealId) == Some(OpenModal(mealId)) <==> PricedBySizes(meals[i]))
  {
  }

  // ---------------------------------------------------------------- the meal dialog

  /** The quantity after a step, held between 1 and 99. */
  function Clamp(q: int): (r: int)
    ensures 1 <= r <= 99
    ensures 1 <= q <= 99 ==> r == q
    ensures q < 1 ==> r == 1
    ensures q > 99 ==> r == 99
  {
    if q < 1 then 1 else if q > 99 then 99 else q
  }

  /** `price * quantity`. */
  function Times(price: Value, quantity: Value): Value {
    var x := ToNumber(price);
    var y := ToNumber(quantity);
    if x.Num? && y.Num? then Num(x.n * y.n) else NaN
  }

  /** A size entry whose `name` is `name` (an `undefined` entry is never matched). */
  predicate SizeNamed(size: Value, name: Value) {
    size != Undefined && StrictEq(Get(size, "name"), name)
  }

  /** `meal.sizes.find(s => s.name === name)`, or `Undefined`. */
  function FindSize(sizes: seq<Value>, name: Value): (r: Value)
    ensures r != Undefined ==> r in sizes && SizeNamed(r, name)
  {
    if sizes == [] then Undefined
    else if SizeNamed(sizes[0], name) then sizes[0]
    else FindSize(sizes[1..], name)
  }

  /** `find` succeeds exactly when some entry has the name, and then gives the first such entry. */
  lemma {:induction false} FindSizeFirst(sizes: seq<Value>, name: Value)
    ensures FindSize(sizes, name) == Undefined <==> forall i :: 0 <= i < |sizes| ==> !SizeNamed(sizes[i], name)
    ensures FindSize(sizes, name) != Undefined ==>
      exists i :: 0 <= i < |sizes| && sizes[i] == FindSize(sizes, name)
        && forall j :: 0 <= j < i ==> !SizeNamed(sizes[j], name)
  {
    if sizes != [] && !SizeNamed(sizes[0], name) {
      FindSizeFirst(sizes[1..], name);
      var r := FindSize(sizes, name);
      if r != Undefined {
        var i :| 0 <= i < |sizes[1..]| && sizes[1..][i] == r
          && forall j :: 0 <= j < i ==> !SizeNamed(sizes[1..][j], name);
        assert sizes[i + 1] == r;
        assert forall j :: 0 <= j < i + 1 ==> !SizeNamed(sizes[j], name) by {
          forall j | 0 <= j < i + 1 ensures !SizeNamed(sizes[j], name) {
            if j > 0 { assert sizes[j] == sizes[1..][j - 1]; }
          }
        }
      } else {
        assert forall i :: 0 <= i < |sizes| ==> !SizeNamed(sizes[i], name) by {
          forall i | 0 <= i < |sizes| ensures !SizeNamed(sizes[i], name) {
            if i > 0 { assert sizes[i] == sizes[1..][i - 1]; }
          }
        }
      }
    } else if sizes != [] {
      assert sizes[0] == FindSize(sizes, name);
    }
  }

  /** `updateModalPrice(meal)`: the meal's price, or the chosen size's when the meal has
      sizes and one by that name exists, times the quantity shown. */
  function ModalPrice(meal: Value, selected: Option<Value>, quantityText: string): Value {
    var size := if selected.Some? && Truthy(Get(meal, "hasSizes"))
                then FindSize(Items(Get(meal, "sizes")), selected.value) else Undefined;
    var price := if Truthy(size) then Get(size, "price") else Get(meal, "price");
    Times(price, ParseIntStr(quantityText))
  }

  /** Without a chosen size, or for a meal without sizes, the total is the meal's price
      times the quantity. */
  lemma ModalPriceUnsized(meal: Value, selected: Option<Value>, q: int)
    requires selected.None? || !Truthy(Get(meal, "hasSizes"))
    ensures ModalPrice(meal, selected, IntToString(q)) == Times(Get(meal, "price"), Num(q as real))
  {
    IntToStringRoundTrip(q);
  }

  /** The meal dialog: the quantity is the text of its counter element. */
  class MealModal {
    var quantityText: string
    /** The number the counter text spells. */
    ghost var count: int
    const mealId: Value

    /** The counter shows a whole number between 1 and 99. */
    ghost predicate Valid()
      reads this
    {
      1 <= count <= 99 && quantityText == IntToString(count)
    }

    /** A dialog opens with one portion. */
    constructor (mealId: Value)
      ensures Valid() && count == 1 && this.mealId == mealId
    {
      this.mealId := mealId;
      quantityText := "1";
      count := 1;
    }

    /** `updateModalQuantity(delta)`: the counter text is read with `parseInt`, moved by
        `delta`, held within [1, 99] and written back. */
    method UpdateModalQuantity(delta: int)
      requires Valid()
      modifies this`quantityText, this`count
      ensures Valid()
      ensures count == Clamp(old(count) + delta)
      ensures ParseIntStr(quantityText) == Num(count as real)
    {
      IntToStringRoundTrip(count);
      var shown := ParseIntStr(quantityText);
      var quantity := shown.n.Floor + delta;
      if quantity < 1 { quantity := 1; }
      if quantity > 99 { quantity := 99; }
      quantityText := IntToString(quantity);
      count := quantity;
      IntToStringRoundTrip(quantity);
    }

    /** `addMealFromModal(mealId)`: the meal goes into the cart with the chosen size (or
        `null`) and the counter's quantity. */
    method AddMealFromModal(selected: Option<Value>) returns (r: QuickAction)
      requires Valid()
      ensures r == AddToCart(mealId, if selected.Some? then selected.value else Null, count)
    {
      IntToStringRoundTrip(count);
      var quantity := ParseIntStr(quantityText);
      r := AddToCart(mealId, if selected.Some? then selected.value else Null, quantity.n.Floor);
    }
  }

  // ---------------------------------------------------------------- settings

  /** The open indicator. */
  datatype OpenStatus = ShowOpen | ShowClosed | HideStatus

  /** `isOpen === true` shows open, `=== false` closed, anything else hides it. */
  function OpenIndicator(isOpen: Value): (r: OpenStatus)
    ensures r == ShowOpen <==> isOpen == Bool(true)
    ensures r == ShowClosed <==> isOpen == Bool(false)
  {
    if StrictEq(isOpen, Bool(true)) then ShowOpen
    else if StrictEq(isOpen, Bool(false)) then ShowClosed
    else HideStatus
  }

  /** The phone number shown: `contactPhone` when set, else `phone`, else the page's own. */
  function ShownPhone(settings: Record): (r: Option<Value>)
    ensures Truthy(Get(Obj(settings), "contactPhone")) ==> r == Some(Get(Obj(settings), "contactPhone"))
    ensures !Truthy(Get(Obj(settings), "contactPhone")) && Truthy(Get(Obj(settings), "phone")) ==>
      r == Some(Get(Obj(settings), "phone"))
    ensures r.None? <==> !Truthy(Get(Obj(settings), "contactPhone")) && !Truthy(Get(Obj(settings), "phone"))
  {
    var s := Obj(settings);
    if Truthy(Get(s, "contactPhone")) then Some(Get(s, "contactPhone"))
    else if Truthy(Get(s, "phone")) then Some(Get(s, "phone"))
    else None
  }

  /** The indicator the page paints from `getSettings()`: stored settings without an
      `isOpen` read the default `true`, so they show the restaurant as open rather
      than hide the indicator. */
  lemma UnknownOpenShowsOpen(stored: Value)
    requires "isOpen" !in Props(stored)
    ensures OpenIndicator(Get(Obj(SettingsView(stored)), "isOpen")) == ShowOpen
  {
  }

  // ---------------------------------------------------------------- page state

  /** The storefront's module variables. */
  class Storefront {
    var currentCategory: Value
    var searchQuery: string

    constructor ()
      ensures currentCategory == Null && searchQuery == ""
    {
      currentCategory, searchQuery := Null, "";
    }

    /** The meals listed for the current choice. */
    function Listed(meals: seq<Value>): seq<Value>
      reads this
    {
      ShownMeals(meals, currentCategory, searchQuery)
    }

    /** `filterByCategory(categoryId)`; `null` lists every category. */
    method FilterByCategory(categoryId: Value)
      modifies this`currentCategory
      ensures currentCategory == categoryId
    {
      currentCategory := categoryId;
    }

    /** The search box's `input` event. */
    method OnSearchInput(input: string)
      modifies this`searchQuery
      ensures searchQuery == SearchQuery(input)
    {
      searchQuery := SearchQuery(input);
    }
  }
}
