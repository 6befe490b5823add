// The meal manager of the admin panel (public/js/admin-meals.js): the size rows of the
// meal form, the validation and the record `saveMeal()` builds, the category filter
// and counters of the grid, and switching meals on and off one by one or in bulk.
module AdminMeals {
  import opened Js
  import opened Lists
  import opened Data

  const NoSizesMessage: string := "يرجى إضافة حجم واحد على الأقل"
  const BadPriceMessage: string := "يرجى إدخال سعر صحيح"

  // ---------------------------------------------------------------- size rows

  /** One row of the sizes section: the texts of its name and price inputs. */
  datatype SizeRow = SizeRow(nameText: string, priceText: string)

  /** `parseFloat(text) || 0`. */
  function PriceOrZero(text: string): real {
    var p := ParseFloatStr(text);
    if p.Num? then p.n else 0.0
  }

  /** `{name, price}`. */
  function SizeEntry(name: string, price: real): Value {
    Obj(map["name" := Str(name), "price" := Num(price)])
  }

  /** The size record a row contributes, if it has a name and a positive price. */
  function RowSize(row: SizeRow): seq<Value> {
    var name := Trim(row.nameText);
    var price := PriceOrZero(row.priceText);
    if name != "" && price > 0.0 then [SizeEntry(name, price)] else []
  }

  /** The sizes the form yields, row by row. */
  function ValidSizes(rows: seq<SizeRow>): seq<Value> {
    if rows == [] then [] else ValidSizes(rows[..|rows| - 1]) + RowSize(rows[|rows| - 1])
  }

  /** `getSizesFromForm()`: each row with a non-blank name and a positive price is pushed
      as `{name, price}`, in the order of the rows. */
  method GetSizesFromForm(rows: seq<SizeRow>) returns (sizes: seq<Value>)
    ensures sizes == ValidSizes(rows)
  {
    sizes := [];
    var i := 0;
    while i < |rows|
      invariant 0 <= i <= |rows|
      invariant sizes == ValidSizes(rows[..i])
    {
      assert rows[..i + 1][..i] == rows[..i];
      assert ValidSizes(rows[..i + 1]) == ValidSizes(rows[..i]) + RowSize(rows[i]);
      var name := Trim(rows[i].nameText);
      var price := PriceOrZero(rows[i].priceText);
      if name != "" && price > 0.0 {
        sizes := sizes + [SizeEntry(name, price)];
      }
      i := i + 1;
    }
    assert rows[..i] == rows;
  }

  /** A size is kept exactly when some row has a non-blank name and a price that parses
      to a positive number; it then carries the trimmed name and that price. */
  lemma {:induction false} ValidSizesMembers(rows: seq<SizeRow>, x: Value)
    ensures x in ValidSizes(rows) <==> exists r :: r in rows && RowSize(r) == [x]
  {
    if rows != [] {
      var init := rows[..|rows| - 1];
      var last := rows[|rows| - 1];
      ValidSizesMembers(init, x);
      assert rows == init + [last];
      if x in ValidSizes(rows) && x !in ValidSizes(init) {
        assert x in RowSize(last);
      }
      if exists r :: r in rows && RowSize(r) == [x] {
        var r :| r in rows && RowSize(r) == [x];
        if r != last { assert r in init; }
      }
    }
  }

  /** Every kept size has a name and a positive numeric price. */
  lemma {:induction false} ValidSizesPositive(rows: seq<SizeRow>)
    ensures forall i :: 0 <= i < |ValidSizes(rows)| ==>
      var p := Get(ValidSizes(rows)[i], "price"); p.Num? && p.n > 0.0 && Truthy(Get(ValidSizes(rows)[i], "name"))
  {
    if rows != [] {
      ValidSizesPositive(rows[..|rows| - 1]);
    }
  }

  /** `Math.min(...prices)` over the sizes' prices, for a non-empty list. */
  function MinPrice(sizes: seq<Value>): Value
    requires |sizes| > 0
  {
    if |sizes| == 1 then Get(sizes[0], "price")
    else NumMin(MinPrice(sizes[..|sizes| - 1]), Get(sizes[|sizes| - 1], "price"))
  }

  /** When every price is a number, the minimum is one of them and no other is smaller. */
  lemma {:induction false} MinPriceIsLeast(sizes: seq<Value>)
    requires |sizes| > 0
    requires forall i :: 0 <= i < |sizes| ==> Get(sizes[i], "price").Num?
    ensures MinPrice(sizes).Num?
    ensures exists i :: 0 <= i < |sizes| && MinPrice(sizes) == Get(sizes[i], "price")
    ensures forall i :: 0 <= i < |sizes| ==> MinPrice(sizes).n <= Get(sizes[i], "price").n
  {
    if |sizes| > 1 {
      var init := sizes[..|sizes| - 1];
      MinPriceIsLeast(init);
      var k :| 0 <= k < |init| && MinPrice(init) == Get(init[k], "price");
      if MinPrice(init).n <= Get(sizes[|sizes| - 1], "price").n {
        assert MinPrice(sizes) == Get(sizes[k], "price");
      } else {
        assert MinPrice(sizes) == Get(sizes[|sizes| - 1], "price");
      }
      forall i | 0 <= i < |sizes| ensures MinPrice(sizes).n <= Get(sizes[i], "price").n {
        if i < |sizes| - 1 { assert sizes[i] == init[i]; }
      }
    }
  }

  // ---------------------------------------------------------------- saving a meal

  /** What the meal form holds when it is submitted. */
  datatype MealForm = MealForm(
    id: string, name: string, description: string, categoryText: string, hasSizes: bool,
    rows: seq<SizeRow>, priceText: string,
    previewShown: bool, previewSrc: string,
    /** The cropped image field, `None` when the page has none. */
    cropped: Option<string>)

  /** The image sent: the cropped data when there is some, else the preview's source when
      the preview is shown; an empty image is sent as `null`. */
  function ImageOf(form: MealForm): Value {
    var image := if form.previewShown then form.previewSrc else "";
    var image2 := if form.cropped.Some? && form.cropped.value != "" then form.cropped.value else image;
    if image2 == "" then Null else Str(image2)
  }

  /** The price and sizes the form stands for, or the validation error. */
  function PriceAndSizes(form: MealForm): Pricing {
    if form.hasSizes then
      var sizes := ValidSizes(form.rows);
      if |sizes| == 0 then Failed(NoSizesMessage) else Priced(MinPrice(sizes), sizes)
    else
      var price := PriceOrZero(form.priceText);
      if price <= 0.0 then Failed(BadPriceMessage) else Priced(Num(price), [])
  }

  datatype Pricing = Failed(message: string) | Priced(price: Value, sizes: seq<Value>)

  /** The fields every saved meal gets from the form. */
  function MealData(form: MealForm, price: Value, sizes: seq<Value>): (r: Record)
    ensures "active" in r && r["active"] == Bool(true)
    ensures "name" in r && r["name"] == Str(form.name)
    ensures "image" in r && r["image"] == ImageOf(form)
    ensures "price" in r && r["price"] == price
    ensures "sizes" in r && r["sizes"] == Arr(sizes)
    ensures "id" !in r && "popular" !in r && "order" !in r
  {
    map["name" := Str(form.name), "price" := price, "description" := Str(form.description),
        "categoryId" := ParseIntStr(form.categoryText), "image" := ImageOf(form),
        "hasSizes" := Bool(form.hasSizes), "sizes" := Arr(sizes), "active" := Bool(true)]
  }

  /** The record `saveMeal()` hands on once the form is valid: an edit spreads the form's
      fields over the meal with that id (compared loosely, since the hidden field holds
      text) and fixes the id as a number; a new meal is not popular and goes after the
      meals already held. */
  function Saved(data: Record, id: string, meals: seq<Value>): (r: SaveOutcome)
    ensures r.Update? || r.Create?
  {
    if id != "" then
      var k := IndexOfLooseId(meals, Str(id));
      var existing := if k == -1 then map[] else Props(meals[k]);
      Update(Obj(existing + data + map["id" := ParseIntStr(id)]))
    else
      Create(Obj(data + map["popular" := Bool(false), "order" := Num((|meals| + 1) as real)]))
  }

  /** `saveMeal()`. */
  function SaveMeal(form: MealForm, meals: seq<Value>): SaveOutcome {
    match PriceAndSizes(form)
    case Failed(message) => Invalid(message)
    case Priced(price, sizes) => Saved(MealData(form, price, sizes), form.id, meals)
  }

  /** A new meal carries every field of the form, is not popular and is ordered after
      the meals already held. */
  lemma SavedNew(data: Record, meals: seq<Value>)
    requires "popular" !in data && "order" !in data
    ensures Saved(data, "", meals).Create?
    ensures forall key :: key in data ==> Get(Saved(data, "", meals).record, key) == data[key]
    ensures Get(Saved(data, "", meals).record, "popular") == Bool(false)
    ensures Get(Saved(data, "", meals).record, "order") == Num((|meals| + 1) as real)
  {
  }

  /** An edit carries every field of the form, fixes the id as the parsed number, and
      keeps the fields of the existing meal the form does not set. */
  lemma SavedEdit(data: Record, id: string, meals: seq<Value>)
    requires "id" !in data && id != ""
    ensures Saved(data, id, meals).Update?
    ensures forall key :: key in data ==> Get(Saved(data, id, meals).record, key) == data[key]
    ensures Get(Saved(data, id, meals).record, "id") == ParseIntStr(id)
    ensures var k := IndexOfLooseId(meals, Str(id));
      k >= 0 ==> forall key :: key in Props(meals[k]) && key !in data && key != "id" ==>
        Get(Saved(data, id, meals).record, key) == Props(meals[k])[key]
  {
    var k := IndexOfLooseId(meals, Str(id));
    var existing := if k == -1 then map[] else Props(meals[k]);
    assert Saved(data, id, meals).record == Obj(existing + data + map["id" := ParseIntStr(id)]);
  }

  /** A saved record carries every field of the form; which kind of saving happens
      depends on the id field alone. */
  lemma SavedRecord(data: Record, id: string, meals: seq<Value>)
    requires "id" !in data && "popular" !in data && "order" !in data
    ensures forall key :: key in data ==> Get(Saved(data, id, meals).record, key) == data[key]
    ensures Saved(data, id, meals).Create? <==> id == ""
  {
    if id == "" { SavedNew(data, meals); } else { SavedEdit(data, id, meals); }
  }

  /** The price and sizes of a valid form: the cheapest of the form's sizes for a sized
      meal, the typed price and no sizes otherwise. */
  lemma PricingCases(form: MealForm)
    ensures PriceAndSizes(form).Failed? <==>
      if form.hasSizes then |ValidSizes(form.rows)| == 0 else PriceOrZero(form.priceText) <= 0.0
    ensures PriceAndSizes(form).Failed? ==>
      PriceAndSizes(form).message == if form.hasSizes then NoSizesMessage else BadPriceMessage
    ensures PriceAndSizes(form).Priced? && form.hasSizes ==>
      PriceAndSizes(form).sizes == ValidSizes(form.rows) && PriceAndSizes(form).price == MinPrice(ValidSizes(form.rows))
    ensures PriceAndSizes(form).Priced? && !form.hasSizes ==>
      PriceAndSizes(form) == Priced(Num(PriceOrZero(form.priceText)), [])
  {
  }

  /** The form is refused exactly when a sized meal has no valid size or an unsized one
      has no positive price; otherwise an edit or a creation follows, by the id field. */
  lemma SaveMealValidation(form: MealForm, meals: seq<Value>)
    ensures SaveMeal(form, meals) == Invalid(NoSizesMessage) <==> form.hasSizes && |ValidSizes(form.rows)| == 0
    ensures SaveMeal(form, meals) == Invalid(BadPriceMessage) <==> !form.hasSizes && PriceOrZero(form.priceText) <= 0.0
    ensures SaveMeal(form, meals).Update? <==> !SaveMeal(form, meals).Invalid? && form.id != ""
  {
    PricingCases(form);
    if PriceAndSizes(form).Priced? {
      var p := PriceAndSizes(form);
      SavedRecord(MealData(form, p.price, p.sizes), form.id, meals);
    }
  }

  /** A saved meal is always available, even when the edited meal was switched off; it
      takes the form's name and image, and its price is the cheapest size for a sized
      meal and the typed price otherwise. */
  lemma SavedMealFields(form: MealForm, meals: seq<Value>)
    requires !SaveMeal(form, meals).Invalid?
    ensures var r := SaveMeal(form, meals).record;
      && Get(r, "active") == Bool(true)
      && Get(r, "name") == Str(form.name)
      && Get(r, "image") == ImageOf(form)
      && (form.hasSizes ==> Get(r, "price") == MinPrice(ValidSizes(form.rows)))
      && (!form.hasSizes ==> Get(r, "price") == Num(PriceOrZero(form.priceText)) && Get(r, "sizes") == Arr([]))
  {
    PricingCases(form);
    var p := PriceAndSizes(form);
    SavedRecord(MealData(form, p.price, p.sizes), form.id, meals);
  }

  /** The cheapest size sets the price of a sized meal: a number no size undercuts. */
  lemma SizedPriceIsLeast(form: MealForm, meals: seq<Value>)
    requires form.hasSizes && !SaveMeal(form, meals).Invalid?
    ensures var p := Get(SaveMeal(form, meals).record, "price"); var sizes := ValidSizes(form.rows);
      p.Num? && forall i :: 0 <= i < |sizes| ==> Get(sizes[i], "price").Num? && p.n <= Get(sizes[i], "price").n
  {
    SavedMealFields(form, meals);
    ValidSizesPositive(form.rows);
    MinPriceIsLeast(ValidSizes(form.rows));
  }

  /** Cropped image data wins over the preview; no image at all is stored as `null`. */
  lemma ImagePrecedence(form: MealForm)
    ensures form.cropped.Some? && form.cropped.value != "" ==> ImageOf(form) == Str(form.cropped.value)
    ensures ImageOf(form) == Null <==>
      (form.cropped.None? || form.cropped.value == "") && (!form.previewShown || form.previewSrc == "")
  {
  }

  // ---------------------------------------------------------------- the grid

  /** The category the grid shows: the select's value unless it is `all`, else the argument. */
  function GridCategory(argument: Value, selectValue: Option<string>): Value {
    if selectValue.Some? && selectValue.value != "all" then Str(selectValue.value) else argument
  }

  /** `m.categoryId == categoryId`: the select holds text, the meal a number. */
  predicate InGridCategory(category: Value, m: Value) {
    LooseEq(Get(m, "categoryId"), category)
  }

  /** The meals `renderMeals(categoryId)` lists. */
  function GridMeals(meals: seq<Value>, category: Value): seq<Value> {
    if Truthy(category) && category != Str("all") then Filter(meals, m => InGridCategory(category, m)) else meals
  }

  /** The counters above the grid. */
  datatype Stats = Stats(total: nat, active: nat, inactive: int)

  /** `updateMealsStats(meals)`. */
  function MealsStats(meals: seq<Value>): Stats {
    var total := |meals|;
    var active := |Filter(meals, m => Truthy(Get(m, "active")))|;
    Stats(total, active, total - active)
  }

  /** The inactive counter is exactly the number of meals that are switched off. */
  lemma InactiveCounted(meals: seq<Value>)
    ensures MealsStats(meals).inactive == |Filter(meals, m => !Truthy(Get(m, "active")))|
    ensures MealsStats(meals).active + MealsStats(meals).inactive == |meals|
  {
    FilterPartition(meals, m => Truthy(Get(m, "active")), m => !Truthy(Get(m, "active")));
  }

  // ---------------------------------------------------------------- bulk switching

  /** A meal the bulk switch covers: every meal, or those of the selected category. */
  predicate BulkTarget(selectValue: string, m: Value) {
    selectValue == "" || selectValue == "all" || LooseEq(Get(m, "categoryId"), Str(selectValue))
  }

  /** A covered meal whose `active` is not already the target value. */
  predicate NeedsSwitch(selectValue: string, activate: bool, m: Value) {
    BulkTarget(selectValue, m) && !StrictEq(Get(m, "active"), Bool(activate))
  }

  /** The meal after the switch. */
  function Switched(selectValue: string, activate: bool, m: Value): Value {
    if NeedsSwitch(selectValue, activate, m) then Set(m, "active", Bool(activate)) else m
  }

  /** The list after `bulkToggleMeals(activate)` has written `active` in place. */
  function BulkToggled(meals: seq<Value>, selectValue: string, activate: bool): (r: seq<Value>)
    ensures |r| == |meals|
    ensures forall i :: 0 <= i < |meals| ==> r[i] == Switched(selectValue, activate, meals[i])
  {
    if meals == [] then []
    else BulkToggled(meals[..|meals| - 1], selectValue, activate) + [Switched(selectValue, activate, meals[|meals| - 1])]
  }

  /** The meals sent to `updateMealData`, in list order: the ones switched. */
  function BulkSent(meals: seq<Value>, selectValue: string, activate: bool): seq<Value> {
    if meals == [] then []
    else
      var m := meals[|meals| - 1];
      BulkSent(meals[..|meals| - 1], selectValue, activate)
      + (if NeedsSwitch(selectValue, activate, m) then [Set(m, "active", Bool(activate))] else [])
  }

  /** `bulkToggleMeals(activate)` over the meal objects the store holds: after the
      confirmation, every covered meal whose `active` differs is switched in place and
      sent. A refusal changes nothing. */
  method BulkToggleMeals(meals: array<Value>, selectValue: string, activate: bool, confirmed: bool)
    returns (sent: seq<Value>)
    modifies meals
    ensures !confirmed ==> sent == [] && meals[..] == old(meals[..])
    ensures confirmed ==> meals[..] == BulkToggled(old(meals[..]), selectValue, activate)
    ensures confirmed ==> sent == BulkSent(old(meals[..]), selectValue, activate)
  {
    sent := [];
    if !confirmed {
      return;
    }
    ghost var before := meals[..];
    var i := 0;
    while i < meals.Length
      invariant 0 <= i <= meals.Length
      invariant forall j :: 0 <= j < i ==> meals[j] == Switched(selectValue, activate, before[j])
      invariant forall j :: i <= j < meals.Length ==> meals[j] == before[j]
      invariant sent == BulkSent(before[..i], selectValue, activate)
    {
      var m := meals[i];
      assert before[..i + 1][..i] == before[..i];
      if NeedsSwitch(selectValue, activate, m) {
        meals[i] := Set(m, "active", Bool(activate));
        sent := sent + [meals[i]];
      }
      i := i + 1;
    }
    assert before[..i] == before;
    assert meals[..] == BulkToggled(before, selectValue, activate);
  }

  /** After a bulk switch every covered meal object carries the target value, the others
      are untouched, and a second identical switch has nothing left to send. */
  lemma {:induction false} BulkToggleSettles(meals: seq<Value>, selectValue: string, activate: bool)
    requires forall i :: 0 <= i < |meals| ==> meals[i].Obj?
    ensures var r := BulkToggled(meals, selectValue, activate);
      forall i :: 0 <= i < |meals| ==>
        (BulkTarget(selectValue, meals[i]) ==> Get(r[i], "active") == Bool(activate))
        && (!BulkTarget(selectValue, meals[i]) ==> r[i] == meals[i])
    ensures BulkSent(BulkToggled(meals, selectValue, activate), selectValue, activate) == []
  {
    if meals != [] {
      var init := meals[..|meals| - 1];
      BulkToggleSettles(init, selectValue, activate);
      var r := BulkToggled(meals, selectValue, activate);
      assert r[..|r| - 1] == BulkToggled(init, selectValue, activate);
      var m := meals[|meals| - 1];
      assert BulkTarget(selectValue, Switched(selectValue, activate, m)) == BulkTarget(selectValue, m);
    }
  }
}
