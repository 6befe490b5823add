// The meal endpoints (app/api/meals/route.js): the listing, whole or paged and
// filtered; saving a meal, as an update or a create, with its sizes; and deletion.
module MealsRoute {
  import opened Js
  import opened Lists
  import opened Db
  import opened Arith

  const FetchFailed: string := "Failed to fetch meals"
  const NameRequired: string := "اسم الوجبة مطلوب"
  const CategoryRequired: string := "القسم مطلوب"
  const InvalidId: string := "Invalid ID"
  const IdRequired: string := "ID required"
  const DeleteFailed: string := "Failed to delete meal"
  const SaveFailedPrefix: string := "فشل في حفظ الوجبة: "

  // ---------------------------------------------------------------- GET

  /** The query string of a listing request. */
  datatype MealsQuery = MealsQuery(categoryId: Option<string>, page: Option<string>,
                                   limit: Option<string>, active: Option<string>)

  /** The paged branch is taken when a page, a limit or a category is asked for. */
  predicate Paged(q: MealsQuery) {
    Truthy(Param(q.page)) || Truthy(Param(q.limit)) || Truthy(Param(q.categoryId))
  }

  /** `parseInt(page || '1')`. */
  function PageNumber(q: MealsQuery): Value {
    ParseInt(Or(Param(q.page), Str("1")))
  }

  /** `parseInt(limit || '50')`. */
  function LimitNumber(q: MealsQuery): Value {
    ParseInt(Or(Param(q.limit), Str("50")))
  }

  /** `(pageNum - 1) * limitNum`; `NaN` spreads. */
  function Skip(pageNum: Value, limitNum: Value): Value {
    if pageNum.Num? && limitNum.Num? then Num((pageNum.n - 1.0) * limitNum.n) else NaN
  }

  /** The `where` clause: a category when one is asked for, and an `active` flag
      when the `active` parameter reads as an integer. */
  datatype Where = Where(categoryId: Option<Value>, active: Option<bool>)

  function WhereOf(q: MealsQuery): Where {
    Where(if Truthy(Param(q.categoryId)) then Some(ParseInt(Param(q.categoryId))) else None,
          if ParseInt(Param(q.active)).Num? then Some(q.active == Some("true")) else None)
  }

  /** The `active` filter, when there is one, never asks for active meals: a parameter
      that `parseInt` reads as a number is never the text `true`. */
  lemma ActiveFilterNeverTrue(q: MealsQuery)
    ensures WhereOf(q).active != Some(true)
  {
    if q.active == Some("true") {
      TrimStartMeaning("true");
      ParseIntLetter("true");
    }
  }

  /** A row the `where` clause selects. */
  predicate Matches(w: Where, row: Value) {
    && (w.categoryId.Some? ==> Get(row, "categoryId") == w.categoryId.value)
    && (w.active.Some? ==> Get(row, "active") == Bool(w.active.value))
  }

  /** `skip` and then `take` on the ordered rows, as Prisma's `findMany` applies them:
      a negative `take` counts from the end of the list, and `skip` then drops rows
      from that end. */
  function Window(s: seq<Value>, skip: nat, take: Option<int>): (r: seq<Value>)
    ensures take.Some? ==> |r| <= (if take.value < 0 then -take.value else take.value)
    ensures skip >= |s| ==> r == []
    ensures skip < |s| && (take.None? || take.value >= 0) ==>
      r == s[skip..(if take.Some? && skip + take.value < |s| then skip + take.value else |s|)]
    ensures skip < |s| && take.Some? && take.value < 0 ==>
      |r| == (if -take.value < |s| - skip then -take.value else |s| - skip)
      && r == s[|s| - skip - |r|..|s| - skip]
  {
    if take.Some? && take.value < 0 then
      var end := if skip <= |s| then |s| - skip else 0;
      s[(if -take.value < end then end + take.value else 0)..end]
    else
      var rest := if skip <= |s| then s[skip..] else [];
      if take.Some? && take.value < |rest| then rest[..take.value] else rest
  }

  /** `Math.ceil(total / limitNum)` as JSON writes it; a zero limit gives `Infinity`
      or `NaN`, both written `null` (a negative limit gives a page count of zero or less). */
  function TotalPages(total: nat, limitNum: Value): Value {
    if limitNum.Num? && limitNum.n != 0.0 then Num(Ceil(total as real / limitNum.n) as real) else Null
  }

  /** The page count reported is the least number of pages of `limit` meals that holds
      them all, and page `page` lists something exactly when it is one of them. */
  lemma TotalPagesCount(s: seq<Value>, page: nat, limit: nat)
    requires page >= 1 && limit > 0
    ensures TotalPages(|s|, Num(limit as real)).Num?
    ensures var pages := TotalPages(|s|, Num(limit as real)).n;
      (pages - 1.0) * limit as real < |s| as real <= pages * limit as real
    ensures |Window(s, (page - 1) * limit, Some(limit))| > 0 <==> page as real <= TotalPages(|s|, Num(limit as real)).n
  {
    var pages := Ceil(|s| as real / limit as real);
    CeilPages(|s|, limit);
    PageStart(|s|, page, limit);
    CastMul(pages, limit);
    CastMul(pages - 1, limit);
  }

  /** Whether the database rejects the query: a category that is not a number, a
      `skip` that is not a number of rows, or a `take` that is not a number (a
      negative one is accepted). */
  predicate Rejected(q: MealsQuery) {
    var w := WhereOf(q);
    var skip := Skip(PageNumber(q), LimitNumber(q));
    || (w.categoryId.Some? && !w.categoryId.value.Num?)
    || (Truthy(Param(q.page)) && !(skip.Num? && skip.n >= 0.0))
    || !LimitNumber(q).Num?
  }

  /** `skip: page ? skip : undefined`. */
  function Offset(q: MealsQuery): nat
    requires !Rejected(q)
  {
    if Truthy(Param(q.page)) then Skip(PageNumber(q), LimitNumber(q)).n.Floor else 0
  }

  /** `take: limit ? limitNum : undefined`. */
  function Take(q: MealsQuery): Option<int>
    requires !Rejected(q)
  {
    if Truthy(Param(q.limit)) then Some(LimitNumber(q).n.Floor) else None
  }

  /** With a page, the offset is `(page - 1) * limit`; with a limit, at most `limit`
      meals are taken. */
  lemma OffsetIsPageTimesLimit(q: MealsQuery)
    requires !Rejected(q)
    ensures Truthy(Param(q.page)) ==> PageNumber(q).Num? && Offset(q) == (PageNumber(q).n.Floor - 1) * LimitNumber(q).n.Floor
    ensures Truthy(Param(q.limit)) ==> Take(q) == Some(LimitNumber(q).n.Floor)
    ensures !Truthy(Param(q.page)) ==> Offset(q) == 0
    ensures !Truthy(Param(q.limit)) ==> Take(q).None?
  {
    ParseIntIntegral(Or(Param(q.page), Str("1")));
    ParseIntIntegral(Or(Param(q.limit), Str("50")));
    if Truthy(Param(q.page)) {
      SkipFloor(PageNumber(q), LimitNumber(q));
    }
  }

  /** `(pageNum - 1) * limitNum` for two integers is the integer product. */
  lemma SkipFloor(pageNum: Value, limitNum: Value)
    requires pageNum.Num? && pageNum.n == pageNum.n.Floor as real
    requires limitNum.Num? && limitNum.n == limitNum.n.Floor as real
    ensures Skip(pageNum, limitNum).n.Floor == (pageNum.n.Floor - 1) * limitNum.n.Floor
  {
    CastMul(pageNum.n.Floor - 1, limitNum.n.Floor);
  }

  /** The rows the paged branch lists: those the `where` clause selects, by `order`. */
  function Matching(meals: seq<Value>, q: MealsQuery): seq<Value> {
    Sort(ByOrder, Filter(meals, m => Matches(WhereOf(q), m)))
  }

  /** The paged branch: the window of matching meals, with the total of matching meals,
      the page and limit numbers and the page count. */
  function MealsPage(meals: seq<Value>, q: MealsQuery): Value
    requires !Rejected(q)
  {
    PageBody(Matching(meals, q), Offset(q), Take(q), PageNumber(q), LimitNumber(q))
  }

  /** The body of a paged answer: the window of the matching meals, with their total,
      the page and limit numbers and the page count. */
  function PageBody(matching: seq<Value>, skip: nat, take: Option<int>, pageNum: Value, limitNum: Value): (r: Value)
    ensures Get(r, "meals") == Arr(Window(matching, skip, take))
    ensures Get(Get(r, "pagination"), "total") == Num(|matching| as real)
    ensures Get(Get(r, "pagination"), "page") == pageNum
    ensures Get(Get(r, "pagination"), "limit") == limitNum
    ensures Get(Get(r, "pagination"), "totalPages") == TotalPages(|matching|, limitNum)
  {
    Obj(map["pagination" := Obj(map["total" := Num(|matching| as real), "page" := pageNum, "limit" := limitNum,
                                    "totalPages" := TotalPages(|matching|, limitNum)]),
            "meals" := Arr(Window(matching, skip, take))])
  }

  /** `GET`: an unreachable database gives an empty list; without paging parameters
      every meal is listed by `order` as a flat array; otherwise the page is answered
      with its pagination record, or 500 when the query is rejected. */
  function GetMeals(db: Database, q: MealsQuery): (r: Reply)
    reads db
    ensures r.status == 200 || r == Failure(500, FetchFailed)
    ensures !db.online ==> r == Ok(Arr([]))
    ensures db.online && !Paged(q) ==> r.status == 200 && r.body.Arr? && |r.body.items| == |db.meals|
    ensures db.online && !Paged(q) ==>
      r.body.Arr? && multiset(r.body.items) == multiset(db.meals) && Sorted(ByOrder, r.body.items)
    ensures db.online && Paged(q) ==> (r.status == 200 <==> !Rejected(q))
    ensures db.online && Paged(q) && r.status == 200 ==> Get(r.body, "pagination").Obj?
    ensures db.online && Paged(q) && !Rejected(q) ==> r == Ok(MealsPage(db.meals, q))
  {
    if !db.online then Ok(Arr([]))
    else if !Paged(q) then (SortCorrect(ByOrder, db.meals); Ok(Arr(Sort(ByOrder, db.meals))))
    else if Rejected(q) then Failure(500, FetchFailed)
    else Ok(MealsPage(db.meals, q))
  }

  /** A negative `limit` without a `page` or a category is a valid query: the answer
      lists the last `-limit` matching meals by `order`. */
  lemma NegativeLimitTakesLast(meals: seq<Value>, q: MealsQuery)
    requires !Truthy(Param(q.page)) && !Truthy(Param(q.categoryId))
    requires Truthy(Param(q.limit)) && LimitNumber(q).Num? && LimitNumber(q).n < 0.0
    ensures !Rejected(q)
    ensures var m := Matching(meals, q);
      var n := -LimitNumber(q).n.Floor;
      Get(MealsPage(meals, q), "meals") == Arr(m[(if n < |m| then |m| - n else 0)..])
  {
    assert !Rejected(q);
    LastRows(meals, q);
  }

  /** With no offset and a negative `take`, the window is the tail of the matching meals. */
  lemma LastRows(meals: seq<Value>, q: MealsQuery)
    requires !Rejected(q) && !Truthy(Param(q.page))
    requires Truthy(Param(q.limit)) && LimitNumber(q).n < 0.0
    ensures var m := Matching(meals, q);
      var n := -LimitNumber(q).n.Floor;
      Get(MealsPage(meals, q), "meals") == Arr(m[(if n < |m| then |m| - n else 0)..])
  {
    ParseIntIntegral(Or(Param(q.limit), Str("50")));
    var k := LimitNumber(q).n.Floor;
    assert Offset(q) == 0 && Take(q) == Some(k);
    WindowTail(Matching(meals, q), k);
  }

  /** A negative `take` with no `skip` keeps the last `-take` rows. */
  lemma WindowTail(s: seq<Value>, k: int)
    requires k < 0
    ensures Window(s, 0, Some(k)) == s[(if -k < |s| then |s| + k else 0)..]
  {
  }

  /** Every listed meal is one the `where` clause selects, every such meal is listed, and
      the list is in `order`. */
  lemma MatchingSelected(meals: seq<Value>, q: MealsQuery)
    ensures forall m :: m in Matching(meals, q) <==> m in meals && Matches(WhereOf(q), m)
    ensures Sorted(ByOrder, Matching(meals, q))
  {
    var kept := Filter(meals, m => Matches(WhereOf(q), m));
    SortCorrect(ByOrder, kept);
    forall m ensures m in Matching(meals, q) <==> m in meals && Matches(WhereOf(q), m) {
      FilterMembers(meals, m => Matches(WhereOf(q), m), m);
      assert m in Matching(meals, q) <==> m in multiset(kept);
    }
  }

  /** Without a `page` the answer reports page 1, and without a `limit` it reports a
      limit of 50 even though no limit was applied. */
  lemma PaginationDefaults(q: MealsQuery)
    ensures !Truthy(Param(q.page)) ==> PageNumber(q) == Num(1.0)
    ensures !Truthy(Param(q.limit)) ==> LimitNumber(q) == Num(50.0)
  {
    IntToStringRoundTrip(1);
    IntToStringRoundTrip(50);
    assert IntToString(1) == "1";
    assert IntToString(50) == "50";
  }

  // ---------------------------------------------------------------- POST

  /** `isNaN(p) ? 0 : p` for a parsed number. */
  function SafeNumber(v: Value): (r: Value)
    ensures (v.Num? || v.NaN?) ==> r.Num?
    ensures v.Num? ==> r == v
  {
    if v.NaN? then Num(0.0) else v
  }

  /** A size as `prepareSizes` builds it. */
  function SizeRecord(s: Value): Value {
    Obj(map["name" := Or(Get(s, "name"), Str("size")), "price" := SafeNumber(ParseFloat(Get(s, "price")))])
  }

  /** A size is named `size` when it has no name, and priced 0 when its price does not
      parse; so every size has a name and a numeric price. */
  lemma SizeRecordFields(s: Value)
    ensures Truthy(Get(SizeRecord(s), "name"))
    ensures Truthy(Get(s, "name")) ==> Get(SizeRecord(s), "name") == Get(s, "name")
    ensures Get(SizeRecord(s), "price").Num?
    ensures ParseFloat(Get(s, "price")).Num? ==> Get(SizeRecord(s), "price") == ParseFloat(Get(s, "price"))
  {
  }

  /** `prepareSizes(sizes)`: one size per entry of an array, none for anything else. */
  function PrepareSizes(sizes: Value): (r: seq<Value>)
    ensures !sizes.Arr? ==> r == []
    ensures sizes.Arr? ==> |r| == |sizes.items| && forall i :: 0 <= i < |r| ==> r[i] == SizeRecord(sizes.items[i])
  {
    if !Truthy(sizes) || !sizes.Arr? then [] else Map(sizes.items, SizeRecord)
  }

  /** `sizes.length > 0` for a truthy value. */
  predicate LengthPositive(v: Value) {
    match v
    case Arr(items) => |items| > 0
    case Str(s) => |s| > 0
    case Obj(_) => Greater(Get(v, "length"), Num(0.0))
    case _ => false
  }

  /** The 500 answer: the prefix and the thrown error's message, `Unknown error` when it has none. */
  function SaveFailure(errorText: string): Reply {
    Failure(500, SaveFailedPrefix + (if errorText == "" then "Unknown error" else errorText))
  }

  /** `parseInt(body.categoryId)`. */
  function CategoryOf(body: Value): Value {
    ParseInt(Get(body, "categoryId"))
  }

  /** The answer given before the database is touched, `None` when the body passes
      the checks: a `null` body throws on its first property read and answers 500; a
      missing or blank name, or a missing or non-integer category, answers 400; a name
      that is not a string cannot be trimmed and answers 500; an update id that is not
      an integer answers 400. */
  function Refusal(body: Value, errorText: string): (r: Option<Reply>)
    ensures r.Some? ==> r.value.status == 400 || r.value == SaveFailure(errorText)
    ensures body.Null? ==> r == Some(SaveFailure(errorText))
  {
    var name := Get(body, "name");
    if body.Null? then Some(SaveFailure(errorText))
    else if !Truthy(name) then Some(Failure(400, NameRequired))
    else if !name.Str? then Some(SaveFailure(errorText))
    else if Trim(name.s) == "" then Some(Failure(400, NameRequired))
    else if !Truthy(Get(body, "categoryId")) || CategoryOf(body).NaN? then Some(Failure(400, CategoryRequired))
    else if Truthy(Get(body, "id")) && ParseInt(Get(body, "id")).NaN? then Some(Failure(400, InvalidId))
    else None
  }

  /** A body passes the checks exactly when its name is a string that is not blank,
      its category is truthy and reads as an integer, and an id, if given, reads as one. */
  lemma RefusalCases(body: Value, errorText: string)
    ensures Refusal(body, errorText).None? <==>
      && Get(body, "name").Str? && Trim(Get(body, "name").s) != ""
      && Truthy(Get(body, "categoryId")) && CategoryOf(body).Num?
      && (Truthy(Get(body, "id")) ==> ParseInt(Get(body, "id")).Num?)
  {
  }

  /** The columns an update or a create writes (sizes and order aside), from the
      parsed category and the safe price. */
  function MealColumns(body: Value, catId: Value, price: Value): (data: Record)
    ensures "id" !in data && "sizes" !in data && "order" !in data
  {
    map["price" := price,
        "categoryId" := catId,
        "description" := Or(Get(body, "description"), Str("")),
        "image" := Or(Get(body, "image"), Null),
        "hasSizes" := Or(Get(body, "hasSizes"), Bool(false)),
        "popular" := Or(Get(body, "popular"), Bool(false)),
        "active" := if Get(body, "active") != Undefined then Get(body, "active") else Bool(true),
        "name" := Get(body, "name")]
  }

  /** A saved meal is active unless the body says otherwise, neither popular nor
      sized unless it says so, and has its name exactly as sent (untrimmed). */
  lemma MealColumnsDefaults(body: Value, catId: Value, price: Value)
    ensures var d := MealColumns(body, catId, price);
      "active" in d && d["active"] == (if Get(body, "active") == Undefined then Bool(true) else Get(body, "active"))
    ensures var d := MealColumns(body, catId, price);
      !Truthy(Get(body, "popular")) ==> "popular" in d && d["popular"] == Bool(false)
    ensures var d := MealColumns(body, catId, price);
      !Truthy(Get(body, "hasSizes")) ==> "hasSizes" in d && d["hasSizes"] == Bool(false)
    ensures var d := MealColumns(body, catId, price);
      !Truthy(Get(body, "image")) ==> "image" in d && d["image"] == Null
    ensures var d := MealColumns(body, catId, price);
      "name" in d && d["name"] == Get(body, "name")
  {
  }

  /** The price written: `parseFloat(body.price)`, 0 when it does not parse. */
  function PriceOf(body: Value): (r: Value)
    ensures r.Num?
  {
    SafeNumber(ParseFloat(Get(body, "price")))
  }

  /** A new meal: the columns, `order` from `parseInt(body.order) || 0`, and its sizes. */
  function NewMeal(body: Value): Record {
    MealColumns(body, CategoryOf(body), PriceOf(body))
      ["order" := Or(ParseInt(Get(body, "order")), Num(0.0))]
      ["sizes" := Arr(PrepareSizes(Get(body, "sizes")))]
  }

  /** An updated meal: the columns over the stored row; when the body has `sizes`, the
      stored sizes are replaced by the prepared ones (so `[]` clears them), and
      otherwise they are kept. */
  function UpdatedMeal(row: Value, body: Value): Value {
    Patched(row, UpdatedColumns(body))
  }

  /** The columns `UpdatedMeal` writes. */
  function UpdatedColumns(body: Value): (data: Record)
    ensures "id" !in data
  {
    var cols := MealColumns(body, CategoryOf(body), PriceOf(body));
    if Get(body, "sizes") != Undefined then cols["sizes" := Arr(PrepareSizes(Get(body, "sizes")))] else cols
  }

  /** The sizes of an updated meal: replaced by the prepared ones exactly when the body
      has `sizes`, and otherwise those stored before; the order is never touched. */
  lemma UpdatedMealSizes(row: Value, body: Value)
    ensures Get(body, "sizes") != Undefined ==> Get(UpdatedMeal(row, body), "sizes") == Arr(PrepareSizes(Get(body, "sizes")))
    ensures Get(body, "sizes") == Undefined ==> Get(UpdatedMeal(row, body), "sizes") == Get(row, "sizes")
    ensures Get(UpdatedMeal(row, body), "order") == Get(row, "order")
    ensures Get(UpdatedMeal(row, body), "id") == Get(row, "id")
  {
  }

  /** `POST`: after the checks, a body with an id updates that meal (a 500 when there is
      none) and a body without one creates a meal; the saved row is sent back. */
  method SaveMeal(db: Database, body: Option<Value>, errorText: string) returns (reply: Reply)
    requires db.Valid()
    modifies db`meals, db`nextMealId
    ensures db.Valid()
    ensures body.None? || Refusal(body.value, errorText).Some? || !db.online ==>
      db.meals == old(db.meals) && db.nextMealId == old(db.nextMealId)
    ensures body.None? ==> reply == SaveFailure(errorText)
    ensures body.Some? && Refusal(body.value, errorText).Some? ==> reply == Refusal(body.value, errorText).value
    ensures body.Some? && Refusal(body.value, errorText).None? && !db.online ==> reply == SaveFailure(errorText)
    ensures body.Some? && Refusal(body.value, errorText).None? && db.online && !Truthy(Get(body.value, "id")) ==>
      var row := Created(NewMeal(body.value), old(db.nextMealId));
      reply == Ok(row) && db.meals == old(db.meals) + [row] && db.nextMealId == old(db.nextMealId) + 1
    ensures body.Some? && Refusal(body.value, errorText).None? && db.online && Truthy(Get(body.value, "id")) ==>
      db.nextMealId == old(db.nextMealId) &&
      var at := Find(old(db.meals), ParseInt(Get(body.value, "id")));
      && (at.None? ==> reply == SaveFailure(errorText) && db.meals == old(db.meals))
      && (at.Some? ==> var row := UpdatedMeal(old(db.meals)[at.value], body.value);
            reply == Ok(row) && db.meals == old(db.meals)[at.value := row])
  {
    if body.None? {
      return SaveFailure(errorText);
    }
    var refused := Refusal(body.value, errorText);
    if refused.Some? {
      return refused.value;
    }
    if !db.online {
      return SaveFailure(errorText);
    }
    if Truthy(Get(body.value, "id")) {
      reply := UpdateMeal(db, body.value, errorText);
    } else {
      reply := CreateMeal(db, body.value);
    }
  }

  /** `meal.create` with the new meal's columns and sizes. */
  method CreateMeal(db: Database, body: Value) returns (reply: Reply)
    requires db.Valid()
    modifies db`meals, db`nextMealId
    ensures db.Valid()
    ensures var row := Created(NewMeal(body), old(db.nextMealId));
      reply == Ok(row) && db.meals == old(db.meals) + [row] && db.nextMealId == old(db.nextMealId) + 1
  {
    var data := NewMeal(body);
    CreatedKeyed(db.meals, data, db.nextMealId);
    var row := Created(data, db.nextMealId);
    db.meals := db.meals + [row];
    db.nextMealId := db.nextMealId + 1;
    reply := Ok(row);
  }

  /** The update branch: when the body has `sizes`, the meal's sizes are deleted first;
      then the meal is updated (a 500 when it does not exist) and sizes the body lists
      are created for it. */
  method UpdateMeal(db: Database, body: Value, errorText: string) returns (reply: Reply)
    requires db.Valid()
    modifies db`meals
    ensures db.Valid()
    ensures var at := Find(old(db.meals), ParseInt(Get(body, "id")));
      && (at.None? ==> reply == SaveFailure(errorText) && db.meals == old(db.meals))
      && (at.Some? ==> var row := UpdatedMeal(old(db.meals)[at.value], body);
            reply == Ok(row) && db.meals == old(db.meals)[at.value := row])
  {
    var rows := db.meals;
    var at := Find(rows, ParseInt(Get(body, "id")));
    if at.None? {
      return SaveFailure(errorText);
    }
    var i := at.value;
    var current := rows[i];
    if Get(body, "sizes") != Undefined {
      // mealSize.deleteMany({ where: { mealId: id } })
      current := Cleared(current);
      db.meals := rows[i := current];
    }
    var row := Patched(current, UpdateData(body, current));
    UpdateSteps(rows[i], body);
    UpdatedMealSizes(rows[i], body);
    ReplacedKeyed(rows, db.nextMealId, i, row);
    db.meals := rows[i := row];
    reply := Ok(row);
  }

  /** The meal with its sizes deleted. */
  function Cleared(row: Value): Value {
    Patched(row, map["sizes" := Arr([])])
  }

  /** The `data` of `meal.update`: the columns, and the prepared sizes created beside
      the stored ones when the body lists some. */
  function UpdateData(body: Value, current: Value): Record {
    var cols := MealColumns(body, CategoryOf(body), PriceOf(body));
    var sizes := Get(body, "sizes");
    if Truthy(sizes) && LengthPositive(sizes) then cols["sizes" := Arr(Items(Get(current, "sizes")) + PrepareSizes(sizes))]
    else cols
  }

  /** Clearing the sizes and then writing the columns with new sizes sets those sizes. */
  lemma ClearThenPatch(row: Value, cols: Record, sizes: seq<Value>)
    requires "sizes" !in cols
    ensures Patched(Cleared(row), cols["sizes" := Arr(sizes)]) == Patched(row, cols["sizes" := Arr(sizes)])
  {
    var l := Props(Cleared(row)) + cols["sizes" := Arr(sizes)];
    var r := Props(row) + cols["sizes" := Arr(sizes)];
    assert l.Keys == r.Keys;
    assert forall k | k in l :: l[k] == r[k];
  }

  /** Clearing the sizes and then writing the columns leaves the sizes empty. */
  lemma ClearThenKeep(row: Value, cols: Record)
    requires "sizes" !in cols
    ensures Patched(Cleared(row), cols) == Patched(row, cols["sizes" := Arr([])])
  {
    var l := Props(Cleared(row)) + cols;
    var r := Props(row) + cols["sizes" := Arr([])];
    assert l.Keys == r.Keys;
    assert forall k | k in l :: l[k] == r[k];
  }

  /** Deleting the sizes when the body has `sizes` and then updating writes the same row
      as `UpdatedMeal`. */
  lemma UpdateSteps(row: Value, body: Value)
    ensures Get(body, "sizes") != Undefined ==> Patched(Cleared(row), UpdateData(body, Cleared(row))) == UpdatedMeal(row, body)
    ensures Get(body, "sizes") == Undefined ==> Patched(row, UpdateData(body, row)) == UpdatedMeal(row, body)
  {
    var sizes := Get(body, "sizes");
    var cols := MealColumns(body, CategoryOf(body), PriceOf(body));
    if Truthy(sizes) && LengthPositive(sizes) {
      assert Items(Get(Cleared(row), "sizes")) + PrepareSizes(sizes) == PrepareSizes(sizes);
      ClearThenPatch(row, cols, PrepareSizes(sizes));
    } else if sizes != Undefined {
      assert PrepareSizes(sizes) == [];
      ClearThenKeep(row, cols);
    }
  }

  // ---------------------------------------------------------------- DELETE

  /** `DELETE ?id=`: a missing or empty id, or one that is not an integer, answers 400;
      a meal that does not exist, or a failing query, answers 500; otherwise the meal
      is gone and every other one kept. */
  method DeleteMeal(db: Database, id: Option<string>) returns (reply: Reply)
    requires db.Valid()
    modifies db`meals
    ensures db.Valid()
    ensures !Truthy(Param(id)) ==> reply == Failure(400, IdRequired) && db.meals == old(db.meals)
    ensures Truthy(Param(id)) && ParseIntStr(id.value).NaN? ==> reply == Failure(400, InvalidId) && db.meals == old(db.meals)
    ensures Truthy(Param(id)) && ParseIntStr(id.value).Num? ==>
      var at := Find(old(db.meals), ParseIntStr(id.value));
      && (!db.online || at.None? ==> reply == Failure(500, DeleteFailed) && db.meals == old(db.meals))
      && (db.online && at.Some? ==>
            reply == Ok(Success) && db.meals == Removed(old(db.meals), at.value)
            && Find(db.meals, ParseIntStr(id.value)).None?)
  {
    if !Truthy(Param(id)) {
      return Failure(400, IdRequired);
    }
    var numericId := ParseIntStr(id.value);
    if numericId.NaN? {
      return Failure(400, InvalidId);
    }
    if !db.online {
      return Failure(500, DeleteFailed);
    }
    var at := Find(db.meals, numericId);
    if at.None? {
      return Failure(500, DeleteFailed);
    }
    RemovedKeyed(db.meals, db.nextMealId, at.value);
    db.meals := Removed(db.meals, at.value);
    reply := Ok(Success);
  }
}
