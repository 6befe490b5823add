// The category endpoints (app/api/categories/route.js): the listing, active only or
// all; saving a category, as an update or a create that refuses a duplicate name; and
// deletion together with the category's meals, in one transaction.
module CategoriesRoute {
  import opened Js
  import opened Lists
  import opened Db

  const FetchFailed: string := "Failed to fetch categories"
  const NameRequired: string := "اسم القسم مطلوب"
  const IconRequired: string := "أيقونة القسم مطلوبة"
  const InvalidId: string := "Invalid ID"
  const DuplicateName: string := "يوجد قسم بهذا الاسم بالفعل"
  const SaveFailed: string := "فشل في حفظ القسم"
  const IdRequired: string := "ID required"
  const DeleteFailed: string := "Failed to delete"

  // ---------------------------------------------------------------- GET

  /** The categories listed: every one with `all=true`, otherwise the active ones; by `order`. */
  function Listed(rows: seq<Value>, includeAll: bool): seq<Value> {
    Sort(ByOrder, if includeAll then rows else Filter(rows, Active))
  }

  /** `GET ?all=`: the listing as a flat array; a failing query answers 500. */
  function GetCategories(db: Database, all: Option<string>): (r: Reply)
    reads db
    ensures r.status == 200 <==> db.online
    ensures db.online ==> r.body.Arr?
    ensures !db.online ==> r == Failure(500, FetchFailed)
  {
    if !db.online then Failure(500, FetchFailed) else Ok(Arr(Listed(db.categories, all == Some("true"))))
  }

  /** A category is listed exactly when it is stored and, unless `all=true` was asked
      for, active; the listing is in `order`. */
  lemma ListedCategories(rows: seq<Value>, includeAll: bool)
    ensures forall c :: c in Listed(rows, includeAll) <==> c in rows && (includeAll || Active(c))
    ensures Sorted(ByOrder, Listed(rows, includeAll))
    ensures includeAll ==> |Listed(rows, includeAll)| == |rows|
  {
    var kept := if includeAll then rows else Filter(rows, Active);
    SortCorrect(ByOrder, kept);
    forall c ensures c in Listed(rows, includeAll) <==> c in rows && (includeAll || Active(c)) {
      FilterMembers(rows, Active, c);
      assert c in Listed(rows, includeAll) <==> c in multiset(kept);
    }
  }

  // ---------------------------------------------------------------- POST

  /** A required text field: 400 when missing or blank, and 500 when it is not a
      string, since `trim` throws; `None` when it is a non-blank string. */
  function TextRefusal(v: Value, message: string): (r: Option<Reply>)
    ensures r.None? <==> v.Str? && Trim(v.s) != ""
    ensures r.Some? && v.Str? ==> r.value == Failure(400, message)
  {
    if !Truthy(v) then Some(Failure(400, message))
    else if !v.Str? then Some(Failure(500, SaveFailed))
    else if Trim(v.s) == "" then Some(Failure(400, message))
    else None
  }

  /** The answer given before the categories are touched: a `null` body throws on
      its first property read and answers 500; otherwise the name is checked first,
      then the icon, then the update id. */
  function Refusal(body: Value): (r: Option<Reply>)
    ensures r.None? <==>
      && Get(body, "name").Str? && Trim(Get(body, "name").s) != ""
      && Get(body, "icon").Str? && Trim(Get(body, "icon").s) != ""
      && (Truthy(Get(body, "id")) ==> ParseInt(Get(body, "id")).Num?)
    ensures body.Null? ==> r == Some(Failure(500, SaveFailed))
    ensures !body.Null? && TextRefusal(Get(body, "name"), NameRequired).Some? ==>
      r == TextRefusal(Get(body, "name"), NameRequired)
  {
    var name := TextRefusal(Get(body, "name"), NameRequired);
    if body.Null? then Some(Failure(500, SaveFailed))
    else if name.Some? then name
    else
      var icon := TextRefusal(Get(body, "icon"), IconRequired);
      if icon.Some? then icon
      else if Truthy(Get(body, "id")) && ParseInt(Get(body, "id")).NaN? then Some(Failure(400, InvalidId))
      else None
  }

  /** `body.active !== undefined ? body.active : true`. */
  function ActiveFlag(body: Value): (r: Value)
    ensures Get(body, "active") == Undefined ==> r == Bool(true)
    ensures Get(body, "active") != Undefined ==> r == Get(body, "active")
  {
    if Get(body, "active") != Undefined then Get(body, "active") else Bool(true)
  }

  /** The `data` of `category.update`: name, icon and the active flag; the order is kept. */
  function CategoryUpdate(body: Value): (data: Record)
    ensures data.Keys == {"name", "icon", "active"}
  {
    map["name" := Get(body, "name"), "icon" := Get(body, "icon"), "active" := ActiveFlag(body)]
  }

  /** The `data` of `category.create`: name, icon, `parseInt(order) || 0` and the active flag. */
  function NewCategory(body: Value): (data: Record)
    ensures "id" !in data
  {
    map["name" := Get(body, "name"), "icon" := Get(body, "icon"),
        "order" := Or(ParseInt(Get(body, "order")), Num(0.0)), "active" := ActiveFlag(body)]
  }

  /** A new category is stored under the name and icon sent, active unless told
      otherwise, and ordered by the integer `order` sent, or first (0) without one. */
  lemma NewCategoryColumns(body: Value)
    ensures NewCategory(body)["name"] == Get(body, "name") && NewCategory(body)["icon"] == Get(body, "icon")
    ensures NewCategory(body)["active"] == ActiveFlag(body)
    ensures NewCategory(body)["order"].Num?
  {
  }

  /** Whether a stored category has that name (`findFirst({ where: { name } })`). */
  predicate NameTaken(rows: seq<Value>, name: Value) {
    exists c :: c in rows && Get(c, "name") == name
  }

  /** No two categories share a name. */
  ghost predicate DistinctNames(rows: seq<Value>) {
    forall i, j :: 0 <= i < j < |rows| ==> Get(rows[i], "name") != Get(rows[j], "name")
  }

  /** `POST`: after the checks, a body with an id updates that category (a 500 when
      there is none) and a body without one creates a category, unless one with that
      name exists; the saved row is sent back. */
  method SaveCategory(db: Database, body: Option<Value>) returns (reply: Reply)
    requires db.Valid()
    modifies db`categories, db`nextCategoryId
    ensures db.Valid()
    ensures body.None? || Refusal(body.value).Some? || !db.online ==>
      db.categories == old(db.categories) && db.nextCategoryId == old(db.nextCategoryId)
    ensures body.None? ==> reply == Failure(500, SaveFailed)
    ensures body.Some? && Refusal(body.value).Some? ==> reply == Refusal(body.value).value
    ensures body.Some? && Refusal(body.value).None? && !db.online ==> reply == Failure(500, SaveFailed)
    ensures body.Some? && Refusal(body.value).None? && db.online && !Truthy(Get(body.value, "id")) ==>
      if NameTaken(old(db.categories), Get(body.value, "name")) then
        reply == Failure(400, DuplicateName) && db.categories == old(db.categories) && db.nextCategoryId == old(db.nextCategoryId)
      else
        var row := Created(NewCategory(body.value), old(db.nextCategoryId));
        reply == Ok(row) && db.categories == old(db.categories) + [row] && db.nextCategoryId == old(db.nextCategoryId) + 1
    ensures body.Some? && Refusal(body.value).None? && db.online && Truthy(Get(body.value, "id")) ==>
      db.nextCategoryId == old(db.nextCategoryId) &&
      var at := Find(old(db.categories), ParseInt(Get(body.value, "id")));
      && (at.None? ==> reply == Failure(500, SaveFailed) && db.categories == old(db.categories))
      && (at.Some? ==> var row := Patched(old(db.categories)[at.value], CategoryUpdate(body.value));
            reply == Ok(row) && db.categories == old(db.categories)[at.value := row])
  {
    if body.None? {
      return Failure(500, SaveFailed);
    }
    var refused := Refusal(body.value);
    if refused.Some? {
      return refused.value;
    }
    if !db.online {
      return Failure(500, SaveFailed);
    }
    if Truthy(Get(body.value, "id")) {
      reply := UpdateCategory(db, body.value);
    } else {
      reply := CreateCategory(db, body.value);
    }
  }

  /** The update branch: no duplicate check, a 500 when the category does not exist. */
  method UpdateCategory(db: Database, body: Value) returns (reply: Reply)
    requires db.Valid()
    modifies db`categories
    ensures db.Valid()
    ensures var at := Find(old(db.categories), ParseInt(Get(body, "id")));
      && (at.None? ==> reply == Failure(500, SaveFailed) && db.categories == old(db.categories))
      && (at.Some? ==> var row := Patched(old(db.categories)[at.value], CategoryUpdate(body));
            reply == Ok(row) && db.categories == old(db.categories)[at.value := row])
  {
    var rows := db.categories;
    var at := Find(rows, ParseInt(Get(body, "id")));
    if at.None? {
      return Failure(500, SaveFailed);
    }
    var row := Patched(rows[at.value], CategoryUpdate(body));
    PatchedKeyed(rows, db.nextCategoryId, at.value, CategoryUpdate(body));
    db.categories := rows[at.value := row];
    reply := Ok(row);
  }

  /** The create branch: a name already taken answers 400; otherwise the category is
      stored under the next id, and names stay distinct when they were. */
  method CreateCategory(db: Database, body: Value) returns (reply: Reply)
    requires db.Valid()
    modifies db`categories, db`nextCategoryId
    ensures db.Valid()
    ensures NameTaken(old(db.categories), Get(body, "name")) ==>
      reply == Failure(400, DuplicateName) && db.categories == old(db.categories) && db.nextCategoryId == old(db.nextCategoryId)
    ensures !NameTaken(old(db.categories), Get(body, "name")) ==>
      var row := Created(NewCategory(body), old(db.nextCategoryId));
      reply == Ok(row) && db.categories == old(db.categories) + [row] && db.nextCategoryId == old(db.nextCategoryId) + 1
    ensures DistinctNames(old(db.categories)) ==> DistinctNames(db.categories)
  {
    var rows := db.categories;
    if NameTaken(rows, Get(body, "name")) {
      return Failure(400, DuplicateName);
    }
    var row := Created(NewCategory(body), db.nextCategoryId);
    CreatedKeyed(rows, NewCategory(body), db.nextCategoryId);
    CreatedDistinct(rows, body, db.nextCategoryId);
    db.categories := rows + [row];
    db.nextCategoryId := db.nextCategoryId + 1;
    reply := Ok(row);
  }

  /** A category created under a name no stored category has keeps the names distinct. */
  lemma CreatedDistinct(rows: seq<Value>, body: Value, next: nat)
    requires !NameTaken(rows, Get(body, "name"))
    ensures DistinctNames(rows) ==> DistinctNames(rows + [Created(NewCategory(body), next)])
  {
    var row := Created(NewCategory(body), next);
    assert Get(row, "name") == Get(body, "name");
    var t := rows + [row];
    if DistinctNames(rows) {
      forall i, j | 0 <= i < j < |t| ensures Get(t[i], "name") != Get(t[j], "name") {
        if j == |rows| {
          assert t[i] in rows;
        } else {
          assert t[i] == rows[i] && t[j] == rows[j];
        }
      }
    }
  }

  /** The update branch has no duplicate check: renaming a category to the name of
      another leaves two categories with one name. */
  lemma UpdateCanDuplicateName()
    ensures var rows := [Obj(map["id" := Num(1.0), "name" := Str("a")]), Obj(map["id" := Num(2.0), "name" := Str("b")])];
      DistinctNames(rows) && !DistinctNames(rows[1 := Patched(rows[1], CategoryUpdate(Obj(map["name" := Str("a")])))])
  {
    var rows := [Obj(map["id" := Num(1.0), "name" := Str("a")]), Obj(map["id" := Num(2.0), "name" := Str("b")])];
    var updated := rows[1 := Patched(rows[1], CategoryUpdate(Obj(map["name" := Str("a")])))];
    assert Get(updated[1], "name") == Str("a") == Get(updated[0], "name");
  }

  // ---------------------------------------------------------------- DELETE

  /** The meals `deleteMany({ where: { categoryId } })` leaves. */
  function OutsideCategory(categoryId: Value): Value -> bool {
    m => Get(m, "categoryId") != categoryId
  }

  /** The checks on the `id` parameter: a missing or empty one answers 400, and so does
      one that is not an integer. */
  function IdRefusal(id: Option<string>): (r: Option<Reply>)
    ensures !Truthy(Param(id)) ==> r == Some(Failure(400, IdRequired))
    ensures Truthy(Param(id)) && ParseIntStr(id.value).NaN? ==> r == Some(Failure(400, InvalidId))
    ensures r.None? <==> Truthy(Param(id)) && ParseIntStr(id.value).Num?
  {
    if !Truthy(Param(id)) then Some(Failure(400, IdRequired))
    else if ParseIntStr(id.value).NaN? then Some(Failure(400, InvalidId))
    else None
  }

  /** What `DELETE ?id=` answers, and the categories and meals it leaves. */
  function Deletion(categories: seq<Value>, meals: seq<Value>, online: bool, id: Option<string>): (r: (Reply, seq<Value>, seq<Value>))
  {
    var refusal := IdRefusal(id);
    if refusal.Some? then (refusal.value, categories, meals)
    else if !online then (Failure(500, DeleteFailed), categories, meals)
    else
      var n := ParseIntStr(id.value);
      var at := Find(categories, n);
      if at.None? then (Failure(500, DeleteFailed), categories, meals)
      else (Ok(Success), Removed(categories, at.value), Filter(meals, OutsideCategory(n)))
  }

  /** A refused id, a failing database or an id no category has answers with an error
      and leaves both tables as they were. */
  lemma DeletionFails(categories: seq<Value>, meals: seq<Value>, online: bool, id: Option<string>)
    ensures IdRefusal(id).Some? ==> Deletion(categories, meals, online, id) == (IdRefusal(id).value, categories, meals)
    ensures IdRefusal(id).None? && (!online || Find(categories, ParseIntStr(id.value)).None?) ==>
      Deletion(categories, meals, online, id) == (Failure(500, DeleteFailed), categories, meals)
  {
  }

  /** A deletion that goes through answers `{ success: true }`, leaves no category with
      that id and no meal in that category, and keeps every other category and meal. */
  lemma DeletionDeletes(categories: seq<Value>, meals: seq<Value>, next: nat, online: bool, id: Option<string>)
    requires Keyed(categories, next)
    requires IdRefusal(id).None? && online && Find(categories, ParseIntStr(id.value)).Some?
    ensures var n := ParseIntStr(id.value);
      var r := Deletion(categories, meals, online, id);
      && r.0 == Ok(Success)
      && Find(r.1, n).None?
      && (forall c :: c in r.1 <==> c in categories && Get(c, "id") != n)
      && (forall m :: m in r.2 <==> m in meals && Get(m, "categoryId") != n)
  {
    var n := ParseIntStr(id.value);
    var i := Find(categories, n).value;
    RemovedKeyed(categories, next, i);
    DeletedCategoryMeals(meals, n);
    forall c ensures c in categories && c != categories[i] <==> c in categories && Get(c, "id") != n {
      if c in categories && Get(c, "id") == n {
        var j :| 0 <= j < |categories| && categories[j] == c;
        FindKeyed(categories, next, j);
      }
    }
  }

  /** `DELETE ?id=`: a refused id answers as `IdRefusal` says; a failing database answers
      500; otherwise the transaction runs. */
  method DeleteCategory(db: Database, id: Option<string>) returns (reply: Reply)
    requires db.Valid()
    modifies db`categories, db`meals
    ensures db.Valid()
    ensures (reply, db.categories, db.meals) == Deletion(old(db.categories), old(db.meals), db.online, id)
  {
    var refusal := IdRefusal(id);
    if refusal.Some? {
      reply := refusal.value;
    } else if !db.online {
      reply := Failure(500, DeleteFailed);
    } else {
      reply := DeleteTransaction(db, ParseIntStr(id.value));
    }
  }

  /** The transaction: the category's meals are deleted and then the category; when the
      category does not exist the deletion throws and the transaction rolls back, the
      meals with it. */
  method DeleteTransaction(db: Database, n: Value) returns (reply: Reply)
    requires db.Valid()
    modifies db`categories, db`meals
    ensures db.Valid()
    ensures var at := Find(old(db.categories), n);
      && (at.None? ==> reply == Failure(500, DeleteFailed) && db.categories == old(db.categories) && db.meals == old(db.meals))
      && (at.Some? ==> reply == Ok(Success) && db.categories == Removed(old(db.categories), at.value)
                       && db.meals == Filter(old(db.meals), OutsideCategory(n)))
  {
    var meals := db.meals;
    DeleteMealsOf(db, n);
    var at := Find(db.categories, n);
    if at.None? {
      // category.delete throws: the transaction is rolled back
      RestoreMeals(db, meals);
      reply := Failure(500, DeleteFailed);
    } else {
      RemoveCategory(db, at.value);
      reply := Ok(Success);
    }
  }

  /** The rollback: the meals table goes back to the rows it held. */
  method RestoreMeals(db: Database, meals: seq<Value>)
    requires Keyed(db.categories, db.nextCategoryId) && Keyed(meals, db.nextMealId) && Keyed(db.orders, db.nextOrderId)
    modifies db`meals
    ensures db.Valid() && db.meals == meals
  {
    db.meals := meals;
  }

  /** `category.delete` of the row at `i`. */
  method RemoveCategory(db: Database, i: nat)
    requires db.Valid() && i < |db.categories|
    modifies db`categories
    ensures db.Valid() && db.categories == Removed(old(db.categories), i)
  {
    RemovedKeyed(db.categories, db.nextCategoryId, i);
    db.categories := Removed(db.categories, i);
  }

  /** `meal.deleteMany({ where: { categoryId } })`. */
  method DeleteMealsOf(db: Database, n: Value)
    requires db.Valid()
    modifies db`meals
    ensures db.Valid()
    ensures db.meals == Filter(old(db.meals), OutsideCategory(n))
  {
    FilterKeyed(db.meals, db.nextMealId, OutsideCategory(n));
    db.meals := Filter(db.meals, OutsideCategory(n));
  }

  /** After a category is deleted no meal is left in it, and every meal of another
      category is kept. */
  lemma DeletedCategoryMeals(meals: seq<Value>, n: Value)
    ensures forall m :: m in Filter(meals, OutsideCategory(n)) <==> m in meals && Get(m, "categoryId") != n
  {
    forall m ensures m in Filter(meals, OutsideCategory(n)) <==> m in meals && Get(m, "categoryId") != n {
      FilterMembers(meals, OutsideCategory(n), m);
    }
  }
}
