// The database behind the route handlers of app/api/, standing in for the Prisma
// client: one table of records per model, each row numbered by an autoincrement `id`,
// and the JSON replies the handlers send back.
module Db {
  import opened Js
  import opened Lists

  /** A handler's answer: the HTTP status and the JSON body. */
  datatype Reply = Reply(status: nat, body: Value)

  /** `NextResponse.json(body)`. */
  function Ok(body: Value): (r: Reply)
    ensures r.status == 200 && r.body == body
  {
    Reply(200, body)
  }

  /** `NextResponse.json({ error: message }, { status })`. */
  function Failure(status: nat, message: string): (r: Reply)
    ensures r.status == status && Get(r.body, "error") == Str(message)
  {
    Reply(status, Obj(map["error" := Str(message)]))
  }

  /** `{ success: true }`. */
  const Success: Value := Obj(map["success" := Bool(true)])

  /** `searchParams.get(name)`: the parameter's text, or `null` when it is absent. */
  function Param(p: Option<string>): (r: Value)
    ensures Truthy(r) <==> p.Some? && p.value != ""
  {
    if p.Some? then Str(p.value) else Null
  }

  /** The value an autoincrement `id` column holds. */
  function IdValue(k: nat): Value {
    Num(k as real)
  }

  /** `where: { active: true }`. */
  predicate Active(row: Value) {
    Get(row, "active") == Bool(true)
  }

  // ---------------------------------------------------------------- rows

  /** The rows' ids are distinct numbers below `next`, the id the table hands out next. */
  ghost predicate Keyed(rows: seq<Value>, next: nat) {
    && (forall i :: 0 <= i < |rows| ==> Get(rows[i], "id").Num? && Get(rows[i], "id").n < next as real)
    && (forall i, j :: 0 <= i < j < |rows| ==> Get(rows[i], "id") != Get(rows[j], "id"))
  }

  /** `findUnique({ where: { id } })`: the position of the first row with that id. */
  function Find(rows: seq<Value>, id: Value): (r: Option<nat>)
    ensures r.Some? ==> r.value < |rows| && Get(rows[r.value], "id") == id
    ensures r.None? <==> forall i :: 0 <= i < |rows| ==> Get(rows[i], "id") != id
  {
    if rows == [] then None
    else if Get(rows[0], "id") == id then Some(0)
    else match Find(rows[1..], id)
      case None =>
        assert forall i :: 1 <= i < |rows| ==> rows[i] == rows[1..][i - 1];
        None
      case Some(k) => Some(k + 1)
  }

  /** In a keyed table an id names exactly one row. */
  lemma FindKeyed(rows: seq<Value>, next: nat, i: nat)
    requires Keyed(rows, next) && i < |rows|
    ensures Find(rows, Get(rows[i], "id")) == Some(i)
  {
    var r := Find(rows, Get(rows[i], "id"));
    assert r.Some?;
  }

  /** `update({ where: { id }, data })` on the stored row: the columns in `data` take
      their new values and every other column keeps its own. */
  function Patched(row: Value, data: Record): (r: Value)
    ensures r.Obj?
    ensures forall k :: Get(r, k) == (if k in data then data[k] else Get(row, k))
  {
    Obj(Props(row) + data)
  }

  /** `create({ data })`: the stored row, numbered with the table's next id. */
  function Created(data: Record, next: nat): (r: Value)
    ensures Get(r, "id") == IdValue(next)
    ensures forall k :: k != "id" ==> Get(r, k) == (if k in data then data[k] else Undefined)
  {
    Obj(data["id" := IdValue(next)])
  }

  /** `delete({ where: { id } })` on the row at `i`. */
  function Removed(rows: seq<Value>, i: nat): (r: seq<Value>)
    requires i < |rows|
    ensures |r| == |rows| - 1
    ensures forall j :: 0 <= j < i ==> r[j] == rows[j]
    ensures forall j :: i <= j < |r| ==> r[j] == rows[j + 1]
  {
    rows[..i] + rows[i + 1..]
  }

  /** A created row takes a fresh id: the table stays keyed and the new id finds the new row. */
  lemma CreatedKeyed(rows: seq<Value>, data: Record, next: nat)
    requires Keyed(rows, next)
    ensures Keyed(rows + [Created(data, next)], next + 1)
    ensures Find(rows + [Created(data, next)], IdValue(next)) == Some(|rows|)
  {
    var t := rows + [Created(data, next)];
    assert forall i :: 0 <= i < |rows| ==> t[i] == rows[i];
    FindKeyed(t, next + 1, |rows|);
  }

  /** An update that writes no `id` keeps the table keyed. */
  lemma PatchedKeyed(rows: seq<Value>, next: nat, i: nat, data: Record)
    requires Keyed(rows, next) && i < |rows| && "id" !in data
    ensures Keyed(rows[i := Patched(rows[i], data)], next)
  {
    var t := rows[i := Patched(rows[i], data)];
    assert forall j :: 0 <= j < |t| ==> Get(t[j], "id") == Get(rows[j], "id");
  }

  /** A row replaced by one with the same id keeps the table keyed. */
  lemma ReplacedKeyed(rows: seq<Value>, next: nat, i: nat, row: Value)
    requires Keyed(rows, next) && i < |rows| && Get(row, "id") == Get(rows[i], "id")
    ensures Keyed(rows[i := row], next)
  {
    var t := rows[i := row];
    assert forall j :: 0 <= j < |t| ==> Get(t[j], "id") == Get(rows[j], "id");
  }

  /** Deleting a row keeps the table keyed, leaves no row with that id, and keeps every other row. */
  lemma RemovedKeyed(rows: seq<Value>, next: nat, i: nat)
    requires Keyed(rows, next) && i < |rows|
    ensures Keyed(Removed(rows, i), next)
    ensures Find(Removed(rows, i), Get(rows[i], "id")).None?
    ensures forall x :: x in Removed(rows, i) <==> x in rows && x != rows[i]
  {
    var t := Removed(rows, i);
    forall x ensures x in t <==> x in rows && x != rows[i] {
      if x in t {
        var j :| 0 <= j < |t| && t[j] == x;
        if j < i { assert rows[j] == x && Get(rows[j], "id") != Get(rows[i], "id"); }
        else { assert rows[j + 1] == x && Get(rows[i], "id") != Get(rows[j + 1], "id"); }
      }
      if x in rows && x != rows[i] {
        var j :| 0 <= j < |rows| && rows[j] == x;
        if j < i { assert t[j] == x; } else { assert j > i && t[j - 1] == x; }
      }
    }
  }

  /** A row whose id is fresh for a keyed table can be put in front of it. */
  lemma ConsKeyed(x: Value, rows: seq<Value>, next: nat)
    requires Keyed(rows, next)
    requires Get(x, "id").Num? && Get(x, "id").n < next as real
    requires forall y :: y in rows ==> Get(y, "id") != Get(x, "id")
    ensures Keyed([x] + rows, next)
  {
    var t := [x] + rows;
    forall i, j | 0 <= i < j < |t| ensures Get(t[i], "id") != Get(t[j], "id") {
      assert t[j] == rows[j - 1];
      if i > 0 { assert t[i] == rows[i - 1]; } else { assert t[j] in rows; }
    }
  }

  /** A keyed table stays keyed when rows are filtered out (`deleteMany`). */
  lemma {:induction false} FilterKeyed(rows: seq<Value>, next: nat, keep: Value -> bool)
    requires Keyed(rows, next)
    ensures Keyed(Filter(rows, keep), next)
  {
    if rows != [] {
      var tail := rows[1..];
      assert Keyed(tail, next);
      FilterKeyed(tail, next, keep);
      if keep(rows[0]) {
        forall y | y in Filter(tail, keep) ensures Get(y, "id") != Get(rows[0], "id") {
          FilterMembers(tail, keep, y);
          var j :| 0 <= j < |tail| && tail[j] == y;
          assert rows[j + 1] == y;
        }
        ConsKeyed(rows[0], Filter(tail, keep), next);
      }
    }
  }

  // ---------------------------------------------------------------- the database

  /** The tables the handlers read and write. The settings table is the single row
      `id: 1` that every settings save upserts. */
  class Database {
    var categories: seq<Value>
    var meals: seq<Value>
    var orders: seq<Value>
    var settings: Option<Value>
    var nextCategoryId: nat
    var nextMealId: nat
    var nextOrderId: nat
    /** Whether the database answers; when it does not, every query throws. */
    var online: bool

    ghost predicate Valid()
      reads this
    {
      Keyed(categories, nextCategoryId) && Keyed(meals, nextMealId) && Keyed(orders, nextOrderId)
    }

    /** An empty database whose tables number their rows from 1. */
    constructor (online: bool)
      ensures Valid() && this.online == online
      ensures categories == [] && meals == [] && orders == [] && settings == None
      ensures nextCategoryId == 1 && nextMealId == 1 && nextOrderId == 1
    {
      categories, meals, orders, settings := [], [], [], None;
      nextCategoryId, nextMealId, nextOrderId := 1, 1, 1;
      this.online := online;
    }
  }
}
