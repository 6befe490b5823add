// Array.prototype.filter and Array.prototype.sort (stable, since ES2019) as the
// pages use them, and the `orderBy` clauses of the database queries.
module Lists {
  import opened Js

  /** `s.filter(keep)`. */
  function Filter(s: seq<Value>, keep: Value -> bool): (r: seq<Value>)
    ensures |r| <= |s|
  {
    if s == [] then [] else (if keep(s[0]) then [s[0]] else []) + Filter(s[1..], keep)
  }

  /** An element is kept exactly when it was in the list and passes the test. */
  lemma {:induction false} FilterMembers(s: seq<Value>, keep: Value -> bool, x: Value)
    ensures x in Filter(s, keep) <==> x in s && keep(x)
  {
    if s != [] {
      FilterMembers(s[1..], keep, x);
      assert s == [s[0]] + s[1..];
    }
  }

  /** Every kept element passes the test. */
  lemma {:induction false} FilterAll(s: seq<Value>, keep: Value -> bool)
    ensures forall x :: x in Filter(s, keep) ==> keep(x)
  {
    forall x | x in Filter(s, keep) ensures keep(x) { FilterMembers(s, keep, x); }
  }

  /** Filtering distributes over concatenation, so the kept elements keep their order. */
  lemma {:induction false} FilterAppend(a: seq<Value>, b: seq<Value>, keep: Value -> bool)
    ensures Filter(a + b, keep) == Filter(a, keep) + Filter(b, keep)
  {
    if a != [] {
      assert (a + b)[1..] == a[1..] + b;
      FilterAppend(a[1..], b, keep);
    } else {
      assert a + b == b;
    }
  }

  /** A test that every element passes keeps the whole list. */
  lemma {:induction false} FilterKeepsAll(s: seq<Value>, keep: Value -> bool)
    requires forall x :: x in s ==> keep(x)
    ensures Filter(s, keep) == s
  {
    if s != [] { FilterKeepsAll(s[1..], keep); }
  }

  /** Nothing is dropped exactly when every element passes the test. */
  lemma {:induction false} FilterLength(s: seq<Value>, keep: Value -> bool)
    ensures |Filter(s, keep)| == |s| <==> forall i :: 0 <= i < |s| ==> keep(s[i])
    ensures |Filter(s, keep)| == 0 <==> forall i :: 0 <= i < |s| ==> !keep(s[i])
  {
    if s != [] {
      FilterLength(s[1..], keep);
      assert forall i :: 1 <= i < |s| ==> s[i] == s[1..][i - 1];
      assert |Filter(s[1..], keep)| <= |s| - 1;
    }
  }

  /** Every element passes a test or fails it: the two filters share out the list. */
  lemma {:induction false} FilterPartition(s: seq<Value>, keep: Value -> bool, drop: Value -> bool)
    requires forall x :: drop(x) == !keep(x)
    ensures |Filter(s, keep)| + |Filter(s, drop)| == |s|
  {
    if s != [] { FilterPartition(s[1..], keep, drop); }
  }

  /** `s.map(f)`. */
  function Map(s: seq<Value>, f: Value -> Value): (r: seq<Value>)
    ensures |r| == |s| && forall i :: 0 <= i < |s| ==> r[i] == f(s[i])
  {
    if s == [] then [] else [f(s[0])] + Map(s[1..], f)
  }

  // ---------------------------------------------------------------- sorting

  /** The comparators in use: `a.order - b.order`; popular entries first and then
      `a.order - b.order`; and `createdAt` newest first. */
  datatype Ordering = ByOrder | PopularThenOrder | NewestFirst

  /** The numeric value the comparator reads; a value that is not a number compares as 0. */
  function NumberOf(v: Value): real {
    var x := ToNumber(v);
    if x.Num? then x.n else 0.0
  }

  /** The sort key: a rank compared first, then a number. */
  function Key(o: Ordering, v: Value): (real, real) {
    match o
    case ByOrder => (0.0, NumberOf(Get(v, "order")))
    case PopularThenOrder =>
      (if Truthy(Get(v, "popular")) then 0.0 else 1.0, NumberOf(Get(v, "order")))
    case NewestFirst => (0.0, -NumberOf(Get(v, "createdAt")))
  }

  /** Lexicographic order on sort keys. */
  predicate KeyLe(ka: (real, real), kb: (real, real)) {
    ka.0 < kb.0 || (ka.0 == kb.0 && ka.1 <= kb.1)
  }

  /** `a` may stand before `b`. */
  predicate Le(o: Ordering, a: Value, b: Value) {
    KeyLe(Key(o, a), Key(o, b))
  }

  lemma LeTotal(o: Ordering, a: Value, b: Value)
    ensures Le(o, a, b) || Le(o, b, a)
  {
  }

  lemma LeTrans(o: Ordering, a: Value, b: Value, c: Value)
    requires Le(o, a, b) && Le(o, b, c)
    ensures Le(o, a, c)
  {
  }

  predicate Sorted(o: Ordering, s: seq<Value>) {
    forall i, j :: 0 <= i < j < |s| ==> Le(o, s[i], s[j])
  }

  // The sort works on any key function; `Sort(o, s)` sorts by the comparator's key.

  /** The sort key of a comparator, as a function of the element. */
  function KeyOf(o: Ordering): Value -> (real, real) {
    v => Key(o, v)
  }

  /** In order by `key`. */
  predicate SortedBy(key: Value -> (real, real), s: seq<Value>) {
    forall i, j :: 0 <= i < j < |s| ==> KeyLe(key(s[i]), key(s[j]))
  }

  /** In order by a comparator is in order by its key. */
  lemma SortedByKey(o: Ordering, s: seq<Value>)
    ensures Sorted(o, s) <==> SortedBy(KeyOf(o), s)
  {
  }

  /** Insert `x` after every element that does not come strictly after it; this keeps
      the sort stable, since the later element lands behind its equals. */
  function Insert(key: Value -> (real, real), x: Value, s: seq<Value>): seq<Value> {
    if s == [] then [x]
    else if !KeyLe(key(s[0]), key(x)) then [x] + s
    else [s[0]] + Insert(key, x, s[1..])
  }

  /** Insertion sort, element by element from the left. */
  function SortBy(key: Value -> (real, real), s: seq<Value>): seq<Value> {
    if s == [] then [] else Insert(key, s[|s| - 1], SortBy(key, s[..|s| - 1]))
  }

  /** `s.sort(comparator)`. */
  function Sort(o: Ordering, s: seq<Value>): seq<Value> {
    SortBy(KeyOf(o), s)
  }

  lemma {:induction false} InsertElements(key: Value -> (real, real), x: Value, s: seq<Value>)
    ensures multiset(Insert(key, x, s)) == multiset(s) + multiset{x}
    ensures |Insert(key, x, s)| == |s| + 1
  {
    if s != [] && KeyLe(key(s[0]), key(x)) {
      InsertElements(key, x, s[1..]);
      assert s == [s[0]] + s[1..];
    }
  }

  /** A list stays sorted when an element that may precede all of it is put in front. */
  lemma ConsSorted(key: Value -> (real, real), a: Value, t: seq<Value>)
    requires SortedBy(key, t)
    requires forall k :: 0 <= k < |t| ==> KeyLe(key(a), key(t[k]))
    ensures SortedBy(key, [a] + t)
  {
    var r := [a] + t;
    forall i, j | 0 <= i < j < |r| ensures KeyLe(key(r[i]), key(r[j])) {
      if i > 0 { assert r[i] == t[i - 1] && r[j] == t[j - 1]; } else { assert r[j] == t[j - 1]; }
    }
  }

  lemma {:induction false} InsertSorted(key: Value -> (real, real), x: Value, s: seq<Value>)
    requires SortedBy(key, s)
    ensures SortedBy(key, Insert(key, x, s))
    ensures multiset(Insert(key, x, s)) == multiset(s) + multiset{x}
    ensures |Insert(key, x, s)| == |s| + 1
  {
    InsertElements(key, x, s);
    if s == [] {
    } else if !KeyLe(key(s[0]), key(x)) {
      ConsSorted(key, x, s);
    } else {
      var tail := s[1..];
      assert SortedBy(key, tail);
      InsertSorted(key, x, tail);
      var t := Insert(key, x, tail);
      forall k | 0 <= k < |t| ensures KeyLe(key(s[0]), key(t[k])) {
        assert t[k] in multiset(t);
        if t[k] != x {
          assert t[k] in multiset(tail);
          var m :| 0 <= m < |tail| && tail[m] == t[k];
          assert s[m + 1] == t[k];
        }
      }
      ConsSorted(key, s[0], t);
    }
  }

  /** Sorting by a key orders the list by it and keeps exactly its elements. */
  lemma {:induction false} SortByCorrect(key: Value -> (real, real), s: seq<Value>)
    ensures SortedBy(key, SortBy(key, s))
    ensures multiset(SortBy(key, s)) == multiset(s)
    ensures |SortBy(key, s)| == |s|
  {
    if s != [] {
      var init := s[..|s| - 1];
      SortByCorrect(key, init);
      InsertSorted(key, s[|s| - 1], SortBy(key, init));
      assert s == init + [s[|s| - 1]];
    }
  }

  /** Sorting orders the list by the comparator and keeps exactly its elements. */
  lemma SortCorrect(o: Ordering, s: seq<Value>)
    ensures Sorted(o, Sort(o, s))
    ensures multiset(Sort(o, s)) == multiset(s)
    ensures |Sort(o, s)| == |s|
  {
    SortByCorrect(KeyOf(o), s);
    SortedByKey(o, Sort(o, s));
  }

  /** A list that is already in order comes back unchanged. */
  lemma SortSortedIdentity(o: Ordering, s: seq<Value>)
    requires Sorted(o, s)
    ensures Sort(o, s) == s
  {
    SortedByKey(o, s);
    SortByIdentity(KeyOf(o), s);
  }

  lemma {:induction false} SortByIdentity(key: Value -> (real, real), s: seq<Value>)
    requires SortedBy(key, s)
    ensures SortBy(key, s) == s
  {
    if s != [] {
      var init := s[..|s| - 1];
      assert SortedBy(key, init);
      SortByIdentity(key, init);
      InsertLast(key, s[|s| - 1], init);
      assert s == init + [s[|s| - 1]];
    }
  }

  lemma {:induction false} InsertLast(key: Value -> (real, real), x: Value, s: seq<Value>)
    requires forall i :: 0 <= i < |s| ==> KeyLe(key(s[i]), key(x))
    ensures Insert(key, x, s) == s + [x]
  {
    if s != [] {
      InsertLast(key, x, s[1..]);
      assert s == [s[0]] + s[1..];
    }
  }

  /** The elements whose key is that of `y`. */
  function SameKey(key: Value -> (real, real), y: Value): Value -> bool {
    x => key(x) == key(y)
  }

  /** Inserting into a sorted list puts `x` behind every element with the same key. */
  lemma {:induction false} InsertFilter(key: Value -> (real, real), x: Value, t: seq<Value>, y: Value)
    requires SortedBy(key, t)
    ensures Filter(Insert(key, x, t), SameKey(key, y))
      == Filter(t, SameKey(key, y)) + (if key(x) == key(y) then [x] else [])
  {
    var p := SameKey(key, y);
    if t == [] {
      assert Insert(key, x, t) == [x];
      assert [x][1..] == [];
    } else if !KeyLe(key(t[0]), key(x)) {
      InsertFront(key, x, t, y);
    } else {
      assert SortedBy(key, t[1..]);
      InsertFilter(key, x, t[1..], y);
      assert Insert(key, x, t) == [t[0]] + Insert(key, x, t[1..]);
      FilterAppend([t[0]], Insert(key, x, t[1..]), p);
      FilterAppend([t[0]], t[1..], p);
      assert [t[0]] + t[1..] == t;
    }
  }

  /** `x` put in front of a sorted list whose head comes strictly after it: no element
      of the list has the key of `x`. */
  lemma InsertFront(key: Value -> (real, real), x: Value, t: seq<Value>, y: Value)
    requires SortedBy(key, t) && t != [] && !KeyLe(key(t[0]), key(x))
    ensures Filter(Insert(key, x, t), SameKey(key, y))
      == Filter(t, SameKey(key, y)) + (if key(x) == key(y) then [x] else [])
  {
    var p := SameKey(key, y);
    assert Insert(key, x, t) == [x] + t;
    FilterAppend([x], t, p);
    assert [x][1..] == [];
    if key(x) == key(y) {
      forall i | 0 <= i < |t| ensures !p(t[i]) {
        if i > 0 { assert KeyLe(key(t[0]), key(t[i])); }
      }
      FilterLength(t, p);
    }
  }

  /** Sorting by a key is stable: the elements with any one key come out in the order
      they went in. */
  lemma {:induction false} SortByStable(key: Value -> (real, real), s: seq<Value>, y: Value)
    ensures Filter(SortBy(key, s), SameKey(key, y)) == Filter(s, SameKey(key, y))
  {
    if s != [] {
      var init, x := s[..|s| - 1], s[|s| - 1];
      SortByStable(key, init, y);
      SortByCorrect(key, init);
      InsertFilter(key, x, SortBy(key, init), y);
      FilterAppend(init, [x], SameKey(key, y));
      assert [x][1..] == [];
      assert s == init + [x];
    }
  }

  /** `sort` is stable: the elements the comparator ranks equal to `y` come out in the
      order they went in. */
  lemma SortStable(o: Ordering, s: seq<Value>, y: Value)
    ensures Filter(Sort(o, s), SameKey(KeyOf(o), y)) == Filter(s, SameKey(KeyOf(o), y))
  {
    SortByStable(KeyOf(o), s, y);
  }

  /** The `order` comparator looks at nothing but `order`. */
  lemma ByOrderKey(a: Value, b: Value)
    requires Get(a, "order") == Get(b, "order")
    ensures Key(ByOrder, a) == Key(ByOrder, b)
  {
  }

  /** Newest-first order looks at nothing but `createdAt`. */
  lemma NewestFirstKey(a: Value, b: Value)
    requires Get(a, "createdAt") == Get(b, "createdAt")
    ensures Key(NewestFirst, a) == Key(NewestFirst, b)
  {
  }

  /** `f` leaves every element's sort key as it was. */
  ghost predicate KeepsKey(o: Ordering, f: Value -> Value) {
    forall x :: Key(o, f(x)) == Key(o, x)
  }

  /** A map that keeps every element's sort key keeps a sorted list sorted. */
  lemma MapSorted(o: Ordering, s: seq<Value>, f: Value -> Value)
    requires KeepsKey(o, f)
    requires Sorted(o, s)
    ensures Sorted(o, Map(s, f))
  {
    var r := Map(s, f);
    forall i, j | 0 <= i < j < |r| ensures Le(o, r[i], r[j]) {
      assert Key(o, r[i]) == Key(o, s[i]) && Key(o, r[j]) == Key(o, s[j]);
    }
  }
}
