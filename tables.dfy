/** Rows of a table in insertion order, and the SQL building blocks the repositories use over
    them: lookup by primary key, WHERE filters, COUNT, ORDER BY and "First" of an ordering. */
module Tables {
  import opened Domain

  /** Position of the first row whose key is `id`. */
  function IndexOf<T>(rows: seq<T>, key: T -> Id, id: Id): (r: Option<nat>)
    ensures r.Some? ==> r.value < |rows| && key(rows[r.value]) == id
    ensures r.Some? ==> forall j :: 0 <= j < r.value ==> key(rows[j]) != id
    ensures r.None? <==> forall j :: 0 <= j < |rows| ==> key(rows[j]) != id
  {
    if |rows| == 0 then None
    else if key(rows[0]) == id then Some(0)
    else
      match IndexOf(rows[1..], key, id)
      case None => None
      case Some(k) => Some(k + 1)
  }

  /** `WHERE id = ? ... First`: the row with that primary key, if any. */
  function Find<T(==)>(rows: seq<T>, key: T -> Id, id: Id): (r: Option<T>)
    ensures r.Some? ==> r.value in rows && key(r.value) == id
    ensures r.None? <==> forall j :: 0 <= j < |rows| ==> key(rows[j]) != id
  {
    match IndexOf(rows, key, id)
    case None => None
    case Some(i) => Some(rows[i])
  }

  /** The first match of a key is determined by the keys alone. */
  lemma {:induction false} IndexOfFirst<T>(rows: seq<T>, key: T -> Id, id: Id, i: nat)
    requires i < |rows| && key(rows[i]) == id
    requires forall j :: 0 <= j < i ==> key(rows[j]) != id
    ensures IndexOf(rows, key, id) == Some(i)
  {
    if i > 0 {
      IndexOfFirst(rows[1..], key, id, i - 1);
    }
  }

  /** `WHERE p`: the rows that satisfy `p`, in table order. */
  function Filter<T(==,!new)>(rows: seq<T>, p: T -> bool): (r: seq<T>)
    ensures |r| <= |rows|
    ensures forall x :: x in r <==> x in rows && p(x)
  {
    if rows == [] then []
    else
      var last := rows[|rows| - 1];
      var front := rows[..|rows| - 1];
      assert rows == front + [last];
      Filter(front, p) + (if p(last) then [last] else [])
  }

  lemma FilterSnoc<T(!new)>(rows: seq<T>, x: T, p: T -> bool)
    ensures Filter(rows + [x], p) == Filter(rows, p) + (if p(x) then [x] else [])
  {
    assert (rows + [x])[..|rows + [x]| - 1] == rows;
  }

  /** Every row satisfying `p` keeps its place relative to the others: filtering a concatenation
      filters each part. */
  lemma {:induction false} FilterAppend<T(!new)>(a: seq<T>, b: seq<T>, p: T -> bool)
    ensures Filter(a + b, p) == Filter(a, p) + Filter(b, p)
  {
    if b == [] {
      assert a + b == a;
    } else {
      var front := b[..|b| - 1];
      var last := b[|b| - 1];
      var kept := if p(last) then [last] else [];
      assert b == front + [last];
      assert a + b == (a + front) + [last];
      calc {
        Filter(a + b, p);
        { FilterSnoc(a + front, last, p); }
        Filter(a + front, p) + kept;
        { FilterAppend(a, front, p); }
        (Filter(a, p) + Filter(front, p)) + kept;
        Filter(a, p) + (Filter(front, p) + kept);
        { FilterSnoc(front, last, p); }
        Filter(a, p) + Filter(b, p);
      }
    }
  }

  /** Filtering keeps each satisfying row exactly as often as it is stored. */
  lemma {:induction false} FilterMultiplicity<T(!new)>(rows: seq<T>, p: T -> bool, x: T)
    ensures multiset(Filter(rows, p))[x] == if p(x) then multiset(rows)[x] else 0
  {
    if rows != [] {
      var front := rows[..|rows| - 1];
      var last := rows[|rows| - 1];
      assert rows == front + [last];
      FilterMultiplicity(front, p, x);
    }
  }

  /** `COUNT(*) ... WHERE p`. */
  function Count<T(==,!new)>(rows: seq<T>, p: T -> bool): (n: nat)
    ensures n <= |rows|
    ensures n > 0 <==> exists x :: x in rows && p(x)
  {
    var f := Filter(rows, p);
    assert f != [] ==> f[0] in f;
    |Filter(rows, p)|
  }

  ghost predicate SortedDesc<T>(s: seq<T>, key: T -> int)
  {
    forall i, j :: 0 <= i < j < |s| ==> key(s[i]) >= key(s[j])
  }

  ghost predicate SortedAsc<T>(s: seq<T>, key: T -> int)
  {
    forall i, j :: 0 <= i < j < |s| ==> key(s[i]) <= key(s[j])
  }

  /** Filtering a list keeps it in the order it was in. */
  lemma {:induction false} FilterSortedDesc<T(!new)>(rows: seq<T>, p: T -> bool, key: T -> int)
    requires SortedDesc(rows, key)
    ensures SortedDesc(Filter(rows, p), key)
  {
    if rows != [] {
      var last := rows[|rows| - 1];
      var front := rows[..|rows| - 1];
      assert rows == front + [last];
      assert SortedDesc(front, key);
      FilterSortedDesc(front, p, key);
      var f := Filter(front, p);
      forall x | x in f ensures key(x) >= key(last) {
        var j :| 0 <= j < |front| && front[j] == x;
      }
    }
  }

  function InsertDesc<T(==)>(x: T, s: seq<T>, key: T -> int): (r: seq<T>)
    ensures multiset(r) == multiset(s) + multiset{x}
    ensures |r| == |s| + 1
    ensures forall y :: y in r ==> y == x || y in s
  {
    if s == [] then [x]
    else if key(x) >= key(s[0]) then [x] + s
    else
      assert s == [s[0]] + s[1..];
      [s[0]] + InsertDesc(x, s[1..], key)
  }

  /** A row placed in front of a sorted list that holds no larger key keeps it sorted. */
  lemma ConsSortedDesc<T>(h: T, rest: seq<T>, key: T -> int)
    requires SortedDesc(rest, key)
    requires forall y :: y in rest ==> key(h) >= key(y)
    ensures SortedDesc([h] + rest, key)
  {
    var r := [h] + rest;
    forall i, j | 0 <= i < j < |r|
      ensures key(r[i]) >= key(r[j])
    {
      if i > 0 {
        assert r[i] == rest[i - 1] && r[j] == rest[j - 1];
      } else {
        assert r[j] in rest;
      }
    }
  }

  lemma {:induction false} InsertDescSorted<T>(x: T, s: seq<T>, key: T -> int)
    requires SortedDesc(s, key)
    ensures SortedDesc(InsertDesc(x, s, key), key)
  {
    if s != [] && key(x) < key(s[0]) {
      var rest := InsertDesc(x, s[1..], key);
      InsertDescSorted(x, s[1..], key);
      forall y | y in rest
        ensures key(s[0]) >= key(y)
      {
        if y != x {
          var k :| 0 <= k < |s[1..]| && s[1..][k] == y;
          assert s[k + 1] == y;
        }
      }
      ConsSortedDesc(s[0], rest, key);
    }
  }

  /** `ORDER BY key DESC`: the same rows, largest key first. */
  function SortDesc<T(==,!new)>(s: seq<T>, key: T -> int): (r: seq<T>)
    ensures SortedDesc(r, key)
    ensures multiset(r) == multiset(s)
    ensures |r| == |s|
    ensures forall x :: x in r <==> x in s
  {
    if s == [] then []
    else
      assert s == [s[0]] + s[1..];
      var rest := SortDesc(s[1..], key);
      InsertDescSorted(s[0], rest, key);
      var r := InsertDesc(s[0], rest, key);
      SameMembers(r, s);
      r
  }

  lemma SameMembers<T>(a: seq<T>, b: seq<T>)
    requires multiset(a) == multiset(b)
    ensures forall x :: x in a <==> x in b
  {
    assert forall x :: x in a <==> x in multiset(a);
    assert forall x :: x in b <==> x in multiset(b);
  }

  /** `ORDER BY key ASC`: the same rows, smallest key first. */
  function SortAsc<T(==,!new)>(s: seq<T>, key: T -> int): (r: seq<T>)
    ensures SortedAsc(r, key)
    ensures multiset(r) == multiset(s)
    ensures |r| == |s|
    ensures forall x :: x in r <==> x in s
  {
    SortDesc(s, (x: T) => -key(x))
  }

  /** `WHERE p ORDER BY key DESC ... First`: a row satisfying `p` with the largest key, or none. */
  function MaxBy<T(==,!new)>(s: seq<T>, p: T -> bool, key: T -> int): (r: Option<T>)
    ensures r.Some? ==> r.value in s && p(r.value)
    ensures r.Some? ==> forall y :: y in s && p(y) ==> key(y) <= key(r.value)
    ensures r.None? <==> forall y :: y in s ==> !p(y)
  {
    if s == [] then None
    else
      var rest := MaxBy(s[1..], p, key);
      assert forall y :: y in s ==> y == s[0] || y in s[1..];
      if !p(s[0]) then rest
      else if rest.Some? && key(rest.value) > key(s[0]) then rest
      else Some(s[0])
  }

  /** `WHERE p ORDER BY key ASC ... First`: a row satisfying `p` with the smallest key, or none. */
  function MinBy<T(==,!new)>(s: seq<T>, p: T -> bool, key: T -> int): (r: Option<T>)
    ensures r.Some? ==> r.value in s && p(r.value)
    ensures r.Some? ==> forall y :: y in s && p(y) ==> key(r.value) <= key(y)
    ensures r.None? <==> forall y :: y in s ==> !p(y)
  {
    MaxBy(s, p, (x: T) => -key(x))
  }

  /** `UPDATE ... WHERE key = id`: every row with that key rewritten by `f`, the others kept. */
  function UpdateWhere<T>(rows: seq<T>, key: T -> Id, id: Id, f: T -> T): (r: seq<T>)
    ensures |r| == |rows|
    ensures forall i :: 0 <= i < |rows| ==> r[i] == if key(rows[i]) == id then f(rows[i]) else rows[i]
  {
    if rows == [] then []
    else [if key(rows[0]) == id then f(rows[0]) else rows[0]] + UpdateWhere(rows[1..], key, id, f)
  }

  /** An update that keeps the key of the rows it rewrites: the row found by that key afterwards
      is the rewritten row found before, and a missing key stays missing. */
  lemma FindAfterUpdate<T>(rows: seq<T>, key: T -> Id, id: Id, f: T -> T)
    requires forall x :: key(x) == id ==> key(f(x)) == id
    ensures Find(UpdateWhere(rows, key, id, f), key, id) ==
      match Find(rows, key, id) case None => None case Some(x) => Some(f(x))
  {
    var r := UpdateWhere(rows, key, id, f);
    match IndexOf(rows, key, id)
    case None =>
      assert forall j :: 0 <= j < |r| ==> key(r[j]) != id;
    case Some(i) =>
      IndexOfFirst(r, key, id, i);
  }

  /** gorm `Save`: every stored row with the key of `row` is overwritten by `row` as a whole; a row
      whose key is not stored yet is inserted at the end. */
  function Save<T>(rows: seq<T>, key: T -> Id, row: T): (r: seq<T>)
    ensures Find(r, key, key(row)) == Some(row)
    ensures Find(rows, key, key(row)).Some? ==> |r| == |rows|
    ensures Find(rows, key, key(row)).None? ==> r == rows + [row]
    ensures forall i :: 0 <= i < |rows| ==> r[i] == if key(rows[i]) == key(row) then row else rows[i]
  {
    var f := (x: T) => row;
    if IndexOf(rows, key, key(row)).None? then
      IndexOfFirst(rows + [row], key, key(row), |rows|);
      rows + [row]
    else
      FindAfterUpdate(rows, key, key(row), f);
      UpdateWhere(rows, key, key(row), f)
  }

  /** Saving a row whose key was drawn before `n` keeps the keys distinct. */
  lemma WellKeyedSave<T>(rows: seq<T>, key: T -> Id, n: nat, row: T)
    requires WellKeyed(rows, key, n) && key(row) < n
    ensures WellKeyed(Save(rows, key, row), key, n)
  {
    var r := Save(rows, key, row);
    if Find(rows, key, key(row)).None? {
      assert r == rows + [row];
    }
  }

  /** `WHERE p ... First` without ordering: the first row satisfying `p`, if any. */
  function FirstWhere<T>(rows: seq<T>, p: T -> bool): (r: Option<T>)
    ensures r.Some? ==> r.value in rows && p(r.value)
    ensures r.None? <==> forall i :: 0 <= i < |rows| ==> !p(rows[i])
  {
    if rows == [] then None
    else if p(rows[0]) then Some(rows[0])
    else FirstWhere(rows[1..], p)
  }

  /** The first row satisfying `p` is found at its position. */
  lemma {:induction false} FirstWhereAt<T>(rows: seq<T>, p: T -> bool, i: nat)
    requires i < |rows| && p(rows[i])
    requires forall j :: 0 <= j < i ==> !p(rows[j])
    ensures FirstWhere(rows, p) == Some(rows[i])
  {
    if i > 0 {
      FirstWhereAt(rows[1..], p, i - 1);
    }
  }

  /** The row FirstWhere finds sits at a position before which no row satisfies `p`. */
  lemma {:induction false} FirstWhereIndex<T>(rows: seq<T>, p: T -> bool) returns (i: nat)
    requires FirstWhere(rows, p).Some?
    ensures i < |rows| && rows[i] == FirstWhere(rows, p).value
    ensures forall j :: 0 <= j < i ==> !p(rows[j])
  {
    if p(rows[0]) {
      i := 0;
    } else {
      var k := FirstWhereIndex(rows[1..], p);
      i := k + 1;
    }
  }

  /** `SUM(f)` over the rows, with an empty table summing to zero. */
  function SumBy<T>(rows: seq<T>, f: T -> real): real
  {
    if rows == [] then 0.0 else SumBy(rows[..|rows| - 1], f) + f(rows[|rows| - 1])
  }

  lemma SumBySnoc<T>(rows: seq<T>, x: T, f: T -> real)
    ensures SumBy(rows + [x], f) == SumBy(rows, f) + f(x)
  {
    assert (rows + [x])[..|rows + [x]| - 1] == rows;
  }

  /** A sum of non-negative terms is non-negative. */
  lemma {:induction false} SumByNonNegative<T>(rows: seq<T>, f: T -> real)
    requires forall i :: 0 <= i < |rows| ==> f(rows[i]) >= 0.0
    ensures SumBy(rows, f) >= 0.0
  {
    if rows != [] {
      SumByNonNegative(rows[..|rows| - 1], f);
    }
  }

  /** SUM distributes over a difference of terms. */
  lemma {:induction false} SumByDifference<T>(rows: seq<T>, f: T -> real, g: T -> real, h: T -> real)
    requires forall x :: h(x) == f(x) - g(x)
    ensures SumBy(rows, h) == SumBy(rows, f) - SumBy(rows, g)
  {
    if rows != [] {
      SumByDifference(rows[..|rows| - 1], f, g, h);
    }
  }

  /** Every key is below the next identifier the store hands out. */
  ghost predicate KeysBelow<T>(rows: seq<T>, key: T -> Id, n: nat)
  {
    forall i :: 0 <= i < |rows| ==> key(rows[i]) < n
  }

  /** No two rows share a primary key. */
  ghost predicate KeysUnique<T>(rows: seq<T>, key: T -> Id)
  {
    forall i, j :: 0 <= i < j < |rows| ==> key(rows[i]) != key(rows[j])
  }

  /** A table whose primary keys are distinct and all drawn before `n`. */
  ghost predicate WellKeyed<T>(rows: seq<T>, key: T -> Id, n: nat)
  {
    KeysBelow(rows, key, n) && KeysUnique(rows, key)
  }

  /** Inserting a row under the next identifier keeps the keys distinct. */
  lemma WellKeyedAppend<T>(rows: seq<T>, key: T -> Id, n: nat, x: T)
    requires WellKeyed(rows, key, n) && key(x) == n
    ensures WellKeyed(rows + [x], key, n + 1)
  {
  }

  lemma WellKeyedRaise<T>(rows: seq<T>, key: T -> Id, n: nat, m: nat)
    requires WellKeyed(rows, key, n) && n <= m
    ensures WellKeyed(rows, key, m)
  {
  }

  /** An update that keeps the key of the rows it rewrites keeps the keys distinct. */
  lemma WellKeyedUpdate<T>(rows: seq<T>, key: T -> Id, n: nat, id: Id, f: T -> T)
    requires WellKeyed(rows, key, n)
    requires forall x :: key(x) == id ==> key(f(x)) == id
    ensures WellKeyed(UpdateWhere(rows, key, id, f), key, n)
  {
  }

  /** With distinct keys the row found by a key is the only row carrying it. */
  lemma FindUnique<T>(rows: seq<T>, key: T -> Id, id: Id, i: nat)
    requires KeysUnique(rows, key)
    requires i < |rows| && key(rows[i]) == id
    ensures IndexOf(rows, key, id) == Some(i)
  {
    IndexOfFirst(rows, key, id, i);
  }
}
