/** The two things a backend read does to a table's rows: keep the rows an
    equality/range filter accepts (`eq`, `neq`, `gte`, `in`), and order them
    by one column (`order(column, { ascending })`). Columns used for ordering
    are integers in this model (day numbers and instants). */
module Queries {
  import opened Common


  /** The rows `p` accepts, in table order. */
  function Filter<T(!new)>(s: seq<T>, p: T -> bool): (r: seq<T>)
    ensures |r| <= |s|
    ensures forall x :: x in r <==> x in s && p(x)
  {
    if |s| == 0 then []
    else
      assert s == [s[0]] + s[1..];
      if p(s[0]) then [s[0]] + Filter(s[1..], p)
      else Filter(s[1..], p)
  }

  /** A filter keeps each row at most as often as the table holds it. */
  lemma {:induction false} FilterSubMultiset<T(!new)>(s: seq<T>, p: T -> bool)
    ensures multiset(Filter(s, p)) <= multiset(s)
  {
    if |s| > 0 {
      FilterSubMultiset(s[1..], p);
      assert s == [s[0]] + s[1..];
    }
  }

  /** A filter over rows appended at the end filters each part. */
  lemma {:induction false} FilterAppend<T(!new)>(s: seq<T>, t: seq<T>, p: T -> bool)
    ensures Filter(s + t, p) == Filter(s, p) + Filter(t, p)
  {
    if |s| == 0 {
      assert s + t == t;
    } else {
      assert (s + t)[1..] == s[1..] + t;
      FilterAppend(s[1..], t, p);
    }
  }

  /** A filter that accepts every row keeps the table as it is. */
  lemma {:induction false} FilterAll<T(!new)>(s: seq<T>, p: T -> bool)
    requires forall i :: 0 <= i < |s| ==> p(s[i])
    ensures Filter(s, p) == s
  {
    if |s| > 0 {
      FilterAll(s[1..], p);
      assert [s[0]] + s[1..] == s;
    }
  }

  /** A filter that rejects exactly the row at `k` removes just that row. */
  lemma {:induction false} FilterDropsOne<T(!new)>(s: seq<T>, p: T -> bool, k: nat)
    requires k < |s| && !p(s[k])
    requires forall i :: 0 <= i < |s| && i != k ==> p(s[i])
    ensures Filter(s, p) == s[..k] + s[k + 1..]
  {
    var tail := s[1..];
    if k == 0 {
      forall i | 0 <= i < |tail| ensures p(tail[i]) {
        assert tail[i] == s[i + 1];
      }
      FilterAll(tail, p);
      assert Filter(s, p) == Filter(tail, p);
      assert s[..0] + s[1..] == tail;
    } else {
      forall i | 0 <= i < |tail| && i != k - 1 ensures p(tail[i]) {
        assert tail[i] == s[i + 1];
      }
      FilterDropsOne(tail, p, k - 1);
      assert p(s[0]);
      assert Filter(s, p) == [s[0]] + Filter(tail, p);
      RemoveAfterFirst(s, k);
    }
  }

  /** Removing position `k > 0` keeps the first element in front. */
  lemma RemoveAfterFirst<T>(s: seq<T>, k: nat)
    requires 0 < k < |s|
    ensures s[..k] + s[k + 1..] == [s[0]] + (s[1..][..k - 1] + s[1..][k..])
  {
    assert s[1..][..k - 1] == s[1..k];
    assert s[1..][k..] == s[k + 1..];
    assert s[..k] == [s[0]] + s[1..k];
  }

  /** A table whose rows are keyed by the string column `key` holds each
      key at most once. */
  predicate UniqueBy<T>(rows: seq<T>, key: T -> string) {
    forall i, j :: 0 <= i < j < |rows| ==> key(rows[i]) != key(rows[j])
  }

  /** Position of the row whose key is `id`, if any. */
  function IndexBy<T(!new)>(rows: seq<T>, key: T -> string, id: string): (r: Option<nat>)
    ensures r.Some? ==> r.value < |rows| && key(rows[r.value]) == id
    ensures r.None? <==> forall x :: x in rows ==> key(x) != id
  {
    if |rows| == 0 then None
    else if key(rows[0]) == id then Some(0)
    else
      var k := IndexBy(rows[1..], key, id);
      assert rows == [rows[0]] + rows[1..];
      if k.Some? then Some(k.value + 1) else None
  }

  /** With unique keys, the row found is the only one with that key. */
  lemma IndexByUnique<T(!new)>(rows: seq<T>, key: T -> string, id: string, i: int)
    requires UniqueBy(rows, key) && 0 <= i < |rows| && key(rows[i]) == id
    ensures IndexBy(rows, key, id) == Some(i)
  {
  }

  /** Removing rows keeps the keys unique. */
  lemma {:induction false} FilterKeepsUniqueBy<T(!new)>(rows: seq<T>, key: T -> string, p: T -> bool)
    requires UniqueBy(rows, key)
    ensures UniqueBy(Filter(rows, p), key)
  {
    if |rows| > 0 {
      FilterKeepsUniqueBy(rows[1..], key, p);
      assert rows == [rows[0]] + rows[1..];
      assert forall x :: x in rows[1..] ==> key(x) != key(rows[0]);
    }
  }

  /** A filter that rejects every row keeps none. */
  lemma {:induction false} FilterNone<T(!new)>(s: seq<T>, p: T -> bool)
    requires forall i :: 0 <= i < |s| ==> !p(s[i])
    ensures Filter(s, p) == []
  {
    if |s| > 0 {
      assert forall i :: 0 <= i < |s| - 1 ==> s[1..][i] == s[i + 1];
      FilterNone(s[1..], p);
    }
  }

  /** With unique keys, a filter that only accepts rows with key `id`
      accepts at most one row. */
  lemma {:induction false} FilterOneKeyAtMostOne<T(!new)>(rows: seq<T>, key: T -> string, id: string, p: T -> bool)
    requires UniqueBy(rows, key)
    requires forall x :: p(x) ==> key(x) == id
    ensures |Filter(rows, p)| <= 1
  {
    if |rows| > 0 {
      var tail := rows[1..];
      if p(rows[0]) {
        forall i | 0 <= i < |tail| ensures !p(tail[i]) {
          assert tail[i] == rows[i + 1];
        }
        FilterNone(tail, p);
        assert Filter(rows, p) == [rows[0]];
      } else {
        FilterOneKeyAtMostOne(tail, key, id, p);
        assert Filter(rows, p) == Filter(tail, p);
      }
    }
  }

  /** `.maybeSingle()` as the turf lookup uses it: the row when exactly one
      matches; no row and several rows (an error) both give nothing. */
  function MaybeSingle<T>(s: seq<T>): (r: Option<T>)
    ensures r.Some? <==> |s| == 1
    ensures r.Some? ==> r.value == s[0]
  {
    if |s| == 1 then Some(s[0]) else None
  }

  /** Row `a` may stand before row `b` in the chosen direction. */
  predicate InOrder<T>(a: T, b: T, key: T -> int, ascending: bool) {
    if ascending then key(a) <= key(b) else key(a) >= key(b)
  }

  predicate Sorted<T>(s: seq<T>, key: T -> int, ascending: bool) {
    forall i, j :: 0 <= i < j < |s| ==> InOrder(s[i], s[j], key, ascending)
  }

  function Insert<T(!new)>(x: T, s: seq<T>, key: T -> int, ascending: bool): (r: seq<T>)
    requires Sorted(s, key, ascending)
    ensures Sorted(r, key, ascending)
    ensures forall y :: y in r <==> y == x || y in s
    ensures multiset(r) == multiset(s) + multiset{x}
  {
    if |s| == 0 then [x]
    else if InOrder(x, s[0], key, ascending) then
      [x] + s
    else
      var rest := Insert(x, s[1..], key, ascending);
      assert s == [s[0]] + s[1..];
      SortedCons(s[0], rest, key, ascending);
      [s[0]] + rest
  }

  /** A row in order with every row of a sorted list may stand before it. */
  lemma SortedCons<T>(a: T, t: seq<T>, key: T -> int, ascending: bool)
    requires Sorted(t, key, ascending)
    requires forall y :: y in t ==> InOrder(a, y, key, ascending)
    ensures Sorted([a] + t, key, ascending)
  {
    forall i, j | 0 <= i < j < |[a] + t| ensures InOrder(([a] + t)[i], ([a] + t)[j], key, ascending) {
      if i > 0 {
        assert ([a] + t)[i] == t[i - 1];
      }
      assert ([a] + t)[j] == t[j - 1];
    }
  }

  /** `order(key, { ascending })`: the same rows, ordered by `key`. The order
      of rows with equal keys is not fixed by the backend; this is one
      admissible choice. */
  function OrderBy<T(!new)>(s: seq<T>, key: T -> int, ascending: bool): (r: seq<T>)
    ensures Sorted(r, key, ascending)
    ensures multiset(r) == multiset(s)
  {
    if |s| == 0 then []
    else
      assert s == [s[0]] + s[1..];
      Insert(s[0], OrderBy(s[1..], key, ascending), key, ascending)
  }

  /** Ordering keeps exactly the rows it was given. */
  lemma OrderByMembers<T(!new)>(s: seq<T>, key: T -> int, ascending: bool)
    ensures |OrderBy(s, key, ascending)| == |s|
    ensures forall x :: x in OrderBy(s, key, ascending) <==> x in s
  {
    var r := OrderBy(s, key, ascending);
    assert |multiset(r)| == |multiset(s)|;
    forall x ensures x in r <==> x in s {
      assert x in r <==> x in multiset(r);
      assert x in s <==> x in multiset(s);
    }
  }

  /** A read that filters and then orders: exactly the accepted rows, each
      as often as in the table, in the requested order. */
  function Select<T(!new)>(s: seq<T>, p: T -> bool, key: T -> int, ascending: bool): (r: seq<T>)
    ensures Sorted(r, key, ascending)
    ensures multiset(r) == multiset(Filter(s, p))
    ensures forall x :: x in r <==> x in s && p(x)
  {
    var kept := Filter(s, p);
    OrderByMembers(kept, key, ascending);
    OrderBy(kept, key, ascending)
  }
}
