/** Orders rows as SQL's ORDER BY does: descending on a two-part key, as the analytics
    queries' `ORDER BY a DESC, b DESC` produce it, and ascending or descending on a key
    compared lexicographically, as one `ORDER BY column direction` produces it. Rows with equal
    keys may come in any order in SQL; the model fixes one. */
module Sorting {

  /** Key a sorts at or before key b in descending order. */
  predicate KeyAtLeast(a: (int, int), b: (int, int)) {
    a.0 > b.0 || (a.0 == b.0 && a.1 >= b.1)
  }

  predicate SortedDesc<T>(s: seq<T>, key: T -> (int, int)) {
    forall i, j :: 0 <= i < j < |s| ==> KeyAtLeast(key(s[i]), key(s[j]))
  }

  function Insert<T>(x: T, s: seq<T>, key: T -> (int, int)): (r: seq<T>)
    ensures |r| == |s| + 1
    ensures multiset(r) == multiset(s) + multiset{x}
  {
    if s == [] || KeyAtLeast(key(x), key(s[0])) then [x] + s
    else
      var rest := Insert(x, s[1..], key);
      assert s == [s[0]] + s[1..];
      [s[0]] + rest
  }

  /** A row at least every row of a sorted sequence can go in front of it. */
  lemma ConsSorted<T>(y: T, rest: seq<T>, key: T -> (int, int))
    requires SortedDesc(rest, key)
    requires forall z :: z in rest ==> KeyAtLeast(key(y), key(z))
    ensures SortedDesc([y] + rest, key)
  {
    var r := [y] + rest;
    forall i, j | 0 <= i < j < |r| ensures KeyAtLeast(key(r[i]), key(r[j])) {
      assert r[j] == rest[j - 1];
      if i > 0 {
        assert r[i] == rest[i - 1];
      }
    }
  }

  /** Inserting into a sorted sequence keeps it sorted. */
  lemma {:induction false} InsertSorted<T>(x: T, s: seq<T>, key: T -> (int, int))
    requires SortedDesc(s, key)
    ensures SortedDesc(Insert(x, s, key), key)
  {
    if s == [] || KeyAtLeast(key(x), key(s[0])) {
      forall z | z in s ensures KeyAtLeast(key(x), key(z)) {
        var j :| 0 <= j < |s| && s[j] == z;
        if j > 0 {
          assert KeyAtLeast(key(s[0]), key(s[j]));
        }
      }
      ConsSorted(x, s, key);
    } else {
      var tail := s[1..];
      var rest := Insert(x, tail, key);
      InsertSorted(x, tail, key);
      forall z | z in rest ensures KeyAtLeast(key(s[0]), key(z)) {
        assert z in multiset(rest);
        if z != x {
          assert z in multiset(tail);
          var j :| 0 <= j < |tail| && tail[j] == z;
          assert s[j + 1] == z;
        }
      }
      ConsSorted(s[0], rest, key);
    }
  }

  /** Insertion sort: the rows reordered by descending key. */
  function SortDesc<T>(s: seq<T>, key: T -> (int, int)): (r: seq<T>)
    ensures |r| == |s|
    ensures multiset(r) == multiset(s)
    ensures SortedDesc(r, key)
  {
    if s == [] then []
    else
      assert s == [s[0]] + s[1..];
      var sortedTail := SortDesc(s[1..], key);
      InsertSorted(s[0], sortedTail, key);
      Insert(s[0], sortedTail, key)
  }

  /** The first n rows (`LIMIT n`). */
  function Take<T>(s: seq<T>, n: nat): (r: seq<T>)
    ensures |r| == if n < |s| then n else |s|
    ensures forall i :: 0 <= i < |r| ==> r[i] == s[i]
  {
    if n < |s| then s[..n] else s
  }

  /** In a sorted sequence, every row before position k is at least every row from k on. */
  lemma PrefixDominates<T>(sorted: seq<T>, key: T -> (int, int), k: nat)
    requires SortedDesc(sorted, key) && k <= |sorted|
    ensures forall x, y :: x in sorted[..k] && y in multiset(sorted) - multiset(sorted[..k]) ==>
      KeyAtLeast(key(x), key(y))
  {
    assert sorted == sorted[..k] + sorted[k..];
    assert multiset(sorted) - multiset(sorted[..k]) == multiset(sorted[k..]);
    forall x, y | x in sorted[..k] && y in multiset(sorted) - multiset(sorted[..k])
      ensures KeyAtLeast(key(x), key(y))
    {
      assert y in sorted[k..];
      var i :| 0 <= i < k && sorted[..k][i] == x;
      var j :| 0 <= j < |sorted| - k && sorted[k..][j] == y;
      assert sorted[i] == x && sorted[k + j] == y;
    }
  }

  /** A prefix of a sorted sequence is sorted and is part of it. */
  lemma PrefixSorted<T>(sorted: seq<T>, key: T -> (int, int), k: nat)
    requires SortedDesc(sorted, key) && k <= |sorted|
    ensures SortedDesc(sorted[..k], key)
    ensures multiset(sorted[..k]) <= multiset(sorted)
  {
    assert sorted == sorted[..k] + sorted[k..];
  }

  /** The first n rows of a sorted copy are the n largest: they keep the order, come from the
      input, and no row left out has a larger key than any row kept. */
  lemma TopOfSorted<T>(s: seq<T>, key: T -> (int, int), n: nat)
    ensures multiset(Take(SortDesc(s, key), n)) <= multiset(s)
    ensures SortedDesc(Take(SortDesc(s, key), n), key)
    ensures forall x, y :: x in Take(SortDesc(s, key), n) && y in multiset(s) - multiset(Take(SortDesc(s, key), n)) ==>
      KeyAtLeast(key(x), key(y))
  {
    var sorted := SortDesc(s, key);
    var k := if n < |sorted| then n else |sorted|;
    assert Take(sorted, n) == sorted[..k];
    PrefixSorted(sorted, key, k);
    PrefixDominates(sorted, key, k);
  }

  // ---------------------------------------------------------------------------------------
  // One column, either direction

  /** Lexicographic order on keys: a proper prefix comes first. */
  predicate LexLe(a: seq<int>, b: seq<int>)
    decreases |a|
  {
    a == [] || (b != [] && (a[0] < b[0] || (a[0] == b[0] && LexLe(a[1..], b[1..]))))
  }

  lemma {:induction false} LexLeTotal(a: seq<int>, b: seq<int>)
    ensures LexLe(a, b) || LexLe(b, a)
    decreases |a|
  {
    if a != [] && b != [] && a[0] == b[0] {
      LexLeTotal(a[1..], b[1..]);
    }
  }

  lemma {:induction false} LexLeTransitive(a: seq<int>, b: seq<int>, c: seq<int>)
    requires LexLe(a, b) && LexLe(b, c)
    ensures LexLe(a, c)
    decreases |a|
  {
    if a != [] && a[0] == b[0] && b[0] == c[0] {
      LexLeTransitive(a[1..], b[1..], c[1..]);
    }
  }

  /** Key a may come before key b: ascending, or descending when `asc` is false. */
  predicate InOrder(asc: bool, a: seq<int>, b: seq<int>) {
    if asc then LexLe(a, b) else LexLe(b, a)
  }

  lemma InOrderTotal(asc: bool, a: seq<int>, b: seq<int>)
    ensures InOrder(asc, a, b) || InOrder(asc, b, a)
  {
    LexLeTotal(a, b);
  }

  lemma InOrderTransitive(asc: bool, a: seq<int>, b: seq<int>, c: seq<int>)
    requires InOrder(asc, a, b) && InOrder(asc, b, c)
    ensures InOrder(asc, a, c)
  {
    if asc {
      LexLeTransitive(a, b, c);
    } else {
      LexLeTransitive(c, b, a);
    }
  }

  predicate SortedBy<T>(s: seq<T>, key: T -> seq<int>, asc: bool) {
    forall i, j :: 0 <= i < j < |s| ==> InOrder(asc, key(s[i]), key(s[j]))
  }

  /** The row goes before the first row it may precede; rows it ties with stay ahead of it. */
  function InsertBy<T>(x: T, s: seq<T>, key: T -> seq<int>, asc: bool): (r: seq<T>)
    ensures |r| == |s| + 1
    ensures multiset(r) == multiset(s) + multiset{x}
  {
    if s == [] || (InOrder(asc, key(x), key(s[0])) && !InOrder(asc, key(s[0]), key(x))) then [x] + s
    else
      var rest := InsertBy(x, s[1..], key, asc);
      assert s == [s[0]] + s[1..];
      [s[0]] + rest
  }

  lemma ConsSortedBy<T>(y: T, rest: seq<T>, key: T -> seq<int>, asc: bool)
    requires SortedBy(rest, key, asc)
    requires forall z :: z in rest ==> InOrder(asc, key(y), key(z))
    ensures SortedBy([y] + rest, key, asc)
  {
    var r := [y] + rest;
    forall i, j | 0 <= i < j < |r| ensures InOrder(asc, key(r[i]), key(r[j])) {
      assert r[j] == rest[j - 1];
      if i > 0 {
        assert r[i] == rest[i - 1];
      }
    }
  }

  lemma {:induction false} InsertBySorted<T>(x: T, s: seq<T>, key: T -> seq<int>, asc: bool)
    requires SortedBy(s, key, asc)
    ensures SortedBy(InsertBy(x, s, key, asc), key, asc)
  {
    if s == [] || (InOrder(asc, key(x), key(s[0])) && !InOrder(asc, key(s[0]), key(x))) {
      forall z | z in s ensures InOrder(asc, key(x), key(z)) {
        var j :| 0 <= j < |s| && s[j] == z;
        if j > 0 {
          InOrderTransitive(asc, key(x), key(s[0]), key(s[j]));
        }
      }
      ConsSortedBy(x, s, key, asc);
    } else {
      InOrderTotal(asc, key(x), key(s[0]));
      var tail := s[1..];
      var rest := InsertBy(x, tail, key, asc);
      InsertBySorted(x, tail, key, asc);
      forall z | z in rest ensures InOrder(asc, key(s[0]), key(z)) {
        assert z in multiset(rest);
        if z != x {
          assert z in multiset(tail);
          var j :| 0 <= j < |tail| && tail[j] == z;
          assert s[j + 1] == z;
        }
      }
      ConsSortedBy(s[0], rest, key, asc);
    }
  }

  /** Insertion sort on one key, in either direction. */
  function SortBy<T>(s: seq<T>, key: T -> seq<int>, asc: bool): (r: seq<T>)
    ensures |r| == |s|
    ensures multiset(r) == multiset(s)
    ensures SortedBy(r, key, asc)
  {
    if s == [] then []
    else
      assert s == [s[0]] + s[1..];
      var sortedTail := SortBy(s[1..], key, asc);
      InsertBySorted(s[0], sortedTail, key, asc);
      InsertBy(s[0], sortedTail, key, asc)
  }

  /** `LIMIT limit OFFSET offset`: skip `offset` rows, then keep at most `limit`. */
  function Window<T>(s: seq<T>, offset: nat, limit: nat): (r: seq<T>)
    ensures |r| == if offset >= |s| then 0 else if limit < |s| - offset then limit else |s| - offset
    ensures forall i :: 0 <= i < |r| ==> r[i] == s[offset + i]
  {
    if offset >= |s| then [] else Take(s[offset..], limit)
  }

  /** A window of a sorted sequence is sorted and drawn from it. */
  lemma WindowSorted<T>(s: seq<T>, key: T -> seq<int>, asc: bool, offset: nat, limit: nat)
    requires SortedBy(s, key, asc)
    ensures SortedBy(Window(s, offset, limit), key, asc)
    ensures multiset(Window(s, offset, limit)) <= multiset(s)
  {
    var w := Window(s, offset, limit);
    if offset < |s| {
      var hi := offset + |w|;
      assert w == s[offset..hi];
      assert s == s[..offset] + s[offset..hi] + s[hi..];
    }
  }

  /** The rows a window skips sort at or before every row in it, and the rows after it at or
      after every row in it. */
  lemma WindowDominates<T>(s: seq<T>, key: T -> seq<int>, asc: bool, offset: nat, limit: nat)
    requires SortedBy(s, key, asc)
    ensures var w := Window(s, offset, limit);
            && (forall i, j :: 0 <= i < offset && i < |s| && 0 <= j < |w| ==> InOrder(asc, key(s[i]), key(w[j])))
            && (forall i, j :: offset + |w| <= i < |s| && 0 <= j < |w| ==> InOrder(asc, key(w[j]), key(s[i])))
  {
    var w := Window(s, offset, limit);
    forall i, j | 0 <= i < offset && i < |s| && 0 <= j < |w| ensures InOrder(asc, key(s[i]), key(w[j])) {
      assert w[j] == s[offset + j];
    }
    forall i, j | offset + |w| <= i < |s| && 0 <= j < |w| ensures InOrder(asc, key(w[j]), key(s[i])) {
      assert w[j] == s[offset + j];
    }
  }
}
