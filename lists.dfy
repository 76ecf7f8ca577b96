/**
 * Sequence operations shared by the back end and the front end: the first
 * index satisfying a test, keeping the first occurrence of every non-empty
 * name, and a stable sort by an integer key.
 */
module Lists {

  /** The index of the first element that satisfies `p`, or |s| when none does. */
  function FirstWhere<T>(s: seq<T>, p: T -> bool): (k: nat)
    ensures k <= |s|
    ensures forall j | 0 <= j < k :: !p(s[j])
    ensures k < |s| ==> p(s[k])
  {
    if s == [] then 0 else if p(s[0]) then 0 else 1 + FirstWhere(s[1..], p)
  }

  predicate Distinct<T(==)>(s: seq<T>) {
    forall i, j | 0 <= i < j < |s| :: s[i] != s[j]
  }

  /** The position of the first occurrence of `x` in `s`. */
  function IndexOf<T(==)>(s: seq<T>, x: T): (k: nat)
    requires x in s
    ensures k < |s| && s[k] == x
    ensures x !in s[..k]
  {
    if s[0] == x then 0 else 1 + IndexOf(s[1..], x)
  }

  /** The first occurrence of an element of a prefix lies in that prefix. */
  lemma {:induction false} IndexOfInPrefix<T>(s: seq<T>, m: nat, x: T)
    requires m <= |s| && x in s[..m]
    ensures IndexOf(s, x) == IndexOf(s[..m], x)
  {
    var k := IndexOf(s[..m], x);
    assert s[..m][k] == s[k];
  }

  /**
   * Drops empty names and every repeat of a name already kept; what is left
   * is in order of first occurrence.
   */
  function KeepFirst(s: seq<string>): (r: seq<string>)
    ensures |r| <= |s|
    ensures forall i | 0 <= i < |r| :: r[i] != [] && r[i] in s
    ensures forall x | x in s && x != [] :: x in r
    ensures Distinct(r)
  {
    if s == [] then []
    else
      var p := KeepFirst(s[..|s| - 1]);
      var x := s[|s| - 1];
      assert s == s[..|s| - 1] + [x];
      if x == [] || x in p then p else p + [x]
  }

  /** Appending one name keeps it only when it is non-empty and new. */
  lemma KeepFirstSnoc(s: seq<string>, x: string)
    ensures KeepFirst(s + [x]) == if x == [] || x in KeepFirst(s) then KeepFirst(s) else KeepFirst(s) + [x]
  {
    assert (s + [x])[..|s|] == s;
  }

  /** KeepFirst lists the kept names in the order of their first occurrence in `s`. */
  lemma {:induction false} KeepFirstOrder(s: seq<string>)
    ensures forall i, j | 0 <= i < j < |KeepFirst(s)| ::
      IndexOf(s, KeepFirst(s)[i]) < IndexOf(s, KeepFirst(s)[j])
  {
    if s != [] {
      var n := |s| - 1;
      var s' := s[..n];
      KeepFirstOrder(s');
      var p := KeepFirst(s');
      var x := s[n];
      var r := KeepFirst(s);
      forall i, j | 0 <= i < j < |r| ensures IndexOf(s, r[i]) < IndexOf(s, r[j]) {
        assert r[i] == p[i];
        IndexOfInPrefix(s, n, p[i]);
        if j < |p| {
          assert r[j] == p[j];
          IndexOfInPrefix(s, n, p[j]);
        } else {
          assert r[j] == x && x !in p && x != [];
          assert x !in s';
          assert IndexOf(s, x) == n;
        }
      }
    }
  }

  /** A list of distinct non-empty names is left as it is. */
  lemma {:induction false} KeepFirstKeepsDistinct(s: seq<string>)
    requires Distinct(s)
    requires forall i | 0 <= i < |s| :: s[i] != []
    ensures KeepFirst(s) == s
  {
    if s != [] {
      var n := |s| - 1;
      KeepFirstKeepsDistinct(s[..n]);
      assert s[n] !in s[..n];
      assert s[..n] + [s[n]] == s;
    }
  }

  predicate SortedBy<T>(s: seq<T>, key: T -> int) {
    forall i, j | 0 <= i < j < |s| :: key(s[i]) <= key(s[j])
  }

  /** Inserts `x` before the first element whose key is not smaller. */
  function Insert<T(==)>(x: T, s: seq<T>, key: T -> int): (r: seq<T>)
    ensures |r| == |s| + 1
    ensures multiset(r) == multiset(s) + multiset{x}
    ensures forall y | y in r :: y == x || y in s
  {
    if s == [] || key(x) <= key(s[0]) then [x] + s
    else
      assert s == [s[0]] + s[1..];
      [s[0]] + Insert(x, s[1..], key)
  }

  lemma {:induction false} InsertSorted<T>(x: T, s: seq<T>, key: T -> int)
    requires SortedBy(s, key)
    ensures SortedBy(Insert(x, s, key), key)
  {
    if s != [] && key(x) > key(s[0]) {
      var tail := Insert(x, s[1..], key);
      InsertSorted(x, s[1..], key);
      forall j | 0 <= j < |tail| ensures key(s[0]) <= key(tail[j]) {
        if tail[j] != x {
          assert tail[j] in tail;
          var m := IndexOf(s[1..], tail[j]);
          assert s[m + 1] == tail[j];
        }
      }
    }
  }

  /** Insertion sort by `key`; the stable sort of Array.prototype.sort. */
  function SortBy<T(==)>(s: seq<T>, key: T -> int): (r: seq<T>)
    ensures |r| == |s|
    ensures multiset(r) == multiset(s)
    ensures SortedBy(r, key)
  {
    if s == [] then []
    else
      assert s == [s[0]] + s[1..];
      InsertSorted(s[0], SortBy(s[1..], key), key);
      Insert(s[0], SortBy(s[1..], key), key)
  }

  /** Sorting a sorted list changes nothing. */
  lemma {:induction false} SortBySorted<T>(s: seq<T>, key: T -> int)
    requires SortedBy(s, key)
    ensures SortBy(s, key) == s
  {
    if s != [] {
      SortBySorted(s[1..], key);
      assert s == [s[0]] + s[1..];
    }
  }

  /** The elements of `s` whose key is `k`, in order. */
  function WithKey<T>(s: seq<T>, key: T -> int, k: int): (r: seq<T>)
    ensures |r| <= |s|
  {
    if s == [] then []
    else (if key(s[0]) == k then [s[0]] else []) + WithKey(s[1..], key, k)
  }

  /** Filtering a concatenation filters each part. */
  lemma {:induction false} WithKeyAppend<T>(a: seq<T>, b: seq<T>, key: T -> int, k: int)
    ensures WithKey(a + b, key, k) == WithKey(a, key, k) + WithKey(b, key, k)
  {
    if a == [] {
      assert a + b == b;
    } else {
      var head := if key(a[0]) == k then [a[0]] else [];
      assert (a + b)[0] == a[0];
      assert (a + b)[1..] == a[1..] + b;
      assert WithKey(a + b, key, k) == head + WithKey(a[1..] + b, key, k);
      WithKeyAppend(a[1..], b, key, k);
      assert WithKey(a, key, k) == head + WithKey(a[1..], key, k);
    }
  }

  /** The filter keeps exactly the elements with key `k`. */
  lemma {:induction false} WithKeyMember<T>(s: seq<T>, key: T -> int, k: int, x: T)
    ensures x in WithKey(s, key, k) <==> x in s && key(x) == k
  {
    if s != [] {
      WithKeyMember(s[1..], key, k, x);
      assert s == [s[0]] + s[1..];
    }
  }

  /** Filtering around one element that has the key. */
  lemma WithKeySplitAt<T>(s: seq<T>, key: T -> int, k: int, i: nat)
    requires i < |s| && key(s[i]) == k
    ensures WithKey(s, key, k) == WithKey(s[..i], key, k) + [s[i]] + WithKey(s[i + 1..], key, k)
  {
    assert s == s[..i] + s[i..];
    WithKeyAppend(s[..i], s[i..], key, k);
    assert s[i..] == [s[i]] + s[i + 1..];
    assert WithKey(s[i..], key, k) == [s[i]] + WithKey(s[i + 1..], key, k);
  }

  /**
   * In two splittings of one sequence, if `y` is not among the elements
   * before `x`, then `x` comes before `y`.
   */
  lemma EarlierInBoth<T>(a: seq<T>, x: T, b: seq<T>, h: seq<T>, y: T, d: seq<T>)
    requires a + [x] + b == h + [y] + d
    requires y !in a && y != x
    ensures x in h
  {
    var w := a + [x] + b;
    assert w[|h|] == y;
    assert w[..|a| + 1] == a + [x];
    assert |a| < |h|;
    assert w[|a|] == h[|a|];
  }

  lemma {:induction false} InsertStable<T>(x: T, s: seq<T>, key: T -> int, k: int)
    ensures WithKey(Insert(x, s, key), key, k)
         == (if key(x) == k then [x] else []) + WithKey(s, key, k)
  {
    if s == [] || key(x) <= key(s[0]) {
      assert Insert(x, s, key) == [x] + s;
      WithKeyCons(x, s, key, k);
    } else {
      InsertStable(x, s[1..], key, k);
      InsertStableStep(x, s, key, k);
    }
  }

  /** The inductive step of InsertStable, where `x` goes past the head. */
  lemma InsertStableStep<T>(x: T, s: seq<T>, key: T -> int, k: int)
    requires s != [] && key(x) > key(s[0])
    requires WithKey(Insert(x, s[1..], key), key, k) == (if key(x) == k then [x] else []) + WithKey(s[1..], key, k)
    ensures WithKey(Insert(x, s, key), key, k) == (if key(x) == k then [x] else []) + WithKey(s, key, k)
  {
    var hx := if key(x) == k then [x] else [];
    var h0 := if key(s[0]) == k then [s[0]] else [];
    var tail := Insert(x, s[1..], key);
    var rest := WithKey(s[1..], key, k);
    var lhs := WithKey(Insert(x, s, key), key, k);
    assert Insert(x, s, key) == [s[0]] + tail;
    WithKeyCons(s[0], tail, key, k);
    assert lhs == h0 + WithKey(tail, key, k);
    assert WithKey(s, key, k) == h0 + rest;
    if key(s[0]) == k {
      assert hx == [] && hx + rest == rest;
      assert lhs == h0 + rest;
      assert hx + WithKey(s, key, k) == WithKey(s, key, k);
    } else {
      assert h0 == [] && h0 + (hx + rest) == hx + rest && h0 + rest == rest;
      assert lhs == hx + rest;
      assert WithKey(s, key, k) == rest;
    }
  }

  /** Filtering a list with one more element in front. */
  lemma WithKeyCons<T>(y: T, s: seq<T>, key: T -> int, k: int)
    ensures WithKey([y] + s, key, k) == (if key(y) == k then [y] else []) + WithKey(s, key, k)
  {
    assert ([y] + s)[0] == y && ([y] + s)[1..] == s;
  }

  /** SortBy is stable: among equal keys the input order is kept. */
  lemma {:induction false} SortByStable<T>(s: seq<T>, key: T -> int, k: int)
    ensures WithKey(SortBy(s, key), key, k) == WithKey(s, key, k)
  {
    if s != [] {
      SortByStable(s[1..], key, k);
      InsertStable(s[0], SortBy(s[1..], key), key, k);
    }
  }
}
