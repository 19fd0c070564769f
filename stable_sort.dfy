/**
 * `Array.prototype.sort` with a comparator of the form `(a, b) => key(b) - key(a)`.
 * ECMAScript 2019 (section 22.1.3.27 of ECMA-262, 10th edition) requires the sort to be
 * stable, so the result is ordered by non-increasing key and elements with equal keys keep
 * their input order. Sort is the specification (insertion from the right); SortInPlace is the
 * in-place algorithm, proved to produce exactly Sort's result.
 */
module StableSort {
  import opened Seqs

  /** Non-increasing in `key`. */
  predicate SortedDesc<T>(s: seq<T>, key: T -> real) {
    forall i, j :: 0 <= i < j < |s| ==> key(s[i]) >= key(s[j])
  }

  /** The elements whose key is exactly `k`, in order: the class of `k` under the comparator. */
  function WithKey<T(==)>(s: seq<T>, key: T -> real, k: real): seq<T> {
    Filter(s, x => key(x) == k)
  }

  /**
   * Inserts `x` into `t` from the right: `x` moves left only past elements whose key is
   * strictly smaller, so it ends up after every element with an equal key.
   */
  function Insert<T>(x: T, t: seq<T>, key: T -> real): seq<T>
    decreases |t|
  {
    if t == [] then [x]
    else if key(t[|t| - 1]) < key(x) then Insert(x, t[..|t| - 1], key) + [t[|t| - 1]]
    else t + [x]
  }

  /** Stable insertion sort by non-increasing key. */
  function Sort<T>(s: seq<T>, key: T -> real): seq<T>
    decreases |s|
  {
    if s == [] then [] else Insert(s[|s| - 1], Sort(s[..|s| - 1], key), key)
  }

  lemma {:induction false} InsertPermutes<T>(x: T, t: seq<T>, key: T -> real)
    ensures |Insert(x, t, key)| == |t| + 1
    ensures multiset(Insert(x, t, key)) == multiset(t) + multiset{x}
    decreases |t|
  {
    if t != [] && key(t[|t| - 1]) < key(x) {
      InsertPermutes(x, t[..|t| - 1], key);
      assert t == t[..|t| - 1] + [t[|t| - 1]];
    }
  }

  /** Sort returns a permutation of its input. */
  lemma {:induction false} SortPermutes<T>(s: seq<T>, key: T -> real)
    ensures |Sort(s, key)| == |s|
    ensures multiset(Sort(s, key)) == multiset(s)
    decreases |s|
  {
    if s != [] {
      SortPermutes(s[..|s| - 1], key);
      InsertPermutes(s[|s| - 1], Sort(s[..|s| - 1], key), key);
      assert s == s[..|s| - 1] + [s[|s| - 1]];
    }
  }

  lemma {:induction false} InsertSorted<T>(x: T, t: seq<T>, key: T -> real)
    requires SortedDesc(t, key)
    ensures SortedDesc(Insert(x, t, key), key)
    decreases |t|
  {
    if t != [] && key(t[|t| - 1]) < key(x) {
      var init, last := t[..|t| - 1], t[|t| - 1];
      InsertSorted(x, init, key);
      InsertPermutes(x, init, key);
      var u := Insert(x, init, key);
      forall i | 0 <= i < |u|
        ensures key(u[i]) >= key(last)
      {
        assert u[i] in multiset(init) + multiset{x};
        if u[i] != x {
          var j :| 0 <= j < |init| && init[j] == u[i];
          assert t[j] == init[j];
        }
      }
    }
  }

  /** Sort returns a sequence ordered by non-increasing key. */
  lemma {:induction false} SortSorted<T>(s: seq<T>, key: T -> real)
    ensures SortedDesc(Sort(s, key), key)
    decreases |s|
  {
    if s != [] {
      SortSorted(s[..|s| - 1], key);
      InsertSorted(s[|s| - 1], Sort(s[..|s| - 1], key), key);
    }
  }

  lemma {:induction false} InsertStable<T>(x: T, t: seq<T>, key: T -> real, k: real)
    ensures WithKey(Insert(x, t, key), key, k) == WithKey(t, key, k) + WithKey([x], key, k)
    decreases |t|
  {
    if t == [] {
      assert WithKey(t, key, k) == [];
    } else if key(t[|t| - 1]) < key(x) {
      var init, last := t[..|t| - 1], t[|t| - 1];
      assert t == init + [last];
      calc {
        WithKey(Insert(x, t, key), key, k);
        WithKey(Insert(x, init, key) + [last], key, k);
        { FilterConcat(Insert(x, init, key), [last], y => key(y) == k); }
        WithKey(Insert(x, init, key), key, k) + WithKey([last], key, k);
        { InsertStable(x, init, key, k); }
        WithKey(init, key, k) + WithKey([x], key, k) + WithKey([last], key, k);
        { WithKeySingleton(x, key, k); WithKeySingleton(last, key, k); }
        WithKey(init, key, k) + WithKey([last], key, k) + WithKey([x], key, k);
        { FilterConcat(init, [last], y => key(y) == k); }
        WithKey(t, key, k) + WithKey([x], key, k);
      }
    } else {
      FilterConcat(t, [x], y => key(y) == k);
    }
  }

  lemma WithKeySingleton<T>(x: T, key: T -> real, k: real)
    ensures WithKey([x], key, k) == if key(x) == k then [x] else []
  {
    assert [x][1..] == [];
  }

  /**
   * Sort is stable: for every key value, the elements with that key appear in the output in
   * exactly the order they had in the input.
   */
  lemma {:induction false} SortStable<T>(s: seq<T>, key: T -> real, k: real)
    ensures WithKey(Sort(s, key), key, k) == WithKey(s, key, k)
    decreases |s|
  {
    if s != [] {
      var init, last := s[..|s| - 1], s[|s| - 1];
      SortStable(init, key, k);
      InsertStable(last, Sort(init, key), key, k);
      FilterConcat(init, [last], y => key(y) == k);
      assert s == init + [last];
    }
  }

  /**
   * Where Insert puts `x`: right after position `j - 1`, when every element from `j` on has a
   * strictly smaller key and the element before `j` (if any) does not.
   */
  lemma {:induction false} InsertAt<T>(x: T, t: seq<T>, key: T -> real, j: int)
    requires 0 <= j <= |t|
    requires forall k :: j <= k < |t| ==> key(t[k]) < key(x)
    requires j == 0 || key(t[j - 1]) >= key(x)
    ensures Insert(x, t, key) == t[..j] + [x] + t[j..]
    decreases |t|
  {
    if j < |t| {
      var init := t[..|t| - 1];
      InsertAt(x, init, key, j);
      assert init[..j] == t[..j];
      assert t[j..] == init[j..] + [t[|t| - 1]];
    }
  }

  /** One step of the outer loop of SortInPlace: the prefix grows by one element. */
  lemma SortStep<T>(s: seq<T>, key: T -> real, i: int)
    requires 0 <= i < |s|
    ensures Sort(s[..i + 1], key) == Insert(s[i], Sort(s[..i], key), key)
  {
    assert s[..i + 1][..i] == s[..i];
  }

  /**
   * The inner loop of the in-place sort: `a[..i]` is sorted, and `a[i]` is moved left past the
   * elements with a strictly smaller key, which shift one place right.
   */
  method InsertInPlace<T>(a: array<T>, i: nat, key: T -> real)
    requires i < a.Length
    modifies a
    ensures a[..i + 1] == Insert(old(a[i]), old(a[..i]), key)
    ensures a[i + 1..] == old(a[i + 1..])
  {
    var x := a[i];
    ghost var t := a[..i];
    var j := i;
    while j > 0 && key(a[j - 1]) < key(x)
      invariant 0 <= j <= i
      invariant forall k :: 0 <= k < j ==> a[k] == t[k]
      invariant forall k :: j < k <= i ==> a[k] == t[k - 1]
      invariant forall k :: i < k < a.Length ==> a[k] == old(a[k])
      invariant forall k :: j <= k < i ==> key(t[k]) < key(x)
    {
      a[j] := a[j - 1];
      j := j - 1;
    }
    a[j] := x;
    InsertAt(x, t, key, j);
    assert a[..i + 1] == t[..j] + [x] + t[j..];
  }

  /** Sorts `a` in place by non-increasing key (insertion sort, stable). */
  method SortInPlace<T>(a: array<T>, key: T -> real)
    modifies a
    ensures a[..] == Sort(old(a[..]), key)
  {
    ghost var input := a[..];
    var i := 0;
    while i < a.Length
      invariant 0 <= i <= a.Length
      invariant a[..i] == Sort(input[..i], key)
      invariant a[i..] == input[i..]
    {
      InsertInPlace(a, i, key);
      SortStep(input, key, i);
      i := i + 1;
    }
    assert input[..a.Length] == input;
  }
}
