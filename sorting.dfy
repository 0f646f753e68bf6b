/** `Array.prototype.sort` with a comparator `(a, b) => key(b) - key(a)`: an
    in-place, stable sort into non-increasing order of `key`. Both callers
    (the posterior range and the action list) sort a freshly built array. */
module Sorting {

  predicate SortedDesc<T>(s: seq<T>, key: T -> real)
  {
    forall i, j :: 0 <= i < j < |s| ==> key(s[i]) >= key(s[j])
  }

  /** Puts `x`, which came before every element of `s`, in front of the first
      element whose key does not exceed its own. */
  function Insert<T>(x: T, s: seq<T>, key: T -> real): seq<T>
  {
    if s == [] || key(s[0]) <= key(x) then [x] + s
    else [s[0]] + Insert(x, s[1..], key)
  }

  /** The stable descending order of `s`. */
  function SortDesc<T>(s: seq<T>, key: T -> real): seq<T>
  {
    if s == [] then [] else Insert(s[0], SortDesc(s[1..], key), key)
  }

  /** The elements of `s` whose key is `v`, in their order in `s`. */
  function WithKey<T>(s: seq<T>, key: T -> real, v: real): seq<T>
  {
    if s == [] then []
    else (if key(s[0]) == v then [s[0]] else []) + WithKey(s[1..], key, v)
  }

  lemma {:induction false} InsertPermutes<T>(x: T, s: seq<T>, key: T -> real)
    ensures multiset(Insert(x, s, key)) == multiset{x} + multiset(s)
    ensures |Insert(x, s, key)| == |s| + 1
  {
    if s != [] && key(s[0]) > key(x) {
      InsertPermutes(x, s[1..], key);
      assert s == [s[0]] + s[1..];
    }
  }

  lemma {:induction false} InsertSorted<T>(x: T, s: seq<T>, key: T -> real)
    requires SortedDesc(s, key)
    ensures SortedDesc(Insert(x, s, key), key)
    ensures Insert(x, s, key) != [] && (Insert(x, s, key)[0] == x || Insert(x, s, key)[0] == s[0])
  {
    if s != [] && key(s[0]) > key(x) {
      InsertSorted(x, s[1..], key);
    }
  }

  lemma {:induction false} InsertKeepsTies<T>(x: T, s: seq<T>, key: T -> real, v: real)
    ensures WithKey(Insert(x, s, key), key, v) == (if key(x) == v then [x] else []) + WithKey(s, key, v)
  {
    if s == [] || key(s[0]) <= key(x) {
      WithKeyCons(x, s, key, v);
    } else {
      var rest := Insert(x, s[1..], key);
      WithKeyCons(s[0], rest, key, v);
      InsertKeepsTies(x, s[1..], key, v);
      WithKeyCons(s[0], s[1..], key, v);
      assert [s[0]] + s[1..] == s;
      // `s[0]` has a larger key than `x`, so at most one of the two has key `v`.
      if key(x) == v {
        assert key(s[0]) != v;
      }
    }
  }

  lemma WithKeyCons<T>(y: T, t: seq<T>, key: T -> real, v: real)
    ensures WithKey([y] + t, key, v) == (if key(y) == v then [y] else []) + WithKey(t, key, v)
  {
    assert ([y] + t)[0] == y && ([y] + t)[1..] == t;
  }

  /** The result is a permutation of the input. */
  lemma {:induction false} SortPermutes<T>(s: seq<T>, key: T -> real)
    ensures multiset(SortDesc(s, key)) == multiset(s)
    ensures |SortDesc(s, key)| == |s|
  {
    if s != [] {
      SortPermutes(s[1..], key);
      InsertPermutes(s[0], SortDesc(s[1..], key), key);
      assert s == [s[0]] + s[1..];
    }
  }

  /** The result is in non-increasing order of `key`. */
  lemma {:induction false} SortSorts<T>(s: seq<T>, key: T -> real)
    ensures SortedDesc(SortDesc(s, key), key)
  {
    if s != [] {
      SortSorts(s[1..], key);
      InsertSorted(s[0], SortDesc(s[1..], key), key);
    }
  }

  /** Stability: elements with equal keys keep their relative input order. */
  lemma {:induction false} SortStable<T>(s: seq<T>, key: T -> real, v: real)
    ensures WithKey(SortDesc(s, key), key, v) == WithKey(s, key, v)
  {
    if s != [] {
      SortStable(s[1..], key, v);
      InsertKeepsTies(s[0], SortDesc(s[1..], key), key, v);
    }
  }

  /** `Insert` as the in-place loop computes it: shift the leading run of larger
      keys one place left and drop `x` in the gap. */
  lemma {:induction false} InsertSplits<T>(x: T, s: seq<T>, key: T -> real, m: nat)
    requires m <= |s|
    requires forall k :: 0 <= k < m ==> key(s[k]) > key(x)
    requires m == |s| || key(s[m]) <= key(x)
    ensures Insert(x, s, key) == s[..m] + [x] + s[m..]
  {
    if m > 0 {
      InsertSplits(x, s[1..], key, m - 1);
      assert s[1..][..m - 1] == s[1..m];
      assert s == [s[0]] + s[1..];
    }
  }

  /** Sorts `a` in place, stably, into non-increasing order of `key`: each pass
      inserts one more element into the sorted suffix. */
  method SortInPlace<T>(a: array<T>, key: T -> real)
    modifies a
    ensures a[..] == SortDesc(old(a[..]), key)
  {
    ghost var input := a[..];
    var i := a.Length;
    while i > 0
      invariant 0 <= i <= a.Length
      invariant a[..i] == input[..i]
      invariant a[i..] == SortDesc(input[i..], key)
    {
      i := i - 1;
      assert input[i..] == [input[i]] + input[i + 1..];
      InsertAt(a, i, key);
    }
    assert input[0..] == input;
  }

  /** One pass: moves `a[i]` into the sorted suffix `a[i + 1..]`. */
  method InsertAt<T>(a: array<T>, i: nat, key: T -> real)
    requires i < a.Length
    modifies a
    ensures a[..i] == old(a[..i])
    ensures a[i..] == Insert(old(a[i]), old(a[i + 1..]), key)
  {
    var x := a[i];
    ghost var before := a[..];
    ghost var tail := a[i + 1..];
    var j := ShiftLarger(a, i, x, key);
    forall k | 0 <= k < j - i
      ensures key(tail[k]) > key(x)
    {
      assert a[i + k] == before[i + k + 1] == tail[k];
    }
    a[j] := x;
    InsertSplits(x, tail, key, j - i);
    ShiftedIsSplit(a[..], before, i, j, x);
    assert a[..i] == a[..][..i];
  }

  /** The array after a shift and a drop, read as a sequence: the shifted run,
      then `x`, then the untouched rest. */
  lemma ShiftedIsSplit<T>(after: seq<T>, before: seq<T>, i: nat, j: nat, x: T)
    requires |after| == |before| && i <= j < |after|
    requires forall k :: i <= k < j ==> after[k] == before[k + 1]
    requires after[j] == x
    requires forall k :: j < k < |after| ==> after[k] == before[k]
    ensures after[i..] == before[i + 1..][..j - i] + [x] + before[i + 1..][j - i..]
  {
    var split := before[i + 1..][..j - i] + [x] + before[i + 1..][j - i..];
    forall k | 0 <= k < |split|
      ensures after[i..][k] == split[k]
    {
      if k < j - i {
        assert split[k] == before[i + 1 + k];
      } else if k > j - i {
        assert split[k] == before[i + 1..][k - 1];
      }
    }
  }

  /** Shifts the leading run of `a[i + 1..]` whose keys exceed `key(x)` one
      place left, and returns the gap left behind. */
  method ShiftLarger<T>(a: array<T>, i: nat, x: T, key: T -> real) returns (j: nat)
    requires i < a.Length
    modifies a
    ensures i <= j < a.Length
    ensures forall k :: 0 <= k < i ==> a[k] == old(a[k])
    ensures forall k :: i <= k < j ==> a[k] == old(a[k + 1])
    ensures forall k :: i < k <= j ==> key(old(a[k])) > key(x)
    ensures forall k :: j < k < a.Length ==> a[k] == old(a[k])
    ensures j + 1 == a.Length || key(old(a[j + 1])) <= key(x)
  {
    j := i;
    while j + 1 < a.Length && key(a[j + 1]) > key(x)
      invariant i <= j < a.Length
      invariant forall k :: 0 <= k < i ==> a[k] == old(a[k])
      invariant forall k :: i <= k < j ==> a[k] == old(a[k + 1])
      invariant forall k :: i < k <= j ==> key(old(a[k])) > key(x)
      invariant forall k :: j < k < a.Length ==> a[k] == old(a[k])
    {
      a[j] := a[j + 1];
      j := j + 1;
    }
  }
}
