/** Option and Result, shared by every module. */
module Wrappers {
  datatype Option<+T> = None | Some(value: T)

  /** Success, or the exception that is raised. */
  datatype Result<+T, +E> = Success(value: T) | Failure(error: E) {
    predicate IsFailure() {
      Failure?
    }

    function PropagateFailure<U>(): Result<U, E>
      requires Failure?
    {
      Failure(error)
    }

    function Extract(): T
      requires Success?
    {
      value
    }
  }
}

/** Index lists: searches, filters, sums and the stable sort that Python's list.sort is. */
module Indexes {
  import opened Wrappers

  /** The first element with the given property. */
  function First(s: seq<nat>, f: nat -> bool): (r: Option<nat>)
    ensures r.Some? ==> r.value in s && f(r.value)
    ensures r.None? ==> forall i :: i in s ==> !f(i)
  {
    if s == [] then None
    else if f(s[0]) then Some(s[0])
    else First(s[1..], f)
  }

  /** What a loop that has not found anything before position k knows. */
  lemma {:induction false} FirstSkips(s: seq<nat>, f: nat -> bool, k: nat)
    requires k <= |s| && forall j :: 0 <= j < k ==> !f(s[j])
    ensures First(s, f) == First(s[k..], f)
  {
    if k > 0 {
      FirstSkips(s[1..], f, k - 1);
      assert s[1..][k - 1..] == s[k..];
    }
  }

  function IndexOf(s: seq<nat>, i: nat): (k: nat)
    requires i in s
    ensures k < |s| && s[k] == i
  {
    if s[0] == i then 0 else 1 + IndexOf(s[1..], i)
  }

  /** rotated(sequence, amount) for an amount within the sequence. */
  function Rotated(s: seq<nat>, amount: nat): (r: seq<nat>)
    requires amount <= |s|
    ensures |r| == |s| && forall i :: i in r <==> i in s
  {
    assert s == s[..amount] + s[amount..];
    s[amount..] + s[..amount]
  }

  predicate Distinct(s: seq<nat>) {
    forall j, k :: 0 <= j < k < |s| ==> s[j] != s[k]
  }

  lemma {:induction false} IndexOfAt(s: seq<nat>, k: nat)
    requires Distinct(s) && k < |s|
    ensures IndexOf(s, s[k]) == k
  {
    if k > 0 {
      IndexOfAt(s[1..], k - 1);
    }
  }

  function Filter(s: seq<nat>, keep: nat -> bool): (r: seq<nat>)
    ensures forall i :: i in r <==> i in s && keep(i)
  {
    if s == [] then []
    else (if keep(s[0]) then [s[0]] else []) + Filter(s[1..], keep)
  }

  lemma {:induction false} FilterDistinct(s: seq<nat>, keep: nat -> bool)
    requires Distinct(s)
    ensures Distinct(Filter(s, keep))
  {
    if s != [] {
      FilterDistinct(s[1..], keep);
      assert s[0] !in s[1..];
    }
  }

  lemma {:induction false} FilterNone(s: seq<nat>, keep: nat -> bool)
    requires forall i :: i in s ==> !keep(i)
    ensures Filter(s, keep) == []
  {
    if s != [] {
      FilterNone(s[1..], keep);
    }
  }

  lemma {:induction false} FilterAppend(s: seq<nat>, r: seq<nat>, keep: nat -> bool)
    ensures Filter(s + r, keep) == Filter(s, keep) + Filter(r, keep)
  {
    if s == [] {
      assert s + r == r;
    } else {
      assert (s + r)[1..] == s[1..] + r;
      FilterAppend(s[1..], r, keep);
    }
  }

  lemma {:induction false} SameFilter(s: seq<nat>, f: nat -> bool, g: nat -> bool)
    requires forall i :: i in s ==> f(i) == g(i)
    ensures Filter(s, f) == Filter(s, g)
  {
    if s != [] {
      SameFilter(s[1..], f, g);
    }
  }

  function Min(a: int, b: int): int {
    if a <= b then a else b
  }

  function SumOf(s: seq<nat>, f: nat -> int): int {
    if s == [] then 0 else f(s[0]) + SumOf(s[1..], f)
  }

  lemma {:induction false} SumOfAppend(s: seq<nat>, r: seq<nat>, f: nat -> int)
    ensures SumOf(s + r, f) == SumOf(s, f) + SumOf(r, f)
  {
    if s == [] {
      assert s + r == r;
    } else {
      assert (s + r)[1..] == s[1..] + r;
      SumOfAppend(s[1..], r, f);
    }
  }

  lemma {:induction false} SumOfSnoc(s: seq<nat>, i: nat, f: nat -> int)
    ensures SumOf(s + [i], f) == SumOf(s, f) + f(i)
  {
    SumOfAppend(s, [i], f);
  }

  lemma Without(s: seq<nat>, k: nat)
    requires Distinct(s) && k < |s|
    ensures Distinct(s[..k] + s[k + 1..])
    ensures forall i :: i in s[..k] + s[k + 1..] <==> i in s && i != s[k]
  {
    var rest := s[..k] + s[k + 1..];
    forall i | i in s && i != s[k] ensures i in rest {
      var j :| 0 <= j < |s| && s[j] == i;
      assert if j < k then rest[j] == i else rest[j - 1] == i;
    }
  }

  /** A sum over distinct indexes does not depend on their order. */
  lemma {:induction false} SumOfPermuted(s: seq<nat>, r: seq<nat>, f: nat -> int)
    requires Distinct(s) && Distinct(r)
    requires forall i :: i in s <==> i in r
    ensures SumOf(s, f) == SumOf(r, f)
    decreases |s|
  {
    if s == [] {
      assert forall k :: 0 <= k < |r| ==> r[k] in r;
    } else {
      assert s[0] in r;
      var k :| 0 <= k < |r| && r[k] == s[0];
      var rest := r[..k] + r[k + 1..];
      assert r == r[..k] + ([r[k]] + r[k + 1..]);
      SumOfAppend(r[..k], [r[k]] + r[k + 1..], f);
      SumOfAppend(r[..k], r[k + 1..], f);
      Without(r, k);
      forall i ensures i in s[1..] <==> i in rest {
        assert i in s[1..] <==> i in s && i != s[0] by {
          Without(s, 0);
          assert s[..0] + s[0 + 1..] == s[1..];
        }
      }
      SumOfPermuted(s[1..], rest, f);
    }
  }

  lemma {:induction false} SumOfSame(s: seq<nat>, f: nat -> int, g: nat -> int)
    requires forall i :: i in s ==> f(i) == g(i)
    ensures SumOf(s, f) == SumOf(s, g)
  {
    if s != [] {
      SumOfSame(s[1..], f, g);
    }
  }

  /** 0 up to, but not including, n. */
  function Below(n: nat): (r: seq<nat>)
    ensures |r| == n && forall k :: 0 <= k < n ==> r[k] == k
  {
    seq(n, (k: nat) => k)
  }

  lemma {:induction false} SumOfFiltered(s: seq<nat>, keep: nat -> bool, f: nat -> int)
    requires forall i :: i in s && !keep(i) ==> f(i) == 0
    ensures SumOf(Filter(s, keep), f) == SumOf(s, f)
  {
    if s != [] {
      SumOfFiltered(s[1..], keep, f);
      SumOfAppend(if keep(s[0]) then [s[0]] else [], Filter(s[1..], keep), f);
    }
  }

  predicate SortedBy(s: seq<nat>, key: nat -> int) {
    forall j, k :: 0 <= j < k < |s| ==> key(s[j]) <= key(s[k])
  }

  function Insert(i: nat, s: seq<nat>, key: nat -> int): (r: seq<nat>)
    ensures |r| == |s| + 1
  {
    if s == [] || key(i) <= key(s[0]) then [i] + s
    else [s[0]] + Insert(i, s[1..], key)
  }

  /** Stable sort by ascending key. */
  function SortBy(s: seq<nat>, key: nat -> int): (r: seq<nat>)
    ensures |r| == |s|
  {
    if s == [] then [] else Insert(s[0], SortBy(s[1..], key), key)
  }

  lemma {:induction false} InsertPermutes(i: nat, s: seq<nat>, key: nat -> int)
    ensures multiset(Insert(i, s, key)) == multiset(s) + multiset{i}
    ensures forall j :: j in Insert(i, s, key) <==> j == i || j in s
  {
    if s != [] && key(i) > key(s[0]) {
      InsertPermutes(i, s[1..], key);
      assert s == [s[0]] + s[1..];
    }
  }

  lemma {:induction false} SortByPermutes(s: seq<nat>, key: nat -> int)
    ensures multiset(SortBy(s, key)) == multiset(s)
    ensures forall j :: j in SortBy(s, key) <==> j in s
  {
    if s != [] {
      SortByPermutes(s[1..], key);
      InsertPermutes(s[0], SortBy(s[1..], key), key);
      assert s == [s[0]] + s[1..];
    }
  }

  lemma {:induction false} InsertSorted(i: nat, s: seq<nat>, key: nat -> int)
    requires SortedBy(s, key)
    ensures SortedBy(Insert(i, s, key), key)
  {
    if s != [] && key(i) > key(s[0]) {
      InsertSorted(i, s[1..], key);
      InsertPermutes(i, s[1..], key);
      var r := Insert(i, s[1..], key);
      forall k | 0 <= k < |r| ensures key(s[0]) <= key(r[k]) {
        assert r[k] in r;
      }
    }
  }

  lemma {:induction false} SortBySorted(s: seq<nat>, key: nat -> int)
    ensures SortedBy(SortBy(s, key), key)
  {
    if s != [] {
      SortBySorted(s[1..], key);
      InsertSorted(s[0], SortBy(s[1..], key), key);
    }
  }

  lemma {:induction false} SortByDistinct(s: seq<nat>, key: nat -> int)
    requires Distinct(s)
    ensures Distinct(SortBy(s, key))
  {
    SortByPermutes(s, key);
    var r := SortBy(s, key);
    forall j, k | 0 <= j < k < |r| ensures r[j] != r[k] {
      OnceEach(s, r[j]);
      if r[j] == r[k] {
        TwiceAtLeast(r, j, k);
      }
    }
  }

  lemma {:induction false} OnceEach(s: seq<nat>, i: nat)
    requires Distinct(s)
    ensures multiset(s)[i] <= 1
  {
    if s != [] {
      assert s == [s[0]] + s[1..];
      assert s[0] !in s[1..];
      OnceEach(s[1..], i);
    }
  }

  lemma TwiceAtLeast(s: seq<nat>, j: nat, k: nat)
    requires j < k < |s| && s[j] == s[k]
    ensures multiset(s)[s[j]] >= 2
  {
    assert s == s[..j] + [s[j]] + s[j + 1..k] + [s[k]] + s[k + 1..];
  }

  /** Sorted by key, and by minor among equal keys. */
  predicate SortedByBoth(s: seq<nat>, key: nat -> int, minor: nat -> int) {
    forall j, k :: 0 <= j < k < |s| ==>
      key(s[j]) < key(s[k]) || (key(s[j]) == key(s[k]) && minor(s[j]) <= minor(s[k]))
  }

  lemma {:induction false} InsertStable(i: nat, s: seq<nat>, key: nat -> int, minor: nat -> int)
    requires SortedByBoth(s, key, minor)
    requires forall j :: j in s ==> minor(i) <= minor(j)
    ensures SortedByBoth(Insert(i, s, key), key, minor)
  {
    if s != [] && key(i) > key(s[0]) {
      InsertStable(i, s[1..], key, minor);
      InsertPermutes(i, s[1..], key);
      var r := Insert(i, s[1..], key);
      forall k | 0 <= k < |r|
        ensures key(s[0]) < key(r[k]) || (key(s[0]) == key(r[k]) && minor(s[0]) <= minor(r[k]))
      {
        assert r[k] in r;
      }
    }
  }

  /** Sorting by minor and then, stably, by key sorts by the pair. */
  lemma {:induction false} SortByStable(s: seq<nat>, key: nat -> int, minor: nat -> int)
    requires SortedBy(s, minor)
    ensures SortedByBoth(SortBy(s, key), key, minor)
  {
    if s != [] {
      SortByStable(s[1..], key, minor);
      SortByPermutes(s[1..], key);
      InsertStable(s[0], SortBy(s[1..], key), key, minor);
    }
  }
}
