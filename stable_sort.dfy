/** A stable sort into non-increasing order of an integer key: what
    `Array.prototype.sort` with the comparator `(a, b) => key(b) - key(a)`
    produces, since ECMA-262 (section 23.1.3.30, from ES2019 on) requires
    the sort to be stable. The specification is a functional insertion sort;
    a sorted result with the same per-key order is unique, so any stable
    sort yields it. */
module StableSort {

  predicate SortedDesc<T>(s: seq<T>, key: T -> int) {
    forall i, j :: 0 <= i < j < |s| ==> key(s[i]) >= key(s[j])
  }

  /** The elements of `s` with key `k`, in their order in `s`. */
  function WithKey<T>(s: seq<T>, key: T -> int, k: int): seq<T> {
    if s == [] then []
    else WithKey(s[..|s| - 1], key, k) + (if key(s[|s| - 1]) == k then [s[|s| - 1]] else [])
  }

  /** Put `x` after every element of `s` whose key is at least its own. */
  function Insert<T>(x: T, s: seq<T>, key: T -> int): seq<T> {
    if s == [] || key(s[|s| - 1]) >= key(x) then s + [x]
    else Insert(x, s[..|s| - 1], key) + [s[|s| - 1]]
  }

  function InsertionSort<T>(s: seq<T>, key: T -> int): seq<T> {
    if s == [] then [] else Insert(s[|s| - 1], InsertionSort(s[..|s| - 1], key), key)
  }

  // ---------------------------------------------------------------------
  // Sortedness, permutation and stability of the specification
  // ---------------------------------------------------------------------

  /** Appending an element no larger than any keeps a sequence sorted. */
  lemma SortedAppend<T>(r: seq<T>, y: T, key: T -> int)
    requires SortedDesc(r, key)
    requires forall i :: 0 <= i < |r| ==> key(r[i]) >= key(y)
    ensures SortedDesc(r + [y], key)
  {
  }

  lemma {:induction false} InsertSorted<T>(x: T, s: seq<T>, key: T -> int)
    requires SortedDesc(s, key)
    ensures SortedDesc(Insert(x, s, key), key)
    ensures multiset(Insert(x, s, key)) == multiset(s) + multiset{x}
    ensures |Insert(x, s, key)| == |s| + 1
  {
    if s == [] || key(s[|s| - 1]) >= key(x) {
      SortedAppend(s, x, key);
    } else {
      var init := s[..|s| - 1];
      var last := s[|s| - 1];
      assert s == init + [last];
      InsertSorted(x, init, key);
      var r := Insert(x, init, key);
      forall i | 0 <= i < |r|
        ensures key(r[i]) >= key(last)
      {
        assert r[i] in multiset(r);
        if r[i] != x {
          assert r[i] in multiset(init);
          var j :| 0 <= j < |init| && init[j] == r[i];
          assert init[j] == s[j];
        }
      }
      SortedAppend(r, last, key);
    }
  }

  /** Sorting yields non-increasing keys. */
  lemma {:induction false} SortIsSorted<T>(s: seq<T>, key: T -> int)
    ensures SortedDesc(InsertionSort(s, key), key)
    ensures |InsertionSort(s, key)| == |s|
  {
    if s != [] {
      SortIsSorted(s[..|s| - 1], key);
      InsertSorted(s[|s| - 1], InsertionSort(s[..|s| - 1], key), key);
    }
  }

  /** Sorting is a permutation. */
  lemma {:induction false} SortIsPermutation<T>(s: seq<T>, key: T -> int)
    ensures multiset(InsertionSort(s, key)) == multiset(s)
  {
    if s != [] {
      SortIsPermutation(s[..|s| - 1], key);
      SortIsSorted(s[..|s| - 1], key);
      InsertSorted(s[|s| - 1], InsertionSort(s[..|s| - 1], key), key);
      assert s == s[..|s| - 1] + [s[|s| - 1]];
    }
  }

  lemma {:induction false} WithKeyAppend<T>(s: seq<T>, x: T, key: T -> int, k: int)
    ensures WithKey(s + [x], key, k) == WithKey(s, key, k) + (if key(x) == k then [x] else [])
  {
    assert (s + [x])[..|s|] == s;
  }

  lemma {:induction false} WithKeyInsert<T>(x: T, s: seq<T>, key: T -> int, k: int)
    ensures WithKey(Insert(x, s, key), key, k) == WithKey(s, key, k) + (if key(x) == k then [x] else [])
  {
    if s == [] || key(s[|s| - 1]) >= key(x) {
      WithKeyAppend(s, x, key, k);
    } else {
      var init := s[..|s| - 1];
      var last := s[|s| - 1];
      WithKeyInsert(x, init, key, k);
      WithKeyAppend(Insert(x, init, key), last, key, k);
      assert s == init + [last];
      WithKeyAppend(init, last, key, k);
    }
  }

  /** Elements with equal keys keep their relative order. */
  lemma {:induction false} SortIsStable<T>(s: seq<T>, key: T -> int, k: int)
    ensures WithKey(InsertionSort(s, key), key, k) == WithKey(s, key, k)
  {
    if s != [] {
      SortIsStable(s[..|s| - 1], key, k);
      WithKeyInsert(s[|s| - 1], InsertionSort(s[..|s| - 1], key), key, k);
    }
  }

  /** An input already in order is left as it is, so a sort whose key is
      constant returns the input order. */
  lemma {:induction false} SortOfSorted<T>(s: seq<T>, key: T -> int)
    requires SortedDesc(s, key)
    ensures InsertionSort(s, key) == s
  {
    if s != [] {
      var init := s[..|s| - 1];
      SortOfSorted(init, key);
      assert s == init + [s[|s| - 1]];
    }
  }

  // ---------------------------------------------------------------------
  // Uniqueness
  // ---------------------------------------------------------------------

  lemma {:induction false} WithKeyMembers<T>(s: seq<T>, key: T -> int, k: int, x: T)
    ensures x in WithKey(s, key, k) <==> x in s && key(x) == k
  {
    if s != [] {
      var init := s[..|s| - 1];
      assert s == init + [s[|s| - 1]];
      WithKeyMembers(init, key, k, x);
    }
  }

  /** The last element is among those with its key. */
  lemma LastKept<T>(s: seq<T>, key: T -> int)
    requires s != []
    ensures WithKey(s, key, key(s[|s| - 1])) != []
  {
  }

  /** Two sequences sorted by key, with the same elements in the same order
      under every key, are equal: every stable sort agrees with
      `InsertionSort`. */
  lemma {:induction false} StableSortUnique<T>(a: seq<T>, b: seq<T>, key: T -> int)
    requires SortedDesc(a, key) && SortedDesc(b, key)
    requires forall k :: WithKey(a, key, k) == WithKey(b, key, k)
    ensures a == b
    decreases |a| + |b|
  {
    if a == [] && b == [] {
    } else if a == [] {
      LastKept(b, key);
      assert false;
    } else if b == [] {
      LastKept(a, key);
      assert false;
    } else {
      var a', x := a[..|a| - 1], a[|a| - 1];
      var b', y := b[..|b| - 1], b[|b| - 1];
      assert a == a' + [x] && b == b' + [y];
      // The last elements carry the smallest key of each side, so the keys agree.
      WithKeyMembers(a, key, key(x), x);
      WithKeyMembers(b, key, key(x), x);
      WithKeyMembers(b, key, key(y), y);
      WithKeyMembers(a, key, key(y), y);
      assert key(x) == key(y);
      forall k
        ensures WithKey(a', key, k) == WithKey(b', key, k)
      {
        WithKeyAppend(a', x, key, k);
        WithKeyAppend(b', y, key, k);
        if k == key(x) {
          var wa, wb := WithKey(a', key, k), WithKey(b', key, k);
          assert WithKey(a, key, k) == wa + [x];
          assert WithKey(b, key, k) == wb + [y];
          assert wa + [x] == wb + [y];
          assert wa == (wa + [x])[..|wa|];
          assert wb == (wb + [y])[..|wb|];
        } else {
          assert WithKey(a, key, k) == WithKey(a', key, k);
          assert WithKey(b, key, k) == WithKey(b', key, k);
        }
      }
      WithKeyAppend(a', x, key, key(x));
      WithKeyAppend(b', y, key, key(x));
      assert x == y by {
        var w := WithKey(a, key, key(x));
        assert w[|w| - 1] == x;
      }
      StableSortUnique(a', b', key);
    }
  }

  /** Whatever stable sort the engine runs, its result is `InsertionSort`. */
  lemma {:induction false} EngineSortIsInsertionSort<T>(s: seq<T>, r: seq<T>, key: T -> int)
    requires SortedDesc(r, key)
    requires forall k :: WithKey(r, key, k) == WithKey(s, key, k)
    ensures r == InsertionSort(s, key)
  {
    SortIsSorted(s, key);
    forall k
      ensures WithKey(r, key, k) == WithKey(InsertionSort(s, key), key, k)
    {
      SortIsStable(s, key, k);
    }
    StableSortUnique(r, InsertionSort(s, key), key);
  }

  // ---------------------------------------------------------------------
  // The in-place sort
  // ---------------------------------------------------------------------

  /** Sort `a` in place: insertion sort, each element moved left past every
      element with a smaller key. */
  method SortInPlace<T>(a: array<T>, key: T -> int)
    modifies a
    ensures a[..] == InsertionSort(old(a[..]), key)
  {
    ghost var input := a[..];
    for i := 0 to a.Length
      invariant a[..i] == InsertionSort(input[..i], key)
      invariant a[i..] == input[i..]
    {
      assert input[..i + 1] == input[..i] + [input[i]];
      InsertLast(a, i, key);
    }
    assert a[..a.Length] == a[..];
    assert input[..a.Length] == input;
  }

  /** Move `a[i]` left into the sorted prefix `a[..i]`. */
  method InsertLast<T>(a: array<T>, i: nat, key: T -> int)
    requires i < a.Length
    modifies a
    ensures a[..i + 1] == Insert(old(a[i]), old(a[..i]), key)
    ensures a[i + 1..] == old(a[i + 1..])
  {
    ghost var sorted := a[..i];
    ghost var rest := a[i + 1..];
    var x := a[i];
    var j := i;
    assert sorted[..j] == sorted && sorted[j..] == [];
    assert a[..] == sorted[..j] + [a[j]] + sorted[j..] + rest;
    while j > 0 && key(a[j - 1]) < key(x)
      invariant 0 <= j <= i
      invariant a[..] == sorted[..j] + [a[j]] + sorted[j..] + rest
      invariant Insert(x, sorted, key) == Insert(x, sorted[..j], key) + sorted[j..]
    {
      InsertShift(x, sorted, j, key);
      ShiftStep(a[..], sorted, j, a[j], rest);
      a[j] := a[j - 1];
      j := j - 1;
    }
    InsertStop(x, sorted, j, key);
    a[j] := x;
    assert a[..] == (sorted[..j] + [x] + sorted[j..]) + rest;
  }

  /** The array contents after `a[j] := a[j - 1]` in the shifting loop. */
  lemma ShiftStep<T>(cur: seq<T>, sorted: seq<T>, j: nat, hole: T, rest: seq<T>)
    requires 0 < j <= |sorted|
    requires cur == sorted[..j] + [hole] + sorted[j..] + rest
    ensures cur[j - 1] == sorted[j - 1]
    ensures cur[j := cur[j - 1]] == sorted[..j - 1] + [sorted[j - 1]] + sorted[j - 1..] + rest
  {
    assert sorted[..j] == sorted[..j - 1] + [sorted[j - 1]];
    assert sorted[j - 1..] == [sorted[j - 1]] + sorted[j..];
  }

  /** The shifting loop stops where `x` goes. */
  lemma InsertStop<T>(x: T, s: seq<T>, j: nat, key: T -> int)
    requires j <= |s| && (j == 0 || key(s[j - 1]) >= key(x))
    ensures Insert(x, s[..j], key) == s[..j] + [x]
  {
  }

  /** One step of the shifting loop: an element with a smaller key than `x`
      ends up after it. */
  lemma InsertShift<T>(x: T, s: seq<T>, j: nat, key: T -> int)
    requires 0 < j <= |s| && key(s[j - 1]) < key(x)
    ensures Insert(x, s[..j], key) + s[j..] == Insert(x, s[..j - 1], key) + s[j - 1..]
  {
    assert s[..j][..j - 1] == s[..j - 1];
    assert s[j - 1..] == [s[j - 1]] + s[j..];
  }
}
