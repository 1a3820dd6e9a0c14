/**
 * A stable sort by an integer key, as a function on sequences and as an
 * in-place insertion sort on an array. Both the store's `orderBy` and the
 * client's `Array.prototype.sort` (which is stable) are modelled by it.
 */
module Sorting {

  /** `s` is in ascending order of `key`. */
  ghost predicate SortedBy<T>(s: seq<T>, key: T -> int)
  {
    forall i, j :: 0 <= i < j < |s| ==> key(s[i]) <= key(s[j])
  }

  /** Inserts `x` into `s` after every element whose key is at most `key(x)`, scanning from the back. */
  function Insert<T>(x: T, s: seq<T>, key: T -> int): seq<T>
  {
    if s == [] || key(s[|s| - 1]) <= key(x) then s + [x]
    else Insert(x, s[..|s| - 1], key) + [s[|s| - 1]]
  }

  /**
   * Stable ascending sort: a permutation of the input in ascending key order
   * (equal keys keep their input order, see `DocumentStore.SortByStable`).
   */
  function SortBy<T>(s: seq<T>, key: T -> int): (r: seq<T>)
    ensures SortedBy(r, key)
    ensures multiset(r) == multiset(s)
    ensures |r| == |s|
  {
    if s == [] then []
    else
      var init := s[..|s| - 1];
      var sorted := SortBy(init, key);
      InsertSorted(s[|s| - 1], sorted, key);
      InsertPermutes(s[|s| - 1], sorted, key);
      assert s == init + [s[|s| - 1]];
      Insert(s[|s| - 1], sorted, key)
  }

  lemma {:induction false} InsertPermutes<T>(x: T, s: seq<T>, key: T -> int)
    ensures multiset(Insert(x, s, key)) == multiset(s) + multiset{x}
    ensures |Insert(x, s, key)| == |s| + 1
  {
    if s == [] || key(s[|s| - 1]) <= key(x) {
    } else {
      var init := s[..|s| - 1];
      InsertPermutes(x, init, key);
      assert s == init + [s[|s| - 1]];
    }
  }

  lemma {:induction false} InsertSorted<T>(x: T, s: seq<T>, key: T -> int)
    requires SortedBy(s, key)
    ensures SortedBy(Insert(x, s, key), key)
  {
    if s == [] || key(s[|s| - 1]) <= key(x) {
    } else {
      var init := s[..|s| - 1];
      var last := s[|s| - 1];
      InsertSorted(x, init, key);
      InsertBelow(x, init, last, key);
      AppendSorted(Insert(x, init, key), last, key);
    }
  }

  /** Every key of `Insert(x, init)` is at most that of a `last` that bounds `x` and `init`. */
  lemma InsertBelow<T>(x: T, init: seq<T>, last: T, key: T -> int)
    requires key(x) < key(last)
    requires forall k :: 0 <= k < |init| ==> key(init[k]) <= key(last)
    ensures forall y :: y in Insert(x, init, key) ==> key(y) <= key(last)
  {
    InsertPermutes(x, init, key);
    var r := Insert(x, init, key);
    forall y | y in r ensures key(y) <= key(last) {
      assert y in multiset(r);
      if y != x {
        assert y in multiset(init);
        var k :| 0 <= k < |init| && init[k] == y;
      }
    }
  }

  lemma AppendSorted<T>(r: seq<T>, last: T, key: T -> int)
    requires SortedBy(r, key)
    requires forall y :: y in r ==> key(y) <= key(last)
    ensures SortedBy(r + [last], key)
  {
    forall i, j | 0 <= i < j < |r| + 1 ensures key((r + [last])[i]) <= key((r + [last])[j]) {
      if j == |r| {
        assert r[i] in r;
      }
    }
  }

  /** Every element of the input is found in the sorted output, and only those. */
  lemma SortByMembers<T>(s: seq<T>, key: T -> int, x: T)
    ensures x in SortBy(s, key) <==> x in s
  {
    assert x in SortBy(s, key) <==> x in multiset(SortBy(s, key));
    assert x in s <==> x in multiset(s);
  }

  /** Where `Insert` places `x`: after the last element whose key is at most `key(x)`. */
  function InsertPos<T>(x: T, s: seq<T>, key: T -> int): (p: nat)
    ensures p <= |s|
  {
    if s == [] || key(s[|s| - 1]) <= key(x) then |s| else InsertPos(x, s[..|s| - 1], key)
  }

  /** Only larger keys follow the insertion point. */
  lemma {:induction false} InsertPosAfter<T>(x: T, s: seq<T>, key: T -> int)
    ensures forall k :: InsertPos(x, s, key) <= k < |s| ==> key(s[k]) > key(x)
  {
    if s != [] && key(s[|s| - 1]) > key(x) {
      var init := s[..|s| - 1];
      InsertPosAfter(x, init, key);
      assert forall k :: 0 <= k < |init| ==> init[k] == s[k];
    }
  }

  /** `Insert` splices `x` in at `InsertPos`. */
  lemma {:induction false} InsertIsSplice<T>(x: T, s: seq<T>, key: T -> int)
    ensures Insert(x, s, key) == s[..InsertPos(x, s, key)] + [x] + s[InsertPos(x, s, key)..]
  {
    if s == [] || key(s[|s| - 1]) <= key(x) {
    } else {
      var init := s[..|s| - 1];
      InsertIsSplice(x, init, key);
      var p := InsertPos(x, init, key);
      assert init[..p] == s[..p];
      assert init[p..] + [s[|s| - 1]] == s[p..];
    }
  }

  /**
   * A position `j` with only larger keys after it and a key at most `key(x)`
   * just before it is where `Insert` places `x`.
   */
  lemma {:induction false} InsertPosAt<T>(x: T, s: seq<T>, j: nat, key: T -> int)
    requires j <= |s|
    requires forall k :: j <= k < |s| ==> key(s[k]) > key(x)
    requires j == 0 || key(s[j - 1]) <= key(x)
    ensures InsertPos(x, s, key) == j
  {
    if j < |s| {
      var init := s[..|s| - 1];
      assert key(s[|s| - 1]) > key(x);
      assert j == 0 || init[j - 1] == s[j - 1];
      InsertPosAt(x, init, j, key);
    }
  }

  /**
   * Moves `a[i]` down past the larger keys of the sorted prefix `a[..i]`:
   * the inner loop of the insertion sort.
   */
  method InsertAt<T>(a: array<T>, i: nat, key: T -> int, ghost sorted: seq<T>)
    requires i < a.Length
    requires a[..i] == sorted
    modifies a
    ensures a[..i + 1] == Insert(old(a[i]), sorted, key)
    ensures a[i + 1..] == old(a[i + 1..])
  {
    var x := a[i];
    var j := i;
    while j > 0 && key(a[j - 1]) > key(x)
      invariant 0 <= j <= i
      invariant forall k :: 0 <= k < j ==> a[k] == sorted[k]
      invariant forall k :: j < k <= i ==> a[k] == sorted[k - 1]
      invariant forall k :: i < k < a.Length ==> a[k] == old(a[k])
      invariant forall k :: j <= k < i ==> key(sorted[k]) > key(x)
    {
      a[j] := a[j - 1];
      j := j - 1;
    }
    a[j] := x;
    InsertPosAt(x, sorted, j, key);
    InsertIsSplice(x, sorted, key);
    Shifted(a[..i + 1], sorted, x, j);
  }

  /** The array prefix after the insertion: the sorted part with `x` placed at `j`. */
  lemma Shifted<T>(r: seq<T>, sorted: seq<T>, x: T, j: nat)
    requires j < |r| && |sorted| == |r| - 1
    requires forall k :: 0 <= k < j ==> r[k] == sorted[k]
    requires r[j] == x
    requires forall k :: j < k < |r| ==> r[k] == sorted[k - 1]
    ensures r == sorted[..j] + [x] + sorted[j..]
  {
  }

  /** Sorting one more element of the input inserts it into the sorted prefix. */
  lemma SortByStep<T>(input: seq<T>, i: nat, key: T -> int)
    requires i < |input|
    ensures SortBy(input[..i + 1], key) == Insert(input[i], SortBy(input[..i], key), key)
  {
    assert input[..i + 1][..i] == input[..i];
  }

  /** One insertion step: the sorted prefix grows by the next input element. */
  lemma SortedPrefixGrows<T>(input: seq<T>, i: nat, key: T -> int, before: seq<T>, after: seq<T>)
    requires i < |input| && |before| == |input| == |after|
    requires before == SortBy(input[..i], key) + input[i..]
    requires after[..i + 1] == Insert(before[i], before[..i], key)
    requires after[i + 1..] == before[i + 1..]
    ensures after == SortBy(input[..i + 1], key) + input[i + 1..]
  {
    var prefix := SortBy(input[..i], key);
    assert before[..i] == prefix;
    assert before[i] == input[i];
    assert before[i + 1..] == input[i + 1..];
    SortByStep(input, i, key);
    assert after == after[..i + 1] + after[i + 1..];
  }

  /** In-place stable insertion sort; the array ends as `SortBy` of its old contents. */
  method SortInPlace<T>(a: array<T>, key: T -> int)
    modifies a
    ensures a[..] == SortBy(old(a[..]), key)
  {
    ghost var input := a[..];
    var i := 0;
    while i < a.Length
      invariant 0 <= i <= a.Length
      invariant a[..] == SortBy(input[..i], key) + input[i..]
    {
      ghost var before := a[..];
      InsertAt(a, i, key, before[..i]);
      SortedPrefixGrows(input, i, key, before, a[..]);
      i := i + 1;
    }
    assert input[..a.Length] == input;
  }
}
