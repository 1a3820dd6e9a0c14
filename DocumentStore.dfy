/**
 * The document store the services read and write: named collections of
 * schemaless documents. Timestamps are whole milliseconds; a field the
 * document does not have is `None`.
 */
module DocumentStore {
  import opened Wrappers
  import Sorting

  /** The ways a store call, or the code around it, can reject. */
  datatype Error =
    | StoreUnavailable   // the remote call itself failed
    | InvalidQuery       // the query builder refused its arguments
    | NotFound           // an update named a document that does not exist
    | MissingField       // a timestamp the conversion dereferences is absent (a TypeError)

  /** The fields of an announcement, event or task document that the services look at. */
  datatype Doc = Doc(
    id: string,
    channelId: string,
    title: string,
    status: string,
    assignedMembers: seq<string>,
    createdAt: Option<int>,
    updatedAt: Option<int>,
    startDate: Option<int>,
    endDate: Option<int>,
    deadline: Option<int>)

  /** Collection name to its documents, in the store's own order. */
  type Store = map<string, seq<Doc>>

  /** A collection that was never written reads as empty. */
  function Collection(db: Store, name: string): seq<Doc>
  {
    if name in db then db[name] else []
  }

  /** The time of a present timestamp (callers only use it on present ones). */
  function TimeOf(t: Option<int>): int
  {
    if t.Some? then t.value else 0
  }

  /** The elements of `s` that satisfy `p`, in their order. */
  function Where<T(!new)>(s: seq<T>, p: T -> bool): (r: seq<T>)
    ensures forall x :: x in r <==> x in s && p(x)
    ensures |r| <= |s|
  {
    if s == [] then [] else (if p(s[0]) then [s[0]] else []) + Where(s[1..], p)
  }

  /** Filtering keeps every kept element as often as it occurs, and drops the others entirely. */
  lemma {:induction false} WhereCounts<T(!new)>(s: seq<T>, p: T -> bool)
    ensures forall x :: multiset(Where(s, p))[x] == if p(x) then multiset(s)[x] else 0
  {
    if s != [] {
      WhereCounts(s[1..], p);
      assert s == [s[0]] + s[1..];
    }
  }

  /** Filtering never adds an occurrence. */
  lemma WhereSubMultiset<T(!new)>(s: seq<T>, p: T -> bool)
    ensures multiset(Where(s, p)) <= multiset(s)
  {
    WhereCounts(s, p);
  }

  /** Filtering a single element. */
  lemma WhereOne<T(!new)>(x: T, p: T -> bool)
    ensures Where([x], p) == if p(x) then [x] else []
  {
    assert [x][1..] == [];
  }

  /** Filtering distributes over concatenation. */
  lemma {:induction false} WhereAppend<T(!new)>(a: seq<T>, b: seq<T>, p: T -> bool)
    ensures Where(a + b, p) == Where(a, p) + Where(b, p)
  {
    if a == [] {
      assert a + b == b;
    } else {
      var ab := a + b;
      assert ab[0] == a[0] && ab[1..] == a[1..] + b;
      WhereAppend(a[1..], b, p);
    }
  }

  /** The first `n` elements, or all of them when there are fewer (a `limit` or a `slice(0, n)`). */
  function Take<T>(s: seq<T>, n: int): (r: seq<T>)
    ensures r <= s
    ensures |r| == if n <= 0 then 0 else if n < |s| then n else |s|
  {
    if n <= 0 then [] else if n < |s| then s[..n] else s
  }

  /** A prefix holds each element at most as often as the whole. */
  lemma TakeCounts<T>(s: seq<T>, n: int)
    ensures multiset(Take(s, n)) <= multiset(s)
  {
    var top := Take(s, n);
    assert s == top + s[|top|..];
    assert multiset(s) == multiset(top) + multiset(s[|top|..]);
  }

  /**
   * The first `n` of a stable sort (a query's `orderBy` then `limit`):
   * sorted, bounded, drawn from the input, and every input element left out
   * sorts no earlier than anything kept, the result being full.
   */
  lemma TakeSortedFacts<T>(s: seq<T>, key: T -> int, n: int)
    ensures var top := Take(Sorting.SortBy(s, key), n);
            && |top| <= (if n < 0 then 0 else n)
            && Sorting.SortedBy(top, key)
            && (forall x :: x in top ==> x in s)
            && multiset(top) <= multiset(s)
            && (forall x :: x in s && x !in top ==>
                  (n < 0 || |top| == n) && forall k :: 0 <= k < |top| ==> key(top[k]) <= key(x))
  {
    var sorted := Sorting.SortBy(s, key);
    var top := Take(sorted, n);
    TakeCounts(sorted, n);
    forall x | x in top ensures x in s {
      Sorting.SortByMembers(s, key, x);
    }
    forall x | x in s && x !in top
      ensures (n < 0 || |top| == n) && forall k :: 0 <= k < |top| ==> key(top[k]) <= key(x)
    {
      Sorting.SortByMembers(s, key, x);
      var m :| 0 <= m < |sorted| && sorted[m] == x;
      assert m >= |top|;
      forall k | 0 <= k < |top| ensures key(top[k]) <= key(x) {
        assert top[k] == sorted[k];
      }
    }
  }

  /** Each part of a concatenation is a sub-multiset of it. */
  lemma ConcatCounts<T>(a: seq<T>, b: seq<T>)
    ensures multiset(a) <= multiset(a + b) && multiset(b) <= multiset(a + b)
  {
  }

  /** A sequence counted within the first part, or within the second, is counted within the whole. */
  lemma PartCounts<T>(first: seq<T>, rest: seq<T>, part: seq<T>)
    requires part == first || multiset(part) <= multiset(rest)
    ensures multiset(part) <= multiset(first + rest)
  {
    ConcatCounts(first, rest);
  }

  /** A sub-multiset is no larger. */
  lemma SubMultisetSize<T>(a: multiset<T>, b: multiset<T>)
    requires a <= b
    ensures |a| <= |b|
  {
    assert b == a + (b - a);
  }

  /** Filtering a sequence none of whose elements passes. */
  lemma {:induction false} NoneSatisfies<T(!new)>(u: seq<T>, p: T -> bool)
    requires forall k :: 0 <= k < |u| ==> !p(u[k])
    ensures Where(u, p) == []
  {
    if u != [] {
      NoneSatisfies(u[1..], p);
    }
  }

  /**
   * When the input holds `n` elements (counted with repetition) of key at
   * most `c`, the first `n` of the sort are all of key at most `c`: the
   * sort puts every such element before any larger one.
   */
  lemma TopIsNoLaterThan<T(!new)>(s: seq<T>, key: T -> int, n: int, c: int, witnesses: seq<T>)
    requires 0 <= n <= |witnesses|
    requires multiset(witnesses) <= multiset(s)
    requires forall j :: 0 <= j < |witnesses| ==> key(witnesses[j]) <= c
    ensures var top := Take(Sorting.SortBy(s, key), n);
            |top| == n && forall j :: 0 <= j < |top| ==> key(top[j]) <= c
  {
    var p := (y: T) => key(y) <= c;
    var sorted := Sorting.SortBy(s, key);
    WitnessesCounted(s, p, witnesses);
    SameFilterSize(sorted, s, p);
    PassingPrefix(sorted, key, c, p, n);
  }

  /** Elements that pass, counted with repetition, are at most the passing part of `s`. */
  lemma WitnessesCounted<T(!new)>(s: seq<T>, p: T -> bool, witnesses: seq<T>)
    requires multiset(witnesses) <= multiset(s)
    requires forall j :: 0 <= j < |witnesses| ==> p(witnesses[j])
    ensures |witnesses| <= |Where(s, p)|
  {
    WhereCounts(s, p);
    forall x ensures multiset(witnesses)[x] <= multiset(Where(s, p))[x] {
      if x in witnesses {
        var j :| 0 <= j < |witnesses| && witnesses[j] == x;
      }
    }
    SubMultisetSize(multiset(witnesses), multiset(Where(s, p)));
  }

  /** Permutations have equally many passing elements. */
  lemma SameFilterSize<T(!new)>(a: seq<T>, b: seq<T>, p: T -> bool)
    requires multiset(a) == multiset(b)
    ensures |Where(a, p)| == |Where(b, p)|
  {
    WhereCounts(a, p);
    WhereCounts(b, p);
    assert multiset(Where(a, p)) == multiset(Where(b, p));
  }

  /** In a sequence sorted by `key`, the elements of key at most `c` come first. */
  lemma PassingPrefix<T(!new)>(sorted: seq<T>, key: T -> int, c: int, p: T -> bool, n: int)
    requires Sorting.SortedBy(sorted, key)
    requires forall y :: p(y) == (key(y) <= c)
    requires 0 <= n <= |Where(sorted, p)|
    ensures n <= |sorted| && forall j :: 0 <= j < n ==> key(sorted[j]) <= c
  {
    forall j | 0 <= j < n ensures key(sorted[j]) <= c {
      if key(sorted[j]) > c {
        assert sorted == sorted[..j] + sorted[j..];
        NoneSatisfies(sorted[j..], p);
        WhereAppend(sorted[..j], sorted[j..], p);
        assert false;
      }
    }
  }

  /** No element of `u` has key `c` when all of them have keys above it. */
  lemma NoneWithKey<T(!new)>(u: seq<T>, key: T -> int, c: int)
    requires forall k :: 0 <= k < |u| ==> key(u[k]) > c
    ensures Where(u, y => key(y) == c) == []
  {
  }

  /**
   * Filtering a splice `l + [x] + r` where nothing in `r` passes once `x`
   * does: the kept elements of `l + r`, then `x` if it is kept.
   */
  lemma WhereSplice<T(!new)>(l: seq<T>, x: T, r: seq<T>, p: T -> bool)
    requires p(x) ==> Where(r, p) == []
    ensures Where(l + [x] + r, p) == Where(l + r, p) + (if p(x) then [x] else [])
  {
    WhereAppend(l + [x], r, p);
    WhereAppend(l, [x], p);
    WhereAppend(l, r, p);
    WhereOne(x, p);
  }

  /**
   * Inserting `x` into any sequence puts it after every element of its own
   * key: the elements of key `c` are those of `t`, followed by `x` when its
   * key is `c`.
   */
  lemma InsertKeepsKeyOrder<T(!new)>(x: T, t: seq<T>, key: T -> int, c: int)
    ensures Where(Sorting.Insert(x, t, key), y => key(y) == c)
            == Where(t, y => key(y) == c) + (if key(x) == c then [x] else [])
  {
    var p := Sorting.InsertPos(x, t, key);
    Sorting.InsertIsSplice(x, t, key);
    Sorting.InsertPosAfter(x, t, key);
    assert t[..p] + t[p..] == t;
    if key(x) == c {
      NoneWithKey(t[p..], key, c);
    }
    WhereSplice(t[..p], x, t[p..], y => key(y) == c);
  }

  /**
   * The sort is stable: for every key, the elements of that key appear in
   * the output in the order they have in the input.
   */
  lemma {:induction false} SortByStable<T(!new)>(s: seq<T>, key: T -> int, c: int)
    ensures Where(Sorting.SortBy(s, key), y => key(y) == c) == Where(s, y => key(y) == c)
  {
    if s != [] {
      var init := s[..|s| - 1];
      var last := s[|s| - 1];
      var sortedInit := Sorting.SortBy(init, key);
      assert Sorting.SortBy(s, key) == Sorting.Insert(last, sortedInit, key);
      SortByStable(init, key, c);
      InsertKeepsKeyOrder(last, sortedInit, key, c);
      assert s == init + [last];
      WhereAppend(init, [last], y => key(y) == c);
      WhereOne(last, y => key(y) == c);
    }
  }
}
