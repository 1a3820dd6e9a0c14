/**
 * The feed service of the mobile client: the merged announcement/event/task
 * feed with its single-slot cache, the calendar's event-range query with its
 * keyed cache, the per-user task query, and the create/update/delete paths.
 *
 * The queries are pure functions of the store; the module-level caches and
 * the store are the fields of `FeedState`, whose methods change them.
 */
module FeedService {
  import opened Wrappers
  import opened DocumentStore
  import Sorting

  /** The three kinds of feed item; a kind's collection is its name plus "s". */
  datatype Kind = Announcement | Event | Task

  function KindName(k: Kind): string
  {
    match k
    case Announcement => "announcement"
    case Event => "event"
    case Task => "task"
  }

  function CollectionOf(k: Kind): string
  {
    KindName(k) + "s"
  }

  /** The collections a feed fetch queries: the one of `itemType`, or all three in this order. */
  function CollectionsFor(itemType: Option<Kind>): (names: seq<string>)
    ensures forall name :: name in names ==> exists k :: name == CollectionOf(k)
    ensures forall k :: CollectionOf(k) in names <==> itemType.None? || itemType == Some(k)
  {
    match itemType
    case Some(k) => [CollectionOf(k)]
    case None => [CollectionOf(Announcement), CollectionOf(Event), CollectionOf(Task)]
  }

  /** A fetched document together with the id of the collection it came from. */
  datatype Snapshot = Snapshot(parent: string, doc: Doc)

  /** A feed item: its `type` field (`typeTag`) and the document's fields. */
  datatype FeedItem = FeedItem(typeTag: string, doc: Doc)

  /** A collection id without its final character (`slice(0, -1)`). */
  function DropLast(name: string): string
  {
    if |name| == 0 then "" else name[..|name| - 1]
  }

  // ---------------------------------------------------------------------
  // The merged feed
  // ---------------------------------------------------------------------

  /** Sort keys: ascending order of these is newest-first by `createdAt`. */
  function NewestDoc(d: Doc): int { -TimeOf(d.createdAt) }
  function Newest(s: Snapshot): int { -TimeOf(s.doc.createdAt) }

  predicate InChannels(d: Doc, channelIds: seq<string>)
  {
    d.channelId in channelIds && d.createdAt.Some?
  }

  /**
   * One collection's query: `channelId` in the list, newest first, at most
   * `pageSize` documents. Ordering by `createdAt` drops documents without it.
   */
  function RecentInCollection(db: Store, name: string, channelIds: seq<string>, pageSize: int): (r: seq<Doc>)
    ensures |r| <= (if pageSize < 0 then 0 else pageSize)
    ensures forall d :: d in r ==> d in Collection(db, name) && d.channelId in channelIds && d.createdAt.Some?
    ensures Sorting.SortedBy(r, NewestDoc)
    ensures forall d :: d in Collection(db, name) && InChannels(d, channelIds) && d !in r ==>
              && (pageSize < 0 || |r| == pageSize)
              && forall k :: 0 <= k < |r| ==> NewestDoc(r[k]) <= NewestDoc(d)
  {
    var matching := Where(Collection(db, name), d => InChannels(d, channelIds));
    TakeSortedFacts(matching, NewestDoc, pageSize);
    Take(Sorting.SortBy(matching, NewestDoc), pageSize)
  }

  /** A collection's query returns no document more often than the collection holds it. */
  lemma RecentCounts(db: Store, name: string, channelIds: seq<string>, pageSize: int)
    ensures multiset(RecentInCollection(db, name, channelIds, pageSize)) <= multiset(Collection(db, name))
  {
    var matching := Where(Collection(db, name), d => InChannels(d, channelIds));
    TakeCounts(Sorting.SortBy(matching, NewestDoc), pageSize);
    WhereSubMultiset(Collection(db, name), d => InChannels(d, channelIds));
  }

  function AsSnapshots(name: string, docs: seq<Doc>): (r: seq<Snapshot>)
    ensures |r| == |docs|
    ensures forall i :: 0 <= i < |docs| ==> r[i] == Snapshot(name, docs[i])
    ensures forall s :: s in r ==> s.parent == name && s.doc in docs
    ensures forall d :: Snapshot(name, d) in r <==> d in docs
  {
    if docs == [] then [] else [Snapshot(name, docs[0])] + AsSnapshots(name, docs[1..])
  }

  /** Every collection's query results, concatenated in collection order (the `flatMap`). */
  function Fetched(db: Store, names: seq<string>, channelIds: seq<string>, pageSize: int): (r: seq<Snapshot>)
    ensures forall s :: s in r ==> s.parent in names && s.doc in RecentInCollection(db, s.parent, channelIds, pageSize)
    ensures forall i, d :: 0 <= i < |names| && d in RecentInCollection(db, names[i], channelIds, pageSize) ==>
      Snapshot(names[i], d) in r
  {
    if names == [] then []
    else
      var first := AsSnapshots(names[0], RecentInCollection(db, names[0], channelIds, pageSize));
      var rest := Fetched(db, names[1..], channelIds, pageSize);
      assert forall i :: 0 < i < |names| ==> names[i] == names[1..][i - 1];
      first + rest
  }

  /** The fetched snapshots, sorted newest first (stably), cut to `pageSize`. */
  function Page(db: Store, channelIds: seq<string>, itemType: Option<Kind>, pageSize: int): (page: seq<Snapshot>)
    ensures var fetched := Fetched(db, CollectionsFor(itemType), channelIds, pageSize);
            && |page| <= (if pageSize < 0 then 0 else pageSize)
            && Sorting.SortedBy(page, Newest)
            && (forall s :: s in page ==> s in fetched)
            && (forall s :: s in fetched && s !in page ==>
                  (pageSize < 0 || |page| == pageSize) && forall k :: 0 <= k < |page| ==> Newest(page[k]) <= Newest(s))
  {
    var fetched := Fetched(db, CollectionsFor(itemType), channelIds, pageSize);
    TakeSortedFacts(fetched, Newest, pageSize);
    Take(Sorting.SortBy(fetched, Newest), pageSize)
  }

  /** The page repeats no snapshot more often than the merge holds it. */
  lemma PageCounts(db: Store, channelIds: seq<string>, itemType: Option<Kind>, pageSize: int)
    ensures multiset(Page(db, channelIds, itemType, pageSize))
            <= multiset(Fetched(db, CollectionsFor(itemType), channelIds, pageSize))
  {
    TakeSortedFacts(Fetched(db, CollectionsFor(itemType), channelIds, pageSize), Newest, pageSize);
  }

  /**
   * Converting one snapshot: the `type` tag is the collection id minus its
   * last character; `updatedAt` (and an event's dates, a task's deadline) are
   * dereferenced, so a missing one rejects.
   */
  function ToFeedItem(s: Snapshot): (r: Result<FeedItem, Error>)
    ensures r.Ok? ==> r.value.typeTag == DropLast(s.parent) && r.value.doc == s.doc
    ensures r.Ok? <==> s.doc.createdAt.Some? && s.doc.updatedAt.Some?
                       && (DropLast(s.parent) == "event" ==> s.doc.startDate.Some? && s.doc.endDate.Some?)
                       && (DropLast(s.parent) == "task" ==> s.doc.deadline.Some?)
  {
    var tag := DropLast(s.parent);
    if s.doc.createdAt.None? || s.doc.updatedAt.None? then Err(MissingField)
    else if tag == "event" && (s.doc.startDate.None? || s.doc.endDate.None?) then Err(MissingField)
    else if tag == "task" && s.doc.deadline.None? then Err(MissingField)
    else Ok(FeedItem(tag, s.doc))
  }

  /** The `map` over the page: it rejects at the first snapshot that fails to convert. */
  function ConvertPage(page: seq<Snapshot>): (r: Result<seq<FeedItem>, Error>)
    ensures r.Ok? <==> forall k :: 0 <= k < |page| ==> ToFeedItem(page[k]).Ok?
    ensures r.Ok? ==> |r.value| == |page| && forall k :: 0 <= k < |page| ==> r.value[k] == ToFeedItem(page[k]).value
    ensures r.Err? ==> r.error == MissingField
  {
    if page == [] then Ok([])
    else
      match ToFeedItem(page[0])
      case Err(e) => Err(e)
      case Ok(item) =>
        match ConvertPage(page[1..])
        case Err(e) => Err(e)
        case Ok(items) => Ok([item] + items)
  }

  /**
   * A feed fetch that bypasses the cache: build the queries (the `in` filter
   * needs a non-empty list and `limit` a positive count), read, merge, sort,
   * cut and convert.
   */
  function FetchFeed(db: Store, channelIds: seq<string>, itemType: Option<Kind>, pageSize: int, storeUp: bool)
    : (r: Result<seq<FeedItem>, Error>)
    ensures r == Err(InvalidQuery) <==> |channelIds| == 0 || pageSize <= 0
    ensures r.Ok? ==>
              var page := Page(db, channelIds, itemType, pageSize);
              && |r.value| == |page|
              && forall k :: 0 <= k < |page| ==> r.value[k] == FeedItem(DropLast(page[k].parent), page[k].doc)
  {
    if |channelIds| == 0 || pageSize <= 0 then Err(InvalidQuery)
    else if !storeUp then Err(StoreUnavailable)
    else ConvertPage(Page(db, channelIds, itemType, pageSize))
  }

  /** A well-formed fetch from a reachable store converts the sorted, truncated merge. */
  lemma FetchFeedComputed(db: Store, channelIds: seq<string>, itemType: Option<Kind>, pageSize: int)
    requires |channelIds| > 0 && pageSize > 0
    ensures FetchFeed(db, channelIds, itemType, pageSize, true)
            == ConvertPage(Take(Sorting.SortBy(Fetched(db, CollectionsFor(itemType), channelIds, pageSize), Newest), pageSize))
  {
  }

  /** A feed fetch returns at most `pageSize` items, newest first. */
  lemma FeedBoundedAndOrdered(db: Store, channelIds: seq<string>, itemType: Option<Kind>, pageSize: int, storeUp: bool)
    ensures var r := FetchFeed(db, channelIds, itemType, pageSize, storeUp);
            r.Ok? ==>
              && |r.value| <= pageSize
              && forall i, j :: 0 <= i < j < |r.value| ==>
                   TimeOf(r.value[j].doc.createdAt) <= TimeOf(r.value[i].doc.createdAt)
  {
    var r := FetchFeed(db, channelIds, itemType, pageSize, storeUp);
    if r.Ok? {
      var page := Page(db, channelIds, itemType, pageSize);
      forall i, j | 0 <= i < j < |r.value|
        ensures TimeOf(r.value[j].doc.createdAt) <= TimeOf(r.value[i].doc.createdAt)
      {
        assert Newest(page[i]) <= Newest(page[j]);
      }
    }
  }

  /**
   * No fetched document is left out of the page while an older one is in it:
   * a fetched document missing from the result means the page is full and
   * every item in it is at least as new.
   */
  lemma FeedLeavesOutOnlyOlder(db: Store, channelIds: seq<string>, itemType: Option<Kind>, pageSize: int, storeUp: bool)
    ensures var r := FetchFeed(db, channelIds, itemType, pageSize, storeUp);
            r.Ok? ==>
              forall s :: s in Fetched(db, CollectionsFor(itemType), channelIds, pageSize)
                          && FeedItem(DropLast(s.parent), s.doc) !in r.value ==>
                  && |r.value| == pageSize
                  && forall k :: 0 <= k < |r.value| ==>
                       TimeOf(s.doc.createdAt) <= TimeOf(r.value[k].doc.createdAt)
  {
    var r := FetchFeed(db, channelIds, itemType, pageSize, storeUp);
    if r.Ok? {
      var page := Page(db, channelIds, itemType, pageSize);
      forall s | s in Fetched(db, CollectionsFor(itemType), channelIds, pageSize)
                 && FeedItem(DropLast(s.parent), s.doc) !in r.value
        ensures |r.value| == pageSize
        ensures forall k :: 0 <= k < |r.value| ==> TimeOf(s.doc.createdAt) <= TimeOf(r.value[k].doc.createdAt)
      {
        assert s !in page;
        forall k | 0 <= k < |r.value| ensures TimeOf(s.doc.createdAt) <= TimeOf(r.value[k].doc.createdAt) {
          assert Newest(page[k]) <= Newest(s);
        }
      }
    }
  }

  /** The merge of a non-empty list of collections is the first one's results, then the rest's merge. */
  lemma FetchedUnfold(db: Store, names: seq<string>, channelIds: seq<string>, pageSize: int)
    requires names != []
    ensures Fetched(db, names, channelIds, pageSize)
            == AsSnapshots(names[0], RecentInCollection(db, names[0], channelIds, pageSize))
               + Fetched(db, names[1..], channelIds, pageSize)
  {
  }

  /** The merge holds every collection's query result, with repetition. */
  lemma {:induction false} FetchedHoldsQuery(db: Store, names: seq<string>, channelIds: seq<string>, pageSize: int, i: nat)
    requires i < |names|
    ensures multiset(AsSnapshots(names[i], RecentInCollection(db, names[i], channelIds, pageSize)))
            <= multiset(Fetched(db, names, channelIds, pageSize))
  {
    FetchedUnfold(db, names, channelIds, pageSize);
    if i > 0 {
      FetchedHoldsQuery(db, names[1..], channelIds, pageSize, i - 1);
      assert names[1..][i - 1] == names[i];
    }
    PartCounts(AsSnapshots(names[0], RecentInCollection(db, names[0], channelIds, pageSize)),
               Fetched(db, names[1..], channelIds, pageSize),
               AsSnapshots(names[i], RecentInCollection(db, names[i], channelIds, pageSize)));
  }

  /**
   * A matching document of a queried collection that is missing from the
   * feed was left out for newer items: the feed is full, and every item in
   * it is at least as new. When the document's own collection query cut
   * it, that query's `pageSize` newer documents are all in the merge, so
   * the merge has `pageSize` entries at least as new and they fill the page.
   */
  lemma StoreDocLeftOutOnlyForNewer(db: Store, channelIds: seq<string>, itemType: Option<Kind>, pageSize: int,
                                    storeUp: bool, k: Kind, d: Doc)
    requires itemType.None? || itemType == Some(k)
    requires d in Collection(db, CollectionOf(k)) && InChannels(d, channelIds)
    ensures var r := FetchFeed(db, channelIds, itemType, pageSize, storeUp);
            r.Ok? && FeedItem(KindName(k), d) !in r.value ==>
              && |r.value| == pageSize
              && forall j :: 0 <= j < |r.value| ==> TimeOf(d.createdAt) <= TimeOf(r.value[j].doc.createdAt)
  {
    var r := FetchFeed(db, channelIds, itemType, pageSize, storeUp);
    var name := CollectionOf(k);
    var names := CollectionsFor(itemType);
    var recent := RecentInCollection(db, name, channelIds, pageSize);
    if r.Ok? && FeedItem(KindName(k), d) !in r.value {
      var i :| 0 <= i < |names| && names[i] == name;
      TagOfCollection(k);
      if d in recent {
        FeedLeavesOutOnlyOlder(db, channelIds, itemType, pageSize, storeUp);
        assert Snapshot(name, d) in Fetched(db, names, channelIds, pageSize);
      } else {
        CutDocLeavesFullFeed(db, channelIds, itemType, pageSize, storeUp, i, d);
      }
    }
  }

  /**
   * A matching document that its own collection's query cut leaves the
   * feed full of items at least as new as it.
   */
  lemma CutDocLeavesFullFeed(db: Store, channelIds: seq<string>, itemType: Option<Kind>, pageSize: int,
                             storeUp: bool, i: nat, d: Doc)
    requires i < |CollectionsFor(itemType)|
    requires d in Collection(db, CollectionsFor(itemType)[i]) && InChannels(d, channelIds)
    requires d !in RecentInCollection(db, CollectionsFor(itemType)[i], channelIds, pageSize)
    requires FetchFeed(db, channelIds, itemType, pageSize, storeUp).Ok?
    ensures var r := FetchFeed(db, channelIds, itemType, pageSize, storeUp);
            && |r.value| == pageSize
            && forall j :: 0 <= j < |r.value| ==> TimeOf(d.createdAt) <= TimeOf(r.value[j].doc.createdAt)
  {
    var r := FetchFeed(db, channelIds, itemType, pageSize, storeUp);
    var page := Page(db, channelIds, itemType, pageSize);
    PageFullOfNewer(db, channelIds, itemType, pageSize, i, NewestDoc(d));
    forall j | 0 <= j < |r.value| ensures TimeOf(d.createdAt) <= TimeOf(r.value[j].doc.createdAt) {
      assert r.value[j].doc == page[j].doc;
    }
  }

  /**
   * When one queried collection's query is full of documents keyed no later
   * than `c` (at least as new), they are all in the merge, so the page is
   * full of snapshots keyed no later than `c`.
   */
  lemma PageFullOfNewer(db: Store, channelIds: seq<string>, itemType: Option<Kind>, pageSize: int, i: nat, c: int)
    requires i < |CollectionsFor(itemType)|
    requires var recent := RecentInCollection(db, CollectionsFor(itemType)[i], channelIds, pageSize);
             && |recent| == pageSize
             && forall j :: 0 <= j < |recent| ==> NewestDoc(recent[j]) <= c
    ensures var page := Page(db, channelIds, itemType, pageSize);
            && |page| == pageSize
            && forall j :: 0 <= j < |page| ==> Newest(page[j]) <= c
  {
    var names := CollectionsFor(itemType);
    FetchedHoldsQuery(db, names, channelIds, pageSize, i);
    MergeFullOfNewer(Fetched(db, names, channelIds, pageSize), names[i],
                     RecentInCollection(db, names[i], channelIds, pageSize), pageSize, c);
    PageIsTop(db, channelIds, itemType, pageSize);
  }

  /** A merge holding `n` snapshots no newer-keyed than `c` has its first `n`, sorted, all so keyed. */
  lemma MergeFullOfNewer(fetched: seq<Snapshot>, name: string, recent: seq<Doc>, n: int, c: int)
    requires 0 <= n == |recent|
    requires forall j :: 0 <= j < |recent| ==> NewestDoc(recent[j]) <= c
    requires multiset(AsSnapshots(name, recent)) <= multiset(fetched)
    ensures var top := Take(Sorting.SortBy(fetched, Newest), n);
            |top| == n && forall j :: 0 <= j < |top| ==> Newest(top[j]) <= c
  {
    var witnesses := AsSnapshots(name, recent);
    assert forall j :: 0 <= j < |witnesses| ==> Newest(witnesses[j]) == NewestDoc(recent[j]);
    TopIsNoLaterThan(fetched, Newest, n, c, witnesses);
  }

  /** The page is the first `pageSize` of the merge sorted newest first. */
  lemma PageIsTop(db: Store, channelIds: seq<string>, itemType: Option<Kind>, pageSize: int)
    ensures Page(db, channelIds, itemType, pageSize)
            == Take(Sorting.SortBy(Fetched(db, CollectionsFor(itemType), channelIds, pageSize), Newest), pageSize)
  {
  }

  /**
   * Every item comes from a queried collection, is in one of the requested
   * channels, and is tagged with its collection's name minus the final "s";
   * with `itemType` given, every item has that type.
   */
  lemma FeedItemsMatchQuery(db: Store, channelIds: seq<string>, itemType: Option<Kind>, pageSize: int, storeUp: bool)
    ensures var r := FetchFeed(db, channelIds, itemType, pageSize, storeUp);
            r.Ok? ==> forall it :: it in r.value ==>
              && it.doc.channelId in channelIds
              && (exists k :: it.typeTag == KindName(k) && it.doc in Collection(db, CollectionOf(k)))
              && (itemType.Some? ==> it.typeTag == KindName(itemType.value))
  {
    var r := FetchFeed(db, channelIds, itemType, pageSize, storeUp);
    if r.Ok? {
      var page := Page(db, channelIds, itemType, pageSize);
      forall it | it in r.value
        ensures it.doc.channelId in channelIds
        ensures exists k :: it.typeTag == KindName(k) && it.doc in Collection(db, CollectionOf(k))
        ensures itemType.Some? ==> it.typeTag == KindName(itemType.value)
      {
        var i :| 0 <= i < |r.value| && r.value[i] == it;
        assert page[i] in page;
        FetchedSnapshotMatches(db, channelIds, itemType, pageSize, page[i]);
      }
    }
  }

  /** One fetched snapshot, converted, meets the query. */
  lemma FetchedSnapshotMatches(db: Store, channelIds: seq<string>, itemType: Option<Kind>, pageSize: int, s: Snapshot)
    requires s in Fetched(db, CollectionsFor(itemType), channelIds, pageSize)
    ensures s.doc.channelId in channelIds
    ensures exists k :: DropLast(s.parent) == KindName(k) && s.doc in Collection(db, CollectionOf(k))
    ensures itemType.Some? ==> DropLast(s.parent) == KindName(itemType.value)
  {
    var k :| s.parent == CollectionOf(k);
    TagOfCollection(k);
    if itemType.Some? {
      assert s.parent == CollectionOf(itemType.value);
      TagOfCollection(itemType.value);
    }
  }

  lemma KindNameInjective(k: Kind, k': Kind)
    requires KindName(k) == KindName(k')
    ensures k == k'
  {
  }

  lemma TagOfCollection(k: Kind)
    ensures DropLast(CollectionOf(k)) == KindName(k)
  {
    assert CollectionOf(k)[..|CollectionOf(k)| - 1] == KindName(k);
  }

  /** A fetch rejects exactly on bad query arguments, an unreachable store, or a page item missing a dereferenced field. */
  lemma FeedRejects(db: Store, channelIds: seq<string>, itemType: Option<Kind>, pageSize: int, storeUp: bool)
    ensures var r := FetchFeed(db, channelIds, itemType, pageSize, storeUp);
            && (r == Err(InvalidQuery) <==> |channelIds| == 0 || pageSize <= 0)
            && (r == Err(StoreUnavailable) <==> |channelIds| > 0 && pageSize > 0 && !storeUp)
            && (r.Ok? <==>
                  && |channelIds| > 0 && pageSize > 0 && storeUp
                  && forall s :: s in Page(db, channelIds, itemType, pageSize) ==> ToFeedItem(s).Ok?)
  {
    if |channelIds| > 0 && pageSize > 0 && storeUp {
      ConvertsAll(Page(db, channelIds, itemType, pageSize));
    }
  }

  /** A page converts exactly when each of its snapshots does; otherwise a field is missing. */
  lemma ConvertsAll(page: seq<Snapshot>)
    ensures ConvertPage(page).Ok? <==> forall s :: s in page ==> ToFeedItem(s).Ok?
    ensures ConvertPage(page).Err? ==> ConvertPage(page).error == MissingField
  {
    if !forall s :: s in page ==> ToFeedItem(s).Ok? {
      var s :| s in page && !ToFeedItem(s).Ok?;
      var k :| 0 <= k < |page| && page[k] == s;
    }
  }

  // ---------------------------------------------------------------------
  // The calendar's event-range query
  // ---------------------------------------------------------------------

  function ByStartDate(d: Doc): int { TimeOf(d.startDate) }

  predicate StartsWithin(d: Doc, start: int, end: int)
  {
    d.startDate.Some? && start <= d.startDate.value <= end
  }

  /** `startDate` present; its conversion also dereferences `endDate`, `createdAt` and `updatedAt`. */
  predicate EventConvertible(d: Doc)
  {
    d.startDate.Some? && d.endDate.Some? && d.createdAt.Some? && d.updatedAt.Some?
  }

  /** The events whose start lies in `[start, end]`, ascending by start (stable in store order). */
  function EventsBetween(db: Store, start: int, end: int): (r: seq<Doc>)
    ensures forall e :: e in r <==> e in Collection(db, "events") && StartsWithin(e, start, end)
    ensures forall e :: multiset(r)[e] == if StartsWithin(e, start, end) then multiset(Collection(db, "events"))[e] else 0
    ensures forall i, j :: 0 <= i < j < |r| ==> ByStartDate(r[i]) <= ByStartDate(r[j])
  {
    var matching := Where(Collection(db, "events"), d => StartsWithin(d, start, end));
    WhereCounts(Collection(db, "events"), d => StartsWithin(d, start, end));
    assert forall e :: e in Sorting.SortBy(matching, ByStartDate) <==> e in matching by {
      forall e ensures e in Sorting.SortBy(matching, ByStartDate) <==> e in matching {
        Sorting.SortByMembers(matching, ByStartDate, e);
      }
    }
    Sorting.SortBy(matching, ByStartDate)
  }

  /**
   * A range query that bypasses the cache: the events starting within
   * `[start, end]`, ascending by start, unless the store fails or one of them
   * lacks a timestamp the conversion dereferences.
   */
  function FetchEvents(db: Store, start: int, end: int, storeUp: bool): (r: Result<seq<Doc>, Error>)
    ensures r.Ok? <==>
              storeUp && forall e :: e in Collection(db, "events") && StartsWithin(e, start, end) ==> EventConvertible(e)
    ensures r.Ok? ==> r.value == EventsBetween(db, start, end)
    ensures r.Err? ==> r.error == if storeUp then MissingField else StoreUnavailable
  {
    if !storeUp then Err(StoreUnavailable)
    else
      var events := EventsBetween(db, start, end);
      if forall d :: d in events ==> EventConvertible(d) then Ok(events) else Err(MissingField)
  }

  // ---------------------------------------------------------------------
  // The per-user task query (uncached)
  // ---------------------------------------------------------------------

  function ByDeadline(d: Doc): int { TimeOf(d.deadline) }

  /** A status filter is added only for a truthy (non-empty) status. */
  predicate StatusMatches(d: Doc, status: Option<string>)
  {
    status.None? || status.value == "" || d.status == status.value
  }

  /** Member of `assignedMembers`, status matching, and a `deadline` (ordering by it drops the rest). */
  predicate TaskSelected(d: Doc, userId: string, status: Option<string>)
  {
    userId in d.assignedMembers && StatusMatches(d, status) && d.deadline.Some?
  }

  /**
   * The tasks of a user, ascending by deadline: exactly those that list the
   * user, match a non-empty status filter and have a deadline. A missing
   * `createdAt` or `updatedAt` is passed through as absent (the optional
   * chaining), so the only rejection is an unreachable store. It takes the
   * store alone: neither cache is read or written.
   */
  function GetTasks(db: Store, userId: string, status: Option<string>, storeUp: bool): (r: Result<seq<Doc>, Error>)
    ensures r.Ok? <==> storeUp
    ensures r.Ok? ==>
              && (forall t :: t in r.value <==> t in Collection(db, "tasks") && TaskSelected(t, userId, status))
              && (forall t :: multiset(r.value)[t] == if TaskSelected(t, userId, status) then multiset(Collection(db, "tasks"))[t] else 0)
              && (forall t :: t in r.value && status.Some? && status.value != "" ==> t.status == status.value)
              && forall i, j :: 0 <= i < j < |r.value| ==> ByDeadline(r.value[i]) <= ByDeadline(r.value[j])
  {
    if !storeUp then Err(StoreUnavailable)
    else
      var matching := Where(Collection(db, "tasks"), d => TaskSelected(d, userId, status));
      WhereCounts(Collection(db, "tasks"), d => TaskSelected(d, userId, status));
      assert forall t :: t in Sorting.SortBy(matching, ByDeadline) <==> t in matching by {
        forall t ensures t in Sorting.SortBy(matching, ByDeadline) <==> t in matching {
          Sorting.SortByMembers(matching, ByDeadline, t);
        }
      }
      Ok(Sorting.SortBy(matching, ByDeadline))
  }

  // ---------------------------------------------------------------------
  // Writes to the store
  // ---------------------------------------------------------------------

  /**
   * The fields an update may set; `None` leaves a field as it is. A stored
   * `id` field in an update does not rename the document, so it has no slot.
   */
  datatype Patch = Patch(
    channelId: Option<string>,
    title: Option<string>,
    status: Option<string>,
    assignedMembers: Option<seq<string>>,
    createdAt: Option<int>,
    updatedAt: Option<int>,
    startDate: Option<int>,
    endDate: Option<int>,
    deadline: Option<int>)

  /** Every field the patch sets takes the patch's value; every other field, and the id, is kept. */
  function ApplyPatch(d: Doc, p: Patch): (r: Doc)
    ensures r.id == d.id
    ensures r.channelId == (if p.channelId.Some? then p.channelId.value else d.channelId)
    ensures r.title == (if p.title.Some? then p.title.value else d.title)
    ensures r.status == (if p.status.Some? then p.status.value else d.status)
    ensures r.assignedMembers == (if p.assignedMembers.Some? then p.assignedMembers.value else d.assignedMembers)
    ensures r.createdAt == (if p.createdAt.Some? then p.createdAt else d.createdAt)
    ensures r.updatedAt == (if p.updatedAt.Some? then p.updatedAt else d.updatedAt)
    ensures r.startDate == (if p.startDate.Some? then p.startDate else d.startDate)
    ensures r.endDate == (if p.endDate.Some? then p.endDate else d.endDate)
    ensures r.deadline == (if p.deadline.Some? then p.deadline else d.deadline)
  {
    d.(channelId := if p.channelId.Some? then p.channelId.value else d.channelId,
       title := if p.title.Some? then p.title.value else d.title,
       status := if p.status.Some? then p.status.value else d.status,
       assignedMembers := if p.assignedMembers.Some? then p.assignedMembers.value else d.assignedMembers,
       createdAt := if p.createdAt.Some? then p.createdAt else d.createdAt,
       updatedAt := if p.updatedAt.Some? then p.updatedAt else d.updatedAt,
       startDate := if p.startDate.Some? then p.startDate else d.startDate,
       endDate := if p.endDate.Some? then p.endDate else d.endDate,
       deadline := if p.deadline.Some? then p.deadline else d.deadline)
  }

  /** Patching twice with the same patch is patching once. */
  lemma ApplyPatchIdempotent(d: Doc, p: Patch)
    ensures ApplyPatch(ApplyPatch(d, p), p) == ApplyPatch(d, p)
  {
  }

  /** A patch that sets nothing leaves the document as it is. */
  lemma EmptyPatchKeeps(d: Doc)
    ensures ApplyPatch(d, Patch(None, None, None, None, None, None, None, None, None)) == d
  {
  }

  /** `addDoc`: the document joins the end of its collection; no other collection changes. */
  function Inserted(db: Store, name: string, d: Doc): (r: Store)
    ensures Collection(r, name) == Collection(db, name) + [d]
    ensures forall other :: other != name ==> Collection(r, other) == Collection(db, other)
  {
    db[name := Collection(db, name) + [d]]
  }

  /**
   * `updateDoc`: the document with the id gets the patch, in place; the rest
   * of its collection and every other collection are unchanged.
   */
  function Updated(db: Store, name: string, id: string, p: Patch): (r: Store)
    ensures |Collection(r, name)| == |Collection(db, name)|
    ensures forall i :: 0 <= i < |Collection(db, name)| ==>
              Collection(r, name)[i]
              == if Collection(db, name)[i].id == id then ApplyPatch(Collection(db, name)[i], p) else Collection(db, name)[i]
    ensures forall other :: other != name ==> Collection(r, other) == Collection(db, other)
    ensures HasDoc(r, name, id) <==> HasDoc(db, name, id)
  {
    var docs := Collection(db, name);
    db[name := seq(|docs|, i requires 0 <= i < |docs| => if docs[i].id == id then ApplyPatch(docs[i], p) else docs[i])]
  }

  /** `deleteDoc`: the document with the id leaves its collection; nothing else changes. */
  function Deleted(db: Store, name: string, id: string): (r: Store)
    ensures forall d :: d in Collection(r, name) <==> d in Collection(db, name) && d.id != id
    ensures forall d :: multiset(Collection(r, name))[d] == if d.id != id then multiset(Collection(db, name))[d] else 0
    ensures !HasDoc(r, name, id)
    ensures forall other :: other != name ==> Collection(r, other) == Collection(db, other)
  {
    WhereCounts(Collection(db, name), (d: Doc) => d.id != id);
    db[name := Where(Collection(db, name), (d: Doc) => d.id != id)]
  }

  predicate HasDoc(db: Store, name: string, id: string)
  {
    exists d :: d in Collection(db, name) && d.id == id
  }

  /** After a delete, a forced feed fetch contains no item of that collection with that id. */
  lemma DeletedItemLeavesFeed(db: Store, k: Kind, id: string, channelIds: seq<string>,
                              itemType: Option<Kind>, pageSize: int, storeUp: bool)
    ensures var r := FetchFeed(Deleted(db, CollectionOf(k), id), channelIds, itemType, pageSize, storeUp);
            r.Ok? ==> forall it :: it in r.value && it.typeTag == KindName(k) ==> it.doc.id != id
  {
    var db' := Deleted(db, CollectionOf(k), id);
    var r := FetchFeed(db', channelIds, itemType, pageSize, storeUp);
    if r.Ok? {
      FeedItemsMatchQuery(db', channelIds, itemType, pageSize, storeUp);
      forall it | it in r.value && it.typeTag == KindName(k) ensures it.doc.id != id {
        var k' :| it.typeTag == KindName(k') && it.doc in Collection(db', CollectionOf(k'));
        KindNameInjective(k, k');
      }
    }
  }

  // ---------------------------------------------------------------------
  // The module state: the store and the two caches
  // ---------------------------------------------------------------------

  /** The merged snapshots, sorted newest first in an array in place (the `allDocs.sort`). */
  method SortNewestFirst(allDocs: seq<Snapshot>) returns (sorted: seq<Snapshot>)
    ensures sorted == Sorting.SortBy(allDocs, Newest)
  {
    var a := new Snapshot[|allDocs|](i requires 0 <= i < |allDocs| => allDocs[i]);
    assert a[..] == allDocs;
    Sorting.SortInPlace(a, Newest);
    sorted := a[..];
  }

  /**
   * The uncached feed read: reject a malformed query, then merge every
   * collection's results, sort them in place and convert the first page.
   */
  method QueryFeed(db: Store, channelIds: seq<string>, itemType: Option<Kind>, pageSize: int, storeUp: bool)
    returns (r: Result<seq<FeedItem>, Error>)
    ensures r == FetchFeed(db, channelIds, itemType, pageSize, storeUp)
  {
    if |channelIds| == 0 || pageSize <= 0 {
      return Err(InvalidQuery);
    }
    if !storeUp {
      return Err(StoreUnavailable);
    }
    var allDocs := Fetched(db, CollectionsFor(itemType), channelIds, pageSize);
    var sorted := SortNewestFirst(allDocs);
    FetchFeedComputed(db, channelIds, itemType, pageSize);
    r := ConvertPage(Take(sorted, pageSize));
  }

  /** The calendar cache key: the exact `(start, end)` pair. */
  type RangeKey = (int, int)

  class FeedState {
    var db: Store
    /** The single, unkeyed feed slot; `None` is `null`. */
    var cachedFeedItems: Option<seq<FeedItem>>
    /** Event lists by exact range. */
    var cachedEvents: map<RangeKey, seq<Doc>>

    /** The state at module load: both caches empty. */
    constructor (db0: Store)
      ensures db == db0 && cachedFeedItems == None && cachedEvents == map[]
    {
      db := db0;
      cachedFeedItems := None;
      cachedEvents := map[];
    }

    /**
     * The feed. A non-empty slot is returned as it is, without reading the
     * store, whatever the arguments. Otherwise the store is read; a result is
     * stored in the slot, a rejection leaves it alone.
     */
    method GetFeedItems(channelIds: seq<string>, itemType: Option<Kind>, pageSize: int, forceRefresh: bool, storeUp: bool)
      returns (r: Result<seq<FeedItem>, Error>)
      modifies this`cachedFeedItems
      ensures old(cachedFeedItems).Some? && !forceRefresh ==>
                r == Ok(old(cachedFeedItems).value) && cachedFeedItems == old(cachedFeedItems)
      ensures old(cachedFeedItems).None? || forceRefresh ==>
                && r == FetchFeed(old(db), channelIds, itemType, pageSize, storeUp)
                && cachedFeedItems == (if r.Ok? then Some(r.value) else old(cachedFeedItems))
      ensures db == old(db) && cachedEvents == old(cachedEvents)
    {
      if cachedFeedItems.Some? && !forceRefresh {
        return Ok(cachedFeedItems.value);
      }
      r := QueryFeed(db, channelIds, itemType, pageSize, storeUp);
      cachedFeedItems := if r.Ok? then Some(r.value) else cachedFeedItems;
    }

    /**
     * The calendar query. A non-forced call with an entry for exactly
     * `(start, end)` returns it, even an empty list. Otherwise the store is
     * read and a result is stored under that key only.
     */
    method GetEvents(start: int, end: int, forceRefresh: bool, storeUp: bool) returns (r: Result<seq<Doc>, Error>)
      modifies this`cachedEvents
      ensures !forceRefresh && (start, end) in old(cachedEvents) ==>
                r == Ok(old(cachedEvents)[(start, end)]) && cachedEvents == old(cachedEvents)
      ensures forceRefresh || (start, end) !in old(cachedEvents) ==>
                && r == FetchEvents(db, start, end, storeUp)
                && cachedEvents == (if r.Ok? then old(cachedEvents)[(start, end) := r.value] else old(cachedEvents))
      ensures db == old(db) && cachedFeedItems == old(cachedFeedItems)
    {
      var key := (start, end);
      if !forceRefresh && key in cachedEvents {
        return Ok(cachedEvents[key]);
      }
      r := FetchEvents(db, start, end, storeUp);
      if r.Ok? {
        cachedEvents := cachedEvents[key := r.value];
      }
    }

    /** Inserts `item` under the store-assigned `newId`; on success the feed slot is cleared. */
    method CreateItem(k: Kind, item: Doc, newId: string, storeUp: bool) returns (r: Result<string, Error>)
      modifies this`db, this`cachedFeedItems
      ensures storeUp ==> r == Ok(newId) && db == Inserted(old(db), CollectionOf(k), item.(id := newId))
                          && cachedFeedItems == None
      ensures !storeUp ==> r == Err(StoreUnavailable) && db == old(db) && cachedFeedItems == old(cachedFeedItems)
      ensures cachedEvents == old(cachedEvents)
    {
      if !storeUp {
        return Err(StoreUnavailable);
      }
      db := Inserted(db, CollectionOf(k), item.(id := newId));
      ClearFeedItemsCache();
      r := Ok(newId);
    }

    /** Written out separately in the source; it behaves as `CreateItem` on "announcements". */
    method CreateAnnouncement(item: Doc, newId: string, storeUp: bool) returns (r: Result<string, Error>)
      modifies this`db, this`cachedFeedItems
      ensures storeUp ==> r == Ok(newId) && db == Inserted(old(db), "announcements", item.(id := newId))
                          && cachedFeedItems == None
      ensures !storeUp ==> r == Err(StoreUnavailable) && db == old(db) && cachedFeedItems == old(cachedFeedItems)
      ensures cachedEvents == old(cachedEvents)
    {
      if !storeUp {
        return Err(StoreUnavailable);
      }
      db := Inserted(db, "announcements", item.(id := newId));
      ClearFeedItemsCache();
      r := Ok(newId);
    }

    method CreateEvent(item: Doc, newId: string, storeUp: bool) returns (r: Result<string, Error>)
      modifies this`db, this`cachedFeedItems
      ensures storeUp ==> r == Ok(newId) && db == Inserted(old(db), "events", item.(id := newId))
                          && cachedFeedItems == None
      ensures !storeUp ==> r == Err(StoreUnavailable) && db == old(db) && cachedFeedItems == old(cachedFeedItems)
      ensures cachedEvents == old(cachedEvents)
    {
      assert CollectionOf(Event) == "events";
      r := CreateItem(Event, item, newId, storeUp);
    }

    method CreateTask(item: Doc, newId: string, storeUp: bool) returns (r: Result<string, Error>)
      modifies this`db, this`cachedFeedItems
      ensures storeUp ==> r == Ok(newId) && db == Inserted(old(db), "tasks", item.(id := newId))
                          && cachedFeedItems == None
      ensures !storeUp ==> r == Err(StoreUnavailable) && db == old(db) && cachedFeedItems == old(cachedFeedItems)
      ensures cachedEvents == old(cachedEvents)
    {
      assert CollectionOf(Task) == "tasks";
      r := CreateItem(Task, item, newId, storeUp);
    }

    /** Updates the document with `itemId`; a missing document rejects. Neither cache changes. */
    method UpdateItem(k: Kind, itemId: string, updates: Patch, storeUp: bool) returns (r: Result<(), Error>)
      modifies this`db
      ensures !storeUp ==> r == Err(StoreUnavailable) && db == old(db)
      ensures storeUp && !HasDoc(old(db), CollectionOf(k), itemId) ==> r == Err(NotFound) && db == old(db)
      ensures storeUp && HasDoc(old(db), CollectionOf(k), itemId) ==>
                r == Ok(()) && db == Updated(old(db), CollectionOf(k), itemId, updates)
      ensures cachedFeedItems == old(cachedFeedItems) && cachedEvents == old(cachedEvents)
    {
      if !storeUp {
        return Err(StoreUnavailable);
      }
      if !HasDoc(db, CollectionOf(k), itemId) {
        return Err(NotFound);
      }
      db := Updated(db, CollectionOf(k), itemId, updates);
      r := Ok(());
    }

    /** Deletes the document with `itemId` (deleting a missing one succeeds). Neither cache changes. */
    method DeleteItem(k: Kind, itemId: string, storeUp: bool) returns (r: Result<(), Error>)
      modifies this`db
      ensures !storeUp ==> r == Err(StoreUnavailable) && db == old(db)
      ensures storeUp ==> r == Ok(()) && db == Deleted(old(db), CollectionOf(k), itemId)
      ensures cachedFeedItems == old(cachedFeedItems) && cachedEvents == old(cachedEvents)
    {
      if !storeUp {
        return Err(StoreUnavailable);
      }
      db := Deleted(db, CollectionOf(k), itemId);
      r := Ok(());
    }

    method ClearFeedItemsCache()
      modifies this`cachedFeedItems
      ensures cachedFeedItems == None
      ensures db == old(db) && cachedEvents == old(cachedEvents)
    {
      cachedFeedItems := None;
    }

    method ClearEventsCache()
      modifies this`cachedEvents
      ensures cachedEvents == map[]
      ensures db == old(db) && cachedFeedItems == old(cachedFeedItems)
    {
      cachedEvents := map[];
    }
  }

  /**
   * A client of the caches: two non-forced reads in a row give the same feed,
   * and after a successful create the next non-forced read sees the new store.
   */
  method FeedCacheScenario(db: Store, item: Doc, newId: string)
  {
    var st := new FeedState(db);
    var channels := ["General"];
    var first := st.GetFeedItems(channels, None, 20, false, true);
    var second := st.GetFeedItems(channels, None, 20, false, true);
    assert first.Ok? ==> second == first;
    var id := st.CreateTask(item, newId, true);
    assert id == Ok(newId) && st.cachedFeedItems.None?;
    var third := st.GetFeedItems(channels, None, 20, false, true);
    assert third == FetchFeed(Inserted(db, "tasks", item.(id := newId)), channels, None, 20, true);
  }

  /** A client of the calendar cache: a repeated range is served from the cache, a forced one is re-read. */
  method EventsCacheScenario(db: Store, start: int, end: int)
  {
    var st := new FeedState(db);
    var first := st.GetEvents(start, end, false, true);
    var second := st.GetEvents(start, end, false, true);
    assert first.Ok? ==> second == first;
    var forced := st.GetEvents(start, end, true, true);
    assert forced == FetchEvents(db, start, end, true);
    st.ClearEventsCache();
    assert st.cachedEvents == map[] && st.cachedFeedItems.None?;
  }
}
