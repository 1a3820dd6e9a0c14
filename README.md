# SigmaApp feed, reminders and auth slice, in Dafny

This project models three parts of SigmaApp, a team mobile app on a Firestore backend:

- **The client's feed service** (`src/services/feedService.ts`). It covers:
  - the merged feed of announcements, events and tasks, with its single module-level cache;
  - the calendar's event-range query, with its cache keyed by range;
  - the per-user task query;
  - the create, update and delete paths;
  - the two cache-clearing functions.
- **The backend's two cloud functions** (`functions/src/index.ts`):
  - the create trigger on `events`, which writes a reminder record;
  - the sweep that runs every minute. It sends the due reminders to the members of each event and marks each reminder sent.
- **The client's authentication slice** (`src/store/slices/authSlice.ts`). It holds the initial state and the `setUser` and `setLoading` reducers.

Layout:

- `Wrappers.dfy`: `Option` and `Result`.
- `Sorting.dfy`: the stable sort used for every `orderBy` and for the feed's `Array.prototype.sort`.
  - `SortBy` is a stable insertion sort, stated as a function.
  - `SortInPlace` is the same algorithm on an array, proved equal to `SortBy`.
- `DocumentStore.dfy`: the store and the query building blocks.
  - The store is a map from collection name to documents in store order.
  - A field the document lacks is `None`.
  - `Where` is a filter and `Take` is `limit`/`slice(0, n)`.
- `FeedService.dfy`: the feed service.
  - The queries are pure functions of the store.
  - The store and the two module-level caches are the fields of class `FeedState`. Its methods change those fields as the exported functions do.
- `Notifications.dfy`: the two cloud functions.
  - Scheduling is a function, `Schedule`.
  - The "notifications" collection and the pushes handed to the messaging service are the fields of class `Backend`.
  - The sweep is a loop over the due batch, with one method per nesting level of the source loop.
- `AuthSlice.dfy`: the slice state and its reducers, as functions from state to state.

Remote calls that can throw are modelled as parameters:
- `storeUp: bool` decides whether a store call succeeds.
- In the sweep, `failAt: Option<nat>` gives the number of the one remote call that throws. The calls are numbered from 0 in the order the sweep makes them: the due query first, then for each record its event read, for each member the user read and (with a token) the send, then the record's `sent` update. `MemberCalls`, `FanOutCalls`, `DispatchCalls`, `RecordCalls` and `BatchCalls` count them; `FanOutBefore`, `RecordBefore` and `PendingBefore` are the pushes whose send came before a given call.
- Clock readings (`now`) and store-generated ids (`newId`) are parameters too.

Behaviour of the code that the model keeps as written:
- **Reminder time.** The trigger computes `getTime()- - 30 * 60 * 1000`, which is the start time *plus* thirty minutes. The message text it stores says "starts in 30 minutes!" (see Findings).
  - `Schedule` models the code as written, and lemmas about it show the discrepancy.
  - `ScheduleIntended` is the corrected trigger. The trigger method `SchedulePushNotification` uses it.
- **Failed sends.** The sweep has no `try`/`catch`. A throw from any remote call, a push send included, ends the run. The record being handled stays unsent, and the records after it are not reached. `SendScheduledNotifications` states that partial outcome.
- **User lookup.** The sweep reads each member's document from the `users` collection directly, so the model takes a map of user documents.
- **Deleting a missing id.** Firestore's `deleteDoc` of a missing document succeeds, so `DeleteItem` succeeds there. `updateDoc` of a missing document rejects, so `UpdateItem` returns `NotFound`.

## Model

| member | source | states |
|---|---|---|
| `DocumentStore.Where` | src/services/feedService.ts:74 | an element is kept exactly when it is in the input and satisfies the filter; never longer than the input |
| `DocumentStore.WhereCounts` | src/services/feedService.ts:74 | counted with repetition, the filter keeps each passing element exactly as often as the input holds it, and no other element |
| `DocumentStore.TakeCounts` | src/services/feedService.ts:76 | a `limit` holds each element at most as often as its input |
| `DocumentStore.Take` | src/services/feedService.ts:89 | the result is a prefix of the input, of length `n` clipped to between zero and the input length (`limit` / `slice(0, n)`) |
| `DocumentStore.TakeSortedFacts` | src/services/feedService.ts:75-76 | the first `n` of a sorted input are bounded by `n`, sorted, and hold each element at most as often as the input; an input element left out means the result is full and sorts no earlier than every kept one |
| `DocumentStore.WhereAppend` | src/services/feedService.ts:74 | filtering distributes over concatenation |
| `DocumentStore.InsertKeepsKeyOrder` | src/services/feedService.ts:86 | after an insertion, the elements of each key are those before it, followed by the inserted one if it has that key |
| `DocumentStore.SortByStable` | src/services/feedService.ts:86 | the sort is stable: for every key, the elements of that key keep their input order |
| `DocumentStore.TopIsNoLaterThan` | src/services/feedService.ts:86-89 | when an input holds, with repetition, `n` elements of key at most `c`, the first `n` after sorting by key are all of key at most `c` |
| `Sorting.InsertPermutes` | src/services/feedService.ts:86 | inserting keeps every element: the multiset is the input's plus `x` |
| `Sorting.InsertSorted` | src/services/feedService.ts:86 | inserting into a sorted sequence keeps it sorted |
| `Sorting.SortBy` | src/services/feedService.ts:75-76 | the sort returns a permutation of its input, of the same length, in ascending key order; it models every `orderBy` (lines 75, 137 and 162) and the client sort at line 86 |
| `Sorting.SortByMembers` | src/services/feedService.ts:86 | the sort keeps exactly the input's elements |
| `Sorting.InsertIsSplice` | src/services/feedService.ts:86 | insertion splices `x` in at `InsertPos`, leaving both sides in order |
| `Sorting.InsertPosAt` | src/services/feedService.ts:86 | the insertion point is the position after which only larger keys follow and before which the key is at most `x`'s |
| `Sorting.InsertPosAfter` | src/services/feedService.ts:86 | only larger keys follow the insertion point |
| `Sorting.InsertAt` | src/services/feedService.ts:86 | the in-place shift loop leaves `a[..i+1]` equal to the insertion of `a[i]` into the sorted prefix; the rest of the array is unchanged |
| `Sorting.SortInPlace` | src/services/feedService.ts:86 | the array afterwards holds `SortBy` of its old contents (so, by the contract of `SortBy`, a sorted permutation) |
| `FeedService.CollectionsFor` | src/services/feedService.ts:70 | a kind's collection is queried exactly when no `itemType` is given or it is that kind; every queried collection is some kind's plural |
| `FeedService.RecentInCollection` | src/services/feedService.ts:71-78 | one collection's query returns at most `pageSize` of that collection's documents, each in a requested channel and with a `createdAt`, newest first; a matching document is left out only when the result is full of documents at least as new |
| `FeedService.RecentCounts` | src/services/feedService.ts:71-78 | a collection's query returns no document more often than the collection holds it |
| `FeedService.AsSnapshots` | src/services/feedService.ts:80-81 | one snapshot per document, in order, each carrying the collection id and that document; a document has a snapshot in the result exactly when it is in the input |
| `FeedService.Fetched` | src/services/feedService.ts:80-81 | the `flatMap`: every document of every collection's query result is in the merge under its collection id; conversely every snapshot comes from a queried collection and its document is in that collection's query result |
| `FeedService.FetchedHoldsQuery` | src/services/feedService.ts:80-81 | counted with repetition, the merge holds each collection's whole query result |
| `FeedService.ToFeedItem` | src/services/feedService.ts:89-113 | the `type` tag is the collection id without its last character; conversion succeeds exactly when `createdAt` and `updatedAt` are present, plus both event dates for an event and the deadline for a task |
| `FeedService.ConvertPage` | src/services/feedService.ts:89-114 | the `map` succeeds exactly when every snapshot converts, then pointwise; otherwise the error is a missing field |
| `FeedService.Page` | src/services/feedService.ts:81-89 | the merged, sorted and sliced page is bounded by `pageSize`, newest first, drawn from the fetched snapshots, and leaves out only snapshots no newer than all it keeps |
| `FeedService.PageCounts` | src/services/feedService.ts:86-89 | the page holds no snapshot more often than the merge does |
| `FeedService.FetchFeed` | src/services/feedService.ts:70-114 | a fetch is an invalid query exactly on an empty channel list or a non-positive page size; a successful fetch is the page, item by item, tagged with its collection id minus the last character |
| `FeedService.FeedBoundedAndOrdered` | src/services/feedService.ts:70-114 | a successful fetch has at most `pageSize` items in non-increasing `createdAt` order |
| `FeedService.FeedLeavesOutOnlyOlder` | src/services/feedService.ts:81-89 | a fetched document missing from the feed means the feed is full and every item in it is at least as new |
| `FeedService.FeedItemsMatchQuery` | src/services/feedService.ts:70-96 | every feed item is in a requested channel and is a document of the collection its tag names; with `itemType` given, every tag is that type |
| `FeedService.StoreDocLeftOutOnlyForNewer` | src/services/feedService.ts:70-89 | a matching document of a queried collection is missing from a successful feed only when the feed is full (`pageSize` items) and every item in it is at least as new |
| `FeedService.CutDocLeavesFullFeed` | src/services/feedService.ts:70-89 | a matching document that its own collection's `limit` cut leaves a successful feed full of items at least as new as it |
| `FeedService.PageFullOfNewer` | src/services/feedService.ts:71-89 | when one queried collection's query is full of documents no older than a bound, the page is full of snapshots no older than it |
| `FeedService.TagOfCollection` | src/services/feedService.ts:96 | dropping the last character of a kind's collection name gives the kind's tag |
| `FeedService.FeedRejects` | src/services/feedService.ts:70-114 | a fetch rejects as an invalid query exactly on an empty channel list or a non-positive page size, as an unavailable store exactly when only the store fails, and succeeds exactly when every page item converts |
| `FeedService.ConvertsAll` | src/services/feedService.ts:89-114 | a page converts exactly when each of its snapshots does, and otherwise fails with a missing field |
| `FeedService.EventsBetween` | src/services/feedService.ts:133-138 | exactly the events whose start is within `[start, end]`, each as often as the collection holds it, ascending by start |
| `FeedService.FetchEvents` | src/services/feedService.ts:133-151 | the range query succeeds exactly when the store answers and every event in the range has the four timestamps the conversion dereferences; it then returns `EventsBetween`; otherwise it fails with the store error or a missing field |
| `FeedService.GetTasks` | src/services/feedService.ts:158-183 | the task query fails only with the store; it returns exactly the tasks that list the user, match a non-empty status and have a deadline, each as often as the collection holds it, ascending by deadline |
| `FeedService.ApplyPatch` | src/services/feedService.ts:186-192 | every field the update sets takes the update's value and every field it leaves unset keeps its value (channel, title, status, members, `createdAt`, `updatedAt`, both event dates, deadline); the document id never changes |
| `FeedService.ApplyPatchIdempotent` | src/services/feedService.ts:186-192 | applying the same update twice is applying it once |
| `FeedService.EmptyPatchKeeps` | src/services/feedService.ts:186-192 | an update that sets nothing leaves the document as it is |
| `FeedService.Inserted` | src/services/feedService.ts:28 | `addDoc` appends the document to its collection and changes no other collection |
| `FeedService.Updated` | src/services/feedService.ts:191-192 | `updateDoc` patches the documents with the id in place, keeps the rest of the collection and every other collection, and keeps which ids exist |
| `FeedService.Deleted` | src/services/feedService.ts:200 | `deleteDoc` removes exactly the documents with the id, keeps every other document as often as it was held, and changes no other collection |
| `FeedService.DeletedItemLeavesFeed` | src/services/feedService.ts:196-201 | after a delete, a fetch of the new store has no item of that collection with that id |
| `FeedService.FeedState.constructor` | src/services/feedService.ts:204-205 | both caches start empty |
| `FeedService.FeedState.GetFeedItems` | src/services/feedService.ts:57-120 | a filled slot is returned unchanged when not forced, whatever the arguments; otherwise the result is the store fetch, stored in the slot on success; the store and the events cache are untouched |
| `FeedService.SortNewestFirst` | src/services/feedService.ts:86 | the in-place array sort of the merged snapshots yields `SortBy` newest first |
| `FeedService.QueryFeed` | src/services/feedService.ts:70-117 | the uncached read (collection choice, per-collection queries, merge, in-place sort, truncation, conversion) returns exactly the specified fetch, rejections included |
| `FeedService.FeedState.GetEvents` | src/services/feedService.ts:123-155 | a non-forced call with an entry for exactly `(start, end)` returns it; otherwise the store query, stored under that key only on success |
| `FeedService.FeedState.CreateItem` | src/services/feedService.ts:23-36 | on success the item is appended to the kind's collection under the new id and the feed slot is cleared; on failure nothing changes; the events cache is never touched |
| `FeedService.FeedState.CreateAnnouncement` | src/services/feedService.ts:38-48 | as `CreateItem` on "announcements" |
| `FeedService.FeedState.CreateEvent` | src/services/feedService.ts:50-51 | as `CreateItem` on "events" |
| `FeedService.FeedState.CreateTask` | src/services/feedService.ts:53-54 | as `CreateItem` on "tasks" |
| `FeedService.FeedState.UpdateItem` | src/services/feedService.ts:186-193 | a present document gets the patch; a missing one rejects with `NotFound` and changes nothing; neither cache changes |
| `FeedService.FeedState.DeleteItem` | src/services/feedService.ts:196-201 | every document with the id leaves the collection, and a missing id still succeeds; neither cache changes |
| `FeedService.FeedState.ClearFeedItemsCache` | src/services/feedService.ts:209-211 | empties the feed slot and nothing else |
| `FeedService.FeedState.ClearEventsCache` | src/services/feedService.ts:213-215 | empties the events cache and nothing else |
| `Notifications.ReminderTime` | functions/src/index.ts:38-39 | as written, the reminder time is the start plus thirty minutes |
| `Notifications.Schedule` | functions/src/index.ts:37-50 | a record is written exactly when the event has a start and start plus thirty minutes is after `now`; it is unsent and carries the event id, title, message text and that time |
| `Notifications.ReminderBody` | functions/src/index.ts:46 | the message quotes the title after `Event ` and ends with ` starts in 30 minutes!` |
| `Notifications.ScheduledAfterStart` | functions/src/index.ts:37-42 | as written, every scheduled reminder falls after its event has started |
| `Notifications.ScheduleIntended` | functions/src/index.ts:37-50 | corrected: a record is written exactly when the event has a start more than thirty minutes after `now`; it is unsent, carries the event id, title and message text, and falls exactly thirty minutes before the start and after `now` |
| `Notifications.AsWrittenRemindsLateEvent` | functions/src/index.ts:37-42 | an event created ten minutes before it starts gets a reminder forty minutes later as written, and none when corrected |
| `Notifications.DueBatch` | functions/src/index.ts:59-64 | the due query returns at most 100 records, each a due, unsent record of the collection |
| `Notifications.DueBatchSelects` | functions/src/index.ts:59-64 | the due batch holds at most 100 unsent records of the collection with `scheduledTime <= now`, each at most as often as the collection does, earliest first; a due record is left out only when the batch is full of earlier-or-equal ones |
| `Notifications.DueBatchCounts` | functions/src/index.ts:59-64 | the batch holds no record more often than the collection does |
| `Notifications.MarkSent` | functions/src/index.ts:95-98 | exactly the records with a given id get `sent` set; the others and the order are unchanged |
| `Notifications.MarkedNeverReselected` | functions/src/index.ts:59-62 | `sent` never goes back to false, and no later due query, at any time, selects a marked record |
| `Notifications.FanOut` | functions/src/index.ts:79-91 | every push carries the record's title and body and a non-empty token |
| `Notifications.FanOutPushes` | functions/src/index.ts:78-91 | the fan-out is exactly the assigned members with a non-empty token, in list order with duplicates repeated, each mapped to one push with that member's token and the record's title and body |
| `Notifications.RecordPushes` | functions/src/index.ts:72-93 | a record whose event is missing gets no push; every push carries the record's title and body |
| `Notifications.BatchPushes` | functions/src/index.ts:71-99 | every push of a run of records carries the title and body of a record of that run |
| `Notifications.FanOutPrefix` | functions/src/index.ts:79-92 | the pushes to the first `j` members are a prefix of the pushes to all of them |
| `Notifications.FanOutCallsCount` | functions/src/index.ts:79-91 | a fan-out makes one user read per assigned member and one send per member with a token |
| `Notifications.FanOutCallsPrefix` | functions/src/index.ts:79-91 | the first `j` members make no more remote calls than all of them |
| `Notifications.BatchCallsPrefix` | functions/src/index.ts:71-99 | the first `k` records make no more remote calls than the whole batch |
| `Notifications.ThrowLocated` | functions/src/index.ts:71-99 | a throw among a record's calls, after the earlier records ran without one, lies within the batch's calls and is located in that record |
| `Notifications.FanOutBeforeCut` | functions/src/index.ts:79-92 | when the throwing call is member `j`'s user read or send, the pushes that went out are exactly the fan-out to the first `j` members; past the last member, the whole fan-out |
| `Notifications.FanOutBeforePrefix` | functions/src/index.ts:79-92 | what a fan-out sends before a throw is a prefix of the whole fan-out |
| `Notifications.RecordBeforeStart` | functions/src/index.ts:72-76 | a throw at or before a record's event read sends none of its pushes |
| `Notifications.RecordBeforeAll` | functions/src/index.ts:72-98 | a throw after a record's fan-out (in its `sent` update or later) leaves all of its pushes sent |
| `Notifications.RecordBeforePrefix` | functions/src/index.ts:72-93 | what a record sends before a throw is a prefix of its pushes |
| `Notifications.AbortAtDueQuery` | functions/src/index.ts:64-71 | a throw in the due query leaves the outbox as it was and is a throw within the run's calls |
| `Notifications.ReminderScenarioIntended` | functions/src/index.ts:31-100 | corrected, an event created two hours ahead is reminded ninety minutes later; the next sweep selects it, pushes to each member with a token, and marks it sent |
| `Notifications.ReminderScenarioAsWritten` | functions/src/index.ts:31-64 | as written, the same record is scheduled 150 minutes after creation and is not due at that sweep |
| `Notifications.Backend.constructor` | functions/src/index.ts:29 | the collection is as given and nothing has been pushed |
| `Notifications.Backend.SchedulePushNotification` | functions/src/index.ts:31-52 | with the reminder time corrected, the record `ScheduleIntended` decides on is appended to the collection when the write succeeds; no record means no write; a failed write changes nothing |
| `Notifications.Backend.SendToMembers` | functions/src/index.ts:79-92 | the fan-out completes exactly when none of its calls (one user read per member, one send per member with a token) is the throwing one; it then made exactly that many calls and sent exactly the fan-out; after a throw, `calls` is the throwing call and the outbox gained exactly the pushes whose send came before it |
| `Notifications.Backend.SendToMember` | functions/src/index.ts:80-90 | one member: the user read, then the send when the user has a token; it completes exactly when neither call throws, and then sends exactly that member's push; after a throw nothing was sent |
| `Notifications.Backend.DispatchRecord` | functions/src/index.ts:72-93 | the event read and the fan-out complete exactly when none of their calls throws, then after exactly that many calls and with the record's pushes sent (none for a missing event); after a throw, the outbox gained exactly the record's pushes whose send came before the throwing call (none when the event read threw) |
| `Notifications.Backend.HandleRecord` | functions/src/index.ts:71-99 | record `k` completes exactly when none of its calls (event read, fan-out, `sent` update) throws; it then extends the delivered pushes and the marked ids by that record; after a throw the collection is unchanged and the outbox gained exactly the pushes sent before the throwing call (all of them when the `sent` update threw) |
| `Notifications.Backend.SendBatch` | functions/src/index.ts:71-99 | the loop over the due records completes exactly when none of the batch's calls throws, and then every record is marked sent and the outbox gains the whole batch's pushes in order; after a throw, the throw lies within the calls of the first unmarked record, the handled prefix is marked, and the outbox is exactly the handled records' pushes followed by that record's pushes sent before the throwing call |
| `Notifications.Backend.SendScheduledNotifications` | functions/src/index.ts:54-100 | a run completes exactly when neither the due query (call 0) nor any of the batch's calls throws; a full run marks exactly the due batch sent and pushes that batch's fan-out in order. A throw in the due query marks nothing and pushes nothing. A throw later lies within the calls of record `processed`: the records before it are marked and fully pushed, it stays unsent, and exactly its pushes sent before the throwing call went out |
| `AuthSlice.InitialState` | src/store/slices/authSlice.ts:8-11 | no user, loading |
| `AuthSlice.SetUser` | src/store/slices/authSlice.ts:17-20 | the user is the payload and loading is over |
| `AuthSlice.SetLoading` | src/store/slices/authSlice.ts:21-23 | the loading flag is the payload and the user is kept |
| `AuthSlice.Reduce` | src/store/slices/authSlice.ts:16-24 | `setUser` sets the user and ends loading; `setLoading` sets the flag and keeps the user |
| `AuthSlice.Run` | src/store/slices/authSlice.ts:16-24 | no action leaves the state as it is; otherwise loading is on exactly when the last action is `setLoading(true)` |
| `AuthSlice.RunUser` | src/store/slices/authSlice.ts:16-24 | after any run of actions, the user is that of the last `setUser`, or the starting user when there is none |
| `AuthSlice.RunLoadingFromInitial` | src/store/slices/authSlice.ts:8-23 | from the initial state, loading is on exactly when no action ran or the last one was `setLoading(true)` |

## Left out

- `createChannel` and `getChannels` (src/services/feedService.ts:12-20): not part of this model.
- The screens, navigation, `AuthContext`, `userService`, the messaging client and the Firebase setup are not part of this model. So is the user-directory cache, which does not appear in the modelled code.
- Concurrency: the feed's per-collection queries run concurrently (`Promise.all`). The model runs them in sequence, and any failure fails the whole fetch, as `Promise.all` does. Races between concurrent callers of the module caches are not modelled.
- Logging (`console.log`/`console.error`) is not modelled.
- Firestore's cap on the size of an `in` list is not modelled. An empty `in` list and a non-positive `limit` are modelled: both are rejected as `InvalidQuery`.
- Order of ties: Firestore breaks ties in an `orderBy` by document name. The model keeps store order among equal keys (`DocumentStore.SortByStable`). The feed's client-side sort is stable, as in JavaScript.
- `FeedService.FeedState.GetEvents`: the cache key is the pair of range bounds, not the string of two ISO-8601 timestamps. The two are equal exactly when the bounds are, at millisecond precision.
- Timestamps are whole milliseconds; the `Date`/`Timestamp` conversions are the identity.
- Documents carry only the fields the code reads. Other fields, which the `...data` spread copies through, are not modelled. Neither is the spread overwriting `id` with a stored `id` field.
- `FeedService.FeedState.UpdateItem`: a patch can set any modelled field but cannot delete one (`deleteField()`), and an `id` key in a patch, which Firestore stores as a plain field, is not modelled.
- `Notifications.Backend.SendScheduledNotifications`: record ids in the collection are assumed distinct, as store-generated ids are. The marking is by id.
- A missing event document, and an event without `assignedMembers`, both give no pushes. The model merges the two, since an absent member list is an empty sequence.
- The check that `snap.data()` is defined in the create trigger is not modelled: a created document always has data.
- `Notifications.Backend.SchedulePushNotification`: it writes the corrected reminder time, not the time the code computes. The as-written decision is `Notifications.Schedule` (see Findings).
- The delivery of a push by the messaging service is not modelled; a push is recorded in `outbox` when `send` returns.

## Findings

| source | as written | input that shows it | evidently intended | confidence | as-written member | corrected member |
|---|---|---|---|---|---|---|
| functions/src/index.ts:38-39 | the reminder time is `start - -30 min`, that is start plus thirty minutes | an event starting ten minutes after it is created gets a reminder forty minutes after creation, half an hour into the event | thirty minutes before the start, as the message text "starts in 30 minutes!" says; no reminder when that time has already passed | not executed | `Notifications.AsWrittenRemindsLateEvent` | `Notifications.ScheduleIntended` |
