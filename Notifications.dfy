/**
 * The two cloud functions of the backend: the create trigger on "events"
 * that schedules a reminder record, and the periodic sweep that sends the
 * due reminders and marks them sent.
 *
 * Push delivery is an append to `outbox`; every remote call of the sweep
 * (the due query, each event read, each user read, each send, each "sent"
 * update) may throw, and `failAt` names the one that does.
 */
module Notifications {
  import opened Wrappers
  import opened DocumentStore
  import Sorting

  /** Thirty minutes in milliseconds. */
  const ReminderOffset: int := 30 * 60 * 1000

  /** The `limit` of the due query. */
  const BatchSize: int := 100

  /** A record of the "notifications" collection. */
  datatype Notification = Notification(
    id: string,
    eventId: string,
    title: string,
    body: string,
    scheduledTime: int,
    sent: bool)

  /** The part of a user document the sweep reads. */
  datatype UserDoc = UserDoc(expoPushToken: Option<string>)

  /** One push message as handed to the delivery service. */
  datatype Push = Push(token: string, title: string, body: string)

  /** The message text: the event's title in quotes, then that it starts in thirty minutes. */
  function ReminderBody(title: string): (body: string)
    ensures |body| == |title| + 30
    ensures body[..7] == "Event \"" && body[7..7 + |title|] == title
    ensures body[7 + |title|..] == "\" starts in 30 minutes!"
  {
    "Event \"" + title + "\" starts in 30 minutes!"
  }

  // ---------------------------------------------------------------------
  // Scheduling
  // ---------------------------------------------------------------------

  /**
   * The reminder time exactly as the trigger computes it: the start time
   * minus the NEGATED offset (a `-` followed by `- 30 * 60 * 1000`).
   */
  function ReminderTime(startDate: int): (t: int)
    ensures t == startDate + ReminderOffset
  {
    startDate - -ReminderOffset
  }

  /**
   * The trigger's decision for a newly created event: a record when the event
   * has a start date and the reminder time is strictly after `now`, else none.
   */
  function Schedule(event: Doc, eventId: string, now: int, newId: string): (r: Option<Notification>)
    ensures r.Some? <==> event.startDate.Some? && event.startDate.value + ReminderOffset > now
    ensures r.Some? ==>
              && r.value.id == newId && r.value.eventId == eventId && !r.value.sent
              && r.value.title == event.title && r.value.body == ReminderBody(event.title)
              && r.value.scheduledTime == event.startDate.value + ReminderOffset
  {
    if event.startDate.Some? && ReminderTime(event.startDate.value) > now then
      Some(Notification(newId, eventId, event.title, ReminderBody(event.title),
                        ReminderTime(event.startDate.value), false))
    else None
  }

  /** As written, a reminder is always scheduled after its event has started. */
  lemma ScheduledAfterStart(event: Doc, eventId: string, now: int, newId: string)
    ensures var r := Schedule(event, eventId, now, newId);
            r.Some? ==> r.value.scheduledTime > event.startDate.value
  {
  }

  /** The reminder time the message text promises: thirty minutes before the start. */
  function IntendedReminderTime(startDate: int): int
  {
    startDate - ReminderOffset
  }

  /**
   * The trigger with the reminder time corrected: a record exactly thirty
   * minutes before the start when that is after `now`, so an event starting
   * at most thirty minutes from `now` gets none.
   */
  function ScheduleIntended(event: Doc, eventId: string, now: int, newId: string): (r: Option<Notification>)
    ensures r.Some? <==> event.startDate.Some? && event.startDate.value - now > ReminderOffset
    ensures r.Some? ==>
              && r.value.id == newId && r.value.eventId == eventId && !r.value.sent
              && r.value.title == event.title && r.value.body == ReminderBody(event.title)
              && now < r.value.scheduledTime == event.startDate.value - ReminderOffset
  {
    if event.startDate.Some? && IntendedReminderTime(event.startDate.value) > now then
      Some(Notification(newId, eventId, event.title, ReminderBody(event.title),
                        IntendedReminderTime(event.startDate.value), false))
    else None
  }

  /**
   * The discrepancy on one input: an event created ten minutes before it
   * starts gets a reminder as written (forty minutes after creation, half an
   * hour into the event), while the corrected trigger schedules none.
   */
  lemma AsWrittenRemindsLateEvent()
    ensures var event := Doc("e1", "General", "Rush", "", [], Some(0), Some(0), Some(600000), Some(4200000), None);
            && Schedule(event, "e1", 0, "n1").Some?
            && Schedule(event, "e1", 0, "n1").value.scheduledTime == 2400000
            && ScheduleIntended(event, "e1", 0, "n1").None?
  {
  }

  // ---------------------------------------------------------------------
  // The sweep: selecting due records
  // ---------------------------------------------------------------------

  predicate IsDue(n: Notification, now: int)
  {
    n.scheduledTime <= now && !n.sent
  }

  function ByScheduledTime(n: Notification): int { n.scheduledTime }

  /**
   * The due query: `scheduledTime <= now` and not sent, at most 100; the range
   * filter orders the results by `scheduledTime` (ties in store order).
   */
  function DueBatch(ns: seq<Notification>, now: int): (batch: seq<Notification>)
    ensures |batch| <= BatchSize
    ensures forall n :: n in batch ==> n in ns && IsDue(n, now)
  {
    var due := Where(ns, n => IsDue(n, now));
    TakeSortedFacts(due, ByScheduledTime, BatchSize);
    Take(Sorting.SortBy(due, ByScheduledTime), BatchSize)
  }

  /**
   * The batch holds only due, unsent records of the collection, each at most
   * as often as the collection holds it, at most 100, earliest first; a due record is left out only when the batch is full of
   * records scheduled no later than it.
   */
  lemma DueBatchSelects(ns: seq<Notification>, now: int)
    ensures var batch := DueBatch(ns, now);
            && |batch| <= BatchSize
            && (forall n :: n in batch ==> n in ns && n.scheduledTime <= now && !n.sent)
            && multiset(batch) <= multiset(ns)
            && (forall i, j :: 0 <= i < j < |batch| ==> batch[i].scheduledTime <= batch[j].scheduledTime)
            && (forall n :: n in ns && IsDue(n, now) && n !in batch ==>
                  |batch| == BatchSize && forall k :: 0 <= k < |batch| ==> batch[k].scheduledTime <= n.scheduledTime)
  {
    var due := Where(ns, n => IsDue(n, now));
    TakeSortedFacts(due, ByScheduledTime, BatchSize);
    DueBatchCounts(ns, now);
  }

  /** The batch holds no record more often than the collection does. */
  lemma DueBatchCounts(ns: seq<Notification>, now: int)
    ensures multiset(DueBatch(ns, now)) <= multiset(ns)
  {
    var due := Where(ns, n => IsDue(n, now));
    TakeCounts(Sorting.SortBy(due, ByScheduledTime), BatchSize);
    WhereSubMultiset(ns, n => IsDue(n, now));
  }

  function IdsOf(batch: seq<Notification>): set<string>
  {
    set n | n in batch :: n.id
  }

  /** The `update({sent: true})` of every record whose id is in `ids`. */
  function MarkSent(ns: seq<Notification>, ids: set<string>): (r: seq<Notification>)
    ensures |r| == |ns|
    ensures forall i :: 0 <= i < |ns| ==> r[i] == if ns[i].id in ids then ns[i].(sent := true) else ns[i]
  {
    seq(|ns|, i requires 0 <= i < |ns| => if ns[i].id in ids then ns[i].(sent := true) else ns[i])
  }

  /**
   * Marking is monotone and at most once: `sent` never goes back to false,
   * records outside `ids` are untouched, and no later due query, at any time,
   * selects a record that was marked.
   */
  lemma MarkedNeverReselected(ns: seq<Notification>, ids: set<string>, later: int)
    ensures var ns' := MarkSent(ns, ids);
            && (forall i :: 0 <= i < |ns| && ns[i].sent ==> ns'[i].sent)
            && (forall n :: n in DueBatch(ns', later) ==> n.id !in ids)
  {
    var ns' := MarkSent(ns, ids);
    DueBatchSelects(ns', later);
    forall n | n in DueBatch(ns', later) ensures n.id !in ids {
      var i :| 0 <= i < |ns'| && ns'[i] == n;
    }
  }

  // ---------------------------------------------------------------------
  // The sweep: fan-out
  // ---------------------------------------------------------------------

  /** A user document that exists and has a truthy (non-empty) push token. */
  predicate HasToken(users: map<string, UserDoc>, userId: string)
  {
    userId in users && users[userId].expoPushToken.Some? && users[userId].expoPushToken.value != ""
  }

  function PushTo(users: map<string, UserDoc>, userId: string, title: string, body: string): seq<Push>
  {
    if HasToken(users, userId) then [Push(users[userId].expoPushToken.value, title, body)] else []
  }

  /** One push per assigned member with a token, in list order, duplicates repeated. */
  function FanOut(members: seq<string>, users: map<string, UserDoc>, title: string, body: string): (pushes: seq<Push>)
    ensures forall p :: p in pushes ==> p.title == title && p.body == body && p.token != ""
  {
    if members == [] then []
    else FanOut(members[..|members| - 1], users, title, body) + PushTo(users, members[|members| - 1], title, body)
  }

  /** The pushes for one record: none when its event is missing; each carries the record's title and body. */
  function RecordPushes(n: Notification, events: map<string, Doc>, users: map<string, UserDoc>): (pushes: seq<Push>)
    ensures n.eventId !in events ==> pushes == []
    ensures forall p :: p in pushes ==> p.title == n.title && p.body == n.body
  {
    if n.eventId in events then FanOut(events[n.eventId].assignedMembers, users, n.title, n.body) else []
  }

  /** The pushes for a run of records, in order; each carries the title and body of a record of the run. */
  function BatchPushes(batch: seq<Notification>, events: map<string, Doc>, users: map<string, UserDoc>): (pushes: seq<Push>)
    ensures forall p :: p in pushes ==> exists n :: n in batch && p.title == n.title && p.body == n.body
  {
    if batch == [] then []
    else
      var init := batch[..|batch| - 1];
      assert forall n :: n in init ==> n in batch;
      BatchPushes(init, events, users) + RecordPushes(batch[|batch| - 1], events, users)
  }

  /**
   * The fan-out is the members with a token, in order, each mapped to one
   * push with that member's token and the record's title and body.
   */
  lemma {:induction false} FanOutPushes(members: seq<string>, users: map<string, UserDoc>, title: string, body: string)
    ensures var holders := Where(members, m => HasToken(users, m));
            var pushes := FanOut(members, users, title, body);
            && |pushes| == |holders|
            && forall i :: 0 <= i < |holders| ==>
                 && HasToken(users, holders[i])
                 && pushes[i] == Push(users[holders[i]].expoPushToken.value, title, body)
  {
    if members != [] {
      var init, last := members[..|members| - 1], members[|members| - 1];
      assert members == init + [last];
      assert FanOut(members, users, title, body) == FanOut(init, users, title, body) + PushTo(users, last, title, body);
      FanOutPushes(init, users, title, body);
      WhereAppend(init, [last], m => HasToken(users, m));
      WhereOne(last, m => HasToken(users, m));
    }
  }

  /** Stopping after `j` members has sent a prefix of the record's pushes. */
  lemma {:induction false} FanOutPrefix(members: seq<string>, j: nat, users: map<string, UserDoc>, title: string, body: string)
    requires j <= |members|
    ensures FanOut(members[..j], users, title, body) <= FanOut(members, users, title, body)
  {
    if j < |members| {
      var init := members[..|members| - 1];
      assert members[..j] == init[..j];
      FanOutPrefix(init, j, users, title, body);
    } else {
      assert members[..j] == members;
    }
  }

  lemma FanOutStep(members: seq<string>, j: nat, users: map<string, UserDoc>, title: string, body: string)
    requires j < |members|
    ensures FanOut(members[..j + 1], users, title, body)
            == FanOut(members[..j], users, title, body) + PushTo(users, members[j], title, body)
  {
    assert members[..j + 1][..j] == members[..j];
  }

  lemma BatchStep(batch: seq<Notification>, k: nat, events: map<string, Doc>, users: map<string, UserDoc>)
    requires k < |batch|
    ensures BatchPushes(batch[..k + 1], events, users) == BatchPushes(batch[..k], events, users) + RecordPushes(batch[k], events, users)
    ensures IdsOf(batch[..k + 1]) == IdsOf(batch[..k]) + {batch[k].id}
  {
    assert batch[..k + 1][..k] == batch[..k];
    assert batch[..k + 1] == batch[..k] + [batch[k]];
  }

  // ---------------------------------------------------------------------
  // The sweep: remote calls, numbered from 0 (the due query) in issue order
  // ---------------------------------------------------------------------

  /** One member costs the user read, and the send when the member has a token. */
  function MemberCalls(users: map<string, UserDoc>, userId: string): nat
  {
    if HasToken(users, userId) then 2 else 1
  }

  /** The calls of a fan-out, member by member in list order. */
  function FanOutCalls(members: seq<string>, users: map<string, UserDoc>): nat
  {
    if members == [] then 0
    else FanOutCalls(members[..|members| - 1], users) + MemberCalls(users, members[|members| - 1])
  }

  /** The calls for one record before its update: the event read, then the fan-out when the event exists. */
  function DispatchCalls(n: Notification, events: map<string, Doc>, users: map<string, UserDoc>): nat
  {
    1 + if n.eventId in events then FanOutCalls(events[n.eventId].assignedMembers, users) else 0
  }

  /** The calls for one record: its dispatch, then the "sent" update. */
  function RecordCalls(n: Notification, events: map<string, Doc>, users: map<string, UserDoc>): nat
  {
    DispatchCalls(n, events, users) + 1
  }

  /** The calls for a run of records, in order. */
  function BatchCalls(batch: seq<Notification>, events: map<string, Doc>, users: map<string, UserDoc>): nat
  {
    if batch == [] then 0
    else BatchCalls(batch[..|batch| - 1], events, users) + RecordCalls(batch[|batch| - 1], events, users)
  }

  /** No call numbered in `[lo, hi)` throws; `failAt` is the number of the call that throws, if any. */
  predicate NoThrowIn(failAt: Option<nat>, lo: int, hi: int)
  {
    failAt.None? || failAt.value < lo || hi <= failAt.value
  }

  /** The throwing call is one of record `k`'s calls, in a batch whose calls are numbered from `calls0`. */
  predicate ThrowInRecord(failAt: Option<nat>, calls0: int, batch: seq<Notification>, k: nat,
                          events: map<string, Doc>, users: map<string, UserDoc>)
  {
    && failAt.Some?
    && k < |batch|
    && calls0 + BatchCalls(batch[..k], events, users) <= failAt.value
    && failAt.value < calls0 + BatchCalls(batch[..k + 1], events, users)
  }

  /** A fan-out makes one call per member and one more per member with a token. */
  lemma {:induction false} FanOutCallsCount(members: seq<string>, users: map<string, UserDoc>)
    ensures FanOutCalls(members, users) == |members| + |Where(members, m => HasToken(users, m))|
  {
    if members != [] {
      var init, last := members[..|members| - 1], members[|members| - 1];
      assert members == init + [last];
      FanOutCallsCount(init, users);
      WhereAppend(init, [last], m => HasToken(users, m));
      WhereOne(last, m => HasToken(users, m));
    }
  }

  /** The first `j` members make no more calls than the whole fan-out. */
  lemma {:induction false} FanOutCallsPrefix(members: seq<string>, j: nat, users: map<string, UserDoc>)
    requires j <= |members|
    ensures FanOutCalls(members[..j], users) <= FanOutCalls(members, users)
  {
    if j < |members| {
      var init := members[..|members| - 1];
      assert members[..j] == init[..j];
      FanOutCallsPrefix(init, j, users);
    } else {
      assert members[..j] == members;
    }
  }

  /** One more member adds that member's calls, and stays within the whole fan-out's calls. */
  lemma FanOutCallsStep(members: seq<string>, j: nat, users: map<string, UserDoc>)
    requires j < |members|
    ensures FanOutCalls(members[..j + 1], users) == FanOutCalls(members[..j], users) + MemberCalls(users, members[j])
    ensures FanOutCalls(members[..j + 1], users) <= FanOutCalls(members, users)
  {
    assert members[..j + 1][..j] == members[..j];
    FanOutCallsPrefix(members, j + 1, users);
  }

  /** One more record adds that record's calls, and stays within the whole batch's calls. */
  lemma BatchCallsStep(batch: seq<Notification>, k: nat, events: map<string, Doc>, users: map<string, UserDoc>)
    requires k < |batch|
    ensures BatchCalls(batch[..k + 1], events, users) == BatchCalls(batch[..k], events, users) + RecordCalls(batch[k], events, users)
    ensures BatchCalls(batch[..k + 1], events, users) <= BatchCalls(batch, events, users)
  {
    assert batch[..k + 1][..k] == batch[..k];
    BatchCallsPrefix(batch, k + 1, events, users);
  }

  /**
   * A throw among record `k`'s calls, after the earlier records' calls ran
   * without one, is a throw within the batch's calls, located in record `k`.
   */
  lemma ThrowLocated(failAt: Option<nat>, calls0: nat, batch: seq<Notification>, k: nat,
                     events: map<string, Doc>, users: map<string, UserDoc>)
    requires k < |batch|
    requires var c := calls0 + BatchCalls(batch[..k], events, users);
             !NoThrowIn(failAt, c, c + RecordCalls(batch[k], events, users))
    ensures ThrowInRecord(failAt, calls0, batch, k, events, users)
    ensures !NoThrowIn(failAt, calls0, calls0 + BatchCalls(batch, events, users))
  {
    BatchCallsStep(batch, k, events, users);
  }

  /** The first `k` records make no more calls than the whole batch. */
  lemma {:induction false} BatchCallsPrefix(batch: seq<Notification>, k: nat, events: map<string, Doc>, users: map<string, UserDoc>)
    requires k <= |batch|
    ensures BatchCalls(batch[..k], events, users) <= BatchCalls(batch, events, users)
  {
    if k < |batch| {
      var init := batch[..|batch| - 1];
      assert batch[..k] == init[..k];
      BatchCallsPrefix(init, k, events, users);
    } else {
      assert batch[..k] == batch;
    }
  }

  // ---------------------------------------------------------------------
  // The sweep: what went out before a throw
  // ---------------------------------------------------------------------

  /**
   * The pushes of a fan-out whose send is a call numbered below `stop`, the
   * fan-out's calls being numbered from `calls0`: what went out when call
   * `stop` throws.
   */
  function FanOutBefore(members: seq<string>, users: map<string, UserDoc>, title: string, body: string,
                        calls0: int, stop: int): seq<Push>
  {
    if members == [] then []
    else
      var init := members[..|members| - 1];
      FanOutBefore(init, users, title, body, calls0, stop)
      + if calls0 + FanOutCalls(init, users) + 1 < stop then PushTo(users, members[|members| - 1], title, body) else []
  }

  /** The pushes of a record whose send is a call numbered below `stop`, its calls numbered from `calls0`. */
  function RecordBefore(n: Notification, events: map<string, Doc>, users: map<string, UserDoc>, calls0: int, stop: int)
    : seq<Push>
  {
    if n.eventId in events then FanOutBefore(events[n.eventId].assignedMembers, users, n.title, n.body, calls0 + 1, stop)
    else []
  }

  /**
   * The pushes of record `processed` of a batch whose send is a call numbered
   * below `stop`, the batch's calls numbered from `calls0`; none past the end.
   */
  function PendingBefore(batch: seq<Notification>, processed: nat, events: map<string, Doc>, users: map<string, UserDoc>,
                         calls0: int, stop: int): seq<Push>
  {
    if processed < |batch|
    then RecordBefore(batch[processed], events, users, calls0 + BatchCalls(batch[..processed], events, users), stop)
    else []
  }

  /**
   * When call `stop` falls on member `j` (its user read, or its send), the
   * pushes that went out are exactly those to the first `j` members; when it
   * falls past the last member, the whole fan-out went out.
   */
  lemma {:induction false} FanOutBeforeCut(members: seq<string>, j: nat, users: map<string, UserDoc>, title: string, body: string,
                                           calls0: int, stop: int)
    requires j <= |members|
    requires j > 0 ==> calls0 + FanOutCalls(members[..j], users) <= stop
    requires j < |members| ==> stop <= calls0 + FanOutCalls(members[..j], users) + 1
    ensures FanOutBefore(members, users, title, body, calls0, stop) == FanOut(members[..j], users, title, body)
  {
    if members != [] {
      var init, last := members[..|members| - 1], members[|members| - 1];
      if j == |members| {
        assert members[..j] == members;
        assert init[..|init|] == init;
        FanOutBeforeCut(init, |init|, users, title, body, calls0, stop);
      } else {
        assert members[..j] == init[..j];
        FanOutCallsPrefix(init, j, users);
        FanOutBeforeCut(init, j, users, title, body, calls0, stop);
      }
    }
  }

  /** What goes out before a throw is a prefix of the fan-out. */
  lemma {:induction false} FanOutBeforePrefix(members: seq<string>, users: map<string, UserDoc>, title: string, body: string,
                                              calls0: int, stop: int)
    ensures FanOutBefore(members, users, title, body, calls0, stop) <= FanOut(members, users, title, body)
  {
    if members != [] {
      var init, last := members[..|members| - 1], members[|members| - 1];
      if calls0 + FanOutCalls(init, users) + 1 < stop {
        assert init[..|init|] == init;
        FanOutBeforeCut(init, |init|, users, title, body, calls0, stop);
      } else {
        FanOutBeforePrefix(init, users, title, body, calls0, stop);
      }
    }
  }

  /** A throw at or before a record's first call means none of its pushes went out. */
  lemma RecordBeforeStart(n: Notification, events: map<string, Doc>, users: map<string, UserDoc>, calls0: int, stop: int)
    requires stop <= calls0
    ensures RecordBefore(n, events, users, calls0, stop) == []
  {
    if n.eventId in events {
      FanOutBeforeCut(events[n.eventId].assignedMembers, 0, users, n.title, n.body, calls0 + 1, stop);
    }
  }

  /** A throw after a record's dispatch means all of its pushes went out. */
  lemma RecordBeforeAll(n: Notification, events: map<string, Doc>, users: map<string, UserDoc>, calls0: int, stop: int)
    requires calls0 + DispatchCalls(n, events, users) <= stop
    ensures RecordBefore(n, events, users, calls0, stop) == RecordPushes(n, events, users)
  {
    if n.eventId in events {
      var members := events[n.eventId].assignedMembers;
      assert members[..|members|] == members;
      FanOutBeforeCut(members, |members|, users, n.title, n.body, calls0 + 1, stop);
    }
  }

  /** What goes out of a record before a throw is a prefix of its pushes. */
  lemma RecordBeforePrefix(n: Notification, events: map<string, Doc>, users: map<string, UserDoc>, calls0: int, stop: int)
    ensures RecordBefore(n, events, users, calls0, stop) <= RecordPushes(n, events, users)
  {
    if n.eventId in events {
      FanOutBeforePrefix(events[n.eventId].assignedMembers, users, n.title, n.body, calls0 + 1, stop);
    }
  }

  /**
   * The outbox after call `stop` of a batch (calls numbered from `calls0`)
   * threw while record `processed` was handled: `out0`, then the pushes of
   * the handled records, then those of record `processed` sent before the throw.
   */
  predicate AbortedOutbox(outbox: seq<Push>, out0: seq<Push>, batch: seq<Notification>, processed: nat,
                          events: map<string, Doc>, users: map<string, UserDoc>, calls0: int, stop: int)
    requires processed <= |batch|
  {
    outbox == Delivered(out0, batch, processed, events, users) + PendingBefore(batch, processed, events, users, calls0, stop)
  }

  /** A throw while record `k` is handled, after the earlier records were delivered, is an aborted outbox at `k`. */
  lemma AbortInRecord(outbox: seq<Push>, out0: seq<Push>, batch: seq<Notification>, k: nat,
                      events: map<string, Doc>, users: map<string, UserDoc>, calls0: int, stop: int)
    requires k < |batch|
    requires outbox == Delivered(out0, batch, k, events, users)
                       + RecordBefore(batch[k], events, users, calls0 + BatchCalls(batch[..k], events, users), stop)
    ensures AbortedOutbox(outbox, out0, batch, k, events, users, calls0, stop)
  {
  }

  /** A throw in the due query (call 0), before the batch's calls from 1, leaves the outbox as it was. */
  lemma AbortAtDueQuery(outbox: seq<Push>, batch: seq<Notification>, events: map<string, Doc>, users: map<string, UserDoc>)
    ensures AbortedOutbox(outbox, outbox, batch, 0, events, users, 1, 0)
    ensures !NoThrowIn(Some(0), 0, 1 + BatchCalls(batch, events, users))
  {
    assert batch[..0] == [];
    if batch != [] {
      RecordBeforeStart(batch[0], events, users, 1, 0);
    }
  }

  /** The outbox once the first `processed` records of a batch are fully handled. */
  function Delivered(outbox: seq<Push>, batch: seq<Notification>, processed: nat,
                     events: map<string, Doc>, users: map<string, UserDoc>): seq<Push>
    requires processed <= |batch|
  {
    outbox + BatchPushes(batch[..processed], events, users)
  }

  /** Handling record `k` completely extends both the delivered pushes and the marked ids by that record. */
  lemma HandledStep(batch: seq<Notification>, k: nat, events: map<string, Doc>, users: map<string, UserDoc>,
                    ns0: seq<Notification>, out0: seq<Push>)
    requires k < |batch|
    ensures Delivered(out0, batch, k, events, users) + RecordPushes(batch[k], events, users)
            == Delivered(out0, batch, k + 1, events, users)
    ensures MarkSent(MarkSent(ns0, IdsOf(batch[..k])), {batch[k].id}) == MarkSent(ns0, IdsOf(batch[..k + 1]))
  {
    BatchStep(batch, k, events, users);
    MarkSentTwice(ns0, IdsOf(batch[..k]), batch[k].id);
  }

  lemma MarkSentTwice(ns: seq<Notification>, ids: set<string>, id: string)
    ensures MarkSent(MarkSent(ns, ids), {id}) == MarkSent(ns, ids + {id})
  {
  }

  /** A single due record is the whole batch; one that is not due gives an empty batch. */
  lemma DueBatchOfOne(n: Notification, now: int)
    ensures DueBatch([n], now) == if IsDue(n, now) then [n] else []
  {
    var due := Where([n], m => IsDue(m, now));
    assert Where([n][1..], m => IsDue(m, now)) == [];
    assert Sorting.SortBy(due, ByScheduledTime) == due by {
      if due != [] {
        assert due[..0] == [];
      }
    }
  }

  /** A completed sweep over a one-record batch. */
  lemma SweepOfOne(rec: Notification, events: map<string, Doc>, users: map<string, UserDoc>)
    ensures MarkSent([rec], IdsOf([rec])) == [rec.(sent := true)]
    ensures BatchPushes([rec], events, users) == RecordPushes(rec, events, users)
  {
    assert IdsOf([rec]) == {rec.id};
    assert [rec][..0] == [];
  }

  /**
   * With the corrected reminder time: an event created two hours before its
   * start gets a record due ninety minutes later; a sweep one minute after
   * that selects it, pushes once per assigned member with a token, and marks
   * it sent.
   */
  lemma ReminderScenarioIntended(event: Doc, eventId: string, t: int, newId: string,
                                 users: map<string, UserDoc>)
    requires event.startDate == Some(t + 2 * 60 * 60 * 1000)
    ensures var r := ScheduleIntended(event, eventId, t, newId);
            && r.Some? && r.value.scheduledTime == t + 90 * 60 * 1000 && !r.value.sent
            && var batch := DueBatch([r.value], t + 91 * 60 * 1000);
               && batch == [r.value]
               && MarkSent([r.value], IdsOf(batch)) == [r.value.(sent := true)]
               && BatchPushes(batch, map[eventId := event], users)
                  == FanOut(event.assignedMembers, users, event.title, ReminderBody(event.title))
  {
    var rec := ScheduleIntended(event, eventId, t, newId).value;
    DueBatchOfOne(rec, t + 91 * 60 * 1000);
    SweepOfOne(rec, map[eventId := event], users);
  }

  /** As written, the same event's record is not due at that sweep: it waits until half an hour after the start. */
  lemma ReminderScenarioAsWritten(event: Doc, eventId: string, t: int, newId: string)
    requires event.startDate == Some(t + 2 * 60 * 60 * 1000)
    ensures var r := Schedule(event, eventId, t, newId);
            && r.Some? && r.value.scheduledTime == t + 150 * 60 * 1000
            && DueBatch([r.value], t + 91 * 60 * 1000) == []
  {
    var r := Schedule(event, eventId, t, newId);
    DueBatchOfOne(r.value, t + 91 * 60 * 1000);
  }

  // ---------------------------------------------------------------------
  // The backend state
  // ---------------------------------------------------------------------

  class Backend {
    /** The "notifications" collection, in store order. */
    var notifications: seq<Notification>
    /** Every push handed to the delivery service, in order. */
    var outbox: seq<Push>

    constructor (ns: seq<Notification>)
      ensures notifications == ns && outbox == []
    {
      notifications := ns;
      outbox := [];
    }

    /**
     * The create trigger, with the reminder time corrected: writes the record
     * `ScheduleIntended` decides on, if any.
     */
    method SchedulePushNotification(event: Doc, eventId: string, now: int, newId: string, storeUp: bool)
      returns (r: Result<(), Error>)
      modifies this`notifications
      ensures ScheduleIntended(event, eventId, now, newId).None? ==> r == Ok(()) && notifications == old(notifications)
      ensures ScheduleIntended(event, eventId, now, newId).Some? && storeUp ==>
                r == Ok(()) && notifications == old(notifications) + [ScheduleIntended(event, eventId, now, newId).value]
      ensures ScheduleIntended(event, eventId, now, newId).Some? && !storeUp ==>
                r == Err(StoreUnavailable) && notifications == old(notifications)
      ensures outbox == old(outbox)
    {
      var record := ScheduleIntended(event, eventId, now, newId);
      if record.None? {
        return Ok(());
      }
      if !storeUp {
        return Err(StoreUnavailable);
      }
      notifications := notifications + [record.value];
      r := Ok(());
    }

    /**
     * One member of the inner loop: read the user, numbered call `calls0`,
     * and when the user has a token send, call `calls0 + 1`. On a throw
     * nothing was sent and `calls` is the throwing call's number.
     */
    method SendToMember(userId: string, users: map<string, UserDoc>, title: string, body: string,
                        failAt: Option<nat>, calls0: nat)
      returns (ok: bool, calls: nat)
      modifies this`outbox
      ensures ok <==> NoThrowIn(failAt, calls0, calls0 + MemberCalls(users, userId))
      ensures ok ==> calls == calls0 + MemberCalls(users, userId) && outbox == old(outbox) + PushTo(users, userId, title, body)
      ensures !ok ==> failAt == Some(calls) && outbox == old(outbox)
    {
      // the user read
      if failAt == Some(calls0) {
        return false, calls0;
      }
      if !HasToken(users, userId) {
        assert outbox == old(outbox) + [];
        return true, calls0 + 1;
      }
      // the send
      if failAt == Some(calls0 + 1) {
        return false, calls0 + 1;
      }
      outbox := outbox + [Push(users[userId].expoPushToken.value, title, body)];
      ok, calls := true, calls0 + 2;
    }

    /**
     * The inner loop of the sweep: for each member read the user and, with a
     * token, send. The calls are numbered from `calls0`; the run completes
     * exactly when none of its calls is the one that throws, and on a throw
     * `calls` is that call's number and a prefix of the fan-out went out.
     */
    method SendToMembers(members: seq<string>, users: map<string, UserDoc>, title: string, body: string,
                         failAt: Option<nat>, calls0: nat)
      returns (ok: bool, calls: nat)
      modifies this`outbox
      ensures ok <==> NoThrowIn(failAt, calls0, calls0 + FanOutCalls(members, users))
      ensures ok ==> calls == calls0 + FanOutCalls(members, users)
      ensures !ok ==> failAt == Some(calls)
      ensures ok ==> outbox == old(outbox) + FanOut(members, users, title, body)
      ensures !ok ==> outbox == old(outbox) + FanOutBefore(members, users, title, body, calls0, calls)
    {
      ok, calls := false, calls0;
      var j := 0;
      assert members[..0] == [];
      while j < |members|
        invariant 0 <= j <= |members|
        invariant calls == calls0 + FanOutCalls(members[..j], users)
        invariant NoThrowIn(failAt, calls0, calls)
        invariant outbox == old(outbox) + FanOut(members[..j], users, title, body)
      {
        ghost var sent := FanOut(members[..j], users, title, body);
        FanOutStep(members, j, users, title, body);
        FanOutCallsStep(members, j, users);
        var sentOk, c := SendToMember(members[j], users, title, body, failAt, calls);
        if !sentOk {
          FanOutBeforeCut(members, j, users, title, body, calls0, c);
          assert outbox == old(outbox) + FanOutBefore(members, users, title, body, calls0, c);
          return false, c;
        }
        calls := c;
        assert outbox == old(outbox) + (sent + PushTo(users, members[j], title, body));
        j := j + 1;
      }
      assert members[..j] == members;
      ok := true;
    }

    /**
     * The handling of one due record before it is marked: read its event,
     * then fan out to its assigned members. It completes exactly when none of
     * its calls throws; on a throw a prefix of the record's pushes went out.
     */
    method DispatchRecord(n: Notification, events: map<string, Doc>, users: map<string, UserDoc>,
                          failAt: Option<nat>, calls0: nat)
      returns (ok: bool, calls: nat)
      modifies this`outbox
      ensures ok <==> NoThrowIn(failAt, calls0, calls0 + DispatchCalls(n, events, users))
      ensures ok ==> calls == calls0 + DispatchCalls(n, events, users)
      ensures !ok ==> failAt == Some(calls)
      ensures ok ==> outbox == old(outbox) + RecordPushes(n, events, users)
      ensures !ok ==> outbox == old(outbox) + RecordBefore(n, events, users, calls0, calls)
    {
      // the event read
      if failAt == Some(calls0) {
        RecordBeforeStart(n, events, users, calls0, calls0);
        assert outbox == old(outbox) + [];
        return false, calls0;
      }
      if n.eventId !in events {
        assert outbox == old(outbox) + [];
        return true, calls0 + 1;
      }
      ok, calls := SendToMembers(events[n.eventId].assignedMembers, users, n.title, n.body, failAt, calls0 + 1);
    }

    /**
     * Record `k` of the batch, dispatched and then marked sent. On a throw the
     * record stays unsent and a prefix of its pushes went out.
     */
    method HandleRecord(batch: seq<Notification>, k: nat, events: map<string, Doc>, users: map<string, UserDoc>,
                        failAt: Option<nat>, calls0: nat, ghost ns0: seq<Notification>, ghost out0: seq<Push>)
      returns (ok: bool, calls: nat)
      requires k < |batch|
      requires notifications == MarkSent(ns0, IdsOf(batch[..k]))
      requires outbox == Delivered(out0, batch, k, events, users)
      modifies this`notifications, this`outbox
      ensures ok <==> NoThrowIn(failAt, calls0, calls0 + RecordCalls(batch[k], events, users))
      ensures ok ==> calls == calls0 + RecordCalls(batch[k], events, users)
      ensures !ok ==> failAt == Some(calls)
      ensures ok ==> notifications == MarkSent(ns0, IdsOf(batch[..k + 1]))
                     && outbox == Delivered(out0, batch, k + 1, events, users)
      ensures !ok ==> notifications == old(notifications)
                      && outbox == old(outbox) + RecordBefore(batch[k], events, users, calls0, calls)
    {
      var n := batch[k];
      ok, calls := DispatchRecord(n, events, users, failAt, calls0);
      if !ok {
        return;
      }
      // the "sent" update
      if failAt == Some(calls) {
        RecordBeforeAll(n, events, users, calls0, calls);
        return false, calls;
      }
      calls := calls + 1;
      HandledStep(batch, k, events, users, ns0, out0);
      notifications := MarkSent(notifications, {n.id});
    }

    /**
     * One run of the sweep. Call 0 is the due query; the batch's calls follow
     * from 1. The run completes exactly when none of its calls throws.
     * `processed` records of the due batch were fully handled and marked
     * sent; on an abort the throw lies within the next record's calls, that
     * record has sent a prefix of its pushes and is left unsent, and the rest
     * are untouched.
     */
    method SendScheduledNotifications(now: int, events: map<string, Doc>, users: map<string, UserDoc>, failAt: Option<nat>)
      returns (completed: bool, processed: nat)
      modifies this`notifications, this`outbox
      ensures processed <= |DueBatch(old(notifications), now)|
      ensures completed <==> NoThrowIn(failAt, 0, 1 + BatchCalls(DueBatch(old(notifications), now), events, users))
      ensures completed ==> processed == |DueBatch(old(notifications), now)|
      ensures failAt == Some(0) ==> !completed && processed == 0
      ensures !completed && failAt != Some(0) ==>
                ThrowInRecord(failAt, 1, DueBatch(old(notifications), now), processed, events, users)
      ensures notifications == MarkSent(old(notifications), IdsOf(DueBatch(old(notifications), now)[..processed]))
      ensures completed ==> outbox == old(outbox) + BatchPushes(DueBatch(old(notifications), now), events, users)
      ensures failAt == Some(0) ==> outbox == old(outbox)
      ensures !completed ==>
                AbortedOutbox(outbox, old(outbox), DueBatch(old(notifications), now), processed, events, users, 1, failAt.value)
    {
      var batch := DueBatch(notifications, now);
      assert batch[..0] == [];
      // the due query
      if failAt == Some(0) {
        AbortAtDueQuery(outbox, batch, events, users);
        return false, 0;
      }
      completed, processed := SendBatch(batch, events, users, failAt, 1);
    }

    /**
     * The loop over the due batch, its calls numbered from `calls0`. Records
     * are handled in order until one throws; the loop completes exactly when
     * none of its calls throws, and otherwise the throw lies within the calls
     * of record `processed`.
     */
    method SendBatch(batch: seq<Notification>, events: map<string, Doc>, users: map<string, UserDoc>,
                     failAt: Option<nat>, calls0: nat)
      returns (completed: bool, processed: nat)
      modifies this`notifications, this`outbox
      ensures processed <= |batch|
      ensures completed <==> NoThrowIn(failAt, calls0, calls0 + BatchCalls(batch, events, users))
      ensures completed ==> processed == |batch|
      ensures !completed ==> ThrowInRecord(failAt, calls0, batch, processed, events, users)
      ensures notifications == MarkSent(old(notifications), IdsOf(batch[..processed]))
      ensures completed ==> outbox == old(outbox) + BatchPushes(batch, events, users)
      ensures !completed ==> AbortedOutbox(outbox, old(outbox), batch, processed, events, users, calls0, failAt.value)
    {
      ghost var ns0 := notifications;
      ghost var out0 := outbox;
      var calls := calls0;
      completed, processed := false, 0;
      assert batch[..0] == [];
      while processed < |batch|
        invariant processed <= |batch|
        invariant calls == calls0 + BatchCalls(batch[..processed], events, users)
        invariant NoThrowIn(failAt, calls0, calls)
        invariant notifications == MarkSent(ns0, IdsOf(batch[..processed]))
        invariant outbox == Delivered(out0, batch, processed, events, users)
      {
        BatchCallsStep(batch, processed, events, users);
        var ok;
        ok, calls := HandleRecord(batch, processed, events, users, failAt, calls, ns0, out0);
        if !ok {
          ThrowLocated(failAt, calls0, batch, processed, events, users);
          AbortInRecord(outbox, out0, batch, processed, events, users, calls0, failAt.value);
          return;
        }
        processed := processed + 1;
      }
      assert batch[..processed] == batch;
      completed := true;
    }
  }
}
