// The outbox publisher: fetch a batch, publish and mark event by event inside one transaction,
// stop at the first error.
module OutboxPublishers {
  import opened Options
  import opened PipelineModel
  import opened TaskStatuses
  import opened Handlers

  // What the calls for the events of one batch come back with, by position.
  datatype OutboxCalls = OutboxCalls(publishes: nat -> bool, marks: nat -> bool, commits: bool)

  // FOR UPDATE SKIP LOCKED: distinct unprocessed events that no open batch holds.
  ghost predicate Fetchable(s: State, batch: seq<EventID>) {
    && (forall i :: 0 <= i < |batch| ==> batch[i] in s.outbox && !s.outbox[batch[i]].processed && !Locked(s, batch[i]))
    && (forall i, j :: 0 <= i < j < |batch| ==> batch[i] != batch[j])
  }

  predicate Holds(flights: map<FlightID, Flight>, f: FlightID, batch: seq<EventID>, n: nat) {
    f in flights && flights[f] == Publishing(batch, n)
  }

  predicate Succeeds(r: OutboxRow, published: bool, marked: bool) {
    match r.payload
    case TaskEnqueued(_) => published && marked
    case OtherEvent => marked
    case Unreadable => false
  }

  // The messages of the first n events of a batch; other events have none.
  function MessagesOf(rows: map<EventID, OutboxRow>, batch: seq<EventID>): seq<CrawlMessage>
    requires forall i :: 0 <= i < |batch| ==> batch[i] in rows
  {
    if batch == [] then []
    else
      var n := |batch| - 1;
      var r := rows[batch[n]];
      MessagesOf(rows, batch[..n]) + if r.payload.TaskEnqueued? then [r.payload.message] else []
  }

  // The same events with the same payloads, the given ones marked.
  ghost predicate Marks(before: map<EventID, OutboxRow>, after: map<EventID, OutboxRow>, marked: set<EventID>) {
    && after.Keys == before.Keys
    && forall e :: e in before ==> after[e].payload == before[e].payload && (after[e].processed <==> before[e].processed || e in marked)
  }

  function ProcessedRows(rows: map<EventID, OutboxRow>, marked: set<EventID>): map<EventID, OutboxRow> {
    map e | e in rows :: if e in marked then rows[e].(processed := true) else rows[e]
  }

  function AbortedRows(rows: map<EventID, OutboxRow>, batch: seq<EventID>, attempted: Option<EventID>): map<EventID, OutboxRow> {
    map e | e in rows ::
      if e !in batch then rows[e]
      else rows[e].(aborts := rows[e].aborts + 1, attempts := rows[e].attempts + if attempted == Some(e) then 1 else 0)
  }

  lemma FetchingBatch(s: State, f: FlightID, batch: seq<EventID>)
    requires f !in s.flights && Fetchable(s, batch)
    ensures var l := BatchFetched(f, batch);
            && Enabled(s, l) && TablesOf(Apply(s, l)) == TablesOf(s) && Apply(s, l).flights == s.flights[f := Publishing(batch, 0)]
  {
  }

  lemma PublishingEvent(s: State, f: FlightID)
    requires IsPublishing(s, f) && Upcoming(s, f).Some? && Upcoming(s, f).value.payload.TaskEnqueued?
    ensures var b := s.flights[f];
            var e := b.batch[b.next];
            var r := s.outbox[e];
            var l := EventPublished(f);
            && Enabled(s, l)
            && TablesOf(Apply(s, l)) ==
               TablesOf(s).(crawlLog := s.crawlLog + [r.payload.message], outbox := s.outbox[e := r.(attempts := r.attempts + 1)])
            && Apply(s, l).flights == s.flights[f := Publishing(b.batch, b.next + 1)]
  {
  }

  lemma SkippingEvent(s: State, f: FlightID)
    requires IsPublishing(s, f) && Upcoming(s, f).Some? && Upcoming(s, f).value.payload.OtherEvent?
    ensures var l := EventSkipped(f);
            && Enabled(s, l) && TablesOf(Apply(s, l)) == TablesOf(s)
            && Apply(s, l).flights == s.flights[f := Publishing(s.flights[f].batch, s.flights[f].next + 1)]
  {
  }

  lemma AbortingBatch(s: State, f: FlightID, attempted: bool)
    requires IsPublishing(s, f) && (attempted ==> Upcoming(s, f).Some? && Upcoming(s, f).value.payload.TaskEnqueued?)
    ensures var b := s.flights[f];
            var l := BatchAborted(f, attempted);
            var tried := if attempted then Some(b.batch[b.next]) else None;
            && Enabled(s, l)
            && TablesOf(Apply(s, l)) == TablesOf(s).(outbox := AbortedRows(s.outbox, b.batch, tried))
            && Apply(s, l).flights == s.flights - {f}
  {
  }

  lemma CommittingBatch(s: State, f: FlightID, marked: set<EventID>)
    requires IsPublishing(s, f) && s.flights[f].next == |s.flights[f].batch|
    requires forall e :: e in marked <==> e in s.flights[f].batch
    ensures var l := BatchCommitted(f);
            && Enabled(s, l)
            && TablesOf(Apply(s, l)) == TablesOf(s).(outbox := ProcessedRows(s.outbox, marked))
            && Apply(s, l).flights == s.flights - {f}
  {
  }

  class OutboxPublisher {
    const world: World

    constructor (world: World)
      ensures this.world == world
    {
      this.world := world;
    }

    // processEvent: publish the task's message and mark the event in the transaction; mark an
    // event of another kind; fail on anything else.
    method ProcessEvent(e: EventID, published: bool, marked: bool, ghost f: FlightID, ghost batch: seq<EventID>, ghost i: nat)
      returns (ok: bool, attempted: bool)
      requires world.Valid() && i < |batch| && batch[i] == e && e in world.outbox
      requires f in world.flights && world.flights[f] == Publishing(batch, i)
      modifies world
      ensures world.Valid() && old(world.trace) <= world.trace
      ensures EventHandled(old(world.AbsTables()), world.AbsTables(), e, published, marked, ok)
      ensures ok <==> marked && match old(world.outbox)[e].payload
                                case TaskEnqueued(_) => published
                                case OtherEvent => true
                                case Unreadable => false
      ensures attempted == (old(world.outbox)[e].payload.TaskEnqueued? && !published)
      ensures ok ==> world.flights == old(world.flights)[f := Publishing(batch, i + 1)]
      ensures !ok ==> f in world.flights && world.flights - {f} == old(world.flights) - {f} && world.flights[f].Publishing?
                      && world.flights[f].batch == batch && (attempted ==> world.flights[f].next == i)
    {
      hide Apply, Enabled, ValidRun, Outcome;
      attempted := false;
      var r := world.outbox[e];
      match r.payload {
        case TaskEnqueued(m) =>
          if published {
            PublishingEvent(world.Abs(), f);
            world.PublishEvent(e, m, EventPublished(f));
          } else {
            attempted := true;
          }
          ok := published && marked;
        case OtherEvent =>
          if marked {
            SkippingEvent(world.Abs(), f);
            world.Goes(EventSkipped(f));
          }
          ok := marked;
        case Unreadable =>
          ok := false;
      }
    }

    method Rollback(batch: seq<EventID>, attempted: Option<EventID>, ghost f: FlightID)
      requires world.Valid() && f in world.flights && world.flights[f].Publishing? && world.flights[f].batch == batch
      requires attempted.Some? ==>
                 var i := world.flights[f].next;
                 i < |batch| && batch[i] == attempted.value && batch[i] in world.outbox && world.outbox[batch[i]].payload.TaskEnqueued?
      modifies world
      ensures world.Valid() && old(world.trace) <= world.trace && world.flights == old(world.flights) - {f}
      ensures OnlyHistory(old(world.AbsTables()), world.AbsTables())
    {
      hide Apply, Enabled, ValidRun, Outcome;
      AbortingBatch(world.Abs(), f, attempted.Some?);
      world.ReplaceOutbox(AbortedRows(world.outbox, batch, attempted), BatchAborted(f, attempted.Some?));
    }

    // One turn of the loop; the first error rolls the transaction back.
    method TryEvent(batch: seq<EventID>, n: nat, calls: OutboxCalls, ghost f: FlightID, ghost before: Tables) returns (ok: bool)
      requires world.Valid() && n < |batch| && Holds(world.flights, f, batch, n)
      requires (forall i :: 0 <= i < |batch| ==> batch[i] in before.outbox) && Progress(before, world.AbsTables(), batch, calls, n)
      modifies world
      ensures world.Valid() && old(world.trace) <= world.trace
      ensures ok ==> Progress(before, world.AbsTables(), batch, calls, n + 1)
                     && Holds(world.flights, f, batch, n + 1) && world.flights - {f} == old(world.flights) - {f}
      ensures !ok ==> BatchHandled(before, world.AbsTables(), batch, calls, n, false)
                      && world.flights == old(world.flights) - {f}
    {
      hide Apply, Enabled, ValidRun, Outcome, BatchHandled, OnlyHistory, Progress;
      var e := batch[n];
      ghost var now := world.AbsTables();
      ProgressKeepsRows(before, now, batch, calls, n);
      var attempted;
      ok, attempted := ProcessEvent(e, calls.publishes(n), calls.marks(n), f, batch, n);
      if ok {
        OneMore(before, now, world.AbsTables(), batch, calls, n);
      } else {
        ghost var last := world.AbsTables();
        Rollback(batch, if attempted then Some(e) else None, f);
        StoppedHere(before, now, last, world.AbsTables(), batch, calls, n);
      }
    }

    method CloseBatch(batch: seq<EventID>, marked: set<EventID>, calls: OutboxCalls, ghost f: FlightID, ghost before: Tables)
      requires world.Valid() && Holds(world.flights, f, batch, |batch|)
      requires (forall i :: 0 <= i < |batch| ==> batch[i] in before.outbox) && Progress(before, world.AbsTables(), batch, calls, |batch|)
      requires forall e :: e in marked <==> e in batch
      modifies world
      ensures world.Valid() && old(world.trace) <= world.trace && world.flights == old(world.flights) - {f}
      ensures BatchHandled(before, world.AbsTables(), batch, calls, |batch|, calls.commits)
    {
      hide Apply, Enabled, ValidRun, Outcome, BatchHandled, OnlyHistory, Progress;
      ghost var now := world.AbsTables();
      if calls.commits {
        CommittingBatch(world.Abs(), f, marked);
        world.ReplaceOutbox(ProcessedRows(world.outbox, marked), BatchCommitted(f));
        AllMarked(before, now, world.AbsTables(), batch, calls, marked);
      } else {
        Rollback(batch, None, f);
        AllRolledBack(before, now, world.AbsTables(), batch, calls);
      }
    }

    // One tick with the batch the repository returned. handled is the number of events that
    // went through before the loop ended.
    method ProcessOutboxEvents(batch: seq<EventID>, calls: OutboxCalls, ghost f: FlightID) returns (handled: nat, committed: bool)
      requires world.Valid() && f !in world.flights && Fetchable(world.Abs(), batch)
      modifies world
      ensures world.Valid() && old(world.trace) <= world.trace && world.flights == old(world.flights)
      ensures BatchHandled(old(world.AbsTables()), world.AbsTables(), batch, calls, handled, committed)
      ensures forall i :: 0 <= i < handled ==>
                calls.marks(i) && match old(world.outbox)[batch[i]].payload
                                  case TaskEnqueued(_) => calls.publishes(i)
                                  case OtherEvent => true
                                  case Unreadable => false
      ensures handled < |batch| ==>
                match old(world.outbox)[batch[handled]].payload
                case TaskEnqueued(_) => !calls.publishes(handled) || !calls.marks(handled)
                case OtherEvent => !calls.marks(handled)
                case Unreadable => true
    {
      hide Apply, Enabled, ValidRun, Outcome, BatchHandled, Progress, Locked;
      handled, committed := 0, false;
      var marked: set<EventID> := {};
      FetchingBatch(world.Abs(), f, batch);
      world.Goes(BatchFetched(f, batch));
      ghost var before := world.AbsTables();
      NoneYet(before, batch, calls);
      while handled < |batch|
        invariant handled <= |batch|
        invariant world.Valid() && old(world.trace) <= world.trace
        invariant Holds(world.flights, f, batch, handled) && world.flights - {f} == old(world.flights)
        invariant Progress(before, world.AbsTables(), batch, calls, handled)
        invariant forall e :: e in marked <==> e in batch[..handled]
      {
        var ok := TryEvent(batch, handled, calls, f, before);
        if !ok {
          StoppedByFailure(before, world.AbsTables(), batch, calls, handled, false);
          return;
        }
        marked := marked + {batch[handled]};
        handled := handled + 1;
      }
      assert batch[..handled] == batch;
      CloseBatch(batch, marked, calls, f, before);
      committed := calls.commits;
      StoppedByFailure(before, world.AbsTables(), batch, calls, handled, committed);
    }
  }

  lemma StoppedByFailure(before: Tables, after: Tables, batch: seq<EventID>, calls: OutboxCalls, handled: nat, committed: bool)
    requires (forall i :: 0 <= i < |batch| ==> batch[i] in before.outbox) && BatchHandled(before, after, batch, calls, handled, committed)
    ensures forall i :: 0 <= i < handled ==> Succeeds(before.outbox[batch[i]], calls.publishes(i), calls.marks(i))
    ensures handled < |batch| ==> !Succeeds(before.outbox[batch[handled]], calls.publishes(handled), calls.marks(handled))
  {
  }

  // The messages of a batch are exactly those of its task events, in order.
  lemma {:induction false} MessagesInOrder(rows: map<EventID, OutboxRow>, batch: seq<EventID>) returns (at: seq<nat>)
    requires forall i :: 0 <= i < |batch| ==> batch[i] in rows
    ensures MessagesAt(at, MessagesOf(rows, batch), rows, batch)
  {
    if batch == [] {
      at := [];
    } else {
      var n := |batch| - 1;
      var before := MessagesInOrder(rows, batch[..n]);
      at := if rows[batch[n]].payload.TaskEnqueued? then before + [n] else before;
      OneMoreMessage(before, MessagesOf(rows, batch[..n]), rows, batch);
    }
  }

  ghost predicate MessagesAt(at: seq<nat>, ms: seq<CrawlMessage>, rows: map<EventID, OutboxRow>, batch: seq<EventID>)
    requires forall i :: 0 <= i < |batch| ==> batch[i] in rows
  {
    && |at| == |ms|
    && (forall i :: 0 <= i < |at| ==> at[i] < |batch| && rows[batch[at[i]]].payload == TaskEnqueued(ms[i]))
    && (forall i, j :: 0 <= i < j < |at| ==> at[i] < at[j])
    && (forall k :: 0 <= k < |batch| && rows[batch[k]].payload.TaskEnqueued? ==> k in at)
  }

  lemma OneMoreMessage(before: seq<nat>, ms: seq<CrawlMessage>, rows: map<EventID, OutboxRow>, batch: seq<EventID>)
    requires batch != [] && forall i :: 0 <= i < |batch| ==> batch[i] in rows
    requires MessagesAt(before, ms, rows, batch[..|batch| - 1])
    ensures var n := |batch| - 1;
            var p := rows[batch[n]].payload;
            if p.TaskEnqueued? then MessagesAt(before + [n], ms + [p.message], rows, batch) else MessagesAt(before, ms, rows, batch)
  {
    var n := |batch| - 1;
    forall k | 0 <= k < |batch| && rows[batch[k]].payload.TaskEnqueued? ensures k in before + [n] && (k < n ==> k in before) {
      if k < n {
        assert batch[..n][k] == batch[k];
      } else {
        assert (before + [n])[|before|] == n;
      }
    }
  }

  // ---- what the loop keeps ----

  ghost predicate OnlyHistory(before: Tables, after: Tables) {
    Marks(before.outbox, after.outbox, {}) && after == before.(outbox := after.outbox)
  }

  ghost predicate EventHandled(before: Tables, after: Tables, e: EventID, published: bool, marked: bool, ok: bool)
    requires e in before.outbox
  {
    var r := before.outbox[e];
    && ok == Succeeds(r, published, marked)
    && Marks(before.outbox, after.outbox, {})
    && after == before.(outbox := after.outbox, crawlLog :=
         before.crawlLog + if r.payload.TaskEnqueued? && published then [r.payload.message] else [])
  }

  ghost predicate Progress(before: Tables, now: Tables, batch: seq<EventID>, calls: OutboxCalls, n: nat)
    requires forall i :: 0 <= i < |batch| ==> batch[i] in before.outbox
  {
    && n <= |batch|
    && (forall i :: 0 <= i < n ==> Succeeds(before.outbox[batch[i]], calls.publishes(i), calls.marks(i)))
    && Marks(before.outbox, now.outbox, {})
    && now == before.(outbox := now.outbox, crawlLog := before.crawlLog + MessagesOf(before.outbox, batch[..n]))
  }

  lemma NoneYet(before: Tables, batch: seq<EventID>, calls: OutboxCalls)
    requires forall i :: 0 <= i < |batch| ==> batch[i] in before.outbox
    ensures Progress(before, before, batch, calls, 0)
  {
    assert before.crawlLog + [] == before.crawlLog;
  }

  lemma ProgressKeepsRows(before: Tables, now: Tables, batch: seq<EventID>, calls: OutboxCalls, n: nat)
    requires (forall i :: 0 <= i < |batch| ==> batch[i] in before.outbox) && Progress(before, now, batch, calls, n)
    ensures forall i :: 0 <= i < |batch| ==> batch[i] in now.outbox && now.outbox[batch[i]].payload == before.outbox[batch[i]].payload
  {
  }

  lemma OneMore(before: Tables, now: Tables, next: Tables, batch: seq<EventID>, calls: OutboxCalls, n: nat)
    requires (forall i :: 0 <= i < |batch| ==> batch[i] in before.outbox) && Progress(before, now, batch, calls, n) && n < |batch|
    requires batch[n] in now.outbox && EventHandled(now, next, batch[n], calls.publishes(n), calls.marks(n), true)
    ensures Progress(before, next, batch, calls, n + 1)
  {
    assert batch[..n + 1][..n] == batch[..n];
  }

  lemma StoppedHere(before: Tables, now: Tables, last: Tables, after: Tables, batch: seq<EventID>, calls: OutboxCalls, n: nat)
    requires (forall i :: 0 <= i < |batch| ==> batch[i] in before.outbox) && Progress(before, now, batch, calls, n) && n < |batch|
    requires batch[n] in now.outbox && EventHandled(now, last, batch[n], calls.publishes(n), calls.marks(n), false)
    requires OnlyHistory(last, after)
    ensures BatchHandled(before, after, batch, calls, n, false)
  {
  }

  lemma AllMarked(before: Tables, now: Tables, after: Tables, batch: seq<EventID>, calls: OutboxCalls, marked: set<EventID>)
    requires (forall i :: 0 <= i < |batch| ==> batch[i] in before.outbox) && Progress(before, now, batch, calls, |batch|)
    requires calls.commits && (forall e :: e in marked <==> e in batch)
    requires after == now.(outbox := ProcessedRows(now.outbox, marked))
    ensures BatchHandled(before, after, batch, calls, |batch|, true)
  {
  }

  lemma AllRolledBack(before: Tables, now: Tables, after: Tables, batch: seq<EventID>, calls: OutboxCalls)
    requires (forall i :: 0 <= i < |batch| ==> batch[i] in before.outbox) && Progress(before, now, batch, calls, |batch|)
    requires !calls.commits && OnlyHistory(now, after)
    ensures BatchHandled(before, after, batch, calls, |batch|, false)
  {
  }

  // The events before the first failing one were published, in order, and nothing after it. The
  // batch is marked as a whole when none failed and the commit went through, and else not at all.
  ghost predicate BatchHandled(before: Tables, after: Tables, batch: seq<EventID>, calls: OutboxCalls, handled: nat, committed: bool)
    requires forall i :: 0 <= i < |batch| ==> batch[i] in before.outbox
  {
    && handled <= |batch|
    && (forall i :: 0 <= i < handled ==> Succeeds(before.outbox[batch[i]], calls.publishes(i), calls.marks(i)))
    && (handled < |batch| ==> !Succeeds(before.outbox[batch[handled]], calls.publishes(handled), calls.marks(handled)))
    && committed == (handled == |batch| && calls.commits)
    && Marks(before.outbox, after.outbox, if committed then set e | e in batch else {})
    && after.crawlLog == before.crawlLog + MessagesOf(before.outbox, batch[..handled]) + Unmarked(before.outbox, batch, calls, handled)
    && after == before.(outbox := after.outbox, crawlLog := after.crawlLog)
  }

  // An event can fail after its message is out, when the mark is refused.
  function Unmarked(rows: map<EventID, OutboxRow>, batch: seq<EventID>, calls: OutboxCalls, i: nat): seq<CrawlMessage>
    requires forall i :: 0 <= i < |batch| ==> batch[i] in rows
  {
    if i < |batch| && rows[batch[i]].payload.TaskEnqueued? && calls.publishes(i) then [rows[batch[i]].payload.message] else []
  }
}
