// The transactional outbox, with any number of publishers working on disjoint batches.
module PipelineOutbox {
  import opened Options
  import opened PipelineModel
  import opened TaskStatuses
  import opened PipelineInvariant
  import opened PipelineTheorems

  // Published at least once on behalf of this very event.
  ghost predicate Logged(s: State, r: OutboxRow) {
    r.payload.TaskEnqueued? ==> r.payload.message in s.crawlLog && r.attempts >= 1
  }

  // A batch in flight: distinct unprocessed events, those before next already published.
  ghost predicate BatchOk(s: State, b: Flight)
    requires b.Publishing?
  {
    && b.next <= |b.batch|
    && (forall i, j :: 0 <= i < j < |b.batch| ==> b.batch[i] != b.batch[j])
    && (forall i :: 0 <= i < |b.batch| ==> b.batch[i] in s.outbox && !s.outbox[b.batch[i]].processed)
    && (forall i :: 0 <= i < b.next ==> Logged(s, s.outbox[b.batch[i]]))
  }

  ghost predicate BatchesOk(s: State) {
    && (forall f :: IsPublishing(s, f) ==> BatchOk(s, s.flights[f]))
    && (forall f, g, e :: IsPublishing(s, f) && IsPublishing(s, g) && e in s.flights[f].batch && e in s.flights[g].batch ==> f == g)
  }

  // The event was already tried in a batch that is still open.
  ghost predicate Passed(s: State, e: EventID) {
    exists f :: IsPublishing(s, f) && PassedIn(s.flights[f], e)
  }

  predicate PassedIn(b: Flight, e: EventID)
    requires b.Publishing?
  {
    exists i :: 0 <= i < b.next && i < |b.batch| && b.batch[i] == e
  }

  ghost predicate EventCounted(s: State, e: EventID)
    requires e in s.outbox
  {
    var r := s.outbox[e];
    && r.attempts <= r.aborts + (if r.processed || Passed(s, e) then 1 else 0)
    && (r.processed ==> Logged(s, r))
  }

  ghost predicate OutboxOk(s: State) {
    BatchesOk(s) && forall e :: e in s.outbox ==> EventCounted(s, e)
  }

  // ---- steps that leave the open batches alone ----

  ghost predicate SameBatches(s: State, s': State) {
    && (forall f :: IsPublishing(s', f) <==> IsPublishing(s, f))
    && (forall f :: IsPublishing(s, f) ==> s'.flights[f] == s.flights[f])
    && (forall m :: m in s.crawlLog ==> m in s'.crawlLog)
    && (forall e :: e in s.outbox ==> e in s'.outbox && s'.outbox[e] == s.outbox[e])
    && (forall e :: e in s'.outbox && e !in s.outbox ==> !s'.outbox[e].processed && s'.outbox[e].attempts == 0)
  }

  lemma PassedStays(s: State, s': State, e: EventID)
    requires SameBatches(s, s')
    ensures Passed(s, e) ==> Passed(s', e)
  {
  }

  lemma OtherStepsKeepOutbox(s: State, s': State)
    requires OutboxOk(s) && SameBatches(s, s')
    ensures OutboxOk(s')
  {
    forall f | IsPublishing(s', f) ensures BatchOk(s', s'.flights[f]) {
      assert BatchOk(s, s.flights[f]);
    }
    forall e | e in s'.outbox ensures EventCounted(s', e) {
      PassedStays(s, s', e);
      if e in s.outbox { assert EventCounted(s, e); }
    }
  }

  // Only flight f changes, and it is no batch before or after; the outbox stays.
  ghost predicate Beside(s: State, s': State, f: FlightID) {
    && s'.outbox == s.outbox && s.crawlLog <= s'.crawlLog
    && !IsPublishing(s, f) && !IsPublishing(s', f) && s'.flights - {f} == s.flights - {f}
  }

  lemma BesideKeepsBatches(s: State, s': State, f: FlightID)
    requires Beside(s, s', f)
    ensures SameBatches(s, s')
  {
    forall g | g != f ensures g in s'.flights <==> g in s.flights
      ensures g in s.flights ==> s'.flights[g] == s.flights[g]
    {
      assert g in s'.flights - {f} <==> g in s.flights - {f};
      if g in s.flights { assert (s'.flights - {f})[g] == (s.flights - {f})[g]; }
    }
  }

  lemma FetchIsBeside(s: State, l: Label)
    requires FetchLabel(l) && Enabled(s, l)
    ensures Beside(s, FetchStep(s, l), l.f)
  {
  }

  lemma CommitIsBeside(s: State, f: FlightID)
    requires Enabled(s, ParseCommits(f))
    ensures Beside(s, CommitStep(s, f), f)
  {
    hide BulkInsert, InsertedOrigins, FreshIDs, WriteRow;
    WritingIsBeside(s, MarkAsParsed(s.flights[f].task, ResultKey(s.flights[f].task.id)));
  }

  lemma WritingIsBeside(s: State, t: Task)
    ensures WriteRow(s, t) == s.(tasks := WriteRow(s, t).tasks, repeats := WriteRow(s, t).repeats)
  {
  }

  lemma FailureIsBeside(s: State, l: Label)
    requires (l.ParseFails? || l.ParseRollsBack?) && Enabled(s, l)
    ensures Beside(s, ParseStep(s, l), l.f)
  {
  }

  lemma ParseIsBeside(s: State, l: Label)
    requires ParseLabel(l) && !l.ParseCommits? && !l.ParseFails? && !l.ParseRollsBack? && Enabled(s, l)
    ensures Beside(s, ParseStep(s, l), l.f)
  {
    hide ChosenLinks, Prepares, CommitStep, FreshIDs, WriteRow;
  }

  lemma RecoveryIsBeside(s: State, l: Label)
    requires RecoveryLabel(l) && Enabled(s, l)
    ensures Beside(s, RecoveryStep(s, l), l.f)
  {
  }

  lemma OtherLabelsKeepBatches(s: State, l: Label)
    requires Enabled(s, l) && !OutboxLabel(l) && !l.CreateJob?
    ensures SameBatches(s, Apply(s, l))
  {
    hide FetchStep, RecoveryStep, CommitStep, SameBatches, Prepares, ChosenLinks, FreshIDs;
    if FetchLabel(l) { FetchIsBeside(s, l); }
    else if l.ParseCommits? { CommitIsBeside(s, l.f); }
    else if l.ParseFails? || l.ParseRollsBack? { FailureIsBeside(s, l); }
    else if ParseLabel(l) { ParseIsBeside(s, l); }
    else if RecoveryLabel(l) { RecoveryIsBeside(s, l); }
    BesideKeepsBatches(s, Apply(s, l), l.f);
  }

  lemma NewJobKeepsBatches(s: State, l: Label)
    requires Enabled(s, l) && l.CreateJob?
    ensures SameBatches(s, Apply(s, l))
  {
  }

  // ---- the steps of a batch ----

  lemma BatchFetchedKeeps(s: State, f: FlightID, batch: seq<EventID>)
    requires OutboxOk(s) && Enabled(s, BatchFetched(f, batch))
    ensures OutboxOk(Apply(s, BatchFetched(f, batch)))
  {
    var s' := Apply(s, BatchFetched(f, batch));
    forall g | IsPublishing(s', g) ensures BatchOk(s', s'.flights[g]) {
      if g != f { assert BatchOk(s, s.flights[g]); }
    }
    forall g, h, e | IsPublishing(s', g) && IsPublishing(s', h) && e in s'.flights[g].batch && e in s'.flights[h].batch
      ensures g == h
    {
      if g == f && h != f { assert Locked(s, e); }
      if h == f && g != f { assert Locked(s, e); }
    }
    forall e | e in s'.outbox ensures EventCounted(s', e) {
      assert EventCounted(s, e);
      if Passed(s, e) {
        var g :| IsPublishing(s, g) && PassedIn(s.flights[g], e);
        assert IsPublishing(s', g) && PassedIn(s'.flights[g], e);
      }
    }
  }

  lemma UpcomingNotPassed(s: State, f: FlightID)
    requires OutboxOk(s) && IsPublishing(s, f) && Upcoming(s, f).Some?
    ensures !Passed(s, s.flights[f].batch[s.flights[f].next])
  {
    var e := s.flights[f].batch[s.flights[f].next];
    assert BatchOk(s, s.flights[f]);
    forall g | IsPublishing(s, g) ensures !PassedIn(s.flights[g], e) {
      assert e in s.flights[f].batch;
    }
  }

  lemma AdvanceKeeps(s: State, f: FlightID, s': State)
    requires OutboxOk(s) && IsPublishing(s, f) && Upcoming(s, f).Some?
    requires var b := s.flights[f];
             var e := b.batch[b.next];
             && s'.flights == s.flights[f := b.(next := b.next + 1)]
             && (forall m :: m in s.crawlLog ==> m in s'.crawlLog)
             && s'.outbox.Keys == s.outbox.Keys
             && (forall x :: x in s.outbox && x != e ==> s'.outbox[x] == s.outbox[x])
             && Logged(s', s'.outbox[e])
             && s'.outbox[e].attempts <= s.outbox[e].attempts + 1
             && s'.outbox[e] == s.outbox[e].(attempts := s'.outbox[e].attempts)
    ensures OutboxOk(s')
  {
    var b := s.flights[f];
    var e := b.batch[b.next];
    var b' := s'.flights[f];
    assert BatchOk(s, b);
    forall g | IsPublishing(s', g) ensures BatchOk(s', s'.flights[g]) {
      assert BatchOk(s, s.flights[g]);
    }
    forall x | x in s'.outbox ensures EventCounted(s', x) {
      assert EventCounted(s, x);
      if x == e {
        assert b'.batch[b.next] == e && PassedIn(b', e);
        assert IsPublishing(s', f);
        UpcomingNotPassed(s, f);
      } else if Passed(s, x) {
        var g :| IsPublishing(s, g) && PassedIn(s.flights[g], x);
        var i :| 0 <= i < s.flights[g].next && i < |s.flights[g].batch| && s.flights[g].batch[i] == x;
        assert s'.flights[g].batch[i] == x && PassedIn(s'.flights[g], x);
        assert IsPublishing(s', g);
      }
    }
  }

  // Closing a batch: the counts of its events go up by the abort, or it is processed as a whole.
  lemma CloseKeeps(s: State, f: FlightID, s': State)
    requires OutboxOk(s) && IsPublishing(s, f)
    requires s'.flights == s.flights - {f} && s'.crawlLog == s.crawlLog && s'.outbox.Keys == s.outbox.Keys
    requires forall e :: e in s.outbox && e !in s.flights[f].batch ==> s'.outbox[e] == s.outbox[e]
    requires forall e :: e in s.outbox && e in s.flights[f].batch ==>
      var r, r' := s.outbox[e], s'.outbox[e];
      && r'.payload == r.payload
      && ((r'.aborts == r.aborts + 1 && !r'.processed
             && r'.attempts <= (if PassedIn(s.flights[f], e) then r.attempts else r.attempts + 1))
          || (r'.aborts == r.aborts && r'.attempts == r.attempts && r'.processed && PassedIn(s.flights[f], e)))
    ensures OutboxOk(s')
  {
    assert BatchOk(s, s.flights[f]);
    forall g | IsPublishing(s', g) ensures BatchOk(s', s'.flights[g]) {
      assert BatchOk(s, s.flights[g]);
      forall i | 0 <= i < |s'.flights[g].batch| ensures s'.outbox[s'.flights[g].batch[i]] == s.outbox[s'.flights[g].batch[i]] {
        assert s.flights[g].batch[i] in s.flights[g].batch;
      }
    }
    forall e | e in s'.outbox ensures EventCounted(s', e) {
      assert EventCounted(s, e);
      if Passed(s, e) {
        var g :| IsPublishing(s, g) && PassedIn(s.flights[g], e);
        assert e in s.flights[g].batch;
        if e !in s.flights[f].batch {
          assert IsPublishing(s', g) && PassedIn(s'.flights[g], e);
        }
      }
    }
  }

  lemma OpenBatchIsOk(s: State, f: FlightID)
    requires OutboxOk(s) && IsPublishing(s, f)
    ensures BatchOk(s, s.flights[f])
  {
  }

  // A batch commits only after its last event.
  lemma AllPassed(b: Flight, e: EventID)
    requires b.Publishing? && b.next == |b.batch| && e in b.batch
    ensures PassedIn(b, e)
  {
  }

  lemma AbortKeeps(s: State, f: FlightID, attempted: bool)
    requires OutboxOk(s) && Enabled(s, BatchAborted(f, attempted))
    ensures OutboxOk(Apply(s, BatchAborted(f, attempted)))
  {
    hide OutboxOk, Upcoming, Logged;
    OpenBatchIsOk(s, f);
    CloseKeeps(s, f, AbortStep(s, f, attempted));
  }

  lemma CommitBatchKeeps(s: State, f: FlightID)
    requires OutboxOk(s) && Enabled(s, BatchCommitted(f))
    ensures OutboxOk(Apply(s, BatchCommitted(f)))
  {
    hide OutboxOk, BatchOk, PassedIn;
    var b := s.flights[f];
    forall e | e in b.batch ensures PassedIn(b, e) { AllPassed(b, e); }
    CloseKeeps(s, f, Apply(s, BatchCommitted(f)));
  }

  lemma PublishedKeeps(s: State, f: FlightID)
    requires OutboxOk(s) && Enabled(s, EventPublished(f))
    ensures OutboxOk(Apply(s, EventPublished(f)))
  {
    hide OutboxOk;
    AdvanceKeeps(s, f, Apply(s, EventPublished(f)));
  }

  lemma SkippedKeeps(s: State, f: FlightID)
    requires OutboxOk(s) && Enabled(s, EventSkipped(f))
    ensures OutboxOk(Apply(s, EventSkipped(f)))
  {
    hide OutboxOk;
    AdvanceKeeps(s, f, Apply(s, EventSkipped(f)));
  }

  lemma BatchStepKeeps(s: State, l: Label)
    requires OutboxOk(s) && Enabled(s, l) && OutboxLabel(l)
    ensures OutboxOk(Apply(s, l))
  {
    hide OutboxOk, Apply, Enabled;
    match l
    case BatchFetched(f, batch) => BatchFetchedKeeps(s, f, batch);
    case EventPublished(f) => PublishedKeeps(s, f);
    case EventSkipped(f) => SkippedKeeps(s, f);
    case BatchAborted(f, attempted) => AbortKeeps(s, f, attempted);
    case BatchCommitted(f) => CommitBatchKeeps(s, f);
  }

  lemma StepKeepsOutbox(s: State, l: Label)
    requires OutboxOk(s) && Enabled(s, l)
    ensures OutboxOk(Apply(s, l))
  {
    hide OutboxOk, SameBatches, Apply, Enabled;
    if OutboxLabel(l) {
      BatchStepKeeps(s, l);
    } else {
      if l.CreateJob? { NewJobKeepsBatches(s, l); } else { OtherLabelsKeepBatches(s, l); }
      OtherStepsKeepOutbox(s, Apply(s, l));
    }
  }

  lemma {:induction false} OutboxAlwaysOk(s: State, ls: seq<Label>)
    requires OutboxOk(s) && ValidRun(s, ls)
    ensures OutboxOk(Outcome(s, ls))
    decreases |ls|
  {
    if ls != [] {
      StepKeepsOutbox(s, ls[0]);
      OutboxAlwaysOk(Apply(s, ls[0]), ls[1..]);
    }
  }

  // Whichever events fail and whichever batches abort: an enqueued task is marked processed only
  // after its message was published in an attempt of its own, and its attempts never exceed one
  // more than the aborted batches that held it.
  lemma PublishedBeforeProcessed(s: State, e: EventID)
    requires Reachable(s) && e in s.outbox
    ensures s.outbox[e].processed && s.outbox[e].payload.TaskEnqueued? ==>
              s.outbox[e].payload.message in s.crawlLog && s.outbox[e].attempts >= 1
    ensures s.outbox[e].attempts <= s.outbox[e].aborts + 1
    ensures !s.outbox[e].processed && !Locked(s, e) ==> s.outbox[e].attempts <= s.outbox[e].aborts
  {
    var ls :| ValidRun(EMPTY, ls) && Outcome(EMPTY, ls) == s;
    OutboxAlwaysOk(EMPTY, ls);
    assert EventCounted(s, e);
    if Passed(s, e) {
      var f :| IsPublishing(s, f) && PassedIn(s.flights[f], e);
      assert e in s.flights[f].batch;
    }
  }

  // A batch that aborts has marked nothing.
  lemma AbortMarksNothing(s: State, f: FlightID, attempted: bool, e: EventID)
    requires Enabled(s, BatchAborted(f, attempted)) && e in s.outbox
    ensures var s' := Apply(s, BatchAborted(f, attempted));
            e in s'.outbox && s'.outbox[e].processed == s.outbox[e].processed && s'.crawlLog == s.crawlLog
  {
  }
}
