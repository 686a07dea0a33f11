// When a worker's record changes status and when it is removed, over runs in which other
// workers' calls are interleaved in any way and timestamps come in any order.
module RegistryTiming {
  import opened Clock
  import opened Options
  import opened RegistryModel

  // The instant at which an event sweeps for inactivity, if it does.
  function SweepTime(e: Event): Option<Time> {
    match e
    case Heartbeat(info, clock) => Some(OrClock(info.timestamp, clock))
    case List(now, clock) => Some(OrClock(now, clock))
    case _ => None
  }

  predicate HeartbeatOf(e: Event, w: WorkerID) { e.Heartbeat? && e.info.workerID == w }

  function Requested(r: WorkerRecord, status: Status, at: Time): WorkerRecord {
    if r.status != status then r.(status := status, lastStatusAt := at) else r
  }

  // One worker's record, followed through an event on its own.
  function Track(o: Option<WorkerRecord>, limits: Limits, e: Event, w: WorkerID): Option<WorkerRecord> {
    var swept := if o.Some? && SweepTime(e).Some? then Some(MarkRecord(o.value, limits, SweepTime(e).value)) else o;
    match e
    case Heartbeat(info, clock) =>
      if info.workerID != w then swept
      else if swept.Some? then Some(HeartbeatRecord(swept.value, info, OrClock(info.timestamp, clock)))
      else Some(FirstRecord(info, OrClock(info.timestamp, clock)))
    case Drain(id, _, at, clock) =>
      if id != w then o
      else Some(Requested(if o.Some? then o.value else WorkerRecord(w, "", Unknown, 0, clock, clock), Draining, at))
    case ForceKill(id, _, at, clock) =>
      if id != w then o
      else Some(Requested(if o.Some? then o.value else WorkerRecord(w, "", Unknown, 0, clock, clock), Dead, at))
    case List(now, clock) =>
      if swept.Some? && Expired(swept.value, limits, OrClock(now, clock)) then None else swept
    case _ => o
  }

  // The registry treats each record independently of all the others.
  lemma RecordsAreIndependent(s: State, limits: Limits, e: Event, w: WorkerID)
    ensures Lookup(Step(s, limits, e).workers, w) == Track(Lookup(s.workers, w), limits, e, w)
  {
  }

  // The record after a run, from what it was before.
  function After(o: Option<WorkerRecord>, limits: Limits, es: seq<Event>, w: WorkerID): Option<WorkerRecord> {
    if es == [] then o else Track(After(o, limits, es[..|es| - 1], w), limits, es[|es| - 1], w)
  }

  lemma {:induction false} RunsAreTracked(s: State, limits: Limits, es: seq<Event>, w: WorkerID)
    ensures Lookup(Run(s, limits, es).workers, w) == After(Lookup(s.workers, w), limits, es, w)
  {
    if es != [] {
      RunsAreTracked(s, limits, es[..|es| - 1], w);
      RecordsAreIndependent(Run(s, limits, es[..|es| - 1]), limits, es[|es| - 1], w);
    }
  }

  // ---- removal bound ----

  predicate GentleEvent(e: Event, w: WorkerID) {
    && !(e.ForceKill? && e.id == w)
    && (HeartbeatOf(e, w) ==> e.info.status != Inactive && e.info.status != Dead)
  }

  predicate Gentle(es: seq<Event>, w: WorkerID) { forall i :: 0 <= i < |es| ==> GentleEvent(es[i], w) }

  function LastHeartbeat(es: seq<Event>, w: WorkerID): Time {
    if es == [] then 0
    else
      var e := es[|es| - 1];
      if HeartbeatOf(e, w) then OrClock(e.info.timestamp, e.clock) else LastHeartbeat(es[..|es| - 1], w)
  }

  ghost predicate InactiveSinceSweep(o: Option<WorkerRecord>, limits: Limits, last: Time) {
    o.Some? ==>
      && o.value.status != Dead
      && (o.value.lastHeartbeatAt == 0 || o.value.lastHeartbeatAt == last)
      && (o.value.status == Inactive ==>
            o.value.lastHeartbeatAt != 0 && o.value.lastStatusAt - last > limits.inactiveThreshold)
  }

  lemma {:induction false} InactiveOnlyBySweep(limits: Limits, es: seq<Event>, w: WorkerID)
    requires limits.inactiveThreshold > 0
    requires Admissible(es) && Gentle(es, w)
    ensures InactiveSinceSweep(After(None, limits, es, w), limits, LastHeartbeat(es, w))
  {
    if es != [] {
      InactiveOnlyBySweep(limits, es[..|es| - 1], w);
    }
  }

  lemma PrefixIsGentle(es: seq<Event>, e: Event, w: WorkerID)
    requires Admissible(es + [e]) && Gentle(es + [e], w)
    ensures Admissible(es) && Gentle(es, w)
  {
    forall i | 0 <= i < |es| ensures Wellformed(es[i]) && GentleEvent(es[i], w) {
      assert es[i] == (es + [e])[i];
    }
  }

  // A worker that was never force-killed and never reported itself INACTIVE or DEAD loses its
  // record only to a List more than inactiveThreshold + cleanupDelay after its last heartbeat;
  // one that never sent a heartbeat never loses it.
  lemma RemovalBound(limits: Limits, es: seq<Event>, e: Event, w: WorkerID)
    requires limits.inactiveThreshold > 0 && limits.cleanupDelay > 0
    requires Admissible(es + [e]) && Gentle(es + [e], w)
    requires w in Run(INITIAL, limits, es).workers && w !in Run(INITIAL, limits, es + [e]).workers
    ensures e.List? && LastHeartbeat(es, w) != 0
    ensures OrClock(e.now, e.clock) - LastHeartbeat(es, w) > limits.inactiveThreshold + limits.cleanupDelay
  {
    hide Run, Gentle, Admissible;
    assert (es + [e])[..|es|] == es;
    PrefixIsGentle(es, e, w);
    RunsAreTracked(INITIAL, limits, es, w);
    RunsAreTracked(INITIAL, limits, es + [e], w);
    InactiveOnlyBySweep(limits, es, w);
  }

  // ---- draining is sticky exactly between inactivity sweeps ----

  // The heartbeats of a worker process before it dies.
  predicate AliveEvent(e: Event, w: WorkerID) {
    && !(e.ForceKill? && e.id == w)
    && (HeartbeatOf(e, w) ==> e.info.status == Active || e.info.status == Draining)
  }

  predicate IsDraining(o: Option<WorkerRecord>) { o.Some? && o.value.status == Draining }

  // The event sweeps while the record is stale, and does not itself report DRAINING.
  predicate Unsettles(o: Option<WorkerRecord>, limits: Limits, e: Event, w: WorkerID) {
    && o.Some? && SweepTime(e).Some? && Stale(o.value, limits, SweepTime(e).value)
    && !(HeartbeatOf(e, w) && e.info.status == Draining)
  }

  lemma DrainingStepExact(o: Option<WorkerRecord>, limits: Limits, e: Event, w: WorkerID)
    requires IsDraining(o) && AliveEvent(e, w)
    ensures IsDraining(Track(o, limits, e, w)) <==> !Unsettles(o, limits, e, w)
  {
  }

  ghost predicate DrainingThroughout(o: Option<WorkerRecord>, limits: Limits, es: seq<Event>, w: WorkerID) {
    forall i {:trigger es[..i]} :: 0 <= i <= |es| ==> IsDraining(After(o, limits, es[..i], w))
  }

  ghost predicate NeverUnsettled(o: Option<WorkerRecord>, limits: Limits, es: seq<Event>, w: WorkerID) {
    forall i {:trigger es[..i]} :: 0 <= i < |es| ==> !Unsettles(After(o, limits, es[..i], w), limits, es[i], w)
  }

  lemma PrefixOfPrefix(es: seq<Event>, n: nat)
    requires n <= |es|
    ensures forall i :: 0 <= i <= n ==> es[..n][..i] == es[..i]
  {
  }

  lemma {:induction false} RecordStaysDraining(o: Option<WorkerRecord>, limits: Limits, es: seq<Event>, w: WorkerID)
    requires IsDraining(o)
    requires forall i :: 0 <= i < |es| ==> AliveEvent(es[i], w)
    ensures DrainingThroughout(o, limits, es, w) <==> NeverUnsettled(o, limits, es, w)
  {
    if es != [] {
      var n := |es| - 1;
      RecordStaysDraining(o, limits, es[..n], w);
      PrefixOfPrefix(es, n);
      assert es[..n + 1] == es && es[..n][..n] == es[..n];
      if DrainingThroughout(o, limits, es[..n], w) {
        DrainingStepExact(After(o, limits, es[..n], w), limits, es[n], w);
      }
    }
  }

  // The registry while it goes through a run.
  function Shown(s: State, limits: Limits, es: seq<Event>, n: nat, w: WorkerID): Option<WorkerRecord>
    requires n <= |es|
  {
    Lookup(Run(s, limits, es[..n]).workers, w)
  }

  // Under ACTIVE or DRAINING heartbeats, and drain requests, a draining worker is shown DRAINING
  // throughout a run exactly when no sweep of it, by its own or another worker's heartbeat or by
  // a List, finds it stale.
  lemma DrainingIsSticky(s: State, limits: Limits, es: seq<Event>, w: WorkerID)
    requires IsDraining(Lookup(s.workers, w))
    requires forall i :: 0 <= i < |es| ==> AliveEvent(es[i], w)
    ensures (forall i :: 0 <= i <= |es| ==> IsDraining(Shown(s, limits, es, i, w))) <==>
            (forall i :: 0 <= i < |es| ==> !Unsettles(Shown(s, limits, es, i, w), limits, es[i], w))
  {
    hide Run, IsDraining, Unsettles;
    var o := Lookup(s.workers, w);
    forall i | 0 <= i <= |es| ensures Shown(s, limits, es, i, w) == After(o, limits, es[..i], w) {
      RunsAreTracked(s, limits, es[..i], w);
    }
    RecordStaysDraining(o, limits, es, w);
  }

  // It can fail: this worker only ever reports ACTIVE, and one late heartbeat of another worker
  // turns it from DRAINING to INACTIVE.
  lemma DrainingCanBeLost()
    ensures var w, v, limits := WorkerID("w"), WorkerID("v"), Limits(10, 10);
            var es := [Heartbeat(HeartbeatInfo(w, "", Active, 1, 1), 1), Drain(w, "", 2, 2), Heartbeat(HeartbeatInfo(v, "", Active, 12, 12), 12)];
            && IsDraining(Shown(INITIAL, limits, es, 2, w))
            && Shown(INITIAL, limits, es, 3, w).Some? && Shown(INITIAL, limits, es, 3, w).value.status == Inactive
  {
    var w, v, limits := WorkerID("w"), WorkerID("v"), Limits(10, 10);
    var a, b, c := Heartbeat(HeartbeatInfo(w, "", Active, 1, 1), 1), Drain(w, "", 2, 2), Heartbeat(HeartbeatInfo(v, "", Active, 12, 12), 12);
    var es := [a, b, c];
    assert es[..2] == [a, b] && es[..3] == es && [a, b][..1] == [a] && [a][..0] == [];
    RunsAreTracked(INITIAL, limits, [a, b], w);
    RunsAreTracked(INITIAL, limits, es, w);
    hide Run;
    assert w != v by { assert "w" != "v"; }
    assert After(None, limits, [a], w) == Track(After(None, limits, [], w), limits, a, w);
    assert After(None, limits, [a, b], w) == Track(After(None, limits, [a], w), limits, b, w);
    assert After(None, limits, es, w) == Track(After(None, limits, [a, b], w), limits, c, w);
  }

  // ---- death ----

  predicate IsDead(o: Option<WorkerRecord>) { o.Some? && o.value.status == Dead }

  predicate RemovesDead(limits: Limits, e: Event, since: Time) {
    e.List? && limits.cleanupDelay != 0 && Sub(OrClock(e.now, e.clock), since) > limits.cleanupDelay
  }

  // A dead record is left only by a drain request or by a List late enough, and until then
  // keeps the time of its death, whatever heartbeats arrive and whatever else is swept.
  lemma DeadStepExact(o: Option<WorkerRecord>, limits: Limits, e: Event, w: WorkerID)
    requires IsDead(o)
    ensures var o' := Track(o, limits, e, w);
            && (o'.None? <==> RemovesDead(limits, e, o.value.lastStatusAt))
            && ((IsDead(o') && o'.value.lastStatusAt == o.value.lastStatusAt) <==>
                !RemovesDead(limits, e, o.value.lastStatusAt) && !(e.Drain? && e.id == w))
  {
  }

  lemma {:induction false} DeadUntilListed(o: Option<WorkerRecord>, limits: Limits, es: seq<Event>, w: WorkerID)
    requires IsDead(o)
    requires forall i :: 0 <= i < |es| ==>
      !RemovesDead(limits, es[i], o.value.lastStatusAt) && !(es[i].Drain? && es[i].id == w)
    ensures var o' := After(o, limits, es, w); IsDead(o') && o'.value.lastStatusAt == o.value.lastStatusAt
  {
    if es != [] {
      var prev := es[..|es| - 1];
      DeadUntilListed(o, limits, prev, w);
      DeadStepExact(After(o, limits, prev, w), limits, es[|es| - 1], w);
    }
  }

  // After a force kill with no later drain request, the first List later than cleanupDelay
  // removes the record, however many heartbeats came in between.
  lemma FirstLateListRemoves(s: State, limits: Limits, es: seq<Event>, e: Event, w: WorkerID)
    requires 0 < limits.cleanupDelay < MAX_DURATION
    requires w in s.workers && s.workers[w].status == Dead
    requires forall i :: 0 <= i < |es| ==>
      !RemovesDead(limits, es[i], s.workers[w].lastStatusAt) && !(es[i].Drain? && es[i].id == w)
    requires e.List? && OrClock(e.now, e.clock) - s.workers[w].lastStatusAt > limits.cleanupDelay
    ensures w in Run(s, limits, es).workers && w !in Run(s, limits, es + [e]).workers
  {
    hide Run;
    var o := Lookup(s.workers, w);
    DeadUntilListed(o, limits, es, w);
    assert (es + [e])[..|es|] == es;
    RunsAreTracked(s, limits, es, w);
    RunsAreTracked(s, limits, es + [e], w);
  }

  // ---- the sweeps of List ----

  // A worker that goes inactive in a sweep survives the cleanup of the same sweep exactly when
  // the cleanup delay is not negative.
  lemma NewlyInactiveSurvives(r: WorkerRecord, limits: Limits, now: Time)
    requires Stale(r, limits, now) && r.status != Inactive
    ensures !Expired(MarkRecord(r, limits, now), limits, now) <==> limits.cleanupDelay >= 0
  {
  }

  // With a negative delay it does not: this worker goes inactive and is removed in one List.
  lemma NewlyInactiveCanVanish(s: State)
    requires s.workers == map[WorkerID("w") := WorkerRecord(WorkerID("w"), "", Active, 1, 1, 1)]
    ensures ListStep(s, Limits(10, -1), 12).workers == map[]
  {
    RecordsAreIndependent(s, Limits(10, -1), List(12, 12), WorkerID("w"));
    assert Track(Lookup(s.workers, WorkerID("w")), Limits(10, -1), List(12, 12), WorkerID("w")) == None;
  }

  lemma ListTwiceIsListOnce(s: State, limits: Limits, now: Time)
    ensures ListStep(ListStep(s, limits, now), limits, now) == ListStep(s, limits, now)
  {
    var once := ListStep(s, limits, now);
    var twice := ListStep(once, limits, now);
    assert ExpiredIDs(MarkInactive(once.workers, limits, now), limits, now) == {};
    assert twice.workers == once.workers;
    assert twice.streams == once.streams && twice.pending == once.pending;
    assert twice.ledgers == once.ledgers;
    assert twice.chans == once.chans;
  }

  lemma UptimeIsNonNegative(r: WorkerRecord, now: Time)
    ensures UptimeFor(r, now) >= 0
  {
  }
}
