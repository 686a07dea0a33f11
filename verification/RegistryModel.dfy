// The worker registry as a state machine: every public operation of the registry, and the
// receive on a command channel, is one step on a State value.
module RegistryModel {
  import opened Clock

  datatype WorkerID = WorkerID(name: string)

  datatype Status = Unknown | Active | Inactive | Draining | Dead | Foreign(text: string)

  datatype CommandKind = DrainCommand | ForceKillCommand

  datatype Command = Command(kind: CommandKind, reason: string, issuedAt: Time)

  datatype HeartbeatInfo = HeartbeatInfo(workerID: WorkerID, workerType: string, status: Status,
                                         timestamp: Time, startedAt: Time)

  datatype WorkerRecord = WorkerRecord(workerID: WorkerID, workerType: string, status: Status,
                                       lastHeartbeatAt: Time, startedAt: Time, lastStatusAt: Time)

  datatype Limits = Limits(inactiveThreshold: Duration, cleanupDelay: Duration)

  const CHANNEL_CAPACITY: nat := 8

  // A command channel. A closed channel keeps its buffer: its reader may still drain it.
  // owner and received are history: whom it was made for and what was read from it.
  datatype Chan = Chan(owner: WorkerID, buffer: seq<Command>, closed: bool, received: seq<Command>)

  // History of the commands of one worker: all that were issued, those handed back by
  // AttachStream, and those dropped with a removed record.
  datatype Ledger = Ledger(issued: seq<Command>, handed: seq<Command>, dropped: seq<Command>)

  // chans holds every channel ever created; streams maps a worker to an index into it.
  datatype State = State(workers: map<WorkerID, WorkerRecord>, streams: map<WorkerID, nat>,
                         pending: map<WorkerID, seq<Command>>, chans: seq<Chan>,
                         ledgers: map<WorkerID, Ledger>)

  const INITIAL := State(map[], map[], map[], [], map[])

  datatype Event =
    | Heartbeat(info: HeartbeatInfo, clock: Time)
    | Attach(id: WorkerID)
    | Detach(id: WorkerID)
    | Drain(id: WorkerID, reason: string, issuedAt: Time, clock: Time)
    | ForceKill(id: WorkerID, reason: string, issuedAt: Time, clock: Time)
    | List(now: Time, clock: Time)
    | Receive(chan: nat)

  // A missing key of a Go map of slices reads as the nil slice.
  function Log(m: map<WorkerID, seq<Command>>, id: WorkerID): seq<Command> {
    if id in m then m[id] else []
  }

  function LedgerOf(s: State, id: WorkerID): Ledger {
    if id in s.ledgers then s.ledgers[id] else Ledger([], [], [])
  }

  function NormalizeStatus(status: Status): (r: Status)
    ensures !r.Foreign? && (status.Foreign? ==> r == Unknown)
  {
    match status
    case Foreign(_) => Unknown
    case _ => status
  }

  function OrClock(t: Time, clock: Time): Time { if t == 0 then clock else t }

  // ---- the inactivity and cleanup sweeps, one record at a time ----

  predicate Stale(r: WorkerRecord, limits: Limits, now: Time) {
    && limits.inactiveThreshold != 0
    && r.status != Dead
    && r.lastHeartbeatAt != 0
    && Sub(now, r.lastHeartbeatAt) > limits.inactiveThreshold
  }

  function MarkRecord(r: WorkerRecord, limits: Limits, now: Time): WorkerRecord {
    if Stale(r, limits, now) && r.status != Inactive then
      r.(status := Inactive, lastStatusAt := now)
    else r
  }

  function MarkInactive(workers: map<WorkerID, WorkerRecord>, limits: Limits, now: Time): map<WorkerID, WorkerRecord> {
    map id | id in workers :: MarkRecord(workers[id], limits, now)
  }

  predicate Expired(r: WorkerRecord, limits: Limits, now: Time) {
    && limits.cleanupDelay != 0
    && (r.status == Inactive || r.status == Dead)
    && Sub(now, r.lastStatusAt) > limits.cleanupDelay
  }

  function ExpiredIDs(workers: map<WorkerID, WorkerRecord>, limits: Limits, now: Time): set<WorkerID> {
    set id | id in workers && Expired(workers[id], limits, now)
  }

  function CloseStreams(chans: seq<Chan>, streams: map<WorkerID, nat>, ids: set<WorkerID>): (r: seq<Chan>)
    ensures |r| == |chans|
    ensures forall i :: 0 <= i < |r| ==> r[i] == chans[i].(closed := r[i].closed)
  {
    seq(|chans|, i requires 0 <= i < |chans| =>
      chans[i].(closed := chans[i].closed || (chans[i].owner in ids && chans[i].owner in streams && streams[chans[i].owner] == i)))
  }

  function DropPending(s: State, ids: set<WorkerID>): map<WorkerID, Ledger> {
    map id | id in s.ledgers.Keys + ids ::
      if id in ids then LedgerOf(s, id).(dropped := LedgerOf(s, id).dropped + Log(s.pending, id))
      else LedgerOf(s, id)
  }

  // Removes the records of a set of workers, with their pending commands, and closes their streams.
  function Forget(s: State, ids: set<WorkerID>): State {
    State(s.workers - ids, s.streams - ids, s.pending - ids,
          CloseStreams(s.chans, s.streams, ids), DropPending(s, ids))
  }

  function Cleanup(s: State, limits: Limits, now: Time): State {
    Forget(s, ExpiredIDs(s.workers, limits, now))
  }

  // ---- the operations ----

  function HeartbeatRecord(r: WorkerRecord, info: HeartbeatInfo, now: Time): WorkerRecord {
    var reported := NormalizeStatus(info.status);
    var status :=
      if r.status == Dead then Dead
      else if r.status == Draining && reported == Active then Draining
      else reported;
    WorkerRecord(r.workerID,
                 if info.workerType != "" then info.workerType else r.workerType,
                 status, now,
                 if info.startedAt != 0 then info.startedAt else r.startedAt,
                 if status != r.status then now else r.lastStatusAt)
  }

  function FirstRecord(info: HeartbeatInfo, now: Time): WorkerRecord {
    WorkerRecord(info.workerID, info.workerType, NormalizeStatus(info.status), now,
                 OrClock(info.startedAt, now), now)
  }

  function HeartbeatStep(s: State, limits: Limits, info: HeartbeatInfo, clock: Time): State {
    var now := OrClock(info.timestamp, clock);
    var marked := MarkInactive(s.workers, limits, now);
    s.(workers := marked[info.workerID :=
         if info.workerID in marked then HeartbeatRecord(marked[info.workerID], info, now)
         else FirstRecord(info, now)])
  }

  function CloseOne(chans: seq<Chan>, streams: map<WorkerID, nat>, id: WorkerID): (r: seq<Chan>)
    ensures |r| == |chans|
  {
    if id in streams && streams[id] < |chans| then
      chans[streams[id] := chans[streams[id]].(closed := true)]
    else chans
  }

  function DetachStep(s: State, id: WorkerID): State {
    s.(streams := s.streams - {id}, chans := CloseOne(s.chans, s.streams, id))
  }

  function OpenStep(s: State, id: WorkerID): State {
    s.(streams := s.streams[id := |s.chans|], chans := s.chans + [Chan(id, [], false, [])])
  }

  function TakePending(s: State, id: WorkerID): State {
    var l := LedgerOf(s, id);
    s.(pending := s.pending - {id}, ledgers := s.ledgers[id := l.(handed := l.handed + Log(s.pending, id))])
  }

  // An existing stream is closed before the new one takes its place in the map.
  function AttachStep(s: State, id: WorkerID): State {
    TakePending(OpenStep(DetachStep(s, id), id), id)
  }

  function EnsureWorker(s: State, id: WorkerID, clock: Time): WorkerRecord {
    if id in s.workers then s.workers[id]
    else WorkerRecord(id, "", Unknown, 0, clock, clock)
  }

  // A command enters the live channel when there is one with room in its buffer.
  predicate Deliverable(s: State, id: WorkerID) {
    id in s.streams && s.streams[id] < |s.chans| && |s.chans[s.streams[id]].buffer| < CHANNEL_CAPACITY
  }

  function SetStatus(s: State, id: WorkerID, status: Status, at: Time, clock: Time): State {
    var r := EnsureWorker(s, id, clock);
    s.(workers := s.workers[id := if r.status != status then r.(status := status, lastStatusAt := at) else r])
  }

  function Issue(s: State, id: WorkerID, cmd: Command): map<WorkerID, Ledger> {
    var l := LedgerOf(s, id);
    s.ledgers[id := l.(issued := l.issued + [cmd])]
  }

  function Deliver(s: State, id: WorkerID, cmd: Command): State
    requires Deliverable(s, id)
  {
    var ch := s.chans[s.streams[id]];
    s.(chans := s.chans[s.streams[id] := ch.(buffer := ch.buffer + [cmd])], ledgers := Issue(s, id, cmd))
  }

  function Hold(s: State, id: WorkerID, cmd: Command): State {
    s.(pending := s.pending[id := Log(s.pending, id) + [cmd]], ledgers := Issue(s, id, cmd))
  }

  function Enqueue(s: State, id: WorkerID, cmd: Command): State {
    if Deliverable(s, id) then Deliver(s, id, cmd) else Hold(s, id, cmd)
  }

  function SendStep(s: State, id: WorkerID, cmd: Command, status: Status, clock: Time): State {
    Enqueue(SetStatus(s, id, status, cmd.issuedAt, clock), id, cmd)
  }

  function ListStep(s: State, limits: Limits, now: Time): State {
    Cleanup(s.(workers := MarkInactive(s.workers, limits, now)), limits, now)
  }

  // A receive on a channel with nothing buffered blocks, or reports the close: no change.
  function ReceiveStep(s: State, c: nat): State {
    if c < |s.chans| && |s.chans[c].buffer| > 0 then
      var ch := s.chans[c];
      s.(chans := s.chans[c := ch.(buffer := ch.buffer[1..], received := ch.received + [ch.buffer[0]])])
    else s
  }

  function Step(s: State, limits: Limits, e: Event): State {
    match e
    case Heartbeat(info, clock) => HeartbeatStep(s, limits, info, clock)
    case Attach(id) => AttachStep(s, id)
    case Detach(id) => DetachStep(s, id)
    case Drain(id, reason, at, clock) => SendStep(s, id, Command(DrainCommand, reason, at), Draining, clock)
    case ForceKill(id, reason, at, clock) => SendStep(s, id, Command(ForceKillCommand, reason, at), Dead, clock)
    case List(now, clock) => ListStep(s, limits, OrClock(now, clock))
    case Receive(c) => ReceiveStep(s, c)
  }

  // Time.Now() is never the zero time.
  predicate Wellformed(e: Event) {
    match e
    case Heartbeat(_, clock) => clock != 0
    case List(_, clock) => clock != 0
    case _ => true
  }

  predicate Admissible(es: seq<Event>) { forall i :: 0 <= i < |es| ==> Wellformed(es[i]) }

  function Run(s: State, limits: Limits, es: seq<Event>): State {
    if es == [] then s else Step(Run(s, limits, es[..|es| - 1]), limits, es[|es| - 1])
  }

  function UptimeFor(r: WorkerRecord, now: Time): Duration {
    if r.startedAt == 0 || now < r.startedAt then 0
    else if (r.status == Inactive || r.status == Dead) && r.lastHeartbeatAt != 0 && r.lastHeartbeatAt > r.startedAt then
      Sub(r.lastHeartbeatAt, r.startedAt)
    else Sub(now, r.startedAt)
  }
}
