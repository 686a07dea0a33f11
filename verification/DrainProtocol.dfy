// The drain protocol between a worker process and the registry: heartbeats carry the worker's
// local status one way, commands drive drain and kill the other way.
module DrainProtocol {
  import opened Clock
  import opened Options
  import opened RegistryModel
  import opened RegistryTiming

  // ---- the worker's half ----

  // drained is the sync.Once of beginDrain; exited is os.Exit.
  datatype App = App(status: Status, drained: bool, exited: bool)

  const STARTED := App(Active, false, false)

  function DrainedApp(a: App): App {
    if a.drained then a else a.(status := Draining, drained := true)
  }

  // Once beginDrain has run the local status is never ACTIVE again.
  predicate Settled(a: App) { (a.drained || a.exited) ==> a.status != Active }

  class WorkerApp {
    var status: Status
    var drained: bool
    var accepting: bool
    var exited: bool
    const workerID: WorkerID
    const workerType: string
    const startedAt: Time

    ghost function Abs(): App
      reads this
    {
      App(status, drained, exited)
    }

    constructor (workerID: WorkerID, workerType: string, startedAt: Time)
      ensures Abs() == STARTED && accepting
      ensures this.workerID == workerID && this.workerType == workerType && this.startedAt == startedAt
    {
      status, drained, accepting, exited := Active, false, true, false;
      this.workerID, this.workerType, this.startedAt := workerID, workerType, startedAt;
    }

    method BeginDrain()
      modifies this
      ensures Abs() == DrainedApp(old(Abs()))
      ensures drained && exited == old(exited)
      ensures old(drained) ==> status == old(status) && accepting == old(accepting)
      ensures !old(drained) ==> status == Draining && !accepting
    {
      if !drained {
        drained := true;
        status := Draining;
        accepting := false;
      }
    }

    // The status is stored before the process exits, so a heartbeat may still carry DEAD.
    method ForceKill()
      modifies this
      ensures Abs() == old(Abs()).(status := Dead, exited := true) && accepting == old(accepting)
    {
      status := Dead;
      exited := true;
    }

    // None is a command of any other type.
    method HandleCommand(kind: Option<CommandKind>)
      requires Settled(Abs())
      modifies this
      ensures Settled(Abs())
      ensures kind == Some(DrainCommand) ==> Abs() == DrainedApp(old(Abs()))
      ensures kind == Some(DrainCommand) ==> drained && exited == old(exited)
      ensures kind == Some(DrainCommand) && old(drained) ==> status == old(status) && accepting == old(accepting)
      ensures kind == Some(DrainCommand) && !old(drained) ==> status == Draining && !accepting
      ensures kind == Some(ForceKillCommand) ==> status == Dead && exited && drained == old(drained) && accepting == old(accepting)
      ensures if kind.Some? then status != Active else Abs() == old(Abs()) && accepting == old(accepting)
    {
      match kind {
        case Some(DrainCommand) => BeginDrain();
        case Some(ForceKillCommand) => ForceKill();
        case None =>
      }
    }

    // What the monitor sends is what the two-party system puts on the wire for this worker, and
    // once the worker has drained it never says ACTIVE.
    method BuildHeartbeat(now: Time) returns (info: HeartbeatInfo)
      requires Settled(Abs()) && !exited
      ensures drained ==> info.status != Active
      ensures info.workerID == workerID && info.workerType == workerType && info.status == status
      ensures info.timestamp == now && info.startedAt == startedAt
      ensures forall s: System, limits: Limits {:trigger Beaten(s, limits, workerType, now, startedAt)} ::
                s.id == workerID && s.app == Abs() ==> Beaten(s, limits, workerType, now, startedAt) == s.wire + [info]
    {
      info := HeartbeatInfo(workerID, workerType, status, now, startedAt);
    }
  }

  // The wire after a heartbeat of the worker.
  function Beaten(s: System, limits: Limits, workerType: string, now: Time, startedAt: Time): seq<HeartbeatInfo> {
    if s.app.exited then s.wire else Next(s, limits, AppBeats(workerType, now, startedAt)).wire
  }

  // ---- the two halves together ----

  // wire holds the heartbeats sent and not yet processed, oldest first.
  datatype System = System(id: WorkerID, app: App, wire: seq<HeartbeatInfo>, registry: State)

  datatype Label =
    | AppDrains
    | AppDies                                                     // forceKill has stored DEAD
    | AppExits
    | AppBeats(workerType: string, timestamp: Time, startedAt: Time)
    | Delivered(clock: Time)
    | ConnectionLost(kept: nat)                                   // only the oldest kept arrive
    | Other(e: Event)                                             // anyone else's registry call

  predicate Enabled(s: System, l: Label) {
    match l
    case AppDrains => !s.app.exited
    case AppDies => !s.app.exited
    case AppExits => s.app.status == Dead
    case AppBeats(_, _, _) => !s.app.exited
    case Delivered(_) => s.wire != []
    case ConnectionLost(kept) => kept <= |s.wire|
    case Other(e) => !HeartbeatOf(e, s.id)
  }

  function Next(s: System, limits: Limits, l: Label): System
    requires Enabled(s, l)
  {
    match l
    case AppDrains => s.(app := DrainedApp(s.app))
    case AppDies => s.(app := s.app.(status := Dead))
    case AppExits => s.(app := s.app.(exited := true))
    case AppBeats(workerType, timestamp, startedAt) =>
      s.(wire := s.wire + [HeartbeatInfo(s.id, workerType, s.app.status, timestamp, startedAt)])
    case Delivered(clock) => s.(registry := HeartbeatStep(s.registry, limits, s.wire[0], clock), wire := s.wire[1..])
    case ConnectionLost(kept) => s.(wire := s.wire[..kept])
    case Other(e) => s.(registry := Step(s.registry, limits, e))
  }

  ghost predicate ValidRun(s: System, limits: Limits, ls: seq<Label>)
    decreases |ls|
  {
    ls != [] ==> Enabled(s, ls[0]) && ValidRun(Next(s, limits, ls[0]), limits, ls[1..])
  }

  ghost function Outcome(s: System, limits: Limits, ls: seq<Label>): System
    requires ValidRun(s, limits, ls)
    decreases |ls|
  {
    if ls == [] then s else Outcome(Next(s, limits, ls[0]), limits, ls[1..])
  }

  ghost predicate ShowsActive(s: System) {
    s.id in s.registry.workers && s.registry.workers[s.id].status == Active
  }

  // Heartbeats leave in the order of the local status: once one is not ACTIVE, none after it is.
  ghost predicate InOrder(s: System) {
    && Settled(s.app)
    && (forall i :: 0 <= i < |s.wire| ==> s.wire[i].workerID == s.id)
    && (forall i, j :: 0 <= i < j < |s.wire| && s.wire[i].status != Active ==> s.wire[j].status != Active)
    && (forall i :: 0 <= i < |s.wire| && s.wire[i].status != Active ==> s.app.status != Active)
  }

  // Nothing ACTIVE is left anywhere.
  ghost predicate Quiet(s: System) {
    && s.app.status != Active
    && (forall i :: 0 <= i < |s.wire| ==> s.wire[i].workerID == s.id && s.wire[i].status != Active)
    && !ShowsActive(s)
  }

  lemma InOrderNext(s: System, limits: Limits, l: Label)
    requires InOrder(s) && Enabled(s, l)
    ensures InOrder(Next(s, limits, l))
  {
  }

  lemma QuietNext(s: System, limits: Limits, l: Label)
    requires Quiet(s) && Enabled(s, l)
    ensures Quiet(Next(s, limits, l))
  {
    match l
    case Other(e) => RecordsAreIndependent(s.registry, limits, e, s.id);
    case Delivered(clock) => RecordsAreIndependent(s.registry, limits, Heartbeat(s.wire[0], clock), s.id);
    case _ =>
  }

  lemma {:induction false} InOrderAlways(s: System, limits: Limits, ls: seq<Label>)
    requires InOrder(s) && ValidRun(s, limits, ls)
    ensures InOrder(Outcome(s, limits, ls))
    decreases |ls|
  {
    if ls != [] {
      InOrderNext(s, limits, ls[0]);
      InOrderAlways(Next(s, limits, ls[0]), limits, ls[1..]);
    }
  }

  lemma {:induction false} QuietForever(s: System, limits: Limits, ls: seq<Label>)
    requires Quiet(s) && ValidRun(s, limits, ls)
    ensures Quiet(Outcome(s, limits, ls))
    decreases |ls|
  {
    if ls != [] {
      QuietNext(s, limits, ls[0]);
      QuietForever(Next(s, limits, ls[0]), limits, ls[1..]);
    }
  }

  // A worker process starts with any registry, already holding its id or not. Once the registry
  // has processed one DRAINING heartbeat of that process it never again shows the worker ACTIVE,
  // across inactivity, cleanup, re-registration, lost connections and requests by others.
  lemma DrainedIsNeverActiveAgain(id: WorkerID, registry: State, limits: Limits,
                                  before: seq<Label>, clock: Time, after: seq<Label>)
    requires var s := System(id, STARTED, [], registry);
             && ValidRun(s, limits, before)
             && Outcome(s, limits, before).wire != []
             && Outcome(s, limits, before).wire[0].status == Draining
             && ValidRun(Next(Outcome(s, limits, before), limits, Delivered(clock)), limits, after)
    ensures var s := System(id, STARTED, [], registry);
            !ShowsActive(Outcome(Next(Outcome(s, limits, before), limits, Delivered(clock)), limits, after))
  {
    var s := System(id, STARTED, [], registry);
    InOrderAlways(s, limits, before);
    var mid := Outcome(s, limits, before);
    RecordsAreIndependent(mid.registry, limits, Heartbeat(mid.wire[0], clock), id);
    QuietForever(Next(mid, limits, Delivered(clock)), limits, after);
  }

  // Until the worker drains or dies, every heartbeat it has sent and not yet delivered says ACTIVE.
  lemma {:induction false} ActiveUntilDrained(s: System, limits: Limits, ls: seq<Label>)
    requires s.app == STARTED && ValidRun(s, limits, ls)
    requires forall i :: 0 <= i < |s.wire| ==> s.wire[i].status == Active
    requires AppDrains !in ls && AppDies !in ls
    ensures var s' := Outcome(s, limits, ls);
            s'.app == STARTED && forall i :: 0 <= i < |s'.wire| ==> s'.wire[i].status == Active
    decreases |ls|
  {
    if ls != [] {
      ActiveUntilDrained(Next(s, limits, ls[0]), limits, ls[1..]);
    }
  }
}
