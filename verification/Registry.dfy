// The registry as the objects the coordinator holds: three maps updated in place and channels
// shared with the goroutines that read them. The model field follows the state machine, so
// what is proved of its runs holds of these objects.
module Registry {
  import opened Clock
  import opened Options
  import opened RegistryModel
  import opened RegistrySafety

  lemma TakeOne(chosen: set<WorkerID>, todo: set<WorkerID>, id: WorkerID)
    requires id in todo
    ensures chosen - (todo - {id}) == if id in chosen then (chosen - todo) + {id} else chosen - todo
  {
  }

  // What a sweep does to a record: a live one not heard from for too long goes inactive.
  predicate SweptTo(before: WorkerRecord, after: WorkerRecord, limits: Limits, now: Time) {
    if limits.inactiveThreshold != 0 && before.lastHeartbeatAt != 0 && before.status != Dead && before.status != Inactive
       && Sub(now, before.lastHeartbeatAt) > limits.inactiveThreshold
    then after == before.(status := Inactive, lastStatusAt := now)
    else after == before
  }

  // What a heartbeat at now makes of the record of its worker, after a sweep at that time.
  ghost predicate Heard(before: Option<WorkerRecord>, after: WorkerRecord, limits: Limits, info: HeartbeatInfo, now: Time) {
    var reported := if info.status.Foreign? then Unknown else info.status;
    && after.lastHeartbeatAt == now
    && match before
       case None =>
         && after.workerID == info.workerID && after.workerType == info.workerType && after.status == reported && after.lastStatusAt == now
         && after.startedAt == (if info.startedAt != 0 then info.startedAt else now)
       case Some(r) =>
         exists swept :: SweptTo(r, swept, limits, now)
           && after.workerID == r.workerID && after.workerType == (if info.workerType != "" then info.workerType else r.workerType)
           && after.startedAt == (if info.startedAt != 0 then info.startedAt else r.startedAt)
           && (swept.status == Dead ==> after.status == Dead)
           && (swept.status == Draining && reported == Active ==> after.status == Draining)
           && (swept.status != Dead && !(swept.status == Draining && reported == Active) ==> after.status == reported)
           && after.lastStatusAt == (if after.status != swept.status then now else swept.lastStatusAt)
  }

  // How long a snapshot says its worker has been up: from its start to now, or, when it is
  // inactive or dead, to its last heartbeat if that came after the start.
  predicate UpFor(r: WorkerRecord, now: Time, uptime: Duration) {
    if r.startedAt == 0 || now < r.startedAt then uptime == 0
    else if (r.status == Inactive || r.status == Dead) && r.lastHeartbeatAt != 0 && r.lastHeartbeatAt > r.startedAt
    then uptime == Sub(r.lastHeartbeatAt, r.startedAt)
    else uptime == Sub(now, r.startedAt)
  }

  // The worker has the requested status, since the request if that is new; it gets a record if it
  // had none; all else about it and all other records stay.
  predicate Requested(before: map<WorkerID, WorkerRecord>, after: map<WorkerID, WorkerRecord>, id: WorkerID, status: Status, at: Time, clock: Time) {
    && after.Keys == before.Keys + {id} && after[id].status == status
    && (forall w :: w in before && w != id ==> after[w] == before[w])
    && (id in before && before[id].status == status ==> after[id] == before[id])
    && (id in before && before[id].status != status ==> after[id] == before[id].(status := status, lastStatusAt := at))
    && (id !in before ==> after[id] == WorkerRecord(id, "", status, 0, clock, if status == Unknown then clock else at))
  }

  // A swept record that a cleanup at now removes.
  predicate Outlived(swept: WorkerRecord, limits: Limits, now: Time) {
    limits.cleanupDelay != 0 && (swept.status == Inactive || swept.status == Dead) && Sub(now, swept.lastStatusAt) > limits.cleanupDelay
  }

  // ---- what the steps do, in these terms ----

  lemma HeartbeatIsHeard(s: State, limits: Limits, info: HeartbeatInfo, clock: Time)
    ensures var after := HeartbeatStep(s, limits, info, clock).workers;
            var now := if info.timestamp != 0 then info.timestamp else clock;
            && after.Keys == s.workers.Keys + {info.workerID}
            && Heard(Lookup(s.workers, info.workerID), after[info.workerID], limits, info, now)
            && forall id :: id in s.workers && id != info.workerID ==> SweptTo(s.workers[id], after[id], limits, now)
  {
    var now := OrClock(info.timestamp, clock);
    if info.workerID in s.workers {
      assert SweptTo(s.workers[info.workerID], MarkRecord(s.workers[info.workerID], limits, now), limits, now);
    }
  }

  lemma SendIsRequested(s: State, id: WorkerID, cmd: Command, status: Status, clock: Time)
    ensures Requested(s.workers, SendStep(s, id, cmd, status, clock).workers, id, status, cmd.issuedAt, clock)
  {
  }

  lemma ListOutlives(s: State, limits: Limits, now: Time)
    ensures var after := ListStep(s, limits, now).workers;
            && after.Keys <= s.workers.Keys
            && forall id, swept :: id in s.workers && SweptTo(s.workers[id], swept, limits, now) ==>
                 if Outlived(swept, limits, now) then id !in after else id in after && after[id] == swept
  {
    hide CloseStreams, DropPending;
  }

  // The same of channels as values: exactly the streams of the ids are newly closed.
  ghost predicate Closes(s: State, s': State, ids: set<WorkerID>) {
    && |s.chans| <= |s'.chans|
    && (forall i :: 0 <= i < |s.chans| ==>
         && s'.chans[i].buffer == s.chans[i].buffer
         && ((forall id :: id in ids && id in s.streams ==> s.streams[id] != i) ==> s'.chans[i].closed == s.chans[i].closed))
    && forall id :: id in ids && id in s.streams && s.streams[id] < |s.chans| ==> s'.chans[s.streams[id]].closed
  }

  lemma SafeMarked(s: State, limits: Limits, now: Time)
    requires Safe(s)
    ensures Safe(s.(workers := MarkInactive(s.workers, limits, now)))
  {
  }

  lemma DetachCloses(s: State, id: WorkerID)
    requires Safe(s)
    ensures Closes(s, DetachStep(s, id), {id}) && Closes(s, OpenStep(DetachStep(s, id), id), {id})
  {
    assert id in {id};
  }

  lemma ListCloses(s: State, limits: Limits, now: Time)
    requires Safe(s)
    ensures var s' := ListStep(s, limits, now);
            && Closes(s, s', s.workers.Keys - s'.workers.Keys)
            && s'.streams == s.streams - (s.workers.Keys - s'.workers.Keys)
            && s'.pending == s.pending - (s.workers.Keys - s'.workers.Keys)
            && |s'.chans| == |s.chans|
  {
    var marked := s.(workers := MarkInactive(s.workers, limits, now));
    var ids := ExpiredIDs(marked.workers, limits, now);
    assert s.workers.Keys - ListStep(s, limits, now).workers.Keys == ids;
    assert Closes(s, Forget(marked, ids), ids);
  }

  class Channel {
    var buffer: seq<Command>
    var closed: bool
    ghost const index: nat

    constructor (ghost i: nat)
      ensures buffer == [] && !closed && index == i
    {
      buffer, closed, index := [], false, i;
    }

    // Closing a closed channel panics.
    method Close()
      requires !closed
      modifies this
      ensures closed && buffer == old(buffer)
    {
      closed := true;
    }

    // Sends without blocking, or not at all when the buffer is full; sending on a closed channel
    // panics.
    method TrySend(cmd: Command) returns (sent: bool)
      requires !closed
      modifies this
      ensures sent <==> |old(buffer)| < CHANNEL_CAPACITY
      ensures buffer == (if sent then old(buffer) + [cmd] else old(buffer)) && !closed
    {
      sent := |buffer| < CHANNEL_CAPACITY;
      if sent {
        buffer := buffer + [cmd];
      }
    }
  }

  class WorkerRegistry {
    var workers: map<WorkerID, WorkerRecord>
    var streams: map<WorkerID, Channel>
    var pendingCommands: map<WorkerID, seq<Command>>
    const limits: Limits
    ghost var model: State
    ghost var made: seq<Channel>

    ghost predicate Valid()
      reads this, made
    {
      && Safe(model)
      && workers == model.workers
      && pendingCommands == model.pending
      && |made| == |model.chans|
      && (forall i :: 0 <= i < |made| ==>
            made[i].index == i && made[i].buffer == model.chans[i].buffer && made[i].closed == model.chans[i].closed)
      && streams.Keys == model.streams.Keys
      && (forall id :: id in streams ==> streams[id] == made[model.streams[id]])
    }

    constructor (inactiveThreshold: Duration, cleanupDelay: Duration)
      ensures Valid() && model == INITIAL && made == []
      ensures limits == Limits(inactiveThreshold, cleanupDelay)
    {
      workers, streams, pendingCommands := map[], map[], map[];
      limits := Limits(inactiveThreshold, cleanupDelay);
      model, made := INITIAL, [];
    }

    // cmd is now the last of the live channel's buffer when it was delivered, and the last of the
    // worker's pending commands otherwise. Everything before it, every other channel and every
    // other list are as they were, and a channel takes it exactly when its buffer has room.
    twostate predicate Routed(cmd: Command, id: WorkerID, delivered: bool)
      reads this, made, streams.Values
    {
      && streams == old(streams) && made == old(made)
      && (delivered <==> id in streams && |old(streams[id].buffer)| < 8)
      && (delivered ==> streams[id].buffer == old(streams[id].buffer) + [cmd] && pendingCommands == old(pendingCommands))
      && (!delivered ==>
            pendingCommands == old(pendingCommands)[id := (if id in old(pendingCommands) then old(pendingCommands)[id] else []) + [cmd]])
      && (forall c :: c in made ==> c.closed == old(c.closed) && ((delivered && c == streams[id]) || c.buffer == old(c.buffer)))
    }

    twostate lemma SentIsRouted(new cmd: Command, new id: WorkerID, new status: Status, new clock: Time, new delivered: bool)
      requires old(Valid()) && Valid() && streams == old(streams) && made == old(made)
      requires model == SendStep(old(model), id, cmd, status, clock) && delivered == Deliverable(old(model), id)
      ensures Routed(cmd, id, delivered)
    {
      SendEffect(old(model), id, cmd, status, clock);
      hide SendStep;
      if id in streams {
        StreamsAreOpen(old(model), id);
      }
      hide Safe;
      forall c | c in made
        ensures c.closed == old(c.closed) && ((delivered && c == streams[id]) || c.buffer == old(c.buffer))
      {
        var i :| 0 <= i < |made| && made[i] == c;
      }
    }

    // Channels are only added. Of those that were there, the streams of the ids are closed now and
    // no other is that was not; their buffers stay.
    twostate predicate OnlyClosed(ids: set<WorkerID>)
      reads this`made, made
    {
      && |old(made)| <= |made| && made[..|old(made)|] == old(made)
      && (forall id :: id in ids && id in old(streams) ==> old(streams)[id] in made && old(streams)[id].closed)
      && forall i :: 0 <= i < |old(made)| ==>
           && made[i].buffer == old(made[i].buffer)
           && ((forall id :: id in ids && id in old(streams) ==> old(streams)[id] != made[i]) ==> made[i].closed == old(made[i].closed))
    }

    twostate lemma ClosesOnly(ids: set<WorkerID>)
      requires old(Valid()) && Valid()
      requires |old(made)| <= |made| && made[..|old(made)|] == old(made) && Closes(old(model), model, ids)
      ensures OnlyClosed(ids)
    {
      assert forall i :: 0 <= i < |old(made)| ==> made[i] == old(made)[i];
    }

    // The order in which Go ranges over the map is arbitrary.
    method MarkInactiveLocked(now: Time)
      modifies this`workers
      ensures workers == MarkInactive(old(workers), limits, now)
      ensures workers.Keys == old(workers).Keys && forall id :: id in workers ==> SweptTo(old(workers)[id], workers[id], limits, now)
    {
      if limits.inactiveThreshold == 0 {
        return;
      }
      var todo := workers.Keys;
      while todo != {}
        invariant todo <= workers.Keys == old(workers).Keys
        invariant forall id :: id in workers ==>
          workers[id] == if id in todo then old(workers)[id] else MarkRecord(old(workers)[id], limits, now)
        decreases |todo|
      {
        var id :| id in todo;
        todo := todo - {id};
        var worker := workers[id];
        if worker.status == Dead || worker.lastHeartbeatAt == 0 {
          continue;
        }
        if Sub(now, worker.lastHeartbeatAt) > limits.inactiveThreshold {
          if worker.status != Inactive {
            workers := workers[id := worker.(status := Inactive, lastStatusAt := now)];
          }
        }
      }
    }

    method HeartbeatOnRecord(found: WorkerRecord, info: HeartbeatInfo, now: Time) returns (record: WorkerRecord)
      ensures record == HeartbeatRecord(found, info, now)
    {
      record := found;
      if info.workerType != "" {
        record := record.(workerType := info.workerType);
      }
      record := record.(lastHeartbeatAt := now);
      if info.startedAt != 0 {
        record := record.(startedAt := info.startedAt);
      }
      var newStatus := NormalizeStatus(info.status);
      if record.status == Dead {
        newStatus := Dead;
      }
      if record.status == Draining && newStatus == Active {
        newStatus := Draining;
      }
      if newStatus != record.status {
        record := record.(status := newStatus, lastStatusAt := now);
      }
    }

    method UpdateHeartbeat(info: HeartbeatInfo, clock: Time)
      requires Valid()
      modifies this`workers, this`model
      ensures Valid() && model == HeartbeatStep(old(model), limits, info, clock)
      ensures workers.Keys == old(workers).Keys + {info.workerID}
      ensures var now := if info.timestamp != 0 then info.timestamp else clock;
              && Heard(Lookup(old(workers), info.workerID), workers[info.workerID], limits, info, now)
              && forall id :: id in old(workers) && id != info.workerID ==> SweptTo(old(workers)[id], workers[id], limits, now)
    {
      hide Safe, Heard, SweptTo;
      SafeStep(model, limits, Heartbeat(info, clock));
      HeartbeatIsHeard(model, limits, info, clock);
      var now := OrClock(info.timestamp, clock);
      MarkInactiveLocked(now);
      if info.workerID in workers {
        var record := HeartbeatOnRecord(workers[info.workerID], info, now);
        workers := workers[info.workerID := record];
      } else {
        workers := workers[info.workerID :=
          WorkerRecord(info.workerID, info.workerType, NormalizeStatus(info.status), now, OrClock(info.startedAt, now), now)];
      }
      model := HeartbeatStep(model, limits, info, clock);
    }

    // close(ch) and delete(streams, id), when the worker has a stream.
    method CloseStream(id: WorkerID)
      requires Valid()
      modifies this`streams, this`model, made
      ensures Valid() && model == DetachStep(old(model), id)
      ensures streams == old(streams) - {id}
    {
      hide Safe;
      SafeDetach(model, id);
      if id in streams {
        StreamsAreOpen(model, id);
        streams[id].Close();
      }
      streams := streams - {id};
      model := DetachStep(model, id);
    }

    method DetachStream(id: WorkerID)
      requires Valid()
      modifies this`streams, this`model, made
      ensures Valid() && model == DetachStep(old(model), id)
      ensures streams == old(streams) - {id} && OnlyClosed({id})
    {
      hide Safe, OnlyClosed, Closes;
      DetachCloses(model, id);
      CloseStream(id);
      ClosesOnly({id});
    }

    method OpenStream(id: WorkerID) returns (stream: Channel)
      requires Valid()
      modifies this`streams, this`made, this`model
      ensures Valid() && model == OpenStep(old(model), id)
      ensures fresh(stream) && made == old(made) + [stream] && streams == old(streams)[id := stream]
      ensures stream.buffer == [] && !stream.closed
    {
      SafeOpen(model, id);
      stream := new Channel(|made|);
      streams := streams[id := stream];
      made := made + [stream];
      model := OpenStep(model, id);
    }

    method ReplaceStream(id: WorkerID) returns (stream: Channel)
      requires Valid()
      modifies this`streams, this`made, this`model, made
      ensures Valid() && model == OpenStep(DetachStep(old(model), id), id)
      ensures fresh(stream) && made == old(made) + [stream] && streams == (old(streams) - {id})[id := stream]
      ensures stream.buffer == [] && !stream.closed && OnlyClosed({id})
    {
      hide Safe, OnlyClosed, Closes, DetachStep, OpenStep;
      DetachCloses(model, id);
      CloseStream(id);
      stream := OpenStream(id);
      ClosesOnly({id});
    }

    method HandOver(id: WorkerID) returns (pending: seq<Command>)
      requires Valid()
      modifies this`pendingCommands, this`model
      ensures Valid() && model == TakePending(old(model), id)
      ensures pending == (if id in old(pendingCommands) then old(pendingCommands)[id] else [])
      ensures pendingCommands == old(pendingCommands) - {id}
    {
      pending := if id in pendingCommands then pendingCommands[id] else [];
      pendingCommands := pendingCommands - {id};
      model := TakePending(model, id);
    }

    method AttachStream(id: WorkerID) returns (stream: Channel, pending: seq<Command>)
      requires Valid()
      modifies this`streams, this`pendingCommands, this`made, this`model, made
      ensures Valid() && model == AttachStep(old(model), id)
      ensures fresh(stream) && made == old(made) + [stream] && streams == (old(streams) - {id})[id := stream]
      ensures stream.buffer == [] && !stream.closed && OnlyClosed({id})
      ensures pending == (if id in old(pendingCommands) then old(pendingCommands)[id] else [])
      ensures pendingCommands == old(pendingCommands) - {id}
    {
      hide Safe, OnlyClosed, DetachStep, OpenStep, TakePending;
      stream := ReplaceStream(id);
      pending := HandOver(id);
    }

    // The known record, or a new one that was never heard from, put into the map.
    method EnsureWorkerLocked(id: WorkerID, clock: Time) returns (record: WorkerRecord)
      requires Valid()
      modifies this`workers, this`model
      ensures Valid() && model == old(model).(workers := workers)
      ensures id in workers && record == workers[id]
      ensures workers == if id in old(workers) then old(workers)
                         else old(workers)[id := WorkerRecord(id, "", Unknown, 0, clock, clock)]
    {
      if id in workers {
        return workers[id];
      }
      record := WorkerRecord(id, "", Unknown, 0, clock, clock);
      workers := workers[id := record];
      model := model.(workers := workers);
    }

    // The select of sendCommand: the command goes to the live channel unless its buffer is full.
    method Offer(id: WorkerID, cmd: Command) returns (sent: bool)
      requires Valid() && id in workers && id in streams
      modifies this`model, made
      ensures Valid() && sent == Deliverable(old(model), id)
      ensures model == if sent then Deliver(old(model), id, cmd) else old(model)
    {
      EnqueueEffect(model, id, cmd);
      SafeSend(model, Enqueue(model, id, cmd), id, cmd);
      sent := streams[id].TrySend(cmd);
      if sent {
        model := Deliver(model, id, cmd);
      }
    }

    method KeepPending(id: WorkerID, cmd: Command)
      requires Valid() && id in workers
      modifies this`pendingCommands, this`model
      ensures Valid() && model == Hold(old(model), id, cmd)
    {
      pendingCommands := pendingCommands[id := Log(pendingCommands, id) + [cmd]];
      model := Hold(model, id, cmd);
    }

    method SetStatusLocked(id: WorkerID, status: Status, at: Time, clock: Time)
      requires Valid()
      modifies this`workers, this`model
      ensures Valid() && model == SetStatus(old(model), id, status, at, clock) && id in workers
    {
      var record := EnsureWorkerLocked(id, clock);
      if record.status != status {
        record := record.(status := status, lastStatusAt := at);
      }
      workers := workers[id := record];
      model := model.(workers := workers);
    }

    method SendCommand(id: WorkerID, cmd: Command, status: Status, clock: Time) returns (delivered: bool)
      requires Valid()
      modifies this`workers, this`pendingCommands, this`model, made
      ensures Valid() && model == SendStep(old(model), id, cmd, status, clock)
      ensures delivered <==> Deliverable(old(model), id)
    {
      SetStatusLocked(id, status, cmd.issuedAt, clock);
      assert Deliverable(model, id) == Deliverable(old(model), id);
      delivered := false;
      if id in streams {
        delivered := Offer(id, cmd);
      }
      if !delivered {
        KeepPending(id, cmd);
      }
    }

    method RequestDrain(id: WorkerID, reason: string, issuedAt: Time, clock: Time) returns (delivered: bool)
      requires Valid()
      modifies this`workers, this`pendingCommands, this`model, made
      ensures Valid() && model == Step(old(model), limits, Drain(id, reason, issuedAt, clock))
      ensures Requested(old(workers), workers, id, Draining, issuedAt, clock)
      ensures Routed(Command(DrainCommand, reason, issuedAt), id, delivered)
    {
      hide Safe, Requested, Routed, SendStep, Deliverable;
      delivered := SendCommand(id, Command(DrainCommand, reason, issuedAt), Draining, clock);
      SendIsRequested(old(model), id, Command(DrainCommand, reason, issuedAt), Draining, clock);
      SentIsRouted(Command(DrainCommand, reason, issuedAt), id, Draining, clock, delivered);
    }

    method RequestForceKill(id: WorkerID, reason: string, issuedAt: Time, clock: Time) returns (delivered: bool)
      requires Valid()
      modifies this`workers, this`pendingCommands, this`model, made
      ensures Valid() && model == Step(old(model), limits, ForceKill(id, reason, issuedAt, clock))
      ensures Requested(old(workers), workers, id, Dead, issuedAt, clock)
      ensures Routed(Command(ForceKillCommand, reason, issuedAt), id, delivered)
    {
      hide Safe, Requested, Routed, SendStep, Deliverable;
      delivered := SendCommand(id, Command(ForceKillCommand, reason, issuedAt), Dead, clock);
      SendIsRequested(old(model), id, Command(ForceKillCommand, reason, issuedAt), Dead, clock);
      SentIsRouted(Command(ForceKillCommand, reason, issuedAt), id, Dead, clock, delivered);
    }

    // A stream's sender goroutine takes the next command of its channel; None when it would block
    // or when the channel is closed and empty.
    method Receive(ghost i: nat, stream: Channel) returns (cmd: Option<Command>)
      requires Valid() && i < |made| && made[i] == stream
      modifies this`model, stream
      ensures Valid() && model == ReceiveStep(old(model), i)
      ensures cmd == if old(stream.buffer) == [] then None else Some(old(stream.buffer)[0])
      ensures stream.buffer == (if old(stream.buffer) == [] then [] else old(stream.buffer)[1..]) && stream.closed == old(stream.closed)
    {
      SafeReceive(model, i);
      if stream.buffer == [] {
        cmd := None;
      } else {
        cmd := Some(stream.buffer[0]);
        stream.buffer := stream.buffer[1..];
      }
      model := ReceiveStep(model, i);
    }

    // delete(workers, id), delete(pendingCommands, id), and the stream closed and deleted.
    method ForgetWorker(id: WorkerID)
      requires Valid()
      modifies this`workers, this`streams, this`pendingCommands, this`model, made
      ensures Valid() && model == Forget(old(model), {id})
    {
      ghost var s := model;
      SafeForget(s, {id});
      ForgetOneChans(s, id);
      CloseStream(id);
      workers := workers - {id};
      pendingCommands := pendingCommands - {id};
      model := Forget(s, {id});
    }

    method CleanupWorker(id: WorkerID, now: Time)
      requires Valid() && id in workers
      modifies this`workers, this`streams, this`pendingCommands, this`model, made
      ensures Valid()
      ensures model == if limits.cleanupDelay != 0 && Expired(old(model).workers[id], limits, now) then Forget(old(model), {id}) else old(model)
    {
      var worker := workers[id];
      if limits.cleanupDelay == 0 || (worker.status != Inactive && worker.status != Dead) {
        return;
      }
      if Sub(now, worker.lastStatusAt) > limits.cleanupDelay {
        ForgetWorker(id);
      }
    }

    method CleanupInactiveLocked(now: Time)
      requires Valid()
      modifies this`workers, this`streams, this`pendingCommands, this`model, made
      ensures Valid() && model == Cleanup(old(model), limits, now)
    {
      hide CloseStreams, DropPending;
      ghost var s := model;
      ghost var expired := ExpiredIDs(s.workers, limits, now);
      ForgetNone(s);
      var todo := workers.Keys;
      while todo != {}
        invariant todo <= s.workers.Keys
        invariant Valid() && model == Forget(s, expired - todo)
        decreases |todo|
      {
        var id :| id in todo;
        TakeOne(expired, todo, id);
        ForgetOneMore(s, expired - todo, id);
        todo := todo - {id};
        CleanupWorker(id, now);
      }
      assert expired - todo == expired;
    }

    method Snapshots(now: Time) returns (snapshots: map<WorkerID, (WorkerRecord, Duration)>)
      ensures snapshots.Keys == workers.Keys
      ensures forall id :: id in snapshots ==> snapshots[id] == (workers[id], UptimeFor(workers[id], now))
      ensures forall id :: id in snapshots ==> snapshots[id].0 == workers[id] && UpFor(workers[id], now, snapshots[id].1)
    {
      snapshots := map[];
      var todo := workers.Keys;
      while todo != {}
        invariant todo <= workers.Keys && snapshots.Keys == workers.Keys - todo
        invariant forall id :: id in snapshots ==> snapshots[id] == (workers[id], UptimeFor(workers[id], now))
        decreases |todo|
      {
        var id :| id in todo;
        todo := todo - {id};
        snapshots := snapshots[id := (workers[id], UptimeFor(workers[id], now))];
      }
    }

    method SweepLocked(now: Time)
      requires Valid()
      modifies this`workers, this`streams, this`pendingCommands, this`model, made
      ensures Valid() && model == ListStep(old(model), limits, now)
    {
      hide Safe, SweptTo, Cleanup, MarkRecord;
      SafeMarked(model, limits, now);
      MarkInactiveLocked(now);
      model := model.(workers := workers);
      CleanupInactiveLocked(now);
    }

    method RemoveOutlived(now: Time)
      requires Valid()
      modifies this`workers, this`streams, this`pendingCommands, this`model, made
      ensures Valid() && model == ListStep(old(model), limits, now)
      ensures forall id, swept :: id in old(workers) && SweptTo(old(workers)[id], swept, limits, now) ==>
                if Outlived(swept, limits, now) then id !in workers else id in workers && workers[id] == swept
      ensures workers.Keys <= old(workers).Keys
      ensures var gone := old(workers).Keys - workers.Keys;
              && streams == old(streams) - gone && pendingCommands == old(pendingCommands) - gone
              && OnlyClosed(gone)
    {
      hide Safe, OnlyClosed, Closes, SweptTo, Outlived, ListStep;
      ListOutlives(model, limits, now);
      ListCloses(model, limits, now);
      SweepLocked(now);
      ClosesOnly(old(workers).Keys - workers.Keys);
    }

    method List(at: Time, clock: Time) returns (snapshots: map<WorkerID, (WorkerRecord, Duration)>)
      requires Valid()
      modifies this`workers, this`streams, this`pendingCommands, this`model, made
      ensures Valid() && model == Step(old(model), limits, Event.List(at, clock))
      ensures snapshots.Keys == workers.Keys
      ensures var now := if at != 0 then at else clock;
              && (forall id :: id in snapshots ==> snapshots[id].0 == workers[id] && UpFor(workers[id], now, snapshots[id].1))
              && forall id, swept :: id in old(workers) && SweptTo(old(workers)[id], swept, limits, now) ==>
                   if Outlived(swept, limits, now) then id !in workers else id in workers && workers[id] == swept
      ensures workers.Keys <= old(workers).Keys
      ensures var gone := old(workers).Keys - workers.Keys;
              && streams == old(streams) - gone && pendingCommands == old(pendingCommands) - gone && made == old(made)
              && OnlyClosed(gone)
    {
      hide Safe, OnlyClosed, SweptTo, Outlived, UpFor, ListStep, UptimeFor;
      var now := OrClock(at, clock);
      RemoveOutlived(now);
      snapshots := Snapshots(now);
    }
  }
}
