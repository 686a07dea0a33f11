// Channel safety and conservation of commands, over every sequence of registry operations.
module RegistrySafety {
  import opened RegistryModel
  import opened Subsequences

  // ---- channel safety ----

  // Every channel in streams is open and was made for the worker it is listed under, so two
  // workers never share one; a pending list belongs to a known worker and is not empty.
  ghost predicate Safe(s: State) {
    && (forall id :: id in s.streams ==>
          s.streams[id] < |s.chans| && !s.chans[s.streams[id]].closed && s.chans[s.streams[id]].owner == id)
    && (forall id :: id in s.pending ==> id in s.workers && s.pending[id] != [])
    && (forall i :: 0 <= i < |s.chans| ==> |s.chans[i].buffer| <= CHANNEL_CAPACITY)
  }

  lemma StreamsAreOpen(s: State, id: WorkerID)
    requires Safe(s) && id in s.streams
    ensures s.streams[id] < |s.chans| && !s.chans[s.streams[id]].closed
  {
  }

  // What a request leaves behind: the command is at the end of the live channel when that has
  // room, and otherwise at the end of the pending list; nothing else holds it.
  ghost predicate Sent(s: State, s': State, id: WorkerID, cmd: Command) {
    && s'.streams == s.streams
    && s'.workers.Keys == s.workers.Keys + {id}
    && LedgerOf(s', id) == LedgerOf(s, id).(issued := LedgerOf(s, id).issued + [cmd])
    && (forall w :: w != id ==> LedgerOf(s', w) == LedgerOf(s, w))
    && if Deliverable(s, id) then
         var ch := s.chans[s.streams[id]];
         s'.pending == s.pending && s'.chans == s.chans[s.streams[id] := ch.(buffer := ch.buffer + [cmd])]
       else
         s'.chans == s.chans && s'.pending == s.pending[id := Log(s.pending, id) + [cmd]]
  }

  lemma EnqueueEffect(s: State, id: WorkerID, cmd: Command)
    requires id in s.workers
    ensures Sent(s, Enqueue(s, id, cmd), id, cmd)
  {
  }

  lemma SendEffect(s: State, id: WorkerID, cmd: Command, status: Status, clock: int)
    ensures Sent(s, SendStep(s, id, cmd, status, clock), id, cmd)
  {
  }

  lemma SafeSend(s: State, s': State, id: WorkerID, cmd: Command)
    requires Safe(s) && Sent(s, s', id, cmd)
    ensures Safe(s')
  {
  }

  lemma SafeForget(s: State, ids: set<WorkerID>)
    requires Safe(s)
    ensures Safe(Forget(s, ids))
  {
  }

  lemma SafeList(s: State, limits: Limits, now: int)
    requires Safe(s)
    ensures Safe(ListStep(s, limits, now))
  {
    var marked := s.(workers := MarkInactive(s.workers, limits, now));
    SafeForget(marked, ExpiredIDs(marked.workers, limits, now));
  }

  lemma SafeDetach(s: State, id: WorkerID)
    requires Safe(s)
    ensures Safe(DetachStep(s, id))
  {
  }

  lemma SafeOpen(s: State, id: WorkerID)
    requires Safe(s)
    ensures Safe(OpenStep(s, id))
  {
  }

  lemma SafeAttach(s: State, id: WorkerID)
    requires Safe(s)
    ensures Safe(AttachStep(s, id))
  {
    SafeDetach(s, id);
    SafeOpen(DetachStep(s, id), id);
  }

  lemma SafeReceive(s: State, i: nat)
    requires Safe(s)
    ensures Safe(ReceiveStep(s, i))
  {
  }

  lemma SafeStep(s: State, limits: Limits, e: Event)
    requires Safe(s)
    ensures Safe(Step(s, limits, e))
  {
    match e
    case Heartbeat(_, _) =>
    case Attach(id) => SafeAttach(s, id);
    case Detach(id) => SafeDetach(s, id);
    case Drain(id, reason, at, clock) =>
      SendEffect(s, id, Command(DrainCommand, reason, at), Draining, clock);
      SafeSend(s, Step(s, limits, e), id, Command(DrainCommand, reason, at));
    case ForceKill(id, reason, at, clock) =>
      SendEffect(s, id, Command(ForceKillCommand, reason, at), Dead, clock);
      SafeSend(s, Step(s, limits, e), id, Command(ForceKillCommand, reason, at));
    case List(now, clock) => SafeList(s, limits, OrClock(now, clock));
    case Receive(i) => SafeReceive(s, i);
  }

  lemma {:induction false} AlwaysSafe(limits: Limits, es: seq<Event>)
    ensures Safe(Run(INITIAL, limits, es))
  {
    if es != [] {
      AlwaysSafe(limits, es[..|es| - 1]);
      SafeStep(Run(INITIAL, limits, es[..|es| - 1]), limits, es[|es| - 1]);
    }
  }

  // Nothing is ever sent on a closed channel, and what it holds is only read, in order.
  lemma ClosedChannelIsFinal(s: State, limits: Limits, e: Event, i: nat)
    requires Safe(s) && i < |s.chans| && s.chans[i].closed
    ensures var c, c' := s.chans[i], Step(s, limits, e).chans[i];
            && c'.closed && c'.owner == c.owner
            && c'.received + c'.buffer == c.received + c.buffer
  {
    var c, c' := s.chans[i], Step(s, limits, e).chans[i];
    if e == Receive(i) && c.buffer != [] {
      assert c.received + [c.buffer[0]] + c.buffer[1..] == c.received + c.buffer;
    }
  }

  // ---- conservation ----

  ghost function Times(q: seq<Command>, c: Command): nat { multiset(q)[c] }

  lemma TimesSum(a: seq<Command>, b: seq<Command>, c: Command)
    ensures Times(a + b, c) == Times(a, c) + Times(b, c)
  {
  }

  function Part(ch: Chan, read: bool): seq<Command> { if read then ch.received else ch.buffer }

  // How often c was read from (or is still buffered in) the channels made for one worker.
  ghost function Held(chans: seq<Chan>, id: WorkerID, c: Command, read: bool): nat {
    if chans == [] then 0
    else
      var ch := chans[|chans| - 1];
      Held(chans[..|chans| - 1], id, c, read) + (if ch.owner == id then Times(Part(ch, read), c) else 0)
  }

  // Each command issued to a worker is in exactly one place, and nothing else is there.
  ghost predicate Conserved(s: State, id: WorkerID, c: Command) {
    var l := LedgerOf(s, id);
    Times(l.issued, c) == Times(Log(s.pending, id), c) + Held(s.chans, id, c, false) + Held(s.chans, id, c, true)
                          + Times(l.handed, c) + Times(l.dropped, c)
  }

  // The order of issue survives in every pending list and in every channel.
  ghost predicate Ordered(s: State) {
    && (forall id :: id in s.pending ==> Subsequence(s.pending[id], LedgerOf(s, id).issued))
    && (forall i :: 0 <= i < |s.chans| ==>
          Subsequence(s.chans[i].received + s.chans[i].buffer, LedgerOf(s, s.chans[i].owner).issued))
  }

  lemma {:induction false} HeldUpdate(chans: seq<Chan>, i: nat, ch: Chan, id: WorkerID, c: Command, read: bool)
    requires i < |chans| && ch.owner == chans[i].owner
    ensures Held(chans[i := ch], id, c, read) ==
            Held(chans, id, c, read) + if ch.owner == id then Times(Part(ch, read), c) - Times(Part(chans[i], read), c) else 0
  {
    var n := |chans| - 1;
    if i < n {
      assert chans[i := ch][..n] == chans[..n][i := ch];
      HeldUpdate(chans[..n], i, ch, id, c, read);
    } else {
      assert chans[i := ch][..n] == chans[..n];
    }
  }

  lemma {:induction false} HeldIgnoresClosing(a: seq<Chan>, b: seq<Chan>, id: WorkerID, c: Command, read: bool)
    requires |a| == |b|
    requires forall i :: 0 <= i < |a| ==> a[i] == b[i].(closed := a[i].closed)
    ensures Held(a, id, c, read) == Held(b, id, c, read)
  {
    if a != [] {
      HeldIgnoresClosing(a[..|a| - 1], b[..|b| - 1], id, c, read);
    }
  }

  lemma ConservedSend(s: State, s': State, id: WorkerID, cmd: Command, w: WorkerID, c: Command)
    requires Safe(s) && Conserved(s, w, c) && Sent(s, s', id, cmd)
    ensures Conserved(s', w, c)
  {
    TimesSum(LedgerOf(s, id).issued, [cmd], c);
    if Deliverable(s, id) {
      var ch := s.chans[s.streams[id]];
      var ch' := ch.(buffer := ch.buffer + [cmd]);
      TimesSum(ch.buffer, [cmd], c);
      HeldUpdate(s.chans, s.streams[id], ch', w, c, false);
      HeldUpdate(s.chans, s.streams[id], ch', w, c, true);
    } else {
      TimesSum(Log(s.pending, id), [cmd], c);
    }
  }

  lemma HeldAddsNothing(chans: seq<Chan>, owner: WorkerID, id: WorkerID, c: Command, read: bool)
    ensures Held(chans + [Chan(owner, [], false, [])], id, c, read) == Held(chans, id, c, read)
  {
    assert (chans + [Chan(owner, [], false, [])])[..|chans|] == chans;
  }

  lemma ConservedOpen(s: State, id: WorkerID, w: WorkerID, c: Command)
    requires Conserved(s, w, c)
    ensures Conserved(OpenStep(s, id), w, c)
  {
    HeldAddsNothing(s.chans, id, w, c, false);
    HeldAddsNothing(s.chans, id, w, c, true);
  }

  lemma ConservedTake(s: State, id: WorkerID, w: WorkerID, c: Command)
    requires Conserved(s, w, c)
    ensures Conserved(TakePending(s, id), w, c)
  {
  }

  lemma ConservedDetach(s: State, id: WorkerID, w: WorkerID, c: Command)
    requires Conserved(s, w, c)
    ensures Conserved(DetachStep(s, id), w, c)
  {
    ConservedClosing(s, DetachStep(s, id), w, c);
  }

  lemma ConservedAttach(s: State, id: WorkerID, w: WorkerID, c: Command)
    requires Conserved(s, w, c)
    ensures Conserved(AttachStep(s, id), w, c)
  {
    ConservedDetach(s, id, w, c);
    ConservedOpen(DetachStep(s, id), id, w, c);
    ConservedTake(OpenStep(DetachStep(s, id), id), id, w, c);
  }

  // Taking the first command moves one occurrence from the buffer to what was received.
  lemma TimesMove(received: seq<Command>, buffer: seq<Command>, c: Command)
    requires buffer != []
    ensures Times(received + [buffer[0]], c) + Times(buffer[1..], c) == Times(received, c) + Times(buffer, c)
  {
    assert buffer == [buffer[0]] + buffer[1..];
    TimesSum([buffer[0]], buffer[1..], c);
    TimesSum(received, [buffer[0]], c);
  }

  lemma ConservedReceive(s: State, i: nat, w: WorkerID, c: Command)
    requires Conserved(s, w, c)
    ensures Conserved(ReceiveStep(s, i), w, c)
  {
    hide Times, Held;
    if i < |s.chans| && s.chans[i].buffer != [] {
      var ch, ch' := s.chans[i], ReceiveStep(s, i).chans[i];
      TimesMove(ch.received, ch.buffer, c);
      HeldUpdate(s.chans, i, ch', w, c, false);
      HeldUpdate(s.chans, i, ch', w, c, true);
    }
  }

  lemma ConservedClosing(s: State, s': State, w: WorkerID, c: Command)
    requires Conserved(s, w, c)
    requires |s'.chans| == |s.chans| && forall i :: 0 <= i < |s.chans| ==> s'.chans[i] == s.chans[i].(closed := s'.chans[i].closed)
    requires var l, l' := LedgerOf(s, w), LedgerOf(s', w);
             && l'.issued == l.issued && l'.handed == l.handed
             && ((l'.dropped == l.dropped && Log(s'.pending, w) == Log(s.pending, w))
                 || (l'.dropped == l.dropped + Log(s.pending, w) && Log(s'.pending, w) == []))
    ensures Conserved(s', w, c)
  {
    TimesSum(LedgerOf(s, w).dropped, Log(s.pending, w), c);
    HeldIgnoresClosing(s'.chans, s.chans, w, c, false);
    HeldIgnoresClosing(s'.chans, s.chans, w, c, true);
  }

  lemma ConservedStep(s: State, limits: Limits, e: Event, w: WorkerID, c: Command)
    requires Safe(s) && Conserved(s, w, c)
    ensures Conserved(Step(s, limits, e), w, c)
  {
    match e
    case Heartbeat(_, _) =>
    case Attach(id) => ConservedAttach(s, id, w, c);
    case Detach(id) => ConservedDetach(s, id, w, c);
    case Drain(id, reason, at, clock) =>
      SendEffect(s, id, Command(DrainCommand, reason, at), Draining, clock);
      ConservedSend(s, Step(s, limits, e), id, Command(DrainCommand, reason, at), w, c);
    case ForceKill(id, reason, at, clock) =>
      SendEffect(s, id, Command(ForceKillCommand, reason, at), Dead, clock);
      ConservedSend(s, Step(s, limits, e), id, Command(ForceKillCommand, reason, at), w, c);
    case List(now, clock) => ConservedClosing(s, ListStep(s, limits, OrClock(now, clock)), w, c);
    case Receive(i) => ConservedReceive(s, i, w, c);
  }

  lemma OrderedSend(s: State, s': State, id: WorkerID, cmd: Command)
    requires Safe(s) && Ordered(s) && Sent(s, s', id, cmd)
    ensures Ordered(s')
  {
    var issued := LedgerOf(s, id).issued;
    forall w | w in s'.pending
      ensures Subsequence(s'.pending[w], LedgerOf(s', w).issued)
    {
      if w == id {
        if w !in s.pending { EmptySubsequence(issued); }
        SubsequenceGrows(Log(s.pending, id), issued, cmd);
      }
    }
    forall i | 0 <= i < |s'.chans|
      ensures Subsequence(s'.chans[i].received + s'.chans[i].buffer, LedgerOf(s', s'.chans[i].owner).issued)
    {
      var ch := s.chans[i];
      assert s'.chans[i] == ch || (ch.owner == id && s'.chans[i] == ch.(buffer := ch.buffer + [cmd]));
      if ch.owner == id {
        SubsequenceGrows(ch.received + ch.buffer, issued, cmd);
        assert ch.received + (ch.buffer + [cmd]) == ch.received + ch.buffer + [cmd];
      }
    }
  }

  lemma OrderedFrame(s: State, s': State)
    requires Ordered(s)
    requires forall id :: id in s'.pending ==> id in s.pending && s'.pending[id] == s.pending[id]
    requires |s.chans| <= |s'.chans|
    requires forall i :: 0 <= i < |s'.chans| ==>
      var c' := s'.chans[i];
      if i < |s.chans| then c'.owner == s.chans[i].owner && c'.received + c'.buffer == s.chans[i].received + s.chans[i].buffer
      else c'.received + c'.buffer == []
    requires forall id :: LedgerOf(s', id).issued == LedgerOf(s, id).issued
    ensures Ordered(s')
  {
    forall i | 0 <= i < |s'.chans|
      ensures Subsequence(s'.chans[i].received + s'.chans[i].buffer, LedgerOf(s', s'.chans[i].owner).issued)
    {
      EmptySubsequence(LedgerOf(s', s'.chans[i].owner).issued);
    }
  }

  lemma OrderedReceive(s: State, i: nat)
    requires Ordered(s)
    ensures Ordered(ReceiveStep(s, i))
  {
    if i < |s.chans| && s.chans[i].buffer != [] {
      var ch := s.chans[i];
      assert ch.received + [ch.buffer[0]] + ch.buffer[1..] == ch.received + ch.buffer;
      OrderedFrame(s, ReceiveStep(s, i));
    }
  }

  lemma OrderedList(s: State, limits: Limits, now: int)
    requires Ordered(s)
    ensures Ordered(ListStep(s, limits, now))
  {
    OrderedFrame(s, ListStep(s, limits, now));
  }

  lemma OrderedStreams(s: State, id: WorkerID)
    requires Ordered(s)
    ensures Ordered(AttachStep(s, id)) && Ordered(DetachStep(s, id))
  {
    OrderedFrame(s, DetachStep(s, id));
    OrderedFrame(DetachStep(s, id), AttachStep(s, id));
  }

  lemma OrderedStep(s: State, limits: Limits, e: Event)
    requires Safe(s) && Ordered(s)
    ensures Ordered(Step(s, limits, e))
  {
    match e
    case Heartbeat(_, _) =>
    case Attach(id) => OrderedStreams(s, id);
    case Detach(id) => OrderedStreams(s, id);
    case Drain(id, reason, at, clock) =>
      SendEffect(s, id, Command(DrainCommand, reason, at), Draining, clock);
      OrderedSend(s, Step(s, limits, e), id, Command(DrainCommand, reason, at));
    case ForceKill(id, reason, at, clock) =>
      SendEffect(s, id, Command(ForceKillCommand, reason, at), Dead, clock);
      OrderedSend(s, Step(s, limits, e), id, Command(ForceKillCommand, reason, at));
    case List(now, clock) => OrderedList(s, limits, OrClock(now, clock));
    case Receive(i) => OrderedReceive(s, i);
  }

  // Whatever is called in whatever order, no command is lost, duplicated, reordered or
  // handed to another worker.
  lemma {:induction false} CommandsAreConserved(limits: Limits, es: seq<Event>, w: WorkerID, c: Command)
    ensures var s := Run(INITIAL, limits, es); Conserved(s, w, c) && Ordered(s)
  {
    if es != [] {
      var prev := es[..|es| - 1];
      CommandsAreConserved(limits, prev, w, c);
      AlwaysSafe(limits, prev);
      ConservedStep(Run(INITIAL, limits, prev), limits, es[|es| - 1], w, c);
      OrderedStep(Run(INITIAL, limits, prev), limits, es[|es| - 1]);
    }
  }

  // ---- removing workers one at a time, in any order, removes the set ----

  lemma ForgetOneChans(s: State, id: WorkerID)
    requires Safe(s)
    ensures CloseStreams(s.chans, s.streams, {id}) == CloseOne(s.chans, s.streams, id)
  {
  }

  lemma ForgetNone(s: State)
    ensures Forget(s, {}) == s
  {
    assert Forget(s, {}).chans == s.chans;
    assert Forget(s, {}).ledgers == s.ledgers;
  }

  lemma DropOneMore(s: State, ids: set<WorkerID>, id: WorkerID)
    requires id !in ids
    ensures DropPending(Forget(s, ids), {id}) == DropPending(s, ids + {id})
  {
  }

  lemma CloseOneMore(s: State, ids: set<WorkerID>, id: WorkerID)
    requires id !in ids
    ensures CloseStreams(CloseStreams(s.chans, s.streams, ids), s.streams - ids, {id}) == CloseStreams(s.chans, s.streams, ids + {id})
  {
  }

  lemma ForgetOneMore(s: State, ids: set<WorkerID>, id: WorkerID)
    requires id !in ids
    ensures Forget(Forget(s, ids), {id}) == Forget(s, ids + {id})
  {
    DropOneMore(s, ids, id);
    CloseOneMore(s, ids, id);
    assert s.workers - ids - {id} == s.workers - (ids + {id});
    assert s.streams - ids - {id} == s.streams - (ids + {id});
    assert s.pending - ids - {id} == s.pending - (ids + {id});
  }
}
