// Recovery of tasks that were in progress for too long: their messages are published again.
module StuckTaskRecoveries {
  import opened Options
  import opened PipelineModel
  import opened TaskStatuses
  import opened Handlers
  import opened FetchWorkers
  import opened ParserWorkers

  predicate AllInProgress(tasks: map<TaskID, Task>, ids: seq<TaskID>) {
    forall i :: 0 <= i < |ids| ==> ids[i] in tasks && tasks[ids[i]].status == InProgress
  }

  function RowsOf(tasks: map<TaskID, Task>, ids: seq<TaskID>): seq<Task>
    requires forall i :: 0 <= i < |ids| ==> ids[i] in tasks
  {
    seq(|ids|, i requires 0 <= i < |ids| => tasks[ids[i]])
  }

  lemma ListingStale(s: State, f: FlightID, ids: seq<TaskID>)
    requires f !in s.flights && AllInProgress(s.tasks, ids)
    ensures var l := RecoveryLists(f, ids);
            && Enabled(s, l) && TablesOf(Apply(s, l)) == TablesOf(s)
            && Apply(s, l).flights == s.flights[f := Recovering(RowsOf(s.tasks, ids))]
  {
  }

  lemma RepublishingOne(s: State, f: FlightID, delivered: bool)
    requires IsRecovering(s, f) && s.flights[f].stale != []
    ensures var todo := s.flights[f].stale;
            var l := RecoveryPublishes(f, delivered);
            && Enabled(s, l)
            && TablesOf(Apply(s, l)) == TablesOf(s).(crawlLog := if delivered then s.crawlLog + [MessageFor(todo[0])] else s.crawlLog)
            && Apply(s, l).flights == s.flights[f := Recovering(todo[1..])]
  {
  }

  lemma NoDelivery(ts: seq<Task>, delivers: nat -> bool)
    ensures Delivered(Messages(ts[..0]), delivers) == []
  {
  }

  lemma OneMoreDelivery(ts: seq<Task>, n: nat, delivers: nat -> bool)
    requires n < |ts|
    ensures Delivered(Messages(ts[..n + 1]), delivers) ==
            Delivered(Messages(ts[..n]), delivers) + if delivers(n) then [MessageFor(ts[n])] else []
  {
    assert Messages(ts[..n + 1])[..n] == Messages(ts[..n]);
  }

  class StuckTaskRecovery {
    const world: World

    constructor (world: World)
      ensures this.world == world
    {
      this.world := world;
    }

    method Republish(t: Task, delivered: bool, ghost f: FlightID, ghost todo: seq<Task>)
      requires world.Valid() && f in world.flights && world.flights[f] == Recovering(todo) && todo != [] && todo[0] == t
      modifies world
      ensures world.Valid() && old(world.trace) <= world.trace
      ensures f in world.flights && world.flights[f] == Recovering(todo[1..]) && world.flights - {f} == old(world.flights) - {f}
      ensures world.AbsTables() == old(world.AbsTables()).(crawlLog :=
                if delivered then old(world.crawlQueue) + [MessageFor(t)] else old(world.crawlQueue))
    {
      hide Apply, Enabled, ValidRun, Outcome;
      RepublishingOne(world.Abs(), f, delivered);
      if delivered {
        world.PublishCrawl(MessageFor(t), RecoveryPublishes(f, true));
      } else {
        world.Goes(RecoveryPublishes(f, false));
      }
    }

    method RepublishAll(tasks: seq<Task>, delivers: nat -> bool, ghost f: FlightID) returns (republished: nat)
      requires world.Valid() && f in world.flights && world.flights[f] == Recovering(tasks)
      modifies world
      ensures world.Valid() && old(world.trace) <= world.trace && world.flights == old(world.flights) - {f}
      ensures world.AbsTables() ==
              old(world.AbsTables()).(crawlLog := old(world.crawlQueue) + Delivered(Messages(tasks), delivers))
      ensures republished == |Delivered(Messages(tasks), delivers)|
    {
      hide Apply, Enabled, ValidRun, Outcome, Messages, Delivered;
      republished := 0;
      NoDelivery(tasks, delivers);
      for n := 0 to |tasks|
        invariant world.Valid() && old(world.trace) <= world.trace
        invariant f in world.flights && world.flights[f] == Recovering(tasks[n..]) && world.flights - {f} == old(world.flights) - {f}
        invariant world.AbsTables() ==
                  old(world.AbsTables()).(crawlLog := old(world.crawlQueue) + Delivered(Messages(tasks[..n]), delivers))
        invariant republished == |Delivered(Messages(tasks[..n]), delivers)|
      {
        OneMoreDelivery(tasks, n, delivers);
        assert tasks[n..][1..] == tasks[n + 1..];
        Republish(tasks[n], delivers(n), f, tasks[n..]);
        if delivers(n) {
          republished := republished + 1;
        }
      }
      assert tasks[..|tasks|] == tasks;
      Stopping(world.Abs(), f);
      world.Goes(Stops(f));
    }

    // One attempt for each stale task, in the order listed; one that fails does not stop the
    // others. Rows stay as they are, so a second pass may publish the same messages again.
    method Recover(ids: seq<TaskID>, delivers: nat -> bool, ghost f: FlightID) returns (republished: nat)
      requires world.Valid() && f !in world.flights && AllInProgress(world.tasks, ids)
      modifies world
      ensures world.Valid() && old(world.trace) <= world.trace && world.flights == old(world.flights)
      ensures var attempts := Messages(RowsOf(old(world.tasks), ids));
              && |attempts| == |ids|
              && (forall i :: 0 <= i < |ids| ==>
                    attempts[i] == CrawlMessage(ids[i], old(world.tasks)[ids[i]].job, old(world.tasks)[ids[i]].url))
              && world.AbsTables() == old(world.AbsTables()).(crawlLog := old(world.crawlQueue) + Delivered(attempts, delivers))
              && republished == |Delivered(attempts, delivers)|
    {
      hide Apply, Enabled, ValidRun, Outcome, Delivered;
      forall i | 0 <= i < |ids| ensures world.tasks[ids[i]].id == ids[i] { world.RowsAreKeyed(ids[i]); }
      var tasks := RowsOf(world.tasks, ids);
      ListingStale(world.Abs(), f, ids);
      world.Goes(RecoveryLists(f, ids));
      republished := RepublishAll(tasks, delivers, f);
    }
  }
}
