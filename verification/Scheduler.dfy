// The schedule worker: a paged loop over the scheduled configurations.
module Scheduler {
  import opened Clock
  import opened Options
  import opened SchedulerModel
  import opened SchedulerSafety

  const BATCH_SIZE: nat := 100

  datatype Row = Row(id: ConfigID, config: JobConfig)

  // Each configuration once, in the order of the listing, at the times its passes read the clock.
  function Ticks(ids: seq<ConfigID>, at: nat -> Time, calls: nat -> Calls): seq<Event> {
    seq(|ids|, i requires 0 <= i < |ids| => Tick(ids[i], at(i), calls(i)))
  }

  // The configuration's job that was created last; of several at one instant the later row.
  predicate IsLatest(jobs: seq<Job>, c: ConfigID, k: int) {
    && 0 <= k < |jobs| && jobs[k].config == c
    && forall i :: 0 <= i < |jobs| && jobs[i].config == c ==>
         jobs[i].createdAt < jobs[k].createdAt || (jobs[i].createdAt == jobs[k].createdAt && i <= k)
  }

  // What one turn makes of a configuration and the job table. Without a usable expression, before
  // the next run, or with the latest job unfinished, nothing. A configuration without a next run
  // gets one: after its latest job when that is finished, else after the last run it knows of,
  // else after the present. One that is due gets a job, and a next run after it.
  ghost predicate Processed(row: Row, at: Time, calls: Calls, configs: map<ConfigID, JobConfig>, jobs: seq<Job>,
                            configs': map<ConfigID, JobConfig>, jobs': seq<Job>)
  {
    var c := row.config;
    match c.cron
    case Blank => configs' == configs && jobs' == jobs
    case Malformed => configs' == configs && jobs' == jobs
    case Cron(next) =>
      match c.nextRunAt
      case None =>
        jobs' == jobs && if calls.loads && calls.updates then Planned(row, next, at, configs, jobs, configs') else configs' == configs
      case Some(due) =>
        if at < due || !calls.loads || !calls.commits || (exists k :: IsLatest(jobs, row.id, k) && jobs[k].completedAt == None)
        then configs' == configs && jobs' == jobs
        else
          && jobs' == jobs + [Job(row.id, at, None)]
          && configs' == configs[row.id := c.(lastRunAt := Some(at), nextRunAt := Some(next(at)))]
  }

  ghost predicate Planned(row: Row, next: Time -> Time, at: Time, configs: map<ConfigID, JobConfig>, jobs: seq<Job>,
                          configs': map<ConfigID, JobConfig>)
  {
    var c := row.config;
    && (forall k :: IsLatest(jobs, row.id, k) && jobs[k].completedAt != None ==>
          configs' == configs[row.id := c.(lastRunAt := Some(jobs[k].createdAt), nextRunAt := Some(next(jobs[k].createdAt)))])
    && ((forall k :: IsLatest(jobs, row.id, k) ==> jobs[k].completedAt == None) ==>
          configs' == configs[row.id := c.(nextRunAt := Some(next(match c.lastRunAt case Some(t) => t case None => at)))])
  }

  lemma LatestIsUnique(jobs: seq<Job>, c: ConfigID)
    ensures var k := LatestIndex(jobs, c);
            && (k.Some? ==> IsLatest(jobs, c, k.value))
            && forall i :: IsLatest(jobs, c, i) ==> k == Some(i)
  {
    LatestIsLatest(jobs, c);
  }

  lemma PassProcesses(s: State, row: Row, at: Time, calls: Calls)
    requires row.id in s.configs && s.configs[row.id] == row.config
    ensures var s' := Pass(s, row.id, at, calls); Processed(row, at, calls, s.configs, s.jobs, s'.configs, s'.jobs)
  {
    hide IsLatest;
    LatestIsUnique(s.jobs, row.id);
  }

  function Min(a: nat, b: nat): nat { if a <= b then a else b }

  lemma {:induction false} RunGrows(s: State, es: seq<Event>, e: Event)
    requires ValidRun(s, es) && Possible(Run(s, es), e)
    ensures ValidRun(s, es + [e]) && Run(s, es + [e]) == Step(Run(s, es), e)
    decreases |es|
  {
    hide Step, Possible;
    if es == [] {
      assert [] + [e] == [e];
    } else {
      RunGrows(Step(s, es[0]), es[1..], e);
      assert (es + [e])[1..] == es[1..] + [e];
    }
  }

  class ScheduleWorker {
    const listed: seq<ConfigID>  // the scheduled configurations by name
    var configs: map<ConfigID, JobConfig>
    var jobs: seq<Job>
    ghost var now: Time

    ghost predicate Valid()
      reads this
    {
      && (forall c :: c in configs <==> c in listed)
      && (forall i, j :: 0 <= i < j < |listed| ==> listed[i] != listed[j])
    }

    ghost function Abs(): State
      reads this
    {
      State(configs, jobs, now)
    }

    constructor (listed: seq<ConfigID>, configs: map<ConfigID, JobConfig>, jobs: seq<Job>, ghost now: Time)
      requires (forall c :: c in configs <==> c in listed) && (forall i, j :: 0 <= i < j < |listed| ==> listed[i] != listed[j])
      ensures Valid() && Abs() == State(configs, jobs, now) && this.listed == listed
    {
      this.listed, this.configs, this.jobs, this.now := listed, configs, jobs, now;
    }

    method GetLatestByConfigID(c: ConfigID) returns (last: Option<Job>)
      ensures last == Latest(jobs, c)
      ensures match last
              case Some(job) => exists k :: IsLatest(jobs, c, k) && jobs[k] == job
              case None => forall i :: 0 <= i < |jobs| ==> jobs[i].config != c
    {
      LatestIsUnique(jobs, c);
      LatestIsLatest(jobs, c);
      last := None;
      for n := 0 to |jobs|
        invariant last == Latest(jobs[..n], c)
      {
        assert jobs[..n + 1][..n] == jobs[..n];
        if jobs[n].config == c && (last.None? || last.value.createdAt <= jobs[n].createdAt) {
          last := Some(jobs[n]);
        }
      }
      assert jobs[..|jobs|] == jobs;
    }

    // LIMIT and OFFSET.
    method ListAllScheduled(limit: nat, offset: nat) returns (page: seq<Row>)
      requires Valid()
      ensures var lo, hi := Min(offset, |listed|), Min(offset + limit, |listed|);
              && |page| == hi - lo
              && forall i :: 0 <= i < |page| ==> page[i].id == listed[lo + i] && page[i].config == configs[listed[lo + i]]
      ensures if offset >= |listed| then page == []
              else |page| == (if offset + limit <= |listed| then limit else |listed| - offset)
                   && forall i :: 0 <= i < |page| ==> page[i] == Row(listed[offset + i], configs[listed[offset + i]])
    {
      var lo, hi := Min(offset, |listed|), Min(offset + limit, |listed|);
      page := [];
      for i := lo to hi
        invariant |page| == i - lo
        invariant forall k :: 0 <= k < |page| ==> page[k].id == listed[lo + k] && page[k].config == configs[listed[lo + k]]
      {
        page := page + [Row(listed[i], configs[listed[i]])];
      }
    }

    // The configuration is changed in memory first; the tables only when the transaction commits.
    method CreateScheduledJob(row: Row, at: Time, commits: bool)
      requires Valid() && row.id in configs && configs[row.id] == row.config && row.config.cron.Cron?
      modifies this`configs, this`jobs
      ensures Valid()
      ensures commits ==> jobs == old(jobs) + [Job(row.id, at, None)]
      ensures commits ==> configs == old(configs)[row.id := row.config.(lastRunAt := Some(at), nextRunAt := Some(row.config.cron.next(at)))]
      ensures !commits ==> jobs == old(jobs) && configs == old(configs)
    {
      var config := row.config;
      var nextRun := config.cron.next(at);
      config := config.(lastRunAt := Some(at));
      config := config.(nextRunAt := Some(nextRun));
      if commits {
        configs := configs[row.id := config];
        jobs := jobs + [Job(row.id, at, None)];
      }
    }

    method ProcessConfig(row: Row, at: Time, calls: Calls)
      requires Valid() && row.id in configs && configs[row.id] == row.config && at >= now
      modifies this
      ensures Valid() && Possible(old(Abs()), Tick(row.id, at, calls))
      ensures Abs() == Step(old(Abs()), Tick(row.id, at, calls))
      ensures forall c :: c in configs && c != row.id ==> c in old(configs) && configs[c] == old(configs)[c]
      ensures Processed(row, at, calls, old(configs), old(jobs), configs, jobs) && now == at
    {
      hide Processed, IsLatest;
      PassProcesses(Abs(), row, at, calls);
      now := at;
      var config := row.config;
      if !config.cron.Cron? {
        return;
      }
      if config.nextRunAt.None? {
        if !calls.loads {
          return;
        }
        var last := GetLatestByConfigID(row.id);
        if last.Some? && last.value.completedAt.Some? {
          config := config.(lastRunAt := Some(last.value.createdAt));
        }
        var base := at;
        if config.lastRunAt.Some? {
          base := config.lastRunAt.value;
        }
        config := config.(nextRunAt := Some(config.cron.next(base)));
        if calls.updates {
          configs := configs[row.id := config];
        }
        return;
      }
      if config.nextRunAt.value > at || !calls.loads {
        return;
      }
      var last := GetLatestByConfigID(row.id);
      if last.Some? && last.value.completedAt.None? {
        return;
      }
      CreateScheduledJob(row, at, calls.commits);
    }

    // One turn for each configuration of the page.
    method ProcessPage(page: seq<Row>, offset: nat, at: nat -> Time, calls: nat -> Calls, ghost start: State)
      requires Valid() && offset + |page| <= |listed|
      requires forall i :: 0 <= i < |page| ==> page[i].id == listed[offset + i] && page[i].config == configs[listed[offset + i]]
      requires ValidRun(start, Ticks(listed[..offset], at, calls)) && Abs() == Run(start, Ticks(listed[..offset], at, calls))
      requires (forall i :: offset <= i ==> now <= at(i)) && (forall i, j :: i <= j ==> at(i) <= at(j))
      modifies this
      ensures Valid() && forall i :: offset + |page| <= i ==> now <= at(i)
      ensures var es := Ticks(listed[..offset + |page|], at, calls); ValidRun(start, es) && Abs() == Run(start, es)
    {
      hide Step, Possible, ValidRun, Run, Ticks;
      for n := 0 to |page|
        invariant Valid() && forall i :: offset + n <= i ==> now <= at(i)
        invariant forall i :: n <= i < |page| ==> page[i].config == configs[listed[offset + i]]
        invariant var es := Ticks(listed[..offset + n], at, calls); ValidRun(start, es) && Abs() == Run(start, es)
      {
        var k := offset + n;
        ghost var e := Tick(page[n].id, at(k), calls(k));
        ghost var es := Ticks(listed[..k], at, calls);
        ProcessConfig(page[n], at(k), calls(k));
        RunGrows(start, es, e);
        OneMoreTick(listed, k, at, calls);
        TickSetsClock(Run(start, es), page[n].id, at(k), calls(k));
      }
    }

    // lists says which of the listings succeed. done configurations have been passed over, each
    // exactly once and with the row it had when it was listed; all of them when no listing fails.
    method ProcessSchedules(at: nat -> Time, calls: nat -> Calls, lists: nat -> bool) returns (done: nat)
      requires Valid() && (forall i :: now <= at(i)) && (forall i, j :: i <= j ==> at(i) <= at(j))
      modifies this
      ensures Valid() && done <= |listed|
      ensures (forall p :: lists(p)) ==> done == |listed|
      ensures var es := Ticks(listed[..done], at, calls); ValidRun(old(Abs()), es) && Abs() == Run(old(Abs()), es)
    {
      hide Step, Possible;
      var pageNumber := 0;
      done := 0;
      assert Ticks(listed[..0], at, calls) == [];
      while true
        invariant Valid() && done <= |listed| && forall i :: done <= i ==> now <= at(i)
        invariant var es := Ticks(listed[..done], at, calls); ValidRun(old(Abs()), es) && Abs() == Run(old(Abs()), es)
        decreases |listed| - done
      {
        if !lists(pageNumber) {
          return;
        }
        var page := ListAllScheduled(BATCH_SIZE, done);
        if |page| == 0 {
          return;
        }
        ProcessPage(page, done, at, calls, old(Abs()));
        done := done + |page|;
        pageNumber := pageNumber + 1;
        if |page| < BATCH_SIZE {
          return;
        }
      }
    }
  }

  lemma OneMoreTick(ids: seq<ConfigID>, k: nat, at: nat -> Time, calls: nat -> Calls)
    requires k < |ids|
    ensures Ticks(ids[..k + 1], at, calls) == Ticks(ids[..k], at, calls) + [Tick(ids[k], at(k), calls(k))]
  {
  }

  lemma TickSetsClock(s: State, c: ConfigID, at: Time, calls: Calls)
    requires Possible(s, Tick(c, at, calls))
    ensures Step(s, Tick(c, at, calls)).now == at
  {
  }
}
