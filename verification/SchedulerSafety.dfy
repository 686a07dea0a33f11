// What one scheduler loop guarantees under a clock that never runs backwards. The job table may
// hold any history at the start; from is the position of the first job the claims compare.
module SchedulerSafety {
  import opened Clock
  import opened Options
  import opened SchedulerModel

  ghost predicate Advances(cron: Cron) {
    cron.Cron? ==> forall t :: cron.next(t) > t
  }

  // At most one job of the configuration is unfinished, and it is the latest.
  ghost predicate OneUnfinished(c: ConfigID, jobs: seq<Job>) {
    forall i :: 0 <= i < |jobs| && jobs[i].config == c && jobs[i].completedAt.None? ==> LatestIndex(jobs, c) == Some(i)
  }

  // Each job was created at or after the instants its predecessors called for.
  ghost predicate InSequence(cron: Cron, c: ConfigID, jobs: seq<Job>, from: nat) {
    cron.Cron? ==>
      forall i, j :: from <= i < j < |jobs| && jobs[i].config == c && jobs[j].config == c ==>
        jobs[i].createdAt < cron.next(jobs[i].createdAt) <= jobs[j].createdAt
  }

  // The next run never comes before what the jobs so far call for; while it is still unset, the
  // latest of them is completed or remembered as the last run.
  ghost predicate ScheduleOk(config: JobConfig, c: ConfigID, jobs: seq<Job>, from: nat) {
    forall i :: from <= i < |jobs| && jobs[i].config == c ==>
      if config.nextRunAt.Some? then config.cron.Cron? ==> config.cron.next(jobs[i].createdAt) <= config.nextRunAt.value
      else Latest(jobs, c).Some?
           && (Latest(jobs, c).value.completedAt.Some? || config.lastRunAt == Some(Latest(jobs, c).value.createdAt))
  }

  ghost predicate ConfigOk(s: State, c: ConfigID, from: nat)
    requires c in s.configs
  {
    && Advances(s.configs[c].cron) && OneUnfinished(c, s.jobs)
    && InSequence(s.configs[c].cron, c, s.jobs, from) && ScheduleOk(s.configs[c], c, s.jobs, from)
  }

  ghost predicate InOrder(jobs: seq<Job>, now: Time, from: nat) {
    && (forall i :: 0 <= i < |jobs| ==> jobs[i].createdAt <= now)
    && (forall i, j :: 0 <= i < j < |jobs| && from <= j ==> jobs[i].createdAt <= jobs[j].createdAt)
  }

  ghost predicate Ok(s: State, from: nat) {
    && (forall c :: c in s.configs ==> ConfigOk(s, c, from))
    && (forall i :: 0 <= i < |s.jobs| ==> s.jobs[i].config in s.configs)
    && InOrder(s.jobs, s.now, from)
  }

  // ---- the latest job ----

  lemma {:induction false} LatestIsLatest(jobs: seq<Job>, c: ConfigID)
    ensures var k := LatestIndex(jobs, c);
            && (k.None? <==> forall i :: 0 <= i < |jobs| ==> jobs[i].config != c)
            && (k.Some? ==>
                  && k.value < |jobs| && jobs[k.value].config == c
                  && (forall i :: 0 <= i < |jobs| && jobs[i].config == c ==> jobs[i].createdAt <= jobs[k.value].createdAt)
                  && (forall i :: k.value < i < |jobs| && jobs[i].config == c ==> jobs[i].createdAt < jobs[k.value].createdAt))
  {
    if jobs != [] {
      LatestIsLatest(jobs[..|jobs| - 1], c);
    }
  }

  lemma {:induction false} LatestAfterCompletion(jobs: seq<Job>, c: ConfigID, k: nat, at: Time)
    requires k < |jobs|
    ensures LatestIndex(jobs[k := jobs[k].(completedAt := Some(at))], c) == LatestIndex(jobs, c)
  {
    var jobs' := jobs[k := jobs[k].(completedAt := Some(at))];
    var n := |jobs| - 1;
    if k < n {
      LatestAfterCompletion(jobs[..n], c, k, at);
      assert jobs'[..n] == jobs[..n][k := jobs[k].(completedAt := Some(at))];
    } else {
      assert jobs'[..n] == jobs[..n];
    }
  }

  // The latest job is the last of the jobs compared, and no instant they call for is after the
  // one it calls for.
  lemma LatestEndsSequence(cron: Cron, c: ConfigID, jobs: seq<Job>, now: Time, from: nat, i: nat)
    requires cron.Cron? && Advances(cron) && InSequence(cron, c, jobs, from) && InOrder(jobs, now, from)
    requires from <= i < |jobs| && jobs[i].config == c
    ensures Latest(jobs, c).Some? && cron.next(jobs[i].createdAt) <= cron.next(Latest(jobs, c).value.createdAt)
  {
    LatestIsLatest(jobs, c);
    var k := LatestIndex(jobs, c).value;
    assert k >= i;
    assert cron.next(jobs[k].createdAt) > jobs[k].createdAt;
  }

  // ---- the branches of a pass ----

  // The first pass over an unscheduled configuration only computes when it is due.
  lemma FirstScheduleOk(config: JobConfig, c: ConfigID, jobs: seq<Job>, now: Time, from: nat, at: Time, config': JobConfig)
    requires config.cron.Cron? && Advances(config.cron) && config.nextRunAt.None? && InOrder(jobs, now, from)
    requires InSequence(config.cron, c, jobs, from) && ScheduleOk(config, c, jobs, from)
    requires config'.cron == config.cron
    requires config'.lastRunAt == (if Latest(jobs, c).Some? && Latest(jobs, c).value.completedAt.Some?
                                   then Some(Latest(jobs, c).value.createdAt) else config.lastRunAt)
    requires config'.nextRunAt == Some(config.cron.next(if config'.lastRunAt.Some? then config'.lastRunAt.value else at))
    ensures ScheduleOk(config', c, jobs, from)
  {
    forall i | from <= i < |jobs| && jobs[i].config == c
      ensures config'.cron.next(jobs[i].createdAt) <= config'.nextRunAt.value
    {
      LatestEndsSequence(config.cron, c, jobs, now, from, i);
    }
  }

  lemma NewJobOk(config: JobConfig, c: ConfigID, jobs: seq<Job>, now: Time, from: nat, at: Time)
    requires config.cron.Cron? && Advances(config.cron) && config.nextRunAt.Some? && config.nextRunAt.value <= at && now <= at
    requires InSequence(config.cron, c, jobs, from) && ScheduleOk(config, c, jobs, from) && InOrder(jobs, now, from)
    requires OneUnfinished(c, jobs) && (Latest(jobs, c).Some? ==> Latest(jobs, c).value.completedAt.Some?)
    ensures var jobs' := jobs + [Job(c, at, None)];
            && InSequence(config.cron, c, jobs', from)
            && ScheduleOk(config.(lastRunAt := Some(at), nextRunAt := Some(config.cron.next(at))), c, jobs', from)
            && OneUnfinished(c, jobs')
  {
  }

  lemma OthersIgnoreNewJob(config: JobConfig, c: ConfigID, jobs: seq<Job>, from: nat, j: Job)
    requires InSequence(config.cron, c, jobs, from) && ScheduleOk(config, c, jobs, from) && OneUnfinished(c, jobs) && j.config != c
    ensures InSequence(config.cron, c, jobs + [j], from) && ScheduleOk(config, c, jobs + [j], from) && OneUnfinished(c, jobs + [j])
  {
  }

  lemma CompletionOk(config: JobConfig, c: ConfigID, jobs: seq<Job>, from: nat, k: nat, at: Time)
    requires InSequence(config.cron, c, jobs, from) && ScheduleOk(config, c, jobs, from) && OneUnfinished(c, jobs) && k < |jobs|
    ensures var jobs' := jobs[k := jobs[k].(completedAt := Some(at))];
            InSequence(config.cron, c, jobs', from) && ScheduleOk(config, c, jobs', from) && OneUnfinished(c, jobs')
  {
    LatestAfterCompletion(jobs, c, k, at);
  }

  // ---- all events ----

  lemma PassKeepsConfig(s: State, c: ConfigID, at: Time, calls: Calls, from: nat, d: ConfigID)
    requires Ok(s, from) && c in s.configs && d in s.configs && at >= s.now
    ensures d in Pass(s, c, at, calls).configs && ConfigOk(Pass(s, c, at, calls), d, from)
  {
    hide InSequence, ScheduleOk, OneUnfinished, Latest, Advances, InOrder;
    assert ConfigOk(s, c, from) && ConfigOk(s, d, from);
    var s' := Pass(s, c, at, calls);
    var config := s.configs[c];
    if s'.jobs != s.jobs {
      if d == c {
        NewJobOk(config, c, s.jobs, s.now, from, at);
      } else {
        OthersIgnoreNewJob(s.configs[d], d, s.jobs, from, Job(c, at, None));
      }
    } else if s' != s && d == c {
      FirstScheduleOk(config, c, s.jobs, s.now, from, at, s'.configs[c]);
    }
  }

  lemma StepKeepsOk(s: State, e: Event, from: nat)
    requires Ok(s, from) && Possible(s, e)
    ensures Ok(Step(s, e), from)
  {
    hide InSequence, ScheduleOk, OneUnfinished, Latest, Advances;
    var s' := Step(s, e);
    match e
    case Tick(c, at, calls) =>
      forall d | d in s'.configs ensures ConfigOk(s', d, from) {
        PassKeepsConfig(s, c, at, calls, from, d);
        assert ConfigOk(Pass(s, c, at, calls), d, from);
      }
    case Completed(k, at) =>
      forall d | d in s'.configs ensures ConfigOk(s', d, from) {
        assert ConfigOk(s, d, from);
        CompletionOk(s.configs[d], d, s.jobs, from, k, at);
      }
  }

  lemma {:induction false} AlwaysOk(s: State, es: seq<Event>, from: nat)
    requires Ok(s, from) && ValidRun(s, es)
    ensures Ok(Run(s, es), from)
    decreases |es|
  {
    if es != [] {
      StepKeepsOk(s, es[0], from);
      AlwaysOk(Step(s, es[0]), es[1..], from);
    }
  }

  // ---- the guarantees ----

  // Any start: a table of past jobs with at most one of each configuration unfinished, the latest.
  ghost predicate Start(s: State) {
    && (forall c :: c in s.configs ==> Advances(s.configs[c].cron) && OneUnfinished(c, s.jobs))
    && (forall i :: 0 <= i < |s.jobs| ==> s.jobs[i].config in s.configs && s.jobs[i].createdAt <= s.now)
  }

  // On every run from such a start there is never a second unfinished job of a configuration,
  // and the unfinished one is the latest; and of the jobs created on the run each comes at or
  // after the instant that follows, on the schedule, the creation of any earlier one.
  lemma JobsFollowTheSchedule(s: State, es: seq<Event>)
    requires Start(s) && ValidRun(s, es)
    ensures var s' := Run(s, es);
            && (forall c :: c in s'.configs ==> OneUnfinished(c, s'.jobs))
            && (forall i, j :: |s.jobs| <= i < j < |s'.jobs| && s'.jobs[i].config == s'.jobs[j].config ==> Follows(s', i, j))
  {
    hide InSequence, ScheduleOk, OneUnfinished;
    var s', from := Run(s, es), |s.jobs|;
    forall c | c in s.configs ensures ConfigOk(s, c, from) {
      NothingToCompare(s.configs[c], c, s.jobs);
    }
    AlwaysOk(s, es, from);
    forall c | c in s'.configs ensures OneUnfinished(c, s'.jobs) {
      assert ConfigOk(s', c, from);
    }
    forall i, j | from <= i < j < |s'.jobs| && s'.jobs[i].config == s'.jobs[j].config ensures Follows(s', i, j) {
      assert ConfigOk(s', s'.jobs[i].config, from);
      LaterFollows(s', from, i, j);
    }
  }

  ghost predicate Follows(s: State, i: nat, j: nat)
    requires i < |s.jobs| && j < |s.jobs|
  {
    var a, b := s.jobs[i], s.jobs[j];
    && a.completedAt.Some? && a.config in s.configs && a.createdAt <= b.createdAt
    && var cron := s.configs[a.config].cron;
       cron.Cron? ==> a.createdAt < cron.next(a.createdAt) <= b.createdAt
  }

  lemma NothingToCompare(config: JobConfig, c: ConfigID, jobs: seq<Job>)
    ensures InSequence(config.cron, c, jobs, |jobs|) && ScheduleOk(config, c, jobs, |jobs|)
  {
  }

  lemma LaterFollows(s: State, from: nat, i: nat, j: nat)
    requires Ok(s, from) && from <= i < j < |s.jobs| && s.jobs[i].config == s.jobs[j].config
    ensures Follows(s, i, j)
  {
    var c := s.jobs[i].config;
    assert ConfigOk(s, c, from);
    LatestIsLatest(s.jobs, c);
    assert LatestIndex(s.jobs, c) != Some(i);
  }

  // However long the schedule was not looked at, the ticks it missed collapse into one run: a
  // pass creates at most one job, and none is created again before the next instant after it.
  lemma MissedTicksCollapse(s: State, c: ConfigID, at: Time, calls: Calls, at': Time, calls': Calls)
    requires c in s.configs
    ensures var s' := Pass(s, c, at, calls);
            && (s'.jobs == s.jobs || s'.jobs == s.jobs + [Job(c, at, None)])
            && c in s'.configs
            && (s'.jobs != s.jobs ==> s'.configs[c].cron.Cron?
                                      && (at' < s'.configs[c].cron.next(at) ==> Pass(s', c, at', calls') == s'))
  {
  }

  // A pass whose transaction is rolled back changes nothing, whatever it had set in memory.
  lemma RollbackChangesNothing(s: State, c: ConfigID, at: Time, calls: Calls)
    requires c in s.configs && s.configs[c].nextRunAt.Some? && !calls.commits
    ensures Pass(s, c, at, calls) == s
  {
  }

  // A job starts exactly when its instant has come, every earlier one is finished and the calls
  // succeed.
  lemma StartsExactlyWhenDue(s: State, c: ConfigID, at: Time, calls: Calls)
    requires c in s.configs && OneUnfinished(c, s.jobs)
    ensures var config := s.configs[c];
            |Pass(s, c, at, calls).jobs| > |s.jobs| <==>
              && config.cron.Cron? && config.nextRunAt.Some? && config.nextRunAt.value <= at && calls.loads && calls.commits
              && forall i :: 0 <= i < |s.jobs| && s.jobs[i].config == c ==> s.jobs[i].completedAt.Some?
  {
    LatestIsLatest(s.jobs, c);
  }

  // An unscheduled configuration whose latest job is finished is due right after that job's own
  // instant, so a run that was due while nothing was scheduled is caught up with at once.
  lemma ResumesAfterLastRun(s: State, c: ConfigID, at: Time, calls: Calls, i: nat)
    requires Ok(s, 0) && c in s.configs && s.configs[c].cron.Cron? && s.configs[c].nextRunAt.None? && calls.loads && calls.updates
    requires i < |s.jobs| && s.jobs[i].config == c && at >= s.now
    ensures var s' := Pass(s, c, at, calls);
            && c in s'.configs && s'.jobs == s.jobs && s'.configs[c].nextRunAt.Some?
            && s.configs[c].cron.next(s.jobs[i].createdAt) <= s'.configs[c].nextRunAt.value
            && (s.jobs[i].completedAt.Some? && (forall j :: i < j < |s.jobs| ==> s.jobs[j].config != c) ==>
                  s'.configs[c].nextRunAt.value == s.configs[c].cron.next(s.jobs[i].createdAt))
  {
    hide InSequence;
    LatestIsLatest(s.jobs, c);
    PassKeepsConfig(s, c, at, calls, 0, c);
    assert ConfigOk(s, c, 0);
    assert ScheduleOk(Pass(s, c, at, calls).configs[c], c, s.jobs, 0);
  }
}
