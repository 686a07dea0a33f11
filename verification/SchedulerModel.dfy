// Scheduled jobs: the configurations with their schedules, and the job table. Time only moves
// forward, one scheduler loop runs, and the export worker completes jobs at any time.
module SchedulerModel {
  import opened Clock
  import opened Options

  datatype ConfigID = ConfigID(text: string)

  // next gives the first instant after a given one at which the expression fires.
  datatype Cron = Blank | Malformed | Cron(next: Time -> Time)

  datatype JobConfig = JobConfig(cron: Cron, lastRunAt: Option<Time>, nextRunAt: Option<Time>)
  datatype Job = Job(config: ConfigID, createdAt: Time, completedAt: Option<Time>)

  // jobs are in the order of their creation; now is the latest instant any clock has shown.
  datatype State = State(configs: map<ConfigID, JobConfig>, jobs: seq<Job>, now: Time)

  // What the repository calls of one pass over a configuration come back with.
  datatype Calls = Calls(loads: bool, updates: bool, commits: bool)

  datatype Event =
    | Tick(config: ConfigID, at: Time, calls: Calls)
    | Completed(job: nat, at: Time)

  // ORDER BY created_at DESC LIMIT 1; on a tie the later row. None when there is no row.
  function LatestIndex(jobs: seq<Job>, c: ConfigID): (k: Option<nat>)
    ensures k.Some? ==> k.value < |jobs|
  {
    if jobs == [] then None
    else
      var n := |jobs| - 1;
      var k := LatestIndex(jobs[..n], c);
      if jobs[n].config == c && (k.None? || jobs[k.value].createdAt <= jobs[n].createdAt) then Some(n) else k
  }

  function Latest(jobs: seq<Job>, c: ConfigID): Option<Job> {
    var k := LatestIndex(jobs, c);
    if k.Some? then Some(jobs[k.value]) else None
  }

  function Pass(s: State, c: ConfigID, at: Time, calls: Calls): State
    requires c in s.configs
  {
    var config := s.configs[c];
    if !config.cron.Cron? then s
    else if config.nextRunAt.None? then
      if !calls.loads || !calls.updates then s
      else
        var last := Latest(s.jobs, c);
        var lastRunAt := if last.Some? && last.value.completedAt.Some? then Some(last.value.createdAt) else config.lastRunAt;
        var base := if lastRunAt.Some? then lastRunAt.value else at;
        s.(configs := s.configs[c := config.(lastRunAt := lastRunAt, nextRunAt := Some(config.cron.next(base)))])
    else if config.nextRunAt.value > at || !calls.loads then s
    else
      var last := Latest(s.jobs, c);
      if last.Some? && last.value.completedAt.None? then s
      else if !calls.commits then s
      else s.(configs := s.configs[c := config.(lastRunAt := Some(at), nextRunAt := Some(config.cron.next(at)))],
              jobs := s.jobs + [Job(c, at, None)])
  }

  // Clocks do not run backwards, and events name what exists.
  predicate Possible(s: State, e: Event) {
    && e.at >= s.now
    && match e
       case Tick(c, _, _) => c in s.configs
       case Completed(j, _) => j < |s.jobs|
  }

  function Step(s: State, e: Event): State
    requires Possible(s, e)
  {
    match e
    case Tick(c, at, calls) => Pass(s, c, at, calls).(now := at)
    case Completed(j, at) => s.(jobs := s.jobs[j := s.jobs[j].(completedAt := Some(at))], now := at)
  }

  predicate ValidRun(s: State, es: seq<Event>)
    decreases |es|
  {
    es != [] ==> Possible(s, es[0]) && ValidRun(Step(s, es[0]), es[1..])
  }

  function Run(s: State, es: seq<Event>): State
    requires ValidRun(s, es)
    decreases |es|
  {
    if es == [] then s else Run(Step(s, es[0]), es[1..])
  }
}
