// Why a crawl finishes: every committed parse uses up weight, and a job starts with a fixed
// amount of it.
module PipelineProgress {
  import opened Options
  import opened PipelineModel
  import opened TaskStatuses
  import opened PipelineInvariant
  import opened PipelineSteps
  import opened PipelineTheorems

  // ---- sums over finite maps ----

  ghost function Sum<K>(m: map<K, nat>): nat
    decreases |m|
  {
    if m == map[] then 0
    else
      var k :| k in m;
      m[k] + Sum(m - {k})
  }

  lemma {:induction false} SumTakesAny<K>(m: map<K, nat>, k: K)
    requires k in m
    ensures Sum(m) == m[k] + Sum(m - {k})
    decreases |m|
  {
    var j :| j in m && Sum(m) == m[j] + Sum(m - {j});
    if j != k {
      SumTakesAny(m - {j}, k);
      SumTakesAny(m - {k}, j);
      assert m - {j} - {k} == m - {k} - {j};
    }
  }

  lemma SumUpdate<K>(m: map<K, nat>, k: K, v: nat)
    ensures Sum(m[k := v]) == v + Sum(m - {k})
    ensures k in m ==> Sum(m) == m[k] + Sum(m - {k})
    ensures k !in m ==> Sum(m[k := v]) == Sum(m) + v
  {
    SumTakesAny(m[k := v], k);
    assert m[k := v] - {k} == m - {k};
    if k in m { SumTakesAny(m, k); } else { assert m - {k} == m; }
  }

  lemma {:induction false} SumGrows<K>(m: map<K, nat>, m': map<K, nat>)
    requires forall k :: k in m ==> k in m' && m[k] <= m'[k]
    ensures Sum(m) <= Sum(m')
    decreases |m|
  {
    if m != map[] {
      var k :| k in m && Sum(m) == m[k] + Sum(m - {k});
      SumTakesAny(m', k);
      SumGrows(m - {k}, m' - {k});
    }
  }

  // A count for each task, added up over the rows of one job.
  ghost function Counts(rows: map<TaskID, Task>, counts: map<TaskID, nat>, job: JobID): map<TaskID, nat> {
    map id | id in rows :: if rows[id].job == job then Count(counts, id) else 0
  }

  ghost function Repeats(s: State, job: JobID): nat { Sum(Counts(s.tasks, s.repeats, job)) }

  lemma RepeatsGrow(s: State, s': State, job: JobID)
    requires forall id :: id in s.tasks ==> id in s'.tasks && s'.tasks[id].job == s.tasks[id].job
    requires forall id :: id in s.tasks ==> Count(s.repeats, id) <= Count(s'.repeats, id)
    ensures Repeats(s, job) <= Repeats(s', job)
  {
    SumGrows(Counts(s.tasks, s.repeats, job), Counts(s'.tasks, s'.repeats, job));
  }

  // A write that repeats costs its job one repeat more.
  lemma RepeatsWrite(s: State, t: Task, job: JobID)
    requires t.id in s.tasks && s.tasks[t.id].job == t.job
    ensures Repeats(WriteRow(s, t), job) == Repeats(s, job) + if t.job == job && s.tasks[t.id].status == Parsed then 1 else 0
  {
    var s' := WriteRow(s, t);
    var m, m' := Counts(s.tasks, s.repeats, job), Counts(s'.tasks, s'.repeats, job);
    assert m' == m[t.id := m'[t.id]];
    SumUpdate(m, t.id, m'[t.id]);
  }

  // ---- weights ----

  // 1 + K + ... + K^levels.
  function Weight(K: nat, levels: nat): nat
    decreases levels
  {
    if levels == 0 then 1 else 1 + K * Weight(K, levels - 1)
  }

  lemma {:induction false} WeightGrows(K: nat, a: nat, b: nat)
    requires a <= b
    ensures 1 <= Weight(K, a) && (K >= 1 ==> Weight(K, a) <= Weight(K, b)) && Weight(K, a) <= Weight(K, b)
    decreases b
  {
    if a > 0 {
      WeightGrows(K, a - 1, b - 1);
      assert K * Weight(K, a - 1) <= K * Weight(K, b - 1);
    } else if b > 0 {
      assert K * Weight(K, b - 1) >= 0;
    }
  }

  // The weight of a row towards its job: what it and its possible descendants may still cost.
  ghost function RowWeight(c: Config, K: nat, job: JobID, t: Task): nat {
    if t.job == job && t.status != Parsed && t.depth <= c.maxDepth then Weight(K, c.maxDepth - t.depth) else 0
  }

  ghost function Weights(rows: map<TaskID, Task>, c: Config, K: nat, job: JobID): map<TaskID, nat> {
    map id | id in rows :: RowWeight(c, K, job, rows[id])
  }

  ghost function Potential(rows: map<TaskID, Task>, c: Config, K: nat, job: JobID): nat {
    Sum(Weights(rows, c, K, job))
  }

  lemma PotentialUpdate(rows: map<TaskID, Task>, c: Config, K: nat, job: JobID, t: Task)
    ensures var p, p' := Potential(rows, c, K, job), Potential(rows[t.id := t], c, K, job);
            p' + (if t.id in rows then RowWeight(c, K, job, rows[t.id]) else 0) == p + RowWeight(c, K, job, t)
  {
    var m := Weights(rows, c, K, job);
    SumUpdate(m, t.id, RowWeight(c, K, job, t));
    assert Weights(rows[t.id := t], c, K, job) == m[t.id := RowWeight(c, K, job, t)];
  }

  // Inserting rows of one level adds their number times the weight of that level.
  lemma {:induction false} PotentialInsert(rows: map<TaskID, Task>, ts: seq<Task>, c: Config, K: nat, job: JobID, w: nat)
    requires FreshIDs(rows, ts)
    requires forall t :: t in ts ==> RowWeight(c, K, job, t) <= w
    ensures var (rows', inserted) := BulkInsert(rows, ts);
            Potential(rows', c, K, job) <= Potential(rows, c, K, job) + |inserted| * w
  {
    if ts != [] {
      var n := |ts| - 1;
      PotentialInsert(rows, ts[..n], c, K, job, w);
      BulkInsertInserts(rows, ts[..n]);
      var (rows1, inserted1) := BulkInsert(rows, ts[..n]);
      FreshAfterInsert(rows, ts, rows1, inserted1);
      hide Potential, RowWeight, FreshIDs, Inserted;
      PotentialUpdate(rows1, c, K, job, ts[n]);
      assert ts[n] in ts;
      OneMore(|inserted1|, w);
    }
  }

  lemma OneMore(n: nat, w: nat)
    ensures (n + 1) * w == n * w + w
  {
  }

  // ---- the budget of a job ----

  // Committed parses so far, plus what is left to spend, against one full tree for every seed
  // and for every write that touched a row already parsed.
  ghost predicate WithinBudget(s: State, K: nat, job: JobID) {
    job in s.jobs ==>
      var c := s.jobs[job];
      Count(s.parses, job) + Potential(s.tasks, c, K, job) <= (|c.seeds| + Repeats(s, job)) * Weight(K, c.maxDepth)
  }

  ghost predicate NoHistory(s: State, job: JobID) {
    job !in s.jobs ==> Count(s.parses, job) == 0
  }

  // Every committed parse of the run inserts at most K new tasks.
  ghost predicate Yields(K: nat, s: State, l: Label)
    requires Enabled(s, l)
  {
    l.ParseCommits? ==> |Apply(s, l).flights[l.f].parse.todo| <= K
  }

  ghost predicate YieldsThroughout(K: nat, s: State, ls: seq<Label>)
    requires ValidRun(s, ls)
    decreases |ls|
  {
    ls != [] ==> Yields(K, s, ls[0]) && YieldsThroughout(K, Apply(s, ls[0]), ls[1..])
  }

  // A write of a row costs at most one full tree, and only if the row was already parsed.
  lemma WriteWithinBudget(s: State, t: Task, K: nat, job: JobID)
    requires RowOk(s, t) && s.tasks[t.id].id == t.id && t.status != Parsed
    requires WithinBudget(s, K, job)
    ensures WithinBudget(WriteRow(s, t), K, job)
  {
    if job in s.jobs {
      var c := s.jobs[job];
      WeightOfCopy(s, t, K, job);
      RepeatsWrite(s, t, job);
      hide Potential, RowWeight, RowOk, Weight, Repeats;
      PotentialUpdate(s.tasks, c, K, job, t);
      OneMore(|c.seeds| + Repeats(s, job), Weight(K, c.maxDepth));
    }
  }

  // An unparsed copy weighs as much as the row it replaces, unless that was parsed.
  lemma WeightOfCopy(s: State, t: Task, K: nat, job: JobID)
    requires RowOk(s, t) && job in s.jobs && t.status != Parsed
    ensures var c := s.jobs[job];
            && RowWeight(c, K, job, t) <= Weight(K, c.maxDepth)
            && (s.tasks[t.id].status != Parsed || t.job != job ==> RowWeight(c, K, job, t) == RowWeight(c, K, job, s.tasks[t.id]))
  {
    var c := s.jobs[job];
    if t.depth <= c.maxDepth { WeightGrows(K, c.maxDepth - t.depth, c.maxDepth); }
    else { WeightGrows(K, 0, c.maxDepth); }
  }

  // ---- job creation ----

  lemma {:induction false} SumOfZeros<K>(m: map<K, nat>)
    requires forall k :: k in m ==> m[k] == 0
    ensures Sum(m) == 0
    decreases |m|
  {
    if m != map[] {
      var k :| k in m && Sum(m) == m[k] + Sum(m - {k});
      SumOfZeros(m - {k});
    }
  }

  lemma NoRowsNoPotential(s: State, c: Config, K: nat, job: JobID)
    requires Invariant(s) && job !in s.jobs
    ensures Potential(s.tasks, c, K, job) == 0
  {
    hide Invariant;
    forall id | id in s.tasks ensures RowWeight(c, K, job, s.tasks[id]) == 0 { RowIsOk(s, id); }
    SumOfZeros(Weights(s.tasks, c, K, job));
  }

  lemma SeedPotential(rows: map<TaskID, Task>, job: JobID, config: Config, ids: seq<TaskID>, c: Config, K: nat, of: JobID)
    requires |ids| == |config.seeds| && FreshIDs(rows, SeedTasks(job, config, ids))
    ensures var rows' := BulkInsert(rows, SeedTasks(job, config, ids)).0;
            Potential(rows', c, K, of) <= Potential(rows, c, K, of) + if of == job then |config.seeds| * Weight(K, c.maxDepth) else 0
  {
    var ts := SeedTasks(job, config, ids);
    var w := if of == job then Weight(K, c.maxDepth) else 0;
    PotentialInsert(rows, ts, c, K, of, w);
    InsertedAtMost(rows, ts);
    Times(|BulkInsert(rows, ts).1|, |ts|, w);
  }

  lemma NewJobWithinBudget(s: State, l: Label, K: nat, job: JobID)
    requires Invariant(s) && l.CreateJob? && Enabled(s, l)
    requires WithinBudget(s, K, job) && NoHistory(s, job)
    ensures WithinBudget(Apply(s, l), K, job)
  {
    hide Invariant, Potential, Repeats, BulkInsert, FreshIDs, SeedTasks, SeedEvents, InsertedOrigins, Weight;
    InsertedRepeats(s, Apply(s, l), SeedTasks(l.job, l.config, l.taskIDs), job);
    if job == l.job {
      NoRowsNoPotential(s, l.config, K, job);
      SeedPotential(s.tasks, l.job, l.config, l.taskIDs, l.config, K, job);
      Times(|l.config.seeds|, |l.config.seeds| + Repeats(Apply(s, l), job), Weight(K, l.config.maxDepth));
    } else if job in s.jobs {
      SeedPotential(s.tasks, l.job, l.config, l.taskIDs, s.jobs[job], K, job);
      Times(|s.jobs[job].seeds| + Repeats(s, job), |s.jobs[job].seeds| + Repeats(Apply(s, l), job), Weight(K, s.jobs[job].maxDepth));
    }
  }

  lemma InsertedRepeats(s: State, s': State, ts: seq<Task>, job: JobID)
    requires FreshIDs(s.tasks, ts) && s'.tasks == BulkInsert(s.tasks, ts).0 && s'.repeats == s.repeats
    ensures Repeats(s, job) <= Repeats(s', job)
  {
    hide BulkInsert, Repeats, FreshIDs;
    BulkInsertInserts(s.tasks, ts);
    RepeatsGrow(s, s', job);
  }

  lemma Times(a: nat, b: nat, w: nat)
    requires a <= b
    ensures a * w <= b * w
  {
  }

  lemma {:induction false} InsertedAtMost(rows: map<TaskID, Task>, ts: seq<Task>)
    ensures |BulkInsert(rows, ts).1| <= |ts|
  {
    if ts != [] { InsertedAtMost(rows, ts[..|ts| - 1]); }
  }

  // ---- a committed parse ----

  ghost function ChildWeight(c: Config, K: nat, job: JobID, t: Task): nat {
    if t.job == job && t.depth < c.maxDepth then Weight(K, c.maxDepth - t.depth - 1) else 0
  }

  lemma ChildrenWeigh(s: State, t: Task, v: Visit, children: seq<Task>, K: nat, job: JobID)
    requires RowOk(s, t) && ChildrenOk(s, t, v, children) && job in s.jobs
    ensures forall c :: c in children ==> RowWeight(s.jobs[job], K, job, c) <= ChildWeight(s.jobs[job], K, job, t)
    ensures children != [] ==> t.depth < s.jobs[t.job].maxDepth
  {
    forall c | c in children ensures RowWeight(s.jobs[job], K, job, c) <= ChildWeight(s.jobs[job], K, job, t) {
      assert ChildOk(s, t, v, c);
    }
    if children != [] { assert ChildOk(s, t, v, children[0]); }
  }

  // One parse and its at most K children cost no more than the full weight of the parsed row.
  lemma ParseCost(c: Config, K: nat, job: JobID, t: Task, n: nat)
    requires t.job == job && t.depth <= c.maxDepth && n <= K && (n > 0 ==> t.depth < c.maxDepth)
    ensures 1 + n * ChildWeight(c, K, job, t) <= Weight(K, c.maxDepth - t.depth) <= Weight(K, c.maxDepth)
  {
    WeightGrows(K, c.maxDepth - t.depth, c.maxDepth);
    if t.depth < c.maxDepth { Times(n, K, ChildWeight(c, K, job, t)); }
  }

  lemma RowParsedPotential(s: State, t: Task, K: nat, job: JobID)
    requires RowOk(s, t) && job in s.jobs
    ensures var c, s1, row := s.jobs[job], RowParsed(s, t), s.tasks[t.id];
            && Potential(s1.tasks, c, K, job) + RowWeight(c, K, job, row) == Potential(s.tasks, c, K, job)
            && (t.job == job && row.status != Parsed ==> RowWeight(c, K, job, row) == Weight(K, c.maxDepth - t.depth))
            && (t.job != job || row.status == Parsed ==> RowWeight(c, K, job, row) == 0)
  {
    PotentialUpdate(s.tasks, s.jobs[job], K, job, MarkAsParsed(t, ResultKey(t.id)));
  }

  lemma CommitCounts(s: State, f: FlightID, job: JobID, s': State)
    requires Invariant(s) && Enabled(s, ParseCommits(f)) && s' == Apply(s, ParseCommits(f))
    ensures var t, p := s.flights[f].task, s.flights[f].parse;
            && RowOk(s, t) && s'.jobs == s.jobs
            && s'.flights == s.flights[f := Parsing(t, Dispatching(BulkInsert(RowParsed(s, t).tasks, p.children).1))]
            && s'.tasks == BulkInsert(RowParsed(s, t).tasks, p.children).0
            && Count(s'.parses, job) == Count(s.parses, job) + (if t.job == job then 1 else 0)
            && s'.repeats == RowParsed(s, t).repeats
  {
    hide Invariant, BulkInsert, FreshIDs, InsertedOrigins, Apply, ChosenLinks;
    FlightIsOk(s, f);
    RowIsInTable(s, s.flights[f].task);
    CommitTakenApart(s, f);
  }

  lemma CommitRepeats(s: State, f: FlightID, job: JobID, s': State)
    requires Invariant(s) && Enabled(s, ParseCommits(f)) && s' == Apply(s, ParseCommits(f))
    ensures var t := s.flights[f].task;
            t.id in s.tasks
            && Repeats(s', job) >= Repeats(s, job) + if t.job == job && s.tasks[t.id].status == Parsed then 1 else 0
  {
    hide Invariant, BulkInsert, FreshIDs, Apply, Repeats, RowOk, WriteRow;
    var t, p := s.flights[f].task, s.flights[f].parse;
    CommitCounts(s, f, job, s');
    RowIsInTable(s, t);
    RepeatsWrite(s, MarkAsParsed(t, ResultKey(t.id)), job);
    RowParsedKeys(s, t);
    FreshAfterWrite(s, RowParsed(s, t), t, p.children);
    InsertedRepeats(RowParsed(s, t), s', p.children, job);
  }

  lemma RowParsedKeys(s: State, t: Task)
    ensures RowParsed(s, t).tasks.Keys == s.tasks.Keys + {t.id}
  {
  }

  lemma CommitPotential(s: State, f: FlightID, K: nat, job: JobID, s': State)
    requires Invariant(s) && Enabled(s, ParseCommits(f)) && s' == Apply(s, ParseCommits(f)) && job in s.jobs
    ensures IsParsing(s', f) && s'.flights[f].parse.Dispatching?
    ensures var t, c := s.flights[f].task, s.jobs[job];
            var n := |s'.flights[f].parse.todo|;
            && RowOk(s, t)
            && s'.jobs == s.jobs
            && (n > 0 ==> t.depth < s.jobs[t.job].maxDepth)
            && Potential(s'.tasks, c, K, job) + RowWeight(c, K, job, s.tasks[t.id])
               <= Potential(s.tasks, c, K, job) + n * ChildWeight(c, K, job, t)
            && Count(s'.parses, job) == Count(s.parses, job) + (if t.job == job then 1 else 0)
  {
    hide Invariant, RowOk, ChildrenOk, BulkInsert, Potential, RowWeight, ChildWeight, FreshIDs, Apply, Count;
    var t, p := s.flights[f].task, s.flights[f].parse;
    FlightIsOk(s, f);
    RowIsInTable(s, t);
    CommitCounts(s, f, job, s');
    FreshAfterWrite(s, RowParsed(s, t), t, p.children);
    ChildrenWeigh(s, t, p.visit, p.children, K, job);
    RowParsedPotential(s, t, K, job);
    PotentialInsert(RowParsed(s, t).tasks, p.children, s.jobs[job], K, job, ChildWeight(s.jobs[job], K, job, t));
    InsertedAtMost(RowParsed(s, t).tasks, p.children);
  }

  // A committed parse of a row not yet parsed strictly lowers the potential of its job.
  lemma ParseLowersPotential(s: State, f: FlightID, K: nat)
    requires Invariant(s) && Enabled(s, ParseCommits(f)) && Yields(K, s, ParseCommits(f))
    requires s.flights[f].task.id in s.tasks && s.tasks[s.flights[f].task.id].status != Parsed
    ensures var job := s.flights[f].task.job;
            job in s.jobs && Potential(Apply(s, ParseCommits(f)).tasks, s.jobs[job], K, job) < Potential(s.tasks, s.jobs[job], K, job)
  {
    hide Invariant, Apply, Potential;
    var s' := Apply(s, ParseCommits(f));
    var t := s.flights[f].task;
    FlightIsOk(s, f);
    RowDepth(s, t);
    CommitPotential(s, f, K, t.job, s');
    RowParsedPotential(s, t, K, t.job);
    hide ChildWeight, RowWeight, Weight, RowOk;
    ParseCost(s.jobs[t.job], K, t.job, t, |s'.flights[f].parse.todo|);
  }

  lemma SpendOrRepeat(parses: nat, p: nat, p': nat, row: nat, cost: nat, full: nat, n: nat, n': nat, repeated: bool)
    requires parses + p <= n * full && cost <= full && p' + row + 1 <= p + cost
    requires if repeated then row == 0 && n' >= n + 1 else row >= cost && n' >= n
    ensures parses + 1 + p' <= n' * full
  {
    OneMore(n, full);
    Times(if repeated then n + 1 else n, n', full);
  }

  lemma CommitWithinBudget(s: State, f: FlightID, K: nat, job: JobID)
    requires Invariant(s) && Enabled(s, ParseCommits(f)) && Yields(K, s, ParseCommits(f))
    requires WithinBudget(s, K, job)
    ensures WithinBudget(Apply(s, ParseCommits(f)), K, job)
  {
    hide Invariant, Apply, Potential, Repeats, ChildWeight, RowWeight, Weight, RowOk, FreshIDs;
    var s' := Apply(s, ParseCommits(f));
    CommitJobs(s, f);
    if job in s.jobs {
      var t, c := s.flights[f].task, s.jobs[job];
      CommitRepeats(s, f, job, s');
      CommitPotential(s, f, K, job, s');
      RowParsedPotential(s, t, K, job);
      if t.job == job {
        RowDepth(s, t);
        RowIsInTable(s, t);
        var n := |s'.flights[f].parse.todo|;
        ParseCost(c, K, job, t, n);
        SpendOrRepeat(Count(s.parses, job), Potential(s.tasks, c, K, job), Potential(s'.tasks, c, K, job),
                      RowWeight(c, K, job, s.tasks[t.id]), 1 + n * ChildWeight(c, K, job, t), Weight(K, c.maxDepth),
                      |c.seeds| + Repeats(s, job), |c.seeds| + Repeats(s', job), s.tasks[t.id].status == Parsed);
      } else {
        OtherJobWeighsNothing(c, K, job, t);
        Times(|c.seeds| + Repeats(s, job), |c.seeds| + Repeats(s', job), Weight(K, c.maxDepth));
      }
    }
  }

  lemma OtherJobWeighsNothing(c: Config, K: nat, job: JobID, t: Task)
    requires t.job != job
    ensures ChildWeight(c, K, job, t) == 0
  {
  }

  lemma RowDepth(s: State, t: Task)
    requires RowOk(s, t)
    ensures t.job in s.jobs && t.depth <= s.jobs[t.job].maxDepth
  {
  }

  lemma CommitJobs(s: State, f: FlightID)
    requires Enabled(s, ParseCommits(f))
    ensures Apply(s, ParseCommits(f)).jobs == s.jobs
  {
  }

  // ---- every step, every run ----

  lemma FailWithinBudget(s: State, f: FlightID, reason: string, K: nat, job: JobID)
    requires Invariant(s) && f in s.flights && (s.flights[f].Fetching? || s.flights[f].Parsing?) && WithinBudget(s, K, job)
    ensures WithinBudget(WriteRow(s, MarkAsFailed(s.flights[f].task, reason)), K, job)
  {
    hide Invariant, RowOk, WithinBudget;
    FailedRowOk(s, f, reason);
    var t := MarkAsFailed(s.flights[f].task, reason);
    RowIsInTable(s, t);
    RowIsOk(s, t.id);
    WriteWithinBudget(s, t, K, job);
  }

  lemma SaveWithinBudget(s: State, f: FlightID, K: nat, job: JobID)
    requires Invariant(s) && Enabled(s, FetchSaves(f)) && WithinBudget(s, K, job)
    ensures WithinBudget(Apply(s, FetchSaves(f)), K, job)
  {
    hide Invariant;
    FlightIsOk(s, f);
    var t := s.flights[f].task;
    var t' := MarkAsFetched(t, s.flights[f].fetch.finalURL, PageKey(t.job, t.id));
    RowIsOk(s, t.id);
    hide RowOk, WithinBudget;
    FetchedRowOk(s, f);
    WriteWithinBudget(s, t', K, job);
    BudgetReads(WriteRow(s, t'), Apply(s, FetchSaves(f)), K, job);
  }

  lemma FetchedRowOk(s: State, f: FlightID)
    requires FlightAndPage(s, f)
    ensures var t := s.flights[f].task; RowOk(s, MarkAsFetched(t, s.flights[f].fetch.finalURL, PageKey(t.job, t.id)))
  {
  }

  ghost predicate FlightAndPage(s: State, f: FlightID) {
    IsFetching(s, f) && s.flights[f].fetch.PageStored? && FlightOk(s, s.flights[f])
  }

  lemma BudgetReads(s: State, s': State, K: nat, job: JobID)
    requires s'.jobs == s.jobs && s'.tasks == s.tasks && s'.parses == s.parses && s'.repeats == s.repeats
    ensures WithinBudget(s, K, job) ==> WithinBudget(s', K, job)
    ensures NoHistory(s, job) ==> NoHistory(s', job)
  {
  }

  predicate WritesRow(l: Label) {
    l.FetchRejects? || l.FetchFails? || l.FetchSaves? || l.ParseFails? || l.ParseRollsBack? || l.ParseCommits?
  }

  lemma QuietSteps(s: State, l: Label, K: nat, job: JobID)
    requires Enabled(s, l) && !WritesRow(l) && !l.CreateJob?
    ensures WithinBudget(s, K, job) ==> WithinBudget(Apply(s, l), K, job)
    ensures NoHistory(s, job) ==> NoHistory(Apply(s, l), job)
  {
    hide Prepares, ChosenLinks, FreshIDs, WithinBudget;
    BudgetReads(s, Apply(s, l), K, job);
  }

  lemma FailingSteps(s: State, l: Label, K: nat, job: JobID)
    requires Invariant(s) && Enabled(s, l) && (l.FetchRejects? || l.FetchFails? || l.ParseFails? || l.ParseRollsBack?)
    requires WithinBudget(s, K, job)
    ensures WithinBudget(Apply(s, l), K, job)
  {
    hide Invariant, WithinBudget, FreshIDs;
    FailWithinBudget(s, l.f, l.reason, K, job);
    BudgetReads(WriteRow(s, MarkAsFailed(s.flights[l.f].task, l.reason)), Apply(s, l), K, job);
  }

  lemma StepWithinBudget(s: State, l: Label, K: nat, job: JobID)
    requires Invariant(s) && Enabled(s, l) && Yields(K, s, l)
    requires WithinBudget(s, K, job) && NoHistory(s, job)
    ensures WithinBudget(Apply(s, l), K, job)
  {
    hide Invariant, WithinBudget, NoHistory, Apply, Enabled;
    if l.CreateJob? { NewJobWithinBudget(s, l, K, job); }
    else if l.ParseCommits? { CommitWithinBudget(s, l.f, K, job); }
    else if l.FetchSaves? { SaveWithinBudget(s, l.f, K, job); }
    else if WritesRow(l) { FailingSteps(s, l, K, job); }
    else { QuietSteps(s, l, K, job); }
  }

  lemma CommitKeepsNoHistory(s: State, f: FlightID, job: JobID)
    requires Invariant(s) && Enabled(s, ParseCommits(f)) && NoHistory(s, job)
    ensures NoHistory(Apply(s, ParseCommits(f)), job)
  {
    hide Invariant, BulkInsert, Apply, Count, RowParsed, FreshIDs;
    CommitCounts(s, f, job, Apply(s, ParseCommits(f)));
    assert RowOk(s, s.flights[f].task);
  }

  lemma WritesKeepNoHistory(s: State, l: Label, job: JobID)
    requires Invariant(s) && Enabled(s, l) && NoHistory(s, job) && WritesRow(l) && !l.ParseCommits?
    ensures NoHistory(Apply(s, l), job)
  {
    hide Invariant, BulkInsert, InsertedOrigins, Prepares, ChosenLinks, FreshIDs, RowOk, CommitStep;
    FlightIsOk(s, l.f);
    RowIsInTable(s, s.flights[l.f].task);
  }

  lemma NewJobKeepsNoHistory(s: State, l: Label, job: JobID)
    requires l.CreateJob? && Enabled(s, l) && NoHistory(s, job)
    ensures NoHistory(Apply(s, l), job)
  {
  }

  lemma StepKeepsNoHistory(s: State, l: Label, job: JobID)
    requires Invariant(s) && Enabled(s, l) && NoHistory(s, job)
    ensures NoHistory(Apply(s, l), job)
  {
    hide Invariant, Apply, Enabled;
    if l.CreateJob? { NewJobKeepsNoHistory(s, l, job); }
    else if l.ParseCommits? { CommitKeepsNoHistory(s, l.f, job); }
    else if WritesRow(l) { WritesKeepNoHistory(s, l, job); }
    else { QuietSteps(s, l, 0, job); }
  }

  lemma {:induction false} BudgetAlways(s: State, ls: seq<Label>, K: nat, job: JobID)
    requires Invariant(s) && ValidRun(s, ls) && YieldsThroughout(K, s, ls)
    requires WithinBudget(s, K, job) && NoHistory(s, job)
    ensures WithinBudget(Outcome(s, ls), K, job)
    decreases |ls|
  {
    if ls != [] {
      hide Invariant, WithinBudget, NoHistory, Enabled, Apply;
      StepKeeps(s, ls[0]);
      StepWithinBudget(s, ls[0], K, job);
      StepKeepsNoHistory(s, ls[0], job);
      BudgetAlways(Apply(s, ls[0]), ls[1..], K, job);
    }
  }

  lemma NothingYet(K: nat, job: JobID)
    ensures Invariant(EMPTY) && WithinBudget(EMPTY, K, job) && NoHistory(EMPTY, job)
  {
  }

  lemma BoundedByRepeats(ls: seq<Label>, K: nat, job: JobID)
    requires ValidRun(EMPTY, ls) && YieldsThroughout(K, EMPTY, ls)
    requires job in Outcome(EMPTY, ls).jobs
    ensures var s := Outcome(EMPTY, ls);
            var c := s.jobs[job];
            Count(s.parses, job) <= (|c.seeds| + Repeats(s, job)) * Weight(K, c.maxDepth)
  {
    hide Invariant, Enabled, Apply, Potential;
    NothingYet(K, job);
    BudgetAlways(EMPTY, ls, K, job);
  }
}
