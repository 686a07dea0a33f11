// How often a row already parsed is written again: no more often than a message of its task is
// delivered again. This turns the budget of a job into a bound in terms of deliveries.
module PipelineDeliveries {
  import opened Options
  import opened PipelineModel
  import opened TaskStatuses
  import opened PipelineInvariant
  import opened PipelineSteps
  import opened PipelineTheorems
  import opened PipelineProgress

  // ---- deliveries of a run ----

  // A crawl message of the task reaches a fetch handler that loads its row.
  function ToFetch(l: Label, id: TaskID): nat { if l.FetchLoads? && l.message.task == id then 1 else 0 }

  // A parsing message of the task reaches a parse handler that gets past its guard.
  function ToParse(l: Label, id: TaskID): nat { if l.ParseLoads? && l.id == id then 1 else 0 }

  function FetchDeliveries(ls: seq<Label>, id: TaskID): nat {
    if ls == [] then 0 else ToFetch(ls[0], id) + FetchDeliveries(ls[1..], id)
  }

  function ParseDeliveries(ls: seq<Label>, id: TaskID): nat {
    if ls == [] then 0 else ToParse(ls[0], id) + ParseDeliveries(ls[1..], id)
  }

  function BeyondFirst(n: nat): nat { if n == 0 then 0 else n - 1 }

  // The deliveries beyond the first of each kind.
  function Redeliveries(ls: seq<Label>, id: TaskID): nat {
    BeyondFirst(FetchDeliveries(ls, id)) + BeyondFirst(ParseDeliveries(ls, id))
  }

  // ---- the handlers of one task in flight ----

  datatype Kind = AnyFetch | FetchWriter | ParseWriter

  // A writer has not yet written the row, and will do so at most once.
  predicate Is(k: Kind, x: Flight, id: TaskID) {
    match k
    case AnyFetch => x.Fetching? && x.task.id == id
    case FetchWriter => x.Fetching? && x.task.id == id && !x.fetch.FetchSaved?
    case ParseWriter => x.Parsing? && x.task.id == id && !x.parse.Dispatching?
  }

  function Those(flights: map<FlightID, Flight>, k: Kind, id: TaskID): set<FlightID> {
    set f | f in flights && Is(k, flights[f], id)
  }

  function At(flights: map<FlightID, Flight>, f: FlightID, k: Kind, id: TaskID): (n: nat)
    ensures n <= 1
  {
    if f in flights && Is(k, flights[f], id) then 1 else 0
  }

  lemma ThoseChange(flights: map<FlightID, Flight>, flights': map<FlightID, Flight>, f: FlightID, k: Kind, id: TaskID)
    requires flights' - {f} == flights - {f}
    ensures |Those(flights', k, id)| + At(flights, f, k, id) == |Those(flights, k, id)| + At(flights', f, k, id)
  {
    OthersAndOne(flights, f, k, id);
    OthersAndOne(flights', f, k, id);
  }

  lemma OthersAndOne(flights: map<FlightID, Flight>, f: FlightID, k: Kind, id: TaskID)
    ensures |Those(flights, k, id)| == |Those(flights - {f}, k, id)| + At(flights, f, k, id)
  {
    var all, others := Those(flights, k, id), Those(flights - {f}, k, id);
    if At(flights, f, k, id) == 1 {
      assert all == others + {f};
    } else {
      assert all == others;
    }
  }

  lemma WritersAreFetching(flights: map<FlightID, Flight>, id: TaskID)
    ensures |Those(flights, FetchWriter, id)| <= |Those(flights, AnyFetch, id)|
  {
    var some, all := Those(flights, FetchWriter, id), Those(flights, AnyFetch, id);
    assert all == some + (all - some);
  }

  // ---- the account of one task ----

  ghost predicate Announced(s: State, id: TaskID) { exists m :: m in s.parseLog && m.task == id }

  // After f deliveries to fetch handlers and p to parse handlers: the fetch handler that announced
  // the task has landed; nothing is repeated before the first commit; and from then on the writes
  // repeated so far and those still possible fit the deliveries beyond the first.
  ghost predicate Account(s: State, id: TaskID, f: nat, p: nat) {
    var fetching, writing, parsing := |Those(s.flights, AnyFetch, id)|, |Those(s.flights, FetchWriter, id)|, |Those(s.flights, ParseWriter, id)|;
    && fetching + (if Announced(s, id) then 1 else 0) <= f
    && parsing <= p
    && (parsing > 0 ==> Announced(s, id))
    && (id !in s.committed ==> Count(s.repeats, id) == 0)
    && (id in s.committed ==> Announced(s, id) && p >= 1 && Count(s.repeats, id) + writing + parsing <= f - 1 + p - 1)
  }

  // What a step may do to one task: change one flight, and write its row once.
  ghost predicate Moves(s: State, s': State, f: FlightID, id: TaskID, fetches: nat, parses: nat) {
    && s'.flights - {f} == s.flights - {f}
    && (Announced(s, id) ==> Announced(s', id))
    && At(s'.flights, f, AnyFetch, id) + (if Announced(s', id) then 1 else 0)
       <= At(s.flights, f, AnyFetch, id) + (if Announced(s, id) then 1 else 0) + fetches
    && At(s'.flights, f, ParseWriter, id) <= At(s.flights, f, ParseWriter, id) + parses
    && (At(s'.flights, f, ParseWriter, id) == 1 ==> Announced(s', id) || At(s.flights, f, ParseWriter, id) == 1)
    && (id in s.committed ==>
          id in s'.committed
          && Count(s'.repeats, id) + At(s'.flights, f, FetchWriter, id) + At(s'.flights, f, ParseWriter, id)
             <= Count(s.repeats, id) + At(s.flights, f, FetchWriter, id) + At(s.flights, f, ParseWriter, id) + fetches + parses)
    && (id !in s.committed ==> Count(s'.repeats, id) == Count(s.repeats, id))
    && (id in s'.committed && id !in s.committed ==>
          At(s.flights, f, ParseWriter, id) == 1 && At(s'.flights, f, ParseWriter, id) == 0
          && At(s'.flights, f, FetchWriter, id) == At(s.flights, f, FetchWriter, id))
  }

  lemma AccountMoves(s: State, s': State, f: FlightID, id: TaskID, f0: nat, p0: nat, fetches: nat, parses: nat)
    requires Account(s, id, f0, p0) && Moves(s, s', f, id, fetches, parses)
    ensures Account(s', id, f0 + fetches, p0 + parses)
  {
    hide Those, At, Announced, Count;
    ThoseChange(s.flights, s'.flights, f, AnyFetch, id);
    ThoseChange(s.flights, s'.flights, f, FetchWriter, id);
    ThoseChange(s.flights, s'.flights, f, ParseWriter, id);
    WritersAreFetching(s.flights, id);
  }

  // ---- what each step does ----

  lemma WriteEffect(s: State, t: Task, id: TaskID)
    requires Invariant(s)
    ensures var s' := WriteRow(s, t);
            && s'.flights == s.flights && s'.parseLog == s.parseLog && s'.committed == s.committed
            && Count(s.repeats, id) <= Count(s'.repeats, id) <= Count(s.repeats, id) + (if t.id == id then 1 else 0)
            && (id !in s.committed ==> Count(s'.repeats, id) == Count(s.repeats, id))
  {
    hide Invariant;
    if id in s.tasks { RowIsOk(s, id); }
  }

  // A handler that fails its task writes the row and lands.
  lemma FailingMoves(s: State, f: FlightID, t: Task, id: TaskID)
    requires Invariant(s) && f in s.flights && (s.flights[f].Fetching? || s.flights[f].Parsing?)
    requires s.flights[f].Fetching? ==> !s.flights[f].fetch.FetchSaved?
    requires s.flights[f].Parsing? ==> !s.flights[f].parse.Dispatching?
    requires t.id == s.flights[f].task.id
    ensures Moves(s, Land(WriteRow(s, t), f), f, id, 0, 0)
  {
    hide Invariant, WriteRow, Count;
    WriteEffect(s, t, id);
  }

  lemma FetchMoves(s: State, l: Label, id: TaskID)
    requires Invariant(s) && FetchLabel(l) && Enabled(s, l)
    ensures Moves(s, FetchStep(s, l), l.f, id, ToFetch(l, id), 0)
  {
    hide Invariant, WriteRow, Count, Moves, FlightOk;
    match l
    case FetchLoads(f, m) =>
      RowIsOk(s, m.task);
      LoadMoves(s, f, m, id);
    case FetchRejects(f, reason) => FailingMoves(s, f, MarkAsFailed(s.flights[f].task, reason), id);
    case FetchFails(f, reason) => FailingMoves(s, f, MarkAsFailed(s.flights[f].task, reason), id);
    case FetchStores(f, page, finalURL) => StoreMoves(s, l, id);
    case FetchSaves(f) => SaveMoves(s, f, id);
    case FetchPublishes(f) =>
      FlightIsOk(s, f);
      PublishMoves(s, f, id);
  }

  lemma LoadMoves(s: State, f: FlightID, m: CrawlMessage, id: TaskID)
    requires Enabled(s, FetchLoads(f, m)) && s.tasks[m.task].id == m.task
    ensures Moves(s, FetchStep(s, FetchLoads(f, m)), f, id, if m.task == id then 1 else 0, 0)
  {
  }

  lemma StoreMoves(s: State, l: Label, id: TaskID)
    requires l.FetchStores? && Enabled(s, l)
    ensures Moves(s, FetchStep(s, l), l.f, id, 0, 0)
  {
  }

  lemma SaveMoves(s: State, f: FlightID, id: TaskID)
    requires Invariant(s) && Enabled(s, FetchSaves(f))
    ensures Moves(s, FetchStep(s, FetchSaves(f)), f, id, 0, 0)
  {
    hide Invariant, WriteRow, Count;
    var t := s.flights[f].task;
    WriteEffect(s, MarkAsFetched(t, s.flights[f].fetch.finalURL, PageKey(t.job, t.id)), id);
  }

  lemma PublishMoves(s: State, f: FlightID, id: TaskID)
    requires Enabled(s, FetchPublishes(f)) && FlightOk(s, s.flights[f])
    ensures Moves(s, FetchStep(s, FetchPublishes(f)), f, id, 0, 0)
  {
    hide RowOk;
    var s' := FetchStep(s, FetchPublishes(f));
    if Announced(s, id) {
      var m :| m in s.parseLog && m.task == id;
      assert m in s'.parseLog;
    }
  }

  lemma ParseMoves(s: State, l: Label, id: TaskID)
    requires Invariant(s) && ParseLabel(l) && Enabled(s, l)
    ensures Moves(s, ParseStep(s, l), l.f, id, 0, ToParse(l, id))
  {
    hide Invariant, Moves, Enabled, ParseStep, ToParse;
    if l.ParseLoads? {
      ParseLoadMoves(s, l, id);
    } else {
      NoParseDelivery(l, id);
      if l.ParseFails? || l.ParseRollsBack? { ParseFailMoves(s, l, id); }
      else if l.ParseCommits? { CommitMoves(s, l, id); }
      else if l.ParsePrepares? { PrepareMoves(s, l, id); }
      else { StayMoves(s, l, id); }
    }
  }

  lemma NoParseDelivery(l: Label, id: TaskID)
    requires !l.ParseLoads?
    ensures ToParse(l, id) == 0
  {
  }

  lemma ParseFailMoves(s: State, l: Label, id: TaskID)
    requires Invariant(s) && (l.ParseFails? || l.ParseRollsBack?) && Enabled(s, l)
    ensures Moves(s, ParseStep(s, l), l.f, id, 0, 0)
  {
    hide Invariant, WriteRow, Count, Moves;
    FailingMoves(s, l.f, MarkAsFailed(s.flights[l.f].task, l.reason), id);
  }

  lemma ParseLoadMoves(s: State, l: Label, id: TaskID)
    requires Invariant(s) && l.ParseLoads? && Enabled(s, l)
    ensures Moves(s, ParseStep(s, l), l.f, id, 0, ToParse(l, id))
  {
    hide Invariant;
    RowIsOk(s, l.id);
  }

  lemma PrepareMoves(s: State, l: Label, id: TaskID)
    requires l.ParsePrepares? && Enabled(s, l)
    ensures Moves(s, ParseStep(s, l), l.f, id, 0, 0)
  {
    hide Prepares, ChosenLinks;
  }

  lemma StayMoves(s: State, l: Label, id: TaskID)
    requires (l.ParseReads? || l.ParseUploads? || l.ParseDispatches?) && Enabled(s, l)
    ensures Moves(s, ParseStep(s, l), l.f, id, 0, 0)
  {
  }

  lemma CommitMoves(s: State, l: Label, id: TaskID)
    requires Invariant(s) && l.ParseCommits? && Enabled(s, l)
    ensures Moves(s, ParseStep(s, l), l.f, id, 0, 0)
  {
    hide Invariant, WriteRow, Count, BulkInsert, InsertedOrigins, FreshIDs;
    var t := s.flights[l.f].task;
    WriteEffect(s, MarkAsParsed(t, ResultKey(t.id)), id);
  }

  // The flight a step is about; a job is created outside of any.
  function FlightOf(l: Label): FlightID { if l.CreateJob? then FlightID(0) else l.f }

  lemma OutboxMoves(s: State, l: Label, id: TaskID)
    requires OutboxLabel(l) && Enabled(s, l)
    ensures Moves(s, OutboxStep(s, l), l.f, id, 0, 0)
  {
    hide Locked, Announced;
    SameAnnounced(s, OutboxStep(s, l), id);
  }

  lemma RecoveryMoves(s: State, l: Label, id: TaskID)
    requires RecoveryLabel(l) && Enabled(s, l)
    ensures Moves(s, RecoveryStep(s, l), l.f, id, 0, 0)
  {
    hide Announced;
    SameAnnounced(s, RecoveryStep(s, l), id);
  }

  lemma CreateJobMoves(s: State, l: Label, id: TaskID)
    requires l.CreateJob? && Enabled(s, l)
    ensures Moves(s, CreateJobStep(s, l), FlightOf(l), id, 0, 0)
  {
    hide BulkInsert, InsertedOrigins, FreshIDs, SeedTasks, SeedEvents, Announced;
    SameAnnounced(s, CreateJobStep(s, l), id);
  }

  lemma StopMoves(s: State, f: FlightID, id: TaskID)
    requires Enabled(s, Stops(f))
    ensures Moves(s, Land(s, f), f, id, 0, 0)
  {
    hide Announced;
    SameAnnounced(s, Land(s, f), id);
  }

  // All other steps leave the handlers of every task alone, or end one.
  lemma OtherMoves(s: State, l: Label, id: TaskID)
    requires Enabled(s, l) && !FetchLabel(l) && !ParseLabel(l)
    ensures Moves(s, Apply(s, l), FlightOf(l), id, 0, 0)
  {
    hide OutboxStep, RecoveryStep, CreateJobStep, Moves, Enabled;
    if l.CreateJob? { CreateJobMoves(s, l, id); }
    else if OutboxLabel(l) { OutboxMoves(s, l, id); }
    else if RecoveryLabel(l) { RecoveryMoves(s, l, id); }
    else { StopMoves(s, l.f, id); }
  }

  lemma SameAnnounced(s: State, s': State, id: TaskID)
    requires s'.parseLog == s.parseLog
    ensures Announced(s', id) == Announced(s, id)
  {
  }

  lemma AccountStep(s: State, l: Label, id: TaskID, f: nat, p: nat)
    requires Invariant(s) && Enabled(s, l) && Account(s, id, f, p)
    ensures Account(Apply(s, l), id, f + ToFetch(l, id), p + ToParse(l, id))
  {
    hide Invariant, Account, Moves, FetchStep, ParseStep, OutboxStep, RecoveryStep, CreateJobStep, Enabled;
    if FetchLabel(l) {
      FetchMoves(s, l, id);
      AccountMoves(s, Apply(s, l), l.f, id, f, p, ToFetch(l, id), 0);
    } else if ParseLabel(l) {
      ParseMoves(s, l, id);
      AccountMoves(s, Apply(s, l), l.f, id, f, p, 0, ToParse(l, id));
    } else {
      OtherMoves(s, l, id);
      AccountMoves(s, Apply(s, l), FlightOf(l), id, f, p, 0, 0);
    }
  }

  // ---- every run ----

  lemma DeliveriesTakenApart(ls: seq<Label>, id: TaskID)
    ensures FetchDeliveries(ls, id) == if ls == [] then 0 else ToFetch(ls[0], id) + FetchDeliveries(ls[1..], id)
    ensures ParseDeliveries(ls, id) == if ls == [] then 0 else ToParse(ls[0], id) + ParseDeliveries(ls[1..], id)
  {
  }

  lemma {:induction false} AccountAlways(s: State, ls: seq<Label>, id: TaskID, f: nat, p: nat)
    requires Invariant(s) && ValidRun(s, ls) && Account(s, id, f, p)
    ensures Account(Outcome(s, ls), id, f + FetchDeliveries(ls, id), p + ParseDeliveries(ls, id))
    decreases |ls|
  {
    hide Invariant, Extends, Account, Apply, Enabled, ToFetch, ToParse, FetchDeliveries, ParseDeliveries;
    DeliveriesTakenApart(ls, id);
    if ls != [] {
      StepKeeps(s, ls[0]);
      AccountStep(s, ls[0], id, f, p);
      AccountAlways(Apply(s, ls[0]), ls[1..], id, f + ToFetch(ls[0], id), p + ToParse(ls[0], id));
    }
  }

  lemma AccountBounds(s: State, id: TaskID, f: nat, p: nat)
    requires Account(s, id, f, p)
    ensures Count(s.repeats, id) <= BeyondFirst(f) + BeyondFirst(p)
  {
  }

  // On every run a parsed row is written again at most as often as its messages are redelivered.
  lemma RepeatsAreRedeliveries(ls: seq<Label>, id: TaskID)
    requires ValidRun(EMPTY, ls)
    ensures Count(Outcome(EMPTY, ls).repeats, id) <= Redeliveries(ls, id)
  {
    hide Invariant, Account, ValidRun, Outcome, FetchDeliveries, ParseDeliveries, BeyondFirst, Count;
    EmptyIsOk();
    NoAccount(id);
    AccountAlways(EMPTY, ls, id, 0, 0);
    AccountBounds(Outcome(EMPTY, ls), id, FetchDeliveries(ls, id), ParseDeliveries(ls, id));
  }

  lemma NoAccount(id: TaskID)
    ensures Account(EMPTY, id, 0, 0)
  {
    assert Those(map[], AnyFetch, id) == {} && Those(map[], FetchWriter, id) == {} && Those(map[], ParseWriter, id) == {};
  }

  ghost function JobRedeliveries(ls: seq<Label>, rows: map<TaskID, Task>, job: JobID): nat {
    Sum(map id | id in rows :: if rows[id].job == job then Redeliveries(ls, id) else 0)
  }

  lemma RepeatsWithin(ls: seq<Label>, s: State, job: JobID)
    requires forall id :: id in s.tasks ==> Count(s.repeats, id) <= Redeliveries(ls, id)
    ensures Repeats(s, job) <= JobRedeliveries(ls, s.tasks, job)
  {
    hide Redeliveries, Count;
    SumGrows(Counts(s.tasks, s.repeats, job), map id | id in s.tasks :: if s.tasks[id].job == job then Redeliveries(ls, id) else 0);
  }

  lemma JobRepeatsAreRedeliveries(ls: seq<Label>, job: JobID)
    requires ValidRun(EMPTY, ls)
    ensures Repeats(Outcome(EMPTY, ls), job) <= JobRedeliveries(ls, Outcome(EMPTY, ls).tasks, job)
  {
    hide Redeliveries, Count, ValidRun, Outcome, Repeats, JobRedeliveries;
    var s := Outcome(EMPTY, ls);
    forall id | id in s.tasks ensures Count(s.repeats, id) <= Redeliveries(ls, id) {
      RepeatsAreRedeliveries(ls, id);
    }
    RepeatsWithin(ls, s, job);
  }

  // If no page yields more than K new tasks, a job with s seeds has at most
  // (s + redeliveries of its tasks) * (1 + K + ... + K^MaxDepth) committed parses, on every run.
  lemma CrawlIsBounded(ls: seq<Label>, K: nat, job: JobID)
    requires ValidRun(EMPTY, ls) && YieldsThroughout(K, EMPTY, ls)
    requires job in Outcome(EMPTY, ls).jobs
    ensures var s := Outcome(EMPTY, ls);
            var c := s.jobs[job];
            Count(s.parses, job) <= (|c.seeds| + JobRedeliveries(ls, s.tasks, job)) * Weight(K, c.maxDepth)
  {
    hide ValidRun, Outcome, YieldsThroughout, Repeats, JobRedeliveries, Count, Weight;
    var s := Outcome(EMPTY, ls);
    BoundedByRepeats(ls, K, job);
    JobRepeatsAreRedeliveries(ls, job);
    Times(|s.jobs[job].seeds| + Repeats(s, job), |s.jobs[job].seeds| + JobRedeliveries(ls, s.tasks, job), Weight(K, s.jobs[job].maxDepth));
  }

  // No task has two deliveries of a kind.
  ghost predicate NoDuplicates(ls: seq<Label>) {
    && (forall i, j :: 0 <= i < j < |ls| && ls[i].FetchLoads? && ls[j].FetchLoads? ==> ls[i].message.task != ls[j].message.task)
    && (forall i, j :: 0 <= i < j < |ls| && ls[i].ParseLoads? && ls[j].ParseLoads? ==> ls[i].id != ls[j].id)
  }

  // Without duplicate deliveries no parsed row is ever written again, and the crawl of a job ends
  // within one full tree for each seed.
  lemma CrawlWithoutDuplicates(ls: seq<Label>, K: nat, job: JobID)
    requires ValidRun(EMPTY, ls) && YieldsThroughout(K, EMPTY, ls) && NoDuplicates(ls)
    requires job in Outcome(EMPTY, ls).jobs
    ensures var s := Outcome(EMPTY, ls);
            var c := s.jobs[job];
            && Count(s.parses, job) <= |c.seeds| * Weight(K, c.maxDepth)
            && forall id :: Count(s.repeats, id) == 0
  {
    hide ValidRun, Outcome, YieldsThroughout, JobRedeliveries, NoDuplicates, Count, Weight;
    forall id ensures Count(Outcome(EMPTY, ls).repeats, id) == 0 {
      OneDelivery(ls, id);
      RepeatsAreRedeliveries(ls, id);
    }
    NoRedeliveries(ls, Outcome(EMPTY, ls).tasks, job);
    CrawlIsBounded(ls, K, job);
  }

  lemma NoRedeliveries(ls: seq<Label>, rows: map<TaskID, Task>, job: JobID)
    requires NoDuplicates(ls)
    ensures JobRedeliveries(ls, rows, job) == 0
  {
    hide NoDuplicates, FetchDeliveries, ParseDeliveries;
    forall id ensures Redeliveries(ls, id) == 0 { OneDelivery(ls, id); }
    SumOfZeros(map id | id in rows :: if rows[id].job == job then Redeliveries(ls, id) else 0);
  }

  lemma {:induction false} OneDelivery(ls: seq<Label>, id: TaskID)
    requires NoDuplicates(ls)
    ensures FetchDeliveries(ls, id) <= 1 && ParseDeliveries(ls, id) <= 1
    ensures FetchDeliveries(ls, id) == 1 ==> exists i :: 0 <= i < |ls| && ls[i].FetchLoads? && ls[i].message.task == id
    ensures ParseDeliveries(ls, id) == 1 ==> exists i :: 0 <= i < |ls| && ls[i].ParseLoads? && ls[i].id == id
  {
    if ls != [] {
      OneDelivery(ls[1..], id);
      if i :| 0 <= i < |ls| - 1 && ls[1..][i].FetchLoads? && ls[1..][i].message.task == id {
        assert ls[i + 1].FetchLoads? && ls[i + 1].message.task == id;
      }
      if i :| 0 <= i < |ls| - 1 && ls[1..][i].ParseLoads? && ls[1..][i].id == id {
        assert ls[i + 1].ParseLoads? && ls[i + 1].id == id;
      }
    }
  }
}
