// The handlers as they run: each takes its inputs and the outcomes of its calls, goes through
// its branches and loops, and updates the tables, store and queues in place. Every effect is
// recorded as a step, so whatever a handler does is a run of the pipeline, and a crash after
// any effect leaves a state that the run has reached.
module Handlers {
  import opened Options
  import opened PipelineModel
  import opened TaskStatuses
  import opened PipelineInvariant
  import opened PipelineSteps
  import opened PipelineTheorems
  import opened Links

  datatype Tables = Tables(jobs: map<JobID, Config>, tasks: map<TaskID, Task>, outbox: map<EventID, OutboxRow>,
                           store: map<ObjectKey, Object>, crawlLog: seq<CrawlMessage>, parseLog: seq<ParseMessage>)

  ghost function TablesOf(s: State): Tables {
    Tables(s.jobs, s.tasks, s.outbox, s.store, s.crawlLog, s.parseLog)
  }

  lemma {:induction false} RunGrows(s: State, ls: seq<Label>, l: Label)
    requires ValidRun(s, ls) && Enabled(Outcome(s, ls), l)
    ensures ValidRun(s, ls + [l]) && Outcome(s, ls + [l]) == Apply(Outcome(s, ls), l)
    decreases |ls|
  {
    hide Enabled, Apply;
    if ls == [] {
      assert [] + [l] == [l];
      assert [l][1..] == [];
    } else {
      RunGrows(Apply(s, ls[0]), ls[1..], l);
      assert (ls + [l])[1..] == ls[1..] + [l];
    }
  }

  class World {
    var jobs: map<JobID, Config>
    var tasks: map<TaskID, Task>
    var outbox: map<EventID, OutboxRow>
    var store: map<ObjectKey, Object>
    var crawlQueue: seq<CrawlMessage>
    var parseQueue: seq<ParseMessage>
    ghost var flights: map<FlightID, Flight>
    ghost var origin: map<TaskID, Origin>
    ghost var committed: map<TaskID, Visit>
    ghost var parses: map<JobID, nat>
    ghost var repeats: map<TaskID, nat>
    ghost var found: set<Found>
    ghost var trace: seq<Label>

    ghost function Abs(): State
      reads this
    {
      State(jobs, tasks, outbox, store, crawlQueue, parseQueue, flights, origin, committed, parses, repeats, found)
    }

    ghost function AbsTables(): Tables
      reads this
    {
      Tables(jobs, tasks, outbox, store, crawlQueue, parseQueue)
    }

    // The state is the outcome of the recorded run from the empty state.
    ghost predicate Valid()
      reads this
    {
      ValidRun(EMPTY, trace) && Outcome(EMPTY, trace) == Abs()
    }

    lemma RowsAreKeyed(id: TaskID)
      requires Valid() && id in tasks
      ensures tasks[id].id == id
    {
      hide Invariant, Apply, Enabled;
      InvariantAlways(EMPTY, trace);
      RowIsOk(Abs(), id);
    }

    lemma UrlsAreUnique()
      requires Valid()
      ensures UniqueUrls(tasks)
    {
      hide Apply, Enabled;
      InvariantAlways(EMPTY, trace);
    }

    lemma NewJobsHaveNoRows(job: JobID)
      requires Valid() && job !in jobs
      ensures forall url :: !HasUrl(tasks, job, url)
    {
      hide Invariant, Apply, Enabled, HasUrl;
      InvariantAlways(EMPTY, trace);
      forall url ensures !HasUrl(tasks, job, url) { NewJobHasNoRows(Abs(), job, url); }
    }

    constructor ()
      ensures Valid() && Abs() == EMPTY && trace == []
    {
      jobs, tasks, outbox, store, crawlQueue, parseQueue := map[], map[], map[], map[], [], [];
      flights, origin, committed, parses, repeats, found := map[], map[], map[], map[], map[], {};
      trace := [];
    }

    ghost method Took(before: State, l: Label)
      requires ValidRun(EMPTY, trace) && Outcome(EMPTY, trace) == before && Enabled(before, l)
      requires TablesOf(Apply(before, l)) == AbsTables()
      modifies this`flights, this`origin, this`committed, this`parses, this`repeats, this`found, this`trace
      ensures Valid() && Abs() == Apply(before, l) && trace == old(trace) + [l]
    {
      hide Apply, Enabled;
      RunGrows(EMPTY, trace, l);
      var s := Apply(before, l);
      flights, origin, committed, parses, repeats, found := s.flights, s.origin, s.committed, s.parses, s.repeats, s.found;
      trace := trace + [l];
    }

    // A step that touches no table: reading a row, or the handler coming to its end.
    ghost method Goes(l: Label)
      requires Valid() && Enabled(Abs(), l) && TablesOf(Apply(Abs(), l)) == AbsTables()
      modifies this`flights, this`origin, this`committed, this`parses, this`repeats, this`found, this`trace
      ensures Valid() && Abs() == Apply(old(Abs()), l) && trace == old(trace) + [l]
    {
      hide Apply, Enabled;
      Took(Abs(), l);
    }

    method UpdateTask(t: Task, ghost l: Label)
      requires Valid() && Enabled(Abs(), l) && TablesOf(Apply(Abs(), l)) == AbsTables().(tasks := tasks[t.id := t])
      modifies this
      ensures Valid() && Abs() == Apply(old(Abs()), l) && trace == old(trace) + [l]
    {
      hide Apply, Enabled;
      ghost var before := Abs();
      tasks := tasks[t.id := t];
      Took(before, l);
    }

    method ReplaceTasks(rows: map<TaskID, Task>, ghost l: Label)
      requires Valid() && Enabled(Abs(), l) && TablesOf(Apply(Abs(), l)) == AbsTables().(tasks := rows)
      modifies this
      ensures Valid() && Abs() == Apply(old(Abs()), l) && trace == old(trace) + [l]
    {
      hide Apply, Enabled;
      ghost var before := Abs();
      tasks := rows;
      Took(before, l);
    }

    method CommitJob(job: JobID, c: Config, rows: map<TaskID, Task>, events: map<EventID, OutboxRow>, ghost l: Label)
      requires Valid() && Enabled(Abs(), l)
      requires TablesOf(Apply(Abs(), l)) == AbsTables().(jobs := jobs[job := c], tasks := rows, outbox := outbox + events)
      modifies this
      ensures Valid() && Abs() == Apply(old(Abs()), l) && trace == old(trace) + [l]
    {
      hide Apply, Enabled;
      ghost var before := Abs();
      jobs, tasks, outbox := jobs[job := c], rows, outbox + events;
      Took(before, l);
    }

    method StoreObject(key: ObjectKey, o: Object, ghost l: Label)
      requires Valid() && Enabled(Abs(), l) && TablesOf(Apply(Abs(), l)) == AbsTables().(store := store[key := o])
      modifies this
      ensures Valid() && Abs() == Apply(old(Abs()), l) && trace == old(trace) + [l]
    {
      hide Apply, Enabled;
      ghost var before := Abs();
      store := store[key := o];
      Took(before, l);
    }

    method PublishCrawl(m: CrawlMessage, ghost l: Label)
      requires Valid() && Enabled(Abs(), l) && TablesOf(Apply(Abs(), l)) == AbsTables().(crawlLog := crawlQueue + [m])
      modifies this
      ensures Valid() && Abs() == Apply(old(Abs()), l) && trace == old(trace) + [l]
    {
      hide Apply, Enabled;
      ghost var before := Abs();
      crawlQueue := crawlQueue + [m];
      Took(before, l);
    }

    // An accepted outbox event; the row only gains history.
    method PublishEvent(e: EventID, m: CrawlMessage, ghost l: Label)
      requires Valid() && Enabled(Abs(), l) && e in outbox
      requires TablesOf(Apply(Abs(), l)) ==
               AbsTables().(crawlLog := crawlQueue + [m], outbox := outbox[e := outbox[e].(attempts := outbox[e].attempts + 1)])
      modifies this
      ensures Valid() && Abs() == Apply(old(Abs()), l) && trace == old(trace) + [l]
    {
      hide Apply, Enabled;
      ghost var before := Abs();
      crawlQueue := crawlQueue + [m];
      outbox := outbox[e := outbox[e].(attempts := outbox[e].attempts + 1)];
      Took(before, l);
    }

    method ReplaceOutbox(rows: map<EventID, OutboxRow>, ghost l: Label)
      requires Valid() && Enabled(Abs(), l) && TablesOf(Apply(Abs(), l)) == AbsTables().(outbox := rows)
      modifies this
      ensures Valid() && Abs() == Apply(old(Abs()), l) && trace == old(trace) + [l]
    {
      hide Apply, Enabled;
      ghost var before := Abs();
      outbox := rows;
      Took(before, l);
    }

    method PublishParse(m: ParseMessage, ghost l: Label)
      requires Valid() && Enabled(Abs(), l) && TablesOf(Apply(Abs(), l)) == AbsTables().(parseLog := parseQueue + [m])
      modifies this
      ensures Valid() && Abs() == Apply(old(Abs()), l) && trace == old(trace) + [l]
    {
      hide Apply, Enabled;
      ghost var before := Abs();
      parseQueue := parseQueue + [m];
      Took(before, l);
    }
  }
}
