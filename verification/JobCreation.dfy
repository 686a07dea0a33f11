// The job-creation transaction of the scheduler and of the create command: the job, one task and
// one outbox event for each seed, all or nothing.
module JobCreation {
  import opened Options
  import opened Subsequences
  import opened PipelineModel
  import opened TaskStatuses
  import opened PipelineInvariant
  import opened PipelineSteps
  import opened Handlers
  import opened ParserWorkers

  ghost predicate NewEventIDs(outbox: map<EventID, OutboxRow>, newID: nat -> EventID) {
    && (forall i :: newID(i) !in outbox)
    && (forall i, j :: i != j ==> newID(i) != newID(j))
  }

  function Event(task: Task): OutboxRow { OutboxRow(TaskEnqueued(MessageFor(task)), false, 0, 0) }

  lemma CreatingJob(s: State, job: JobID, c: Config, ids: seq<TaskID>, eventIDs: seq<EventID>, events: map<EventID, OutboxRow>)
    requires job !in s.jobs && c.maxDepth <= MAX_UINT64 && SeedsFresh(s, CreateJob(job, c, ids, eventIDs))
    requires events.Keys == (set e | e in eventIDs)
    requires forall i :: 0 <= i < |eventIDs| ==>
               eventIDs[i] in events && events[eventIDs[i]] == Event(NewTask(ids[i], job, c.seeds[i], 0))
    ensures var l := CreateJob(job, c, ids, eventIDs);
            && Enabled(s, l)
            && TablesOf(Apply(s, l)) == TablesOf(s).(jobs := s.jobs[job := c],
                 tasks := BulkInsert(s.tasks, SeedTasks(job, c, ids)).0, outbox := s.outbox + events)
            && Apply(s, l).flights == s.flights
  {
    hide BulkInsert, FreshIDs, InsertedOrigins;
    assert SeedEvents(job, c, ids, eventIDs) == events;
  }

  class JobCreator {
    const world: World

    constructor (world: World)
      ensures this.world == world
    {
      this.world := world;
    }

    // One turn for each seed appends its task and its event.
    method BuildSeeds(job: JobID, c: Config, newID: nat -> TaskID, newEventID: nat -> EventID)
      returns (tasks: seq<Task>, events: map<EventID, OutboxRow>, ghost ids: seq<TaskID>, ghost eventIDs: seq<EventID>)
      requires forall i, j :: i != j ==> newEventID(i) != newEventID(j)
      ensures |tasks| == |ids| == |eventIDs| == |c.seeds|
      ensures forall i :: 0 <= i < |tasks| ==> ids[i] == newID(i) && tasks[i] == NewTask(newID(i), job, c.seeds[i], 0)
      ensures forall i :: 0 <= i < |tasks| ==>
                eventIDs[i] == newEventID(i) && newEventID(i) in events && events[newEventID(i)] == Event(tasks[i])
      ensures events.Keys == (set e | e in eventIDs)
      ensures forall i :: 0 <= i < |tasks| ==>
                && tasks[i] == Task(newID(i), job, c.seeds[i], None, InProgress, 0, None, None, None)
                && events[newEventID(i)] == OutboxRow(TaskEnqueued(CrawlMessage(newID(i), job, c.seeds[i])), false, 0, 0)
    {
      tasks, events, ids, eventIDs := [], map[], [], [];
      for n := 0 to |c.seeds|
        invariant |tasks| == |ids| == |eventIDs| == n
        invariant forall i :: 0 <= i < n ==> ids[i] == newID(i) && eventIDs[i] == newEventID(i)
        invariant forall i :: 0 <= i < n ==> tasks[i] == NewTask(ids[i], job, c.seeds[i], 0)
        invariant events.Keys == (set e | e in eventIDs)
        invariant forall i :: 0 <= i < n ==> eventIDs[i] in events && events[eventIDs[i]] == Event(tasks[i])
      {
        var task := NewTask(newID(n), job, c.seeds[n], 0);
        tasks := tasks + [task];
        events := events[newEventID(n) := Event(task)];
        ids, eventIDs := ids + [newID(n)], eventIDs + [newEventID(n)];
      }
    }

    method Create(job: JobID, c: Config, newID: nat -> TaskID, newEventID: nat -> EventID, commits: bool)
      returns (ghost eventIDs: seq<EventID>)
      requires world.Valid() && job !in world.jobs && c.maxDepth <= MAX_UINT64
      requires NewIDs(world.tasks, newID) && NewEventIDs(world.outbox, newEventID)
      modifies world
      ensures world.Valid() && old(world.trace) <= world.trace && world.flights == old(world.flights)
      ensures if commits then JobCreated(old(world.AbsTables()), world.AbsTables(), job, c, eventIDs)
              else world.AbsTables() == old(world.AbsTables())
    {
      hide Apply, Enabled, ValidRun, Outcome, BulkInsert, JobCreated, UniqueUrls, HasUrl;
      ghost var ids;
      var tasks, events;
      tasks, events, ids, eventIDs := BuildSeeds(job, c, newID, newEventID);
      if !commits {
        return;
      }
      assert tasks == SeedTasks(job, c, ids);
      var rows, _ := BulkCreate(world.tasks, tasks);
      CreatingJob(world.Abs(), job, c, ids, eventIDs, events);
      world.UrlsAreUnique();
      world.NewJobsHaveNoRows(job);
      SeedsCreated(world.AbsTables(), job, c, ids, eventIDs, events);
      world.CommitJob(job, c, rows, events, CreateJob(job, c, ids, eventIDs));
    }
  }

  // Every seed URL has exactly one row of the job, at depth 0, and every seed one unprocessed
  // event for its URL; with distinct seeds each event names one of those rows.
  ghost predicate JobCreated(before: Tables, after: Tables, job: JobID, c: Config, eventIDs: seq<EventID>) {
    && after == before.(jobs := before.jobs[job := c], tasks := after.tasks, outbox := after.outbox)
    && SeedRows(before.tasks, after.tasks, job, c)
    && SeedEventRows(before.outbox, after.outbox, after.tasks, job, c, eventIDs)
  }

  ghost predicate SeedRows(before: map<TaskID, Task>, after: map<TaskID, Task>, job: JobID, c: Config) {
    && (forall id :: id in before ==> id in after && after[id] == before[id])
    && (forall id :: id in after && id !in before ==>
          after[id] == Task(id, job, after[id].url, None, InProgress, 0, None, None, None) && after[id].url in c.seeds)
    && (forall i :: 0 <= i < |c.seeds| ==> exists id :: id in after && after[id].job == job && after[id].url == c.seeds[i])
    && UniqueUrls(after)
  }

  ghost predicate SeedEventRows(before: map<EventID, OutboxRow>, after: map<EventID, OutboxRow>, tasks: map<TaskID, Task>, job: JobID, c: Config,
                                eventIDs: seq<EventID>)
  {
    && |eventIDs| == |c.seeds|
    && (forall i, j :: 0 <= i < j < |eventIDs| ==> eventIDs[i] != eventIDs[j])
    && after.Keys == before.Keys + (set e | e in eventIDs)
    && (forall e :: e in before ==> e !in eventIDs && after[e] == before[e])
    && (forall i :: 0 <= i < |eventIDs| ==>
          && eventIDs[i] in after && !after[eventIDs[i]].processed && after[eventIDs[i]].payload.TaskEnqueued?
          && var m := after[eventIDs[i]].payload.message;
             m.job == job && m.url == c.seeds[i] && (Distinct(c.seeds) ==> m.task in tasks && tasks[m.task].job == job && tasks[m.task].url == m.url))
  }

  lemma SeedRowsCreated(before: map<TaskID, Task>, job: JobID, c: Config, ids: seq<TaskID>)
    requires |ids| == |c.seeds| && FreshIDs(before, SeedTasks(job, c, ids)) && UniqueUrls(before)
    ensures SeedRows(before, BulkInsert(before, SeedTasks(job, c, ids)).0, job, c)
  {
    hide BulkInsert, UniqueUrls, HasUrl, FreshIDs;
    var ts := SeedTasks(job, c, ids);
    var rows := BulkInsert(before, ts).0;
    BulkInsertInserts(before, ts);
    BulkInsertCovers(before, ts);
    forall i | 0 <= i < |c.seeds| ensures exists id :: id in rows && rows[id].job == job && rows[id].url == c.seeds[i] {
      assert Present(rows, ts[i]);
      HasRow(rows, job, c.seeds[i]);
    }
  }

  lemma SeedsAllInserted(before: map<TaskID, Task>, job: JobID, c: Config, ids: seq<TaskID>)
    requires |ids| == |c.seeds| && FreshIDs(before, SeedTasks(job, c, ids)) && Distinct(c.seeds)
    requires forall url :: !HasUrl(before, job, url)
    ensures var rows := BulkInsert(before, SeedTasks(job, c, ids)).0;
            forall i :: 0 <= i < |ids| ==> ids[i] in rows && rows[ids[i]] == NewTask(ids[i], job, c.seeds[i], 0)
  {
    hide BulkInsert, HasUrl, FreshIDs;
    var ts := SeedTasks(job, c, ids);
    var rows := BulkInsert(before, ts).0;
    DistinctSeedsAllInserted(before, ts);
    BulkInsertInserts(before, ts);
    forall i | 0 <= i < |ids| ensures ids[i] in rows && rows[ids[i]] == ts[i] {
      assert ts[i] in BulkInsert(before, ts).1;
    }
  }

  lemma SeedsCreated(before: Tables, job: JobID, c: Config, ids: seq<TaskID>, eventIDs: seq<EventID>, events: map<EventID, OutboxRow>)
    requires SeedsFresh(EMPTY.(tasks := before.tasks, outbox := before.outbox), CreateJob(job, c, ids, eventIDs))
    requires UniqueUrls(before.tasks) && forall url :: !HasUrl(before.tasks, job, url)
    requires events.Keys == (set e | e in eventIDs)
    requires forall i :: 0 <= i < |eventIDs| ==>
               eventIDs[i] in events && events[eventIDs[i]] == Event(NewTask(ids[i], job, c.seeds[i], 0))
    ensures var rows := BulkInsert(before.tasks, SeedTasks(job, c, ids)).0;
            JobCreated(before, before.(jobs := before.jobs[job := c], tasks := rows, outbox := before.outbox + events), job, c, eventIDs)
  {
    hide BulkInsert, UniqueUrls, HasUrl, FreshIDs, SeedRows, SeedTasks;
    SeedRowsCreated(before.tasks, job, c, ids);
    if Distinct(c.seeds) {
      SeedsAllInserted(before.tasks, job, c, ids);
    }
  }
}
