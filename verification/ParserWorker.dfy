// The parse handler: guard, read, extract, upload, prepare links, then one transaction for the
// row and its children, then one publish for each child that was really inserted.
module ParserWorkers {
  import opened Options
  import opened Subsequences
  import opened PipelineModel
  import opened TaskStatuses
  import opened PipelineInvariant
  import opened PipelineSteps
  import opened Handlers
  import opened Links
  import opened FetchWorkers

  // What the handler's calls come back with; newID gives the random ids of new tasks.
  datatype ParseCalls = ParseCalls(loads: bool, opens: bool, extracted: Option<string>, uploads: bool,
                                   paginationRobots: Url -> Verdict, discoveryRobots: Url -> Verdict,
                                   newID: nat -> TaskID, commits: bool, updates: bool,
                                   delivers: nat -> bool)

  predicate Readable(store: map<ObjectKey, Object>, t: Task, calls: ParseCalls) {
    t.pageKey.Some? && t.pageKey.value in store && calls.opens
  }

  ghost predicate NewIDs(rows: map<TaskID, Task>, newID: nat -> TaskID) {
    && (forall i :: newID(i) !in rows)
    && (forall i, j :: i != j ==> newID(i) != newID(j))
  }

  // ---- the insert, and what it amounts to ----

  // INSERT ... ON CONFLICT (job_id, url) DO NOTHING RETURNING id, row by row.
  method BulkCreate(rows: map<TaskID, Task>, ts: seq<Task>) returns (rows': map<TaskID, Task>, ids: seq<TaskID>)
    ensures rows' == BulkInsert(rows, ts).0
    ensures ids == IDs(BulkInsert(rows, ts).1)
  {
    rows', ids := rows, [];
    for n := 0 to |ts|
      invariant rows' == BulkInsert(rows, ts[..n]).0
      invariant ids == IDs(BulkInsert(rows, ts[..n]).1)
    {
      assert ts[..n + 1][..n] == ts[..n];
      if !HasUrl(rows', ts[n].job, ts[n].url) {
        rows', ids := rows'[ts[n].id := ts[n]], ids + [ts[n].id];
      }
    }
    assert ts[..|ts|] == ts;
  }

  function IDs(ts: seq<Task>): seq<TaskID> { seq(|ts|, i requires 0 <= i < |ts| => ts[i].id) }

  lemma {:induction false} BulkInsertIsNew(rows: map<TaskID, Task>, ts: seq<Task>)
    requires FreshIDs(rows, ts)
    ensures var inserted := BulkInsert(rows, ts).1;
            && (forall t :: t in inserted ==> !Present(rows, t))
            && (forall i, j :: 0 <= i < j < |inserted| ==> inserted[i].id != inserted[j].id)
  {
    if ts != [] {
      var n := |ts| - 1;
      BulkInsertIsNew(rows, ts[..n]);
      BulkInsertInserts(rows, ts[..n]);
      var (rows1, inserted1) := BulkInsert(rows, ts[..n]);
      FreshAfterInsert(rows, ts, rows1, inserted1);
      if !Present(rows1, ts[n]) {
        if Present(rows, ts[n]) {
          PresentStays(rows, rows1, ts[n]);
          assert false;
        }
      }
    }
  }

  // No row of the job has the URL of task i, and neither has a task before it in the batch.
  ghost predicate IsNew(rows: map<TaskID, Task>, ts: seq<Task>, i: nat)
    requires i < |ts|
  {
    && (forall id :: id in rows && rows[id].job == ts[i].job ==> rows[id].url != ts[i].url)
    && (forall j :: 0 <= j < i && ts[j].job == ts[i].job ==> ts[j].url != ts[i].url)
  }

  // The tasks inserted are exactly the new ones of the batch, in order.
  lemma {:induction false} BulkInsertKeepsFirst(rows: map<TaskID, Task>, ts: seq<Task>) returns (at: seq<nat>)
    requires FreshIDs(rows, ts) && UniqueUrls(rows)
    ensures Selects(at, BulkInsert(rows, ts).1, ts) && forall i :: 0 <= i < |ts| ==> (i in at <==> IsNew(rows, ts, i))
  {
    hide Selects, HasUrl, UniqueUrls, IsNew;
    if ts == [] {
      at := [];
      SelectsNothing(ts);
    } else {
      var n := |ts| - 1;
      var before := BulkInsertKeepsFirst(rows, ts[..n]);
      var (rows1, inserted1) := BulkInsert(rows, ts[..n]);
      LastIsNew(rows, ts);
      var last := !HasUrl(rows1, ts[n].job, ts[n].url);
      at := if last then before + [n] else before;
      SelectsOneMore(before, inserted1, ts, last);
      forall i | 0 <= i < |ts| ensures i in at <==> IsNew(rows, ts, i) {
        OneMorePosition(before, inserted1, ts, last, i);
        if i < n { StillNew(rows, ts, i); }
      }
    }
  }

  lemma StillNew(rows: map<TaskID, Task>, ts: seq<Task>, i: nat)
    requires i < |ts| - 1
    ensures IsNew(rows, ts[..|ts| - 1], i) <==> IsNew(rows, ts, i)
  {
    assert forall j :: 0 <= j <= i ==> ts[..|ts| - 1][j] == ts[j];
  }

  lemma LastIsNew(rows: map<TaskID, Task>, ts: seq<Task>)
    requires ts != [] && FreshIDs(rows, ts) && UniqueUrls(rows)
    ensures var n := |ts| - 1; HasUrl(BulkInsert(rows, ts[..n]).0, ts[n].job, ts[n].url) <==> !IsNew(rows, ts, n)
  {
    hide BulkInsert, UniqueUrls, FreshIDs, HasUrl;
    var n := |ts| - 1;
    assert FreshIDs(rows, ts[..n]) by { FreshFront(rows, ts); }
    BulkInsertInserts(rows, ts[..n]);
    BulkInsertCovers(rows, ts[..n]);
    var (rows1, inserted1) := BulkInsert(rows, ts[..n]);
    HasRow(rows1, ts[n].job, ts[n].url);
    if j :| 0 <= j < n && ts[j].job == ts[n].job && ts[j].url == ts[n].url {
      assert Present(rows1, ts[..n][j]);
    }
    if id :| id in rows1 && rows1[id].job == ts[n].job && rows1[id].url == ts[n].url {
      if id !in rows {
        var j :| 0 <= j < n && ts[..n][j] == rows1[id];
      }
    }
  }

  lemma FreshFront(rows: map<TaskID, Task>, ts: seq<Task>)
    requires ts != [] && FreshIDs(rows, ts)
    ensures FreshIDs(rows, ts[..|ts| - 1])
  {
  }

  // The row is parsed and every other old row untouched; each chosen link has a row in the job;
  // the new rows are one level down, for chosen links the job did not know; and there is
  // exactly one publish attempt for each new row, with its own id, job and URL.
  ghost predicate Committed(before: map<TaskID, Task>, after: map<TaskID, Task>, t: Task, links: set<Url>, attempts: seq<CrawlMessage>) {
    && before.Keys + {t.id} <= after.Keys
    && after[t.id] == t.(status := Parsed, resultKey := Some(ResultKey(t.id)), error := None)
    && (forall id :: id in before && id != t.id ==> after[id] == before[id])
    && (forall u :: u in links ==> exists id :: id in after && after[id].job == t.job && after[id].url == u)
    && (forall id :: id in after && id !in before && id != t.id ==>
          && after[id] == Task(id, t.job, after[id].url, None, InProgress, t.depth + 1, None, None, None)
          && after[id].url in links
          && forall other :: other in before && before[other].job == t.job ==> before[other].url != after[id].url)
    && (forall i :: 0 <= i < |attempts| ==>
          && attempts[i].task in after && attempts[i].task !in before
          && attempts[i].job == t.job && attempts[i].url == after[attempts[i].task].url)
    && (forall i, j :: 0 <= i < j < |attempts| ==> attempts[i].task != attempts[j].task)
    && (forall id :: id in after && id !in before && id != t.id ==> exists i :: 0 <= i < |attempts| && attempts[i].task == id)
  }

  ghost predicate ChildrenOf(children: seq<Task>, t: Task, links: set<Url>) {
    && (forall i :: 0 <= i < |children| ==>
          children[i] == NewTask(children[i].id, t.job, children[i].url, t.depth + 1) && children[i].url in links)
    && (forall u :: u in links ==> exists i :: 0 <= i < |children| && children[i].url == u)
  }

  lemma PreparedChildren(c: Config, t: Task, v: Visit, pagination: seq<Task>, discovery: seq<Task>)
    requires Prepares(pagination, t, ChosenPagination(c, t.depth, v))
    requires Prepares(discovery, t, ChosenDiscovered(c, t.depth, v))
    ensures ChildrenOf(pagination + discovery, t, ChosenLinks(c, t.depth, v))
  {
    hide ChosenPagination, ChosenDiscovered;
    var children := pagination + discovery;
    forall u | u in ChosenLinks(c, t.depth, v)
      ensures exists i :: 0 <= i < |children| && children[i].url == u
    {
      if i :| 0 <= i < |pagination| && pagination[i].url == u {
        assert children[i].url == u;
      } else {
        assert u in ChosenDiscovered(c, t.depth, v);
        var i :| 0 <= i < |discovery| && discovery[i].url == u;
        assert children[|pagination| + i].url == u;
      }
    }
  }

  lemma PreparedAreFollowed(children: seq<Task>, c: Config, t: Task, v: Visit)
    requires ChildrenOf(children, t, ChosenLinks(c, t.depth, v))
    ensures forall u :: (exists i :: 0 <= i < |children| && children[i].url == u) <==> Followed(c, t.depth, v, u)
  {
    hide ChosenLinks, Followed;
    ChosenAreFollowed(c, t.depth, v);
  }

  function Messages(ts: seq<Task>): seq<CrawlMessage> { seq(|ts|, i requires 0 <= i < |ts| => MessageFor(ts[i])) }

  lemma CommitInserts(before: map<TaskID, Task>, t: Task, children: seq<Task>, links: set<Url>)
    requires t.id in before && before[t.id].job == t.job && before[t.id].url == t.url && UniqueUrls(before)
    requires FreshIDs(before, children) && ChildrenOf(children, t, links)
    ensures var rows := before[t.id := MarkAsParsed(t, ResultKey(t.id))];
            var (after, inserted) := BulkInsert(rows, children);
            Committed(before, after, t, links, Messages(inserted))
  {
    hide BulkInsert, HasUrl, UniqueUrls;
    var rows := before[t.id := MarkAsParsed(t, ResultKey(t.id))];
    var (after, inserted) := BulkInsert(rows, children);
    assert FreshIDs(rows, children);
    SameUrls(before, rows, t);
    BulkInsertInserts(rows, children);
    BulkInsertCovers(rows, children);
    BulkInsertIsNew(rows, children);
    LinksHaveRows(after, t, children, links);
    forall id | id in after && id !in before && id != t.id
      ensures after[id] == NewTask(id, t.job, after[id].url, t.depth + 1) && after[id].url in links
      ensures forall other :: other in before && before[other].job == t.job ==> before[other].url != after[id].url
      ensures exists i :: 0 <= i < |inserted| && Messages(inserted)[i].task == id
    {
      assert after[id] in inserted && after[id] in children && !Present(rows, after[id]);
      var i :| 0 <= i < |inserted| && inserted[i] == after[id];
      assert Messages(inserted)[i].task == id;
      HasRow(before, t.job, after[id].url);
    }
  }

  lemma LinksHaveRows(after: map<TaskID, Task>, t: Task, children: seq<Task>, links: set<Url>)
    requires ChildrenOf(children, t, links) && forall i :: 0 <= i < |children| ==> Present(after, children[i])
    ensures forall u :: u in links ==> exists id :: id in after && after[id].job == t.job && after[id].url == u
  {
    forall u | u in links ensures exists id :: id in after && after[id].job == t.job && after[id].url == u {
      var i :| 0 <= i < |children| && children[i].url == u;
      assert Present(after, children[i]);
    }
  }

  lemma HasRow(rows: map<TaskID, Task>, job: JobID, url: Url)
    ensures HasUrl(rows, job, url) <==> exists id :: id in rows && rows[id].job == job && rows[id].url == url
  {
  }

  lemma SameUrls(before: map<TaskID, Task>, rows: map<TaskID, Task>, t: Task)
    requires t.id in before && before[t.id].job == t.job && before[t.id].url == t.url && UniqueUrls(before)
    requires rows == before[t.id := MarkAsParsed(t, ResultKey(t.id))]
    ensures UniqueUrls(rows) && forall job, url :: HasUrl(rows, job, url) <==> HasUrl(before, job, url)
  {
    forall job, url ensures HasUrl(rows, job, url) <==> HasUrl(before, job, url) {
      if id :| id in before && before[id].job == job && before[id].url == url {
        assert rows[id].job == job && rows[id].url == url;
      }
      if id :| id in rows && rows[id].job == job && rows[id].url == url {
        assert before[id].job == job && before[id].url == url;
      }
    }
  }

  // ---- the handler's effects as steps ----

  lemma LoadingParse(s: State, f: FlightID, m: ParseMessage)
    requires f !in s.flights && m in s.parseLog && m.task in s.tasks
    requires s.tasks[m.task].status != Parsed && s.tasks[m.task].job in s.jobs
    ensures var l := ParseLoads(f, m.task);
            && Enabled(s, l) && TablesOf(Apply(s, l)) == TablesOf(s)
            && Apply(s, l).flights == s.flights[f := Parsing(s.tasks[m.task], ParseLoaded)] && Apply(s, l).committed == s.committed
  {
  }

  lemma ReadingPage(s: State, f: FlightID)
    requires IsParsing(s, f) && s.flights[f].parse.ParseLoaded?
    requires s.flights[f].task.pageKey.Some? && s.flights[f].task.pageKey.value in s.store
    ensures var l := ParseReads(f);
            && Enabled(s, l) && TablesOf(Apply(s, l)) == TablesOf(s)
            && Apply(s, l).flights == s.flights[f := s.flights[f].(parse := PageRead(s.store[s.flights[f].task.pageKey.value]))]
            && Apply(s, l).committed == s.committed
  {
  }

  // Extraction or upload fails before the transaction, or the transaction is rolled back.
  lemma FailingParse(s: State, f: FlightID, reason: string)
    requires IsParsing(s, f) && (s.flights[f].parse.PageRead? || s.flights[f].parse.ChildrenReady?)
    ensures var t := s.flights[f].task;
            var l := if s.flights[f].parse.PageRead? then ParseFails(f, reason) else ParseRollsBack(f, reason);
            && Enabled(s, l)
            && TablesOf(Apply(s, l)) == TablesOf(s).(tasks := s.tasks[t.id := MarkAsFailed(t, reason)])
            && Apply(s, l).flights == s.flights - {f} && Apply(s, l).committed == s.committed
  {
  }

  lemma UploadingResult(s: State, f: FlightID, result: Object)
    requires IsParsing(s, f) && s.flights[f].parse.PageRead? && result.Result?
    ensures var l := ParseUploads(f, result);
            && Enabled(s, l)
            && TablesOf(Apply(s, l)) == TablesOf(s).(store := s.store[ResultKey(s.flights[f].task.id) := result])
            && Apply(s, l).flights == s.flights[f := s.flights[f].(parse := Uploaded(s.flights[f].parse.page))]
            && Apply(s, l).committed == s.committed
  {
  }

  lemma PreparingLinks(s: State, f: FlightID, v: Visit, pagination: seq<Task>, discovery: seq<Task>)
    requires IsParsing(s, f) && s.flights[f].parse.Uploaded? && HasConfig(s, s.flights[f].task)
    requires v.page == s.flights[f].parse.page && v.base == BaseURL(s.flights[f].task)
    requires var t := s.flights[f].task;
             && Prepares(pagination, t, ChosenPagination(s.jobs[t.job], t.depth, v))
             && Prepares(discovery, t, ChosenDiscovered(s.jobs[t.job], t.depth, v))
    ensures var l := ParsePrepares(f, v.paginationRobots, v.discoveryRobots, pagination, discovery);
            && Enabled(s, l) && TablesOf(Apply(s, l)) == TablesOf(s)
            && Apply(s, l).flights == s.flights[f := Parsing(s.flights[f].task, ChildrenReady(v, pagination + discovery))]
            && Apply(s, l).committed == s.committed
  {
    hide Prepares, ChosenPagination, ChosenDiscovered;
    assert VisitOf(s, ParsePrepares(f, v.paginationRobots, v.discoveryRobots, pagination, discovery)) == v;
  }

  lemma Committing(s: State, f: FlightID)
    requires IsParsing(s, f) && s.flights[f].parse.ChildrenReady? && FreshIDs(s.tasks, s.flights[f].parse.children)
    ensures var t := s.flights[f].task;
            var (rows, inserted) := BulkInsert(s.tasks[t.id := MarkAsParsed(t, ResultKey(t.id))], s.flights[f].parse.children);
            var l := ParseCommits(f);
            && Enabled(s, l) && TablesOf(Apply(s, l)) == TablesOf(s).(tasks := rows)
            && Apply(s, l).flights == s.flights[f := Parsing(t, Dispatching(inserted))]
            && Apply(s, l).committed == s.committed[t.id := s.flights[f].parse.visit]
  {
    hide BulkInsert, FreshIDs, InsertedOrigins;
  }

  lemma DispatchingOne(s: State, f: FlightID, delivered: bool)
    requires IsParsing(s, f) && s.flights[f].parse.Dispatching? && s.flights[f].parse.todo != []
    ensures var todo := s.flights[f].parse.todo;
            var l := ParseDispatches(f, delivered);
            && Enabled(s, l)
            && TablesOf(Apply(s, l)) == TablesOf(s).(crawlLog := if delivered then s.crawlLog + [MessageFor(todo[0])] else s.crawlLog)
            && Apply(s, l).flights == s.flights[f := Parsing(s.flights[f].task, Dispatching(todo[1..]))]
            && Apply(s, l).committed == s.committed
  {
  }

  // Of the messages offered to the broker, those it accepted.
  function Delivered(ms: seq<CrawlMessage>, delivers: nat -> bool): seq<CrawlMessage> {
    if ms == [] then []
    else
      var n := |ms| - 1;
      Delivered(ms[..n], delivers) + if delivers(n) then [ms[n]] else []
  }

  // These are the messages at the positions of the accepted offers, in order.
  lemma {:induction false} DeliveredInOrder(ms: seq<CrawlMessage>, delivers: nat -> bool) returns (at: seq<nat>)
    ensures Selects(at, Delivered(ms, delivers), ms)
    ensures forall i :: 0 <= i < |ms| ==> (i in at <==> delivers(i))
  {
    hide Selects;
    if ms == [] {
      at := [];
      SelectsNothing(ms);
    } else {
      var n := |ms| - 1;
      var before := DeliveredInOrder(ms[..n], delivers);
      at := if delivers(n) then before + [n] else before;
      assert Delivered(ms[..n], delivers) + [] == Delivered(ms[..n], delivers);
      SelectsOneMore(before, Delivered(ms[..n], delivers), ms, delivers(n));
      forall i | 0 <= i < |ms| ensures i in at <==> delivers(i) {
        OneMorePosition(before, Delivered(ms[..n], delivers), ms, delivers(n), i);
      }
    }
  }

  // A map from the ids of the whole batch to its tasks.
  method IndexByID(ts: seq<Task>) returns (byID: map<TaskID, Task>)
    requires forall i, j :: 0 <= i < j < |ts| ==> ts[i].id != ts[j].id
    ensures forall i :: 0 <= i < |ts| ==> ts[i].id in byID && byID[ts[i].id] == ts[i]
  {
    byID := map[];
    for n := 0 to |ts|
      invariant forall i :: 0 <= i < n ==> ts[i].id in byID && byID[ts[i].id] == ts[i]
    {
      byID := byID[ts[n].id := ts[n]];
    }
  }

  class ParserWorker {
    const world: World

    constructor (world: World)
      ensures this.world == world
    {
      this.world := world;
    }

    method FailTask(t: Task, reason: string, updates: bool, ghost f: FlightID) returns (ok: bool)
      requires world.Valid() && IsParsing(world.Abs(), f) && world.flights[f].task.id == t.id
      requires world.flights[f].parse.PageRead? || world.flights[f].parse.ChildrenReady?
      requires MarkAsFailed(world.flights[f].task, reason) == MarkAsFailed(t, reason)
      modifies world
      ensures world.Valid() && old(world.trace) <= world.trace && world.flights == old(world.flights) - {f}
      ensures world.committed == old(world.committed)
      ensures ok == updates
      ensures world.AbsTables() == old(world.AbsTables()).(tasks :=
                if ok then old(world.tasks)[t.id := MarkAsFailed(t, reason)] else old(world.tasks))
    {
      hide Apply, Enabled;
      if updates {
        FailingParse(world.Abs(), f, reason);
        ghost var l := if world.flights[f].parse.PageRead? then ParseFails(f, reason) else ParseRollsBack(f, reason);
        world.UpdateTask(MarkAsFailed(t, reason), l);
      } else {
        Stopping(world.Abs(), f);
        world.Goes(Stops(f));
      }
      ok := updates;
    }

    // One publish attempt; a failure is only logged.
    method DispatchOne(m: CrawlMessage, delivered: bool, ghost f: FlightID, ghost t: Task, ghost todo: seq<Task>)
      requires world.Valid() && f in world.flights && world.flights[f] == Parsing(t, Dispatching(todo))
      requires todo != [] && m == MessageFor(todo[0])
      modifies world
      ensures world.Valid() && old(world.trace) <= world.trace
      ensures world.committed == old(world.committed)
      ensures world.flights == old(world.flights)[f := Parsing(t, Dispatching(todo[1..]))]
      ensures world.AbsTables() == old(world.AbsTables()).(crawlLog :=
                if delivered then old(world.crawlQueue) + [m] else old(world.crawlQueue))
    {
      hide Apply, Enabled, ValidRun, Outcome;
      DispatchingOne(world.Abs(), f, delivered);
      if delivered {
        world.PublishCrawl(m, ParseDispatches(f, true));
      } else {
        world.Goes(ParseDispatches(f, false));
      }
    }

    method Dispatch(ids: seq<TaskID>, children: seq<Task>, delivers: nat -> bool, ghost f: FlightID, ghost t: Task, ghost inserted: seq<Task>)
      returns (attempts: seq<CrawlMessage>)
      requires world.Valid() && f in world.flights && world.flights[f] == Parsing(t, Dispatching(inserted))
      requires ids == IDs(inserted) && forall t :: t in inserted ==> t in children
      requires forall i, j :: 0 <= i < j < |children| ==> children[i].id != children[j].id
      modifies world
      ensures world.Valid() && old(world.trace) <= world.trace && world.flights == old(world.flights) - {f}
      ensures world.committed == old(world.committed)
      ensures attempts == Messages(inserted)
      ensures world.AbsTables() == old(world.AbsTables()).(crawlLog := old(world.crawlQueue) + Delivered(attempts, delivers))
    {
      hide Apply, Enabled, ValidRun, Outcome;
      var byID := IndexByID(children);
      attempts := [];
      for n := 0 to |ids|
        invariant world.Valid() && old(world.trace) <= world.trace
        invariant world.flights == old(world.flights)[f := Parsing(t, Dispatching(inserted[n..]))]
        invariant world.committed == old(world.committed) && attempts == Messages(inserted[..n])
        invariant world.AbsTables() == old(world.AbsTables()).(crawlLog := old(world.crawlQueue) + Delivered(attempts, delivers))
      {
        // Every returned id is one of the batch, so the lookup always succeeds.
        assert inserted[n] in children;
        var task := byID[ids[n]];
        var m := CrawlMessage(ids[n], task.job, task.url);
        DispatchOne(m, delivers(n), f, t, inserted[n..]);
        attempts := attempts + [m];
        assert attempts[..n] == Messages(inserted[..n]);
        assert inserted[n..][1..] == inserted[n + 1..];
      }
      assert inserted[..|ids|] == inserted;
      Stopping(world.Abs(), f);
      world.Goes(Stops(f));
    }

    // Update and BulkCreate in one transaction, then the dispatch.
    method Commit(t: Task, children: seq<Task>, calls: ParseCalls, ghost f: FlightID, ghost v: Visit, ghost links: set<Url>)
      returns (attempts: seq<CrawlMessage>)
      requires world.Valid() && f in world.flights && world.flights[f] == Parsing(t, ChildrenReady(v, children))
      requires t.id in world.tasks && world.tasks[t.id] == t
      requires FreshIDs(world.tasks, children) && ChildrenOf(children, t, links)
      modifies world
      ensures world.Valid() && old(world.trace) <= world.trace && world.flights == old(world.flights) - {f}
      ensures world.committed == old(world.committed)[t.id := v]
      ensures Committed(old(world.tasks), world.tasks, t, links, attempts)
      ensures world.AbsTables() == old(world.AbsTables()).(tasks := world.tasks,
                crawlLog := old(world.crawlQueue) + Delivered(attempts, calls.delivers))
    {
      hide Apply, Enabled, ValidRun, Outcome, BulkInsert, Committed, ChildrenOf, Delivered, UniqueUrls;
      world.UrlsAreUnique();
      ghost var before := world.tasks;
      var parsed := MarkAsParsed(t, ResultKey(t.id));
      var rows, ids := BulkCreate(world.tasks[t.id := parsed], children);
      ghost var inserted := BulkInsert(world.tasks[t.id := parsed], children).1;
      CommitInserts(world.tasks, t, children, links);
      InsertedFromBatch(world.tasks[t.id := parsed], children);
      Committing(world.Abs(), f);
      world.ReplaceTasks(rows, ParseCommits(f));
      attempts := Dispatch(ids, children, calls.delivers, f, t, inserted);
    }

    // Both preparations run before the transaction.
    method Prepare(t: Task, c: Config, v: Visit, newID: nat -> TaskID, ghost f: FlightID) returns (children: seq<Task>)
      requires world.Valid() && f in world.flights && world.flights[f] == Parsing(t, Uploaded(v.page))
      requires v.base == if t.finalURL.Some? && t.finalURL.value != Url("") then t.finalURL.value else t.url
      requires t.job in world.jobs && world.jobs[t.job] == c && NewIDs(world.tasks, newID)
      modifies world
      ensures world.Valid() && old(world.trace) <= world.trace && world.AbsTables() == old(world.AbsTables())
      ensures world.committed == old(world.committed)
      ensures world.flights == old(world.flights)[f := Parsing(t, ChildrenReady(v, children))]
      ensures FreshIDs(world.tasks, children) && ChildrenOf(children, t, ChosenLinks(c, t.depth, v))
      ensures forall u :: (exists i :: 0 <= i < |children| && children[i].url == u) <==> Followed(c, t.depth, v, u)
    {
      hide Apply, Enabled, ValidRun, Outcome, Prepares, ChosenPagination, ChosenDiscovered, ChildrenOf, ChosenLinks;
      var pagination := PreparePaginationLinks(c, t, v, newID);
      var n := |pagination|;
      var discovery := PrepareDiscoveredLinks(c, t, v, (i: nat) => newID(n + i));
      children := pagination + discovery;
      PreparedChildren(c, t, v, pagination, discovery);
      PreparedAreFollowed(children, c, t, v);
      PreparingLinks(world.Abs(), f, v, pagination, discovery);
      world.Goes(ParsePrepares(f, v.paginationRobots, v.discoveryRobots, pagination, discovery));
    }

    // The result is stored: the links, then row and children in one transaction, then the messages.
    method SaveParse(t: Task, c: Config, page: Object, calls: ParseCalls, ghost f: FlightID)
      returns (ok: bool, attempts: seq<CrawlMessage>)
      requires world.Valid() && f in world.flights && world.flights[f] == Parsing(t, Uploaded(page))
      requires t.id in world.tasks && world.tasks[t.id] == t && calls.extracted.Some? && calls.uploads
      requires world.store == world.store[ResultKey(t.id) := Result(calls.extracted.value)]
      requires t.job in world.jobs && world.jobs[t.job] == c && NewIDs(world.tasks, calls.newID)
      modifies world
      ensures world.Valid() && old(world.trace) <= world.trace && world.flights == old(world.flights) - {f}
      ensures PageHandled(old(world.AbsTables()), world.AbsTables(), old(world.committed), world.committed, t, c, page, calls, ok, attempts)
    {
      hide Apply, Enabled, ValidRun, Outcome, ChosenLinks, Followed, Committed, ChildrenOf, NewIDs, FreshIDs;
      attempts := [];
      var base := t.url;
      if t.finalURL.Some? && t.finalURL.value != Url("") {
        base := t.finalURL.value;
      }
      var v := Visit(page, base, calls.paginationRobots, calls.discoveryRobots);
      ChosenAreFollowed(c, t.depth, v);
      var children := Prepare(t, c, v, calls.newID, f);
      if calls.commits {
        attempts := Commit(t, children, calls, f, v, ChosenLinks(c, t.depth, v));
        ok := true;
      } else {
        // The rolled-back transaction has already marked the copy as parsed.
        ok := FailTask(MarkAsParsed(t, ResultKey(t.id)), "failed to persist results", calls.updates, f);
      }
    }

    // Everything after the page has been read.
    method HandlePage(t: Task, c: Config, page: Object, calls: ParseCalls, ghost f: FlightID)
      returns (ok: bool, attempts: seq<CrawlMessage>)
      requires world.Valid() && f in world.flights && world.flights[f] == Parsing(t, PageRead(page))
      requires t.id in world.tasks && world.tasks[t.id] == t
      requires t.job in world.jobs && world.jobs[t.job] == c && NewIDs(world.tasks, calls.newID)
      modifies world
      ensures world.Valid() && old(world.trace) <= world.trace && world.flights == old(world.flights) - {f}
      ensures PageHandled(old(world.AbsTables()), world.AbsTables(), old(world.committed), world.committed, t, c, page, calls, ok, attempts)
    {
      hide Apply, Enabled, ValidRun, Outcome, NewIDs, PageHandled;
      ghost var before := world.AbsTables();
      attempts := [];
      if calls.extracted.None? {
        ok := FailTask(t, "extraction failed", calls.updates, f);
        FailureHandled(before, world.AbsTables(), world.committed, t, c, page, calls, ok);
        return;
      }
      if !calls.uploads {
        ok := FailTask(t, "failed to persist results", calls.updates, f);
        FailureHandled(before, world.AbsTables(), world.committed, t, c, page, calls, ok);
        return;
      }
      var result := Result(calls.extracted.value);
      UploadingResult(world.Abs(), f, result);
      world.StoreObject(ResultKey(t.id), result, ParseUploads(f, result));
      ghost var stored := world.AbsTables();
      ok, attempts := SaveParse(t, c, page, calls, f);
      HandledAfterUpload(before, stored, world.AbsTables(), old(world.committed), world.committed, t, c, page, calls, ok, attempts);
    }

    // ok acknowledges the message; otherwise it is delivered again.
    method HandleMessage(m: ParseMessage, calls: ParseCalls, ghost f: FlightID) returns (ok: bool, attempts: seq<CrawlMessage>)
      requires world.Valid() && m in world.parseQueue && f !in world.flights && NewIDs(world.tasks, calls.newID)
      modifies world
      ensures world.Valid() && old(world.trace) <= world.trace && world.flights == old(world.flights)
      ensures !calls.loads || !Parseable(old(world.AbsTables()), m) ==>
                ok == calls.loads && attempts == [] && world.AbsTables() == old(world.AbsTables()) && world.committed == old(world.committed)
      ensures calls.loads && Parseable(old(world.AbsTables()), m) ==>
                ParseHandled(old(world.AbsTables()), world.AbsTables(), old(world.committed), world.committed, old(world.tasks)[m.task], calls, ok, attempts)
    {
      hide Apply, Enabled, ValidRun, Outcome, ParseHandled, NewIDs;
      attempts := [];
      if !calls.loads {
        ok := false;
        return;
      }
      if m.task !in world.tasks || world.tasks[m.task].status == Parsed || world.tasks[m.task].job !in world.jobs {
        ok := true;
        return;
      }
      world.RowsAreKeyed(m.task);
      LoadingParse(world.Abs(), f, m);
      var t := world.tasks[m.task];
      world.Goes(ParseLoads(f, m.task));
      ok, attempts := HandleTask(t, calls, f);
    }

    method HandleTask(t: Task, calls: ParseCalls, ghost f: FlightID) returns (ok: bool, attempts: seq<CrawlMessage>)
      requires world.Valid() && f in world.flights && world.flights[f] == Parsing(t, ParseLoaded)
      requires t.id in world.tasks && world.tasks[t.id] == t && t.job in world.jobs && NewIDs(world.tasks, calls.newID)
      modifies world
      ensures world.Valid() && old(world.trace) <= world.trace && world.flights == old(world.flights) - {f}
      ensures ParseHandled(old(world.AbsTables()), world.AbsTables(), old(world.committed), world.committed, t, calls, ok, attempts)
    {
      hide Apply, Enabled, ValidRun, Outcome, PageHandled, NewIDs;
      if t.pageKey.None? || t.pageKey.value !in world.store || !calls.opens {
        Stopping(world.Abs(), f);
        world.Goes(Stops(f));
        ok, attempts := false, [];
        return;
      }
      var page := world.store[t.pageKey.value];
      ReadingPage(world.Abs(), f);
      world.Goes(ParseReads(f));
      ok, attempts := HandlePage(t, world.jobs[t.job], page, calls, f);
    }
  }

  predicate Parseable(before: Tables, m: ParseMessage) {
    m.task in before.tasks && before.tasks[m.task].status != Parsed && before.tasks[m.task].job in before.jobs
  }

  // A page that cannot be read leaves everything to a redelivery; otherwise see PageHandled.
  ghost predicate ParseHandled(before: Tables, after: Tables, visits: map<TaskID, Visit>, visits': map<TaskID, Visit>,
                               t: Task, calls: ParseCalls, ok: bool, attempts: seq<CrawlMessage>)
    requires t.job in before.jobs
  {
    if Readable(before.store, t, calls)
    then PageHandled(before, after, visits, visits', t, before.jobs[t.job], before.store[t.pageKey.value], calls, ok, attempts)
    else !ok && attempts == [] && after == before && visits' == visits
  }

  // The links are those of the page, relative to the final URL of its fetch when there is one and
  // to the task's own otherwise; a committed parse notes that visit. The result is stored before
  // any row refers to it; row and children are committed together
  // or not at all; only a committed parse publishes; a message is given back only when even
  // marking the row failed did not work.
  ghost predicate PageHandled(before: Tables, after: Tables, visits: map<TaskID, Visit>, visits': map<TaskID, Visit>,
                              t: Task, c: Config, page: Object, calls: ParseCalls, ok: bool, attempts: seq<CrawlMessage>)
  {
    var stored := calls.extracted.Some? && calls.uploads;
    var committed := stored && calls.commits;
    var base := if t.finalURL.Some? && t.finalURL.value != Url("") then t.finalURL.value else t.url;
    var v := Visit(page, base, calls.paginationRobots, calls.discoveryRobots);
    && after.jobs == before.jobs && after.outbox == before.outbox && after.parseLog == before.parseLog
    && after.store == (if stored then before.store[ResultKey(t.id) := Result(calls.extracted.value)] else before.store)
    && visits' == (if committed then visits[t.id := v] else visits)
    && (committed ==> Committed(before.tasks, after.tasks, t, ChosenLinks(c, t.depth, v), attempts))
    && (forall u :: u in ChosenLinks(c, t.depth, v) <==> Followed(c, t.depth, v, u))
    && (!committed && calls.updates ==>
          after.tasks == before.tasks[t.id := t.(status := Failed, resultKey := None,
            error := Some(if calls.extracted.None? then "extraction failed" else "failed to persist results"))])
    && (!committed && !calls.updates ==> after.tasks == before.tasks)
    && (!committed ==> attempts == [])
    && after.crawlLog == before.crawlLog + Delivered(attempts, calls.delivers)
    && (ok <==> committed || calls.updates)
  }

  lemma FailureHandled(before: Tables, after: Tables, visits: map<TaskID, Visit>, t: Task, c: Config, page: Object, calls: ParseCalls, ok: bool)
    requires (calls.extracted.None? || !calls.uploads) && ok == calls.updates
    requires var reason := if calls.extracted.None? then "extraction failed" else "failed to persist results";
             after == before.(tasks := if ok then before.tasks[t.id := MarkAsFailed(t, reason)] else before.tasks)
    ensures PageHandled(before, after, visits, visits, t, c, page, calls, ok, [])
  {
    hide ChosenLinks, Followed, Committed;
    ChosenAreFollowed(c, t.depth, Visit(page, if t.finalURL.Some? && t.finalURL.value != Url("") then t.finalURL.value else t.url,
                                        calls.paginationRobots, calls.discoveryRobots));
  }

  lemma HandledAfterUpload(before: Tables, stored: Tables, after: Tables, visits: map<TaskID, Visit>, visits': map<TaskID, Visit>,
                           t: Task, c: Config, page: Object, calls: ParseCalls, ok: bool, attempts: seq<CrawlMessage>)
    requires calls.extracted.Some? && calls.uploads
    requires stored == before.(store := before.store[ResultKey(t.id) := Result(calls.extracted.value)])
    requires PageHandled(stored, after, visits, visits', t, c, page, calls, ok, attempts)
    ensures PageHandled(before, after, visits, visits', t, c, page, calls, ok, attempts)
  {
    hide ChosenLinks, Followed, Committed;
  }

  lemma InsertedFromBatch(rows: map<TaskID, Task>, ts: seq<Task>)
    requires FreshIDs(rows, ts)
    ensures forall t :: t in BulkInsert(rows, ts).1 ==> t in ts
  {
    hide BulkInsert;
    BulkInsertInserts(rows, ts);
  }
}
