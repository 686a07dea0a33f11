// The guarantees of the crawl pipeline, over every run from the empty state.
module PipelineTheorems {
  import opened Options
  import opened Subsequences
  import opened PipelineModel
  import opened TaskStatuses
  import opened PipelineInvariant
  import opened PipelineSteps

  ghost predicate Reachable(s: State) { exists ls :: ValidRun(EMPTY, ls) && Outcome(EMPTY, ls) == s }

  lemma ReachableIsOk(s: State)
    requires Reachable(s)
    ensures Invariant(s)
  {
    var ls :| ValidRun(EMPTY, ls) && Outcome(EMPTY, ls) == s;
    InvariantAlways(EMPTY, ls);
  }

  // ---- provenance and depth ----

  // path leads, one in-scope link at a time, from a depth-0 seed of the job to the task. A hop
  // follows a link of a page that was fetched for the parent, relative to the parent's own URL
  // or to a final URL its fetch ended at.
  ghost predicate LeadsTo(s: State, path: seq<TaskID>, id: TaskID) {
    && path != [] && path[|path| - 1] == id
    && (forall i :: 0 <= i < |path| ==>
          path[i] in s.tasks && path[i] in s.origin && s.tasks[path[i]].job in s.jobs && s.tasks[path[i]].depth == i)
    && (var t := s.tasks[path[0]]; s.origin[path[0]] == Seed && t.url in s.jobs[t.job].seeds)
    && (forall i :: 0 < i < |path| ==> IsHop(s, path[i - 1], path[i]))
  }

  ghost predicate IsHop(s: State, a: TaskID, b: TaskID) {
    && a in s.tasks && b in s.tasks && b in s.origin && s.tasks[a].job == s.tasks[b].job && s.tasks[b].job in s.jobs
    && var t, c := s.tasks[b], s.jobs[s.tasks[b].job];
       && s.origin[b].Link? && s.origin[b].parent == a
       && InScope(c, t.url, t.depth)
       && IsLinkOf(c, s.origin[b].page, s.origin[b].base, t.url)
       && PageOf(s, a, s.origin[b].page) && BaseOf(s, a, s.origin[b].base)
  }

  lemma {:induction false} RowHasProvenance(s: State, id: TaskID) returns (path: seq<TaskID>)
    requires Invariant(s) && id in s.tasks
    ensures LeadsTo(s, path, id) && |path| == s.tasks[id].depth + 1
    decreases s.tasks[id].depth
  {
    hide Invariant, KeysOk;
    RowIsOk(s, id);
    match s.origin[id]
    case Seed => path := [id];
    case Link(parent, page, base) =>
      var prefix := RowHasProvenance(s, parent);
      path := prefix + [id];
      assert IsHop(s, parent, id);
      hide IsHop;
      assert forall i :: 0 <= i < |prefix| ==> path[i] == prefix[i];
  }

  // Every stored task is within the depth limit of its job and ends a chain of exactly depth
  // in-scope link hops from a seed of that job; the next depth still fits in 64 bits.
  lemma EveryTaskHasProvenance(s: State, id: TaskID)
    requires Reachable(s) && id in s.tasks
    ensures var t := s.tasks[id]; t.job in s.jobs && t.depth <= s.jobs[t.job].maxDepth
    ensures s.tasks[id].depth < s.jobs[s.tasks[id].job].maxDepth ==> s.tasks[id].depth + 1 <= MAX_UINT64
    ensures exists path :: LeadsTo(s, path, id) && |path| == s.tasks[id].depth + 1
  {
    ReachableIsOk(s);
    RowIsOk(s, id);
    var path := RowHasProvenance(s, id);
  }

  // The fetch handler of the run, for the task x is about, brought x.
  ghost predicate Brings(s: State, l: Label, x: Found) {
    l.FetchStores? && IsFetching(s, l.f)
    && var id := s.flights[l.f].task.id; x == PageFound(id, l.page) || x == FinalURLFound(id, l.finalURL)
  }

  ghost predicate BroughtIn(s: State, ls: seq<Label>, x: Found)
    requires ValidRun(s, ls)
    decreases |ls|
  {
    ls != [] && (Brings(s, ls[0], x) || BroughtIn(Apply(s, ls[0]), ls[1..], x))
  }

  // What each kind of step does to the history.
  lemma FetchHistory(s: State, l: Label, x: Found)
    requires FetchLabel(l) && Enabled(s, l)
    ensures FetchStep(s, l).committed == s.committed && (x in FetchStep(s, l).found <==> x in s.found || Brings(s, l, x))
  {
  }

  lemma OutboxHistory(s: State, l: Label)
    requires (OutboxLabel(l) || RecoveryLabel(l)) && Enabled(s, l)
    ensures Apply(s, l).committed == s.committed && Apply(s, l).found == s.found
  {
    hide Locked;
  }

  lemma ParseHistory(s: State, l: Label)
    requires ParseLabel(l) && Enabled(s, l)
    ensures !l.ParseCommits? ==> ParseStep(s, l).committed == s.committed
    ensures ParseStep(s, l).found == s.found
  {
    hide Prepares, ChosenLinks, FreshIDs, BulkInsert, InsertedOrigins;
  }

  lemma CreateJobHistory(s: State, l: Label)
    requires l.CreateJob? && Enabled(s, l)
    ensures CreateJobStep(s, l).committed == s.committed && CreateJobStep(s, l).found == s.found
  {
    hide BulkInsert, FreshIDs, SeedTasks, SeedEvents, InsertedOrigins;
  }

  lemma StepHistory(s: State, l: Label, x: Found)
    requires Enabled(s, l)
    ensures x in Apply(s, l).found <==> x in s.found || Brings(s, l, x)
    ensures !l.ParseCommits? ==> Apply(s, l).committed == s.committed
  {
    hide FetchStep, ParseStep, OutboxStep, RecoveryStep, CreateJobStep, Enabled;
    if l.CreateJob? { CreateJobHistory(s, l); }
    else if FetchLabel(l) { FetchHistory(s, l, x); }
    else if ParseLabel(l) { ParseHistory(s, l); }
    else if OutboxLabel(l) || RecoveryLabel(l) { OutboxHistory(s, l); }
  }

  // The pages and final URLs held against a task are exactly those its fetches of the run brought.
  lemma {:induction false} FoundIsWhatWasFetched(s: State, ls: seq<Label>, x: Found)
    requires ValidRun(s, ls)
    ensures x in Outcome(s, ls).found <==> x in s.found || BroughtIn(s, ls, x)
    decreases |ls|
  {
    if ls != [] {
      hide Apply, Enabled, Brings;
      StepHistory(s, ls[0], x);
      FoundIsWhatWasFetched(Apply(s, ls[0]), ls[1..], x);
    }
  }

  // ---- scope agreement ----

  // A fetch handler only ever rejects a seed, and one whose URL the scope does not admit.
  lemma OnlySeedsAreRejected(s: State, f: FlightID, reason: string)
    requires Reachable(s) && Enabled(s, FetchRejects(f, reason))
    ensures var t := s.flights[f].task;
            && t.depth == 0 && t.id in s.origin && s.origin[t.id] == Seed
            && t.job in s.jobs && t.url in s.jobs[t.job].seeds && !s.jobs[t.job].admits(t.url)
  {
    ReachableIsOk(s);
    FlightIsOk(s, f);
  }

  // ---- store before reference ----

  // Whoever is told of a task can read what it needs: a parsing message has a page stored that
  // was fetched for its task; a parsed row has its result; and its last committed parse worked
  // from a page fetched for it, and every link it chose there has a row.
  lemma ReferencesAreStored(s: State)
    requires Reachable(s)
    ensures forall m :: m in s.parseLog ==> m.task in s.tasks && PageStored(s, s.tasks[m.task].job, m.task)
    ensures forall id :: id in s.tasks && s.tasks[id].status == Parsed ==>
              && s.tasks[id].resultKey == Some(ResultKey(id)) && ResultKey(id) in s.store && CommittedOk(s, id)
  {
    ReachableIsOk(s);
    forall m | m in s.parseLog ensures m.task in s.tasks && PageStored(s, s.tasks[m.task].job, m.task) {
      assert ParseMessageOk(s, m);
      assert StoredOk(s, PageKey(s.tasks[m.task].job, m.task));
    }
    forall id | id in s.tasks && s.tasks[id].status == Parsed
      ensures s.tasks[id].resultKey == Some(ResultKey(id)) && ResultKey(id) in s.store && CommittedOk(s, id)
    {
      RowIsOk(s, id);
      assert CommittedOk(s, id);
    }
  }

  ghost predicate PageStored(s: State, job: JobID, id: TaskID) {
    PageKey(job, id) in s.store && PageOf(s, id, s.store[PageKey(job, id)])
  }

  // Every crawl message of a job with distinct seeds names a row of the table, by id, job and
  // URL, and no job ever has two rows for one URL.
  lemma MessagesNameRows(s: State, m: CrawlMessage)
    requires Reachable(s) && m in s.crawlLog
    ensures m.job in s.jobs
    ensures Distinct(s.jobs[m.job].seeds) ==> NamesRow(s, m)
    ensures UniqueUrls(s.tasks)
  {
    ReachableIsOk(s);
    assert MessageOk(s, m);
  }

  // Without distinct seeds this fails: of two equal seeds only the first gets a row, and the
  // event of the second names a task that no row has.
  lemma RepeatedSeedNamesNoRow(c: Config)
    requires c.seeds == [Url("a"), Url("a")] && c.maxDepth <= MAX_UINT64
    ensures var l := CreateJob(JobID("j"), c, [TaskID("1"), TaskID("2")], [EventID("1"), EventID("2")]);
            && Enabled(EMPTY, l)
            && var s := Apply(EMPTY, l);
               exists i :: 0 <= i < 2 && !NamesRow(s, SeedMessage(l, i)) && l.eventIDs[i] in s.outbox
                           && s.outbox[l.eventIDs[i]].payload == TaskEnqueued(SeedMessage(l, i))
  {
    hide BulkInsert, Invariant, NamesRow;
    var l := CreateJob(JobID("j"), c, [TaskID("1"), TaskID("2")], [EventID("1"), EventID("2")]);
    assert TaskID("1") != TaskID("2") && EventID("1") != EventID("2");
    assert c.seeds[0] == c.seeds[1];
    EmptyIsOk();
    SeedEventsNameRows(EMPTY, l);
    var i :| 0 <= i < 2 && !NamesRow(CreateJobStep(EMPTY, l), SeedMessage(l, i));
    SeedEventRow(l, i);
  }

  lemma EmptyIsOk()
    ensures Invariant(EMPTY)
  {
  }

  lemma SeedEventRow(l: Label, i: nat)
    requires l.CreateJob? && SeedsFresh(EMPTY, l) && i < |l.eventIDs|
    ensures var events := SeedEvents(l.job, l.config, l.taskIDs, l.eventIDs);
            l.eventIDs[i] in events && events[l.eventIDs[i]].payload == TaskEnqueued(SeedMessage(l, i))
  {
  }

  // ---- replay ----

  lemma {:induction false} NothingToInsert(rows: map<TaskID, Task>, ts: seq<Task>)
    requires forall i :: 0 <= i < |ts| ==> Present(rows, ts[i])
    ensures BulkInsert(rows, ts) == (rows, [])
  {
    if ts != [] {
      var n := |ts| - 1;
      assert forall i :: 0 <= i < n ==> ts[..n][i] == ts[i];
      NothingToInsert(rows, ts[..n]);
      assert Present(rows, ts[n]);
    }
  }

  // The same page and base, and the same answers for each of its links.
  ghost predicate SameVisit(c: Config, v: Visit, v': Visit) {
    && v.page == v'.page && v.base == v'.base
    && forall u :: IsLinkOf(c, v.page, v.base, u) ==>
         v.paginationRobots(u) == v'.paginationRobots(u) && v.discoveryRobots(u) == v'.discoveryRobots(u)
  }

  lemma SameVisitSameLinks(c: Config, depth: nat, v: Visit, v': Visit)
    requires SameVisit(c, v, v')
    ensures ChosenLinks(c, depth, v) == ChosenLinks(c, depth, v')
  {
    assert ChosenPagination(c, depth, v) == ChosenPagination(c, depth, v');
    assert ChosenDiscovered(c, depth, v) == ChosenDiscovered(c, depth, v');
  }

  // What is noted as the last committed parse of a task is the visit of the last handler that
  // committed it.
  predicate CommitsTask(s: State, l: Label, id: TaskID) {
    l.ParseCommits? && IsParsing(s, l.f) && s.flights[l.f].task.id == id
  }

  ghost predicate NeverCommits(s: State, ls: seq<Label>, id: TaskID)
    requires ValidRun(s, ls)
    decreases |ls|
  {
    ls != [] ==> !CommitsTask(s, ls[0], id) && NeverCommits(Apply(s, ls[0]), ls[1..], id)
  }

  lemma OnlyCommitsCommit(s: State, l: Label, id: TaskID)
    requires Enabled(s, l)
    ensures var s' := Apply(s, l);
            if CommitsTask(s, l, id) then id in s'.committed && s'.committed[id] == s.flights[l.f].parse.visit
            else Lookup(s'.committed, id) == Lookup(s.committed, id)
  {
    hide Apply, FreshIDs, BulkInsert, InsertedOrigins, RowParsed, Prepares, ChosenLinks;
    if l.ParseCommits? { CommitTakenApart(s, l.f); } else { StepHistory(s, l, PageFound(id, Page(""))); }
  }

  lemma {:induction false} CommittedIsLastVisit(s: State, ls: seq<Label>, id: TaskID)
    requires ValidRun(s, ls) && NeverCommits(s, ls, id)
    ensures Lookup(Outcome(s, ls).committed, id) == Lookup(s.committed, id)
    decreases |ls|
  {
    if ls != [] {
      hide Apply, Enabled, CommitsTask;
      OnlyCommitsCommit(s, ls[0], id);
      CommittedIsLastVisit(Apply(s, ls[0]), ls[1..], id);
    }
  }

  // A parse about to commit, whose page, base and robots answers are those of the last committed
  // parse of its task, inserts no row and leaves nothing to dispatch.
  lemma UnchangedPageInsertsNothing(s: State, g: FlightID)
    requires Reachable(s) && Enabled(s, ParseCommits(g))
    requires var t := s.flights[g].task;
             && t.id in s.committed && t.job in s.jobs
             && SameVisit(s.jobs[t.job], s.committed[t.id], s.flights[g].parse.visit)
    ensures SameRowsNothingDispatched(s, Apply(s, ParseCommits(g)), g)
  {
    hide Invariant, Apply, RowOk, ChosenLinks, FreshIDs;
    ReachableIsOk(s);
    FlightRowOk(s, g);
    var t := s.flights[g].task;
    RowIsInTable(s, t);
    CommitIsOk(s, t.id);
    SameVisitSameLinks(s.jobs[t.job], t.depth, s.committed[t.id], s.flights[g].parse.visit);
    ReparseCovered(s, g);
  }

  // The same at any later time: s1 is the state after a committed parse, s2 any later one,
  // whatever was committed in between.
  lemma ReparseInsertsNothing(s: State, f: FlightID, s1: State, ls: seq<Label>, s2: State, g: FlightID)
    requires Reachable(s) && Enabled(s, ParseCommits(f)) && s1 == Apply(s, ParseCommits(f))
    requires ValidRun(s1, ls) && s2 == Outcome(s1, ls)
    requires Enabled(s2, ParseCommits(g))
    requires s2.flights[g].task.id == s.flights[f].task.id && s.flights[f].task.job in s.jobs
    requires SameVisit(s.jobs[s.flights[f].task.job], s.flights[f].parse.visit, s2.flights[g].parse.visit)
    ensures SameRowsNothingDispatched(s2, Apply(s2, ParseCommits(g)), g)
  {
    hide Invariant, Extends, Apply, ChosenLinks, FreshIDs, RowOk, SameVisit, ValidRun, Outcome, SameRowsNothingDispatched;
    ReachableIsOk(s);
    StepKeeps(s, ParseCommits(f));
    InvariantAlways(s1, ls);
    CommittedLinksStay(s, f, s1, s2);
    SameRowLater(s, f, s1, s2, g);
    var t := s.flights[f].task;
    SameVisitSameLinks(s.jobs[t.job], t.depth, s.flights[f].parse.visit, s2.flights[g].parse.visit);
    ReparseCovered(s2, g);
  }

  ghost predicate SameRowsNothingDispatched(s: State, s': State, g: FlightID) {
    && s'.tasks.Keys == s.tasks.Keys
    && (forall id :: id in s.tasks ==> SameTask(s'.tasks[id], s.tasks[id]))
    && g in s'.flights && s'.flights[g].Parsing? && s'.flights[g].parse == Dispatching([])
    && s'.crawlLog == s.crawlLog
  }

  lemma SameRowLater(s: State, f: FlightID, s1: State, s2: State, g: FlightID)
    requires Invariant(s) && Extends(s, s1) && Extends(s1, s2) && Invariant(s2)
    requires IsParsing(s, f) && IsParsing(s2, g) && s2.flights[g].task.id == s.flights[f].task.id
    ensures var t, t' := s.flights[f].task, s2.flights[g].task;
            SameTask(t', t) && t.job in s.jobs && t.job in s2.jobs && s2.jobs[t.job] == s.jobs[t.job]
  {
    hide Invariant, RowOk, Extends;
    FlightRowOk(s, f);
    FlightRowOk(s2, g);
    ExtendsTransitive(s, s1, s2);
    RowStaysOk(s, s2, s.flights[f].task);
    RowIsInTable(s, s.flights[f].task);
    RowIsInTable(s2, s.flights[f].task);
    RowIsInTable(s2, s2.flights[g].task);
    JobStays(s, s2, s.flights[f].task.job);
  }

  lemma JobStays(s: State, s': State, job: JobID)
    requires Extends(s, s') && job in s.jobs
    ensures job in s'.jobs && s'.jobs[job] == s.jobs[job]
  {
  }

  lemma CommittedLinksStay(s: State, f: FlightID, s1: State, s2: State)
    requires Invariant(s) && Enabled(s, ParseCommits(f)) && s1 == Apply(s, ParseCommits(f)) && Kept(s, s1)
    requires Extends(s1, s2)
    ensures var t := s.flights[f].task;
            t.job in s.jobs
            && forall u :: u in ChosenLinks(s.jobs[t.job], t.depth, s.flights[f].parse.visit) ==> HasUrl(s2.tasks, t.job, u)
  {
    hide Invariant, Apply, FreshIDs, RowOk, HasUrl, ChosenLinks, Extends;
    var t := s.flights[f].task;
    FlightRowOk(s, f);
    RowStaysOk(s, s1, t);
    RowIsInTable(s, t);
    RowIsInTable(s1, t);
    JobStays(s, s1, t.job);
    OnlyCommitsCommit(s, ParseCommits(f), t.id);
    CommitIsOk(s1, t.id);
    forall u | u in ChosenLinks(s.jobs[t.job], t.depth, s.flights[f].parse.visit) ensures HasUrl(s2.tasks, t.job, u) {
      HasUrlStays(s1, s2, t.job, u);
    }
  }

  lemma CommitIsOk(s: State, id: TaskID)
    requires Invariant(s) && id in s.committed
    ensures CommittedOk(s, id)
  {
  }

  lemma ReparseCovered(s: State, g: FlightID)
    requires Invariant(s) && Enabled(s, ParseCommits(g))
    requires var t := s.flights[g].task;
             t.job in s.jobs
             && forall u :: u in ChosenLinks(s.jobs[t.job], t.depth, s.flights[g].parse.visit) ==> HasUrl(s.tasks, t.job, u)
    ensures SameRowsNothingDispatched(s, Apply(s, ParseCommits(g)), g)
  {
    hide Apply, InsertedOrigins, Invariant, BulkInsert, RowOk, ChildrenOk, FreshIDs, HasUrl, ChosenLinks;
    FlightIsOk(s, g);
    var t, p := s.flights[g].task, s.flights[g].parse;
    var s1 := RowParsed(s, t);
    CommitTakenApart(s, g);
    RowIsInTable(s, t);
    ReparseWrites(s, t);
    ChildrenPresent(s, s1, t, p.visit, p.children);
    NothingToInsert(s1.tasks, p.children);
  }

  lemma ReparseWrites(s: State, t: Task)
    requires RowOk(s, t)
    ensures var s1 := RowParsed(s, t);
            s1.tasks.Keys == s.tasks.Keys && forall id :: id in s.tasks ==> SameTask(s1.tasks[id], s.tasks[id])
  {
  }

  lemma ChildrenPresent(s: State, s1: State, t: Task, v: Visit, children: seq<Task>)
    requires RowOk(s, t) && ChildrenOk(s, t, v, children)
    requires forall u :: u in ChosenLinks(s.jobs[t.job], t.depth, v) ==> HasUrl(s.tasks, t.job, u)
    requires s1.tasks.Keys == s.tasks.Keys && forall id :: id in s.tasks ==> SameTask(s1.tasks[id], s.tasks[id])
    ensures forall i :: 0 <= i < |children| ==> Present(s1.tasks, children[i])
  {
    hide ChosenLinks;
    forall i | 0 <= i < |children| ensures Present(s1.tasks, children[i]) {
      assert ChildOk(s, t, v, children[i]) && HasUrl(s.tasks, t.job, children[i].url);
      var id :| id in s.tasks && s.tasks[id].job == t.job && s.tasks[id].url == children[i].url;
      assert SameTask(s1.tasks[id], s.tasks[id]);
    }
  }
}
