// A duplicate crawl message, handled end to end after the task was already parsed.
module Replay {
  import opened Options
  import opened PipelineModel
  import opened TaskStatuses
  import opened PipelineInvariant
  import opened PipelineSteps
  import opened PipelineTheorems
  import opened Handlers
  import opened FetchWorkers
  import opened ParserWorkers

  // Same rows, each with the job, URL and depth it had.
  ghost predicate SameRows(before: map<TaskID, Task>, after: map<TaskID, Task>) {
    after.Keys == before.Keys && forall id :: id in before ==> SameTask(after[id], before[id])
  }

  lemma CommittedIsOk(w: World, id: TaskID)
    requires w.Valid() && id in w.committed
    ensures CommittedOk(w.Abs(), id)
  {
    hide Apply, Enabled, Invariant, CommittedOk;
    InvariantAlways(EMPTY, w.trace);
    CommitIsOk(w.Abs(), id);
  }

  lemma RefetchedRowsStay(rows: map<TaskID, Task>, t: Task, finalURL: Url, key: ObjectKey)
    requires t.id in rows && rows[t.id] == t
    ensures var rows' := rows[t.id := MarkAsFetched(t, finalURL, key)];
            SameRows(rows, rows') && forall job, url :: HasUrl(rows, job, url) ==> HasUrl(rows', job, url)
  {
  }

  lemma CommitAddsNothing(before: map<TaskID, Task>, after: map<TaskID, Task>, t: Task, links: set<Url>, attempts: seq<CrawlMessage>)
    requires Committed(before, after, t, links, attempts) && t.id in before && before[t.id] == t
    requires forall u :: u in links ==> HasUrl(before, t.job, u)
    ensures attempts == [] && SameRows(before, after)
  {
    assert forall id :: id in after ==> id in before;
    assert !(|attempts| > 0 && attempts[0].task !in before);
  }

  function VisitFor(t: Task, page: Object, calls: ParseCalls): Visit {
    Visit(page, if t.finalURL.Some? && t.finalURL.value != Url("") then t.finalURL.value else t.url,
          calls.paginationRobots, calls.discoveryRobots)
  }

  lemma ReparseAddsNothing(before: Tables, after: Tables, visits: map<TaskID, Visit>, visits': map<TaskID, Visit>, t: Task, last: Visit, calls: ParseCalls, ok: bool, attempts: seq<CrawlMessage>)
    requires t.job in before.jobs && t.id in before.tasks && before.tasks[t.id] == t
    requires ParseHandled(before, after, visits, visits', t, calls, ok, attempts)
    requires t.pageKey.Some? && t.pageKey.value in before.store
    requires SameVisit(before.jobs[t.job], last, VisitFor(t, before.store[t.pageKey.value], calls))
    requires forall u :: u in ChosenLinks(before.jobs[t.job], t.depth, last) ==> HasUrl(before.tasks, t.job, u)
    ensures attempts == [] && after.crawlLog == before.crawlLog && SameRows(before.tasks, after.tasks)
    ensures ok && calls.extracted.Some? && calls.uploads && calls.commits ==> after.tasks[t.id].status == Parsed
  {
    hide ChosenLinks, HasUrl, SameVisit;
    var v := VisitFor(t, before.store[t.pageKey.value], calls);
    SameVisitSameLinks(before.jobs[t.job], t.depth, last, v);
    if Readable(before.store, t, calls) && calls.extracted.Some? && calls.uploads && calls.commits {
      CommitAddsNothing(before.tasks, after.tasks, t, ChosenLinks(before.jobs[t.job], t.depth, v), attempts);
    }
  }

  // The task of the duplicate was parsed before. Fetching brings the page of its last committed
  // parse again, ending at the same base URL, and robots.txt answers as it did then for the links
  // of that page. Fetching and parsing take the row from Parsed to Fetched and back, but add no
  // row and publish no crawl message.
  method ReplayDuplicate(fetcher: FetchWorker, parser: ParserWorker, m: CrawlMessage, fetchCalls: FetchCalls, parseCalls: ParseCalls, ghost f: FlightID)
    returns (ok: bool)
    requires fetcher.world == parser.world && fetcher.world.Valid()
    requires m in fetcher.world.crawlQueue && f !in fetcher.world.flights && NewIDs(fetcher.world.tasks, parseCalls.newID)
    requires m.task in fetcher.world.committed && Known(fetcher.world.jobs, fetcher.world.tasks, m.task)
    requires fetchCalls.result.Got? && fetchCalls.result.page.Page?
    requires var t := fetcher.world.tasks[m.task];
             var c := fetcher.world.jobs[t.job];
             var fetched := MarkAsFetched(t, fetchCalls.result.finalURL, PageKey(t.job, t.id));
             && Fetches(c, t, fetchCalls) && fetchCalls.loads && fetchCalls.stores && fetchCalls.updates && fetchCalls.publishes
             && SameVisit(c, fetcher.world.committed[m.task], VisitFor(fetched, fetchCalls.result.page, parseCalls))
    modifies fetcher.world
    ensures fetcher.world.Valid() && old(fetcher.world.trace) <= fetcher.world.trace
    ensures fetcher.world.crawlQueue == old(fetcher.world.crawlQueue)
    ensures SameRows(old(fetcher.world.tasks), fetcher.world.tasks)
    ensures ok && parseCalls.extracted.Some? && parseCalls.uploads && parseCalls.commits ==>
              fetcher.world.tasks[m.task].status == Parsed
  {
    hide ChosenLinks, HasUrl, ValidRun, Outcome, ParseHandled, PageHandled, SameVisit;
    var world := fetcher.world;
    var t := world.tasks[m.task];
    ghost var last := world.committed[m.task];
    world.RowsAreKeyed(m.task);
    CommittedIsOk(world, m.task);
    RefetchedRowsStay(world.tasks, t, fetchCalls.result.finalURL, PageKey(t.job, t.id));
    var fetched := fetcher.HandleMessage(m, fetchCalls, f);
    var t' := world.tasks[m.task];
    ghost var before, visits := world.AbsTables(), world.committed;
    assert t' == MarkAsFetched(t, fetchCalls.result.finalURL, PageKey(t.job, t.id));
    var parsed, attempts := parser.HandleMessage(ParseMessage(m.task, m.job), parseCalls, f);
    if parseCalls.loads {
      ReparseAddsNothing(before, world.AbsTables(), visits, world.committed, t', last, parseCalls, parsed, attempts);
    }
    ok := parsed && parseCalls.loads;
  }
}
