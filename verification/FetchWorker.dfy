// The fetch handler: scope, robots, host and rate limit, fetch, then store, update, publish.
module FetchWorkers {
  import opened Options
  import opened PipelineModel
  import opened TaskStatuses
  import opened Handlers

  datatype RateCheck = RateError | Limited | Granted
  datatype FetchResult = Got(page: Object, finalURL: Url) | FetchError(text: string, permanent: bool, exhausted: bool)

  // What the handler's calls come back with.
  datatype FetchCalls = FetchCalls(loads: bool, robots: Verdict, hasHost: bool, first: RateCheck, second: RateCheck,
                                   result: FetchResult, stores: bool, updates: bool, publishes: bool)

  predicate Known(jobs: map<JobID, Config>, tasks: map<TaskID, Task>, id: TaskID) {
    id in tasks && tasks[id].job in jobs
  }

  // The guards let the handler fetch, and the fetch brings a page.
  predicate Fetches(c: Config, t: Task, calls: FetchCalls) {
    && t.depth <= c.maxDepth && c.admits(t.url)
    && (c.respectRobots ==> calls.robots == Allowed || calls.robots == CheckFailed)
    && calls.hasHost && (calls.first == Granted || (calls.first == Limited && calls.second == Granted))
    && calls.result.Got?
  }

  lemma LoadingFetch(s: State, f: FlightID, m: CrawlMessage)
    requires f !in s.flights && m in s.crawlLog && m.task in s.tasks && s.tasks[m.task].job in s.jobs
    ensures Enabled(s, FetchLoads(f, m)) && Apply(s, FetchLoads(f, m)) == Fly(s, f, Fetching(m, s.tasks[m.task], FetchLoaded))
  {
  }

  lemma FailingFetch(s: State, f: FlightID, reason: string)
    requires FetchAt(s, f, FetchLoaded)
    ensures var t := s.flights[f].task;
            var l := if FetchInScope(s, f) then FetchFails(f, reason) else FetchRejects(f, reason);
            && Enabled(s, l)
            && TablesOf(Apply(s, l)) == TablesOf(s).(tasks := s.tasks[t.id := MarkAsFailed(t, reason)])
            && Apply(s, l).flights == s.flights - {f}
  {
  }

  lemma StoringFetch(s: State, f: FlightID, page: Object, finalURL: Url)
    requires FetchAt(s, f, FetchLoaded) && FetchInScope(s, f) && page.Page?
    ensures var t := s.flights[f].task;
            var l := FetchStores(f, page, finalURL);
            && Enabled(s, l)
            && TablesOf(Apply(s, l)) == TablesOf(s).(store := s.store[PageKey(t.job, t.id) := page])
            && Apply(s, l).flights == s.flights[f := s.flights[f].(fetch := PageStored(finalURL))]
  {
  }

  lemma SavingFetch(s: State, f: FlightID)
    requires IsFetching(s, f) && s.flights[f].fetch.PageStored?
    ensures var t := s.flights[f].task;
            var l := FetchSaves(f);
            && Enabled(s, l)
            && TablesOf(Apply(s, l)) == TablesOf(s).(
                 tasks := s.tasks[t.id := MarkAsFetched(t, s.flights[f].fetch.finalURL, PageKey(t.job, t.id))])
            && Apply(s, l).flights == s.flights[f := s.flights[f].(fetch := FetchSaved)]
  {
  }

  lemma PublishingFetch(s: State, f: FlightID)
    requires FetchAt(s, f, FetchSaved)
    ensures var m := s.flights[f].message;
            var l := FetchPublishes(f);
            && Enabled(s, l)
            && TablesOf(Apply(s, l)) == TablesOf(s).(parseLog := s.parseLog + [ParseMessage(m.task, m.job)])
            && Apply(s, l).flights == s.flights - {f}
  {
  }

  lemma Stopping(s: State, f: FlightID)
    requires f in s.flights && !s.flights[f].Publishing?
    ensures Enabled(s, Stops(f)) && TablesOf(Apply(s, Stops(f))) == TablesOf(s)
    ensures Apply(s, Stops(f)).flights == s.flights - {f} && Apply(s, Stops(f)).committed == s.committed
  {
  }

  class FetchWorker {
    const world: World

    constructor (world: World)
      ensures this.world == world
    {
      this.world := world;
    }

    method FailTask(t: Task, reason: string, updates: bool, ghost f: FlightID) returns (ok: bool)
      requires world.Valid() && FetchAt(world.Abs(), f, FetchLoaded) && world.flights[f].task == t
      modifies world
      ensures world.Valid() && old(world.trace) <= world.trace && world.flights == old(world.flights) - {f}
      ensures ok == updates
      ensures world.AbsTables() == old(world.AbsTables()).(tasks :=
                if ok then old(world.tasks)[t.id := MarkAsFailed(t, reason)] else old(world.tasks))
    {
      hide Apply, Enabled;
      if updates {
        FailingFetch(world.Abs(), f, reason);
        ghost var l := if FetchInScope(world.Abs(), f) then FetchFails(f, reason) else FetchRejects(f, reason);
        world.UpdateTask(MarkAsFailed(t, reason), l);
      } else {
        Stopping(world.Abs(), f);
        world.Goes(Stops(f));
      }
      ok := updates;
    }

    method GiveBack(ghost f: FlightID) returns (ok: bool)
      requires world.Valid() && f in world.flights && !world.flights[f].Publishing?
      modifies world
      ensures world.Valid() && old(world.trace) <= world.trace && world.flights == old(world.flights) - {f}
      ensures !ok && world.AbsTables() == old(world.AbsTables())
    {
      hide Apply, Enabled;
      Stopping(world.Abs(), f);
      world.Goes(Stops(f));
      ok := false;
    }

    // The page is stored: save the row, and only then publish.
    method SaveRow(m: CrawlMessage, t: Task, calls: FetchCalls, ghost f: FlightID) returns (ok: bool)
      requires world.Valid() && calls.result.Got? && t.job in world.jobs
      requires f in world.flights && world.flights[f] == Fetching(m, t, PageStored(calls.result.finalURL))
      modifies world
      ensures world.Valid() && old(world.trace) <= world.trace && world.flights == old(world.flights) - {f}
      ensures ok == (calls.updates && calls.publishes)
      ensures world.AbsTables() == old(world.AbsTables()).(
                tasks := if calls.updates
                         then old(world.tasks)[t.id := MarkAsFetched(t, calls.result.finalURL, PageKey(t.job, t.id))]
                         else old(world.tasks),
                parseLog := if ok then old(world.parseQueue) + [ParseMessage(m.task, m.job)] else old(world.parseQueue))
    {
      hide Apply, Enabled, ValidRun, Outcome;
      if !calls.updates {
        ok := GiveBack(f);
        return;
      }
      SavingFetch(world.Abs(), f);
      world.UpdateTask(MarkAsFetched(t, calls.result.finalURL, PageKey(t.job, t.id)), FetchSaves(f));
      if !calls.publishes {
        ok := GiveBack(f);
        return;
      }
      PublishingFetch(world.Abs(), f);
      world.PublishParse(ParseMessage(m.task, m.job), FetchPublishes(f));
      ok := true;
    }

    // Store the page, then save the row, and only then publish.
    method SavePage(m: CrawlMessage, t: Task, calls: FetchCalls, ghost f: FlightID) returns (ok: bool)
      requires world.Valid() && FetchAt(world.Abs(), f, FetchLoaded) && FetchInScope(world.Abs(), f)
      requires world.flights[f].task == t && world.flights[f].message == m && calls.result.Got? && calls.result.page.Page?
      modifies world
      ensures world.Valid() && old(world.trace) <= world.trace && world.flights == old(world.flights) - {f}
      ensures ok == (calls.stores && calls.updates && calls.publishes)
      ensures var key := PageKey(t.job, t.id);
              world.AbsTables() == old(world.AbsTables()).(
                store := if calls.stores then old(world.store)[key := calls.result.page] else old(world.store),
                tasks := if calls.stores && calls.updates
                         then old(world.tasks)[t.id := MarkAsFetched(t, calls.result.finalURL, key)] else old(world.tasks),
                parseLog := if ok then old(world.parseQueue) + [ParseMessage(m.task, m.job)] else old(world.parseQueue))
    {
      hide Apply, Enabled, ValidRun, Outcome, MarkAsFetched;
      if !calls.stores {
        ok := GiveBack(f);
        return;
      }
      StoringFetch(world.Abs(), f, calls.result.page, calls.result.finalURL);
      world.StoreObject(PageKey(t.job, t.id), calls.result.page, FetchStores(f, calls.result.page, calls.result.finalURL));
      ok := SaveRow(m, t, calls, f);
    }

    // ok acknowledges the message; otherwise it is delivered again.
    method HandleMessage(m: CrawlMessage, calls: FetchCalls, ghost f: FlightID) returns (ok: bool)
      requires world.Valid() && m in world.crawlQueue && f !in world.flights
      requires calls.result.Got? ==> calls.result.page.Page?
      modifies world
      ensures world.Valid() && old(world.trace) <= world.trace && world.flights == old(world.flights)
      ensures !calls.loads || !Known(old(world.jobs), old(world.tasks), m.task) ==>
                ok == calls.loads && world.AbsTables() == old(world.AbsTables())
      ensures calls.loads && Known(old(world.jobs), old(world.tasks), m.task) ==>
                Handled(old(world.AbsTables()), world.AbsTables(), m, calls, ok)
    {
      hide Apply, Enabled;
      if !calls.loads {
        return false;
      }
      if m.task !in world.tasks || world.tasks[m.task].job !in world.jobs {
        return true;
      }
      world.RowsAreKeyed(m.task);
      LoadingFetch(world.Abs(), f, m);
      var t := world.tasks[m.task];
      world.Goes(FetchLoads(f, m));
      ok := HandleTask(m, t, world.jobs[t.job], calls, f);
    }

    method HandleTask(m: CrawlMessage, t: Task, c: Config, calls: FetchCalls, ghost f: FlightID) returns (ok: bool)
      requires world.Valid() && f in world.flights && world.flights[f] == Fetching(m, t, FetchLoaded)
      requires Known(world.jobs, world.tasks, m.task) && world.tasks[m.task] == t && t.id == m.task && world.jobs[t.job] == c
      requires calls.result.Got? ==> calls.result.page.Page?
      modifies world
      ensures world.Valid() && old(world.trace) <= world.trace && world.flights == old(world.flights) - {f}
      ensures Handled(old(world.AbsTables()), world.AbsTables(), m, calls, ok)
    {
      hide Apply, Enabled, ValidRun, Outcome;
      if !InScope(c, t.url, t.depth) {
        ok := FailTask(t, "scope validation failed", calls.updates, f);
        return;
      }
      if c.respectRobots && calls.robots == Disallowed {
        ok := FailTask(t, "URL disallowed by robots.txt", calls.updates, f);
        return;
      }
      if !calls.hasHost || calls.first.RateError? || (calls.first.Limited? && !calls.second.Granted?) {
        ok := GiveBack(f);
        return;
      }
      match calls.result {
        case FetchError(text, permanent, exhausted) =>
          if permanent || exhausted {
            ok := FailTask(t, "fetch failed: " + text, calls.updates, f);
          } else {
            ok := GiveBack(f);
          }
        case Got(_, _) => ok := SavePage(m, t, calls, f);
      }
    }
  }

  // One delivery, seen from outside. A task out of scope, or one that robots.txt disallows for a
  // job that respects it, fails without a fetch; without a host or the permission of the rate
  // limiter, asked at most twice, everything is left to a redelivery. A fetch that failed for
  // good fails the task. A page is stored, then the row saved, then the parsing message
  // published, each only when all before it worked.
  ghost predicate Handled(before: Tables, after: Tables, m: CrawlMessage, calls: FetchCalls, ok: bool)
    requires Known(before.jobs, before.tasks, m.task)
  {
    var t := before.tasks[m.task];
    var c := before.jobs[t.job];
    && t.id == m.task
    && if t.depth > c.maxDepth || !c.admits(t.url) then
         FailedFor("scope validation failed", before, after, t, calls.updates, ok)
       else if c.respectRobots && calls.robots == Disallowed then
         FailedFor("URL disallowed by robots.txt", before, after, t, calls.updates, ok)
       else if !calls.hasHost || calls.first == RateError || (calls.first == Limited && calls.second != Granted) then
         !ok && after == before
       else
         match calls.result
         case FetchError(text, permanent, exhausted) =>
           if permanent || exhausted then FailedFor("fetch failed: " + text, before, after, t, calls.updates, ok)
           else !ok && after == before
         case Got(page, finalURL) => Saved(page, finalURL, before, after, t, m, calls, ok)
  }

  // The row is failed for that reason and nothing else changes; without the update, nothing does.
  ghost predicate FailedFor(reason: string, before: Tables, after: Tables, t: Task, updates: bool, ok: bool) {
    && ok == updates
    && after == before.(tasks :=
         if updates then before.tasks[t.id := t.(status := Failed, resultKey := None, error := Some(reason))] else before.tasks)
  }

  ghost predicate Saved(page: Object, finalURL: Url, before: Tables, after: Tables, t: Task, m: CrawlMessage, calls: FetchCalls, ok: bool) {
    var key := PageKey(t.job, t.id);
    && ok == (calls.stores && calls.updates && calls.publishes)
    && after == before.(
         store := if calls.stores then before.store[key := page] else before.store,
         tasks := if calls.stores && calls.updates
                  then before.tasks[t.id := t.(status := Fetched, finalURL := Some(finalURL), pageKey := Some(key), error := None)]
                  else before.tasks,
         parseLog := if ok then before.parseLog + [ParseMessage(m.task, m.job)] else before.parseLog)
  }
}
