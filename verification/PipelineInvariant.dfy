// What every reachable state of the pipeline satisfies, under any interleaving, redelivery,
// crash or rolled-back transaction.
module PipelineInvariant {
  import opened Options
  import opened Subsequences
  import opened PipelineModel
  import opened TaskStatuses

  // The columns that no update changes.
  predicate SameTask(a: Task, b: Task) {
    a.id == b.id && a.job == b.job && a.url == b.url && a.depth == b.depth
  }

  ghost predicate IsLinkOf(c: Config, page: Object, base: Url, url: Url) {
    url in LinkSet(c.paginated(page, base)) || url in LinkSet(c.discovered(page, base))
  }

  // A page that was fetched for the task, and a URL that was the base of its links.
  ghost predicate PageOf(s: State, id: TaskID, page: Object) { page.Page? && PageFound(id, page) in s.found }

  ghost predicate BaseOf(s: State, id: TaskID, base: Url)
    requires id in s.tasks
  {
    base == s.tasks[id].url || FinalURLFound(id, base) in s.found
  }

  // A row is a depth-0 seed of its job, or an in-scope link of a page that was fetched for a row
  // one level up, relative to that row's own or a final URL.
  ghost predicate OriginOk(s: State, t: Task)
    requires t.job in s.jobs
  {
    && t.id in s.origin
    && var c := s.jobs[t.job];
       match s.origin[t.id]
       case Seed => t.depth == 0 && t.url in c.seeds
       case Link(parent, page, base) =>
         && parent in s.tasks && s.tasks[parent].job == t.job && t.depth == s.tasks[parent].depth + 1
         && InScope(c, t.url, t.depth) && IsLinkOf(c, page, base, t.url)
         && PageOf(s, parent, page) && BaseOf(s, parent, base)
  }

  // Keys name stored objects of this very task; a parsed row was committed with its result.
  ghost predicate KeysOk(s: State, t: Task) {
    && (t.pageKey.Some? ==> t.pageKey == Some(PageKey(t.job, t.id)) && t.pageKey.value in s.store)
    && (t.resultKey.Some? ==> t.resultKey == Some(ResultKey(t.id)) && t.resultKey.value in s.store && t.id in s.committed)
    && (t.status == Parsed ==> t.resultKey.Some?)
    && (t.finalURL.Some? ==> FinalURLFound(t.id, t.finalURL.value) in s.found)
  }

  // Holds of the rows and of every copy of a row that a handler works on.
  ghost predicate RowOk(s: State, t: Task) {
    && t.id in s.tasks && SameTask(t, s.tasks[t.id])
    && t.job in s.jobs && t.depth <= s.jobs[t.job].maxDepth <= MAX_UINT64
    && OriginOk(s, t) && KeysOk(s, t)
  }

  ghost predicate ChildOk(s: State, parent: Task, v: Visit, c: Task)
    requires parent.job in s.jobs
  {
    && c == NewTask(c.id, parent.job, c.url, parent.depth + 1)
    && InScope(s.jobs[parent.job], c.url, c.depth)
    && IsLinkOf(s.jobs[parent.job], v.page, v.base, c.url)
  }

  // The visit is one of the task itself, and the children are tasks for exactly its links.
  ghost predicate ChildrenOk(s: State, t: Task, v: Visit, children: seq<Task>)
    requires t.job in s.jobs
  {
    var links := ChosenLinks(s.jobs[t.job], t.depth, v);
    && PageOf(s, t.id, v.page) && v.base == BaseURL(t)
    && (forall i :: 0 <= i < |children| ==> ChildOk(s, t, v, children[i]) && children[i].url in links)
    && (forall u :: u in links ==> exists i :: 0 <= i < |children| && children[i].url == u)
  }

  ghost predicate NamesRow(s: State, m: CrawlMessage) {
    m.task in s.tasks && s.tasks[m.task].job == m.job && s.tasks[m.task].url == m.url
  }

  // With distinct seeds, every crawl message of a job names a committed row of that job.
  ghost predicate MessageOk(s: State, m: CrawlMessage) {
    m.job in s.jobs && (Distinct(s.jobs[m.job].seeds) ==> NamesRow(s, m))
  }

  ghost predicate ParseMessageOk(s: State, m: ParseMessage) {
    m.task in s.tasks && PageKey(s.tasks[m.task].job, m.task) in s.store
  }

  ghost predicate FlightOk(s: State, flight: Flight) {
    match flight
    case Fetching(m, t, stage) =>
      && RowOk(s, t) && t.id == m.task
      && (stage != FetchLoaded ==> PageKey(t.job, t.id) in s.store && InScope(s.jobs[t.job], t.url, t.depth))
      && (stage.PageStored? ==> FinalURLFound(t.id, stage.finalURL) in s.found)
    case Parsing(t, stage) =>
      && RowOk(s, t)
      && (match stage
          case ParseLoaded => true
          case PageRead(page) => PageOf(s, t.id, page)
          case Uploaded(page) => PageOf(s, t.id, page) && ResultKey(t.id) in s.store
          case ChildrenReady(visit, children) => ResultKey(t.id) in s.store && ChildrenOk(s, t, visit, children)
          case Dispatching(todo) => forall i :: 0 <= i < |todo| ==> RowOk(s, todo[i]))
    case Recovering(stale) => forall i :: 0 <= i < |stale| ==> RowOk(s, stale[i])
    case Publishing(_, _) => true
  }

  ghost function LinksOf(s: State, id: TaskID): set<Url>
    requires id in s.committed && id in s.tasks && s.tasks[id].job in s.jobs
  {
    ChosenLinks(s.jobs[s.tasks[id].job], s.tasks[id].depth, s.committed[id])
  }

  // The last committed parse of a task worked from a page fetched for it, and every link it
  // chose has a row in its job.
  ghost predicate CommittedOk(s: State, id: TaskID) {
    && id in s.tasks && id in s.committed && s.tasks[id].job in s.jobs
    && PageOf(s, id, s.committed[id].page) && BaseOf(s, id, s.committed[id].base)
    && forall u :: u in LinksOf(s, id) ==> HasUrl(s.tasks, s.tasks[id].job, u)
  }

  // What is stored under the key of a page was fetched for that task.
  ghost predicate StoredOk(s: State, k: ObjectKey) {
    k in s.store && (k.PageKey? ==> PageOf(s, k.task, s.store[k]))
  }

  ghost predicate EventOk(s: State, r: OutboxRow) {
    r.payload.TaskEnqueued? ==> MessageOk(s, r.payload.message)
  }

  // Nothing already there disappears or changes identity.
  ghost predicate Extends(s: State, s': State) {
    && (forall j :: j in s.jobs ==> j in s'.jobs && s'.jobs[j] == s.jobs[j])
    && (forall id :: id in s.tasks ==> id in s'.tasks && SameTask(s'.tasks[id], s.tasks[id]))
    && (forall k :: k in s.store ==> k in s'.store)
    && (forall id :: id in s.tasks && id in s.origin ==> id in s'.origin && s'.origin[id] == s.origin[id])
    && s.committed.Keys <= s'.committed.Keys
    && s.found <= s'.found
  }

  lemma ExtendsTransitive(a: State, b: State, c: State)
    requires Extends(a, b) && Extends(b, c)
    ensures Extends(a, c)
  {
  }

  lemma RowStaysOk(s: State, s': State, t: Task)
    requires Extends(s, s') && RowOk(s, t)
    ensures RowOk(s', t)
  {
  }

  lemma HasUrlStays(s: State, s': State, job: JobID, url: Url)
    requires Extends(s, s') && HasUrl(s.tasks, job, url)
    ensures HasUrl(s'.tasks, job, url)
  {
  }

  lemma MessageStaysOk(s: State, s': State, m: CrawlMessage)
    requires Extends(s, s') && MessageOk(s, m)
    ensures MessageOk(s', m)
  {
  }

  lemma FlightStaysOk(s: State, s': State, flight: Flight)
    requires Extends(s, s') && FlightOk(s, flight)
    ensures FlightOk(s', flight)
  {
    match flight
    case Fetching(_, t, _) => RowStaysOk(s, s', t);
    case Parsing(t, stage) =>
      RowStaysOk(s, s', t);
      match stage {
        case Dispatching(todo) =>
          forall i | 0 <= i < |todo| ensures RowOk(s', todo[i]) { RowStaysOk(s, s', todo[i]); }
        case ChildrenReady(visit, children) =>
          assert forall i :: 0 <= i < |children| ==> ChildOk(s, t, visit, children[i]) && ChildOk(s', t, visit, children[i]);
        case _ =>
      }
    case Recovering(stale) =>
      forall i | 0 <= i < |stale| ensures RowOk(s', stale[i]) { RowStaysOk(s, s', stale[i]); }
    case Publishing(_, _) =>
  }

  // ---- the invariant ----

  ghost predicate RowsOk(s: State) { forall id :: id in s.tasks ==> s.tasks[id].id == id && RowOk(s, s.tasks[id]) }

  ghost predicate FlightsOk(s: State) { forall f :: f in s.flights ==> FlightOk(s, s.flights[f]) }

  ghost predicate LogsOk(s: State) {
    && (forall m :: m in s.crawlLog ==> MessageOk(s, m))
    && (forall m :: m in s.parseLog ==> ParseMessageOk(s, m))
    && (forall e :: e in s.outbox ==> EventOk(s, s.outbox[e]))
  }

  ghost predicate StoreOk(s: State) { forall k :: k in s.store ==> StoredOk(s, k) }

  ghost predicate CommitsOk(s: State) { forall id :: id in s.committed ==> CommittedOk(s, id) }

  // At most one row per job and URL.
  ghost predicate UniqueUrls(rows: map<TaskID, Task>) {
    forall a, b :: a in rows && b in rows && rows[a].job == rows[b].job && rows[a].url == rows[b].url ==> a == b
  }

  ghost predicate Invariant(s: State) {
    RowsOk(s) && FlightsOk(s) && LogsOk(s) && StoreOk(s) && CommitsOk(s) && UniqueUrls(s.tasks)
  }

  // A step keeps the invariant when it extends the state and what it adds or changes is right.
  ghost predicate NewRowsOk(s: State, s': State) {
    && UniqueUrls(s'.tasks)
    && forall id :: id in s'.tasks ==>
         (id in s.tasks && s'.tasks[id] == s.tasks[id]) || (s'.tasks[id].id == id && RowOk(s', s'.tasks[id]))
  }

  ghost predicate NewFlightsOk(s: State, s': State) {
    forall f :: f in s'.flights ==> (f in s.flights && s'.flights[f] == s.flights[f]) || FlightOk(s', s'.flights[f])
  }

  ghost predicate NewLogsOk(s: State, s': State) {
    && (forall m :: m in s'.crawlLog ==> m in s.crawlLog || MessageOk(s', m))
    && (forall m :: m in s'.parseLog ==> m in s.parseLog || ParseMessageOk(s', m))
    && (forall e :: e in s'.outbox ==>
          (e in s.outbox && s'.outbox[e].payload == s.outbox[e].payload) || EventOk(s', s'.outbox[e]))
  }

  ghost predicate NewCommitsOk(s: State, s': State) {
    forall id :: id in s'.committed ==>
      (id in s.committed && s'.committed[id] == s.committed[id]) || CommittedOk(s', id)
  }

  ghost predicate NewStoreOk(s: State, s': State) {
    forall k :: k in s'.store ==> (k in s.store && s'.store[k] == s.store[k]) || StoredOk(s', k)
  }

  lemma RowsExtend(s: State, s': State)
    requires RowsOk(s) && Extends(s, s') && NewRowsOk(s, s')
    ensures RowsOk(s')
  {
    forall id | id in s'.tasks ensures s'.tasks[id].id == id && RowOk(s', s'.tasks[id]) {
      if id in s.tasks && s'.tasks[id] == s.tasks[id] { RowStaysOk(s, s', s.tasks[id]); }
    }
  }

  lemma FlightsExtend(s: State, s': State)
    requires FlightsOk(s) && Extends(s, s') && NewFlightsOk(s, s')
    ensures FlightsOk(s')
  {
    forall f | f in s'.flights ensures FlightOk(s', s'.flights[f]) {
      if f in s.flights && s'.flights[f] == s.flights[f] { FlightStaysOk(s, s', s.flights[f]); }
    }
  }

  lemma LogsExtend(s: State, s': State)
    requires LogsOk(s) && Extends(s, s') && NewLogsOk(s, s')
    ensures LogsOk(s')
  {
  }

  lemma CommittedStaysOk(s: State, s': State, id: TaskID)
    requires CommittedOk(s, id) && Extends(s, s') && id in s'.committed && s'.committed[id] == s.committed[id]
    ensures CommittedOk(s', id)
  {
    hide ChosenLinks, HasUrl, OriginOk;
    assert s'.tasks[id].job == s.tasks[id].job && LinksOf(s', id) == LinksOf(s, id);
    forall u | u in LinksOf(s, id) ensures HasUrl(s'.tasks, s.tasks[id].job, u) {
      HasUrlStays(s, s', s.tasks[id].job, u);
    }
  }

  lemma CommitsExtend(s: State, s': State)
    requires CommitsOk(s) && Extends(s, s') && NewCommitsOk(s, s')
    ensures CommitsOk(s')
  {
    hide CommittedOk, Extends;
    forall id | id in s'.committed ensures CommittedOk(s', id) {
      if id in s.committed && s'.committed[id] == s.committed[id] { CommittedStaysOk(s, s', id); }
    }
  }

  lemma StoreExtends(s: State, s': State)
    requires StoreOk(s) && Extends(s, s') && NewStoreOk(s, s')
    ensures StoreOk(s')
  {
    forall k | k in s'.store ensures StoredOk(s', k) {
      if k in s.store && s'.store[k] == s.store[k] { assert StoredOk(s, k); }
    }
  }

  lemma InvariantExtends(s: State, s': State)
    requires Invariant(s) && Extends(s, s')
    requires NewRowsOk(s, s') && NewFlightsOk(s, s') && NewLogsOk(s, s') && NewCommitsOk(s, s') && NewStoreOk(s, s')
    ensures Invariant(s')
  {
    StoreExtends(s, s');
    RowsExtend(s, s');
    FlightsExtend(s, s');
    LogsExtend(s, s');
    CommitsExtend(s, s');
  }
}
