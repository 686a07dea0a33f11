// The crawl pipeline as a step system: the tables, the content store and the two queues, and
// the handlers in flight with the copies of the rows they have read. Handlers of any number of
// workers interleave step by step, may crash between any two steps, and may be given any
// message that was ever published, any number of times.
module PipelineModel {
  import opened Options
  import opened TaskStatuses

  datatype JobID = JobID(text: string)
  datatype TaskID = TaskID(text: string)
  datatype EventID = EventID(text: string)
  datatype FlightID = FlightID(n: nat)
  datatype Url = Url(text: string)

  // "pages/<job>/<task>.html" and "results/tasks/<task>.json".
  datatype ObjectKey = PageKey(job: JobID, task: TaskID) | ResultKey(task: TaskID)
  datatype Object = Page(html: string) | Result(json: string)

  datatype Task = Task(id: TaskID, job: JobID, url: Url, finalURL: Option<Url>, status: TaskStatus, depth: nat,
                       pageKey: Option<ObjectKey>, resultKey: Option<ObjectKey>, error: Option<string>)

  function NewTask(id: TaskID, job: JobID, url: Url, depth: nat): Task {
    Task(id, job, url, None, InProgress, depth, None, None, None)
  }

  function MarkAsFetched(t: Task, finalURL: Url, key: ObjectKey): Task {
    t.(status := Fetched, finalURL := Some(finalURL), pageKey := Some(key), error := None)
  }

  function MarkAsParsed(t: Task, key: ObjectKey): Task {
    t.(status := Parsed, resultKey := Some(key), error := None)
  }

  function MarkAsFailed(t: Task, reason: string): Task {
    t.(status := Failed, resultKey := None, error := Some(reason))
  }

  // ---- a job's configuration ----

  datatype Scheme = Http | Https | OtherScheme
  datatype Href = Href(scheme: Scheme, url: Url)
  datatype Verdict = Allowed | Disallowed | CheckFailed
  datatype CrawlMode = PaginationAndLinks | PaginationOnly | LinksOnly | Unset
  datatype Patterns = InvalidPatterns | Patterns(list: seq<Url -> bool>)

  // admits is the scope check apart from depth. paginated and discovered give the links that the
  // selectors, or all anchors, find on a page, resolved against a base; None when that fails.
  datatype Config = Config(seeds: seq<Url>, maxDepth: nat, admits: Url -> bool, patterns: Patterns,
                           respectRobots: bool, mode: CrawlMode,
                           paginated: (Object, Url) -> Option<seq<Href>>,
                           discovered: (Object, Url) -> Option<seq<Href>>)

  // What one parse works from: the page, the URL its links are relative to, and the answers of
  // the robots.txt service, which each of the two preparations asks anew.
  datatype Visit = Visit(page: Object, base: Url, paginationRobots: Url -> Verdict, discoveryRobots: Url -> Verdict)

  const MAX_UINT64: nat := 0xFFFF_FFFF_FFFF_FFFF

  predicate InScope(c: Config, url: Url, depth: nat) { depth <= c.maxDepth && c.admits(url) }

  predicate PassesPatterns(c: Config, url: Url) {
    c.patterns.Patterns? && (c.patterns.list == [] || exists i :: 0 <= i < |c.patterns.list| && c.patterns.list[i](url))
  }

  predicate PassesRobots(c: Config, robots: Url -> Verdict, url: Url) {
    c.respectRobots ==> robots(url) != Disallowed
  }

  function BaseURL(t: Task): Url {
    if t.finalURL.Some? && t.finalURL.value != Url("") then t.finalURL.value else t.url
  }

  ghost function LinkSet(hrefs: Option<seq<Href>>): set<Url> {
    if hrefs.None? then {}
    else set i | 0 <= i < |hrefs.value| && hrefs.value[i].scheme != OtherScheme :: hrefs.value[i].url
  }

  // The links of one preparation: the whole set, whatever order the source ranges over it in.
  ghost function Chosen(c: Config, depth: nat, hrefs: Option<seq<Href>>, robots: Url -> Verdict): set<Url> {
    if depth >= c.maxDepth then {}
    else set u | u in LinkSet(hrefs) && InScope(c, u, depth + 1) && PassesPatterns(c, u) && PassesRobots(c, robots, u)
  }

  ghost function ChosenPagination(c: Config, depth: nat, v: Visit): set<Url> {
    if c.mode == LinksOnly then {} else Chosen(c, depth, c.paginated(v.page, v.base), v.paginationRobots)
  }

  ghost function ChosenDiscovered(c: Config, depth: nat, v: Visit): set<Url> {
    if c.mode == PaginationOnly then {} else Chosen(c, depth, c.discovered(v.page, v.base), v.discoveryRobots)
  }

  // What both preparations find for a task of that depth on that visit of its page.
  ghost function ChosenLinks(c: Config, depth: nat, v: Visit): set<Url> {
    ChosenPagination(c, depth, v) + ChosenDiscovered(c, depth, v)
  }

  // New tasks for a set of links: each link once, one level below the parent.
  ghost predicate Prepares(ts: seq<Task>, parent: Task, urls: set<Url>) {
    && (forall i :: 0 <= i < |ts| ==> ts[i] == NewTask(ts[i].id, parent.job, ts[i].url, parent.depth + 1) && ts[i].url in urls)
    && (forall i, j :: 0 <= i < j < |ts| ==> ts[i].url != ts[j].url)
    && (forall u :: u in urls ==> exists i :: 0 <= i < |ts| && ts[i].url == u)
  }

  // ---- the task table ----

  predicate HasUrl(rows: map<TaskID, Task>, job: JobID, url: Url) {
    exists id :: id in rows && rows[id].job == job && rows[id].url == url
  }

  ghost predicate FreshIDs(rows: map<TaskID, Task>, ts: seq<Task>) {
    && (forall i :: 0 <= i < |ts| ==> ts[i].id !in rows)
    && (forall i, j :: 0 <= i < j < |ts| ==> ts[i].id != ts[j].id)
  }

  // INSERT ... ON CONFLICT (job_id, url) DO NOTHING RETURNING id.
  ghost function BulkInsert(rows: map<TaskID, Task>, ts: seq<Task>): (map<TaskID, Task>, seq<Task>) {
    if ts == [] then (rows, [])
    else
      var n := |ts| - 1;
      var (rows', inserted) := BulkInsert(rows, ts[..n]);
      if HasUrl(rows', ts[n].job, ts[n].url) then (rows', inserted)
      else (rows'[ts[n].id := ts[n]], inserted + [ts[n]])
  }

  // ---- messages, outbox, handlers in flight ----

  datatype CrawlMessage = CrawlMessage(task: TaskID, job: JobID, url: Url)
  datatype ParseMessage = ParseMessage(task: TaskID, job: JobID)

  function MessageFor(t: Task): CrawlMessage { CrawlMessage(t.id, t.job, t.url) }

  datatype Payload = TaskEnqueued(message: CrawlMessage) | Unreadable | OtherEvent

  // attempts and aborts are history: publish attempts, and aborted batches that held the event.
  datatype OutboxRow = OutboxRow(payload: Payload, processed: bool, attempts: nat, aborts: nat)

  datatype FetchStage = FetchLoaded | PageStored(finalURL: Url) | FetchSaved
  datatype ParseStage =
    | ParseLoaded
    | PageRead(page: Object)
    | Uploaded(page: Object)
    | ChildrenReady(visit: Visit, children: seq<Task>)
    | Dispatching(todo: seq<Task>)

  datatype Flight =
    | Fetching(message: CrawlMessage, task: Task, fetch: FetchStage)
    | Parsing(task: Task, parse: ParseStage)
    | Recovering(stale: seq<Task>)
    | Publishing(batch: seq<EventID>, next: nat)

  // How a row came to be: a seed, or a link of a page of its parent.
  datatype Origin = Seed | Link(parent: TaskID, page: Object, base: Url)

  // What fetching a task has ever brought: pages stored under its key, and final URLs.
  datatype Found = PageFound(task: TaskID, page: Object) | FinalURLFound(task: TaskID, url: Url)

  // crawlLog and parseLog hold every message ever published. origin, committed, parses, repeats
  // and found are history: for each task the visit of its last committed parse and the writes
  // that touched its row when it was already parsed, for each job its committed parses.
  datatype State = State(jobs: map<JobID, Config>, tasks: map<TaskID, Task>, outbox: map<EventID, OutboxRow>,
                         store: map<ObjectKey, Object>, crawlLog: seq<CrawlMessage>, parseLog: seq<ParseMessage>,
                         flights: map<FlightID, Flight>, origin: map<TaskID, Origin>,
                         committed: map<TaskID, Visit>, parses: map<JobID, nat>, repeats: map<TaskID, nat>, found: set<Found>)

  const EMPTY := State(map[], map[], map[], map[], [], [], map[], map[], map[], map[], map[], {})

  function Count<K(==)>(m: map<K, nat>, k: K): nat { if k in m then m[k] else 0 }

  datatype Label =
    | CreateJob(job: JobID, config: Config, taskIDs: seq<TaskID>, eventIDs: seq<EventID>)
    | BatchFetched(f: FlightID, batch: seq<EventID>)
    | EventPublished(f: FlightID)
    | EventSkipped(f: FlightID)
    | BatchAborted(f: FlightID, attempted: bool)
    | BatchCommitted(f: FlightID)
    | FetchLoads(f: FlightID, message: CrawlMessage)
    | FetchRejects(f: FlightID, reason: string)
    | FetchFails(f: FlightID, reason: string)
    | FetchStores(f: FlightID, page: Object, finalURL: Url)
    | FetchSaves(f: FlightID)
    | FetchPublishes(f: FlightID)
    | ParseLoads(f: FlightID, id: TaskID)
    | ParseReads(f: FlightID)
    | ParseFails(f: FlightID, reason: string)
    | ParseUploads(f: FlightID, result: Object)
    | ParsePrepares(f: FlightID, paginationRobots: Url -> Verdict, discoveryRobots: Url -> Verdict,
                    pagination: seq<Task>, discovery: seq<Task>)
    | ParseCommits(f: FlightID)
    | ParseRollsBack(f: FlightID, reason: string)
    | ParseDispatches(f: FlightID, delivered: bool)
    | RecoveryLists(f: FlightID, ids: seq<TaskID>)
    | RecoveryPublishes(f: FlightID, delivered: bool)
    | Stops(f: FlightID)

  // ---- what each step needs ----

  predicate IsFetching(s: State, f: FlightID) { f in s.flights && s.flights[f].Fetching? }
  predicate IsParsing(s: State, f: FlightID) { f in s.flights && s.flights[f].Parsing? }
  predicate IsPublishing(s: State, f: FlightID) { f in s.flights && s.flights[f].Publishing? }
  predicate IsRecovering(s: State, f: FlightID) { f in s.flights && s.flights[f].Recovering? }

  // The task's configuration, found through its job.
  predicate HasConfig(s: State, t: Task) { t.job in s.jobs }

  // Row locks (FOR UPDATE SKIP LOCKED) keep an event in one batch at a time.
  ghost predicate Locked(s: State, e: EventID) {
    exists f :: f in s.flights && s.flights[f].Publishing? && e in s.flights[f].batch
  }

  ghost predicate SeedsFresh(s: State, l: Label)
    requires l.CreateJob?
  {
    && |l.taskIDs| == |l.eventIDs| == |l.config.seeds|
    && FreshIDs(s.tasks, SeedTasks(l.job, l.config, l.taskIDs))
    && (forall i :: 0 <= i < |l.eventIDs| ==> l.eventIDs[i] !in s.outbox)
    && (forall i, j :: 0 <= i < j < |l.eventIDs| ==> l.eventIDs[i] != l.eventIDs[j])
  }

  function VisitOf(s: State, l: Label): Visit
    requires l.ParsePrepares? && IsParsing(s, l.f) && s.flights[l.f].parse.Uploaded?
  {
    Visit(s.flights[l.f].parse.page, BaseURL(s.flights[l.f].task), l.paginationRobots, l.discoveryRobots)
  }

  ghost predicate Enabled(s: State, l: Label) {
    match l
    case CreateJob(job, config, taskIDs, eventIDs) =>
      job !in s.jobs && config.maxDepth <= MAX_UINT64 && SeedsFresh(s, l)
    case BatchFetched(f, batch) =>
      && f !in s.flights
      && (forall i :: 0 <= i < |batch| ==> batch[i] in s.outbox && !s.outbox[batch[i]].processed && !Locked(s, batch[i]))
      && (forall i, j :: 0 <= i < j < |batch| ==> batch[i] != batch[j])
    case EventPublished(f) => IsPublishing(s, f) && Upcoming(s, f).Some? && Upcoming(s, f).value.payload.TaskEnqueued?
    case EventSkipped(f) => IsPublishing(s, f) && Upcoming(s, f).Some? && Upcoming(s, f).value.payload.OtherEvent?
    case BatchAborted(f, attempted) =>
      IsPublishing(s, f) && (attempted ==> Upcoming(s, f).Some? && Upcoming(s, f).value.payload.TaskEnqueued?)
    case BatchCommitted(f) => IsPublishing(s, f) && s.flights[f].next == |s.flights[f].batch|
    case FetchLoads(f, m) => f !in s.flights && m in s.crawlLog && m.task in s.tasks && HasConfig(s, s.tasks[m.task])
    case FetchRejects(f, reason) => FetchAt(s, f, FetchLoaded) && !FetchInScope(s, f)
    case FetchFails(f, reason) => FetchAt(s, f, FetchLoaded) && FetchInScope(s, f)
    case FetchStores(f, page, finalURL) => FetchAt(s, f, FetchLoaded) && FetchInScope(s, f) && page.Page?
    case FetchSaves(f) => IsFetching(s, f) && s.flights[f].fetch.PageStored?
    case FetchPublishes(f) => FetchAt(s, f, FetchSaved)
    case ParseLoads(f, id) =>
      && f !in s.flights && (exists m :: m in s.parseLog && m.task == id)
      && id in s.tasks && s.tasks[id].status != Parsed && HasConfig(s, s.tasks[id])
    case ParseReads(f) =>
      && IsParsing(s, f) && s.flights[f].parse.ParseLoaded?
      && s.flights[f].task.pageKey.Some? && s.flights[f].task.pageKey.value in s.store
    case ParseFails(f, reason) => IsParsing(s, f) && s.flights[f].parse.PageRead?
    case ParseUploads(f, result) => IsParsing(s, f) && s.flights[f].parse.PageRead? && result.Result?
    case ParsePrepares(f, _, _, pagination, discovery) =>
      && IsParsing(s, f) && s.flights[f].parse.Uploaded? && HasConfig(s, s.flights[f].task)
      && (var t, c, v := s.flights[f].task, s.jobs[s.flights[f].task.job], VisitOf(s, l);
          && Prepares(pagination, t, ChosenPagination(c, t.depth, v))
          && Prepares(discovery, t, ChosenDiscovered(c, t.depth, v)))
    case ParseCommits(f) =>
      IsParsing(s, f) && s.flights[f].parse.ChildrenReady? && FreshIDs(s.tasks, s.flights[f].parse.children)
    case ParseRollsBack(f, reason) => IsParsing(s, f) && s.flights[f].parse.ChildrenReady?
    case ParseDispatches(f, delivered) => IsParsing(s, f) && s.flights[f].parse.Dispatching? && s.flights[f].parse.todo != []
    case RecoveryLists(f, ids) =>
      f !in s.flights && forall i :: 0 <= i < |ids| ==> ids[i] in s.tasks && s.tasks[ids[i]].status == InProgress
    case RecoveryPublishes(f, delivered) => IsRecovering(s, f) && s.flights[f].stale != []
    case Stops(f) => f in s.flights && !s.flights[f].Publishing?
  }

  predicate FetchAt(s: State, f: FlightID, stage: FetchStage) {
    IsFetching(s, f) && s.flights[f].fetch == stage && HasConfig(s, s.flights[f].task)
  }

  predicate FetchInScope(s: State, f: FlightID)
    requires IsFetching(s, f) && HasConfig(s, s.flights[f].task)
  {
    var t := s.flights[f].task;
    InScope(s.jobs[t.job], t.url, t.depth)
  }

  function Upcoming(s: State, f: FlightID): Option<OutboxRow>
    requires IsPublishing(s, f)
  {
    var b := s.flights[f];
    if b.next < |b.batch| && b.batch[b.next] in s.outbox then Some(s.outbox[b.batch[b.next]]) else None
  }

  // ---- what each step does ----

  ghost function Fly(s: State, f: FlightID, flight: Flight): State { s.(flights := s.flights[f := flight]) }

  ghost function Land(s: State, f: FlightID): State { s.(flights := s.flights - {f}) }

  // UPDATE crawl_tasks: the whole row is written from the handler's copy.
  ghost function WriteRow(s: State, t: Task): State {
    s.(tasks := s.tasks[t.id := t], repeats := RepeatsAfter(s.tasks, s.repeats, t.id))
  }

  // A write counts when the row was already parsed.
  ghost function RepeatsAfter(rows: map<TaskID, Task>, repeats: map<TaskID, nat>, id: TaskID): map<TaskID, nat> {
    if id in rows && rows[id].status == Parsed then repeats[id := Count(repeats, id) + 1] else repeats
  }

  ghost function SeedTasks(job: JobID, config: Config, ids: seq<TaskID>): seq<Task>
    requires |ids| == |config.seeds|
  {
    seq(|ids|, i requires 0 <= i < |ids| => NewTask(ids[i], job, config.seeds[i], 0))
  }

  ghost function SeedEvents(job: JobID, config: Config, ids: seq<TaskID>, eventIDs: seq<EventID>): map<EventID, OutboxRow>
    requires |ids| == |eventIDs| == |config.seeds|
    requires forall i, j :: 0 <= i < j < |eventIDs| ==> eventIDs[i] != eventIDs[j]
  {
    map e | e in eventIDs ::
      var i :| 0 <= i < |eventIDs| && eventIDs[i] == e;
      OutboxRow(TaskEnqueued(CrawlMessage(ids[i], job, config.seeds[i])), false, 0, 0)
  }

  ghost function InsertedOrigins(origin: map<TaskID, Origin>, inserted: seq<Task>, o: Origin): map<TaskID, Origin> {
    origin + map i | 0 <= i < |inserted| :: inserted[i].id := o
  }

  ghost function CreateJobStep(s: State, l: Label): State
    requires l.CreateJob? && SeedsFresh(s, l)
  {
    var (rows, inserted) := BulkInsert(s.tasks, SeedTasks(l.job, l.config, l.taskIDs));
    s.(jobs := s.jobs[l.job := l.config], tasks := rows,
       outbox := s.outbox + SeedEvents(l.job, l.config, l.taskIDs, l.eventIDs),
       origin := InsertedOrigins(s.origin, inserted, Seed))
  }

  ghost function CommitStep(s: State, f: FlightID): State
    requires IsParsing(s, f) && s.flights[f].parse.ChildrenReady?
  {
    var t, p := s.flights[f].task, s.flights[f].parse;
    var s1 := WriteRow(s, MarkAsParsed(t, ResultKey(t.id)));
    var (rows, inserted) := BulkInsert(s1.tasks, p.children);
    s1.(tasks := rows,
        origin := InsertedOrigins(s.origin, inserted, Link(t.id, p.visit.page, p.visit.base)),
        committed := s.committed[t.id := p.visit],
        parses := s.parses[t.job := Count(s.parses, t.job) + 1],
        flights := s.flights[f := Parsing(t, Dispatching(inserted))])
  }

  ghost function AbortStep(s: State, f: FlightID, attempted: bool): State
    requires IsPublishing(s, f)
  {
    var b := s.flights[f];
    Land(s, f).(outbox := map e | e in s.outbox ::
      var r := s.outbox[e];
      if e !in b.batch then r
      else r.(aborts := r.aborts + 1,
              attempts := if attempted && b.next < |b.batch| && e == b.batch[b.next] then r.attempts + 1 else r.attempts))
  }

  predicate OutboxLabel(l: Label) {
    l.BatchFetched? || l.EventPublished? || l.EventSkipped? || l.BatchAborted? || l.BatchCommitted?
  }

  predicate FetchLabel(l: Label) {
    l.FetchLoads? || l.FetchRejects? || l.FetchFails? || l.FetchStores? || l.FetchSaves? || l.FetchPublishes?
  }

  predicate ParseLabel(l: Label) {
    l.ParseLoads? || l.ParseReads? || l.ParseFails? || l.ParseUploads? || l.ParsePrepares? || l.ParseCommits? || l.ParseRollsBack? || l.ParseDispatches?
  }

  predicate RecoveryLabel(l: Label) {
    l.RecoveryLists? || l.RecoveryPublishes?
  }

  ghost function OutboxStep(s: State, l: Label): State
    requires OutboxLabel(l) && Enabled(s, l)
  {
    match l
    case BatchFetched(f, batch) => Fly(s, f, Publishing(batch, 0))
    case EventPublished(f) =>
      var b := s.flights[f];
      var e := b.batch[b.next];
      var r := s.outbox[e];
      Fly(s, f, b.(next := b.next + 1)).(outbox := s.outbox[e := r.(attempts := r.attempts + 1)],
                                         crawlLog := s.crawlLog + [r.payload.message])
    case EventSkipped(f) => Fly(s, f, s.flights[f].(next := s.flights[f].next + 1))
    case BatchAborted(f, attempted) => AbortStep(s, f, attempted)
    case BatchCommitted(f) =>
      Land(s, f).(outbox := map e | e in s.outbox ::
        if e in s.flights[f].batch then s.outbox[e].(processed := true) else s.outbox[e])
  }

  ghost function FetchStep(s: State, l: Label): State
    requires FetchLabel(l) && Enabled(s, l)
  {
    match l
    case FetchLoads(f, m) => Fly(s, f, Fetching(m, s.tasks[m.task], FetchLoaded))
    case FetchRejects(f, reason) => Land(WriteRow(s, MarkAsFailed(s.flights[f].task, reason)), f)
    case FetchFails(f, reason) => Land(WriteRow(s, MarkAsFailed(s.flights[f].task, reason)), f)
    case FetchStores(f, page, finalURL) =>
      var t := s.flights[f].task;
      Fly(s, f, s.flights[f].(fetch := PageStored(finalURL))).(
        store := s.store[PageKey(t.job, t.id) := page],
        found := s.found + {PageFound(t.id, page), FinalURLFound(t.id, finalURL)})
    case FetchSaves(f) =>
      var t := s.flights[f].task;
      Fly(WriteRow(s, MarkAsFetched(t, s.flights[f].fetch.finalURL, PageKey(t.job, t.id))), f, s.flights[f].(fetch := FetchSaved))
    case FetchPublishes(f) =>
      Land(s, f).(parseLog := s.parseLog + [ParseMessage(s.flights[f].message.task, s.flights[f].message.job)])
  }

  ghost function ParseStep(s: State, l: Label): State
    requires ParseLabel(l) && Enabled(s, l)
  {
    match l
    case ParseLoads(f, id) => Fly(s, f, Parsing(s.tasks[id], ParseLoaded))
    case ParseReads(f) => Fly(s, f, s.flights[f].(parse := PageRead(s.store[s.flights[f].task.pageKey.value])))
    case ParseFails(f, reason) => Land(WriteRow(s, MarkAsFailed(s.flights[f].task, reason)), f)
    case ParseUploads(f, result) =>
      Fly(s, f, s.flights[f].(parse := Uploaded(s.flights[f].parse.page))).(store := s.store[ResultKey(s.flights[f].task.id) := result])
    case ParsePrepares(f, _, _, pagination, discovery) =>
      Fly(s, f, Parsing(s.flights[f].task, ChildrenReady(VisitOf(s, l), pagination + discovery)))
    case ParseCommits(f) => CommitStep(s, f)
    case ParseRollsBack(f, reason) =>
      Land(WriteRow(s, MarkAsFailed(s.flights[f].task, reason)), f)
    case ParseDispatches(f, delivered) =>
      var todo := s.flights[f].parse.todo;
      Fly(s, f, Parsing(s.flights[f].task, Dispatching(todo[1..]))).(crawlLog := if delivered then s.crawlLog + [MessageFor(todo[0])] else s.crawlLog)
  }

  ghost function RecoveryStep(s: State, l: Label): State
    requires RecoveryLabel(l) && Enabled(s, l)
  {
    match l
    case RecoveryLists(f, ids) => Fly(s, f, Recovering(seq(|ids|, i requires 0 <= i < |ids| => s.tasks[ids[i]])))
    case RecoveryPublishes(f, delivered) =>
      var todo := s.flights[f].stale;
      Fly(s, f, Recovering(todo[1..])).(crawlLog := if delivered then s.crawlLog + [MessageFor(todo[0])] else s.crawlLog)
  }

  ghost function Apply(s: State, l: Label): State
    requires Enabled(s, l)
  {
    if l.CreateJob? then CreateJobStep(s, l)
    else if OutboxLabel(l) then OutboxStep(s, l)
    else if FetchLabel(l) then FetchStep(s, l)
    else if ParseLabel(l) then ParseStep(s, l)
    else if RecoveryLabel(l) then RecoveryStep(s, l)
    else Land(s, l.f)
  }

  ghost predicate ValidRun(s: State, ls: seq<Label>)
    decreases |ls|
  {
    ls != [] ==> Enabled(s, ls[0]) && ValidRun(Apply(s, ls[0]), ls[1..])
  }

  ghost function Outcome(s: State, ls: seq<Label>): State
    requires ValidRun(s, ls)
    decreases |ls|
  {
    if ls == [] then s else Outcome(Apply(s, ls[0]), ls[1..])
  }
}
