// Every step of the pipeline keeps the invariant.
module PipelineSteps {
  import opened Options
  import opened Subsequences
  import opened PipelineModel
  import opened TaskStatuses
  import opened PipelineInvariant

  // ---- the primitive changes ----

  lemma FlyKeeps(s: State, f: FlightID, flight: Flight)
    requires Invariant(s) && FlightOk(s, flight)
    ensures Invariant(Fly(s, f, flight)) && Extends(s, Fly(s, f, flight))
  {
    FlightStaysOk(s, Fly(s, f, flight), flight);
    InvariantExtends(s, Fly(s, f, flight));
  }

  lemma LandKeeps(s: State, f: FlightID)
    requires Invariant(s)
    ensures Invariant(Land(s, f)) && Extends(s, Land(s, f))
  {
    InvariantExtends(s, Land(s, f));
  }

  lemma WriteRowKeeps(s: State, t: Task)
    requires Invariant(s) && RowOk(s, t)
    ensures Invariant(WriteRow(s, t)) && Extends(s, WriteRow(s, t)) && RowOk(WriteRow(s, t), t)
  {
    hide FlightOk, MessageOk, ParseMessageOk, EventOk, CommittedOk, OriginOk, KeysOk;
    var s' := WriteRow(s, t);
    assert Extends(s, s');
    RowStaysOk(s, s', t);
    UniqueStays(s.tasks, s'.tasks);
    InvariantExtends(s, s');
  }

  lemma UniqueStays(rows: map<TaskID, Task>, rows': map<TaskID, Task>)
    requires UniqueUrls(rows) && rows.Keys == rows'.Keys
    requires forall id :: id in rows ==> SameTask(rows'[id], rows[id])
    ensures UniqueUrls(rows')
  {
  }

  // An object is stored, and for a page it is noted what the fetch has brought.
  lemma StoreKeeps(s: State, key: ObjectKey, o: Object, found: set<Found>)
    requires Invariant(s) && (key.PageKey? ==> o.Page? && PageFound(key.task, o) in s.found + found)
    ensures var s' := s.(store := s.store[key := o], found := s.found + found); Invariant(s') && Extends(s, s')
  {
    hide RowOk, FlightOk, CommittedOk, MessageOk, ParseMessageOk, EventOk, UniqueUrls;
    InvariantExtends(s, s.(store := s.store[key := o], found := s.found + found));
  }

  lemma CrawlLogKeeps(s: State, m: CrawlMessage)
    requires Invariant(s) && MessageOk(s, m)
    ensures var s' := s.(crawlLog := s.crawlLog + [m]); Invariant(s') && Extends(s, s')
  {
    MessageStaysOk(s, s.(crawlLog := s.crawlLog + [m]), m);
    InvariantExtends(s, s.(crawlLog := s.crawlLog + [m]));
  }

  lemma ParseLogKeeps(s: State, m: ParseMessage)
    requires Invariant(s) && ParseMessageOk(s, m)
    ensures var s' := s.(parseLog := s.parseLog + [m]); Invariant(s') && Extends(s, s')
  {
    InvariantExtends(s, s.(parseLog := s.parseLog + [m]));
  }

  lemma OutboxKeeps(s: State, outbox: map<EventID, OutboxRow>)
    requires Invariant(s) && outbox.Keys == s.outbox.Keys
    requires forall e :: e in outbox ==> outbox[e].payload == s.outbox[e].payload
    ensures Invariant(s.(outbox := outbox)) && Extends(s, s.(outbox := outbox))
  {
    InvariantExtends(s, s.(outbox := outbox));
  }

  lemma FlightIsOk(s: State, f: FlightID)
    requires Invariant(s) && f in s.flights
    ensures FlightOk(s, s.flights[f])
  {
  }

  lemma RowIsOk(s: State, id: TaskID)
    requires Invariant(s) && id in s.tasks
    ensures RowOk(s, s.tasks[id]) && s.tasks[id].id == id
  {
  }

  // The steps below use the primitive changes only through their contracts.
  ghost predicate Kept(s: State, s': State) { Invariant(s') && Extends(s, s') }

  lemma KeptTwice(a: State, b: State, c: State)
    requires Kept(a, b) && Kept(b, c)
    ensures Kept(a, c)
  {
    ExtendsTransitive(a, b, c);
  }

  // ---- outbox batches ----

  lemma EventIsOk(s: State, e: EventID)
    requires Invariant(s) && e in s.outbox && s.outbox[e].payload.TaskEnqueued?
    ensures MessageOk(s, s.outbox[e].payload.message)
  {
  }

  lemma PublishKeeps(s: State, f: FlightID)
    requires Invariant(s) && Enabled(s, EventPublished(f))
    ensures Kept(s, Apply(s, EventPublished(f)))
  {
    hide Invariant, Extends, MessageOk;
    var b := s.flights[f];
    var e := b.batch[b.next];
    var r := s.outbox[e];
    EventIsOk(s, e);
    CrawlLogKeeps(s, r.payload.message);
    var s1 := s.(crawlLog := s.crawlLog + [r.payload.message]);
    var outbox := s.outbox[e := r.(attempts := r.attempts + 1)];
    OutboxKeeps(s1, outbox);
    var s2 := s1.(outbox := outbox);
    FlyKeeps(s2, f, b.(next := b.next + 1));
    KeptTwice(s, s1, s2);
    KeptTwice(s, s2, Apply(s, EventPublished(f)));
  }

  lemma OutboxStepKeeps(s: State, l: Label)
    requires Invariant(s) && Enabled(s, l) && OutboxLabel(l)
    ensures Kept(s, Apply(s, l))
  {
    hide Invariant, Extends;
    match l
    case BatchFetched(f, batch) => FlyKeeps(s, f, Publishing(batch, 0));
    case EventPublished(f) => PublishKeeps(s, f);
    case EventSkipped(f) => FlyKeeps(s, f, s.flights[f].(next := s.flights[f].next + 1));
    case BatchAborted(f, attempted) =>
      LandKeeps(s, f);
      OutboxKeeps(Land(s, f), AbortStep(s, f, attempted).outbox);
      KeptTwice(s, Land(s, f), Apply(s, l));
    case BatchCommitted(f) =>
      LandKeeps(s, f);
      OutboxKeeps(Land(s, f), Apply(s, l).outbox);
      KeptTwice(s, Land(s, f), Apply(s, l));
  }

  // ---- the fetch handler ----

  lemma WriteAndLandKeeps(s: State, t: Task, f: FlightID)
    requires Invariant(s) && RowOk(s, t)
    ensures Kept(s, Land(WriteRow(s, t), f))
  {
    hide Invariant, Extends, RowOk;
    WriteRowKeeps(s, t);
    LandKeeps(WriteRow(s, t), f);
    KeptTwice(s, WriteRow(s, t), Land(WriteRow(s, t), f));
  }

  // A handler's copy of a row, failed, is still a proper row.
  lemma FailedRowOk(s: State, f: FlightID, reason: string)
    requires Invariant(s) && f in s.flights && (s.flights[f].Fetching? || s.flights[f].Parsing?)
    ensures RowOk(s, MarkAsFailed(s.flights[f].task, reason))
  {
    FlightIsOk(s, f);
  }

  lemma FetchStoreKeeps(s: State, f: FlightID, page: Object, finalURL: Url)
    requires Invariant(s) && Enabled(s, FetchStores(f, page, finalURL))
    ensures Kept(s, Apply(s, FetchStores(f, page, finalURL)))
  {
    hide Invariant, Extends, RowOk;
    var t := s.flights[f].task;
    var found := {PageFound(t.id, page), FinalURLFound(t.id, finalURL)};
    FlightIsOk(s, f);
    StoreKeeps(s, PageKey(t.job, t.id), page, found);
    var s1 := s.(store := s.store[PageKey(t.job, t.id) := page], found := s.found + found);
    FlightStaysOk(s, s1, s.flights[f]);
    FlyKeeps(s1, f, s.flights[f].(fetch := PageStored(finalURL)));
    KeptTwice(s, s1, Apply(s, FetchStores(f, page, finalURL)));
  }

  lemma FetchSaveKeeps(s: State, f: FlightID)
    requires Invariant(s) && Enabled(s, FetchSaves(f))
    ensures Kept(s, Apply(s, FetchSaves(f)))
  {
    hide Invariant, Extends;
    var t := s.flights[f].task;
    FlightIsOk(s, f);
    var t' := MarkAsFetched(t, s.flights[f].fetch.finalURL, PageKey(t.job, t.id));
    WriteRowKeeps(s, t');
    FlightStaysOk(s, WriteRow(s, t'), s.flights[f]);
    FlyKeeps(WriteRow(s, t'), f, s.flights[f].(fetch := FetchSaved));
    KeptTwice(s, WriteRow(s, t'), Apply(s, FetchSaves(f)));
  }

  lemma LandedPageStored(s: State, f: FlightID)
    requires Invariant(s) && Enabled(s, FetchPublishes(f))
    ensures ParseMessageOk(Land(s, f), ParseMessage(s.flights[f].message.task, s.flights[f].message.job))
  {
    FlightIsOk(s, f);
  }

  lemma FetchPublishKeeps(s: State, f: FlightID)
    requires Invariant(s) && Enabled(s, FetchPublishes(f))
    ensures Kept(s, Apply(s, FetchPublishes(f)))
  {
    hide Invariant, Extends, ParseMessageOk;
    LandedPageStored(s, f);
    LandKeeps(s, f);
    ParseLogKeeps(Land(s, f), ParseMessage(s.flights[f].message.task, s.flights[f].message.job));
    KeptTwice(s, Land(s, f), Apply(s, FetchPublishes(f)));
  }

  lemma FetchStepKeeps(s: State, l: Label)
    requires Invariant(s) && Enabled(s, l) && FetchLabel(l)
    ensures Kept(s, Apply(s, l))
  {
    hide Invariant, Extends, RowOk;
    match l
    case FetchLoads(f, m) =>
      RowIsOk(s, m.task);
      FlyKeeps(s, f, Fetching(m, s.tasks[m.task], FetchLoaded));
    case FetchRejects(f, reason) =>
      FailedRowOk(s, f, reason);
      WriteAndLandKeeps(s, MarkAsFailed(s.flights[f].task, reason), f);
    case FetchFails(f, reason) =>
      FailedRowOk(s, f, reason);
      WriteAndLandKeeps(s, MarkAsFailed(s.flights[f].task, reason), f);
    case FetchStores(f, page, finalURL) => FetchStoreKeeps(s, f, page, finalURL);
    case FetchSaves(f) => FetchSaveKeeps(s, f);
    case FetchPublishes(f) => FetchPublishKeeps(s, f);
  }

  // ---- the parse handler, up to its transaction ----

  lemma ParseUploadKeeps(s: State, f: FlightID, result: Object)
    requires Invariant(s) && Enabled(s, ParseUploads(f, result))
    ensures Kept(s, Apply(s, ParseUploads(f, result)))
  {
    hide Invariant, Extends, RowOk;
    var t := s.flights[f].task;
    FlightIsOk(s, f);
    StoreKeeps(s, ResultKey(t.id), result, {});
    var s1 := s.(store := s.store[ResultKey(t.id) := result], found := s.found + {});
    assert s.found + {} == s.found;
    FlightStaysOk(s, s1, s.flights[f]);
    FlyKeeps(s1, f, s.flights[f].(parse := Uploaded(s.flights[f].parse.page)));
    KeptTwice(s, s1, Apply(s, ParseUploads(f, result)));
  }

  lemma PreparedChildOk(s: State, t: Task, v: Visit, ts: seq<Task>, urls: set<Url>, i: nat)
    requires t.job in s.jobs && Prepares(ts, t, urls) && i < |ts|
    requires urls <= ChosenLinks(s.jobs[t.job], t.depth, v)
    ensures ChildOk(s, t, v, ts[i]) && ts[i].url in ChosenLinks(s.jobs[t.job], t.depth, v)
  {
  }

  lemma PreparedChildrenOk(s: State, t: Task, v: Visit, pagination: seq<Task>, discovery: seq<Task>)
    requires t.job in s.jobs && PageOf(s, t.id, v.page) && v.base == BaseURL(t)
    requires Prepares(pagination, t, ChosenPagination(s.jobs[t.job], t.depth, v))
    requires Prepares(discovery, t, ChosenDiscovered(s.jobs[t.job], t.depth, v))
    ensures ChildrenOk(s, t, v, pagination + discovery)
  {
    var c := s.jobs[t.job];
    var p, d := ChosenPagination(c, t.depth, v), ChosenDiscovered(c, t.depth, v);
    var children := pagination + discovery;
    forall i | 0 <= i < |children| ensures ChildOk(s, t, v, children[i]) && children[i].url in ChosenLinks(c, t.depth, v) {
      if i < |pagination| {
        PreparedChildOk(s, t, v, pagination, p, i);
      } else {
        PreparedChildOk(s, t, v, discovery, d, i - |pagination|);
      }
    }
    forall u | u in ChosenLinks(c, t.depth, v)
      ensures exists i :: 0 <= i < |children| && children[i].url == u
    {
      if u in p {
        var i :| 0 <= i < |pagination| && pagination[i].url == u;
        assert children[i].url == u;
      } else {
        var i :| 0 <= i < |discovery| && discovery[i].url == u;
        assert children[|pagination| + i].url == u;
      }
    }
  }

  lemma ParsePrepareKeeps(s: State, l: Label)
    requires Invariant(s) && l.ParsePrepares? && Enabled(s, l)
    ensures Kept(s, Apply(s, l))
  {
    hide Invariant, Extends, ChosenLinks, ChosenPagination, ChosenDiscovered, Prepares, RowOk;
    var t, v := s.flights[l.f].task, VisitOf(s, l);
    FlightIsOk(s, l.f);
    PreparedChildrenOk(s, t, v, l.pagination, l.discovery);
    FlyKeeps(s, l.f, Parsing(t, ChildrenReady(v, l.pagination + l.discovery)));
  }

  // ---- inserting rows ----

  // Old rows stay; the new ones are exactly the inserted tasks, each taken from the batch.
  ghost predicate Inserted(rows: map<TaskID, Task>, ts: seq<Task>, rows': map<TaskID, Task>, inserted: seq<Task>) {
    && (forall id :: id in rows ==> id in rows' && rows'[id] == rows[id])
    && (forall id :: id in rows' && id !in rows ==> rows'[id] in inserted && rows'[id].id == id)
    && (forall t :: t in inserted ==> t in ts && t.id !in rows && t.id in rows' && rows'[t.id] == t)
  }

  ghost predicate Present(rows: map<TaskID, Task>, t: Task) { HasUrl(rows, t.job, t.url) }

  lemma FreshAfterInsert(rows: map<TaskID, Task>, ts: seq<Task>, rows': map<TaskID, Task>, inserted: seq<Task>)
    requires ts != [] && FreshIDs(rows, ts) && Inserted(rows, ts[..|ts| - 1], rows', inserted)
    ensures ts[|ts| - 1].id !in rows'
  {
  }

  lemma {:induction false} BulkInsertInserts(rows: map<TaskID, Task>, ts: seq<Task>)
    requires FreshIDs(rows, ts)
    ensures var (rows', inserted) := BulkInsert(rows, ts); Inserted(rows, ts, rows', inserted)
  {
    if ts != [] {
      var n := |ts| - 1;
      BulkInsertInserts(rows, ts[..n]);
      var (rows1, inserted1) := BulkInsert(rows, ts[..n]);
      FreshAfterInsert(rows, ts, rows1, inserted1);
    }
  }

  lemma PresentStays(rows: map<TaskID, Task>, rows': map<TaskID, Task>, t: Task)
    requires Present(rows, t) && forall id :: id in rows ==> id in rows' && rows'[id] == rows[id]
    ensures Present(rows', t)
  {
  }

  lemma InsertOneCovers(rows: map<TaskID, Task>, t: Task)
    requires UniqueUrls(rows) && t.id !in rows
    ensures !Present(rows, t) ==> Present(rows[t.id := t], t) && UniqueUrls(rows[t.id := t])
  {
    if !Present(rows, t) {
      var rows' := rows[t.id := t];
      assert rows'[t.id].job == t.job && rows'[t.id].url == t.url;
    }
  }

  lemma AllPresentStay(rows: map<TaskID, Task>, rows': map<TaskID, Task>, ts: seq<Task>)
    requires forall i :: 0 <= i < |ts| ==> Present(rows, ts[i])
    requires forall id :: id in rows ==> id in rows' && rows'[id] == rows[id]
    ensures forall i :: 0 <= i < |ts| ==> Present(rows', ts[i])
  {
  }

  ghost predicate Covered(rows: map<TaskID, Task>, ts: seq<Task>) {
    UniqueUrls(rows) && forall i :: 0 <= i < |ts| ==> Present(rows, ts[i])
  }

  lemma CoversOneMore(rows: map<TaskID, Task>, ts: seq<Task>)
    requires ts != []
    requires var t := ts[|ts| - 1]; Covered(rows, ts[..|ts| - 1]) && t.id !in rows
    ensures var t := ts[|ts| - 1]; Covered(if Present(rows, t) then rows else rows[t.id := t], ts)
  {
    hide UniqueUrls, HasUrl;
    var n, t := |ts| - 1, ts[|ts| - 1];
    InsertOneCovers(rows, t);
    AllPresentStay(rows, if Present(rows, t) then rows else rows[t.id := t], ts[..n]);
    assert ts == ts[..n] + [t];
  }

  // After the insert every task of the batch has a row with its job and URL, its own or an older
  // one, and still no two rows share both.
  lemma {:induction false} BulkInsertCovers(rows: map<TaskID, Task>, ts: seq<Task>)
    requires FreshIDs(rows, ts) && UniqueUrls(rows)
    ensures UniqueUrls(BulkInsert(rows, ts).0)
    ensures forall i :: 0 <= i < |ts| ==> Present(BulkInsert(rows, ts).0, ts[i])
  {
    if ts != [] {
      hide UniqueUrls, HasUrl, Inserted;
      var n := |ts| - 1;
      BulkInsertInserts(rows, ts[..n]);
      BulkInsertCovers(rows, ts[..n]);
      var (rows1, inserted1) := BulkInsert(rows, ts[..n]);
      FreshAfterInsert(rows, ts, rows1, inserted1);
      CoversOneMore(rows1, ts);
    }
  }

  // A row that may be inserted with a given origin.
  ghost predicate Insertable(s: State, t: Task, o: Origin) {
    && t == NewTask(t.id, t.job, t.url, t.depth)
    && t.job in s.jobs && t.depth <= s.jobs[t.job].maxDepth <= MAX_UINT64
    && match o
       case Seed => t.depth == 0 && t.url in s.jobs[t.job].seeds
       case Link(parent, page, base) =>
         && parent in s.tasks && s.tasks[parent].job == t.job && t.depth == s.tasks[parent].depth + 1
         && InScope(s.jobs[t.job], t.url, t.depth) && IsLinkOf(s.jobs[t.job], page, base, t.url)
         && PageOf(s, parent, page) && BaseOf(s, parent, base)
  }

  ghost function InsertRows(s: State, ts: seq<Task>, o: Origin): State {
    var (rows, inserted) := BulkInsert(s.tasks, ts);
    s.(tasks := rows, origin := InsertedOrigins(s.origin, inserted, o))
  }

  lemma InsertExtends(s: State, ts: seq<Task>, o: Origin)
    requires FreshIDs(s.tasks, ts)
    ensures Extends(s, InsertRows(s, ts, o))
  {
    BulkInsertInserts(s.tasks, ts);
  }

  lemma InsertedRowOk(s: State, ts: seq<Task>, o: Origin, t: Task)
    requires FreshIDs(s.tasks, ts) && t in BulkInsert(s.tasks, ts).1 && Insertable(s, t, o)
    ensures RowOk(InsertRows(s, ts, o), t)
  {
    BulkInsertInserts(s.tasks, ts);
  }

  lemma InsertKeeps(s: State, ts: seq<Task>, o: Origin)
    requires Invariant(s) && FreshIDs(s.tasks, ts)
    requires forall t :: t in ts ==> Insertable(s, t, o)
    ensures Kept(s, InsertRows(s, ts, o))
    ensures forall t :: t in BulkInsert(s.tasks, ts).1 ==> RowOk(InsertRows(s, ts, o), t)
  {
    hide RowOk, Insertable, UniqueUrls, RowsOk, FlightsOk, LogsOk, CommitsOk, StoreOk, Extends;
    var s' := InsertRows(s, ts, o);
    var (rows, inserted) := BulkInsert(s.tasks, ts);
    BulkInsertInserts(s.tasks, ts);
    BulkInsertCovers(s.tasks, ts);
    InsertExtends(s, ts, o);
    forall t | t in inserted ensures RowOk(s', t) {
      InsertedRowOk(s, ts, o, t);
    }
    InvariantExtends(s, s');
  }

  // ---- the parse transaction ----

  lemma RowIsInTable(s: State, t: Task)
    requires RowOk(s, t)
    ensures t.id in s.tasks && SameTask(s.tasks[t.id], t) && t.job in s.jobs
  {
  }

  lemma RowsAreUnique(s: State)
    requires Invariant(s)
    ensures UniqueUrls(s.tasks)
  {
  }

  lemma BaseIsKnown(s: State, t: Task)
    requires RowOk(s, t)
    ensures t.id in s.tasks && BaseOf(s, t.id, BaseURL(t))
  {
  }

  lemma ChildrenInsertable(s: State, t: Task, v: Visit, children: seq<Task>, c: Task)
    requires RowOk(s, t) && ChildrenOk(s, t, v, children) && c in children
    ensures Insertable(s, c, Link(t.id, v.page, v.base))
  {
    hide ChosenLinks, OriginOk;
    BaseIsKnown(s, t);
    var i :| 0 <= i < |children| && children[i] == c;
    assert ChildOk(s, t, v, children[i]);
  }

  lemma LinksPresent(s: State, t: Task, v: Visit, children: seq<Task>)
    requires t.job in s.jobs && ChildrenOk(s, t, v, children) && FreshIDs(s.tasks, children) && UniqueUrls(s.tasks)
    ensures forall u :: u in ChosenLinks(s.jobs[t.job], t.depth, v) ==> HasUrl(BulkInsert(s.tasks, children).0, t.job, u)
  {
    hide ChosenLinks, BulkInsert, HasUrl;
    BulkInsertCovers(s.tasks, children);
    forall u | u in ChosenLinks(s.jobs[t.job], t.depth, v) ensures HasUrl(BulkInsert(s.tasks, children).0, t.job, u) {
      var i :| 0 <= i < |children| && children[i].url == u;
      assert ChildOk(s, t, v, children[i]) && Present(BulkInsert(s.tasks, children).0, children[i]);
    }
  }

  lemma CommittedKeeps(s: State, id: TaskID, v: Visit)
    requires Invariant(s) && CommittedOk(s.(committed := s.committed[id := v]), id)
    ensures Kept(s, s.(committed := s.committed[id := v]))
  {
    hide RowOk, FlightOk, HasUrl, RowsOk, FlightsOk, LogsOk, MessageOk, ParseMessageOk, EventOk, StoredOk, CommittedOk;
    InvariantExtends(s, s.(committed := s.committed[id := v]));
  }

  lemma CommittedVisitOk(s: State, t: Task, v: Visit, children: seq<Task>, o: Origin)
    requires Invariant(s) && RowOk(s, t) && ChildrenOk(s, t, v, children) && FreshIDs(s.tasks, children)
    requires Extends(s, InsertRows(s, children, o))
    ensures var s1 := InsertRows(s, children, o); CommittedOk(s1.(committed := s1.committed[t.id := v]), t.id)
  {
    hide ChosenLinks, BulkInsert, HasUrl, OriginOk, InsertedOrigins, FreshIDs, UniqueUrls;
    RowsAreUnique(s);
    LinksPresent(s, t, v, children);
    BaseIsKnown(s, t);
    RowIsInTable(s, t);
  }

  lemma FinishCommit(s: State, f: FlightID, t: Task, inserted: seq<Task>, parses: map<JobID, nat>)
    requires Invariant(s) && RowOk(s, t)
    requires forall c :: c in inserted ==> RowOk(s, c)
    ensures Kept(s, Fly(s.(parses := parses), f, Parsing(t, Dispatching(inserted))))
  {
    hide RowOk, RowsOk, FlightsOk, LogsOk, CommitsOk, StoreOk, UniqueUrls, MessageOk, ParseMessageOk, EventOk, CommittedOk, StoredOk;
    FlyKeeps(s, f, Parsing(t, Dispatching(inserted)));
    InvariantExtends(Fly(s, f, Parsing(t, Dispatching(inserted))), Fly(s.(parses := parses), f, Parsing(t, Dispatching(inserted))));
  }

  lemma RowsStayOk(s: State, s': State, ts: seq<Task>)
    requires Extends(s, s') && forall c :: c in ts ==> RowOk(s, c)
    ensures forall c :: c in ts ==> RowOk(s', c)
  {
    hide RowOk, Extends;
    forall c | c in ts ensures RowOk(s', c) {
      RowStaysOk(s, s', c);
    }
  }

  lemma ParsedRowOk(s: State, t: Task)
    requires RowOk(s, t) && t.id in s.committed && ResultKey(t.id) in s.store
    ensures RowOk(s, MarkAsParsed(t, ResultKey(t.id)))
  {
  }

  // Only the row of the parsed task itself is written, so it makes no difference to the insert
  // whether that happens before or after it.
  lemma {:induction false} InsertIgnoresWrite(rows: map<TaskID, Task>, t: Task, ts: seq<Task>)
    requires t.id in rows && SameTask(rows[t.id], t) && FreshIDs(rows, ts)
    ensures var (after, inserted) := BulkInsert(rows, ts);
            t.id in after && BulkInsert(rows[t.id := t], ts) == (after[t.id := t], inserted)
  {
    if ts != [] {
      hide FreshIDs, HasUrl, Inserted;
      var n := |ts| - 1;
      FreshPrefix(rows, ts, n);
      InsertIgnoresWrite(rows, t, ts[..n]);
      var after := BulkInsert(rows, ts[..n]).0;
      BulkInsertInserts(rows, ts[..n]);
      InsertKeepsRow(rows, ts[..n], t.id);
      SameUrl(after, t, ts[n].job, ts[n].url);
      FreshIsNew(rows, ts, n);
      assert after[t.id := t][ts[n].id := ts[n]] == after[ts[n].id := ts[n]][t.id := t];
    }
  }

  lemma FreshPrefix(rows: map<TaskID, Task>, ts: seq<Task>, n: nat)
    requires FreshIDs(rows, ts) && n <= |ts|
    ensures FreshIDs(rows, ts[..n])
  {
  }

  lemma FreshIsNew(rows: map<TaskID, Task>, ts: seq<Task>, n: nat)
    requires FreshIDs(rows, ts) && n < |ts|
    ensures ts[n].id !in rows
  {
  }

  lemma InsertKeepsRow(rows: map<TaskID, Task>, ts: seq<Task>, id: TaskID)
    requires id in rows && FreshIDs(rows, ts)
    ensures var after := BulkInsert(rows, ts).0; id in after && after[id] == rows[id]
  {
    BulkInsertInserts(rows, ts);
  }

  lemma SameUrl(rows: map<TaskID, Task>, t: Task, job: JobID, url: Url)
    requires t.id in rows && SameTask(rows[t.id], t)
    ensures HasUrl(rows[t.id := t], job, url) == HasUrl(rows, job, url)
  {
    if id :| id in rows && rows[id].job == job && rows[id].url == url {
      assert rows[t.id := t][id].job == job && rows[t.id := t][id].url == url;
    }
  }

  // The transaction: write the row, insert the children, note the visit, and hand the inserted
  // ones to the dispatch loop.
  ghost function RowParsed(s: State, t: Task): State { WriteRow(s, MarkAsParsed(t, ResultKey(t.id))) }

  lemma CommitTakenApart(s: State, f: FlightID)
    requires Enabled(s, ParseCommits(f))
    ensures var t, p := s.flights[f].task, s.flights[f].parse;
            var s1 := RowParsed(s, t);
            var s2 := InsertRows(s1, p.children, Link(t.id, p.visit.page, p.visit.base));
            Apply(s, ParseCommits(f)) ==
              Fly(s2.(committed := s.committed[t.id := p.visit], parses := s.parses[t.job := Count(s.parses, t.job) + 1]), f,
                  Parsing(t, Dispatching(BulkInsert(s1.tasks, p.children).1)))
  {
    hide BulkInsert, InsertedOrigins, FreshIDs, Count, MarkAsParsed;
  }

  // The same transaction in the order of the proof: insert, note the visit, write the row.
  lemma CommitReordered(s: State, f: FlightID)
    requires Enabled(s, ParseCommits(f)) && RowOk(s, s.flights[f].task)
    ensures var t, p := s.flights[f].task, s.flights[f].parse;
            var s1 := InsertRows(s, p.children, Link(t.id, p.visit.page, p.visit.base));
            var s2 := s1.(committed := s1.committed[t.id := p.visit]);
            Apply(s, ParseCommits(f)) ==
              Fly(RowParsed(s2, t).(parses := s.parses[t.job := Count(s.parses, t.job) + 1]), f,
                  Parsing(t, Dispatching(BulkInsert(s.tasks, p.children).1)))
  {
    hide BulkInsert, InsertedOrigins, FreshIDs, Count, RowOk, Apply, RepeatsAfter, MarkAsParsed;
    var t, p := s.flights[f].task, s.flights[f].parse;
    var after := BulkInsert(s.tasks, p.children).0;
    RowIsInTable(s, t);
    InsertKeepsRow(s.tasks, p.children, t.id);
    SameRepeats(s.tasks, after, s.repeats, t.id);
    ParsedSameTask(t);
    CommitTakenApart(s, f);
    InsertIgnoresWrite(s.tasks, MarkAsParsed(t, ResultKey(t.id)), p.children);
  }

  lemma ParsedSameTask(t: Task)
    ensures SameTask(MarkAsParsed(t, ResultKey(t.id)), t)
  {
  }

  lemma SameRepeats(rows: map<TaskID, Task>, rows': map<TaskID, Task>, repeats: map<TaskID, nat>, id: TaskID)
    requires id in rows && id in rows' && rows'[id] == rows[id]
    ensures RepeatsAfter(rows', repeats, id) == RepeatsAfter(rows, repeats, id)
  {
  }

  lemma VisitCommitted(s: State, f: FlightID)
    requires Invariant(s) && Enabled(s, ParseCommits(f))
    ensures var t, p := s.flights[f].task, s.flights[f].parse;
            var s1 := InsertRows(s, p.children, Link(t.id, p.visit.page, p.visit.base));
            var s2 := s1.(committed := s1.committed[t.id := p.visit]);
            && Kept(s, s2) && RowOk(s2, t) && ResultKey(t.id) in s2.store
            && forall c :: c in BulkInsert(s.tasks, p.children).1 ==> RowOk(s2, c)
  {
    hide Invariant, Extends, RowOk, ChildrenOk, Insertable, BulkInsert, CommittedOk, InsertedOrigins, FreshIDs;
    var t, p := s.flights[f].task, s.flights[f].parse;
    var o := Link(t.id, p.visit.page, p.visit.base);
    FlightIsOk(s, f);
    forall c | c in p.children ensures Insertable(s, c, o) {
      ChildrenInsertable(s, t, p.visit, p.children, c);
    }
    InsertKeeps(s, p.children, o);
    var s1 := InsertRows(s, p.children, o);
    CommittedVisitOk(s, t, p.visit, p.children, o);
    CommittedKeeps(s1, t.id, p.visit);
    var s2 := s1.(committed := s1.committed[t.id := p.visit]);
    KeptTwice(s, s1, s2);
    RowStaysOk(s, s2, t);
    RowsStayOk(s1, s2, BulkInsert(s.tasks, p.children).1);
  }

  lemma CommitKeeps(s: State, f: FlightID)
    requires Invariant(s) && Enabled(s, ParseCommits(f))
    ensures Kept(s, Apply(s, ParseCommits(f)))
  {
    hide Invariant, Extends, RowOk, BulkInsert, InsertedOrigins, FreshIDs, Apply, CommitStep, WriteRow;
    var t, p := s.flights[f].task, s.flights[f].parse;
    var s1 := InsertRows(s, p.children, Link(t.id, p.visit.page, p.visit.base));
    var s2 := s1.(committed := s1.committed[t.id := p.visit]);
    var s3 := RowParsed(s2, t);
    var inserted := BulkInsert(s.tasks, p.children).1;
    FlightRowOk(s, f);
    VisitCommitted(s, f);
    ParsedRowOk(s2, t);
    WriteRowKeeps(s2, MarkAsParsed(t, ResultKey(t.id)));
    KeptTwice(s, s2, s3);
    RowStaysOk(s, s3, t);
    RowsStayOk(s2, s3, inserted);
    FinishCommit(s3, f, t, inserted, s.parses[t.job := Count(s.parses, t.job) + 1]);
    CommitReordered(s, f);
    KeptTwice(s, s3, Apply(s, ParseCommits(f)));
  }

  lemma FlightRowOk(s: State, f: FlightID)
    requires Invariant(s) && f in s.flights && (s.flights[f].Fetching? || s.flights[f].Parsing?)
    ensures RowOk(s, s.flights[f].task)
  {
    FlightIsOk(s, f);
  }

  lemma FreshAfterWrite(s: State, s1: State, t: Task, ts: seq<Task>)
    requires FreshIDs(s.tasks, ts) && t.id in s.tasks && s1.tasks.Keys == s.tasks.Keys + {t.id}
    ensures FreshIDs(s1.tasks, ts)
  {
  }

  // ---- the rest of the parse handler, and recovery ----

  lemma DispatchKeeps(s: State, f: FlightID, delivered: bool)
    requires Invariant(s) && Enabled(s, ParseDispatches(f, delivered))
    ensures Kept(s, Apply(s, ParseDispatches(f, delivered)))
  {
    hide Invariant, Extends, RowOk, MessageOk;
    FlightIsOk(s, f);
    var flight := s.flights[f];
    var todo := flight.parse.todo;
    var rest := Parsing(flight.task, Dispatching(todo[1..]));
    FlyKeeps(s, f, rest);
    if delivered {
      RowStaysOk(s, Fly(s, f, rest), todo[0]);
      RowMessageOk(Fly(s, f, rest), todo[0]);
      CrawlLogKeeps(Fly(s, f, rest), MessageFor(todo[0]));
      KeptTwice(s, Fly(s, f, rest), Apply(s, ParseDispatches(f, delivered)));
    }
  }

  lemma RowMessageOk(s: State, t: Task)
    requires RowOk(s, t)
    ensures MessageOk(s, MessageFor(t))
  {
  }

  // The page a handler reads was fetched for its task.
  lemma ReadPageOk(s: State, t: Task)
    requires Invariant(s) && RowOk(s, t) && t.pageKey.Some? && t.pageKey.value in s.store
    ensures PageOf(s, t.id, s.store[t.pageKey.value])
  {
    assert StoredOk(s, t.pageKey.value);
  }

  lemma ParseStepKeeps(s: State, l: Label)
    requires Invariant(s) && Enabled(s, l) && ParseLabel(l)
    ensures Kept(s, Apply(s, l))
  {
    hide Invariant, Extends, RowOk, CommitStep, ChosenLinks, Prepares, FreshIDs, ChildrenOk;
    match l
    case ParseLoads(f, id) =>
      RowIsOk(s, id);
      FlyKeeps(s, f, Parsing(s.tasks[id], ParseLoaded));
    case ParseReads(f) =>
      FlightIsOk(s, f);
      ReadPageOk(s, s.flights[f].task);
      FlyKeeps(s, f, s.flights[f].(parse := PageRead(s.store[s.flights[f].task.pageKey.value])));
    case ParseFails(f, reason) =>
      FailedRowOk(s, f, reason);
      WriteAndLandKeeps(s, MarkAsFailed(s.flights[f].task, reason), f);
    case ParseUploads(f, result) => ParseUploadKeeps(s, f, result);
    case ParsePrepares(f, _, _, _, _) => ParsePrepareKeeps(s, l);
    case ParseCommits(f) => CommitKeeps(s, f);
    case ParseRollsBack(f, reason) =>
      FailedRowOk(s, f, reason);
      WriteAndLandKeeps(s, MarkAsFailed(s.flights[f].task, reason), f);
    case ParseDispatches(f, delivered) => DispatchKeeps(s, f, delivered);
  }

  lemma RecoveryStepKeeps(s: State, l: Label)
    requires Invariant(s) && Enabled(s, l) && RecoveryLabel(l)
    ensures Kept(s, Apply(s, l))
  {
    hide Invariant, Extends, RowOk, MessageOk;
    match l
    case RecoveryLists(f, ids) =>
      var stale := seq(|ids|, i requires 0 <= i < |ids| => s.tasks[ids[i]]);
      forall i | 0 <= i < |stale| ensures RowOk(s, stale[i]) { RowIsOk(s, ids[i]); }
      FlyKeeps(s, f, Recovering(stale));
    case RecoveryPublishes(f, delivered) =>
      FlightIsOk(s, f);
      var todo := s.flights[f].stale;
      var s1 := Fly(s, f, Recovering(todo[1..]));
      FlyKeeps(s, f, Recovering(todo[1..]));
      if delivered {
        RowStaysOk(s, s1, todo[0]);
        RowMessageOk(s1, todo[0]);
        CrawlLogKeeps(s1, MessageFor(todo[0]));
        KeptTwice(s, s1, Apply(s, l));
      }
  }

  // ---- job creation ----

  // None of the batch has a row yet, and their URLs differ.
  ghost predicate Unseen(rows: map<TaskID, Task>, ts: seq<Task>) {
    && (forall i :: 0 <= i < |ts| ==> !Present(rows, ts[i]))
    && (forall i, j :: 0 <= i < j < |ts| ==> ts[i].url != ts[j].url)
  }

  lemma StillUnseen(rows: map<TaskID, Task>, ts: seq<Task>, rows': map<TaskID, Task>, inserted: seq<Task>)
    requires ts != [] && FreshIDs(rows, ts) && Unseen(rows, ts) && Inserted(rows, ts[..|ts| - 1], rows', inserted)
    ensures !Present(rows', ts[|ts| - 1])
  {
  }

  lemma UnseenPrefix(rows: map<TaskID, Task>, ts: seq<Task>, n: nat)
    requires FreshIDs(rows, ts) && Unseen(rows, ts) && n <= |ts|
    ensures FreshIDs(rows, ts[..n]) && Unseen(rows, ts[..n])
  {
  }

  lemma {:induction false} DistinctSeedsAllInserted(rows: map<TaskID, Task>, ts: seq<Task>)
    requires FreshIDs(rows, ts) && Unseen(rows, ts)
    ensures BulkInsert(rows, ts).1 == ts
  {
    if ts != [] {
      hide Inserted, Unseen, FreshIDs, HasUrl;
      var n := |ts| - 1;
      UnseenPrefix(rows, ts, n);
      DistinctSeedsAllInserted(rows, ts[..n]);
      BulkInsertInserts(rows, ts[..n]);
      var (rows1, inserted1) := BulkInsert(rows, ts[..n]);
      StillUnseen(rows, ts, rows1, inserted1);
    }
  }

  ghost function SeedMessage(l: Label, i: nat): CrawlMessage
    requires l.CreateJob? && i < |l.taskIDs| == |l.config.seeds|
  {
    CrawlMessage(l.taskIDs[i], l.job, l.config.seeds[i])
  }

  lemma NewJobHasNoRows(s: State, job: JobID, url: Url)
    requires Invariant(s) && job !in s.jobs
    ensures !HasUrl(s.tasks, job, url)
  {
  }

  ghost predicate SeedHasRow(rows: map<TaskID, Task>, job: JobID, config: Config, ids: seq<TaskID>, i: nat)
    requires i < |ids| == |config.seeds|
  {
    ids[i] in rows && rows[ids[i]].job == job && rows[ids[i]].url == config.seeds[i]
  }

  lemma DistinctSeedsHaveRows(rows: map<TaskID, Task>, job: JobID, config: Config, ids: seq<TaskID>)
    requires |ids| == |config.seeds| && FreshIDs(rows, SeedTasks(job, config, ids))
    requires (forall url :: !HasUrl(rows, job, url)) && Distinct(config.seeds)
    ensures forall i :: 0 <= i < |ids| ==> SeedHasRow(BulkInsert(rows, SeedTasks(job, config, ids)).0, job, config, ids, i)
  {
    var ts := SeedTasks(job, config, ids);
    BulkInsertInserts(rows, ts);
    DistinctSeedsAllInserted(rows, ts);
    forall i | 0 <= i < |ids| ensures SeedHasRow(BulkInsert(rows, ts).0, job, config, ids, i) {
      assert ts[i] in BulkInsert(rows, ts).1;
    }
  }

  lemma RowsMakeSeedsDistinct(rows: map<TaskID, Task>, job: JobID, config: Config, ids: seq<TaskID>)
    requires |ids| == |config.seeds| && FreshIDs(rows, SeedTasks(job, config, ids)) && UniqueUrls(rows)
    requires forall i :: 0 <= i < |ids| ==> SeedHasRow(BulkInsert(rows, SeedTasks(job, config, ids)).0, job, config, ids, i)
    ensures Distinct(config.seeds)
  {
    var ts := SeedTasks(job, config, ids);
    BulkInsertCovers(rows, ts);
    forall i, j | 0 <= i < j < |config.seeds| ensures config.seeds[i] != config.seeds[j] {
      assert ts[i].id == ids[i] && ts[j].id == ids[j];
      assert SeedHasRow(BulkInsert(rows, ts).0, job, config, ids, i) && SeedHasRow(BulkInsert(rows, ts).0, job, config, ids, j);
    }
  }

  // The events of a new job all name rows of the task table exactly when its seeds are distinct;
  // a repeated seed leaves an event whose task was dropped by the conflict clause.
  lemma SeedEventsNameRows(s: State, l: Label)
    requires Invariant(s) && l.CreateJob? && Enabled(s, l)
    ensures (forall i :: 0 <= i < |l.taskIDs| ==> NamesRow(CreateJobStep(s, l), SeedMessage(l, i))) <==> Distinct(l.config.seeds)
  {
    hide BulkInsert, Invariant, FreshIDs, UniqueUrls, HasUrl;
    forall url ensures !HasUrl(s.tasks, l.job, url) { NewJobHasNoRows(s, l.job, url); }
    RowsAreUnique(s);
    var rows := CreateJobStep(s, l).tasks;
    if Distinct(l.config.seeds) {
      DistinctSeedsHaveRows(s.tasks, l.job, l.config, l.taskIDs);
    } else if forall i :: 0 <= i < |l.taskIDs| ==> NamesRow(CreateJobStep(s, l), SeedMessage(l, i)) {
      forall i | 0 <= i < |l.taskIDs| ensures SeedHasRow(rows, l.job, l.config, l.taskIDs, i) {
        assert NamesRow(CreateJobStep(s, l), SeedMessage(l, i));
      }
      RowsMakeSeedsDistinct(s.tasks, l.job, l.config, l.taskIDs);
    }
    assert forall i :: 0 <= i < |l.taskIDs| ==>
      NamesRow(CreateJobStep(s, l), SeedMessage(l, i)) == SeedHasRow(rows, l.job, l.config, l.taskIDs, i);
  }

  lemma JobKeeps(s: State, job: JobID, config: Config)
    requires Invariant(s) && job !in s.jobs
    ensures Kept(s, s.(jobs := s.jobs[job := config]))
  {
    hide RowOk, FlightOk, CommittedOk, MessageOk, ParseMessageOk, EventOk, StoredOk, UniqueUrls;
    InvariantExtends(s, s.(jobs := s.jobs[job := config]));
  }

  lemma NewEventsKeep(s: State, outbox: map<EventID, OutboxRow>)
    requires Invariant(s)
    requires forall e :: e in s.outbox ==> e in outbox && outbox[e] == s.outbox[e]
    requires forall e :: e in outbox ==> e in s.outbox || EventOk(s, outbox[e])
    ensures Kept(s, s.(outbox := outbox))
  {
    hide RowOk, FlightOk, CommittedOk, ParseMessageOk, MessageOk, UniqueUrls;
    forall m | MessageOk(s, m) ensures MessageOk(s.(outbox := outbox), m) { MessageStaysOk(s, s.(outbox := outbox), m); }
    InvariantExtends(s, s.(outbox := outbox));
  }

  lemma SeedEventOk(s: State, l: Label, e: EventID)
    requires Invariant(s) && l.CreateJob? && Enabled(s, l) && e in l.eventIDs
    ensures EventOk(CreateJobStep(s, l), SeedEvents(l.job, l.config, l.taskIDs, l.eventIDs)[e])
  {
    SeedEventsNameRows(s, l);
    var s' := CreateJobStep(s, l);
    var r := SeedEvents(l.job, l.config, l.taskIDs, l.eventIDs)[e];
    var i :| 0 <= i < |l.eventIDs| && l.eventIDs[i] == e && r.payload == TaskEnqueued(SeedMessage(l, i));
    assert Distinct(l.config.seeds) ==> NamesRow(s', SeedMessage(l, i));
  }

  lemma CreateJobKeeps(s: State, l: Label)
    requires Invariant(s) && l.CreateJob? && Enabled(s, l)
    ensures Kept(s, Apply(s, l))
  {
    hide Invariant, Extends, RowOk, MessageOk, BulkInsert, InsertedOrigins, SeedEvents, FreshIDs;
    var ts := SeedTasks(l.job, l.config, l.taskIDs);
    JobKeeps(s, l.job, l.config);
    var s0 := s.(jobs := s.jobs[l.job := l.config]);
    forall t | t in ts ensures Insertable(s0, t, Seed) {
    }
    InsertKeeps(s0, ts, Seed);
    var s1 := InsertRows(s0, ts, Seed);
    KeptTwice(s, s0, s1);
    var events := SeedEvents(l.job, l.config, l.taskIDs, l.eventIDs);
    SeedEventsOk(s, l, s1);
    NewEventsKeep(s1, s.outbox + events);
    KeptTwice(s, s1, Apply(s, l));
  }

  lemma SeedEventsOk(s: State, l: Label, s1: State)
    requires Invariant(s) && l.CreateJob? && Enabled(s, l) && s1.jobs == CreateJobStep(s, l).jobs && s1.tasks == CreateJobStep(s, l).tasks
    requires s1.outbox == s.outbox
    ensures var events := SeedEvents(l.job, l.config, l.taskIDs, l.eventIDs);
            && (forall e :: e in events ==> e !in s.outbox)
            && (forall e :: e in s.outbox + events ==> e in s1.outbox || EventOk(s1, (s.outbox + events)[e]))
  {
    var events := SeedEvents(l.job, l.config, l.taskIDs, l.eventIDs);
    forall e | e in events ensures EventOk(s1, events[e]) {
      SeedEventOk(s, l, e);
      EventOkDependsOnRows(CreateJobStep(s, l), s1, events[e]);
    }
  }

  lemma EventOkDependsOnRows(s: State, s': State, r: OutboxRow)
    requires s.jobs == s'.jobs && s.tasks == s'.tasks && EventOk(s, r)
    ensures EventOk(s', r)
  {
  }

  // ---- every reachable state ----

  lemma StepKeeps(s: State, l: Label)
    requires Invariant(s) && Enabled(s, l)
    ensures Kept(s, Apply(s, l))
  {
    hide Invariant, Extends, Enabled;
    if l.CreateJob? { CreateJobKeeps(s, l); }
    else if OutboxLabel(l) { OutboxStepKeeps(s, l); }
    else if FetchLabel(l) { FetchStepKeeps(s, l); }
    else if ParseLabel(l) { ParseStepKeeps(s, l); }
    else if RecoveryLabel(l) { RecoveryStepKeeps(s, l); }
    else { LandKeeps(s, l.f); }
  }

  lemma {:induction false} InvariantAlways(s: State, ls: seq<Label>)
    requires Invariant(s) && ValidRun(s, ls)
    ensures Invariant(Outcome(s, ls)) && Extends(s, Outcome(s, ls))
    decreases |ls|
  {
    if ls != [] {
      StepKeeps(s, ls[0]);
      InvariantAlways(Apply(s, ls[0]), ls[1..]);
      ExtendsTransitive(s, Apply(s, ls[0]), Outcome(s, ls));
    }
  }
}
