// The two link preparations of the parser. The source collects links in a map and then ranges
// over it in whatever order it yields; both refine the set ChosenLinks.
module Links {
  import opened Options
  import opened PipelineModel
  import opened TaskStatuses

  method Collect(hrefs: seq<Href>) returns (links: set<Url>)
    ensures links == LinkSet(Some(hrefs))
  {
    links := {};
    for i := 0 to |hrefs|
      invariant forall u :: u in links <==> exists j :: 0 <= j < i && hrefs[j].scheme != OtherScheme && hrefs[j].url == u
    {
      if hrefs[i].scheme != OtherScheme {
        links := links + {hrefs[i].url};
      }
    }
  }

  method MatchesAny(patterns: seq<Url -> bool>, link: Url) returns (matched: bool)
    ensures matched <==> exists i :: 0 <= i < |patterns| && patterns[i](link)
  {
    matched := false;
    for i := 0 to |patterns|
      invariant forall j :: 0 <= j < i ==> !patterns[j](link)
    {
      if patterns[i](link) {
        matched := true;
        break;
      }
    }
  }

  // Scope, then allow-patterns, then robots; a robots lookup that fails lets the link through.
  method Admits(c: Config, link: Url, depth: nat, robots: Url -> Verdict) returns (ok: bool)
    requires c.patterns.Patterns?
    ensures ok <==> InScope(c, link, depth) && PassesPatterns(c, link) && PassesRobots(c, robots, link)
    ensures ok <==>
              && depth <= c.maxDepth && c.admits(link)
              && (c.patterns.list == [] || exists i :: 0 <= i < |c.patterns.list| && c.patterns.list[i](link))
              && (c.respectRobots ==> robots(link) == Allowed || robots(link) == CheckFailed)
  {
    if !InScope(c, link, depth) {
      return false;
    }
    if |c.patterns.list| > 0 {
      var matched := MatchesAny(c.patterns.list, link);
      if !matched {
        return false;
      }
    }
    if c.respectRobots {
      if robots(link) == Disallowed {
        return false;
      }
    }
    ok := true;
  }

  lemma PreparesNothing(t: Task)
    ensures Prepares([], t, {})
  {
  }

  lemma PrepareOneMore(ts: seq<Task>, t: Task, urls: set<Url>, id: TaskID, link: Url)
    requires Prepares(ts, t, urls) && link !in urls
    ensures Prepares(ts + [NewTask(id, t.job, link, t.depth + 1)], t, urls + {link})
  {
    var ts' := ts + [NewTask(id, t.job, link, t.depth + 1)];
    forall u | u in urls + {link} ensures exists i :: 0 <= i < |ts'| && ts'[i].url == u {
      if u == link {
        assert ts'[|ts|].url == u;
      } else {
        var i :| 0 <= i < |ts| && ts[i].url == u;
        assert ts'[i].url == u;
      }
    }
  }

  method PrepareLinks(c: Config, t: Task, hrefs: Option<seq<Href>>, robots: Url -> Verdict, newID: nat -> TaskID)
    returns (ts: seq<Task>)
    ensures Prepares(ts, t, Chosen(c, t.depth, hrefs, robots))
    ensures forall i :: 0 <= i < |ts| ==> ts[i].id == newID(i)
  {
    ts := [];
    if c.patterns.InvalidPatterns? || t.depth >= c.maxDepth || hrefs.None? {
      return;
    }
    var links := Collect(hrefs.value);
    ts := FilterLinks(c, t, links, robots, newID);
    assert Chosen(c, t.depth, hrefs, robots) == Passing(c, t, links, robots);
  }

  ghost function Passing(c: Config, t: Task, links: set<Url>, robots: Url -> Verdict): set<Url> {
    set u | u in links && InScope(c, u, t.depth + 1) && PassesPatterns(c, u) && PassesRobots(c, robots, u)
  }

  lemma PassingWithout(c: Config, t: Task, links: set<Url>, robots: Url -> Verdict, link: Url)
    requires link in links
    ensures var ok := InScope(c, link, t.depth + 1) && PassesPatterns(c, link) && PassesRobots(c, robots, link);
            && link !in Passing(c, t, links - {link}, robots)
            && Passing(c, t, links, robots) == Passing(c, t, links - {link}, robots) + if ok then {link} else {}
  {
  }

  // One turn of the loop: the link is skipped, or a task for it is appended.
  method FilterLink(c: Config, t: Task, ghost done: set<Url>, link: Url, robots: Url -> Verdict, before: seq<Task>, newID: nat -> TaskID)
    returns (ts: seq<Task>)
    requires c.patterns.Patterns? && link !in done && Prepares(before, t, Passing(c, t, done, robots))
    requires forall i :: 0 <= i < |before| ==> before[i].id == newID(i)
    ensures Prepares(ts, t, Passing(c, t, done + {link}, robots))
    ensures forall i :: 0 <= i < |ts| ==> ts[i].id == newID(i)
  {
    hide Prepares, Passing, InScope, PassesPatterns, PassesRobots;
    ts := before;
    PassingWithout(c, t, done + {link}, robots, link);
    assert done + {link} - {link} == done;
    var ok := Admits(c, link, t.depth + 1, robots);
    if ok {
      PrepareOneMore(ts, t, Passing(c, t, done, robots), newID(|ts|), link);
      ts := ts + [NewTask(newID(|ts|), t.job, link, t.depth + 1)];
    } else {
      assert Passing(c, t, done + {link}, robots) == Passing(c, t, done, robots);
    }
  }

  // Ranging over the links in any order, one after the other.
  method FilterLinks(c: Config, t: Task, links: set<Url>, robots: Url -> Verdict, newID: nat -> TaskID)
    returns (ts: seq<Task>)
    requires c.patterns.Patterns?
    ensures Prepares(ts, t, Passing(c, t, links, robots))
    ensures forall i :: 0 <= i < |ts| ==> ts[i].id == newID(i)
  {
    hide Prepares, Passing;
    ts := [];
    var todo := links;
    PreparesNothing(t);
    PassingNothing(c, t, robots);
    assert links - todo == {};
    while todo != {}
      invariant todo <= links
      invariant Prepares(ts, t, Passing(c, t, links - todo, robots))
      invariant forall i :: 0 <= i < |ts| ==> ts[i].id == newID(i)
      decreases |todo|
    {
      var link :| link in todo;
      ts := FilterLink(c, t, links - todo, link, robots, ts, newID);
      assert links - todo + {link} == links - (todo - {link});
      todo := todo - {link};
    }
    assert links - todo == links;
  }

  lemma PassingNothing(c: Config, t: Task, robots: Url -> Verdict)
    ensures Passing(c, t, {}, robots) == {}
  {
  }

  method PreparePaginationLinks(c: Config, t: Task, v: Visit, newID: nat -> TaskID) returns (ts: seq<Task>)
    ensures Prepares(ts, t, ChosenPagination(c, t.depth, v))
    ensures forall u :: (exists i :: 0 <= i < |ts| && ts[i].url == u) <==>
              c.mode != LinksOnly && Follows(c, t.depth, c.paginated(v.page, v.base), v.paginationRobots, u)
    ensures forall i :: 0 <= i < |ts| ==> ts[i] == Task(newID(i), t.job, ts[i].url, None, InProgress, t.depth + 1, None, None, None)
    ensures forall i, j :: 0 <= i < j < |ts| ==> ts[i].url != ts[j].url
  {
    hide Prepares, Chosen, Follows;
    PreparesNothing(t);
    ChosenFollows(c, t.depth, c.paginated(v.page, v.base), v.paginationRobots);
    ts := [];
    if c.mode != LinksOnly {
      ts := PrepareLinks(c, t, c.paginated(v.page, v.base), v.paginationRobots, newID);
    }
    PreparesFor(ts, t, ChosenPagination(c, t.depth, v), newID);
  }

  method PrepareDiscoveredLinks(c: Config, t: Task, v: Visit, newID: nat -> TaskID) returns (ts: seq<Task>)
    ensures Prepares(ts, t, ChosenDiscovered(c, t.depth, v))
    ensures forall u :: (exists i :: 0 <= i < |ts| && ts[i].url == u) <==>
              c.mode != PaginationOnly && Follows(c, t.depth, c.discovered(v.page, v.base), v.discoveryRobots, u)
    ensures forall i :: 0 <= i < |ts| ==> ts[i] == Task(newID(i), t.job, ts[i].url, None, InProgress, t.depth + 1, None, None, None)
    ensures forall i, j :: 0 <= i < j < |ts| ==> ts[i].url != ts[j].url
  {
    hide Prepares, Chosen, Follows;
    PreparesNothing(t);
    ChosenFollows(c, t.depth, c.discovered(v.page, v.base), v.discoveryRobots);
    ts := [];
    if c.mode != PaginationOnly {
      ts := PrepareLinks(c, t, c.discovered(v.page, v.base), v.discoveryRobots, newID);
    }
    PreparesFor(ts, t, ChosenDiscovered(c, t.depth, v), newID);
  }

  // What makes u a link to follow: it is one of the http or https links found, the next level is
  // within the job's depth, and scope, allow-patterns and robots.txt let it through.
  ghost predicate Follows(c: Config, depth: nat, hrefs: Option<seq<Href>>, robots: Url -> Verdict, u: Url) {
    && depth < c.maxDepth && hrefs.Some?
    && (exists i :: 0 <= i < |hrefs.value| && hrefs.value[i].url == u && (hrefs.value[i].scheme == Http || hrefs.value[i].scheme == Https))
    && c.admits(u)
    && c.patterns.Patterns? && (c.patterns.list == [] || exists i :: 0 <= i < |c.patterns.list| && c.patterns.list[i](u))
    && (c.respectRobots ==> robots(u) == Allowed || robots(u) == CheckFailed)
  }

  // A links-only crawl has no pagination, and a pagination-only crawl no discovery.
  ghost predicate Followed(c: Config, depth: nat, v: Visit, u: Url) {
    || (c.mode != LinksOnly && Follows(c, depth, c.paginated(v.page, v.base), v.paginationRobots, u))
    || (c.mode != PaginationOnly && Follows(c, depth, c.discovered(v.page, v.base), v.discoveryRobots, u))
  }

  lemma ChosenFollows(c: Config, depth: nat, hrefs: Option<seq<Href>>, robots: Url -> Verdict)
    ensures forall u :: u in Chosen(c, depth, hrefs, robots) <==> Follows(c, depth, hrefs, robots, u)
  {
    forall u ensures u in Chosen(c, depth, hrefs, robots) <==> Follows(c, depth, hrefs, robots, u) {
      assert u in LinkSet(hrefs) <==> hrefs.Some? && exists i :: 0 <= i < |hrefs.value| && hrefs.value[i].url == u && hrefs.value[i].scheme != OtherScheme;
    }
  }

  lemma ChosenAreFollowed(c: Config, depth: nat, v: Visit)
    ensures forall u :: u in ChosenLinks(c, depth, v) <==> Followed(c, depth, v, u)
  {
    hide Chosen, Follows;
    ChosenFollows(c, depth, c.paginated(v.page, v.base), v.paginationRobots);
    ChosenFollows(c, depth, c.discovered(v.page, v.base), v.discoveryRobots);
  }

  lemma PreparesFor(ts: seq<Task>, t: Task, urls: set<Url>, newID: nat -> TaskID)
    requires Prepares(ts, t, urls) && forall i :: 0 <= i < |ts| ==> ts[i].id == newID(i)
    ensures forall u :: u in urls <==> exists i :: 0 <= i < |ts| && ts[i].url == u
    ensures forall i :: 0 <= i < |ts| ==> ts[i] == Task(newID(i), t.job, ts[i].url, None, InProgress, t.depth + 1, None, None, None)
    ensures forall i, j :: 0 <= i < j < |ts| ==> ts[i].url != ts[j].url
  {
  }

  function Urls(ts: seq<Task>): seq<Url> { seq(|ts|, i requires 0 <= i < |ts| => ts[i].url) }

  // Any two preparations of the same set hold the same links, each as often as the other: once.
  lemma OrderDoesNotMatter(a: seq<Task>, b: seq<Task>, t: Task, urls: set<Url>)
    requires Prepares(a, t, urls) && Prepares(b, t, urls)
    ensures multiset(Urls(a)) == multiset(Urls(b)) == multiset(urls)
  {
    LinksOnce(a, t, urls);
    LinksOnce(b, t, urls);
  }

  lemma {:induction false} LinksOnce(ts: seq<Task>, t: Task, urls: set<Url>)
    requires Prepares(ts, t, urls)
    ensures multiset(Urls(ts)) == multiset(urls)
  {
    if ts == [] {
      assert urls == {};
    } else {
      var n := |ts| - 1;
      var u := ts[n].url;
      assert Prepares(ts[..n], t, urls - {u}) by {
        forall v | v in urls - {u} ensures exists i :: 0 <= i < n && ts[..n][i].url == v {
          var i :| 0 <= i < |ts| && ts[i].url == v;
          assert ts[..n][i].url == v;
        }
      }
      LinksOnce(ts[..n], t, urls - {u});
      assert Urls(ts) == Urls(ts[..n]) + [u];
      assert u in urls;
    }
  }
}
