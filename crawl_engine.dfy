/** `crawl`: a breadth-first crawl from the seed URL and the sitemap URLs of its
    robots.txt, following the links of HTML pages up to `max_depth` hops. */
module CrawlEngine {
  import opened Wrappers
  import opened PyText
  import opened Seqs
  import opened CrawlerTypes
  import opened HtmlExtract
  import opened Robots

  /** Whether a fetched response takes the JSON branch: JSON is preferred, or
      the preference is "auto" and the content type names JSON. */
  predicate IsJsonResponse(cfg: Config, resp: Response) {
    cfg.contentTypePreference == "json"
    || (Contains(resp.contentType.GetOr(""), "application/json") && cfg.contentTypePreference == "auto")
  }

  /** The record a visited URL adds to the results: its decoded JSON on the
      JSON branch (nothing when decoding fails), otherwise its parsed HTML. */
  function PageFor(cfg: Config, ops: UrlOps, url: Url, resp: Response): (r: Option<Page>)
    ensures r.None? <==> IsJsonResponse(cfg, resp) && resp.json.None?
    ensures r.Some? ==> r.value.url == url
    ensures r.Some? ==> (r.value.JsonPage? <==> IsJsonResponse(cfg, resp))
    ensures r.Some? && r.value.JsonPage? ==> resp.json == Some(r.value.json)
  {
    if IsJsonResponse(cfg, resp) then
      match resp.json
      case Some(j) => Some(JsonPage(url, j))
      case None => None
    else Some(ParseHtml(resp.doc, url, cfg, ops))
  }

  /** One crawl: the component's `url` input, its configuration, the world it
      fetches from, and the sitemap URLs read for the seed when it starts. */
  datatype Site = Site(seed: Url, cfg: Config, env: Env, sitemaps: seq<Url>)

  /** The crawl of `seed`: its sitemaps are those of the seed's robots.txt. */
  function SiteOf(seed: Url, cfg: Config, env: Env): Site {
    Site(seed, cfg, env, Sitemaps(seed, env))
  }

  /** The URLs the crawl starts from at depth 0: the seed, then its sitemaps. */
  function Seeds(s: Site): seq<Url> {
    [s.seed] + s.sitemaps
  }

  /** A followed link is kept unless same-domain crawling is on and its host
      differs from the seed's. */
  predicate InScope(s: Site, u: Url) {
    !s.cfg.sameDomainOnly || s.env.ops.netloc(u) == s.env.ops.netloc(s.seed)
  }

  /** The record of a URL that fetches. */
  function PageAt(s: Site, u: Url): Option<Page>
    requires u in s.env.pages
  {
    PageFor(s.cfg, s.env.ops, u, s.env.pages[u])
  }

  /** The resolved anchors of a URL that fetches. */
  function LinksOf(s: Site, p: Url): seq<Url>
    requires p in s.env.pages
  {
    ResolvedLinks(s.env.ops, p, s.env.pages[p].doc)
  }

  /** A link the crawl follows: from a fetched page on the HTML branch to an
      in-scope URL among its resolved anchors. */
  ghost predicate Edge(s: Site, p: Url, u: Url) {
    p in s.env.pages && !IsJsonResponse(s.cfg, s.env.pages[p]) && u in LinksOf(s, p) && InScope(s, u)
  }

  /** `u` can be reached in at most `d` followed links from a start URL. */
  ghost predicate WithinHops(s: Site, u: Url, d: int)
    decreases d
  {
    d >= 0 && (u in Seeds(s) || (d > 0 && exists p :: Edge(s, p, u) && WithinHops(s, p, d - 1)))
  }

  /** The URL of each record, in order. */
  function UrlsOf(ps: seq<Page>): seq<Url> {
    seq(|ps|, i requires 0 <= i < |ps| => ps[i].url)
  }

  /** A bound reached within `d` hops is reached within any larger bound. */
  lemma {:induction false} WithinHopsMono(s: Site, u: Url, d: int, d': int)
    requires WithinHops(s, u, d) && d <= d'
    ensures WithinHops(s, u, d')
    decreases d
  {
    if u !in Seeds(s) {
      var p :| Edge(s, p, u) && WithinHops(s, p, d - 1);
      WithinHopsMono(s, p, d - 1, d' - 1);
    }
  }

  /** Within zero hops lie exactly the start URLs. */
  lemma WithinZeroHops(s: Site, u: Url)
    ensures WithinHops(s, u, 0) <==> u in Seeds(s)
  {
  }

  /** With same-domain crawling, everything reachable is a start URL or on the seed's host. */
  lemma WithinHopsInScope(s: Site, u: Url, d: int)
    requires s.cfg.sameDomainOnly && WithinHops(s, u, d)
    ensures u in Seeds(s) || s.env.ops.netloc(u) == s.env.ops.netloc(s.seed)
  {
  }

  // ---------------------------------------------------------------------------
  // The state of the crawl loop and the invariant it keeps. Each part of the
  // invariant names only the fields it is about.

  /** `visited`, the depth at which each visited URL was visited, the queue,
      the results, and the depth of the last URL taken from the queue. */
  datatype CrawlState = CrawlState(
    visited: set<Url>, depthOf: map<Url, int>, queue: seq<(Url, int)>, results: seq<Page>, floor: int)

  /** Nothing more is to be done for `u` at depth `d`: it fails to fetch, or
      it was visited at depth `d` or less. */
  ghost predicate Settled(s: Site, visited: set<Url>, depthOf: map<Url, int>, u: Url, d: int) {
    u !in s.env.pages || (u in visited && u in depthOf && depthOf[u] <= d)
  }

  /** The queue holds reachable URLs, sorted by depth, within one level of `floor`. */
  ghost predicate QueueOk(s: Site, queue: seq<(Url, int)>, floor: int) {
    floor >= 0
    && (forall i :: 0 <= i < |queue| ==>
          floor <= queue[i].1 <= floor + 1 && WithinHops(s, queue[i].0, queue[i].1))
    && (forall i, j :: 0 <= i < j < |queue| ==> queue[i].1 <= queue[j].1)
  }

  /** Each visited URL fetches and was visited at its least hop count, at most `max_depth`. */
  ghost predicate VisitedOk(s: Site, visited: set<Url>, depthOf: map<Url, int>, floor: int) {
    depthOf.Keys == visited
    && forall v :: v in visited ==>
         v in s.env.pages && 0 <= depthOf[v] <= floor && depthOf[v] <= s.cfg.maxDepth
         && WithinHops(s, v, depthOf[v]) && (depthOf[v] > 0 ==> !WithinHops(s, v, depthOf[v] - 1))
  }

  /** The results are the records of the visited URLs that have one, each once,
      in order of visiting depth. */
  ghost predicate ResultsOk(s: Site, visited: set<Url>, depthOf: map<Url, int>, results: seq<Page>) {
    var urls := UrlsOf(results);
    (forall i, j :: 0 <= i < j < |urls| ==> urls[i] != urls[j])
    && (forall i :: 0 <= i < |urls| ==>
          urls[i] in visited && urls[i] in depthOf && urls[i] in s.env.pages && PageAt(s, urls[i]) == Some(results[i]))
    && (forall v :: v in visited && v in s.env.pages && PageAt(s, v).Some? ==> v in urls)
    && (forall i, j :: 0 <= i < j < |urls| ==> depthOf[urls[i]] <= depthOf[urls[j]])
  }

  /** Every start URL is settled at depth 0 or still queued at depth 0. */
  ghost predicate SeedsClosed(s: Site, visited: set<Url>, depthOf: map<Url, int>, queue: seq<(Url, int)>) {
    s.cfg.maxDepth >= 0 ==>
      forall u :: u in Seeds(s) ==> Settled(s, visited, depthOf, u, 0) || (u, 0) in queue
  }

  /** The links of visited page `v` are settled or queued one level deeper. */
  ghost predicate LinksClosed(s: Site, visited: set<Url>, depthOf: map<Url, int>, queue: seq<(Url, int)>, v: Url) {
    v in visited && v in depthOf && depthOf[v] < s.cfg.maxDepth ==>
      forall u :: Edge(s, v, u) ==> Settled(s, visited, depthOf, u, depthOf[v] + 1) || (u, depthOf[v] + 1) in queue
  }

  /** The links of every visited page outside `skip` are closed. */
  ghost predicate ClosedExcept(s: Site, visited: set<Url>, depthOf: map<Url, int>, queue: seq<(Url, int)>, skip: set<Url>) {
    forall v :: v in visited && v !in skip ==> LinksClosed(s, visited, depthOf, queue, v)
  }

  /** The loop invariant while the links of the pages in `skip` are being queued. */
  ghost predicate InvExcept(s: Site, st: CrawlState, skip: set<Url>) {
    QueueOk(s, st.queue, st.floor)
    && VisitedOk(s, st.visited, st.depthOf, st.floor)
    && ResultsOk(s, st.visited, st.depthOf, st.results)
    && SeedsClosed(s, st.visited, st.depthOf, st.queue)
    && ClosedExcept(s, st.visited, st.depthOf, st.queue, skip)
  }

  /** The loop invariant. */
  ghost predicate Inv(s: Site, st: CrawlState) {
    InvExcept(s, st, {})
  }

  /** `visited'` and `depthOf'` keep every visited URL at the depth it had. */
  ghost predicate Extends(visited: set<Url>, depthOf: map<Url, int>, visited': set<Url>, depthOf': map<Url, int>) {
    visited <= visited' && forall v :: v in visited && v in depthOf ==> v in depthOf' && depthOf'[v] == depthOf[v]
  }

  /** What the link loop has done for a link at depth `d`: skipped it as out
      of scope, found it settled, or queued it. */
  ghost predicate Handled(s: Site, visited: set<Url>, depthOf: map<Url, int>, queue: seq<(Url, int)>, u: Url, d: int) {
    !InScope(s, u) || Settled(s, visited, depthOf, u, d) || (u, d) in queue
  }

  /** Once the queue holds nothing at depth `e` or less, every fetchable URL
      reachable within `e` hops has been visited within `e`. */
  lemma {:induction false} CompleteAt(s: Site, visited: set<Url>, depthOf: map<Url, int>, queue: seq<(Url, int)>, u: Url, e: int)
    requires SeedsClosed(s, visited, depthOf, queue) && ClosedExcept(s, visited, depthOf, queue, {})
    requires 0 <= e <= s.cfg.maxDepth
    requires forall i :: 0 <= i < |queue| ==> queue[i].1 > e
    requires WithinHops(s, u, e)
    ensures Settled(s, visited, depthOf, u, e)
    decreases e
  {
    if u in Seeds(s) {
      assert (u, 0) !in queue;
    } else {
      var p :| Edge(s, p, u) && WithinHops(s, p, e - 1);
      CompleteAt(s, visited, depthOf, queue, p, e - 1);
      assert LinksClosed(s, visited, depthOf, queue, p);
      assert (u, depthOf[p] + 1) !in queue;
    }
  }

  /** The queue built from the start URLs satisfies the invariant. */
  lemma InitInv(s: Site, queue: seq<(Url, int)>)
    requires |queue| == |Seeds(s)|
    requires forall i :: 0 <= i < |queue| ==> queue[i] == (Seeds(s)[i], 0)
    ensures Inv(s, CrawlState({}, map[], queue, [], 0))
  {
    forall u | u in Seeds(s) ensures (u, 0) in queue {
      var i :| 0 <= i < |Seeds(s)| && Seeds(s)[i] == u;
      assert queue[i] == (u, 0);
    }
    assert UrlsOf([]) == [];
  }

  /** Taking the head off the queue keeps it sorted and within one level of
      the head's depth, which is at least `floor`. */
  lemma PopQueue(s: Site, queue: seq<(Url, int)>, floor: int)
    requires QueueOk(s, queue, floor) && queue != []
    ensures floor <= queue[0].1 && WithinHops(s, queue[0].0, queue[0].1)
    ensures QueueOk(s, queue[1..], queue[0].1)
  {
    var q := queue[1..];
    forall i | 0 <= i < |q| ensures queue[0].1 <= q[i].1 <= queue[0].1 + 1 && WithinHops(s, q[i].0, q[i].1) {
      assert q[i] == queue[i + 1];
    }
    forall i, j | 0 <= i < j < |q| ensures q[i].1 <= q[j].1 {
      assert q[i] == queue[i + 1] && q[j] == queue[j + 1];
    }
  }

  /** Taking the head off the queue keeps one closure fact: a URL that was
      settled stays settled, and the entry taken is settled by the time the
      step ends. */
  lemma PopKeeps(s: Site, visited: set<Url>, depthOf: map<Url, int>, queue: seq<(Url, int)>,
                 visited': set<Url>, depthOf': map<Url, int>, u: Url, d: int)
    requires queue != [] && d <= s.cfg.maxDepth
    requires Settled(s, visited, depthOf, u, d) || (u, d) in queue
    requires Extends(visited, depthOf, visited', depthOf')
    requires queue[0].1 <= s.cfg.maxDepth ==> Settled(s, visited', depthOf', queue[0].0, queue[0].1)
    ensures Settled(s, visited', depthOf', u, d) || (u, d) in queue[1..]
  {
    assert queue == [queue[0]] + queue[1..];
  }

  /** Taking the head off the queue keeps the start URLs closed. */
  lemma PopSeeds(s: Site, visited: set<Url>, depthOf: map<Url, int>, queue: seq<(Url, int)>,
                 visited': set<Url>, depthOf': map<Url, int>)
    requires SeedsClosed(s, visited, depthOf, queue) && queue != []
    requires Extends(visited, depthOf, visited', depthOf')
    requires queue[0].1 <= s.cfg.maxDepth ==> Settled(s, visited', depthOf', queue[0].0, queue[0].1)
    ensures SeedsClosed(s, visited', depthOf', queue[1..])
  {
    if s.cfg.maxDepth >= 0 {
      forall u | u in Seeds(s) ensures Settled(s, visited', depthOf', u, 0) || (u, 0) in queue[1..] {
        PopKeeps(s, visited, depthOf, queue, visited', depthOf', u, 0);
      }
    }
  }

  /** Taking the head off the queue keeps the links of visited page `v` closed. */
  lemma PopLinks(s: Site, visited: set<Url>, depthOf: map<Url, int>, queue: seq<(Url, int)>,
                 visited': set<Url>, depthOf': map<Url, int>, v: Url)
    requires LinksClosed(s, visited, depthOf, queue, v) && queue != []
    requires v in visited && v in depthOf
    requires Extends(visited, depthOf, visited', depthOf')
    requires queue[0].1 <= s.cfg.maxDepth ==> Settled(s, visited', depthOf', queue[0].0, queue[0].1)
    ensures LinksClosed(s, visited', depthOf', queue[1..], v)
  {
    var e := depthOf[v] + 1;
    if e <= s.cfg.maxDepth {
      forall u | Edge(s, v, u) ensures Settled(s, visited', depthOf', u, e) || (u, e) in queue[1..] {
        PopKeeps(s, visited, depthOf, queue, visited', depthOf', u, e);
      }
    }
  }

  /** Taking the head off the queue keeps the links of every visited page closed. */
  lemma PopClosed(s: Site, visited: set<Url>, depthOf: map<Url, int>, queue: seq<(Url, int)>,
                  visited': set<Url>, depthOf': map<Url, int>)
    requires ClosedExcept(s, visited, depthOf, queue, {}) && queue != [] && depthOf.Keys == visited
    requires Extends(visited, depthOf, visited', depthOf')
    requires queue[0].1 <= s.cfg.maxDepth ==> Settled(s, visited', depthOf', queue[0].0, queue[0].1)
    ensures forall v :: v in visited ==> LinksClosed(s, visited', depthOf', queue[1..], v)
  {
    forall v | v in visited ensures LinksClosed(s, visited', depthOf', queue[1..], v) {
      assert LinksClosed(s, visited, depthOf, queue, v);
      PopLinks(s, visited, depthOf, queue, visited', depthOf', v);
    }
  }

  /** A later `floor` keeps the visited URLs consistent. */
  lemma VisitedOkFloor(s: Site, visited: set<Url>, depthOf: map<Url, int>, floor: int, floor': int)
    requires VisitedOk(s, visited, depthOf, floor) && floor <= floor'
    ensures VisitedOk(s, visited, depthOf, floor')
  {
  }

  /** Skipping the head of the queue (already visited, too deep, or failing
      to fetch) keeps the invariant. */
  lemma SkipStep(s: Site, st: CrawlState)
    requires Inv(s, st) && st.queue != []
    requires st.queue[0].0 in st.visited || st.queue[0].1 > s.cfg.maxDepth || st.queue[0].0 !in s.env.pages
    ensures Inv(s, CrawlState(st.visited, st.depthOf, st.queue[1..], st.results, st.queue[0].1))
  {
    var (x, d) := st.queue[0];
    PopQueue(s, st.queue, st.floor);
    VisitedOkFloor(s, st.visited, st.depthOf, st.floor, d);
    assert Settled(s, st.visited, st.depthOf, x, d) || d > s.cfg.maxDepth;
    PopSeeds(s, st.visited, st.depthOf, st.queue, st.visited, st.depthOf);
    PopClosed(s, st.visited, st.depthOf, st.queue, st.visited, st.depthOf);
  }

  /** The state right after visiting the head of the queue: it is marked
      visited at its queued depth and its record, if any, is appended. */
  ghost function AfterVisit(s: Site, st: CrawlState): CrawlState
    requires st.queue != [] && st.queue[0].0 in s.env.pages
  {
    var (x, du) := st.queue[0];
    CrawlState(st.visited + {x}, st.depthOf[x := du], st.queue[1..], st.results + Emit(PageAt(s, x)), du)
  }

  /** The URL at the head of the queue, not yet visited, is not reachable in
      fewer hops than its queued depth. */
  lemma NotReachableEarlier(s: Site, st: CrawlState)
    requires QueueOk(s, st.queue, st.floor) && SeedsClosed(s, st.visited, st.depthOf, st.queue)
    requires ClosedExcept(s, st.visited, st.depthOf, st.queue, {})
    requires st.queue != [] && st.queue[0].0 !in st.visited && st.queue[0].1 <= s.cfg.maxDepth
    requires st.queue[0].0 in s.env.pages
    ensures st.queue[0].1 > 0 ==> !WithinHops(s, st.queue[0].0, st.queue[0].1 - 1)
  {
    var (x, du) := st.queue[0];
    if du > 0 && WithinHops(s, x, du - 1) {
      forall i | 0 <= i < |st.queue| ensures st.queue[i].1 > du - 1 {
        if i > 0 {
          assert st.queue[0].1 <= st.queue[i].1;
        }
      }
      CompleteAt(s, st.visited, st.depthOf, st.queue, x, du - 1);
      assert false;
    }
  }

  /** Marking a new URL visited at its least hop count keeps the visited URLs consistent. */
  lemma VisitedOkAdd(s: Site, visited: set<Url>, depthOf: map<Url, int>, floor: int, x: Url, du: int)
    requires VisitedOk(s, visited, depthOf, floor)
    requires x !in visited && x in s.env.pages && floor <= du <= s.cfg.maxDepth
    requires WithinHops(s, x, du) && (du > 0 ==> !WithinHops(s, x, du - 1))
    ensures VisitedOk(s, visited + {x}, depthOf[x := du], du)
  {
    var visited', depthOf' := visited + {x}, depthOf[x := du];
    assert depthOf'.Keys == visited';
    forall v | v in visited'
      ensures v in s.env.pages && 0 <= depthOf'[v] <= du && depthOf'[v] <= s.cfg.maxDepth
              && WithinHops(s, v, depthOf'[v]) && (depthOf'[v] > 0 ==> !WithinHops(s, v, depthOf'[v] - 1))
    {
      if v != x {
        assert v in visited && depthOf'[v] == depthOf[v];
      }
    }
  }

  /** Visiting a new URL appends its record, if any, to the results. */
  lemma VisitResults(s: Site, visited: set<Url>, depthOf: map<Url, int>, floor: int, results: seq<Page>, x: Url, du: int)
    requires VisitedOk(s, visited, depthOf, floor) && ResultsOk(s, visited, depthOf, results)
    requires x !in visited && x in s.env.pages && floor <= du
    ensures ResultsOk(s, visited + {x}, depthOf[x := du], results + Emit(PageAt(s, x)))
  {
    var visited', depthOf', results' := visited + {x}, depthOf[x := du], results + Emit(PageAt(s, x));
    var urls, urls' := UrlsOf(results), UrlsOf(results');
    assert urls' == urls + Emit(if PageAt(s, x).Some? then Some(x) else None);
    VisitResultsRecords(s, visited, depthOf, results, x, du);
    forall i, j | 0 <= i < j < |urls'| ensures depthOf'[urls'[i]] <= depthOf'[urls'[j]] {
      if j == |urls| {
        assert urls'[i] == urls[i] && urls[i] in visited && urls'[j] == x;
      } else {
        assert urls'[i] == urls[i] && urls'[j] == urls[j];
      }
    }
  }

  /** Appending the record of a new URL keeps the results distinct records of
      visited URLs, covering every visited URL that has one. */
  lemma VisitResultsRecords(s: Site, visited: set<Url>, depthOf: map<Url, int>, results: seq<Page>, x: Url, du: int)
    requires ResultsOk(s, visited, depthOf, results)
    requires x !in visited && x in s.env.pages
    ensures var urls' := UrlsOf(results + Emit(PageAt(s, x)));
      (forall i, j :: 0 <= i < j < |urls'| ==> urls'[i] != urls'[j])
      && (forall i :: 0 <= i < |urls'| ==>
            urls'[i] in visited + {x} && urls'[i] in depthOf[x := du] && urls'[i] in s.env.pages
            && PageAt(s, urls'[i]) == Some((results + Emit(PageAt(s, x)))[i]))
      && (forall v :: v in visited + {x} && v in s.env.pages && PageAt(s, v).Some? ==> v in urls')
  {
    var results' := results + Emit(PageAt(s, x));
    var urls, urls' := UrlsOf(results), UrlsOf(results');
    assert urls' == urls + Emit(if PageAt(s, x).Some? then Some(x) else None);
    forall i | 0 <= i < |urls| ensures urls[i] != x {
    }
  }

  /** Visiting the head of the queue keeps the invariant, except for the
      links of the page just visited; those need nothing when the page took
      the JSON branch or sits at the depth limit. */
  lemma VisitStep(s: Site, st: CrawlState)
    requires Inv(s, st) && st.queue != []
    requires st.queue[0].0 !in st.visited && st.queue[0].1 <= s.cfg.maxDepth && st.queue[0].0 in s.env.pages
    ensures InvExcept(s, AfterVisit(s, st), {st.queue[0].0})
  {
    var (x, du) := st.queue[0];
    var visited', depthOf' := st.visited + {x}, st.depthOf[x := du];
    PopQueue(s, st.queue, st.floor);
    NotReachableEarlier(s, st);
    VisitedOkAdd(s, st.visited, st.depthOf, st.floor, x, du);
    VisitResults(s, st.visited, st.depthOf, st.floor, st.results, x, du);
    assert Settled(s, visited', depthOf', x, du);
    assert Extends(st.visited, st.depthOf, visited', depthOf');
    PopSeeds(s, st.visited, st.depthOf, st.queue, visited', depthOf');
    PopClosed(s, st.visited, st.depthOf, st.queue, visited', depthOf');
  }

  /** A visited page whose links are not followed (the JSON branch, or the
      depth limit) leaves nothing open. */
  lemma LeafClosed(s: Site, st: CrawlState, x: Url)
    requires InvExcept(s, st, {x})
    requires x in s.env.pages && x in st.depthOf
    requires IsJsonResponse(s.cfg, s.env.pages[x]) || st.depthOf[x] >= s.cfg.maxDepth
    ensures Inv(s, st)
  {
    assert LinksClosed(s, st.visited, st.depthOf, st.queue, x);
  }

  /** Queueing entries one level below `floor`, each reachable within its
      depth, keeps the queue sorted and within one level. */
  lemma AppendQueue(s: Site, queue: seq<(Url, int)>, floor: int, more: seq<(Url, int)>)
    requires QueueOk(s, queue, floor)
    requires forall i :: 0 <= i < |more| ==> more[i].1 == floor + 1 && WithinHops(s, more[i].0, more[i].1)
    ensures QueueOk(s, queue + more, floor)
  {
    var q := queue + more;
    forall i | 0 <= i < |q| ensures floor <= q[i].1 <= floor + 1 && WithinHops(s, q[i].0, q[i].1) {
      if i < |queue| {
        assert q[i] == queue[i];
      } else {
        assert q[i] == more[i - |queue|];
      }
    }
    forall i, j | 0 <= i < j < |q| ensures q[i].1 <= q[j].1 {
      if j < |queue| {
        assert q[i] == queue[i] && q[j] == queue[j];
      } else if i < |queue| {
        assert q[i] == queue[i] && q[j] == more[j - |queue|];
      } else {
        assert q[i] == more[i - |queue|] && q[j] == more[j - |queue|];
      }
    }
  }

  /** Queueing more entries keeps the start URLs closed. */
  lemma AppendSeeds(s: Site, visited: set<Url>, depthOf: map<Url, int>, queue: seq<(Url, int)>, more: seq<(Url, int)>)
    requires SeedsClosed(s, visited, depthOf, queue)
    ensures SeedsClosed(s, visited, depthOf, queue + more)
  {
    forall u | u in Seeds(s) && (u, 0) in queue ensures (u, 0) in queue + more {
      var i :| 0 <= i < |queue| && queue[i] == (u, 0);
      assert (queue + more)[i] == (u, 0);
    }
  }

  /** Queueing more entries keeps the links of visited page `v` closed. */
  lemma PushLinks(s: Site, visited: set<Url>, depthOf: map<Url, int>, queue: seq<(Url, int)>, more: seq<(Url, int)>, v: Url)
    requires LinksClosed(s, visited, depthOf, queue, v)
    ensures LinksClosed(s, visited, depthOf, queue + more, v)
  {
    if v in visited && v in depthOf && depthOf[v] < s.cfg.maxDepth {
      var e := depthOf[v] + 1;
      forall u | Edge(s, v, u) && (u, e) in queue ensures (u, e) in queue + more {
        var i :| 0 <= i < |queue| && queue[i] == (u, e);
        assert (queue + more)[i] == (u, e);
      }
    }
  }

  /** Queueing more entries keeps closed links closed. */
  lemma AppendClosed(s: Site, visited: set<Url>, depthOf: map<Url, int>, queue: seq<(Url, int)>, more: seq<(Url, int)>, skip: set<Url>)
    requires ClosedExcept(s, visited, depthOf, queue, skip)
    ensures ClosedExcept(s, visited, depthOf, queue + more, skip)
  {
    forall v | v in visited && v !in skip ensures LinksClosed(s, visited, depthOf, queue + more, v) {
      PushLinks(s, visited, depthOf, queue, more, v);
    }
  }

  /** Once every anchor of `x` has been handled, the links of `x` are closed too. */
  lemma LinksDone(s: Site, visited: set<Url>, depthOf: map<Url, int>, queue: seq<(Url, int)>, x: Url,
                  links: seq<Url>, d: int)
    requires ClosedExcept(s, visited, depthOf, queue, {x})
    requires x in s.env.pages && x in visited && x in depthOf
    requires links == LinksOf(s, x) && d == depthOf[x] + 1
    requires forall j :: 0 <= j < |links| ==> Handled(s, visited, depthOf, queue, links[j], d)
    ensures ClosedExcept(s, visited, depthOf, queue, {})
  {
    assert LinksClosed(s, visited, depthOf, queue, x) by {
      forall u | Edge(s, x, u) ensures Settled(s, visited, depthOf, u, d) || (u, d) in queue {
        var j :| 0 <= j < |links| && links[j] == u;
        assert Handled(s, visited, depthOf, queue, links[j], d);
      }
    }
  }

  /** The results hold each record once, each the record of its URL. */
  lemma FinalRecords(s: Site, visited: set<Url>, depthOf: map<Url, int>, results: seq<Page>)
    requires ResultsOk(s, visited, depthOf, results)
    ensures forall i, j :: 0 <= i < j < |results| ==> results[i].url != results[j].url
    ensures forall i :: 0 <= i < |results| ==>
              results[i].url in s.env.pages && PageAt(s, results[i].url) == Some(results[i])
  {
    var urls := UrlsOf(results);
    forall i, j | 0 <= i < j < |results| ensures results[i].url != results[j].url {
      assert urls[i] != urls[j];
    }
  }

  /** When the queue is empty, the results are exactly the records of the
      fetchable URLs reachable within `max_depth` hops. */
  lemma FinalExact(s: Site, st: CrawlState)
    requires Inv(s, st) && st.queue == []
    ensures forall u :: u in UrlsOf(st.results) <==>
              u in s.env.pages && PageAt(s, u).Some? && WithinHops(s, u, s.cfg.maxDepth)
  {
    var urls := UrlsOf(st.results);
    forall u | u in s.env.pages && PageAt(s, u).Some? && WithinHops(s, u, s.cfg.maxDepth)
      ensures u in urls
    {
      CompleteAt(s, st.visited, st.depthOf, st.queue, u, s.cfg.maxDepth);
    }
    forall u | u in urls ensures WithinHops(s, u, s.cfg.maxDepth) {
      WithinHopsMono(s, u, st.depthOf[u], s.cfg.maxDepth);
    }
  }

  /** Reachability bounds are never negative. */
  lemma WithinHopsNonNegative(s: Site, u: Url, d: int)
    requires WithinHops(s, u, d)
    ensures d >= 0
  {
  }

  /** A URL not reachable in fewer than `db` hops needs at least `db`. */
  lemma FirstReach(s: Site, b: Url, db: int, d: int)
    requires db > 0 ==> !WithinHops(s, b, db - 1)
    requires WithinHops(s, b, d)
    ensures db <= d
  {
    WithinHopsNonNegative(s, b, d);
    if d < db {
      WithinHopsMono(s, b, d, db - 1);
    }
  }

  /** If `a` is reachable within `da` hops, `b` in no fewer than `db >= da`,
      then any bound that reaches `b` reaches `a`. */
  lemma DepthOrder(s: Site, a: Url, da: int, b: Url, db: int, d: int)
    requires WithinHops(s, a, da) && da <= db && (db > 0 ==> !WithinHops(s, b, db - 1))
    requires WithinHops(s, b, d)
    ensures WithinHops(s, a, d)
  {
    FirstReach(s, b, db, d);
    WithinHopsMono(s, a, da, d);
  }

  /** The results come in breadth-first order: whatever bound on hops reaches
      a result reaches every earlier one. */
  lemma FinalOrder(s: Site, visited: set<Url>, depthOf: map<Url, int>, floor: int, results: seq<Page>)
    requires VisitedOk(s, visited, depthOf, floor) && ResultsOk(s, visited, depthOf, results)
    ensures forall i, j, d :: 0 <= i < j < |results| && WithinHops(s, results[j].url, d) ==>
              WithinHops(s, results[i].url, d)
  {
    var urls := UrlsOf(results);
    forall i, j, d | 0 <= i < j < |results| && WithinHops(s, results[j].url, d)
      ensures WithinHops(s, results[i].url, d)
    {
      var a, b := urls[i], urls[j];
      assert depthOf[a] <= depthOf[b];
      DepthOrder(s, a, depthOf[a], b, depthOf[b], d);
    }
  }

  /** What the exact characterisation says for particular settings: nothing
      for a negative depth, only start URLs for depth 0, and only start URLs
      or the seed's host with same-domain crawling. */
  lemma ResultsScope(s: Site, results: seq<Page>)
    requires forall u :: u in UrlsOf(results) ==> WithinHops(s, u, s.cfg.maxDepth)
    ensures s.cfg.maxDepth < 0 ==> results == []
    ensures s.cfg.maxDepth == 0 ==> forall i :: 0 <= i < |results| ==> results[i].url in Seeds(s)
    ensures s.cfg.sameDomainOnly ==> forall i :: 0 <= i < |results| ==>
              results[i].url in Seeds(s) || s.env.ops.netloc(results[i].url) == s.env.ops.netloc(s.seed)
  {
    var urls := UrlsOf(results);
    forall i | 0 <= i < |results| ensures WithinHops(s, results[i].url, s.cfg.maxDepth) {
      assert urls[i] in urls;
    }
    if results != [] {
      assert WithinHops(s, results[0].url, s.cfg.maxDepth);
    }
  }

  /** The entries the link loop adds for `links` when visiting at `depth`:
      each in-scope, unvisited link one level deeper, in document order. */
  function LinkEntries(s: Site, links: seq<Url>, depth: int, visited: set<Url>): seq<(Url, int)>
    decreases |links|
  {
    if links == [] then []
    else
      var last := links[|links| - 1];
      LinkEntries(s, links[..|links| - 1], depth, visited)
      + (if InScope(s, last) && last !in visited then [(last, depth + 1)] else [])
  }

  /** An entry is added exactly for an in-scope, unvisited link, one level deeper. */
  lemma {:induction false} LinkEntriesMember(s: Site, links: seq<Url>, depth: int, visited: set<Url>, e: (Url, int))
    ensures e in LinkEntries(s, links, depth, visited) <==>
              e.1 == depth + 1 && e.0 in links && InScope(s, e.0) && e.0 !in visited
    decreases |links|
  {
    if links != [] {
      var init := links[..|links| - 1];
      LinkEntriesMember(s, init, depth, visited, e);
      assert links == init + [links[|links| - 1]];
    }
  }

  /** The first queue of `crawl()`: the seed at depth 0, then each sitemap URL at depth 0. */
  method EnqueueSitemaps(seed: Url, sitemaps: seq<Url>) returns (queue: seq<(Url, int)>)
    ensures |queue| == |sitemaps| + 1
    ensures forall i :: 0 <= i < |queue| ==> queue[i] == (([seed] + sitemaps)[i], 0)
  {
    queue := [(seed, 0)];
    if sitemaps != [] {
      var k := 0;
      while k < |sitemaps|
        invariant 0 <= k <= |sitemaps|
        invariant |queue| == k + 1
        invariant forall i :: 0 <= i < |queue| ==> queue[i] == (([seed] + sitemaps)[i], 0)
      {
        queue := queue + [(sitemaps[k], 0)];
        k := k + 1;
      }
    }
  }

  /** The link loop of `crawl()`: queue every in-scope link of `current` that
      is not yet visited, one level deeper, in document order. */
  method QueueLinks(s: Site, domain: string, current: Url, depth: int, visited: set<Url>, queue: seq<(Url, int)>)
    returns (queue': seq<(Url, int)>)
    requires domain == s.env.ops.netloc(s.seed)
    requires current in s.env.pages
    ensures queue' == queue + LinkEntries(s, LinksOf(s, current), depth, visited)
  {
    ghost var links := LinksOf(s, current);
    var hrefs := AnchorHrefs(s.env.pages[current].doc);
    queue' := queue;
    var k := 0;
    while k < |hrefs|
      invariant 0 <= k <= |hrefs|
      invariant queue' == queue + LinkEntries(s, links[..k], depth, visited)
    {
      var link := s.env.ops.join(current, hrefs[k]);
      assert link == links[k];
      assert links[..k + 1][..k] == links[..k];
      if s.cfg.sameDomainOnly && s.env.ops.netloc(link) != domain {
        // Off the seed's host.
      } else if link !in visited {
        queue' := queue' + [(link, depth + 1)];
      }
      k := k + 1;
    }
    assert links[..|hrefs|] == links;
  }

  /** The entries added for the links of an HTML page reachable within
      `depth` hops are one level deeper and reachable within that. */
  lemma EntriesWithinHops(s: Site, x: Url, depth: int, visited: set<Url>, more: seq<(Url, int)>)
    requires x in s.env.pages && !IsJsonResponse(s.cfg, s.env.pages[x]) && WithinHops(s, x, depth)
    requires more == LinkEntries(s, LinksOf(s, x), depth, visited)
    ensures forall i :: 0 <= i < |more| ==> more[i].1 == depth + 1 && WithinHops(s, more[i].0, more[i].1)
  {
    forall i | 0 <= i < |more| ensures more[i].1 == depth + 1 && WithinHops(s, more[i].0, more[i].1) {
      LinkEntriesMember(s, LinksOf(s, x), depth, visited, more[i]);
      assert Edge(s, x, more[i].0);
    }
  }

  /** After the entries are queued, every link has been handled. */
  lemma EntriesHandled(s: Site, visited: set<Url>, depthOf: map<Url, int>, queue: seq<(Url, int)>,
                       links: seq<Url>, depth: int)
    requires VisitedOk(s, visited, depthOf, depth)
    ensures forall j :: 0 <= j < |links| ==>
              Handled(s, visited, depthOf, queue + LinkEntries(s, links, depth, visited), links[j], depth + 1)
  {
    var queue' := queue + LinkEntries(s, links, depth, visited);
    forall j | 0 <= j < |links| ensures Handled(s, visited, depthOf, queue', links[j], depth + 1) {
      if InScope(s, links[j]) && links[j] !in visited {
        LinkEntriesMember(s, links, depth, visited, (links[j], depth + 1));
        assert (links[j], depth + 1) in queue';
      }
    }
  }

  /** Queueing the link entries of `x` closes the links of `x` as well. */
  lemma ClosedAfterQueueing(s: Site, visited: set<Url>, depthOf: map<Url, int>, queue: seq<(Url, int)>,
                            floor: int, x: Url, more: seq<(Url, int)>)
    requires ClosedExcept(s, visited, depthOf, queue, {x}) && VisitedOk(s, visited, depthOf, floor)
    requires x in s.env.pages && x in visited && depthOf[x] == floor
    requires more == LinkEntries(s, LinksOf(s, x), floor, visited)
    ensures ClosedExcept(s, visited, depthOf, queue + more, {})
  {
    AppendClosed(s, visited, depthOf, queue, more, {x});
    EntriesHandled(s, visited, depthOf, queue, LinksOf(s, x), floor);
    LinksDone(s, visited, depthOf, queue + more, x, LinksOf(s, x), floor + 1);
  }

  /** Queueing all the link entries of the page just visited restores the invariant. */
  lemma LinksQueued(s: Site, st: CrawlState, x: Url)
    requires InvExcept(s, st, {x})
    requires x in s.env.pages && !IsJsonResponse(s.cfg, s.env.pages[x])
    requires x in st.visited && st.depthOf[x] == st.floor && st.floor < s.cfg.maxDepth
    ensures Inv(s, st.(queue := st.queue + LinkEntries(s, LinksOf(s, x), st.floor, st.visited)))
  {
    var more := LinkEntries(s, LinksOf(s, x), st.floor, st.visited);
    assert WithinHops(s, x, st.floor);
    EntriesWithinHops(s, x, st.floor, st.visited, more);
    AppendQueue(s, st.queue, st.floor, more);
    AppendSeeds(s, st.visited, st.depthOf, st.queue, more);
    ClosedAfterQueueing(s, st.visited, st.depthOf, st.queue, st.floor, x, more);
  }

  /** Visiting a new fetchable URL leaves fewer fetchable URLs unvisited. */
  lemma UnseenShrinks(keys: set<Url>, visited: set<Url>, x: Url)
    requires x in keys && x !in visited
    ensures |keys - (visited + {x})| < |keys - visited|
  {
    assert keys - (visited + {x}) == (keys - visited) - {x};
  }

  /** The entries a visit of `x` at `depth` adds to the queue: its followed
      links one level deeper when it is an HTML page below the depth bound,
      otherwise none. */
  function Followed(s: Site, x: Url, depth: int, visited: set<Url>): seq<(Url, int)>
    requires x in s.env.pages
  {
    if !IsJsonResponse(s.cfg, s.env.pages[x]) && depth < s.cfg.maxDepth
    then LinkEntries(s, LinksOf(s, x), depth, visited)
    else []
  }

  /** The crawl loop as a reference: from a visited set, a queue and the
      results so far, the results when the queue runs empty. The head is
      taken first (FIFO); a visit appends the head's record last and queues
      its followed links after every entry already queued. */
  function Run(s: Site, visited: set<Url>, queue: seq<(Url, int)>, results: seq<Page>): seq<Page>
    decreases |s.env.pages.Keys - visited|, |queue|
  {
    if queue == [] then results
    else
      var (u, d) := queue[0];
      if u in visited || d > s.cfg.maxDepth || u !in s.env.pages then Run(s, visited, queue[1..], results)
      else
        UnseenShrinks(s.env.pages.Keys, visited, u);
        Run(s, visited + {u}, queue[1..] + Followed(s, u, d, visited + {u}), results + Emit(PageAt(s, u)))
  }

  /** The queue the crawl starts with: each start URL at depth 0, in order. */
  function StartQueue(s: Site): (q: seq<(Url, int)>)
    ensures |q| == |Seeds(s)| && forall i :: 0 <= i < |q| ==> q[i] == (Seeds(s)[i], 0)
  {
    seq(|Seeds(s)|, i requires 0 <= i < |Seeds(s)| => (Seeds(s)[i], 0))
  }

  /** The loop only appends: the results so far stay a prefix of the final ones. */
  lemma {:induction false} RunExtends(s: Site, visited: set<Url>, queue: seq<(Url, int)>, results: seq<Page>)
    ensures results <= Run(s, visited, queue, results)
    decreases |s.env.pages.Keys - visited|, |queue|
  {
    if queue != [] {
      var (u, d) := queue[0];
      if u in visited || d > s.cfg.maxDepth || u !in s.env.pages {
        RunExtends(s, visited, queue[1..], results);
      } else {
        UnseenShrinks(s.env.pages.Keys, visited, u);
        var results' := results + Emit(PageAt(s, u));
        RunExtends(s, visited + {u}, queue[1..] + Followed(s, u, d, visited + {u}), results');
        assert results <= results';
      }
    }
  }

  /** The seed is taken first: when it yields a record and `max_depth` is not
      negative, that record opens the results. */
  lemma SeedFirst(s: Site)
    requires s.cfg.maxDepth >= 0 && s.seed in s.env.pages && PageAt(s, s.seed).Some?
    ensures var r := Run(s, {}, StartQueue(s), []); r != [] && r[0] == PageAt(s, s.seed).value
  {
    var q := StartQueue(s);
    assert q[0] == (s.seed, 0);
    var results' := [] + Emit(PageAt(s, s.seed));
    assert results' == [PageAt(s, s.seed).value];
    RunAdvances(s, {}, q, [], {s.seed}, q[1..] + Followed(s, s.seed, 0, {s.seed}), results');
    RunExtends(s, {s.seed}, q[1..] + Followed(s, s.seed, 0, {s.seed}), results');
  }

  /** One turn of the loop, from the first state to the second: a head that
      is visited, too deep or fails to fetch is dropped and nothing else
      changes; otherwise the head becomes visited, its record (if any) is
      appended to the results and its followed links to the queue. */
  predicate Advances(s: Site, visited: set<Url>, queue: seq<(Url, int)>, results: seq<Page>,
                     visited': set<Url>, queue': seq<(Url, int)>, results': seq<Page>)
    requires queue != []
  {
    var (u, d) := queue[0];
    if u in visited || d > s.cfg.maxDepth || u !in s.env.pages then
      visited' == visited && queue' == queue[1..] && results' == results
    else
      visited' == visited + {u}
      && queue' == queue[1..] + Followed(s, u, d, visited + {u})
      && results' == results + Emit(PageAt(s, u))
  }

  /** A turn of the loop leaves the final results unchanged. */
  lemma RunAdvances(s: Site, visited: set<Url>, queue: seq<(Url, int)>, results: seq<Page>,
                    visited': set<Url>, queue': seq<(Url, int)>, results': seq<Page>)
    requires queue != [] && Advances(s, visited, queue, results, visited', queue', results')
    ensures Run(s, visited', queue', results') == Run(s, visited, queue, results)
  {
  }

  /** One turn of the crawl loop: take the head of the queue; skip it when it
      is visited, too deep or fails to fetch; otherwise mark it visited, add its
      record, and on the HTML branch below the depth limit queue its links. */
  method Step(s: Site, domain: string, visited: set<Url>, queue: seq<(Url, int)>, results: seq<Page>,
              ghost depthOf: map<Url, int>, ghost floor: int)
    returns (visited': set<Url>, queue': seq<(Url, int)>, results': seq<Page>,
             ghost depthOf': map<Url, int>, ghost floor': int)
    requires domain == s.env.ops.netloc(s.seed)
    requires queue != [] && Inv(s, CrawlState(visited, depthOf, queue, results, floor))
    ensures Inv(s, CrawlState(visited', depthOf', queue', results', floor'))
    ensures Advances(s, visited, queue, results, visited', queue', results')
    ensures |s.env.pages.Keys - visited'| < |s.env.pages.Keys - visited|
            || (visited' == visited && |queue'| < |queue|)
  {
    var (current, depth) := queue[0];
    ghost var st := CrawlState(visited, depthOf, queue, results, floor);
    visited', queue', results', depthOf', floor' := visited, queue[1..], results, depthOf, depth;
    if current in visited || depth > s.cfg.maxDepth || current !in s.env.pages {
      // Already visited, too deep, or `fetch_page` returned None.
      SkipStep(s, st);
    } else {
      UnseenShrinks(s.env.pages.Keys, visited, current);
      visited' := visited + {current};
      queue', results', depthOf' := Visit(s, domain, visited, queue, results, depthOf, floor);
    }
  }

  /** The loop body for a URL fetched for the first time: record its page and,
      for an HTML page above the depth bound, queue its in-scope links. */
  method Visit(s: Site, domain: string, visited: set<Url>, queue: seq<(Url, int)>, results: seq<Page>,
               ghost depthOf: map<Url, int>, ghost floor: int)
    returns (queue': seq<(Url, int)>, results': seq<Page>, ghost depthOf': map<Url, int>)
    requires domain == s.env.ops.netloc(s.seed)
    requires queue != [] && Inv(s, CrawlState(visited, depthOf, queue, results, floor))
    requires queue[0].0 !in visited && queue[0].1 <= s.cfg.maxDepth && queue[0].0 in s.env.pages
    ensures Inv(s, CrawlState(visited + {queue[0].0}, depthOf', queue', results', queue[0].1))
    ensures results' == results + Emit(PageAt(s, queue[0].0))
    ensures queue' == queue[1..] + Followed(s, queue[0].0, queue[0].1, visited + {queue[0].0})
  {
    var (current, depth) := queue[0];
    ghost var st := CrawlState(visited, depthOf, queue, results, floor);
    var response := s.env.pages[current];
    VisitStep(s, st);
    var visited' := visited + {current};
    queue', results', depthOf' := queue[1..], results, depthOf[current := depth];
    if IsJsonResponse(s.cfg, response) {
      if response.json.Some? {
        assert PageAt(s, current) == Some(JsonPage(current, response.json.value));
        results' := results + [JsonPage(current, response.json.value)];
      } else {
        assert results + Emit(PageAt(s, current)) == results;
      }
      assert CrawlState(visited', depthOf', queue', results', depth) == AfterVisit(s, st);
      LeafClosed(s, AfterVisit(s, st), current);
    } else {
      assert PageAt(s, current) == Some(ParseHtml(response.doc, current, s.cfg, s.env.ops));
      results' := results + [ParseHtml(response.doc, current, s.cfg, s.env.ops)];
      assert CrawlState(visited', depthOf', queue', results', depth) == AfterVisit(s, st);
      if depth < s.cfg.maxDepth {
        LinksQueued(s, AfterVisit(s, st), current);
        queue' := QueueLinks(s, domain, current, depth, visited', queue');
      } else {
        LeafClosed(s, AfterVisit(s, st), current);
      }
    }
  }

  /** What `crawl()` returns: the records of the fetchable URLs reachable
      from the seed and its sitemaps within `max_depth` in-scope links of HTML
      pages, each URL once, nearer URLs first. */
  ghost predicate CrawlOutcome(s: Site, results: seq<Page>) {
    // no URL twice
    (forall i, j :: 0 <= i < j < |results| ==> results[i].url != results[j].url)
    // each entry is the record of its URL
    && (forall i :: 0 <= i < |results| ==>
          results[i].url in s.env.pages && PageAt(s, results[i].url) == Some(results[i]))
    // exactly the URLs with a record within the depth bound
    && (forall u :: u in UrlsOf(results) <==>
          u in s.env.pages && PageAt(s, u).Some? && WithinHops(s, u, s.cfg.maxDepth))
    // breadth-first order
    && (forall i, j, d :: 0 <= i < j < |results| && WithinHops(s, results[j].url, d) ==>
          WithinHops(s, results[i].url, d))
    && (s.cfg.maxDepth < 0 ==> results == [])
    && (s.cfg.maxDepth == 0 ==> forall i :: 0 <= i < |results| ==> results[i].url in Seeds(s))
    && (s.cfg.sameDomainOnly ==> forall i :: 0 <= i < |results| ==>
          results[i].url in Seeds(s) || s.env.ops.netloc(results[i].url) == s.env.ops.netloc(s.seed))
  }

  /** `crawl()`: read the sitemaps, then go breadth-first over the queue of
      (URL, depth) entries. */
  method Crawl(seed: Url, cfg: Config, env: Env) returns (results: seq<Page>)
    ensures results == Run(SiteOf(seed, cfg, env), {}, StartQueue(SiteOf(seed, cfg, env)), [])
    ensures CrawlOutcome(SiteOf(seed, cfg, env), results)
  {
    var visited: set<Url> := {};
    var domain := env.ops.netloc(seed);
    results := [];
    var sitemaps := GetRobotsAndSitemap(seed, env);
    var s := Site(seed, cfg, env, sitemaps);
    var queue := EnqueueSitemaps(seed, sitemaps);

    ghost var depthOf: map<Url, int> := map[];
    ghost var floor := 0;
    assert queue == StartQueue(s);
    InitInv(s, queue);
    while queue != []
      invariant Inv(s, CrawlState(visited, depthOf, queue, results, floor))
      invariant Run(s, visited, queue, results) == Run(s, {}, StartQueue(s), [])
      decreases |s.env.pages.Keys - visited|, |queue|
    {
      var visited', queue', results', depthOf', floor' := Step(s, domain, visited, queue, results, depthOf, floor);
      RunAdvances(s, visited, queue, results, visited', queue', results');
      visited, queue, results, depthOf, floor := visited', queue', results', depthOf', floor';
    }
    FinalRecords(s, visited, depthOf, results);
    FinalExact(s, CrawlState(visited, depthOf, queue, results, floor));
    FinalOrder(s, visited, depthOf, floor, results);
    ResultsScope(s, results);
  }

  /** With `max_depth` 0 the crawl visits no links: it returns at most one
      record for the seed and one for each sitemap URL. */
  lemma DepthZeroBound(s: Site, results: seq<Page>)
    requires CrawlOutcome(s, results) && s.cfg.maxDepth == 0
    ensures |results| <= 1 + |s.sitemaps|
  {
    var urls := UrlsOf(results);
    DistinctElemsCard(urls);
    ElemsCard(Seeds(s));
    assert Elems(urls) <= Elems(Seeds(s));
    SubsetCard(Elems(urls), Elems(Seeds(s)));
  }
}
