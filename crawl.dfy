/** The crawl controller (`crawl_website` and `_crawl_pages_batch`): a
    reconnaissance phase over a FIFO queue seeded with the start URL, an analysis
    of the site's structure, then a deep phase seeded from the promising pages of
    the log and steered by the navigation advice. The three crawlers differ only
    in the constants of a `Policy`; the fetcher and the language model are the
    oracles of a `World`. */
module Crawl {
  import opened Wrappers
  import opened Seqs
  import opened JsonValue
  import opened Fences
  import opened Urls
  import opened Objective
  import opened Links
  import opened Scoring
  import opened Navigation
  import opened Knowledge
  import opened Extraction

  /** How the links of a page are chosen: the diverse heuristic selection, or the
      first links in document order. */
  datatype Selection = Smart(count: nat) | FirstN(count: nat)

  /** The constants that tell the three crawlers apart: the high-value threshold,
      whether sections are analysed, the batch sizes of the two phases, the link
      choice of the reconnaissance, and the relevance and link choice of seeding. */
  datatype Policy = Policy(threshold: int, sectioned: bool, reconBatch: nat, deepBatch: nat,
                           reconPick: Selection, seedMin: int, seedPick: Selection)

  /** agentic_crawler.py with `concurrency` pages per batch. */
  function AgenticPolicy(concurrency: nat): Policy {
    Policy(6, true, concurrency, Max(2, concurrency / 2), Smart(8), 5, Smart(7))
  }

  /** main.py: one page at a time. */
  function MainPolicy(): Policy {
    Policy(7, false, 1, 1, FirstN(8), 6, FirstN(5))
  }

  /** agentic_crawler_local.py: one page at a time. */
  function LocalPolicy(): Policy {
    Policy(6, false, 1, 1, FirstN(8), 5, FirstN(7))
  }

  function ReconBudget(maxPages: nat): nat {
    Max(5, maxPages / 10)
  }

  /** What the crawler cannot see into, as functions of the URL: the page fetched
      for extraction (None when the fetch fails), the anchors of the page fetched
      again for its links, the model's answers (None when the call raises) and the
      JSON parser. */
  datatype World = World(
    fetch: Url -> Option<Page>,
    anchors: Url -> Option<seq<Anchor>>,
    sectionReply: Url -> Option<string>,
    pageReply: Url -> Option<string>,
    navReply: Url -> Option<string>,
    structureReply: Option<string>,
    parse: string -> Option<Json>)

  /** The counts the crawl prints when it completes, and the scores it averages. */
  datatype Summary = Summary(totalPages: nat, highValuePages: nat, scores: map<Url, int>)

  /** The URLs of the links a selection keeps. */
  function Picked(sel: Selection, g: Goal, links: seq<LinkInfo>): seq<Url> {
    match sel
    case Smart(n) => UrlsOf(ReconSelection(g, links, n))
    case FirstN(n) => UrlsOf(Take(links, n))
  }

  /** The URLs not visited, in order. */
  function Unvisited(urls: seq<Url>, visited: set<Url>): (r: seq<Url>)
    ensures |r| <= |urls|
    ensures forall u :: u in r <==> u in urls && u !in visited
    decreases |urls|
  {
    if urls == [] then []
    else
      var prev := Unvisited(urls[..|urls| - 1], visited);
      var u := urls[|urls| - 1];
      assert forall x :: x in urls <==> x in urls[..|urls| - 1] || x == u;
      if u !in visited then prev + [u] else prev
  }

  /** A queue without repeats and without visited URLs. */
  predicate Clean(queue: seq<Url>, visited: set<Url>) {
    NoDup(queue) && forall i :: 0 <= i < |queue| ==> queue[i] !in visited
  }

  /** `for u in urls: if u not in visited and u not in queue: queue.append(u)`. */
  function Enqueued(queue: seq<Url>, visited: set<Url>, urls: seq<Url>): (r: seq<Url>)
    ensures queue <= r && |r| <= |queue| + |urls|
    ensures forall u :: u in r && u !in queue ==> u in urls && u !in visited
    ensures forall u :: u in urls && u !in visited ==> u in r
    ensures Clean(queue, visited) ==> Clean(r, visited)
    decreases |urls|
  {
    if urls == [] then queue
    else
      var q := Enqueued(queue, visited, urls[..|urls| - 1]);
      var u := urls[|urls| - 1];
      assert forall x :: x in urls <==> x in urls[..|urls| - 1] || x == u;
      if u !in visited && u !in q then
        AppendNoDup(q, u);
        q + [u]
      else q
  }

  predicate DistinctUrls(records: seq<PageRecord>) {
    forall i, j :: 0 <= i < j < |records| ==> records[i].url != records[j].url
  }

  /** Every logged page was visited, and no page was logged twice. */
  predicate LoggedIn(records: seq<PageRecord>, visited: set<Url>) {
    (forall i :: 0 <= i < |records| ==> records[i].url in visited) && DistinctUrls(records)
  }

  /** The batch's pages crawled one after another, in dispatch order: the records
      kept and the knowledge afterwards. */
  function CrawlAll(k: KnowledgeState, threshold: int, sectioned: bool, w: World, urls: seq<Url>)
    : (r: (seq<PageRecord>, KnowledgeState))
    ensures |r.0| <= |urls|
    decreases |urls|
  {
    if urls == [] then ([], k)
    else
      var n := |urls| - 1;
      var u := urls[n];
      var prev := CrawlAll(k, threshold, sectioned, w, urls[..n]);
      var step := CrawlPageSpec(prev.1, threshold, sectioned, u, w.fetch(u), w.sectionReply(u), w.pageReply(u), w.parse);
      (prev.0 + (if step.0.Some? then [step.0.value] else []), step.1)
  }

  /** Every record of a batch is for one of its URLs whose fetch succeeded, and a
      batch without repeats gives records with distinct URLs. */
  lemma {:induction false} CrawlAllRecords(k: KnowledgeState, threshold: int, sectioned: bool, w: World, urls: seq<Url>)
    ensures forall i :: 0 <= i < |CrawlAll(k, threshold, sectioned, w, urls).0| ==>
              CrawlAll(k, threshold, sectioned, w, urls).0[i].url in urls
              && w.fetch(CrawlAll(k, threshold, sectioned, w, urls).0[i].url).Some?
    ensures NoDup(urls) ==> DistinctUrls(CrawlAll(k, threshold, sectioned, w, urls).0)
    decreases |urls|
  {
    if urls != [] {
      var n := |urls| - 1;
      var u := urls[n];
      CrawlAllRecords(k, threshold, sectioned, w, urls[..n]);
      var prev := CrawlAll(k, threshold, sectioned, w, urls[..n]);
      var step := CrawlPageSpec(prev.1, threshold, sectioned, u, w.fetch(u), w.sectionReply(u), w.pageReply(u), w.parse);
      var r := prev.0 + (if step.0.Some? then [step.0.value] else []);
      assert CrawlAll(k, threshold, sectioned, w, urls).0 == r;
      assert forall x :: x in urls[..n] ==> x in urls;
      if NoDup(urls) {
        assert NoDup(urls[..n]);
        assert u !in urls[..n];
      }
    }
  }

  lemma CrawlAllStep(k: KnowledgeState, threshold: int, sectioned: bool, w: World, urls: seq<Url>, i: nat)
    requires i < |urls|
    ensures var prev := CrawlAll(k, threshold, sectioned, w, urls[..i]);
      var u := urls[i];
      var step := CrawlPageSpec(prev.1, threshold, sectioned, u, w.fetch(u), w.sectionReply(u), w.pageReply(u), w.parse);
      CrawlAll(k, threshold, sectioned, w, urls[..i + 1])
      == (prev.0 + (if step.0.Some? then [step.0.value] else []), step.1)
  {
    assert urls[..i + 1][..i] == urls[..i];
  }

  function RecordUrls(records: seq<PageRecord>): (r: seq<Url>)
    ensures |r| == |records| && forall i :: 0 <= i < |records| ==> r[i] == records[i].url
  {
    seq(|records|, i requires 0 <= i < |records| => records[i].url)
  }

  /** The records of a batch come in dispatch order, not completion order. */
  lemma {:induction false} CrawlAllInOrder(k: KnowledgeState, threshold: int, sectioned: bool, w: World, urls: seq<Url>)
    ensures IsSubseq(RecordUrls(CrawlAll(k, threshold, sectioned, w, urls).0), urls)
    decreases |urls|
  {
    if urls == [] {
      assert RecordUrls(CrawlAll(k, threshold, sectioned, w, urls).0) == [];
    } else {
      var n := |urls| - 1;
      var u := urls[n];
      CrawlAllInOrder(k, threshold, sectioned, w, urls[..n]);
      var prev := CrawlAll(k, threshold, sectioned, w, urls[..n]);
      var step := CrawlPageSpec(prev.1, threshold, sectioned, u, w.fetch(u), w.sectionReply(u), w.pageReply(u), w.parse);
      CrawlAllStep(k, threshold, sectioned, w, urls, n);
      assert urls[..n + 1] == urls == urls[..n] + [u];
      if step.0.Some? {
        SubseqAppend(RecordUrls(prev.0), urls[..n], u);
        assert RecordUrls(prev.0 + [step.0.value]) == RecordUrls(prev.0) + [u];
      } else {
        assert CrawlAll(k, threshold, sectioned, w, urls).0 == prev.0;
        SubseqExtend(RecordUrls(prev.0), urls[..n], u);
      }
    }
  }

  /** The URLs the deep phase is seeded with, before duplicates are removed: for
      each logged page relevant enough whose links can be fetched, its chosen
      links that are not visited. */
  function SeedLinks(records: seq<PageRecord>, g: Goal, base: Option<string>, visited: set<Url>,
                     anchors: Url -> Option<seq<Anchor>>, seedMin: int, pick: Selection): (r: seq<Url>)
    ensures forall u :: u in r ==> u !in visited
    decreases |records|
  {
    if records == [] then []
    else
      var n := |records| - 1;
      var prev := SeedLinks(records[..n], g, base, visited, anchors, seedMin, pick);
      var rec := records[n];
      if rec.relevance >= seedMin && anchors(rec.url).Some? then
        prev + Unvisited(Picked(pick, g, FilterLinks(anchors(rec.url).value, AvoidList(g), base, visited)), visited)
      else prev
  }

  /** A selection keeps at most its count of links. */
  lemma PickedBound(sel: Selection, g: Goal, links: seq<LinkInfo>)
    ensures |Picked(sel, g, links)| <= sel.count
  {
    if sel.Smart? {
      ReconSelectionSpec(g, links, sel.count);
    }
  }

  /** Every seed comes from a logged page relevant enough whose links could be
      fetched, and is one of the links chosen on that page. */
  lemma {:induction false} SeedSources(records: seq<PageRecord>, g: Goal, base: Option<string>, visited: set<Url>,
                                       anchors: Url -> Option<seq<Anchor>>, seedMin: int, pick: Selection, u: Url)
    requires u in SeedLinks(records, g, base, visited, anchors, seedMin, pick)
    ensures exists i :: 0 <= i < |records| && records[i].relevance >= seedMin && anchors(records[i].url).Some?
              && u in Picked(pick, g, FilterLinks(anchors(records[i].url).value, AvoidList(g), base, visited))
    decreases |records|
  {
    var n := |records| - 1;
    var prev := SeedLinks(records[..n], g, base, visited, anchors, seedMin, pick);
    if u in prev {
      SeedSources(records[..n], g, base, visited, anchors, seedMin, pick, u);
      var i :| 0 <= i < n && records[..n][i].relevance >= seedMin && anchors(records[..n][i].url).Some?
               && u in Picked(pick, g, FilterLinks(anchors(records[..n][i].url).value, AvoidList(g), base, visited));
      assert records[..n][i] == records[i];
    } else {
      assert records[n].relevance >= seedMin && anchors(records[n].url).Some?;
    }
  }

  /** Each logged page adds at most the selection's count of seeds. */
  lemma {:induction false} SeedBound(records: seq<PageRecord>, g: Goal, base: Option<string>, visited: set<Url>,
                                     anchors: Url -> Option<seq<Anchor>>, seedMin: int, pick: Selection)
    ensures |SeedLinks(records, g, base, visited, anchors, seedMin, pick)| <= |records| * pick.count
    decreases |records|
  {
    if records != [] {
      var prefix := records[..|records| - 1];
      SeedBound(prefix, g, base, visited, anchors, seedMin, pick);
      SeedStep(records, g, base, visited, anchors, seedMin, pick);
      BoundStep(|SeedLinks(records, g, base, visited, anchors, seedMin, pick)|,
                |SeedLinks(prefix, g, base, visited, anchors, seedMin, pick)|,
                |prefix|, |records|, pick.count);
    }
  }

  /** The last logged page adds at most the selection's count of seeds. */
  lemma SeedStep(records: seq<PageRecord>, g: Goal, base: Option<string>, visited: set<Url>,
                 anchors: Url -> Option<seq<Anchor>>, seedMin: int, pick: Selection)
    requires records != []
    ensures |SeedLinks(records, g, base, visited, anchors, seedMin, pick)|
            <= |SeedLinks(records[..|records| - 1], g, base, visited, anchors, seedMin, pick)| + pick.count
  {
    var rec := records[|records| - 1];
    if rec.relevance >= seedMin && anchors(rec.url).Some? {
      PickedBound(pick, g, FilterLinks(anchors(rec.url).value, AvoidList(g), base, visited));
    }
  }

  lemma BoundStep(a: nat, b: nat, n: nat, m: nat, c: nat)
    requires a <= b + c && b <= n * c && m == n + 1
    ensures a <= m * c
  {
  }

  function PageTypes(records: seq<PageRecord>): seq<Json> {
    seq(|records|, i requires 0 <= i < |records| => records[i].pageType)
  }

  /** `sum(page_relevance_scores.values())` raises when a recorded relevance is
      not a number. */
  predicate SummaryRaises(relevance: map<Url, Json>) {
    exists u :: u in relevance && AsNumber(relevance[u]).None?
  }

  /** The relevances the closing summary averages: the numeric ones. */
  function NumericScores(relevance: map<Url, Json>): (r: map<Url, int>)
    ensures forall u :: u in r <==> u in relevance && AsNumber(relevance[u]).Some?
    ensures forall u :: u in r ==> r[u] == AsNumber(relevance[u]).value
  {
    map u | u in relevance && AsNumber(relevance[u]).Some? :: AsNumber(relevance[u]).value
  }

  /** The closing summary of `crawl_website`, averaging the numeric relevances. */
  function CrawlSummary(k: KnowledgeState, records: seq<PageRecord>): (r: Summary)
    ensures r.totalPages == |records| && r.highValuePages == |k.highValuePages|
    ensures r.scores == NumericScores(k.relevance)
  {
    Summary(|records|, |k.highValuePages|, NumericScores(k.relevance))
  }

  /** The closing summary as written: it raises instead when a recorded relevance
      is not a number. */
  function SummaryAsWritten(k: KnowledgeState, records: seq<PageRecord>): (r: Option<Summary>)
    ensures r.None? <==> SummaryRaises(k.relevance)
  {
    if SummaryRaises(k.relevance) then None else Some(CrawlSummary(k, records))
  }

  // ---------------------------------------------------------------------------
  // The phases as functions of the crawl's state

  /** What the loops of a phase read but do not change: the oracles, the policy,
      the analysed goal, the crawl's domain and the high-value threshold. */
  datatype Scene = Scene(w: World, pol: Policy, g: Goal, base: Option<string>, threshold: int)

  /** What a phase changes: the visited set, the log, the site knowledge and the queue. */
  datatype Progress = Progress(visited: set<Url>, log: seq<PageRecord>, k: KnowledgeState, queue: seq<Url>)

  /** The links of a page a phase keeps: the navigation advice in the guided
      phase, the policy's selection in the reconnaissance. */
  function Chosen(s: Scene, hv: seq<string>, guided: bool, url: Url, links: seq<LinkInfo>): seq<Url> {
    if guided then NavigationChoice(s.g, hv, links, s.w.navReply(url)) else Picked(s.pol.reconPick, s.g, links)
  }

  /** The links of a logged page's second fetch, when it succeeds. */
  function PageLinks(s: Scene, visited: set<Url>, rec: PageRecord): Option<seq<LinkInfo>> {
    match s.w.anchors(rec.url)
    case None => None
    case Some(anchors) => Some(FilterLinks(anchors, AvoidList(s.g), s.base, visited))
  }

  /** The queue after a logged page is followed: when its page can be fetched
      again and has links, the chosen ones neither visited nor queued are
      appended, and nothing else is. */
  function Followed(s: Scene, visited: set<Url>, hv: seq<string>, guided: bool, rec: PageRecord, queue: seq<Url>)
    : (r: seq<Url>)
    ensures queue <= r
    ensures Clean(queue, visited) ==> Clean(r, visited)
    ensures forall u :: u in r && u !in queue ==>
              && PageLinks(s, visited, rec).Some? && u !in visited
              && u in Chosen(s, hv, guided, rec.url, PageLinks(s, visited, rec).value)
    ensures PageLinks(s, visited, rec).Some? && PageLinks(s, visited, rec).value != [] ==>
              forall u :: u in Chosen(s, hv, guided, rec.url, PageLinks(s, visited, rec).value) && u !in visited ==> u in r
  {
    var links := PageLinks(s, visited, rec);
    if links.None? || links.value == [] then queue
    else
      var r := Enqueued(queue, visited, Chosen(s, hv, guided, rec.url, links.value));
      r
  }

  /** The queue after each record of a batch is followed, in order. */
  function FollowAll(s: Scene, visited: set<Url>, hv: seq<string>, guided: bool, records: seq<PageRecord>, queue: seq<Url>)
    : (r: seq<Url>)
    ensures queue <= r
    ensures Clean(queue, visited) ==> Clean(r, visited)
    decreases |records|
  {
    if records == [] then queue
    else
      var n := |records| - 1;
      Followed(s, visited, hv, guided, records[n], FollowAll(s, visited, hv, guided, records[..n], queue))
  }

  /** A visited set with a batch's URLs marked. */
  function Marked(visited: set<Url>, tasks: seq<Url>): (r: set<Url>)
    ensures forall u :: u in r <==> u in visited || u in tasks
    decreases |tasks|
  {
    if tasks == [] then visited
    else
      var n := |tasks| - 1;
      assert forall u :: u in tasks <==> u in tasks[..n] || u == tasks[n];
      Marked(visited, tasks[..n]) + {tasks[n]}
  }

  /** The rest of a round once `size` URLs are popped: the tasks are marked
      visited and crawled in order, and their records are logged and followed,
      against the knowledge the batch left, onto what is left of the queue. */
  function Batch(s: Scene, guided: bool, p: Progress, tasks: seq<Url>, size: nat): Progress
    requires size <= |p.queue|
  {
    var crawl := CrawlAll(p.k, s.threshold, s.pol.sectioned, s.w, tasks);
    var visited := Marked(p.visited, tasks);
    Progress(visited, p.log + crawl.0, crawl.1, FollowAll(s, visited, crawl.1.patterns, guided, crawl.0, p.queue[size..]))
  }

  /** How many URLs a round pops: the batch size, capped by the budget left and
      the queue's length. */
  function RoundSize(batch: nat, bound: nat, p: Progress): (size: nat)
    requires p.queue != [] && |p.visited| < bound
    ensures size <= |p.queue| && size <= bound - |p.visited| && (batch >= 1 ==> size >= 1)
  {
    Min(batch, Min(bound - |p.visited|, |p.queue|))
  }

  /** The popped URLs not visited, as `_crawl_pages_batch` receives and marks them. */
  function RoundTasks(batch: nat, bound: nat, p: Progress): (tasks: seq<Url>)
    requires p.queue != [] && |p.visited| < bound
    ensures Clean(tasks, p.visited) && |tasks| <= RoundSize(batch, bound, p)
  {
    var urls := Unvisited(p.queue[..RoundSize(batch, bound, p)], p.visited);
    assert Clean([], p.visited);
    Enqueued([], p.visited, urls)
  }

  lemma FollowAllStep(s: Scene, visited: set<Url>, hv: seq<string>, guided: bool, records: seq<PageRecord>,
                      i: nat, queue: seq<Url>)
    requires i < |records|
    ensures FollowAll(s, visited, hv, guided, records[..i + 1], queue)
            == Followed(s, visited, hv, guided, records[i], FollowAll(s, visited, hv, guided, records[..i], queue))
  {
    assert records[..i + 1][..i] == records[..i];
  }

  /** One turn of a phase's loop: at most `batch` URLs, and no more than the
      budget left, are popped from the front of the queue, and those not visited
      make the batch. */
  function Round(s: Scene, batch: nat, bound: nat, guided: bool, p: Progress): Progress
    requires p.queue != [] && |p.visited| < bound
  {
    Batch(s, guided, p, RoundTasks(batch, bound, p), RoundSize(batch, bound, p))
  }

  /** A whole phase: rounds while the queue is not empty and fewer than `bound`
      pages are visited. */
  function Phase(s: Scene, batch: nat, bound: nat, guided: bool, p: Progress): Progress
    requires batch >= 1
    decreases bound - |p.visited|, |p.queue|
  {
    if p.queue == [] || |p.visited| >= bound then p
    else
      RoundProgresses(s, batch, bound, guided, p);
      Phase(s, batch, bound, guided, Round(s, batch, bound, guided, p))
  }

  /** A batch of new, distinct URLs grows the visited set by their number and
      the log by its records; an empty one changes nothing but the queue. */
  lemma BatchGrows(s: Scene, guided: bool, p: Progress, tasks: seq<Url>, size: nat)
    requires Clean(tasks, p.visited) && size <= |p.queue|
    ensures var r := Batch(s, guided, p, tasks, size);
      && p.visited <= r.visited && |r.visited| == |p.visited| + |tasks| && p.log <= r.log
      && (tasks == [] ==> r == Progress(p.visited, p.log, p.k, p.queue[size..]))
      && (Clean(p.queue[size..], r.visited) ==> Clean(r.queue, r.visited))
  {
    FreshCount(p.visited, tasks);
    if tasks == [] {
      assert Marked(p.visited, tasks) == p.visited;
    }
  }

  /** A round visits a new page, or visits none and only shortens the queue; it
      stays within the budget. */
  lemma RoundProgresses(s: Scene, batch: nat, bound: nat, guided: bool, p: Progress)
    requires batch >= 1 && p.queue != [] && |p.visited| < bound
    ensures var r := Round(s, batch, bound, guided, p);
      && p.visited <= r.visited && p.log <= r.log
      && (|r.visited| > |p.visited| || (r.visited == p.visited && |r.queue| < |p.queue|))
      && |r.visited| <= bound
  {
    BatchGrows(s, guided, p, RoundTasks(batch, bound, p), RoundSize(batch, bound, p));
  }

  /** From a clean queue a round's batch is exactly the popped URLs, among them
      the queue's head, and the queue stays clean. */
  lemma RoundClean(s: Scene, batch: nat, bound: nat, guided: bool, p: Progress)
    requires batch >= 1 && p.queue != [] && |p.visited| < bound && Clean(p.queue, p.visited)
    ensures var size := RoundSize(batch, bound, p);
      var r := Round(s, batch, bound, guided, p);
      && RoundTasks(batch, bound, p) == p.queue[..size]
      && Clean(r.queue, r.visited) && p.queue[0] in r.visited
  {
    var size := RoundSize(batch, bound, p);
    var popped := p.queue[..size];
    PoppedFresh(p.queue, size, p.visited);
    assert popped + p.queue[size..] == p.queue;
    CleanAfterBatch(popped, p.queue[size..], p.visited, Marked(p.visited, popped));
    BatchGrows(s, guided, p, popped, size);
    assert p.queue[0] == popped[0];
  }

  /** A phase from a clean queue with budget left visits the queue's head. */
  lemma PhaseVisitsHead(s: Scene, batch: nat, bound: nat, guided: bool, p: Progress)
    requires batch >= 1 && p.queue != [] && |p.visited| < bound && Clean(p.queue, p.visited)
    ensures p.queue[0] in Phase(s, batch, bound, guided, p).visited
  {
    RoundClean(s, batch, bound, guided, p);
    PhaseEnds(s, batch, bound, guided, Round(s, batch, bound, guided, p));
  }

  /** Adding URLs that are new and distinct grows a set by their number. */
  lemma {:induction false} FreshCount(v: set<Url>, xs: seq<Url>)
    requires Clean(xs, v)
    ensures |Marked(v, xs)| == |v| + |xs|
    decreases |xs|
  {
    if xs != [] {
      var n := |xs| - 1;
      var init := xs[..n];
      assert Clean(init, v) && xs[n] !in v && xs[n] !in init;
      FreshCount(v, init);
      assert xs[n] !in Marked(v, init);
    }
  }

  /** A phase ends with an empty queue or a full budget; it only adds to the
      visited set and the log, and from a clean queue it never visits more than
      the budget allows. */
  lemma {:induction false} PhaseEnds(s: Scene, batch: nat, bound: nat, guided: bool, p: Progress)
    requires batch >= 1
    ensures var r := Phase(s, batch, bound, guided, p);
      && (r.queue == [] || |r.visited| >= bound)
      && p.visited <= r.visited && p.log <= r.log
      && |r.visited| <= Max(|p.visited|, bound)
    decreases bound - |p.visited|, |p.queue|
  {
    if p.queue != [] && |p.visited| < bound {
      RoundProgresses(s, batch, bound, guided, p);
      var n := Round(s, batch, bound, guided, p);
      PhaseEnds(s, batch, bound, guided, n);
    }
  }

  /** The crawler: its constants, the analysed goal, the crawl's domain, the
      visited set, the log of page records, and its site knowledge. */
  class Crawler {
    const policy: Policy
    const maxPages: nat
    const world: World
    const knowledge: SiteKnowledge
    var goal: Goal
    var base: Option<string>
    var visited: set<Url>
    var scraped: seq<PageRecord>

    predicate Logged()
      reads this
    {
      LoggedIn(scraped, visited)
    }

    /** What the phases read and do not change. */
    function CurrentScene(): Scene
      reads this`goal, this`base
    {
      Scene(world, policy, goal, base, knowledge.threshold)
    }

    function CurrentProgress(queue: seq<Url>): Progress
      reads this`visited, this`scraped, knowledge
    {
      Progress(visited, scraped, knowledge.State(), queue)
    }

    /** A new crawler for `objective`. */
    constructor (policy: Policy, maxPages: nat, world: World, objective: string)
      ensures this.policy == policy && this.maxPages == maxPages && this.world == world
      ensures fresh(knowledge) && knowledge.threshold == policy.threshold
      ensures knowledge.State() == EmptyKnowledge() && knowledge.understanding == InitialUnderstanding()
      ensures goal == InitialGoal(objective) && base.None? && visited == {} && scraped == []
      ensures Logged()
    {
      this.policy := policy;
      this.maxPages := maxPages;
      this.world := world;
      knowledge := new SiteKnowledge(policy.threshold);
      goal := InitialGoal(objective);
      base := None;
      visited := {};
      scraped := [];
    }

    /** `analyze_user_objective` with the model's answer. */
    method AnalyzeUserObjective(reply: Option<string>) returns (analysis: map<string, Json>)
      modifies this`goal
      ensures (analysis, goal) == AnalyzeObjective(old(goal), reply, world.parse)
    {
      var r := AnalyzeObjective(goal, reply, world.parse);
      analysis := r.0;
      goal := r.1;
    }

    /** `_crawl_pages_batch`: every URL not yet visited is marked visited before
        any page is crawled; the pages are then crawled in dispatch order and the
        failures dropped. */
    method CrawlBatch(urls: seq<Url>) returns (records: seq<PageRecord>)
      modifies this`visited, knowledge
      ensures var tasks := Enqueued([], old(visited), urls);
        && (forall u :: u in visited <==> u in old(visited) || u in tasks)
        && |visited| == |old(visited)| + |tasks|
        && (records, knowledge.State())
           == CrawlAll(old(knowledge.State()), knowledge.threshold, policy.sectioned, world, tasks)
      ensures knowledge.understanding == old(knowledge.understanding)
    {
      var tasks := MarkVisited(urls);
      records := CrawlEach(knowledge, policy.sectioned, world, tasks);
    }

    /** The first half of `_crawl_pages_batch`: each URL not yet visited is
        marked visited and becomes a task. */
    method MarkVisited(urls: seq<Url>) returns (tasks: seq<Url>)
      modifies this`visited
      ensures tasks == Enqueued([], old(visited), urls)
      ensures forall u :: u in visited <==> u in old(visited) || u in tasks
      ensures |visited| == |old(visited)| + |tasks|
    {
      tasks := [];
      for i := 0 to |urls|
        invariant tasks == Enqueued([], old(visited), urls[..i])
        invariant forall u :: u in visited <==> u in old(visited) || u in tasks
        invariant |visited| == |old(visited)| + |tasks|
      {
        assert urls[..i + 1][..i] == urls[..i];
        var u := urls[i];
        if u !in visited {
          visited := visited + {u};
          tasks := tasks + [u];
        }
      }
      assert urls[..|urls|] == urls;
    }

    /** The links a selection keeps, as the source computes them. */
    method PickUrls(sel: Selection, links: seq<LinkInfo>) returns (urls: seq<Url>)
      ensures urls == Picked(sel, goal, links)
    {
      match sel {
        case Smart(n) =>
          var selected := SelectBestLinksForRecon(goal, links, n);
          urls := LinkUrls(selected);
        case FirstN(n) =>
          urls := LinkUrls(Take(links, n));
      }
    }

    /** `for u in urls: if u not in visited and u not in queue: queue.append(u)`. */
    method Enqueue(queue: seq<Url>, urls: seq<Url>) returns (q: seq<Url>)
      ensures q == Enqueued(queue, visited, urls)
    {
      q := queue;
      for i := 0 to |urls|
        invariant q == Enqueued(queue, visited, urls[..i])
      {
        assert urls[..i + 1][..i] == urls[..i];
        if urls[i] !in visited && urls[i] !in q {
          q := q + [urls[i]];
        }
      }
      assert urls[..|urls|] == urls;
    }

    /** The handling of a batch's records: each is logged, its page is fetched
        again for links, and the links the phase chooses are enqueued. */
    method FollowLinks(records: seq<PageRecord>, queue0: seq<Url>, guided: bool) returns (queue: seq<Url>)
      requires Clean(queue0, visited)
      modifies this`scraped
      ensures scraped == old(scraped) + records
      ensures queue == FollowAll(CurrentScene(), visited, knowledge.patterns, guided, records, queue0)
      ensures Clean(queue, visited) && queue0 <= queue
    {
      ghost var sc := CurrentScene();
      ghost var hv := knowledge.patterns;
      queue := queue0;
      for i := 0 to |records|
        invariant scraped == old(scraped) + records[..i]
        invariant queue == FollowAll(sc, visited, hv, guided, records[..i], queue0)
      {
        assert records[..i + 1] == records[..i] + [records[i]];
        FollowAllStep(sc, visited, hv, guided, records, i, queue0);
        queue := FollowRecord(records[i], queue, guided);
      }
      assert records[..|records|] == records;
    }

    /** One turn of the loop over a batch's records: the record is logged and the
        links chosen from its page are queued. */
    method FollowRecord(rec: PageRecord, queue0: seq<Url>, guided: bool) returns (queue: seq<Url>)
      requires Clean(queue0, visited)
      modifies this`scraped
      ensures scraped == old(scraped) + [rec]
      ensures queue == Followed(CurrentScene(), visited, knowledge.patterns, guided, rec, queue0)
    {
      queue := queue0;
      scraped := scraped + [rec];
      var anchors := world.anchors(rec.url);
      if anchors.Some? {
        var links := ExtractLinks(anchors.value, goal, base, visited);
        if links != [] {
          var urls;
          if guided {
            urls := AskForNavigation(goal, knowledge.patterns, links, world.navReply(rec.url));
          } else {
            urls := PickUrls(policy.reconPick, links);
          }
          queue := Enqueue(queue, urls);
        }
      }
    }

    /** One phase of `crawl_website`: batches of at most `batch` URLs are taken
        from the front of the queue while it is not empty and fewer than `bound`
        pages are visited. Returns the queue left over. */
    method RunPhase(queue0: seq<Url>, bound: nat, batch: nat, guided: bool) returns (rest: seq<Url>)
      requires batch >= 1 && Clean(queue0, visited) && Logged()
      modifies this`visited, this`scraped, knowledge
      ensures Logged() && Clean(rest, visited)
      ensures rest == [] || |visited| >= bound
      ensures old(visited) <= visited && |visited| <= Max(|old(visited)|, bound)
      ensures old(scraped) <= scraped
      ensures forall i :: |old(scraped)| <= i < |scraped| ==> scraped[i].url !in old(visited)
      ensures queue0 != [] && |old(visited)| < bound ==> queue0[0] in visited
      ensures knowledge.understanding == old(knowledge.understanding)
      ensures CurrentProgress(rest)
              == Phase(CurrentScene(), batch, bound, guided, Progress(old(visited), old(scraped), old(knowledge.State()), queue0))
    {
      ghost var sc := CurrentScene();
      ghost var p0 := Progress(visited, scraped, knowledge.State(), queue0);
      var queue := queue0;
      while queue != [] && |visited| < bound
        invariant Phase(sc, batch, bound, guided, CurrentProgress(queue)) == Phase(sc, batch, bound, guided, p0)
        invariant Logged() && Clean(queue, visited)
        invariant old(visited) <= visited && old(scraped) <= scraped
        invariant forall i :: |old(scraped)| <= i < |scraped| ==> scraped[i].url !in old(visited)
        invariant knowledge.understanding == old(knowledge.understanding)
        decreases bound - |visited|
      {
        ghost var p := CurrentProgress(queue);
        queue := RunRound(queue, bound, batch, guided);
        RoundProgresses(sc, batch, bound, guided, p);
        RoundClean(sc, batch, bound, guided, p);
      }
      rest := queue;
      PhaseEnds(sc, batch, bound, guided, p0);
      if queue0 != [] && |old(visited)| < bound {
        PhaseVisitsHead(sc, batch, bound, guided, p0);
      }
    }

    /** One turn of a phase: a batch is popped from the front of the queue and
        crawled, and the links of its pages are queued. */
    method RunRound(queue0: seq<Url>, bound: nat, batch: nat, guided: bool) returns (queue: seq<Url>)
      requires batch >= 1 && queue0 != [] && |visited| < bound && Clean(queue0, visited) && Logged()
      modifies this`visited, this`scraped, knowledge
      ensures Logged()
      ensures forall i :: |old(scraped)| <= i < |scraped| ==> scraped[i].url !in old(visited)
      ensures knowledge.understanding == old(knowledge.understanding)
      ensures CurrentProgress(queue)
              == Round(CurrentScene(), batch, bound, guided, Progress(old(visited), old(scraped), old(knowledge.State()), queue0))
    {
      ghost var p := CurrentProgress(queue0);
      var size := Min(batch, Min(bound - |visited|, |queue0|));
      assert size == RoundSize(batch, bound, p);
      var urls := Unvisited(queue0[..size], visited);
      PoppedFresh(queue0, size, visited);
      CleanRest(queue0, size, visited);
      RoundClean(CurrentScene(), batch, bound, guided, p);
      queue := RunBatch(urls, queue0, size, guided);
    }

    /** The rest of a round once `size` URLs are popped: the tasks are crawled,
        and their records are logged and followed onto what is left of the queue. */
    method RunBatch(tasks: seq<Url>, queue0: seq<Url>, size: nat, guided: bool) returns (queue: seq<Url>)
      requires size <= |queue0| && Clean(tasks, visited) && Clean(queue0[size..], Marked(visited, tasks)) && Logged()
      modifies this`visited, this`scraped, knowledge
      ensures Logged()
      ensures forall i :: |old(scraped)| <= i < |scraped| ==> scraped[i].url !in old(visited)
      ensures knowledge.understanding == old(knowledge.understanding)
      ensures CurrentProgress(queue)
              == Batch(CurrentScene(), guided, Progress(old(visited), old(scraped), old(knowledge.State()), queue0), tasks, size)
    {
      ghost var v0 := visited;
      ghost var s0 := scraped;
      ghost var k0 := knowledge.State();
      EnqueueFresh(tasks, v0);
      var records := CrawlBatch(tasks);
      CrawlAllRecords(k0, knowledge.threshold, policy.sectioned, world, tasks);
      LogExtends(s0, v0, records, visited);
      assert visited == Marked(v0, tasks);
      queue := FollowLinks(records, queue0[size..], guided);
    }

    /** `urls.extend(u for u in picked if u not in visited)`. */
    method AppendUnvisited(urls: seq<Url>, picked: seq<Url>) returns (r: seq<Url>)
      ensures r == urls + Unvisited(picked, visited)
    {
      r := urls;
      for i := 0 to |picked|
        invariant r == urls + Unvisited(picked[..i], visited)
      {
        assert picked[..i + 1][..i] == picked[..i];
        if picked[i] !in visited {
          r := r + [picked[i]];
        }
      }
      assert picked[..|picked|] == picked;
    }

    /** The seeding of the deep phase: the chosen unvisited links of every logged
        page relevant enough, duplicates removed in first-seen order. */
    method SeedQueue() returns (queue: seq<Url>)
      ensures queue == Dedup(SeedLinks(scraped, goal, base, visited, world.anchors, policy.seedMin, policy.seedPick))
      ensures Clean(queue, visited)
    {
      var urls: seq<Url> := [];
      for i := 0 to |scraped|
        invariant urls == SeedLinks(scraped[..i], goal, base, visited, world.anchors, policy.seedMin, policy.seedPick)
      {
        assert scraped[..i + 1][..i] == scraped[..i];
        var rec := scraped[i];
        if rec.relevance >= policy.seedMin {
          var anchors := world.anchors(rec.url);
          if anchors.Some? {
            var links := ExtractLinks(anchors.value, goal, base, visited);
            var picked := PickUrls(policy.seedPick, links);
            urls := AppendUnvisited(urls, picked);
          }
        }
      }
      assert scraped[..|scraped|] == scraped;
      queue := Dedup(urls);
    }

    /** `crawl_website`: reconnaissance from `start` within the reconnaissance
        budget, the structure analysis merged into the site understanding, then
        the guided deep phase within `maxPages`. None where the structure analysis
        raises. */
    method CrawlWebsite(start: Url) returns (summary: Option<Summary>)
      requires policy.reconBatch >= 1 && policy.deepBatch >= 1 && Logged()
      modifies this, knowledge
      ensures Logged() && base == Some(start.netloc) && goal == old(goal)
      ensures old(visited) <= visited && old(scraped) <= scraped
      ensures |old(visited)| < ReconBudget(maxPages) ==> start in visited
      ensures |visited| <= Max(|old(visited)|, Max(ReconBudget(maxPages), maxPages))
      ensures summary.None? ==> !Hashable(PageTypes(scraped))
      ensures summary.Some? ==> summary.value == CrawlSummary(knowledge.State(), scraped)
      ensures var recon := Phase(CurrentScene(), policy.reconBatch, ReconBudget(maxPages), false,
                                 Progress(old(visited), old(scraped), old(knowledge.State()), Unvisited([start], old(visited))));
        var analysis := AnalyzeSiteStructure(PageTypes(recon.log), recon.k.patterns, world.structureReply, world.parse);
        && (summary.None? <==> analysis.None?)
        && (analysis.None? ==> visited == recon.visited && scraped == recon.log && knowledge.State() == recon.k)
        && (analysis.Some? ==>
              var seeds := Dedup(SeedLinks(recon.log, goal, base, recon.visited, world.anchors, policy.seedMin, policy.seedPick));
              var deep := Phase(CurrentScene(), policy.deepBatch, maxPages, true, Progress(recon.visited, recon.log, recon.k, seeds));
              && visited == deep.visited && scraped == deep.log && knowledge.State() == deep.k
              && knowledge.understanding == old(knowledge.understanding) + (analysis.value - LearnedKeys()))
    {
      Reconnoitre(start);
      var analysis := AnalyzeSiteStructure(PageTypes(scraped), knowledge.patterns, world.structureReply, world.parse);
      if analysis.None? {
        return None;
      }
      knowledge.Absorb(analysis.value);
      DeepCrawl();
      summary := Some(CrawlSummary(knowledge.State(), scraped));
    }

    /** The reconnaissance phase of `crawl_website`: a FIFO crawl from `start`
        within the reconnaissance budget, following the policy's link choice. */
    method Reconnoitre(start: Url)
      requires policy.reconBatch >= 1 && Logged()
      modifies this`base, this`visited, this`scraped, knowledge
      ensures Logged() && base == Some(start.netloc)
      ensures old(visited) <= visited && old(scraped) <= scraped
      ensures |old(visited)| < ReconBudget(maxPages) ==> start in visited
      ensures |visited| <= Max(|old(visited)|, ReconBudget(maxPages))
      ensures knowledge.understanding == old(knowledge.understanding)
      ensures var r := Phase(CurrentScene(), policy.reconBatch, ReconBudget(maxPages), false,
                             Progress(old(visited), old(scraped), old(knowledge.State()), Unvisited([start], old(visited))));
        visited == r.visited && scraped == r.log && knowledge.State() == r.k
    {
      base := Some(start.netloc);
      var queue := Unvisited([start], visited);
      assert start !in visited ==> queue == [start];
      var _ := RunPhase(queue, ReconBudget(maxPages), policy.reconBatch, false);
    }

    /** The deep phase of `crawl_website`: the queue seeded from the log, then a
        crawl within `maxPages` guided by the navigation advice. */
    method DeepCrawl()
      requires policy.deepBatch >= 1 && Logged()
      modifies this`visited, this`scraped, knowledge
      ensures Logged() && old(visited) <= visited && old(scraped) <= scraped
      ensures |visited| <= Max(|old(visited)|, maxPages)
      ensures knowledge.understanding == old(knowledge.understanding)
      ensures var seeds := Dedup(SeedLinks(old(scraped), goal, base, old(visited), world.anchors, policy.seedMin, policy.seedPick));
        var r := Phase(CurrentScene(), policy.deepBatch, maxPages, true, Progress(old(visited), old(scraped), old(knowledge.State()), seeds));
        visited == r.visited && scraped == r.log && knowledge.State() == r.k
    {
      var queue := SeedQueue();
      var _ := RunPhase(queue, maxPages, policy.deepBatch, true);
    }
  }

  /** The second half of `_crawl_pages_batch`: the tasks crawled in dispatch
      order, the failures dropped. */
  method CrawlEach(know: SiteKnowledge, sectioned: bool, w: World, tasks: seq<Url>)
    returns (records: seq<PageRecord>)
    modifies know
    ensures (records, know.State()) == CrawlAll(old(know.State()), know.threshold, sectioned, w, tasks)
    ensures know.understanding == old(know.understanding)
  {
    records := [];
    for i := 0 to |tasks|
      invariant (records, know.State()) == CrawlAll(old(know.State()), know.threshold, sectioned, w, tasks[..i])
      invariant know.understanding == old(know.understanding)
    {
      assert tasks[..i + 1][..i] == tasks[..i];
      var u := tasks[i];
      ghost var k0 := know.State();
      var rec := CrawlPage(know, sectioned, u, w.fetch(u), w.sectionReply(u), w.pageReply(u), w.parse);
      ghost var step := CrawlPageSpec(k0, know.threshold, sectioned, u, w.fetch(u), w.sectionReply(u), w.pageReply(u), w.parse);
      assert rec == step.0 && know.State() == step.1;
      if rec.Some? {
        records := records + [rec.value];
      }
      CrawlAllStep(old(know.State()), know.threshold, sectioned, w, tasks, i);
      ghost var prev := CrawlAll(old(know.State()), know.threshold, sectioned, w, tasks[..i]);
      assert prev.1 == k0;
      assert prev.0 + (if step.0.Some? then [step.0.value] else []) == records;
      assert tasks[i] == u;
    }
    assert tasks[..|tasks|] == tasks;
  }

  // ---------------------------------------------------------------------------
  // The closing summary

  /** As written: a page whose answer reports a null relevance is still logged,
      with the fallback record, but the null stays in the relevance map and the
      closing summary raises, losing the whole crawl. */
  lemma NullRelevanceBreaksSummary(threshold: int, url: Url, page: Page, reply: Option<string>,
                                   parse: string -> Option<Json>)
    requires DecodeReply(reply, parse, true) == Some(JObj(map["relevance_score" := JNull]))
    ensures var r := CrawlPageSpec(EmptyKnowledge(), threshold, false, url, Some(page), None, reply, parse);
      && r.0 == Some(RecordOf(url, page, FallbackExtraction(page)))
      && r.1.relevance == map[url := JNull] && r.1.highValuePages == []
      && SummaryAsWritten(r.1, [r.0.value]).None?
  {
    var k0 := EmptyKnowledge();
    var m := map["relevance_score" := JNull];
    assert Get(m, "relevance_score", JInt(0)) == JNull;
    var lr := Learn(k0, threshold, url, m);
    assert !lr.1 && lr.0.relevance == map[url := JNull] && lr.0.highValuePages == [];
    assert WholePage(k0, threshold, url, page, reply, parse) == (FallbackExtraction(page), lr.0);
    DispatchRule(k0, threshold, false, url, page, None, reply, parse);
    FallbackShape(page);
    assert KeyContentOk(FallbackExtraction(page));
    var r := CrawlPageSpec(k0, threshold, false, url, Some(page), None, reply, parse);
    assert r == (Some(RecordOf(url, page, FallbackExtraction(page))), lr.0);
    assert SummaryRaises(lr.0.relevance) by {
      assert url in lr.0.relevance && AsNumber(lr.0.relevance[url]).None?;
    }
  }

  /** Corrected: the summary averages the numeric relevances, so the same page
      leaves a summary without a score for it. */
  lemma NullRelevanceSkipped(threshold: int, url: Url, page: Page, reply: Option<string>,
                             parse: string -> Option<Json>)
    requires DecodeReply(reply, parse, true) == Some(JObj(map["relevance_score" := JNull]))
    ensures var r := CrawlPageSpec(EmptyKnowledge(), threshold, false, url, Some(page), None, reply, parse);
      && r.0.Some?
      && CrawlSummary(r.1, [r.0.value]) == Summary(1, 0, map[])
  {
    NullRelevanceBreaksSummary(threshold, url, page, reply, parse);
    var r := CrawlPageSpec(EmptyKnowledge(), threshold, false, url, Some(page), None, reply, parse);
    NullOnlySummary(r.1, r.0.value, url);
  }

  /** The corrected summary of one page whose only recorded relevance is null. */
  lemma NullOnlySummary(k: KnowledgeState, rec: PageRecord, url: Url)
    requires k.relevance == map[url := JNull] && k.highValuePages == []
    ensures CrawlSummary(k, [rec]) == Summary(1, 0, map[])
  {
    assert NumericScores(k.relevance) == map[];
  }

  /** Where the source's summary does not raise, it is the corrected summary, and
      every recorded relevance is averaged. */
  lemma SummaryAgrees(k: KnowledgeState, records: seq<PageRecord>)
    requires !SummaryRaises(k.relevance)
    ensures SummaryAsWritten(k, records) == Some(CrawlSummary(k, records))
    ensures CrawlSummary(k, records).scores.Keys == k.relevance.Keys
  {
    assert forall u :: u in k.relevance ==> AsNumber(k.relevance[u]).Some?;
  }

  // ---------------------------------------------------------------------------
  // Lemmas about the loops

  lemma AppendNoDup(q: seq<Url>, u: Url)
    ensures NoDup(q) && u !in q ==> NoDup(q + [u])
  {
    if NoDup(q) && u !in q {
      forall i, j | 0 <= i < j < |q| + 1 ensures (q + [u])[i] != (q + [u])[j] {
        if j == |q| {
          assert (q + [u])[i] == q[i];
        }
      }
    }
  }

  /** The URLs taken from the front of a clean queue are all unvisited, so the
      source's second visited check never skips one. */
  lemma PoppedFresh(queue: seq<Url>, size: nat, visited: set<Url>)
    requires Clean(queue, visited) && size <= |queue|
    ensures Unvisited(queue[..size], visited) == queue[..size]
    ensures Enqueued([], visited, queue[..size]) == queue[..size]
  {
    EnqueueFresh(queue[..size], visited);
  }

  /** Enqueuing a clean list of URLs on an empty queue keeps it as it is. */
  lemma {:induction false} EnqueueFresh(urls: seq<Url>, visited: set<Url>)
    requires Clean(urls, visited)
    ensures Enqueued([], visited, urls) == urls
    ensures Unvisited(urls, visited) == urls
    decreases |urls|
  {
    if urls != [] {
      var n := |urls| - 1;
      assert Clean(urls[..n], visited);
      EnqueueFresh(urls[..n], visited);
      assert urls[n] !in urls[..n];
      assert urls[..n] + [urls[n]] == urls;
    }
  }

  /** Once a batch is visited, the rest of the queue is still clean. */
  lemma CleanAfterBatch(popped: seq<Url>, rest: seq<Url>, v0: set<Url>, v1: set<Url>)
    requires Clean(popped + rest, v0)
    requires forall u :: u in v1 <==> u in v0 || u in popped
    ensures Clean(rest, v1)
  {
    var all := popped + rest;
    forall i, j | 0 <= i < j < |rest| ensures rest[i] != rest[j] {
      assert rest[i] == all[|popped| + i] && rest[j] == all[|popped| + j];
    }
    forall i | 0 <= i < |rest| ensures rest[i] !in v1 {
      assert rest[i] == all[|popped| + i];
      forall k | 0 <= k < |popped| ensures popped[k] != rest[i] {
        assert popped[k] == all[k];
      }
    }
  }

  /** Once the front of a clean queue is visited, the rest is still clean. */
  lemma CleanRest(queue: seq<Url>, size: nat, visited: set<Url>)
    requires Clean(queue, visited) && size <= |queue|
    ensures Clean(queue[size..], Marked(visited, queue[..size]))
  {
    assert queue[..size] + queue[size..] == queue;
    CleanAfterBatch(queue[..size], queue[size..], visited, Marked(visited, queue[..size]));
  }

  /** Logging the records of a batch of fresh pages keeps the log consistent. */
  lemma LogExtends(s0: seq<PageRecord>, v0: set<Url>, records: seq<PageRecord>, v1: set<Url>)
    requires LoggedIn(s0, v0) && v0 <= v1 && DistinctUrls(records)
    requires forall i :: 0 <= i < |records| ==> records[i].url in v1 && records[i].url !in v0
    ensures LoggedIn(s0 + records, v1)
  {
    var all := s0 + records;
    forall i, j | 0 <= i < j < |all| ensures all[i].url != all[j].url {
      if j >= |s0| && i < |s0| {
        assert all[i] == s0[i] && all[j] == records[j - |s0|];
      } else if i >= |s0| {
        assert all[i] == records[i - |s0|] && all[j] == records[j - |s0|];
      }
    }
  }
}
