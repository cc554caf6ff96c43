/** What the crawler learns while it crawls (`_update_site_knowledge`, the
    `site_understanding` dictionary and `_analyze_site_structure`): the relevance
    reported for every extracted page, the high-value pages in the order found,
    their URL patterns without repeats, and the high-value pages grouped by page
    type. The high-value threshold is a parameter: 6 in agentic_crawler.py and
    agentic_crawler_local.py, 7 in main.py. */
module Knowledge {
  import opened Wrappers
  import opened Seqs
  import opened JsonValue
  import opened Fences
  import opened Urls

  /** `{'url': url, 'pattern': url_pattern, 'relevance': relevance}`. */
  datatype PatternEntry = PatternEntry(url: Url, pattern: string, relevance: int)

  /** The learned state: `page_relevance_scores`, `high_value_pages`,
      `site_understanding['high_value_url_patterns']` and
      `site_understanding['content_patterns']`. */
  datatype KnowledgeState = KnowledgeState(
    relevance: map<Url, Json>,
    highValuePages: seq<Url>,
    patterns: seq<string>,
    buckets: map<Json, seq<PatternEntry>>)

  function EmptyKnowledge(): KnowledgeState {
    KnowledgeState(map[], [], [], map[])
  }

  /** The dictionary key a page type stands for: Python's `True` and `1` (`False`
      and `0`) are the same key; lists and objects cannot be keys (None). */
  function TypeKey(j: Json): Option<Json> {
    match j
    case JArr(_) => None
    case JObj(_) => None
    case JBool(b) => Some(JInt(if b then 1 else 0))
    case _ => Some(j)
  }

  /** A `defaultdict(list)` lookup. */
  function BucketOf(buckets: map<Json, seq<PatternEntry>>, key: Json): seq<PatternEntry> {
    if key in buckets then buckets[key] else []
  }

  /** `if p not in ps: ps.append(p)`. */
  function InsertAbsent(ps: seq<string>, p: string): (r: seq<string>)
    ensures p in r && ps <= r && |r| <= |ps| + 1
  {
    if p in ps then ps else ps + [p]
  }

  /** `_update_site_knowledge(url, result)`: the state afterwards and whether the
      call returned normally. It raises (false) on a relevance that cannot be
      compared with a number, after recording it, and on a list or object page
      type of a high-value page, after recording the page and its pattern. */
  function Learn(k: KnowledgeState, threshold: int, url: Url, result: map<string, Json>): (KnowledgeState, bool) {
    var rel := Get(result, "relevance_score", JInt(0));
    var k1 := k.(relevance := k.relevance[url := rel]);
    match AsNumber(rel)
    case None => (k1, false)
    case Some(n) =>
      if n < threshold then (k1, true)
      else
        var pattern := UrlPattern(url);
        var k2 := k1.(highValuePages := k1.highValuePages + [url], patterns := InsertAbsent(k1.patterns, pattern));
        var pageType := Get(result, "page_type", JNull);
        if !Truthy(pageType) then (k2, true)
        else match TypeKey(pageType)
          case None => (k2, false)
          case Some(key) =>
            (k2.(buckets := k2.buckets[key := BucketOf(k2.buckets, key) + [PatternEntry(url, pattern, n)]]), true)
  }

  /** The keys of `site_understanding` besides the learned lists, as initialised. */
  function InitialUnderstanding(): map<string, Json> {
    map["site_type" := JNull, "main_sections" := JArr([]), "recommended_focus" := JStr("")]
  }

  /** The keys the learned state keeps apart from the rest of `site_understanding`. */
  function LearnedKeys(): set<string> {
    {"high_value_url_patterns", "content_patterns"}
  }

  /** The crawler's site knowledge, updated in place. */
  class SiteKnowledge {
    const threshold: int
    var relevance: map<Url, Json>
    var highValuePages: seq<Url>
    var patterns: seq<string>
    var buckets: map<Json, seq<PatternEntry>>
    var understanding: map<string, Json>

    function State(): KnowledgeState
      reads this
    {
      KnowledgeState(relevance, highValuePages, patterns, buckets)
    }

    constructor (threshold: int)
      ensures this.threshold == threshold
      ensures State() == EmptyKnowledge() && understanding == InitialUnderstanding()
    {
      this.threshold := threshold;
      relevance := map[];
      highValuePages := [];
      patterns := [];
      buckets := map[];
      understanding := InitialUnderstanding();
    }

    /** `_update_site_knowledge`; `ok` is false where the source raises. */
    method Update(url: Url, result: map<string, Json>) returns (ok: bool)
      modifies this
      ensures (State(), ok) == Learn(old(State()), threshold, url, result)
      ensures understanding == old(understanding)
    {
      var rel := Get(result, "relevance_score", JInt(0));
      relevance := relevance[url := rel];
      var n := AsNumber(rel);
      if n.None? {
        return false;
      }
      if n.value < threshold {
        return true;
      }
      highValuePages := highValuePages + [url];
      var pattern := UrlPattern(url);
      if pattern !in patterns {
        patterns := patterns + [pattern];
      }
      var pageType := Get(result, "page_type", JNull);
      if !Truthy(pageType) {
        return true;
      }
      var key := TypeKey(pageType);
      if key.None? {
        return false;
      }
      buckets := buckets[key.value := BucketOf(buckets, key.value) + [PatternEntry(url, pattern, n.value)]];
      ok := true;
    }

    /** `site_understanding.update(analysis)`: the analysis's keys replace or join
        the other keys; the learned state is untouched. */
    method Absorb(analysis: map<string, Json>)
      modifies this
      ensures understanding == old(understanding) + (analysis - LearnedKeys())
      ensures State() == old(State())
    {
      understanding := understanding + (analysis - LearnedKeys());
    }
  }

  /** The relevance of the page is always recorded, whatever else happens. */
  lemma RelevanceAlwaysRecorded(k: KnowledgeState, threshold: int, url: Url, result: map<string, Json>)
    ensures Learn(k, threshold, url, result).0.relevance
            == k.relevance[url := Get(result, "relevance_score", JInt(0))]
  {
  }

  /** Below the threshold only the relevance map changes, and the call returns
      normally exactly when the relevance is a number. */
  lemma BelowThresholdOnlyRelevance(k: KnowledgeState, threshold: int, url: Url, result: map<string, Json>)
    requires var n := AsNumber(Get(result, "relevance_score", JInt(0))); n.None? || n.value < threshold
    ensures var r := Learn(k, threshold, url, result);
      && r.0 == k.(relevance := r.0.relevance)
      && (r.1 <==> AsNumber(Get(result, "relevance_score", JInt(0))).Some?)
  {
  }

  /** At or above the threshold the page is appended to the high-value pages, its
      pattern is added at the end unless already known (so known patterns keep
      their order and no pattern repeats), and the page joins the bucket of its
      page type when it has one; other buckets are unchanged. */
  lemma HighValueLearned(k: KnowledgeState, threshold: int, url: Url, result: map<string, Json>)
    requires var n := AsNumber(Get(result, "relevance_score", JInt(0))); n.Some? && n.value >= threshold
    ensures var r := Learn(k, threshold, url, result).0;
      var n := AsNumber(Get(result, "relevance_score", JInt(0))).value;
      var pageType := Get(result, "page_type", JNull);
      && r.highValuePages == k.highValuePages + [url]
      && k.patterns <= r.patterns && UrlPattern(url) in r.patterns
      && (NoDup(k.patterns) ==> NoDup(r.patterns))
      && (UrlPattern(url) in k.patterns ==> r.patterns == k.patterns)
      && (!Truthy(pageType) ==> r.buckets == k.buckets && Learn(k, threshold, url, result).1)
      && (Truthy(pageType) && TypeKey(pageType).Some? ==>
            var key := TypeKey(pageType).value;
            && r.buckets[key] == BucketOf(k.buckets, key) + [PatternEntry(url, UrlPattern(url), n)]
            && (forall other :: other != key ==> BucketOf(r.buckets, other) == BucketOf(k.buckets, other))
            && Learn(k, threshold, url, result).1)
  {
    var r := Learn(k, threshold, url, result).0;
    if NoDup(k.patterns) && UrlPattern(url) !in k.patterns {
      InsertNoDup(k.patterns, UrlPattern(url));
    }
  }

  lemma InsertNoDup(ps: seq<string>, p: string)
    requires NoDup(ps) && p !in ps
    ensures NoDup(ps + [p])
  {
    forall i, j | 0 <= i < j < |ps| + 1 ensures (ps + [p])[i] != (ps + [p])[j] {
      if j == |ps| {
        assert (ps + [p])[i] == ps[i];
      }
    }
  }

  /** A list or object page type on a high-value page makes the call raise after
      the page and its pattern are recorded, with the buckets unchanged. */
  lemma UnhashableTypeRaises(k: KnowledgeState, threshold: int, url: Url, result: map<string, Json>)
    requires var n := AsNumber(Get(result, "relevance_score", JInt(0))); n.Some? && n.value >= threshold
    requires Get(result, "page_type", JNull).JArr? || Get(result, "page_type", JNull).JObj?
    requires Truthy(Get(result, "page_type", JNull))
    ensures var r := Learn(k, threshold, url, result);
      && !r.1 && r.0.highValuePages == k.highValuePages + [url] && r.0.buckets == k.buckets
  {
  }

  /** Learning the same page twice records its pattern once. */
  lemma PatternInsertIdempotent(k: KnowledgeState, threshold: int, url: Url, result: map<string, Json>)
    ensures var once := Learn(k, threshold, url, result).0;
      Learn(once, threshold, url, result).0.patterns == once.patterns
  {
  }

  /** A page of relevance 6 is high-value under threshold 6 but not under 7. */
  lemma ThresholdsDiffer(k: KnowledgeState, url: Url, result: map<string, Json>)
    requires Get(result, "relevance_score", JInt(0)) == JInt(6)
    ensures Learn(k, 6, url, result).0.highValuePages == k.highValuePages + [url]
    ensures Learn(k, 7, url, result).0.highValuePages == k.highValuePages
    ensures Learn(k, 7, url, result).0.patterns == k.patterns
  {
  }

  // ---------------------------------------------------------------------------
  // Site-structure analysis

  /** The page types in first-seen order, one per dictionary key. */
  function DistinctTypes(pageTypes: seq<Json>): (r: seq<Json>)
    ensures |r| <= |pageTypes|
  {
    if pageTypes == [] then []
    else
      var n := |pageTypes| - 1;
      var prev := DistinctTypes(pageTypes[..n]);
      if KeySeen(prev, TypeKey(pageTypes[n])) then prev
      else prev + [pageTypes[n]]
  }

  predicate KeySeen(xs: seq<Json>, key: Option<Json>) {
    exists i :: 0 <= i < |xs| && TypeKey(xs[i]) == key
  }

  predicate Hashable(pageTypes: seq<Json>) {
    forall k :: 0 <= k < |pageTypes| ==> TypeKey(pageTypes[k]).Some?
  }

  /** The analysis returned when the model's answer cannot be used. */
  function StructureFallback(pageTypes: seq<Json>, patterns: seq<string>): map<string, Json> {
    map[
      "site_type" := JStr("unknown"),
      "most_valuable_page_types" := JArr(Take(DistinctTypes(pageTypes), 2)),
      "recommended_focus" := JStr("Continue crawling all page types"),
      "high_priority_patterns" := StrArr(patterns),
      "strategy" := JStr("continue_deep")
    ]
  }

  /** `_analyze_site_structure` over the page types of the records crawled so far:
      None when the source raises outside its `try` (a list or object page type
      cannot be a key of `page_types`); only a "```json" fence is unwrapped; an
      answer that is not an object falls back. */
  function AnalyzeSiteStructure(pageTypes: seq<Json>, patterns: seq<string>, reply: Option<string>,
                                parse: string -> Option<Json>): (r: Option<map<string, Json>>)
    ensures r.Some? <==> Hashable(pageTypes)
  {
    if !Hashable(pageTypes) then None
    else match DecodeReply(reply, parse, false)
      case Some(JObj(m)) => Some(m)
      case _ => Some(StructureFallback(pageTypes, patterns))
  }

  /** No two of the distinct page types share a key. */
  lemma {:induction false} DistinctTypesKeys(pageTypes: seq<Json>)
    ensures forall i, j :: 0 <= i < j < |DistinctTypes(pageTypes)| ==>
      TypeKey(DistinctTypes(pageTypes)[i]) != TypeKey(DistinctTypes(pageTypes)[j])
  {
    if pageTypes != [] {
      var n := |pageTypes| - 1;
      var prev := DistinctTypes(pageTypes[..n]);
      DistinctTypesKeys(pageTypes[..n]);
      var r := DistinctTypes(pageTypes);
      if !KeySeen(prev, TypeKey(pageTypes[n])) {
        forall i, j | 0 <= i < j < |r| ensures TypeKey(r[i]) != TypeKey(r[j]) {
          assert r[i] == prev[i];
          if j == |prev| {
            assert TypeKey(prev[i]) != TypeKey(pageTypes[n]);
          } else {
            assert r[j] == prev[j];
          }
        }
      }
    }
  }

  /** Every page type's key is represented among the distinct page types. */
  lemma {:induction false} DistinctTypesCover(pageTypes: seq<Json>)
    ensures forall k :: 0 <= k < |pageTypes| ==> KeySeen(DistinctTypes(pageTypes), TypeKey(pageTypes[k]))
  {
    if pageTypes != [] {
      var n := |pageTypes| - 1;
      var prev := DistinctTypes(pageTypes[..n]);
      DistinctTypesCover(pageTypes[..n]);
      var r := DistinctTypes(pageTypes);
      forall k | 0 <= k < |pageTypes| ensures KeySeen(r, TypeKey(pageTypes[k])) {
        if k < n {
          assert pageTypes[..n][k] == pageTypes[k];
          assert KeySeen(prev, TypeKey(pageTypes[k]));
          var i :| 0 <= i < |prev| && TypeKey(prev[i]) == TypeKey(pageTypes[k]);
          assert r[i] == prev[i];
        } else if !KeySeen(prev, TypeKey(pageTypes[n])) {
          assert r[|prev|] == pageTypes[n];
        }
      }
    }
  }

  /** Every distinct page type is one of the page types. */
  lemma {:induction false} DistinctTypesFrom(pageTypes: seq<Json>)
    ensures forall i :: 0 <= i < |DistinctTypes(pageTypes)| ==> DistinctTypes(pageTypes)[i] in pageTypes
  {
    if pageTypes != [] {
      var n := |pageTypes| - 1;
      var prev := DistinctTypes(pageTypes[..n]);
      DistinctTypesFrom(pageTypes[..n]);
      var r := DistinctTypes(pageTypes);
      forall i | 0 <= i < |r| ensures r[i] in pageTypes {
        if i < |prev| {
          assert r[i] == prev[i];
          assert prev[i] in pageTypes[..n];
          assert pageTypes[..n] <= pageTypes;
        } else {
          assert r[i] == pageTypes[n];
        }
      }
    }
  }

  /** The fallback names at most two page types, all of them seen, and hands the
      learned patterns on as the patterns to prioritise. */
  lemma StructureFallbackSpec(pageTypes: seq<Json>, patterns: seq<string>, reply: Option<string>,
                              parse: string -> Option<Json>)
    requires Hashable(pageTypes)
    requires DecodeReply(reply, parse, false).None? || !DecodeReply(reply, parse, false).value.JObj?
    ensures var r := AnalyzeSiteStructure(pageTypes, patterns, reply, parse).value;
      var types := r["most_valuable_page_types"];
      && types.JArr? && |types.items| <= 2
      && (forall i :: 0 <= i < |types.items| ==> types.items[i] in pageTypes)
      && StrItems(r["high_priority_patterns"]) == patterns
      && r["strategy"] == JStr("continue_deep")
  {
    DistinctTypesFrom(pageTypes);
    StrArrRoundTrip(patterns);
    var d := DistinctTypes(pageTypes);
    assert forall i :: 0 <= i < |Take(d, 2)| ==> Take(d, 2)[i] == d[i];
  }
}
