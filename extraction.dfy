/** Content extraction and the page record (`_extract_content_with_ai`,
    `_extract_content_by_sections`, `_extract_content_whole_page` and
    `_crawl_page`). A page with two or more sections is analysed section by
    section (agentic_crawler.py only); otherwise, and whenever the section-wise
    path fails, the page is analysed whole; a whole-page analysis that fails gives
    a fixed fallback extraction. Every extraction that is kept is learned from. */
module Extraction {
  import opened Wrappers
  import opened Seqs
  import opened Text
  import opened JsonValue
  import opened Fences
  import opened Urls
  import opened Sections
  import opened Knowledge

  /** A fetched page once scripts, styles, navigation, headers and footers are
      removed: the metadata title, the `<title>` text, the page text
      (`get_text(separator='\n', strip=True)`), the stripped texts of the h1-h3
      headers in document order, and the content blocks. */
  datatype Page = Page(metaTitle: Option<string>, title: Option<string>, text: string,
                       headers: seq<string>, blocks: seq<Block>)

  const MaxFallbackHeaders: nat := 15
  const MaxExcerpt: nat := 500
  /** A section scoring at least this much contributes its extracted content. */
  const ContentScore: int := 4

  /** The value of a number in a comparison (0 for what is not a number). */
  function Score(j: Json): int {
    AsNumber(j).GetOr(0)
  }

  /** Python's `str()` of a number: booleans print as `True` and `False`. */
  function NumberText(j: Json): string {
    match j
    case JBool(b) => if b then "True" else "False"
    case JInt(i) => IntToString(i)
    case _ => ""
  }

  /** The extraction used when the whole-page analysis fails. */
  function FallbackExtraction(p: Page): map<string, Json> {
    map[
      "page_type" := JStr("unknown"),
      "relevance_score" := JInt(5),
      "key_content" := JObj(map[
        "title" := JStr(p.title.GetOr("No title")),
        "headers" := StrArr(Take(NonEmpty(p.headers), MaxFallbackHeaders)),
        "text_excerpt" := JStr(Take(p.text, MaxExcerpt))]),
      "reasoning" := JStr("Fallback extraction due to error"),
      "content_summary" := JStr("Content extracted with fallback method")
    ]
  }

  /** `_extract_content_whole_page`: the extraction and the knowledge afterwards.
      A decoded object is learned from and returned, unless learning from it
      raises, in which case the fallback is returned from the partly updated
      knowledge; no answer, or one that does not decode to an object, gives the
      fallback with the knowledge unchanged. */
  function WholePage(k: KnowledgeState, threshold: int, url: Url, page: Page, reply: Option<string>,
                     parse: string -> Option<Json>): (map<string, Json>, KnowledgeState) {
    match DecodeReply(reply, parse, true)
    case Some(JObj(m)) =>
      var (k2, ok) := Learn(k, threshold, url, m);
      if ok then (m, k2) else (FallbackExtraction(page), k2)
    case _ => (FallbackExtraction(page), k)
  }

  // ---------------------------------------------------------------------------
  // Section-wise merge

  /** The content merged so far: `key_content` and `section_scores`. */
  datatype Merge = Merge(keyContent: map<string, Json>, scores: seq<Json>)

  /** The items `for section_analysis in extracted.get('sections_analysis', [])`
      visits, or None when that loop raises: a list gives its items, an empty
      string or object gives none, and anything else cannot be looped over with
      `.get` on its items. */
  function SectionItems(j: Json): Option<seq<Json>> {
    match j
    case JArr(xs) => Some(xs)
    case JStr(s) => if s == [] then Some([]) else None
    case JObj(m) => if m == map[] then Some([]) else None
    case _ => None
  }

  /** The `key_content` key of a contributing section: its id (a number), then the
      name of the section it indexes (Python indexing, negative ids counting from
      the end) or `section_<id>` for an id past the end. None where the source
      raises: an id that is not a number, or one before the start. */
  function SectionKey(sections: seq<Section>, sid: Json): Option<string> {
    match AsNumber(sid)
    case None => None
    case Some(i) =>
      var t := "section_" + NumberText(sid);
      if i >= |sections| then Some(t + "_" + t)
      else if i >= 0 then Some(t + "_" + sections[i].name)
      else if i >= -|sections| then Some(t + "_" + sections[|sections| + i].name)
      else None
  }

  /** The score a section item reports (`get('relevance_score', 0)`). */
  function Reported(item: Json): Json {
    if item.JObj? then Get(item.fields, "relevance_score", JInt(0)) else JNull
  }

  /** The item writes its extracted content under `key` into `key_content`. */
  predicate Writes(sections: seq<Section>, item: Json, key: string) {
    && item.JObj?
    && Score(Reported(item)) >= ContentScore
    && AsNumber(Reported(item)).Some?
    && "extracted_content" in item.fields
    && SectionKey(sections, Get(item.fields, "section_id", JNull)) == Some(key)
  }

  /** One turn of the merge loop; None where it raises. */
  function MergeStep(sections: seq<Section>, acc: Merge, item: Json): Option<Merge> {
    if !item.JObj? then None
    else
      var rel := Get(item.fields, "relevance_score", JInt(0));
      match AsNumber(rel)
      case None => None
      case Some(n) =>
        var scored := acc.(scores := acc.scores + [rel]);
        if n < ContentScore || "extracted_content" !in item.fields then Some(scored)
        else match SectionKey(sections, Get(item.fields, "section_id", JNull))
          case None => None
          case Some(key) => Some(scored.(keyContent := scored.keyContent[key := item.fields["extracted_content"]]))
  }

  /** The merge loop over the items, in order. */
  function MergeAll(sections: seq<Section>, items: seq<Json>): Option<Merge>
    decreases |items|
  {
    if items == [] then Some(Merge(map[], []))
    else match MergeAll(sections, items[..|items| - 1])
      case None => None
      case Some(acc) => MergeStep(sections, acc, items[|items| - 1])
  }

  /** Python's `max(scores)`: the first of the greatest scores; 0 when there are none. */
  function Best(scores: seq<Json>): Json
    decreases |scores|
  {
    if scores == [] then JInt(0)
    else if |scores| == 1 then scores[0]
    else
      var m := Best(scores[..|scores| - 1]);
      if Score(scores[|scores| - 1]) > Score(m) then scores[|scores| - 1] else m
  }

  /** The result `_extract_content_by_sections` builds from the decoded answer, or
      None where building it raises. */
  function Merged(sections: seq<Section>, extracted: Json): Option<map<string, Json>> {
    if !extracted.JObj? then None
    else
      var x := extracted.fields;
      match SectionItems(Get(x, "sections_analysis", JArr([])))
      case None => None
      case Some(items) =>
        match MergeAll(sections, items)
        case None => None
        case Some(acc) => Some(MergedResult(sections, x, acc))
  }

  function MergedResult(sections: seq<Section>, x: map<string, Json>, acc: Merge): map<string, Json> {
    var overall := Best(acc.scores);
    map[
      "page_type" := Get(x, "page_type", JStr("unknown")),
      "relevance_score" := overall,
      "key_content" := JObj(acc.keyContent),
      "sections_analysis" := Get(x, "sections_analysis", JArr([])),
      "reasoning" := JStr("Analyzed " + NatToString(|sections|) + " sections. Best section scored "
                          + NumberText(overall) + "/10."),
      "content_summary" := Get(x, "content_summary", JStr("No summary available"))
    ]
  }

  /** `_extract_content_by_sections`: a merged result is learned from and returned;
      if the answer is missing or cannot be merged, or learning raises, the page is
      analysed whole (from the knowledge as it then stands). */
  function SectionWise(k: KnowledgeState, threshold: int, url: Url, page: Page, sections: seq<Section>,
                       sectionReply: Option<string>, pageReply: Option<string>,
                       parse: string -> Option<Json>): (map<string, Json>, KnowledgeState) {
    var d := DecodeReply(sectionReply, parse, true);
    if d.None? then WholePage(k, threshold, url, page, pageReply, parse)
    else match Merged(sections, d.value)
      case None => WholePage(k, threshold, url, page, pageReply, parse)
      case Some(result) =>
        var (k2, ok) := Learn(k, threshold, url, result);
        if ok then (result, k2) else WholePage(k2, threshold, url, page, pageReply, parse)
  }

  /** `_extract_content_with_ai`: section-wise when the crawler analyses sections
      and the page has at least two. */
  function Extract(k: KnowledgeState, threshold: int, sectioned: bool, url: Url, page: Page,
                   sectionReply: Option<string>, pageReply: Option<string>,
                   parse: string -> Option<Json>): (map<string, Json>, KnowledgeState) {
    var sections := PageSections(page.blocks);
    if sectioned && |sections| >= 2 then SectionWise(k, threshold, url, page, sections, sectionReply, pageReply, parse)
    else WholePage(k, threshold, url, page, pageReply, parse)
  }

  // ---------------------------------------------------------------------------
  // The page record

  /** The fields of `page_data` the crawl uses afterwards. */
  datatype PageRecord = PageRecord(url: Url, title: string, extraction: map<string, Json>,
                                   relevance: int, pageType: Json)

  function RecordOf(url: Url, page: Page, ex: map<string, Json>): PageRecord {
    PageRecord(url, page.metaTitle.GetOr("No title"), ex,
               Score(Get(ex, "relevance_score", JInt(0))), Get(ex, "page_type", JStr("unknown")))
  }

  /** The section breakdown agentic_crawler.py prints can be printed: a truthy
      `sections_analysis` is a list of objects whose scores compare with 7. */
  predicate SectionReportOk(ex: map<string, Json>) {
    var sa := Get(ex, "sections_analysis", JArr([]));
    !Truthy(sa)
    || (sa.JArr? && forall k :: 0 <= k < |sa.items| ==>
          sa.items[k].JObj? && AsNumber(Get(sa.items[k].fields, "relevance_score", JInt(0))).Some?)
  }

  /** A truthy `key_content` has `keys()`. */
  predicate KeyContentOk(ex: map<string, Json>) {
    var kc := Get(ex, "key_content", JObj(map[]));
    !Truthy(kc) || kc.JObj?
  }

  /** `_crawl_page`: None when the fetch fails or printing the summary raises; the
      knowledge is what the extraction left. */
  function CrawlPageSpec(k: KnowledgeState, threshold: int, sectioned: bool, url: Url, fetched: Option<Page>,
                         sectionReply: Option<string>, pageReply: Option<string>,
                         parse: string -> Option<Json>): (r: (Option<PageRecord>, KnowledgeState))
    ensures r.0.Some? ==> r.0.value.url == url && fetched.Some?
  {
    match fetched
    case None => (None, k)
    case Some(page) =>
      var (ex, k2) := Extract(k, threshold, sectioned, url, page, sectionReply, pageReply, parse);
      if (sectioned && !SectionReportOk(ex)) || !KeyContentOk(ex) then (None, k2)
      else (Some(RecordOf(url, page, ex)), k2)
  }

  // ---------------------------------------------------------------------------
  // The operations, on the crawler's knowledge

  method ExtractWholePage(know: SiteKnowledge, url: Url, page: Page, reply: Option<string>,
                          parse: string -> Option<Json>) returns (result: map<string, Json>)
    modifies know
    ensures (result, know.State()) == WholePage(old(know.State()), know.threshold, url, page, reply, parse)
    ensures know.understanding == old(know.understanding)
  {
    var d := DecodeReply(reply, parse, true);
    ghost var k0 := know.State();
    if d.Some? && d.value.JObj? {
      var ok := know.Update(url, d.value.fields);
      if ok {
        WholePageAnswerUsed(k0, know.threshold, url, page, reply, parse);
        return d.value.fields;
      }
      WholePageLearnRaises(k0, know.threshold, url, page, reply, parse);
    } else {
      WholePageUnreadable(k0, know.threshold, url, page, reply, parse);
    }
    result := FallbackExtraction(page);
  }

  /** The merge loop of `_extract_content_by_sections`. */
  method MergeSectionReplies(sections: seq<Section>, extracted: Json) returns (r: Option<map<string, Json>>)
    ensures r == Merged(sections, extracted)
  {
    if !extracted.JObj? {
      return None;
    }
    var x := extracted.fields;
    var found := SectionItems(Get(x, "sections_analysis", JArr([])));
    if found.None? {
      return None;
    }
    var items := found.value;
    var keyContent: map<string, Json> := map[];
    var scores: seq<Json> := [];
    var i := 0;
    while i < |items|
      invariant 0 <= i <= |items|
      invariant MergeAll(sections, items[..i]) == Some(Merge(keyContent, scores))
    {
      var item := items[i];
      assert items[..i + 1][..i] == items[..i];
      assert MergeAll(sections, items[..i + 1]) == MergeStep(sections, Merge(keyContent, scores), item);
      if !item.JObj? {
        MergeFailureSticks(sections, items, i + 1);
        return None;
      }
      var rel := Get(item.fields, "relevance_score", JInt(0));
      var n := AsNumber(rel);
      if n.None? {
        MergeFailureSticks(sections, items, i + 1);
        return None;
      }
      scores := scores + [rel];
      if n.value >= ContentScore && "extracted_content" in item.fields {
        var key := SectionKey(sections, Get(item.fields, "section_id", JNull));
        if key.None? {
          MergeFailureSticks(sections, items, i + 1);
          return None;
        }
        keyContent := keyContent[key.value := item.fields["extracted_content"]];
      }
      i := i + 1;
    }
    assert items[..|items|] == items;
    r := Some(MergedResult(sections, x, Merge(keyContent, scores)));
  }

  method ExtractBySections(know: SiteKnowledge, url: Url, page: Page, sections: seq<Section>,
                           sectionReply: Option<string>, pageReply: Option<string>,
                           parse: string -> Option<Json>) returns (result: map<string, Json>)
    modifies know
    ensures (result, know.State())
            == SectionWise(old(know.State()), know.threshold, url, page, sections, sectionReply, pageReply, parse)
    ensures know.understanding == old(know.understanding)
  {
    var d := DecodeReply(sectionReply, parse, true);
    ghost var k0 := know.State();
    if d.Some? {
      var merged := MergeSectionReplies(sections, d.value);
      if merged.Some? {
        var ok := know.Update(url, merged.value);
        if ok {
          SectionWiseUsed(k0, know.threshold, url, page, sections, sectionReply, pageReply, parse);
          return merged.value;
        }
        SectionWiseLearnRaises(k0, know.threshold, url, page, sections, sectionReply, pageReply, parse);
        result := ExtractWholePage(know, url, page, pageReply, parse);
        return;
      }
    }
    SectionWiseUnmerged(k0, know.threshold, url, page, sections, sectionReply, pageReply, parse);
    result := ExtractWholePage(know, url, page, pageReply, parse);
  }

  method ExtractContent(know: SiteKnowledge, sectioned: bool, url: Url, page: Page,
                        sectionReply: Option<string>, pageReply: Option<string>,
                        parse: string -> Option<Json>) returns (result: map<string, Json>)
    modifies know
    ensures (result, know.State())
            == Extract(old(know.State()), know.threshold, sectioned, url, page, sectionReply, pageReply, parse)
    ensures know.understanding == old(know.understanding)
  {
    if sectioned {
      var sections := IdentifySections(page.blocks);
      if |sections| >= 2 {
        result := ExtractBySections(know, url, page, sections, sectionReply, pageReply, parse);
        return;
      }
    }
    result := ExtractWholePage(know, url, page, pageReply, parse);
  }

  method CrawlPage(know: SiteKnowledge, sectioned: bool, url: Url, fetched: Option<Page>,
                   sectionReply: Option<string>, pageReply: Option<string>,
                   parse: string -> Option<Json>) returns (rec: Option<PageRecord>)
    modifies know
    ensures (rec, know.State())
            == CrawlPageSpec(old(know.State()), know.threshold, sectioned, url, fetched, sectionReply, pageReply, parse)
    ensures know.understanding == old(know.understanding)
  {
    if fetched.None? {
      return None;
    }
    var page := fetched.value;
    var ex := ExtractContent(know, sectioned, url, page, sectionReply, pageReply, parse);
    if (sectioned && !SectionReportOk(ex)) || !KeyContentOk(ex) {
      return None;
    }
    rec := Some(RecordOf(url, page, ex));
  }

  // ---------------------------------------------------------------------------
  // Properties

  /** Once the merge loop raises it never recovers. */
  lemma {:induction false} MergeFailureSticks(sections: seq<Section>, items: seq<Json>, j: nat)
    requires j <= |items| && MergeAll(sections, items[..j]).None?
    ensures MergeAll(sections, items).None?
    decreases |items| - j
  {
    if j < |items| {
      assert items[..j + 1][..j] == items[..j];
      MergeFailureSticks(sections, items, j + 1);
    } else {
      assert items[..j] == items;
    }
  }

  /** The fallback reports relevance 5 and an unknown page type, and keeps at most
      15 non-empty headers of the page and the first 500 characters of its text. */
  lemma FallbackShape(p: Page)
    ensures var f := FallbackExtraction(p);
      && f["relevance_score"] == JInt(5) && f["page_type"] == JStr("unknown")
      && var kc := f["key_content"].fields;
      && StrItems(kc["headers"]) == Take(NonEmpty(p.headers), MaxFallbackHeaders)
      && |StrItems(kc["headers"])| <= MaxFallbackHeaders
      && (forall h :: h in StrItems(kc["headers"]) ==> h in p.headers && h != [])
      && kc["text_excerpt"].s <= p.text && |kc["text_excerpt"].s| <= MaxExcerpt
  {
    var hs := Take(NonEmpty(p.headers), MaxFallbackHeaders);
    StrArrRoundTrip(hs);
    forall h | h in hs ensures h in p.headers && h != [] {
      var k :| 0 <= k < |hs| && hs[k] == h;
      assert NonEmpty(p.headers)[k] == h;
      NonEmptyFrom(p.headers, k);
    }
  }

  /** A whole-page answer that decodes to an object and is learned from without
      raising is the extraction, and the knowledge is what learning from it gives. */
  lemma WholePageAnswerUsed(k: KnowledgeState, threshold: int, url: Url, page: Page, reply: Option<string>,
                            parse: string -> Option<Json>)
    requires DecodeReply(reply, parse, true).Some? && DecodeReply(reply, parse, true).value.JObj?
    requires Learn(k, threshold, url, DecodeReply(reply, parse, true).value.fields).1
    ensures WholePage(k, threshold, url, page, reply, parse)
            == (DecodeReply(reply, parse, true).value.fields,
                Learn(k, threshold, url, DecodeReply(reply, parse, true).value.fields).0)
  {
  }

  /** An answer that is missing, does not parse or is not an object leaves the
      fallback as the extraction and the knowledge unchanged. */
  lemma WholePageUnreadable(k: KnowledgeState, threshold: int, url: Url, page: Page, reply: Option<string>,
                            parse: string -> Option<Json>)
    requires DecodeReply(reply, parse, true).None? || !DecodeReply(reply, parse, true).value.JObj?
    ensures WholePage(k, threshold, url, page, reply, parse) == (FallbackExtraction(page), k)
  {
  }

  /** An object answer whose learning raises part way leaves the fallback as the
      extraction, and the knowledge as the learning left it. */
  lemma WholePageLearnRaises(k: KnowledgeState, threshold: int, url: Url, page: Page, reply: Option<string>,
                             parse: string -> Option<Json>)
    requires DecodeReply(reply, parse, true).Some? && DecodeReply(reply, parse, true).value.JObj?
    requires !Learn(k, threshold, url, DecodeReply(reply, parse, true).value.fields).1
    ensures WholePage(k, threshold, url, page, reply, parse)
            == (FallbackExtraction(page), Learn(k, threshold, url, DecodeReply(reply, parse, true).value.fields).0)
  {
  }

  /** A section answer that merges and is learned from is the extraction. */
  lemma SectionWiseUsed(k: KnowledgeState, threshold: int, url: Url, page: Page, sections: seq<Section>,
                        sectionReply: Option<string>, pageReply: Option<string>, parse: string -> Option<Json>)
    requires DecodeReply(sectionReply, parse, true).Some?
    requires Merged(sections, DecodeReply(sectionReply, parse, true).value).Some?
    requires Learn(k, threshold, url, Merged(sections, DecodeReply(sectionReply, parse, true).value).value).1
    ensures SectionWise(k, threshold, url, page, sections, sectionReply, pageReply, parse)
            == (Merged(sections, DecodeReply(sectionReply, parse, true).value).value,
                Learn(k, threshold, url, Merged(sections, DecodeReply(sectionReply, parse, true).value).value).0)
  {
  }

  /** A merged section answer whose learning raises falls back to the whole page,
      from the knowledge the failed learning left. */
  lemma SectionWiseLearnRaises(k: KnowledgeState, threshold: int, url: Url, page: Page, sections: seq<Section>,
                               sectionReply: Option<string>, pageReply: Option<string>, parse: string -> Option<Json>)
    requires DecodeReply(sectionReply, parse, true).Some?
    requires Merged(sections, DecodeReply(sectionReply, parse, true).value).Some?
    requires !Learn(k, threshold, url, Merged(sections, DecodeReply(sectionReply, parse, true).value).value).1
    ensures SectionWise(k, threshold, url, page, sections, sectionReply, pageReply, parse)
            == WholePage(Learn(k, threshold, url, Merged(sections, DecodeReply(sectionReply, parse, true).value).value).0,
                         threshold, url, page, pageReply, parse)
  {
  }

  /** A section answer that is missing or cannot be merged falls back to the whole
      page with the knowledge untouched. */
  lemma SectionWiseUnmerged(k: KnowledgeState, threshold: int, url: Url, page: Page, sections: seq<Section>,
                            sectionReply: Option<string>, pageReply: Option<string>, parse: string -> Option<Json>)
    requires DecodeReply(sectionReply, parse, true).None?
             || Merged(sections, DecodeReply(sectionReply, parse, true).value).None?
    ensures SectionWise(k, threshold, url, page, sections, sectionReply, pageReply, parse)
            == WholePage(k, threshold, url, page, pageReply, parse)
  {
  }

  /** The fallback reports relevance 5. */
  lemma FallbackRelevance(p: Page)
    ensures Get(FallbackExtraction(p), "relevance_score", JInt(0)) == JInt(5)
  {
  }

  /** A page learned from without raising reported a number as its relevance. */
  lemma LearnedRelevanceNumeric(k: KnowledgeState, threshold: int, url: Url, result: map<string, Json>)
    requires Learn(k, threshold, url, result).1
    ensures AsNumber(Get(result, "relevance_score", JInt(0))).Some?
  {
  }

  /** The whole-page extraction always reports a number as its relevance. */
  lemma WholePageRelevanceNumeric(k: KnowledgeState, threshold: int, url: Url, page: Page,
                                  reply: Option<string>, parse: string -> Option<Json>)
    ensures AsNumber(Get(WholePage(k, threshold, url, page, reply, parse).0, "relevance_score", JInt(0))).Some?
  {
    var d := DecodeReply(reply, parse, true);
    if d.Some? && d.value.JObj? && Learn(k, threshold, url, d.value.fields).1 {
      WholePageAnswerUsed(k, threshold, url, page, reply, parse);
      LearnedRelevanceNumeric(k, threshold, url, d.value.fields);
    } else if d.Some? && d.value.JObj? {
      WholePageLearnRaises(k, threshold, url, page, reply, parse);
      FallbackRelevance(page);
    } else {
      WholePageUnreadable(k, threshold, url, page, reply, parse);
      FallbackRelevance(page);
    }
  }

  /** Every extraction, whichever path produced it, reports a number as its
      relevance, so a page record's relevance is that number. */
  lemma ExtractRelevanceNumeric(k: KnowledgeState, threshold: int, sectioned: bool, url: Url, page: Page,
                                sectionReply: Option<string>, pageReply: Option<string>,
                                parse: string -> Option<Json>)
    ensures AsNumber(Get(Extract(k, threshold, sectioned, url, page, sectionReply, pageReply, parse).0,
                         "relevance_score", JInt(0))).Some?
  {
    var sections := PageSections(page.blocks);
    DispatchRule(k, threshold, sectioned, url, page, sectionReply, pageReply, parse);
    if sectioned && |sections| >= 2 {
      var d := DecodeReply(sectionReply, parse, true);
      if d.Some? && Merged(sections, d.value).Some? {
        var result := Merged(sections, d.value).value;
        var k2 := Learn(k, threshold, url, result).0;
        if Learn(k, threshold, url, result).1 {
          SectionWiseUsed(k, threshold, url, page, sections, sectionReply, pageReply, parse);
          LearnedRelevanceNumeric(k, threshold, url, result);
        } else {
          SectionWiseLearnRaises(k, threshold, url, page, sections, sectionReply, pageReply, parse);
          WholePageRelevanceNumeric(k2, threshold, url, page, pageReply, parse);
        }
      } else {
        SectionWiseUnmerged(k, threshold, url, page, sections, sectionReply, pageReply, parse);
        WholePageRelevanceNumeric(k, threshold, url, page, pageReply, parse);
      }
    } else {
      WholePageRelevanceNumeric(k, threshold, url, page, pageReply, parse);
    }
  }

  /** A merge that succeeds visited every item: each was an object reporting a
      number, and the scores are those numbers in order. */
  lemma {:induction false} MergeScores(sections: seq<Section>, items: seq<Json>)
    requires MergeAll(sections, items).Some?
    ensures var acc := MergeAll(sections, items).value;
      && |acc.scores| == |items|
      && forall k :: 0 <= k < |items| ==>
           && items[k].JObj?
           && acc.scores[k] == Reported(items[k])
           && AsNumber(acc.scores[k]).Some?
    decreases |items|
  {
    if items != [] {
      var n := |items| - 1;
      MergeUnfold(sections, items);
      MergeScores(sections, items[..n]);
      var acc := MergeAll(sections, items).value;
      var prev := MergeAll(sections, items[..n]).value;
      MergeScoreStep(sections, prev, items[n]);
      forall k | 0 <= k < n
        ensures items[k].JObj? && acc.scores[k] == Reported(items[k])
      {
        assert items[..n][k] == items[k];
      }
    }
  }

  /** One turn of the merge loop records the score the item reports. */
  lemma MergeScoreStep(sections: seq<Section>, prev: Merge, item: Json)
    requires MergeStep(sections, prev, item).Some?
    ensures item.JObj? && AsNumber(Reported(item)).Some?
    ensures MergeStep(sections, prev, item).value.scores == prev.scores + [Reported(item)]
  {
  }

  /** One turn of the merge loop writes the key exactly when the item writes it,
      and otherwise leaves the key as it was. */
  lemma MergeKeyStep(sections: seq<Section>, prev: Merge, item: Json, key: string)
    requires MergeStep(sections, prev, item).Some?
    ensures var acc := MergeStep(sections, prev, item).value;
      && (Writes(sections, item, key) ==>
            key in acc.keyContent && acc.keyContent[key] == item.fields["extracted_content"])
      && (!Writes(sections, item, key) ==>
            (key in acc.keyContent <==> key in prev.keyContent)
            && (key in prev.keyContent ==> acc.keyContent[key] == prev.keyContent[key]))
  {
  }

  /** A successful merge is a successful merge of all but the last item, then
      one more turn. */
  lemma MergeUnfold(sections: seq<Section>, items: seq<Json>)
    requires items != [] && MergeAll(sections, items).Some?
    ensures MergeAll(sections, items[..|items| - 1]).Some?
    ensures MergeStep(sections, MergeAll(sections, items[..|items| - 1]).value, items[|items| - 1])
            == MergeAll(sections, items)
  {
  }

  /** A key is stored exactly when some item writes it. */
  lemma MergeKeyPresent(sections: seq<Section>, items: seq<Json>, key: string)
    requires MergeAll(sections, items).Some?
    ensures key in MergeAll(sections, items).value.keyContent
            <==> exists k :: 0 <= k < |items| && Writes(sections, items[k], key)
  {
    if key in MergeAll(sections, items).value.keyContent {
      MergeKeyLast(sections, items, key);
      var k :| 0 <= k < |items| && LastWriter(sections, items, MergeAll(sections, items).value.keyContent, key, k);
    }
    forall k | 0 <= k < |items| && Writes(sections, items[k], key)
      ensures key in MergeAll(sections, items).value.keyContent
    {
      MergeKeyWritten(sections, items, key, k);
    }
  }

  /** A key some item writes is stored. */
  lemma {:induction false} MergeKeyWritten(sections: seq<Section>, items: seq<Json>, key: string, k: nat)
    requires MergeAll(sections, items).Some?
    requires k < |items| && Writes(sections, items[k], key)
    ensures key in MergeAll(sections, items).value.keyContent
    decreases |items|
  {
    var n := |items| - 1;
    MergeUnfold(sections, items);
    var prev := MergeAll(sections, items[..n]).value;
    if k < n {
      assert items[..n][k] == items[k];
      MergeKeyWritten(sections, items[..n], key, k);
    }
    MergeKeyKept(sections, prev, items[n], key);
  }

  /** A key already stored, or written by the item, is stored after the turn. */
  lemma MergeKeyKept(sections: seq<Section>, prev: Merge, item: Json, key: string)
    requires MergeStep(sections, prev, item).Some?
    requires key in prev.keyContent || Writes(sections, item, key)
    ensures key in MergeStep(sections, prev, item).value.keyContent
  {
    MergeKeyStep(sections, prev, item, key);
  }

  /** Item `k` is the last to write the key, and `kc` holds its content there. */
  predicate LastWriter(sections: seq<Section>, items: seq<Json>, kc: map<string, Json>, key: string, k: nat) {
    && k < |items| && Writes(sections, items[k], key)
    && key in kc && kc[key] == items[k].fields["extracted_content"]
    && forall l :: k < l < |items| ==> !Writes(sections, items[l], key)
  }

  /** The content stored under a key is that of the last item writing it. */
  lemma {:induction false} MergeKeyLast(sections: seq<Section>, items: seq<Json>, key: string)
    requires MergeAll(sections, items).Some?
    requires key in MergeAll(sections, items).value.keyContent
    ensures exists k :: 0 <= k < |items| && LastWriter(sections, items, MergeAll(sections, items).value.keyContent, key, k)
    decreases |items|
  {
    assert items != [];
    var n := |items| - 1;
    MergeUnfold(sections, items);
    var prev := MergeAll(sections, items[..n]).value;
    var kc := MergeAll(sections, items).value.keyContent;
    var item := items[n];
    MergeKeyStep(sections, prev, item, key);
    if Writes(sections, item, key) {
      assert LastWriter(sections, items, kc, key, n);
    } else {
      MergeKeyLast(sections, items[..n], key);
      var k :| 0 <= k < n && LastWriter(sections, items[..n], prev.keyContent, key, k);
      LastWriterExtends(sections, items, prev.keyContent, kc, key, k);
    }
  }

  /** A last writer among all but the last item stays the last writer when the
      last item does not write the key and the key keeps its content. */
  lemma LastWriterExtends(sections: seq<Section>, items: seq<Json>, prev: map<string, Json>,
                          kc: map<string, Json>, key: string, k: nat)
    requires items != [] && LastWriter(sections, items[..|items| - 1], prev, key, k)
    requires !Writes(sections, items[|items| - 1], key)
    requires key in kc && kc[key] == prev[key]
    ensures LastWriter(sections, items, kc, key, k)
  {
    var n := |items| - 1;
    assert items[..n][k] == items[k];
    NoLaterWriter(sections, items, items[..n], key, k);
  }

  lemma NoLaterWriter(sections: seq<Section>, items: seq<Json>, prefix: seq<Json>, key: string, k: nat)
    requires items != [] && prefix == items[..|items| - 1] && k < |prefix|
    requires forall l :: k < l < |prefix| ==> !Writes(sections, prefix[l], key)
    requires !Writes(sections, items[|items| - 1], key)
    ensures forall l :: k < l < |items| ==> !Writes(sections, items[l], key)
  {
    var n := |items| - 1;
    forall l | k < l < n ensures !Writes(sections, items[l], key) {
      assert items[..n][l] == items[l];
    }
  }

  /** The best score is one of the scores and no score exceeds it. */
  lemma {:induction false} BestIsMaximum(scores: seq<Json>)
    requires scores != []
    ensures Best(scores) in scores
    ensures forall k :: 0 <= k < |scores| ==> Score(scores[k]) <= Score(Best(scores))
    decreases |scores|
  {
    if |scores| > 1 {
      var n := |scores| - 1;
      BestIsMaximum(scores[..n]);
      forall k | 0 <= k < n ensures Score(scores[k]) <= Score(Best(scores)) {
        assert scores[..n][k] == scores[k];
      }
      assert Best(scores[..n]) in scores[..n];
    }
  }

  /** The first greatest score is chosen: every earlier score is smaller. */
  lemma {:induction false} BestIsFirst(scores: seq<Json>)
    requires scores != []
    ensures exists k :: 0 <= k < |scores| && scores[k] == Best(scores)
                        && (forall l :: 0 <= l < k ==> Score(scores[l]) < Score(Best(scores)))
    decreases |scores|
  {
    if |scores| == 1 {
      assert scores[0] == Best(scores);
    } else {
      var n := |scores| - 1;
      BestIsFirst(scores[..n]);
      BestIsMaximum(scores[..n]);
      var m := Best(scores[..n]);
      var k :| 0 <= k < n && scores[..n][k] == m && forall l :: 0 <= l < k ==> Score(scores[..n][l]) < Score(m);
      if Score(scores[n]) > Score(m) {
        forall l | 0 <= l < n ensures Score(scores[l]) < Score(Best(scores)) {
          assert scores[..n][l] == scores[l];
        }
      } else {
        forall l | 0 <= l < k ensures Score(scores[l]) < Score(Best(scores)) {
          assert scores[..n][l] == scores[l];
        }
        assert scores[k] == Best(scores);
      }
    }
  }

  /** The greatest score of a successful merge is one an item reported (0 when
      there are no items), and no item reported more. */
  lemma MergeBest(sections: seq<Section>, items: seq<Json>)
    requires MergeAll(sections, items).Some?
    ensures var best := Best(MergeAll(sections, items).value.scores);
      && AsNumber(best).Some?
      && (forall k :: 0 <= k < |items| ==> Score(Reported(items[k])) <= Score(best))
      && (items == [] ==> best == JInt(0))
      && (items != [] ==> exists k :: 0 <= k < |items| && best == Reported(items[k]))
  {
    var acc := MergeAll(sections, items).value;
    MergeScores(sections, items);
    if items != [] {
      BestIsMaximum(acc.scores);
      var j :| 0 <= j < |acc.scores| && acc.scores[j] == Best(acc.scores);
      assert Best(acc.scores) == Reported(items[j]);
    }
  }

  /** The merged relevance is the greatest section score, a score some section
      reported (0 when no section was analysed); the reasoning names it. */
  lemma MergedRelevance(sections: seq<Section>, extracted: Json)
    requires Merged(sections, extracted).Some?
    ensures var r := Merged(sections, extracted).value;
      var items := SectionItems(Get(extracted.fields, "sections_analysis", JArr([]))).value;
      var best := r["relevance_score"];
      && AsNumber(best).Some?
      && (forall k :: 0 <= k < |items| ==> Score(Reported(items[k])) <= Score(best))
      && (items == [] ==> best == JInt(0))
      && (items != [] ==> exists k :: 0 <= k < |items| && best == Reported(items[k]))
      && r["reasoning"] == JStr("Analyzed " + NatToString(|sections|) + " sections. Best section scored "
                                + NumberText(best) + "/10.")
  {
    var items := SectionItems(Get(extracted.fields, "sections_analysis", JArr([]))).value;
    MergedIs(sections, extracted);
    MergedResultScore(sections, extracted.fields, MergeAll(sections, items).value);
    MergeBest(sections, items);
  }

  /** A successful `Merged` is the result built from the merge of its items. */
  lemma MergedIs(sections: seq<Section>, extracted: Json)
    requires Merged(sections, extracted).Some?
    ensures extracted.JObj?
    ensures SectionItems(Get(extracted.fields, "sections_analysis", JArr([]))).Some?
    ensures var items := SectionItems(Get(extracted.fields, "sections_analysis", JArr([]))).value;
      MergeAll(sections, items).Some?
      && Merged(sections, extracted).value == MergedResult(sections, extracted.fields, MergeAll(sections, items).value)
  {
  }

  /** The built result reports the best score and names it in the reasoning. */
  lemma MergedResultScore(sections: seq<Section>, x: map<string, Json>, acc: Merge)
    ensures var r := MergedResult(sections, x, acc);
      && "relevance_score" in r && r["relevance_score"] == Best(acc.scores)
      && "reasoning" in r
      && r["reasoning"] == JStr("Analyzed " + NatToString(|sections|) + " sections. Best section scored "
                                + NumberText(Best(acc.scores)) + "/10.")
  {
  }

  /** A merged result's `key_content` holds exactly the keys of the sections that
      scored at least 4 and carried extracted content, each with the content of
      the last such section. */
  lemma MergedKeyContent(sections: seq<Section>, extracted: Json, key: string)
    requires Merged(sections, extracted).Some?
    ensures var r := Merged(sections, extracted).value;
      var items := SectionItems(Get(extracted.fields, "sections_analysis", JArr([]))).value;
      && r["key_content"].JObj?
      && (key in r["key_content"].fields <==> exists k :: 0 <= k < |items| && Writes(sections, items[k], key))
      && (key in r["key_content"].fields ==>
            exists k :: 0 <= k < |items| && Writes(sections, items[k], key)
                        && r["key_content"].fields[key] == items[k].fields["extracted_content"]
                        && (forall l :: k < l < |items| ==> !Writes(sections, items[l], key)))
  {
    var items := SectionItems(Get(extracted.fields, "sections_analysis", JArr([]))).value;
    MergeKeyPresent(sections, items, key);
    if key in MergeAll(sections, items).value.keyContent {
      MergeKeyLast(sections, items, key);
    }
  }

  /** A merged result always passes the printing checks of `_crawl_page`. */
  lemma MergedPassesChecks(sections: seq<Section>, extracted: Json)
    requires Merged(sections, extracted).Some?
    ensures SectionReportOk(Merged(sections, extracted).value)
    ensures KeyContentOk(Merged(sections, extracted).value)
  {
    var items := SectionItems(Get(extracted.fields, "sections_analysis", JArr([]))).value;
    MergeScores(sections, items);
  }

  /** An answer that cannot be merged, or a merged result whose learning raises,
      sends the page to the whole-page analysis. */
  lemma SectionFailureFallsBack(k: KnowledgeState, threshold: int, url: Url, page: Page, sections: seq<Section>,
                                sectionReply: Option<string>, pageReply: Option<string>,
                                parse: string -> Option<Json>)
    ensures var d := DecodeReply(sectionReply, parse, true);
      d.None? || Merged(sections, d.value).None? ==>
        SectionWise(k, threshold, url, page, sections, sectionReply, pageReply, parse)
        == WholePage(k, threshold, url, page, pageReply, parse)
    ensures var d := DecodeReply(sectionReply, parse, true);
      d.Some? && Merged(sections, d.value).Some? && !Learn(k, threshold, url, Merged(sections, d.value).value).1 ==>
        SectionWise(k, threshold, url, page, sections, sectionReply, pageReply, parse)
        == WholePage(Learn(k, threshold, url, Merged(sections, d.value).value).0, threshold, url, page, pageReply, parse)
  {
  }

  /** The section-wise path is taken exactly when sections are analysed and there
      are at least two; main.py and agentic_crawler_local.py always analyse the
      page whole. */
  lemma DispatchRule(k: KnowledgeState, threshold: int, sectioned: bool, url: Url, page: Page,
                     sectionReply: Option<string>, pageReply: Option<string>, parse: string -> Option<Json>)
    ensures sectioned && |PageSections(page.blocks)| >= 2 ==>
      Extract(k, threshold, sectioned, url, page, sectionReply, pageReply, parse)
      == SectionWise(k, threshold, url, page, PageSections(page.blocks), sectionReply, pageReply, parse)
    ensures !sectioned || |PageSections(page.blocks)| < 2 ==>
      Extract(k, threshold, sectioned, url, page, sectionReply, pageReply, parse)
      == WholePage(k, threshold, url, page, pageReply, parse)
  {
  }

  /** A section id past the end names the section by its id; a negative id counts
      from the end; an id before the start, or one that is not a number, raises. */
  lemma SectionKeyCases(sections: seq<Section>)
    requires |sections| == 3
    ensures SectionKey(sections, JInt(7)) == Some("section_7_section_7")
    ensures SectionKey(sections, JInt(-1)) == Some("section_-1_" + sections[2].name)
    ensures SectionKey(sections, JBool(true)) == Some("section_True_" + sections[1].name)
    ensures SectionKey(sections, JInt(-4)).None? && SectionKey(sections, JNull).None?
    ensures SectionKey(sections, JStr("0")).None?
  {
    var t7 := "section_" + NumberText(JInt(7));
    assert t7 == "section_7";
    assert SectionKey(sections, JInt(7)) == Some(t7 + "_" + t7);
    assert t7 + "_" + t7 == "section_7_section_7";
    var tm := "section_" + NumberText(JInt(-1));
    assert tm == "section_-1";
    assert SectionKey(sections, JInt(-1)) == Some(tm + "_" + sections[2].name);
    assert tm + "_" == "section_-1_";
    var tt := "section_" + NumberText(JBool(true));
    assert SectionKey(sections, JBool(true)) == Some(tt + "_" + sections[1].name);
    assert tt + "_" == "section_True_";
  }

  /** A kept record is a fetched page whose extraction passed the printing checks;
      its relevance is the extraction's. */
  lemma RecordKept(k: KnowledgeState, threshold: int, sectioned: bool, url: Url, fetched: Option<Page>,
                   sectionReply: Option<string>, pageReply: Option<string>, parse: string -> Option<Json>)
    ensures var r := CrawlPageSpec(k, threshold, sectioned, url, fetched, sectionReply, pageReply, parse).0;
      r.Some? <==>
        (fetched.Some?
         && var ex := Extract(k, threshold, sectioned, url, fetched.value, sectionReply, pageReply, parse).0;
            (!sectioned || SectionReportOk(ex)) && KeyContentOk(ex))
    ensures var r := CrawlPageSpec(k, threshold, sectioned, url, fetched, sectionReply, pageReply, parse).0;
      r.Some? ==>
        var ex := Extract(k, threshold, sectioned, url, fetched.value, sectionReply, pageReply, parse).0;
        && r.value.url == url && r.value.extraction == ex
        && Some(r.value.relevance) == AsNumber(Get(ex, "relevance_score", JInt(0)))
  {
    if fetched.Some? {
      ExtractRelevanceNumeric(k, threshold, sectioned, url, fetched.value, sectionReply, pageReply, parse);
    }
  }

  /** A failed fetch keeps nothing and learns nothing. */
  lemma FailedFetchLearnsNothing(k: KnowledgeState, threshold: int, sectioned: bool, url: Url,
                                 sectionReply: Option<string>, pageReply: Option<string>,
                                 parse: string -> Option<Json>)
    ensures CrawlPageSpec(k, threshold, sectioned, url, None, sectionReply, pageReply, parse) == (None, k)
  {
  }
}
