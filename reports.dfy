/** The record filters of the saved reports: `save_results` (agentic_crawler.py
    and agentic_crawler_local.py) and `save_to_json` (main.py). The files they
    write are left out; only which pages they keep, in which order and with which
    fields, is modelled. */
module Reports {
  import opened Wrappers
  import opened Seqs
  import opened JsonValue
  import opened Urls
  import opened Extraction

  /** `save_results` keeps the pages with relevance at least 4. */
  const ResultsMin := 4
  /** `save_results` counts as high-value the pages with relevance at least 6. */
  const HighValueMin := 6
  /** `save_to_json` keeps the pages with relevance at least 5. */
  const JsonMin := 5

  /** One entry of `extracted_data` in `save_results`. */
  datatype ResultEntry = ResultEntry(url: Url, pageType: Json, relevance: int, content: Json)

  /** The data `save_results` writes, without the objective. */
  datatype SavedResults = SavedResults(totalPages: nat, highValuePages: nat, extracted: seq<ResultEntry>)

  /** One entry of `extracted_data` in `save_to_json`. */
  datatype JsonEntry = JsonEntry(url: Url, content: Json, relevance: int)

  /** `page.get('ai_extraction', {}).get('key_content', {})`. */
  function KeyContent(p: PageRecord): Json {
    Get(p.extraction, "key_content", JObj(map[]))
  }

  /** The pages whose relevance is at least `min`, in log order. */
  function Kept(pages: seq<PageRecord>, min: int): (r: seq<PageRecord>)
    ensures |r| <= |pages|
    decreases |pages|
  {
    if pages == [] then []
    else
      var prev := Kept(pages[..|pages| - 1], min);
      if pages[|pages| - 1].relevance >= min then prev + [pages[|pages| - 1]] else prev
  }

  function ResultEntryOf(p: PageRecord): ResultEntry {
    ResultEntry(p.url, p.pageType, p.relevance, KeyContent(p))
  }

  function JsonEntryOf(p: PageRecord): JsonEntry {
    JsonEntry(p.url, KeyContent(p), p.relevance)
  }

  /** `save_results`: the page count, the high-value count and the entries of the
      pages relevant enough, in log order. */
  function SaveResults(pages: seq<PageRecord>): (r: SavedResults)
    ensures r.totalPages == |pages|
    ensures r.highValuePages <= |r.extracted| <= r.totalPages
  {
    var kept := Kept(pages, ResultsMin);
    KeptNarrows(pages, ResultsMin, HighValueMin);
    SubseqLength(Kept(pages, HighValueMin), kept);
    SavedResults(|pages|, |Kept(pages, HighValueMin)|,
                 seq(|kept|, i requires 0 <= i < |kept| => ResultEntryOf(kept[i])))
  }

  /** The entries `save_to_json` writes. */
  function JsonEntries(pages: seq<PageRecord>): (r: seq<JsonEntry>)
    ensures |r| == |Kept(pages, JsonMin)|
    ensures forall i :: 0 <= i < |r| ==> r[i] == JsonEntryOf(Kept(pages, JsonMin)[i])
  {
    var kept := Kept(pages, JsonMin);
    seq(|kept|, i requires 0 <= i < |kept| => JsonEntryOf(kept[i]))
  }

  /** `save_to_json`'s loop over the log. */
  method SaveToJson(pages: seq<PageRecord>) returns (entries: seq<JsonEntry>)
    ensures entries == JsonEntries(pages)
  {
    entries := [];
    ghost var kept: seq<PageRecord> := [];
    for i := 0 to |pages|
      invariant kept == Kept(pages[..i], JsonMin)
      invariant |entries| == |kept| && forall k :: 0 <= k < |kept| ==> entries[k] == JsonEntryOf(kept[k])
    {
      assert pages[..i + 1][..i] == pages[..i];
      var p := pages[i];
      if p.relevance >= JsonMin {
        entries := entries + [JsonEntryOf(p)];
        kept := kept + [p];
      }
    }
    assert pages[..|pages|] == pages;
  }

  // ---------------------------------------------------------------------------
  // Properties

  /** A kept page is a logged page relevant enough, and every logged page relevant
      enough is kept. */
  lemma {:induction false} KeptExactly(pages: seq<PageRecord>, min: int)
    ensures forall p :: p in Kept(pages, min) <==> p in pages && p.relevance >= min
    decreases |pages|
  {
    if pages != [] {
      var n := |pages| - 1;
      KeptExactly(pages[..n], min);
      assert pages == pages[..n] + [pages[n]];
      assert forall p :: p in pages <==> p in pages[..n] || p == pages[n];
    }
  }

  /** The kept pages keep their log order. */
  lemma {:induction false} KeptInOrder(pages: seq<PageRecord>, min: int)
    ensures IsSubseq(Kept(pages, min), pages)
    decreases |pages|
  {
    if pages != [] {
      var n := |pages| - 1;
      KeptInOrder(pages[..n], min);
      assert pages == pages[..n] + [pages[n]];
      if pages[n].relevance >= min {
        SubseqAppend(Kept(pages[..n], min), pages[..n], pages[n]);
      } else {
        SubseqExtend(Kept(pages[..n], min), pages[..n], pages[n]);
      }
    }
  }

  /** A stricter threshold keeps a sub-list of the pages a looser one keeps. */
  lemma {:induction false} KeptNarrows(pages: seq<PageRecord>, lo: int, hi: int)
    requires lo <= hi
    ensures IsSubseq(Kept(pages, hi), Kept(pages, lo))
    decreases |pages|
  {
    if pages == [] {
    } else {
      var n := |pages| - 1;
      KeptNarrows(pages[..n], lo, hi);
      var p := pages[n];
      if p.relevance >= hi {
        SubseqAppend(Kept(pages[..n], hi), Kept(pages[..n], lo), p);
      } else if p.relevance >= lo {
        SubseqExtend(Kept(pages[..n], hi), Kept(pages[..n], lo), p);
      }
    }
  }

  /** `save_results` writes an entry exactly for each logged page with relevance
      at least 4, with its URL, type, relevance and key content, in log order; the
      high-value count is the number of pages with relevance at least 6. */
  lemma SaveResultsSpec(pages: seq<PageRecord>)
    ensures var r := SaveResults(pages);
      && (forall e :: e in r.extracted <==> exists p :: p in pages && p.relevance >= ResultsMin && e == ResultEntryOf(p))
      && r.highValuePages == |Kept(pages, HighValueMin)|
      && IsSubseq(Kept(pages, ResultsMin), pages)
  {
    var kept := Kept(pages, ResultsMin);
    KeptExactly(pages, ResultsMin);
    KeptInOrder(pages, ResultsMin);
    var r := SaveResults(pages);
    forall e ensures e in r.extracted <==> exists p :: p in pages && p.relevance >= ResultsMin && e == ResultEntryOf(p) {
      if e in r.extracted {
        var i :| 0 <= i < |r.extracted| && r.extracted[i] == e;
        assert kept[i] in kept;
      }
      if exists p :: p in pages && p.relevance >= ResultsMin && e == ResultEntryOf(p) {
        var p :| p in pages && p.relevance >= ResultsMin && e == ResultEntryOf(p);
        var i :| 0 <= i < |kept| && kept[i] == p;
        assert r.extracted[i] == e;
      }
    }
  }

  /** `save_to_json` writes an entry exactly for each logged page with relevance
      at least 5, in log order. */
  lemma JsonEntriesSpec(pages: seq<PageRecord>)
    ensures forall e :: e in JsonEntries(pages) <==> exists p :: p in pages && p.relevance >= JsonMin && e == JsonEntryOf(p)
    ensures IsSubseq(Kept(pages, JsonMin), pages)
  {
    var kept := Kept(pages, JsonMin);
    KeptExactly(pages, JsonMin);
    KeptInOrder(pages, JsonMin);
    var r := JsonEntries(pages);
    forall e ensures e in r <==> exists p :: p in pages && p.relevance >= JsonMin && e == JsonEntryOf(p) {
      if e in r {
        var i :| 0 <= i < |r| && r[i] == e;
        assert kept[i] in kept;
      }
      if exists p :: p in pages && p.relevance >= JsonMin && e == JsonEntryOf(p) {
        var p :| p in pages && p.relevance >= JsonMin && e == JsonEntryOf(p);
        var i :| 0 <= i < |kept| && kept[i] == p;
        assert r[i] == e;
      }
    }
  }
}
