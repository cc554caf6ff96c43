/** Navigation advice (`_ask_ollama_for_navigation_advanced`): the first thirty
    candidate links are pre-scored and stably sorted, the best twelve are shown
    to the language model, and its answer is read as a list of one-based
    candidate numbers. An answer that mentions NONE selects nothing; a failed
    call falls back to the three best pre-scored links. */
module Navigation {
  import opened Wrappers
  import opened Seqs
  import opened Text
  import opened Urls
  import opened Ranking
  import opened Objective
  import opened Links
  import opened Scoring

  const MaxConsidered: nat := 30
  const MaxCandidates: nat := 12
  const MaxChoices: nat := 5
  const FallbackChoices: nat := 3
  /** The highest pre-score `PreScore` can give. */
  const TopPreScore: nat := 11

  /** `{**link_info, **score_info}` for each considered link, reduced to the score. */
  function PreScored(g: Goal, hv: seq<string>, links: seq<LinkInfo>): (r: seq<Ranked<LinkInfo>>)
    ensures |r| == |links|
    ensures forall k :: 0 <= k < |r| ==> r[k].item == links[k] && r[k].score == PreScore(g, hv, links[k])
    ensures InRange(r, TopPreScore)
  {
    seq(|links|, k requires 0 <= k < |links| => Ranked(PreScore(g, hv, links[k]), links[k]))
  }

  /** `scored_links` after the sort. */
  function RankedLinks(g: Goal, hv: seq<string>, links: seq<LinkInfo>): seq<Ranked<LinkInfo>> {
    SortDesc(PreScored(g, hv, Take(links, MaxConsidered)), TopPreScore)
  }

  /** `top_candidates`: the first twelve sorted links. */
  function TopCandidates(g: Goal, hv: seq<string>, links: seq<LinkInfo>): seq<LinkInfo> {
    Items(Take(RankedLinks(g, hv, links), MaxCandidates))
  }

  function UrlsOf(ls: seq<LinkInfo>): (r: seq<Url>)
    ensures |r| == |ls| && forall k :: 0 <= k < |ls| ==> r[k] == ls[k].url
  {
    seq(|ls|, k requires 0 <= k < |ls| => ls[k].url)
  }

  predicate Numerals(runs: seq<string>) {
    forall k :: 0 <= k < |runs| ==> AllDigits(runs[k])
  }

  /** The digit runs are numerals. */
  lemma DigitRunsNumerals(s: string)
    ensures Numerals(DigitRuns(s))
  {
    var runs := DigitRuns(s);
    forall k | 0 <= k < |runs| ensures AllDigits(runs[k]) {
      assert runs[k] in runs;
    }
  }

  /** The candidates the numbers `runs` name, in the order named: number `n`
      selects candidate `n - 1` when that is a valid index and nothing otherwise. */
  function Chosen(runs: seq<string>, top: seq<LinkInfo>): (r: seq<Url>)
    requires Numerals(runs)
    ensures |r| <= |runs|
    ensures forall u :: u in r ==> exists k :: 0 <= k < |top| && top[k].url == u
  {
    if runs == [] then []
    else
      var idx := DecimalValue(runs[|runs| - 1]) - 1;
      Chosen(runs[..|runs| - 1], top) + (if 0 <= idx < |top| then [top[idx].url] else [])
  }

  /** The answer, already stripped, read against the candidates. */
  function ReadAnswer(answer: string, top: seq<LinkInfo>): seq<Url> {
    if Contains(Upper(answer), "NONE") then []
    else
      DigitRunsNumerals(answer);
      Chosen(Take(DigitRuns(answer), MaxChoices), top)
  }

  /** The URLs to crawl next from the current page, given the model's reply
      (None when the call failed). */
  function NavigationChoice(g: Goal, hv: seq<string>, links: seq<LinkInfo>, reply: Option<string>): seq<Url> {
    if links == [] then []
    else match reply
      case None => UrlsOf(Items(Take(RankedLinks(g, hv, links), FallbackChoices)))
      case Some(text) => ReadAnswer(Strip(text), TopCandidates(g, hv, links))
  }

  /** The advice loop as the crawler runs it: score, sort, ask, read the numbers. */
  method AskForNavigation(g: Goal, hv: seq<string>, links: seq<LinkInfo>, reply: Option<string>) returns (urls: seq<Url>)
    ensures urls == NavigationChoice(g, hv, links, reply)
  {
    if links == [] {
      return [];
    }
    var scored := ScoreConsidered(g, hv, Take(links, MaxConsidered));
    var ranked := SortDesc(scored, TopPreScore);
    match reply {
      case None =>
        ChoiceFallback(g, hv, links);
        urls := LinkUrls(Items(Take(ranked, FallbackChoices)));
      case Some(text) =>
        var answer := Strip(text);
        ChoiceAnswer(g, hv, links, text);
        if Contains(Upper(answer), "NONE") {
          return [];
        }
        AnswerNumbers(answer, TopCandidates(g, hv, links));
        urls := ReadNumbers(Take(DigitRuns(answer), MaxChoices), Items(Take(ranked, MaxCandidates)));
    }
  }

  lemma ChoiceFallback(g: Goal, hv: seq<string>, links: seq<LinkInfo>)
    requires links != []
    ensures NavigationChoice(g, hv, links, None) == UrlsOf(Items(Take(RankedLinks(g, hv, links), FallbackChoices)))
  {
  }

  lemma ChoiceAnswer(g: Goal, hv: seq<string>, links: seq<LinkInfo>, text: string)
    requires links != []
    ensures NavigationChoice(g, hv, links, Some(text)) == ReadAnswer(Strip(text), TopCandidates(g, hv, links))
  {
  }

  lemma AnswerNumbers(answer: string, top: seq<LinkInfo>)
    requires !Contains(Upper(answer), "NONE")
    ensures Numerals(Take(DigitRuns(answer), MaxChoices))
    ensures ReadAnswer(answer, top) == Chosen(Take(DigitRuns(answer), MaxChoices), top)
  {
    DigitRunsNumerals(answer);
  }

  /** The pre-scoring loop over the considered links. */
  method ScoreConsidered(g: Goal, hv: seq<string>, considered: seq<LinkInfo>) returns (scored: seq<Ranked<LinkInfo>>)
    ensures scored == PreScored(g, hv, considered)
  {
    scored := [];
    for i := 0 to |considered|
      invariant |scored| == i
      invariant forall k :: 0 <= k < i ==> scored[k] == Ranked(PreScore(g, hv, considered[k]), considered[k])
    {
      scored := scored + [Ranked(PreScore(g, hv, considered[i]), considered[i])];
    }
  }

  /** `[link['url'] for link in ...]`. */
  method LinkUrls(ls: seq<LinkInfo>) returns (urls: seq<Url>)
    ensures urls == UrlsOf(ls)
  {
    urls := [];
    for i := 0 to |ls|
      invariant |urls| == i && forall k :: 0 <= k < i ==> urls[k] == ls[k].url
    {
      urls := urls + [ls[i].url];
    }
  }

  /** The loop over the first five numbers of the answer. */
  method ReadNumbers(numbers: seq<string>, top: seq<LinkInfo>) returns (urls: seq<Url>)
    requires Numerals(numbers)
    ensures urls == Chosen(numbers, top)
  {
    urls := [];
    for i := 0 to |numbers|
      invariant urls == Chosen(numbers[..i], top)
    {
      assert numbers[..i + 1][..i] == numbers[..i];
      var idx := DecimalValue(numbers[i]) - 1;
      if 0 <= idx < |top| {
        urls := urls + [top[idx].url];
      }
    }
    assert numbers[..|numbers|] == numbers;
  }

  /** The sorted list holds exactly the considered links, best pre-score first,
      so the candidates are the twelve best of the first thirty links. */
  lemma {:induction false} RankedIsSortedPermutation(g: Goal, hv: seq<string>, links: seq<LinkInfo>)
    ensures SortedDesc(RankedLinks(g, hv, links))
    ensures multiset(RankedLinks(g, hv, links)) == multiset(PreScored(g, hv, Take(links, MaxConsidered)))
    ensures TopCandidates(g, hv, links) == Items(Take(RankedLinks(g, hv, links), MaxCandidates))
  {
    var ps := PreScored(g, hv, Take(links, MaxConsidered));
    SortDescSorted(ps, TopPreScore);
    SortDescPermutes(ps, TopPreScore);
  }

  /** Every candidate is one of the first thirty links. */
  lemma {:induction false} CandidateConsidered(g: Goal, hv: seq<string>, links: seq<LinkInfo>, k: nat)
    requires k < |RankedLinks(g, hv, links)|
    ensures RankedLinks(g, hv, links)[k].item in Take(links, MaxConsidered)
  {
    var considered := Take(links, MaxConsidered);
    var ps := PreScored(g, hv, considered);
    var x := RankedLinks(g, hv, links)[k];
    SortDescFrom(ps, TopPreScore, x);
    var j :| 0 <= j < |ps| && ps[j] == x;
    assert x.item == considered[j];
  }

  /** At most five URLs are chosen (three on the fallback), and each one is
      the URL of one of the first thirty links offered. */
  lemma {:induction false} NavigationBounds(g: Goal, hv: seq<string>, links: seq<LinkInfo>, reply: Option<string>)
    ensures |NavigationChoice(g, hv, links, reply)| <= MaxChoices
    ensures reply.None? ==> |NavigationChoice(g, hv, links, reply)| <= FallbackChoices
    ensures forall u :: u in NavigationChoice(g, hv, links, reply) ==>
      exists k :: 0 <= k < Min(MaxConsidered, |links|) && links[k].url == u
  {
    var r := NavigationChoice(g, hv, links, reply);
    forall u | u in r ensures exists k :: 0 <= k < Min(MaxConsidered, |links|) && links[k].url == u {
      var ranked := RankedLinks(g, hv, links);
      var j: nat := ChosenPosition(g, hv, links, reply, u);
      CandidateConsidered(g, hv, links, j);
      var considered := Take(links, MaxConsidered);
      var i :| 0 <= i < |considered| && considered[i] == ranked[j].item;
      assert links[i] == considered[i];
    }
  }

  /** A chosen URL is that of a sorted link at some position. */
  lemma ChosenPosition(g: Goal, hv: seq<string>, links: seq<LinkInfo>, reply: Option<string>, u: Url) returns (j: nat)
    requires u in NavigationChoice(g, hv, links, reply)
    ensures j < |RankedLinks(g, hv, links)| && RankedLinks(g, hv, links)[j].item.url == u
  {
    var ranked := RankedLinks(g, hv, links);
    if reply.None? {
      j := RankedPosition(ranked, FallbackChoices, UrlsOf(Items(Take(ranked, FallbackChoices))), u);
    } else {
      var top := TopCandidates(g, hv, links);
      var k := AnswerPosition(Strip(reply.value), top, u);
      j := RankedPosition(ranked, MaxCandidates, UrlsOf(top), u);
    }
  }

  /** A URL of the first `n` ranked links is that of a ranked link. */
  lemma RankedPosition(ranked: seq<Ranked<LinkInfo>>, n: nat, urls: seq<Url>, u: Url) returns (j: nat)
    requires urls == UrlsOf(Items(Take(ranked, n))) && u in urls
    ensures j < |ranked| && ranked[j].item.url == u
  {
    j :| 0 <= j < |urls| && urls[j] == u;
    assert Take(ranked, n)[j] == ranked[j];
  }

  /** A URL read from an answer is that of a candidate. */
  lemma AnswerPosition(answer: string, top: seq<LinkInfo>, u: Url) returns (k: nat)
    requires u in ReadAnswer(answer, top)
    ensures k < |top| && top[k].url == u && u in UrlsOf(top)
  {
    k :| 0 <= k < |top| && top[k].url == u;
    assert UrlsOf(top)[k] == u;
  }

  /** `Upper` is taken character by character, so it commutes with slicing. */
  lemma UpperSlice(s: string, lo: nat, hi: nat)
    requires lo <= hi <= |s|
    ensures Upper(s[lo..hi]) == Upper(s)[lo..hi]
  {
  }

  /** A character whose upper case is an ASCII letter is not whitespace. */
  lemma LetterNotSpace(c: char)
    requires 'A' <= UpperChar(c) <= 'Z'
    ensures !IsSpace(c)
  {
  }

  /** An occurrence of "NONE" in `Upper(s)` lies inside any slice of `s` outside
      which there is only whitespace. */
  lemma NoneInside(s: string, i: nat, lo: nat, hi: nat)
    requires OccursAt(Upper(s), "NONE", i) && lo <= hi <= |s|
    requires forall k :: 0 <= k < lo ==> IsSpace(s[k])
    requires forall k :: hi <= k < |s| ==> IsSpace(s[k])
    ensures lo <= i && i + 4 <= hi
  {
    var w := Upper(s)[i..i + 4];
    assert w[0] == 'N' && w[3] == 'E';
    assert Upper(s)[i] == w[0] && Upper(s)[i + 3] == w[3];
    LetterNotSpace(s[i]);
    LetterNotSpace(s[i + 3]);
  }

  /** A "NONE" seen in the raw reply survives the strip, since its letters are
      not whitespace. */
  lemma NoneSurvivesStrip(s: string)
    requires Contains(Upper(s), "NONE")
    ensures Contains(Upper(Strip(s)), "NONE")
  {
    ContainsWitness(Upper(s), "NONE");
    var i: nat :| OccursAt(Upper(s), "NONE", i);
    NoneAtSurvives(s, i);
  }

  lemma NoneAtSurvives(s: string, i: nat)
    requires OccursAt(Upper(s), "NONE", i)
    ensures Contains(Upper(Strip(s)), "NONE")
  {
    var lo, hi := StripSlice(s);
    NoneInside(s, i, lo, hi);
    UpperSlice(s, lo, hi);
    OccursShifted(Upper(s), lo, hi, "NONE", i);
    ContainsAt(Upper(Strip(s)), "NONE", i - lo);
  }

  /** An occurrence inside `[lo, hi)` is an occurrence in the slice, shifted by `lo`. */
  lemma OccursShifted(u: string, lo: nat, hi: nat, pat: string, i: nat)
    requires lo <= i && i + |pat| <= hi <= |u| && OccursAt(u, pat, i)
    ensures OccursAt(u[lo..hi], pat, i - lo)
  {
    var a := u[lo..hi][i - lo..i - lo + |pat|];
    var b := u[i..i + |pat|];
    forall k | 0 <= k < |pat| ensures a[k] == b[k] {
      assert a[k] == u[lo..hi][i - lo + k] == u[i + k];
    }
    assert a == b;
  }

  /** A reply that mentions NONE anywhere, in any letter case, selects nothing,
      whatever numbers it also holds. */
  lemma NoneVetoes(g: Goal, hv: seq<string>, links: seq<LinkInfo>, text: string)
    requires Contains(Upper(text), "NONE")
    ensures NavigationChoice(g, hv, links, Some(text)) == []
  {
    NoneSurvivesStrip(text);
  }

  /** The reply "2,5,NONE-ish-garbage,1" selects nothing, not candidates 2, 5 and 1. */
  lemma NoneInsideNumbers(g: Goal, hv: seq<string>, links: seq<LinkInfo>)
    ensures NavigationChoice(g, hv, links, Some("2,5,NONE-ish-garbage,1")) == []
  {
    var text := "2,5,NONE-ish-garbage,1";
    var u := Upper(text);
    assert u[4] == 'N' && u[5] == 'O' && u[6] == 'N' && u[7] == 'E';
    assert u[4..8] == "NONE";
    ContainsAt(Upper(text), "NONE", 4);
    NoneVetoes(g, hv, links, text);
  }

  /** Without a reply the three best pre-scored links are chosen, in sorted order. */
  lemma FallbackBestThree(g: Goal, hv: seq<string>, links: seq<LinkInfo>)
    requires links != []
    ensures var r := NavigationChoice(g, hv, links, None);
      var ranked := RankedLinks(g, hv, links);
      && |r| == Min(FallbackChoices, |ranked|)
      && (forall k :: 0 <= k < |r| ==> r[k] == ranked[k].item.url)
      && (forall k, j :: 0 <= k < |r| && |r| <= j < |ranked| ==> ranked[k].score >= ranked[j].score)
  {
    RankedIsSortedPermutation(g, hv, links);
  }

  /** Numbers are read in the order given, repeats are kept, and numbers outside
      1..number of candidates are skipped. */
  lemma {:induction false} ChosenAppend(runs: seq<string>, run: string, top: seq<LinkInfo>)
    requires Numerals(runs) && AllDigits(run)
    ensures Numerals(runs + [run])
    ensures Chosen(runs + [run], top) == Chosen(runs, top)
      + (if 1 <= DecimalValue(run) <= |top| then [top[DecimalValue(run) - 1].url] else [])
  {
    assert (runs + [run])[..|runs|] == runs;
  }

  lemma DecimalTwoDigits(a: char, b: char)
    requires IsDigit(a) && IsDigit(b)
    ensures AllDigits([a, b]) && DecimalValue([a, b]) == (a as int - '0' as int) * 10 + (b as int - '0' as int)
  {
    assert [a, b][..1] == [a];
    DecimalOneDigit(a);
  }

  lemma DecimalOneDigit(a: char)
    requires IsDigit(a)
    ensures AllDigits([a]) && DecimalValue([a]) == a as int - '0' as int
  {
    assert [a][..0] == [];
  }

  /** Candidate numbers 0 and 13 name no candidate, a repeated number selects its
      candidate twice: the numbers "3,0,13,3" choose candidate 3 twice. */
  lemma NumbersReadInOrder(top: seq<LinkInfo>)
    requires 3 <= |top| <= MaxCandidates
    ensures Numerals(["3", "0", "13", "3"])
    ensures Chosen(["3", "0", "13", "3"], top) == [top[2].url, top[2].url]
  {
    DecimalOneDigit('3');
    DecimalOneDigit('0');
    DecimalTwoDigits('1', '3');
    ChosenAppend([], "3", top);
    assert [] + ["3"] == ["3"];
    ChosenAppend(["3"], "0", top);
    assert ["3"] + ["0"] == ["3", "0"];
    ChosenAppend(["3", "0"], "13", top);
    assert ["3", "0"] + ["13"] == ["3", "0", "13"];
    ChosenAppend(["3", "0", "13"], "3", top);
    assert ["3", "0", "13"] + ["3"] == ["3", "0", "13", "3"];
  }
}
