/** The link scorers: the reconnaissance heuristic with its diverse top-N
    selection (`_score_link_relevance_heuristic`, `_select_best_links_for_recon`),
    the integer pre-score of the navigator (`_score_url_relevance`) and the lookup of
    visited URLs of the same shape (`_find_similar_visited_urls`). Heuristic scores
    are counted in half-points, so the source's 5.0 base is 10 and its 0..10 clamp
    is 0..20. */
module Scoring {
  import opened Wrappers
  import opened Seqs
  import opened Text
  import opened Urls
  import opened Ranking
  import opened Objective
  import opened Links

  const LowValueKeywords: seq<string> := ["privacy", "policy", "terms", "cookie", "login", "signin", "signup",
                                          "register", "cart", "checkout", "account", "subscribe", "newsletter"]

  /** The highest heuristic score, in half-points. */
  const TopScore: nat := 20

  /** The lowest heuristic score a reconnaissance pick may have (3.0). */
  const MinReconScore: int := 6

  /** The number of words of `ws` found in `text` or in `path`. */
  function CountEither(ws: seq<string>, text: string, path: string): (n: nat)
    ensures n <= |ws|
  {
    if ws == [] then 0
    else
      var w := ws[|ws| - 1];
      CountEither(ws[..|ws| - 1], text, path) + (if Contains(text, w) || Contains(path, w) then 1 else 0)
  }

  /** The number of words of `ws` found in `s`. */
  function CountIn(ws: seq<string>, s: string): (n: nat)
    ensures n <= |ws|
  {
    if ws == [] then 0
    else CountIn(ws[..|ws| - 1], s) + (if Contains(s, ws[|ws| - 1]) then 1 else 0)
  }

  function LowerAll(ws: seq<string>): (r: seq<string>)
    ensures |r| == |ws| && forall k :: 0 <= k < |ws| ==> r[k] == Lower(ws[k])
  {
    seq(|ws|, k requires 0 <= k < |ws| => Lower(ws[k]))
  }

  /** The words of more than three characters of the objective, lower-cased. */
  function ObjectiveKeywords(objective: string): seq<string> {
    LowerAll(LongWords(Words(objective)))
  }

  function LongWords(ws: seq<string>): (r: seq<string>)
    ensures forall k :: 0 <= k < |r| ==> |r[k]| > 3
  {
    if ws == [] then []
    else
      var prev := LongWords(ws[..|ws| - 1]);
      if |ws[|ws| - 1]| > 3 then prev + [ws[|ws| - 1]] else prev
  }

  /** The text a link is judged by: anchor text, a space and context, lower-cased. */
  function LinkText(l: LinkInfo): string {
    Lower(l.anchorText + " " + l.context)
  }

  /** The score before clamping: the 5.0 base, three points off for every low-value
      keyword present, position boosts, two points per objective keyword in the text
      and one and a half per keyword in the path (when there is an objective), two
      per desired data type and three per seek pattern found. */
  function RawScore(g: Goal, l: LinkInfo): int {
    var text := LinkText(l);
    var path := Lower(l.urlPath);
    var keywords := ObjectiveKeywords(g.objective);
    10 - 6 * CountEither(LowValueKeywords, text, path)
    + (if l.isMainContent then 4 else 0)
    + (if l.isProminent then 3 else 0)
    - (if l.isNavigation then 2 else 0)
    + (if g.objective != [] then 4 * CountIn(keywords, text) + 3 * CountIn(keywords, path) else 0)
    + 4 * CountEither(LowerAll(DataTypes(g)), text, path)
    + 6 * CountEither(LowerAll(SeekPatterns(g)), text, path)
  }

  function Clamp(x: int): (r: int)
    ensures 0 <= r <= TopScore
    ensures 0 <= x <= TopScore ==> r == x
    ensures x < 0 ==> r == 0
    ensures x > TopScore ==> r == TopScore
  {
    Max(0, Min(TopScore, x))
  }

  /** `_score_link_relevance_heuristic`, in half-points. */
  function HeuristicScore(g: Goal, l: LinkInfo): (s: int)
    ensures 0 <= s <= TopScore
  {
    Clamp(RawScore(g, l))
  }

  /** `score += weight` for every word of `ws` found in `text` or in `path`. */
  method AddEither(score0: int, ws: seq<string>, text: string, path: string, weight: int) returns (score: int)
    ensures score == score0 + weight * CountEither(ws, text, path)
  {
    score := score0;
    var i := 0;
    while i < |ws|
      invariant 0 <= i <= |ws|
      invariant score == score0 + weight * CountEither(ws[..i], text, path)
    {
      assert ws[..i + 1][..i] == ws[..i];
      if Contains(text, ws[i]) || Contains(path, ws[i]) {
        score := score + weight;
      }
      i := i + 1;
    }
    assert ws[..i] == ws;
  }

  /** The objective-keyword loop: two points for a keyword in the text, one and a
      half for one in the path. */
  method AddKeywords(score0: int, keywords: seq<string>, text: string, path: string) returns (score: int)
    ensures score == score0 + 4 * CountIn(keywords, text) + 3 * CountIn(keywords, path)
  {
    score := score0;
    var i := 0;
    while i < |keywords|
      invariant 0 <= i <= |keywords|
      invariant score == score0 + 4 * CountIn(keywords[..i], text) + 3 * CountIn(keywords[..i], path)
    {
      assert keywords[..i + 1][..i] == keywords[..i];
      if Contains(text, keywords[i]) {
        score := score + 4;
      }
      if Contains(path, keywords[i]) {
        score := score + 3;
      }
      i := i + 1;
    }
    assert keywords[..i] == keywords;
  }

  /** The heuristic as the source computes it, adjustment by adjustment. */
  method LinkScore(g: Goal, l: LinkInfo) returns (score: int)
    ensures score == HeuristicScore(g, l)
  {
    var text := LinkText(l);
    var path := Lower(l.urlPath);
    score := AddEither(10, LowValueKeywords, text, path, -6);
    if l.isMainContent {
      score := score + 4;
    }
    if l.isProminent {
      score := score + 3;
    }
    if l.isNavigation {
      score := score - 2;
    }
    if g.objective != [] {
      score := AddKeywords(score, ObjectiveKeywords(g.objective), text, path);
    }
    score := AddEither(score, LowerAll(DataTypes(g)), text, path, 4);
    score := AddEither(score, LowerAll(SeekPatterns(g)), text, path, 6);
    score := Max(0, Min(TopScore, score));
  }

  /** A count is zero exactly when no word is found, and complete exactly when
      every word is: each found keyword costs its three points once. */
  lemma {:induction false} CountEitherExtremes(ws: seq<string>, text: string, path: string)
    ensures CountEither(ws, text, path) == 0 <==>
            forall k :: 0 <= k < |ws| ==> !Contains(text, ws[k]) && !Contains(path, ws[k])
    ensures CountEither(ws, text, path) == |ws| <==>
            forall k :: 0 <= k < |ws| ==> Contains(text, ws[k]) || Contains(path, ws[k])
  {
    if ws != [] {
      var init := ws[..|ws| - 1];
      CountEitherExtremes(init, text, path);
      assert forall k :: 0 <= k < |init| ==> init[k] == ws[k];
    }
  }

  /** One character of `sub` that `s` lacks rules `sub` out of `s`. */
  lemma MissingChar(s: string, sub: string, k: nat)
    requires k < |sub| && sub[k] !in s
    ensures !Contains(s, sub)
  {
    ContainsIff(s, sub);
  }

  lemma CartFromPair(s: string, i: nat)
    requires i + 4 <= |s| && (s[i] != 'c' || s[i + 1] != 'a')
    ensures !OccursAt(s, "cart", i)
  {
    assert s[i..i + 4][0] == s[i] && s[i..i + 4][1] == s[i + 1];
  }

  /** The facts `LoginAccountCount` needs about one string. */
  predicate OnlyLoginAccount(s: string) {
    !Contains(s, "privacy") && !Contains(s, "policy") && !Contains(s, "terms") && !Contains(s, "cookie")
    && !Contains(s, "signin") && !Contains(s, "signup") && !Contains(s, "register") && !Contains(s, "cart")
    && !Contains(s, "checkout") && !Contains(s, "subscribe") && !Contains(s, "newsletter")
  }

  /** The low-value keywords other than "login" and "account" are absent from a
      string without the letters p, e, k, s and h and without the pair "ca". */
  lemma LowValueMisses(s: string)
    requires 'p' !in s && 'e' !in s && 'k' !in s && 's' !in s && 'h' !in s
    requires forall i :: 0 <= i < |s| - 1 ==> s[i] != 'c' || s[i + 1] != 'a'
    ensures OnlyLoginAccount(s)
  {
    MissingChar(s, "privacy", 0);
    MissingChar(s, "policy", 0);
    MissingChar(s, "terms", 1);
    MissingChar(s, "cookie", 3);
    MissingChar(s, "signin", 0);
    MissingChar(s, "signup", 0);
    MissingChar(s, "register", 1);
    forall i: nat | i + 4 <= |s| ensures !OccursAt(s, "cart", i) {
      CartFromPair(s, i);
    }
    ContainsIff(s, "cart");
    MissingChar(s, "checkout", 1);
    MissingChar(s, "subscribe", 0);
    MissingChar(s, "newsletter", 1);
  }

  /** A count over a list in which exactly the words at `i` and `j` are found. */
  lemma {:induction false} CountTwoHits(ws: seq<string>, t: string, p: string, i: nat, j: nat, n: nat)
    requires n <= |ws| && i < j < |ws|
    requires forall k :: 0 <= k < |ws| ==> ((Contains(t, ws[k]) || Contains(p, ws[k])) <==> (k == i || k == j))
    ensures CountEither(ws[..n], t, p) == (if i < n then 1 else 0) + (if j < n then 1 else 0)
  {
    if n > 0 {
      CountTwoHits(ws, t, p, i, j, n - 1);
      assert ws[..n][..n - 1] == ws[..n - 1];
    }
  }

  /** The low-value count of a text and path that match exactly "login" and "account". */
  lemma LoginAccountCount(t: string, p: string)
    requires OnlyLoginAccount(t) && OnlyLoginAccount(p)
    requires Contains(t, "login") && Contains(p, "account")
    ensures CountEither(LowValueKeywords, t, p) == 2
  {
    var kws := LowValueKeywords;
    forall k | 0 <= k < |kws| ensures (Contains(t, kws[k]) || Contains(p, kws[k])) <==> (k == 4 || k == 10) {
      if k == 0 { assert kws[k] == "privacy"; }
      else if k == 1 { assert kws[k] == "policy"; }
      else if k == 2 { assert kws[k] == "terms"; }
      else if k == 3 { assert kws[k] == "cookie"; }
      else if k == 4 { assert kws[k] == "login"; }
      else if k == 5 { assert kws[k] == "signin"; }
      else if k == 6 { assert kws[k] == "signup"; }
      else if k == 7 { assert kws[k] == "register"; }
      else if k == 8 { assert kws[k] == "cart"; }
      else if k == 9 { assert kws[k] == "checkout"; }
      else if k == 10 { assert kws[k] == "account"; }
      else if k == 11 { assert kws[k] == "subscribe"; }
      else { assert kws[k] == "newsletter"; }
    }
    CountTwoHits(kws, t, p, 4, 10, |kws|);
    assert kws[..|kws|] == kws;
  }

  /** Each found low-value keyword costs 3.0 and the penalties stack: a link
      reading "Login to your account" with path "/account/login" and nothing else
      matches "login" and "account", scores 5 - 3 - 3 = -1 and is clamped to 0. */
  lemma LoginLinkScoresZero(l: LinkInfo)
    requires l.anchorText == "Login to your account" && l.context == [] && l.urlPath == "/account/login"
    requires !l.isMainContent && !l.isProminent && !l.isNavigation
    ensures RawScore(InitialGoal([]), l) == -2
    ensures HeuristicScore(InitialGoal([]), l) == 0
  {
    var text := LinkText(l);
    var path := Lower(l.urlPath);
    LoginStrings(l);
    LoginMisses(text, path);
    LoginAccountCount(text, path);
  }

  lemma LoginStrings(l: LinkInfo)
    requires l.anchorText == "Login to your account" && l.context == [] && l.urlPath == "/account/login"
    ensures LinkText(l) == "login to your account " && Lower(l.urlPath) == "/account/login"
  {
    assert l.anchorText + " " + l.context == "Login to your account ";
  }

  lemma LoginMisses(text: string, path: string)
    requires text == "login to your account " && path == "/account/login"
    ensures OnlyLoginAccount(text) && OnlyLoginAccount(path)
    ensures Contains(text, "login") && Contains(path, "account")
  {
    LoginInText(text);
    AccountInPath(path);
  }

  lemma LoginInText(text: string)
    requires text == "login to your account "
    ensures Contains(text, "login") && OnlyLoginAccount(text)
  {
    TextLetters(text);
    TextPairs(text);
    LowValueMisses(text);
    assert OccursAt(text, "login", 0);
    ContainsAt(text, "login", 0);
  }

  lemma TextLetters(text: string)
    requires text == "login to your account "
    ensures 'p' !in text && 'e' !in text && 'k' !in text && 's' !in text && 'h' !in text
  {
  }

  lemma TextPairs(text: string)
    requires text == "login to your account "
    ensures forall i :: 0 <= i < |text| - 1 ==> text[i] != 'c' || text[i + 1] != 'a'
  {
  }

  lemma AccountInPath(path: string)
    requires path == "/account/login"
    ensures Contains(path, "account") && OnlyLoginAccount(path)
  {
    LowValueMisses(path);
    assert OccursAt(path, "account", 1);
    ContainsAt(path, "account", 1);
  }

  // ---------------------------------------------------------------------------
  // Reconnaissance selection

  /** Every link paired with its heuristic score, in input order. */
  function ScoredLinks(g: Goal, links: seq<LinkInfo>): (r: seq<Ranked<LinkInfo>>)
    ensures |r| == |links|
    ensures forall k :: 0 <= k < |r| ==> r[k] == Ranked(HeuristicScore(g, links[k]), links[k])
  {
    seq(|links|, k requires 0 <= k < |links| => Ranked(HeuristicScore(g, links[k]), links[k]))
  }

  /** Each ranked item carries its own heuristic score. */
  predicate ScoredBy(g: Goal, xs: seq<Ranked<LinkInfo>>) {
    forall k :: 0 <= k < |xs| ==> xs[k].score == HeuristicScore(g, xs[k].item)
  }

  /** The number of selected links whose URL has pattern `p`. */
  function PatternCount(sel: seq<LinkInfo>, p: string): (n: nat)
    ensures n <= |sel|
  {
    if sel == [] then 0
    else PatternCount(sel[..|sel| - 1], p) + (if UrlPattern(sel[|sel| - 1].url) == p then 1 else 0)
  }

  /** The selection loop over the sorted links: stop at `count` picks, skip scores
      below 3.0 and links whose pattern already has two picks. */
  function Pick(xs: seq<Ranked<LinkInfo>>, count: nat, sel: seq<LinkInfo>): seq<LinkInfo>
    decreases |xs|
  {
    if xs == [] || |sel| >= count then sel
    else if xs[0].score < MinReconScore || PatternCount(sel, UrlPattern(xs[0].item.url)) >= 2 then Pick(xs[1..], count, sel)
    else Pick(xs[1..], count, sel + [xs[0].item])
  }

  /** `_select_best_links_for_recon`: the links sorted by heuristic score, highest
      first and ties in input order, then picked diversely. */
  function ReconSelection(g: Goal, links: seq<LinkInfo>, count: nat): seq<LinkInfo> {
    if links == [] then [] else Pick(SortDesc(ScoredLinks(g, links), TopScore), count, [])
  }

  function CountOf(counts: map<string, nat>, p: string): nat {
    if p in counts then counts[p] else 0
  }

  /** The selection as the source runs it: score every link, sort, then walk the
      sorted list with a per-pattern counter. */
  method SelectBestLinksForRecon(g: Goal, links: seq<LinkInfo>, count: nat) returns (selected: seq<LinkInfo>)
    ensures selected == ReconSelection(g, links, count)
  {
    if links == [] {
      return [];
    }
    var scored := ScoreAll(g, links);
    selected := PickLoop(SortDesc(scored, TopScore), count);
  }

  method ScoreAll(g: Goal, links: seq<LinkInfo>) returns (scored: seq<Ranked<LinkInfo>>)
    ensures scored == ScoredLinks(g, links)
  {
    scored := [];
    var i := 0;
    while i < |links|
      invariant 0 <= i <= |links|
      invariant scored == ScoredLinks(g, links[..i])
    {
      var score := LinkScore(g, links[i]);
      scored := scored + [Ranked(score, links[i])];
      i := i + 1;
    }
    assert links[..i] == links;
  }

  /** The walk over the sorted links, with `pattern_counts` as a map. */
  method PickLoop(sorted: seq<Ranked<LinkInfo>>, count: nat) returns (selected: seq<LinkInfo>)
    ensures selected == Pick(sorted, count, [])
  {
    selected := [];
    var counts: map<string, nat> := map[];
    var i := 0;
    while i < |sorted|
      invariant 0 <= i <= |sorted|
      invariant Pick(sorted[i..], count, selected) == Pick(sorted, count, [])
      invariant forall p :: CountOf(counts, p) == PatternCount(selected, p)
    {
      if |selected| >= count {
        break;
      }
      var x := sorted[i];
      assert sorted[i..][1..] == sorted[i + 1..];
      var pattern := UrlPattern(x.item.url);
      if x.score < MinReconScore {
      } else if CountOf(counts, pattern) >= 2 {
      } else {
        CountAppend(selected, x.item);
        selected := selected + [x.item];
        counts := counts[pattern := CountOf(counts, pattern) + 1];
      }
      i := i + 1;
    }
  }

  lemma CountAppend(sel: seq<LinkInfo>, l: LinkInfo)
    ensures forall p :: PatternCount(sel + [l], p) == PatternCount(sel, p) + (if UrlPattern(l.url) == p then 1 else 0)
  {
    assert (sel + [l])[..|sel|] == sel;
  }

  /** The selection never holds more than `count` links. */
  lemma {:induction false} PickBound(xs: seq<Ranked<LinkInfo>>, count: nat, sel: seq<LinkInfo>)
    requires |sel| <= count
    ensures |Pick(xs, count, sel)| <= count
    decreases |xs|
  {
    if xs != [] && |sel| < count {
      PickBound(xs[1..], count, sel);
      PickBound(xs[1..], count, sel + [xs[0].item]);
    }
  }

  /** No pattern is picked more than twice. */
  lemma {:induction false} PickDiverse(xs: seq<Ranked<LinkInfo>>, count: nat, sel: seq<LinkInfo>, p: string)
    requires forall q :: PatternCount(sel, q) <= 2
    ensures PatternCount(Pick(xs, count, sel), p) <= 2
    decreases |xs|
  {
    if xs != [] && |sel| < count {
      var x := xs[0];
      if x.score < MinReconScore || PatternCount(sel, UrlPattern(x.item.url)) >= 2 {
        PickDiverse(xs[1..], count, sel, p);
      } else {
        var next := sel + [x.item];
        assert next[..|sel|] == sel;
        assert forall q :: PatternCount(next, q) <= 2 by {
          forall q ensures PatternCount(next, q) <= 2 {
            assert PatternCount(next, q) == PatternCount(sel, q) + (if UrlPattern(x.item.url) == q then 1 else 0);
          }
        }
        PickDiverse(xs[1..], count, next, p);
      }
    }
  }

  /** What the loop adds to `sel` is a sub-list of the walked items. */
  lemma {:induction false} PickShape(xs: seq<Ranked<LinkInfo>>, count: nat, sel: seq<LinkInfo>) returns (added: seq<LinkInfo>)
    ensures Pick(xs, count, sel) == sel + added
    ensures IsSubseq(added, Items(xs))
    decreases |xs|
  {
    if xs == [] || |sel| >= count {
      added := [];
      return;
    }
    var x := xs[0];
    var items := Items(xs);
    assert Items(xs[1..]) == items[1..];
    if x.score < MinReconScore || PatternCount(sel, UrlPattern(x.item.url)) >= 2 {
      added := PickShape(xs[1..], count, sel);
    } else {
      var rest := PickShape(xs[1..], count, sel + [x.item]);
      added := [x.item] + rest;
      assert added[1..] == rest && added[0] == items[0];
    }
  }

  /** Every pick scores at least 3.0, for any scorer `f` that gave the items their scores. */
  lemma {:induction false} PickScored(f: LinkInfo -> int, xs: seq<Ranked<LinkInfo>>, count: nat, sel: seq<LinkInfo>)
    requires forall k :: 0 <= k < |xs| ==> xs[k].score == f(xs[k].item)
    requires forall l :: l in sel ==> f(l) >= MinReconScore
    ensures forall l :: l in Pick(xs, count, sel) ==> f(l) >= MinReconScore
    decreases |xs|
  {
    if xs != [] && |sel| < count {
      assert forall k :: 0 <= k < |xs[1..]| ==> xs[1..][k] == xs[k + 1];
      if xs[0].score < MinReconScore || PatternCount(sel, UrlPattern(xs[0].item.url)) >= 2 {
        PickScored(f, xs[1..], count, sel);
      } else {
        PickScored(f, xs[1..], count, sel + [xs[0].item]);
      }
    }
  }

  /** Sorting keeps every item's own score. */
  lemma SortKeepsScores(g: Goal, links: seq<LinkInfo>)
    ensures ScoredBy(g, SortDesc(ScoredLinks(g, links), TopScore))
  {
    var xs := ScoredLinks(g, links);
    var sorted := SortDesc(xs, TopScore);
    forall k | 0 <= k < |sorted| ensures sorted[k].score == HeuristicScore(g, sorted[k].item) {
      SortDescFrom(xs, TopScore, sorted[k]);
    }
  }

  /** `_select_best_links_for_recon` returns at most `count` links; each scores at
      least 3.0; no URL pattern occurs more than twice; and the selection is a
      sub-list of the stable highest-first order, so ties keep their input order. */
  lemma ReconSelectionSpec(g: Goal, links: seq<LinkInfo>, count: nat)
    ensures var r := ReconSelection(g, links, count);
      && |r| <= count
      && (forall l :: l in r ==> HeuristicScore(g, l) >= MinReconScore)
      && (forall p :: PatternCount(r, p) <= 2)
      && IsSubseq(r, Items(SortDesc(ScoredLinks(g, links), TopScore)))
      && (links == [] ==> r == [])
  {
    var r := ReconSelection(g, links, count);
    if links != [] {
      var sorted := SortDesc(ScoredLinks(g, links), TopScore);
      PickBound(sorted, count, []);
      forall p ensures PatternCount(r, p) <= 2 {
        PickDiverse(sorted, count, [], p);
      }
      var added := PickShape(sorted, count, []);
      assert r == added;
      SortKeepsScores(g, links);
      var f := (l: LinkInfo) => HeuristicScore(g, l);
      PickScored(f, sorted, count, []);
    }
  }

  /** Walking the sorted links in two stretches is walking them once. */
  lemma {:induction false} PickSplit(xs: seq<Ranked<LinkInfo>>, count: nat, sel: seq<LinkInfo>, j: nat)
    requires j <= |xs|
    ensures Pick(xs, count, sel) == Pick(xs[j..], count, Pick(xs[..j], count, sel))
    decreases j
  {
    if j == 0 {
      assert xs[0..] == xs;
    } else if |sel| < count {
      var skip := xs[0].score < MinReconScore || PatternCount(sel, UrlPattern(xs[0].item.url)) >= 2;
      var next := if skip then sel else sel + [xs[0].item];
      var init := xs[..j];
      assert init[0] == xs[0] && init[1..] == xs[1..][..j - 1];
      assert Pick(init, count, sel) == Pick(init[1..], count, next);
      assert xs[1..][j - 1..] == xs[j..];
      PickSplit(xs[1..], count, next, j - 1);
    }
  }

  /** The walk decides each link in turn: it is taken exactly when fewer than
      `count` links are picked, it scores at least 3.0 and fewer than two picks
      share its pattern. */
  lemma PickStep(xs: seq<Ranked<LinkInfo>>, count: nat, sel: seq<LinkInfo>, j: nat)
    requires j < |xs|
    ensures var pre := Pick(xs[..j], count, sel);
      var x := xs[j];
      Pick(xs[..j + 1], count, sel)
      == if |pre| < count && x.score >= MinReconScore && PatternCount(pre, UrlPattern(x.item.url)) < 2
         then pre + [x.item] else pre
  {
    PickSplit(xs[..j + 1], count, sel, j);
    assert xs[..j + 1][..j] == xs[..j];
    assert xs[..j + 1][j..] == [xs[j]];
  }

  /** The picks made over a prefix of the walk are a prefix of the selection. */
  lemma PickPrefix(xs: seq<Ranked<LinkInfo>>, count: nat, sel: seq<LinkInfo>, j: nat)
    requires j <= |xs|
    ensures Pick(xs[..j], count, sel) <= Pick(xs, count, sel)
  {
    PickSplit(xs, count, sel, j);
    var _ := PickShape(xs[j..], count, Pick(xs[..j], count, sel));
  }

  /** A prefix of a selection holds no more links of a pattern than the selection. */
  lemma {:induction false} PatternCountPrefix(a: seq<LinkInfo>, b: seq<LinkInfo>, p: string)
    requires a <= b
    ensures PatternCount(a, p) <= PatternCount(b, p)
    decreases |b|
  {
    if |a| < |b| {
      var n := |b| - 1;
      assert a <= b[..n];
      PatternCountPrefix(a, b[..n], p);
    } else {
      assert a == b;
    }
  }

  /** `_select_best_links_for_recon` is the greedy walk over the sorted links:
      the picks made before the `j`-th sorted link are kept, and that link is
      taken exactly when fewer than `count` are picked, it scores at least 3.0 and
      fewer than two picks share its pattern. */
  lemma ReconSelectionGreedy(g: Goal, links: seq<LinkInfo>, count: nat, j: nat)
    requires j < |links|
    ensures var sorted := SortDesc(ScoredLinks(g, links), TopScore);
      && |sorted| == |links|
      && var pre := Pick(sorted[..j], count, []);
         var x := sorted[j];
         var next := Pick(sorted[..j + 1], count, []);
         && next == (if |pre| < count && x.score >= MinReconScore && PatternCount(pre, UrlPattern(x.item.url)) < 2
                     then pre + [x.item] else pre)
         && pre <= next <= ReconSelection(g, links, count)
  {
    var xs := ScoredLinks(g, links);
    SortDescPermutes(xs, TopScore);
    var sorted := SortDesc(xs, TopScore);
    PickStep(sorted, count, [], j);
    PickPrefix(sorted, count, [], j + 1);
  }

  /** Every link has a place in the sorted list, with its own score. */
  lemma SortedPlace(g: Goal, links: seq<LinkInfo>, l: LinkInfo) returns (j: nat)
    requires l in links
    ensures var sorted := SortDesc(ScoredLinks(g, links), TopScore);
      j < |sorted| == |links| && sorted[j] == Ranked(HeuristicScore(g, l), l)
  {
    var xs := ScoredLinks(g, links);
    SortDescPermutes(xs, TopScore);
    var sorted := SortDesc(xs, TopScore);
    var k :| 0 <= k < |links| && links[k] == l;
    assert xs[k] == Ranked(HeuristicScore(g, l), l);
    assert Ranked(HeuristicScore(g, l), l) in multiset(sorted);
    j :| 0 <= j < |sorted| && sorted[j] == Ranked(HeuristicScore(g, l), l);
  }

  /** A link scoring at least 3.0 is left out of the selection only when the
      selection is full or two picks already share its pattern. */
  lemma ReconSelectionComplete(g: Goal, links: seq<LinkInfo>, count: nat, l: LinkInfo)
    requires l in links && HeuristicScore(g, l) >= MinReconScore
    ensures var r := ReconSelection(g, links, count);
      l in r || |r| >= count || PatternCount(r, UrlPattern(l.url)) >= 2
  {
    var r := ReconSelection(g, links, count);
    var j := SortedPlace(g, links, l);
    ReconSelectionGreedy(g, links, count, j);
    var sorted := SortDesc(ScoredLinks(g, links), TopScore);
    var pre := Pick(sorted[..j], count, []);
    if |r| < count && PatternCount(r, UrlPattern(l.url)) < 2 {
      PatternCountPrefix(pre, r, UrlPattern(l.url));
      var next := Pick(sorted[..j + 1], count, []);
      assert next == pre + [l];
      assert r[|pre|] == next[|pre|] == l;
    }
  }

  // ---------------------------------------------------------------------------
  // Pre-scoring for the navigator

  /** Some seek pattern, lower-cased, occurs in the lower-cased full URL. */
  predicate SeekMatch(seek: seq<string>, u: Url) {
    exists k :: 0 <= k < |seek| && Contains(Lower(Render(u)), Lower(seek[k]))
  }

  /** `_score_url_relevance`: 5, plus 2 for a learned high-value pattern, 1 for a
      link in the main content, 1 for a prominent link and 2 when a seek pattern
      occurs in the URL. */
  function PreScore(g: Goal, highValuePatterns: seq<string>, l: LinkInfo): (s: int)
    ensures 5 <= s <= 11
  {
    5
    + (if UrlPattern(l.url) in highValuePatterns then 2 else 0)
    + (if l.isMainContent then 1 else 0)
    + (if l.isProminent then 1 else 0)
    + (if SeekMatch(SeekPatterns(g), l.url) then 2 else 0)
  }

  datatype Priority = High | Medium | Low

  function PriorityOf(score: int): Priority {
    if score >= 8 then High else if score >= 6 then Medium else Low
  }

  /** The dictionary `_score_url_relevance` returns, without `historical_avg`. */
  datatype ScoreInfo = ScoreInfo(link: LinkInfo, score: int, shouldCrawl: bool, priority: Priority)

  function ScoreUrlRelevance(g: Goal, highValuePatterns: seq<string>, l: LinkInfo): (r: ScoreInfo)
    ensures r.link == l && r.score == PreScore(g, highValuePatterns, l)
    ensures r.shouldCrawl
  {
    var score := PreScore(g, highValuePatterns, l);
    ScoreInfo(l, score, score >= 5, PriorityOf(score))
  }

  /** The pre-score tiers: a link is low priority exactly when no bonus applies,
      and high priority whenever a learned pattern or a seek pattern comes with any
      other bonus. */
  lemma PriorityTiers(g: Goal, hv: seq<string>, l: LinkInfo)
    ensures var r := ScoreUrlRelevance(g, hv, l);
      var pattern := UrlPattern(l.url) in hv;
      var seek := SeekMatch(SeekPatterns(g), l.url);
      && (r.priority == Low <==> !pattern && !seek && !l.isMainContent && !l.isProminent)
      && ((pattern && (seek || l.isMainContent || l.isProminent)) ==> r.priority == High)
      && ((seek && (l.isMainContent || l.isProminent)) ==> r.priority == High)
      && (r.score == 11 <==> pattern && seek && l.isMainContent && l.isProminent)
  {
  }

  /** Learning more high-value patterns never lowers a pre-score. */
  lemma PreScoreMonotone(g: Goal, hv: seq<string>, more: seq<string>, l: LinkInfo)
    requires forall p :: p in hv ==> p in more
    ensures PreScore(g, hv, l) <= PreScore(g, more, l)
  {
  }

  // ---------------------------------------------------------------------------
  // Visited URLs of the same shape

  /** `_find_similar_visited_urls`: walks the visited set (in no particular order)
      collecting URLs whose pattern equals the candidate's, stopping once `limit`
      have been found; the check follows each append, so a `limit` of 0 still
      yields one URL. */
  method FindSimilarVisited(visited: set<Url>, u: Url, limit: nat) returns (similar: seq<Url>)
    ensures NoDup(similar)
    ensures forall v :: v in similar ==> v in visited && UrlPattern(v) == UrlPattern(u)
    ensures |similar| <= Max(limit, 1)
    ensures |similar| < Max(limit, 1) ==>
      forall v :: v in visited && UrlPattern(v) == UrlPattern(u) ==> v in similar
  {
    var pattern := UrlPattern(u);
    similar := [];
    var rest := visited;
    while rest != {}
      invariant rest <= visited
      invariant NoDup(similar)
      invariant forall v :: v in similar ==> v in visited && v !in rest && UrlPattern(v) == pattern
      invariant forall v :: v in visited && v !in rest && UrlPattern(v) == pattern ==> v in similar
      invariant |similar| < Max(limit, 1)
      decreases |rest|
    {
      var v :| v in rest;
      rest := rest - {v};
      if UrlPattern(v) == pattern {
        similar := similar + [v];
        if |similar| >= limit {
          return;
        }
      }
    }
  }
}
