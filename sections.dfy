/** Section identification (`_identify_page_sections`): the content blocks of a
    cleaned page are summarised as at most eight sections. Semantic blocks
    (section, article, main) with at least 50 characters of text are used when
    there are two or more of them; otherwise class-bearing divs with at least
    100 characters of text are used, skipping a div whose parent is a div already
    captured, and stopping at eight. */
module Sections {
  import opened Wrappers
  import opened Seqs
  import opened Text

  /** An element of the page, in document order: its tag, `id` attribute, `class`
      attribute (None when absent), text (`get_text(separator=' ', strip=True)`),
      the stripped texts of the h1-h4 headers inside it, and the position of its
      parent element in the same sequence. */
  datatype Block = Block(tag: string, id: Option<string>, classes: Option<seq<string>>,
                         text: string, headers: seq<string>, parent: Option<nat>)

  /** The dictionary built for a section. */
  datatype Section = Section(id: nat, name: string, preview: string, headers: seq<string>,
                             tagType: string, wordCount: nat)

  const MaxSections: nat := 8
  const MaxName: nat := 50
  const MaxPreview: nat := 400
  const MaxHeaders: nat := 3
  const MinSemanticText: nat := 50
  const MinDivText: nat := 100

  predicate IsSemanticTag(tag: string) {
    tag == "section" || tag == "article" || tag == "main"
  }

  predicate SemanticCandidate(b: Block) {
    IsSemanticTag(b.tag) && |b.text| >= MinSemanticText
  }

  /** `find_all('div', class_=True)` with enough text. */
  predicate DivCandidate(b: Block) {
    b.tag == "div" && b.classes.Some? && |b.text| >= MinDivText
  }

  /** `' '.join(tag.get('class', []))`. */
  function ClassText(b: Block): string {
    Join(b.classes.GetOr([]), ' ')
  }

  function SectionHeaders(b: Block): (hs: seq<string>)
    ensures |hs| <= MaxHeaders && forall k :: 0 <= k < |hs| ==> hs[k] != []
  {
    Take(NonEmpty(b.headers), MaxHeaders)
  }

  /** The section a semantic block becomes: named by its id attribute (even an
      empty one), else its classes, else "section_<id>", cut to 50 characters. */
  function SemanticSection(b: Block, sid: nat): (s: Section)
    ensures s.id == sid && |s.name| <= MaxName && |s.preview| <= MaxPreview && s.tagType == b.tag
  {
    var name := match b.id
      case Some(v) => v
      case None => if ClassText(b) != [] then ClassText(b) else "section_" + NatToString(sid);
    Section(sid, Take(name, MaxName), Take(b.text, MaxPreview), SectionHeaders(b), b.tag, |Words(b.text)|)
  }

  /** The section a div becomes: named by its classes cut to 50 characters, or
      "content_block_<id>" when that is empty. */
  function DivSection(b: Block, sid: nat): (s: Section)
    ensures s.id == sid && |s.preview| <= MaxPreview && s.tagType == "div"
  {
    var cls := Take(ClassText(b), MaxName);
    Section(sid, if cls != [] then cls else "content_block_" + NatToString(sid),
            Take(b.text, MaxPreview), SectionHeaders(b), "div", |Words(b.text)|)
  }

  /** The first loop: the positions of the semantic candidates, in document order. */
  function SemanticOrigins(blocks: seq<Block>): (o: seq<nat>)
    ensures forall k :: 0 <= k < |o| ==> o[k] < |blocks|
    ensures forall k1, k2 :: 0 <= k1 < k2 < |o| ==> o[k1] < o[k2]
  {
    if blocks == [] then []
    else
      var j := |blocks| - 1;
      SemanticOrigins(blocks[..j]) + (if SemanticCandidate(blocks[j]) then [j] else [])
  }

  /** The div is a direct child of a div captured earlier (`div in s['_element']`). */
  predicate Captured(b: Block, origins: seq<nat>) {
    b.parent.Some? && b.parent.value in origins
  }

  /** The second loop: the positions of the div candidates not nested in a
      captured div, until eight are captured. */
  function DivOrigins(blocks: seq<Block>): (o: seq<nat>)
    ensures |o| <= MaxSections
    ensures forall k :: 0 <= k < |o| ==> o[k] < |blocks|
    ensures forall k1, k2 :: 0 <= k1 < k2 < |o| ==> o[k1] < o[k2]
  {
    if blocks == [] then []
    else
      var j := |blocks| - 1;
      var prev := DivOrigins(blocks[..j]);
      if |prev| >= MaxSections || !DivCandidate(blocks[j]) || Captured(blocks[j], prev) then prev
      else prev + [j]
  }

  function SemanticSections(blocks: seq<Block>): (r: seq<Section>) {
    var o := SemanticOrigins(blocks);
    seq(|o|, k requires 0 <= k < |o| => SemanticSection(blocks[o[k]], k))
  }

  function DivSections(blocks: seq<Block>): (r: seq<Section>) {
    var o := DivOrigins(blocks);
    seq(|o|, k requires 0 <= k < |o| => DivSection(blocks[o[k]], k))
  }

  /** The sections of a page. */
  function PageSections(blocks: seq<Block>): seq<Section> {
    var sem := SemanticSections(blocks);
    Take(if |sem| < 2 then DivSections(blocks) else sem, MaxSections)
  }

  /** `_identify_page_sections` with its two loops. */
  method IdentifySections(blocks: seq<Block>) returns (sections: seq<Section>)
    ensures sections == PageSections(blocks)
  {
    var sem := SemanticLoop(blocks);
    if |sem| >= 2 {
      return Take(sem, MaxSections);
    }
    var divs := DivLoop(blocks);
    sections := Take(divs, MaxSections);
  }

  method SemanticLoop(blocks: seq<Block>) returns (sem: seq<Section>)
    ensures sem == SemanticSections(blocks)
  {
    sem := [];
    ghost var origins: seq<nat> := [];
    for i := 0 to |blocks|
      invariant origins == SemanticOrigins(blocks[..i])
      invariant SemanticBuilt(blocks, origins, sem)
    {
      assert blocks[..i + 1][..i] == blocks[..i];
      assert SemanticOrigins(blocks[..i + 1]) == origins + (if SemanticCandidate(blocks[i]) then [i] else []);
      if SemanticCandidate(blocks[i]) {
        SemanticExtend(blocks, origins, sem, i);
        var s := SemanticSection(blocks[i], |sem|);
        sem := sem + [s];
        origins := origins + [i];
      }
    }
    assert blocks[..|blocks|] == blocks;
    SemanticSectionsAre(blocks, sem);
  }

  /** `sem` are the sections of the blocks at `origins`, numbered in order. */
  predicate SemanticBuilt(blocks: seq<Block>, origins: seq<nat>, sem: seq<Section>) {
    |sem| == |origins|
    && forall k :: 0 <= k < |sem| ==> origins[k] < |blocks| && sem[k] == SemanticSection(blocks[origins[k]], k)
  }

  /** The sections built along the semantic origins are `SemanticSections`. */
  lemma SemanticSectionsAre(blocks: seq<Block>, sem: seq<Section>)
    requires SemanticBuilt(blocks, SemanticOrigins(blocks), sem)
    ensures sem == SemanticSections(blocks)
  {
  }

  /** Adding semantic block `i` extends the built sections by its section. */
  lemma SemanticExtend(blocks: seq<Block>, origins: seq<nat>, sem: seq<Section>, i: nat)
    requires i < |blocks| && SemanticBuilt(blocks, origins, sem)
    ensures SemanticBuilt(blocks, origins + [i], sem + [SemanticSection(blocks[i], |sem|)])
  {
  }

  /** `divs` are the sections of the blocks at `origins`, numbered in order. */
  predicate DivBuilt(blocks: seq<Block>, origins: seq<nat>, divs: seq<Section>) {
    |divs| == |origins|
    && forall k :: 0 <= k < |divs| ==> origins[k] < |blocks| && divs[k] == DivSection(blocks[origins[k]], k)
  }

  /** The sections built along the div origins are `DivSections`. */
  lemma DivSectionsAre(blocks: seq<Block>, divs: seq<Section>)
    requires DivBuilt(blocks, DivOrigins(blocks), divs)
    ensures divs == DivSections(blocks)
  {
  }

  /** Capturing block `i` extends the built sections by its section. */
  lemma DivExtend(blocks: seq<Block>, origins: seq<nat>, divs: seq<Section>, i: nat)
    requires i < |blocks| && DivBuilt(blocks, origins, divs)
    ensures DivBuilt(blocks, origins + [i], divs + [DivSection(blocks[i], |divs|)])
  {
  }

  method DivLoop(blocks: seq<Block>) returns (divs: seq<Section>)
    ensures divs == DivSections(blocks)
  {
    divs := [];
    var captured: seq<nat> := [];
    var i := 0;
    while i < |blocks|
      invariant 0 <= i <= |blocks|
      invariant captured == DivOrigins(blocks[..i]) && |captured| < MaxSections
      invariant DivBuilt(blocks, captured, divs)
    {
      DivStep(blocks, i);
      var b := blocks[i];
      if DivCandidate(b) && !Captured(b, captured) {
        DivExtend(blocks, captured, divs, i);
        divs := divs + [DivSection(b, |divs|)];
        captured := captured + [i];
        if |divs| >= MaxSections {
          DivSaturated(blocks, i + 1);
          DivSectionsAre(blocks, divs);
          return;
        }
      }
      i := i + 1;
    }
    DivSaturated(blocks, i);
    DivSectionsAre(blocks, divs);
  }

  /** One iteration of the div loop. */
  lemma DivStep(blocks: seq<Block>, i: nat)
    requires i < |blocks|
    ensures var prev := DivOrigins(blocks[..i]);
      DivOrigins(blocks[..i + 1])
      == if |prev| >= MaxSections || !DivCandidate(blocks[i]) || Captured(blocks[i], prev) then prev else prev + [i]
  {
    assert blocks[..i + 1][..i] == blocks[..i];
  }

  /** Once eight divs are captured, later blocks change nothing. */
  lemma {:induction false} DivSaturated(blocks: seq<Block>, m: nat)
    requires m <= |blocks|
    requires m == |blocks| || |DivOrigins(blocks[..m])| >= MaxSections
    ensures DivOrigins(blocks) == DivOrigins(blocks[..m])
    decreases |blocks|
  {
    if m < |blocks| {
      var j := |blocks| - 1;
      assert blocks[..j][..m] == blocks[..m];
      DivSaturated(blocks[..j], m);
    } else {
      assert blocks[..m] == blocks;
    }
  }

  /** A block is among the semantic origins exactly when it is a semantic candidate. */
  lemma {:induction false} SemanticComplete(blocks: seq<Block>, j: nat)
    requires j < |blocks|
    ensures j in SemanticOrigins(blocks) <==> SemanticCandidate(blocks[j])
  {
    var n := |blocks| - 1;
    if j < n {
      SemanticComplete(blocks[..n], j);
      assert blocks[..n][j] == blocks[j];
    } else {
      assert j !in SemanticOrigins(blocks[..n]);
    }
  }

  /** A block is among the div origins exactly when it is a div candidate, fewer
      than eight divs were captured before it, and its parent is not one of them. */
  lemma {:induction false} DivComplete(blocks: seq<Block>, j: nat)
    requires j < |blocks|
    ensures j in DivOrigins(blocks) <==>
      DivCandidate(blocks[j]) && |DivOrigins(blocks[..j])| < MaxSections
      && !Captured(blocks[j], DivOrigins(blocks[..j]))
  {
    var n := |blocks| - 1;
    if j < n {
      DivComplete(blocks[..n], j);
      assert blocks[..n][j] == blocks[j];
      assert blocks[..n][..j] == blocks[..j];
    } else {
      assert j !in DivOrigins(blocks[..n]);
    }
  }

  /** The origins found before position `j` are the scan of the first `j` blocks. */
  lemma {:induction false} DivPrefix(blocks: seq<Block>, k: nat)
    requires k < |DivOrigins(blocks)|
    ensures DivOrigins(blocks)[..k] == DivOrigins(blocks[..DivOrigins(blocks)[k]])
  {
    var n := |blocks| - 1;
    var prev := DivOrigins(blocks[..n]);
    var o := DivOrigins(blocks);
    if k < |prev| {
      assert o[..|prev|] == prev;
      DivPrefix(blocks[..n], k);
      assert blocks[..n][..prev[k]] == blocks[..prev[k]];
      assert o[..k] == prev[..k];
    } else {
      assert o == prev + [n] && k == |prev|;
      assert o[..k] == prev;
    }
  }

  /** Each semantic origin is a semantic candidate. */
  lemma SemanticSound(blocks: seq<Block>)
    ensures forall k :: 0 <= k < |SemanticOrigins(blocks)| ==> SemanticCandidate(blocks[SemanticOrigins(blocks)[k]])
  {
    var o := SemanticOrigins(blocks);
    forall k | 0 <= k < |o| ensures SemanticCandidate(blocks[o[k]]) {
      SemanticComplete(blocks, o[k]);
    }
  }

  /** Each div origin is a div candidate whose parent is not a div captured before it. */
  lemma DivSound(blocks: seq<Block>)
    ensures forall k :: 0 <= k < |DivOrigins(blocks)| ==>
      DivCandidate(blocks[DivOrigins(blocks)[k]]) && !Captured(blocks[DivOrigins(blocks)[k]], DivOrigins(blocks)[..k])
  {
    var o := DivOrigins(blocks);
    forall k | 0 <= k < |o| ensures DivCandidate(blocks[o[k]]) && !Captured(blocks[o[k]], o[..k]) {
      DivComplete(blocks, o[k]);
      DivPrefix(blocks, k);
    }
  }

  /** A div whose parent was captured before it never becomes a section. */
  lemma NestedDivSkipped(blocks: seq<Block>, j: nat, p: nat)
    requires j < |blocks| && blocks[j].parent == Some(p) && p in DivOrigins(blocks[..j])
    ensures j !in DivOrigins(blocks)
  {
    DivComplete(blocks, j);
  }

  lemma ShortNumeral(n: nat)
    requires n < 10
    ensures |NatToString(n)| == 1
  {
  }

  /** The section list: at most eight, numbered 0, 1, ... in order, names of at
      most 50 characters, at most three non-empty headers; each comes from a
      semantic candidate when two or more exist and from a div candidate otherwise. */
  lemma SectionsShape(blocks: seq<Block>)
    ensures |PageSections(blocks)| <= MaxSections
    ensures forall k :: 0 <= k < |PageSections(blocks)| ==> WellFormed(PageSections(blocks)[k], k)
    ensures |SemanticOrigins(blocks)| >= 2 ==>
      PageSections(blocks) == Take(SemanticSections(blocks), MaxSections)
      && forall k :: 0 <= k < |PageSections(blocks)| ==> IsSemanticTag(PageSections(blocks)[k].tagType)
    ensures |SemanticOrigins(blocks)| < 2 ==>
      PageSections(blocks) == DivSections(blocks)
      && forall k :: 0 <= k < |PageSections(blocks)| ==> PageSections(blocks)[k].tagType == "div"
  {
    SemanticShape(blocks);
    DivShape(blocks);
  }

  /** The shape every section has: numbered by its place, a name of at most 50
      characters, at most three headers and a preview of at most 400 characters. */
  predicate WellFormed(s: Section, k: nat) {
    s.id == k && |s.name| <= MaxName && |s.headers| <= MaxHeaders && |s.preview| <= MaxPreview
  }

  lemma SemanticShape(blocks: seq<Block>)
    ensures forall k :: 0 <= k < |SemanticSections(blocks)| ==>
      WellFormed(SemanticSections(blocks)[k], k) && IsSemanticTag(SemanticSections(blocks)[k].tagType)
  {
    SemanticSound(blocks);
  }

  lemma DivShape(blocks: seq<Block>)
    ensures |DivSections(blocks)| <= MaxSections
    ensures forall k :: 0 <= k < |DivSections(blocks)| ==>
      WellFormed(DivSections(blocks)[k], k) && DivSections(blocks)[k].tagType == "div"
  {
    var r := DivSections(blocks);
    forall k | 0 <= k < |r| ensures |r[k].name| <= MaxName {
      ShortNumeral(k);
    }
  }

  /** Sections are analysed one by one only for a page with at least two of them. */
  predicate SectionWise(sections: seq<Section>) {
    |sections| >= 2
  }

  /** Two semantic sections come from two distinct semantic candidates. */
  lemma TwoSemantic(blocks: seq<Block>)
    requires |SemanticOrigins(blocks)| >= 2
    ensures exists j1, j2 :: 0 <= j1 < j2 < |blocks| && SemanticCandidate(blocks[j1]) && SemanticCandidate(blocks[j2])
  {
    var o := SemanticOrigins(blocks);
    SemanticSound(blocks);
    assert SemanticCandidate(blocks[o[0]]) && SemanticCandidate(blocks[o[1]]);
  }

  /** Two div sections come from two distinct div candidates. */
  lemma TwoDivs(blocks: seq<Block>)
    requires |DivOrigins(blocks)| >= 2
    ensures exists j1, j2 :: 0 <= j1 < j2 < |blocks| && DivCandidate(blocks[j1]) && DivCandidate(blocks[j2])
  {
    var o := DivOrigins(blocks);
    DivSound(blocks);
    assert DivCandidate(blocks[o[0]]) && DivCandidate(blocks[o[1]]);
  }

  /** With fewer than two semantic candidates and fewer than two div candidates
      the page is analysed whole. */
  lemma FewCandidatesWholePage(blocks: seq<Block>)
    requires forall j1, j2 :: 0 <= j1 < j2 < |blocks| ==> !(SemanticCandidate(blocks[j1]) && SemanticCandidate(blocks[j2]))
    requires forall j1, j2 :: 0 <= j1 < j2 < |blocks| ==> !(DivCandidate(blocks[j1]) && DivCandidate(blocks[j2]))
    ensures !SectionWise(PageSections(blocks))
  {
    if |SemanticOrigins(blocks)| >= 2 {
      TwoSemantic(blocks);
      assert false;
    }
    if |DivOrigins(blocks)| >= 2 {
      TwoDivs(blocks);
      assert false;
    }
  }
}
