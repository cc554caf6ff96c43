/** Link extraction (`_extract_links_with_context`): the anchors of a fetched page
    are filtered against the avoid patterns, the crawl's domain and the visited set,
    and the survivors are described with their context for the scorers. The HTML
    itself is not modelled: each anchor arrives as a record of what BeautifulSoup
    reports about it. */
module Links {
  import opened Wrappers
  import opened Seqs
  import opened Text
  import opened Urls
  import opened Objective

  /** An `<a href>` element: its raw `href`, the URL `urljoin` resolves it to (None
      when resolving raises), its stripped text, the stripped text of its parent
      element (None when it has none), its `title` and `aria-label` attributes, and
      whether it sits inside `nav`/`header`, inside `main`, or inside `h1`-`h3`. */
  datatype Anchor = Anchor(
    href: string, resolved: Option<Url>, text: string, parentText: Option<string>,
    title: string, ariaLabel: string, inNav: bool, inMain: bool, prominent: bool)

  /** The description of a kept link that the scorers and the navigator receive. */
  datatype LinkInfo = LinkInfo(
    url: Url, anchorText: string, context: string, title: string, ariaLabel: string,
    isNavigation: bool, isMainContent: bool, isProminent: bool, urlPath: string)

  /** The patterns every extraction adds to the stored avoid list. */
  const FixedAvoid: seq<string> := ["javascript:", "mailto:", "tel:", "#", ".jpg", ".png", ".pdf", ".css", ".js"]

  /** `any(pattern.lower() in href.lower() for pattern in avoid)`. */
  predicate Avoided(href: string, avoid: seq<string>) {
    exists k :: 0 <= k < |avoid| && Contains(Lower(href), Lower(avoid[k]))
  }

  /** The anchor survives every check of the extraction loop. */
  predicate Accept(a: Anchor, avoid: seq<string>, base: Option<string>, visited: set<Url>) {
    && !Avoided(a.href, avoid)
    && a.resolved.Some?
    && SameDomain(base, Normalize(a.resolved.value))
    && Normalize(a.resolved.value) !in visited
    && |a.text| >= 2
  }

  /** The record built for an accepted anchor: the context is the first 200
      characters of the parent's text, or empty. */
  function AsLink(a: Anchor): (l: LinkInfo)
    requires a.resolved.Some?
    ensures l.url == Normalize(a.resolved.value) && l.urlPath == l.url.path
    ensures |l.context| <= 200
  {
    var u := Normalize(a.resolved.value);
    var context := match a.parentText case Some(t) => Take(t, 200) case None => [];
    LinkInfo(u, a.text, context, a.title, a.ariaLabel, a.inNav, a.inMain, a.prominent, u.path)
  }

  /** The links extracted from `anchors`, in document order. */
  function FilterLinks(anchors: seq<Anchor>, avoid: seq<string>, base: Option<string>, visited: set<Url>): (r: seq<LinkInfo>)
    ensures |r| <= |anchors|
  {
    if anchors == [] then []
    else
      var prev := FilterLinks(anchors[..|anchors| - 1], avoid, base, visited);
      var a := anchors[|anchors| - 1];
      if Accept(a, avoid, base, visited) then prev + [AsLink(a)] else prev
  }

  /** The avoid list an extraction checks: the stored patterns, then the fixed ones. */
  function AvoidList(g: Goal): seq<string> {
    AvoidPatterns(g) + FixedAvoid
  }

  /** `_extract_links_with_context` over the page's anchors. */
  method ExtractLinks(anchors: seq<Anchor>, g: Goal, base: Option<string>, visited: set<Url>)
    returns (links: seq<LinkInfo>)
    ensures links == FilterLinks(anchors, AvoidList(g), base, visited)
  {
    var avoid := AvoidList(g);
    links := [];
    var i := 0;
    while i < |anchors|
      invariant 0 <= i <= |anchors|
      invariant links == FilterLinks(anchors[..i], avoid, base, visited)
    {
      var a := anchors[i];
      assert anchors[..i + 1][..i] == anchors[..i];
      if Avoided(a.href, avoid) {
      } else if a.resolved.None? {
      } else if !SameDomain(base, Normalize(a.resolved.value)) || Normalize(a.resolved.value) in visited {
      } else if |a.text| < 2 {
      } else {
        links := links + [AsLink(a)];
      }
      i := i + 1;
    }
    assert anchors[..|anchors|] == anchors;
  }

  /** Every extracted link is on the crawl's domain, not yet visited, normalised,
      labelled by at least two characters, and comes from an anchor the avoid
      patterns let through. */
  lemma {:induction false} FilterSound(anchors: seq<Anchor>, avoid: seq<string>, base: Option<string>, visited: set<Url>)
    ensures forall l :: l in FilterLinks(anchors, avoid, base, visited) ==>
      SameDomain(base, l.url) && l.url !in visited && l.url.rest == [] && |l.anchorText| >= 2
      && exists k :: 0 <= k < |anchors| && anchors[k].resolved.Some? && !Avoided(anchors[k].href, avoid) && AsLink(anchors[k]) == l
  {
    if anchors != [] {
      var init := anchors[..|anchors| - 1];
      FilterSound(init, avoid, base, visited);
      forall l | l in FilterLinks(init, avoid, base, visited)
        ensures exists k :: 0 <= k < |anchors| && anchors[k].resolved.Some? && !Avoided(anchors[k].href, avoid) && AsLink(anchors[k]) == l
      {
        var k :| 0 <= k < |init| && init[k].resolved.Some? && !Avoided(init[k].href, avoid) && AsLink(init[k]) == l;
        assert anchors[k] == init[k];
      }
    }
  }

  /** No acceptable anchor is lost. */
  lemma {:induction false} FilterComplete(anchors: seq<Anchor>, avoid: seq<string>, base: Option<string>, visited: set<Url>)
    ensures forall k :: 0 <= k < |anchors| && Accept(anchors[k], avoid, base, visited) ==>
      AsLink(anchors[k]) in FilterLinks(anchors, avoid, base, visited)
  {
    if anchors != [] {
      var init := anchors[..|anchors| - 1];
      FilterComplete(init, avoid, base, visited);
      forall k | 0 <= k < |anchors| && Accept(anchors[k], avoid, base, visited)
        ensures AsLink(anchors[k]) in FilterLinks(anchors, avoid, base, visited)
      {
        if k < |init| {
          assert anchors[k] == init[k];
        }
      }
    }
  }

  /** The source extends the stored avoid list in place on every extraction; since
      the added patterns are already there after the first time, the repetition
      never changes which hrefs are avoided. */
  lemma AvoidRepeatHarmless(href: string, avoid: seq<string>)
    ensures Avoided(href, avoid + FixedAvoid + FixedAvoid) <==> Avoided(href, avoid + FixedAvoid)
  {
    var longer := avoid + FixedAvoid + FixedAvoid;
    var shorter := avoid + FixedAvoid;
    if Avoided(href, longer) {
      var k :| 0 <= k < |longer| && Contains(Lower(href), Lower(longer[k]));
      if k < |shorter| {
        assert longer[k] == shorter[k];
      } else {
        assert longer[k] == shorter[k - |FixedAvoid|];
      }
    }
    if Avoided(href, shorter) {
      var k :| 0 <= k < |shorter| && Contains(Lower(href), Lower(shorter[k]));
      assert longer[k] == shorter[k];
    }
  }

  /** The avoid test ignores case: an upper-case `MAILTO:` link is skipped. */
  lemma MailtoAvoided(rest: string)
    ensures Avoided("MAILTO:" + rest, FixedAvoid)
  {
    var h := Lower("MAILTO:" + rest);
    assert h[..7] == "mailto:";
    assert Lower(FixedAvoid[1]) == "mailto:";
    assert Contains(h, Lower(FixedAvoid[1]));
  }
}
