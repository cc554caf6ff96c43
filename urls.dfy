/** URLs as `urllib.parse.urlparse` splits them, the domain check and the
    structural pattern of a URL's path (numeric and over-long segments become `*`). */
module Urls {
  import opened Wrappers
  import opened Text

  /** A URL as `urlparse` splits it. `rest` holds what follows the path (`;params`,
      `?query`, `#fragment`); URLs are identified by all four parts. */
  datatype Url = Url(scheme: string, netloc: string, path: string, rest: string)

  function Render(u: Url): string {
    u.scheme + "://" + u.netloc + u.path + u.rest
  }

  /** `_normalize_url` after `urljoin`: `f"{scheme}://{netloc}{path}"`, so the
      query and the fragment are dropped. */
  function Normalize(u: Url): (r: Url)
    ensures r.rest == [] && UrlPattern(r) == UrlPattern(u) && r.netloc == u.netloc
  {
    Url(u.scheme, u.netloc, u.path, [])
  }

  /** Same-domain test against the crawl's base domain: never when no base has
      been set (or it is empty), otherwise an identical network location, so
      subdomains and other ports are different domains. */
  predicate SameDomain(base: Option<string>, u: Url) {
    base.Some? && base.value != [] && u.netloc == base.value
  }

  /** A path segment as it appears in a pattern. */
  function Generalize(seg: string): string {
    if (seg != [] && AllDigits(seg)) || |seg| > 30 then "*" else seg
  }

  function GeneralizeAll(parts: seq<string>): (r: seq<string>)
    ensures |r| == |parts|
    ensures forall k :: 0 <= k < |r| ==> r[k] == Generalize(parts[k])
  {
    if parts == [] then [] else [Generalize(parts[0])] + GeneralizeAll(parts[1..])
  }

  /** The non-empty segments of a path. */
  function Segments(path: string): seq<string> {
    NonEmpty(Split(path, '/'))
  }

  /** The pattern of a path: "/" followed by its generalised segments joined by "/". */
  function PathPattern(path: string): (p: string)
    ensures p != [] && p[0] == '/'
  {
    var parts := GeneralizeAll(Segments(path));
    if parts == [] then "/" else "/" + Join(parts, '/')
  }

  function UrlPattern(u: Url): string {
    PathPattern(u.path)
  }

  /** The segments of a pattern are exactly the generalised segments of the path,
      so a pattern records the path's shape segment by segment. */
  lemma {:induction false} PatternSegments(path: string)
    ensures Segments(PathPattern(path)) == GeneralizeAll(Segments(path))
  {
    var segs := Segments(path);
    var parts := GeneralizeAll(segs);
    if parts == [] {
      assert Split("/", '/') == [[], []] by {
        assert "/"[1..] == [];
      }
    } else {
      forall k | 0 <= k < |parts| ensures parts[k] != [] && '/' !in parts[k] {
        assert segs[k] in Split(path, '/') by {
          NonEmptyFrom(Split(path, '/'), k);
        }
      }
      SplitJoin(parts, '/');
      assert "/" + Join(parts, '/') == [] + ['/'] + Join(parts, '/');
      SplitCons([], '/', Join(parts, '/'));
      assert NonEmpty([[]] + parts) == NonEmpty(parts) by {
        assert ([[]] + parts)[1..] == parts;
      }
      NonEmptyKeeps(parts);
    }
  }

  /** The pattern is the bare "/" exactly when the path has no non-empty segment. */
  lemma RootPattern(path: string)
    ensures PathPattern(path) == "/" <==> Segments(path) == []
  {
    var segs := Segments(path);
    if segs != [] {
      var parts := GeneralizeAll(segs);
      assert parts[0] != [] by {
        assert segs[0] != [];
      }
      assert |Join(parts, '/')| >= |parts[0]|;
    }
  }

  lemma GeneralizeIdempotent(seg: string)
    ensures Generalize(Generalize(seg)) == Generalize(seg)
  {
    if Generalize(seg) == "*" {
      assert !IsDigit('*');
    }
  }

  /** A pattern is its own pattern: generalising twice changes nothing. */
  lemma {:induction false} PatternIdempotent(path: string)
    ensures PathPattern(PathPattern(path)) == PathPattern(path)
  {
    PatternSegments(path);
    var parts := GeneralizeAll(Segments(path));
    forall k | 0 <= k < |parts| ensures Generalize(parts[k]) == parts[k] {
      GeneralizeIdempotent(Segments(path)[k]);
    }
    assert GeneralizeAll(parts) == parts;
  }
}
