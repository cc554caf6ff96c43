/** Extraction of the JSON payload from a language-model reply: the reply is
    stripped, and when it holds a Markdown code fence the fenced body is used.
    `FencedBody` is what the regular expressions
    r'```json\s*(.*?)\s*```' and r'```\s*(.*?)\s*```' (with DOTALL) capture with
    `re.search`: the text between the first opening fence and the first
    closing "```" after it, without its surrounding whitespace. */
module Fences {
  import opened Wrappers
  import opened Text
  import opened JsonValue

  const JsonFence: string := "```json"
  const Fence: string := "```"

  /** The captured group for an opening fence whose text ends at `bodyStart`,
      or None when no closing fence follows (the regular expression does not match). */
  function FencedBody(t: string, bodyStart: nat): Option<string> {
    match Find(t, Fence, bodyStart)
    case Some(c) => Some(Strip(t[bodyStart..c]))
    case None => None
  }

  /** The payload `json.loads` is given. With `bareAllowed` false only a "```json"
      fence is looked for (the site-structure analysis); otherwise a bare "```"
      fence is tried when there is no "```json" one. */
  function PayloadOf(reply: string, bareAllowed: bool): string {
    Payload(Strip(reply), bareAllowed)
  }

  /** The payload chosen from an already-stripped reply `t`. */
  function Payload(t: string, bareAllowed: bool): string {
    match Find(t, JsonFence, 0)
    case Some(p) => FencedBody(t, p + |JsonFence|).GetOr(t)
    case None =>
      if !bareAllowed then t
      else match Find(t, Fence, 0)
        case Some(p) => FencedBody(t, p + |Fence|).GetOr(t)
        case None => t
  }

  /** A decoded reply: None when the oracle call failed or the payload does not parse. */
  function DecodeReply(reply: Option<string>, parse: string -> Option<Json>, bareAllowed: bool): Option<Json> {
    match reply
    case None => None
    case Some(text) => parse(PayloadOf(text, bareAllowed))
  }

  predicate AllSpace(s: string) {
    forall k :: 0 <= k < |s| ==> IsSpace(s[k])
  }

  /** An occurrence inside a slice of `t` is an occurrence in the slice itself. */
  lemma OccursInSlice(t: string, b: string, c: nat, pat: string, i: nat)
    requires c + |b| <= |t| && t[c..c + |b|] == b
    requires c <= i && i + |pat| <= c + |b|
    ensures OccursAt(t, pat, i) <==> OccursAt(b, pat, i - c)
  {
    var x := t[i..i + |pat|];
    var y := b[i - c..i - c + |pat|];
    forall k | 0 <= k < |pat| ensures x[k] == y[k] {
      assert t[i + k] == t[c..c + |b|][i - c + k];
    }
    assert x == y;
  }

  lemma FenceAbsent(t: string, b: string, c: nat)
    requires !Contains(b, Fence)
    requires c + |b| <= |t| && t[c..c + |b|] == b
    ensures forall i: nat :: c <= i && i + |Fence| <= c + |b| ==> !OccursAt(t, Fence, i)
  {
    forall i: nat | c <= i && i + |Fence| <= c + |b|
      ensures !OccursAt(t, Fence, i)
    {
      OccursInSlice(t, b, c, Fence, i);
      if OccursAt(b, Fence, i - c) {
        ContainsAt(b, Fence, i - c);
      }
    }
  }

  lemma NoJsonFence(t: string, inner: string)
    requires t == Fence + inner + Fence && !Contains(inner, "json")
    ensures Find(t, JsonFence, 0).None?
  {
    forall i: nat | OccursAt(t, JsonFence, i) ensures false {
      var w := t[i..i + 7];
      assert w == JsonFence;
      assert w[3..7] == "json" && w[6] == 'n';
      assert t[i + 3..i + 7] == w[3..7];
      assert t[3..3 + |inner|] == inner;
      if i + 4 <= |inner| {
        OccursInSlice(t, inner, 3, "json", i + 3);
        ContainsAt(inner, "json", i);
      }
    }
  }

  /** A fence cannot occur over a character that is not a backtick. */
  lemma NotAcross(t: string, e: nat, i: nat)
    requires i <= e < i + 3 <= |t| && t[e] != '`'
    ensures !OccursAt(t, Fence, i)
  {
  }

  /** The captured group of a fence closed at the end of the text. */
  lemma ClosedBody(t: string, start: nat, inner: string)
    requires start + |inner| + |Fence| == |t|
    requires t[start..start + |inner|] == inner && t[|t| - 3..] == Fence
    requires !Contains(inner, Fence)
    requires inner == [] || inner[|inner| - 1] != '`'
    ensures FencedBody(t, start) == Some(Strip(inner))
  {
    var c := |t| - 3;
    ClosingAt(t, start, inner);
    FencedBodyAt(t, start, c);
    assert t[start..c] == inner;
  }

  lemma ClosingAt(t: string, start: nat, inner: string)
    requires start + |inner| + |Fence| == |t|
    requires t[start..start + |inner|] == inner && t[|t| - 3..] == Fence
    requires !Contains(inner, Fence)
    requires inner == [] || inner[|inner| - 1] != '`'
    ensures Find(t, Fence, start) == Some(|t| - 3)
  {
    NoFenceBefore(t, start, inner);
    assert OccursAt(t, Fence, |t| - 3);
    FindIs(t, Fence, start, |t| - 3);
  }

  lemma FencedBodyAt(t: string, start: nat, c: nat)
    requires Find(t, Fence, start) == Some(c)
    ensures start <= c <= |t| && FencedBody(t, start) == Some(Strip(t[start..c]))
  {
  }

  /** No fence starts between an opening fence and a closing fence at the end. */
  lemma NoFenceBefore(t: string, start: nat, inner: string)
    requires start + |inner| + |Fence| == |t|
    requires t[start..start + |inner|] == inner
    requires !Contains(inner, Fence)
    requires inner == [] || inner[|inner| - 1] != '`'
    ensures forall i: nat :: start <= i < |t| - 3 ==> !OccursAt(t, Fence, i)
  {
    FenceAbsent(t, inner, start);
    forall i: nat | start <= i < |t| - 3 && i + 3 > start + |inner| ensures !OccursAt(t, Fence, i) {
      assert t[|t| - 4] == t[start..start + |inner|][|inner| - 1];
      NotAcross(t, |t| - 4, i);
    }
  }

  /** A reply made of an opening fence, a fence-free body and a closing fence
      yields the stripped body. */
  lemma FencedPayload(open: string, inner: string, bareAllowed: bool)
    requires open == JsonFence || (open == Fence && bareAllowed && !Contains(inner, "json"))
    requires !Contains(inner, Fence)
    requires inner == [] || inner[|inner| - 1] != '`'
    ensures Payload(open + inner + Fence, bareAllowed) == Strip(inner)
  {
    if open == JsonFence {
      JsonPayload(inner, bareAllowed);
    } else {
      BarePayload(inner);
    }
  }

  lemma JsonPayload(inner: string, bareAllowed: bool)
    requires !Contains(inner, Fence)
    requires inner == [] || inner[|inner| - 1] != '`'
    ensures Payload(JsonFence + inner + Fence, bareAllowed) == Strip(inner)
  {
    var t := JsonFence + inner + Fence;
    Framed(JsonFence, inner);
    OpenedBody(JsonFence, inner);
    JsonOpening(t);
    PayloadAtJson(t, bareAllowed);
  }

  lemma BarePayload(inner: string)
    requires !Contains(inner, Fence) && !Contains(inner, "json")
    requires inner == [] || inner[|inner| - 1] != '`'
    ensures Payload(Fence + inner + Fence, true) == Strip(inner)
  {
    BareOpenings(inner);
    OpenedBody(Fence, inner);
    PayloadAtBare(Fence + inner + Fence);
  }

  lemma BareOpenings(inner: string)
    requires !Contains(inner, "json")
    ensures Find(Fence + inner + Fence, JsonFence, 0).None?
    ensures Find(Fence + inner + Fence, Fence, 0) == Some(0)
  {
    var t := Fence + inner + Fence;
    Framed(Fence, inner);
    NoJsonFence(t, inner);
    BareOpening(t);
  }

  /** The body after any opening is captured up to the closing fence. */
  lemma OpenedBody(open: string, inner: string)
    requires !Contains(inner, Fence)
    requires inner == [] || inner[|inner| - 1] != '`'
    ensures FencedBody(open + inner + Fence, |open|) == Some(Strip(inner))
  {
    var t := open + inner + Fence;
    Framed(open, inner);
    ClosedBody(t, |open|, inner);
  }

  lemma Framed(open: string, inner: string)
    ensures var t := open + inner + Fence;
      && t[|open|..|open| + |inner|] == inner && t[|t| - 3..] == Fence && t[..|open|] == open
  {
  }

  lemma PayloadAtJson(t: string, bareAllowed: bool)
    requires Find(t, JsonFence, 0) == Some(0)
    ensures Payload(t, bareAllowed) == FencedBody(t, |JsonFence|).GetOr(t)
  {
  }

  lemma PayloadAtBare(t: string)
    requires Find(t, JsonFence, 0).None? && Find(t, Fence, 0) == Some(0)
    ensures Payload(t, true) == FencedBody(t, |Fence|).GetOr(t)
  {
  }

  lemma JsonOpening(t: string)
    requires |t| >= 7 && t[..7] == JsonFence
    ensures Find(t, JsonFence, 0) == Some(0)
  {
    assert t[0..0 + |JsonFence|] == JsonFence;
  }

  lemma BareOpening(t: string)
    requires |t| >= 3 && t[..3] == Fence
    ensures Find(t, Fence, 0) == Some(0)
  {
    assert t[0..0 + |Fence|] == Fence;
  }

  lemma FenceEnds(open: string, inner: string)
    requires open == JsonFence || open == Fence
    ensures Strip(open + inner + Fence) == open + inner + Fence
  {
    var t := open + inner + Fence;
    assert t[0] == '`' && t[|t| - 1] == '`';
    StripTrimmed(t);
  }

  /** The fenced body is recovered: for a reply "```json" + inner + "```" (or the
      same with a bare fence, when bare fences are accepted and the body does not
      mention "json") the payload is `inner` stripped, whenever `inner` holds no
      "```" and does not end in a backtick. */
  lemma {:induction false} FenceRoundTrip(open: string, inner: string, bareAllowed: bool)
    requires open == JsonFence || (open == Fence && bareAllowed && !Contains(inner, "json"))
    requires !Contains(inner, Fence)
    requires inner == [] || inner[|inner| - 1] != '`'
    ensures PayloadOf(open + inner + Fence, bareAllowed) == Strip(inner)
  {
    FencedPayload(open, inner, bareAllowed);
    FenceEnds(open, inner);
    StrippedPayload(open + inner + Fence, bareAllowed);
  }

  lemma {:induction false} StrippedPayload(t: string, bareAllowed: bool)
    requires Strip(t) == t
    ensures PayloadOf(t, bareAllowed) == Payload(t, bareAllowed)
  {
  }

  lemma JsonFenceIsFence(t: string, p: nat)
    requires OccursAt(t, JsonFence, p)
    ensures OccursAt(t, Fence, p)
  {
    assert t[p..p + 3] == t[p..p + 7][..3];
  }

  /** A reply without any fence is parsed as it stands, stripped. */
  lemma UnfencedReply(reply: string, bareAllowed: bool)
    requires !Contains(Strip(reply), Fence)
    ensures PayloadOf(reply, bareAllowed) == Strip(reply)
  {
    var t := Strip(reply);
    FindContains(t, Fence);
    var r := Find(t, JsonFence, 0);
    if r.Some? {
      JsonFenceIsFence(t, r.value);
      ContainsAt(t, Fence, r.value);
      assert false;
    }
  }

  /** An opening fence that is never closed leaves the stripped reply unchanged. */
  lemma UnclosedFence(t: string, bareAllowed: bool, p: nat)
    requires Find(t, Fence, 0) == Some(p)
    requires Find(t, Fence, p + 3).None?
    ensures Payload(t, bareAllowed) == t
  {
    var r := Find(t, JsonFence, 0);
    if r.Some? {
      var q := r.value;
      JsonFenceIsFence(t, q);
      if Find(t, Fence, q + 7).Some? {
        assert false;
      }
    }
  }
}
