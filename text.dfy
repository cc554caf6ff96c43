/** Python string operations the crawler relies on, with Python's semantics:
    `str.strip()` and `str.split()` use the full `str.isspace` character set,
    `in` is substring search, `re.findall(r'\d+', s)` finds maximal digit runs. */
module Text {
  import opened Wrappers

  /** Python's `str.isspace` for a single character. */
  predicate IsSpace(c: char) {
    var n := c as int;
    (9 <= n <= 13) || (28 <= n <= 32) || n == 0x85 || n == 0xA0 || n == 0x1680
    || (0x2000 <= n <= 0x200A) || n == 0x2028 || n == 0x2029 || n == 0x202F
    || n == 0x205F || n == 0x3000
  }

  /** An ASCII decimal digit (what `\d` matches in the crawler's replies). */
  predicate IsDigit(c: char) {
    '0' <= c <= '9'
  }

  /** Leading whitespace removed (Python's `lstrip()`). */
  function TrimLeft(s: string): (r: string)
    ensures |r| <= |s| && r == s[|s| - |r|..]
    ensures forall k :: 0 <= k < |s| - |r| ==> IsSpace(s[k])
    ensures r != [] ==> !IsSpace(r[0])
  {
    if s != [] && IsSpace(s[0]) then TrimLeft(s[1..]) else s
  }

  /** Trailing whitespace removed (Python's `rstrip()`). */
  function TrimRight(s: string): (r: string)
    ensures |r| <= |s| && r == s[..|r|]
    ensures forall k :: |r| <= k < |s| ==> IsSpace(s[k])
    ensures r != [] ==> !IsSpace(r[|r| - 1])
  {
    if s != [] && IsSpace(s[|s| - 1]) then TrimRight(s[..|s| - 1]) else s
  }

  /** Python's `str.strip()`. */
  function Strip(s: string): (r: string)
    ensures |r| <= |s|
    ensures r != [] ==> !IsSpace(r[0]) && !IsSpace(r[|r| - 1])
  {
    TrimRight(TrimLeft(s))
  }

  /** `Strip(s)` is the slice `s[lo..hi]` and everything outside it is whitespace. */
  lemma StripSlice(s: string) returns (lo: nat, hi: nat)
    ensures lo <= hi <= |s| && Strip(s) == s[lo..hi]
    ensures forall k :: 0 <= k < lo ==> IsSpace(s[k])
    ensures forall k :: hi <= k < |s| ==> IsSpace(s[k])
  {
    var l := TrimLeft(s);
    lo := |s| - |l|;
    hi := lo + |TrimRight(l)|;
    assert Strip(s) == l[..hi - lo];
    forall k | hi <= k < |s| ensures IsSpace(s[k]) {
      assert s[k] == l[k - lo];
    }
  }

  /** A string with no surrounding whitespace is its own strip: strip is idempotent. */
  lemma StripTrimmed(s: string)
    requires s != [] ==> !IsSpace(s[0]) && !IsSpace(s[|s| - 1])
    ensures Strip(s) == s
  {
  }

  lemma StripIdempotent(s: string)
    ensures Strip(Strip(s)) == Strip(s)
  {
    StripTrimmed(Strip(s));
  }

  lemma {:induction false} TrimLeftPadded(a: string, x: string)
    requires forall k :: 0 <= k < |a| ==> IsSpace(a[k])
    ensures TrimLeft(a + x) == TrimLeft(x)
    decreases |a|
  {
    if a != [] {
      assert (a + x)[0] == a[0];
      assert (a + x)[1..] == a[1..] + x;
      assert TrimLeft(a + x) == TrimLeft(a[1..] + x);
      TrimLeftPadded(a[1..], x);
    } else {
      assert a + x == x;
    }
  }

  lemma {:induction false} TrimRightPadded(x: string, c: string)
    requires forall k :: 0 <= k < |c| ==> IsSpace(c[k])
    ensures TrimRight(x + c) == TrimRight(x)
    decreases |c|
  {
    if c != [] {
      var c' := c[..|c| - 1];
      assert (x + c)[|x + c| - 1] == c[|c| - 1];
      assert (x + c)[..|x + c| - 1] == x + c';
      assert TrimRight(x + c) == TrimRight(x + c');
      TrimRightPadded(x, c');
    } else {
      assert x + c == x;
    }
  }

  lemma TrimRightKeeps(b: string)
    requires b != [] && !IsSpace(b[|b| - 1])
    ensures TrimRight(b) == b
  {
  }

  lemma TrimLeftKeeps(b: string)
    requires b != [] && !IsSpace(b[0])
    ensures TrimLeft(b) == b
  {
  }

  lemma {:induction false} TrimLeftAllSpace(c: string)
    requires forall k :: 0 <= k < |c| ==> IsSpace(c[k])
    ensures TrimLeft(c) == []
  {
    TrimLeftPadded(c, []);
    assert c + [] == c;
  }

  /** Whitespace on both sides of an already-stripped text is removed again by `Strip`. */
  lemma {:induction false} StripPadded(a: string, b: string, c: string)
    requires forall k :: 0 <= k < |a| ==> IsSpace(a[k])
    requires forall k :: 0 <= k < |c| ==> IsSpace(c[k])
    requires Strip(b) == b
    ensures Strip(a + b + c) == b
  {
    assert a + b + c == a + (b + c);
    TrimLeftPadded(a, b + c);
    if b == [] {
      assert b + c == c;
      TrimLeftAllSpace(c);
    } else {
      TrimLeftKeeps(b + c);
      TrimRightPadded(b, c);
      TrimRightKeeps(b);
    }
  }

  function LowerChar(c: char): char {
    if 'A' <= c <= 'Z' then (c as int + 32) as char else c
  }

  function UpperChar(c: char): char {
    if 'a' <= c <= 'z' then (c as int - 32) as char else c
  }

  /** Python's `str.lower()` restricted to ASCII letters. */
  function Lower(s: string): (r: string)
    ensures |r| == |s|
  {
    seq(|s|, i requires 0 <= i < |s| => LowerChar(s[i]))
  }

  /** Python's `str.upper()` restricted to ASCII letters. */
  function Upper(s: string): (r: string)
    ensures |r| == |s|
  {
    seq(|s|, i requires 0 <= i < |s| => UpperChar(s[i]))
  }

  /** Python's `sub in s` for strings. */
  predicate Contains(s: string, sub: string)
    decreases |s|
  {
    sub <= s || (s != [] && Contains(s[1..], sub))
  }

  /** `sub` occurs in `s` starting at index `i`. */
  predicate OccursAt(s: string, sub: string, i: nat) {
    i + |sub| <= |s| && s[i..i + |sub|] == sub
  }

  /** `Contains` holds exactly when `sub` occurs at some index of `s`. */
  lemma ContainsIff(s: string, sub: string)
    ensures Contains(s, sub) <==> exists i: nat :: OccursAt(s, sub, i)
  {
    if Contains(s, sub) {
      ContainsWitness(s, sub);
    }
    if exists i: nat :: OccursAt(s, sub, i) {
      var i: nat :| OccursAt(s, sub, i);
      ContainsAt(s, sub, i);
    }
  }

  lemma {:induction false} ContainsWitness(s: string, sub: string)
    requires Contains(s, sub)
    ensures exists i: nat :: OccursAt(s, sub, i)
    decreases |s|
  {
    if sub <= s {
      assert s[0..|sub|] == sub;
      assert OccursAt(s, sub, 0);
    } else {
      ContainsWitness(s[1..], sub);
      var i: nat :| OccursAt(s[1..], sub, i);
      assert s[1..][i..i + |sub|] == s[i + 1..i + 1 + |sub|];
      assert OccursAt(s, sub, i + 1);
    }
  }

  lemma {:induction false} ContainsAt(s: string, sub: string, i: nat)
    requires OccursAt(s, sub, i)
    ensures Contains(s, sub)
    decreases i
  {
    if i == 0 {
      assert s[..|sub|] == sub;
    } else {
      assert s[1..][i - 1..i - 1 + |sub|] == s[i..i + |sub|];
      ContainsAt(s[1..], sub, i - 1);
    }
  }

  /** Python's `t.find(pat, start)`: the first index at or after `start` where `pat` occurs. */
  function Find(t: string, pat: string, start: nat): (r: Option<nat>)
    decreases |t| - start
    ensures r.Some? ==> start <= r.value && OccursAt(t, pat, r.value)
    ensures r.Some? ==> forall i: nat :: start <= i < r.value ==> !OccursAt(t, pat, i)
    ensures r.None? ==> forall i: nat :: start <= i ==> !OccursAt(t, pat, i)
  {
    if start + |pat| > |t| then None
    else if t[start..start + |pat|] == pat then Some(start)
    else Find(t, pat, start + 1)
  }

  /** `Find` returns the first occurrence at or after `start`. */
  lemma {:induction false} FindIs(t: string, pat: string, start: nat, c: nat)
    requires start <= c && OccursAt(t, pat, c)
    requires forall i: nat :: start <= i < c ==> !OccursAt(t, pat, i)
    ensures Find(t, pat, start) == Some(c)
    decreases c - start
  {
    if start < c {
      assert !OccursAt(t, pat, start);
      FindIs(t, pat, start + 1, c);
    }
  }

  /** Searching from the start finds something exactly when the pattern is contained. */
  lemma FindContains(t: string, pat: string)
    ensures Find(t, pat, 0).Some? <==> Contains(t, pat)
  {
    ContainsIff(t, pat);
  }

  /** The length of the leading run of non-whitespace characters. */
  function WordLength(t: string): (n: nat)
    ensures n <= |t|
    ensures forall k :: 0 <= k < n ==> !IsSpace(t[k])
    ensures n < |t| ==> IsSpace(t[n])
  {
    if t == [] || IsSpace(t[0]) then 0 else 1 + WordLength(t[1..])
  }

  /** Python's `str.split()` with no argument: the maximal runs of non-whitespace. */
  function Words(s: string): seq<string>
    decreases |s|
  {
    var t := TrimLeft(s);
    if t == [] then []
    else
      var n := WordLength(t);
      [t[..n]] + Words(t[n..])
  }

  /** Python's `s.split(sep)` for a one-character separator (`"".split(",") == [""]`). */
  function Split(s: string, sep: char): (parts: seq<string>)
    ensures |parts| >= 1
    ensures forall p :: p in parts ==> sep !in p
  {
    if s == [] then [[]]
    else
      var rest := Split(s[1..], sep);
      if s[0] == sep then [[]] + rest
      else [[s[0]] + rest[0]] + rest[1..]
  }

  /** Python's `sep.join(parts)`. */
  function Join(parts: seq<string>, sep: char): string {
    if parts == [] then []
    else if |parts| == 1 then parts[0]
    else parts[0] + [sep] + Join(parts[1..], sep)
  }

  lemma {:induction false} SplitNoSep(a: string, sep: char)
    requires sep !in a
    ensures Split(a, sep) == [a]
    decreases |a|
  {
    if a != [] {
      SplitNoSep(a[1..], sep);
      assert [a[0]] + a[1..] == a;
    }
  }

  lemma {:induction false} SplitCons(a: string, sep: char, t: string)
    requires sep !in a
    ensures Split(a + [sep] + t, sep) == [a] + Split(t, sep)
    decreases |a|
  {
    if a == [] {
      assert (a + [sep] + t)[1..] == t;
    } else {
      assert (a + [sep] + t)[1..] == a[1..] + [sep] + t;
      SplitCons(a[1..], sep, t);
      assert [a[0]] + a[1..] == a;
    }
  }

  /** Splitting a join of separator-free parts gives the parts back. */
  lemma {:induction false} SplitJoin(parts: seq<string>, sep: char)
    requires |parts| >= 1
    requires forall p :: p in parts ==> sep !in p
    ensures Split(Join(parts, sep), sep) == parts
    decreases |parts|
  {
    if |parts| == 1 {
      SplitNoSep(parts[0], sep);
    } else {
      SplitJoin(parts[1..], sep);
      SplitCons(parts[0], sep, Join(parts[1..], sep));
    }
  }

  /** Joining the pieces of a split gives the string back. */
  lemma {:induction false} JoinSplit(s: string, sep: char)
    ensures Join(Split(s, sep), sep) == s
    decreases |s|
  {
    if s != [] {
      JoinSplit(s[1..], sep);
      var rest := Split(s[1..], sep);
      if s[0] == sep {
        assert Join([[]] + rest, sep) == [] + [sep] + Join(rest, sep);
      } else {
        var parts := [[s[0]] + rest[0]] + rest[1..];
        if |rest| == 1 {
          assert Join(rest, sep) == rest[0];
        } else {
          assert Join(rest, sep) == rest[0] + [sep] + Join(rest[1..], sep);
          assert parts[1..] == rest[1..];
        }
        assert [s[0]] + s[1..] == s;
      }
    }
  }

  /** The non-empty strings of a list, in order. */
  function NonEmpty(parts: seq<string>): (r: seq<string>)
    ensures forall k :: 0 <= k < |r| ==> r[k] != []
  {
    if parts == [] then []
    else if parts[0] == [] then NonEmpty(parts[1..])
    else [parts[0]] + NonEmpty(parts[1..])
  }

  lemma {:induction false} NonEmptyKeeps(parts: seq<string>)
    requires forall k :: 0 <= k < |parts| ==> parts[k] != []
    ensures NonEmpty(parts) == parts
  {
    if parts != [] {
      NonEmptyKeeps(parts[1..]);
    }
  }

  /** Every element `NonEmpty` keeps comes from its input. */
  lemma {:induction false} NonEmptyFrom(parts: seq<string>, k: nat)
    requires k < |NonEmpty(parts)|
    ensures NonEmpty(parts)[k] in parts
  {
    if parts[0] == [] {
      NonEmptyFrom(parts[1..], k);
    } else if k > 0 {
      NonEmptyFrom(parts[1..], k - 1);
    }
  }

  /** The length of the leading run of digits. */
  function DigitRunLength(t: string): (n: nat)
    ensures n <= |t|
    ensures forall k :: 0 <= k < n ==> IsDigit(t[k])
    ensures n < |t| ==> !IsDigit(t[n])
  {
    if t == [] || !IsDigit(t[0]) then 0 else 1 + DigitRunLength(t[1..])
  }

  /** Python's `re.findall(r'\d+', s)` for ASCII digits: the maximal digit runs, in order. */
  function DigitRuns(s: string): (runs: seq<string>)
    decreases |s|
    ensures forall r :: r in runs ==> r != [] && forall k :: 0 <= k < |r| ==> IsDigit(r[k])
  {
    if s == [] then []
    else if !IsDigit(s[0]) then DigitRuns(s[1..])
    else
      var n := DigitRunLength(s);
      [s[..n]] + DigitRuns(s[n..])
  }

  predicate AllDigits(s: string) {
    forall k :: 0 <= k < |s| ==> IsDigit(s[k])
  }

  /** Python's `int(s)` for a string of ASCII digits. */
  function DecimalValue(s: string): nat
    requires AllDigits(s)
  {
    if s == [] then 0
    else DecimalValue(s[..|s| - 1]) * 10 + (s[|s| - 1] as int - '0' as int)
  }

  function DigitChar(d: nat): char
    requires d < 10
  {
    ('0' as int + d) as char
  }

  /** Python's `str(n)` for a natural number. */
  function NatToString(n: nat): (s: string)
    ensures s != [] && AllDigits(s)
  {
    if n < 10 then [DigitChar(n)] else NatToString(n / 10) + [DigitChar(n % 10)]
  }

  /** Python's `str(i)` for an integer (a minus sign, then the digits). */
  function IntToString(i: int): string {
    if i < 0 then "-" + NatToString(-i) else NatToString(i)
  }

  /** `int(str(n)) == n`: the rendering of a number reads back as the same number. */
  lemma {:induction false} DecimalRoundTrip(n: nat)
    ensures DecimalValue(NatToString(n)) == n
  {
    if n >= 10 {
      DecimalRoundTrip(n / 10);
      var s := NatToString(n);
      assert s[..|s| - 1] == NatToString(n / 10);
    }
  }

  /** A digit run that does not start with a zero reads as a positive number. */
  lemma {:induction false} DecimalPositive(s: string)
    requires AllDigits(s) && s != [] && s[0] != '0'
    ensures DecimalValue(s) >= 1
    decreases |s|
  {
    if |s| > 1 {
      DecimalPositive(s[..|s| - 1]);
    }
  }

  /** `str(int(s)) == s` for a digit run without a leading zero (or the single
      digit "0"): every such run is the rendering of the number it reads as. */
  lemma {:induction false} DecimalRendering(s: string)
    requires AllDigits(s) && s != [] && (s[0] != '0' || |s| == 1)
    ensures NatToString(DecimalValue(s)) == s
    decreases |s|
  {
    var last := s[|s| - 1];
    var d := last as int - '0' as int;
    assert DigitChar(d) == last;
    if |s| == 1 {
      assert s == [last];
    } else {
      var init := s[..|s| - 1];
      DecimalRendering(init);
      DecimalPositive(init);
      var n := DecimalValue(s);
      assert n / 10 == DecimalValue(init) && n % 10 == d;
      assert s == init + [last];
    }
  }

  /** A leading zero does not change what `int` reads: `int("007") == int("7")`. */
  lemma {:induction false} DecimalLeadingZero(s: string)
    requires AllDigits(s) && s != [] && s[0] == '0'
    ensures DecimalValue(s) == DecimalValue(s[1..])
    decreases |s|
  {
    if |s| > 1 {
      var init := s[..|s| - 1];
      DecimalLeadingZero(init);
      assert init[1..] == s[1..][..|s[1..]| - 1];
    }
  }
}
