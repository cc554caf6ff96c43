/** Python's stable `list.sort(key=score, reverse=True)` on scored items whose
    scores are small non-negative integers, written as the concatenation of the
    score buckets from the highest score down. */
module Ranking {

  datatype Ranked<T> = Ranked(score: int, item: T)

  /** The items with score `s`, in their original order. */
  function Bucket<T>(xs: seq<Ranked<T>>, s: int): (r: seq<Ranked<T>>)
    ensures forall k :: 0 <= k < |r| ==> r[k].score == s
  {
    if xs == [] then []
    else (if xs[0].score == s then [xs[0]] else []) + Bucket(xs[1..], s)
  }

  /** The buckets `s`, `s - 1`, ..., `0`, concatenated. */
  function SortFrom<T>(xs: seq<Ranked<T>>, s: int): (r: seq<Ranked<T>>)
    decreases if s < 0 then 0 else s + 1
    ensures forall k :: 0 <= k < |r| ==> 0 <= r[k].score <= s
  {
    if s < 0 then [] else Bucket(xs, s) + SortFrom(xs, s - 1)
  }

  /** The stable descending sort of scores in `0..top`. */
  function SortDesc<T>(xs: seq<Ranked<T>>, top: nat): seq<Ranked<T>> {
    SortFrom(xs, top)
  }

  function Items<T>(xs: seq<Ranked<T>>): (r: seq<T>)
    ensures |r| == |xs| && forall k :: 0 <= k < |xs| ==> r[k] == xs[k].item
  {
    seq(|xs|, k requires 0 <= k < |xs| => xs[k].item)
  }

  predicate InRange<T>(xs: seq<Ranked<T>>, top: nat) {
    forall k :: 0 <= k < |xs| ==> 0 <= xs[k].score <= top
  }

  predicate SortedDesc<T>(xs: seq<Ranked<T>>) {
    forall i, j :: 0 <= i < j < |xs| ==> xs[i].score >= xs[j].score
  }

  /** The sort puts higher scores first. */
  lemma {:induction false} SortDescSorted<T>(xs: seq<Ranked<T>>, top: nat)
    ensures SortedDesc(SortDesc(xs, top))
  {
    SortFromSorted(xs, top);
  }

  lemma {:induction false} SortFromSorted<T>(xs: seq<Ranked<T>>, s: int)
    ensures SortedDesc(SortFrom(xs, s))
    decreases if s < 0 then 0 else s + 1
  {
    if s >= 0 {
      SortFromSorted(xs, s - 1);
      var b := Bucket(xs, s);
      var r := SortFrom(xs, s - 1);
      var all: seq<Ranked<T>> := b + r;
      forall i, j | 0 <= i < j < |all| ensures all[i].score >= all[j].score {
        if j < |b| {
          assert all[i] == b[i] && all[j] == b[j];
        } else if i < |b| {
          assert all[i] == b[i] && all[j] == r[j - |b|];
        } else {
          assert all[i] == r[i - |b|] && all[j] == r[j - |b|];
        }
      }
    }
  }

  /** The items with score in `0..s`, in their original order. */
  function Below<T>(xs: seq<Ranked<T>>, s: int): seq<Ranked<T>> {
    if xs == [] then []
    else (if 0 <= xs[0].score <= s then [xs[0]] else []) + Below(xs[1..], s)
  }

  lemma {:induction false} BelowSplit<T>(xs: seq<Ranked<T>>, s: int)
    requires s >= 0
    ensures multiset(Below(xs, s)) == multiset(Bucket(xs, s)) + multiset(Below(xs, s - 1))
  {
    if xs != [] {
      BelowSplit(xs[1..], s);
    }
  }

  lemma {:induction false} BelowNegative<T>(xs: seq<Ranked<T>>, s: int)
    requires s < 0
    ensures Below(xs, s) == []
  {
    if xs != [] {
      BelowNegative(xs[1..], s);
    }
  }

  lemma {:induction false} BelowAll<T>(xs: seq<Ranked<T>>, top: nat)
    requires InRange(xs, top)
    ensures Below(xs, top) == xs
  {
    if xs != [] {
      BelowAll(xs[1..], top);
    }
  }

  lemma {:induction false} SortFromPermutes<T>(xs: seq<Ranked<T>>, s: int)
    ensures multiset(SortFrom(xs, s)) == multiset(Below(xs, s))
    decreases if s < 0 then 0 else s + 1
  {
    if s < 0 {
      BelowNegative(xs, s);
    } else {
      SortFromPermutes(xs, s - 1);
      BelowSplit(xs, s);
    }
  }

  /** The sort is a permutation of its input when every score lies in `0..top`. */
  lemma SortDescPermutes<T>(xs: seq<Ranked<T>>, top: nat)
    requires InRange(xs, top)
    ensures multiset(SortDesc(xs, top)) == multiset(xs)
    ensures |SortDesc(xs, top)| == |xs|
  {
    SortFromPermutes(xs, top);
    BelowAll(xs, top);
    assert |multiset(SortDesc(xs, top))| == |multiset(xs)|;
  }

  lemma {:induction false} BucketAppend<T>(a: seq<Ranked<T>>, b: seq<Ranked<T>>, s: int)
    ensures Bucket(a + b, s) == Bucket(a, s) + Bucket(b, s)
  {
    if a == [] {
      assert a + b == b;
    } else {
      assert (a + b)[1..] == a[1..] + b;
      BucketAppend(a[1..], b, s);
    }
  }

  lemma {:induction false} BucketTwice<T>(xs: seq<Ranked<T>>, s: int, t: int)
    ensures Bucket(Bucket(xs, t), s) == if s == t then Bucket(xs, s) else []
  {
    if xs != [] {
      var head := if xs[0].score == t then [xs[0]] else [];
      BucketAppend(head, Bucket(xs[1..], t), s);
      BucketTwice(xs[1..], s, t);
      if xs[0].score == t {
        assert Bucket(head, s) == (if s == t then [xs[0]] else []) by {
          assert head[1..] == [];
        }
      }
    }
  }

  lemma {:induction false} BucketOfSortFrom<T>(xs: seq<Ranked<T>>, top: int, s: int)
    ensures Bucket(SortFrom(xs, top), s) == if 0 <= s <= top then Bucket(xs, s) else []
    decreases if top < 0 then 0 else top + 1
  {
    if top >= 0 {
      BucketAppend(Bucket(xs, top), SortFrom(xs, top - 1), s);
      BucketTwice(xs, s, top);
      BucketOfSortFrom(xs, top - 1, s);
    }
  }

  /** The sort is stable: the items of each score keep their original order. */
  lemma SortDescStable<T>(xs: seq<Ranked<T>>, top: nat, s: int)
    requires 0 <= s <= top
    ensures Bucket(SortDesc(xs, top), s) == Bucket(xs, s)
  {
    BucketOfSortFrom(xs, top, s);
  }

  /** An item of the sorted list comes from the input. */
  lemma SortDescFrom<T>(xs: seq<Ranked<T>>, top: nat, x: Ranked<T>)
    requires InRange(xs, top) && x in SortDesc(xs, top)
    ensures x in xs
  {
    SortDescPermutes(xs, top);
    assert x in multiset(SortDesc(xs, top));
  }
}
