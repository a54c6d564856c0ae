/** Values shared by the consensus components: bytes, 256-bit hashes and the
    usual success/failure wrappers for Go's `(value, error)` results and nil. */
module Common {

  newtype byte = x: int | 0 <= x < 256

  /** `common.Uint256`: 32 bytes. */
  type Hash = h: seq<byte> | |h| == 32 witness seq(32, _ => 0 as byte)

  /** `common.Uint256{}`, the value a failed lookup returns. */
  const ZeroHash: Hash := seq(32, _ => 0 as byte)

  /** A Go pointer or interface that may be nil. */
  datatype Option<+T> = None | Some(value: T)

  /** A Go `(value, error)` pair: exactly one of the two is meaningful. */
  datatype Result<+T, +E> = Success(value: T) | Failure(error: E)
}

/** Sequence helpers: order-preserving filtering and integer ranges. */
module Seqs {

  /** The elements of `s` that satisfy `p`, in the order they occur in `s`
      (Go's `for _, x := range s { if p(x) { out = append(out, x) } }`). */
  function Filter<T>(s: seq<T>, p: T -> bool): (r: seq<T>)
    ensures |r| <= |s|
  {
    if s == [] then []
    else
      var init := Filter(s[..|s| - 1], p);
      if p(s[|s| - 1]) then init + [s[|s| - 1]] else init
  }

  /** The indices of `s` whose elements satisfy `p`, in increasing order:
      the positions `Filter` keeps. */
  function Kept<T>(s: seq<T>, p: T -> bool): seq<nat>
  {
    if s == [] then []
    else
      var init := Kept(s[..|s| - 1], p);
      if p(s[|s| - 1]) then init + [|s| - 1] else init
  }

  predicate StrictlyIncreasing(s: seq<int>)
  {
    forall i, j :: 0 <= i < j < |s| ==> s[i] < s[j]
  }

  /** `Filter` is exactly the subsequence of `s` at the indices where `p`
      holds: it keeps every such element, no other, and keeps their order. */
  lemma {:induction false} FilterIsOrderedSelection<T>(s: seq<T>, p: T -> bool)
    ensures |Kept(s, p)| == |Filter(s, p)|
    ensures StrictlyIncreasing(Kept(s, p))
    ensures forall k :: 0 <= k < |Kept(s, p)| ==> Kept(s, p)[k] < |s| && Filter(s, p)[k] == s[Kept(s, p)[k]]
    ensures forall i :: 0 <= i < |s| ==> (i in Kept(s, p) <==> p(s[i]))
  {
    if s != [] {
      var t := s[..|s| - 1];
      FilterIsOrderedSelection(t, p);
      assert forall i :: 0 <= i < |t| ==> s[i] == t[i];
      assert forall k :: 0 <= k < |Kept(t, p)| ==> Kept(t, p)[k] < |t|;
    }
  }

  /** An element is in the filtered sequence exactly when it is in `s` and
      satisfies `p`. */
  lemma {:induction false} FilterMembership<T>(s: seq<T>, p: T -> bool, x: T)
    ensures x in Filter(s, p) <==> x in s && p(x)
  {
    if s != [] {
      var t := s[..|s| - 1];
      FilterMembership(t, p, x);
      assert s == t + [s[|s| - 1]];
    }
  }

  /** Filtering one more element appends that element exactly when it passes. */
  lemma FilterSnoc<T>(s: seq<T>, x: T, p: T -> bool)
    ensures Filter(s + [x], p) == if p(x) then Filter(s, p) + [x] else Filter(s, p)
  {
    assert (s + [x])[..|s + [x]| - 1] == s;
  }

  /** The integers `lo, lo+1, ..., hi-1`. */
  function Range(lo: int, hi: int): (r: seq<int>)
    decreases hi - lo
    ensures |r| == if lo < hi then hi - lo else 0
  {
    if lo >= hi then [] else [lo] + Range(lo + 1, hi)
  }

  /** The `k`-th element of `Range(lo, hi)` is `lo + k`. */
  lemma {:induction false} RangeAt(lo: int, hi: int)
    ensures forall k :: 0 <= k < |Range(lo, hi)| ==> Range(lo, hi)[k] == lo + k
    decreases hi - lo
  {
    if lo < hi {
      RangeAt(lo + 1, hi);
      assert forall k :: 1 <= k < |Range(lo, hi)| ==> Range(lo, hi)[k] == Range(lo + 1, hi)[k - 1];
    }
  }

  /** A range one longer ends in the old upper bound. */
  lemma {:induction false} RangeSnoc(lo: int, hi: int)
    requires lo <= hi
    ensures Range(lo, hi) + [hi] == Range(lo, hi + 1)
    decreases hi - lo
  {
    if lo < hi {
      RangeSnoc(lo + 1, hi);
      assert [lo] + Range(lo + 1, hi) + [hi] == [lo] + (Range(lo + 1, hi) + [hi]);
    }
  }
}
