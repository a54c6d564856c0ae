/** A NeoVM interop stack item: a wrapper around a host object that can be
    rendered as bytes. The host object is absent (nil) or present, and when
    present all that equality can observe of it is its `ToArray()` bytes. */
module Interop {
  import opened Common

  /** `InteropValue{Data}`; `None` is a nil `Data`, `Some(b)` an object whose
      `ToArray()` yields `b`. */
  datatype InteropValue = InteropValue(data: Option<seq<byte>>)

  /** `NewInteropValue(value)`: wraps the host object as it is, nil included. */
  function NewInteropValue(value: Option<seq<byte>>): (r: InteropValue)
    ensures r.data == value
    ensures value.None? ==> forall other: InteropValue :: !Equals(r, other)
  {
    InteropValue(value)
  }

  /** `this.Equals(other)`: never true when either side is nil — not even for
      two nils — and otherwise byte-wise equality of the two renderings. */
  function Equals(v: InteropValue, other: InteropValue): (r: bool)
    ensures v.data.None? ==> !r
    ensures other.data.None? ==> !r
    ensures v.data.Some? && other.data.Some? ==> (r <==> v.data.value == other.data.value)
  {
    if v.data.None? || other.data.None? then false
    else v.data.value == other.data.value
  }

  /** A value equals itself exactly when it is not nil: `Equals` is reflexive
      on non-nil values and nowhere else. */
  lemma EqualsReflexiveExactlyOnNonNil(v: InteropValue)
    ensures Equals(v, v) <==> v.data.Some?
  {
  }

  /** Two nil interops are different values of `Equals`. */
  lemma NilNotEqualToNil()
    ensures !Equals(NewInteropValue(None), NewInteropValue(None))
  {
  }

  /** `Equals` is symmetric. */
  lemma EqualsSymmetric(a: InteropValue, b: InteropValue)
    ensures Equals(a, b) == Equals(b, a)
  {
  }

  /** `Equals` is transitive, and on its domain (the non-nil values) it is an
      equivalence: equal values wrap the same bytes. */
  lemma EqualsTransitive(a: InteropValue, b: InteropValue, c: InteropValue)
    ensures Equals(a, b) && Equals(b, c) ==> Equals(a, c)
    ensures Equals(a, b) ==> a == b
  {
  }

  /** Wrapping two host objects gives equal interops exactly when both are
      present and render to the same bytes. */
  lemma NewInteropValueEquals(x: Option<seq<byte>>, y: Option<seq<byte>>)
    ensures Equals(NewInteropValue(x), NewInteropValue(y)) <==> x.Some? && x == y
  {
  }
}
