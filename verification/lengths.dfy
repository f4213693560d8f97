/** The length extraction behind `BeSameLength`. */
module Lengths {
  import opened Options
  import opened Values

  /** Why a length could not be taken: the value's shape has none. */
  datatype LengthError = CannotGetLength(kind: Kind)

  /** A value is length-bearing when it is a string, a slice, or a pointer to a
      string. */
  predicate HasLength(v: Value)
  {
    v.Str? || v.Slice? || v.StrPtr?
  }

  /** The length Go's `len` gives a length-bearing value, dereferencing a
      `*string` once. */
  function LengthOf(v: Value): nat
    requires HasLength(v)
  {
    match v
    case Str(s) => |s|
    case Slice(items) => |items|
    case StrPtr(target) => |target|
  }

  /** Extracts the length of `v`, or reports the kind that has none. */
  function Len(v: Value): (r: Result<nat, LengthError>)
    ensures r.Success? <==> HasLength(v)
    ensures r.Success? ==> r.value == LengthOf(v)
    ensures r.Failure? ==> r.error == CannotGetLength(KindOf(v))
  {
    if HasLength(v) then Success(LengthOf(v)) else Failure(CannotGetLength(KindOf(v)))
  }

  /** A pointer to a string has the string's own length. */
  lemma LenThroughPointer(s: string)
    ensures Len(StrPtr(s)) == Len(Str(s)) == Success(|s|)
  {
  }
}
