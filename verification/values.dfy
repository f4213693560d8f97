/** The values a check receives as `interface{}`, restricted to the shapes the
    length check is specified on, and the seam to the deep-comparison library. */
module Values {

  /** A dynamically typed Go value. `StrPtr` is a `*string`: one level of
      indirection to a string. */
  datatype Value =
    | Str(s: string)
    | Int(i: int)
    | Slice(items: seq<Value>)
    | StrPtr(target: string)
    | Struct(fields: seq<Value>)

  /** The reflective kind of a value, as Go's `reflect.Kind` would name it. */
  datatype Kind = StringKind | IntKind | SliceKind | PtrKind | StructKind

  function KindOf(v: Value): Kind
  {
    match v
    case Str(_) => StringKind
    case Int(_) => IntKind
    case Slice(_) => SliceKind
    case StrPtr(_) => PtrKind
    case Struct(_) => StructKind
  }

  /** The external deep-comparison library: it returns a textual diff of
      `(expected, got)`, the empty string meaning "no difference". Its
      algorithm is not modelled, so every check takes it as a parameter. */
  type Comparer = (Value, Value) -> string
}
