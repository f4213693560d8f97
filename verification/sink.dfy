/** The reporting sink `TestingT`: a check's effect on it is recorded as the
    list of `Errorf(format, args...)` calls it makes. */
module Sink {
  import Lengths

  /** One argument passed to `Errorf`. */
  datatype Arg =
    | Text(s: string)
    | Number(n: int)
    | LengthFailure(err: Lengths.LengthError)

  /** One call `t.Errorf(format, args...)`, kept unrendered. */
  datatype Call = Errorf(format: string, args: seq<Arg>)

  /** The outcome of one check: the boolean it returns and the sink calls it made. */
  datatype Verdict = Verdict(ok: bool, calls: seq<Call>)

  /** The reporting contract: a passing check leaves the sink alone, a failing
      check calls it exactly once. */
  predicate Reported(v: Verdict)
  {
    && (v.ok ==> v.calls == [])
    && (!v.ok ==> |v.calls| == 1)
  }

  const Pass: Verdict := Verdict(true, [])

  /** A failing verdict that reported `call`. */
  function Fail(call: Call): (v: Verdict)
    ensures Reported(v) && !v.ok
    ensures v.calls[0] == call
  {
    Verdict(false, [call])
  }
}
