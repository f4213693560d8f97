/** The package-level checks: each builds a tester with both overrides absent
    and delegates to it. The message is one string, and the sink `t` is
    represented by the calls in the returned verdict. */
module Checks {
  import opened Values
  import opened GoErrors
  import opened Lengths
  import opened Sink
  import Testers

  /** True when the library finds no difference between the two values;
      otherwise one report that includes the library's diff. */
  function BeEqual(pretty: Comparer, expected: Value, got: Value, message: string): (v: Verdict)
    ensures Reported(v)
    ensures v.ok <==> pretty(expected, got) == ""
    ensures !v.ok ==> v.calls[0].args == [Text(message), Text(pretty(expected, got))]
  {
    Testers.BeEqual(Testers.Default, pretty, expected, got, message)
  }

  /** True when both errors are nil, or both are non-nil with matching
      messages; otherwise one report including both messages. */
  function BeEqualErrors(expected: Err, got: Err, message: string): (v: Verdict)
    ensures Reported(v)
    ensures v.ok <==>
      || (expected.None? && got.None?)
      || (expected.Some? && got.Some? && expected.value.Error() == got.value.Error())
    ensures !v.ok ==>
      v.calls[0].args == [Text(message), Text(Testers.GetErrMessage(expected)), Text(Testers.GetErrMessage(got))]
  {
    Testers.BeEqualErrors(expected, got, message)
  }

  /** True exactly when `got` is nil. */
  function BeNoError(got: Err, message: string): (v: Verdict)
    ensures Reported(v)
    ensures v.ok <==> got.None?
  {
    Testers.BeNoError(got, message)
  }

  /** True exactly when both lengths can be taken and match. */
  function BeSameLength(expected: Value, got: Value, message: string): (v: Verdict)
    ensures Reported(v)
    ensures v.ok <==> Len(expected).Success? && Len(got).Success? && Len(expected).value == Len(got).value
  {
    Testers.BeSameLength(expected, got, message)
  }

  /** True exactly when `got` is not nil; a nil error is reported once, with
      the message first, in the format the caller names. */
  function BeError(got: Err, message: string, format: string): (v: Verdict)
    ensures Reported(v)
    ensures v.ok <==> got.Some?
    ensures !v.ok ==> |v.calls[0].args| > 0 && v.calls[0].args[0] == Text(message)
  {
    Testers.BeError(got, message, format)
  }

  /** True exactly when `got` is nil if and only if `errorExpected` is false;
      a mismatch is reported once, with the message first. */
  function BeErrorIf(errorExpected: bool, got: Err, message: string, errorFormat: string): (v: Verdict)
    ensures Reported(v)
    ensures v.ok <==> (got.None? <==> !errorExpected)
    ensures !v.ok ==> |v.calls[0].args| > 0 && v.calls[0].args[0] == Text(message)
  {
    Testers.BeErrorIf(errorExpected, got, message, errorFormat)
  }

  /** Every package-level check behaves as the default-configured tester's. */
  lemma PackageLevelIsDefaultTester(pretty: Comparer, e: Value, g: Value, ee: Err, ge: Err, flag: bool, message: string, format: string)
    ensures BeEqual(pretty, e, g, message) == Testers.BeEqual(Testers.Default, pretty, e, g, message)
    ensures BeEqualErrors(ee, ge, message) == Testers.BeEqualErrors(ee, ge, message)
    ensures BeNoError(ge, message) == Testers.BeNoError(ge, message)
    ensures BeSameLength(e, g, message) == Testers.BeSameLength(e, g, message)
    ensures BeError(ge, message, format) == Testers.BeError(ge, message, format)
    ensures BeErrorIf(flag, ge, message, format) == Testers.BeErrorIf(flag, ge, message, format)
  {
  }

  /** `BeError`'s verdict is the negation of `BeNoError`'s. */
  lemma BeErrorNegatesBeNoError(got: Err, message: string, format: string)
    ensures BeError(got, message, format).ok == !BeNoError(got, message).ok
  {
  }

  /** `BeErrorIf` behaves as `BeError` when an error is expected and as
      `BeNoError` when none is, report included. */
  lemma BeErrorIfAgrees(errorExpected: bool, got: Err, message: string, format: string)
    ensures errorExpected ==> BeErrorIf(errorExpected, got, message, format) == BeError(got, message, format)
    ensures !errorExpected ==> BeErrorIf(errorExpected, got, message, format) == BeNoError(got, message)
  {
  }
}
