/** The assertion engine: a `Tester` carrying optional comparison and diff
    overrides, and the checks it offers. Each check returns its verdict together
    with the calls it made on the sink. */
module Testers {
  import opened Options
  import opened Values
  import opened GoErrors
  import opened Lengths
  import opened Sink

  /** Format strings handed to `Errorf`, exactly as the code writes them. */
  const EqualFormat: string := "%s: diff: (-got +want)\n%s"
  const EqualErrorsFormat: string := "%v\nExpected '%v', got '%v'"
  const NoErrorFormat: string := "%s: error: %s"
  const LengthErrorFormat: string := "%s: could not test lengths - %v"
  const LengthMismatchFormat: string := "%s: expected length %d, got length %d"

  /** What an absent error is reported as. */
  const NilText: string := "<nil>"

  /** Every format a check may pass to the sink. */
  const Formats: set<string> :=
    {EqualFormat, EqualErrorsFormat, NoErrorFormat, LengthErrorFormat, LengthMismatchFormat}

  /** A tester. The sink `T` is not a field: its calls are part of each
      check's result. `None` means the override is absent. */
  datatype Tester = Tester(
    interfaceComparison: Option<(Value, Value) -> bool>,
    interfaceDiff: Option<(Value, Value) -> string>)

  /** `Tester{T: t}`: both overrides absent. */
  const Default: Tester := Tester(None, None)

  /** Whether `expected` and `got` are equal: the comparison override when one
      is set, otherwise "the library finds no difference". */
  function Equal(t: Tester, pretty: Comparer, expected: Value, got: Value): (r: bool)
    ensures t.interfaceComparison.Some? ==> r == t.interfaceComparison.value(expected, got)
    ensures t.interfaceComparison.None? ==> (r <==> pretty(expected, got) == "")
  {
    match t.interfaceComparison
    case Some(compare) => compare(expected, got)
    case None => pretty(expected, got) == ""
  }

  /** The diff reported for `expected` and `got`: the diff override when one is
      set, otherwise the library's diff. */
  function Diff(t: Tester, pretty: Comparer, expected: Value, got: Value): (r: string)
    ensures t.interfaceDiff.Some? ==> r == t.interfaceDiff.value(expected, got)
    ensures t.interfaceDiff.None? ==> r == pretty(expected, got)
  {
    match t.interfaceDiff
    case Some(diff) => diff(expected, got)
    case None => pretty(expected, got)
  }

  /** An overriding comparison decides alone: the library is not consulted. */
  lemma EqualIgnoresLibraryWhenOverridden(t: Tester, p1: Comparer, p2: Comparer, expected: Value, got: Value)
    requires t.interfaceComparison.Some?
    ensures Equal(t, p1, expected, got) == Equal(t, p2, expected, got)
  {
  }

  /** An overriding diff decides alone: the library is not consulted. */
  lemma DiffIgnoresLibraryWhenOverridden(t: Tester, p1: Comparer, p2: Comparer, expected: Value, got: Value)
    requires t.interfaceDiff.Some?
    ensures Diff(t, p1, expected, got) == Diff(t, p2, expected, got)
  {
  }

  /** `BeEqual`: on inequality, one report carrying the message and the diff. */
  function BeEqual(t: Tester, pretty: Comparer, expected: Value, got: Value, message: string): (v: Verdict)
    ensures Reported(v)
    ensures v.ok <==> Equal(t, pretty, expected, got)
    ensures !v.ok ==> v.calls[0] == Errorf(EqualFormat, [Text(message), Text(Diff(t, pretty, expected, got))])
  {
    if !Equal(t, pretty, expected, got) then
      Fail(Errorf(EqualFormat, [Text(message), Text(Diff(t, pretty, expected, got))]))
    else
      Pass
  }

  /** With no overrides, `BeEqual` fails exactly when the library reports a
      difference, and that non-empty difference is what the sink receives. */
  lemma DefaultBeEqualFailsIffDiff(pretty: Comparer, expected: Value, got: Value, message: string)
    ensures var v := BeEqual(Default, pretty, expected, got, message);
      && (!v.ok <==> pretty(expected, got) != "")
      && (v.ok ==> v.calls == [])
      && (!v.ok ==> v.calls == [Errorf(EqualFormat, [Text(message), Text(pretty(expected, got))])])
  {
  }

  /** With a comparison override, the verdict is the override's answer on the
      unmodified inputs, whatever the library would have said. */
  lemma CustomComparisonDecides(t: Tester, pretty: Comparer, expected: Value, got: Value, message: string)
    requires t.interfaceComparison.Some?
    ensures BeEqual(t, pretty, expected, got, message).ok == t.interfaceComparison.value(expected, got)
    ensures forall other: Comparer {:trigger BeEqual(t, other, expected, got, message)} ::
      BeEqual(t, other, expected, got, message).ok == BeEqual(t, pretty, expected, got, message).ok
  {
  }

  /** With a diff override, a failing `BeEqual` reports the message first and
      exactly the override's output second. */
  lemma CustomDiffReported(t: Tester, pretty: Comparer, expected: Value, got: Value, message: string)
    requires t.interfaceDiff.Some?
    requires !BeEqual(t, pretty, expected, got, message).ok
    ensures BeEqual(t, pretty, expected, got, message).calls[0].args
      == [Text(message), Text(t.interfaceDiff.value(expected, got))]
  {
  }

  /** The non-empty-diff guarantee belongs to the default configuration only: a
      comparison override that says "unequal" while the library sees no
      difference makes `BeEqual` report an empty diff. */
  lemma OverriddenComparisonCanReportEmptyDiff(expected: Value, got: Value, message: string)
    ensures var t := Tester(Some((a: Value, b: Value) => false), None);
      var v := BeEqual(t, (a: Value, b: Value) => "", expected, got, message);
      !v.ok && v.calls[0].args[1] == Text("")
  {
  }

  /** How an error is shown in a report: its `Error()` text, or `<nil>`. */
  function GetErrMessage(err: Err): (m: string)
    ensures err.None? ==> m == NilText
    ensures err.Some? ==> m == err.value.Error()
  {
    if err.Some? then err.value.Error() else NilText
  }

  /** `<nil>` is also a possible error text, so the rendering alone cannot tell
      a nil error from one whose message is `<nil>`. */
  lemma GetErrMessageNotInjective(kind: string)
    ensures GetErrMessage(Some(GoError(kind, NilText))) == GetErrMessage(None)
    ensures !Equivalent(Some(GoError(kind, NilText)), None)
  {
  }

  /** `BeEqualErrors`: passes on equivalent errors; otherwise one report with
      both messages, `<nil>` standing for an absent side. */
  function BeEqualErrors(expected: Err, got: Err, message: string): (v: Verdict)
    ensures Reported(v)
    ensures v.ok <==> Equivalent(expected, got)
    ensures !v.ok ==> v.calls[0] == Errorf(EqualErrorsFormat,
      [Text(message), Text(GetErrMessage(expected)), Text(GetErrMessage(got))])
  {
    if expected.None? && got.None? then
      Pass
    else if (expected.None? || got.None?) || expected.value.Error() != got.value.Error() then
      Fail(Errorf(EqualErrorsFormat, [Text(message), Text(GetErrMessage(expected)), Text(GetErrMessage(got))]))
    else
      Pass
  }

  /** Swapping `expected` and `got` does not change the verdict. */
  lemma BeEqualErrorsSymmetric(e1: Err, e2: Err, message: string)
    ensures BeEqualErrors(e1, e2, message).ok == BeEqualErrors(e2, e1, message).ok
  {
  }

  /** The dynamic type of an error plays no part: errors of different types
      with the same message are equal. */
  lemma BeEqualErrorsIgnoresKind(k1: string, k2: string, text: string, message: string)
    ensures BeEqualErrors(Some(GoError(k1, text)), Some(GoError(k2, text)), message) == Pass
  {
  }

  /** A failing `BeEqualErrors` shows two different strings, unless one side is
      nil and the other's message is literally `<nil>`. */
  lemma BeEqualErrorsReportDistinguishes(expected: Err, got: Err, message: string)
    requires !BeEqualErrors(expected, got, message).ok
    ensures var args := BeEqualErrors(expected, got, message).calls[0].args;
      args[1] == args[2] <==>
        (expected.None? && got.Some? && got.value.Error() == NilText)
        || (got.None? && expected.Some? && expected.value.Error() == NilText)
  {
  }

  /** `BeNoError`: passes exactly when there is no error; otherwise one report
      with the message and the error's text. */
  function BeNoError(got: Err, message: string): (v: Verdict)
    ensures Reported(v)
    ensures v.ok <==> got.None?
    ensures got.Some? ==> v.calls == [Errorf(NoErrorFormat, [Text(message), Text(got.value.Error())])]
  {
    if got.None? then
      Pass
    else
      Fail(Errorf(NoErrorFormat, [Text(message), Text(got.value.Error())]))
  }

  /** `BeError`: passes exactly when there is an error; a nil error is
      reported once, with the message first. No method in tester.go fixes the
      format of that report, so the caller names it. */
  function BeError(got: Err, message: string, format: string): (v: Verdict)
    ensures Reported(v)
    ensures v.ok <==> got.Some?
    ensures !v.ok ==> v.calls[0].format == format
    ensures !v.ok ==> |v.calls[0].args| > 0 && v.calls[0].args[0] == Text(message)
  {
    if got.Some? then Pass else Fail(Errorf(format, [Text(message)]))
  }

  /** `BeErrorIf`: passes exactly when the presence of an error matches the
      flag. A missing expected error is reported as `BeError` reports it, an
      unexpected error as `BeNoError` reports it. */
  function BeErrorIf(errorExpected: bool, got: Err, message: string, errorFormat: string): (v: Verdict)
    ensures Reported(v)
    ensures v.ok <==> (got.Some? == errorExpected)
    ensures !v.ok ==> |v.calls[0].args| > 0 && v.calls[0].args[0] == Text(message)
    ensures !v.ok && got.Some? ==>
      v.calls == [Errorf(NoErrorFormat, [Text(message), Text(got.value.Error())])]
    ensures !v.ok && got.None? ==> v.calls[0].format == errorFormat
  {
    if errorExpected then BeError(got, message, errorFormat) else BeNoError(got, message)
  }

  /** Both lengths can be taken and they agree. */
  predicate SameLength(expected: Value, got: Value)
  {
    HasLength(expected) && HasLength(got) && LengthOf(expected) == LengthOf(got)
  }

  /** `BeSameLength`: an extraction failure on either side is reported as such
      and no lengths are compared; otherwise a mismatch reports both lengths. */
  function BeSameLength(expected: Value, got: Value, message: string): (v: Verdict)
    ensures Reported(v)
    ensures v.ok <==> SameLength(expected, got)
    ensures !HasLength(expected) ==>
      v.calls == [Errorf(LengthErrorFormat, [Text(message), LengthFailure(CannotGetLength(KindOf(expected)))])]
    ensures HasLength(expected) && !HasLength(got) ==>
      v.calls == [Errorf(LengthErrorFormat, [Text(message), LengthFailure(CannotGetLength(KindOf(got)))])]
    ensures HasLength(expected) && HasLength(got) && !v.ok ==>
      v.calls == [Errorf(LengthMismatchFormat, [Text(message), Number(LengthOf(expected)), Number(LengthOf(got))])]
  {
    match (Len(expected), Len(got))
    case (Failure(e), _) => Fail(Errorf(LengthErrorFormat, [Text(message), LengthFailure(e)]))
    case (_, Failure(e)) => Fail(Errorf(LengthErrorFormat, [Text(message), LengthFailure(e)]))
    case (Success(n), Success(m)) =>
      if n == m then Pass
      else Fail(Errorf(LengthMismatchFormat, [Text(message), Number(n), Number(m)]))
  }

  /** A length mismatch is never reported when either extraction failed. */
  lemma BeSameLengthShortCircuits(expected: Value, got: Value, message: string)
    requires !HasLength(expected) || !HasLength(got)
    ensures var v := BeSameLength(expected, got, message);
      !v.ok && v.calls[0].format == LengthErrorFormat && v.calls[0].format != LengthMismatchFormat
  {
  }
}
