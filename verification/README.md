# must — assertion engine, modelled in Dafny

`must` is a Go helper library for test suites. Each check compares two values
(or inspects one error) and returns `true` on success. On failure it reports to
the test's `TestingT` sink through a single `Errorf(format, args...)` call and
returns `false`; it never stops the test. A `Tester` may carry two optional
overrides, `InterfaceComparison` and `InterfaceDiff`, which replace the default
deep comparison and diff. The package-level functions build a `Tester{T: t}`
with both overrides absent and delegate to it.

The model is purely functional:

- `Options` — `Option` (Go's `nil`) and `Result`.
- `Values` — the `interface{}` values (`Str`, `Int`, `Slice`, `StrPtr` for a
  `*string`, `Struct`), their reflective `Kind`, and `Comparer`, the type of the
  deep-comparison library `pretty.Compare`. That library is external. Every
  check that needs it takes it as a parameter `pretty`. Its algorithm is not
  modelled; it is taken to be a deterministic function of its two arguments.
- `GoErrors` — a non-nil `error` as `GoError(kind, text)`, with `kind` its
  dynamic Go type; `Err = Option<GoError>`; the equivalence rule `Equivalent`.
- `Lengths` — length extraction for `BeSameLength`.
- `Sink` — an `Errorf` call kept unrendered as a format plus argument list, and
  `Verdict(ok, calls)`, the result of every check. `Reported(v)` is the
  reporting contract: no call on success, exactly one on failure.
- `Testers` — `tester.go`: the `Tester` record, `equal`, `diff`, `BeEqual`,
  `BeEqualErrors`, `BeNoError`, `getErrMessage`, and the tester-level
  `BeSameLength`, `BeError` and `BeErrorIf` that `checks.go` delegates to.
- `Checks` — `checks.go`: the package-level delegators with the contracts their
  doc comments promise.
- `Sessions` — no function of the library runs checks in batches. This module
  derives a consequence of the reporting contract `Sink.Reported` for one
  tester whose `T` is shared by many checks in a test: the sink receives each
  failing check's call, in order, and nothing else.
- `Scenarios` — the repository's test tables as facts about the model.

Where the code and its documentation disagree, the model follows the code:

- `BeEqual` reports with the format `"%s: diff: (-got +want)\n%s"`
  (tester.go:23). The test table (tester_test.go:22) expects
  `"%s: diff\n%s"`. `Scenarios.BeEqualFormatDiffersFromTestTable`
  records the mismatch.
- `checks.go` passes a variadic `a ...interface{}` where `tester.go` takes one
  `message string`. The model uses one message string throughout.
- checks.go delegates `BeSameLength`, `BeError` and `BeErrorIf` to tester
  methods, but tester.go defines no such methods. They are modelled from the
  doc comments in checks.go and, for `BeSameLength`, from the cases in
  tester_test.go:223-276. tester.go defines no `BeError` method, so the format
  it reports with is not known; it is a parameter of `BeError` and
  `BeErrorIf`.

## Model

| member | source | states |
|---|---|---|
| `Testers.Equal` | tester.go:58-63 | a set comparison override is the answer; without one, "equal" means the library's diff is empty |
| `Testers.Diff` | tester.go:65-70 | a set diff override gives the diff; without one, the library's diff is used |
| `Testers.EqualIgnoresLibraryWhenOverridden` | tester.go:59-61 | with a comparison override, the verdict does not depend on the library at all |
| `Testers.DiffIgnoresLibraryWhenOverridden` | tester.go:66-68 | with a diff override, the reported diff does not depend on the library at all |
| `Testers.BeEqual` | tester.go:21-27 | passes iff the two values are equal, with no sink call; otherwise exactly one call with the code's format and arguments `[message, diff]` |
| `Testers.DefaultBeEqualFailsIffDiff` | tester.go:22-26 | with no overrides, `BeEqual` fails iff the library's diff is non-empty, and that non-empty diff is the second reported argument |
| `Testers.CustomComparisonDecides` | tester.go:59-61 | with a comparison override, the verdict is the override applied to the unmodified inputs, the same for every library |
| `Testers.CustomDiffReported` | tester.go:23 | with a diff override, a failing `BeEqual` reports `[message, override output]` |
| `Testers.OverriddenComparisonCanReportEmptyDiff` | tester.go:58-70 | the non-empty-diff guarantee holds only by default: an overriding comparison can fail while an empty diff is reported |
| `Testers.GetErrMessage` | tester.go:72-77 | an absent error renders as `<nil>`, a present one as its `Error()` text |
| `Testers.GetErrMessageNotInjective` | tester.go:72-77 | an error whose message is `<nil>` renders like a nil error, yet the two are not equivalent |
| `Testers.BeEqualErrors` | tester.go:34-43 | passes iff both errors are nil or both have the same `Error()` text, with no sink call; otherwise one call with format `%v\nExpected '%v', got '%v'` and args `[message, rendered expected, rendered got]` |
| `Testers.BeEqualErrorsSymmetric` | tester.go:35-38 | swapping expected and got gives the same verdict |
| `Testers.BeEqualErrorsIgnoresKind` | checks.go:18-21 | two errors of different dynamic types with the same message are equal |
| `Testers.BeEqualErrorsReportDistinguishes` | tester.go:39 | a failure report shows two equal strings only when one side is nil and the other's message is literally `<nil>` |
| `Testers.BeNoError` | tester.go:50-56 | passes iff the error is nil, with no sink call; otherwise one call `%s: error: %s` with `[message, Error() text]` |
| `Testers.BeError` | checks.go:59-62 | passes iff the error is not nil, with no sink call; otherwise exactly one call, in the given format, with the message first |
| `Testers.BeErrorIf` | checks.go:72-76 | passes iff the error's presence equals the flag; a missing expected error is reported in the given format, an unexpected one exactly as `BeNoError` reports it |
| `Testers.BeSameLength` | tester_test.go:223-276 | passes iff both lengths exist and match; an extraction failure (expected side first) is reported as `could not test lengths`; a mismatch reports `[message, expected length, got length]` |
| `Testers.BeSameLengthShortCircuits` | tester_test.go:270-276 | when either side has no length, the report is the extraction-failure one, never the length-mismatch one |
| `Lengths.Len` | tester_test.go:231-276 | strings, slices and `*string` have a length; any other kind yields an error naming that kind |
| `Lengths.LenThroughPointer` | tester_test.go:257-269 | a `*string` has the length of its string |
| `GoErrors.EquivalentIsSameMessage` | checks.go:18-21 | error equivalence is exactly equality of the optional messages, the error's type playing no part |
| `Checks.BeEqual` | checks.go:3-15 | true iff the library finds no difference; a failure reports the message and the library's diff |
| `Checks.BeEqualErrors` | checks.go:17-31 | true iff both nil or both non-nil with matching messages; a failure reports both rendered messages |
| `Checks.BeNoError` | checks.go:33-44 | true iff the error is nil, with exactly one report otherwise |
| `Checks.BeSameLength` | checks.go:46-57 | true iff both lengths can be taken and match |
| `Checks.BeError` | checks.go:59-70 | true iff the error is not nil; otherwise exactly one report, with the message first |
| `Checks.BeErrorIf` | checks.go:72-84 | true iff the error is nil exactly when no error is expected; otherwise exactly one report, with the message first |
| `Checks.PackageLevelIsDefaultTester` | checks.go:11-84 | each package-level check gives the verdict and sink calls of the tester with both overrides absent |
| `Checks.BeErrorNegatesBeNoError` | checks.go:33-62 | `BeError` passes exactly when `BeNoError` fails |
| `Checks.BeErrorIfAgrees` | checks.go:72-84 | `BeErrorIf` gives the verdict and report of `BeError` when an error is expected and of `BeNoError` otherwise |
| `Sessions.Run` | tester.go:11 | derived: each of `BeEqual`, `BeEqualErrors`, `BeNoError` and `BeSameLength` run through a tester reports at most once, with a known format and its own message first |
| `Sessions.Passes` | tester.go:11 | the count of passing checks, used by `Log`; its own contract is only the bound that no more checks pass than were run |
| `Sessions.Log` | tester.go:11 | derived from the reporting contract over the shared `T`: the sink receives exactly one call per failing check, each with a known format |
| `Sessions.PassesAppend` | tester.go:11 | passes of two consecutive batches add up |
| `Sessions.LogAppend` | tester.go:11 | the sink receives the first batch's calls, then the second's |
| `Sessions.SilentIffAllPass` | tester.go:11 | the sink is untouched iff every check passes |
| `Sessions.RunSession` | tester.go:11 | running checks one by one counts the passes and collects exactly the calls of the failing ones |
| `Scenarios.BeEqualErrorsTable` | tester_test.go:143-164 | different messages fail with both reported; equal messages pass |
| `Scenarios.BeEqualErrorsBothNil` | tester.go:35-37 | two nil errors pass with no sink call |
| `Scenarios.BeNoErrorTable` | tester_test.go:185-202 | nil passes; an error fails with the `error:` report |
| `Scenarios.BeSameLengthTable` | tester_test.go:223-276 | the seven length cases give the verdicts and reports the table expects |
| `Scenarios.BeEqualCustomCompareTable` | tester_test.go:76-105 | a comparison forced true always passes, one forced false always fails |
| `Scenarios.BeEqualCustomDiffTable` | tester_test.go:107-141 | a failing `BeEqual` reports the diff override's text |
| `Scenarios.BeEqualFormatDiffersFromTestTable` | tester_test.go:17-24 | the code's inequality format is not the one the test table expects |

## Left out

- `pretty.Compare` (tester.go:3, tester.go:62, tester.go:69): an external deep-comparison library; it is the opaque parameter `pretty`, whose algorithm is not modelled. It is assumed to be a deterministic function of its two arguments: `equal` and `diff` call it separately (tester.go:62, tester.go:69), and `Testers.DefaultBeEqualFailsIffDiff` (a failing default `BeEqual` reports a non-empty diff) depends on the two calls agreeing, which holds as long as the values do not change between them.
- `interface{}` shapes other than `Str`, `Int`, `Slice`, `StrPtr` and `Struct` (nil, maps, arrays, floats, other pointers) cannot be represented. No `BeEqual`, `Equal` or `Diff` result depends on this: they reach values only through the opaque `pretty` and the overrides, and every such lemma holds for all values. Only `BeSameLength` inspects shapes, and it is restricted to these ones below.
- Rendering of `%s`, `%v` and `%d`: sink calls are kept as a format string plus argument list.
- The `TestingT` sink itself (must.go:4-6): its effect is the list of calls each check returns.
- `t.Helper()` calls in checks.go: test-framework plumbing with no effect on verdicts.
- Variadic message arguments in checks.go: replaced by one message string, as tester.go takes.
- `Testers.BeError`: tester.go defines no such method; the format of its failure report is a parameter, and its arguments after the message are not known (the model passes the message alone).
- `Testers.BeErrorIf`: tester.go defines no such method; reporting an unexpected error as `BeNoError` does and a missing one as `BeError` does is a modelling choice, since checks.go:72-76 documents only the verdict.
- `Checks.BeError`: promises only the message as first argument of its report, since tester.go defines no method that fixes the format or the remaining arguments.
- `Checks.BeErrorIf`: promises only the message as first argument of its report, for the same reason.
- Go runtime behaviour outside the checks' own logic: an `Error()` method that panics (a nil pointer stored in an `error`), an override closure that panics, and an override closure that itself calls a `TestingT` (tester_test.go:81-88 calls one), which is the tester's own `T` when both are the test's `t`. Overrides are total pure functions and `Error()` is a fixed text, so "exactly one call" counts only the check's own `Errorf`.
- `Testers.BeSameLength`: tester.go defines no such method; it covers the test-pinned shapes only (strings, slices, `*string`, structs, plus ints, which have no length either). Maps, arrays and pointers other than `*string` are not modelled. When both sides lack a length, reporting the expected side's error is a modelling choice. The text of the extraction error is not modelled; only the kind it names is.
- Go string lengths count bytes; the model's strings count characters, which agree for the ASCII strings in the test tables.
- `Sessions.Run`: covers `BeEqual`, `BeEqualErrors`, `BeNoError` and `BeSameLength` only; `BeError` and `BeErrorIf`, whose report format is a parameter, are not among the session's checks.
- The test file's `MockTesting` sink, which keeps only the last call: the model records every call.
