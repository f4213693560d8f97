/** The test tables of the repository, restated as facts about the model. */
module Scenarios {
  import opened Options
  import opened Values
  import opened GoErrors
  import opened Lengths
  import opened Sink
  import opened Testers

  /** An error built by `errors.New`. */
  function New(text: string): Err
  {
    Some(GoError("*errors.errorString", text))
  }

  /** Different error messages fail with both messages reported; equal messages
      pass silently. */
  lemma BeEqualErrorsTable()
    ensures BeEqualErrors(New("Message one"), New("Message two"), "")
      == Fail(Errorf("%v\nExpected '%v', got '%v'", [Text(""), Text("Message one"), Text("Message two")]))
    ensures BeEqualErrors(New("Message"), New("Message"), "") == Pass
  {
  }

  /** Two nil errors are equal and leave the sink untouched. */
  lemma BeEqualErrorsBothNil(message: string)
    ensures BeEqualErrors(None, None, message) == Pass
  {
  }

  /** A nil error passes; an error fails with the `error:` report. */
  lemma BeNoErrorTable()
    ensures BeNoError(None, "") == Pass
    ensures BeNoError(New("Message"), "") == Fail(Errorf("%s: error: %s", [Text(""), Text("Message")]))
  {
  }

  /** Strings, slices and a pointer to a string compare by length; a struct
      makes the check report that lengths could not be taken. */
  lemma BeSameLengthTable()
    ensures BeSameLength(Str("abcdefg"), Str("hijklmn"), "") == Pass
    ensures BeSameLength(Str("abc"), Str("defg"), "")
      == Fail(Errorf("%s: expected length %d, got length %d", [Text(""), Number(3), Number(4)]))
    ensures BeSameLength(Slice([Int(1), Int(2), Int(3)]), Slice([Int(4), Int(5), Int(6)]), "") == Pass
    ensures BeSameLength(Slice([Int(1), Int(2), Int(3), Int(7)]), Slice([Int(8)]), "")
      == Fail(Errorf("%s: expected length %d, got length %d", [Text(""), Number(4), Number(1)]))
    ensures BeSameLength(StrPtr("abcdefg"), Str("hijklmn"), "") == Pass
    ensures BeSameLength(Str("abc"), StrPtr("defg"), "")
      == Fail(Errorf("%s: expected length %d, got length %d", [Text(""), Number(3), Number(4)]))
    ensures BeSameLength(Str("abc"), Struct([Str("test")]), "")
      == Fail(Errorf("%s: could not test lengths - %v", [Text(""), LengthFailure(CannotGetLength(StructKind))]))
  {
  }

  /** A comparison override forced to true passes every pair and one forced to
      false fails every pair, whatever the library would say. */
  lemma BeEqualCustomCompareTable(pretty: Comparer, expected: Value, got: Value, message: string)
    ensures BeEqual(Tester(Some((a: Value, b: Value) => true), None), pretty, expected, got, message) == Pass
    ensures !BeEqual(Tester(Some((a: Value, b: Value) => false), None), pretty, expected, got, message).ok
  {
  }

  /** When the library sees two different strings, a diff override's text is
      what a failing `BeEqual` reports. */
  lemma BeEqualCustomDiffTable(pretty: Comparer)
    requires pretty(Str("string1"), Str("string2")) != ""
    ensures BeEqual(Tester(None, Some((a: Value, b: Value) => "forced diff")), pretty, Str("string1"), Str("string2"), "Message1")
      == Fail(Errorf(EqualFormat, [Text("Message1"), Text("forced diff")]))
  {
  }

  /** The code reports inequality with `"%s: diff: (-got +want)\n%s"`, not the
      `"%s: diff\n%s"` that the repository's test table expects. */
  lemma BeEqualFormatDiffersFromTestTable(pretty: Comparer, expected: Value, got: Value, message: string)
    requires pretty(expected, got) != ""
    ensures BeEqual(Default, pretty, expected, got, message).calls[0].format != "%s: diff\n%s"
  {
  }
}
