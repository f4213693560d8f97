/** A tester reused for a sequence of `BeEqual`, `BeEqualErrors`, `BeNoError`
    and `BeSameLength` checks within one test: the sink receives, in order, the
    calls of every check, and nothing else. */
module Sessions {
  import opened Values
  import opened GoErrors
  import opened Sink
  import Testers

  /** One check invocation through a tester. */
  datatype Check =
    | EqualCheck(expected: Value, got: Value, message: string)
    | EqualErrorsCheck(expectedErr: Err, gotErr: Err, message: string)
    | NoErrorCheck(gotErr: Err, message: string)
    | SameLengthCheck(expected: Value, got: Value, message: string)

  /** Performs one check through `t`. A failing check reports once, with one of
      the known formats and its own message as first argument. */
  function Run(t: Testers.Tester, pretty: Comparer, c: Check): (v: Verdict)
    ensures Reported(v)
    ensures !v.ok ==> v.calls[0].format in Testers.Formats
    ensures !v.ok ==> |v.calls[0].args| > 1 && v.calls[0].args[0] == Text(c.message)
  {
    match c
    case EqualCheck(expected, got, message) => Testers.BeEqual(t, pretty, expected, got, message)
    case EqualErrorsCheck(expected, got, message) => Testers.BeEqualErrors(expected, got, message)
    case NoErrorCheck(got, message) => Testers.BeNoError(got, message)
    case SameLengthCheck(expected, got, message) => Testers.BeSameLength(expected, got, message)
  }

  /** How many of the checks pass; a counter for `Log`'s contract. */
  function Passes(t: Testers.Tester, pretty: Comparer, cs: seq<Check>): (n: nat)
    ensures n <= |cs|
    decreases |cs|
  {
    if cs == [] then 0
    else (if Run(t, pretty, cs[0]).ok then 1 else 0) + Passes(t, pretty, cs[1..])
  }

  /** What the sink has received after the checks ran in order. Every failing
      check left exactly one call, and every call uses a known format. */
  function Log(t: Testers.Tester, pretty: Comparer, cs: seq<Check>): (log: seq<Call>)
    ensures |log| + Passes(t, pretty, cs) == |cs|
    ensures forall i :: 0 <= i < |log| ==> log[i].format in Testers.Formats
    decreases |cs|
  {
    if cs == [] then []
    else Run(t, pretty, cs[0]).calls + Log(t, pretty, cs[1..])
  }

  /** Running two batches one after the other passes the sum of their passes. */
  lemma {:induction false} PassesAppend(t: Testers.Tester, pretty: Comparer, a: seq<Check>, b: seq<Check>)
    ensures Passes(t, pretty, a + b) == Passes(t, pretty, a) + Passes(t, pretty, b)
    decreases |a|
  {
    if a != [] {
      assert (a + b)[1..] == a[1..] + b;
      PassesAppend(t, pretty, a[1..], b);
    } else {
      assert a + b == b;
    }
  }

  /** Running two batches one after the other leaves the first batch's calls
      followed by the second's. */
  lemma {:induction false} LogAppend(t: Testers.Tester, pretty: Comparer, a: seq<Check>, b: seq<Check>)
    ensures Log(t, pretty, a + b) == Log(t, pretty, a) + Log(t, pretty, b)
    decreases |a|
  {
    if a != [] {
      assert (a + b)[1..] == a[1..] + b;
      LogAppend(t, pretty, a[1..], b);
    } else {
      assert a + b == b;
    }
  }

  /** The sink stays untouched exactly when every check passes. */
  lemma {:induction false} SilentIffAllPass(t: Testers.Tester, pretty: Comparer, cs: seq<Check>)
    ensures Log(t, pretty, cs) == [] <==> forall i :: 0 <= i < |cs| ==> Run(t, pretty, cs[i]).ok
    decreases |cs|
  {
    if cs != [] {
      SilentIffAllPass(t, pretty, cs[1..]);
      assert forall i :: 0 <= i < |cs[1..]| ==> cs[1..][i] == cs[i + 1];
    }
  }

  /** Runs the checks one by one through `t`, counting passes and collecting
      the sink's calls. */
  method RunSession(t: Testers.Tester, pretty: Comparer, cs: seq<Check>) returns (passed: nat, log: seq<Call>)
    ensures passed + |log| == |cs|
    ensures passed == Passes(t, pretty, cs)
    ensures log == Log(t, pretty, cs)
  {
    passed, log := 0, [];
    var i := 0;
    while i < |cs|
      invariant 0 <= i <= |cs|
      invariant passed == Passes(t, pretty, cs[..i])
      invariant log == Log(t, pretty, cs[..i])
    {
      var v := Run(t, pretty, cs[i]);
      assert cs[..i + 1] == cs[..i] + [cs[i]];
      PassesAppend(t, pretty, cs[..i], [cs[i]]);
      LogAppend(t, pretty, cs[..i], [cs[i]]);
      assert [cs[i]][1..] == [];
      if v.ok {
        passed := passed + 1;
      }
      log := log + v.calls;
      i := i + 1;
    }
    assert cs[..i] == cs;
  }
}
