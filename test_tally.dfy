/** The application smoke-test runner: a shared tally of passed, failed and
    warned tests, updated by each test run, and the exit code derived from it. */
module TestTally {
  import opened Wrappers

  /** What a test function did, as far as the runner can tell. */
  datatype TestOutcome =
    | ReturnedTrue
    | ReturnedFalse
      /** `typeof null` is 'object', so reading `.passed` of it throws. */
    | ReturnedNull
      /** Any other object; `passed` is `None` when the property is undefined,
          otherwise its truthiness; `warning` is the truthiness of `.warning`. */
    | ReturnedRecord(passed: Option<bool>, warning: bool)
      /** Undefined, a number, a string, ...: no branch of the runner applies. */
    | ReturnedOther
    | Threw

  /** The outcomes counted as passed. */
  predicate Passes(o: TestOutcome) {
    o == ReturnedTrue || (o.ReturnedRecord? && o.passed == Some(true))
  }

  /** The outcomes counted as failed. */
  predicate Fails(o: TestOutcome) {
    o == ReturnedFalse || o == ReturnedNull || o == Threw || (o.ReturnedRecord? && o.passed == Some(false))
  }

  /** The outcomes counted as a warning. */
  predicate Warns(o: TestOutcome) {
    o.ReturnedRecord? && o.passed.Some? && o.warning
  }

  /** The tally's three counters. */
  datatype Counts = Counts(passed: nat, failed: nat, warnings: nat)

  const Zero: Counts := Counts(0, 0, 0)

  /** The counters after one test run. */
  function Record(c: Counts, o: TestOutcome): (r: Counts)
    ensures r.passed == c.passed || r.passed == c.passed + 1
    ensures r.failed == c.failed || r.failed == c.failed + 1
    ensures r.passed + r.failed <= c.passed + c.failed + 1
    ensures r.warnings == c.warnings + (if Warns(o) then 1 else 0)
  {
    Counts(c.passed + (if Passes(o) then 1 else 0),
           c.failed + (if Fails(o) then 1 else 0),
           c.warnings + (if Warns(o) then 1 else 0))
  }

  /** A test is counted once, as passed or as failed, unless it returned
      something the runner does not recognise. */
  lemma CountedOnce(c: Counts, o: TestOutcome)
    ensures !(Passes(o) && Fails(o))
    ensures Record(c, o).passed + Record(c, o).failed ==
              c.passed + c.failed + (if o == ReturnedOther || (o.ReturnedRecord? && o.passed.None?) then 0 else 1)
  {
    match o
    case ReturnedRecord(Some(b), _) =>
      assert Passes(o) == b && Fails(o) == !b;
    case _ =>
  }

  /** What the runner returns: the test's verdict, or undefined (`None`). */
  function Verdict(o: TestOutcome): (v: Option<bool>)
    ensures v == Some(true) <==> Passes(o)
    ensures v == Some(false) <==> Fails(o)
  {
    match o
    case ReturnedTrue => Some(true)
    case ReturnedFalse => Some(false)
    case ReturnedNull => Some(false)
    case ReturnedRecord(passed, _) => passed
    case ReturnedOther => None
    case Threw => Some(false)
  }

  /** The counters after running the tests in order. */
  function RecordAll(c: Counts, outcomes: seq<TestOutcome>): Counts
    decreases |outcomes|
  {
    if outcomes == [] then c else RecordAll(Record(c, outcomes[0]), outcomes[1..])
  }

  function CountWhere(outcomes: seq<TestOutcome>, failed: bool): nat {
    if outcomes == [] then 0
    else (if (if failed then Fails(outcomes[0]) else Passes(outcomes[0])) then 1 else 0)
         + CountWhere(outcomes[1..], failed)
  }

  /** After any sequence of tests, each counter has grown by the number of
      tests of its kind. */
  lemma {:induction false} RecordAllCounts(c: Counts, outcomes: seq<TestOutcome>)
    ensures RecordAll(c, outcomes).passed == c.passed + CountWhere(outcomes, false)
    ensures RecordAll(c, outcomes).failed == c.failed + CountWhere(outcomes, true)
    ensures RecordAll(c, outcomes).warnings >= c.warnings
    decreases |outcomes|
  {
    if outcomes != [] {
      RecordAllCounts(Record(c, outcomes[0]), outcomes[1..]);
    }
  }

  lemma {:induction false} NoFailureCounted(outcomes: seq<TestOutcome>)
    ensures CountWhere(outcomes, true) == 0 <==> forall i :: 0 <= i < |outcomes| ==> !Fails(outcomes[i])
  {
    if outcomes != [] {
      NoFailureCounted(outcomes[1..]);
      assert forall i :: 1 <= i < |outcomes| ==> outcomes[i] == outcomes[1..][i - 1];
    }
  }

  /** `results.failed === 0 ? 0 : 1`. */
  function ExitCodeOf(c: Counts): (code: int)
    ensures code == 0 || code == 1
    ensures code == 0 <==> c.failed == 0
  {
    if c.failed == 0 then 0 else 1
  }

  /** Starting from zero, the exit code is 0 exactly when no test failed. */
  lemma ExitCodeZeroIffNoFailure(outcomes: seq<TestOutcome>)
    ensures ExitCodeOf(RecordAll(Zero, outcomes)) == 0 <==> forall i :: 0 <= i < |outcomes| ==> !Fails(outcomes[i])
  {
    RecordAllCounts(Zero, outcomes);
    NoFailureCounted(outcomes);
  }

  /** The shared `results` object. */
  class TestResults {
    var passed: nat
    var failed: nat
    var warnings: nat

    function Current(): Counts
      reads this
    {
      Counts(passed, failed, warnings)
    }

    constructor ()
      ensures Current() == Zero
    {
      passed := 0;
      failed := 0;
      warnings := 0;
    }

    /** `runTest`: runs one test and updates the counters for its outcome. */
    method RunTest(o: TestOutcome) returns (verdict: Option<bool>)
      modifies this
      ensures Current() == Record(old(Current()), o)
      ensures verdict == Verdict(o)
    {
      match o {
        case ReturnedTrue =>
          passed := passed + 1;
          verdict := Some(true);
        case ReturnedFalse =>
          failed := failed + 1;
          verdict := Some(false);
        case ReturnedRecord(p, warning) =>
          verdict := p;
          if p.Some? {
            if p.value {
              passed := passed + 1;
            } else {
              failed := failed + 1;
            }
            if warning {
              warnings := warnings + 1;
            }
          }
        case ReturnedOther =>
          verdict := None;
        case ReturnedNull =>
          failed := failed + 1;
          verdict := Some(false);
        case Threw =>
          failed := failed + 1;
          verdict := Some(false);
      }
    }

    /** `runAllTests`: runs the tests in order and returns the exit code. */
    method RunAllTests(outcomes: seq<TestOutcome>) returns (exitCode: int)
      modifies this
      ensures Current() == RecordAll(old(Current()), outcomes)
      ensures exitCode == ExitCodeOf(Current())
    {
      var i := 0;
      while i < |outcomes|
        invariant 0 <= i <= |outcomes|
        invariant RecordAll(old(Current()), outcomes) == RecordAll(Current(), outcomes[i..])
      {
        assert outcomes[i..][1..] == outcomes[i + 1..];
        var _ := RunTest(outcomes[i]);
        i := i + 1;
      }
      exitCode := if failed == 0 then 0 else 1;
    }
  }
}
