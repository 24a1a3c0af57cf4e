/**
 * The judging task for one pending submission: compile, run every test case
 * in order under the sandbox, stop at the first failure, keep the peak CPU
 * time and memory of the tests that passed, and turn the outcome into the
 * status record that is persisted (or the error that is rethrown).
 *
 * The compiler and the sandbox are inputs: a compile result, and a runner
 * that maps the index of a test and the invocation the judge makes to the
 * execution it observes.
 */
module Judge {
  import opened Wrappers
  import opened Verdicts
  import opened Comparator
  import opened Sandbox

  /** The fields of a problem the judge reads. */
  datatype Problem = Problem(
    timeLimit: int,
    memoryLimit: int,
    inputList: seq<string>,
    outputList: seq<string>)

  /** What the compiler adapter returns: success, and its standard output (the diagnostic). */
  datatype CompileResult = CompileResult(success: bool, stdout: string)

  /** The runner: test index and invocation to the observed execution. */
  type Runner = (nat, SandboxCall) -> Execution

  /** One write of the status record: status, message, time and memory. */
  datatype StatusUpdate = StatusUpdate(status: Verdict, message: string, time: int, memory: int)

  /**
   * How a judging task ends: the status update persisted (if any), whether the
   * work queue is advanced, and the error rethrown to the caller (if any).
   */
  datatype Disposition = Disposition(update: Option<StatusUpdate>, advancesQueue: bool, raised: Option<string>)

  /** Time and memory recorded for every outcome except Accepted. */
  const NotApplicable: int := -1
  /** The error rethrown after a server error has been persisted. */
  const JudgeServerErrorMessage: string := "Judge Server error"
  /**
   * The TypeError raised when a test has no expected output entry. Its exact
   * wording depends on the JavaScript engine; the model only relies on it not
   * being one of the status strings.
   */
  const MissingExpectedOutput: string := "Cannot read properties of undefined (reading 'txt')"
  /**
   * The TypeError raised when the expected output has no non-blank line; as
   * above, only its not being a status string matters.
   */
  const MissingExpectedLine: string := "Cannot read properties of undefined (reading 'trimEnd')"

  /** The sandbox invocation for test case i. */
  function TestCall(p: Problem, lang: string, i: nat): SandboxCall
    requires i < |p.inputList|
  {
    CallFor(p.timeLimit, p.memoryLimit, lang, p.inputList[i])
  }

  /** The invocations for the first n test cases, in order. */
  function TestCalls(p: Problem, lang: string, n: nat): seq<SandboxCall>
    requires n <= |p.inputList|
  {
    if n == 0 then [] else TestCalls(p, lang, n - 1) + [TestCall(p, lang, n - 1)]
  }

  /** The n invocations are those of tests 0 to n - 1, in that order. */
  lemma {:induction false} TestCallsInOrder(p: Problem, lang: string, n: nat)
    requires n <= |p.inputList|
    ensures |TestCalls(p, lang, n)| == n
    ensures forall i :: 0 <= i < n ==> TestCalls(p, lang, n)[i] == TestCall(p, lang, i)
  {
    if n > 0 {
      TestCallsInOrder(p, lang, n - 1);
    }
  }

  /** What the runner observes for test case i. */
  function Exec(p: Problem, lang: string, run: Runner, i: nat): Execution
    requires i < |p.inputList|
  {
    run(i, TestCall(p, lang, i))
  }

  /**
   * The error message test case i throws once its execution e is known, or
   * None when it passes: the classifier's verdict, a missing expected output,
   * a wrong answer, or the expected side having no non-blank line.
   */
  function TestError(p: Problem, i: nat, e: Execution): Option<string>
  {
    match Classify(e.report.result, e.report.signal)
    case Stop(v) => Some(VerdictText(v))
    case Continue =>
      if i >= |p.outputList| then Some(MissingExpectedOutput)
      else
        match Compare(e.userOutput, p.outputList[i])
        case Same => None
        case Differs => Some(VerdictText(WrongAnswer))
        case ExpectedBlank => Some(MissingExpectedLine)
  }

  /** What one test case yields: the message it throws (None when it passes) and its report. */
  datatype TestOutcome = TestOutcome(thrown: Option<string>, report: Report)

  /** The outcome of test case i under the runner. */
  function Outcome(p: Problem, lang: string, run: Runner, i: nat): TestOutcome
    requires i < |p.inputList|
  {
    var e := Exec(p, lang, run, i);
    TestOutcome(TestError(p, i, e), e.report)
  }

  /** The outcomes of the first n test cases, in test order. */
  function OutcomesUpTo(p: Problem, lang: string, run: Runner, n: nat): seq<TestOutcome>
    requires n <= |p.inputList|
  {
    if n == 0 then [] else OutcomesUpTo(p, lang, run, n - 1) + [Outcome(p, lang, run, n - 1)]
  }

  /** The n outcomes are those of tests 0 to n - 1, in that order. */
  lemma {:induction false} OutcomesInOrder(p: Problem, lang: string, run: Runner, n: nat)
    requires n <= |p.inputList|
    ensures |OutcomesUpTo(p, lang, run, n)| == n
    ensures forall i :: 0 <= i < n ==> OutcomesUpTo(p, lang, run, n)[i] == Outcome(p, lang, run, i)
  {
    if n > 0 {
      OutcomesInOrder(p, lang, run, n - 1);
      var prev := OutcomesUpTo(p, lang, run, n - 1);
      assert OutcomesUpTo(p, lang, run, n) == prev + [Outcome(p, lang, run, n - 1)];
      forall i | 0 <= i < n - 1
        ensures OutcomesUpTo(p, lang, run, n)[i] == Outcome(p, lang, run, i)
      {
        assert OutcomesUpTo(p, lang, run, n)[i] == prev[i];
      }
    }
  }

  /** The outcome every test case would have, in test order. */
  function Outcomes(p: Problem, lang: string, run: Runner): (os: seq<TestOutcome>)
    ensures |os| == |p.inputList|
  {
    OutcomesInOrder(p, lang, run, |p.inputList|);
    OutcomesUpTo(p, lang, run, |p.inputList|)
  }

  /**
   * The checks made on test case i once its execution e is known: classify
   * the report, read the expected output, compare. Yields the error the test
   * throws, or None when it passes.
   */
  method RunTestCase(p: Problem, i: nat, e: Execution) returns (thrown: Option<string>)
    ensures thrown == TestError(p, i, e)
    ensures thrown.None? <==>
      e.report.result == 0 && i < |p.outputList| && Compare(e.userOutput, p.outputList[i]) == Same
    ensures thrown.Some? && ParseVerdict(thrown.value).Some? ==>
      ParseVerdict(thrown.value).value in
        {TimeLimitExceeded, MemoryLimitExceeded, OutputFormatError, RuntimeError, ServerError, WrongAnswer}
    ensures thrown.Some? && ParseVerdict(thrown.value).None? <==>
      e.report.result == 0 && (i >= |p.outputList| || Compare(e.userOutput, p.outputList[i]) == ExpectedBlank)
  {
    thrown := None;
    var status := e.report;
    match Classify(status.result, status.signal)
    case Stop(v) =>
      thrown := Some(VerdictText(v));
    case Continue =>
      if i >= |p.outputList| {
        thrown := Some(MissingExpectedOutput);
      } else {
        var cmp := CompareOutputs(e.userOutput, p.outputList[i]);
        if cmp == Differs {
          thrown := Some(VerdictText(WrongAnswer));
        } else if cmp == ExpectedBlank {
          thrown := Some(MissingExpectedLine);
        }
      }
  }

  predicate AllPassed(os: seq<TestOutcome>)
  {
    forall i :: 0 <= i < |os| ==> os[i].thrown.None?
  }

  /** Test k fails and every test before it passes. */
  predicate FailsFirstAt(os: seq<TestOutcome>, k: nat)
  {
    k < |os| && os[k].thrown.Some? && forall j :: 0 <= j < k ==> os[j].thrown.None?
  }

  /** The first failing test: it fails and every earlier test passes. */
  function FirstFailed(os: seq<TestOutcome>): (k: nat)
    requires !AllPassed(os)
    ensures FailsFirstAt(os, k)
    decreases |os|
  {
    if os[0].thrown.Some? then 0
    else
      assert !AllPassed(os[1..]) by {
        var i :| 0 <= i < |os| && os[i].thrown.Some?;
        assert os[1..][i - 1] == os[i];
      }
      1 + FirstFailed(os[1..])
  }

  /** The first failure is unique: a test that fails first is the one FirstFailed finds. */
  lemma FirstFailedAt(os: seq<TestOutcome>, k: nat)
    requires FailsFirstAt(os, k)
    ensures !AllPassed(os) && FirstFailed(os) == k
  {
  }

  datatype Resource = CpuTime | Memory

  function Usage(r: Report, res: Resource): int
  {
    match res
    case CpuTime => r.cpuTime
    case Memory => r.memory
  }

  /** Math.max on two numbers. */
  function Max(a: int, b: int): int
  {
    if a < b then b else a
  }

  /** The running maximum of a resource over a run of tests, started at 0 (Math.max at each step). */
  function PeakOf(os: seq<TestOutcome>, res: Resource): int
    decreases |os|
  {
    if os == [] then 0
    else Max(PeakOf(os[..|os| - 1], res), Usage(os[|os| - 1].report, res))
  }

  /** The peak is at least 0, at least every test's usage, and either 0 or some test's usage. */
  lemma {:induction false} PeakBounds(os: seq<TestOutcome>, res: Resource)
    ensures PeakOf(os, res) >= 0
    ensures forall j :: 0 <= j < |os| ==> Usage(os[j].report, res) <= PeakOf(os, res)
    ensures PeakOf(os, res) == 0 || exists j :: 0 <= j < |os| && Usage(os[j].report, res) == PeakOf(os, res)
    decreases |os|
  {
    if os != [] {
      var init := os[..|os| - 1];
      PeakBounds(init, res);
      forall j | 0 <= j < |os| - 1
        ensures Usage(os[j].report, res) <= PeakOf(os, res)
      {
        assert os[j] == init[j];
      }
      if PeakOf(os, res) != 0 && PeakOf(os, res) == PeakOf(init, res) {
        var j :| 0 <= j < |init| && Usage(init[j].report, res) == PeakOf(init, res);
        assert os[j] == init[j];
      }
    }
  }

  /**
   * The catch block: the thrown message selects what is persisted. A server
   * error is persisted and then rethrown without advancing the queue; a
   * compile error keeps the compiler's output as message; the five verdicts
   * the submitter is at fault for clear the message; every other message is
   * rethrown with nothing persisted. Time and memory are always -1.
   */
  function Catch(message: string, ceStdout: string): (d: Disposition)
    ensures d.update.Some? ==> VerdictText(d.update.value.status) == message
    ensures d.update.Some? ==> d.update.value.status !in {Judging, Accepted}
    ensures d.update.Some? ==> d.update.value.time == NotApplicable && d.update.value.memory == NotApplicable
    ensures d.update.Some? ==>
      d.update.value.message == (if d.update.value.status == CompileError then ceStdout else "")
    ensures d.update.None? <==> ParseVerdict(message) in {None, Some(Judging), Some(Accepted)}
    ensures d.advancesQueue <==> d.update.Some? && d.update.value.status != ServerError
    ensures d.raised == (if d.update.None? then Some(message)
                         else if d.update.value.status == ServerError then Some(JudgeServerErrorMessage)
                         else None)
  {
    if message == VerdictText(ServerError) then
      Disposition(Some(StatusUpdate(ServerError, "", NotApplicable, NotApplicable)), false, Some(JudgeServerErrorMessage))
    else if message == VerdictText(CompileError) then
      Disposition(Some(StatusUpdate(CompileError, ceStdout, NotApplicable, NotApplicable)), true, None)
    else if message == VerdictText(RuntimeError) || message == VerdictText(WrongAnswer)
         || message == VerdictText(TimeLimitExceeded) || message == VerdictText(MemoryLimitExceeded)
         || message == VerdictText(OutputFormatError) then
      Disposition(Some(StatusUpdate(ParseVerdict(message).value, "", NotApplicable, NotApplicable)), true, None)
    else
      Disposition(None, false, Some(message))
  }

  /** The result of judging one submission: how many tests ran, and how the task ended. */
  datatype Judgement = Judgement(testsRun: nat, disposition: Disposition)

  /**
   * The reference outcome, given each test's outcome: a compile failure runs
   * nothing; when every test passes all of them run and Accepted is persisted
   * with the peaks; otherwise the run stops at the first failing test, whose
   * message goes to the catch block.
   */
  function Aggregate(compile: CompileResult, os: seq<TestOutcome>): (j: Judgement)
    ensures j.testsRun <= |os|
    ensures j.disposition.update.Some? ==> IsTerminal(j.disposition.update.value.status)
    ensures j.disposition.advancesQueue <==>
      j.disposition.update.Some? && j.disposition.update.value.status != ServerError
  {
    if !compile.success then
      Judgement(0, Catch(VerdictText(CompileError), compile.stdout))
    else if AllPassed(os) then
      Judgement(|os|, Disposition(Some(StatusUpdate(Accepted, compile.stdout,
                                                    PeakOf(os, CpuTime), PeakOf(os, Memory))), true, None))
    else
      var k := FirstFailed(os);
      Judgement(k + 1, Catch(os[k].thrown.value, ""))
  }

  /**
   * The judging task as the judge runs it. Returns how the task ends and the
   * sandbox invocations made, in order.
   */
  method JudgeSubmission(lang: string, compile: CompileResult, p: Problem, run: Runner)
    returns (d: Disposition, calls: seq<SandboxCall>)
    ensures Aggregate(compile, Outcomes(p, lang, run)) == Judgement(|calls|, d)
    ensures |calls| <= |p.inputList|
    ensures forall i :: 0 <= i < |calls| ==> calls[i] == TestCall(p, lang, i)
  {
    calls := [];
    var ceStdout := "";  // unset (undefined) unless compilation fails
    if !compile.success {
      ceStdout := compile.stdout;
      d := Catch(VerdictText(CompileError), ceStdout);
      return;
    }
    var maxTime, maxMemory := 0, 0;
    ghost var seen: seq<TestOutcome> := [];
    for i := 0 to |p.inputList|
      invariant calls == TestCalls(p, lang, i)
      invariant seen == OutcomesUpTo(p, lang, run, i) && |seen| == i
      invariant AllPassed(seen)
      invariant maxTime == PeakOf(seen, CpuTime)
      invariant maxMemory == PeakOf(seen, Memory)
    {
      var call := CallFor(p.timeLimit, p.memoryLimit, lang, p.inputList[i]);
      calls := calls + [call];
      var e := run(i, call);
      var thrown := RunTestCase(p, i, e);
      ghost var outcome := TestOutcome(thrown, e.report);
      assert outcome == Outcome(p, lang, run, i);
      if thrown.Some? {
        AggregateAtFailure(lang, compile, p, run, i);
        TestCallsInOrder(p, lang, i + 1);
        d := Catch(thrown.value, ceStdout);
        return;
      }
      assert (seen + [outcome])[..i] == seen;
      seen := seen + [outcome];
      maxTime := Max(maxTime, e.report.cpuTime);
      maxMemory := Max(maxMemory, e.report.memory);
    }
    TestCallsInOrder(p, lang, |p.inputList|);
    d := Disposition(Some(StatusUpdate(Accepted, compile.stdout, maxTime, maxMemory)), true, None);
  }

  /** When the first i tests pass and test i fails, the reference outcome stops at test i. */
  lemma AggregateAtFailure(lang: string, compile: CompileResult, p: Problem, run: Runner, i: nat)
    requires compile.success && i < |p.inputList|
    requires AllPassed(OutcomesUpTo(p, lang, run, i))
    requires Outcome(p, lang, run, i).thrown.Some?
    ensures Aggregate(compile, Outcomes(p, lang, run)) ==
      Judgement(i + 1, Catch(Outcome(p, lang, run, i).thrown.value, ""))
  {
    var os := Outcomes(p, lang, run);
    OutcomesInOrder(p, lang, run, i);
    OutcomesInOrder(p, lang, run, |p.inputList|);
    FirstFailureStops(compile, os, i);
  }

  /** A compile failure runs no test and persists Compile Error with the compiler's output. */
  lemma CompileErrorRunsNothing(compile: CompileResult, os: seq<TestOutcome>)
    requires !compile.success
    ensures Aggregate(compile, os) ==
      Judgement(0, Disposition(Some(StatusUpdate(CompileError, compile.stdout, NotApplicable, NotApplicable)), true, None))
  {
    VerdictTextRoundTrip(CompileError);
  }

  /**
   * Accepted is persisted exactly when compilation succeeds and every test
   * passes; then every test ran, the compiler's output is the message, and
   * the recorded time and memory bound every test's usage and are reached by
   * one of them (or are 0).
   */
  lemma AcceptedExactlyWhenAllPass(compile: CompileResult, os: seq<TestOutcome>)
    ensures var d := Aggregate(compile, os).disposition;
      d.update.Some? && d.update.value.status == Accepted <==> compile.success && AllPassed(os)
    ensures var j := Aggregate(compile, os);
      j.disposition.update.Some? && j.disposition.update.value.status == Accepted ==>
        var u := j.disposition.update.value;
        && j.testsRun == |os|
        && u.message == compile.stdout
        && (forall i :: 0 <= i < |os| ==> os[i].report.cpuTime <= u.time && os[i].report.memory <= u.memory)
        && (u.time == 0 || exists i :: 0 <= i < |os| && os[i].report.cpuTime == u.time)
        && (u.memory == 0 || exists i :: 0 <= i < |os| && os[i].report.memory == u.memory)
  {
    if compile.success && AllPassed(os) {
      var t := PeakOf(os, CpuTime);
      var m := PeakOf(os, Memory);
      PeakBounds(os, CpuTime);
      PeakBounds(os, Memory);
      forall i | 0 <= i < |os|
        ensures os[i].report.cpuTime <= t && os[i].report.memory <= m
      {
        assert Usage(os[i].report, CpuTime) <= t;
        assert Usage(os[i].report, Memory) <= m;
      }
      if t != 0 {
        var i :| 0 <= i < |os| && Usage(os[i].report, CpuTime) == t;
        assert os[i].report.cpuTime == t;
      }
      if m != 0 {
        var i :| 0 <= i < |os| && Usage(os[i].report, Memory) == m;
        assert os[i].report.memory == m;
      }
    }
  }

  /** When test k fails first, exactly k + 1 tests run and its message goes to the catch block. */
  lemma FirstFailureStops(compile: CompileResult, os: seq<TestOutcome>, k: nat)
    requires compile.success && FailsFirstAt(os, k)
    ensures Aggregate(compile, os) == Judgement(k + 1, Catch(os[k].thrown.value, ""))
  {
    FirstFailedAt(os, k);
  }

  /** Outcomes after the first failing test never affect the result. */
  lemma LaterOutcomesNeverMatter(compile: CompileResult, os1: seq<TestOutcome>, os2: seq<TestOutcome>, k: nat)
    requires FailsFirstAt(os1, k) && k < |os2|
    requires os1[..k + 1] == os2[..k + 1]
    ensures Aggregate(compile, os1) == Aggregate(compile, os2)
  {
    if compile.success {
      assert os1[k] == os1[..k + 1][k];
      assert os2[k] == os2[..k + 1][k];
      forall j | 0 <= j < k
        ensures os2[j].thrown.None?
      {
        assert os1[j] == os1[..k + 1][j];
        assert os2[j] == os2[..k + 1][j];
      }
      FirstFailureStops(compile, os1, k);
      FirstFailureStops(compile, os2, k);
    }
  }

  /**
   * What the catch block makes of a failing test's error, case by case: a
   * sandbox verdict other than Server Error, or a wrong answer, is persisted
   * with an empty message and -1/-1 and advances the queue; Server Error is
   * persisted and rethrown without advancing; a missing expected output, or
   * an expected output without a non-blank line, is rethrown and nothing is
   * persisted.
   */
  predicate CatchesAsDesigned(p: Problem, k: nat, e: Execution, d: Disposition)
  {
    match Classify(e.report.result, e.report.signal)
    case Stop(v) =>
      if v == ServerError then
        d == Disposition(Some(StatusUpdate(ServerError, "", NotApplicable, NotApplicable)), false,
                         Some(JudgeServerErrorMessage))
      else
        d == Disposition(Some(StatusUpdate(v, "", NotApplicable, NotApplicable)), true, None)
    case Continue =>
      if k >= |p.outputList| then
        d == Disposition(None, false, Some(MissingExpectedOutput))
      else if Compare(e.userOutput, p.outputList[k]) == ExpectedBlank then
        d == Disposition(None, false, Some(MissingExpectedLine))
      else
        Compare(e.userOutput, p.outputList[k]) == Differs &&
        d == Disposition(Some(StatusUpdate(WrongAnswer, "", NotApplicable, NotApplicable)), true, None)
  }

  /** The catch block handles every error a test case can throw as designed. */
  lemma CatchTestError(p: Problem, k: nat, e: Execution)
    requires TestError(p, k, e).Some?
    ensures CatchesAsDesigned(p, k, e, Catch(TestError(p, k, e).value, ""))
  {
    match Classify(e.report.result, e.report.signal)
    case Stop(v) =>
      VerdictTextRoundTrip(v);
    case Continue =>
      if k >= |p.outputList| {
        assert ParseVerdict(MissingExpectedOutput) == None;
      } else {
        var c := Compare(e.userOutput, p.outputList[k]);
        if c == ExpectedBlank {
          assert ParseVerdict(MissingExpectedLine) == None;
        } else {
          assert c == Differs;
          VerdictTextRoundTrip(WrongAnswer);
        }
      }
  }

  /** The first failing test decides the record, as the catch block handles its error. */
  lemma FirstFailureDecides(lang: string, compile: CompileResult, p: Problem, run: Runner, k: nat)
    requires compile.success && FailsFirstAt(Outcomes(p, lang, run), k)
    ensures Aggregate(compile, Outcomes(p, lang, run)).testsRun == k + 1
    ensures CatchesAsDesigned(p, k, Exec(p, lang, run, k), Aggregate(compile, Outcomes(p, lang, run)).disposition)
  {
    var os := Outcomes(p, lang, run);
    OutcomesInOrder(p, lang, run, |p.inputList|);
    FirstFailureStops(compile, os, k);
    CatchTestError(p, k, Exec(p, lang, run, k));
  }

  /**
   * A memory-limit report on the first failing test yields Memory Limit
   * Exceeded with an empty message and -1/-1, whatever the test's index.
   */
  lemma MemoryLimitAtAnyTest(lang: string, compile: CompileResult, p: Problem, run: Runner, k: nat)
    requires compile.success && k < |p.inputList| && Exec(p, lang, run, k).report.result == 3
    requires forall j :: 0 <= j < k ==> Outcomes(p, lang, run)[j].thrown.None?
    ensures Aggregate(compile, Outcomes(p, lang, run)) ==
      Judgement(k + 1, Disposition(Some(StatusUpdate(MemoryLimitExceeded, "", NotApplicable, NotApplicable)), true, None))
  {
    var os := Outcomes(p, lang, run);
    OutcomesInOrder(p, lang, run, |p.inputList|);
    assert os[k].thrown == Some(VerdictText(MemoryLimitExceeded));
    FirstFailureStops(compile, os, k);
    VerdictTextRoundTrip(MemoryLimitExceeded);
  }

  /**
   * Tests after the first failing one are never run: two runners that agree
   * up to the first failure give the same outcome.
   */
  lemma LaterTestsNeverMatter(lang: string, compile: CompileResult, p: Problem, run1: Runner, run2: Runner, k: nat)
    requires FailsFirstAt(Outcomes(p, lang, run1), k)
    requires forall j :: 0 <= j <= k ==> Exec(p, lang, run1, j) == Exec(p, lang, run2, j)
    ensures Aggregate(compile, Outcomes(p, lang, run1)) == Aggregate(compile, Outcomes(p, lang, run2))
  {
    var os1 := Outcomes(p, lang, run1);
    var os2 := Outcomes(p, lang, run2);
    OutcomesInOrder(p, lang, run1, |p.inputList|);
    OutcomesInOrder(p, lang, run2, |p.inputList|);
    forall j | 0 <= j <= k
      ensures os1[j] == os2[j]
    {
      assert Outcome(p, lang, run1, j) == Outcome(p, lang, run2, j);
    }
    assert os1[..k + 1] == os2[..k + 1];
    LaterOutcomesNeverMatter(compile, os1, os2, k);
  }
}
