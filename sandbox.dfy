/**
 * The interface to the sandboxed runner: the limits a test case is run
 * under, the report the runner returns, and how a report is classified.
 * The runner itself is not modelled; a report is an input.
 */
module Sandbox {
  import opened Verdicts

  /** The fields of the runner's JSON report the judge reads. */
  datatype Report = Report(result: int, signal: int, cpuTime: int, memory: int)

  /** One run of the user's program: the report and what it wrote to its output file. */
  datatype Execution = Execution(report: Report, userOutput: string)

  /** The named arguments of one runner invocation, as the command line passes them. */
  datatype SandboxCall = SandboxCall(
    maxCpuTime: int,
    maxRealTime: int,
    maxMemory: int,
    maxProcessNumber: int,
    maxOutputSize: int,
    input: string,
    seccompRuleName: string)

  /** Cap on the number of processes the user's program may create. */
  const MaxProcessNumber: int := 200
  /** Cap on the size of the user's output, in bytes (2 MiB). */
  const MaxOutputSize: int := 2097152
  /** Wall-clock allowance as a multiple of the CPU time limit. */
  const RealTimeFactor: int := 5
  /** The signal the runner reports when the output cap is hit (SIGXFSZ). */
  const OutputLimitSignal: int := 25

  /** Native languages get the strict "c_cpp" syscall profile, all others "general". */
  function SeccompRule(lang: string): (rule: string)
    ensures rule == "c_cpp" <==> lang == "c" || lang == "cpp"
    ensures rule == "general" <==> !(lang == "c" || lang == "cpp")
  {
    if lang == "c" || lang == "cpp" then "c_cpp" else "general"
  }

  /**
   * The invocation for one test case: the problem's CPU and memory limits,
   * five times the CPU limit as real time, the fixed process and output
   * caps, the test's input and the language's syscall profile.
   */
  function CallFor(timeLimit: int, memoryLimit: int, lang: string, input: string): (call: SandboxCall)
    ensures call.maxCpuTime == timeLimit && call.maxRealTime == 5 * timeLimit
    ensures call.maxMemory == memoryLimit
    ensures call.maxProcessNumber == 200 && call.maxOutputSize == 2097152
    ensures call.input == input
    ensures call.seccompRuleName == "c_cpp" <==> lang == "c" || lang == "cpp"
    ensures !(lang == "c" || lang == "cpp") ==> call.seccompRuleName == "general"
  {
    SandboxCall(timeLimit, timeLimit * RealTimeFactor, memoryLimit,
                MaxProcessNumber, MaxOutputSize, input, SeccompRule(lang))
  }

  /** What a report means for the judging loop: go on to compare outputs, or stop with a verdict. */
  datatype Classification = Continue | Stop(verdict: Verdict)

  /** The verdicts a report can stop the loop with. */
  predicate IsSandboxVerdict(v: Verdict)
  {
    v in {TimeLimitExceeded, MemoryLimitExceeded, OutputFormatError, RuntimeError, ServerError}
  }

  /**
   * The classification chain, checked in order: result 1 or 2 is a time
   * limit, 3 a memory limit, 4 a runtime abort (an output-format error when
   * the signal is 25), 0 success; any other result is a server error.
   */
  function Classify(result: int, signal: int): (c: Classification)
    ensures c == Continue <==> result == 0
    ensures c.Stop? ==> IsSandboxVerdict(c.verdict)
    ensures c == Stop(TimeLimitExceeded) <==> result == 1 || result == 2
    ensures c == Stop(MemoryLimitExceeded) <==> result == 3
    ensures c == Stop(OutputFormatError) <==> result == 4 && signal == OutputLimitSignal
    ensures c == Stop(RuntimeError) <==> result == 4 && signal != OutputLimitSignal
    ensures c == Stop(ServerError) <==> !(0 <= result <= 4)
  {
    if result == 1 || result == 2 then Stop(TimeLimitExceeded)
    else if result == 3 then Stop(MemoryLimitExceeded)
    else if result == 4 then
      (if signal == OutputLimitSignal then Stop(OutputFormatError) else Stop(RuntimeError))
    else if result != 0 then Stop(ServerError)
    else Continue
  }
}
