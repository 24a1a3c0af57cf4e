# Judge pipeline model

A Dafny model of the judging task of the AOJ judge server
(`JudgeServer/server/service/judge.service.js`). One pending submission is
taken off the backlog and judged. Judging has four parts:

- **Compile.** A compile failure is recorded as `컴파일 에러` (Compile Error), with the compiler's output as the message.
- **Run each test in the sandbox.** Each test case runs in order under the sandboxed runner `libjudger.so`, with limits derived from the problem.
- **Classify and compare.** The runner's report is classified into a verdict or "continue". On "continue", the user's output is compared with the expected output, line by line, ignoring trailing whitespace and trailing blank lines.
- **Decide the verdict.** The first failing test fixes the verdict. If every test passes, the submission is `맞았습니다` (Accepted) with the peak CPU time and memory.

The catch block then turns the thrown message into the persisted status record. It can also rethrow an error and leave the work queue where it was.

The verdicts are the status enumeration of the status schema
(`JudgeWeb/backend/models/schema.model.js:42`). Their Korean strings serve two
purposes: they are stored, and the judging code throws them as error messages.

The compiler, the sandbox and the database are inputs:

- **Compiler.** A `CompileResult` (success flag and standard output).
- **Sandbox.** A `Runner`, a total function from a test's index and the sandbox invocation the judge makes to the execution observed: the report `{result, signal, cpu_time, memory}` and the user's output. The sandbox calls are returned as a trace, so the model states which tests ran and with which limits.
- **Database.** A persisted write is a `StatusUpdate` inside a `Disposition`. A `Disposition` also says whether the queue is advanced (`Queue.next()`) and what error is rethrown.

Files:

- `wrappers.dfy`: the `Option` type.
- `verdict.dfy`: the verdict enumeration and its strings.
- `text.dfy`: `split('\n')` and `trimEnd()`.
- `comparator.dfy`: the output comparator.
- `sandbox.dfy`: the sandbox limits, the seccomp profile and the report classifier.
- `judge.dfy`: the judging task, each test's outcome, and the reference outcome `Aggregate` computed from them.
- `worker.dfy`: taking the next pending entry.

Modelling notes:

- The user side's popping loop (`judge.service.js:64`) stops at the empty list. The expected side's loop (line 65) has no such guard. An expected output made only of whitespace therefore raises a TypeError (`undefined.trimEnd`). That message is not a verdict string, so the catch block rethrows it: nothing is persisted, the submission stays `채점 중` (the initial judging state) and `Queue.next()` is not called. The model keeps this path as `Comparison.ExpectedBlank`.
- The same happens when a problem has fewer expected outputs than inputs (`undefined.txt`).
- `trimEnd` is modelled with an explicit whitespace predicate (`Text.IsWhitespace`): the ECMAScript WhiteSpace and LineTerminator code points.

## Model

| member | source | states |
|---|---|---|
| `Verdicts.ParseVerdict` | JudgeWeb/backend/models/schema.model.js:42 | a string is read back as the verdict whose text it is, and as None only when no verdict has that text |
| `Verdicts.VerdictTextRoundTrip` | JudgeWeb/backend/models/schema.model.js:42-43 | the nine status strings are distinct: parsing a verdict's text gives that verdict back |
| `Text.TrimEndCharacterized` | JudgeServer/server/service/judge.service.js:64-69 | trimEnd keeps a prefix that is empty or ends in a non-whitespace character, and removes only whitespace |
| `Text.SplitPiecesHaveNoNewline` | JudgeServer/server/service/judge.service.js:61-62 | no piece produced by split('\n') contains a newline |
| `Text.JoinSplit` | JudgeServer/server/service/judge.service.js:61-62 | joining the pieces of split('\n') with newlines gives the text back |
| `Text.SplitJoin` | JudgeServer/server/service/judge.service.js:61-62 | splitting newline-free pieces joined by newlines gives the pieces back (split and join are inverses) |
| `Text.SplitAfterNewline` | JudgeServer/server/service/judge.service.js:61-62 | text, a newline and a newline-free tail split into the text's pieces followed by the tail |
| `Text.TrimEndAppendWhitespace` | JudgeServer/server/service/judge.service.js:69 | appending a whitespace character to a line does not change its trimEnd |
| `Comparator.StripBlankTailCharacterized` | JudgeServer/server/service/judge.service.js:64-65 | popping blank lines keeps a prefix that is empty or ends in a non-blank line; every popped line is blank |
| `Comparator.PopBlankLines` | JudgeServer/server/service/judge.service.js:64 | the guarded pop loop on the user side leaves exactly the line list with its blank tail removed |
| `Comparator.PopExpectedBlankLines` | JudgeServer/server/service/judge.service.js:65 | the unguarded pop loop on the expected side leaves the line list with its blank tail removed, and fails (None) exactly when no line is left |
| `Comparator.LinesAgree` | JudgeServer/server/service/judge.service.js:67-70 | the length check and the index loop succeed exactly when both lists have the same length and agree line by line after trimEnd |
| `Comparator.CompareOutputs` | JudgeServer/server/service/judge.service.js:61-70 | the split, the two pop loops and the index loop yield the reference comparison: ExpectedBlank when the expected side is exhausted, otherwise Same exactly when the stripped line lists have equal length and agree line by line after trimEnd |
| `Comparator.StripBlankTailMatch` | JudgeServer/server/service/judge.service.js:64-70 | line lists that agree after trimEnd still agree after their blank tails are popped |
| `Comparator.AppendWhitespace` | JudgeServer/server/service/judge.service.js:61-65 | appending any run of whitespace (newlines included) to a text leaves its stripped lines equal after trimEnd |
| `Comparator.StripsToNothing` | JudgeServer/server/service/judge.service.js:65 | popping empties the line list exactly when the text is whitespace only |
| `Comparator.CompareCrashesOnBlankExpected` | JudgeServer/server/service/judge.service.js:65 | the comparison throws (reads the last line of an empty array) exactly when the expected output is whitespace only |
| `Comparator.UserTrailingWhitespace` | JudgeServer/server/service/judge.service.js:61-70 | trailing whitespace or blank lines added to the user's output never change the comparison |
| `Comparator.ExpectedTrailingWhitespace` | JudgeServer/server/service/judge.service.js:61-70 | trailing whitespace or blank lines added to the expected output never change the comparison |
| `Comparator.CompareReflexive` | JudgeServer/server/service/judge.service.js:67-70 | an output equal to an expected output that has a non-blank line is accepted |
| `Comparator.TrimEndPrepend` | JudgeServer/server/service/judge.service.js:69 | a character in front of a non-blank line survives trimEnd |
| `Comparator.LeadingCharacterDiffers` | JudgeServer/server/service/judge.service.js:68-70 | leading whitespace is significant: a one-line output with an extra leading character is a wrong answer |
| `Comparator.MissingFinalNewlineAccepted` | JudgeServer/server/service/judge.service.js:61-70 | "3" matches the expected "3\n" |
| `Comparator.ExtraBlankLinesAccepted` | JudgeServer/server/service/judge.service.js:61-70 | "3\n4\n\n\n" matches the expected "3\n4\n" |
| `Comparator.LeadingSpaceRejected` | JudgeServer/server/service/judge.service.js:61-70 | " ab" does not match the expected "ab" |
| `Sandbox.SeccompRule` | JudgeServer/server/service/judge.service.js:11-14 | the profile is "c_cpp" exactly for languages "c" and "cpp", and "general" for every other language |
| `Sandbox.CallFor` | JudgeServer/server/service/judge.service.js:37-46 | a test runs with the problem's CPU and memory limits, real time 5 times the CPU limit, at most 200 processes, at most 2097152 bytes of output, the test's input, and the "c_cpp" profile exactly for "c" and "cpp" and "general" otherwise |
| `Sandbox.Classify` | JudgeServer/server/service/judge.service.js:51-56 | result 0 continues; 1 or 2 is Time Limit Exceeded; 3 is Memory Limit Exceeded; 4 with signal 25 is the output-format error; 4 with any other signal is Runtime Error; any other result is Server Error (each as an if-and-only-if) |
| `Judge.TestCallsInOrder` | JudgeServer/server/service/judge.service.js:36-46 | the invocations for the first n tests are n in number, the i-th being test i's invocation |
| `Judge.OutcomesInOrder` | JudgeServer/server/service/judge.service.js:36-74 | the outcomes of the first n tests are n in number, the i-th being test i's outcome |
| `Judge.RunTestCase` | JudgeServer/server/service/judge.service.js:51-70 | a test passes exactly when the runner reports result 0, an expected output exists and the comparison is Same; a thrown message that is a status string is one of the five sandbox verdicts or Wrong Answer; a thrown message that is not a status string (a TypeError) occurs exactly on result 0 with a missing or whitespace-only expected output |
| `Judge.FirstFailed` | JudgeServer/server/service/judge.service.js:36-74 | the first failing test: it fails and every earlier test passes |
| `Judge.PeakBounds` | JudgeServer/server/service/judge.service.js:72-73 | the running maximum started at 0 is at least 0, at least every test's usage, and either 0 or some test's usage |
| `Judge.Catch` | JudgeServer/server/service/judge.service.js:77-91 | the status field stores the thrown message. Accepted and the initial state are never persisted. Time and memory are -1. The message is the compiler output for Compile Error and empty otherwise. Nothing is persisted and the message is rethrown for any string outside the failure verdicts. The queue advances exactly when something other than Server Error is persisted. Server Error is rethrown as "Judge Server error" |
| `Judge.Aggregate` | JudgeServer/server/service/judge.service.js:28-91 | the reference outcome: never more tests than the problem has, a persisted status is always terminal, and the queue advances exactly when a non-Server-Error status is persisted |
| `Judge.JudgeSubmission` | JudgeServer/server/service/judge.service.js:23-91 | the judging loop ends with the reference disposition after exactly the reference number of sandbox calls, made in test order with each test's limits |
| `Judge.AggregateAtFailure` | JudgeServer/server/service/judge.service.js:36-74 | when the first i tests pass and test i fails, exactly i + 1 tests run and test i's error goes to the catch block |
| `Judge.CompileErrorRunsNothing` | JudgeServer/server/service/judge.service.js:28-32 | a compile failure runs no test and persists (Compile Error, compiler output, -1, -1), then advances the queue |
| `Judge.AcceptedExactlyWhenAllPass` | JudgeServer/server/service/judge.service.js:34-76 | Accepted is persisted exactly when compilation succeeds and every test passes. Then all tests ran and the message is the compiler's output. Time and memory bound every test's usage and are each 0 or reached by some test |
| `Judge.FirstFailureStops` | JudgeServer/server/service/judge.service.js:36-74 | when test k fails first, exactly k + 1 tests run and its error goes to the catch block |
| `Judge.LaterOutcomesNeverMatter` | JudgeServer/server/service/judge.service.js:36-74 | two outcome lists that agree up to the first failure give the same result |
| `Judge.CatchTestError` | JudgeServer/server/service/judge.service.js:51-91 | every error a test can throw is handled as designed: a sandbox verdict or Wrong Answer is persisted with an empty message and -1/-1 and the queue advances; Server Error is persisted and rethrown without advancing; a missing or blank expected output is rethrown with nothing persisted |
| `Judge.FirstFailureDecides` | JudgeServer/server/service/judge.service.js:36-91 | the first failing test fixes the outcome: exactly k + 1 tests run, and the record is what the catch block makes of that test's error, case by case |
| `Judge.MemoryLimitAtAnyTest` | JudgeServer/server/service/judge.service.js:52 | a memory-limit report on the first failing test, at any index, persists (Memory Limit Exceeded, "", -1, -1) |
| `Judge.LaterTestsNeverMatter` | JudgeServer/server/service/judge.service.js:36-74 | what the runner would report for tests after the first failure never affects the outcome |
| `Worker.TakePending` | JudgeServer/server/service/judge.service.js:19-20 | an empty backlog means nothing is dispatched; otherwise the front entry (read at line 19) is dispatched and removed (the removal is the delete at line 93) |
| `Worker.DispatchOrderIsFifo` | JudgeServer/server/service/judge.service.js:19-22 | invoking the entry point one call after another until it goes idle dispatches every pending entry exactly once, oldest first (overlapping calls, where `front()` and `delete()` interleave, are not covered) |

## Left out

- File I/O (writing `input.txt`, reading `output.txt`), the `execSync` call of `libjudger.so` with its command string (paths, uid and gid), and `JSON.parse` of the report. The report and the user's output are inputs instead.
- `Compiler.run`, `StatusModel`, `ProblemModel` and `PendingModel`: their code is not part of this model. Their results are inputs. A failure inside them (a missing submission or problem, say) is not modelled.
- `Queue.place` / `Queue.next` and the asynchronous scheduling. `Disposition.advancesQueue` stands for the call to `Queue.next()`. Serialisation of judging tasks and the atomicity of take-and-delete are not modelled.
- The outer catch of the entry point (lines 94-97), which prefixes `Service -> ` to errors from `PendingModel.front`, `PendingModel.delete` and `Queue.place` itself. The judging task's own rethrows (lines 82 and 89) happen inside the callback handed to `Queue.place`, which is not awaited, so they never reach it; the model's `Disposition.raised` is the error as thrown by the task. The `Stdout is undefined` / `Type is not String` branches are also left out: every error thrown inside the task is an `Error` with a string message, so they are unreachable in this model.
- JavaScript numbers are modelled as unbounded integers. Fractional times, NaN (`Math.max` with NaN) and the memory-limit unit are not modelled.
- A problem entry whose `txt` field is absent is not modelled. Inputs and expected outputs are strings; only a missing expected-output entry is modelled.
- Worker.TakePending: assumes `PendingModel.front()` returns the oldest entry and `PendingModel.delete` removes exactly that entry, because that code is not visible. Whether the deletion happens before the judging task starts is not captured.
- The sandbox is modelled as deterministic in the test index and the invocation. Which results are possible is not constrained.
- The wording of the two TypeError messages (`MissingExpectedOutput`, `MissingExpectedLine`) follows one JavaScript engine's format and varies between engine versions. The model relies only on neither being a status string, which is what sends them to the rethrow branch of the catch block.
