/**
 * The closed set of submission states a status record may hold, and the
 * Korean display strings under which the judge persists them and, inside the
 * judging task, throws them as error messages.
 */
module Verdicts {
  import opened Wrappers

  /** One value per entry of the status enumeration, in the schema's order. */
  datatype Verdict =
    | Judging               // 채점 중 (the initial state of every submission)
    | Accepted              // 맞았습니다
    | WrongAnswer           // 틀렸습니다
    | TimeLimitExceeded     // 시간 초과
    | MemoryLimitExceeded   // 메모리 초과
    | RuntimeError          // 런타임 에러
    | OutputFormatError     // 출력 형식이 잘못되었습니다
    | CompileError          // 컴파일 에러
    | ServerError           // 서버 에러

  /** The state a freshly created status record starts in. */
  const Initial: Verdict := Judging

  /** The string stored in the status field (and thrown as an error message). */
  function VerdictText(v: Verdict): string
  {
    match v
    case Judging => "채점 중"
    case Accepted => "맞았습니다"
    case WrongAnswer => "틀렸습니다"
    case TimeLimitExceeded => "시간 초과"
    case MemoryLimitExceeded => "메모리 초과"
    case RuntimeError => "런타임 에러"
    case OutputFormatError => "출력 형식이 잘못되었습니다"
    case CompileError => "컴파일 에러"
    case ServerError => "서버 에러"
  }

  /**
   * Reads a string back as a verdict: the string-matching the judge's catch
   * block does on error messages. Strings outside the enumeration give None.
   */
  function ParseVerdict(s: string): (r: Option<Verdict>)
    ensures r.Some? ==> VerdictText(r.value) == s
    ensures r.None? ==> forall v :: VerdictText(v) != s
  {
    if s == "채점 중" then Some(Judging)
    else if s == "맞았습니다" then Some(Accepted)
    else if s == "틀렸습니다" then Some(WrongAnswer)
    else if s == "시간 초과" then Some(TimeLimitExceeded)
    else if s == "메모리 초과" then Some(MemoryLimitExceeded)
    else if s == "런타임 에러" then Some(RuntimeError)
    else if s == "출력 형식이 잘못되었습니다" then Some(OutputFormatError)
    else if s == "컴파일 에러" then Some(CompileError)
    else if s == "서버 에러" then Some(ServerError)
    else None
  }

  /** Distinct verdicts have distinct texts, so parsing a verdict's text gives it back. */
  lemma VerdictTextRoundTrip(v: Verdict)
    ensures ParseVerdict(VerdictText(v)) == Some(v)
  {
  }

  /** Terminal verdicts: every state except the initial one. */
  predicate IsTerminal(v: Verdict)
  {
    v != Judging
  }
}
