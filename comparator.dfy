/**
 * The output comparator of the judge: both outputs are split into lines,
 * trailing blank lines are dropped from each side independently, and the
 * remaining lines must agree one by one once trailing whitespace is removed.
 * Leading whitespace is significant.
 */
module Comparator {
  import opened Text
  import opened Wrappers

  /** The outcome of comparing a user's output with the expected output. */
  datatype Comparison =
    | Same            // the outputs are equivalent
    | Differs         // a line count or a line differs (Wrong Answer)
    | ExpectedBlank   // the expected output has no non-blank line: reading the last
                      // line of the emptied array throws a TypeError

  /** The lines left once trailing blank lines are dropped. */
  function StripBlankTail(lines: seq<string>): seq<string>
    decreases |lines|
  {
    if |lines| > 0 && IsBlank(lines[|lines| - 1]) then StripBlankTail(lines[..|lines| - 1])
    else lines
  }

  /**
   * What is kept is a prefix of the lines that is empty or ends in a
   * non-blank line, and every line cut off is blank.
   */
  lemma {:induction false} StripBlankTailCharacterized(lines: seq<string>)
    ensures StripBlankTail(lines) <= lines
    ensures StripBlankTail(lines) == [] || !IsBlank(StripBlankTail(lines)[|StripBlankTail(lines)| - 1])
    ensures forall k :: |StripBlankTail(lines)| <= k < |lines| ==> IsBlank(lines[k])
    decreases |lines|
  {
    if |lines| > 0 && IsBlank(lines[|lines| - 1]) {
      StripBlankTailCharacterized(lines[..|lines| - 1]);
    }
  }

  /** Same number of lines, and each pair equal after trimEnd. */
  predicate LinesMatch(xs: seq<string>, ys: seq<string>)
  {
    |xs| == |ys| && forall j :: 0 <= j < |xs| ==> TrimEnd(xs[j]) == TrimEnd(ys[j])
  }

  /** The comparison the judge performs, stated on the stripped line lists. */
  function Compare(userOutput: string, ansOutput: string): Comparison
  {
    var user := StripBlankTail(Split(userOutput));
    var ans := StripBlankTail(Split(ansOutput));
    if ans == [] then ExpectedBlank
    else if LinesMatch(user, ans) then Same
    else Differs
  }

  /** The user side: pop trailing blank lines while there are lines left. */
  method PopBlankLines(lines: seq<string>) returns (kept: seq<string>)
    ensures kept == StripBlankTail(lines)
  {
    kept := lines;
    while |kept| > 0 && TrimEnd(kept[|kept| - 1]) == ""
      invariant StripBlankTail(kept) == StripBlankTail(lines)
      decreases |kept|
    {
      kept := kept[..|kept| - 1];
    }
  }

  /**
   * The expected side: pop trailing blank lines with no emptiness guard, so
   * that once every line is gone, reading the last line throws (None).
   */
  method PopExpectedBlankLines(lines: seq<string>) returns (kept: Option<seq<string>>)
    ensures kept == if StripBlankTail(lines) == [] then None else Some(StripBlankTail(lines))
  {
    var rest := lines;
    while true
      invariant StripBlankTail(rest) == StripBlankTail(lines)
      decreases |rest|
    {
      if |rest| == 0 {
        return None;
      }
      if TrimEnd(rest[|rest| - 1]) != "" {
        return Some(rest);
      }
      rest := rest[..|rest| - 1];
    }
  }

  /** Equal line counts, then every pair of lines equal after trimEnd, checked in index order. */
  method LinesAgree(xs: seq<string>, ys: seq<string>) returns (agree: bool)
    ensures agree <==> |xs| == |ys| && forall j :: 0 <= j < |xs| ==> TrimEnd(xs[j]) == TrimEnd(ys[j])
  {
    if |xs| != |ys| {
      return false;
    }
    for j := 0 to |xs|
      invariant forall k :: 0 <= k < j ==> TrimEnd(xs[k]) == TrimEnd(ys[k])
    {
      if TrimEnd(xs[j]) != TrimEnd(ys[j]) {
        return false;
      }
    }
    return true;
  }

  /** The comparator as the judge runs it: split both texts, pop, compare. */
  method CompareOutputs(userOutput: string, ansOutput: string) returns (r: Comparison)
    ensures r == Compare(userOutput, ansOutput)
  {
    var userCmp := PopBlankLines(Split(userOutput));
    var ansCmp := PopExpectedBlankLines(Split(ansOutput));
    if ansCmp.None? {
      return ExpectedBlank;
    }
    var agree := LinesAgree(userCmp, ansCmp.value);
    r := if agree then Same else Differs;
  }

  /** Stripping blank tails respects line-by-line equivalence. */
  lemma {:induction false} StripBlankTailMatch(xs: seq<string>, ys: seq<string>)
    requires LinesMatch(xs, ys)
    ensures LinesMatch(StripBlankTail(xs), StripBlankTail(ys))
    decreases |xs|
  {
    if |xs| > 0 {
      var n := |xs|;
      assert TrimEnd(xs[n - 1]) == TrimEnd(ys[n - 1]);
      if IsBlank(xs[n - 1]) {
        StripBlankTailMatch(xs[..n - 1], ys[..n - 1]);
      }
    }
  }

  /** One whitespace character appended to a text changes no stripped line beyond trimEnd. */
  lemma AppendWhitespaceChar(s: string, c: char)
    requires IsWhitespace(c)
    ensures LinesMatch(StripBlankTail(Split(s + [c])), StripBlankTail(Split(s)))
  {
    var t := s + [c];
    assert t[..|t| - 1] == s;
    var init := Split(s);
    if c == '\n' {
      assert Split(t) == init + [""];
      assert (init + [""])[..|init|] == init;
      assert StripBlankTail(init + [""]) == StripBlankTail(init);
    } else {
      var lines := init[..|init| - 1] + [init[|init| - 1] + [c]];
      assert Split(t) == lines;
      TrimEndAppendWhitespace(init[|init| - 1], c);
      assert LinesMatch(lines, init);
      StripBlankTailMatch(lines, init);
    }
  }

  /** Any run of whitespace appended to a text leaves its stripped lines equivalent. */
  lemma {:induction false} AppendWhitespace(s: string, w: string)
    requires forall k :: 0 <= k < |w| ==> IsWhitespace(w[k])
    ensures LinesMatch(StripBlankTail(Split(s + w)), StripBlankTail(Split(s)))
    decreases |w|
  {
    if |w| == 0 {
      assert s + w == s;
    } else {
      var w' := w[..|w| - 1];
      var c := w[|w| - 1];
      AppendWhitespace(s, w');
      assert s + w == (s + w') + [c];
      AppendWhitespaceChar(s + w', c);
    }
  }

  /**
   * The expected side is exhausted by the popping loop exactly when the
   * expected text consists of whitespace only (the empty text included).
   */
  lemma {:induction false} StripsToNothing(s: string)
    ensures StripBlankTail(Split(s)) == [] <==> forall k :: 0 <= k < |s| ==> IsWhitespace(s[k])
    decreases |s|
  {
    if |s| == 0 {
      assert Split(s) == [""];
      assert IsBlank("");
      assert StripBlankTail([""]) == StripBlankTail([""][..0]);
    } else {
      var s' := s[..|s| - 1];
      var c := s[|s| - 1];
      StripsToNothing(s');
      assert s == s' + [c];
      if IsWhitespace(c) {
        AppendWhitespaceChar(s', c);
      } else {
        var init := Split(s');
        var lines := init[..|init| - 1] + [init[|init| - 1] + [c]];
        assert Split(s) == lines;
        assert !IsBlank(lines[|lines| - 1]);
      }
    }
  }

  /** The comparison crashes exactly when the expected output is all whitespace. */
  lemma CompareCrashesOnBlankExpected(userOutput: string, ansOutput: string)
    ensures Compare(userOutput, ansOutput) == ExpectedBlank
        <==> forall k :: 0 <= k < |ansOutput| ==> IsWhitespace(ansOutput[k])
  {
    StripsToNothing(ansOutput);
  }

  /** Trailing whitespace (spaces, tabs, newlines, ...) on the user's side never changes the outcome. */
  lemma UserTrailingWhitespace(userOutput: string, ansOutput: string, w: string)
    requires forall k :: 0 <= k < |w| ==> IsWhitespace(w[k])
    ensures Compare(userOutput + w, ansOutput) == Compare(userOutput, ansOutput)
  {
    AppendWhitespace(userOutput, w);
  }

  /** Trailing whitespace on the expected side never changes the outcome either. */
  lemma ExpectedTrailingWhitespace(userOutput: string, ansOutput: string, w: string)
    requires forall k :: 0 <= k < |w| ==> IsWhitespace(w[k])
    ensures Compare(userOutput, ansOutput + w) == Compare(userOutput, ansOutput)
  {
    AppendWhitespace(ansOutput, w);
  }

  /** An output identical to an expected output with a non-blank line is accepted. */
  lemma CompareReflexive(output: string)
    requires exists k :: 0 <= k < |output| && !IsWhitespace(output[k])
    ensures Compare(output, output) == Same
  {
    StripsToNothing(output);
  }

  /** trimEnd only works at the end: a character put in front of a non-blank line stays. */
  lemma {:induction false} TrimEndPrepend(c: char, line: string)
    requires !IsBlank(line)
    ensures TrimEnd([c] + line) == [c] + TrimEnd(line)
    decreases |line|
  {
    var t := [c] + line;
    if IsWhitespace(line[|line| - 1]) {
      var line' := line[..|line| - 1];
      assert t[..|t| - 1] == [c] + line';
      TrimEndPrepend(c, line');
    }
  }

  /** Leading whitespace is significant: a single-line output with a character put in front differs. */
  lemma LeadingCharacterDiffers(c: char, line: string)
    requires c != '\n' && '\n' !in line
    requires !IsBlank(line)
    ensures Compare([c] + line, line) == Differs
  {
    SplitSingleLine([c] + line);
    SplitSingleLine(line);
    TrimEndPrepend(c, line);
    assert StripBlankTail([[c] + line]) == [[c] + line];
    assert StripBlankTail([line]) == [line];
  }

  /** The expected output "3\n" accepts the user output "3" (no trailing newline). */
  lemma MissingFinalNewlineAccepted()
    ensures Compare("3", "3\n") == Same
  {
    ExpectedTrailingWhitespace("3", "3", "\n");
    assert "3" + "\n" == "3\n";
    CompareReflexive("3");
  }

  /** Extra trailing blank lines in the user output are ignored. */
  lemma ExtraBlankLinesAccepted()
    ensures Compare("3\n4\n\n\n", "3\n4\n") == Same
  {
    assert "3\n4\n" + "\n\n" == "3\n4\n\n\n";
    UserTrailingWhitespace("3\n4\n", "3\n4\n", "\n\n");
    assert !IsWhitespace("3\n4\n"[0]);
    CompareReflexive("3\n4\n");
  }

  /** A leading space makes " ab" a wrong answer against "ab". */
  lemma LeadingSpaceRejected()
    ensures Compare(" ab", "ab") == Differs
  {
    assert " ab" == [' '] + "ab";
    assert TrimEnd("ab") == "ab";
    LeadingCharacterDiffers(' ', "ab");
  }
}
