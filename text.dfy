/**
 * The two string primitives the output comparator relies on:
 * String.prototype.split('\n') and String.prototype.trimEnd().
 */
module Text {

  /**
   * The characters trimEnd removes: ECMAScript's WhiteSpace and
   * LineTerminator code points (tab, LF, VT, FF, CR, space, no-break space,
   * the space separators U+1680, U+2000-U+200A, U+202F, U+205F, U+3000,
   * the line and paragraph separators U+2028/U+2029 and the BOM U+FEFF).
   */
  predicate IsWhitespace(c: char)
  {
    || c == '\t' || c == '\n' || c == '\U{000B}' || c == '\U{000C}' || c == '\r'
    || c == ' ' || c == '\U{00A0}' || c == '\U{1680}'
    || ('\U{2000}' <= c <= '\U{200A}')
    || c == '\U{2028}' || c == '\U{2029}' || c == '\U{202F}' || c == '\U{205F}'
    || c == '\U{3000}' || c == '\U{FEFF}'
  }

  /** trimEnd: drops whitespace from the end of s. */
  function TrimEnd(s: string): string
    decreases |s|
  {
    if |s| > 0 && IsWhitespace(s[|s| - 1]) then TrimEnd(s[..|s| - 1]) else s
  }

  /**
   * What trimEnd leaves is the longest prefix of s that does not end in
   * whitespace: what is cut off is whitespace only.
   */
  lemma {:induction false} TrimEndCharacterized(s: string)
    ensures TrimEnd(s) <= s
    ensures TrimEnd(s) == [] || !IsWhitespace(TrimEnd(s)[|TrimEnd(s)| - 1])
    ensures forall k :: |TrimEnd(s)| <= k < |s| ==> IsWhitespace(s[k])
    decreases |s|
  {
    if |s| > 0 && IsWhitespace(s[|s| - 1]) {
      TrimEndCharacterized(s[..|s| - 1]);
    }
  }

  /** A line that trimEnd reduces to the empty string. */
  predicate IsBlank(line: string)
  {
    TrimEnd(line) == []
  }

  /** Appending whitespace to a line does not change what trimEnd leaves of it. */
  lemma {:induction false} TrimEndAppendWhitespace(s: string, c: char)
    requires IsWhitespace(c)
    ensures TrimEnd(s + [c]) == TrimEnd(s)
  {
    assert (s + [c])[..|s|] == s;
  }

  /** Lines joined with '\n' between them: the inverse of Split. */
  function Join(lines: seq<string>): string
    requires |lines| >= 1
    decreases |lines|
  {
    if |lines| == 1 then lines[0]
    else Join(lines[..|lines| - 1]) + "\n" + lines[|lines| - 1]
  }

  /** split('\n'): the pieces of s between newlines; there is always at least one. */
  function Split(s: string): (lines: seq<string>)
    ensures |lines| >= 1
    decreases |s|
  {
    if |s| == 0 then [""]
    else
      var init := Split(s[..|s| - 1]);
      var c := s[|s| - 1];
      if c == '\n' then init + [""]
      else init[..|init| - 1] + [init[|init| - 1] + [c]]
  }

  /** No piece of a split holds a newline. */
  lemma {:induction false} SplitPiecesHaveNoNewline(s: string)
    ensures forall i :: 0 <= i < |Split(s)| ==> '\n' !in Split(s)[i]
    decreases |s|
  {
    if |s| > 0 {
      var init := Split(s[..|s| - 1]);
      SplitPiecesHaveNoNewline(s[..|s| - 1]);
      var c := s[|s| - 1];
      if c != '\n' {
        assert '\n' !in init[|init| - 1] + [c];
      }
    }
  }

  /** Extending the last piece by c extends the joined text by c. */
  lemma JoinExtendLast(lines: seq<string>, c: char)
    requires |lines| >= 1
    ensures Join(lines[..|lines| - 1] + [lines[|lines| - 1] + [c]]) == Join(lines) + [c]
  {
    var n := |lines|;
    var ext := lines[..n - 1] + [lines[n - 1] + [c]];
    if n > 1 {
      assert ext[..n - 1] == lines[..n - 1];
      assert Join(ext) == Join(lines[..n - 1]) + "\n" + (lines[n - 1] + [c]);
    }
  }

  /** Joining the pieces of s with newlines gives s back. */
  lemma {:induction false} JoinSplit(s: string)
    ensures Join(Split(s)) == s
    decreases |s|
  {
    if |s| > 0 {
      var prefix := s[..|s| - 1];
      var init := Split(prefix);
      var c := s[|s| - 1];
      JoinSplit(prefix);
      assert s == prefix + [c];
      if c == '\n' {
        assert Split(s) == init + [""];
        assert (init + [""])[..|init|] == init;
        assert Join(init + [""]) == Join(init) + "\n" + "";
      } else {
        assert Split(s) == init[..|init| - 1] + [init[|init| - 1] + [c]];
        JoinExtendLast(init, c);
      }
    }
  }

  /** A piece without newlines is split into itself. */
  lemma {:induction false} SplitSingleLine(line: string)
    requires '\n' !in line
    ensures Split(line) == [line]
    decreases |line|
  {
    if |line| > 0 {
      SplitSingleLine(line[..|line| - 1]);
      assert line[..|line| - 1] + [line[|line| - 1]] == line;
    }
  }

  /** Splitting text followed by a newline and a newline-free tail adds the tail as a last piece. */
  lemma {:induction false} SplitAfterNewline(prefix: string, tail: string)
    requires '\n' !in tail
    ensures Split(prefix + "\n" + tail) == Split(prefix) + [tail]
    decreases |tail|
  {
    var s := prefix + "\n" + tail;
    if |tail| == 0 {
      assert s[..|s| - 1] == prefix;
    } else {
      var t' := tail[..|tail| - 1];
      SplitAfterNewline(prefix, t');
      assert s[..|s| - 1] == prefix + "\n" + t';
      assert t' + [tail[|tail| - 1]] == tail;
    }
  }

  /** Split undoes Join on newline-free pieces: the two are inverses. */
  lemma {:induction false} SplitJoin(lines: seq<string>)
    requires |lines| >= 1
    requires forall i :: 0 <= i < |lines| ==> '\n' !in lines[i]
    ensures Split(Join(lines)) == lines
    decreases |lines|
  {
    if |lines| == 1 {
      SplitSingleLine(lines[0]);
    } else {
      var init := lines[..|lines| - 1];
      SplitJoin(init);
      SplitAfterNewline(Join(init), lines[|lines| - 1]);
      assert init + [lines[|lines| - 1]] == lines;
    }
  }
}
