/** What `parseErrors` makes of one diagnostic line as the compiler prints it,
    in either format: exactly the issue the printed parts describe, with the
    code dropped and the column checked but discarded, or the
    NumberFormatException a digit group too large for an `int` raises. */
module PrintedIssues {
  import opened Wrappers
  import opened Text
  import opened Integers
  import opened Diagnostics
  import opened LinePatterns
  import opened LineRoundTrip
  import opened SimpleRoundTrip
  import opened ErrorParser

  /** The result a printed diagnostic with these parts should give, stated on
      the parts themselves: the line number is read first, then the column;
      an unmapped path drops the issue. */
  function Expected(v: Severity, path: string, ls: string, cs: string, msg: string, h: Host)
    : Result<Option<Issue>, string>
    requires DigitText(ls) && DigitText(cs)
  {
    if DigitsValue(ls) > IntMax then Failure(NumberFormatMessage(ls))
    else if DigitsValue(cs) > IntMax then Failure(NumberFormatMessage(cs))
    else
      match Resolved(h, path)
      case None => Success(None)
      case Some(resourcePath) => Success(Some(Issue(v, resourcePath, DigitsValue(ls), msg)))
  }

  /** The groups of a printed line give the expected result. */
  lemma CapturesIssue(v: Severity, path: string, ls: string, cs: string, msg: string, h: Host)
    requires DigitText(ls) && DigitText(cs) && PlainMessage(msg)
    requires WellFormed(Captures(SeverityWord(v), path, ls, cs, msg))
    ensures IssueOf(Captures(SeverityWord(v), path, ls, cs, msg), h) == Expected(v, path, ls, cs, msg, h)
  {
    TrimKeepsTrimmed(msg);
    ParseSeverityWord(v);
  }

  /** A line that one of the patterns matches, once trimmed, yields the issue
      of that match. */
  lemma ParseLineMatched(line: string, c: Captures, h: Host)
    requires MatchLine(Trim(line)) == Some(c)
    ensures ParseLine(line, h) == IssueOf(c, h)
  {
  }

  /** A printed pretty line is already trimmed: it starts with a letter and
      ends with the message or the code's ']'. */
  lemma PrettyLineTrimmed(v: Severity, path: string, ls: string, cs: string, msg: string, code: Option<string>)
    requires PrintableParts(path, ls, cs, msg, code)
    ensures Trim(PrettyLine(v, path, ls, cs, msg, code)) == PrettyLine(v, path, ls, cs, msg, code)
  {
    var s := PrettyLine(v, path, ls, cs, msg, code);
    WordStartsWithLetter(v);
    assert s[0] == SeverityWord(v)[0];
    if code.None? {
      assert s[|s| - 1] == msg[|msg| - 1];
    }
    TrimKeepsTrimmed(s);
  }

  /** A printed simple line whose path starts with a visible character is
      already trimmed. */
  lemma SimpleLineTrimmed(v: Severity, path: string, ls: string, cs: string, msg: string, code: Option<string>)
    requires PrintableParts(path, ls, cs, msg, code) && !In(path[0], Trimmable)
    ensures Trim(SimpleLine(v, path, ls, cs, msg, code)) == SimpleLine(v, path, ls, cs, msg, code)
  {
    var s := SimpleLine(v, path, ls, cs, msg, code);
    assert s[0] == path[0];
    if code.None? {
      assert s[|s| - 1] == msg[|msg| - 1];
    }
    TrimKeepsTrimmed(s);
  }

  /** The pretty pattern reads a printed pretty line. */
  lemma PrettyLineMatched(v: Severity, path: string, ls: string, cs: string, msg: string, code: Option<string>)
    requires PrintableParts(path, ls, cs, msg, code)
    ensures MatchLine(Trim(PrettyLine(v, path, ls, cs, msg, code))) == Some(Captures(SeverityWord(v), path, ls, cs, msg))
  {
    PrettyLineTrimmed(v, path, ls, cs, msg, code);
    PrettyRoundTrip(v, path, ls, cs, msg, code);
  }

  /** The simple pattern reads a printed simple line, which the pretty pattern
      does not match. */
  lemma SimpleLineMatched(v: Severity, path: string, ls: string, cs: string, msg: string, code: Option<string>)
    requires SimpleParts(path, ls, cs, msg, code) && !In(path[0], Trimmable) && ']' !in path
    ensures MatchLine(Trim(SimpleLine(v, path, ls, cs, msg, code))) == Some(Captures(SeverityWord(v), path, ls, cs, msg))
  {
    SimpleLineTrimmed(v, path, ls, cs, msg, code);
    SimpleLineNotPretty(v, path, ls, cs, msg, code);
    SimpleRoundTrip.SimpleRoundTrip(v, path, ls, cs, msg, code);
  }

  /** A printed pretty line is one line: it holds neither terminator. */
  lemma PrettyLineOneLine(v: Severity, path: string, ls: string, cs: string, msg: string, code: Option<string>)
    requires PrintableParts(path, ls, cs, msg, code)
    ensures '\n' !in PrettyLine(v, path, ls, cs, msg, code) && '\r' !in PrettyLine(v, path, ls, cs, msg, code)
  {
    assert '\n' !in SeverityWord(v) && '\r' !in SeverityWord(v);
    AllInAvoids(path, Dot, '\n');
    AllInAvoids(path, Dot, '\r');
    AllInAvoids(ls, Digit, '\n');
    AllInAvoids(ls, Digit, '\r');
    AllInAvoids(cs, Digit, '\n');
    AllInAvoids(cs, Digit, '\r');
    AllInAvoids(msg, Dot, '\n');
    AllInAvoids(msg, Dot, '\r');
    if code.Some? {
      AllInAvoids(code.value, Word, '\n');
      AllInAvoids(code.value, Word, '\r');
    }
  }

  /** A printed simple line is one line. */
  lemma SimpleLineOneLine(v: Severity, path: string, ls: string, cs: string, msg: string, code: Option<string>)
    requires PrintableParts(path, ls, cs, msg, code)
    ensures '\n' !in SimpleLine(v, path, ls, cs, msg, code) && '\r' !in SimpleLine(v, path, ls, cs, msg, code)
  {
    assert '\n' !in SeverityWord(v) && '\r' !in SeverityWord(v);
    AllInAvoids(path, Dot, '\n');
    AllInAvoids(path, Dot, '\r');
    AllInAvoids(ls, Digit, '\n');
    AllInAvoids(ls, Digit, '\r');
    AllInAvoids(cs, Digit, '\n');
    AllInAvoids(cs, Digit, '\r');
    AllInAvoids(msg, Dot, '\n');
    AllInAvoids(msg, Dot, '\r');
    if code.Some? {
      AllInAvoids(code.value, Word, '\n');
      AllInAvoids(code.value, Word, '\r');
    }
  }

  /** A printed pretty line gives the issue its parts describe. */
  lemma PrettyLineIssue(v: Severity, path: string, ls: string, cs: string, msg: string, code: Option<string>, h: Host)
    requires PrintableParts(path, ls, cs, msg, code)
    ensures ParseLine(PrettyLine(v, path, ls, cs, msg, code), h) == Expected(v, path, ls, cs, msg, h)
  {
    PrettyLineMatched(v, path, ls, cs, msg, code);
    ParseLineMatched(PrettyLine(v, path, ls, cs, msg, code), Captures(SeverityWord(v), path, ls, cs, msg), h);
    CapturesIssue(v, path, ls, cs, msg, h);
  }

  /** A printed simple line gives the issue its parts describe. */
  lemma SimpleLineIssue(v: Severity, path: string, ls: string, cs: string, msg: string, code: Option<string>, h: Host)
    requires SimpleParts(path, ls, cs, msg, code) && !In(path[0], Trimmable) && ']' !in path
    ensures ParseLine(SimpleLine(v, path, ls, cs, msg, code), h) == Expected(v, path, ls, cs, msg, h)
  {
    SimpleLineMatched(v, path, ls, cs, msg, code);
    ParseLineMatched(SimpleLine(v, path, ls, cs, msg, code), Captures(SeverityWord(v), path, ls, cs, msg), h);
    CapturesIssue(v, path, ls, cs, msg, h);
  }

  /** The column is read only to be checked: two printed lines that differ in
      a column that fits in an `int` give the same result. */
  lemma ColumnDiscarded(v: Severity, path: string, ls: string, cs: string, cs': string, msg: string,
                        code: Option<string>, h: Host)
    requires PrintableParts(path, ls, cs, msg, code) && DigitText(cs')
    requires DigitsValue(cs) <= IntMax && DigitsValue(cs') <= IntMax
    ensures ParseLine(PrettyLine(v, path, ls, cs, msg, code), h) == ParseLine(PrettyLine(v, path, ls, cs', msg, code), h)
  {
    PrettyLineIssue(v, path, ls, cs, msg, code, h);
    PrettyLineIssue(v, path, ls, cs', msg, code, h);
  }

  /** The trailing code never reaches the issue. */
  lemma CodeDropped(v: Severity, path: string, ls: string, cs: string, msg: string, code: Option<string>, h: Host)
    requires PrintableParts(path, ls, cs, msg, code)
    ensures ParseLine(PrettyLine(v, path, ls, cs, msg, code), h) == ParseLine(PrettyLine(v, path, ls, cs, msg, None), h)
  {
    PrettyLineIssue(v, path, ls, cs, msg, code, h);
    PrettyLineIssue(v, path, ls, cs, msg, None, h);
  }

  /** Line number 0 ("0", "00", ...) is accepted as it is: nothing checks that
      lines count from 1. */
  lemma LineZeroAccepted(v: Severity, path: string, ls: string, cs: string, msg: string, h: Host)
    requires PrintableParts(path, ls, cs, msg, None) && DigitsValue(ls) == 0 && DigitsValue(cs) <= IntMax
    requires Resolved(h, path).Some?
    ensures ParseLine(PrettyLine(v, path, ls, cs, msg, None), h)
      == Success(Some(Issue(v, Resolved(h, path).value, 0, msg)))
  {
    PrettyLineIssue(v, path, ls, cs, msg, None, h);
  }

  /** A line number too large for an `int` makes the whole parse fail with
      the exception's message: the issues of the lines before it are lost, and
      the lines after it are never read. */
  lemma LineOverflowFails(before: seq<string>, v: Severity, path: string, ls: string, cs: string, msg: string,
                          code: Option<string>, after: seq<string>, h: Host)
    requires PrintableParts(path, ls, cs, msg, code) && DigitsValue(ls) > IntMax
    requires ParseLines(before, h).Success?
    ensures ParseLines(before + [PrettyLine(v, path, ls, cs, msg, code)] + after, h)
      == Failure("For input string: \"" + ls + "\"")
  {
    var line := PrettyLine(v, path, ls, cs, msg, code);
    PrettyLineIssue(v, path, ls, cs, msg, code, h);
    ParseLinesAppend(before + [line], after, h);
    ParseLinesAppend(before, [line], h);
    ParseLinesCons([line], h);
  }
}
