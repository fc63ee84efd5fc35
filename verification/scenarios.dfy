/** The compiler outputs the repository's own test suite feeds to
    `parseErrors`, worked through the model. The suite's source directory is
    "/path/to" and it names "/path/to/test.luax". With the code's path mapping
    that file becomes "//test.luax"; with the corrected one it becomes
    "/test.luax", the resource path the suite expects (see `ResourcePaths`). */
module Scenarios {
  import opened Wrappers
  import opened Text
  import opened Integers
  import opened Diagnostics
  import opened ResourcePaths
  import opened LineRoundTrip
  import opened SimpleRoundTrip
  import opened ErrorParser
  import opened PrintedIssues
  import opened ProcessOutput

  const SourceDir := "/path/to"
  const TestFile := "/path/to/test.luax"
  const MismatchMessage := "Type mismatch expected number found string"
  const UnusedMessage := "Unused variable x"

  /** Paths are their own canonical form and '/' separates names. */
  function TestHost(m: Mapping): Host {
    Host(Some(SourceDir), (p: string) => Some(p), '/', m)
  }

  /** The test file maps to "//test.luax" as the code has it: the rest after
      "/path/to" keeps its leading '/', and another is put in front. The
      corrected mapping gives "/test.luax". */
  lemma TestFileResolves()
    ensures Resolved(TestHost(AsWritten), TestFile) == Some("//test.luax")
    ensures Resolved(TestHost(Corrected), TestFile) == Some("/test.luax")
  {
    assert StartsWith(TestFile, SourceDir);
    var rest := TestFile[|SourceDir|..];
    assert rest == "/test.luax";
    assert Replace("/test.luax", '/', '/') == "/test.luax";
    assert Resolved(TestHost(AsWritten), TestFile) == Some("/" + "/test.luax");
    assert "/" + "/test.luax" == "//test.luax";
    assert !EndsWith(SourceDir, ['/']) by { assert SourceDir[|SourceDir| - 1] == 'o'; }
    assert rest[0] == '/' && rest[1..] == "test.luax";
    assert Replace("test.luax", '/', '/') == "test.luax";
    assert IntendedResourcePath(Some(SourceDir), Some(TestFile), '/') == Some("/" + Replace(rest[1..], '/', '/'));
    assert Resolved(TestHost(Corrected), TestFile) == Some("/" + "test.luax");
    assert "/" + "test.luax" == "/test.luax";
  }

  lemma FifteenEight()
    ensures DigitText("15") && DigitText("8") && DigitsValue("15") == 15 && DigitsValue("8") == 8
  {
    assert "15"[..1] == "1";
    assert "8"[..0] == [];
  }

  lemma TwentyFive()
    ensures DigitText("20") && DigitText("5") && DigitsValue("20") == 20 && DigitsValue("5") == 5
  {
    assert "20"[..1] == "2";
    assert "5"[..0] == [];
  }

  lemma TenOne()
    ensures DigitText("10") && DigitText("1") && DigitsValue("10") == 10 && DigitsValue("1") == 1
  {
    assert "10"[..1] == "1";
    assert "1"[..0] == [];
  }

  lemma FifteenOne()
    ensures DigitText("15") && DigitText("1") && DigitsValue("15") == 15 && DigitsValue("1") == 1
  {
    assert "15"[..1] == "1";
    assert "1"[..0] == [];
  }

  lemma MismatchPrintable()
    ensures PlainMessage(MismatchMessage) && ':' !in MismatchMessage
  {
    MessageVisible(MismatchMessage);
  }

  lemma UnusedPrintable()
    ensures PlainMessage(UnusedMessage) && ':' !in UnusedMessage
  {
    MessageVisible(UnusedMessage);
  }

  predicate Letter(c: char) {
    'A' <= c <= 'Z' || 'a' <= c <= 'z'
  }

  /** A message of letters and spaces with letters at both ends prints plainly,
      in either format. */
  lemma MessageVisible(msg: string)
    requires |msg| > 0 && Letter(msg[0]) && Letter(msg[|msg| - 1])
    requires forall i :: 0 <= i < |msg| ==> msg[i] == ' ' || Letter(msg[i])
    ensures PlainMessage(msg) && ':' !in msg
  {
  }

  lemma TestFilePrintable()
    ensures |TestFile| > 0 && AllIn(TestFile, Dot) && !In(TestFile[0], Trimmable) && ']' !in TestFile
  {
  }

  lemma CodesValid()
    ensures ValidCode(Some("E1001")) && ValidCode(Some("W2001"))
  {
  }

  /** Two lines joined by one '\n' give the first line's issues, then the
      second's. */
  lemma ParseTwoLines(l1: string, l2: string, h: Host)
    requires '\n' !in l1 && '\n' !in l2
    ensures ParseErrors(l1 + "\n" + l2, h) == Then(LineResult(ParseLine(l1, h)), LineResult(ParseLine(l2, h)))
  {
    ParseErrorsSplit(l1 + "\n" + l2, h);
    SplitJoin(l1, l2, '\n');
    SplitWithoutSeparator(l1, '\n');
    SplitWithoutSeparator(l2, '\n');
    ParseLinesAppend([l1], [l2], h);
    ParseOneLine(l1, h);
    ParseOneLine(l2, h);
  }

  const MismatchLine := PrettyLine(Error, TestFile, "15", "8", MismatchMessage, Some("E1001"))
  const UnusedLine := PrettyLine(Warning, TestFile, "20", "5", UnusedMessage, Some("W2001"))

  /** "error [/path/to/test.luax:15:8]: Type mismatch expected number found
      string [E1001]" is an ERROR at line 15 of the file the host resolves
      the test file to. */
  lemma MismatchLineIssue(h: Host, r: string)
    requires Resolved(h, TestFile) == Some(r)
    ensures ParseLine(MismatchLine, h) == Success(Some(Issue(Error, r, 15, MismatchMessage)))
    ensures '\n' !in MismatchLine
  {
    FifteenEight();
    MismatchPrintable();
    TestFilePrintable();
    CodesValid();
    PrettyLineIssue(Error, TestFile, "15", "8", MismatchMessage, Some("E1001"), h);
    PrettyLineOneLine(Error, TestFile, "15", "8", MismatchMessage, Some("E1001"));
  }

  /** "warning [/path/to/test.luax:20:5]: Unused variable x [W2001]" is a
      WARNING at line 20 of the file the host resolves the test file to. */
  lemma UnusedLineIssue(h: Host, r: string)
    requires Resolved(h, TestFile) == Some(r)
    ensures ParseLine(UnusedLine, h) == Success(Some(Issue(Warning, r, 20, UnusedMessage)))
    ensures '\n' !in UnusedLine
  {
    TwentyFive();
    UnusedPrintable();
    TestFilePrintable();
    CodesValid();
    PrettyLineIssue(Warning, TestFile, "20", "5", UnusedMessage, Some("W2001"), h);
    PrettyLineOneLine(Warning, TestFile, "20", "5", UnusedMessage, Some("W2001"));
  }

  /** The pretty-format test's output gives the ERROR and then the WARNING,
      their codes dropped, at whatever resource path the host maps the file
      to. */
  lemma PrettyFormatOutput(h: Host, r: string)
    requires Resolved(h, TestFile) == Some(r)
    ensures ParseErrors(MismatchLine + "\n" + UnusedLine, h)
      == Success([Issue(Error, r, 15, MismatchMessage), Issue(Warning, r, 20, UnusedMessage)])
  {
    MismatchLineIssue(h, r);
    UnusedLineIssue(h, r);
    ParseTwoLines(MismatchLine, UnusedLine, h);
    BothIssues(Issue(Error, r, 15, MismatchMessage), Issue(Warning, r, 20, UnusedMessage));
  }

  /** The pretty-format test: two issues, lines 15 and 20, in order. The code
      reports them at "//test.luax"; the corrected mapping reports them at the
      "/test.luax" the test expects. */
  lemma PrettyFormatTest()
    ensures ParseErrors(MismatchLine + "\n" + UnusedLine, TestHost(AsWritten))
      == Success([Issue(Error, "//test.luax", 15, MismatchMessage), Issue(Warning, "//test.luax", 20, UnusedMessage)])
    ensures ParseErrors(MismatchLine + "\n" + UnusedLine, TestHost(Corrected))
      == Success([Issue(Error, "/test.luax", 15, MismatchMessage), Issue(Warning, "/test.luax", 20, UnusedMessage)])
  {
    TestFileResolves();
    PrettyFormatOutput(TestHost(AsWritten), "//test.luax");
    PrettyFormatOutput(TestHost(Corrected), "/test.luax");
  }

  /** Two lines with one issue each give both, in order. */
  lemma BothIssues(i1: Issue, i2: Issue)
    ensures Then(LineResult(Success(Some(i1))), LineResult(Success(Some(i2)))) == Success([i1, i2])
  {
    assert [i1] + [i2] == [i1, i2];
  }

  const MismatchSimpleLine := SimpleLine(Error, TestFile, "15", "8", MismatchMessage, Some("E1001"))
  const UnusedSimpleLine := SimpleLine(Warning, TestFile, "20", "5", UnusedMessage, Some("W2001"))

  /** "/path/to/test.luax:15:8: error: Type mismatch expected number found
      string [E1001]" is an ERROR at line 15 of the file the host resolves
      the test file to. */
  lemma MismatchSimpleLineIssue(h: Host, r: string)
    requires Resolved(h, TestFile) == Some(r)
    ensures ParseLine(MismatchSimpleLine, h) == Success(Some(Issue(Error, r, 15, MismatchMessage)))
    ensures '\n' !in MismatchSimpleLine
  {
    FifteenEight();
    MismatchPrintable();
    TestFilePrintable();
    CodesValid();
    SimpleLineIssue(Error, TestFile, "15", "8", MismatchMessage, Some("E1001"), h);
    SimpleLineOneLine(Error, TestFile, "15", "8", MismatchMessage, Some("E1001"));
  }

  /** "/path/to/test.luax:20:5: warning: Unused variable x [W2001]" is a
      WARNING at line 20 of the file the host resolves the test file to. */
  lemma UnusedSimpleLineIssue(h: Host, r: string)
    requires Resolved(h, TestFile) == Some(r)
    ensures ParseLine(UnusedSimpleLine, h) == Success(Some(Issue(Warning, r, 20, UnusedMessage)))
    ensures '\n' !in UnusedSimpleLine
  {
    TwentyFive();
    UnusedPrintable();
    TestFilePrintable();
    CodesValid();
    SimpleLineIssue(Warning, TestFile, "20", "5", UnusedMessage, Some("W2001"), h);
    SimpleLineOneLine(Warning, TestFile, "20", "5", UnusedMessage, Some("W2001"));
  }

  /** The simple-format test's output: the same two diagnostics in the other
      format give the same two issues. */
  lemma SimpleFormatOutput(h: Host, r: string)
    requires Resolved(h, TestFile) == Some(r)
    ensures ParseErrors(MismatchSimpleLine + "\n" + UnusedSimpleLine, h)
      == Success([Issue(Error, r, 15, MismatchMessage), Issue(Warning, r, 20, UnusedMessage)])
  {
    MismatchSimpleLineIssue(h, r);
    UnusedSimpleLineIssue(h, r);
    ParseTwoLines(MismatchSimpleLine, UnusedSimpleLine, h);
    BothIssues(Issue(Error, r, 15, MismatchMessage), Issue(Warning, r, 20, UnusedMessage));
  }

  /** The simple-format test, as the code has it and with the corrected
      mapping. */
  lemma SimpleFormatTest()
    ensures ParseErrors(MismatchSimpleLine + "\n" + UnusedSimpleLine, TestHost(AsWritten))
      == Success([Issue(Error, "//test.luax", 15, MismatchMessage), Issue(Warning, "//test.luax", 20, UnusedMessage)])
    ensures ParseErrors(MismatchSimpleLine + "\n" + UnusedSimpleLine, TestHost(Corrected))
      == Success([Issue(Error, "/test.luax", 15, MismatchMessage), Issue(Warning, "/test.luax", 20, UnusedMessage)])
  {
    TestFileResolves();
    SimpleFormatOutput(TestHost(AsWritten), "//test.luax");
    SimpleFormatOutput(TestHost(Corrected), "/test.luax");
  }

  /** The empty-output test. */
  lemma EmptyOutputTest(m: Mapping)
    ensures ParseErrors("", Host(Some("/tmp"), (p: string) => Some(p), '/', m)) == Success([])
  {
    EmptyOutput(Host(Some("/tmp"), (p: string) => Some(p), '/', m));
  }

  /** An empty line in front of a list of lines adds nothing. */
  lemma BlankFirst(rest: seq<string>, h: Host)
    ensures ParseLines([""] + rest, h) == ParseLines(rest, h)
  {
    ParseLinesAppend([""], rest, h);
    EmptyLine(h);
    match ParseLines(rest, h)
    case Failure(_) =>
    case Success(x) => assert [] + x == x;
  }

  /** Two lines with two empty lines between them and a "\n" after the last
      give the first line's issues, then the second's: the blank lines and the
      final terminator add nothing. */
  lemma BlankLinesBetween(l1: string, l2: string, h: Host)
    requires '\n' !in l1 && '\n' !in l2
    ensures ParseErrors(l1 + "\n\n\n" + l2 + "\n", h) == Then(LineResult(ParseLine(l1, h)), LineResult(ParseLine(l2, h)))
  {
    var t := l2 + "\n" + "";
    var u := "" + "\n" + t;
    var w := "" + "\n" + u;
    var s := l1 + "\n" + w;
    assert s == l1 + "\n\n\n" + l2 + "\n";
    assert '\n' !in "";
    SplitWithoutSeparator(l1, '\n');
    SplitWithoutSeparator(l2, '\n');
    SplitWithoutSeparator("", '\n');
    SplitJoin(l2, "", '\n');
    SplitJoin("", t, '\n');
    SplitJoin("", u, '\n');
    SplitJoin(l1, w, '\n');
    var p4 := [l2] + [""];
    var p2 := [""] + ([""] + p4);
    assert Split(s, '\n') == [l1] + p2;
    ParseErrorsSplit(s, h);
    ParseLinesAppend([l2], [""], h);
    ParseOneLine(l2, h);
    EmptyLine(h);
    ThenNothing(LineResult(ParseLine(l2, h)));
    BlankFirst(p4, h);
    BlankFirst([""] + p4, h);
    ParseLinesAppend([l1], p2, h);
    ParseOneLine(l1, h);
  }

  const SomeErrorLine := PrettyLine(Error, TestFile, "10", "1", "Some error", None)
  const AnotherWarningLine := PrettyLine(Warning, TestFile, "15", "1", "Another warning", None)

  /** "error [/path/to/test.luax:10:1]: Some error" is an ERROR at line 10. */
  lemma SomeErrorLineIssue(h: Host, r: string)
    requires Resolved(h, TestFile) == Some(r)
    ensures ParseLine(SomeErrorLine, h) == Success(Some(Issue(Error, r, 10, "Some error")))
    ensures '\n' !in SomeErrorLine
  {
    TenOne();
    MessageVisible("Some error");
    TestFilePrintable();
    PrettyLineIssue(Error, TestFile, "10", "1", "Some error", None, h);
    PrettyLineOneLine(Error, TestFile, "10", "1", "Some error", None);
  }

  /** "warning [/path/to/test.luax:15:1]: Another warning" is a WARNING at
      line 15. */
  lemma AnotherWarningLineIssue(h: Host, r: string)
    requires Resolved(h, TestFile) == Some(r)
    ensures ParseLine(AnotherWarningLine, h) == Success(Some(Issue(Warning, r, 15, "Another warning")))
    ensures '\n' !in AnotherWarningLine
  {
    FifteenOne();
    MessageVisible("Another warning");
    TestFilePrintable();
    PrettyLineIssue(Warning, TestFile, "15", "1", "Another warning", None, h);
    PrettyLineOneLine(Warning, TestFile, "15", "1", "Another warning", None);
  }

  /** The empty-lines test: the two diagnostics with two empty lines between
      them give exactly two issues, under either mapping. */
  lemma IgnoresEmptyLinesTest(m: Mapping)
    ensures var r := if m == AsWritten then "//test.luax" else "/test.luax";
      ParseErrors(SomeErrorLine + "\n\n\n" + AnotherWarningLine + "\n", TestHost(m))
      == Success([Issue(Error, r, 10, "Some error"), Issue(Warning, r, 15, "Another warning")])
  {
    var r := if m == AsWritten then "//test.luax" else "/test.luax";
    TestFileResolves();
    SomeErrorLineIssue(TestHost(m), r);
    AnotherWarningLineIssue(TestHost(m), r);
    BlankLinesBetween(SomeErrorLine, AnotherWarningLine, TestHost(m));
    BothIssues(Issue(Error, r, 10, "Some error"), Issue(Warning, r, 15, "Another warning"));
  }
}
