/** `parseErrors`: the compiler's merged output, split into lines, each line
    trimmed and read with the pretty pattern first and the simple one second,
    every match turned into at most one issue.

    `Integer.parseInt` on a digit group that does not fit in an `int` throws;
    nothing in `parseErrors` catches it, so the whole call fails with the
    exception's message and the issues of earlier lines are lost. The model
    returns that as a `Failure`. */
module ErrorParser {
  import opened Wrappers
  import opened Text
  import opened Integers
  import opened Diagnostics
  import opened ResourcePaths
  import opened LinePatterns

  /** The path mapping the parser applies: `toResourcePath` as the code has
      it, or the corrected mapping (see `ResourcePaths`). */
  datatype Mapping = AsWritten | Corrected

  /** The host facts path mapping needs: the canonical source directory, the
      canonical form of each path a diagnostic names (`None` where
      canonicalisation throws), the platform's name separator, and which
      mapping is in force. */
  datatype Host = Host(sourceCanonical: Option<string>, canonical: string -> Option<string>, separator: char,
                       mapping: Mapping)

  /** The resource path of the file a diagnostic names, or `None` when the
      issue is dropped. */
  function Resolved(h: Host, path: string): Option<string> {
    match h.mapping
    case AsWritten => ToResourcePath(h.sourceCanonical, h.canonical(path), h.separator)
    case Corrected => IntendedResourcePath(h.sourceCanonical, h.canonical(path), h.separator)
  }

  /** Both patterns against one trimmed line, the pretty one first: the simple
      pattern is consulted only when the pretty one fails. */
  function MatchLine(t: string): (r: Option<Captures>)
    ensures r.Some? ==> WellFormed(r.value)
    ensures r.None? <==> MatchPretty(t).None? && MatchSimple(t).None?
    ensures MatchPretty(t).Some? ==> r == MatchPretty(t)
    ensures MatchPretty(t).None? ==> r == MatchSimple(t)
  {
    MatchPrettyWellFormed(t);
    MatchWellFormed(Simple, t, 0);
    match MatchPretty(t)
    case Some(c) => Some(c)
    case None => MatchSimple(t)
  }

  /** The issue a match yields: the line number must fit in an `int`, and so
      must the column, which is then discarded; the message is trimmed; an
      unmapped path drops the issue. */
  function IssueOf(c: Captures, h: Host): (r: Result<Option<Issue>, string>)
    requires WellFormed(c)
    ensures r.Failure? <==> DigitsValue(c.line) > IntMax || DigitsValue(c.column) > IntMax
    ensures r.Failure? ==>
      r.error == NumberFormatMessage(if DigitsValue(c.line) > IntMax then c.line else c.column)
    ensures r.Success? ==> (r.value.Some? <==> Resolved(h, c.path).Some?)
    ensures r.Success? && r.value.Some? ==>
      && SeverityWord(r.value.value.severity) == c.severity
      && r.value.value.resourcePath == Resolved(h, c.path).value
      && r.value.value.lineNumber as int == DigitsValue(c.line)
      && r.value.value.message == Trim(c.message)
  {
    var severity := ParseSeverity(c.severity);
    var lineNumber :- ParseInt(c.line);
    var columnNumber :- ParseInt(c.column);
    var message := Trim(c.message);
    match Resolved(h, c.path)
    case None => Success(None)
    case Some(resourcePath) => Success(Some(Issue(severity, resourcePath, lineNumber, message)))
  }

  /** A line that yields nothing: blank once trimmed, or matched by neither
      pattern. */
  predicate Silent(line: string) {
    AllIn(line, Trimmable) || MatchLine(Trim(line)).None?
  }

  /** One line of output. */
  function ParseLine(line: string, h: Host): (r: Result<Option<Issue>, string>)
    ensures Silent(line) ==> r == Success(None)
    ensures !Silent(line) ==> r == IssueOf(MatchLine(Trim(line)).value, h)
  {
    var t := Trim(line);
    if t == [] then Success(None)
    else
      match MatchLine(t)
      case None => Success(None)
      case Some(c) => IssueOf(c, h)
  }

  /** The issues of a line, as a list of zero or one. */
  function Issues(o: Option<Issue>): seq<Issue> {
    match o
    case None => []
    case Some(i) => [i]
  }

  /** The lines in order, stopping at the first that throws; each line adds
      at most one issue. */
  function ParseLines(lines: seq<string>, h: Host): (r: Result<seq<Issue>, string>)
    ensures r.Success? ==> |r.value| <= |lines|
  {
    if |lines| == 0 then Success([])
    else
      var first :- ParseLine(lines[0], h);
      var rest :- ParseLines(lines[1..], h);
      Success(Issues(first) + rest)
  }

  /** `parseErrors(output, sourceDir)`: each piece `String.split` keeps is
      parsed as a line. The call fails exactly when one of those pieces does,
      and gives at most one issue per piece. */
  function ParseErrors(output: string, h: Host): (r: Result<seq<Issue>, string>)
    ensures r.Success? <==>
      forall i :: 0 <= i < |JavaSplit(output, '\n')| ==> ParseLine(JavaSplit(output, '\n')[i], h).Success?
    ensures r.Success? ==> |r.value| <= |JavaSplit(output, '\n')|
  {
    FirstFailureWins(JavaSplit(output, '\n'), h);
    ParseLines(JavaSplit(output, '\n'), h)
  }

  /** Two results in sequence: the first failure wins, otherwise the issues
      are joined in order. */
  function Then(x: Result<seq<Issue>, string>, y: Result<seq<Issue>, string>): Result<seq<Issue>, string> {
    match x
    case Failure(e) => Failure(e)
    case Success(a) =>
      match y
      case Failure(e) => Failure(e)
      case Success(b) => Success(a + b)
  }

  /** One line's result as a list of issues. */
  function LineResult(r: Result<Option<Issue>, string>): Result<seq<Issue>, string> {
    match r
    case Failure(e) => Failure(e)
    case Success(o) => Success(Issues(o))
  }

  /** The first line, then the rest. */
  lemma ParseLinesCons(lines: seq<string>, h: Host)
    requires |lines| > 0
    ensures ParseLines(lines, h) == Then(LineResult(ParseLine(lines[0], h)), ParseLines(lines[1..], h))
  {
  }

  /** The parse fails exactly when some line fails, and then with the message
      of the first line that does. */
  lemma {:induction false} FirstFailureWins(lines: seq<string>, h: Host)
    ensures ParseLines(lines, h).Success? <==> forall i :: 0 <= i < |lines| ==> ParseLine(lines[i], h).Success?
    ensures ParseLines(lines, h).Failure? ==>
      exists i :: 0 <= i < |lines| && ParseLine(lines[i], h) == Failure(ParseLines(lines, h).error) &&
        forall j :: 0 <= j < i ==> ParseLine(lines[j], h).Success?
    decreases |lines|
  {
    if |lines| > 0 {
      var rest := lines[1..];
      FirstFailureWins(rest, h);
      ParseLinesCons(lines, h);
      assert forall i :: 0 < i < |lines| ==> lines[i] == rest[i - 1];
      if ParseLine(lines[0], h).Success? && ParseLines(rest, h).Failure? {
        var k :| 0 <= k < |rest| && ParseLine(rest[k], h) == Failure(ParseLines(rest, h).error) &&
          forall j :: 0 <= j < k ==> ParseLine(rest[j], h).Success?;
        assert lines[k + 1] == rest[k];
      }
    }
  }

  /** A list of one line gives that line's issues. */
  lemma ParseOneLine(line: string, h: Host)
    ensures ParseLines([line], h) == LineResult(ParseLine(line, h))
  {
    ParseLinesCons([line], h);
    assert [line][1..] == [];
    ThenNothing(LineResult(ParseLine(line, h)));
  }

  /** Sequencing is associative. */
  lemma ThenAssoc(x: Result<seq<Issue>, string>, y: Result<seq<Issue>, string>, z: Result<seq<Issue>, string>)
    ensures Then(Then(x, y), z) == Then(x, Then(y, z))
  {
    if x.Success? && y.Success? && z.Success? {
      assert x.value + (y.value + z.value) == (x.value + y.value) + z.value;
    }
  }

  /** Parsing distributes over joining line lists: issues come out in line
      order, and a failing line hides everything after it. */
  lemma {:induction false} ParseLinesAppend(a: seq<string>, b: seq<string>, h: Host)
    ensures ParseLines(a + b, h) == Then(ParseLines(a, h), ParseLines(b, h))
    decreases |a|
  {
    if |a| > 0 {
      assert (a + b)[0] == a[0];
      assert (a + b)[1..] == a[1..] + b;
      ParseLinesCons(a + b, h);
      ParseLinesCons(a, h);
      ParseLinesAppend(a[1..], b, h);
      ThenAssoc(LineResult(ParseLine(a[0], h)), ParseLines(a[1..], h), ParseLines(b, h));
    } else {
      assert a + b == b;
      match ParseLines(b, h)
      case Failure(_) =>
      case Success(y) => assert [] + y == y;
    }
  }

  /** Nothing after a result leaves it as it is. */
  lemma ThenNothing(x: Result<seq<Issue>, string>)
    ensures Then(x, Success([])) == x
  {
    match x
    case Failure(_) =>
    case Success(a) => assert a + [] == a;
  }

  /** A single empty line gives nothing. */
  lemma EmptyLine(h: Host)
    ensures ParseLines([""], h) == Success([])
  {
    assert Silent("");
    assert [""][1..] == [];
  }

  /** Only silent lines give no issues and no failure. */
  lemma {:induction false} SilentLines(lines: seq<string>, h: Host)
    requires forall i :: 0 <= i < |lines| ==> Silent(lines[i])
    ensures ParseLines(lines, h) == Success([])
    decreases |lines|
  {
    if |lines| > 0 {
      SilentLines(lines[1..], h);
    }
  }

  /** A silent line anywhere changes nothing. */
  lemma SilentLineIgnored(a: seq<string>, line: string, b: seq<string>, h: Host)
    requires Silent(line)
    ensures ParseLines(a + [line] + b, h) == ParseLines(a + b, h)
  {
    ParseLinesAppend(a + [line], b, h);
    ParseLinesAppend(a, [line], h);
    ParseLinesAppend(a, b, h);
    assert ParseLines([line], h) == Success([]);
    match ParseLines(a, h)
    case Failure(_) =>
    case Success(x) => assert x + [] == x;
  }

  /** `String.split` drops trailing empty pieces, which are silent lines anyway:
      the output parses the same as with every piece kept. */
  lemma {:induction false} TrailingEmptyIgnored(pieces: seq<string>, h: Host)
    ensures ParseLines(DropTrailingEmpty(pieces), h) == ParseLines(pieces, h)
    decreases |pieces|
  {
    if |pieces| > 0 && pieces[|pieces| - 1] == "" {
      TrailingEmptyIgnored(pieces[..|pieces| - 1], h);
      EmptyLastPiece(pieces, h);
    }
  }

  /** An empty last line adds nothing. */
  lemma EmptyLast(lines: seq<string>, h: Host)
    ensures ParseLines(lines + [""], h) == ParseLines(lines, h)
  {
    ParseLinesAppend(lines, [""], h);
    EmptyLine(h);
    ThenNothing(ParseLines(lines, h));
  }

  /** Lines ending in an empty one parse as the lines before it. */
  lemma EmptyLastPiece(lines: seq<string>, h: Host)
    requires |lines| > 0 && lines[|lines| - 1] == ""
    ensures ParseLines(lines, h) == ParseLines(lines[..|lines| - 1], h)
  {
    assert lines == lines[..|lines| - 1] + [""];
    EmptyLast(lines[..|lines| - 1], h);
  }

  /** Output parses as its plain split on '\n'. */
  lemma ParseErrorsSplit(output: string, h: Host)
    ensures ParseErrors(output, h) == ParseLines(Split(output, '\n'), h)
  {
    if '\n' !in output {
      SplitWithoutSeparator(output, '\n');
    } else {
      TrailingEmptyIgnored(Split(output, '\n'), h);
    }
  }

  /** Empty output gives no issues. */
  lemma EmptyOutput(h: Host)
    ensures ParseErrors("", h) == Success([])
  {
    assert '\n' !in "";
    EmptyLine(h);
  }

  /** Output made only of blank lines and lines neither pattern matches gives no
      issues. */
  lemma SilentOutput(output: string, h: Host)
    requires forall i :: 0 <= i < |Split(output, '\n')| ==> Silent(Split(output, '\n')[i])
    ensures ParseErrors(output, h) == Success([])
  {
    ParseErrorsSplit(output, h);
    SilentLines(Split(output, '\n'), h);
  }
}
