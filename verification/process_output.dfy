/** How the compiler's merged stdout and stderr reach `parseErrors`: read with
    `BufferedReader.readLine`, which ends a line at "\n", "\r" or "\r\n" and
    drops the terminator, and gathered back with a "\n" after every line. */
module ProcessOutput {
  import opened Wrappers
  import opened Text
  import opened ErrorParser

  /** A line as `readLine` returns it: free of both terminators. */
  predicate Bare(line: string) {
    AllIn(line, LineChar)
  }

  /** How many characters end the line whose terminator starts at `n`: two
      for "\r\n", otherwise one. */
  function TerminatorLength(raw: string, n: nat): (k: nat)
    requires n < |raw|
    ensures 1 <= k <= 2 && n + k <= |raw|
  {
    if raw[n] == '\r' && n + 1 < |raw| && raw[n + 1] == '\n' then 2 else 1
  }

  /** Successive `readLine` calls until it returns null: the text up to each
      terminator, and the text after the last one when there is any. */
  function ReadLines(raw: string): (lines: seq<string>)
    ensures forall i :: 0 <= i < |lines| ==> Bare(lines[i])
    ensures raw == [] <==> lines == []
    decreases |raw|
  {
    if raw == [] then []
    else
      var n := RunFrom(raw, 0, LineChar);
      RunFromSpec(raw, 0, LineChar);
      if n == |raw| then [raw]
      else [raw[..n]] + ReadLines(raw[n + TerminatorLength(raw, n)..])
  }

  /** The StringBuilder the reading loop fills: every line followed by "\n". */
  function Collect(lines: seq<string>): (output: string)
    ensures |output| >= |lines|
    ensures output == [] <==> lines == []
    ensures lines != [] ==> output[|output| - 1] == '\n'
  {
    if lines == [] then [] else lines[0] + "\n" + Collect(lines[1..])
  }

  /** Reading gathered lines gives them back: gathering loses nothing. */
  lemma {:induction false} ReadCollected(lines: seq<string>)
    requires forall i :: 0 <= i < |lines| ==> Bare(lines[i])
    ensures ReadLines(Collect(lines)) == lines
    decreases |lines|
  {
    if lines != [] {
      ReadFirst(lines[0], Collect(lines[1..]));
      ReadCollected(lines[1..]);
    }
  }

  /** Reading text that starts with a bare line and "\n" gives that line
      first, then the lines of the rest. */
  lemma ReadFirst(l: string, rest: string)
    requires Bare(l)
    ensures ReadLines(l + "\n" + rest) == [l] + ReadLines(rest)
  {
    var raw := l + "\n" + rest;
    RunIs(raw, 0, LineChar, |l|);
    assert raw[..|l|] == l;
    assert raw[|l| + 1..] == rest;
  }

  /** Gathered lines split on '\n' are the lines and one empty piece after the
      last "\n". */
  lemma {:induction false} SplitCollected(lines: seq<string>)
    requires forall i :: 0 <= i < |lines| ==> '\n' !in lines[i]
    ensures Split(Collect(lines), '\n') == lines + [""]
    decreases |lines|
  {
    if lines != [] {
      var rest := lines[1..];
      var c := Collect(rest);
      assert Collect(lines) == lines[0] + ['\n'] + c;
      forall i | 0 <= i < |rest| ensures '\n' !in rest[i] {
        assert rest[i] == lines[i + 1];
      }
      SplitCollected(rest);
      SplitJoin(lines[0], c, '\n');
      SplitWithoutSeparator(lines[0], '\n');
      assert Split(Collect(lines), '\n') == [lines[0]] + (rest + [""]);
      assert lines == [lines[0]] + rest;
    }
  }

  /** A bare line has no '\n'. */
  lemma BareHasNoNewline(line: string)
    requires Bare(line)
    ensures '\n' !in line
  {
    AllInAvoids(line, LineChar, '\n');
  }

  /** `parseErrors` on the gathered output reads exactly the lines `readLine`
      returned, in order: the trailing "\n" adds nothing. */
  lemma ParseCollected(lines: seq<string>, h: Host)
    requires forall i :: 0 <= i < |lines| ==> Bare(lines[i])
    ensures ParseErrors(Collect(lines), h) == ParseLines(lines, h)
  {
    forall i | 0 <= i < |lines| ensures '\n' !in lines[i] {
      BareHasNoNewline(lines[i]);
    }
    SplitCollected(lines);
    ParseErrorsSplit(Collect(lines), h);
    EmptyLast(lines, h);
  }

  /** The whole path from the compiler's raw output to issues: the lines
      `readLine` finds, parsed in order, whatever terminators the compiler
      used. */
  lemma ParseRawOutput(raw: string, h: Host)
    ensures ParseErrors(Collect(ReadLines(raw)), h) == ParseLines(ReadLines(raw), h)
  {
    ParseCollected(ReadLines(raw), h);
  }

  /** "\r\n" ends a line just as "\n" does, and a last line without a
      terminator is still read. */
  lemma CrLfEndsLine()
    ensures ReadLines("a\r\nb") == ["a", "b"]
  {
    assert RunFrom("a\r\nb", 0, LineChar) == 1;
    assert "a\r\nb"[3..] == "b";
    assert "a\r\nb"[..1] == "a";
    assert RunFrom("b", 0, LineChar) == 1;
  }

  /** A lone "\r" ends a line, and a final terminator starts no further line. */
  lemma CrEndsLine()
    ensures ReadLines("a\rb\n") == ["a", "b"]
  {
    assert RunFrom("a\rb\n", 0, LineChar) == 1;
    assert "a\rb\n"[2..] == "b\n";
    assert "a\rb\n"[..1] == "a";
    assert RunFrom("b\n", 0, LineChar) == 1;
    assert "b\n"[2..] == [];
    assert "b\n"[..1] == "b";
  }

  /** Two terminators in a row give an empty line. */
  lemma EmptyLineRead()
    ensures ReadLines("a\n\nb") == ["a", "", "b"]
  {
    assert RunFrom("a\n\nb", 0, LineChar) == 1;
    assert "a\n\nb"[2..] == "\nb";
    assert "a\n\nb"[..1] == "a";
    assert RunFrom("\nb", 0, LineChar) == 0;
    assert "\nb"[1..] == "b";
    assert "\nb"[..0] == "";
    assert RunFrom("b", 0, LineChar) == 1;
  }
}
