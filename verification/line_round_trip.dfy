/** Diagnostic lines as the compiler prints them, and proofs that the two line
    patterns read such a line back into the parts it was printed from: the
    severity word, the whole path (however many ':' it holds), the two digit
    groups and the message. */
module LineRoundTrip {
  import opened Wrappers
  import opened Text
  import opened Diagnostics
  import opened LinePatterns

  /** The optional bracketed code the compiler appends to a message. */
  function CodeText(code: Option<string>): string {
    match code
    case None => ""
    case Some(c) => " [" + c + "]"
  }

  /** A code the `\[(\w+)\]` group accepts. */
  predicate ValidCode(code: Option<string>) {
    code.Some? ==> |code.value| > 0 && AllIn(code.value, Word)
  }

  /** A message the patterns give back unchanged: nonempty, on one line, with
      first and last characters `String.trim` keeps, and without ']'. */
  predicate PlainMessage(msg: string) {
    && |msg| > 0 && AllIn(msg, Dot) && ']' !in msg
    && !In(msg[0], Trimmable) && !In(msg[|msg| - 1], Trimmable)
  }

  /** A digit group as the compiler prints it. */
  predicate DigitText(t: string) {
    |t| > 0 && AllIn(t, Digit)
  }

  /** `:line:column`, the location both formats print after the path. */
  function LocationText(line: string, column: string): string {
    ":" + line + ":" + column
  }

  /** A space, the message and the optional code: how both formats end. */
  function TailText(msg: string, code: Option<string>): string {
    " " + msg + CodeText(code)
  }

  /** `error [path:line:column]: message [code]`. */
  function PrettyLine(v: Severity, path: string, line: string, column: string, msg: string, code: Option<string>): string {
    SeverityWord(v) + " [" + path + LocationText(line, column) + "]:" + TailText(msg, code)
  }

  /** `path:line:column: error: message [code]`. */
  function SimpleLine(v: Severity, path: string, line: string, column: string, msg: string, code: Option<string>): string {
    path + LocationText(line, column) + ": " + SeverityWord(v) + ":" + TailText(msg, code)
  }

  // Index-level descriptions of a printed line.

  /** A message spans `[a, e)`: visible ends, on one line, no ']'. */
  predicate MessageAt(s: string, a: nat, e: nat) {
    && a < e <= |s|
    && (forall j :: a <= j < e ==> In(s[j], Dot) && s[j] != ']')
    && !In(s[a], Space) && !In(s[e - 1], Space)
  }

  /** From index `e` on: nothing, or " [" + a nonempty word + "]". */
  predicate CodeAt(s: string, e: nat) {
    && e <= |s|
    && (e < |s| ==>
      && e + 4 <= |s| && s[e] == ' ' && s[e + 1] == '[' && s[|s| - 1] == ']'
      && forall j :: e + 2 <= j < |s| - 1 ==> In(s[j], Word))
  }

  /** From index `p`: one space, a message spanning `[p + 1, e)`, then a code. */
  predicate TailAt(s: string, p: nat, e: nat) {
    p < |s| && s[p] == ' ' && MessageAt(s, p + 1, e) && CodeAt(s, e)
  }

  /** A code may end a message. */
  lemma CodeEndsMessage(s: string, e: nat)
    requires CodeAt(s, e)
    ensures EndsMessage(s, e)
  {
    if e < |s| {
      RunIs(s, e, Space, 1);
    }
  }

  /** No index inside a message ends it: what follows is not a bare code. */
  lemma MessageNotEnded(s: string, a: nat, e: nat, j: nat)
    requires MessageAt(s, a, e) && CodeAt(s, e) && a <= j < e
    ensures !EndsMessage(s, j)
  {
    var r := RunFrom(s, j, Space);
    RunFromSpec(s, j, Space);
    assert j + r < e;
  }

  /** The tail pattern gives back exactly the printed message. */
  lemma TailRoundTrip(s: string, p: nat, e: nat)
    requires TailAt(s, p, e)
    ensures TailMessage(s, p) == Some((p + 1, e))
  {
    RunIs(s, p, Space, 1);
    var k := p + 1;
    RunCovers(s, k, Dot, e);
    CodeEndsMessage(s, e);
    forall j | k <= j < e ensures !EndsMessage(s, j) {
      MessageNotEnded(s, k, e, j);
    }
    LeastMessageEndIs(s, k, k + RunFrom(s, k, Dot), e);
  }

  /** No "]:" starts anywhere in a tail. */
  lemma NoCloseInTail(s: string, p: nat, e: nat, x: nat)
    requires TailAt(s, p, e) && p <= x
    ensures !LiteralAt(s, x, "]:")
  {
    assert "]:"[0] == ']';
    if x + 2 <= |s| {
      if x == p {
        assert s[x] == ' ';
      } else if x < e {
        assert s[x] != ']';
      } else if x == e {
        assert s[x] == ' ';
      } else if x == e + 1 {
        assert s[x] == '[';
      } else {
        assert In(s[x], Word);
        assert s[x] != ']';
      }
    }
  }

  /** The pretty layout: severity word and " [", a path of `.` characters
      ending at `e0`, the location closed by "]:", then the tail up to `me`. */
  predicate PrettyLayout(s: string, v: Severity, e0: nat, a: nat, b: nat, me: nat) {
    && LiteralAt(s, 0, SeverityWord(v)) && LiteralAt(s, |SeverityWord(v)|, " [")
    && PrettyBody(s, |SeverityWord(v)| + 2, e0, a, b, me)
  }

  /** The pretty layout after " [": from `start`, a path of `.` characters
      ending at `e0`, the location closed by "]:", then the tail up to `me`. */
  predicate PrettyBody(s: string, start: nat, e0: nat, a: nat, b: nat, me: nat) {
    && start < e0
    && IsLocation(s, e0, "]:", a, b)
    && (forall j :: start <= j < e0 ==> In(s[j], Dot))
    && TailAt(s, e0 + 4 + a + b, me)
  }

  /** The rest of the pretty pattern matches after the printed path. */
  lemma PrettyFits(s: string, v: Severity, start: nat, e0: nat, a: nat, b: nat, me: nat)
    requires PrettyBody(s, start, e0, a, b, me)
    ensures AfterPath(Pretty(v), s, e0) == Some(Groups(a, b, Tail(v, e0 + 5 + a + b, me)))
  {
    assert MatchLocation(s, e0, Close(Pretty(v))) == Some(Digits(a, b));
    TailRoundTrip(s, e0 + 4 + a + b, me);
  }

  /** Where no location starts, no path ends. */
  lemma NoLocationNoFit(shape: Shape, s: string, e: nat)
    requires e <= |s| && MatchLocation(s, e, Close(shape)).None?
    ensures !Fits(shape, s, e)
  {
  }

  /** No longer path fits in the pretty layout. */
  lemma PrettyLongest(s: string, v: Severity, start: nat, e0: nat, a: nat, b: nat, me: nat, e: nat)
    requires PrettyBody(s, start, e0, a, b, me) && e0 < e <= |s|
    ensures !Fits(Pretty(v), s, e)
  {
    var p := e0 + 4 + a + b;
    LiteralChar(s, e0 + 2 + a + b, "]:", 0);
    LiteralChar(s, e0 + 2 + a + b, "]:", 1);
    if e == e0 + 1 + a {
      RunIs(s, e + 1, Digit, b);
    } else if e == e0 + 3 + a + b {
      RunIs(s, e + 1, Digit, 0);
    } else if e >= p {
      forall x | p <= x ensures !LiteralAt(s, x, "]:") {
        NoCloseInTail(s, p, me, x);
      }
    } else if e < e0 + 1 + a {
      assert In(s[e], Digit);
    } else if e < e0 + 2 + a + b {
      assert In(s[e], Digit);
    }
    NoLocationNoFit(Pretty(v), s, e);
  }

  /** The printed path is one the pretty pattern can take. */
  lemma PrettyPath(s: string, v: Severity, start: nat, e0: nat, a: nat, b: nat, me: nat)
    requires PrettyBody(s, start, e0, a, b, me)
    ensures PathAt(Pretty(v), s, start, e0)
  {
    PrettyFits(s, v, start, e0, a, b, me);
  }

  /** No path longer than the printed one fits. */
  lemma PrettyNoLonger(s: string, v: Severity, start: nat, e0: nat, a: nat, b: nat, me: nat)
    requires PrettyBody(s, start, e0, a, b, me)
    ensures forall e :: e0 < e <= |s| ==> !Fits(Pretty(v), s, e)
  {
    forall e | e0 < e <= |s| ensures !Fits(Pretty(v), s, e) {
      PrettyLongest(s, v, start, e0, a, b, me, e);
    }
  }

  /** The captures of the printed path and groups are the printed parts. */
  lemma PrettyCaptures(s: string, v: Severity, start: nat, e0: nat, a: nat, b: nat, me: nat)
    requires start <= e0 && e0 + 5 + a + b <= me <= |s|
    ensures CapturesOf(s, start, e0, Groups(a, b, Tail(v, e0 + 5 + a + b, me)))
      == Captures(SeverityWord(v), s[start..e0],
           s[e0 + 1..e0 + 1 + a], s[e0 + 2 + a..e0 + 2 + a + b], s[e0 + 5 + a + b..me])
  {
  }

  /** From the end of " [", the pretty pattern reads the pretty body back into
      its parts, `c`. */
  lemma PrettyBodyMatches(s: string, v: Severity, start: nat, e0: nat, a: nat, b: nat, me: nat, c: Captures)
    requires PrettyBody(s, start, e0, a, b, me)
    requires c == Captures(SeverityWord(v), s[start..e0],
      s[e0 + 1..e0 + 1 + a], s[e0 + 2 + a..e0 + 2 + a + b], s[e0 + 5 + a + b..me])
    ensures MatchFromPath(Pretty(v), s, start) == Some(c)
  {
    PrettyFits(s, v, start, e0, a, b, me);
    PrettyPath(s, v, start, e0, a, b, me);
    PrettyNoLonger(s, v, start, e0, a, b, me);
    GreedyPathIs(Pretty(v), s, start, e0);
    PrettyCaptures(s, v, start, e0, a, b, me);
  }

  /** The pretty pattern reads a line in the pretty layout back into its parts. */
  lemma PrettyLayoutMatches(s: string, v: Severity, e0: nat, a: nat, b: nat, me: nat)
    requires PrettyLayout(s, v, e0, a, b, me)
    ensures MatchPretty(s) == Some(Captures(SeverityWord(v), s[|SeverityWord(v)| + 2..e0],
      s[e0 + 1..e0 + 1 + a], s[e0 + 2 + a..e0 + 2 + a + b], s[e0 + 5 + a + b..me]))
  {
    var start := |SeverityWord(v)| + 2;
    PrettyHeader(s, v);
    PrettyBodyMatches(s, v, start, e0, a, b, me, Captures(SeverityWord(v), s[start..e0],
      s[e0 + 1..e0 + 1 + a], s[e0 + 2 + a..e0 + 2 + a + b], s[e0 + 5 + a + b..me]));
  }

  /** After the severity word and " [", the pretty pattern is the path search. */
  lemma PrettyHeader(s: string, v: Severity)
    requires LiteralAt(s, 0, SeverityWord(v)) && LiteralAt(s, |SeverityWord(v)|, " [")
    ensures MatchPretty(s) == MatchFromPath(Pretty(v), s, |SeverityWord(v)| + 2)
  {
    assert LeadingWord(s, 0) == Some(v);
  }

  /** A printed location followed by `close` is a location whose digit groups
      have the printed lengths. */
  lemma LocationTextAt(s: string, p: nat, line: string, column: string, close: string)
    requires DigitText(line) && DigitText(column)
    requires LiteralAt(s, p, LocationText(line, column))
    requires LiteralAt(s, p + |LocationText(line, column)|, close)
    ensures IsLocation(s, p, close, |line|, |column|)
  {
    LiteralSplit(s, p, ":" + line + ":", column);
    LiteralSplit(s, p, ":" + line, ":");
    LiteralSplit(s, p, ":", line);
    LiteralChar(s, p, ":", 0);
    LiteralChar(s, p + 1 + |line|, ":", 0);
    LiteralAllIn(s, p + 1, line, Digit);
    LiteralAllIn(s, p + 2 + |line|, column, Digit);
  }

  /** A printed code at the end of the line is one the code pattern reads. */
  lemma CodeTextAt(s: string, e: nat, code: Option<string>)
    requires ValidCode(code) && LiteralAt(s, e, CodeText(code)) && e + |CodeText(code)| == |s|
    ensures CodeAt(s, e)
  {
    if code.Some? {
      var c := code.value;
      LiteralSplit(s, e, " [" + c, "]");
      LiteralSplit(s, e, " [", c);
      LiteralChar(s, e, " [", 0);
      LiteralChar(s, e, " [", 1);
      LiteralChar(s, e + 2 + |c|, "]", 0);
      LiteralAllIn(s, e + 2, c, Word);
    }
  }

  /** A printed tail at the end of the line is a tail around the printed message. */
  lemma TailTextAt(s: string, p: nat, msg: string, code: Option<string>)
    requires PlainMessage(msg) && ValidCode(code)
    requires LiteralAt(s, p, TailText(msg, code)) && p + |TailText(msg, code)| == |s|
    ensures TailAt(s, p, p + 1 + |msg|)
  {
    LiteralSplit(s, p, " " + msg, CodeText(code));
    LiteralSplit(s, p, " ", msg);
    LiteralChar(s, p, " ", 0);
    LiteralAllIn(s, p + 1, msg, Dot);
    LiteralAvoids(s, p + 1, msg, ']');
    LiteralChar(s, p + 1, msg, 0);
    LiteralChar(s, p + 1, msg, |msg| - 1);
    SpaceIsTrimmable(msg[0]);
    SpaceIsTrimmable(msg[|msg| - 1]);
    CodeTextAt(s, p + 1 + |msg|, code);
  }

  /** A location printed at index `p`, piece by piece: ':', the line digits,
      ':', the column digits. */
  predicate LocationPiecesAt(s: string, p: nat, line: string, column: string) {
    && LiteralAt(s, p, ":") && LiteralAt(s, p + 1, line)
    && LiteralAt(s, p + 1 + |line|, ":") && LiteralAt(s, p + 2 + |line|, column)
  }

  /** A printed location has its pieces where it prints them. */
  lemma LocationPieces(s: string, p: nat, line: string, column: string)
    requires SliceAt(s, p, LocationText(line, column))
    ensures LocationPiecesAt(s, p, line, column)
  {
    SliceSplit(s, p, ":" + line + ":", column);
    SliceSplit(s, p, ":" + line, ":");
    SliceSplit(s, p, ":", line);
    SliceLiteral(s, p, ":");
    SliceLiteral(s, p + 1, line);
    SliceLiteral(s, p + 1 + |line|, ":");
    SliceLiteral(s, p + 2 + |line|, column);
  }

  /** The pieces of a location followed by `close` are a location whose digit
      groups have the printed lengths. */
  lemma LocationFromPieces(s: string, p: nat, line: string, column: string, close: string)
    requires DigitText(line) && DigitText(column)
    requires LocationPiecesAt(s, p, line, column) && LiteralAt(s, p + 2 + |line| + |column|, close)
    ensures IsLocation(s, p, close, |line|, |column|)
  {
    LiteralChar(s, p, ":", 0);
    LiteralChar(s, p + 1 + |line|, ":", 0);
    LiteralAllIn(s, p + 1, line, Digit);
    LiteralAllIn(s, p + 2 + |line|, column, Digit);
  }

  /** A tail printed at index `p` to the end of the line, piece by piece: a
      space, the message, the code. */
  predicate TailPiecesAt(s: string, p: nat, msg: string, code: Option<string>) {
    && LiteralAt(s, p, " ") && LiteralAt(s, p + 1, msg) && LiteralAt(s, p + 1 + |msg|, CodeText(code))
    && |s| == p + 1 + |msg| + |CodeText(code)|
  }

  /** A printed tail at the end of a line has its pieces where it prints them. */
  lemma TailPieces(s: string, p: nat, msg: string, code: Option<string>)
    requires SliceAt(s, p, TailText(msg, code)) && |s| == p + |TailText(msg, code)|
    ensures TailPiecesAt(s, p, msg, code)
  {
    SliceSplit(s, p, " " + msg, CodeText(code));
    SliceSplit(s, p, " ", msg);
    SliceLiteral(s, p, " ");
    SliceLiteral(s, p + 1, msg);
    SliceLiteral(s, p + 1 + |msg|, CodeText(code));
  }

  /** The pieces of a printed tail are a tail around the printed message. */
  lemma TailFromPieces(s: string, p: nat, msg: string, code: Option<string>)
    requires PlainMessage(msg) && ValidCode(code) && TailPiecesAt(s, p, msg, code)
    ensures TailAt(s, p, p + 1 + |msg|)
  {
    LiteralChar(s, p, " ", 0);
    LiteralAllIn(s, p + 1, msg, Dot);
    LiteralAvoids(s, p + 1, msg, ']');
    LiteralChar(s, p + 1, msg, 0);
    LiteralChar(s, p + 1, msg, |msg| - 1);
    SpaceIsTrimmable(msg[0]);
    SpaceIsTrimmable(msg[|msg| - 1]);
    CodeTextAt(s, p + 1 + |msg|, code);
  }

  /** What the patterns need of the printed parts. */
  predicate PrintableParts(path: string, line: string, column: string, msg: string, code: Option<string>) {
    && |path| > 0 && AllIn(path, Dot)
    && DigitText(line) && DigitText(column) && PlainMessage(msg) && ValidCode(code)
  }

  /** A printed path and location followed by `close`: the path is made of `.`
      characters and the location's digit groups have the printed lengths. */
  lemma PathLocationAt(s: string, start: nat, path: string, ls: string, cs: string, close: string)
    requires |path| > 0 && AllIn(path, Dot) && DigitText(ls) && DigitText(cs)
    requires LiteralAt(s, start, path) && LiteralAt(s, start + |path|, LocationText(ls, cs))
    requires LiteralAt(s, start + |path| + |LocationText(ls, cs)|, close)
    ensures IsLocation(s, start + |path|, close, |ls|, |cs|)
    ensures forall j :: start <= j < start + |path| ==> In(s[j], Dot)
  {
    LocationTextAt(s, start + |path|, ls, cs, close);
    LiteralAllIn(s, start, path, Dot);
  }

  /** The parts of a pretty line, each where the line prints it. Occurrences are
      stated with `LiteralAt`, whose quantifier only wakes up when a part is
      indexed, so that these facts stay quiet next to the line patterns. */
  predicate PrettyPartsAt(s: string, v: Severity, path: string, ls: string, cs: string, msg: string, code: Option<string>) {
    && LiteralAt(s, 0, SeverityWord(v)) && LiteralAt(s, |SeverityWord(v)|, " [")
    && PrettyBodyPartsAt(s, |SeverityWord(v)| + 2, path, ls, cs, msg, code)
  }

  /** The parts of a pretty line after " [", from `start`. */
  predicate PrettyBodyPartsAt(s: string, start: nat, path: string, ls: string, cs: string, msg: string, code: Option<string>) {
    var e0 := start + |path|;
    var q := e0 + |LocationText(ls, cs)|;
    && LiteralAt(s, start, path) && LiteralAt(s, e0, LocationText(ls, cs))
    && LiteralAt(s, q, "]:") && LiteralAt(s, q + 2, TailText(msg, code))
    && |s| == q + 2 + |TailText(msg, code)|
  }

  /** A line made of a word, " [", a path, a location, "]:" and a tail has each
      piece where it was put. */
  lemma PrettyPiecesOf(w: string, path: string, loc: string, tail: string)
    ensures var s := w + " [" + path + loc + "]:" + tail;
      && SliceAt(s, 0, w) && SliceAt(s, |w|, " [") && SliceAt(s, |w| + 2, path)
      && SliceAt(s, |w| + 2 + |path|, loc) && SliceAt(s, |w| + 2 + |path| + |loc|, "]:")
      && SliceAt(s, |w| + 4 + |path| + |loc|, tail)
  {
    var s := w + " [" + path + loc + "]:" + tail;
    assert SliceAt(s, 0, s);
    SliceSplit(s, 0, w + " [" + path + loc + "]:", tail);
    SliceSplit(s, 0, w + " [" + path + loc, "]:");
    SliceSplit(s, 0, w + " [" + path, loc);
    SliceSplit(s, 0, w + " [", path);
    SliceSplit(s, 0, w, " [");
  }

  /** A printed pretty line has its parts where it prints them. */
  lemma PrettyPieces(v: Severity, path: string, ls: string, cs: string, msg: string, code: Option<string>)
    ensures PrettyPartsAt(PrettyLine(v, path, ls, cs, msg, code), v, path, ls, cs, msg, code)
  {
    var w := SeverityWord(v);
    var loc := LocationText(ls, cs);
    var tail := TailText(msg, code);
    var s := PrettyLine(v, path, ls, cs, msg, code);
    PrettyPiecesOf(w, path, loc, tail);
    SliceLiteral(s, 0, w);
    SliceLiteral(s, |w|, " [");
    SliceLiteral(s, |w| + 2, path);
    SliceLiteral(s, |w| + 2 + |path|, loc);
    SliceLiteral(s, |w| + 2 + |path| + |loc|, "]:");
    SliceLiteral(s, |w| + 4 + |path| + |loc|, tail);
  }

  /** The parts after " [" make up the pretty body. Positions are written out
      in full, in the same shape everywhere, so that the facts meet without
      arithmetic. */
  lemma PrettyBodyFromParts(s: string, start: nat, path: string, ls: string, cs: string, msg: string, code: Option<string>)
    requires PrintableParts(path, ls, cs, msg, code) && PrettyBodyPartsAt(s, start, path, ls, cs, msg, code)
    ensures PrettyBody(s, start, start + |path|, |ls|, |cs|, start + |path| + 5 + |ls| + |cs| + |msg|)
  {
    PrettyBodyLocation(s, start, path, ls, cs, msg, code);
    PrettyBodyTail(s, start, path, ls, cs, msg, code);
  }

  /** The path and location of the pretty body. */
  lemma PrettyBodyLocation(s: string, start: nat, path: string, ls: string, cs: string, msg: string, code: Option<string>)
    requires PrintableParts(path, ls, cs, msg, code) && PrettyBodyPartsAt(s, start, path, ls, cs, msg, code)
    ensures IsLocation(s, start + |path|, "]:", |ls|, |cs|)
    ensures forall j :: start <= j < start + |path| ==> In(s[j], Dot)
  {
    PathLocationAt(s, start, path, ls, cs, "]:");
  }

  /** The tail of the pretty body. */
  lemma PrettyBodyTail(s: string, start: nat, path: string, ls: string, cs: string, msg: string, code: Option<string>)
    requires PrintableParts(path, ls, cs, msg, code) && PrettyBodyPartsAt(s, start, path, ls, cs, msg, code)
    ensures TailAt(s, start + |path| + 4 + |ls| + |cs|, start + |path| + 5 + |ls| + |cs| + |msg|)
  {
    assert |LocationText(ls, cs)| == 2 + |ls| + |cs|;
    TailTextAt(s, start + |path| + 4 + |ls| + |cs|, msg, code);
  }

  /** The digit groups of a printed location occur where it prints them. */
  lemma LocationLiterals(s: string, p: nat, line: string, column: string)
    requires LiteralAt(s, p, LocationText(line, column))
    ensures LiteralAt(s, p + 1, line) && LiteralAt(s, p + 2 + |line|, column)
  {
    LiteralSplit(s, p, ":" + line + ":", column);
    LiteralSplit(s, p, ":" + line, ":");
    LiteralSplit(s, p, ":", line);
  }

  /** The message of a printed tail occurs after its space. */
  lemma TailLiteral(s: string, p: nat, msg: string, code: Option<string>)
    requires LiteralAt(s, p, TailText(msg, code))
    ensures LiteralAt(s, p + 1, msg)
  {
    LiteralSplit(s, p, " " + msg, CodeText(code));
    LiteralSplit(s, p, " ", msg);
  }

  /** Each printed part after " [" occurs where the pretty body's positions
      put it. */
  lemma PrettyBodyParts(s: string, start: nat, path: string, ls: string, cs: string, msg: string, code: Option<string>)
    requires PrettyBodyPartsAt(s, start, path, ls, cs, msg, code)
    ensures LiteralAt(s, start, path)
    ensures LiteralAt(s, start + |path| + 1, ls)
    ensures LiteralAt(s, start + |path| + 2 + |ls|, cs)
    ensures LiteralAt(s, start + |path| + 5 + |ls| + |cs|, msg)
  {
    LocationLiterals(s, start + |path|, ls, cs);
    TailLiteral(s, start + |path| + 4 + |ls| + |cs|, msg, code);
  }

  /** The pretty pattern reads the pretty body back into any captures whose
      parts occur at the body's positions. */
  lemma PrettyBodyReads(s: string, v: Severity, start: nat, e0: nat, a: nat, b: nat, me: nat, c: Captures)
    requires PrettyBody(s, start, e0, a, b, me)
    requires c.severity == SeverityWord(v)
    requires start + |c.path| == e0 && LiteralAt(s, start, c.path)
    requires |c.line| == a && LiteralAt(s, e0 + 1, c.line)
    requires |c.column| == b && LiteralAt(s, e0 + 2 + a, c.column)
    requires e0 + 5 + a + b + |c.message| == me && LiteralAt(s, e0 + 5 + a + b, c.message)
    ensures MatchFromPath(Pretty(v), s, start) == Some(c)
  {
    LiteralSlice(s, start, c.path);
    LiteralSlice(s, e0 + 1, c.line);
    LiteralSlice(s, e0 + 2 + a, c.column);
    LiteralSlice(s, e0 + 5 + a + b, c.message);
    PrettyBodyMatches(s, v, start, e0, a, b, me, c);
  }

  /** From the end of " [", the pretty pattern reads the printed parts back. */
  lemma PrettyBodyPartsMatch(s: string, v: Severity, start: nat, path: string, ls: string, cs: string, msg: string, code: Option<string>)
    requires PrintableParts(path, ls, cs, msg, code) && PrettyBodyPartsAt(s, start, path, ls, cs, msg, code)
    ensures MatchFromPath(Pretty(v), s, start) == Some(Captures(SeverityWord(v), path, ls, cs, msg))
  {
    PrettyBodyFromParts(s, start, path, ls, cs, msg, code);
    PrettyBodyParts(s, start, path, ls, cs, msg, code);
    PrettyBodyReads(s, v, start, start + |path|, |ls|, |cs|, start + |path| + 5 + |ls| + |cs| + |msg|,
      Captures(SeverityWord(v), path, ls, cs, msg));
  }

  /** The pretty pattern reads a printed pretty line back into the parts it was
      printed from, whatever the path holds (':' and "]:" included). */
  lemma PrettyRoundTrip(v: Severity, path: string, ls: string, cs: string, msg: string, code: Option<string>)
    requires PrintableParts(path, ls, cs, msg, code)
    ensures MatchPretty(PrettyLine(v, path, ls, cs, msg, code)) == Some(Captures(SeverityWord(v), path, ls, cs, msg))
  {
    var s := PrettyLine(v, path, ls, cs, msg, code);
    PrettyPieces(v, path, ls, cs, msg, code);
    PrettyHeader(s, v);
    PrettyBodyPartsMatch(s, v, |SeverityWord(v)| + 2, path, ls, cs, msg, code);
  }
}
