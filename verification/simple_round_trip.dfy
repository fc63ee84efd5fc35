/** Proofs that the simple pattern reads a printed simple line back into its
    parts, and that the pretty pattern does not read it at all. The greedy path
    group would run on into a message holding a location of its own, so the
    message here is free of ':'. */
module SimpleRoundTrip {
  import opened Wrappers
  import opened Text
  import opened Diagnostics
  import opened LinePatterns
  import opened LineRoundTrip

  /** A severity word starts with a lower-case letter. */
  lemma WordStartsWithLetter(v: Severity)
    ensures |SeverityWord(v)| > 0 && 'a' <= SeverityWord(v)[0] <= 'z'
  {
  }

  /** A severity word holds neither ':' nor ']'. */
  lemma WordAvoids(v: Severity)
    ensures ':' !in SeverityWord(v) && ']' !in SeverityWord(v)
  {
  }

  /** From index `p`: a space, the word for `v`, then ':'. */
  predicate SeverityAt(s: string, p: nat, v: Severity) {
    LiteralAt(s, p, " ") && LiteralAt(s, p + 1, SeverityWord(v)) && LiteralAt(s, p + 1 + |SeverityWord(v)|, ":")
  }

  /** `\s*(error|warning|info):` takes the one space and the printed word. */
  lemma SeverityAtColon(s: string, p: nat, v: Severity)
    requires SeverityAt(s, p, v)
    ensures SeverityColon(s, p) == Some((v, p + 2 + |SeverityWord(v)|))
  {
    WordStartsWithLetter(v);
    LiteralChar(s, p, " ", 0);
    LiteralChar(s, p + 1, SeverityWord(v), 0);
    RunIs(s, p, Space, 1);
    assert LeadingWord(s, p + 1) == Some(v);
    assert LiteralAt(s, p + 1 + |SeverityWord(v)|, ":");
  }

  /** No ':' from index `p` on. */
  predicate NoColonFrom(s: string, p: nat) {
    forall j :: p <= j < |s| ==> s[j] != ':'
  }

  /** The simple layout after the path, which ends at `e0`: the location closed
      by ':', a space, the severity word and ':', then the tail up to `me`, with
      no ':' from the tail on. */
  predicate SimpleBody(s: string, v: Severity, e0: nat, a: nat, b: nat, me: nat) {
    && 0 < e0
    && IsLocation(s, e0, ":", a, b)
    && (forall j :: 0 <= j < e0 ==> In(s[j], Dot))
    && SeverityAt(s, e0 + 3 + a + b, v)
    && TailAt(s, e0 + 3 + a + b + 2 + |SeverityWord(v)|, me)
    && NoColonFrom(s, e0 + 3 + a + b + 2 + |SeverityWord(v)|)
  }

  /** After a location, the simple pattern reads the printed severity word and
      tail. */
  lemma SimpleAfterLocation(s: string, v: Severity, p: nat, me: nat)
    requires SeverityAt(s, p, v) && TailAt(s, p + 2 + |SeverityWord(v)|, me)
    ensures AfterLocation(Simple, s, p) == Some(Tail(v, p + 2 + |SeverityWord(v)| + 1, me))
  {
    SeverityAtColon(s, p, v);
    TailRoundTrip(s, p + 2 + |SeverityWord(v)|, me);
  }

  /** The rest of the simple pattern matches after the printed path. */
  lemma SimpleFits(s: string, v: Severity, e0: nat, a: nat, b: nat, me: nat)
    requires IsLocation(s, e0, ":", a, b) && SeverityAt(s, e0 + 3 + a + b, v)
    requires TailAt(s, e0 + 3 + a + b + 2 + |SeverityWord(v)|, me)
    ensures AfterPath(Simple, s, e0)
      == Some(Groups(a, b, Tail(v, e0 + 3 + a + b + 2 + |SeverityWord(v)| + 1, me)))
  {
    var q := e0 + 3 + a + b;
    SimpleAfterLocation(s, v, q, me);
    SimpleLocationMatches(s, e0, a, b);
    AfterPathOf(Simple, s, e0, a, b, q, Tail(v, q + 2 + |SeverityWord(v)| + 1, me));
  }

  /** The simple pattern's location groups read a printed location. */
  lemma SimpleLocationMatches(s: string, e0: nat, a: nat, b: nat)
    requires IsLocation(s, e0, ":", a, b)
    ensures MatchLocation(s, e0, Close(Simple)) == Some(Digits(a, b))
    ensures e0 + 2 + a + b + |Close(Simple)| == e0 + 3 + a + b
  {
    assert Close(Simple) == ":";
  }

  /** No location starts inside a printed location closed by ':' and followed
      by a space: each ':' there is followed by too few digit groups. */
  lemma LocationNoLonger(s: string, e0: nat, a: nat, b: nat, e: nat)
    requires IsLocation(s, e0, ":", a, b) && LiteralAt(s, e0 + 3 + a + b, " ")
    requires e0 < e <= e0 + 2 + a + b
    ensures !Fits(Simple, s, e)
  {
    LiteralChar(s, e0 + 2 + a + b, ":", 0);
    LiteralChar(s, e0 + 3 + a + b, " ", 0);
    if e < e0 + 1 + a {
      assert In(s[e], Digit);
    } else if e == e0 + 1 + a {
      RunIs(s, e + 1, Digit, b);
      RunIs(s, e0 + 3 + a + b, Digit, 0);
    } else if e < e0 + 2 + a + b {
      assert In(s[e], Digit);
    } else {
      RunIs(s, e0 + 3 + a + b, Digit, 0);
    }
    NoLocationNoFit(Simple, s, e);
  }

  /** No location starts inside " word:" when a space follows it. */
  lemma SeverityNoLonger(s: string, p: nat, v: Severity, e: nat)
    requires SeverityAt(s, p, v) && LiteralAt(s, p + 2 + |SeverityWord(v)|, " ")
    requires p <= e < p + 2 + |SeverityWord(v)|
    ensures !Fits(Simple, s, e)
  {
    LiteralChar(s, p, " ", 0);
    if e < p + 1 + |SeverityWord(v)| && p < e {
      WordAvoids(v);
      LiteralAvoids(s, p + 1, SeverityWord(v), ':');
    } else if e == p + 1 + |SeverityWord(v)| {
      LiteralChar(s, p + 2 + |SeverityWord(v)|, " ", 0);
      RunIs(s, e + 1, Digit, 0);
    }
    NoLocationNoFit(Simple, s, e);
  }

  /** No path longer than the printed one fits: after it, every ':' is followed
      by too few digit groups, and the tail holds no ':' at all. */
  lemma SimpleLongest(s: string, v: Severity, e0: nat, a: nat, b: nat, me: nat, e: nat)
    requires SimpleBody(s, v, e0, a, b, me) && e0 < e <= |s|
    ensures !Fits(Simple, s, e)
  {
    if e <= e0 + 2 + a + b {
      LocationNoLonger(s, e0, a, b, e);
    } else if e < e0 + 3 + a + b + 2 + |SeverityWord(v)| {
      LiteralChar(s, e0 + 3 + a + b + 2 + |SeverityWord(v)|, " ", 0);
      SeverityNoLonger(s, e0 + 3 + a + b, v, e);
    } else {
      NoLocationNoFit(Simple, s, e);
    }
  }

  /** The printed path is one the simple pattern can take, and no longer one. */
  lemma SimplePath(s: string, v: Severity, e0: nat, a: nat, b: nat, me: nat)
    requires SimpleBody(s, v, e0, a, b, me)
    ensures PathAt(Simple, s, 0, e0)
    ensures forall e :: e0 < e <= |s| ==> !Fits(Simple, s, e)
  {
    SimpleFits(s, v, e0, a, b, me);
    forall e | e0 < e <= |s| ensures !Fits(Simple, s, e) {
      SimpleLongest(s, v, e0, a, b, me, e);
    }
  }

  /** The captures of the printed path and groups are the printed parts. */
  lemma SimpleCaptures(s: string, v: Severity, e0: nat, a: nat, b: nat, me: nat)
    requires e0 + 3 + a + b + 2 + |SeverityWord(v)| + 1 <= me <= |s|
    ensures CapturesOf(s, 0, e0, Groups(a, b, Tail(v, e0 + 3 + a + b + 2 + |SeverityWord(v)| + 1, me)))
      == Captures(SeverityWord(v), s[0..e0], s[e0 + 1..e0 + 1 + a], s[e0 + 2 + a..e0 + 2 + a + b],
           s[e0 + 3 + a + b + 2 + |SeverityWord(v)| + 1..me])
  {
  }

  /** The simple pattern reads the simple layout back into its parts, `c`. */
  lemma SimpleBodyMatches(s: string, v: Severity, e0: nat, a: nat, b: nat, me: nat, c: Captures)
    requires SimpleBody(s, v, e0, a, b, me)
    requires c == Captures(SeverityWord(v), s[0..e0], s[e0 + 1..e0 + 1 + a], s[e0 + 2 + a..e0 + 2 + a + b],
      s[e0 + 3 + a + b + 2 + |SeverityWord(v)| + 1..me])
    ensures MatchFromPath(Simple, s, 0) == Some(c)
  {
    SimpleFits(s, v, e0, a, b, me);
    SimplePath(s, v, e0, a, b, me);
    GreedyPathIs(Simple, s, 0, e0);
    SimpleCaptures(s, v, e0, a, b, me);
  }

  /** The simple pattern reads the simple layout back into any captures whose
      parts occur at the layout's positions. */
  lemma SimpleBodyReads(s: string, v: Severity, e0: nat, a: nat, b: nat, me: nat, c: Captures)
    requires SimpleBody(s, v, e0, a, b, me)
    requires c.severity == SeverityWord(v)
    requires |c.path| == e0 && LiteralAt(s, 0, c.path)
    requires |c.line| == a && LiteralAt(s, e0 + 1, c.line)
    requires |c.column| == b && LiteralAt(s, e0 + 2 + a, c.column)
    requires e0 + 3 + a + b + 2 + |SeverityWord(v)| + 1 + |c.message| == me
    requires LiteralAt(s, e0 + 3 + a + b + 2 + |SeverityWord(v)| + 1, c.message)
    ensures MatchSimple(s) == Some(c)
  {
    LiteralSlice(s, 0, c.path);
    LiteralSlice(s, e0 + 1, c.line);
    LiteralSlice(s, e0 + 2 + a, c.column);
    LiteralSlice(s, e0 + 3 + a + b + 2 + |SeverityWord(v)| + 1, c.message);
    SimpleBodyMatches(s, v, e0, a, b, me, c);
  }

  /** What the simple round trip needs of the printed parts. */
  predicate SimpleParts(path: string, line: string, column: string, msg: string, code: Option<string>) {
    PrintableParts(path, line, column, msg, code) && ':' !in msg
  }

  /** A line made of a path, a location, ": ", a word, ':' and a tail has each
      piece where it was put. */
  lemma SimplePiecesOf(path: string, loc: string, w: string, tail: string)
    ensures var s := path + loc + ": " + w + ":" + tail;
      && SliceAt(s, 0, path) && SliceAt(s, |path|, loc)
      && SliceAt(s, |path| + |loc|, ":") && SliceAt(s, |path| + |loc| + 1, " ")
      && SliceAt(s, |path| + |loc| + 2, w) && SliceAt(s, |path| + |loc| + 2 + |w|, ":")
      && SliceAt(s, |path| + |loc| + 3 + |w|, tail)
  {
    var s := path + loc + ": " + w + ":" + tail;
    assert SliceAt(s, 0, s);
    SliceSplit(s, 0, path + loc + ": " + w + ":", tail);
    SliceSplit(s, 0, path + loc + ": " + w, ":");
    SliceSplit(s, 0, path + loc + ": ", w);
    SliceSplit(s, 0, path + loc, ": ");
    SliceSplit(s, 0, path, loc);
    assert ": " == ":" + " ";
    SliceSplit(s, |path| + |loc|, ":", " ");
  }

  /** The path and location of a printed simple line are where it prints them. */
  lemma SimpleFrontPieces(v: Severity, path: string, ls: string, cs: string, msg: string, code: Option<string>)
    ensures var s := SimpleLine(v, path, ls, cs, msg, code);
      LiteralAt(s, 0, path) && LocationPiecesAt(s, |path|, ls, cs) && LiteralAt(s, |path| + 2 + |ls| + |cs|, ":")
  {
    var s := SimpleLine(v, path, ls, cs, msg, code);
    var loc := LocationText(ls, cs);
    SimplePiecesOf(path, loc, SeverityWord(v), TailText(msg, code));
    SliceLiteral(s, 0, path);
    LocationPieces(s, |path|, ls, cs);
    SliceLiteral(s, |path| + |loc|, ":");
  }

  /** The severity word of a printed simple line is where it prints it. */
  lemma SimpleSeverityPieces(v: Severity, path: string, ls: string, cs: string, msg: string, code: Option<string>)
    ensures SeverityAt(SimpleLine(v, path, ls, cs, msg, code), |path| + 3 + |ls| + |cs|, v)
  {
    var s := SimpleLine(v, path, ls, cs, msg, code);
    var w := SeverityWord(v);
    var loc := LocationText(ls, cs);
    SimplePiecesOf(path, loc, w, TailText(msg, code));
    SliceLiteral(s, |path| + |loc| + 1, " ");
    SliceLiteral(s, |path| + |loc| + 2, w);
    SliceLiteral(s, |path| + |loc| + 2 + |w|, ":");
  }

  /** The tail of a printed simple line is where it prints it. */
  lemma SimpleTailPieces(v: Severity, path: string, ls: string, cs: string, msg: string, code: Option<string>)
    ensures TailPiecesAt(SimpleLine(v, path, ls, cs, msg, code), |path| + 3 + |ls| + |cs| + 2 + |SeverityWord(v)|, msg, code)
  {
    SimpleTailText(v, path, ls, cs, msg, code);
    TailPieces(SimpleLine(v, path, ls, cs, msg, code), |path| + 3 + |ls| + |cs| + 2 + |SeverityWord(v)|, msg, code);
  }

  /** A printed simple line ends with its tail text. */
  lemma SimpleTailText(v: Severity, path: string, ls: string, cs: string, msg: string, code: Option<string>)
    ensures var s := SimpleLine(v, path, ls, cs, msg, code);
      var p := |path| + 3 + |ls| + |cs| + 2 + |SeverityWord(v)|;
      SliceAt(s, p, TailText(msg, code)) && |s| == p + |TailText(msg, code)|
  {
    var x := path + LocationText(ls, cs) + ": " + SeverityWord(v) + ":";
    var t := TailText(msg, code);
    assert SimpleLine(v, path, ls, cs, msg, code) == x + t;
    assert |x| == |path| + 3 + |ls| + |cs| + 2 + |SeverityWord(v)|;
    assert (x + t)[|x|..|x| + |t|] == t;
  }

  /** A code holds no ':'. */
  lemma CodeWithoutColon(code: Option<string>)
    requires ValidCode(code)
    ensures ':' !in CodeText(code)
  {
    if code.Some? {
      assert forall i :: 0 <= i < |code.value| ==> In(code.value[i], Word);
      assert CodeText(code) == " [" + code.value + "]";
    }
  }

  /** The pieces of a tail printed from a message without ':' hold no ':'. */
  lemma TailWithoutColon(s: string, p: nat, msg: string, code: Option<string>)
    requires ValidCode(code) && ':' !in msg && TailPiecesAt(s, p, msg, code)
    ensures NoColonFrom(s, p)
  {
    LiteralChar(s, p, " ", 0);
    LiteralAvoids(s, p + 1, msg, ':');
    CodeWithoutColon(code);
    LiteralAvoids(s, p + 1 + |msg|, CodeText(code), ':');
  }

  /** A printed simple line has its location right after its path. */
  lemma SimpleLocationPart(v: Severity, path: string, ls: string, cs: string, msg: string, code: Option<string>)
    requires DigitText(ls) && DigitText(cs)
    ensures IsLocation(SimpleLine(v, path, ls, cs, msg, code), |path|, ":", |ls|, |cs|)
  {
    SimpleFrontPieces(v, path, ls, cs, msg, code);
    LocationFromPieces(SimpleLine(v, path, ls, cs, msg, code), |path|, ls, cs, ":");
  }

  /** A printed simple line starts with its path. */
  lemma SimplePathPart(v: Severity, path: string, ls: string, cs: string, msg: string, code: Option<string>)
    requires AllIn(path, Dot)
    ensures var s := SimpleLine(v, path, ls, cs, msg, code);
      forall j :: 0 <= j < |path| ==> In(s[j], Dot)
  {
    SimpleFrontPieces(v, path, ls, cs, msg, code);
    LiteralAllIn(SimpleLine(v, path, ls, cs, msg, code), 0, path, Dot);
  }

  /** A printed simple line ends with a tail around its message. */
  lemma SimpleTailPart(v: Severity, path: string, ls: string, cs: string, msg: string, code: Option<string>)
    requires PlainMessage(msg) && ValidCode(code)
    ensures var p := |path| + 3 + |ls| + |cs| + 2 + |SeverityWord(v)|;
      TailAt(SimpleLine(v, path, ls, cs, msg, code), p, p + 1 + |msg|)
  {
    SimpleTailPieces(v, path, ls, cs, msg, code);
    TailFromPieces(SimpleLine(v, path, ls, cs, msg, code), |path| + 3 + |ls| + |cs| + 2 + |SeverityWord(v)|, msg, code);
  }

  /** The tail of a printed simple line holds no ':' when its message holds
      none. */
  lemma SimpleNoColonPart(v: Severity, path: string, ls: string, cs: string, msg: string, code: Option<string>)
    requires ValidCode(code) && ':' !in msg
    ensures NoColonFrom(SimpleLine(v, path, ls, cs, msg, code), |path| + 3 + |ls| + |cs| + 2 + |SeverityWord(v)|)
  {
    SimpleTailPieces(v, path, ls, cs, msg, code);
    TailWithoutColon(SimpleLine(v, path, ls, cs, msg, code), |path| + 3 + |ls| + |cs| + 2 + |SeverityWord(v)|, msg, code);
  }

  /** A simple line printed from parts the patterns accept has the simple
      layout. Each piece comes from a lemma of its own, which keeps every proof
      obligation small. */
  lemma SimpleBodyParts(v: Severity, path: string, ls: string, cs: string, msg: string, code: Option<string>)
    requires SimpleParts(path, ls, cs, msg, code)
    ensures SimpleBody(SimpleLine(v, path, ls, cs, msg, code), v, |path|, |ls|, |cs|,
      |path| + 3 + |ls| + |cs| + 2 + |SeverityWord(v)| + 1 + |msg|)
  {
    SimpleLocationPart(v, path, ls, cs, msg, code);
    SimplePathPart(v, path, ls, cs, msg, code);
    SimpleSeverityPieces(v, path, ls, cs, msg, code);
    SimpleTailPart(v, path, ls, cs, msg, code);
    SimpleNoColonPart(v, path, ls, cs, msg, code);
  }

  /** The path, the digit groups and the message of a printed simple line are
      where it prints them. */
  lemma SimpleTexts(v: Severity, path: string, ls: string, cs: string, msg: string, code: Option<string>)
    ensures var s := SimpleLine(v, path, ls, cs, msg, code);
      && LiteralAt(s, 0, path) && LiteralAt(s, |path| + 1, ls) && LiteralAt(s, |path| + 2 + |ls|, cs)
      && LiteralAt(s, |path| + 3 + |ls| + |cs| + 2 + |SeverityWord(v)| + 1, msg)
  {
    SimpleFrontPieces(v, path, ls, cs, msg, code);
    SimpleTailPieces(v, path, ls, cs, msg, code);
  }

  /** The simple layout with the printed parts at its positions reads back
      into those parts. */
  lemma SimplePartsRead(s: string, v: Severity, path: string, ls: string, cs: string, msg: string)
    requires SimpleBody(s, v, |path|, |ls|, |cs|, |path| + 3 + |ls| + |cs| + 2 + |SeverityWord(v)| + 1 + |msg|)
    requires LiteralAt(s, 0, path) && LiteralAt(s, |path| + 1, ls) && LiteralAt(s, |path| + 2 + |ls|, cs)
    requires LiteralAt(s, |path| + 3 + |ls| + |cs| + 2 + |SeverityWord(v)| + 1, msg)
    ensures MatchSimple(s) == Some(Captures(SeverityWord(v), path, ls, cs, msg))
  {
    SimpleBodyReads(s, v, |path|, |ls|, |cs|, |path| + 3 + |ls| + |cs| + 2 + |SeverityWord(v)| + 1 + |msg|,
      Captures(SeverityWord(v), path, ls, cs, msg));
  }

  /** The simple pattern reads a printed simple line back into the parts it was
      printed from, whatever the path holds (':' and digits included). */
  lemma SimpleRoundTrip(v: Severity, path: string, ls: string, cs: string, msg: string, code: Option<string>)
    requires SimpleParts(path, ls, cs, msg, code)
    ensures MatchSimple(SimpleLine(v, path, ls, cs, msg, code)) == Some(Captures(SeverityWord(v), path, ls, cs, msg))
  {
    SimpleBodyParts(v, path, ls, cs, msg, code);
    SimpleTexts(v, path, ls, cs, msg, code);
    SimplePartsRead(SimpleLine(v, path, ls, cs, msg, code), v, path, ls, cs, msg);
  }

  /** A printed simple line has no ']' before its last character when its path
      has none: digits, the severity word and the message have none, and a
      code's closing ']' ends the line. */
  lemma SimpleLineNoClose(v: Severity, path: string, ls: string, cs: string, msg: string, code: Option<string>)
    requires PrintableParts(path, ls, cs, msg, code) && ']' !in path
    ensures var s := SimpleLine(v, path, ls, cs, msg, code);
      forall i :: 0 <= i < |s| - 1 ==> s[i] != ']'
  {
    var x := path + LocationText(ls, cs) + ": " + SeverityWord(v) + ":";
    var t := TailText(msg, code);
    SimpleFrontNoClose(v, path, ls, cs);
    CodeClosesLast(" " + msg, code);
    assert SimpleLine(v, path, ls, cs, msg, code) == x + t;
    forall i | 0 <= i < |x + t| - 1 ensures (x + t)[i] != ']' {
      if i >= |x| {
        assert (x + t)[i] == t[i - |x|];
      }
    }
  }

  /** A simple line up to its tail is free of ']'. */
  lemma SimpleFrontNoClose(v: Severity, path: string, ls: string, cs: string)
    requires DigitText(ls) && DigitText(cs) && ']' !in path
    ensures ']' !in path + LocationText(ls, cs) + ": " + SeverityWord(v) + ":"
  {
    WordAvoids(v);
    AllInAvoids(ls, Digit, ']');
    AllInAvoids(cs, Digit, ']');
  }

  /** After text free of ']', a code adds ']' only as the last character. */
  lemma CodeClosesLast(front: string, code: Option<string>)
    requires ']' !in front && ValidCode(code)
    ensures var s := front + CodeText(code);
      forall i :: 0 <= i < |s| - 1 ==> s[i] != ']'
  {
    var s := front + CodeText(code);
    match code
    case None =>
      assert s == front;
    case Some(c) =>
      AllInAvoids(c, Word, ']');
      var open := front + " [" + c;
      assert ']' !in open;
      assert s == open + "]";
      forall i | 0 <= i < |s| - 1 ensures s[i] != ']' {
        assert s[i] == open[i];
      }
  }

  /** The pretty pattern does not match a printed simple line whose path has no
      ']', so the simple pattern is the one that reads it. */
  lemma SimpleLineNotPretty(v: Severity, path: string, ls: string, cs: string, msg: string, code: Option<string>)
    requires PrintableParts(path, ls, cs, msg, code) && ']' !in path
    ensures MatchPretty(SimpleLine(v, path, ls, cs, msg, code)) == None
  {
    SimpleLineNoClose(v, path, ls, cs, msg, code);
    PrettyNeedsClose(SimpleLine(v, path, ls, cs, msg, code));
  }
}
