/** The two line formats the compiler prints diagnostics in, matched the way
    `java.util.regex.Matcher.matches()` matches the whole (trimmed) line:

      pretty  (error|warning|info) \[(.+):(\d+):(\d+)\]:\s*(.*?)(?:\s*\[(\w+)\])?$
      simple  (.+):(\d+):(\d+):\s*(error|warning|info):\s*(.*?)(?:\s*\[(\w+)\])?$

    The backtracking order is spelled out as searches over positions in the
    line: the greedy path group is the longest one after which the rest of the
    pattern still matches, each digit group and the whitespace before a severity
    word can only be a maximal run, the `\s*` before the message takes the
    longest run of whitespace, and the lazy message group is the shortest text
    after which only nothing or a bracketed code is left. `$` adds nothing under
    `matches()`. */
module LinePatterns {
  import opened Wrappers
  import opened Text
  import opened Diagnostics

  /** The groups a match captures; the trailing code group is never read. */
  datatype Captures = Captures(severity: string, path: string, line: string, column: string, message: string)

  /** The two formats; in the pretty one the severity word precedes the path. */
  datatype Shape = Pretty(severity: Severity) | Simple

  /** What follows the location groups: the severity word and the span
      `[start, end)` of the message group. */
  datatype Tail = Tail(severity: Severity, start: nat, end: nat)

  /** The lengths of the two digit groups of a location. */
  datatype Digits = Digits(line: nat, column: nat)

  /** What follows the path group: the lengths of the two digit groups and the tail. */
  datatype Groups = Groups(lineDigits: nat, columnDigits: nat, tail: Tail)

  /** `(error|warning|info)` at index `p`: the pattern accepts the lower-case
      words only. No word is a prefix of another (their first letters differ),
      so at most one alternative applies. */
  function LeadingWord(s: string, p: nat): (r: Option<Severity>)
    ensures r.Some? ==> LiteralAt(s, p, SeverityWord(r.value))
    ensures forall v :: LiteralAt(s, p, SeverityWord(v)) ==> r == Some(v)
  {
    assert forall v :: LiteralAt(s, p, SeverityWord(v)) ==> s[p] == SeverityWord(v)[0];
    if LiteralAt(s, p, "error") then Some(Error)
    else if LiteralAt(s, p, "warning") then Some(Warning)
    else if LiteralAt(s, p, "info") then Some(Info)
    else None
  }

  /** At index `p`: ':', `a` digits, ':', `b` digits, then `close`. */
  predicate IsLocation(s: string, p: nat, close: string, a: nat, b: nat) {
    && 0 < a && 0 < b && p + 2 + a + b + |close| <= |s|
    && s[p] == ':' && (forall j :: p + 1 <= j < p + 1 + a ==> In(s[j], Digit))
    && s[p + 1 + a] == ':' && (forall j :: p + 2 + a <= j < p + 2 + a + b ==> In(s[j], Digit))
    && LiteralAt(s, p + 2 + a + b, close)
  }

  /** In a location each digit group is the whole run of digits. */
  lemma LocationRuns(s: string, p: nat, close: string, a: nat, b: nat)
    requires |close| > 0 && !In(close[0], Digit)
    requires IsLocation(s, p, close, a, b)
    ensures a == RunFrom(s, p + 1, Digit) && b == RunFrom(s, p + 2 + a, Digit)
  {
    RunIs(s, p + 1, Digit, a);
    assert s[p + 2 + a + b] == close[0];
    RunIs(s, p + 2 + a, Digit, b);
  }

  /** At most one location starts at an index. */
  lemma LocationUnique(s: string, p: nat, close: string)
    requires |close| > 0 && !In(close[0], Digit)
    ensures forall a: nat, b: nat :: IsLocation(s, p, close, a, b) ==>
      a == RunFrom(s, p + 1, Digit) && b == RunFrom(s, p + 2 + a, Digit)
  {
    forall a: nat, b: nat | IsLocation(s, p, close, a, b)
      ensures a == RunFrom(s, p + 1, Digit) && b == RunFrom(s, p + 2 + a, Digit)
    {
      LocationRuns(s, p, close, a, b);
    }
  }

  /** `:(\d+):(\d+)` followed by `close` at index `p`, as the lengths of the two
      digit groups. Since what follows each group is not a digit, each `\d+` can
      only be the whole digit run: the match is found exactly when one exists. */
  function MatchLocation(s: string, p: nat, close: string): (r: Option<Digits>)
    requires p <= |s| && |close| > 0 && !In(close[0], Digit)
    ensures r.Some? ==> IsLocation(s, p, close, r.value.line, r.value.column)
    ensures forall a: nat, b: nat :: IsLocation(s, p, close, a, b) ==> r == Some(Digits(a, b))
  {
    LocationUnique(s, p, close);
    if p == |s| || s[p] != ':' then None
    else
      var a := RunFrom(s, p + 1, Digit);
      RunFromSpec(s, p + 1, Digit);
      if a == 0 || p + 1 + a == |s| || s[p + 1 + a] != ':' then None
      else
        var b := RunFrom(s, p + 2 + a, Digit);
        RunFromSpec(s, p + 2 + a, Digit);
        if b == 0 || !LiteralAt(s, p + 2 + a + b, close) then None
        else Some(Digits(a, b))
  }

  /** `\s*\[(\w+)\]` matching `s` from index `p` to its end: whitespace, then a
      bracketed nonempty word. */
  predicate IsCodeSuffix(s: string, p: nat)
    requires p <= |s|
  {
    var k := p + RunFrom(s, p, Space);
    && k + 3 <= |s| && s[k] == '[' && s[|s| - 1] == ']'
    && forall j :: k + 1 <= j < |s| - 1 ==> In(s[j], Word)
  }

  /** What may follow the message group: nothing, or a bracketed code. */
  predicate EndsMessage(s: string, p: nat)
    requires p <= |s|
  {
    p == |s| || IsCodeSuffix(s, p)
  }

  /** The lazy `(.*?)`: the least end in `[from, limit]` after which the line
      ends as a message must. */
  function LeastMessageEnd(s: string, from: nat, limit: nat): (r: Option<nat>)
    requires limit <= |s|
    decreases limit + 1 - from
    ensures r.Some? ==> from <= r.value <= limit && EndsMessage(s, r.value)
    ensures r.Some? ==> forall j :: from <= j < r.value ==> !EndsMessage(s, j)
    ensures r.None? ==> forall j :: from <= j <= limit ==> !EndsMessage(s, j)
  {
    if from > limit then None
    else if EndsMessage(s, from) then Some(from)
    else LeastMessageEnd(s, from + 1, limit)
  }

  /** The least end is found when it lies within the search range. */
  lemma LeastMessageEndIs(s: string, from: nat, limit: nat, e: nat)
    requires from <= e <= limit <= |s|
    requires EndsMessage(s, e)
    requires forall j :: from <= j < e ==> !EndsMessage(s, j)
    ensures LeastMessageEnd(s, from, limit) == Some(e)
  {
  }

  /** `\s*(.*?)(?:\s*\[(\w+)\])?` matching `s` from index `p` to its end, as the
      span of the message group: the longest whitespace run first, then the
      shortest message made of `.` characters. */
  function TailMessage(s: string, p: nat): (r: Option<(nat, nat)>)
    requires p <= |s|
    ensures r.Some? ==> p <= r.value.0 <= r.value.1 <= |s|
  {
    var k := p + RunFrom(s, p, Space);
    match LeastMessageEnd(s, k, k + RunFrom(s, k, Dot))
    case None => None
    case Some(e) => Some((k, e))
  }

  /** One way for the tail pattern to match `s` from index `p`: whitespace up
      to index `a`, a message spanning `[a, e)`, then what may end a message. */
  predicate TailSplit(s: string, p: nat, a: nat, e: nat) {
    && p <= a <= e <= |s|
    && (forall j :: p <= j < a ==> In(s[j], Space))
    && (forall j :: a <= j < e ==> In(s[j], Dot))
    && EndsMessage(s, e)
  }

  /** A match whose message reaches past the longest whitespace run also works
      with that run: the run sheds the message's leading whitespace. */
  lemma TailLongMessage(s: string, p: nat, a: nat, e: nat)
    requires TailSplit(s, p, a, e) && a <= p + RunFrom(s, p, Space) <= e
    ensures TailMessage(s, p).Some?
  {
    var start := p + RunFrom(s, p, Space);
    RunFromSpec(s, p, Space);
    RunCovers(s, start, Dot, e);
  }

  /** A match whose message ends inside the longest whitespace run leaves a
      bracketed code right after that run, so the empty message works there. */
  lemma TailShortMessage(s: string, p: nat, a: nat, e: nat)
    requires TailSplit(s, p, a, e) && e < p + RunFrom(s, p, Space)
    ensures IsCodeSuffix(s, p + RunFrom(s, p, Space))
  {
    var start := p + RunFrom(s, p, Space);
    RunFromSpec(s, p, Space);
    RunFromSpec(s, e, Space);
    assert e + RunFrom(s, e, Space) == start + RunFrom(s, start, Space);
  }

  /** If the tail pattern can match in any way, it matches with the longest
      whitespace run. */
  lemma TailComplete(s: string, p: nat, a: nat, e: nat)
    requires TailSplit(s, p, a, e)
    ensures a <= p + RunFrom(s, p, Space)
    ensures TailMessage(s, p).Some?
  {
    RunFromSpec(s, p, Space);
    if e >= p + RunFrom(s, p, Space) {
      TailLongMessage(s, p, a, e);
    } else {
      TailShortMessage(s, p, a, e);
    }
  }

  /** The tail pattern with java.util.regex's backtracking order: the `\s*`
      takes the longest whitespace run (no match uses a longer one, and when any
      match exists one with that run does), and the lazy message group is then
      the shortest that lets the line end. */
  lemma TailMessageSemantics(s: string, p: nat)
    requires p <= |s|
    ensures forall a: nat, e: nat :: TailSplit(s, p, a, e) ==> a <= p + RunFrom(s, p, Space) && TailMessage(s, p).Some?
    ensures TailMessage(s, p).Some? ==>
      var (start, end) := TailMessage(s, p).value;
      && start == p + RunFrom(s, p, Space)
      && TailSplit(s, p, start, end)
      && forall e: nat :: e < end ==> !TailSplit(s, p, start, e)
  {
    var k := p + RunFrom(s, p, Space);
    RunFromSpec(s, p, Space);
    RunFromSpec(s, k, Dot);
    forall a: nat, e: nat | TailSplit(s, p, a, e)
      ensures a <= p + RunFrom(s, p, Space) && TailMessage(s, p).Some?
    {
      TailComplete(s, p, a, e);
    }
  }

  /** After the whitespace run at index `p`, the word for `v` followed by ':'. */
  predicate WordColonAfter(s: string, p: nat, v: Severity)
    requires p <= |s|
  {
    var k := p + RunFrom(s, p, Space);
    LiteralAt(s, k, SeverityWord(v)) && LiteralAt(s, k + |SeverityWord(v)|, ":")
  }

  /** The simple format's `\s*(error|warning|info):` from index `p`, as the
      severity and the index after the ':'. The whitespace before the word can
      only be the whole run, since a word starts with a letter; the word and ':'
      are found exactly when they are there. */
  function SeverityColon(s: string, p: nat): (r: Option<(Severity, nat)>)
    requires p <= |s|
    ensures r.Some? ==> r.value.1 <= |s|
    ensures r.Some? ==> WordColonAfter(s, p, r.value.0)
    ensures r.Some? ==> r.value.1 == p + RunFrom(s, p, Space) + |SeverityWord(r.value.0)| + 1
    ensures forall v :: WordColonAfter(s, p, v) ==> r.Some? && r.value.0 == v
  {
    var k := p + RunFrom(s, p, Space);
    match LeadingWord(s, k)
    case None => None
    case Some(v) =>
      if !LiteralAt(s, k + |SeverityWord(v)|, ":") then None
      else Some((v, k + |SeverityWord(v)| + 1))
  }

  /** The literal text that closes the location groups in each format. */
  function Close(shape: Shape): (close: string)
    ensures |close| > 0 && !In(close[0], Digit)
  {
    match shape
    case Pretty(_) => "]:"
    case Simple => ":"
  }

  /** What follows the location groups, from index `p`, in each format. */
  function AfterLocation(shape: Shape, s: string, p: nat): (r: Option<Tail>)
    requires p <= |s|
    ensures r.Some? ==> p <= r.value.start <= r.value.end <= |s|
  {
    match shape
    case Simple =>
      (match SeverityColon(s, p)
       case None => None
       case Some((v, n)) =>
         match TailMessage(s, n)
         case None => None
         case Some((start, end)) => Some(Tail(v, start, end)))
    case Pretty(w) =>
      match TailMessage(s, p)
      case None => None
      case Some((start, end)) => Some(Tail(w, start, end))
  }

  /** Everything after the path group, from index `p`: the location groups and
      what follows them. */
  function AfterPath(shape: Shape, s: string, p: nat): (r: Option<Groups>)
    requires p <= |s|
    ensures r.Some? ==>
      var g := r.value;
      && IsLocation(s, p, Close(shape), g.lineDigits, g.columnDigits)
      && p + 2 + g.lineDigits + g.columnDigits + |Close(shape)| <= g.tail.start <= g.tail.end <= |s|
  {
    match MatchLocation(s, p, Close(shape))
    case None => None
    case Some(Digits(a, b)) =>
      match AfterLocation(shape, s, p + 2 + a + b + |Close(shape)|)
      case None => None
      case Some(t) => Some(Groups(a, b, t))
  }

  /** What follows the path, from its location groups and what follows them. */
  lemma AfterPathOf(shape: Shape, s: string, p: nat, a: nat, b: nat, q: nat, t: Tail)
    requires q == p + 2 + a + b + |Close(shape)| <= |s|
    requires AfterLocation(shape, s, q) == Some(t)
    requires MatchLocation(s, p, Close(shape)) == Some(Digits(a, b))
    ensures AfterPath(shape, s, p) == Some(Groups(a, b, t))
  {
  }

  /** The rest of the pattern matches after a path group ending at index `p`. */
  predicate Fits(shape: Shape, s: string, p: nat)
    requires p <= |s|
  {
    AfterPath(shape, s, p).Some?
  }

  /** The greedy `(.+)` as a search: the last index in `(lo, hi]` at which
      `fits` holds, trying the last one first. */
  function LastFit(fits: nat -> bool, lo: nat, hi: nat): (r: Option<nat>)
    requires lo <= hi
    decreases hi
    ensures r.Some? ==> lo < r.value <= hi && fits(r.value)
    ensures r.Some? ==> forall p :: r.value < p <= hi ==> !fits(p)
    ensures r.None? ==> forall p :: lo < p <= hi ==> !fits(p)
  {
    if hi == lo then None
    else if fits(hi) then Some(hi)
    else LastFit(fits, lo, hi - 1)
  }

  /** The captures of a match whose path spans `[start, p)`. */
  function CapturesOf(s: string, start: nat, p: nat, g: Groups): Captures
    requires start <= p && p + 2 + g.lineDigits + g.columnDigits <= |s|
    requires g.tail.start <= g.tail.end <= |s|
  {
    Captures(SeverityWord(g.tail.severity), s[start..p], s[p + 1..p + 1 + g.lineDigits],
      s[p + 2 + g.lineDigits..p + 2 + g.lineDigits + g.columnDigits], s[g.tail.start..g.tail.end])
  }

  /** The path group starting at index `start` ends at `e`: it is nonempty, made
      of `.` characters, and the rest of the pattern matches after it. */
  predicate PathAt(shape: Shape, s: string, start: nat, e: nat) {
    && start < e <= |s|
    && (forall j :: start <= j < e ==> In(s[j], Dot))
    && Fits(shape, s, e)
  }

  /** A path group cannot reach past the run of `.` characters it starts. */
  lemma PathWithinRun(shape: Shape, s: string, start: nat, e: nat)
    requires start <= |s| && PathAt(shape, s, start, e)
    ensures e <= start + RunFrom(s, start, Dot)
  {
    RunCovers(s, start, Dot, e);
  }

  /** Where the greedy path group ends: the last end that lets the rest of the
      pattern match. The path is made of `.` characters only, so it cannot reach
      past the run of them. */
  function PathEnd(shape: Shape, s: string, start: nat): (r: Option<nat>)
    requires start <= |s|
    ensures r.Some? ==> PathAt(shape, s, start, r.value)
    ensures forall e: nat :: PathAt(shape, s, start, e) ==> r.Some? && e <= r.value
  {
    var fits := (e: nat) => e <= |s| && Fits(shape, s, e);
    var limit := start + RunFrom(s, start, Dot);
    RunFromSpec(s, start, Dot);
    assert forall e: nat :: PathAt(shape, s, start, e) ==> start < e <= limit && fits(e) by {
      forall e: nat | PathAt(shape, s, start, e) ensures e <= limit {
        PathWithinRun(shape, s, start, e);
      }
    }
    LastFit(fits, start, limit)
  }

  /** A path group that starts at index `start`, followed by the rest of the
      pattern, with the greedy path. */
  function MatchFromPath(shape: Shape, s: string, start: nat): (r: Option<Captures>)
    requires start <= |s|
    ensures r.Some? <==> PathEnd(shape, s, start).Some?
    ensures r.Some? ==> r.value.path == s[start..PathEnd(shape, s, start).value]
  {
    match PathEnd(shape, s, start)
    case None => None
    case Some(e) => Some(CapturesOf(s, start, e, AfterPath(shape, s, e).value))
  }

  /** When the path group can end at `e0` and at no later index, the greedy
      group ends at `e0`. */
  lemma GreedyPathIs(shape: Shape, s: string, start: nat, e0: nat)
    requires start <= |s| && PathAt(shape, s, start, e0)
    requires forall e :: e0 < e <= |s| ==> !Fits(shape, s, e)
    ensures MatchFromPath(shape, s, start) == Some(CapturesOf(s, start, e0, AfterPath(shape, s, e0).value))
  {
    PathEndIs(shape, s, start, e0);
  }

  /** The greedy group's end is the last end that fits. */
  lemma PathEndIs(shape: Shape, s: string, start: nat, e0: nat)
    requires start <= |s| && PathAt(shape, s, start, e0)
    requires forall e :: e0 < e <= |s| ==> !Fits(shape, s, e)
    ensures PathEnd(shape, s, start) == Some(e0)
  {
    PathEndAtLeast(shape, s, start, e0);
    PathEndFits(shape, s, start);
  }

  lemma PathEndAtLeast(shape: Shape, s: string, start: nat, e0: nat)
    requires start <= |s| && PathAt(shape, s, start, e0)
    ensures PathEnd(shape, s, start).Some? && e0 <= PathEnd(shape, s, start).value
  {
  }

  lemma PathEndFits(shape: Shape, s: string, start: nat)
    requires start <= |s| && PathEnd(shape, s, start).Some?
    ensures PathEnd(shape, s, start).value <= |s| && Fits(shape, s, PathEnd(shape, s, start).value)
  {
  }

  /** What `parseErrors` relies on in a match: the severity group is one of the
      three printed words, so `parseSeverity` never falls back to its default,
      and both location groups are nonempty digit strings. */
  predicate WellFormed(c: Captures) {
    && c.severity == SeverityWord(ParseSeverity(c.severity))
    && |c.line| > 0 && AllIn(c.line, Digit)
    && |c.column| > 0 && AllIn(c.column, Digit)
  }

  /** Every match of either pattern captures well-formed groups. */
  lemma MatchWellFormed(shape: Shape, s: string, start: nat)
    requires start <= |s|
    ensures MatchFromPath(shape, s, start).Some? ==> WellFormed(MatchFromPath(shape, s, start).value)
  {
    if PathEnd(shape, s, start).Some? {
      PathEndFits(shape, s, start);
      FitWellFormed(shape, s, start, PathEnd(shape, s, start).value);
    }
  }

  /** The captures of a path group that ends where the rest fits are well-formed. */
  lemma FitWellFormed(shape: Shape, s: string, start: nat, e: nat)
    requires start <= e <= |s| && Fits(shape, s, e)
    ensures WellFormed(CapturesOf(s, start, e, AfterPath(shape, s, e).value))
  {
    var g := AfterPath(shape, s, e).value;
    LocationDigits(s, e, Close(shape), g.lineDigits, g.columnDigits);
    ParseSeverityWord(g.tail.severity);
  }

  /** The digit groups of a location, as strings. */
  lemma LocationDigits(s: string, p: nat, close: string, a: nat, b: nat)
    requires IsLocation(s, p, close, a, b)
    ensures |s[p + 1..p + 1 + a]| > 0 && AllIn(s[p + 1..p + 1 + a], Digit)
    ensures |s[p + 2 + a..p + 2 + a + b]| > 0 && AllIn(s[p + 2 + a..p + 2 + a + b], Digit)
  {
    var line, column := s[p + 1..p + 1 + a], s[p + 2 + a..p + 2 + a + b];
    forall i | 0 <= i < |line| ensures In(line[i], Digit) {
      assert line[i] == s[p + 1 + i];
    }
    forall i | 0 <= i < |column| ensures In(column[i], Digit) {
      assert column[i] == s[p + 2 + a + i];
    }
  }

  /** The pretty pattern matches `line` with severity `v` and a path group
      ending at index `e`. */
  predicate PrettyAt(line: string, v: Severity, e: nat) {
    && LiteralAt(line, 0, SeverityWord(v)) && LiteralAt(line, |SeverityWord(v)|, " [")
    && PathAt(Pretty(v), line, |SeverityWord(v)| + 2, e)
  }

  /** The pretty pattern matched against a whole line. */
  function MatchPretty(line: string): Option<Captures> {
    match LeadingWord(line, 0)
    case None => None
    case Some(v) =>
      if !LiteralAt(line, |SeverityWord(v)|, " [") then None
      else MatchFromPath(Pretty(v), line, |SeverityWord(v)| + 2)
  }

  /** The pretty pattern matches exactly when some severity word and path fit;
      it then captures that word and the longest path that fits. */
  lemma MatchPrettyMeaning(line: string)
    ensures forall v, e: nat :: PrettyAt(line, v, e) ==>
      && MatchPretty(line).Some?
      && MatchPretty(line).value.severity == SeverityWord(v)
      && e <= |SeverityWord(v)| + 2 + |MatchPretty(line).value.path|
    ensures MatchPretty(line).Some? ==>
      exists v, e: nat :: PrettyAt(line, v, e) && MatchPretty(line).value.path == line[|SeverityWord(v)| + 2..e]
  {
    forall v, e: nat | PrettyAt(line, v, e)
      ensures MatchPretty(line).Some? && MatchPretty(line).value.severity == SeverityWord(v)
      ensures e <= |SeverityWord(v)| + 2 + |MatchPretty(line).value.path|
    {
      assert LeadingWord(line, 0) == Some(v);
      var start := |SeverityWord(v)| + 2;
      assert MatchPretty(line) == MatchFromPath(Pretty(v), line, start);
      assert PathEnd(Pretty(v), line, start).Some?;
    }
    if MatchPretty(line).Some? {
      var v := LeadingWord(line, 0).value;
      var start := |SeverityWord(v)| + 2;
      var e := PathEnd(Pretty(v), line, start).value;
      assert PrettyAt(line, v, e);
    }
  }

  /** The pretty pattern needs a location closed by "]:", so a line it matches
      has a ']' followed by ':'. */
  lemma PrettyNeedsClose(line: string)
    ensures MatchPretty(line).Some? ==>
      exists i :: 0 <= i < |line| - 1 && line[i] == ']' && line[i + 1] == ':'
  {
    if MatchPretty(line).Some? {
      var v := LeadingWord(line, 0).value;
      var start := |SeverityWord(v)| + 2;
      PathEndFits(Pretty(v), line, start);
      var e := PathEnd(Pretty(v), line, start).value;
      var g := AfterPath(Pretty(v), line, e).value;
      LiteralChar(line, e + 2 + g.lineDigits + g.columnDigits, "]:", 0);
      LiteralChar(line, e + 2 + g.lineDigits + g.columnDigits, "]:", 1);
    }
  }

  /** A pretty match captures well-formed groups. */
  lemma MatchPrettyWellFormed(line: string)
    ensures MatchPretty(line).Some? ==> WellFormed(MatchPretty(line).value)
  {
    if MatchPretty(line).Some? {
      var v := LeadingWord(line, 0).value;
      MatchWellFormed(Pretty(v), line, |SeverityWord(v)| + 2);
    }
  }

  /** The simple pattern matches `line` with a path group ending at index `e`. */
  predicate SimpleAt(line: string, e: nat) {
    PathAt(Simple, line, 0, e)
  }

  /** The simple pattern matched against a whole line. */
  function MatchSimple(line: string): Option<Captures> {
    MatchFromPath(Simple, line, 0)
  }

  /** The simple pattern matches exactly when some path fits; it then captures
      the longest path that fits. */
  lemma MatchSimpleMeaning(line: string)
    ensures forall e: nat :: SimpleAt(line, e) ==> MatchSimple(line).Some? && e <= |MatchSimple(line).value.path|
    ensures MatchSimple(line).Some? ==> SimpleAt(line, |MatchSimple(line).value.path|)
  {
  }
}
