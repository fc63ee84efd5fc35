/** Characters and strings with the meaning java.lang.String and java.util.regex
    give them. Strings are sequences of UTF-16-free Unicode scalar values; no
    locale, normalisation or surrogate handling is modelled. */
module Text {

  /** The character classes the diagnostic patterns and `String.trim` use. */
  datatype CharClass =
    | Digit      // `\d` without UNICODE_CHARACTER_CLASS: ASCII 0-9
    | Word       // `\w`: ASCII letters, digits and '_'
    | Space      // `\s`: space, \t, \n, \x0B, \f, \r
    | Dot        // `.` without DOTALL: anything but a line terminator
    | Trimmable  // what `String.trim` strips: U+0000 .. U+0020
    | LineChar   // what `BufferedReader.readLine` keeps: anything but \n and \r

  predicate In(c: char, k: CharClass) {
    match k
    case Digit => '0' <= c <= '9'
    case Word => 'a' <= c <= 'z' || 'A' <= c <= 'Z' || '0' <= c <= '9' || c == '_'
    case Space => c == ' ' || c == '\t' || c == '\n' || c == '\U{B}' || c == '\U{C}' || c == '\r'
    case Dot => !(c == '\n' || c == '\r' || c == '\U{85}' || c == '\U{2028}' || c == '\U{2029}')
    case Trimmable => c <= ' '
    case LineChar => c != '\n' && c != '\r'
  }

  predicate AllIn(s: string, k: CharClass) {
    forall i :: 0 <= i < |s| ==> In(s[i], k)
  }

  /** Length of the longest run of characters of class `k` in `s` that starts at
      index `i`. */
  function RunFrom(s: string, i: nat, k: CharClass): (n: nat)
    requires i <= |s|
    ensures i + n <= |s|
    decreases |s| - i
  {
    if i == |s| || !In(s[i], k) then 0 else 1 + RunFrom(s, i + 1, k)
  }

  /** The run is made of class `k` and stops at a character outside it, or at
      the end. */
  lemma {:induction false} RunFromSpec(s: string, i: nat, k: CharClass)
    requires i <= |s|
    ensures forall j :: i <= j < i + RunFrom(s, i, k) ==> In(s[j], k)
    ensures i + RunFrom(s, i, k) < |s| ==> !In(s[i + RunFrom(s, i, k)], k)
    decreases |s| - i
  {
    if i < |s| && In(s[i], k) {
      RunFromSpec(s, i + 1, k);
    }
  }

  /** A run of class `k` that stops at a character outside `k`, or at the end,
      is the longest run. */
  lemma RunIs(s: string, i: nat, k: CharClass, n: nat)
    requires i + n <= |s|
    requires forall j :: i <= j < i + n ==> In(s[j], k)
    requires i + n < |s| ==> !In(s[i + n], k)
    ensures RunFrom(s, i, k) == n
  {
    RunFromSpec(s, i, k);
  }

  /** A run of class `k` reaches at least as far as any stretch of class `k`
      from the same index. */
  lemma RunCovers(s: string, i: nat, k: CharClass, e: nat)
    requires i <= e <= |s|
    requires forall j :: i <= j < e ==> In(s[j], k)
    ensures e <= i + RunFrom(s, i, k)
  {
    RunFromSpec(s, i, k);
  }

  /** `lit` occurs in `s` at index `p`. */
  predicate LiteralAt(s: string, p: nat, lit: string) {
    p + |lit| <= |s| && forall j :: 0 <= j < |lit| ==> s[p + j] == lit[j]
  }

  /** The characters of an occurrence, one at a time. */
  lemma LiteralChar(s: string, p: nat, lit: string, j: nat)
    requires LiteralAt(s, p, lit) && j < |lit|
    ensures s[p + j] == lit[j]
  {
  }

  /** The middle of a concatenation occurs after its first part. */
  lemma LiteralConcat(pre: string, mid: string, post: string)
    ensures LiteralAt(pre + mid + post, |pre|, mid)
  {
  }

  /** `t` is the slice of `s` that starts at index `p`: an occurrence stated
      without a quantifier, for building long lines out of parts. */
  predicate SliceAt(s: string, p: nat, t: string) {
    p + |t| <= |s| && s[p..p + |t|] == t
  }

  /** A slice of a concatenation is a slice for each part. */
  lemma SliceSplit(s: string, p: nat, a: string, b: string)
    requires SliceAt(s, p, a + b)
    ensures SliceAt(s, p, a) && SliceAt(s, p + |a|, b)
  {
    assert s[p..p + |a|] == (a + b)[..|a|];
    assert s[p + |a|..p + |a| + |b|] == (a + b)[|a|..];
  }

  /** A slice is an occurrence. */
  lemma SliceLiteral(s: string, p: nat, t: string)
    requires SliceAt(s, p, t)
    ensures LiteralAt(s, p, t)
  {
    forall j | 0 <= j < |t| ensures s[p + j] == t[j] {
      assert s[p..p + |t|][j] == s[p + j];
    }
  }

  /** An occurrence of a concatenation is an occurrence of each part. */
  lemma LiteralSplit(s: string, p: nat, a: string, b: string)
    requires LiteralAt(s, p, a + b)
    ensures LiteralAt(s, p, a) && LiteralAt(s, p + |a|, b)
  {
    forall j | 0 <= j < |a| ensures s[p + j] == a[j] {
      LiteralChar(s, p, a + b, j);
    }
    forall j | 0 <= j < |b| ensures s[p + |a| + j] == b[j] {
      LiteralChar(s, p, a + b, |a| + j);
    }
  }

  /** An occurrence is the slice it covers. */
  lemma LiteralSlice(s: string, p: nat, lit: string)
    requires LiteralAt(s, p, lit)
    ensures s[p..p + |lit|] == lit
  {
  }

  /** The characters of an occurrence are in every class the literal's are in. */
  lemma LiteralAllIn(s: string, p: nat, lit: string, k: CharClass)
    requires LiteralAt(s, p, lit) && AllIn(lit, k)
    ensures forall j :: p <= j < p + |lit| ==> In(s[j], k)
  {
    forall j | p <= j < p + |lit| ensures In(s[j], k) {
      LiteralChar(s, p, lit, j - p);
    }
  }

  /** An occurrence of a literal without `c` has no `c`. */
  lemma LiteralAvoids(s: string, p: nat, lit: string, c: char)
    requires LiteralAt(s, p, lit) && c !in lit
    ensures forall j :: p <= j < p + |lit| ==> s[j] != c
  {
    forall j | p <= j < p + |lit| ensures s[j] != c {
      LiteralChar(s, p, lit, j - p);
    }
  }

  /** A string made of class `k` has no character outside `k`. */
  lemma AllInAvoids(s: string, k: CharClass, c: char)
    requires AllIn(s, k) && !In(c, k)
    ensures c !in s
  {
  }

  /** An occurrence at the front is a prefix. */
  lemma LiteralAtStart(s: string, lit: string)
    ensures LiteralAt(s, 0, lit) <==> StartsWith(s, lit)
  {
    if LiteralAt(s, 0, lit) {
      assert s[..|lit|] == lit;
    }
  }

  /** `\s` characters are among those `String.trim` strips. */
  lemma SpaceIsTrimmable(c: char)
    ensures In(c, Space) ==> In(c, Trimmable)
  {
  }

  predicate StartsWith(s: string, prefix: string) {
    |prefix| <= |s| && s[..|prefix|] == prefix
  }

  predicate EndsWith(s: string, suffix: string) {
    |suffix| <= |s| && s[|s| - |suffix|..] == suffix
  }

  /** `String.contains`: `t` occurs somewhere in `s`. */
  predicate Contains(s: string, t: string) {
    exists i | 0 <= i <= |s| :: StartsWith(s[i..], t)
  }

  /** ASCII lower-casing of one character. */
  function LowerChar(c: char): char {
    if 'A' <= c <= 'Z' then (c as int + 32) as char else c
  }

  /** `String.toLowerCase` restricted to ASCII letters. */
  function Lower(s: string): (r: string)
    ensures |r| == |s|
    ensures forall i :: 0 <= i < |s| ==> r[i] == LowerChar(s[i])
  {
    seq(|s|, i requires 0 <= i < |s| => LowerChar(s[i]))
  }

  /** Lower-casing twice changes nothing more than lower-casing once. */
  lemma LowerIdempotent(s: string)
    ensures Lower(Lower(s)) == Lower(s)
  {
    assert forall i :: 0 <= i < |s| ==> LowerChar(LowerChar(s[i])) == LowerChar(s[i]);
  }

  /** `String.replace(char, char)`: every occurrence of `from` becomes `to`. */
  function Replace(s: string, from: char, to: char): (r: string)
    ensures |r| == |s|
    ensures forall i :: 0 <= i < |s| ==> r[i] == if s[i] == from then to else s[i]
  {
    seq(|s|, i requires 0 <= i < |s| => if s[i] == from then to else s[i])
  }

  /** Java's `String.trim` without the leading part: drops trailing chars <= U+0020. */
  function TrimEnd(s: string): (r: string)
    ensures |r| <= |s| && r == s[..|r|]
    ensures AllIn(s[|r|..], Trimmable)
    ensures |r| > 0 ==> !In(r[|r| - 1], Trimmable)
  {
    if |s| > 0 && In(s[|s| - 1], Trimmable) then
      var r := TrimEnd(s[..|s| - 1]);
      assert s[|r|..] == s[..|s| - 1][|r|..] + [s[|s| - 1]];
      r
    else s
  }

  /** Java's `String.trim`: strips every char <= U+0020 from both ends. */
  function Trim(s: string): (r: string)
    ensures r == [] <==> AllIn(s, Trimmable)
    ensures |r| > 0 ==> !In(r[0], Trimmable) && !In(r[|r| - 1], Trimmable)
    ensures var a := RunFrom(s, 0, Trimmable);
      && a + |r| <= |s| && r == s[a..a + |r|]
      && AllIn(s[..a], Trimmable) && AllIn(s[a + |r|..], Trimmable)
  {
    var a := RunFrom(s, 0, Trimmable);
    RunFromSpec(s, 0, Trimmable);
    var r := TrimEnd(s[a..]);
    assert s[a + |r|..] == s[a..][|r|..];
    if r == [] then r
    else
      assert r[0] == s[a];
      r
  }

  /** A string whose ends are already visible characters is its own trim. */
  lemma TrimKeepsTrimmed(s: string)
    requires |s| > 0 ==> !In(s[0], Trimmable) && !In(s[|s| - 1], Trimmable)
    ensures Trim(s) == s
  {
  }

  /** Splits `s` at every `sep`, keeping every piece, empty ones included. */
  function Split(s: string, sep: char): (r: seq<string>)
    ensures |r| >= 1
    ensures forall i :: 0 <= i < |r| ==> sep !in r[i]
    decreases |s|
  {
    if |s| == 0 then [""]
    else
      var rest := Split(s[1..], sep);
      if s[0] == sep then [""] + rest
      else [[s[0]] + rest[0]] + rest[1..]
  }

  /** A string free of the separator is a single piece. */
  lemma {:induction false} SplitWithoutSeparator(s: string, sep: char)
    requires sep !in s
    ensures Split(s, sep) == [s]
    decreases |s|
  {
    if |s| > 0 {
      assert sep !in s[1..];
      SplitWithoutSeparator(s[1..], sep);
      assert [s[0]] + s[1..] == s;
    }
  }

  /** Splitting distributes over joining two strings with the separator. */
  lemma {:induction false} SplitJoin(a: string, b: string, sep: char)
    ensures Split(a + [sep] + b, sep) == Split(a, sep) + Split(b, sep)
    decreases |a|
  {
    var s := a + [sep] + b;
    if |a| == 0 {
      assert s[1..] == b;
    } else {
      assert s[1..] == a[1..] + [sep] + b;
      SplitJoin(a[1..], b, sep);
    }
  }

  /** Drops the empty pieces at the end of a split, as `String.split` does. */
  function DropTrailingEmpty(pieces: seq<string>): (r: seq<string>)
    ensures |r| <= |pieces| && r == pieces[..|r|]
    ensures forall i :: |r| <= i < |pieces| ==> pieces[i] == ""
    ensures |r| > 0 ==> r[|r| - 1] != ""
  {
    if |pieces| > 0 && pieces[|pieces| - 1] == "" then DropTrailingEmpty(pieces[..|pieces| - 1])
    else pieces
  }

  /** `String.split` with a one-character regex and limit 0: the whole string when
      the separator is absent, otherwise the pieces without trailing empty ones. */
  function JavaSplit(s: string, sep: char): (r: seq<string>)
    ensures |r| <= |Split(s, sep)| && r == Split(s, sep)[..|r|]
    ensures forall i :: |r| <= i < |Split(s, sep)| ==> Split(s, sep)[i] == ""
    ensures sep in s && r != [] ==> r[|r| - 1] != ""
  {
    if sep !in s then
      SplitWithoutSeparator(s, sep);
      [s]
    else DropTrailingEmpty(Split(s, sep))
  }
}
