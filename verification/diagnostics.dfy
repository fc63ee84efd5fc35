/** The host's diagnostic record and the mapping of severity words onto it. */
module Diagnostics {
  import opened Text
  import opened Integers

  datatype Severity = Info | Warning | Error

  /** A diagnostic anchored to a project resource and a line of it. */
  datatype Issue = Issue(severity: Severity, resourcePath: string, lineNumber: Int32, message: string)

  /** The lower-case word the compiler prints for a severity. */
  function SeverityWord(s: Severity): string {
    match s
    case Info => "info"
    case Warning => "warning"
    case Error => "error"
  }

  /** Maps a severity word, in any letter case, to a severity; a word that names
      none of them is an error. */
  function ParseSeverity(token: string): (s: Severity)
    ensures s == Warning <==> Lower(token) == "warning"
    ensures s == Info <==> Lower(token) == "info"
    ensures s == Error <==> Lower(token) != "warning" && Lower(token) != "info"
  {
    match Lower(token)
    case "error" => Error
    case "warning" => Warning
    case "info" => Info
    case _ => Error
  }

  /** Every severity is read back from the word the compiler prints for it. */
  lemma ParseSeverityWord(s: Severity)
    ensures ParseSeverity(SeverityWord(s)) == s
  {
    var w := SeverityWord(s);
    assert Lower(w) == w;
  }

  /** The mapping ignores letter case. */
  lemma ParseSeverityIgnoresCase(token: string)
    ensures ParseSeverity(Lower(token)) == ParseSeverity(token)
  {
    LowerIdempotent(token);
  }

  /** The repository's own examples in lower case, mixed-case words, and an
      unknown word. */
  lemma ParseSeverityExamples()
    ensures ParseSeverity("error") == Error
    ensures ParseSeverity("warning") == Warning
    ensures ParseSeverity("info") == Info
    ensures ParseSeverity("unknown") == Error
    ensures ParseSeverity("ERROR") == Error
    ensures ParseSeverity("Warning") == Warning
    ensures ParseSeverity("INFO") == Info
  {
    assert Lower("Warning") == "warning";
    assert Lower("INFO") == "info";
    assert Lower("unknown") == "unknown";
  }
}
