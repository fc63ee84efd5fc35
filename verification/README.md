# LuaNext transpiler bridge, modelled in Dafny

This project models `LuaNextTranspiler`. It is the Defold build-pipeline
extension that runs the LuaNext compiler on a project's `.luax` sources and
turns the compiler's printed diagnostics into the host's `Issue` records.

What it models:

- **Platforms**: the host platform chosen from `os.name` and `os.arch`, and
  where that platform's compiler binary sits under the plugin directory.
- **Diagnostics**: the `Issue` record, and `parseSeverity`, which maps a word in
  any letter case to a severity and falls back to ERROR.
- **Integers**: `Integer.parseInt` on the digit groups. It fails with a
  `NumberFormatException` message above `Integer.MAX_VALUE`.
- **ResourcePaths**: `toResourcePath`, both as written and corrected. See
  Findings.
- **LinePatterns**: the two `java.util.regex` patterns, pretty and simple,
  with `Matcher.matches()` semantics. The backtracking order is written out as
  searches:
  - the greedy `(.+)` path is the last end after which the rest matches;
  - each `\d+` is the whole digit run;
  - `\s*` takes the longest whitespace run;
  - the lazy `(.*?)` message is the least end after which only a bracketed
    code or nothing is left.
- **LineRoundTrip / SimpleRoundTrip**: a line printed in either format is read
  back into the parts it was printed from. The pretty pattern never matches a
  simple line whose path has no ']'. With a ']' in the path it can: the simple
  line with path "error [a:1:2]: b" is also a pretty line with path "a".
- **ErrorParser**: `parseErrors`, in these steps:
  - `String.split("\n")`, with trailing empty pieces dropped;
  - `trim` each piece and skip it if empty;
  - try the pretty pattern first, then the simple one;
  - `parseInt` the line and the column, then discard the column;
  - trim the message and map the path.

  A failing `parseInt` aborts the whole parse.
- **ProcessOutput**: the `BufferedReader.readLine` loop. `\n`, `\r` and
  `\r\n` all end a line, and every line is gathered back followed by `\n`.
- **Transpiler**: `transpile`, in these steps:
  - the configuration warning;
  - the command line, with the listing filtered on `.luax`;
  - running the compiler;
  - the single ERROR issue a caught exception becomes, where a null message
    reads "null".
- **Scenarios**: the repository's `parseErrors` tests worked through the model.

`parseErrors` takes a `Host`, which carries the host facts that path mapping
needs, and a `Mapping`. The program always applies `toResourcePath` as it is
written, so `ParseErrors` and `Transpile` model the program exactly when the
mapping is `AsWritten`. `Corrected` applies the corrected mapping of Findings
instead, to show what the tests expect. Every parser theorem holds for either
mapping.

Three behaviours of the code worth noting:

- The configuration warning reads "No .luanextrc configuration file found. Using
  compiler defaults.".
- The patterns match the severity words in lower case only, because the
  regular expressions are case-sensitive; only `parseSeverity` ignores case.
- A file in a sibling directory that shares the source directory's name as a
  prefix is accepted (see Findings).

## Model

| member | source | states |
|---|---|---|
| Platforms.PairInjective | src/main/java/com/defold/extension/pipeline/LuaNextTranspiler.java:159-173 | what `Pair` gives: no two platforms share a binary directory name |
| Platforms.HostPlatform | src/main/java/com/defold/extension/pipeline/LuaNextTranspiler.java:175-186 | each of the four platforms is chosen exactly when its condition on the lower-cased os name and architecture holds: Windows first, then mac/darwin split on aarch64, otherwise Linux |
| Platforms.HostPlatformIgnoresCase | src/main/java/com/defold/extension/pipeline/LuaNextTranspiler.java:176-177 | the choice does not depend on the letter case of either property |
| Platforms.ArmOnlyForMac | src/main/java/com/defold/extension/pipeline/LuaNextTranspiler.java:179-185 | arm64 is chosen only for macOS hosts; on other hosts the architecture has no effect |
| Platforms.WindowsTenIsWin32 | src/main/java/com/defold/extension/pipeline/LuaNextTranspiler.java:179-180 | "Windows 10" selects the Windows binary whatever the architecture |
| Platforms.ArmLinuxIsX86 | src/main/java/com/defold/extension/pipeline/LuaNextTranspiler.java:183-185 | a Linux host gets the x86_64 Linux binary even on ARM |
| Platforms.BinaryPath | src/main/java/com/defold/extension/pipeline/LuaNextTranspiler.java:25-29 | the path starts with plugin dir + "/plugins/bin/" + pair + "/bin/luanext-compiler", and it ends in ".exe" exactly for Windows |
| Platforms.BinaryPathInjective | src/main/java/com/defold/extension/pipeline/LuaNextTranspiler.java:25-29 | different platforms never get the same binary path |
| Diagnostics.ParseSeverity | src/main/java/com/defold/extension/pipeline/LuaNextTranspiler.java:136-143 | WARNING exactly for "warning" in any case, INFO exactly for "info", ERROR for everything else |
| Diagnostics.ParseSeverityWord | src/main/java/com/defold/extension/pipeline/LuaNextTranspiler.java:136-143 | every severity is read back from the word printed for it |
| Diagnostics.ParseSeverityIgnoresCase | src/main/java/com/defold/extension/pipeline/LuaNextTranspiler.java:137 | lower-casing the word first changes nothing |
| Diagnostics.ParseSeverityExamples | src/test/java/com/defold/extension/pipeline/LuaNextTranspilerTest.java:40-58 | the tests' "error", "warning", "info" and "unknown" give ERROR, WARNING, INFO and ERROR; so do "ERROR", "Warning" and "INFO" in other letter cases |
| Integers.ParseInt | src/main/java/com/defold/extension/pipeline/LuaNextTranspiler.java:107-108 | succeeds exactly when the digits' value fits in an int, and then returns that value; otherwise fails with `For input string: "<digits>"` |
| Integers.ParseDecimal | src/main/java/com/defold/extension/pipeline/LuaNextTranspiler.java:107-108 | parsing inverts decimal rendering on the int range and fails above it |
| Integers.LeadingZeroIgnored | src/main/java/com/defold/extension/pipeline/LuaNextTranspiler.java:107 | leading zeros do not change the value read |
| ResourcePaths.ToResourcePath | src/main/java/com/defold/extension/pipeline/LuaNextTranspiler.java:145-157 | a result exists exactly when both canonical paths exist and the file's starts with the directory's; it then starts with '/', has the rest's length plus one, and holds no platform separator |
| ResourcePaths.ResourcePathRestoresFile | src/main/java/com/defold/extension/pipeline/LuaNextTranspiler.java:150-152 | the directory followed by the result, with its leading '/' dropped and its separators restored, is the file |
| ResourcePaths.IntendedResourcePath | src/main/java/com/defold/extension/pipeline/LuaNextTranspiler.java:145-157 | corrected mapping: a result exists exactly when the file is the directory or lies below it at a component boundary; the result starts with '/' |
| ResourcePaths.IntendedResolvesBack | src/main/java/com/defold/extension/pipeline/LuaNextTranspiler.java:150-152 | resolving the corrected resource path against the source directory gives back the file |
| ResourcePaths.AsWrittenDoublesSlash | src/main/java/com/defold/extension/pipeline/LuaNextTranspiler.java:151-152 | under a directory not ending in a separator, the code's result is the corrected one with an extra '/' in front |
| ResourcePaths.DoubleSlashUnderSourceDir | src/test/java/com/defold/extension/pipeline/LuaNextTranspilerTest.java:117-122 | the code maps "/project/src/test.luax" under "/project/src" to "//test.luax", which does not resolve back to the file |
| ResourcePaths.SiblingDirectoryAccepted | src/main/java/com/defold/extension/pipeline/LuaNextTranspiler.java:150 | the code accepts "/project/srcX/a.luax" under "/project/src" as "/X/a.luax", though that file is not under the directory |
| ResourcePaths.IntendedMatchesTests | src/test/java/com/defold/extension/pipeline/LuaNextTranspilerTest.java:117-129 | the corrected mapping gives "/test.luax" for the test file; both mappings give nothing for "/other/path/file.luax" |
| Text.Trim | src/main/java/com/defold/extension/pipeline/LuaNextTranspiler.java:100 | the result is the part of the line between the leading and trailing runs of chars <= U+0020; it is empty exactly when the line is all such chars, and otherwise starts and ends with a visible char |
| Text.TrimKeepsTrimmed | src/main/java/com/defold/extension/pipeline/LuaNextTranspiler.java:100 | a string already trimmed is left as it is |
| Text.Lower | src/main/java/com/defold/extension/pipeline/LuaNextTranspiler.java:137 | same length, and each character is lower-cased on its own |
| Text.LowerIdempotent | src/main/java/com/defold/extension/pipeline/LuaNextTranspiler.java:176-177 | lower-casing twice equals lower-casing once |
| Text.Replace | src/main/java/com/defold/extension/pipeline/LuaNextTranspiler.java:152 | same length; every `from` becomes `to` and every other character is kept |
| Text.JavaSplit | src/main/java/com/defold/extension/pipeline/LuaNextTranspiler.java:98 | the pieces are a prefix of the plain split on the separator, only empty pieces are dropped, and when the separator occurs the last piece kept is nonempty |
| Text.SplitJoin | src/main/java/com/defold/extension/pipeline/LuaNextTranspiler.java:98 | splitting two strings joined by the separator gives the pieces of each, in order |
| LinePatterns.LeadingWord | src/main/java/com/defold/extension/pipeline/LuaNextTranspiler.java:91 | the severity group is found exactly when one of the three lower-case words is present, and it names that word |
| LinePatterns.MatchLocation | src/main/java/com/defold/extension/pipeline/LuaNextTranspiler.java:91 | `:(\d+):(\d+)` followed by the closing text is found exactly when such a location exists, and the group lengths are that location's |
| LinePatterns.LocationUnique | src/main/java/com/defold/extension/pipeline/LuaNextTranspiler.java:91 | a location starting at an index has exactly the digit runs as its groups |
| LinePatterns.LeastMessageEnd | src/main/java/com/defold/extension/pipeline/LuaNextTranspiler.java:91 | the lazy message group ends at the least index after which the line can end, and no earlier index works |
| LinePatterns.TailMessageSemantics | src/main/java/com/defold/extension/pipeline/LuaNextTranspiler.java:91 | the tail `\s*(.*?)(?:\s*\[(\w+)\])?` matches whenever any split of it does, uses the longest whitespace run, and has the shortest message for that run |
| LinePatterns.SeverityColon | src/main/java/com/defold/extension/pipeline/LuaNextTranspiler.java:95 | the simple format's whitespace, severity word and ':' are found exactly when the word and ':' follow the whitespace run, and it gives the index after the ':' |
| LinePatterns.PathEnd | src/main/java/com/defold/extension/pipeline/LuaNextTranspiler.java:91 | the greedy `(.+)` path ends at the last index after which the rest of the pattern matches; every working end is at most that |
| LinePatterns.MatchFromPath | src/main/java/com/defold/extension/pipeline/LuaNextTranspiler.java:91 | the match exists exactly when some path end works, and it captures the text up to the greedy end |
| LinePatterns.GreedyPathIs | src/main/java/com/defold/extension/pipeline/LuaNextTranspiler.java:95 | a path end with no later working end is the one the match uses |
| LinePatterns.MatchWellFormed | src/main/java/com/defold/extension/pipeline/LuaNextTranspiler.java:105-108 | every match captures one of the three words and two nonempty digit groups, so `parseSeverity` never reaches its default and `parseInt` sees only digits |
| LinePatterns.MatchPrettyMeaning | src/main/java/com/defold/extension/pipeline/LuaNextTranspiler.java:90-92 | what `MatchPretty` computes: the pretty pattern matches exactly when some severity word and path fit; it captures that word and the longest path that fits |
| LinePatterns.PrettyNeedsClose | src/main/java/com/defold/extension/pipeline/LuaNextTranspiler.java:91 | a line the pretty pattern matches holds "]:" |
| LinePatterns.MatchSimpleMeaning | src/main/java/com/defold/extension/pipeline/LuaNextTranspiler.java:94-96 | what `MatchSimple` computes: the simple pattern matches exactly when some path fits, and it captures the longest path that fits |
| LineRoundTrip.TailRoundTrip | src/main/java/com/defold/extension/pipeline/LuaNextTranspiler.java:91 | the tail group gives back exactly the printed message, with the code left out |
| LineRoundTrip.PrettyRoundTrip | src/main/java/com/defold/extension/pipeline/LuaNextTranspiler.java:90-92 | a printed pretty line is read back into its word, path, digit groups and message, whatever ':' or "]:" the path holds |
| SimpleRoundTrip.SeverityAtColon | src/main/java/com/defold/extension/pipeline/LuaNextTranspiler.java:95 | a space, a printed word and ':' are read as that severity, ending after the ':' |
| SimpleRoundTrip.SimpleRoundTrip | src/main/java/com/defold/extension/pipeline/LuaNextTranspiler.java:94-96 | a printed simple line whose message has no ':' is read back into its parts, whatever ':' the path holds |
| SimpleRoundTrip.SimpleLineNotPretty | src/main/java/com/defold/extension/pipeline/LuaNextTranspiler.java:103-119 | the pretty pattern, tried first, does not match a simple line whose path has no ']' |
| ErrorParser.MatchLine | src/main/java/com/defold/extension/pipeline/LuaNextTranspiler.java:103-119 | the pretty match wins when there is one; otherwise the simple match is used; there is no result only when neither matches; a result always holds a printed word and two digit groups |
| ErrorParser.IssueOf | src/main/java/com/defold/extension/pipeline/LuaNextTranspiler.java:105-114 | fails exactly when the line or the column exceeds the int range, with the failing group's message; otherwise there is an issue exactly when the path maps, and it carries the severity, the mapped path, the line number and the trimmed message |
| ErrorParser.ParseLine | src/main/java/com/defold/extension/pipeline/LuaNextTranspiler.java:99-131 | a blank or unmatched line gives nothing; any other line gives what its match yields |
| ErrorParser.ParseLines | src/main/java/com/defold/extension/pipeline/LuaNextTranspiler.java:99-131 | each line adds at most one issue |
| ErrorParser.FirstFailureWins | src/main/java/com/defold/extension/pipeline/LuaNextTranspiler.java:99-131 | the parse fails exactly when some line's `parseInt` throws, and then with the message of the first such line |
| ErrorParser.ParseErrors | src/main/java/com/defold/extension/pipeline/LuaNextTranspiler.java:87-134 | the call fails exactly when one of the pieces `split` keeps fails, and otherwise gives at most one issue per piece |
| ErrorParser.ParseLinesAppend | src/main/java/com/defold/extension/pipeline/LuaNextTranspiler.java:99-133 | parsing joined lines is parsing each part in order; the first failure wins |
| ErrorParser.SilentLineIgnored | src/main/java/com/defold/extension/pipeline/LuaNextTranspiler.java:100-101 | inserting a blank or unmatched line anywhere changes nothing |
| ErrorParser.SilentLines | src/main/java/com/defold/extension/pipeline/LuaNextTranspiler.java:99-131 | lines that are all silent give no issues |
| ErrorParser.TrailingEmptyIgnored | src/main/java/com/defold/extension/pipeline/LuaNextTranspiler.java:98 | dropping trailing empty pieces, as `split` does, does not change the result |
| ErrorParser.ParseErrorsSplit | src/main/java/com/defold/extension/pipeline/LuaNextTranspiler.java:98-133 | `parseErrors` equals parsing the plain split on '\n' |
| ErrorParser.EmptyOutput | src/test/java/com/defold/extension/pipeline/LuaNextTranspilerTest.java:99-105 | empty output gives no issues |
| ErrorParser.SilentOutput | src/main/java/com/defold/extension/pipeline/LuaNextTranspiler.java:98-133 | output made only of silent lines gives no issues |
| PrintedIssues.CapturesIssue | src/main/java/com/defold/extension/pipeline/LuaNextTranspiler.java:105-114 | the groups of a printed line yield the issue their parts describe, or the overflow failure of the line then the column |
| PrintedIssues.PrettyLineTrimmed | src/main/java/com/defold/extension/pipeline/LuaNextTranspiler.java:100 | a printed pretty line is its own trim |
| PrintedIssues.PrettyLineIssue | src/main/java/com/defold/extension/pipeline/LuaNextTranspiler.java:99-116 | a printed pretty line gives the issue its parts describe |
| PrintedIssues.SimpleLineIssue | src/main/java/com/defold/extension/pipeline/LuaNextTranspiler.java:118-130 | a printed simple line gives the issue its parts describe |
| PrintedIssues.ColumnDiscarded | src/main/java/com/defold/extension/pipeline/LuaNextTranspiler.java:108 | pretty lines that differ only in a column within the int range give the same result |
| PrintedIssues.CodeDropped | src/main/java/com/defold/extension/pipeline/LuaNextTranspiler.java:91 | the bracketed code never changes the result of a pretty line |
| PrintedIssues.LineZeroAccepted | src/main/java/com/defold/extension/pipeline/LuaNextTranspiler.java:107-113 | a line number of 0 is kept as it is |
| PrintedIssues.LineOverflowFails | src/main/java/com/defold/extension/pipeline/LuaNextTranspiler.java:107 | a line number above the int range fails the whole parse with the exception's message, so the issues before it are lost |
| ProcessOutput.ReadLines | src/main/java/com/defold/extension/pipeline/LuaNextTranspiler.java:62-69 | every line read is free of '\n' and '\r'; no lines are read exactly when the output is empty |
| ProcessOutput.Collect | src/main/java/com/defold/extension/pipeline/LuaNextTranspiler.java:65-69 | the gathered output is empty exactly when no line was read, and otherwise ends in "\n" |
| ProcessOutput.ReadCollected | src/main/java/com/defold/extension/pipeline/LuaNextTranspiler.java:65-69 | reading gathered lines gives them back |
| ProcessOutput.ParseCollected | src/main/java/com/defold/extension/pipeline/LuaNextTranspiler.java:68-73 | parsing the gathered output parses exactly the lines that were read; the trailing "\n" adds nothing |
| ProcessOutput.ParseRawOutput | src/main/java/com/defold/extension/pipeline/LuaNextTranspiler.java:62-73 | from raw compiler output to issues: the lines `readLine` returns, parsed in order |
| ProcessOutput.CrLfEndsLine | src/main/java/com/defold/extension/pipeline/LuaNextTranspiler.java:67 | "\r\n" ends a line, and an unterminated last line is still read |
| ProcessOutput.CrEndsLine | src/main/java/com/defold/extension/pipeline/LuaNextTranspiler.java:67 | a lone "\r" ends a line, and a final terminator starts no new line |
| ProcessOutput.EmptyLineRead | src/main/java/com/defold/extension/pipeline/LuaNextTranspiler.java:67 | two terminators in a row give an empty line |
| Transpiler.FailureIssue | src/main/java/com/defold/extension/pipeline/LuaNextTranspiler.java:75-82 | an ERROR at "/.luanextrc", line 1, whose message is "Failed to run LuaNext compiler: " followed by the exception message, or by "null" |
| Transpiler.SourceArgumentsAppend | src/main/java/com/defold/extension/pipeline/LuaNextTranspiler.java:48-55 | the arguments of a joined listing are those of each part, in listing order |
| Transpiler.SourceArgumentsMembers | src/main/java/com/defold/extension/pipeline/LuaNextTranspiler.java:48-55 | every argument is the path of a listed ".luax" entry, and every such entry's path is an argument |
| Transpiler.Command | src/main/java/com/defold/extension/pipeline/LuaNextTranspiler.java:41-55 | the binary comes first; a failed listing leaves only the five fixed elements; every element after them is the path of a listed ".luax" entry |
| Transpiler.RunIssues | src/main/java/com/defold/extension/pipeline/LuaNextTranspiler.java:57-82 | a run that threw gives one failure issue; a finished run gives the parsed issues of the lines `readLine` returned, or one failure issue with the parse message when parsing threw |
| Transpiler.Transpile | src/main/java/com/defold/extension/pipeline/LuaNextTranspiler.java:31-39 | a missing configuration file puts the warning first |
| Transpiler.ExitCodeIgnored | src/main/java/com/defold/extension/pipeline/LuaNextTranspiler.java:71 | the compiler's exit code never changes the result |
| Transpiler.ParsedRun | src/main/java/com/defold/extension/pipeline/LuaNextTranspiler.java:57-73 | after a clean run, the issues are the optional warning followed by the parsed diagnostics, in order |
| Transpiler.ThrownRun | src/main/java/com/defold/extension/pipeline/LuaNextTranspiler.java:75-82 | when running throws, the issues are the optional warning followed by one failure issue |
| Transpiler.ParseFailedRun | src/main/java/com/defold/extension/pipeline/LuaNextTranspiler.java:73-82 | when parsing throws, the issues are the optional warning followed by one failure issue with the parse message, and no diagnostics |
| Transpiler.ConfigWarningOnly | src/main/java/com/defold/extension/pipeline/LuaNextTranspiler.java:31-39 | a missing configuration file adds the warning in front and changes nothing else |
| Transpiler.CommandBinary | src/main/java/com/defold/extension/pipeline/LuaNextTranspiler.java:24-29 | the command's binary ends in ".exe" exactly on Windows hosts |
| Transpiler.CommandArguments | src/main/java/com/defold/extension/pipeline/LuaNextTranspiler.java:41-55 | after the binary and the four fixed arguments come exactly the listed source files, in listing order |
| Scenarios.TestFileResolves | src/main/java/com/defold/extension/pipeline/LuaNextTranspiler.java:150-152 | under "/path/to", the test file maps to "//test.luax" as the code is written and to "/test.luax" with the corrected mapping |
| Scenarios.PrettyFormatOutput | src/test/java/com/defold/extension/pipeline/LuaNextTranspilerTest.java:60-81 | the pretty test's output gives the ERROR at line 15 and then the WARNING at line 20, at the mapped path, with codes dropped |
| Scenarios.PrettyFormatTest | src/test/java/com/defold/extension/pipeline/LuaNextTranspilerTest.java:60-81 | the pretty test gives its two issues at "//test.luax" as the code is written, and at the expected "/test.luax" when corrected |
| Scenarios.SimpleFormatOutput | src/test/java/com/defold/extension/pipeline/LuaNextTranspilerTest.java:83-97 | the simple test's output gives the same two issues |
| Scenarios.SimpleFormatTest | src/test/java/com/defold/extension/pipeline/LuaNextTranspilerTest.java:83-97 | the simple test under both mappings |
| Scenarios.EmptyOutputTest | src/test/java/com/defold/extension/pipeline/LuaNextTranspilerTest.java:99-105 | empty output under "/tmp" gives no issues |
| Scenarios.IgnoresEmptyLinesTest | src/test/java/com/defold/extension/pipeline/LuaNextTranspilerTest.java:107-115 | two diagnostics with blank lines between them give exactly two issues, in order |
| Scenarios.BlankLinesBetween | src/test/java/com/defold/extension/pipeline/LuaNextTranspilerTest.java:109 | two blank lines between two lines and a final "\n" add nothing |

## Left out

- Process I/O is an input, not modelled: starting the compiler, the working
  directory, merging stderr into stdout, and waiting for it. A run is given as
  the raw text it wrote and its exit code, or as the message of the exception
  it threw.
- Charset decoding of the compiler's output is not modelled: the output is
  given as characters.
- `File.exists`, `File.listFiles` and `getAbsolutePath` are inputs. The
  listing comes in the order the host returns it, and a failed listing is
  `None`.
- `getCanonicalPath` is a host function. It resolves ".", ".." and links, and
  `None` stands for its IOException.
- `System.getProperty` values are inputs. `toLowerCase` is modelled for ASCII
  letters only, with no locale rules.
- Text.Lower: ASCII only. Non-ASCII upper-case letters, which Java would also
  lower-case, are left as they are.
- A thread interrupt during `waitFor` is one more exception message under
  `Threw`.
- The `ILuaTranspiler` interface, the JUnit test class and the reflection helpers
  the tests use to reach private methods are not modelled.
- The round trips assume the printed parts that the patterns can give back:
  - a nonempty path of non-terminator characters;
  - a message with visible ends and no ']';
  - for the simple format, a message without ':'.

  For other parts the patterns still run, and `MatchPrettyMeaning` and
  `MatchSimpleMeaning` state what they capture.
- Line number 0 is accepted (`PrintedIssues.LineZeroAccepted`), though no
  editor line carries that number. Nothing in the code or its tests says that is wrong, so
  the model keeps it and reports it here rather than as a finding.

## Findings

| source | as written | input that shows it | evidently intended | confidence | as-written member | corrected member |
|---|---|---|---|---|---|---|
| src/main/java/com/defold/extension/pipeline/LuaNextTranspiler.java:151-152 | the rest after the source directory keeps its leading separator, and "/" is put in front of it again | source directory "/project/src", file "/project/src/test.luax": result "//test.luax" | "/test.luax", as the tests at LuaNextTranspilerTest.java:72, 78, 95 and 121 expect | not executed | ResourcePaths.DoubleSlashUnderSourceDir | ResourcePaths.IntendedResolvesBack |
| src/main/java/com/defold/extension/pipeline/LuaNextTranspiler.java:150 | a plain string-prefix test accepts a sibling directory whose name extends the source directory's | source directory "/project/src", file "/project/srcX/a.luax": result "/X/a.luax" | no result, because the file lies outside the source directory | not executed | ResourcePaths.SiblingDirectoryAccepted | ResourcePaths.IntendedResourcePath |

The corrected mapping, `IntendedResourcePath`, is what `ErrorParser.Resolved`
applies under `Corrected`. `Scenarios.PrettyFormatTest`,
`Scenarios.SimpleFormatTest` and `Scenarios.IgnoresEmptyLinesTest` show that
it gives the results the tests expect. `AsWritten` keeps the code's
behaviour.
