/** `LuaNextTranspiler.transpile`: find the compiler binary for the host,
    build its command line, run it, and turn its output into issues. Every
    exception inside becomes one ERROR issue, so the call always returns.

    What the code asks of the host comes in as an `Environment`: the two
    system properties, the absolute paths of the directories involved,
    whether the configuration file exists, the source directory's listing, the
    path facts `toResourcePath` needs, and how running the compiler went. */
module Transpiler {
  import opened Wrappers
  import opened Text
  import opened Integers
  import opened Diagnostics
  import opened Platforms
  import opened ErrorParser
  import opened ProcessOutput

  /** `getBuildFileResourcePath()`: where configuration issues are anchored. */
  const BuildFileResourcePath := "/.luanextrc"

  /** `getSourceExt()`. */
  const SourceExt := "luax"

  const ConfigMissingMessage := "No .luanextrc configuration file found. Using compiler defaults."
  const FailurePrefix := "Failed to run LuaNext compiler: "

  /** An entry of the source directory: its name and its absolute path. */
  datatype Entry = Entry(name: string, absolutePath: string)

  /** Running the compiler: it started and wrote `raw` to its merged output
      streams before exiting with `exitCode`, or starting or waiting threw an
      exception whose message may be null. */
  datatype Outcome =
    | Ran(raw: string, exitCode: int)
    | Threw(message: Option<string>)

  datatype Environment = Environment(
    osName: string,
    osArch: string,
    pluginDir: string,
    configPath: string,
    configExists: bool,
    outputDir: string,
    listing: Option<seq<Entry>>,
    host: Host,
    outcome: Outcome)

  /** The warning for a missing configuration file. */
  const ConfigWarning := Issue(Warning, BuildFileResourcePath, 1, ConfigMissingMessage)

  /** The issue a caught exception becomes; string concatenation writes a null
      message as "null". */
  function FailureIssue(message: Option<string>): (i: Issue)
    ensures i.severity == Error && i.resourcePath == BuildFileResourcePath && i.lineNumber == 1
    ensures StartsWith(i.message, FailurePrefix)
    ensures i.message[|FailurePrefix|..] == if message.None? then "null" else message.value
  {
    var text := match message case None => "null" case Some(m) => m;
    var i := Issue(Error, BuildFileResourcePath, 1, FailurePrefix + text);
    assert i.message[..|FailurePrefix|] == FailurePrefix;
    assert i.message[|FailurePrefix|..] == text;
    i
  }

  /** The listing filter: a name ending in ".luax". */
  predicate IsSource(e: Entry) {
    EndsWith(e.name, "." + SourceExt)
  }

  /** What one entry adds to the command line. */
  function Argument(e: Entry): seq<string> {
    if IsSource(e) then [e.absolutePath] else []
  }

  /** The absolute paths of the listed source files, in listing order. */
  function SourceArguments(entries: seq<Entry>): (args: seq<string>)
    ensures |args| <= |entries|
  {
    if entries == [] then [] else Argument(entries[0]) + SourceArguments(entries[1..])
  }

  /** The command line: the binary, the fixed options, then the source files;
      a listing that failed adds none. */
  function Command(env: Environment): (cmd: seq<string>)
    ensures |cmd| >= 5 && cmd[0] == BinaryPath(env.pluginDir, HostPlatform(env.osName, env.osArch))
    ensures env.listing.None? ==> |cmd| == 5
    ensures env.listing.Some? ==> forall i :: 5 <= i < |cmd| ==>
      exists j :: 0 <= j < |env.listing.value| && IsSource(env.listing.value[j]) && env.listing.value[j].absolutePath == cmd[i]
  {
    var fixed := [BinaryPath(env.pluginDir, HostPlatform(env.osName, env.osArch)), "compile", "--target=5.1",
                  "--config=" + env.configPath, "--output-dir=" + env.outputDir];
    match env.listing
    case None => fixed
    case Some(entries) =>
      SourceArgumentsMembers(entries);
      var args := SourceArguments(entries);
      assert forall i :: 5 <= i < |fixed + args| ==> (fixed + args)[i] in args by {
        forall i | 5 <= i < |fixed + args| ensures (fixed + args)[i] in args {
          assert (fixed + args)[i] == args[i - 5];
        }
      }
      fixed + args
  }

  /** What the compiler's run adds to the issues: the parsed diagnostics, or
      the single failure issue when running or parsing threw. */
  function RunIssues(outcome: Outcome, h: Host): (r: seq<Issue>)
    ensures outcome.Threw? ==> r == [FailureIssue(outcome.message)]
    ensures outcome.Ran? && ParseLines(ReadLines(outcome.raw), h).Success? ==>
      r == ParseLines(ReadLines(outcome.raw), h).value
    ensures outcome.Ran? && ParseLines(ReadLines(outcome.raw), h).Failure? ==>
      r == [FailureIssue(Some(ParseLines(ReadLines(outcome.raw), h).error))]
  {
    match outcome
    case Threw(m) => [FailureIssue(m)]
    case Ran(raw, _) =>
      ParseRawOutput(raw, h);
      match ParseErrors(Collect(ReadLines(raw)), h)
      case Success(issues) => issues
      case Failure(m) => [FailureIssue(Some(m))]
  }

  /** `transpile(pluginDir, sourceDir, outputDir)`: the command it runs and the
      issues it returns. */
  function Transpile(env: Environment): (r: (seq<string>, seq<Issue>))
    ensures !env.configExists ==> |r.1| > 0 && r.1[0] == ConfigWarning
  {
    var warnings := if env.configExists then [] else [ConfigWarning];
    (Command(env), warnings + RunIssues(env.outcome, env.host))
  }

  /** The source arguments are exactly the paths of the entries that pass the
      filter, each in its listing position relative to the others. */
  lemma {:induction false} SourceArgumentsAppend(a: seq<Entry>, b: seq<Entry>)
    ensures SourceArguments(a + b) == SourceArguments(a) + SourceArguments(b)
    decreases |a|
  {
    if a == [] {
      assert a + b == b;
    } else {
      assert (a + b)[0] == a[0];
      assert (a + b)[1..] == a[1..] + b;
      SourceArgumentsAppend(a[1..], b);
      var x, y, z := Argument(a[0]), SourceArguments(a[1..]), SourceArguments(b);
      assert x + (y + z) == (x + y) + z;
    }
  }

  /** Every source argument is the path of a listed ".luax" entry, and every
      listed ".luax" entry has its path among the arguments. */
  lemma {:induction false} SourceArgumentsMembers(entries: seq<Entry>)
    ensures forall p :: p in SourceArguments(entries) ==>
      exists i :: 0 <= i < |entries| && IsSource(entries[i]) && entries[i].absolutePath == p
    ensures forall i :: 0 <= i < |entries| && IsSource(entries[i]) ==> entries[i].absolutePath in SourceArguments(entries)
    decreases |entries|
  {
    if entries != [] {
      SourceArgumentsMembers(entries[1..]);
      var rest := entries[1..];
      forall p | p in SourceArguments(rest)
        ensures exists i :: 0 <= i < |entries| && IsSource(entries[i]) && entries[i].absolutePath == p
      {
        var j :| 0 <= j < |rest| && IsSource(rest[j]) && rest[j].absolutePath == p;
        assert entries[j + 1] == rest[j];
      }
      forall i | 0 <= i < |entries| && IsSource(entries[i])
        ensures entries[i].absolutePath in SourceArguments(entries)
      {
        if i > 0 {
          assert entries[i] == rest[i - 1];
        }
      }
    }
  }

  /** The compiler's exit code never changes the result. */
  lemma ExitCodeIgnored(env: Environment, raw: string, c1: int, c2: int)
    ensures Transpile(env.(outcome := Ran(raw, c1))) == Transpile(env.(outcome := Ran(raw, c2)))
  {
  }

  /** When the compiler ran and its output parsed, the issues are the
      configuration warning, if any, then the diagnostics of the lines
      `readLine` returned, in order. */
  lemma ParsedRun(env: Environment, raw: string, exitCode: int, issues: seq<Issue>)
    requires env.outcome == Ran(raw, exitCode)
    requires ParseLines(ReadLines(raw), env.host) == Success(issues)
    ensures Transpile(env).1 == (if env.configExists then [] else [ConfigWarning]) + issues
  {
  }

  /** When running the compiler threw, exactly one ERROR issue follows the
      configuration warning. */
  lemma ThrownRun(env: Environment, message: Option<string>)
    requires env.outcome == Threw(message)
    ensures Transpile(env).1 == (if env.configExists then [] else [ConfigWarning]) + [FailureIssue(message)]
  {
  }

  /** When parsing the output threw, a line number or column too large for an
      `int`, exactly one ERROR issue carrying the exception's message follows
      the configuration warning, and none of the diagnostics appear. */
  lemma ParseFailedRun(env: Environment, raw: string, exitCode: int, message: string)
    requires env.outcome == Ran(raw, exitCode)
    requires ParseLines(ReadLines(raw), env.host) == Failure(message)
    ensures Transpile(env).1 == (if env.configExists then [] else [ConfigWarning]) + [FailureIssue(Some(message))]
  {
  }

  /** A missing configuration file adds the warning and changes nothing else. */
  lemma ConfigWarningOnly(env: Environment)
    ensures Transpile(env.(configExists := false)).1 == [ConfigWarning] + Transpile(env.(configExists := true)).1
    ensures Transpile(env.(configExists := false)).0 == Transpile(env.(configExists := true)).0
  {
    var run := RunIssues(env.outcome, env.host);
    assert Transpile(env.(configExists := false)).1 == [ConfigWarning] + run;
    assert Transpile(env.(configExists := true)).1 == [] + run;
    assert [] + run == run;
  }

  /** On Windows the command starts with the ".exe" binary, and elsewhere with
      the plain one. */
  lemma CommandBinary(env: Environment)
    ensures EndsWith(Command(env)[0], ".exe") <==> NamesWindows(Lower(env.osName))
  {
  }

  /** The command is the binary, the four fixed arguments and the listed
      source files in listing order. */
  lemma CommandArguments(env: Environment, entries: seq<Entry>)
    requires env.listing == Some(entries)
    ensures Command(env)[5..] == SourceArguments(entries)
    ensures forall i :: 0 <= i < |entries| && IsSource(entries[i]) ==> entries[i].absolutePath in Command(env)[5..]
  {
    SourceArgumentsMembers(entries);
  }
}
