/**
 * The lime command lines the build, test-build and test goals run, the
 * decoders that read them back, and how an exit code becomes an outcome.
 */
module Commands {
  import opened Common
  import opened Descriptor

  // ---------------------------------------------------------------------
  // Repeatable `--flag=value` options
  // ---------------------------------------------------------------------

  /** One `prefix + value` argument per value, in order. */
  function Prefixed(values: seq<string>, prefix: string): (r: seq<string>)
    ensures |r| == |values|
    ensures forall i :: 0 <= i < |values| ==> r[i] == prefix + values[i]
  {
    seq(|values|, i requires 0 <= i < |values| => prefix + values[i])
  }

  /** The leading run of arguments that start with `prefix`, with the prefix removed, and what follows it. */
  function TakePrefixed(args: seq<string>, prefix: string): (r: (seq<string>, seq<string>))
    ensures |r.1| <= |args|
    ensures |r.1| > 0 ==> !(prefix <= r.1[0])
    decreases |args|
  {
    if |args| > 0 && prefix <= args[0] then
      var rest := TakePrefixed(args[1..], prefix);
      ([args[0][|prefix|..]] + rest.0, rest.1)
    else ([], args)
  }

  /** Reading back a run of prefixed arguments stops exactly where the run ends. */
  lemma {:induction false} TakePrefixedRoundTrip(values: seq<string>, prefix: string, rest: seq<string>)
    requires |rest| > 0 ==> !(prefix <= rest[0])
    ensures TakePrefixed(Prefixed(values, prefix) + rest, prefix) == (values, rest)
  {
    var args := Prefixed(values, prefix) + rest;
    if |values| == 0 {
      assert args == rest;
    } else {
      assert args[0] == prefix + values[0];
      assert prefix <= args[0];
      assert args[0][|prefix|..] == values[0];
      assert args[1..] == Prefixed(values[1..], prefix) + rest;
      TakePrefixedRoundTrip(values[1..], prefix, rest);
      assert [values[0]] + values[1..] == values;
    }
  }

  /** The extra lists every build passes on, in the order they are appended. */
  datatype Extras = Extras(sources: seq<string>, dependencies: seq<string>, haxedefs: seq<string>, haxelibs: seq<string>)

  function ExtraArgs(e: Extras): (r: seq<string>) {
    Prefixed(e.sources, "--source=") + Prefixed(e.dependencies, "--dependency=")
    + Prefixed(e.haxedefs, "--haxedef=") + Prefixed(e.haxelibs, "--haxelib=")
  }

  /** The extra lists back from the tail of an argument vector, when the tail is exactly those options. */
  function ParseExtras(args: seq<string>): Option<Extras> {
    var (sources, a1) := TakePrefixed(args, "--source=");
    var (dependencies, a2) := TakePrefixed(a1, "--dependency=");
    var (haxedefs, a3) := TakePrefixed(a2, "--haxedef=");
    var (haxelibs, a4) := TakePrefixed(a3, "--haxelib=");
    if a4 == [] then Some(Extras(sources, dependencies, haxedefs, haxelibs)) else None
  }

  /** Two option names that differ at position `i` cannot prefix one another's arguments. */
  lemma NotPrefix(s: string, p: string, q: string, i: nat)
    requires i < |p| && i < |q| && p[i] != q[i]
    ensures !(q <= p + s)
  {
    assert (p + s)[i] == p[i];
  }

  /** A run of `p` options followed by `rest` does not start with a `q` option, when neither part does. */
  lemma FirstNotPrefixed(values: seq<string>, p: string, rest: seq<string>, q: string, i: nat)
    requires i < |p| && i < |q| && p[i] != q[i]
    requires |rest| > 0 ==> !(q <= rest[0])
    ensures |Prefixed(values, p) + rest| > 0 ==> !(q <= (Prefixed(values, p) + rest)[0])
  {
    if |values| > 0 {
      NotPrefix(values[0], p, q, i);
    }
  }

  /** The extra options read back as the lists they came from. */
  lemma ExtrasRoundTrip(e: Extras)
    ensures ParseExtras(ExtraArgs(e)) == Some(e)
  {
    var t4: seq<string> := [];
    var t3 := Prefixed(e.haxelibs, "--haxelib=") + t4;
    var t2 := Prefixed(e.haxedefs, "--haxedef=") + t3;
    var t1 := Prefixed(e.dependencies, "--dependency=") + t2;
    var t0 := Prefixed(e.sources, "--source=") + t1;
    assert ExtraArgs(e) == t0;
    FirstNotPrefixed(e.haxelibs, "--haxelib=", t4, "--haxedef=", 6);
    FirstNotPrefixed(e.haxelibs, "--haxelib=", t4, "--dependency=", 2);
    FirstNotPrefixed(e.haxelibs, "--haxelib=", t4, "--source=", 2);
    FirstNotPrefixed(e.haxedefs, "--haxedef=", t3, "--dependency=", 2);
    FirstNotPrefixed(e.haxedefs, "--haxedef=", t3, "--source=", 2);
    FirstNotPrefixed(e.dependencies, "--dependency=", t2, "--source=", 2);
    TakePrefixedRoundTrip(e.sources, "--source=", t1);
    TakePrefixedRoundTrip(e.dependencies, "--dependency=", t2);
    TakePrefixedRoundTrip(e.haxedefs, "--haxedef=", t3);
    TakePrefixedRoundTrip(e.haxelibs, "--haxelib=", t4);
  }

  // ---------------------------------------------------------------------
  // `lime build` for the build goal
  // ---------------------------------------------------------------------

  /** The parameters of the build goal that reach the command line. */
  datatype BuildConfig = BuildConfig(
    projectFile: Path,
    target: string,
    isDebug: bool,
    isFinal: bool,
    buildDirectory: Path,
    outputFileName: Option<string>,
    additionalSources: Option<seq<string>>,
    additionalDependencies: Option<seq<string>>,
    additionalHaxedefs: Option<seq<string>>,
    additionalHaxelibs: Option<seq<string>>)

  /** The extra lists of a goal's parameters; a null list contributes nothing. */
  function ExtrasOf(sources: Option<seq<string>>, dependencies: Option<seq<string>>,
                    haxedefs: Option<seq<string>>, haxelibs: Option<seq<string>>): Extras {
    Extras(Items(sources), Items(dependencies), Items(haxedefs), Items(haxelibs))
  }

  /** The switches `-debug` and `-final`, each present only when set. */
  function ModeArgs(isDebug: bool, isFinal: bool): seq<string> {
    (if isDebug then ["-debug"] else []) + (if isFinal then ["-final"] else [])
  }

  /**
   * `haxelib run lime build <project> <target> [-debug] [-final]
   * --app-path=<build dir> [--app-file=<name>]` followed by the extra
   * sources, dependencies, haxedefs and haxelibs.
   */
  function BuildArgs(c: BuildConfig, abs: Path -> string): (r: seq<string>)
    ensures |r| >= 6 && r[0] == "run"
  {
    ["run", "lime", "build", abs(c.projectFile), c.target] + ModeArgs(c.isDebug, c.isFinal)
    + ["--app-path=" + abs(c.buildDirectory)]
    + (if c.outputFileName.Some? then ["--app-file=" + c.outputFileName.value] else [])
    + ExtraArgs(ExtrasOf(c.additionalSources, c.additionalDependencies, c.additionalHaxedefs, c.additionalHaxelibs))
  }

  /** What a `lime build` command line asks for. */
  datatype BuildRequest = BuildRequest(
    project: string, target: string, isDebug: bool, isFinal: bool,
    appPath: string, appFile: Option<string>, extras: Extras)

  /** The mode switches back from the start of `args`, and what follows them. */
  function ParseMode(args: seq<string>): (bool, bool, seq<string>) {
    var (isDebug, a1) := if |args| > 0 && args[0] == "-debug" then (true, args[1..]) else (false, args);
    var (isFinal, a2) := if |a1| > 0 && a1[0] == "-final" then (true, a1[1..]) else (false, a1);
    (isDebug, isFinal, a2)
  }

  lemma ParseModeRoundTrip(isDebug: bool, isFinal: bool, rest: seq<string>)
    requires |rest| > 0 && rest[0] != "-debug" && rest[0] != "-final"
    ensures ParseMode(ModeArgs(isDebug, isFinal) + rest) == (isDebug, isFinal, rest)
  {
    var m := ModeArgs(isDebug, isFinal);
    if isDebug {
      assert (m + rest)[0] == "-debug";
      assert (m + rest)[1..] == (if isFinal then ["-final"] else []) + rest;
    } else if isFinal {
      assert m + rest == ["-final"] + rest;
      assert (m + rest)[0] == "-final" != "-debug";
      assert (m + rest)[1..] == rest;
    } else {
      assert m + rest == rest;
    }
  }

  /** The project and target after `haxelib run lime <verb>`, and what follows them. */
  function ParseHead(args: seq<string>, verb: string): Option<(string, string, seq<string>)> {
    if |args| < 5 || args[..3] != ["run", "lime", verb] then None
    else Some((args[3], args[4], args[5..]))
  }

  lemma HeadRoundTrip(verb: string, project: string, target: string, rest: seq<string>)
    ensures ParseHead(["run", "lime", verb, project, target] + rest, verb) == Some((project, target, rest))
  {
    var args := ["run", "lime", verb, project, target] + rest;
    assert args[..3] == ["run", "lime", verb];
    assert args[5..] == rest;
  }

  /** The output directory, the optional output file name and the extra lists, after the mode switches. */
  function ParseBuildTail(a1: seq<string>): Option<(string, Option<string>, Extras)> {
    if |a1| == 0 || !("--app-path=" <= a1[0]) then None
    else
      var a2 := a1[1..];
      var (appFile, a3) := if |a2| > 0 && "--app-file=" <= a2[0] then (Some(a2[0][|"--app-file="|..]), a2[1..]) else (None, a2);
      match ParseExtras(a3)
      case None => None
      case Some(e) => Some((a1[0][|"--app-path="|..], appFile, e))
  }

  lemma BuildTailRoundTrip(dir: string, file: Option<string>, e: Extras)
    ensures ParseBuildTail(["--app-path=" + dir] + (if file.Some? then ["--app-file=" + file.value] else []) + ExtraArgs(e))
            == Some((dir, file, e))
  {
    var appFile := if file.Some? then ["--app-file=" + file.value] else [];
    var a1 := ["--app-path=" + dir] + appFile + ExtraArgs(e);
    assert a1[0][|"--app-path="|..] == dir;
    var a2 := a1[1..];
    assert a2 == appFile + ExtraArgs(e);
    ExtrasRoundTrip(e);
    if file.Some? {
      assert a2[0][|"--app-file="|..] == file.value;
      assert a2[1..] == ExtraArgs(e);
    } else {
      assert a2 == ExtraArgs(e);
      if |a2| > 0 {
        ExtraArgsNotAppFile(e);
      }
    }
  }

  /** Reads a `lime build` command line of the build goal. */
  function ParseBuildArgs(args: seq<string>): Option<BuildRequest> {
    match ParseHead(args, "build")
    case None => None
    case Some((project, target, rest)) =>
      var (isDebug, isFinal, a1) := ParseMode(rest);
      match ParseBuildTail(a1)
      case None => None
      case Some((appPath, appFile, e)) => Some(BuildRequest(project, target, isDebug, isFinal, appPath, appFile, e))
  }

  /**
   * The build command line says everything the build goal configured: the
   * project, the target, the two switches, the output directory and file
   * name, and every extra list in its order.
   */
  lemma BuildArgsRoundTrip(c: BuildConfig, abs: Path -> string)
    ensures ParseBuildArgs(BuildArgs(c, abs)) == Some(BuildRequest(
      abs(c.projectFile), c.target, c.isDebug, c.isFinal, abs(c.buildDirectory), c.outputFileName,
      ExtrasOf(c.additionalSources, c.additionalDependencies, c.additionalHaxedefs, c.additionalHaxelibs)))
  {
    var e := ExtrasOf(c.additionalSources, c.additionalDependencies, c.additionalHaxedefs, c.additionalHaxelibs);
    var appFile := if c.outputFileName.Some? then ["--app-file=" + c.outputFileName.value] else [];
    var tail := ["--app-path=" + abs(c.buildDirectory)] + appFile + ExtraArgs(e);
    var mode := ModeArgs(c.isDebug, c.isFinal);
    assert BuildArgs(c, abs) == ["run", "lime", "build", abs(c.projectFile), c.target] + (mode + tail);
    HeadRoundTrip("build", abs(c.projectFile), c.target, mode + tail);
    NotPrefix(abs(c.buildDirectory), "--app-path=", "-debug", 1);
    NotPrefix(abs(c.buildDirectory), "--app-path=", "-final", 1);
    ParseModeRoundTrip(c.isDebug, c.isFinal, tail);
    BuildTailRoundTrip(abs(c.buildDirectory), c.outputFileName, e);
  }

  /** No extra option looks like `--app-file=`. */
  lemma ExtraArgsNotAppFile(e: Extras)
    requires |ExtraArgs(e)| > 0
    ensures !("--app-file=" <= ExtraArgs(e)[0])
  {
    var s := Prefixed(e.sources, "--source=");
    var d := Prefixed(e.dependencies, "--dependency=");
    var h := Prefixed(e.haxedefs, "--haxedef=");
    var l := Prefixed(e.haxelibs, "--haxelib=");
    var args := ExtraArgs(e);
    if |s| > 0 {
      assert args[0] == s[0];
      NotPrefix(e.sources[0], "--source=", "--app-file=", 2);
    } else if |d| > 0 {
      assert args[0] == d[0];
      NotPrefix(e.dependencies[0], "--dependency=", "--app-file=", 2);
    } else if |h| > 0 {
      assert args[0] == h[0];
      NotPrefix(e.haxedefs[0], "--haxedef=", "--app-file=", 2);
    } else {
      assert args[0] == l[0];
      NotPrefix(e.haxelibs[0], "--haxelib=", "--app-file=", 2);
    }
  }

  // ---------------------------------------------------------------------
  // `lime build` for the test-build goal, `lime run` for the test goal
  // ---------------------------------------------------------------------

  /** The parameters of the test-build goal that reach the command line. */
  datatype TestBuildConfig = TestBuildConfig(
    projectFile: Path,
    target: string,
    isDebug: bool,
    isFinal: bool,
    testSrcDirectory: Path,
    testGeneratedSrcDirectory: Path,
    testBuildDirectory: Path,
    additionalSources: Option<seq<string>>,
    additionalDependencies: Option<seq<string>>,
    additionalHaxedefs: Option<seq<string>>,
    additionalHaxelibs: Option<seq<string>>)

  /** The fixed options of a test build, after the mode switches. */
  function TestBuildFixed(c: TestBuildConfig, abs: Path -> string): seq<string> {
    ["--source=" + abs(c.testSrcDirectory), "--source=" + abs(c.testGeneratedSrcDirectory),
     "--app-path=" + abs(c.testBuildDirectory), "--app-file=TestsMain", "--app-main=TestsMain", "--haxelib=utest"]
  }

  /**
   * `haxelib run lime build <project> <target> [-debug] [-final]`, the test
   * sources, the generated sources, the test output directory, the fixed
   * `TestsMain` entry point and `utest`, then the extra lists.
   */
  function TestBuildArgs(c: TestBuildConfig, abs: Path -> string): (r: seq<string>)
    ensures |r| >= 11 && r[0] == "run"
  {
    ["run", "lime", "build", abs(c.projectFile), c.target] + ModeArgs(c.isDebug, c.isFinal)
    + TestBuildFixed(c, abs)
    + ExtraArgs(ExtrasOf(c.additionalSources, c.additionalDependencies, c.additionalHaxedefs, c.additionalHaxelibs))
  }

  /** What a test-build command line asks for. */
  datatype TestBuildRequest = TestBuildRequest(
    project: string, target: string, isDebug: bool, isFinal: bool,
    testSources: string, generatedSources: string, appPath: string, extras: Extras)

  /** The test sources, the generated sources, the output directory and the extra lists, after the mode switches. */
  function ParseTestBuildTail(a1: seq<string>): Option<(string, string, string, Extras)> {
    if |a1| < 6 || !("--source=" <= a1[0]) || !("--source=" <= a1[1]) || !("--app-path=" <= a1[2])
       || a1[3..6] != ["--app-file=TestsMain", "--app-main=TestsMain", "--haxelib=utest"] then None
    else
      match ParseExtras(a1[6..])
      case None => None
      case Some(e) => Some((a1[0][|"--source="|..], a1[1][|"--source="|..], a1[2][|"--app-path="|..], e))
  }

  lemma TestBuildTailRoundTrip(c: TestBuildConfig, abs: Path -> string, e: Extras)
    ensures ParseTestBuildTail(TestBuildFixed(c, abs) + ExtraArgs(e))
            == Some((abs(c.testSrcDirectory), abs(c.testGeneratedSrcDirectory), abs(c.testBuildDirectory), e))
  {
    var fixed := TestBuildFixed(c, abs);
    var a1 := fixed + ExtraArgs(e);
    assert a1[..6] == fixed;
    assert a1[3..6] == ["--app-file=TestsMain", "--app-main=TestsMain", "--haxelib=utest"];
    assert a1[6..] == ExtraArgs(e);
    assert a1[0][|"--source="|..] == abs(c.testSrcDirectory);
    assert a1[1][|"--source="|..] == abs(c.testGeneratedSrcDirectory);
    assert a1[2][|"--app-path="|..] == abs(c.testBuildDirectory);
    ExtrasRoundTrip(e);
  }

  lemma TestBuildTailHead(c: TestBuildConfig, abs: Path -> string, e: Extras)
    ensures |TestBuildFixed(c, abs) + ExtraArgs(e)| > 0
    ensures (TestBuildFixed(c, abs) + ExtraArgs(e))[0] == "--source=" + abs(c.testSrcDirectory)
  {
  }

  /** Reads a test-build command line. */
  function ParseTestBuildArgs(args: seq<string>): Option<TestBuildRequest> {
    match ParseHead(args, "build")
    case None => None
    case Some((project, target, rest)) =>
      var (isDebug, isFinal, a1) := ParseMode(rest);
      match ParseTestBuildTail(a1)
      case None => None
      case Some((testSources, generatedSources, appPath, e)) =>
        Some(TestBuildRequest(project, target, isDebug, isFinal, testSources, generatedSources, appPath, e))
  }

  /**
   * The test-build command line says everything the goal configured, and
   * always builds the `TestsMain` entry point with utest.
   */
  lemma TestBuildArgsRoundTrip(c: TestBuildConfig, abs: Path -> string)
    ensures ParseTestBuildArgs(TestBuildArgs(c, abs)) == Some(TestBuildRequest(
      abs(c.projectFile), c.target, c.isDebug, c.isFinal, abs(c.testSrcDirectory), abs(c.testGeneratedSrcDirectory),
      abs(c.testBuildDirectory),
      ExtrasOf(c.additionalSources, c.additionalDependencies, c.additionalHaxedefs, c.additionalHaxelibs)))
  {
    var e := ExtrasOf(c.additionalSources, c.additionalDependencies, c.additionalHaxedefs, c.additionalHaxelibs);
    var tail := TestBuildFixed(c, abs) + ExtraArgs(e);
    var mode := ModeArgs(c.isDebug, c.isFinal);
    assert TestBuildArgs(c, abs) == ["run", "lime", "build", abs(c.projectFile), c.target] + (mode + tail);
    HeadRoundTrip("build", abs(c.projectFile), c.target, mode + tail);
    TestBuildTailHead(c, abs, e);
    NotPrefix(abs(c.testSrcDirectory), "--source=", "-debug", 1);
    NotPrefix(abs(c.testSrcDirectory), "--source=", "-final", 1);
    ParseModeRoundTrip(c.isDebug, c.isFinal, tail);
    TestBuildTailRoundTrip(c, abs, e);
  }

  /** `haxelib run lime run <project> <target> --app-path=<test build dir> --app-file=TestsMain`; no mode switches. */
  function RunArgs(projectFile: Path, target: string, testBuildDirectory: Path, abs: Path -> string): seq<string> {
    ["run", "lime", "run", abs(projectFile), target, "--app-path=" + abs(testBuildDirectory), "--app-file=TestsMain"]
  }

  /** Reads a `lime run` command line: the project, the target and the output directory. */
  function ParseRunArgs(args: seq<string>): Option<(string, string, string)> {
    if |args| == 7 && args[..3] == ["run", "lime", "run"] && "--app-path=" <= args[5] && args[6] == "--app-file=TestsMain"
    then Some((args[3], args[4], args[5][|"--app-path="|..]))
    else None
  }

  /** The run command line names the project, the target and the test output directory, and nothing else varies. */
  lemma RunArgsRoundTrip(projectFile: Path, target: string, testBuildDirectory: Path, abs: Path -> string)
    ensures ParseRunArgs(RunArgs(projectFile, target, testBuildDirectory, abs))
            == Some((abs(projectFile), target, abs(testBuildDirectory)))
  {
    var args := RunArgs(projectFile, target, testBuildDirectory, abs);
    assert args[..3] == ["run", "lime", "run"];
    assert args[5][|"--app-path="|..] == abs(testBuildDirectory);
  }

  // ---------------------------------------------------------------------
  // Exit codes
  // ---------------------------------------------------------------------

  const BuildFailurePrefix: string := "Lime build failure. Process exited with code: "
  const TestBuildFailurePrefix: string := "Lime test build failure. Process exited with code: "
  const TestRunFailurePrefix: string := "Lime test run failure. Process exited with code: "

  /** Exit code 0 is success; any other code fails with a message that ends with the code. */
  function ExitOutcome(code: int, prefix: string): (r: Result<()>)
    ensures r.Ok? <==> code == 0
    ensures r.Err? ==> r.error.Failure? && prefix <= r.error.message
  {
    if code == 0 then Ok(()) else Err(Failure(prefix + IntToString(code)))
  }

  /** The failure message gives back the exact exit code. */
  lemma ExitCodeInMessage(code: int, prefix: string)
    requires code != 0
    ensures ParseInt(ExitOutcome(code, prefix).error.message[|prefix|..]) == Some(code)
  {
    var m := ExitOutcome(code, prefix).error.message;
    assert m[|prefix|..] == IntToString(code);
    IntToStringRoundTrip(code);
  }
}
