/**
 * The three goals that run processes, end to end: `build` (check the
 * libraries, then `lime build`), `test-build` (check the libraries and
 * utest, generate `TestsMain.hx`, `lime build` it, write the html5 test
 * page) and `test` (`lime run` the tests, or drive a browser for html5).
 * Processes answer through an oracle; what the goal writes to disk is
 * part of the result.
 */
module Goals {
  import opened Common
  import opened Descriptor
  import opened Process
  import opened Haxelibs
  import opened Commands
  import opened TestSources

  const GuardMessage: string := "Cannot set both isDebug and isFinal parameters for Lime project"
  const BuildErrorMessage: string := "Fatal error building Lime project"
  const TestSourcesFailure: string := "Failed to generate Lime tests sources"
  const TestRunErrorMessage: string := "Fatal error running Lime tests"

  /** Any exception raised after the guard reaches the caller wrapped in the build goals' error. */
  function Wrapped(e: MojoError): (r: MojoError)
    ensures r.ExecutionError? && r.message == BuildErrorMessage && r.cause == Some(e)
  {
    ExecutionError(BuildErrorMessage, Some(e))
  }

  // ---------------------------------------------------------------------
  // The build goal
  // ---------------------------------------------------------------------

  /**
   * The build goal's inputs: the configured haxelib executable, the
   * `<haxelib>` elements of the project file (`None` when the file cannot
   * be read or parsed) and the parameters of the command line.
   */
  datatype BuildGoal = BuildGoal(haxelibExecutable: Option<Path>, projectHaxelibs: Option<seq<HaxelibTag>>, config: BuildConfig)

  function BuildProbes(g: BuildGoal): seq<Probe>
    requires g.projectHaxelibs.Some?
  {
    ProbeList(g.projectHaxelibs.value, g.config.additionalHaxelibs)
  }

  function BuildCommand(g: BuildGoal, abs: Path -> string): (r: Command) {
    Command(HaxelibPath(g.haxelibExecutable, abs), BuildArgs(g.config, abs))
  }

  /** What the checks of the build goal run and how they end, when the project file could be read. */
  function BuildChecks(g: BuildGoal, abs: Path -> string, run: Oracle): Outcome<()>
    requires g.projectHaxelibs.Some?
  {
    CheckAll(HaxelibPath(g.haxelibExecutable, abs), BuildProbes(g), run, [])
  }

  /**
   * The build goal: refuse `-debug` with `-final`, check every library,
   * then run `lime build`; a failure after the guard is wrapped.
   */
  function BuildExecute(g: BuildGoal, abs: Path -> string, run: Oracle): (r: Outcome<()>)
    ensures g.config.isDebug && g.config.isFinal ==> r == Outcome([], Err(Failure(GuardMessage)))
    ensures !(g.config.isDebug && g.config.isFinal) && r.result.Err? ==> r.result.error.ExecutionError? && r.result.error.message == BuildErrorMessage
    ensures !(g.config.isDebug && g.config.isFinal) && g.projectHaxelibs.None? ==> r == Outcome([], Err(Wrapped(ExternalError)))
    ensures !(g.config.isDebug && g.config.isFinal) && g.projectHaxelibs.Some? ==>
      var checks := BuildChecks(g, abs, run);
      && (checks.result.Err? ==> r == Outcome(checks.trace, Err(Wrapped(checks.result.error))))
      && (checks.result.Ok? ==>
            && r.trace == checks.trace + [BuildCommand(g, abs)]
            && var res := run(|checks.trace|, BuildCommand(g, abs));
               && (res.SpawnFault? ==> r.result == Err(Wrapped(CommandLineError)))
               && (res.Exited? ==> (r.result.Ok? <==> res.code == 0))
               && (res.Exited? && res.code != 0 ==> r.result == Err(Wrapped(Failure(BuildFailurePrefix + IntToString(res.code))))))
  {
    if g.config.isDebug && g.config.isFinal then Outcome([], Err(Failure(GuardMessage)))
    else if g.projectHaxelibs.None? then Outcome([], Err(Wrapped(ExternalError)))
    else
      var checks := BuildChecks(g, abs, run);
      if checks.result.Err? then Outcome(checks.trace, Err(Wrapped(checks.result.error)))
      else
        var (res, trace) := Spawn(run, checks.trace, BuildCommand(g, abs));
        match res
        case SpawnFault => Outcome(trace, Err(Wrapped(CommandLineError)))
        case Exited(code, _) =>
          match ExitOutcome(code, BuildFailurePrefix)
          case Ok(_) => Outcome(trace, Ok(()))
          case Err(e) => Outcome(trace, Err(Wrapped(e)))
  }

  /** The build command is not one of the check commands: those are all `haxelib path` or `haxelib install`. */
  lemma BuildCommandNotACheck(g: BuildGoal, abs: Path -> string, run: Oracle)
    requires g.projectHaxelibs.Some?
    ensures BuildCommand(g, abs) !in BuildChecks(g, abs, run).trace
  {
    var exe := HaxelibPath(g.haxelibExecutable, abs);
    var checks := CheckAll(exe, BuildProbes(g), run, []);
    CheckAllOnlyHaxelibCommands(exe, BuildProbes(g), run, []);
    assert !HaxelibCommand(BuildCommand(g, abs), exe);
    assert checks.trace[0..] == checks.trace;
  }

  /**
   * `lime build` runs at most once, as the last command, and only once every
   * library check has passed: it is never one of the check commands.
   */
  lemma BuildRunsOnlyAfterChecks(g: BuildGoal, abs: Path -> string, run: Oracle)
    ensures var r := BuildExecute(g, abs, run);
      BuildCommand(g, abs) in r.trace <==>
        !(g.config.isDebug && g.config.isFinal) && g.projectHaxelibs.Some? && BuildChecks(g, abs, run).result.Ok?
  {
    if !(g.config.isDebug && g.config.isFinal) && g.projectHaxelibs.Some? {
      BuildCommandNotACheck(g, abs, run);
    }
  }

  /** A successful build probed every library of the project and every additional one, and lime. */
  lemma BuildProbedEveryLibrary(g: BuildGoal, abs: Path -> string, run: Oracle)
    requires BuildExecute(g, abs, run).result.Ok?
    ensures g.projectHaxelibs.Some?
    ensures forall i :: 0 <= i < |BuildProbes(g)| ==>
      Command(HaxelibPath(g.haxelibExecutable, abs), ProbeArgs(BuildProbes(g)[i].name)) in BuildExecute(g, abs, run).trace
    ensures Command(HaxelibPath(g.haxelibExecutable, abs), ProbeArgs("lime")) in BuildExecute(g, abs, run).trace
  {
    var exe := HaxelibPath(g.haxelibExecutable, abs);
    var probes := BuildProbes(g);
    CheckAllProbesEach(exe, probes, run, []);
    var r := BuildExecute(g, abs, run);
    var checks := BuildChecks(g, abs, run);
    assert r.trace == checks.trace + [BuildCommand(g, abs)];
    LimeAlwaysChecked(g.projectHaxelibs.value, g.config.additionalHaxelibs);
    var k :| 0 <= k < |probes| && probes[k].name == "lime";
    assert Command(exe, ProbeArgs(probes[k].name)) in r.trace;
  }

  // ---------------------------------------------------------------------
  // The test-build goal
  // ---------------------------------------------------------------------

  /**
   * The test-build goal's inputs: those of a build, whether tests are
   * skipped, the test source directory as the walk finds it, how the
   * test-case patterns match, and whether writing `TestsMain.hx` and the
   * html5 test page succeeds.
   */
  datatype TestBuildGoal = TestBuildGoal(
    haxelibExecutable: Option<Path>,
    projectHaxelibs: Option<seq<HaxelibTag>>,
    config: TestBuildConfig,
    skip: bool,
    testSources: TestDirectory,
    find: Finder,
    canWriteMain: bool,
    canWriteIndex: bool)

  /** What the test-build goal did: the commands, the outcome, and what it wrote or set. */
  datatype TestBuildRun = TestBuildRun(
    trace: seq<Command>,
    result: Result<()>,
    testsMain: Option<string>,
    skipTests: bool,
    testIndex: Option<string>)

  /** The libraries of a build, then utest. */
  function TestBuildProbes(g: TestBuildGoal): (r: seq<Probe>)
    requires g.projectHaxelibs.Some?
    ensures |r| > 0 && r[|r| - 1] == Probe("utest", None)
  {
    ProbeList(g.projectHaxelibs.value, g.config.additionalHaxelibs) + [Probe("utest", None)]
  }

  function TestBuildCommand(g: TestBuildGoal, abs: Path -> string): (r: Command) {
    Command(HaxelibPath(g.haxelibExecutable, abs), TestBuildArgs(g.config, abs))
  }

  function TestBuildChecks(g: TestBuildGoal, abs: Path -> string, run: Oracle): Outcome<()>
    requires g.projectHaxelibs.Some?
  {
    CheckAll(HaxelibPath(g.haxelibExecutable, abs), TestBuildProbes(g), run, [])
  }

  /** The names of the detected test cases. */
  function DetectedTests(g: TestBuildGoal): seq<string>
    requires g.testSources.Walked?
  {
    TestNames(g.testSources.files, g.find)
  }

  /**
   * The goal's own step after the checks: generate the sources, `lime build`
   * them with the test-build vector, and write the page for html5. A skipped
   * goal and a run without tests spawn nothing; a generation error becomes
   * one cause-less failure; otherwise the exit code of the build decides.
   */
  function TestBuildStep(g: TestBuildGoal, abs: Path -> string, run: Oracle, trace: seq<Command>): (r: TestBuildRun)
    ensures |trace| <= |r.trace| <= |trace| + 1 && r.trace[..|trace|] == trace
    ensures r.skipTests ==> r.result.Ok? && r.trace == trace && r.testsMain.None?
    ensures r.testIndex.Some? ==> r.testIndex.value == TestIndexHtml && r.result.Ok? && g.config.target == "html5"
    ensures r.testIndex.Some? <==> r.testsMain.Some? && r.result.Ok? && g.config.target == "html5"
    ensures g.skip ==> r == TestBuildRun(trace, Ok(()), None, false, None)
    ensures !g.skip ==>
      var gen := GenerateTestSources(g.testSources, g.find, g.canWriteMain);
      && (gen.Err? ==> r == TestBuildRun(trace, Err(Failure(TestSourcesFailure)), None, false, None))
      && (gen == Ok(None) ==> r == TestBuildRun(trace, Ok(()), None, true, None))
      && (gen.Ok? && gen.value.Some? ==> TestBuildRan(g, abs, run, trace, gen.value.value, r))
  {
    if g.skip then TestBuildRun(trace, Ok(()), None, false, None)
    else
      match GenerateTestSources(g.testSources, g.find, g.canWriteMain)
      case Err(_) => TestBuildRun(trace, Err(Failure(TestSourcesFailure)), None, false, None)
      case Ok(None) => TestBuildRun(trace, Ok(()), None, true, None)
      case Ok(Some(text)) =>
        var (res, t) := Spawn(run, trace, TestBuildCommand(g, abs));
        match res
        case SpawnFault => TestBuildRun(t, Err(CommandLineError), Some(text), false, None)
        case Exited(code, _) =>
          if code != 0 then TestBuildRun(t, Err(Failure(TestBuildFailurePrefix + IntToString(code))), Some(text), false, None)
          else if g.config.target != "html5" then TestBuildRun(t, Ok(()), Some(text), false, None)
          else if !g.canWriteIndex then
            TestBuildRun(t, Err(ExecutionError(GenerateTestsErrorMessage, Some(ExternalError))), Some(text), false, None)
          else TestBuildRun(t, Ok(()), Some(text), false, Some(TestIndexHtml))
  }

  /**
   * What the step promises once `TestsMain.hx` holds `text`: the test-build
   * command ran next; a process that cannot start fails with the command-line
   * error; a non-zero exit fails with the test-build prefix and the code; exit
   * 0 succeeds unless the html5 page cannot be written.
   */
  predicate TestBuildRan(g: TestBuildGoal, abs: Path -> string, run: Oracle, trace: seq<Command>, text: string, r: TestBuildRun) {
    && r.trace == trace + [TestBuildCommand(g, abs)]
    && r.testsMain == Some(text)
    && !r.skipTests
    && var res := run(|trace|, TestBuildCommand(g, abs));
       && (res.SpawnFault? ==> r.result == Err(CommandLineError))
       && (res.Exited? && res.code != 0 ==> r.result == Err(Failure(TestBuildFailurePrefix + IntToString(res.code))))
       && (res.Exited? && res.code == 0 ==> (r.result.Ok? <==> g.config.target != "html5" || g.canWriteIndex))
       && (res.Exited? && res.code == 0 && r.result.Err? ==>
             r.result == Err(ExecutionError(GenerateTestsErrorMessage, Some(ExternalError))))
  }

  /**
   * The test-build goal: the guard, the checks of a build plus utest, then
   * (unless skipped) the test sources, `lime build` and the html5 page; a
   * failure after the guard is wrapped.
   */
  function TestBuildExecute(g: TestBuildGoal, abs: Path -> string, run: Oracle): (r: TestBuildRun)
    ensures g.config.isDebug && g.config.isFinal ==> r == TestBuildRun([], Err(Failure(GuardMessage)), None, false, None)
    ensures !(g.config.isDebug && g.config.isFinal) && r.result.Err? ==>
      r.result.error.ExecutionError? && r.result.error.message == BuildErrorMessage
    ensures r.skipTests || r.testsMain.Some? || r.testIndex.Some? ==>
      !(g.config.isDebug && g.config.isFinal) && g.projectHaxelibs.Some? && TestBuildChecks(g, abs, run).result.Ok? && !g.skip
    ensures r.testIndex.Some? ==> r.testIndex.value == TestIndexHtml && r.result.Ok? && g.config.target == "html5"
    ensures !(g.config.isDebug && g.config.isFinal) && g.projectHaxelibs.None? ==>
      r == TestBuildRun([], Err(Wrapped(ExternalError)), None, false, None)
    ensures !(g.config.isDebug && g.config.isFinal) && g.projectHaxelibs.Some? ==>
      var checks := TestBuildChecks(g, abs, run);
      && (checks.result.Err? ==> r == TestBuildRun(checks.trace, Err(Wrapped(checks.result.error)), None, false, None))
      && (checks.result.Ok? ==>
            var step := TestBuildStep(g, abs, run, checks.trace);
            r == step.(result := if step.result.Err? then Err(Wrapped(step.result.error)) else step.result))
  {
    if g.config.isDebug && g.config.isFinal then TestBuildRun([], Err(Failure(GuardMessage)), None, false, None)
    else if g.projectHaxelibs.None? then TestBuildRun([], Err(Wrapped(ExternalError)), None, false, None)
    else
      var checks := TestBuildChecks(g, abs, run);
      if checks.result.Err? then TestBuildRun(checks.trace, Err(Wrapped(checks.result.error)), None, false, None)
      else
        var step := TestBuildStep(g, abs, run, checks.trace);
        if step.result.Err? then step.(result := Err(Wrapped(step.result.error))) else step
  }

  /** Skipping still checks the libraries, but generates and builds nothing. */
  lemma SkipChecksOnly(g: TestBuildGoal, abs: Path -> string, run: Oracle)
    requires g.skip && !(g.config.isDebug && g.config.isFinal) && g.projectHaxelibs.Some?
    requires TestBuildChecks(g, abs, run).result.Ok?
    ensures TestBuildExecute(g, abs, run) == TestBuildRun(TestBuildChecks(g, abs, run).trace, Ok(()), None, false, None)
  {
  }

  /** With no test case found, the goal asks later goals to skip the tests, and writes and builds nothing. */
  lemma NoTestsSkipsLaterGoals(g: TestBuildGoal, abs: Path -> string, run: Oracle)
    requires !g.skip && !(g.config.isDebug && g.config.isFinal) && g.projectHaxelibs.Some?
    requires TestBuildChecks(g, abs, run).result.Ok?
    requires g.testSources.Missing? || (g.testSources.Walked? && DetectedTests(g) == [])
    ensures TestBuildExecute(g, abs, run) == TestBuildRun(TestBuildChecks(g, abs, run).trace, Ok(()), None, true, None)
  {
  }

  /** With test cases found, the generated `TestsMain.hx` registers exactly them, in order. */
  lemma TestsMainRegistersDetected(g: TestBuildGoal, abs: Path -> string, run: Oracle)
    requires !g.skip && !(g.config.isDebug && g.config.isFinal) && g.projectHaxelibs.Some?
    requires TestBuildChecks(g, abs, run).result.Ok?
    requires g.testSources.Walked? && DetectedTests(g) != [] && g.canWriteMain
    requires forall i :: 0 <= i < |DetectedTests(g)| ==> '\n' !in DetectedTests(g)[i]
    ensures TestBuildExecute(g, abs, run).testsMain.Some?
    ensures ParseTestsMain(TestBuildExecute(g, abs, run).testsMain.value) == Some(DetectedTests(g))
  {
    var names := DetectedTests(g);
    var checks := TestBuildChecks(g, abs, run);
    var step := TestBuildStep(g, abs, run, checks.trace);
    assert TestBuildExecute(g, abs, run).testsMain == step.testsMain;
    assert GenerateTestSources(g.testSources, g.find, g.canWriteMain) == Ok(Some(TestsMainText(names)));
    assert step.testsMain == Some(TestsMainText(names));
    TestsMainRoundTrip(names);
  }

  /** Any failure to find or write the test sources is reported as one failure, wrapped. */
  lemma TestSourcesFailureReported(g: TestBuildGoal, abs: Path -> string, run: Oracle)
    requires !g.skip && !(g.config.isDebug && g.config.isFinal) && g.projectHaxelibs.Some?
    requires TestBuildChecks(g, abs, run).result.Ok?
    requires GenerateTestSources(g.testSources, g.find, g.canWriteMain).Err?
    ensures TestBuildExecute(g, abs, run).result == Err(Wrapped(Failure(TestSourcesFailure)))
    ensures TestBuildExecute(g, abs, run).trace == TestBuildChecks(g, abs, run).trace
  {
  }

  /** utest is the last library checked, after every library a build checks. */
  lemma UtestCheckedLast(g: TestBuildGoal, abs: Path -> string, run: Oracle)
    requires TestBuildExecute(g, abs, run).result.Ok?
    ensures g.projectHaxelibs.Some?
    ensures Command(HaxelibPath(g.haxelibExecutable, abs), ProbeArgs("utest")) in TestBuildExecute(g, abs, run).trace
  {
    var exe := HaxelibPath(g.haxelibExecutable, abs);
    var probes := TestBuildProbes(g);
    var checks := TestBuildChecks(g, abs, run);
    CheckAllProbesEach(exe, probes, run, []);
    var r := TestBuildExecute(g, abs, run);
    var step := TestBuildStep(g, abs, run, checks.trace);
    assert r == step;
    assert step.trace[..|checks.trace|] == checks.trace;
    var j :| 0 <= j < |checks.trace| && checks.trace[j] == Command(exe, ProbeArgs(probes[|probes| - 1].name));
    assert step.trace[j] == checks.trace[j];
  }

  // ---------------------------------------------------------------------
  // The test goal
  // ---------------------------------------------------------------------

  /** How a browser run of html5 tests ends: the tests pass, some fail, or the browser cannot be driven. */
  datatype BrowserRun = Passed | TestsFailed | BrowserFault

  /** The test goal's inputs. */
  datatype TestGoal = TestGoal(
    skip: bool,
    target: string,
    projectFile: Path,
    testBuildDirectory: Path,
    haxelibExecutable: Option<Path>,
    browser: BrowserRun)

  function RunCommand(g: TestGoal, abs: Path -> string): Command {
    Command(HaxelibPath(g.haxelibExecutable, abs), RunArgs(g.projectFile, g.target, g.testBuildDirectory, abs))
  }

  /**
   * The test goal: nothing when skipped; for html5, the browser's verdict;
   * otherwise `lime run`, whose exit code decides. A process that cannot be
   * started is wrapped; a non-zero exit code is not.
   */
  function TestExecute(g: TestGoal, abs: Path -> string, run: Oracle): (r: Outcome<()>)
    ensures g.skip ==> r == Outcome([], Ok(()))
    ensures !g.skip && g.target == "html5" ==> r.trace == [] && (r.result.Ok? <==> g.browser.Passed?)
    ensures !g.skip && g.target == "html5" && g.browser.TestsFailed? ==>
      r.result == Err(ExecutionError(TestRunErrorMessage, Some(Failure(TestRunFailurePrefix + "1"))))
    ensures !g.skip && g.target != "html5" ==>
      && r.trace == [RunCommand(g, abs)]
      && var res := run(0, RunCommand(g, abs));
         && (res.SpawnFault? ==> r.result == Err(ExecutionError(TestRunErrorMessage, Some(CommandLineError))))
         && (res.Exited? ==> (r.result.Ok? <==> res.code == 0))
         && (res.Exited? && res.code != 0 ==> r.result == Err(Failure(TestRunFailurePrefix + IntToString(res.code))))
  {
    if g.skip then Outcome([], Ok(()))
    else if g.target == "html5" then
      match g.browser
      case Passed => Outcome([], Ok(()))
      case TestsFailed => Outcome([], Err(ExecutionError(TestRunErrorMessage, Some(Failure(TestRunFailurePrefix + "1")))))
      case BrowserFault => Outcome([], Err(ExecutionError(TestRunErrorMessage, Some(ExternalError))))
    else
      var (res, trace) := Spawn(run, [], RunCommand(g, abs));
      match res
      case SpawnFault => Outcome(trace, Err(ExecutionError(TestRunErrorMessage, Some(CommandLineError))))
      case Exited(code, _) => Outcome(trace, ExitOutcome(code, TestRunFailurePrefix))
  }

  /**
   * Once tests are found and written, the goal spawns the test-build command
   * right after the checks, and a non-zero exit fails the goal, wrapped, with
   * a message that gives back the exact exit code.
   */
  lemma TestBuildReportsExitCode(g: TestBuildGoal, abs: Path -> string, run: Oracle)
    requires !g.skip && !(g.config.isDebug && g.config.isFinal) && g.projectHaxelibs.Some?
    requires TestBuildChecks(g, abs, run).result.Ok?
    requires g.testSources.Walked? && DetectedTests(g) != [] && g.canWriteMain
    requires var n := |TestBuildChecks(g, abs, run).trace|;
      run(n, TestBuildCommand(g, abs)).Exited? && run(n, TestBuildCommand(g, abs)).code != 0
    ensures var r := TestBuildExecute(g, abs, run);
      && r.trace == TestBuildChecks(g, abs, run).trace + [TestBuildCommand(g, abs)]
      && r.result.Err? && r.result.error.ExecutionError? && r.result.error.cause.Some?
      && var m := r.result.error.cause.value.message;
         TestBuildFailurePrefix <= m
         && ParseInt(m[|TestBuildFailurePrefix|..]) == Some(run(|TestBuildChecks(g, abs, run).trace|, TestBuildCommand(g, abs)).code)
  {
    var checks := TestBuildChecks(g, abs, run);
    var code := run(|checks.trace|, TestBuildCommand(g, abs)).code;
    var names := DetectedTests(g);
    assert GenerateTestSources(g.testSources, g.find, g.canWriteMain) == Ok(Some(TestsMainText(names)));
    var step := TestBuildStep(g, abs, run, checks.trace);
    assert step.result == Err(Failure(TestBuildFailurePrefix + IntToString(code)));
    ExitCodeInMessage(code, TestBuildFailurePrefix);
  }

  /** A failed `lime run` reports its exact exit code. */
  lemma TestRunReportsExitCode(g: TestGoal, abs: Path -> string, run: Oracle)
    requires !g.skip && g.target != "html5"
    requires run(0, RunCommand(g, abs)).Exited? && run(0, RunCommand(g, abs)).code != 0
    ensures var m := TestExecute(g, abs, run).result.error.message;
      TestRunFailurePrefix <= m && ParseInt(m[|TestRunFailurePrefix|..]) == Some(run(0, RunCommand(g, abs)).code)
  {
    ExitCodeInMessage(run(0, RunCommand(g, abs)).code, TestRunFailurePrefix);
  }
}
