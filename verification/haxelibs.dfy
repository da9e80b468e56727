/**
 * Making sure the libraries a build needs are installed: which libraries are
 * probed and with which required version, how the installed version is read
 * from `haxelib path`, when `haxelib install` runs and with which arguments.
 */
module Haxelibs {
  import opened Common
  import opened Descriptor
  import opened Process

  // ---------------------------------------------------------------------
  // Goal defaults and the haxelib executable
  // ---------------------------------------------------------------------

  /** Default of the `projectFile` parameter. */
  const DefaultProjectFile: string := "project.xml"

  /** Default of the `target` parameter. */
  const DefaultTarget: string := "html5"

  /** The executable every command runs: `haxelib` from the search path, or the configured one, made absolute. */
  function HaxelibPath(haxelibExecutable: Option<Path>, abs: Path -> string): (r: string)
    ensures haxelibExecutable.None? ==> r == "haxelib"
    ensures haxelibExecutable.Some? ==> r == abs(haxelibExecutable.value)
  {
    match haxelibExecutable
    case None => "haxelib"
    case Some(exe) => abs(exe)
  }

  // ---------------------------------------------------------------------
  // Which libraries are probed
  // ---------------------------------------------------------------------

  /**
   * A `<haxelib>` element of the project file, by its attributes: `None`
   * when the element has no such attribute.
   */
  datatype HaxelibTag = HaxelibTag(name: Option<string>, version: Option<string>)

  /** One library to check: its name and the version it must have, or `None` when any version will do. */
  datatype Probe = Probe(name: string, version: Option<string>)

  /** `t` is checked as `p`: it has a non-empty name, and its version attribute is the required version. */
  predicate ChecksAs(t: HaxelibTag, p: Probe) {
    t.name == Some(p.name) && p.name != "" && t.version == p.version
  }

  /** The checks the project file's haxelib elements ask for, in document order; nameless ones are skipped. */
  function FileProbes(tags: seq<HaxelibTag>): (r: seq<Probe>)
    ensures |r| <= |tags|
    ensures forall p :: p in r <==> exists i :: 0 <= i < |tags| && ChecksAs(tags[i], p)
  {
    if |tags| == 0 then []
    else
      var rest := FileProbes(tags[1..]);
      assert forall i :: 1 <= i < |tags| ==> tags[i] == tags[1..][i - 1];
      match tags[0].name
      case Some(n) =>
        if n != "" then [Probe(n, tags[0].version)] + rest else rest
      case None => rest
  }

  /** The file's checks keep document order: checks of a concatenation are the concatenated checks. */
  lemma {:induction false} FileProbesAppend(a: seq<HaxelibTag>, b: seq<HaxelibTag>)
    ensures FileProbes(a + b) == FileProbes(a) + FileProbes(b)
  {
    if |a| == 0 {
      assert a + b == b;
    } else {
      assert (a + b)[0] == a[0];
      assert (a + b)[1..] == a[1..] + b;
      FileProbesAppend(a[1..], b);
    }
  }

  /** `lime` is named by a project-file element or listed in `additionalHaxelibs`; `openfl` does not count. */
  predicate LimeNamed(tags: seq<HaxelibTag>, additional: seq<string>) {
    (exists i :: 0 <= i < |tags| && tags[i].name == Some("lime")) || "lime" in additional
  }

  function AdditionalProbes(additional: seq<string>): (r: seq<Probe>)
    ensures |r| == |additional|
    ensures forall i :: 0 <= i < |additional| ==> r[i] == Probe(additional[i], None)
  {
    seq(|additional|, i requires 0 <= i < |additional| => Probe(additional[i], None))
  }

  /**
   * `checkHaxelibs`: the project file's checks, then one check per
   * additional library with no required version, then `lime` with no
   * required version unless one of the two lists already named it.
   */
  function ProbeList(tags: seq<HaxelibTag>, additional: Option<seq<string>>): (r: seq<Probe>)
    ensures var file := FileProbes(tags); var extra := Items(additional);
      && |r| == |file| + |extra| + (if LimeNamed(tags, extra) then 0 else 1)
      && r[..|file|] == file
      && (forall i :: 0 <= i < |extra| ==> r[|file| + i] == Probe(extra[i], None))
      && (!LimeNamed(tags, extra) ==> r[|r| - 1] == Probe("lime", None))
  {
    var extra := Items(additional);
    FileProbes(tags) + AdditionalProbes(extra) + (if LimeNamed(tags, extra) then [] else [Probe("lime", None)])
  }

  /** Whatever the project file and the parameters say, `lime` is among the libraries checked. */
  lemma LimeAlwaysChecked(tags: seq<HaxelibTag>, additional: Option<seq<string>>)
    ensures exists p :: p in ProbeList(tags, additional) && p.name == "lime"
  {
    var r := ProbeList(tags, additional);
    var file := FileProbes(tags);
    var extra := Items(additional);
    if exists i :: 0 <= i < |tags| && tags[i].name == Some("lime") {
      var i :| 0 <= i < |tags| && tags[i].name == Some("lime");
      var p := Probe("lime", tags[i].version);
      assert ChecksAs(tags[i], p);
      assert p in file;
      assert r[..|file|] == file;
      assert p in r;
    } else if "lime" in extra {
      var i :| 0 <= i < |extra| && extra[i] == "lime";
      assert r[|file| + i] == Probe("lime", None);
    } else {
      assert r[|r| - 1] == Probe("lime", None);
    }
  }

  /** A project that names only `openfl` still gets `lime` checked, after everything else. */
  lemma OpenflDoesNotCount()
    ensures ProbeList([HaxelibTag(Some("openfl"), None)], None) == [Probe("openfl", None), Probe("lime", None)]
  {
    var tags := [HaxelibTag(Some("openfl"), None)];
    assert FileProbes(tags[1..]) == [];
    assert !LimeNamed(tags, []);
  }

  /**
   * The loop `checkHaxelibs` runs, with its `foundLime` flag: the checks it
   * makes, in order, are exactly `ProbeList`.
   */
  method CheckOrder(tags: seq<HaxelibTag>, additional: Option<seq<string>>) returns (probes: seq<Probe>)
    ensures probes == ProbeList(tags, additional)
  {
    var foundLime := false;
    probes := [];
    var i := 0;
    while i < |tags|
      invariant 0 <= i <= |tags|
      invariant probes == FileProbes(tags[..i])
      invariant foundLime <==> exists j :: 0 <= j < i && tags[j].name == Some("lime")
    {
      FileProbesAppend(tags[..i], [tags[i]]);
      assert tags[..i + 1] == tags[..i] + [tags[i]];
      var t := tags[i];
      if t.name.Some? && t.name.value != "" {
        if !foundLime && t.name.value == "lime" {
          foundLime := true;
        }
        probes := probes + [Probe(t.name.value, t.version)];
      }
      i := i + 1;
    }
    assert tags[..|tags|] == tags;
    var extra := Items(additional);
    var k := 0;
    while k < |extra|
      invariant 0 <= k <= |extra|
      invariant probes == FileProbes(tags) + AdditionalProbes(extra[..k])
      invariant foundLime <==> LimeNamed(tags, extra[..k])
    {
      assert extra[..k + 1] == extra[..k] + [extra[k]];
      assert AdditionalProbes(extra[..k + 1]) == AdditionalProbes(extra[..k]) + [Probe(extra[k], None)];
      if !foundLime && extra[k] == "lime" {
        foundLime := true;
      }
      probes := probes + [Probe(extra[k], None)];
      k := k + 1;
    }
    assert extra[..|extra|] == extra;
    if !foundLime {
      probes := probes + [Probe("lime", None)];
    }
  }

  // ---------------------------------------------------------------------
  // Reading the installed version
  // ---------------------------------------------------------------------

  /** The line `haxelib path <name>` prints for the installed version: `-D <name>=<version>`. */
  function Marker(name: string): string {
    "-D " + name + "="
  }

  /** The rest of the first line that starts with `marker`, or `None` when none does. */
  function FirstMarked(lines: seq<string>, marker: string): (r: Option<string>)
    ensures r.None? <==> forall j :: 0 <= j < |lines| ==> !(marker <= lines[j])
    ensures r.Some? ==> exists i :: 0 <= i < |lines| && lines[i] == marker + r.value
                                    && forall j :: 0 <= j < i ==> !(marker <= lines[j])
  {
    if |lines| == 0 then None
    else if marker <= lines[0] then
      assert lines[0] == marker + lines[0][|marker|..];
      Some(lines[0][|marker|..])
    else
      var r := FirstMarked(lines[1..], marker);
      assert forall j :: 1 <= j < |lines| ==> lines[j] == lines[1..][j - 1];
      if r.Some? then
        assert exists i :: 0 <= i < |lines| && lines[i] == marker + r.value
                           && forall j :: 0 <= j < i ==> !(marker <= lines[j]) by {
          var i :| 0 <= i < |lines[1..]| && lines[1..][i] == marker + r.value
                   && forall j :: 0 <= j < i ==> !(marker <= lines[1..][j]);
          assert lines[i + 1] == marker + r.value;
        }
        r
      else r
  }

  /** The version `haxelib path` reports as installed, read off its `\n`-separated output. */
  function InstalledVersion(name: string, stdout: string): Option<string> {
    FirstMarked(Split(stdout, '\n'), Marker(name))
  }

  /** The first line starting with the marker decides, whatever follows it. */
  lemma {:induction false} FirstMarkedAt(lines: seq<string>, marker: string, k: int, value: string)
    requires 0 <= k < |lines| && lines[k] == marker + value
    requires forall j :: 0 <= j < k ==> !(marker <= lines[j])
    ensures FirstMarked(lines, marker) == Some(value)
  {
    if k == 0 {
      assert marker <= lines[0];
      assert lines[0][|marker|..] == value;
    } else {
      assert !(marker <= lines[0]);
      FirstMarkedAt(lines[1..], marker, k - 1, value);
    }
  }

  lemma MarkerLineFree(name: string, version: string)
    requires '\n' !in name && '\n' !in version
    ensures '\n' !in Marker(name) + version
  {
    assert '\n' !in "-D ";
    assert '\n' !in "=";
  }

  lemma PiecesFree(before: seq<string>, line: string, after: seq<string>)
    requires forall i :: 0 <= i < |before| ==> '\n' !in before[i]
    requires forall i :: 0 <= i < |after| ==> '\n' !in after[i]
    requires '\n' !in line
    ensures forall i :: 0 <= i < |before + [line] + after| ==> '\n' !in (before + [line] + after)[i]
  {
    var lines := before + [line] + after;
    forall i | 0 <= i < |lines| ensures '\n' !in lines[i] {
      if i < |before| {
        assert lines[i] == before[i];
      } else if i > |before| {
        assert lines[i] == after[i - |before| - 1];
      }
    }
  }

  lemma LinesOfOutput(name: string, before: seq<string>, version: string, after: seq<string>)
    requires forall i :: 0 <= i < |before| ==> '\n' !in before[i]
    requires forall i :: 0 <= i < |after| ==> '\n' !in after[i]
    requires '\n' !in name && '\n' !in version
    ensures Split(Join(before + [Marker(name) + version] + after, '\n'), '\n') == before + [Marker(name) + version] + after
  {
    var lines := before + [Marker(name) + version] + after;
    MarkerLineFree(name, version);
    PiecesFree(before, Marker(name) + version, after);
    SplitJoin(lines, '\n');
  }

  /**
   * Reading back what `haxelib path` prints: for output whose lines before
   * the marker line do not start with the marker, the installed version is
   * the rest of the marker line.
   */
  lemma InstalledVersionOfOutput(name: string, before: seq<string>, version: string, after: seq<string>)
    requires forall i :: 0 <= i < |before| ==> '\n' !in before[i] && !(Marker(name) <= before[i])
    requires forall i :: 0 <= i < |after| ==> '\n' !in after[i]
    requires '\n' !in name && '\n' !in version
    ensures InstalledVersion(name, Join(before + [Marker(name) + version] + after, '\n')) == Some(version)
  {
    var lines := before + [Marker(name) + version] + after;
    LinesOfOutput(name, before, version, after);
    assert forall j :: 0 <= j < |before| ==> lines[j] == before[j];
    FirstMarkedAt(lines, Marker(name), |before|, version);
  }

  /** Output without a marker line reports no installed version. */
  lemma NoMarkerNoVersion(name: string, stdout: string)
    requires forall line :: line in Split(stdout, '\n') ==> !(Marker(name) <= line)
    ensures InstalledVersion(name, stdout).None?
  {
    var lines := Split(stdout, '\n');
    assert forall j :: 0 <= j < |lines| ==> lines[j] in lines;
  }

  /**
   * `checkHaxelib`'s decision: no install only when the probe exits with 0
   * and either any version will do or the installed version is exactly the
   * required one.
   */
  function NeedsInstall(exitCode: int, stdout: string, name: string, required: Option<string>): (r: bool)
    ensures !r ==> exitCode == 0
    ensures exitCode == 0 && required.None? ==> !r
    ensures required.Some? ==> (r <==> exitCode != 0 || InstalledVersion(name, stdout) != required)
  {
    if exitCode != 0 then true
    else if required.None? then false
    else InstalledVersion(name, stdout) != required
  }

  /** An installed version other than the required one leads to an install; the matching one does not. */
  lemma VersionDecidesInstall(name: string, before: seq<string>, installed: string, after: seq<string>, required: string)
    requires forall i :: 0 <= i < |before| ==> '\n' !in before[i] && !(Marker(name) <= before[i])
    requires forall i :: 0 <= i < |after| ==> '\n' !in after[i]
    requires '\n' !in name && '\n' !in installed
    ensures NeedsInstall(0, Join(before + [Marker(name) + installed] + after, '\n'), name, Some(required))
            <==> installed != required
  {
    InstalledVersionOfOutput(name, before, installed, after);
  }

  // ---------------------------------------------------------------------
  // The commands
  // ---------------------------------------------------------------------

  function ProbeArgs(name: string): seq<string> {
    ["path", name]
  }

  /** `haxelib install <name> [<version>] --always --quiet`. */
  function InstallArgs(name: string, version: Option<string>): (r: seq<string>)
    ensures |r| == (if version.Some? then 5 else 4)
    ensures r[0] == "install" && r[1] == name
    ensures version.Some? ==> r[2] == version.value
    ensures r[|r| - 2..] == ["--always", "--quiet"]
  {
    ["install", name] + (if version.Some? then [version.value] else []) + ["--always", "--quiet"]
  }

  /** Reads the library and the version back from install arguments. */
  function ParseInstallArgs(args: seq<string>): Option<(string, Option<string>)> {
    if |args| == 4 && args[0] == "install" && args[2..] == ["--always", "--quiet"] then Some((args[1], None))
    else if |args| == 5 && args[0] == "install" && args[3..] == ["--always", "--quiet"] then Some((args[1], Some(args[2])))
    else None
  }

  /** The install arguments determine the library and the version asked for. */
  lemma InstallArgsRoundTrip(name: string, version: Option<string>)
    ensures ParseInstallArgs(InstallArgs(name, version)) == Some((name, version))
  {
    var r := InstallArgs(name, version);
    if version.Some? {
      assert r[3..] == ["--always", "--quiet"];
    } else {
      assert r[2..] == ["--always", "--quiet"];
    }
  }

  const InstallFailurePrefix: string := "Lime build failure. Failed to install Haxelib: "

  /** The failure of an install that exited with a non-zero code; the message ends with the library's name. */
  function InstallFailure(name: string): (e: MojoError)
    ensures e.Failure? && InstallFailurePrefix <= e.message && e.message[|InstallFailurePrefix|..] == name
  {
    Failure(InstallFailurePrefix + name)
  }

  /**
   * `checkHaxelib` followed, when needed, by `installHaxelib`: the commands
   * run after `trace`, and whether checking failed.
   */
  function CheckHaxelib(exe: string, p: Probe, run: Oracle, trace: seq<Command>): (r: Outcome<()>)
    ensures |r.trace| == |trace| + 1 || |r.trace| == |trace| + 2
    ensures r.trace[..|trace|] == trace
    ensures r.trace[|trace|] == Command(exe, ProbeArgs(p.name))
    ensures var probe := run(|trace|, Command(exe, ProbeArgs(p.name)));
      && (probe.SpawnFault? ==> r == Outcome(trace + [Command(exe, ProbeArgs(p.name))], Err(CommandLineError)))
      && (probe.Exited? ==>
            (|r.trace| == |trace| + 2 <==> NeedsInstall(probe.code, probe.stdout, p.name, p.version)))
    ensures |r.trace| == |trace| + 2 ==> r.trace[|trace| + 1] == Command(exe, InstallArgs(p.name, p.version))
    ensures |r.trace| == |trace| + 2 ==>
      var install := run(|trace| + 1, Command(exe, InstallArgs(p.name, p.version)));
      && (install.SpawnFault? ==> r.result == Err(CommandLineError))
      && (install.Exited? ==> (r.result.Ok? <==> install.code == 0))
      && (install.Exited? && install.code != 0 ==> r.result == Err(InstallFailure(p.name)))
    ensures |r.trace| == |trace| + 1 && run(|trace|, Command(exe, ProbeArgs(p.name))).Exited? ==> r.result.Ok?
  {
    var (probe, t1) := Spawn(run, trace, Command(exe, ProbeArgs(p.name)));
    match probe
    case SpawnFault => Outcome(t1, Err(CommandLineError))
    case Exited(code, stdout) =>
      if !NeedsInstall(code, stdout, p.name, p.version) then Outcome(t1, Ok(()))
      else
        var (install, t2) := Spawn(run, t1, Command(exe, InstallArgs(p.name, p.version)));
        match install
        case SpawnFault => Outcome(t2, Err(CommandLineError))
        case Exited(c, _) => if c == 0 then Outcome(t2, Ok(())) else Outcome(t2, Err(InstallFailure(p.name)))
  }

  /** Checks the libraries in order, stopping at the first failure. */
  function CheckAll(exe: string, probes: seq<Probe>, run: Oracle, trace: seq<Command>): (r: Outcome<()>)
    ensures |trace| <= |r.trace| <= |trace| + 2 * |probes|
    ensures r.trace[..|trace|] == trace
    ensures |probes| > 0 ==> |trace| < |r.trace| && r.trace[|trace|] == Command(exe, ProbeArgs(probes[0].name))
    decreases |probes|
  {
    if |probes| == 0 then Outcome(trace, Ok(()))
    else
      var first := CheckHaxelib(exe, probes[0], run, trace);
      if first.result.Err? then first
      else
        var rest := CheckAll(exe, probes[1..], run, first.trace);
        assert rest.trace[..|trace|] == rest.trace[..|first.trace|][..|trace|];
        rest
  }

  /** When every check succeeds, every library was probed, in order, each probe after the previous one's commands. */
  lemma {:induction false} CheckAllProbesEach(exe: string, probes: seq<Probe>, run: Oracle, trace: seq<Command>)
    requires CheckAll(exe, probes, run, trace).result.Ok?
    ensures forall i :: 0 <= i < |probes| ==> Command(exe, ProbeArgs(probes[i].name)) in CheckAll(exe, probes, run, trace).trace
    decreases |probes|
  {
    if |probes| > 0 {
      var first := CheckHaxelib(exe, probes[0], run, trace);
      var r := CheckAll(exe, probes, run, trace);
      CheckAllProbesEach(exe, probes[1..], run, first.trace);
      var rest := CheckAll(exe, probes[1..], run, first.trace);
      assert r == rest;
      assert rest.trace[..|first.trace|] == first.trace;
      assert first.trace[|trace|] == Command(exe, ProbeArgs(probes[0].name));
      assert rest.trace[|trace|] == Command(exe, ProbeArgs(probes[0].name));
      forall i | 1 <= i < |probes| ensures Command(exe, ProbeArgs(probes[i].name)) in r.trace {
        assert probes[1..][i - 1] == probes[i];
      }
    }
  }

  /** A command of the library checks: `haxelib path …` or `haxelib install …`. */
  predicate HaxelibCommand(c: Command, exe: string) {
    c.executable == exe && |c.args| >= 2 && (c.args[0] == "path" || c.args[0] == "install")
  }

  /** Every command of `cs` is a library check command. */
  predicate AllHaxelibCommands(cs: seq<Command>, exe: string) {
    forall i :: 0 <= i < |cs| ==> HaxelibCommand(cs[i], exe)
  }

  lemma CheckHaxelibCommands(exe: string, p: Probe, run: Oracle, trace: seq<Command>)
    ensures AllHaxelibCommands(CheckHaxelib(exe, p, run, trace).trace[|trace|..], exe)
  {
    var r := CheckHaxelib(exe, p, run, trace);
    assert HaxelibCommand(Command(exe, ProbeArgs(p.name)), exe);
    assert HaxelibCommand(Command(exe, InstallArgs(p.name, p.version)), exe);
    assert r.trace[|trace|..][0] == r.trace[|trace|];
  }

  /** Checking libraries runs nothing but `haxelib path` and `haxelib install`. */
  lemma {:induction false} CheckAllOnlyHaxelibCommands(exe: string, probes: seq<Probe>, run: Oracle, trace: seq<Command>)
    ensures AllHaxelibCommands(CheckAll(exe, probes, run, trace).trace[|trace|..], exe)
    decreases |probes|
  {
    var r := CheckAll(exe, probes, run, trace);
    if |probes| == 0 {
      assert r.trace[|trace|..] == [];
    } else {
      var first := CheckHaxelib(exe, probes[0], run, trace);
      CheckHaxelibCommands(exe, probes[0], run, trace);
      if first.result.Ok? {
        CheckAllOnlyHaxelibCommands(exe, probes[1..], run, first.trace);
        var rest := CheckAll(exe, probes[1..], run, first.trace);
        assert r == rest;
        assert rest.trace[..|first.trace|] == first.trace;
        assert rest.trace[|trace|..] == first.trace[|trace|..] + rest.trace[|first.trace|..];
      } else {
        assert r == first;
      }
    }
  }
}
