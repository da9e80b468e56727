/**
 * The test sources of the test-build goal: which `.hx` files under the
 * test source directory are utest test cases, the qualified class name each
 * one is registered under, and the generated `TestsMain` class that runs
 * them all, together with the HTML page that hosts an html5 test build.
 */
module TestSources {
  import opened Common

  // ---------------------------------------------------------------------
  // Qualified names from relative paths
  // ---------------------------------------------------------------------

  /** A path separator of either platform becomes a dot. */
  function DotChar(c: char): char {
    if c == '/' || c == '\\' then '.' else c
  }

  /** `s` with each separator made a dot, character by character. */
  function Dots(s: string): (r: string)
    ensures |r| == |s|
    ensures forall i :: 0 <= i < |s| ==> r[i] == DotChar(s[i])
  {
    seq(|s|, i requires 0 <= i < |s| => DotChar(s[i]))
  }

  /** Replacing a one-character string with another is replacing that character everywhere. */
  lemma {:induction false} ReplaceChar(s: string, a: char, b: char)
    ensures |ReplaceAll(s, [a], [b])| == |s|
    ensures forall i :: 0 <= i < |s| ==> ReplaceAll(s, [a], [b])[i] == (if s[i] == a then b else s[i])
    decreases |s|
  {
    if |s| > 0 {
      ReplaceChar(s[1..], a, b);
      var rest := ReplaceAll(s[1..], [a], [b]);
      if s[0] == a {
        assert [a] <= s;
        assert ReplaceAll(s, [a], [b]) == [b] + rest;
      } else {
        assert !([a] <= s);
        assert ReplaceAll(s, [a], [b]) == [s[0]] + rest;
      }
    }
  }

  /** The relative path with `/` and then `\` replaced by `.`, as the goal does before dropping `.hx`. */
  function DottedPath(rel: string): (r: string)
    ensures r == Dots(rel)
  {
    var once := ReplaceAll(rel, "/", ".");
    ReplaceChar(rel, '/', '.');
    ReplaceChar(once, '\\', '.');
    ReplaceAll(once, "\\", ".")
  }

  /**
   * The qualified name as the goal computes it: separators made dots, then
   * EVERY occurrence of `.hx` removed, including one inside a package name.
   */
  function QualifiedNameAsWritten(rel: string): string {
    ReplaceAll(DottedPath(rel), ".hx", "")
  }

  /** The qualified name of a test file: separators made dots, and the `.hx` extension dropped. */
  function QualifiedName(rel: string): (r: string)
    requires EndsWith(rel, ".hx")
    ensures |r| == |rel| - 3
    ensures forall i :: 0 <= i < |r| ==> r[i] == DotChar(rel[i])
    ensures r + ".hx" == Dots(rel)
  {
    var d := DottedPath(rel);
    assert d[|d| - 3..] == ".hx" by {
      assert rel[|rel| - 3..] == ".hx";
      assert forall i :: |rel| - 3 <= i < |rel| ==> d[i] == rel[i];
    }
    assert d[..|d| - 3] + ".hx" == d;
    d[..|d| - 3]
  }

  /** Dots over a concatenation. */
  lemma DotsAppend(a: string, b: string)
    ensures Dots(a + b) == Dots(a) + Dots(b)
  {
  }

  /** A piece without separators is left as it is. */
  lemma DotsPlain(s: string)
    requires '/' !in s && '\\' !in s
    ensures Dots(s) == s
  {
  }

  /** Path segments joined with `/` read, with dots, as the same segments joined with `.`. */
  lemma {:induction false} DotsJoin(parts: seq<string>)
    requires forall i :: 0 <= i < |parts| ==> '/' !in parts[i] && '\\' !in parts[i]
    ensures Dots(Join(parts, '/')) == Join(parts, '.')
    decreases |parts|
  {
    if |parts| == 1 {
      DotsPlain(parts[0]);
    } else if |parts| > 1 {
      DotsJoin(parts[1..]);
      DotsPlain(parts[0]);
      DotsAppend(parts[0] + ['/'], Join(parts[1..], '/'));
      DotsAppend(parts[0], ['/']);
    }
  }

  /** The extension has no separators, so dots leave it alone. */
  lemma DotsExtension(path: string)
    ensures Dots(path + ".hx") == Dots(path) + ".hx"
  {
    DotsAppend(path, ".hx");
    assert Dots(".hx") == ".hx" by {
      assert Dots(".hx")[0] == DotChar('.');
      assert Dots(".hx")[1] == DotChar('h');
      assert Dots(".hx")[2] == DotChar('x');
    }
  }

  lemma AppendCancel(a: string, b: string, c: string)
    requires a + c == b + c
    ensures a == b
  {
    assert a == (a + c)[..|a|];
    assert b == (b + c)[..|b|];
  }

  /**
   * A test class `C` in package `p1.p2…` lives at `p1/p2/…/C.hx`, and is
   * registered under the name `p1.p2.….C`.
   */
  lemma QualifiedNameOfPackage(packages: seq<string>, className: string)
    requires forall i :: 0 <= i < |packages| ==> '/' !in packages[i] && '\\' !in packages[i]
    requires '/' !in className && '\\' !in className
    ensures var rel := Join(packages + [className], '/') + ".hx";
      EndsWith(rel, ".hx") && QualifiedName(rel) == Join(packages + [className], '.')
  {
    var parts := packages + [className];
    PartsPlain(packages, className);
    var path := Join(parts, '/');
    var rel := path + ".hx";
    EndsWithExtension(path);
    DotsJoin(parts);
    DotsExtension(path);
    var q := QualifiedName(rel);
    assert q + ".hx" == Join(parts, '.') + ".hx";
    AppendCancel(q, Join(parts, '.'), ".hx");
  }

  lemma PartsPlain(packages: seq<string>, className: string)
    requires forall i :: 0 <= i < |packages| ==> '/' !in packages[i] && '\\' !in packages[i]
    requires '/' !in className && '\\' !in className
    ensures var parts := packages + [className];
      forall i :: 0 <= i < |parts| ==> '/' !in parts[i] && '\\' !in parts[i]
  {
  }

  lemma EndsWithExtension(path: string)
    ensures EndsWith(path + ".hx", ".hx")
  {
    assert (path + ".hx")[|path|..] == ".hx";
  }

  /** Removing `.hx` from a text that contains it only at its end removes just that one. */
  lemma {:induction false} RemoveOnlyTrailing(x: string)
    requires forall i :: 0 <= i < |x| ==> !(".hx" <= (x + ".hx")[i..])
    ensures ReplaceAll(x + ".hx", ".hx", "") == x
    decreases |x|
  {
    var s := x + ".hx";
    if |x| == 0 {
      assert s == ".hx";
      assert s[3..] == "";
    } else {
      assert !(".hx" <= s[0..]);
      assert s[0..] == s;
      assert s[1..] == x[1..] + ".hx";
      forall i | 0 <= i < |x| - 1 ensures !(".hx" <= (x[1..] + ".hx")[i..]) {
        assert (x[1..] + ".hx")[i..] == s[i + 1..];
      }
      RemoveOnlyTrailing(x[1..]);
    }
  }

  /** Where `.hx` occurs only as the extension, the name as written is the intended one. */
  lemma AsWrittenAgrees(rel: string)
    requires EndsWith(rel, ".hx")
    requires forall i :: 0 <= i < |rel| - 3 ==> !(".hx" <= Dots(rel)[i..])
    ensures QualifiedNameAsWritten(rel) == QualifiedName(rel)
  {
    var q := QualifiedName(rel);
    assert q + ".hx" == Dots(rel);
    RemoveOnlyTrailing(q);
  }

  lemma ReplaceHit(s: string, target: string, repl: string)
    requires |target| > 0 && target <= s
    ensures ReplaceAll(s, target, repl) == repl + ReplaceAll(s[|target|..], target, repl)
  {
  }

  lemma ReplaceMiss(s: string, target: string, repl: string)
    requires |target| > 0 && |s| > 0 && !(target <= s)
    ensures ReplaceAll(s, target, repl) == [s[0]] + ReplaceAll(s[1..], target, repl)
  {
  }

  /** `.hx` removed from `a.hx.T.hx`, one step of the left-to-right scan at a time. */
  lemma RemoveHxExample()
    ensures ReplaceAll("a.hx.T.hx", ".hx", "") == "a.T"
  {
    ReplaceHit(".hx", ".hx", "");
    assert ".hx"[3..] == "";
    assert "T.hx"[0] != ".hx"[0];
    ReplaceMiss("T.hx", ".hx", "");
    assert "T.hx"[1..] == ".hx";
    assert ".T.hx"[1] != ".hx"[1];
    ReplaceMiss(".T.hx", ".hx", "");
    assert ".T.hx"[1..] == "T.hx";
    ReplaceHit(".hx.T.hx", ".hx", "");
    assert ".hx.T.hx"[3..] == ".T.hx";
    ReplaceMiss("a.hx.T.hx", ".hx", "");
    assert "a.hx.T.hx"[1..] == ".hx.T.hx";
  }

  lemma ExamplePath()
    ensures Join(["a", "hx", "T"], '/') + ".hx" == "a/hx/T.hx"
    ensures Join(["a", "hx", "T"], '.') == "a.hx.T"
  {
    assert ["a", "hx", "T"][1..] == ["hx", "T"];
    assert ["hx", "T"][1..] == ["T"];
  }

  /**
   * A package whose name starts with `hx` loses those letters and its dot:
   * the test `a/hx/T.hx` is registered as `a.T` instead of `a.hx.T`.
   */
  lemma AsWrittenDropsPackage()
    ensures EndsWith("a/hx/T.hx", ".hx")
    ensures QualifiedName("a/hx/T.hx") == "a.hx.T"
    ensures QualifiedNameAsWritten("a/hx/T.hx") == "a.T"
  {
    ExamplePath();
    assert ["a", "hx"] + ["T"] == ["a", "hx", "T"];
    QualifiedNameOfPackage(["a", "hx"], "T");
    var rel := "a/hx/T.hx";
    var q := QualifiedName(rel);
    assert q + ".hx" == DottedPath(rel);
    assert DottedPath(rel) == "a.hx.T.hx";
    RemoveHxExample();
  }

  // ---------------------------------------------------------------------
  // Which files are test cases
  // ---------------------------------------------------------------------

  /**
   * The three regular expressions of the goal: `import utest.Test;`, a class
   * extending `Test` or `utest.Test`, and a class extending `utest.Test`.
   */
  datatype Pattern = ImportsTest | ExtendsTest | ExtendsQualifiedTest

  /** Whether a pattern occurs somewhere in a text (`Matcher.find`). */
  type Finder = (Pattern, string) -> bool

  /**
   * A text is a test case when it extends `Test` after importing
   * `utest.Test`, or extends `utest.Test` by its full name without the import.
   */
  predicate IsTestCase(text: string, find: Finder) {
    if find(ImportsTest, text) then find(ExtendsTest, text) else find(ExtendsQualifiedTest, text)
  }

  /**
   * Extending `utest.Test` by its full name is always enough, with or
   * without the import, because `(?:utest\.)?Test` matches everywhere
   * `utest\.Test` does.
   */
  lemma QualifiedExtendsDetected(text: string, find: Finder)
    requires forall t :: find(ExtendsQualifiedTest, t) ==> find(ExtendsTest, t)
    requires find(ExtendsQualifiedTest, text)
    ensures IsTestCase(text, find)
  {
  }

  /** Without the import, extending plain `Test` does not make a test case. */
  lemma UnimportedPlainTestIgnored(text: string, find: Finder)
    requires !find(ImportsTest, text) && !find(ExtendsQualifiedTest, text)
    ensures !IsTestCase(text, find)
  {
  }

  /** A file met while walking the test source directory: its path relative to it, and its text (`None` when it cannot be read). */
  datatype TestFile = TestFile(relativePath: string, text: Option<string>)

  /** A readable `.hx` file whose text is a test case. */
  predicate Selected(f: TestFile, find: Finder) {
    EndsWith(f.relativePath, ".hx") && f.text.Some? && IsTestCase(f.text.value, find)
  }

  /**
   * The names the goal registers for the test cases among `files`, in the
   * order the walk met them: each is the name as written, with every `.hx`
   * removed.
   */
  function TestNames(files: seq<TestFile>, find: Finder): (r: seq<string>)
    ensures |r| <= |files|
    ensures forall n :: n in r <==>
      exists i :: 0 <= i < |files| && Selected(files[i], find) && QualifiedNameAsWritten(files[i].relativePath) == n
    decreases |files|
  {
    if |files| == 0 then []
    else
      var rest := TestNames(files[1..], find);
      assert forall i :: 1 <= i < |files| ==> files[i] == files[1..][i - 1];
      assert forall i :: 0 <= i < |files| - 1 ==> files[1..][i] == files[i + 1];
      if Selected(files[0], find) then [QualifiedNameAsWritten(files[0].relativePath)] + rest else rest
  }

  /** A test case at `a/hx/T.hx` is registered as `a.T`, the name the goal computes. */
  lemma HxPackageRegisteredAsWritten(text: string, find: Finder)
    requires IsTestCase(text, find)
    ensures TestNames([TestFile("a/hx/T.hx", Some(text))], find) == ["a.T"]
  {
    AsWrittenDropsPackage();
    var files := [TestFile("a/hx/T.hx", Some(text))];
    assert Selected(files[0], find);
    assert files[1..] == [];
  }

  /** The names of two runs of files are the names of the first followed by those of the second. */
  lemma {:induction false} TestNamesAppend(a: seq<TestFile>, b: seq<TestFile>, find: Finder)
    ensures TestNames(a + b, find) == TestNames(a, find) + TestNames(b, find)
    decreases |a|
  {
    if |a| == 0 {
      assert a + b == b;
    } else {
      assert (a + b)[0] == a[0];
      assert (a + b)[1..] == a[1..] + b;
      TestNamesAppend(a[1..], b, find);
    }
  }

  // ---------------------------------------------------------------------
  // The generated TestsMain class
  // ---------------------------------------------------------------------

  const HeaderLines: seq<string> := [
    "import openfl.display.Sprite;",
    "import utest.Runner;",
    "import utest.ui.Report;",
    "import com.example.SampleTestCase;",
    "class TestsMain extends Sprite {",
    "  public function new() {",
    "    super();",
    "    var runner = new Runner();"
  ]

  const FooterLines: seq<string> := [
    "    #if html5",
    "    new utest.ui.text.PrintReport(runner);",
    "    var aggregator = new utest.ui.common.ResultAggregator(runner, true);",
    "    aggregator.onComplete.add(function(result:utest.ui.common.PackageResult):Void {",
    "  \t  Reflect.setField(js.Lib.global, \"utestResult\", result);",
    "    });",
    "    #else",
    "    Report.create(runner);",
    "    #end",
    "    runner.run();",
    "  }",
    "}"
  ]

  const AddCasePrefix: string := "    runner.addCase(new "
  const AddCaseSuffix: string := "());"

  /** The line that registers one test case. */
  function AddCaseLine(name: string): string {
    AddCasePrefix + name + AddCaseSuffix
  }

  /** The `addCase` lines, one per test name, in order. */
  function CaseLines(names: seq<string>): (r: seq<string>)
    ensures |r| == |names|
    ensures forall i :: 0 <= i < |names| ==> r[i] == AddCaseLine(names[i])
  {
    seq(|names|, i requires 0 <= i < |names| => AddCaseLine(names[i]))
  }

  /** The lines of `TestsMain.hx`: the fixed header, one `addCase` per test, the fixed footer. */
  function MainLines(names: seq<string>): seq<string> {
    HeaderLines + CaseLines(names) + FooterLines
  }

  /** Each line followed by a newline. */
  function Terminated(lines: seq<string>): string
    decreases |lines|
  {
    if |lines| == 0 then "" else lines[0] + "\n" + Terminated(lines[1..])
  }

  lemma {:induction false} TerminatedAppend(a: seq<string>, b: seq<string>)
    ensures Terminated(a + b) == Terminated(a) + Terminated(b)
    decreases |a|
  {
    if |a| == 0 {
      assert a + b == b;
    } else {
      assert (a + b)[1..] == a[1..] + b;
      TerminatedAppend(a[1..], b);
    }
  }

  /** Lines each followed by a newline are the lines, and an empty last piece, joined with newlines. */
  lemma {:induction false} TerminatedJoin(lines: seq<string>)
    ensures Terminated(lines) == Join(lines + [""], '\n')
    decreases |lines|
  {
    if |lines| > 0 {
      TerminatedJoin(lines[1..]);
      assert (lines + [""])[1..] == lines[1..] + [""];
    }
  }

  /** The text of the generated `TestsMain.hx`. */
  function TestsMainText(names: seq<string>): (r: string) {
    Terminated(MainLines(names))
  }

  /** The test names back from `addCase` lines; `None` when a line is not one. */
  function ParseCases(lines: seq<string>): (r: Option<seq<string>>)
    ensures r.Some? ==> |r.value| == |lines|
    decreases |lines|
  {
    if |lines| == 0 then Some([])
    else
      var l := lines[0];
      if |l| < |AddCasePrefix| + |AddCaseSuffix| || !(AddCasePrefix <= l) || !EndsWith(l, AddCaseSuffix) then None
      else
        match ParseCases(lines[1..])
        case None => None
        case Some(rest) => Some([l[|AddCasePrefix|..|l| - |AddCaseSuffix|]] + rest)
  }

  /** The test names a `TestsMain.hx` text registers, in order; `None` when it is not such a text. */
  function ParseTestsMain(text: string): Option<seq<string>> {
    ParseFramed(text, Terminated(HeaderLines), Terminated(FooterLines))
  }

  /** The test names between a fixed header and a fixed footer. */
  function ParseFramed(text: string, header: string, footer: string): Option<seq<string>> {
    if |text| < |header| + |footer| || text[..|header|] != header || text[|text| - |footer|..] != footer then None
    else ParseCaseText(text[|header|..|text| - |footer|])
  }

  /** The test names of newline-ended `addCase` lines. */
  function ParseCaseText(middle: string): Option<seq<string>> {
    var ls := Split(middle, '\n');
    if ls[|ls| - 1] != "" then None else ParseCases(ls[..|ls| - 1])
  }

  lemma {:induction false} ParseCasesOfLines(names: seq<string>)
    ensures ParseCases(CaseLines(names)) == Some(names)
    decreases |names|
  {
    var lines := CaseLines(names);
    if |names| > 0 {
      ParseCasesOfLines(names[1..]);
      assert lines[1..] == CaseLines(names[1..]);
      var l := AddCaseLine(names[0]);
      assert l[..|AddCasePrefix|] == AddCasePrefix;
      assert l[|l| - |AddCaseSuffix|..] == AddCaseSuffix;
      assert l[|AddCasePrefix|..|l| - |AddCaseSuffix|] == names[0];
      assert [names[0]] + names[1..] == names;
    }
  }

  /** An `addCase` line has no newline when the name has none. */
  lemma CaseLineNoNewline(name: string)
    requires '\n' !in name
    ensures '\n' !in AddCaseLine(name)
  {
    assert '\n' !in AddCasePrefix;
    assert '\n' !in AddCaseSuffix;
  }

  /** The `addCase` lines, each ended by a newline, read back as the names. */
  lemma CaseTextRoundTrip(names: seq<string>)
    requires forall i :: 0 <= i < |names| ==> '\n' !in names[i]
    ensures ParseCaseText(Terminated(CaseLines(names))) == Some(names)
  {
    var cases := CaseLines(names);
    TerminatedJoin(cases);
    var parts := cases + [""];
    forall i | 0 <= i < |parts| ensures '\n' !in parts[i] {
      if i < |cases| {
        CaseLineNoNewline(names[i]);
      }
    }
    SplitJoin(parts, '\n');
    assert parts[..|parts| - 1] == cases;
    ParseCasesOfLines(names);
  }

  lemma Framed(h: string, m: string, f: string)
    ensures ParseFramed(h + m + f, h, f) == ParseCaseText(m)
  {
    var t := h + m + f;
    assert t[..|h|] == h && t[|t| - |f|..] == f && t[|h|..|t| - |f|] == m;
  }

  /** Any fixed header and footer around the `addCase` lines can be told apart from them. */
  lemma FramedRoundTrip(header: seq<string>, footer: seq<string>, names: seq<string>)
    requires forall i :: 0 <= i < |names| ==> '\n' !in names[i]
    ensures ParseFramed(Terminated(header + CaseLines(names) + footer), Terminated(header), Terminated(footer)) == Some(names)
  {
    TerminatedAppend(header + CaseLines(names), footer);
    TerminatedAppend(header, CaseLines(names));
    Framed(Terminated(header), Terminated(CaseLines(names)), Terminated(footer));
    CaseTextRoundTrip(names);
  }

  /** The generated class registers exactly the detected tests, in order. */
  lemma TestsMainRoundTrip(names: seq<string>)
    requires forall i :: 0 <= i < |names| ==> '\n' !in names[i]
    ensures ParseTestsMain(TestsMainText(names)) == Some(names)
  {
    FramedRoundTrip(HeaderLines, FooterLines, names);
  }

  // ---------------------------------------------------------------------
  // Generating the sources
  // ---------------------------------------------------------------------

  /** The test source directory as the walk finds it. */
  datatype TestDirectory =
    | Missing
    | WalkFails
    | Walked(files: seq<TestFile>)

  const GenerateTestsErrorMessage: string := "Fatal error generating Lime tests project file"

  /**
   * Generating the test sources: `Ok(None)` when there is nothing to test,
   * `Ok(Some(text))` with the `TestsMain.hx` written, or the error raised.
   * `canWrite` says whether writing the generated file succeeds.
   */
  function GenerateTestSources(dir: TestDirectory, find: Finder, canWrite: bool): (r: Result<Option<string>>)
    ensures r == Ok(None) <==> dir.Missing? || (dir.Walked? && TestNames(dir.files, find) == [])
    ensures r.Ok? && r.value.Some? <==> dir.Walked? && TestNames(dir.files, find) != [] && canWrite
    ensures r.Ok? && r.value.Some? ==> r.value.value == TestsMainText(TestNames(dir.files, find))
    ensures dir.WalkFails? ==> r == Err(ExternalError)
    ensures dir.Walked? && TestNames(dir.files, find) != [] && !canWrite ==>
      r == Err(ExecutionError(GenerateTestsErrorMessage, Some(ExternalError)))
  {
    match dir
    case Missing => Ok(None)
    case WalkFails => Err(ExternalError)
    case Walked(files) =>
      var names := TestNames(files, find);
      if |names| == 0 then Ok(None)
      else if !canWrite then Err(ExecutionError(GenerateTestsErrorMessage, Some(ExternalError)))
      else Ok(Some(TestsMainText(names)))
  }

  /** The page that loads `TestsMain.js` in a browser for an html5 test build. */
  const TestIndexHtml: string :=
    "<!DOCTYPE html>\n"
    + "<html lang=\"en\">\n"
    + "  <head>\n"
    + "    <meta charset=\"utf-8\">\n"
    + "    <title>lime-openfl-maven-plugin Test Runner</title>\n"
    + "    <script type=\"text/javascript\" src=\"./TestsMain.js\"></script>\n"
    + "  </head>\n"
    + "  <body>\n"
    + "    <noscript>Please enable JavaScript in your web browser to run tests.</noscript>\n"
    + "    <script type=\"text/javascript\">\n"
    + "      lime.$scripts[\"TestsMain\"]();\n"
    + "    </script>\n"
    + "  </body>\n"
    + "</html>"
}
