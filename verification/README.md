# lime-openfl-maven-plugin, modelled in Dafny

The lime-openfl-maven-plugin drives the Lime/OpenFL toolchain from Maven.
The model covers its four goals and the logic they share:

- `generate-project-xml` turns the `limeProject` descriptor of a POM into a
  Lime `project.xml`. It first writes defaults taken from the POM (meta lines,
  a main source path, the `lime` haxelib), then the descriptor's members in a
  fixed order, with nested `<section>` elements.
- `build` and `test-build` refuse `isDebug` together with `isFinal`. They then
  check every haxelib the project needs (probe with `haxelib path`, install
  with `haxelib install` when missing or at the wrong version) and run
  `haxelib run lime build`. `test-build` also finds the utest test cases,
  generates `TestsMain.hx` and, for html5, writes the test page.
- `test` runs `haxelib run lime run`, or for html5 serves the build and asks a
  browser for the verdict.
- `LogOutputStream` turns a child process's byte output into log lines.

Files, one module each:

- `common.dfy`: results, options, `Join`/`Split` and decimal integers.
- `descriptor.dfy`: the descriptor records and their setter shorthands.
- `xml.dfy`: elements, nodes, lines and their text.
- `project_xml.dfy`, `project_xml_laws.dfy`: the serializer and its laws.
- `commands.dfy`: the argument vectors and their parsers.
- `process.dfy`: commands and the process oracle.
- `haxelibs.dfy`: library checks.
- `test_sources.dfy`: test discovery and `TestsMain.hx`.
- `test_server.dfy`: the request path and the MIME lookup.
- `log_stream.dfy`: `LogOutputStream`.
- `goals.dfy`: the goals end to end.

A `File` is a path string. `getAbsolutePath` is an uninterpreted parameter
`abs`. A Java `null` is `None`.

External processes are an oracle `(n, command) -> result`. It answers the
n-th command of a goal with an exit code and standard output, or with a
failure to start. Each goal returns the commands it ran, in order, with its
result. So "library checks run before the build" and "skip runs no build"
are statements about that trace.

Each operation is proved against a partner:

- argument vectors: a parser that recovers the options;
- exit-code messages of the build, test-build and run steps: a parser that
  recovers the code;
- the haxelib marker: the output of `haxelib path` that contains it;
- `TestsMain.hx`: a parser that recovers the test names;
- the log stream: the text written, which the logged lines join back to;
- the serializer: tag-order and nesting predicates, and per-kind filters of
  the body that recover each kind of member (app, meta, window fields;
  source, java, haxelib … postbuild entries; sections) in declared order.

The generator writes the package default as `groupId + "." + artifactId`.
The `Meta` documentation says it comes from the project description. The
model follows the code (`DefaultPackage`).

## Model

| member | source | states |
|---|---|---|
| ProjectXml.GenerateExecute | src/main/java/com/feathersui/maven/plugin/lime_openfl/GenerateProjectXmlMojo.java:174-199 | With no descriptor, the goal skips when a project file is configured or `project.xml` exists. A descriptor together with a project file fails with the conflict message. Otherwise it writes exactly the generated document; a generation error writes nothing and is wrapped. |
| ProjectXml.GenerateProjectXml | src/main/java/com/feathersui/maven/plugin/lime_openfl/GenerateProjectXmlMojo.java:201-268 | Generation succeeds iff every haxelib at every depth has a name, else fails with "Haxelib must have a name". A success starts with the XML declaration and `<project>` and ends with `</project>`. |
| ProjectXmlLaws.DocumentParts | src/main/java/com/feathersui/maven/plugin/lime_openfl/GenerateProjectXmlMojo.java:201-268 | The document falls into four consecutive parts: prolog and `<project>`, one element line per default element, the lines of the body, then `</project>`. So every default line comes before any body line. |
| ProjectXmlLaws.DocumentWellNested | src/main/java/com/feathersui/maven/plugin/lime_openfl/GenerateProjectXmlMojo.java:201-281 | Every valid descriptor yields the prolog, `<project>`, a well-nested sequence of lines and `</project>`: every `</section>` line closes an open `<section>` line and every `<section>` line is closed. |
| ProjectXml.DefaultElements | src/main/java/com/feathersui/maven/plugin/lime_openfl/GenerateProjectXmlMojo.java:207-261 | A default meta line is written for exactly the defaulted POM values. `<source path=abs(mainSrc)>` is written iff no top-level source resolves to the same absolute path. `<haxelib name="lime">` is written iff no top-level haxelib is named lime or openfl. |
| ProjectXml.DefaultOrder | src/main/java/com/feathersui/maven/plugin/lime_openfl/GenerateProjectXmlMojo.java:207-261 | The default lines come out in a fixed order: the title, description, package, version, company and company-url meta lines, then the source line, then the lime haxelib line. Ranks strictly increase, so no kind appears twice. |
| ProjectXml.DefaultTitle | src/main/java/com/feathersui/maven/plugin/lime_openfl/GenerateProjectXmlMojo.java:207-211 | A title meta line is written iff the top-level meta has no title, and it carries the POM name. |
| ProjectXml.DefaultDescription | src/main/java/com/feathersui/maven/plugin/lime_openfl/GenerateProjectXmlMojo.java:212-219 | A description line is written iff the meta has none and the POM has one. |
| ProjectXml.DefaultPackage | src/main/java/com/feathersui/maven/plugin/lime_openfl/GenerateProjectXmlMojo.java:220-226 | A package line is written iff the meta has none, and its value is `groupId.artifactId`. |
| ProjectXml.DefaultVersion | src/main/java/com/feathersui/maven/plugin/lime_openfl/GenerateProjectXmlMojo.java:227-231 | A version line is written iff the meta has none, and it carries the POM version. |
| ProjectXml.DefaultCompany | src/main/java/com/feathersui/maven/plugin/lime_openfl/GenerateProjectXmlMojo.java:232-239 | A company line is written iff the meta has none and the POM organization has a name. |
| ProjectXml.DefaultCompanyUrl | src/main/java/com/feathersui/maven/plugin/lime_openfl/GenerateProjectXmlMojo.java:240-247 | A company-url line is written iff the meta has none and the POM organization has a URL. |
| ProjectXmlLaws.DefaultsIgnoreSections | src/main/java/com/feathersui/maven/plugin/lime_openfl/GenerateProjectXmlMojo.java:207-261 | The defaults depend only on the top-level project: replacing its sections changes none of them. |
| ProjectXmlLaws.PlainPomAttrs | src/main/java/com/feathersui/maven/plugin/lime_openfl/GenerateProjectXmlMojo.java:207-247 | With no description and no organization, the default meta attributes are exactly title, package and version. |
| ProjectXmlLaws.PlainPomMetas | src/main/java/com/feathersui/maven/plugin/lime_openfl/GenerateProjectXmlMojo.java:207-231 | For such a POM, the default meta elements are title = name, package = `groupId.artifactId` and version, in that order. |
| ProjectXmlLaws.DefaultsOnlyExample | src/main/java/com/feathersui/maven/plugin/lime_openfl/GenerateProjectXmlMojo.java:201-268 | With no descriptor and a plain POM, the document is exactly the prolog, `<project>`, the three meta lines, the main source line, the lime haxelib line and `</project>`. |
| ProjectXml.HaxelibNodes | src/main/java/com/feathersui/maven/plugin/lime_openfl/GenerateProjectXmlMojo.java:457-482 | Haxelibs render iff all have names, one element per haxelib in order. A missing name fails with "Haxelib must have a name". |
| ProjectXml.Groups | src/main/java/com/feathersui/maven/plugin/lime_openfl/GenerateProjectXmlMojo.java:283-867 | A project renders as 25 groups, group k holding only elements of the k-th tag in the fixed order app … section. It fails iff some haxelib at some depth has no name. |
| ProjectXml.Body | src/main/java/com/feathersui/maven/plugin/lime_openfl/GenerateProjectXmlMojo.java:283-867 | The body renders iff every haxelib at every depth is named; any other descriptor fails with the missing-name error. |
| ProjectXml.SectionNodes | src/main/java/com/feathersui/maven/plugin/lime_openfl/GenerateProjectXmlMojo.java:863-867 | Sections render iff each nested project is valid, one `<section>` node per section. |
| ProjectXml.GroupTagsDistinct | src/main/java/com/feathersui/maven/plugin/lime_openfl/GenerateProjectXmlMojo.java:283-867 | The 25 emission tags are pairwise distinct, so the emission order is a strict order on tags. |
| ProjectXmlLaws.GroupFiltered | src/main/java/com/feathersui/maven/plugin/lime_openfl/GenerateProjectXmlMojo.java:283-867 | In a valid body, the nodes of the k-th kind are exactly group k, in its order. |
| ProjectXmlLaws.LeadingMembersInBody | src/main/java/com/feathersui/maven/plugin/lime_openfl/GenerateProjectXmlMojo.java:284-456 | The body's app, meta and window elements are one element per set field of that record, none for a null record. Its source and java elements are the declared entries, one each, in declared order. |
| ProjectXmlLaws.MiddleMembersInBody | src/main/java/com/feathersui/maven/plugin/lime_openfl/GenerateProjectXmlMojo.java:483-689 | The body's haxedef, setenv, haxeflag, language, include, dependency, icon, template, certificate and assets elements are the declared entries, one each, in declared order. |
| ProjectXmlLaws.TrailingMembersInBody | src/main/java/com/feathersui/maven/plugin/lime_openfl/GenerateProjectXmlMojo.java:690-862 | The body's library, ndll, architecture, path, sample, prebuild and postbuild elements are the declared entries, one each, in declared order. A launch image gives exactly one element, and none when it is null. |
| ProjectXmlLaws.SectionWindowField | src/main/java/com/feathersui/maven/plugin/lime_openfl/GenerateProjectXmlMojo.java:355-442 | A field set on a section's window record, such as `fps`, is written as `<window fps="…"/>` inside that section's element. |
| ProjectXmlLaws.BodyWellOrdered | src/main/java/com/feathersui/maven/plugin/lime_openfl/GenerateProjectXmlMojo.java:283-867 | In every valid body an element never follows one of a later tag in the order app, meta, window, …, postbuild, section. |
| ProjectXmlLaws.HaxelibsInDeclaredOrder | src/main/java/com/feathersui/maven/plugin/lime_openfl/GenerateProjectXmlMojo.java:457-482 | The haxelib elements of the body are the declared haxelibs, one each, in declared order. |
| ProjectXmlLaws.SectionsInDeclaredOrder | src/main/java/com/feathersui/maven/plugin/lime_openfl/GenerateProjectXmlMojo.java:863-867 | The section nodes of the body are the declared sections in declared order; each carries its conditions and its own rendered body. |
| ProjectXmlLaws.EmptySectionLines | src/main/java/com/feathersui/maven/plugin/lime_openfl/GenerateProjectXmlMojo.java:270-281 | A section with no conditions and no members renders as a bare `<section>` followed by `</section>`. |
| ProjectXmlLaws.EmptyProjectNoBody | src/main/java/com/feathersui/maven/plugin/lime_openfl/LimeProject.java:100-440 | A project whose members are all at their null defaults is valid and contributes no body at all. |
| ProjectXmlLaws.ArchitectureExcludeAsDir | src/main/java/com/feathersui/maven/plugin/lime_openfl/GenerateProjectXmlMojo.java:781-796 | An architecture's `exclude` is written as attribute `dir`, and no attribute is named `exclude`. |
| ProjectXmlLaws.TemplateRenameAsValue | src/main/java/com/feathersui/maven/plugin/lime_openfl/GenerateProjectXmlMojo.java:591-608 | A template's `rename` is written as attribute `value`, and no attribute is named `rename`. |
| ProjectXmlLaws.SystemPathNotAbsolute | src/main/java/com/feathersui/maven/plugin/lime_openfl/GenerateProjectXmlMojo.java:797-803 | A system path is written with its configured value, not made absolute. |
| ProjectXmlLaws.LibraryPathFirst | src/main/java/com/feathersui/maven/plugin/lime_openfl/GenerateProjectXmlMojo.java:690-702 | A library with a path writes `path` as its first attribute, before `name`. |
| ProjectXml.Records | src/main/java/com/feathersui/maven/plugin/lime_openfl/GenerateProjectXmlMojo.java:483-862 | One element per array entry, in array order: the i-th is a leaf with the array's tag, and an attribute `k="v"` is on it exactly when the entry's field `k` is set to `v`; null fields give no attribute. |
| Xml.PresentAttrs | src/main/java/com/feathersui/maven/plugin/lime_openfl/GenerateProjectXmlMojo.java:465-479 | An attribute appears exactly for each field with a non-null value, as often as such a field occurs. |
| Xml.AttributeOncePerSetField | src/main/java/com/feathersui/maven/plugin/lime_openfl/GenerateProjectXmlMojo.java:465-479 | With distinct keys, a set field gives its attribute exactly once and a null field gives none. |
| Xml.SingleAttrElements | src/main/java/com/feathersui/maven/plugin/lime_openfl/GenerateProjectXmlMojo.java:284-442 | Each set app, meta or window field becomes its own one-attribute element, and only set fields do. |
| Xml.LinesWellNested | src/main/java/com/feathersui/maven/plugin/lime_openfl/GenerateProjectXmlMojo.java:270-281 | Any node tree renders to lines whose `<section>` and `</section>` balance and never close below depth zero. |
| Xml.FilterTagFlatten | src/main/java/com/feathersui/maven/plugin/lime_openfl/GenerateProjectXmlMojo.java:283-867 | In grouped output with distinct tags, the elements of the k-th tag are exactly the k-th group. |
| Descriptor.HaxelibSet | src/main/java/com/feathersui/maven/plugin/lime_openfl/Haxelib.java:159-161 | The shorthand setter sets the name and changes no other field. |
| Descriptor.SourceSet | src/main/java/com/feathersui/maven/plugin/lime_openfl/Source.java:78-86 | Setting the path, from a `File` or a string, gives the source whose only field is that path, so the setter forms and the explicit `<path>` child yield the same source. |
| Descriptor.AssetsSet | src/main/java/com/feathersui/maven/plugin/lime_openfl/Assets.java:38-44 | The path setter sets the path and leaves the other seven fields unchanged. |
| Descriptor.IconSet | src/main/java/com/feathersui/maven/plugin/lime_openfl/Icon.java:26-32 | The path setter sets the path and leaves size, width and height unchanged. |
| Haxelibs.HaxelibPath | src/main/java/com/feathersui/maven/plugin/lime_openfl/BaseMojo.java:63-69 | The executable is `haxelib` when none is configured, else the configured one made absolute. |
| Haxelibs.FileProbes | src/main/java/com/feathersui/maven/plugin/lime_openfl/BaseBuildMojo.java:98-115 | A probe comes from the file exactly for a haxelib element with a non-empty name, carrying its version attribute. |
| Haxelibs.FileProbesAppend | src/main/java/com/feathersui/maven/plugin/lime_openfl/BaseBuildMojo.java:98-115 | The file's probes keep document order: probes of a concatenation are the probes of each part in turn. |
| Haxelibs.ProbeList | src/main/java/com/feathersui/maven/plugin/lime_openfl/BaseBuildMojo.java:93-127 | The probes are the file's, then the additional haxelibs with no version, then lime iff lime appeared in neither. |
| Haxelibs.LimeAlwaysChecked | src/main/java/com/feathersui/maven/plugin/lime_openfl/BaseBuildMojo.java:107-126 | Whatever the inputs, lime is among the probed libraries. |
| Haxelibs.OpenflDoesNotCount | src/main/java/com/feathersui/maven/plugin/lime_openfl/BaseBuildMojo.java:107-126 | A project listing only openfl still probes lime afterwards. |
| Haxelibs.CheckOrder | src/main/java/com/feathersui/maven/plugin/lime_openfl/BaseBuildMojo.java:93-127 | The loop with its `foundLime` flag computes exactly the probe list. |
| Haxelibs.FirstMarked | src/main/java/com/feathersui/maven/plugin/lime_openfl/BaseBuildMojo.java:148-155 | No value iff no line starts with the marker; otherwise the value is the rest of a line that starts with the marker. |
| Haxelibs.FirstMarkedAt | src/main/java/com/feathersui/maven/plugin/lime_openfl/BaseBuildMojo.java:150-155 | The first marked line decides, whatever later lines say. |
| Haxelibs.InstalledVersionOfOutput | src/main/java/com/feathersui/maven/plugin/lime_openfl/BaseBuildMojo.java:147-155 | For output whose first `-D name=` line is `-D name=v`, the installed version read back is v. |
| Haxelibs.NoMarkerNoVersion | src/main/java/com/feathersui/maven/plugin/lime_openfl/BaseBuildMojo.java:147-155 | Output with no marker line gives no installed version. |
| Haxelibs.NeedsInstall | src/main/java/com/feathersui/maven/plugin/lime_openfl/BaseBuildMojo.java:141-162 | Install is skipped only after exit 0. With no required version, exit 0 skips it. With one, install runs iff the exit is non-zero or the installed version differs. |
| Haxelibs.VersionDecidesInstall | src/main/java/com/feathersui/maven/plugin/lime_openfl/BaseBuildMojo.java:147-159 | After a successful probe, install runs iff the version in the output differs from the required one. |
| Haxelibs.InstallArgs | src/main/java/com/feathersui/maven/plugin/lime_openfl/BaseBuildMojo.java:171-177 | The install vector is `install`, the name, the version if required, `--always`, `--quiet`. |
| Haxelibs.InstallArgsRoundTrip | src/main/java/com/feathersui/maven/plugin/lime_openfl/BaseBuildMojo.java:171-177 | The name and the required version are recovered from the install vector. |
| Haxelibs.InstallFailure | src/main/java/com/feathersui/maven/plugin/lime_openfl/BaseBuildMojo.java:183-186 | A failed install reports a failure whose message ends with the library's name. |
| Haxelibs.CheckHaxelib | src/main/java/com/feathersui/maven/plugin/lime_openfl/BaseBuildMojo.java:129-187 | One check runs `haxelib path name`, then `haxelib install` exactly when the probe says so. It fails iff a process cannot start or the install exits non-zero. |
| Haxelibs.CheckAll | src/main/java/com/feathersui/maven/plugin/lime_openfl/BaseBuildMojo.java:93-127 | Checks run in probe order, one or two commands each, and the first probe runs first. |
| Haxelibs.CheckAllProbesEach | src/main/java/com/feathersui/maven/plugin/lime_openfl/BaseBuildMojo.java:93-127 | When all checks pass, every listed library was probed. |
| Haxelibs.CheckAllOnlyHaxelibCommands | src/main/java/com/feathersui/maven/plugin/lime_openfl/BaseBuildMojo.java:129-187 | The checks run nothing but `haxelib path` and `haxelib install` commands. |
| Commands.TakePrefixedRoundTrip | src/main/java/com/feathersui/maven/plugin/lime_openfl/BuildMojo.java:297-316 | One prefixed argument per entry, in caller order, and the entries are recovered from them. |
| Commands.ExtrasRoundTrip | src/main/java/com/feathersui/maven/plugin/lime_openfl/BuildMojo.java:297-316 | The source, dependency, haxedef and haxelib lists are recovered, in that order, from the options they add. |
| Commands.ParseModeRoundTrip | src/main/java/com/feathersui/maven/plugin/lime_openfl/BuildMojo.java:287-292 | `-debug` appears iff isDebug and `-final` iff isFinal, in that order, and both flags are recovered. |
| Commands.BuildArgs | src/main/java/com/feathersui/maven/plugin/lime_openfl/BuildMojo.java:282-316 | The build vector starts with `run` and has at least the five fixed arguments and `--app-path`. |
| Commands.BuildArgsRoundTrip | src/main/java/com/feathersui/maven/plugin/lime_openfl/BuildMojo.java:282-316 | From the build vector one recovers: the absolute project file, the target, both flags, the absolute build directory, the output file name exactly when set, and the four extra lists (a null list as empty). |
| Commands.TestBuildArgs | src/main/java/com/feathersui/maven/plugin/lime_openfl/BuildTestsMojo.java:104-143 | The test-build vector starts with `run` and holds at least the eleven fixed arguments. |
| Commands.TestBuildArgsRoundTrip | src/main/java/com/feathersui/maven/plugin/lime_openfl/BuildTestsMojo.java:104-143 | From the test-build vector one recovers the project file, target, flags, the test, generated and build directories, and the extra lists after the fixed `TestsMain` and `utest` options. |
| Commands.RunArgsRoundTrip | src/main/java/com/feathersui/maven/plugin/lime_openfl/TestMojo.java:203-212 | From the run vector one recovers the absolute project file, the target and the absolute test build directory; it has no mode flags. |
| Commands.ExitOutcome | src/main/java/com/feathersui/maven/plugin/lime_openfl/BuildMojo.java:321-325 | Exit 0 succeeds; any other code fails with the goal's message prefix. |
| Commands.ExitCodeInMessage | src/main/java/com/feathersui/maven/plugin/lime_openfl/BuildMojo.java:321-325 | The failing exit code is recovered exactly from the message. |
| Common.IntToStringRoundTrip | src/main/java/com/feathersui/maven/plugin/lime_openfl/BuildMojo.java:325 | The decimal text of any exit code, negative included, parses back to it. |
| Goals.BuildExecute | src/main/java/com/feathersui/maven/plugin/lime_openfl/BuildMojo.java:162-172 | isDebug with isFinal fails with the guard message before running anything. Otherwise every failure is wrapped as "Fatal error building Lime project". An unreadable project file runs nothing. A valid one runs the checks and then, only if they pass, the build command. |
| Goals.BuildRunsOnlyAfterChecks | src/main/java/com/feathersui/maven/plugin/lime_openfl/BuildMojo.java:166-168 | The build command appears in the trace only as the last command, after checks that all passed. |
| Goals.BuildCommandNotACheck | src/main/java/com/feathersui/maven/plugin/lime_openfl/BuildMojo.java:166-168 | The checks never run the build command itself. |
| Goals.BuildProbedEveryLibrary | src/main/java/com/feathersui/maven/plugin/lime_openfl/BuildMojo.java:182-216 | A successful build probed every listed library and lime. |
| Goals.TestBuildProbes | src/main/java/com/feathersui/maven/plugin/lime_openfl/BuildTestsMojo.java:79-83 | Test builds probe the libraries of a build and then utest with no version, last. |
| Goals.TestBuildExecute | src/main/java/com/feathersui/maven/plugin/lime_openfl/BaseBuildMojo.java:79-89 | isDebug with isFinal fails with the guard message and runs nothing. Every later failure is wrapped. An unreadable project file fails, wrapped, with nothing run; a failed check fails with its error wrapped. After passed checks the result is the test-build step's, with its error wrapped. Generated sources, the skip flag and the test page all require passed checks and no skip. |
| Goals.TestBuildStep | src/main/java/com/feathersui/maven/plugin/lime_openfl/BuildTestsMojo.java:86-158 | Skipping runs nothing and succeeds. A generation error fails with "Failed to generate Lime tests sources" and runs nothing. No tests sets the skip flag and runs nothing. Otherwise the test-build command runs next: a start failure is the command-line error, a non-zero exit fails with "Lime test build failure. Process exited with code: " and the code, and exit 0 succeeds unless the html5 page cannot be written. The page is written exactly when the build succeeded for html5. |
| Goals.TestBuildReportsExitCode | src/main/java/com/feathersui/maven/plugin/lime_openfl/BuildTestsMojo.java:146-153 | Once tests are found and written, a failed test build ran the test-build command right after the checks and fails, wrapped, with a message that gives back the exact exit code. |
| Goals.SkipChecksOnly | src/main/java/com/feathersui/maven/plugin/lime_openfl/BuildTestsMojo.java:87-90 | With skip set, the goal runs the library checks and nothing else, generating nothing. |
| Goals.NoTestsSkipsLaterGoals | src/main/java/com/feathersui/maven/plugin/lime_openfl/BuildTestsMojo.java:93-97 | With no test directory or no test case, the goal sets the test-skip flag and spawns no build. |
| Goals.TestsMainRegistersDetected | src/main/java/com/feathersui/maven/plugin/lime_openfl/BuildTestsMojo.java:201-227 | The generated `TestsMain.hx` registers exactly the detected test cases, in walk order. |
| Goals.TestSourcesFailureReported | src/main/java/com/feathersui/maven/plugin/lime_openfl/BuildTestsMojo.java:98-100 | A failure while generating test sources is reported as "Failed to generate Lime tests sources", wrapped, with no build run. |
| Goals.UtestCheckedLast | src/main/java/com/feathersui/maven/plugin/lime_openfl/BuildTestsMojo.java:79-83 | A successful test build probed utest. |
| Goals.TestExecute | src/main/java/com/feathersui/maven/plugin/lime_openfl/TestMojo.java:66-228 | Skip does nothing. html5 runs no command and succeeds iff the browser reports success. Other targets run the run command once: a start failure is wrapped, and exit 0 succeeds while any other code fails unwrapped. |
| Goals.TestRunReportsExitCode | src/main/java/com/feathersui/maven/plugin/lime_openfl/TestMojo.java:225-227 | A failed `lime run` reports its exact exit code in the message. |
| TestSources.QualifiedExtendsDetected | src/main/java/com/feathersui/maven/plugin/lime_openfl/BuildTestsMojo.java:177-191 | Extending `utest.Test` by its full name is a test case with or without the import. |
| TestSources.UnimportedPlainTestIgnored | src/main/java/com/feathersui/maven/plugin/lime_openfl/BuildTestsMojo.java:184-187 | Without the import, only a fully qualified `utest.Test` parent makes a test case. |
| TestSources.TestNames | src/main/java/com/feathersui/maven/plugin/lime_openfl/BuildTestsMojo.java:165-195 | A name is produced exactly for each readable `.hx` file whose text is a test case, and it is the name the goal computes for that file: separators made dots, then every `.hx` removed. |
| TestSources.TestNamesAppend | src/main/java/com/feathersui/maven/plugin/lime_openfl/BuildTestsMojo.java:165-195 | Names keep walk order: names of a concatenation are the names of each part in turn. |
| TestSources.QualifiedName | src/main/java/com/feathersui/maven/plugin/lime_openfl/BuildTestsMojo.java:194-195 | The intended name, used as the corrected definition: the relative path without its trailing `.hx`, with `/` and `\` as dots. Appending `.hx` gives back the dotted path. The code computes it only when `.hx` occurs nowhere else (see Findings). |
| TestSources.QualifiedNameOfPackage | src/main/java/com/feathersui/maven/plugin/lime_openfl/BuildTestsMojo.java:194-195 | Under the intended naming, the file `p1/…/pn/C.hx` is named `p1.….pn.C`. This is the corrected definition; the code's own name differs whenever a segment after the first starts with `hx` (see Findings). |
| TestSources.HxPackageRegisteredAsWritten | src/main/java/com/feathersui/maven/plugin/lime_openfl/BuildTestsMojo.java:165-195 | A test case at `a/hx/T.hx` is registered as `a.T`, the name the code computes. |
| TestSources.AsWrittenAgrees | src/main/java/com/feathersui/maven/plugin/lime_openfl/BuildTestsMojo.java:194-195 | When `.hx` occurs only at the end of the dotted path, the code's name equals the intended one. |
| TestSources.AsWrittenDropsPackage | src/main/java/com/feathersui/maven/plugin/lime_openfl/BuildTestsMojo.java:194-195 | For `a/hx/T.hx` the code produces `a.T` where the intended name is `a.hx.T`. |
| TestSources.GenerateTestSources | src/main/java/com/feathersui/maven/plugin/lime_openfl/BuildTestsMojo.java:160-236 | With no directory or no test case there is nothing to build. A failed walk or write is an error. Otherwise the written text is the `TestsMain` text of the detected names, each named as the code names it. |
| TestSources.TestsMainRoundTrip | src/main/java/com/feathersui/maven/plugin/lime_openfl/BuildTestsMojo.java:201-227 | The registered case names are recovered, in order, from the generated text between its fixed header and footer. |
| TestServer.RequestFile | src/main/java/com/feathersui/maven/plugin/lime_openfl/TestMojo.java:104-110 | The root path serves `index.html`. Otherwise the file is the path without its leading slash, with the same non-slash characters and never longer. |
| TestServer.CollapseKeepsText | src/main/java/com/feathersui/maven/plugin/lime_openfl/TestMojo.java:107 | Replacing `//` by `/` keeps every non-slash character, in order. |
| TestServer.CollapseNoDouble | src/main/java/com/feathersui/maven/plugin/lime_openfl/TestMojo.java:107 | A path without a double slash is left unchanged. |
| TestServer.TripleSlashKeepsTwo | src/main/java/com/feathersui/maven/plugin/lime_openfl/TestMojo.java:107 | The single left-to-right replacement turns `a///b` into `a//b`, not `a/b`. |
| TestServer.RequestFilePlain | src/main/java/com/feathersui/maven/plugin/lime_openfl/TestMojo.java:104-110 | A request `/f` for a non-empty f without double slashes serves exactly f. |
| TestServer.Extension | src/main/java/com/feathersui/maven/plugin/lime_openfl/TestMojo.java:116-121 | No extension iff the name has no dot; otherwise the dot-free text after the last dot. |
| TestServer.ExtensionOf | src/main/java/com/feathersui/maven/plugin/lime_openfl/TestMojo.java:116-121 | The extension of `base.ext` is ext whatever dots the base holds. |
| TestServer.KnownExtension | src/main/java/com/feathersui/maven/plugin/lime_openfl/TestMojo.java:76-122 | A file with a tabled extension is served with that extension's MIME type. |
| TestServer.UnknownExtension | src/main/java/com/feathersui/maven/plugin/lime_openfl/TestMojo.java:116-122 | No extension, or one not in the table, gives `application/octet-stream`. |
| TestServer.MimeType | src/main/java/com/feathersui/maven/plugin/lime_openfl/TestMojo.java:76-122 | The answer is always a tabled type or `application/octet-stream`. |
| LogStream.Write | src/main/java/com/feathersui/maven/plugin/utils/LogOutputStream.java:33-44 | A newline logs the pending line (empty if none) and clears it. Any other byte appends its low eight bits as a character and logs nothing. |
| LogStream.Flush | src/main/java/com/feathersui/maven/plugin/utils/LogOutputStream.java:46-56 | Flushing logs the pending line once at the stream's level and clears it; with nothing pending it changes nothing. |
| LogStream.FlushIdempotent | src/main/java/com/feathersui/maven/plugin/utils/LogOutputStream.java:46-56 | A second flush logs nothing more. |
| LogStream.BlankLineLogged | src/main/java/com/feathersui/maven/plugin/utils/LogOutputStream.java:33-44 | Two newlines in a row log an empty line. |
| LogStream.LowByteOnly | src/main/java/com/feathersui/maven/plugin/utils/LogOutputStream.java:37 | Only the low eight bits of the written int matter. |
| LogStream.WriteAllLines | src/main/java/com/feathersui/maven/plugin/utils/LogOutputStream.java:33-44 | Writing bytes logs exactly the lines their newlines end, at the stream's level, and keeps the rest after the last newline pending. |
| LogStream.LogsTextLines | src/main/java/com/feathersui/maven/plugin/utils/LogOutputStream.java:33-56 | Writing a text and flushing logs exactly its lines; a trailing newline adds no extra line. |
| LogStream.LogsEachLine | src/main/java/com/feathersui/maven/plugin/utils/LogOutputStream.java:33-56 | Writing newline-terminated lines logs exactly those lines, in order. |
| LogStream.LogRoundTrip | src/main/java/com/feathersui/maven/plugin/utils/LogOutputStream.java:33-56 | The logged messages, joined with newlines and followed by the pending text, give back the written characters. |

## Left out

- Writing `project.xml`, `TestsMain.hx` and `index.html` is not modelled. Generation returns the text, and whether a write succeeds is an input flag (`canWriteMain`, `canWriteIndex`).
- Setting the `lime.projectFile` and `maven.test.skip` properties is not modelled. The second appears as the `skipTests` result flag.
- DOM parsing of the project file is not modelled. The goals receive its `<haxelib>` elements, or `None` when it cannot be parsed.
- `Files.walk` and reading test files are not modelled. The goals receive the walked files with their texts, or a missing or failing directory, in walk order.
- Java regular expressions are not modelled. `Finder` is an input saying where each of the three patterns matches.
- Running processes is not modelled; `CommandLineUtils` is an oracle. The bytes the children print, and the stdout decoding, are outside the model.
- The html5 test path is left out: the HTTP server, its threads, reading served files, the 404 reply and the Playwright browser session. The browser's verdict is an input; only the two pure helpers of the request handler are modelled.
- `getAbsolutePath` is an uninterpreted parameter: the model makes no claim about what absolute paths look like.
- Debug and info logging of the goals is not modelled, other than `LogOutputStream`'s own lines.
- Java's `"null"` text for an appended null is not modelled. Fields the generator appends unconditionally are non-optional, and the POM name is a plain string.
- A null `File` field is not modelled. The path of Source, Icon, Assets, Template, Certificate, LaunchImage, Sample and JavaFile is non-optional. In the code such a field may be null (`Assets.path` starts as null; `Icon.path` and `Source.path` have no initializer). The generator dereferences it without a check (for example `GenerateProjectXmlMojo.java` lines 252, 446, 571 and 650). Generation then fails with the wrapped "Fatal error generating Lime project file", and the model has no such error path.
- DocumentWellNested: states that the LINES are well nested, not the text. No attribute value is escaped, so a condition such as `x"></section><section y="` makes the text itself unbalanced.
- QualifiedNameOfPackage: states the intended naming, not what the goal registers. The goal uses `QualifiedNameAsWritten` (see `TestNames`), which agrees only when `.hx` occurs nowhere but at the end (`AsWrittenAgrees`).
- The classes Java, HaxeDef, SetEnv, Language, Include, Dependency, Template, Certificate, LaunchImage, Sample, PreBuild and PostBuild are not part of this model. Their records hold the fields the generator reads from them.
- XML escaping: the generator does none and the model adds none.
- The `projectFile` and `target` defaults are `Haxelibs.DefaultProjectFile` and `Haxelibs.DefaultTarget`. They are constants, so there is no contract about them.
- The duplicate library checks in `BuildMojo.java` (lines 182-275) are identical to those of `BaseBuildMojo.java`, so one model serves both.
- TestServer.MimeType: states only that the answer is tabled or the default. The per-extension values are stated by `KnownExtension` and `UnknownExtension`; no lemma lists each of the 22 entries.
- Commands.BuildArgs: its own contract states only the shape; the full content is stated by `BuildArgsRoundTrip`.
- Commands.TestBuildArgs: its own contract states only the shape; the full content is stated by `TestBuildArgsRoundTrip`.
- Haxelibs.CheckHaxelib: the probe's standard output is searched as given. Java's `split` dropping trailing empty strings is not modelled, because an empty line never carries the marker.

## Findings

| source | as written | input that shows it | evidently intended | confidence | as-written member | corrected member |
|---|---|---|---|---|---|---|
| src/main/java/com/feathersui/maven/plugin/lime_openfl/BuildTestsMojo.java:194-195 | `.replace(".hx", "")` removes every occurrence of `.hx` in the dotted path, not only the file extension | the test file `a/hx/T.hx` (package `a.hx`) is registered as `a.T` | the extension alone is dropped, giving `a.hx.T` | not executed | TestSources.AsWrittenDropsPackage | TestSources.QualifiedNameOfPackage |
