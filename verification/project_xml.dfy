/**
 * The project.xml generator (`generate-project-xml` goal): renders a
 * `LimeProject` descriptor into Lime project-file text, after injecting
 * defaults taken from the Maven pom, and decides whether to generate at all.
 *
 * Quirks of the generator are kept as they are: nothing is escaped, an
 * architecture's `exclude` is written as `dir`, a template's `rename` as
 * `value`, a system path is written without resolving it, and a library
 * writes `path` before `name`.
 */
module ProjectXml {
  import opened Common
  import opened Descriptor
  import opened Xml

  /** The pom values the defaults come from. `name` is non-null (a null name is out of this model). */
  datatype Organization = Organization(name: Option<string>, url: Option<string>)

  datatype Pom = Pom(
    name: string,
    description: Option<string>,
    groupId: string,
    artifactId: string,
    version: string,
    organization: Option<Organization>)

  const Prolog: string := "<?xml version=\"1.0\" encoding=\"utf-8\"?>\n"
  const MissingHaxelibName: string := "Haxelib must have a name"

  /** The element kinds of a project, in the order the generator writes them. */
  const GroupTags: seq<string> := [
    "app", "meta", "window", "source", "java", "haxelib", "haxedef", "setenv",
    "haxeflag", "language", "include", "dependency", "icon", "template",
    "certificate", "assets", "library", "launchImage", "ndll", "architecture",
    "path", "sample", "prebuild", "postbuild", "section"]

  const FrontTags: seq<string> := [
    "app", "meta", "window", "source", "java", "haxelib", "haxedef", "setenv",
    "haxeflag", "language", "include", "dependency"]

  const BackTags: seq<string> := [
    "icon", "template", "certificate", "assets", "library", "launchImage", "ndll",
    "architecture", "path", "sample", "prebuild", "postbuild", "section"]

  lemma FrontTagsDistinct()
    ensures Distinct(FrontTags)
  {
  }

  lemma BackTagsDistinct()
    ensures Distinct(BackTags)
  {
  }

  lemma FrontBackDisjoint()
    ensures Disjoint(FrontTags, BackTags)
  {
  }

  /** No element kind is listed twice. */
  lemma GroupTagsDistinct()
    ensures Distinct(GroupTags) && |GroupTags| == 25
  {
    assert GroupTags == FrontTags + BackTags;
    FrontTagsDistinct();
    BackTagsDistinct();
    FrontBackDisjoint();
    DistinctConcat(FrontTags, BackTags);
  }

  // ---------------------------------------------------------------------
  // Field text
  // ---------------------------------------------------------------------

  function IntText(v: Option<int>): Option<string> {
    match v
    case None => None
    case Some(n) => Some(IntToString(n))
  }

  function BoolText(v: Option<bool>): Option<string> {
    match v
    case None => None
    case Some(b) => Some(BoolToString(b))
  }

  /** A nullable `File` written as its absolute path. */
  function PathText(v: Option<Path>, abs: Path -> string): Option<string> {
    match v
    case None => None
    case Some(p) => Some(abs(p))
  }

  // ---------------------------------------------------------------------
  // Records whose fields each become their own element
  // ---------------------------------------------------------------------

  function AppFields(a: App): (r: seq<Field>)
    ensures DistinctKeys(r) && |r| == 5
  {
    [ Field("main", a.main), Field("file", a.file), Field("preloader", a.preloader),
      Field("swf-version", IntText(a.swfVersion)), Field("min-swf-version", IntText(a.minSwfVersion)) ]
  }

  function MetaFields(m: Meta): (r: seq<Field>)
    ensures DistinctKeys(r) && |r| == 8
  {
    [ Field("title", m.title), Field("description", m.description), Field("package", m.packageId),
      Field("version", m.version), Field("company", m.company), Field("company-id", m.companyId),
      Field("company-url", m.companyUrl), Field("build-number", m.buildNumber) ]
  }

  function WindowFields(w: Window): (r: seq<Field>)
    ensures DistinctKeys(r) && |r| == 17
  {
    [ Field("width", IntText(w.width)), Field("height", IntText(w.height)),
      Field("background", w.background), Field("fps", IntText(w.fps)),
      Field("fullscreen", BoolText(w.fullscreen)), Field("resizable", BoolText(w.resizable)),
      Field("borderless", BoolText(w.borderless)), Field("vsync", BoolText(w.vsync)),
      Field("orientation", w.orientation), Field("hardware", BoolText(w.hardware)),
      Field("allow-shaders", BoolText(w.allowShaders)), Field("require-shaders", BoolText(w.requireShaders)),
      Field("depth-buffer", BoolText(w.depthBuffer)), Field("stencil-buffer", BoolText(w.stencilBuffer)),
      Field("antialiasing", BoolText(w.antialiasing)), Field("color-depth", IntText(w.colorDepth)),
      Field("allow-high-dpi", BoolText(w.allowHighDpi)) ]
  }

  /** The elements of a single optional record: none when the record is null. */
  function SingleGroup(tag: string, fields: Option<seq<Field>>): (r: seq<Node>)
    ensures AllTagged(r, tag)
    ensures fields.None? ==> r == []
    ensures fields.Some? ==> RendersFields(r, tag, fields.value)
  {
    match fields
    case None => []
    case Some(fs) => Leaves(SingleAttrElements(tag, fs))
  }

  // ---------------------------------------------------------------------
  // Records written as one element with one attribute per set field
  // ---------------------------------------------------------------------

  function SourceFields(s: Source, abs: Path -> string): seq<Field> {
    [Field("path", Some(abs(s.path)))]
  }

  function JavaFields(j: JavaFile, abs: Path -> string): seq<Field> {
    [Field("path", Some(abs(j.path)))]
  }

  function HaxelibFields(h: Haxelib, abs: Path -> string): (r: seq<Field>)
    ensures DistinctKeys(r)
  {
    [ Field("name", h.name), Field("version", h.version),
      Field("optional", BoolText(h.optional)), Field("path", PathText(h.path, abs)) ]
  }

  function HaxeDefFields(d: HaxeDef): (r: seq<Field>)
    ensures DistinctKeys(r)
  {
    [Field("name", Some(d.name)), Field("value", d.value), Field("remove", d.remove)]
  }

  function SetEnvFields(e: SetEnv): seq<Field> {
    [Field("name", Some(e.name))]
  }

  function HaxeFlagFields(f: HaxeFlag): (r: seq<Field>)
    ensures DistinctKeys(r)
  {
    [Field("name", Some(f.name)), Field("value", Some(f.value))]
  }

  function LanguageFields(l: Language): seq<Field> {
    [Field("name", Some(l.name))]
  }

  function IncludeFields(i: Include, abs: Path -> string): (r: seq<Field>)
    ensures DistinctKeys(r)
  {
    [Field("path", PathText(i.path, abs)), Field("haxelib", i.haxelib), Field("noerror", i.noerror)]
  }

  function DependencyFields(d: Dependency, abs: Path -> string): (r: seq<Field>)
    ensures DistinctKeys(r)
  {
    [ Field("name", Some(d.name)), Field("path", PathText(d.path, abs)),
      Field("embed", d.embed), Field("force-load", d.forceLoad) ]
  }

  function IconFields(i: Icon, abs: Path -> string): (r: seq<Field>)
    ensures DistinctKeys(r)
  {
    [ Field("path", Some(abs(i.path))), Field("size", IntText(i.size)),
      Field("width", IntText(i.width)), Field("height", IntText(i.height)) ]
  }

  /** `rename` is written under the attribute name `value`. */
  function TemplateFields(t: Template, abs: Path -> string): (r: seq<Field>)
    ensures DistinctKeys(r)
  {
    [Field("path", Some(abs(t.path))), Field("haxelib", t.haxelib), Field("value", t.rename)]
  }

  function CertificateFields(c: Certificate, abs: Path -> string): (r: seq<Field>)
    ensures DistinctKeys(r)
  {
    [ Field("path", Some(abs(c.path))), Field("type", c.kind), Field("identity", c.identity),
      Field("password", c.password), Field("alias", c.alias),
      Field("alias-password", c.aliasPassword), Field("team-id", c.teamId) ]
  }

  function AssetsFields(a: Assets, abs: Path -> string): (r: seq<Field>)
    ensures DistinctKeys(r)
  {
    [ Field("path", Some(abs(a.path))), Field("include", a.includePattern),
      Field("exclude", a.excludePattern), Field("rename", a.rename), Field("type", a.kind),
      Field("embed", BoolText(a.embed)), Field("library", a.library), Field("glyphs", a.glyphs) ]
  }

  /** `path` comes before `name`. */
  function LibraryFields(l: Library, abs: Path -> string): (r: seq<Field>)
    ensures DistinctKeys(r)
  {
    [ Field("path", PathText(l.path, abs)), Field("name", l.name), Field("id", l.id),
      Field("type", l.kind), Field("prefix", l.prefix), Field("preload", BoolText(l.preload)),
      Field("embed", BoolText(l.embed)), Field("generate", BoolText(l.generate)) ]
  }

  function LaunchImageFields(i: LaunchImage, abs: Path -> string): (r: seq<Field>)
    ensures DistinctKeys(r)
  {
    [Field("path", Some(abs(i.path))), Field("width", i.width), Field("height", i.height)]
  }

  function NdllFields(n: Ndll, abs: Path -> string): (r: seq<Field>)
    ensures DistinctKeys(r)
  {
    [ Field("name", Some(n.name)), Field("haxelib", n.haxelib), Field("dir", PathText(n.dir, abs)),
      Field("type", n.kind), Field("register", BoolText(n.register)) ]
  }

  /** `exclude` is written under the attribute name `dir`. */
  function ArchitectureFields(a: Architecture): (r: seq<Field>)
    ensures DistinctKeys(r)
  {
    [Field("name", a.name), Field("dir", a.exclude)]
  }

  /** The value is written as configured, without resolving it to an absolute path. */
  function SystemPathFields(p: SystemPath): seq<Field> {
    [Field("value", Some(p.value))]
  }

  function SampleFields(s: Sample, abs: Path -> string): seq<Field> {
    [Field("path", Some(abs(s.path)))]
  }

  function BuildHookFields(h: BuildHook, abs: Path -> string): (r: seq<Field>)
    ensures DistinctKeys(r)
  {
    [ Field("haxe", h.haxe), Field("open", PathText(h.open, abs)),
      Field("command", h.command), Field("cmd", h.cmd) ]
  }

  /** One element per array entry, in array order. */
  function Records<T>(xs: seq<T>, tag: string, fields: T -> seq<Field>): (r: seq<Node>)
    ensures AllTagged(r, tag)
    ensures |r| == |xs|
    ensures forall i :: 0 <= i < |xs| ==> r[i] == Leaf(Element(tag, PresentAttrs(fields(xs[i]))))
    ensures forall i :: 0 <= i < |xs| ==>
      && r[i].Leaf? && r[i].element.tag == tag
      && forall k, v :: Attr(k, v) in r[i].element.attrs <==> Field(k, Some(v)) in fields(xs[i])
  {
    seq(|xs|, i requires 0 <= i < |xs| => Leaf(Element(tag, PresentAttrs(fields(xs[i])))))
  }

  function HaxelibElement(h: Haxelib, abs: Path -> string): Element {
    Element("haxelib", PresentAttrs(HaxelibFields(h, abs)))
  }

  /** The haxelib elements, or the validation error when one of them has no name. */
  function HaxelibNodes(hs: seq<Haxelib>, abs: Path -> string): (r: Result<seq<Node>>)
    ensures r.Ok? <==> forall i :: 0 <= i < |hs| ==> hs[i].name.Some?
    ensures r.Err? ==> r.error == Failure(MissingHaxelibName)
    ensures r.Ok? ==> |r.value| == |hs| && forall i :: 0 <= i < |hs| ==> r.value[i] == Leaf(HaxelibElement(hs[i], abs))
  {
    if |hs| == 0 then Ok([])
    else if hs[0].name.None? then Err(Failure(MissingHaxelibName))
    else
      var rest :- HaxelibNodes(hs[1..], abs);
      Ok([Leaf(HaxelibElement(hs[0], abs))] + rest)
  }

  // ---------------------------------------------------------------------
  // The body of a project or section
  // ---------------------------------------------------------------------

  /** Every haxelib of the project, at any section depth, has a name. */
  predicate AllHaxelibsNamed(p: LimeProject)
    decreases p
  {
    && (forall i :: 0 <= i < |Items(p.haxelibs)| ==> Items(p.haxelibs)[i].name.Some?)
    && forall i :: 0 <= i < |p.sections| ==>
         (assert p.sections[i] in p.sections; AllHaxelibsNamed(p.sections[i].project))
  }

  /** The `if`/`unless` attributes of a section's opening line, each only when set. */
  function SectionConditions(s: Section): seq<Attr> {
    PresentAttrs([Field("if", s.ifCondition), Field("unless", s.unlessCondition)])
  }

  lemma {:induction false} GroupedAppend(a: seq<seq<Node>>, ta: seq<string>, b: seq<seq<Node>>, tb: seq<string>)
    requires Grouped(a, ta) && Grouped(b, tb)
    ensures Grouped(a + b, ta + tb)
  {
    assert forall k :: 0 <= k < |a| ==> (a + b)[k] == a[k] && (ta + tb)[k] == ta[k];
    assert forall k :: |a| <= k < |a| + |b| ==> (a + b)[k] == b[k - |a|] && (ta + tb)[k] == tb[k - |a|];
  }

  /** `nodes` are one `tag` element per entry of `xs`, in order, each carrying that entry's set fields. */
  predicate RendersEach<T>(nodes: seq<Node>, xs: seq<T>, tag: string, fields: T -> seq<Field>) {
    |nodes| == |xs| && forall i :: 0 <= i < |xs| ==> nodes[i] == Leaf(Element(tag, PresentAttrs(fields(xs[i]))))
  }

  /** `nodes` are one single-attribute `tag` element per set field of a record, in field order. */
  predicate RendersFields(nodes: seq<Node>, tag: string, fields: seq<Field>) {
    var attrs := PresentAttrs(fields);
    |nodes| == |attrs| && forall i :: 0 <= i < |attrs| ==> nodes[i] == Leaf(Element(tag, [attrs[i]]))
  }

  /** The app record's set fields, one element each; nothing for a null record. */
  function AppGroup(p: LimeProject): (r: seq<Node>)
    ensures AllTagged(r, "app")
    ensures p.app.None? ==> r == []
    ensures p.app.Some? ==> RendersFields(r, "app", AppFields(p.app.value))
  {
    SingleGroup("app", if p.app.Some? then Some(AppFields(p.app.value)) else None)
  }

  /** The meta record's set fields, one element each; nothing for a null record. */
  function MetaGroup(p: LimeProject): (r: seq<Node>)
    ensures AllTagged(r, "meta")
    ensures p.meta.None? ==> r == []
    ensures p.meta.Some? ==> RendersFields(r, "meta", MetaFields(p.meta.value))
  {
    SingleGroup("meta", if p.meta.Some? then Some(MetaFields(p.meta.value)) else None)
  }

  /** The window record's set fields, one element each; nothing for a null record. */
  function WindowGroup(p: LimeProject): (r: seq<Node>)
    ensures AllTagged(r, "window")
    ensures p.window.None? ==> r == []
    ensures p.window.Some? ==> RendersFields(r, "window", WindowFields(p.window.value))
  {
    SingleGroup("window", if p.window.Some? then Some(WindowFields(p.window.value)) else None)
  }

  /** The groups before the haxelibs: app, meta, window, source, java. */
  function LeadingGroups(p: LimeProject, abs: Path -> string): (r: seq<seq<Node>>)
    ensures Grouped(r, ["app", "meta", "window", "source", "java"])
  {
    [ AppGroup(p), MetaGroup(p), WindowGroup(p),
      Records(Items(p.sources), "source", s => SourceFields(s, abs)),
      Records(Items(p.java), "java", j => JavaFields(j, abs)) ]
  }

  /** The groups from haxedef to assets. */
  function MiddleGroups(p: LimeProject, abs: Path -> string): (r: seq<seq<Node>>)
    ensures Grouped(r, ["haxedef", "setenv", "haxeflag", "language", "include", "dependency",
                       "icon", "template", "certificate", "assets"])
  {
    [ Records(Items(p.haxedefs), "haxedef", HaxeDefFields),
      Records(Items(p.setenvs), "setenv", SetEnvFields),
      Records(Items(p.haxeflags), "haxeflag", HaxeFlagFields),
      Records(Items(p.languages), "language", LanguageFields),
      Records(Items(p.includes), "include", i => IncludeFields(i, abs)),
      Records(Items(p.dependencies), "dependency", d => DependencyFields(d, abs)),
      Records(Items(p.icons), "icon", i => IconFields(i, abs)),
      Records(Items(p.templates), "template", t => TemplateFields(t, abs)),
      Records(Items(p.certificates), "certificate", c => CertificateFields(c, abs)),
      Records(Items(p.assets), "assets", a => AssetsFields(a, abs)) ]
  }

  /** The groups from library to postbuild. */
  function TrailingGroups(p: LimeProject, abs: Path -> string): (r: seq<seq<Node>>)
    ensures Grouped(r, ["library", "launchImage", "ndll", "architecture", "path", "sample",
                       "prebuild", "postbuild"])
  {
    [ Records(Items(p.libraries), "library", l => LibraryFields(l, abs)),
      Records(if p.launchImage.Some? then [p.launchImage.value] else [], "launchImage",
              i => LaunchImageFields(i, abs)),
      Records(Items(p.ndlls), "ndll", n => NdllFields(n, abs)),
      Records(Items(p.architectures), "architecture", ArchitectureFields),
      Records(Items(p.paths), "path", SystemPathFields),
      Records(Items(p.samples), "sample", s => SampleFields(s, abs)),
      Records(Items(p.prebuilds), "prebuild", h => BuildHookFields(h, abs)),
      Records(Items(p.postbuilds), "postbuild", h => BuildHookFields(h, abs)) ]
  }

  /** The app, meta and window groups hold one element per set field; the source and java groups one element per entry, in order. */
  lemma LeadingGroupsContent(p: LimeProject, abs: Path -> string)
    ensures p.app.None? ==> LeadingGroups(p, abs)[0] == []
    ensures p.app.Some? ==> RendersFields(LeadingGroups(p, abs)[0], "app", AppFields(p.app.value))
    ensures p.meta.None? ==> LeadingGroups(p, abs)[1] == []
    ensures p.meta.Some? ==> RendersFields(LeadingGroups(p, abs)[1], "meta", MetaFields(p.meta.value))
    ensures p.window.None? ==> LeadingGroups(p, abs)[2] == []
    ensures p.window.Some? ==> RendersFields(LeadingGroups(p, abs)[2], "window", WindowFields(p.window.value))
    ensures RendersEach(LeadingGroups(p, abs)[3], Items(p.sources), "source", s => SourceFields(s, abs))
    ensures RendersEach(LeadingGroups(p, abs)[4], Items(p.java), "java", j => JavaFields(j, abs))
  {
  }

  /** The groups from haxedef to assets hold one element per entry of their arrays, in array order. */
  lemma MiddleGroupsContent(p: LimeProject, abs: Path -> string)
    ensures RendersEach(MiddleGroups(p, abs)[0], Items(p.haxedefs), "haxedef", HaxeDefFields)
    ensures RendersEach(MiddleGroups(p, abs)[1], Items(p.setenvs), "setenv", SetEnvFields)
    ensures RendersEach(MiddleGroups(p, abs)[2], Items(p.haxeflags), "haxeflag", HaxeFlagFields)
    ensures RendersEach(MiddleGroups(p, abs)[3], Items(p.languages), "language", LanguageFields)
    ensures RendersEach(MiddleGroups(p, abs)[4], Items(p.includes), "include", i => IncludeFields(i, abs))
    ensures RendersEach(MiddleGroups(p, abs)[5], Items(p.dependencies), "dependency", d => DependencyFields(d, abs))
    ensures RendersEach(MiddleGroups(p, abs)[6], Items(p.icons), "icon", i => IconFields(i, abs))
    ensures RendersEach(MiddleGroups(p, abs)[7], Items(p.templates), "template", t => TemplateFields(t, abs))
    ensures RendersEach(MiddleGroups(p, abs)[8], Items(p.certificates), "certificate", c => CertificateFields(c, abs))
    ensures RendersEach(MiddleGroups(p, abs)[9], Items(p.assets), "assets", a => AssetsFields(a, abs))
  {
  }

  /** The groups from library to postbuild hold one element per entry, in order; launchImage holds at most one. */
  lemma TrailingGroupsContent(p: LimeProject, abs: Path -> string)
    ensures RendersEach(TrailingGroups(p, abs)[0], Items(p.libraries), "library", l => LibraryFields(l, abs))
    ensures p.launchImage.None? ==> TrailingGroups(p, abs)[1] == []
    ensures p.launchImage.Some? ==>
      TrailingGroups(p, abs)[1] == [Leaf(Element("launchImage", PresentAttrs(LaunchImageFields(p.launchImage.value, abs))))]
    ensures RendersEach(TrailingGroups(p, abs)[2], Items(p.ndlls), "ndll", n => NdllFields(n, abs))
    ensures RendersEach(TrailingGroups(p, abs)[3], Items(p.architectures), "architecture", ArchitectureFields)
    ensures RendersEach(TrailingGroups(p, abs)[4], Items(p.paths), "path", SystemPathFields)
    ensures RendersEach(TrailingGroups(p, abs)[5], Items(p.samples), "sample", s => SampleFields(s, abs))
    ensures RendersEach(TrailingGroups(p, abs)[6], Items(p.prebuilds), "prebuild", h => BuildHookFields(h, abs))
    ensures RendersEach(TrailingGroups(p, abs)[7], Items(p.postbuilds), "postbuild", h => BuildHookFields(h, abs))
  {
  }

  lemma AssembleGrouped(lead: seq<seq<Node>>, haxelibs: seq<Node>, middle: seq<seq<Node>>,
                        trail: seq<seq<Node>>, sections: seq<Node>)
    requires Grouped(lead, ["app", "meta", "window", "source", "java"])
    requires AllTagged(haxelibs, "haxelib")
    requires Grouped(middle, ["haxedef", "setenv", "haxeflag", "language", "include", "dependency",
                              "icon", "template", "certificate", "assets"])
    requires Grouped(trail, ["library", "launchImage", "ndll", "architecture", "path", "sample",
                             "prebuild", "postbuild"])
    requires AllTagged(sections, "section")
    ensures Grouped(lead + [haxelibs] + middle + trail + [sections], GroupTags)
  {
    var tLead: seq<string> := ["app", "meta", "window", "source", "java"];
    var tMiddle: seq<string> := ["haxedef", "setenv", "haxeflag", "language", "include", "dependency",
                                 "icon", "template", "certificate", "assets"];
    var tTrail: seq<string> := ["library", "launchImage", "ndll", "architecture", "path", "sample",
                                "prebuild", "postbuild"];
    GroupedAppend(lead, tLead, [haxelibs], ["haxelib"]);
    GroupedAppend(lead + [haxelibs], tLead + ["haxelib"], middle, tMiddle);
    GroupedAppend(lead + [haxelibs] + middle, tLead + ["haxelib"] + tMiddle, trail, tTrail);
    GroupedAppend(lead + [haxelibs] + middle + trail, tLead + ["haxelib"] + tMiddle + tTrail, [sections], ["section"]);
    assert tLead + ["haxelib"] + tMiddle + tTrail + ["section"] == GroupTags;
  }

  /** The element groups of a project, one per kind, in `GroupTags` order. */
  function Groups(p: LimeProject, abs: Path -> string): (r: Result<seq<seq<Node>>>)
    ensures r.Ok? <==> AllHaxelibsNamed(p)
    ensures r.Err? ==> r.error == Failure(MissingHaxelibName)
    ensures r.Ok? ==> Grouped(r.value, GroupTags)
    decreases p, 1
  {
    var haxelibs :- HaxelibNodes(Items(p.haxelibs), abs);
    var sections :- SectionNodes(p, abs);
    var groups := LeadingGroups(p, abs) + [haxelibs] + MiddleGroups(p, abs) + TrailingGroups(p, abs) + [sections];
    AssembleGrouped(LeadingGroups(p, abs), haxelibs, MiddleGroups(p, abs), TrailingGroups(p, abs), sections);
    Ok(groups)
  }

  /** The nodes a project contributes inside `<project>` or a `<section>`. */
  function Body(p: LimeProject, abs: Path -> string): (r: Result<seq<Node>>)
    ensures r.Ok? <==> AllHaxelibsNamed(p)
    ensures r.Err? ==> r.error == Failure(MissingHaxelibName)
    decreases p, 2
  {
    var groups :- Groups(p, abs);
    Ok(Flatten(groups))
  }

  /** One `<section>` node per section of `p`, each holding that section's own body. */
  function SectionNodes(p: LimeProject, abs: Path -> string): (r: Result<seq<Node>>)
    ensures r.Ok? <==> forall i :: 0 <= i < |p.sections| ==> AllHaxelibsNamed(p.sections[i].project)
    ensures r.Err? ==> r.error == Failure(MissingHaxelibName)
    ensures r.Ok? ==> AllTagged(r.value, "section") && |r.value| == |p.sections|
    decreases p, 0
  {
    var ss := p.sections;
    if forall i :: 0 <= i < |ss| ==> (assert ss[i] in ss; Body(ss[i].project, abs).Ok?) then
      Ok(seq(|ss|, i requires 0 <= i < |ss| =>
        assert ss[i] in ss; Sect(SectionConditions(ss[i]), Body(ss[i].project, abs).value)))
    else
      Err(Failure(MissingHaxelibName))
  }

  // ---------------------------------------------------------------------
  // Defaults from the pom, and the whole document
  // ---------------------------------------------------------------------

  /** The top-level meta record; a null project or a null meta reads as a meta with every field null. */
  function TopMeta(p: Option<LimeProject>): Meta {
    match p
    case None => EmptyMeta
    case Some(q) => GetOr(q.meta, EmptyMeta)
  }

  /** Some top-level source resolves to the same absolute path as the main source directory. */
  predicate DeclaresMainSource(p: Option<LimeProject>, mainSrc: Path, abs: Path -> string) {
    p.Some? && exists s :: s in Items(p.value.sources) && abs(s.path) == abs(mainSrc)
  }

  /** Some top-level haxelib is named `lime` or `openfl`. */
  predicate DeclaresLimeOrOpenfl(p: Option<LimeProject>) {
    p.Some? && exists h :: h in Items(p.value.haxelibs) && (h.name == Some("lime") || h.name == Some("openfl"))
  }

  function MetaElement(key: string, value: string): Element {
    Element("meta", [Attr(key, value)])
  }

  /** Where a top-level meta attribute stands among the pom fallbacks. */
  function MetaKeyRank(key: string): int {
    if key == "title" then 0
    else if key == "description" then 1
    else if key == "package" then 2
    else if key == "version" then 3
    else if key == "company" then 4
    else if key == "company-url" then 5
    else 6
  }

  /** The meta fallbacks come out in their fixed order, ahead of the source and library lines. */
  lemma MetaRanks(p: Option<LimeProject>, pom: Pom)
    ensures var metas := SingleAttrElements("meta", DefaultMetaFields(p, pom));
      forall i, j :: 0 <= i < j < |metas| ==> DefaultRank(metas[i]) < DefaultRank(metas[j])
    ensures var metas := SingleAttrElements("meta", DefaultMetaFields(p, pom));
      forall i :: 0 <= i < |metas| ==> DefaultRank(metas[i]) < 6
  {
    var fields := DefaultMetaFields(p, pom);
    var attrs := PresentAttrs(fields);
    var metas := SingleAttrElements("meta", fields);
    MetaFieldRanks(p, pom);
    PresentAttrsRanked(fields, MetaKeyRank);
    forall i | 0 <= i < |metas| ensures DefaultRank(metas[i]) == MetaKeyRank(attrs[i].key) < 6 {
      assert Attr(attrs[i].key, attrs[i].value) in attrs;
      var m :| 0 <= m < |fields| && fields[m] == Field(attrs[i].key, Some(attrs[i].value));
    }
  }

  /** The six fallback fields stand at ranks 0 to 5, in that order. */
  lemma MetaFieldRanks(p: Option<LimeProject>, pom: Pom)
    ensures forall i :: 0 <= i < |DefaultMetaFields(p, pom)| ==> MetaKeyRank(DefaultMetaFields(p, pom)[i].key) == i
  {
    var fields := DefaultMetaFields(p, pom);
    assert fields[0].key == "title" && fields[1].key == "description" && fields[2].key == "package";
    assert fields[3].key == "version" && fields[4].key == "company" && fields[5].key == "company-url";
  }

  /**
   * Where a default element stands in the document: the meta fallbacks in
   * their fixed order, then the main source path, then the lime library.
   */
  function DefaultRank(e: Element): int {
    if e.tag == "meta" && |e.attrs| == 1 then MetaKeyRank(e.attrs[0].key)
    else if e.tag == "source" then 6
    else 7
  }

  /**
   * The pom fallbacks for the top-level meta fields, as a field list: a
   * field is set only when the project leaves it null and the pom has a
   * value.
   */
  function DefaultMetaFields(p: Option<LimeProject>, pom: Pom): (r: seq<Field>)
    ensures DistinctKeys(r) && |r| == 6
  {
    var m := TopMeta(p);
    var org := GetOr(pom.organization, Organization(None, None));
    [ Field("title", if m.title.None? then Some(pom.name) else None),
      Field("description", if m.description.None? then pom.description else None),
      Field("package", if m.packageId.None? then Some(pom.groupId + "." + pom.artifactId) else None),
      Field("version", if m.version.None? then Some(pom.version) else None),
      Field("company", if m.company.None? then org.name else None),
      Field("company-url", if m.companyUrl.None? then org.url else None) ]
  }

  /**
   * The lines written between `<project>` and the body: meta values from the
   * pom for unset top-level meta fields, the main source directory unless
   * already declared, and the `lime` haxelib unless lime or openfl is
   * declared. Only the top-level project is inspected, never its sections.
   */
  function DefaultElements(p: Option<LimeProject>, pom: Pom, mainSrc: Path, abs: Path -> string): (r: seq<Element>)
    ensures forall k, v :: MetaElement(k, v) in r <==> Field(k, Some(v)) in DefaultMetaFields(p, pom)
    ensures Element("source", [Attr("path", abs(mainSrc))]) in r <==> !DeclaresMainSource(p, mainSrc, abs)
    ensures Element("haxelib", [Attr("name", "lime")]) in r <==> !DeclaresLimeOrOpenfl(p)
    ensures forall i :: 0 <= i < |r| ==> r[i].tag in {"meta", "source", "haxelib"} && |r[i].attrs| == 1
  {
    SingleAttrElements("meta", DefaultMetaFields(p, pom))
    + (if !DeclaresMainSource(p, mainSrc, abs) then [Element("source", [Attr("path", abs(mainSrc))])] else [])
    + (if !DeclaresLimeOrOpenfl(p) then [Element("haxelib", [Attr("name", "lime")])] else [])
  }

  /**
   * The defaults come out in a fixed order, each kind at most once: the meta
   * fallbacks title to company-url, then the main source path, then lime.
   */
  lemma DefaultOrder(p: Option<LimeProject>, pom: Pom, mainSrc: Path, abs: Path -> string)
    ensures var r := DefaultElements(p, pom, mainSrc, abs);
      forall i, j :: 0 <= i < j < |r| ==> DefaultRank(r[i]) < DefaultRank(r[j])
  {
    var metas := SingleAttrElements("meta", DefaultMetaFields(p, pom));
    var src: seq<Element> := if !DeclaresMainSource(p, mainSrc, abs) then [Element("source", [Attr("path", abs(mainSrc))])] else [];
    var lime: seq<Element> := if !DeclaresLimeOrOpenfl(p) then [Element("haxelib", [Attr("name", "lime")])] else [];
    var r := DefaultElements(p, pom, mainSrc, abs);
    assert r == metas + src + lime;
    MetaRanks(p, pom);
    assert forall e :: e in src ==> DefaultRank(e) == 6;
    assert forall e :: e in lime ==> DefaultRank(e) == 7;
    forall i, j | 0 <= i < j < |r| ensures DefaultRank(r[i]) < DefaultRank(r[j]) {
      if j < |metas| {
      } else if i < |metas| {
        assert r[j] in src + lime;
      } else if j < |metas| + |src| {
      } else if i < |metas| + |src| {
        assert r[i] in src && r[j] in lime;
      } else {
        assert |lime| <= 1;
      }
    }
  }

  /**
   * Each pom fallback is written as a `<meta>` line exactly when the
   * project's top-level meta leaves that field null and the pom has a value:
   * the next six lemmas, one per meta attribute.
   */
  lemma DefaultTitle(p: Option<LimeProject>, pom: Pom, mainSrc: Path, abs: Path -> string)
    ensures forall v :: MetaElement("title", v) in DefaultElements(p, pom, mainSrc, abs) <==>
      TopMeta(p).title.None? && v == pom.name
  {
    FieldValueByKey(DefaultMetaFields(p, pom), 0);
  }

  lemma DefaultDescription(p: Option<LimeProject>, pom: Pom, mainSrc: Path, abs: Path -> string)
    ensures forall v :: MetaElement("description", v) in DefaultElements(p, pom, mainSrc, abs) <==>
      TopMeta(p).description.None? && pom.description == Some(v)
  {
    FieldValueByKey(DefaultMetaFields(p, pom), 1);
  }

  lemma DefaultPackage(p: Option<LimeProject>, pom: Pom, mainSrc: Path, abs: Path -> string)
    ensures forall v :: MetaElement("package", v) in DefaultElements(p, pom, mainSrc, abs) <==>
      TopMeta(p).packageId.None? && v == pom.groupId + "." + pom.artifactId
  {
    FieldValueByKey(DefaultMetaFields(p, pom), 2);
  }

  lemma DefaultVersion(p: Option<LimeProject>, pom: Pom, mainSrc: Path, abs: Path -> string)
    ensures forall v :: MetaElement("version", v) in DefaultElements(p, pom, mainSrc, abs) <==>
      TopMeta(p).version.None? && v == pom.version
  {
    FieldValueByKey(DefaultMetaFields(p, pom), 3);
  }

  lemma DefaultCompany(p: Option<LimeProject>, pom: Pom, mainSrc: Path, abs: Path -> string)
    ensures forall v :: MetaElement("company", v) in DefaultElements(p, pom, mainSrc, abs) <==>
      TopMeta(p).company.None? && pom.organization.Some? && pom.organization.value.name == Some(v)
  {
    FieldValueByKey(DefaultMetaFields(p, pom), 4);
  }

  lemma DefaultCompanyUrl(p: Option<LimeProject>, pom: Pom, mainSrc: Path, abs: Path -> string)
    ensures forall v :: MetaElement("company-url", v) in DefaultElements(p, pom, mainSrc, abs) <==>
      TopMeta(p).companyUrl.None? && pom.organization.Some? && pom.organization.value.url == Some(v)
  {
    FieldValueByKey(DefaultMetaFields(p, pom), 5);
  }

  /** The body nodes of an optional project: a null project has none. */
  function ProjectNodes(p: Option<LimeProject>, abs: Path -> string): (r: Result<seq<Node>>)
    ensures r.Ok? <==> p.None? || AllHaxelibsNamed(p.value)
    ensures r.Err? ==> r.error == Failure(MissingHaxelibName)
  {
    match p
    case None => Ok([])
    case Some(q) => Body(q, abs)
  }

  /**
   * `generateProjectXML`: the XML declaration, `<project>`, the default
   * lines, the body, `</project>`; or the validation error when a haxelib at
   * any depth has no name.
   */
  function GenerateProjectXml(p: Option<LimeProject>, pom: Pom, mainSrc: Path, abs: Path -> string): (r: Result<string>)
    ensures r.Ok? <==> p.None? || AllHaxelibsNamed(p.value)
    ensures r.Err? ==> r.error == Failure(MissingHaxelibName)
    ensures r.Ok? ==> Prolog + "<project>\n" <= r.value && EndsWith(r.value, "</project>\n")
  {
    var body :- ProjectNodes(p, abs);
    var text := Prolog + "<project>\n" + Text(Lines(Leaves(DefaultElements(p, pom, mainSrc, abs)) + body)) + "</project>\n";
    assert text == (Prolog + "<project>\n") + Text(Lines(Leaves(DefaultElements(p, pom, mainSrc, abs)) + body)) + "</project>\n";
    Ok(text)
  }

  /** What `execute` does: skip, refuse, or write the generated text (or fail generating it). */
  datatype GenerateOutcome =
    | Skipped
    | Written(contents: string)
    | Failed(error: MojoError)

  const ConflictMessage: string := "Cannot set both projectFile parameter and limeProject parameters"
  const GenerateErrorMessage: string := "Fatal error generating Lime project file"

  /**
   * `execute` of the generate goal. Without a `limeProject` it skips when a
   * project file is configured or `basedir/project.xml` exists; with both a
   * `limeProject` and a project file it refuses; otherwise it generates, and
   * a generation error is wrapped and nothing is written.
   */
  function GenerateExecute(limeProject: Option<LimeProject>, projectFile: Option<Path>, defaultProjectXmlExists: bool,
                           pom: Pom, mainSrc: Path, abs: Path -> string): (r: GenerateOutcome)
    ensures r.Skipped? <==> limeProject.None? && (projectFile.Some? || defaultProjectXmlExists)
    ensures limeProject.Some? && projectFile.Some? ==> r == Failed(Failure(ConflictMessage))
    ensures r.Written? <==> projectFile.None? && !(limeProject.None? && defaultProjectXmlExists)
                            && (limeProject.None? || AllHaxelibsNamed(limeProject.value))
    ensures r.Written? ==> GenerateProjectXml(limeProject, pom, mainSrc, abs) == Ok(r.contents)
    ensures r.Failed? && projectFile.None? ==>
      r.error == ExecutionError(GenerateErrorMessage, Some(Failure(MissingHaxelibName)))
  {
    if limeProject.None? && (projectFile.Some? || defaultProjectXmlExists) then Skipped
    else if projectFile.Some? then Failed(Failure(ConflictMessage))
    else match GenerateProjectXml(limeProject, pom, mainSrc, abs)
      case Ok(text) => Written(text)
      case Err(e) => Failed(ExecutionError(GenerateErrorMessage, Some(e)))
  }
}
