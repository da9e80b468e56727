/**
 * Properties of the generated project.xml that relate several parts of the
 * serializer: emission order at every depth, declared order of haxelibs and
 * sections, balanced sections, and concrete documents.
 */
module ProjectXmlLaws {
  import opened Common
  import opened Descriptor
  import opened Xml
  import opened ProjectXml

  /** A valid project's groups, assembled from its parts in emission order. */
  lemma GroupsAssembled(p: LimeProject, abs: Path -> string)
    requires AllHaxelibsNamed(p)
    ensures HaxelibNodes(Items(p.haxelibs), abs).Ok? && SectionNodes(p, abs).Ok?
    ensures Groups(p, abs) == Ok(LeadingGroups(p, abs) + [HaxelibNodes(Items(p.haxelibs), abs).value]
      + MiddleGroups(p, abs) + TrailingGroups(p, abs) + [SectionNodes(p, abs).value])
  {
  }

  /**
   * The groups of a valid project: group k is the rendering of the project's
   * k-th kind of member, in `GroupTags` order, and the body is their
   * concatenation.
   */
  lemma {:induction false} GroupsShape(p: LimeProject, abs: Path -> string)
    requires AllHaxelibsNamed(p)
    ensures HaxelibNodes(Items(p.haxelibs), abs).Ok? && SectionNodes(p, abs).Ok?
    ensures Groups(p, abs).Ok? && |Groups(p, abs).value| == 25
    ensures forall k :: 0 <= k < 5 ==> Groups(p, abs).value[k] == LeadingGroups(p, abs)[k]
    ensures Groups(p, abs).value[5] == HaxelibNodes(Items(p.haxelibs), abs).value
    ensures forall k :: 0 <= k < 10 ==> Groups(p, abs).value[6 + k] == MiddleGroups(p, abs)[k]
    ensures forall k :: 0 <= k < 8 ==> Groups(p, abs).value[16 + k] == TrailingGroups(p, abs)[k]
    ensures Groups(p, abs).value[24] == SectionNodes(p, abs).value
    ensures Body(p, abs).value == Flatten(Groups(p, abs).value)
  {
    GroupsAssembled(p, abs);
    var lead := LeadingGroups(p, abs);
    var middle := MiddleGroups(p, abs);
    var trail := TrailingGroups(p, abs);
    var groups := Groups(p, abs).value;
    assert |lead| == 5 && |middle| == 10 && |trail| == 8;
    assert groups == lead + [HaxelibNodes(Items(p.haxelibs), abs).value] + middle + trail + [SectionNodes(p, abs).value];
  }

  /** In a valid body, the nodes of the k-th kind are exactly group k, in its order. */
  lemma GroupFiltered(p: LimeProject, abs: Path -> string, k: int)
    requires AllHaxelibsNamed(p) && 0 <= k < 25
    ensures FilterTag(Body(p, abs).value, GroupTags[k]) == Groups(p, abs).value[k]
  {
    GroupsShape(p, abs);
    GroupTagsDistinct();
    FilterTagFlatten(Groups(p, abs).value, GroupTags, k);
  }

  lemma LeadingTags()
    ensures GroupTags[0] == "app" && GroupTags[1] == "meta" && GroupTags[2] == "window"
    ensures GroupTags[3] == "source" && GroupTags[4] == "java"
  {
  }

  lemma MiddleTags()
    ensures GroupTags[6] == "haxedef" && GroupTags[7] == "setenv" && GroupTags[8] == "haxeflag"
    ensures GroupTags[9] == "language" && GroupTags[10] == "include" && GroupTags[11] == "dependency"
    ensures GroupTags[12] == "icon" && GroupTags[13] == "template" && GroupTags[14] == "certificate"
    ensures GroupTags[15] == "assets"
  {
  }

  lemma TrailingTags()
    ensures GroupTags[16] == "library" && GroupTags[17] == "launchImage" && GroupTags[18] == "ndll"
    ensures GroupTags[19] == "architecture" && GroupTags[20] == "path" && GroupTags[21] == "sample"
    ensures GroupTags[22] == "prebuild" && GroupTags[23] == "postbuild"
  {
  }

  /**
   * The app, meta and window elements of a valid body are one element per
   * set field of that record (none for a null record); its source and java
   * elements are the declared entries, one each, in declared order.
   */
  lemma LeadingMembersInBody(p: LimeProject, abs: Path -> string)
    requires AllHaxelibsNamed(p)
    ensures var b := Body(p, abs).value;
      && (p.app.None? ==> FilterTag(b, "app") == [])
      && (p.app.Some? ==> RendersFields(FilterTag(b, "app"), "app", AppFields(p.app.value)))
      && (p.meta.None? ==> FilterTag(b, "meta") == [])
      && (p.meta.Some? ==> RendersFields(FilterTag(b, "meta"), "meta", MetaFields(p.meta.value)))
      && (p.window.None? ==> FilterTag(b, "window") == [])
      && (p.window.Some? ==> RendersFields(FilterTag(b, "window"), "window", WindowFields(p.window.value)))
      && RendersEach(FilterTag(b, "source"), Items(p.sources), "source", s => SourceFields(s, abs))
      && RendersEach(FilterTag(b, "java"), Items(p.java), "java", j => JavaFields(j, abs))
  {
    GroupsShape(p, abs);
    LeadingGroupsContent(p, abs);
    LeadingTags();
    GroupFiltered(p, abs, 0);
    GroupFiltered(p, abs, 1);
    GroupFiltered(p, abs, 2);
    GroupFiltered(p, abs, 3);
    GroupFiltered(p, abs, 4);
  }

  /** The haxedef to assets elements of a valid body are the declared entries, one each, in declared order. */
  lemma MiddleMembersInBody(p: LimeProject, abs: Path -> string)
    requires AllHaxelibsNamed(p)
    ensures var b := Body(p, abs).value;
      && RendersEach(FilterTag(b, "haxedef"), Items(p.haxedefs), "haxedef", HaxeDefFields)
      && RendersEach(FilterTag(b, "setenv"), Items(p.setenvs), "setenv", SetEnvFields)
      && RendersEach(FilterTag(b, "haxeflag"), Items(p.haxeflags), "haxeflag", HaxeFlagFields)
      && RendersEach(FilterTag(b, "language"), Items(p.languages), "language", LanguageFields)
      && RendersEach(FilterTag(b, "include"), Items(p.includes), "include", i => IncludeFields(i, abs))
      && RendersEach(FilterTag(b, "dependency"), Items(p.dependencies), "dependency", d => DependencyFields(d, abs))
      && RendersEach(FilterTag(b, "icon"), Items(p.icons), "icon", i => IconFields(i, abs))
      && RendersEach(FilterTag(b, "template"), Items(p.templates), "template", t => TemplateFields(t, abs))
      && RendersEach(FilterTag(b, "certificate"), Items(p.certificates), "certificate", c => CertificateFields(c, abs))
      && RendersEach(FilterTag(b, "assets"), Items(p.assets), "assets", a => AssetsFields(a, abs))
  {
    GroupsShape(p, abs);
    MiddleGroupsContent(p, abs);
    MiddleTags();
    GroupFiltered(p, abs, 6);
    GroupFiltered(p, abs, 7);
    GroupFiltered(p, abs, 8);
    GroupFiltered(p, abs, 9);
    GroupFiltered(p, abs, 10);
    GroupFiltered(p, abs, 11);
    GroupFiltered(p, abs, 12);
    GroupFiltered(p, abs, 13);
    GroupFiltered(p, abs, 14);
    GroupFiltered(p, abs, 15);
  }

  /**
   * The library to postbuild elements of a valid body are the declared
   * entries, one each, in declared order; a launch image gives at most one.
   */
  lemma TrailingMembersInBody(p: LimeProject, abs: Path -> string)
    requires AllHaxelibsNamed(p)
    ensures var b := Body(p, abs).value;
      && RendersEach(FilterTag(b, "library"), Items(p.libraries), "library", l => LibraryFields(l, abs))
      && (p.launchImage.None? ==> FilterTag(b, "launchImage") == [])
      && (p.launchImage.Some? ==>
            FilterTag(b, "launchImage") == [Leaf(Element("launchImage", PresentAttrs(LaunchImageFields(p.launchImage.value, abs))))])
      && RendersEach(FilterTag(b, "ndll"), Items(p.ndlls), "ndll", n => NdllFields(n, abs))
      && RendersEach(FilterTag(b, "architecture"), Items(p.architectures), "architecture", ArchitectureFields)
      && RendersEach(FilterTag(b, "path"), Items(p.paths), "path", SystemPathFields)
      && RendersEach(FilterTag(b, "sample"), Items(p.samples), "sample", s => SampleFields(s, abs))
      && RendersEach(FilterTag(b, "prebuild"), Items(p.prebuilds), "prebuild", h => BuildHookFields(h, abs))
      && RendersEach(FilterTag(b, "postbuild"), Items(p.postbuilds), "postbuild", h => BuildHookFields(h, abs))
  {
    GroupsShape(p, abs);
    TrailingGroupsContent(p, abs);
    TrailingTags();
    GroupFiltered(p, abs, 16);
    GroupFiltered(p, abs, 17);
    GroupFiltered(p, abs, 18);
    GroupFiltered(p, abs, 19);
    GroupFiltered(p, abs, 20);
    GroupFiltered(p, abs, 21);
    GroupFiltered(p, abs, 22);
    GroupFiltered(p, abs, 23);
  }

  lemma {:induction false} FilterTagSubset(nodes: seq<Node>, t: string, n: Node)
    requires n in FilterTag(nodes, t)
    ensures n in nodes && TagOf(n) == t
  {
    if |nodes| > 0 && n in FilterTag(nodes[1..], t) {
      FilterTagSubset(nodes[1..], t, n);
    }
  }

  /** A set field of a record rendered field by field is one of the elements. */
  lemma RendersFieldsHas(nodes: seq<Node>, tag: string, fields: seq<Field>, key: string, v: string)
    requires RendersFields(nodes, tag, fields) && Field(key, Some(v)) in fields
    ensures Leaf(Element(tag, [Attr(key, v)])) in nodes
  {
    var attrs := PresentAttrs(fields);
    assert Attr(key, v) in attrs;
    var i :| 0 <= i < |attrs| && attrs[i] == Attr(key, v);
    assert nodes[i] == Leaf(Element(tag, [Attr(key, v)]));
  }

  /** The `j`-th section node of a valid project carries that section's conditions and its own body. */
  lemma SectionNodeContent(p: LimeProject, abs: Path -> string, j: int)
    requires AllHaxelibsNamed(p)
    requires 0 <= j < |p.sections|
    ensures SectionNodes(p, abs).Ok?
    ensures AllHaxelibsNamed(p.sections[j].project)
    ensures SectionNodes(p, abs).value[j] ==
      Sect(SectionConditions(p.sections[j]), Body(p.sections[j].project, abs).value)
  {
    assert p.sections[j] in p.sections;
  }

  lemma {:induction false} FilterTagMember(nodes: seq<Node>, t: string, i: int)
    requires 0 <= i < |nodes| && TagOf(nodes[i]) == t
    ensures nodes[i] in FilterTag(nodes, t)
  {
    if i > 0 {
      FilterTagMember(nodes[1..], t, i - 1);
    }
  }

  /**
   * Element kinds appear in the fixed emission order (app, meta, window, ...,
   * postbuild, section) at the top level and inside every section, at any
   * depth.
   */
  lemma {:induction false} BodyWellOrdered(p: LimeProject, abs: Path -> string)
    requires AllHaxelibsNamed(p)
    ensures WellOrdered(Body(p, abs).value, GroupTags)
    decreases p
  {
    GroupsShape(p, abs);
    GroupTagsDistinct();
    var groups := Groups(p, abs).value;
    var nodes := Body(p, abs).value;
    FlattenOrdered(groups, GroupTags);
    FilterTagFlatten(groups, GroupTags, 24);
    forall i | 0 <= i < |nodes| && nodes[i].Sect?
      ensures WellOrdered(nodes[i].children, GroupTags)
    {
      FilterTagMember(nodes, "section", i);
      var sections := SectionNodes(p, abs).value;
      assert nodes[i] in sections;
      var j :| 0 <= j < |sections| && sections[j] == nodes[i];
      SectionNodeContent(p, abs, j);
      assert p.sections[j] in p.sections;
      BodyWellOrdered(p.sections[j].project, abs);
    }
  }

  lemma HaxelibGroupAt(p: LimeProject, abs: Path -> string)
    requires AllHaxelibsNamed(p)
    ensures FilterTag(Flatten(Groups(p, abs).value), GroupTags[5]) == HaxelibNodes(Items(p.haxelibs), abs).value
  {
    GroupsShape(p, abs);
    GroupTagsDistinct();
    FilterTagFlatten(Groups(p, abs).value, GroupTags, 5);
  }

  lemma HaxelibTagAt()
    ensures GroupTags[5] == "haxelib"
  {
  }

  lemma HaxelibGroupFiltered(p: LimeProject, abs: Path -> string)
    requires AllHaxelibsNamed(p)
    ensures FilterTag(Flatten(Groups(p, abs).value), "haxelib") == HaxelibNodes(Items(p.haxelibs), abs).value
  {
    HaxelibGroupAt(p, abs);
    HaxelibTagAt();
  }

  /** The haxelib lines of a project are its haxelibs, one each, in declared order. */
  lemma HaxelibsInDeclaredOrder(p: LimeProject, abs: Path -> string)
    requires AllHaxelibsNamed(p)
    ensures var hs := Items(p.haxelibs);
      var f := FilterTag(Body(p, abs).value, "haxelib");
      |f| == |hs| && forall i :: 0 <= i < |hs| ==> f[i] == Leaf(HaxelibElement(hs[i], abs))
  {
    HaxelibGroupFiltered(p, abs);
    GroupsShape(p, abs);
  }

  /** The sections of a project are written in declared order, each with its conditions and its own body. */
  lemma SectionsInDeclaredOrder(p: LimeProject, abs: Path -> string)
    requires AllHaxelibsNamed(p)
    ensures var s := FilterTag(Body(p, abs).value, "section");
      && |s| == |p.sections|
      && forall j :: 0 <= j < |s| ==>
           AllHaxelibsNamed(p.sections[j].project)
           && s[j] == Sect(SectionConditions(p.sections[j]), Body(p.sections[j].project, abs).value)
  {
    GroupsShape(p, abs);
    GroupTagsDistinct();
    FilterTagFlatten(Groups(p, abs).value, GroupTags, 24);
    forall j | 0 <= j < |p.sections|
      ensures AllHaxelibsNamed(p.sections[j].project)
      ensures SectionNodes(p, abs).value[j] == Sect(SectionConditions(p.sections[j]), Body(p.sections[j].project, abs).value)
    {
      SectionNodeContent(p, abs, j);
    }
  }

  /**
   * A field set on the window record of a section, such as `fps`, is
   * written as `<window fps="…"/>` inside that section's element.
   */
  lemma SectionWindowField(p: LimeProject, abs: Path -> string, j: int, key: string, v: string)
    requires AllHaxelibsNamed(p) && 0 <= j < |p.sections|
    requires p.sections[j].project.window.Some?
    requires Field(key, Some(v)) in WindowFields(p.sections[j].project.window.value)
    ensures var s := FilterTag(Body(p, abs).value, "section");
      |s| == |p.sections| && s[j].Sect? && Leaf(Element("window", [Attr(key, v)])) in s[j].children
  {
    SectionsInDeclaredOrder(p, abs);
    var q := p.sections[j].project;
    var inner := Body(q, abs).value;
    LeadingMembersInBody(q, abs);
    RendersFieldsHas(FilterTag(inner, "window"), "window", WindowFields(q.window.value), key, v);
    FilterTagSubset(inner, "window", Leaf(Element("window", [Attr(key, v)])));
  }

  /**
   * A generated document is the XML declaration and a `<project>` element
   * whose content is a well-nested sequence of lines: every `</section>`
   * closes an open `<section>` and every `<section>` is closed.
   */
  lemma DocumentWellNested(p: Option<LimeProject>, pom: Pom, mainSrc: Path, abs: Path -> string)
    requires p.None? || AllHaxelibsNamed(p.value)
    ensures GenerateProjectXml(p, pom, mainSrc, abs).Ok?
    ensures exists lines :: (WellNested(lines)
      && GenerateProjectXml(p, pom, mainSrc, abs).value == Prolog + "<project>\n" + Text(lines) + "</project>\n")
  {
    var body := ProjectNodes(p, abs).value;
    var lines := Lines(Leaves(DefaultElements(p, pom, mainSrc, abs)) + body);
    LinesWellNested(Leaves(DefaultElements(p, pom, mainSrc, abs)) + body);
    assert GenerateProjectXml(p, pom, mainSrc, abs).value == Prolog + "<project>\n" + Text(lines) + "</project>\n";
  }

  /** The defaults look only at the top-level project: sections never suppress or add a default line. */
  lemma DefaultsIgnoreSections(q: LimeProject, ss: seq<Section>, pom: Pom, mainSrc: Path, abs: Path -> string)
    ensures DefaultElements(Some(q), pom, mainSrc, abs) == DefaultElements(Some(q.(sections := ss)), pom, mainSrc, abs)
  {
    var q' := q.(sections := ss);
    assert TopMeta(Some(q)) == TopMeta(Some(q'));
    assert DeclaresMainSource(Some(q), mainSrc, abs) == DeclaresMainSource(Some(q'), mainSrc, abs);
    assert DeclaresLimeOrOpenfl(Some(q)) == DeclaresLimeOrOpenfl(Some(q'));
  }

  lemma PlainPomAttrs(name: string, package: string, version: string)
    ensures PresentAttrs([Field("title", Some(name)), Field("description", None), Field("package", Some(package)),
                          Field("version", Some(version)), Field("company", None), Field("company-url", None)])
      == [Attr("title", name), Attr("package", package), Attr("version", version)]
  {
    var fields := [Field("title", Some(name)), Field("description", None), Field("package", Some(package)),
                   Field("version", Some(version)), Field("company", None), Field("company-url", None)];
    var attrs := [Attr("title", name), Attr("package", package), Attr("version", version)];
    assert PresentAttrs(fields[6..]) == [];
    assert PresentAttrs(fields[5..]) == [];
    assert PresentAttrs(fields[4..]) == [];
    assert PresentAttrs(fields[3..]) == attrs[2..];
    assert PresentAttrs(fields[2..]) == attrs[1..];
    assert PresentAttrs(fields[1..]) == attrs[1..];
  }

  /** The pom fallbacks written for a pom with a name, coordinates and version but no description or organization. */
  lemma PlainPomMetas(name: string, groupId: string, artifactId: string, version: string)
    ensures SingleAttrElements("meta", DefaultMetaFields(None, Pom(name, None, groupId, artifactId, version, None)))
      == [MetaElement("title", name), MetaElement("package", groupId + "." + artifactId), MetaElement("version", version)]
  {
    var package := groupId + "." + artifactId;
    assert DefaultMetaFields(None, Pom(name, None, groupId, artifactId, version, None))
      == [Field("title", Some(name)), Field("description", None), Field("package", Some(package)),
          Field("version", Some(version)), Field("company", None), Field("company-url", None)];
    PlainPomAttrs(name, package, version);
  }

  /** A one-attribute element renders as `<tag key="value"/>` on its own line. */
  lemma ElementLineText(tag: string, key: string, value: string)
    ensures LineText(ElementLine(Element(tag, [Attr(key, value)]))) == "<" + tag + " " + key + "=\"" + value + "\"/>\n"
  {
    assert [Attr(key, value)][1..] == [];
    assert AttrsText([Attr(key, value)]) == " " + key + "=\"" + value + "\"";
    assert "\"" + "/>\n" == "\"/>\n";
  }

  /** The default lines for a pom with a name, coordinates and version, and no project. */
  lemma PlainDefaults(name: string, groupId: string, artifactId: string, version: string,
                      mainSrc: Path, abs: Path -> string)
    ensures DefaultElements(None, Pom(name, None, groupId, artifactId, version, None), mainSrc, abs)
      == [MetaElement("title", name), MetaElement("package", groupId + "." + artifactId), MetaElement("version", version),
          Element("source", [Attr("path", abs(mainSrc))]), Element("haxelib", [Attr("name", "lime")])]
  {
    PlainPomMetas(name, groupId, artifactId, version);
  }

  lemma {:induction false} LeafLines(es: seq<Element>)
    ensures Lines(Leaves(es)) == seq(|es|, i requires 0 <= i < |es| => ElementLine(es[i]))
  {
    if |es| > 0 {
      assert Leaves(es)[1..] == Leaves(es[1..]);
      LeafLines(es[1..]);
    }
  }

  /** The document for a project whose body is known. */
  lemma DocumentText(p: Option<LimeProject>, pom: Pom, mainSrc: Path, abs: Path -> string)
    requires ProjectNodes(p, abs).Ok?
    ensures GenerateProjectXml(p, pom, mainSrc, abs) ==
      Ok(Prolog + "<project>\n" + Text(Lines(Leaves(DefaultElements(p, pom, mainSrc, abs)) + ProjectNodes(p, abs).value))
         + "</project>\n")
  {
  }

  /**
   * The document falls into four parts, in this order: the prolog and the
   * opening `<project>` tag, one element line per default element, the
   * lines of the project's body, and the closing tag.
   */
  lemma DocumentParts(p: Option<LimeProject>, pom: Pom, mainSrc: Path, abs: Path -> string)
    requires ProjectNodes(p, abs).Ok?
    ensures var es := DefaultElements(p, pom, mainSrc, abs);
      GenerateProjectXml(p, pom, mainSrc, abs) ==
        Ok(Prolog + "<project>\n"
           + Text(seq(|es|, i requires 0 <= i < |es| => ElementLine(es[i])))
           + Text(Lines(ProjectNodes(p, abs).value))
           + "</project>\n")
  {
    var es := DefaultElements(p, pom, mainSrc, abs);
    DocumentText(p, pom, mainSrc, abs);
    LeavesThenBody(Prolog + "<project>\n", es, ProjectNodes(p, abs).value, "</project>\n");
  }

  /** Leaf lines followed by a body render as the leaves' element lines followed by the body's text. */
  lemma LeavesThenBody(head: string, es: seq<Element>, body: seq<Node>, tail: string)
    ensures head + Text(Lines(Leaves(es) + body)) + tail ==
      head + Text(seq(|es|, i requires 0 <= i < |es| => ElementLine(es[i]))) + Text(Lines(body)) + tail
  {
    LinesAppend(Leaves(es), body);
    TextAppend(Lines(Leaves(es)), Lines(body));
    LeafLines(es);
    var a, b := Text(Lines(Leaves(es))), Text(Lines(body));
    assert head + (a + b) + tail == head + a + b + tail;
  }

  /** Five elements give five element lines. */
  lemma FiveLeafLines(es: seq<Element>)
    requires |es| == 5
    ensures Lines(Leaves(es)) == [ElementLine(es[0]), ElementLine(es[1]), ElementLine(es[2]), ElementLine(es[3]), ElementLine(es[4])]
  {
    LeafLines(es);
  }

  /** A document whose body is empty holds exactly its default lines. */
  lemma DocumentOfDefaults(p: Option<LimeProject>, pom: Pom, mainSrc: Path, abs: Path -> string, es: seq<Element>)
    requires ProjectNodes(p, abs) == Ok([])
    requires DefaultElements(p, pom, mainSrc, abs) == es
    ensures GenerateProjectXml(p, pom, mainSrc, abs) == Ok(Prolog + "<project>\n" + Text(Lines(Leaves(es))) + "</project>\n")
  {
    DocumentText(p, pom, mainSrc, abs);
    assert Leaves(es) + [] == Leaves(es);
  }

  /**
   * Without a `limeProject`, and for a pom without description or
   * organization, the document holds only the defaults, in this order: the
   * pom's name, package and version as meta lines, the main source directory
   * and the lime haxelib.
   */
  lemma DefaultsOnlyExample(pom: Pom, mainSrc: Path, abs: Path -> string)
    requires pom.description.None? && pom.organization.None?
    ensures GenerateProjectXml(None, pom, mainSrc, abs)
      == Ok(Prolog + "<project>\n"
            + Text([ElementLine(MetaElement("title", pom.name)),
                    ElementLine(MetaElement("package", pom.groupId + "." + pom.artifactId)),
                    ElementLine(MetaElement("version", pom.version)),
                    ElementLine(Element("source", [Attr("path", abs(mainSrc))])),
                    ElementLine(Element("haxelib", [Attr("name", "lime")]))])
            + "</project>\n")
  {
    var es := [MetaElement("title", pom.name), MetaElement("package", pom.groupId + "." + pom.artifactId),
               MetaElement("version", pom.version),
               Element("source", [Attr("path", abs(mainSrc))]), Element("haxelib", [Attr("name", "lime")])];
    PlainDefaults(pom.name, pom.groupId, pom.artifactId, pom.version, mainSrc, abs);
    assert pom == Pom(pom.name, None, pom.groupId, pom.artifactId, pom.version, None);
    DocumentOfDefaults(None, pom, mainSrc, abs, es);
    FiveLeafLines(es);
  }

  lemma LeadingGroupsEmpty(p: LimeProject, abs: Path -> string)
    requires p == EmptyProject
    ensures forall k :: 0 <= k < |LeadingGroups(p, abs)| ==> LeadingGroups(p, abs)[k] == []
  {
  }

  lemma MiddleGroupsEmpty(p: LimeProject, abs: Path -> string)
    requires p == EmptyProject
    ensures forall k :: 0 <= k < |MiddleGroups(p, abs)| ==> MiddleGroups(p, abs)[k] == []
  {
  }

  lemma TrailingGroupsEmpty(p: LimeProject, abs: Path -> string)
    requires p == EmptyProject
    ensures forall k :: 0 <= k < |TrailingGroups(p, abs)| ==> TrailingGroups(p, abs)[k] == []
  {
  }

  lemma EmptyGroups(p: LimeProject, abs: Path -> string)
    requires p == EmptyProject
    ensures Groups(p, abs) == Ok(LeadingGroups(p, abs) + [[]] + MiddleGroups(p, abs) + TrailingGroups(p, abs) + [[]])
  {
    assert HaxelibNodes(Items(p.haxelibs), abs) == Ok([]);
    assert SectionNodes(p, abs) == Ok([]);
  }

  lemma EmptyBody(p: LimeProject, abs: Path -> string)
    requires p == EmptyProject
    ensures Body(p, abs) == Ok([])
  {
    var groups := LeadingGroups(p, abs) + [[]] + MiddleGroups(p, abs) + TrailingGroups(p, abs) + [[]];
    EmptyGroups(p, abs);
    LeadingGroupsEmpty(p, abs);
    MiddleGroupsEmpty(p, abs);
    TrailingGroupsEmpty(p, abs);
    FlattenEmpty(groups);
  }

  /** A project with every member null contributes nothing between `<project>` and `</project>` besides the defaults. */
  lemma EmptyProjectNoBody(abs: Path -> string)
    ensures AllHaxelibsNamed(EmptyProject)
    ensures Body(EmptyProject, abs) == Ok([])
  {
    EmptyBody(EmptyProject, abs);
    assert AllHaxelibsNamed(EmptyProject);
  }

  lemma {:induction false} FlattenEmpty(groups: seq<seq<Node>>)
    requires forall k :: 0 <= k < |groups| ==> groups[k] == []
    ensures Flatten(groups) == []
    decreases |groups|
  {
    if |groups| > 0 {
      FlattenEmpty(groups[1..]);
    }
  }

  /** A section with no conditions and every member null is written as `<section>` followed by `</section>`. */
  lemma EmptySectionLines(abs: Path -> string)
    ensures SectionConditions(EmptySection) == []
    ensures Body(EmptySection.project, abs) == Ok([])
    ensures Lines([Sect(SectionConditions(EmptySection), [])]) == [OpenSection([]), CloseSection]
  {
    EmptyBody(EmptySection.project, abs);
    assert SectionConditions(EmptySection) == PresentAttrs([Field("if", None), Field("unless", None)]);
  }

  // ---------------------------------------------------------------------
  // Attribute names and order reproduced as the generator writes them
  // ---------------------------------------------------------------------

  /** An architecture's `exclude` appears as attribute `dir`, and no attribute is named `exclude`. */
  lemma ArchitectureExcludeAsDir(a: Architecture)
    ensures forall v :: Attr("dir", v) in PresentAttrs(ArchitectureFields(a)) <==> a.exclude == Some(v)
    ensures forall v :: Attr("exclude", v) !in PresentAttrs(ArchitectureFields(a))
  {
  }

  /** A template's `rename` appears as attribute `value`, and no attribute is named `rename`. */
  lemma TemplateRenameAsValue(t: Template, abs: Path -> string)
    ensures forall v :: Attr("value", v) in PresentAttrs(TemplateFields(t, abs)) <==> t.rename == Some(v)
    ensures forall v :: Attr("rename", v) !in PresentAttrs(TemplateFields(t, abs))
  {
  }

  /** A system path's value is written as configured: it is not made absolute. */
  lemma SystemPathNotAbsolute(p: SystemPath)
    ensures PresentAttrs(SystemPathFields(p)) == [Attr("value", p.value)]
  {
  }

  /** A library with a path writes `path` as its first attribute, before `name`. */
  lemma LibraryPathFirst(l: Library, abs: Path -> string)
    requires l.path.Some?
    ensures |PresentAttrs(LibraryFields(l, abs))| > 0
    ensures PresentAttrs(LibraryFields(l, abs))[0] == Attr("path", abs(l.path.value))
  {
  }
}
