/**
 * The Lime project descriptor configured in the Maven pom (`<limeProject>`):
 * a recursive record whose conditional sections carry the full project shape
 * again. Every Java field that defaults to `null` is an `Option`; fields the
 * serializer dereferences or appends unconditionally are plain values.
 *
 * A `File` is its configured path; resolving it to an absolute path
 * (`File.getAbsolutePath`) is the uninterpreted function `abs` that the
 * serializer and the goals take as a parameter.
 */
module Descriptor {
  import opened Common

  /** A configured file path, before absolute-path resolution. */
  type Path = string

  datatype App = App(
    main: Option<string>,
    file: Option<string>,
    preloader: Option<string>,
    swfVersion: Option<int>,
    minSwfVersion: Option<int>)

  datatype Meta = Meta(
    title: Option<string>,
    description: Option<string>,
    packageId: Option<string>,
    version: Option<string>,
    company: Option<string>,
    companyId: Option<string>,
    companyUrl: Option<string>,
    buildNumber: Option<string>)

  datatype Window = Window(
    width: Option<int>,
    height: Option<int>,
    background: Option<string>,
    fps: Option<int>,
    fullscreen: Option<bool>,
    resizable: Option<bool>,
    borderless: Option<bool>,
    vsync: Option<bool>,
    orientation: Option<string>,
    hardware: Option<bool>,
    allowShaders: Option<bool>,
    requireShaders: Option<bool>,
    depthBuffer: Option<bool>,
    stencilBuffer: Option<bool>,
    antialiasing: Option<bool>,
    allowHighDpi: Option<bool>,
    colorDepth: Option<int>)

  datatype Source = Source(path: Path)

  /** An entry of the `java` array (a host-language source file). */
  datatype JavaFile = JavaFile(path: Path)

  /** `name` has no initializer; a missing name is a validation error when serializing. */
  datatype Haxelib = Haxelib(
    name: Option<string>,
    version: Option<string>,
    optional: Option<bool>,
    path: Option<Path>)

  // The classes below are not part of this model's source files; their
  // fields are read off the serializer, and scalar fields are held as the
  // text their `toString` produces.

  datatype HaxeDef = HaxeDef(name: string, value: Option<string>, remove: Option<string>)

  datatype SetEnv = SetEnv(name: string)

  datatype HaxeFlag = HaxeFlag(name: string, value: string)

  datatype Language = Language(name: string)

  datatype Include = Include(path: Option<Path>, haxelib: Option<string>, noerror: Option<string>)

  datatype Dependency = Dependency(
    name: string,
    path: Option<Path>,
    embed: Option<string>,
    forceLoad: Option<string>)

  datatype Icon = Icon(path: Path, size: Option<int>, width: Option<int>, height: Option<int>)

  datatype Template = Template(path: Path, haxelib: Option<string>, rename: Option<string>)

  datatype Certificate = Certificate(
    path: Path,
    kind: Option<string>,
    identity: Option<string>,
    password: Option<string>,
    alias: Option<string>,
    aliasPassword: Option<string>,
    teamId: Option<string>)

  datatype Assets = Assets(
    path: Path,
    includePattern: Option<string>,
    excludePattern: Option<string>,
    rename: Option<string>,
    kind: Option<string>,
    embed: Option<bool>,
    library: Option<string>,
    glyphs: Option<string>)

  datatype Library = Library(
    name: Option<string>,
    id: Option<string>,
    kind: Option<string>,
    path: Option<Path>,
    preload: Option<bool>,
    embed: Option<bool>,
    generate: Option<bool>,
    prefix: Option<string>)

  datatype LaunchImage = LaunchImage(path: Path, width: Option<string>, height: Option<string>)

  datatype Ndll = Ndll(
    name: string,
    haxelib: Option<string>,
    dir: Option<Path>,
    kind: Option<string>,
    register: Option<bool>)

  datatype Architecture = Architecture(name: Option<string>, exclude: Option<string>)

  datatype SystemPath = SystemPath(value: Path)

  datatype Sample = Sample(path: Path)

  /** `PreBuild` and `PostBuild` have the same shape. */
  datatype BuildHook = BuildHook(
    haxe: Option<string>,
    open: Option<Path>,
    command: Option<string>,
    cmd: Option<string>)

  /**
   * The project descriptor. `app`, `meta`, `window` and `launchImage` are
   * single optional values; every other member is an optional array. A null
   * `sections` array is held as an empty one: the generator treats the two
   * alike.
   */
  datatype LimeProject = LimeProject(
    app: Option<App>,
    meta: Option<Meta>,
    window: Option<Window>,
    sources: Option<seq<Source>>,
    haxelibs: Option<seq<Haxelib>>,
    haxedefs: Option<seq<HaxeDef>>,
    haxeflags: Option<seq<HaxeFlag>>,
    languages: Option<seq<Language>>,
    dependencies: Option<seq<Dependency>>,
    templates: Option<seq<Template>>,
    includes: Option<seq<Include>>,
    icons: Option<seq<Icon>>,
    assets: Option<seq<Assets>>,
    libraries: Option<seq<Library>>,
    java: Option<seq<JavaFile>>,
    launchImage: Option<LaunchImage>,
    certificates: Option<seq<Certificate>>,
    ndlls: Option<seq<Ndll>>,
    paths: Option<seq<SystemPath>>,
    samples: Option<seq<Sample>>,
    setenvs: Option<seq<SetEnv>>,
    architectures: Option<seq<Architecture>>,
    prebuilds: Option<seq<BuildHook>>,
    postbuilds: Option<seq<BuildHook>>,
    sections: seq<Section>)

  /**
   * A conditional section: the full project shape plus the `if`/`unless`
   * conditions, which are passed through and never interpreted.
   */
  datatype Section = Section(
    ifCondition: Option<string>,
    unlessCondition: Option<string>,
    project: LimeProject)

  /** A freshly constructed `LimeProject`: every member is null. */
  const EmptyProject: LimeProject :=
    LimeProject(None, None, None, None, None, None, None, None, None, None,
                None, None, None, None, None, None, None, None, None, None,
                None, None, None, None, [])

  /** A freshly constructed `Meta`: every field is null. */
  const EmptyMeta: Meta := Meta(None, None, None, None, None, None, None, None)

  /** A freshly constructed `Section`: both conditions null, every member null. */
  const EmptySection: Section := Section(None, None, EmptyProject)

  // ---------------------------------------------------------------------
  // Shorthand setters: Maven calls `set(value)` when the configuration
  // element holds plain text instead of child elements.
  // ---------------------------------------------------------------------

  /** `Haxelib.set(String)`: only the name changes. */
  function HaxelibSet(h: Haxelib, name: string): (r: Haxelib)
    ensures r.name == Some(name)
    ensures r.(name := h.name) == h
  {
    h.(name := Some(name))
  }

  /** A haxelib written as bare text, `<haxelib>openfl</haxelib>`: a new haxelib whose name is set. */
  function HaxelibShorthand(name: string): (r: Haxelib)
    ensures r == Haxelib(Some(name), None, None, None)
  {
    HaxelibSet(Haxelib(None, None, None, None), name)
  }

  /** `Source.set(File)` and `Source.set(String)`: a `File` built from a string keeps that path. */
  function SourceSet(s: Source, path: Path): (r: Source)
    ensures r.path == path
    ensures r == Source(path)
  {
    s.(path := path)
  }

  /** `Assets.set(File)` and `Assets.set(String)`: only the path changes. */
  function AssetsSet(a: Assets, path: Path): (r: Assets)
    ensures r.path == path
    ensures r.(path := a.path) == a
  {
    a.(path := path)
  }

  /** `Icon.set(File)` and `Icon.set(String)`: only the path changes. */
  function IconSet(i: Icon, path: Path): (r: Icon)
    ensures r.path == path
    ensures r.(path := i.path) == i
  {
    i.(path := path)
  }
}
