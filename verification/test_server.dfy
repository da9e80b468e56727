/**
 * The local HTTP server the test goal starts for an html5 test run: which
 * file a request path names, relative to the test output's `html5/bin`
 * directory, and the content type a file is served with.
 */
module TestServer {
  import opened Common

  // ---------------------------------------------------------------------
  // Request paths
  // ---------------------------------------------------------------------

  /** `s` with every `/` left out. */
  function NoSlash(s: string): (r: string)
    ensures '/' !in r
    decreases |s|
  {
    if |s| == 0 then "" else (if s[0] == '/' then "" else [s[0]]) + NoSlash(s[1..])
  }

  lemma {:induction false} NoSlashAppend(a: string, b: string)
    ensures NoSlash(a + b) == NoSlash(a) + NoSlash(b)
    decreases |a|
  {
    if |a| > 0 {
      assert (a + b)[0] == a[0];
      assert (a + b)[1..] == a[1..] + b;
      NoSlashAppend(a[1..], b);
    } else {
      assert a + b == b;
    }
  }

  /** `s` with each `//` made `/`, scanning left to right as `replaceAll("//", "/")` does. */
  function Collapse(s: string): string {
    ReplaceAll(s, "//", "/")
  }

  /** Collapsing only drops slashes: the other characters stay, in order. */
  lemma {:induction false} CollapseKeepsText(s: string)
    ensures NoSlash(Collapse(s)) == NoSlash(s)
    decreases |s|
  {
    if |s| == 0 {
    } else if "//" <= s {
      CollapseKeepsText(s[2..]);
      assert s == "//" + s[2..];
      NoSlashAppend("//", s[2..]);
      NoSlashAppend("/", Collapse(s[2..]));
    } else {
      CollapseKeepsText(s[1..]);
      assert s == [s[0]] + s[1..];
      NoSlashAppend([s[0]], s[1..]);
      NoSlashAppend([s[0]], Collapse(s[1..]));
    }
  }

  /** Collapsing never empties a path that was not empty, and never makes it longer. */
  lemma {:induction false} CollapseLength(s: string)
    ensures |Collapse(s)| <= |s|
    ensures |Collapse(s)| == 0 <==> |s| == 0
    decreases |s|
  {
    if |s| > 0 {
      if "//" <= s {
        CollapseLength(s[2..]);
      } else {
        CollapseLength(s[1..]);
      }
    }
  }

  /** A path without two slashes in a row is left as it is. */
  lemma {:induction false} CollapseNoDouble(s: string)
    requires forall i :: 0 <= i < |s| - 1 ==> !(s[i] == '/' && s[i + 1] == '/')
    ensures Collapse(s) == s
    decreases |s|
  {
    if |s| > 0 {
      if |s| >= 2 {
        assert s[..2][0] == s[0] && s[..2][1] == s[1];
      }
      assert !("//" <= s);
      CollapseNoDouble(s[1..]);
      assert [s[0]] + s[1..] == s;
    }
  }

  /** Three slashes in a row collapse to two, not one: the replacement is a single pass. */
  lemma TripleSlashKeepsTwo()
    ensures Collapse("a///b") == "a//b"
  {
    assert "a///b"[..2][0] == 'a';
    assert "a///b"[1..] == "///b";
    assert "//" <= "///b";
    assert "///b"[2..] == "/b";
    assert "/b"[..2][1] == 'b';
    assert "/b"[1..] == "b";
    assert !("//" <= "b");
    assert "b"[1..] == "";
  }

  /**
   * The file a request path names: the path without its leading `/`, with
   * each `//` made `/`; the root names `index.html`. The server always
   * receives a path that starts with `/`.
   */
  function RequestFile(path: string): (r: string)
    requires |path| >= 1
    ensures |r| > 0
    ensures |path| == 1 ==> r == "index.html"
    ensures |path| > 1 ==> NoSlash(r) == NoSlash(path[1..]) && |r| <= |path| - 1
  {
    CollapseKeepsText(path[1..]);
    CollapseLength(path[1..]);
    var p := Collapse(path[1..]);
    if |p| == 0 then "index.html" else p
  }

  /** A request for a file below the root, written without doubled slashes, names that file. */
  lemma RequestFilePlain(file: string)
    requires |file| > 0
    requires forall i :: 0 <= i < |file| - 1 ==> !(file[i] == '/' && file[i + 1] == '/')
    ensures RequestFile("/" + file) == file
  {
    assert ("/" + file)[1..] == file;
    CollapseNoDouble(file);
  }

  // ---------------------------------------------------------------------
  // Content types
  // ---------------------------------------------------------------------

  /** Content types by file extension. */
  const MimeTypes: map<string, string> := map[
    "css" := "text/css",
    "gif" := "image/gif",
    "htm" := "text/html",
    "html" := "text/html",
    "js" := "application/javascript",
    "json" := "application/json",
    "jpg" := "image/jpeg",
    "jpeg" := "image/jpeg",
    "mp3" := "audio/mpeg",
    "mp4" := "video/mp4",
    "flv" := "video/x-flv",
    "mov" := "video/quicktime",
    "swf" := "application/x-shockwave-flash",
    "pdf" := "application/pdf",
    "doc" := "application/msword",
    "ogg" := "application/x-ogg",
    "png" := "image/png",
    "svg" := "image/svg+xml",
    "xml" := "application/xml",
    "zip" := "application/zip",
    "md" := "text/plain",
    "txt" := "text/plain"
  ]

  /** The content type of a file whose extension is not in the table, or that has none. */
  const DefaultMimeType: string := "application/octet-stream"

  /** The position of the last `c` in `s`, as `lastIndexOf`; `None` stands for -1. */
  function LastIndexOf(s: string, c: char): (r: Option<nat>)
    ensures r.None? <==> c !in s
    ensures r.Some? ==> r.value < |s| && s[r.value] == c && c !in s[r.value + 1..]
    decreases |s|
  {
    if |s| == 0 then None
    else if s[|s| - 1] == c then Some(|s| - 1)
    else
      var r := LastIndexOf(s[..|s| - 1], c);
      assert s == s[..|s| - 1] + [s[|s| - 1]];
      if r.Some? then
        assert s[r.value + 1..] == s[..|s| - 1][r.value + 1..] + [s[|s| - 1]];
        r
      else r
  }

  /** A `c` with no `c` after it is the last one. */
  lemma LastIndexOfAt(s: string, c: char, k: nat)
    requires k < |s| && s[k] == c && c !in s[k + 1..]
    ensures LastIndexOf(s, c) == Some(k)
  {
  }

  /** The text after the last `.` of a file name, or `None` when the name has no `.`. */
  function Extension(fileName: string): (r: Option<string>)
    ensures r.None? <==> '.' !in fileName
    ensures r.Some? ==> '.' !in r.value && EndsWith(fileName, "." + r.value)
  {
    match LastIndexOf(fileName, '.')
    case None => None
    case Some(i) =>
      assert fileName[i..] == "." + fileName[i + 1..];
      Some(fileName[i + 1..])
  }

  /** The content type a file is served with: by its extension, or the default. */
  function MimeType(fileName: string): (r: string)
    ensures r == DefaultMimeType || r in MimeTypes.Values
  {
    var ext := Extension(fileName);
    if ext.Some? && ext.value in MimeTypes then MimeTypes[ext.value] else DefaultMimeType
  }

  /** The extension is exactly what follows the last dot, whatever comes before it. */
  lemma ExtensionOf(base: string, ext: string)
    requires '.' !in ext
    ensures Extension(base + "." + ext) == Some(ext)
  {
    var name := base + "." + ext;
    assert name[|base|] == '.';
    assert name[|base| + 1..] == ext;
    LastIndexOfAt(name, '.', |base|);
  }

  /** A file whose extension is in the table is served with that extension's type. */
  lemma KnownExtension(base: string, ext: string)
    requires '.' !in ext && ext in MimeTypes
    ensures MimeType(base + "." + ext) == MimeTypes[ext]
  {
    ExtensionOf(base, ext);
  }

  /** A file whose extension is not in the table, or that has no dot, is served as an octet stream. */
  lemma UnknownExtension(fileName: string)
    requires Extension(fileName).None? || Extension(fileName).value !in MimeTypes
    ensures MimeType(fileName) == DefaultMimeType
  {
  }
}
