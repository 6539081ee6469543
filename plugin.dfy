/**
 * scanner/plugin.py: plugin discovery and the state the plugin classes
 * share.
 *
 * The observer plugins keep the current file in CLASS attributes, so one
 * copy is shared by every plugin: `FilePathPlugin` holds the path and
 * whether it has been set, `FileContentsPlugin` the text and whether it
 * could be read, `JavaASTPlugin` the parse tree and whether it could be
 * parsed. Here that shared copy is one `FileCache` object, and the three
 * `update` methods are the three levels of `FileState` step below. The
 * manifest attributes of `ManifestPlugin` are one `ManifestState` object.
 *
 * The file system is a map from path to what the two reads give (UTF-8,
 * then ISO-8859-1); the Java parser is a function that gives None for a
 * syntax error.
 */
module ScannerPlugin {
  import opened Wrappers
  import opened Xml
  import opened JavaAst
  import opened Paths
  import opened ManifestHelpers

  // ---------------------------------------------------------------------
  // Plugin discovery.

  /** Module names in a plugin directory that are never loaded as plugins. */
  const Denylist: set<string> := {"helpers"}

  /** `get_plugins`: the listed module names minus the denylisted ones, in listing order. */
  function GetPlugins(listed: seq<string>): (r: seq<string>)
    ensures forall n :: n in r <==> n in listed && n !in Denylist
    ensures |r| <= |listed|
  {
    if listed == [] then []
    else
      var last := listed[|listed| - 1];
      GetPlugins(listed[..|listed| - 1]) + (if last in Denylist then [] else [last])
  }

  /** Without a denylisted name in the listing, every listed module is loaded, in order. */
  lemma {:induction false} GetPluginsKeepsListing(listed: seq<string>)
    requires forall i :: 0 <= i < |listed| ==> listed[i] !in Denylist
    ensures GetPlugins(listed) == listed
  {
    if listed != [] {
      var init := listed[..|listed| - 1];
      GetPluginsKeepsListing(init);
      assert init + [listed[|listed| - 1]] == listed;
    }
  }

  // ---------------------------------------------------------------------
  // The shared file state.

  /** What reading a stored file gives: the UTF-8 text, or None on a decode error; then the ISO-8859-1 text. */
  datatype StoredFile = StoredFile(utf8: Option<string>, latin1: Option<string>)

  type FileSystem = map<string, StoredFile>

  /**
   * Reading a path: a missing file is an I/O error, with no retry; a file
   * that is not UTF-8 is read again as ISO-8859-1; None when the text
   * could not be had.
   */
  function ReadText(fs: FileSystem, p: string): (r: Option<string>)
    ensures p !in fs ==> r.None?
    ensures p in fs && fs[p].utf8.Some? ==> r == fs[p].utf8
    ensures p in fs && fs[p].utf8.None? ==> r == fs[p].latin1
  {
    if p !in fs then None
    else if fs[p].utf8.Some? then fs[p].utf8
    else fs[p].latin1
  }

  datatype FileState = FileState(filePath: Option<string>, hasBeenSet: bool,
                                 contents: Option<string>, readable: bool,
                                 ast: Option<Tree>, parseable: bool)

  /** The class attributes as the classes declare them, and as a full reset leaves them. */
  const Fresh: FileState := FileState(None, false, None, true, None, true)

  /**
   * What the update methods keep true as long as every path they are given
   * is non-empty: a set path is present, an unreadable file has no text, a
   * tree was parsed from text, and an unparsable file has no tree.
   */
  ghost predicate Coherent(s: FileState) {
    (s.hasBeenSet ==> s.filePath.Some?) &&
    (!s.readable ==> s.contents.None?) &&
    (s.ast.Some? ==> s.contents.Some?) &&
    (!s.parseable ==> s.ast.None?)
  }

  /** `FilePathPlugin.update` without the run: an empty path clears the path; otherwise the first path set sticks. */
  function PathStep(s: FileState, path: string): (r: FileState)
    ensures path != "" && Coherent(s) ==> Coherent(r) && r.filePath.Some?
  {
    if path == "" then s.(filePath := None)
    else if !s.hasBeenSet then s.(filePath := Some(path), hasBeenSet := true)
    else s
  }

  /**
   * `FileContentsPlugin.update` without the run: nothing once the file is
   * known unreadable or its text is loaded; otherwise set the path and read
   * the file at the shared path, marking it unreadable when both reads fail.
   */
  function ContentsStep(s: FileState, path: string, fs: FileSystem): (r: FileState)
    requires path != "" && Coherent(s)
    ensures Coherent(r)
    ensures r.ast == s.ast && r.parseable == s.parseable
  {
    if !s.readable || s.contents.Some? then s
    else
      var s1 := PathStep(s, path);
      match ReadText(fs, s1.filePath.value)
      case None => s1.(readable := false)
      case Some(text) => s1.(contents := Some(text))
  }

  /**
   * `JavaASTPlugin.update` without the run: nothing once the file is known
   * unparsable; a `.java` path with no tree yet has its text loaded and,
   * when the text is non-empty, parsed, a syntax error marking the file
   * unparsable.
   */
  function TreeStep(s: FileState, path: string, fs: FileSystem, parser: string -> Option<Tree>): (r: FileState)
    requires path != "" && Coherent(s)
    ensures Coherent(r)
  {
    if !s.parseable then s
    else if s.ast.None? && IsJavaFile(path) then ParseLoaded(ContentsStep(s, path, fs), parser)
    else s
  }

  /** The parse after loading: a non-empty text is parsed, a syntax error marking the file unparsable. */
  function ParseLoaded(s: FileState, parser: string -> Option<Tree>): (r: FileState)
    requires Coherent(s) && s.ast.None? && s.parseable
    ensures Coherent(r)
  {
    if s.contents.Some? && s.contents.value != "" then
      match parser(s.contents.value)
      case None => s.(parseable := false)
      case Some(t) => s.(ast := Some(t))
    else s
  }

  /** Whether a contents-level plugin runs after its update: the file is readable and its text non-empty. */
  predicate ContentsRuns(s: FileState) {
    s.readable && s.contents.Some? && s.contents.value != ""
  }

  /** Whether a tree-level plugin runs after its update: there is a tree. */
  predicate TreeRuns(s: FileState) {
    s.ast.Some?
  }

  /** The three `reset` class methods; each also does the one of its base class. */
  function ClearPath(s: FileState): FileState {
    s.(filePath := None, hasBeenSet := false)
  }

  function ClearContents(s: FileState): FileState {
    ClearPath(s.(contents := None, readable := true))
  }

  function ClearTree(s: FileState): FileState {
    ClearContents(s.(ast := None, parseable := true))
  }

  /** The depth of a plugin class in the `FilePathPlugin` hierarchy. */
  datatype Level = PathLevel | ContentsLevel | TreeLevel

  function Step(level: Level, s: FileState, path: string, fs: FileSystem, parser: string -> Option<Tree>): (r: FileState)
    requires path != "" && Coherent(s)
    ensures Coherent(r)
  {
    match level
    case PathLevel => PathStep(s, path)
    case ContentsLevel => ContentsStep(s, path, fs)
    case TreeLevel => TreeStep(s, path, fs, parser)
  }

  function Clear(level: Level, s: FileState): FileState {
    match level
    case PathLevel => ClearPath(s)
    case ContentsLevel => ClearContents(s)
    case TreeLevel => ClearTree(s)
  }

  /** The attributes above a level are as `Fresh` has them. */
  predicate Within(s: FileState, level: Level) {
    (level == PathLevel ==> s.contents.None? && s.readable) &&
    (level != TreeLevel ==> s.ast.None? && s.parseable)
  }

  predicate AtMost(a: Level, b: Level) {
    a == b || a == PathLevel || b == TreeLevel
  }

  // ---------------------------------------------------------------------
  // The shared state as an object.

  /** The class attributes of `FilePathPlugin`, `FileContentsPlugin` and `JavaASTPlugin`. */
  class FileCache {
    var filePath: Option<string>
    var hasBeenSet: bool
    var contents: Option<string>
    var readable: bool
    var ast: Option<Tree>
    var parseable: bool

    function State(): FileState
      reads this
    {
      FileState(filePath, hasBeenSet, contents, readable, ast, parseable)
    }

    constructor()
      ensures State() == Fresh
    {
      filePath, hasBeenSet := None, false;
      contents, readable := None, true;
      ast, parseable := None, true;
    }

    method UpdatePath(path: string)
      modifies this
      ensures State() == PathStep(old(State()), path)
    {
      if path == "" {
        filePath := None;
        return;
      }
      if !hasBeenSet {
        filePath := Some(path);
        hasBeenSet := true;
      }
    }

    method UpdateContents(path: string, fs: FileSystem)
      requires path != "" && Coherent(State())
      modifies this
      ensures State() == ContentsStep(old(State()), path, fs)
    {
      if !readable {
        return;
      }
      if contents.None? {
        UpdatePath(path);
        var p := filePath.value;
        if p !in fs {
          readable := false;
          return;
        }
        if fs[p].utf8.Some? {
          contents := fs[p].utf8;
        } else if fs[p].latin1.Some? {
          contents := fs[p].latin1;
        } else {
          readable := false;
          return;
        }
      }
    }

    method UpdateTree(path: string, fs: FileSystem, parser: string -> Option<Tree>)
      requires path != "" && Coherent(State())
      modifies this
      ensures State() == TreeStep(old(State()), path, fs, parser)
    {
      if !parseable {
        return;
      }
      if ast.None? && IsJavaFile(path) {
        UpdateContents(path, fs);
        ParseContents(parser);
      }
    }

    method ParseContents(parser: string -> Option<Tree>)
      requires Coherent(State()) && ast.None? && parseable
      modifies this
      ensures State() == ParseLoaded(old(State()), parser)
    {
      if contents.Some? && contents.value != "" {
        var parsed := parser(contents.value);
        if parsed.None? {
          parseable := false;
        } else {
          ast := parsed;
        }
      }
    }

    method Update(level: Level, path: string, fs: FileSystem, parser: string -> Option<Tree>)
      requires path != "" && Coherent(State())
      modifies this
      ensures State() == Step(level, old(State()), path, fs, parser)
    {
      match level
      case PathLevel => UpdatePath(path);
      case ContentsLevel => UpdateContents(path, fs);
      case TreeLevel => UpdateTree(path, fs, parser);
    }

    method ResetPath()
      modifies this
      ensures State() == ClearPath(old(State()))
    {
      filePath := None;
      hasBeenSet := false;
    }

    method ResetContents()
      modifies this
      ensures State() == ClearContents(old(State()))
    {
      contents := None;
      readable := true;
      ResetPath();
    }

    method ResetTree()
      modifies this
      ensures State() == ClearTree(old(State()))
    {
      ast := None;
      parseable := true;
      ResetContents();
    }

    method Reset(level: Level)
      modifies this
      ensures State() == Clear(level, old(State()))
    {
      match level
      case PathLevel => ResetPath();
      case ContentsLevel => ResetContents();
      case TreeLevel => ResetTree();
    }
  }

  // ---------------------------------------------------------------------
  // Properties of the file state.

  /** An empty path clears the shared path and leaves the rest. */
  lemma EmptyPathClears(s: FileState)
    ensures PathStep(s, "") == s.(filePath := None)
  {
  }

  /** The first path set since the last reset is the one every later update sees. */
  lemma FirstPathSticks(s: FileState, p: string, q: string)
    requires p != "" && q != "" && Coherent(s)
    ensures PathStep(PathStep(s, p), q).filePath == PathStep(s, p).filePath
    ensures !s.hasBeenSet ==> PathStep(PathStep(s, p), q).filePath == Some(p)
  {
  }

  /**
   * From a fresh state, the contents step loads exactly what reading the
   * path gives, and the file is unreadable exactly when nothing could be
   * read.
   */
  lemma ContentsFromFresh(p: string, fs: FileSystem)
    requires p != ""
    ensures var r := ContentsStep(Fresh, p, fs);
      r.filePath == Some(p) && r.contents == ReadText(fs, p) && (r.readable <==> ReadText(fs, p).Some?) &&
      r.ast.None? && r.parseable
  {
  }

  /** A file is read at most once per cycle: loading again changes nothing. */
  lemma ContentsLoadOnce(s: FileState, p: string, q: string, fs: FileSystem)
    requires p != "" && q != "" && Coherent(s)
    ensures ContentsStep(ContentsStep(s, p, fs), q, fs) == ContentsStep(s, p, fs)
  {
  }

  /** A file is parsed at most once per cycle: the tree step is idempotent. */
  lemma TreeLoadOnce(s: FileState, p: string, fs: FileSystem, parser: string -> Option<Tree>)
    requires p != "" && Coherent(s)
    ensures TreeStep(TreeStep(s, p, fs, parser), p, fs, parser) == TreeStep(s, p, fs, parser)
  {
  }

  /** Once a file is known unreadable, neither the contents nor the tree step does anything. */
  lemma UnreadableIsFixed(s: FileState, p: string, fs: FileSystem, parser: string -> Option<Tree>)
    requires p != "" && Coherent(s) && !s.readable
    ensures ContentsStep(s, p, fs) == s
    ensures TreeStep(s, p, fs, parser) == s
    ensures !ContentsRuns(s) && !TreeRuns(s)
  {
  }

  /** Once a file is known unparsable, the tree step does nothing and no tree-level plugin runs. */
  lemma UnparsableIsFixed(s: FileState, p: string, fs: FileSystem, parser: string -> Option<Tree>)
    requires p != "" && Coherent(s) && !s.parseable
    ensures TreeStep(s, p, fs, parser) == s
    ensures !TreeRuns(TreeStep(s, p, fs, parser))
  {
  }

  /**
   * A tree appears only for a `.java` path, only as what the parser makes
   * of the loaded text, and only when that text is non-empty.
   */
  lemma TreeOnlyFromJavaText(s: FileState, p: string, fs: FileSystem, parser: string -> Option<Tree>)
    requires p != "" && Coherent(s) && s.ast.None?
    ensures var r := TreeStep(s, p, fs, parser);
      r.ast.Some? ==> IsJavaFile(p) && r.contents.Some? && r.contents.value != "" && parser(r.contents.value) == r.ast
  {
    if s.parseable && IsJavaFile(p) {
      var c := ContentsStep(s, p, fs);
      var r := ParseLoaded(c, parser);
      if r.ast.Some? {
        assert c.contents.Some? && c.contents.value != "";
        assert r == c.(ast := parser(c.contents.value));
      }
    }
  }

  /** A path that is not `.java` never loads text or a tree at the tree level. */
  lemma NonJavaUntouched(s: FileState, p: string, fs: FileSystem, parser: string -> Option<Tree>)
    requires p != "" && Coherent(s) && !IsJavaFile(p)
    ensures TreeStep(s, p, fs, parser) == s
  {
  }

  /** A step at a level never touches the attributes of deeper classes. */
  lemma StepStaysWithin(level: Level, bound: Level, s: FileState, p: string, fs: FileSystem,
                        parser: string -> Option<Tree>)
    requires p != "" && Coherent(s) && AtMost(level, bound) && Within(s, bound)
    ensures Within(Step(level, s, p, fs, parser), bound)
  {
  }

  /** A reset at a level restores every attribute up to that level, and keeps the rest. */
  lemma ClearRestores(level: Level, bound: Level, s: FileState)
    ensures Within(s, level) ==> Clear(level, s) == Fresh
    ensures Within(s, bound) ==> Within(Clear(level, s), bound)
  {
  }

  /** The deepest reset restores everything. */
  lemma ClearTreeIsFresh(s: FileState)
    ensures ClearTree(s) == Fresh
  {
  }

  // ---------------------------------------------------------------------
  // The manifest attributes.

  const PackageNotFound: string := "PACKAGE_NOT_FOUND"

  datatype ManifestValue = ManifestValue(xml: Option<Document>, path: Option<string>, minSdk: int,
                                         targetSdk: int, packageName: Option<string>)

  /** The class attributes of `ManifestPlugin` as declared. */
  const InitialManifest: ManifestValue := ManifestValue(None, None, -1, -1, Some(PackageNotFound))

  /**
   * `update_manifest`: record the path; when the file does not parse, drop
   * the document and keep the versions and package; otherwise keep the
   * document, read both versions from the path and the package from the
   * root element.
   */
  function ManifestAfter(m: ManifestValue, p: string, disk: Disk): (r: ManifestValue)
    ensures r.path == Some(p)
    ensures r.xml.Some? <==> p in disk && disk[p].dom.Some?
    ensures r.xml.None? ==> r.minSdk == m.minSdk && r.targetSdk == m.targetSdk && r.packageName == m.packageName
    ensures r.xml.Some? ==>
      r.xml == disk[p].dom &&
      r.minSdk == SdkFromDocument(r.xml.value, "minSdkVersion") &&
      r.targetSdk == SdkFromDocument(r.xml.value, "targetSdkVersion") &&
      (r.packageName.Some? <==> "package" in r.xml.value.root.attrs) &&
      (r.packageName.Some? ==> r.packageName.value == r.xml.value.root.attrs["package"])
  {
    if p !in disk || disk[p].dom.None? then m.(path := Some(p), xml := None)
    else
      ManifestValue(disk[p].dom, Some(p), GetMinSdk(PathSource(p), [], NoSource, disk),
                    GetTargetSdk(PathSource(p), [], NoSource, disk), GetPackage(p, disk))
  }

  class ManifestState {
    var xml: Option<Document>
    var path: Option<string>
    var minSdk: int
    var targetSdk: int
    var packageName: Option<string>

    function Value(): ManifestValue
      reads this
    {
      ManifestValue(xml, path, minSdk, targetSdk, packageName)
    }

    constructor()
      ensures Value() == InitialManifest
    {
      xml, path := None, None;
      minSdk, targetSdk := -1, -1;
      packageName := Some(PackageNotFound);
    }

    method UpdateManifest(p: string, disk: Disk)
      modifies this
      ensures Value() == ManifestAfter(old(Value()), p, disk)
    {
      path := Some(p);
      if p !in disk || disk[p].dom.None? {
        xml := None;
        return;
      }
      xml := disk[p].dom;
      minSdk := GetMinSdk(PathSource(p), [], NoSource, disk);
      targetSdk := GetTargetSdk(PathSource(p), [], NoSource, disk);
      packageName := GetPackage(p, disk);
    }
  }

  /** A manifest that does not parse leaves the declared defaults in place on a first update. */
  lemma UnparsedManifestKeepsDefaults(p: string, disk: Disk)
    requires p !in disk || disk[p].dom.None?
    ensures var r := ManifestAfter(InitialManifest, p, disk);
      r.xml.None? && r.minSdk == -1 && r.targetSdk == -1 && r.packageName == Some(PackageNotFound)
  {
  }
}
