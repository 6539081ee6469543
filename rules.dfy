/**
 * The plugin objects the scanner drives (scanner/plugin.py, and the rules
 * of plugins/ that this model covers).
 *
 * A plugin is a `Rule` object: the class it instantiates is its `kind`; its
 * own attributes are its issue list, the fields of the broadcast rule and
 * the log table of the logging rule. The scanner reaches a plugin only
 * through the methods its class defines (`update`, `reset`,
 * `can_run_coroutine`, the coroutine's `send`, `finalize`, `run`), so a
 * kind carries those methods as function values:
 *
 *  - an observer outside this model is kept by its place in the class
 *    hierarchy and its `run` as a function of what it reads: `PathRule` (a
 *    `FilePathPlugin`), `ContentsRule` (a `FileContentsPlugin`) and
 *    `TreeRule` (a `JavaASTPlugin`, whose failing run is caught, shown as
 *    None);
 *  - a `StreamRule` is a `CoroutinePlugin`: its priming step, what one
 *    streamed node does, and its `finalize` when it has one;
 *  - a `ManifestRule` is a plugin that is only a `ManifestPlugin`: its `run`.
 *
 * The rules this model covers are the constants `SendBroadcastRule`,
 * `DynamicReceiverRule`, `AndroidLoggingRule`, `CustomPermissionsRule` and
 * `ExportedTagsRule`, built from the functions of their own modules.
 *
 * Every method of `Rule` is proved against a function on `Slot` values (a
 * kind with the attribute values), which the scanner's specification folds.
 */
module Rules {
  import opened Wrappers
  import opened Findings
  import opened JavaAst
  import opened ScannerPlugin
  import SendBroadcast
  import DynamicReceiver
  import AndroidLogging
  import CustomPermissions
  import ExportedTags

  datatype PluginValue = PluginValue(issues: seq<Issue>, broadcast: SendBroadcast.BroadcastState,
                                     logs: AndroidLogging.LogTable)

  /** The attributes as each `__init__` leaves them. */
  const Loaded: PluginValue := PluginValue([], SendBroadcast.InitialState, AndroidLogging.EmptyTable)

  /** The methods of a `CoroutinePlugin`. */
  datatype Stream = Stream(
    prime: (PluginValue, FileState, int) -> (PluginValue, bool),
    receive: (PluginValue, Option<string>, JNode) -> PluginValue,
    finalize: Option<PluginValue -> PluginValue>)

  datatype RuleKind =
    | PathRule(pathCheck: Option<string> -> seq<Issue>)
    | ContentsRule(contentsCheck: (Option<string>, string) -> seq<Issue>)
    | TreeRule(treeCheck: (Option<string>, Tree) -> Option<seq<Issue>>)
    | StreamRule(stream: Stream)
    | ManifestRule(run: (PluginValue, ManifestValue, seq<string>, string -> Option<Tree>) -> PluginValue)

  /** A `PluginObserver`: everything but the plugins that are only `ManifestPlugin`s. */
  predicate IsObserver(k: RuleKind) {
    !k.ManifestRule?
  }

  /** A `CoroutinePlugin`. */
  predicate IsCoroutine(k: RuleKind) {
    k.StreamRule?
  }

  /** A plugin with a callable `finalize`. */
  predicate HasFinalize(k: RuleKind) {
    k.StreamRule? && k.stream.finalize.Some?
  }

  /** The class whose `update` and `reset` an observer inherits. */
  function LevelOf(k: RuleKind): Level {
    match k
    case PathRule(_) => PathLevel
    case ContentsRule(_) => ContentsLevel
    case _ => TreeLevel
  }

  datatype Slot = Slot(kind: RuleKind, value: PluginValue)

  function AddIssues(x: Slot, more: seq<Issue>): (r: Slot)
    ensures r.kind == x.kind && r.value.issues == x.value.issues + more
    ensures r.value.broadcast == x.value.broadcast && r.value.logs == x.value.logs
  {
    x.(value := x.value.(issues := x.value.issues + more))
  }

  // ---------------------------------------------------------------------
  // What the scanner's calls do to a plugin.

  /**
   * What `update(file_path, call_run=True)` has `run` append, given the
   * shared state after the update: a path rule always runs; a contents rule
   * runs on readable, non-empty text; a tree rule runs when there is a tree;
   * a node-stream rule never runs from `update`.
   */
  function RunOnUpdate(k: RuleKind, s: FileState): (r: seq<Issue>)
    ensures IsCoroutine(k) || !IsObserver(k) ==> r == []
    ensures k.ContentsRule? && !ContentsRuns(s) ==> r == []
    ensures k.TreeRule? && !TreeRuns(s) ==> r == []
  {
    match k
    case PathRule(check) => check(s.filePath)
    case ContentsRule(check) => if ContentsRuns(s) then check(s.filePath, s.contents.value) else []
    case TreeRule(check) => if TreeRuns(s) then check(s.filePath, s.ast.value).GetOr([]) else []
    case _ => []
  }

  function Updated(x: Slot, s: FileState): Slot {
    AddIssues(x, RunOnUpdate(x.kind, s))
  }

  /** `can_run_coroutine`: the new attributes, and whether the plugin takes the stream. */
  function Primed(x: Slot, s: FileState, minSdk: int): (r: (Slot, bool))
    requires IsCoroutine(x.kind)
    ensures r.0.kind == x.kind
  {
    var (v, go) := x.kind.stream.prime(x.value, s, minSdk);
    (Slot(x.kind, v), go)
  }

  /** What one streamed node does to a node-stream rule. */
  function Received(x: Slot, filePath: Option<string>, node: JNode): (r: Slot)
    requires IsCoroutine(x.kind)
    ensures r.kind == x.kind
  {
    Slot(x.kind, x.kind.stream.receive(x.value, filePath, node))
  }

  /** The nodes of a tree streamed in order. */
  function ReceivedAll(x: Slot, filePath: Option<string>, nodes: seq<JNode>): (r: Slot)
    requires IsCoroutine(x.kind)
    ensures r.kind == x.kind
  {
    if nodes == [] then x
    else Received(ReceivedAll(x, filePath, nodes[..|nodes| - 1]), filePath, nodes[|nodes| - 1])
  }

  /**
   * `notify_coroutines` for one rule, given the shared state after the
   * notify: with a tree, a node-stream rule is primed and, when it may run,
   * gets every node of the tree.
   */
  function Streamed(x: Slot, s: FileState, minSdk: int): (r: Slot)
    ensures r.kind == x.kind
  {
    if !IsCoroutine(x.kind) || s.ast.None? then x
    else
      var (y, go) := Primed(x, s, minSdk);
      if go then ReceivedAll(y, s.filePath, Nodes(s.ast.value)) else y
  }

  /** `finalize`, for a plugin that has one. */
  function Finalized(x: Slot): (r: Slot)
    ensures r.kind == x.kind
  {
    if HasFinalize(x.kind) then Slot(x.kind, x.kind.stream.finalize.value(x.value)) else x
  }

  /** `run` of a manifest rule, with the scanner's file list as `all_files`. */
  function ManifestRan(x: Slot, m: ManifestValue, allFiles: seq<string>, parsed: string -> Option<Tree>): (r: Slot)
    requires !IsObserver(x.kind)
    ensures r.kind == x.kind
  {
    Slot(x.kind, x.kind.run(x.value, m, allFiles, parsed))
  }

  // ---------------------------------------------------------------------
  // The rules of this model.

  /**
   * The broadcast rule's `can_run_coroutine`: it records the manifest's
   * minSdk, the shared path and the file's imports, and runs only when the
   * text names a broadcast method. The scanner primes only with a tree,
   * which never comes without the text.
   */
  function BroadcastPrime(v: PluginValue, s: FileState, minSdk: int): (PluginValue, bool) {
    if s.ast.Some? && s.contents.Some? then
      (v.(broadcast := SendBroadcast.Prepare(minSdk, s.filePath, s.ast.value.imports)),
       SendBroadcast.PreCheck(s.contents.value))
    else (v, false)
  }

  function BroadcastReceive(v: PluginValue, filePath: Option<string>, node: JNode): PluginValue {
    v.(issues := v.issues + SendBroadcast.Receive(v.broadcast, node))
  }

  /** The inherited `can_run_coroutine`: always. */
  function AlwaysRun(v: PluginValue, s: FileState, minSdk: int): (PluginValue, bool) {
    (v, true)
  }

  function DynamicReceive(v: PluginValue, filePath: Option<string>, node: JNode): PluginValue {
    v.(issues := v.issues + DynamicReceiver.Receive(filePath, node))
  }

  /** The logging rule records each node in its log table. */
  function LoggingReceive(v: PluginValue, filePath: Option<string>, node: JNode): PluginValue {
    v.(logs := AndroidLogging.Record(v.logs, filePath, node))
  }

  /** Its `finalize`: the summary, from a table whose every file has an entry (as a valid table has). */
  function LoggingFinalize(v: PluginValue): PluginValue {
    if forall f :: f in v.logs.files ==> f in v.logs.lines
    then v.(issues := v.issues + AndroidLogging.FinalIssues(v.logs))
    else v
  }

  function CustomPermissionsRun(v: PluginValue, m: ManifestValue, allFiles: seq<string>,
                                parsed: string -> Option<Tree>): PluginValue
  {
    v.(issues := v.issues + CustomPermissions.RunIssues(m.xml, m.path, m.targetSdk))
  }

  /** The manifest facts the exported-components rule reads from the shared manifest attributes. */
  function FactsOf(m: ManifestValue): ExportedTags.ManifestFacts {
    ExportedTags.ManifestFacts(m.minSdk, m.targetSdk, m.packageName, m.path)
  }

  function ExportedTagsRun(v: PluginValue, m: ManifestValue, allFiles: seq<string>,
                           parsed: string -> Option<Tree>): PluginValue
  {
    v.(issues := ExportedTags.RunIssues(v.issues, m.xml, FactsOf(m), allFiles, parsed))
  }

  const SendBroadcastRule: RuleKind := StreamRule(Stream(BroadcastPrime, BroadcastReceive, None))
  const DynamicReceiverRule: RuleKind := StreamRule(Stream(AlwaysRun, DynamicReceive, None))
  const AndroidLoggingRule: RuleKind := StreamRule(Stream(AlwaysRun, LoggingReceive, Some(LoggingFinalize)))
  const CustomPermissionsRule: RuleKind := ManifestRule(CustomPermissionsRun)
  const ExportedTagsRule: RuleKind := ManifestRule(ExportedTagsRun)

  /** The node-stream rules of this model. */
  ghost predicate KnownStream(k: RuleKind) {
    k == SendBroadcastRule || k == DynamicReceiverRule || k == AndroidLoggingRule
  }

  /** The log table is well formed. */
  ghost predicate SlotValid(x: Slot) {
    AndroidLogging.ValidTable(x.value.logs)
  }

  // ---------------------------------------------------------------------
  // The plugin object.

  class Rule {
    const kind: RuleKind
    var issues: seq<Issue>
    var broadcast: SendBroadcast.BroadcastState
    var logs: AndroidLogging.LogTable

    function Current(): Slot
      reads this
    {
      Slot(kind, PluginValue(issues, broadcast, logs))
    }

    constructor(kind: RuleKind)
      ensures Current() == Slot(kind, Loaded)
    {
      this.kind := kind;
      issues := [];
      broadcast := SendBroadcast.InitialState;
      logs := AndroidLogging.EmptyTable;
    }

    /** Every attribute at once, from what one of the kind's methods computed. */
    method Assign(v: PluginValue)
      modifies this
      ensures Current() == Slot(kind, v)
    {
      issues := v.issues;
      broadcast := v.broadcast;
      logs := v.logs;
    }

    /** `update(file_path, call_run=True)`, as the subject calls it. */
    method Update(path: string, cache: FileCache, fs: FileSystem, parser: string -> Option<Tree>)
      requires IsObserver(kind) && path != "" && Coherent(cache.State())
      modifies this, cache
      ensures cache.State() == Step(LevelOf(kind), old(cache.State()), path, fs, parser)
      ensures Current() == Updated(old(Current()), cache.State())
    {
      match kind
      case PathRule(check) =>
        cache.UpdatePath(path);
        issues := issues + check(cache.filePath);
      case ContentsRule(check) =>
        cache.UpdateContents(path, fs);
        if cache.readable && cache.contents.Some? && cache.contents.value != "" {
          issues := issues + check(cache.filePath, cache.contents.value);
        }
      case TreeRule(check) =>
        cache.UpdateTree(path, fs, parser);
        if cache.ast.Some? {
          var outcome := check(cache.filePath, cache.ast.value);
          if outcome.Some? {
            issues := issues + outcome.value;
          }
        }
      case StreamRule(_) =>
        cache.UpdateTree(path, fs, parser);
    }

    /** `reset`, the class method of the class the observer inherits it from. */
    method Reset(cache: FileCache)
      modifies cache
      ensures cache.State() == Clear(LevelOf(kind), old(cache.State()))
    {
      cache.Reset(LevelOf(kind));
    }

    method CanRunCoroutine(cache: FileCache, minSdk: int) returns (go: bool)
      requires IsCoroutine(kind)
      modifies this
      ensures (Current(), go) == Primed(old(Current()), cache.State(), minSdk)
    {
      var primed := kind.stream.prime(Current().value, cache.State(), minSdk);
      Assign(primed.0);
      go := primed.1;
    }

    /** One `send((path, node))` to the primed coroutine. */
    method Receive(filePath: Option<string>, node: JNode)
      requires IsCoroutine(kind)
      modifies this
      ensures Current() == Received(old(Current()), filePath, node)
    {
      Assign(kind.stream.receive(Current().value, filePath, node));
    }

    method Finalize()
      requires HasFinalize(kind)
      modifies this
      ensures Current() == Finalized(old(Current()))
    {
      Assign(kind.stream.finalize.value(Current().value));
    }

    /** `run` of a manifest rule, after the scanner set `all_files`. */
    method RunManifest(manifest: ManifestState, allFiles: seq<string>, parsed: string -> Option<Tree>)
      requires !IsObserver(kind)
      modifies this
      ensures Current() == ManifestRan(old(Current()), manifest.Value(), allFiles, parsed)
    {
      Assign(kind.run(Current().value, manifest.Value(), allFiles, parsed));
    }
  }

  // ---------------------------------------------------------------------
  // Properties.

  /** A node-stream rule reports nothing from `update`; it only reports through the stream. */
  lemma CoroutinesSilentOnUpdate(x: Slot, s: FileState)
    requires IsCoroutine(x.kind)
    ensures Updated(x, s) == x
  {
  }

  /** Issues are only ever appended: streaming a file keeps the old list as a prefix. */
  lemma StreamKeepsIssues(x: Slot, s: FileState, minSdk: int)
    requires IsCoroutine(x.kind) ==> KnownStream(x.kind)
    ensures var r := Streamed(x, s, minSdk);
      |x.value.issues| <= |r.value.issues| && r.value.issues[..|x.value.issues|] == x.value.issues
  {
    if IsCoroutine(x.kind) && s.ast.Some? {
      var (y, go) := Primed(x, s, minSdk);
      if go {
        ReceivedAllKeepsIssues(y, s.filePath, Nodes(s.ast.value));
      }
    }
  }

  lemma {:induction false} ReceivedAllKeepsIssues(x: Slot, filePath: Option<string>, nodes: seq<JNode>)
    requires KnownStream(x.kind)
    ensures var r := ReceivedAll(x, filePath, nodes);
      |x.value.issues| <= |r.value.issues| && r.value.issues[..|x.value.issues|] == x.value.issues
  {
    if nodes != [] {
      var mid := ReceivedAll(x, filePath, nodes[..|nodes| - 1]);
      ReceivedAllKeepsIssues(x, filePath, nodes[..|nodes| - 1]);
      var r := Received(mid, filePath, nodes[|nodes| - 1]);
      assert r.value.issues[..|mid.value.issues|] == mid.value.issues;
    }
  }

  /** The dynamic-receiver rule reports, node by node, exactly what each node gives. */
  lemma {:induction false} DynamicStreamPerNode(x: Slot, filePath: Option<string>, nodes: seq<JNode>)
    requires x.kind == DynamicReceiverRule
    ensures ReceivedAll(x, filePath, nodes).value.issues == x.value.issues + DynamicIssues(filePath, nodes)
  {
    if nodes != [] {
      DynamicStreamPerNode(x, filePath, nodes[..|nodes| - 1]);
    }
  }

  function DynamicIssues(filePath: Option<string>, nodes: seq<JNode>): seq<Issue> {
    if nodes == [] then []
    else DynamicIssues(filePath, nodes[..|nodes| - 1]) + DynamicReceiver.Receive(filePath, nodes[|nodes| - 1])
  }

  /** The logging rule reports nothing while streaming; it only records, and its table stays well formed. */
  lemma {:induction false} LoggingStreamSilent(x: Slot, filePath: Option<string>, nodes: seq<JNode>)
    requires x.kind == AndroidLoggingRule && SlotValid(x)
    ensures var r := ReceivedAll(x, filePath, nodes);
      r.value.issues == x.value.issues && SlotValid(r)
  {
    if nodes != [] {
      LoggingStreamSilent(x, filePath, nodes[..|nodes| - 1]);
    }
  }

  /** The broadcast rule streams nothing when its pre-check fails, but its fields are still set. */
  lemma BroadcastPreCheckGates(x: Slot, s: FileState, minSdk: int)
    requires x.kind == SendBroadcastRule && Coherent(s) && s.ast.Some?
    requires !SendBroadcast.PreCheck(s.contents.value)
    ensures var r := Streamed(x, s, minSdk);
      r.value.issues == x.value.issues &&
      r.value.broadcast == SendBroadcast.Prepare(minSdk, s.filePath, s.ast.value.imports)
  {
  }

  /** The broadcast rule's issues for a run of nodes, each node judged with the same prepared fields. */
  function BroadcastIssues(st: SendBroadcast.BroadcastState, nodes: seq<JNode>): seq<Issue> {
    if nodes == [] then []
    else BroadcastIssues(st, nodes[..|nodes| - 1]) + SendBroadcast.Receive(st, nodes[|nodes| - 1])
  }

  /** Feeding nodes to the broadcast rule keeps its fields and appends each node's issues in walk order. */
  lemma {:induction false} BroadcastReceivedAll(x: Slot, filePath: Option<string>, nodes: seq<JNode>)
    requires x.kind == SendBroadcastRule
    ensures var r := ReceivedAll(x, filePath, nodes);
      r.value.broadcast == x.value.broadcast &&
      r.value.issues == x.value.issues + BroadcastIssues(x.value.broadcast, nodes)
  {
    if nodes != [] {
      BroadcastReceivedAll(x, filePath, nodes[..|nodes| - 1]);
    }
  }

  /**
   * A file with a tree primes the broadcast rule with the manifest's minSdk,
   * the file and its imports; the rule then reports, node by node, what each
   * node gives under those fields exactly when the text names a broadcast
   * method, and nothing otherwise.
   */
  lemma BroadcastStreamPerNode(x: Slot, s: FileState, minSdk: int)
    requires x.kind == SendBroadcastRule && s.ast.Some? && s.contents.Some?
    ensures var st := SendBroadcast.Prepare(minSdk, s.filePath, s.ast.value.imports);
      var r := Streamed(x, s, minSdk);
      r.value.broadcast == st &&
      r.value.issues == x.value.issues +
        (if SendBroadcast.PreCheck(s.contents.value) then BroadcastIssues(st, Nodes(s.ast.value)) else [])
  {
    var (y, go) := Primed(x, s, minSdk);
    if go {
      BroadcastReceivedAll(y, s.filePath, Nodes(s.ast.value));
    }
  }

  /** Without a tree, nothing is streamed: no rule changes. */
  lemma NoTreeNoStream(x: Slot, s: FileState, minSdk: int)
    requires s.ast.None?
    ensures Streamed(x, s, minSdk) == x
  {
  }

  /** A manifest that did not parse gives no issue from either manifest rule. */
  lemma UnparsedManifestSilent(x: Slot, m: ManifestValue, allFiles: seq<string>, parsed: string -> Option<Tree>)
    requires (x.kind == CustomPermissionsRule || x.kind == ExportedTagsRule) && m.xml.None?
    ensures ManifestRan(x, m, allFiles, parsed) == x
  {
  }

  /** Of this model's rules only the logging rule changes at `finalize`, and only when it recorded something. */
  lemma FinalizeOnlyWithLogs(x: Slot)
    requires KnownStream(x.kind) && SlotValid(x)
    ensures !HasFinalize(x.kind) || x.value.logs.files == [] ==> Finalized(x) == x
    ensures HasFinalize(x.kind) && x.value.logs.files != [] ==> |Finalized(x).value.issues| == |x.value.issues| + 1
  {
  }
}
