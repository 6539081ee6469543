/**
 * plugins/broadcast/send_broadcast_receiver_permission.py: a node-stream rule
 * flagging broadcasts sent without a receiver permission, sticky broadcasts,
 * and `setPackage(null)`.
 *
 * The rule's own fields (`below_min_sdk_21`, `current_file`,
 * `_local_broadcast_cached`) are the `BroadcastState` value; the plugin
 * object holding it lives in the Rules module. Each function here gives the
 * issues one node appends to the rule's list.
 */
module SendBroadcast {
  import opened Wrappers
  import opened Text
  import opened Findings
  import opened JavaAst

  const BroadcastMethods: seq<string> := [
    "sendBroadcast",
    "sendBroadcastAsUser",
    "sendOrderedBroadcast",
    "sendOrderedBroadcastAsUser",
    "sendStickyBroadcast",
    "sendStickyBroadcastAsUser",
    "sendStickyOrderedBroadcast",
    "sendStickyOrderedBroadcastAsUser"
  ]

  /** The last four broadcast methods. */
  const StickyBroadcastMethods: seq<string> := BroadcastMethods[4..]

  const LocalBroadcastImports: seq<string> := [
    "android.support.v4.content.LocalBroadcastManager",
    "android.support.v4.content.*",
    "android.support.v4.*",
    "android.support.*",
    "android.*"
  ]

  const StandardId: string := "MSTG-PLATFORM-10"
  const StandardDescription: Description := Named("STANDARD_DESCRIPTION")

  /** The two handlers `BROADCAST_HANDLERS` dispatches to. */
  datatype Handler = SendHandler | StickyHandler

  const BroadcastHandlers: map<string, Handler> := map[
    "sendBroadcast" := SendHandler,
    "sendBroadcastAsUser" := SendHandler,
    "sendOrderedBroadcast" := SendHandler,
    "sendOrderedBroadcastAsUser" := SendHandler,
    "sendStickyBroadcast" := StickyHandler,
    "sendStickyBroadcastAsUser" := StickyHandler,
    "sendStickyOrderedBroadcast" := StickyHandler,
    "sendStickyOrderedBroadcastAsUser" := StickyHandler
  ]

  /** `DESCRIPTIONS[key].format(broadcast_type=broadcastType)`. */
  function Described(key: string, broadcastType: string): Description {
    Template(key, [broadcastType])
  }

  /** The fields `can_run_coroutine` sets before a file's nodes are streamed. */
  datatype BroadcastState = BroadcastState(belowMinSdk21: bool, currentFile: Option<string>, localBroadcastCached: bool)

  /** The fields as `__init__` leaves them (`_local_broadcast_cached` None, which tests false). */
  const InitialState: BroadcastState := BroadcastState(false, None, false)

  /** `has_local_broadcast_imported_cached`: some import path is one of the local-broadcast imports. */
  predicate HasLocalBroadcastImport(imports: seq<string>) {
    exists i :: 0 <= i < |imports| && imports[i] in LocalBroadcastImports
  }

  /** The fields `can_run_coroutine` sets, from the manifest's minSdk, the file path and the imports. */
  function Prepare(minSdk: int, filePath: Option<string>, imports: seq<string>): (st: BroadcastState)
    ensures st.belowMinSdk21 <==> minSdk < 21
    ensures st.currentFile == filePath
    ensures st.localBroadcastCached <==> exists i :: 0 <= i < |imports| && imports[i] in LocalBroadcastImports
  {
    BroadcastState(minSdk < 21, filePath, HasLocalBroadcastImport(imports))
  }

  /** The pre-check's search: one of the broadcast method names occurs in the file's text. */
  predicate PreCheck(contents: string) {
    exists k :: 0 <= k < |BroadcastMethods| && Contains(contents, BroadcastMethods[k])
  }

  /** `_add_issue`: category "broadcast", the current file and the platform standard. */
  function BroadcastIssue(st: BroadcastState, name: string, description: Description, severity: Severity,
                          line: Option<Position>): (i: Issue)
    ensures i.category == "broadcast" && i.fileObject == st.currentFile && i.lineNumber == line
    ensures i.standardId == Some(StandardId) && i.owaspRefs == []
    ensures i.name == name && i.description == description && i.severity == severity
  {
    NewIssue("broadcast", name, Member(severity), description, line, st.currentFile, None,
             Some(StandardId), Some(StandardDescription), None)
  }

  /** `handler_send_broadcast`. */
  function SendIssues(st: BroadcastState, numArgs: nat, methodName: string, position: Option<Position>): seq<Issue> {
    if st.localBroadcastCached then []
    else if numArgs == 1 then
      [BroadcastIssue(st, "Broadcast without receiverPermission", Described("without_receiver", methodName),
                      Vulnerability, position)]
    else if numArgs >= 2 then
      var key := if st.belowMinSdk21 then "with_receiver_under_21" else "with_receiver";
      [BroadcastIssue(st, "Broadcast with receiverPermission", Described(key, methodName), Warning, position)]
    else []
  }

  /** `handler_sticky`. */
  function StickyIssues(st: BroadcastState, methodName: string, position: Option<Position>): seq<Issue> {
    [BroadcastIssue(st, "Sticky broadcast usage", Described("sticky", methodName), Vulnerability, position)]
  }

  /** `_check_method_invocation`: the handler the table names for the call, if any. */
  function InvocationIssues(st: BroadcastState, node: JNode): (r: seq<Issue>)
    requires node.Invocation?
    ensures |r| <= 1
    ensures forall i :: i in r ==> IsBroadcastIssue(i, st, node)
  {
    if node.member !in BroadcastHandlers then []
    else match BroadcastHandlers[node.member]
      case SendHandler => SendIssues(st, |node.arguments|, node.member, node.position)
      case StickyHandler => StickyIssues(st, node.member, node.position)
  }

  /** An argument with a `value` attribute equal to "null". */
  predicate NullValued(arg: JNode) {
    arg.Literal? && arg.value == "null"
  }

  /** The `setPackage(null)` check. */
  function SetPackageIssues(st: BroadcastState, node: JNode): (r: seq<Issue>)
    requires node.Invocation?
    ensures |r| <= 1
    ensures forall i :: i in r ==> IsBroadcastIssue(i, st, node)
    ensures r != [] <==> node.member == "setPackage" && exists k :: 0 <= k < |node.arguments| && NullValued(node.arguments[k])
  {
    if node.member == "setPackage" && exists k :: 0 <= k < |node.arguments| && NullValued(node.arguments[k]) then
      [BroadcastIssue(st, "Intent.setPackage(null) detected", Described("intent_set_package_null", "Intent.setPackage"), Warning,
                      node.position)]
    else []
  }

  /**
   * What one streamed node appends to the rule's issues: the handler's
   * issues, then the setPackage check's. The table never names
   * `setPackage`, so at most one of the two fires: a call the table names
   * gives only its handler's issues, any other call only the setPackage
   * check's.
   */
  function Receive(st: BroadcastState, node: JNode): (r: seq<Issue>)
    ensures !node.Invocation? ==> r == []
    ensures node.Invocation? && node.member in BroadcastHandlers ==> r == InvocationIssues(st, node)
    ensures node.Invocation? && node.member !in BroadcastHandlers ==> r == SetPackageIssues(st, node)
    ensures |r| <= 1
  {
    assert "setPackage" !in BroadcastHandlers;
    if node.Invocation? then InvocationIssues(st, node) + SetPackageIssues(st, node) else []
  }

  // ---------------------------------------------------------------------
  // Properties.

  /** An issue of this rule for `node`: the current file, the node's position and the platform standard. */
  predicate IsBroadcastIssue(i: Issue, st: BroadcastState, node: JNode) {
    i.category == "broadcast" && i.fileObject == st.currentFile && i.standardId == Some(StandardId) &&
    i.owaspRefs == [] && i.lineNumber == PositionOf(node)
  }

  /** Every issue the rule appends names the current file, the node's position and the platform standard. */
  lemma ReceivedIssuesShape(st: BroadcastState, node: JNode)
    ensures forall i :: i in Receive(st, node) ==> IsBroadcastIssue(i, st, node)
  {
    if node.Invocation? {
      var a := InvocationIssues(st, node);
      var b := SetPackageIssues(st, node);
      assert Receive(st, node) == a + b;
      assert forall i :: i in a + b ==> i in a || i in b;
    }
  }

  /** The table maps exactly the eight broadcast methods: the first four to the send handler, the rest to the sticky one. */
  lemma HandlerTable()
    ensures forall m :: m in BroadcastHandlers <==> m in BroadcastMethods
    ensures forall k :: 0 <= k < 4 ==> BroadcastHandlers[BroadcastMethods[k]] == SendHandler
    ensures forall m :: m in StickyBroadcastMethods ==> m in BroadcastHandlers && BroadcastHandlers[m] == StickyHandler
  {
  }

  lemma HandlerTableSize()
    ensures |BroadcastHandlers| == 8
  {
    var send := {"sendBroadcast", "sendBroadcastAsUser", "sendOrderedBroadcast", "sendOrderedBroadcastAsUser"};
    var sticky := {"sendStickyBroadcast", "sendStickyBroadcastAsUser", "sendStickyOrderedBroadcast",
                   "sendStickyOrderedBroadcastAsUser"};
    assert |send| == 4;
    assert |sticky| == 4;
    assert send !! sticky;
    assert BroadcastHandlers.Keys == send + sticky;
  }

  /** With a local-broadcast import, non-sticky sends give nothing, whatever their arguments. */
  lemma LocalImportSuppressesSends(st: BroadcastState, node: JNode)
    requires st.localBroadcastCached
    requires node.Invocation? && node.member in BroadcastHandlers && BroadcastHandlers[node.member] == SendHandler
    ensures InvocationIssues(st, node) == []
  {
  }

  /** A non-sticky send with exactly one argument is a vulnerability; with none, nothing is reported. */
  lemma SendArgumentCount(st: BroadcastState, node: JNode)
    requires !st.localBroadcastCached
    requires node.Invocation? && node.member in BroadcastHandlers && BroadcastHandlers[node.member] == SendHandler
    ensures |node.arguments| == 0 ==> InvocationIssues(st, node) == []
    ensures |node.arguments| == 1 ==>
      |InvocationIssues(st, node)| == 1 && InvocationIssues(st, node)[0].severity == Vulnerability &&
      InvocationIssues(st, node)[0].name == "Broadcast without receiverPermission" &&
      InvocationIssues(st, node)[0].lineNumber == node.position
  {
  }

  /**
   * A non-sticky send with two or more arguments is a warning, and its text
   * is the under-21 one exactly when the manifest's minSdk is below 21.
   */
  lemma SendWithPermission(minSdk: int, filePath: Option<string>, imports: seq<string>, node: JNode)
    requires !HasLocalBroadcastImport(imports)
    requires node.Invocation? && node.member in BroadcastHandlers && BroadcastHandlers[node.member] == SendHandler
    requires |node.arguments| >= 2
    ensures var r := InvocationIssues(Prepare(minSdk, filePath, imports), node);
      |r| == 1 && r[0].severity == Warning && r[0].name == "Broadcast with receiverPermission" &&
      r[0].description == Described(if minSdk < 21 then "with_receiver_under_21" else "with_receiver", node.member)
  {
  }

  /** A sticky method always gives one vulnerability, whether or not a local-broadcast import is present. */
  lemma StickyAlwaysReported(st: BroadcastState, node: JNode)
    requires node.Invocation? && node.member in StickyBroadcastMethods
    ensures var r := InvocationIssues(st, node);
      |r| == 1 && r[0].severity == Vulnerability && r[0].name == "Sticky broadcast usage" &&
      r[0].description == Described("sticky", node.member)
  {
    HandlerTable();
  }

  /** A `setPackage` call with a null literal argument gives one warning. */
  lemma SetPackageNullReported(st: BroadcastState, node: JNode, k: int)
    requires node.Invocation? && node.member == "setPackage"
    requires 0 <= k < |node.arguments| && node.arguments[k] == Literal("null")
    ensures Receive(st, node) ==
      [BroadcastIssue(st, "Intent.setPackage(null) detected", Described("intent_set_package_null", "Intent.setPackage"), Warning,
                      node.position)]
  {
    assert NullValued(node.arguments[k]);
  }

  /** A `setPackage` call none of whose arguments is the literal `null` gives nothing. */
  lemma SetPackageWithoutNullSilent(st: BroadcastState, node: JNode)
    requires node.Invocation? && node.member == "setPackage"
    requires forall k :: 0 <= k < |node.arguments| ==> node.arguments[k] != Literal("null")
    ensures Receive(st, node) == []
  {
  }

  /** A call the table does not name, other than `setPackage`, gives nothing. */
  lemma OtherCallsIgnored(st: BroadcastState, node: JNode)
    requires node.Invocation? && node.member !in BroadcastHandlers && node.member != "setPackage"
    ensures Receive(st, node) == []
  {
  }
}
