/**
 * plugins/broadcast/dynamic_broadcast_receiver.py: a node-stream rule
 * classifying `registerReceiver(...)` calls by their permission argument.
 * The rule has no state of its own besides its issue list; the file it
 * names is the shared current path at the time the node is streamed.
 */
module DynamicReceiver {
  import opened Wrappers
  import opened Text
  import opened Findings
  import opened JavaAst

  const RuleName: string := "Dynamic broadcast receiver found"
  const StandardId: string := "MSTG-PLATFORM-10"
  const NoPermission: Description := Named("DESCRIPTION_NO_PERMISSION")
  const WeakPermission: Description := Named("DESCRIPTION_WEAK_PERMISSION")

  /** A permission the code treats as a system or broadcast permission. */
  predicate SystemLike(value: string) {
    StartsWith(value, "android.permission.") || Contains(Upper(value), "BROADCAST")
  }

  /**
   * The message and severity for one node, or None when the node gives no
   * issue: fewer than three arguments, or a third argument spelled `null` or
   * `None`, is a missing permission; a third argument with a value is
   * otherwise a weak permission; a third argument without a value gives nothing.
   * Only literals carry a value here: javalang's `Assignment` also has a
   * `value`, and an assignment used as the third argument is not modelled.
   */
  function Classify(node: JNode): Option<(Description, Severity)> {
    if !node.Invocation? || node.member != "registerReceiver" then None
    else if |node.arguments| < 3 then Some((NoPermission, Vulnerability))
    else
      var permission := node.arguments[2];
      if !permission.Literal? then None
      else if permission.value == "null" || permission.value == "None" then Some((NoPermission, Vulnerability))
      else if SystemLike(permission.value) then Some((WeakPermission, Info))
      else Some((WeakPermission, Warning))
  }

  /** What one streamed node appends to the rule's issues (`_add_issue`). */
  function Receive(filePath: Option<string>, node: JNode): (r: seq<Issue>)
    ensures |r| <= 1
    ensures r != [] <==> Classify(node).Some?
    ensures r != [] ==>
      r[0].name == RuleName && r[0].category == "broadcast" && r[0].fileObject == filePath &&
      r[0].lineNumber == PositionOf(node) && r[0].standardId == Some(StandardId) &&
      (r[0].description, r[0].severity) == Classify(node).value
  {
    match Classify(node)
    case None => []
    case Some((description, severity)) =>
      [NewIssue("broadcast", RuleName, Member(severity), description, PositionOf(node), filePath, None,
                Some(StandardId), Some(Named("STANDARD_DESCRIPTION")), None)]
  }

  // ---------------------------------------------------------------------
  // Properties.

  /** Only `registerReceiver` calls are ever reported. */
  lemma OtherNodesIgnored(filePath: Option<string>, node: JNode)
    requires !node.Invocation? || node.member != "registerReceiver"
    ensures Receive(filePath, node) == []
  {
  }

  /** Fewer than three arguments: a vulnerability, for lack of a permission. */
  lemma FewArgumentsVulnerable(filePath: Option<string>, node: JNode)
    requires node.Invocation? && node.member == "registerReceiver" && |node.arguments| < 3
    ensures |Receive(filePath, node)| == 1
    ensures Receive(filePath, node)[0].severity == Vulnerability
    ensures Receive(filePath, node)[0].description == NoPermission
  {
  }

  /**
   * With a third argument that has a value: `null`/`None` is a
   * vulnerability; a system-like permission is INFO; anything else is a
   * WARNING; always exactly one issue.
   */
  lemma ThirdArgumentClassified(filePath: Option<string>, node: JNode)
    requires node.Invocation? && node.member == "registerReceiver" && |node.arguments| >= 3
    requires node.arguments[2].Literal?
    ensures var r := Receive(filePath, node); var v := node.arguments[2].value;
      |r| == 1 &&
      (v == "null" || v == "None" ==> r[0].severity == Vulnerability && r[0].description == NoPermission) &&
      (v != "null" && v != "None" && SystemLike(v) ==> r[0].severity == Info && r[0].description == WeakPermission) &&
      (v != "null" && v != "None" && !SystemLike(v) ==> r[0].severity == Warning && r[0].description == WeakPermission)
  {
  }

  /** A third argument that is not a literal (a variable, a field, a call) gives nothing. */
  lemma ValuelessThirdArgumentIgnored(filePath: Option<string>, node: JNode)
    requires node.Invocation? && |node.arguments| >= 3 && !node.arguments[2].Literal?
    ensures Receive(filePath, node) == []
  {
  }

  /** "BROADCAST" is found in any letter case. */
  lemma BroadcastInAnyCase(value: string, i: int)
    requires 0 <= i && i + 9 <= |value| && Upper(value[i..i + 9]) == "BROADCAST"
    ensures SystemLike(value)
  {
    var u := Upper(value);
    assert u[i..i + 9] == Upper(value[i..i + 9]);
    assert OccursAt(u, "BROADCAST", i);
  }

  /**
   * The parser keeps the quotes of a string literal in its value, so a
   * quoted permission name is never taken for an `android.permission.`
   * prefix: it is INFO only when it mentions BROADCAST.
   */
  lemma QuotedPermissionNeedsBroadcast(filePath: Option<string>, node: JNode)
    requires node.Invocation? && node.member == "registerReceiver" && |node.arguments| >= 3
    requires node.arguments[2].Literal?
    requires var v := node.arguments[2].value; |v| >= 2 && v[0] == '"'
    ensures var r := Receive(filePath, node);
      |r| == 1 && (r[0].severity == Info <==> Contains(Upper(node.arguments[2].value), "BROADCAST"))
  {
    var v := node.arguments[2].value;
    assert v != "null" && v != "None";
    assert !StartsWith(v, "android.permission.");
  }
}
