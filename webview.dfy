/**
 * plugins/webview/helpers.py: finding WebViews on which a setting method was
 * never called with `false`. Each method declaration is walked with a fresh
 * dictionary from variable name to WebView declaration; a `getSettings()`
 * call chain or a direct call with the literal `false` stops tracking the
 * named WebView; every WebView still tracked at the end of the method gives
 * one issue.
 *
 * Declarations are compared by structural equality here, where javalang
 * compares nodes by identity (its `Node` defines no `__eq__`). The two agree
 * on every dictionary the walk builds: a declaration is stored under each of
 * its declarators' names, so two equal declarations carry the same names, and
 * the later one replaces the earlier under every one of them. No two live
 * entries ever hold equal but distinct declarations.
 */
module WebView {
  import opened Wrappers
  import opened Findings
  import opened JavaAst
  import opened PluginHelpers

  /**
   * `valid_set_method_bool(node, strBool, methodName)`. None stands for the
   * AttributeError raised when the node has no `arguments` (a selector that
   * is not a method call).
   */
  function ValidSetMethodBool(node: JNode, strBool: string, methodName: string): (r: Option<bool>)
    ensures node.Invocation? <==> r.Some?
    ensures node.Invocation? && (node.arguments == [] || !node.arguments[0].Literal?) ==> r == Some(false)
    ensures r == Some(true) <==>
      ValidMethodInvocation(node, methodName, 1) && node.arguments[0].Literal? && node.arguments[0].value == strBool
  {
    if !node.Invocation? then None
    else if node.arguments == [] || !node.arguments[0].Literal? then Some(false)
    else Some(ValidMethodInvocation(node, methodName, 1) && node.arguments[0].value == strBool)
  }

  /** `names`, in order, each mapped to `decl`, over `webviews`. */
  function AddNames(webviews: map<string, JNode>, names: seq<string>, decl: JNode): map<string, JNode> {
    if names == [] then webviews else AddNames(webviews, names[..|names| - 1], decl)[names[|names| - 1] := decl]
  }

  lemma {:induction false} AddNamesContents(webviews: map<string, JNode>, names: seq<string>, decl: JNode)
    ensures forall d :: d in AddNames(webviews, names, decl) <==> d in webviews || d in names
    ensures forall d :: d in AddNames(webviews, names, decl) ==>
      AddNames(webviews, names, decl)[d] == if d in names then decl else webviews[d]
  {
    if names != [] {
      var init := names[..|names| - 1];
      AddNamesContents(webviews, init, decl);
      assert forall d :: d in names <==> d in init || d == names[|names| - 1];
    }
  }

  /** What `add_webview_to_dict` returns: every declarator mapped to the declaration, when the type matches. */
  function WithDeclarators(webviews: map<string, JNode>, decl: JNode, javaType: string): map<string, JNode>
    requires decl.VarDecl?
  {
    if decl.typeName == javaType then AddNames(webviews, decl.declarators, decl) else webviews
  }

  /**
   * `add_webview_to_dict`: a copy of `webviews` with each declarator of a
   * declaration of type `javaType` mapped to the declaration, and every other
   * entry as it was. The argument is a value, so the caller's dictionary is
   * untouched.
   */
  method AddWebViewToDict(webviews: map<string, JNode>, decl: JNode, javaType: string)
    returns (updated: map<string, JNode>)
    requires decl.VarDecl?
    ensures updated == WithDeclarators(webviews, decl, javaType)
    ensures decl.typeName == javaType ==>
      (forall d :: d in updated <==> d in webviews || d in decl.declarators) &&
      (forall d :: d in updated ==> updated[d] == if d in decl.declarators then decl else webviews[d])
    ensures decl.typeName != javaType ==> updated == webviews
  {
    updated := webviews;
    if decl.typeName == javaType {
      var names := decl.declarators;
      var i := 0;
      while i < |names|
        invariant 0 <= i <= |names|
        invariant updated == AddNames(webviews, names[..i], decl)
      {
        assert names[..i + 1][..i] == names[..i];
        updated := updated[names[i] := decl];
        i := i + 1;
      }
      assert names[..i] == names;
      AddNamesContents(webviews, names, decl);
    }
  }

  /** The tracking state while one method declaration is walked. */
  datatype Tracking = Tracking(webviews: map<string, JNode>, name: Option<string>)

  /** `if webviews.get(name): webviews = remove_dict_entry_by_value(webviews, name)`. */
  function Untrack(webviews: map<string, JNode>, name: Option<string>): map<string, JNode> {
    if name.Some? && name.value in webviews then RemoveDictEntryByValue(webviews, name.value) else webviews
  }

  /** The loop over the selectors of a `getSettings()` call; None when a selector raises. */
  function SelectorsStep(webviews: map<string, JNode>, name: Option<string>, sels: seq<JNode>, methodName: string)
    : Option<map<string, JNode>>
  {
    if sels == [] then Some(webviews)
    else match SelectorsStep(webviews, name, sels[..|sels| - 1], methodName)
      case None => None
      case Some(w) =>
        match ValidSetMethodBool(sels[|sels| - 1], "false", methodName)
        case None => None
        case Some(b) => Some(if b then Untrack(w, name) else w)
  }

  /** One node of the walk of a method declaration. */
  function NodeStep(t: Tracking, n: JNode, methodName: string): Option<Tracking> {
    match n
    case VarDecl(_, _, _, _) => Some(t.(webviews := WithDeclarators(t.webviews, n, "WebView")))
    case Invocation(q, member, _, sels, _) =>
      if member == "getSettings" && sels != [] then
        match SelectorsStep(t.webviews, Some(q), sels, methodName)
        case None => None
        case Some(w) => Some(Tracking(w, Some(q)))
      else if ValidSetMethodBool(n, "false", methodName) == Some(true) then
        Some(t.(webviews := Untrack(t.webviews, t.name)))
      else Some(t)
    case _ => Some(t)
  }

  /** The state after walking `nodes`, starting from an empty dictionary and no name. */
  function Track(nodes: seq<JNode>, methodName: string): Option<Tracking> {
    if nodes == [] then Some(Tracking(map[], None))
    else match Track(nodes[..|nodes| - 1], methodName)
      case None => None
      case Some(t) => NodeStep(t, nodes[|nodes| - 1], methodName)
  }

  /** The distinct members of `tracked` in the order the walk meets them. */
  function Listing(nodes: seq<JNode>, tracked: set<JNode>): (r: seq<JNode>)
    ensures forall i, j :: 0 <= i < j < |r| ==> r[i] != r[j]
    ensures forall n :: n in r <==> n in nodes && n in tracked
  {
    if nodes == [] then []
    else
      var init := Listing(nodes[..|nodes| - 1], tracked);
      var n := nodes[|nodes| - 1];
      assert forall x :: x in nodes <==> x in nodes[..|nodes| - 1] || x == n;
      if n in tracked && n !in init then init + [n] else init
  }

  function Values(webviews: map<string, JNode>): set<JNode> {
    set k | k in webviews :: webviews[k]
  }

  /** The issue for one WebView still tracked at the end of its method. */
  function WebViewIssue(w: JNode, issueName: string, description: string, fileObject: Option<string>, severity: Severity)
    : Issue
  {
    NewIssue("webview", issueName, Member(severity), Text(description), PositionOf(w), fileObject, None, None, None, None)
  }

  /** Every tracked declaration is a `WebView` declaration met in the walk. */
  ghost predicate TrackedFrom(t: Tracking, nodes: seq<JNode>) {
    forall k :: k in t.webviews ==>
      t.webviews[k] in nodes && t.webviews[k].VarDecl? && t.webviews[k].typeName == "WebView"
  }

  lemma {:induction false} TrackIsFromWalk(nodes: seq<JNode>, methodName: string)
    requires Track(nodes, methodName).Some?
    ensures TrackedFrom(Track(nodes, methodName).value, nodes)
  {
    if nodes != [] {
      var init := nodes[..|nodes| - 1];
      var n := nodes[|nodes| - 1];
      TrackIsFromWalk(init, methodName);
      var t := Track(init, methodName).value;
      var t' := Track(nodes, methodName).value;
      assert forall x :: x in init ==> x in nodes;
      forall k | k in t'.webviews
        ensures t'.webviews[k] in nodes && t'.webviews[k].VarDecl? && t'.webviews[k].typeName == "WebView"
      {
        if n.VarDecl? && n.typeName == "WebView" {
          AddNamesContents(t.webviews, n.declarators, n);
        } else if n.Invocation? && n.member == "getSettings" && n.selectors != [] {
          SelectorsShrink(t.webviews, Some(n.qualifier), n.selectors, methodName);
        } else {
          assert k in t.webviews && t'.webviews[k] == t.webviews[k];
        }
      }
    }
  }

  lemma {:induction false} SelectorsShrink(w: map<string, JNode>, name: Option<string>, sels: seq<JNode>, methodName: string)
    requires SelectorsStep(w, name, sels, methodName).Some?
    ensures forall k :: k in SelectorsStep(w, name, sels, methodName).value ==>
      k in w && SelectorsStep(w, name, sels, methodName).value[k] == w[k]
  {
    if sels != [] {
      SelectorsShrink(w, name, sels[..|sels| - 1], methodName);
    }
  }

  /**
   * The issues for one method declaration, or None when the walk raises:
   * one issue per WebView still tracked at its end.
   */
  function MethodReport(md: JNode, methodName: string, issueName: string, description: string,
                        fileObject: Option<string>, severity: Severity): Option<seq<Issue>>
  {
    match Track(MethodNodes(md), methodName)
    case None => None
    case Some(t) =>
      Some(IssuesOf(Listing(MethodNodes(md), Values(t.webviews)), issueName, description, fileObject, severity))
  }

  /** `webview_default_vulnerable` over the method declarations `decls`; None when any of them raises. */
  function ReportAll(decls: seq<JNode>, methodName: string, issueName: string, description: string,
                     fileObject: Option<string>, severity: Severity): Option<seq<Issue>>
  {
    if decls == [] then Some([])
    else match ReportAll(decls[..|decls| - 1], methodName, issueName, description, fileObject, severity)
      case None => None
      case Some(a) =>
        match MethodReport(decls[|decls| - 1], methodName, issueName, description, fileObject, severity)
        case None => None
        case Some(b) => Some(a + b)
  }

  /** One node of the walk, with the loop over a `getSettings()` call's selectors. */
  method VisitNode(t: Tracking, n: JNode, methodName: string) returns (r: Option<Tracking>)
    ensures r == NodeStep(t, n, methodName)
  {
    match n
    case VarDecl(_, _, _, _) =>
      var w := AddWebViewToDict(t.webviews, n, "WebView");
      r := Some(t.(webviews := w));
    case Invocation(q, member, _, sels, _) =>
      if member == "getSettings" && sels != [] {
        var w := t.webviews;
        var i := 0;
        while i < |sels|
          invariant 0 <= i <= |sels|
          invariant SelectorsStep(t.webviews, Some(q), sels[..i], methodName) == Some(w)
        {
          assert sels[..i + 1][..i] == sels[..i];
          var b := ValidSetMethodBool(sels[i], "false", methodName);
          if b.None? {
            SelectorsFailureSticks(t.webviews, Some(q), sels, i + 1, methodName);
            return None;
          }
          if b.value {
            w := Untrack(w, Some(q));
          }
          i := i + 1;
        }
        assert sels[..i] == sels;
        r := Some(Tracking(w, Some(q)));
      } else if ValidSetMethodBool(n, "false", methodName) == Some(true) {
        r := Some(t.(webviews := Untrack(t.webviews, t.name)));
      } else {
        r := Some(t);
      }
    case _ =>
      r := Some(t);
  }

  /** The walk of one method declaration, starting from an empty dictionary; None when it raises. */
  method TrackMethod(md: JNode, methodName: string) returns (r: Option<Tracking>)
    ensures r == Track(MethodNodes(md), methodName)
  {
    var nodes := MethodNodes(md);
    var t := Tracking(map[], None);
    var j := 0;
    while j < |nodes|
      invariant 0 <= j <= |nodes|
      invariant Track(nodes[..j], methodName) == Some(t)
    {
      assert nodes[..j + 1][..j] == nodes[..j];
      var step := VisitNode(t, nodes[j], methodName);
      if step.None? {
        TrackFailureSticks(nodes, j + 1, methodName);
        return None;
      }
      t := step.value;
      j := j + 1;
    }
    assert nodes[..j] == nodes;
    r := Some(t);
  }

  /** One issue per WebView of `ws`, in order. */
  function IssuesOf(ws: seq<JNode>, issueName: string, description: string, fileObject: Option<string>,
                    severity: Severity): seq<Issue>
  {
    seq(|ws|, i requires 0 <= i < |ws| => WebViewIssue(ws[i], issueName, description, fileObject, severity))
  }

  /** The loop creating the issues for the WebViews `ws`. */
  method IssuesFor(ws: seq<JNode>, issueName: string, description: string, fileObject: Option<string>,
                   severity: Severity) returns (found: seq<Issue>)
    ensures found == IssuesOf(ws, issueName, description, fileObject, severity)
  {
    found := [];
    var k := 0;
    while k < |ws|
      invariant 0 <= k <= |ws|
      invariant found == seq(k, x requires 0 <= x < k => WebViewIssue(ws[x], issueName, description, fileObject, severity))
    {
      found := found + [WebViewIssue(ws[k], issueName, description, fileObject, severity)];
      k := k + 1;
    }
  }

  /** The body of the loop over method declarations: the walk, then one issue per remaining WebView. */
  method MethodIssues(md: JNode, methodName: string, issueName: string, description: string,
                      fileObject: Option<string>, severity: Severity) returns (r: Option<seq<Issue>>)
    ensures r == MethodReport(md, methodName, issueName, description, fileObject, severity)
  {
    var t := TrackMethod(md, methodName);
    if t.None? {
      return None;
    }
    var ws := Listing(MethodNodes(md), Values(t.value.webviews));
    var found := IssuesFor(ws, issueName, description, fileObject, severity);
    r := Some(found);
  }

  /**
   * `webview_default_vulnerable(tree, ...)`: None when it raises. Python
   * lists the remaining WebViews of a method in set order, which is not
   * specified; here they come in the order the walk declares them.
   */
  method WebviewDefaultVulnerable(tree: Tree, methodName: string, issueName: string, description: string,
                                  fileObject: Option<string>, severity: Severity)
    returns (r: Option<seq<Issue>>)
    ensures r == ReportAll(MethodDecls(tree), methodName, issueName, description, fileObject, severity)
  {
    r := ReportDecls(MethodDecls(tree), methodName, issueName, description, fileObject, severity);
  }

  /** The loop over the method declarations `decls`. */
  method ReportDecls(decls: seq<JNode>, methodName: string, issueName: string, description: string,
                     fileObject: Option<string>, severity: Severity)
    returns (r: Option<seq<Issue>>)
    ensures r == ReportAll(decls, methodName, issueName, description, fileObject, severity)
  {
    var issues: seq<Issue> := [];
    var i := 0;
    while i < |decls|
      invariant 0 <= i <= |decls|
      invariant ReportAll(decls[..i], methodName, issueName, description, fileObject, severity) == Some(issues)
    {
      var found := MethodIssues(decls[i], methodName, issueName, description, fileObject, severity);
      if found.None? {
        ReportFailureSticks(decls, i + 1, methodName, issueName, description, fileObject, severity);
        return None;
      }
      ReportAllSnoc(decls, i, methodName, issueName, description, fileObject, severity, issues, found.value);
      issues := issues + found.value;
      i := i + 1;
    }
    assert decls[..i] == decls;
    r := Some(issues);
  }

  lemma ReportAllSnoc(decls: seq<JNode>, i: int, methodName: string, issueName: string, description: string,
                      fileObject: Option<string>, severity: Severity, a: seq<Issue>, b: seq<Issue>)
    requires 0 <= i < |decls|
    requires ReportAll(decls[..i], methodName, issueName, description, fileObject, severity) == Some(a)
    requires MethodReport(decls[i], methodName, issueName, description, fileObject, severity) == Some(b)
    ensures ReportAll(decls[..i + 1], methodName, issueName, description, fileObject, severity) == Some(a + b)
  {
    assert decls[..i + 1][..i] == decls[..i];
  }

  lemma {:induction false} SelectorsFailureSticks(w: map<string, JNode>, name: Option<string>, sels: seq<JNode>,
                                                   i: int, methodName: string)
    requires 0 <= i <= |sels| && SelectorsStep(w, name, sels[..i], methodName).None?
    ensures SelectorsStep(w, name, sels, methodName).None?
    decreases |sels| - i
  {
    if i < |sels| {
      assert sels[..i + 1][..i] == sels[..i];
      SelectorsFailureSticks(w, name, sels, i + 1, methodName);
    } else {
      assert sels[..i] == sels;
    }
  }

  lemma {:induction false} TrackFailureSticks(nodes: seq<JNode>, j: int, methodName: string)
    requires 0 <= j <= |nodes| && Track(nodes[..j], methodName).None?
    ensures Track(nodes, methodName).None?
    decreases |nodes| - j
  {
    if j < |nodes| {
      assert nodes[..j + 1][..j] == nodes[..j];
      TrackFailureSticks(nodes, j + 1, methodName);
    } else {
      assert nodes[..j] == nodes;
    }
  }

  lemma {:induction false} ReportFailureSticks(decls: seq<JNode>, i: int, methodName: string, issueName: string,
                                                description: string, fileObject: Option<string>, severity: Severity)
    requires 0 <= i <= |decls| && ReportAll(decls[..i], methodName, issueName, description, fileObject, severity).None?
    ensures ReportAll(decls, methodName, issueName, description, fileObject, severity).None?
    decreases |decls| - i
  {
    if i < |decls| {
      assert decls[..i + 1][..i] == decls[..i];
      ReportFailureSticks(decls, i + 1, methodName, issueName, description, fileObject, severity);
    } else {
      assert decls[..i] == decls;
    }
  }

  // ---------------------------------------------------------------------
  // Properties.

  lemma {:induction false} DistinctCount(ws: seq<JNode>)
    requires forall i, j :: 0 <= i < j < |ws| ==> ws[i] != ws[j]
    ensures |set w | w in ws| == |ws|
  {
    if ws != [] {
      var init := ws[..|ws| - 1];
      var last := ws[|ws| - 1];
      DistinctCount(init);
      assert (set w | w in ws) == (set w | w in init) + {last};
      assert last !in init;
    }
  }

  /**
   * Exactly one issue per distinct WebView still tracked at the end of the
   * method, and nothing else.
   */
  lemma OneIssuePerWebView(md: JNode, methodName: string, issueName: string, description: string,
                           fileObject: Option<string>, severity: Severity)
    requires Track(MethodNodes(md), methodName).Some?
    ensures var t := Track(MethodNodes(md), methodName).value;
      var r := MethodReport(md, methodName, issueName, description, fileObject, severity);
      r.Some? && |r.value| == |Values(t.webviews)| &&
      (forall k :: k in t.webviews ==> WebViewIssue(t.webviews[k], issueName, description, fileObject, severity) in r.value) &&
      (forall x :: x in r.value ==>
        exists k :: k in t.webviews && x == WebViewIssue(t.webviews[k], issueName, description, fileObject, severity))
  {
    var nodes := MethodNodes(md);
    var t := Track(nodes, methodName).value;
    TrackIsFromWalk(nodes, methodName);
    var ws := Listing(nodes, Values(t.webviews));
    assert (set w | w in ws) == Values(t.webviews);
    DistinctCount(ws);
    IssuesOfMembers(ws, issueName, description, fileObject, severity);
    forall k | k in t.webviews
      ensures WebViewIssue(t.webviews[k], issueName, description, fileObject, severity) in
        IssuesOf(ws, issueName, description, fileObject, severity)
    {
      assert t.webviews[k] in ws;
    }
  }

  /** The issues for `ws` are exactly one issue per member of `ws`. */
  lemma IssuesOfMembers(ws: seq<JNode>, issueName: string, description: string, fileObject: Option<string>,
                        severity: Severity)
    ensures var iss := IssuesOf(ws, issueName, description, fileObject, severity);
      (forall w :: w in ws ==> WebViewIssue(w, issueName, description, fileObject, severity) in iss) &&
      (forall x :: x in iss ==> exists w :: w in ws && x == WebViewIssue(w, issueName, description, fileObject, severity))
  {
    var iss := IssuesOf(ws, issueName, description, fileObject, severity);
    forall w | w in ws
      ensures WebViewIssue(w, issueName, description, fileObject, severity) in iss
    {
      var j :| 0 <= j < |ws| && ws[j] == w;
      assert iss[j] == WebViewIssue(w, issueName, description, fileObject, severity);
    }
    forall x | x in iss
      ensures exists w :: w in ws && x == WebViewIssue(w, issueName, description, fileObject, severity)
    {
      var j :| 0 <= j < |iss| && iss[j] == x;
      assert ws[j] in ws;
    }
  }

  lemma {:induction false} ListingOfNothing(nodes: seq<JNode>)
    ensures Listing(nodes, {}) == []
  {
    if nodes != [] {
      ListingOfNothing(nodes[..|nodes| - 1]);
    }
  }

  /** A method that declares no `WebView` variable gives no issue. */
  lemma NoWebViewNoIssue(md: JNode, methodName: string, issueName: string, description: string,
                         fileObject: Option<string>, severity: Severity)
    requires forall n :: n in MethodNodes(md) ==> !(n.VarDecl? && n.typeName == "WebView")
    ensures var r := MethodReport(md, methodName, issueName, description, fileObject, severity);
      r.Some? ==> r.value == []
  {
    if Track(MethodNodes(md), methodName).Some? {
      TrackIsFromWalk(MethodNodes(md), methodName);
      var t := Track(MethodNodes(md), methodName).value;
      assert t.webviews == map[];
      assert Values(t.webviews) == {};
      ListingOfNothing(MethodNodes(md));
    }
  }

  /**
   * A direct call of the setting method with the literal `false` stops
   * tracking the WebView named by the last `getSettings()` call, together with
   * every other name for the same declaration.
   */
  lemma SetFalseStopsTracking(t: Tracking, n: JNode, methodName: string, other: string)
    requires n.Invocation? && n.member == methodName && methodName != "getSettings"
    requires |n.arguments| == 1 && n.arguments[0] == Literal("false")
    requires t.name.Some? && t.name.value in t.webviews
    requires other in t.webviews && t.webviews[other] == t.webviews[t.name.value]
    ensures NodeStep(t, n, methodName).Some?
    ensures t.name.value !in NodeStep(t, n, methodName).value.webviews
    ensures other !in NodeStep(t, n, methodName).value.webviews
  {
  }

  /**
   * A `q.getSettings()` chain whose selectors all are method calls, one of
   * them the setting method with the literal `false`, leaves `q` untracked.
   */
  lemma GetSettingsChainStopsTracking(t: Tracking, n: JNode, methodName: string)
    requires n.Invocation? && n.member == "getSettings" && n.selectors != []
    requires forall s :: s in n.selectors ==> s.Invocation?
    requires exists s :: s in n.selectors && ValidSetMethodBool(s, "false", methodName) == Some(true)
    ensures NodeStep(t, n, methodName).Some?
    ensures n.qualifier !in NodeStep(t, n, methodName).value.webviews
    ensures NodeStep(t, n, methodName).value.name == Some(n.qualifier)
  {
    SelectorsSucceed(t.webviews, Some(n.qualifier), n.selectors, methodName);
    SelectorsRemove(t.webviews, n.qualifier, n.selectors, methodName);
  }

  lemma {:induction false} SelectorsSucceed(w: map<string, JNode>, name: Option<string>, sels: seq<JNode>,
                                            methodName: string)
    requires forall s :: s in sels ==> s.Invocation?
    ensures SelectorsStep(w, name, sels, methodName).Some?
  {
    if sels != [] {
      SelectorsSucceed(w, name, sels[..|sels| - 1], methodName);
    }
  }

  lemma {:induction false} SelectorsRemove(w: map<string, JNode>, q: string, sels: seq<JNode>, methodName: string)
    requires SelectorsStep(w, Some(q), sels, methodName).Some?
    requires exists s :: s in sels && ValidSetMethodBool(s, "false", methodName) == Some(true)
    ensures q !in SelectorsStep(w, Some(q), sels, methodName).value
  {
    var init := sels[..|sels| - 1];
    var last := sels[|sels| - 1];
    if ValidSetMethodBool(last, "false", methodName) != Some(true) {
      var s :| s in sels && ValidSetMethodBool(s, "false", methodName) == Some(true);
      assert s in init;
      SelectorsRemove(w, q, init, methodName);
    }
  }

  /** The whole scan raises exactly when the walk of some method declaration raises. */
  lemma {:induction false} ReportAllFails(decls: seq<JNode>, methodName: string, issueName: string, description: string,
                                          fileObject: Option<string>, severity: Severity)
    ensures ReportAll(decls, methodName, issueName, description, fileObject, severity).None? <==>
      exists md :: md in decls && Track(MethodNodes(md), methodName).None?
  {
    if decls != [] {
      var init := decls[..|decls| - 1];
      ReportAllFails(init, methodName, issueName, description, fileObject, severity);
      assert forall md :: md in decls <==> md in init || md == decls[|decls| - 1];
    }
  }
}
