/**
 * plugins/manifest/exported_tags.py: a manifest rule that reports exported
 * components (activities, aliases, services, receivers, providers) by how
 * they are protected, then, when the scanner handed it the file list, looks
 * in the component's Java source for the extras it reads and records them in
 * each issue's exploit data.
 *
 * The manifest facts the rule reads (min and target SDK, package, manifest
 * path) are the shared manifest state at the time it runs. Reading and
 * parsing a Java file is a parameter: None when the file cannot be read or
 * parsed, which the code skips.
 */
module ExportedTags {
  import opened Wrappers
  import opened Text
  import opened Findings
  import opened Xml
  import opened JavaAst
  import opened ManifestHelpers
  import opened PluginHelpers

  const VulnerableComponents: seq<string> := ["activity", "activity-alias", "service", "receiver", "provider"]

  const Category: string := "Manifest"
  const UnprotectedName: string := "Exported Components Without Adequate Protection"
  const Pre50Name: string := "Exported Component With Pre-5.0 Permission Vulnerability"
  const ProtectedBroadcastName: string := "Exported Component Receiving Protected Broadcasts"

  /** System broadcasts only system apps may send. */
  const ProtectedBroadcasts: set<string> := {
    "android.intent.action.SCREEN_OFF", "android.intent.action.SCREEN_ON",
    "android.intent.action.USER_PRESENT", "android.intent.action.TIME_TICK",
    "android.intent.action.TIMEZONE_CHANGED", "android.intent.action.BOOT_COMPLETED",
    "android.intent.action.PACKAGE_INSTALL", "android.intent.action.PACKAGE_ADDED",
    "android.intent.action.PACKAGE_REPLACED", "android.intent.action.MY_PACKAGE_REPLACED",
    "android.intent.action.PACKAGE_REMOVED", "android.intent.action.PACKAGE_FULLY_REMOVED",
    "android.intent.action.PACKAGE_CHANGED", "android.intent.action.PACKAGE_RESTARTED",
    "android.intent.action.PACKAGE_DATA_CLEARED", "android.intent.action.PACKAGE_FIRST_LAUNCH",
    "android.intent.action.BATTERY_CHANGED", "android.intent.action.BATTERY_LOW",
    "android.intent.action.BATTERY_OKAY", "android.intent.action.ACTION_POWER_CONNECTED",
    "android.intent.action.ACTION_POWER_DISCONNECTED", "android.intent.action.ACTION_SHUTDOWN",
    "android.intent.action.DEVICE_STORAGE_LOW", "android.intent.action.DEVICE_STORAGE_OK",
    "android.net.conn.CONNECTIVITY_CHANGE", "android.net.wifi.WIFI_STATE_CHANGED",
    "android.net.wifi.SCAN_RESULTS", "android.bluetooth.adapter.action.STATE_CHANGED",
    "android.intent.action.SIM_STATE_CHANGED", "android.intent.action.AIRPLANE_MODE"
  }

  /** `TAG_TO_COMPONENT`, giving the name of the `ComponentType` member. */
  predicate IsComponentTag(tag: string) {
    tag in VulnerableComponents
  }

  function ComponentTypeName(tag: string): string
    requires IsComponentTag(tag)
  {
    if tag == "receiver" then "RECEIVER"
    else if tag == "provider" then "PROVIDER"
    else if tag == "service" then "SERVICE"
    else "ACTIVITY"
  }

  /** The shared manifest state the rule reads. */
  datatype ManifestFacts = ManifestFacts(minSdk: int, targetSdk: int, packageName: Option<string>,
                                         manifestPath: Option<string>)

  // ---------------------------------------------------------------------
  // The manifest pass.

  /**
   * `_is_component_exported`: an explicit `android:exported` decides by its
   * lower-cased value; without it a provider is exported when either SDK is
   * at most 16, and any other component when it has an intent filter.
   */
  predicate IsExported(e: Element, tag: string, facts: ManifestFacts) {
    if "android:exported" in e.attrs then Lower(e.attrs["android:exported"]) == "true"
    else if tag == "provider" then facts.minSdk <= 16 || facts.targetSdk <= 16
    else DescendantsByTag(e, "intent-filter") != []
  }

  /** `issue_data`: what every issue for the component carries in its exploit dictionary. */
  function IssueData(tag: string, name: string, facts: ManifestFacts, hasPermission: bool, hasFilters: bool)
    : ExploitDict
    requires IsComponentTag(tag)
  {
    map["exported_enum" := EnumValue(ComponentTypeName(tag)),
        "tag_name" := StrValue(name),
        "package_name" := (match facts.packageName case Some(p) => StrValue(p) case None => NoneValue),
        "component_type" := StrValue(tag),
        "has_permission" := BoolValue(hasPermission),
        "has_intent_filters" := BoolValue(hasFilters)]
  }

  /** `_create_issue`: no line, the manifest as the file. */
  function ManifestIssue(name: string, severity: Severity, description: Description, data: ExploitDict,
                         facts: ManifestFacts): Issue
  {
    NewIssue(Category, name, Member(severity), description, None, facts.manifestPath, Some(data), None, None, None)
  }

  /** The two descriptions are filled with the component's name and its tag. */
  function Pre50Issue(tag: string, name: string, data: ExploitDict, facts: ManifestFacts): Issue {
    ManifestIssue(Pre50Name, Info, Template("EXPORTED_WITH_PERMISSION_DESC", [name, tag]), data, facts)
  }

  function UnprotectedIssue(tag: string, name: string, data: ExploitDict, facts: ManifestFacts): Issue {
    ManifestIssue(UnprotectedName, Warning, Template("EXPORTED_UNPROTECTED_DESC", [name, tag]), data, facts)
  }

  /**
   * The issue for one named action of an exported component with intent
   * filters: a protected broadcast is INFO; otherwise a permission below
   * API 20 is INFO; otherwise a WARNING.
   */
  function ActionIssue(tag: string, name: string, facts: ManifestFacts, hasPermission: bool, data: ExploitDict,
                       actionName: string): Issue
  {
    var withAction := data["action_name" := StrValue(actionName)];
    if actionName in ProtectedBroadcasts then
      ManifestIssue(ProtectedBroadcastName, Info, Template("EXPORTED_PROTECTED_BROADCAST_DESC", [name, tag]),
                    withAction["is_protected_broadcast" := BoolValue(true)], facts)
    else if hasPermission && facts.minSdk < 20 then Pre50Issue(tag, name, withAction, facts)
    else UnprotectedIssue(tag, name, withAction, facts)
  }

  /** The issues for the `<action>` elements of one filter; an action without a name is skipped. */
  function ActionsIssues(actions: seq<Element>, tag: string, name: string, facts: ManifestFacts,
                         hasPermission: bool, data: ExploitDict): seq<Issue>
  {
    if actions == [] then []
    else
      var last := actions[|actions| - 1];
      ActionsIssues(actions[..|actions| - 1], tag, name, facts, hasPermission, data) +
      (if "android:name" in last.attrs
       then [ActionIssue(tag, name, facts, hasPermission, data, last.attrs["android:name"])]
       else [])
  }

  /** `_analyze_intent_filters`: the actions of every filter, filter by filter. */
  function FiltersIssues(filters: seq<Element>, tag: string, name: string, facts: ManifestFacts,
                         hasPermission: bool, data: ExploitDict): seq<Issue>
  {
    if filters == [] then []
    else
      FiltersIssues(filters[..|filters| - 1], tag, name, facts, hasPermission, data) +
      ActionsIssues(DescendantsByTag(filters[|filters| - 1], "action"), tag, name, facts, hasPermission, data)
  }

  /**
   * `_analyze_component_security`: nothing for a component without a name
   * or not exported; with intent filters, one issue per named action;
   * without, INFO for a permission below API 20, a WARNING for no
   * permission, nothing otherwise.
   */
  function ComponentIssues(e: Element, tag: string, facts: ManifestFacts): seq<Issue>
    requires IsComponentTag(tag)
  {
    if "android:name" !in e.attrs || !IsExported(e, tag, facts) then []
    else
      var name := e.attrs["android:name"];
      var hasPermission := "android:permission" in e.attrs;
      var filters := DescendantsByTag(e, "intent-filter");
      var data := IssueData(tag, name, facts, hasPermission, filters != []);
      if filters != [] then FiltersIssues(filters, tag, name, facts, hasPermission, data)
      else if hasPermission && facts.minSdk < 20 then [Pre50Issue(tag, name, data, facts)]
      else if !hasPermission then [UnprotectedIssue(tag, name, data, facts)]
      else []
  }

  function ComponentsIssues(cs: seq<Element>, tag: string, facts: ManifestFacts): seq<Issue>
    requires IsComponentTag(tag)
  {
    if cs == [] then []
    else ComponentsIssues(cs[..|cs| - 1], tag, facts) + ComponentIssues(cs[|cs| - 1], tag, facts)
  }

  /** The manifest pass over the given tags, each tag's components in document order. */
  function TagsIssues(d: Document, tags: seq<string>, facts: ManifestFacts): seq<Issue>
    requires forall t :: t in tags ==> IsComponentTag(t)
  {
    if tags == [] then []
    else
      var tag := tags[|tags| - 1];
      TagsIssues(d, tags[..|tags| - 1], facts) + ComponentsIssues(DocumentElementsByTag(d, tag), tag, facts)
  }

  function ManifestIssues(d: Document, facts: ManifestFacts): seq<Issue> {
    TagsIssues(d, VulnerableComponents, facts)
  }

  // The loops of the manifest pass.

  method AnalyseManifest(d: Document, facts: ManifestFacts) returns (issues: seq<Issue>)
    ensures issues == ManifestIssues(d, facts)
  {
    issues := [];
    var t := 0;
    while t < |VulnerableComponents|
      invariant 0 <= t <= |VulnerableComponents|
      invariant issues == TagsIssues(d, VulnerableComponents[..t], facts)
    {
      var tag := VulnerableComponents[t];
      var found := AnalyseComponents(DocumentElementsByTag(d, tag), tag, facts);
      TagsSnoc(d, VulnerableComponents, t, facts);
      issues := issues + found;
      t := t + 1;
    }
    assert VulnerableComponents[..t] == VulnerableComponents;
  }

  lemma TagsSnoc(d: Document, tags: seq<string>, t: int, facts: ManifestFacts)
    requires 0 <= t < |tags| && forall x :: x in tags ==> IsComponentTag(x)
    ensures TagsIssues(d, tags[..t + 1], facts) ==
      TagsIssues(d, tags[..t], facts) + ComponentsIssues(DocumentElementsByTag(d, tags[t]), tags[t], facts)
  {
    assert tags[..t + 1][..t] == tags[..t];
  }

  method AnalyseComponents(components: seq<Element>, tag: string, facts: ManifestFacts) returns (issues: seq<Issue>)
    requires IsComponentTag(tag)
    ensures issues == ComponentsIssues(components, tag, facts)
  {
    issues := [];
    var i := 0;
    while i < |components|
      invariant 0 <= i <= |components|
      invariant issues == ComponentsIssues(components[..i], tag, facts)
    {
      assert components[..i + 1][..i] == components[..i];
      var more := AnalyseComponent(components[i], tag, facts);
      issues := issues + more;
      i := i + 1;
    }
    assert components[..i] == components;
  }

  method AnalyseComponent(e: Element, tag: string, facts: ManifestFacts) returns (issues: seq<Issue>)
    requires IsComponentTag(tag)
    ensures issues == ComponentIssues(e, tag, facts)
  {
    issues := [];
    if "android:name" !in e.attrs {
      return;
    }
    var name := e.attrs["android:name"];
    if !IsExported(e, tag, facts) {
      return;
    }
    var hasPermission := "android:permission" in e.attrs;
    var filters := DescendantsByTag(e, "intent-filter");
    var data := IssueData(tag, name, facts, hasPermission, filters != []);
    if filters != [] {
      issues := AnalyseIntentFilters(filters, tag, name, facts, hasPermission, data);
    } else if hasPermission && facts.minSdk < 20 {
      issues := [Pre50Issue(tag, name, data, facts)];
    } else if !hasPermission {
      issues := [UnprotectedIssue(tag, name, data, facts)];
    }
  }

  method AnalyseIntentFilters(filters: seq<Element>, tag: string, name: string, facts: ManifestFacts,
                              hasPermission: bool, data: ExploitDict) returns (issues: seq<Issue>)
    ensures issues == FiltersIssues(filters, tag, name, facts, hasPermission, data)
  {
    issues := [];
    var f := 0;
    while f < |filters|
      invariant 0 <= f <= |filters|
      invariant issues == FiltersIssues(filters[..f], tag, name, facts, hasPermission, data)
    {
      var found := AnalyseActions(DescendantsByTag(filters[f], "action"), tag, name, facts, hasPermission, data);
      assert filters[..f + 1][..f] == filters[..f];
      issues := issues + found;
      f := f + 1;
    }
    assert filters[..f] == filters;
  }

  method AnalyseActions(actions: seq<Element>, tag: string, name: string, facts: ManifestFacts,
                        hasPermission: bool, data: ExploitDict) returns (issues: seq<Issue>)
    ensures issues == ActionsIssues(actions, tag, name, facts, hasPermission, data)
  {
    issues := [];
    var a := 0;
    while a < |actions|
      invariant 0 <= a <= |actions|
      invariant issues == ActionsIssues(actions[..a], tag, name, facts, hasPermission, data)
    {
      assert actions[..a + 1][..a] == actions[..a];
      if "android:name" in actions[a].attrs {
        var actionName := actions[a].attrs["android:name"];
        issues := issues + [ActionIssue(tag, name, facts, hasPermission, data, actionName)];
      }
      a := a + 1;
    }
    assert actions[..a] == actions;
  }

  // ---------------------------------------------------------------------
  // The Java pass: extras read by the component's entry points.

  /** `COMPONENT_ENTRIES`: the lifecycle methods of each kind of component. */
  const ComponentEntries: map<string, set<string>> := map[
    "activity" := {"onCreate", "onStart", "onResume", "onNewIntent"},
    "activity-alias" := {"onCreate", "onStart", "onResume", "onNewIntent"},
    "receiver" := {"onReceive"},
    "service" := {"onCreate", "onBind", "onStartCommand", "onHandleIntent"},
    "provider" := {"onCreate", "query", "insert", "update", "delete", "getType"}]

  /** `EXTRAS_METHOD_NAMES`: calls that read data out of an intent or a bundle. */
  const ExtrasMethodNames: set<string> := {
    "getExtras", "getStringExtra", "getIntExtra", "getIntArrayExtra",
    "getFloatExtra", "getFloatArrayExtra", "getDoubleExtra", "getDoubleArrayExtra",
    "getCharExtra", "getCharArrayExtra", "getByteExtra", "getByteArrayExtra",
    "getBundleExtra", "getBooleanExtra", "getBooleanArrayExtra", "getCharSequenceArrayExtra",
    "getCharSequenceArrayListExtra", "getCharSequenceExtra", "getIntegerArrayListExtra",
    "getLongArrayExtra", "getLongExtra", "getParcelableArrayExtra", "getParcelableArrayListExtra",
    "getParcelableExtra", "getSerializableExtra", "getShortArrayExtra", "getShortExtra",
    "getStringArrayExtra", "getStringArrayListExtra", "getString", "getInt",
    "getData", "getDataString", "getAction", "getType", "getScheme"
  }

  /** The entry methods for the `component_type` an exploit dictionary holds; none for anything else. */
  function EntryMethods(d: ExploitDict): set<string> {
    if "component_type" in d && d["component_type"].StrValue? && d["component_type"].s in ComponentEntries
    then ComponentEntries[d["component_type"].s]
    else {}
  }

  /** `str.replace(".", os.sep)` with `/` as the separator. */
  function ReplaceDots(s: string): (r: string)
    ensures |r| == |s|
    ensures forall i :: 0 <= i < |s| ==> r[i] == (if s[i] == '.' then '/' else s[i])
  {
    seq(|s|, i requires 0 <= i < |s| => if s[i] == '.' then '/' else s[i])
  }

  /** `s.strip('"\'')`: quotes of either kind removed from both ends. */
  function StripQuotes(s: string): (r: string)
    ensures r == [] || (!IsQuote(r[0]) && !IsQuote(r[|r| - 1]))
  {
    StripQuotesRight(StripQuotesLeft(s))
  }

  /** What `strip` removes is quotes only, from the two ends: the result is the slice between them. */
  lemma StripQuotesIsSlice(s: string)
    ensures exists i, j :: 0 <= i <= j <= |s| && StripQuotes(s) == s[i..j] && QuotesOnly(s[..i]) && QuotesOnly(s[j..])
  {
    var l := StripQuotesLeft(s);
    var r := StripQuotesRight(l);
    var i := |s| - |l|;
    assert r == s[i..i + |r|] && l[|r|..] == s[i + |r|..];
  }

  predicate QuotesOnly(s: string) {
    forall k :: 0 <= k < |s| ==> IsQuote(s[k])
  }

  function StripQuotesLeft(s: string): (r: string)
    ensures |r| <= |s| && r == s[|s| - |r|..]
    ensures r == [] || !IsQuote(r[0])
    ensures QuotesOnly(s[..|s| - |r|])
  {
    if s != [] && IsQuote(s[0]) then
      var r := StripQuotesLeft(s[1..]);
      assert s[..|s| - |r|] == [s[0]] + s[1..][..|s| - 1 - |r|];
      r
    else s
  }

  function StripQuotesRight(s: string): (r: string)
    ensures |r| <= |s| && r == s[..|r|]
    ensures r == [] || !IsQuote(r[|r| - 1])
    ensures QuotesOnly(s[|r|..])
  {
    if s != [] && IsQuote(s[|s| - 1]) then
      var r := StripQuotesRight(s[..|s| - 1]);
      assert s[|r|..] == s[..|s| - 1][|r|..] + [s[|s| - 1]];
      r
    else s
  }

  /** Only the quotes around a text that neither starts nor ends with a quote are removed. */
  lemma StripQuotesSurrounding(pre: string, t: string, post: string)
    requires QuotesOnly(pre) && QuotesOnly(post)
    requires t != [] && !IsQuote(t[0]) && !IsQuote(t[|t| - 1])
    ensures StripQuotes(pre + t + post) == t
  {
    assert pre + t + post == pre + (t + post);
    assert (t + post)[0] == t[0];
    LeadingQuotes(pre, t + post);
    TrailingQuotes(t, post);
  }

  lemma {:induction false} LeadingQuotes(pre: string, u: string)
    requires QuotesOnly(pre) && u != [] && !IsQuote(u[0])
    ensures StripQuotesLeft(pre + u) == u
  {
    if pre != [] {
      assert IsQuote(pre[0]);
      assert (pre + u)[0] == pre[0] && (pre + u)[1..] == pre[1..] + u;
      LeadingQuotes(pre[1..], u);
    } else {
      assert pre + u == u;
    }
  }

  lemma {:induction false} TrailingQuotes(u: string, post: string)
    requires QuotesOnly(post) && u != [] && !IsQuote(u[|u| - 1])
    ensures StripQuotesRight(u + post) == u
  {
    if post != [] {
      var init := post[..|post| - 1];
      assert IsQuote(post[|post| - 1]);
      assert (u + post)[|u + post| - 1] == post[|post| - 1] && (u + post)[..|u + post| - 1] == u + init;
      TrailingQuotes(u, init);
    } else {
      assert u + post == u;
    }
  }

  ghost predicate Distinct(ps: seq<string>) {
    forall i, j :: 0 <= i < j < |ps| ==> ps[i] != ps[j]
  }

  /** The append that skips a value already in the list. */
  function AddParam(ps: seq<string>, p: string): (r: seq<string>)
    ensures Distinct(ps) ==> Distinct(r)
    ensures forall x :: x in r <==> x in ps || x == p
    ensures |ps| <= |r| && r[..|ps|] == ps
  {
    if p in ps then ps else ps + [p]
  }

  /** The parameters taken from the arguments of one extras call: each non-empty literal, unquoted. */
  function ArgParams(ps: seq<string>, args: seq<JNode>): seq<string> {
    if args == [] then ps
    else
      var acc := ArgParams(ps, args[..|args| - 1]);
      var arg := args[|args| - 1];
      if arg.Literal? && arg.value != "" then AddParam(acc, StripQuotes(arg.value)) else acc
  }

  predicate IsExtrasCall(n: JNode) {
    n.Invocation? && n.member in ExtrasMethodNames && n.arguments != []
  }

  /** The scan of every method call of the unit, in walk order. */
  function CallParams(ps: seq<string>, nodes: seq<JNode>): seq<string> {
    if nodes == [] then ps
    else
      var acc := CallParams(ps, nodes[..|nodes| - 1]);
      var n := nodes[|nodes| - 1];
      if IsExtrasCall(n) then ArgParams(acc, n.arguments) else acc
  }

  /** `vulnerable_parameters` and `entry_points` as they are being filled. */
  datatype Found = Found(params: seq<string>, entryPoints: seq<string>)

  /**
   * The loop over the method declarations: each entry method is recorded,
   * and for each the whole unit's calls are scanned again.
   */
  function DeclsScan(acc: Found, decls: seq<JNode>, entries: set<string>, nodes: seq<JNode>): Found
    requires forall m :: m in decls ==> m.MethodDecl?
  {
    if decls == [] then acc
    else
      var before := DeclsScan(acc, decls[..|decls| - 1], entries, nodes);
      var m := decls[|decls| - 1];
      if m.name in entries then Found(CallParams(before.params, nodes), before.entryPoints + [m.name])
      else before
  }

  function TreeScan(acc: Found, t: Tree, entries: set<string>): Found {
    DeclsScan(acc, MethodDecls(t), entries, Nodes(t))
  }

  /**
   * The loop over the Java files: a file whose path does not contain the
   * search name, or that cannot be read or parsed, is skipped; after a
   * parsed file the loop stops as soon as a parameter has been found.
   */
  function FilesScan(acc: Found, files: seq<string>, search: string, entries: set<string>,
                     parsed: string -> Option<Tree>): Found
    decreases |files|
  {
    if files == [] then acc
    else if !Contains(files[0], search) || parsed(files[0]).None? then FilesScan(acc, files[1..], search, entries, parsed)
    else
      var next := TreeScan(acc, parsed(files[0]).value, entries);
      if next.params != [] then next else FilesScan(next, files[1..], search, entries, parsed)
  }

  /** `_extract_vulnerable_parameters`: both lists start empty, then the file scan fills them. */
  function Extract(d: ExploitDict, javaFiles: seq<string>, search: string, parsed: string -> Option<Tree>)
    : ExploitDict
  {
    var f := FilesScan(Found([], []), javaFiles, search, EntryMethods(d), parsed);
    d["vulnerable_parameters" := ListValue(f.params)]["entry_points" := ListValue(f.entryPoints)]
  }

  /**
   * One issue of the Java pass: None when the code raises (no exploit
   * dictionary, or a `tag_name` that is not a string), which ends the pass;
   * an issue without `tag_name` is left alone.
   */
  function Enhance(i: Issue, javaFiles: seq<string>, parsed: string -> Option<Tree>): Option<Issue> {
    match i.exploit
    case None => None
    case Some(d) =>
      if "tag_name" !in d then Some(i)
      else if !d["tag_name"].StrValue? then None
      else Some(i.(exploit := Some(Extract(d, javaFiles, ReplaceDots(d["tag_name"].s), parsed))))
  }

  /** `_analyze_java_code_for_vulnerabilities`: the issues in order, up to the first that raises. */
  function EnhanceAll(issues: seq<Issue>, javaFiles: seq<string>, parsed: string -> Option<Tree>): seq<Issue>
    decreases |issues|
  {
    if issues == [] then []
    else match Enhance(issues[0], javaFiles, parsed)
      case None => issues
      case Some(i) => [i] + EnhanceAll(issues[1..], javaFiles, parsed)
  }

  /**
   * `run` on a plugin holding `issues` already: nothing when the document
   * is missing (the first lookup raises); otherwise the manifest pass, then
   * the Java pass over every issue when the file list is not empty.
   */
  function RunIssues(issues: seq<Issue>, d: Option<Document>, facts: ManifestFacts, allFiles: seq<string>,
                     parsed: string -> Option<Tree>): seq<Issue>
  {
    match d
    case None => issues
    case Some(doc) =>
      var all := issues + ManifestIssues(doc, facts);
      if allFiles != [] then EnhanceAll(all, JavaFilesFromFiles(allFiles), parsed) else all
  }

  // The loops of the Java pass.

  method Run(issues: seq<Issue>, d: Option<Document>, facts: ManifestFacts, allFiles: seq<string>,
             parsed: string -> Option<Tree>) returns (updated: seq<Issue>)
    ensures updated == RunIssues(issues, d, facts, allFiles, parsed)
  {
    if d.None? {
      return issues;
    }
    var found := AnalyseManifest(d.value, facts);
    updated := issues + found;
    if allFiles != [] {
      var javaFiles := JavaFilesFromFiles(allFiles);
      updated := AnalyseJavaCode(updated, javaFiles, parsed);
    }
  }

  method AnalyseJavaCode(issues: seq<Issue>, javaFiles: seq<string>, parsed: string -> Option<Tree>)
    returns (updated: seq<Issue>)
    ensures updated == EnhanceAll(issues, javaFiles, parsed)
  {
    var done: seq<Issue> := [];
    var i := 0;
    while i < |issues|
      invariant 0 <= i <= |issues|
      invariant EnhanceAll(issues, javaFiles, parsed) == done + EnhanceAll(issues[i..], javaFiles, parsed)
    {
      EnhanceAllStep(issues, i, javaFiles, parsed);
      var enhanced := AnalyseIssue(issues[i], javaFiles, parsed);
      if enhanced.None? {
        return done + issues[i..];
      }
      done := done + [enhanced.value];
      i := i + 1;
    }
    updated := done;
  }

  lemma EnhanceAllStep(issues: seq<Issue>, i: int, javaFiles: seq<string>, parsed: string -> Option<Tree>)
    requires 0 <= i < |issues|
    ensures EnhanceAll(issues[i..], javaFiles, parsed) ==
      match Enhance(issues[i], javaFiles, parsed)
      case None => issues[i..]
      case Some(x) => [x] + EnhanceAll(issues[i + 1..], javaFiles, parsed)
  {
    assert issues[i..][0] == issues[i] && issues[i..][1..] == issues[i + 1..];
  }

  /** The body of the loop for one issue. */
  method AnalyseIssue(issue: Issue, javaFiles: seq<string>, parsed: string -> Option<Tree>) returns (r: Option<Issue>)
    ensures r == Enhance(issue, javaFiles, parsed)
  {
    if issue.exploit.None? {
      return None;
    }
    var d := issue.exploit.value;
    if "tag_name" !in d {
      return Some(issue);
    }
    if !d["tag_name"].StrValue? {
      return None;
    }
    var extracted := ExtractVulnerableParameters(d, javaFiles, ReplaceDots(d["tag_name"].s), parsed);
    r := Some(issue.(exploit := Some(extracted)));
  }

  method ExtractVulnerableParameters(d: ExploitDict, javaFiles: seq<string>, search: string,
                                     parsed: string -> Option<Tree>) returns (r: ExploitDict)
    ensures r == Extract(d, javaFiles, search, parsed)
  {
    var entries := EntryMethods(d);
    var acc := Found([], []);
    var i := 0;
    while i < |javaFiles|
      invariant 0 <= i <= |javaFiles|
      invariant FilesScan(Found([], []), javaFiles, search, entries, parsed) ==
        FilesScan(acc, javaFiles[i..], search, entries, parsed)
    {
      assert javaFiles[i..][0] == javaFiles[i] && javaFiles[i..][1..] == javaFiles[i + 1..];
      var javaFile := javaFiles[i];
      if !Contains(javaFile, search) || parsed(javaFile).None? {
        i := i + 1;
        continue;
      }
      acc := ScanTree(acc, parsed(javaFile).value, entries);
      if acc.params != [] {
        break;
      }
      i := i + 1;
    }
    r := d["vulnerable_parameters" := ListValue(acc.params)]["entry_points" := ListValue(acc.entryPoints)];
  }

  method ScanTree(acc: Found, t: Tree, entries: set<string>) returns (r: Found)
    ensures r == TreeScan(acc, t, entries)
  {
    var decls := MethodDecls(t);
    var nodes := Nodes(t);
    r := acc;
    var k := 0;
    while k < |decls|
      invariant 0 <= k <= |decls|
      invariant r == DeclsScan(acc, decls[..k], entries, nodes)
    {
      assert decls[..k + 1][..k] == decls[..k];
      if decls[k].name in entries {
        var params := CollectParams(r.params, nodes);
        r := Found(params, r.entryPoints + [decls[k].name]);
      }
      k := k + 1;
    }
    assert decls[..k] == decls;
  }

  method CollectParams(ps: seq<string>, nodes: seq<JNode>) returns (r: seq<string>)
    ensures r == CallParams(ps, nodes)
  {
    r := ps;
    var k := 0;
    while k < |nodes|
      invariant 0 <= k <= |nodes|
      invariant r == CallParams(ps, nodes[..k])
    {
      assert nodes[..k + 1][..k] == nodes[..k];
      if IsExtrasCall(nodes[k]) {
        r := CollectArgs(r, nodes[k].arguments);
      }
      k := k + 1;
    }
    assert nodes[..k] == nodes;
  }

  method CollectArgs(ps: seq<string>, args: seq<JNode>) returns (r: seq<string>)
    ensures r == ArgParams(ps, args)
  {
    r := ps;
    var k := 0;
    while k < |args|
      invariant 0 <= k <= |args|
      invariant r == ArgParams(ps, args[..k])
    {
      assert args[..k + 1][..k] == args[..k];
      var arg := args[k];
      if arg.Literal? && arg.value != "" {
        var value := StripQuotes(arg.value);
        if value !in r {
          r := r + [value];
        }
      }
      k := k + 1;
    }
    assert args[..k] == args;
  }

  // ---------------------------------------------------------------------
  // Properties of the manifest pass.

  /** An explicit `android:exported` decides, in any letter case. */
  lemma ExplicitAttributeDecides(e: Element, tag: string, facts: ManifestFacts)
    requires "android:exported" in e.attrs
    ensures IsExported(e, tag, facts) <==> Lower(e.attrs["android:exported"]) == "true"
    ensures e.attrs["android:exported"] == "TRUE" ==> IsExported(e, tag, facts)
  {
    assert Lower("TRUE") == "true";
  }

  /** Without the attribute, a provider is exported exactly when either SDK is at most 16. */
  lemma ProviderDefault(e: Element, facts: ManifestFacts)
    requires "android:exported" !in e.attrs
    ensures IsExported(e, "provider", facts) <==> facts.minSdk <= 16 || facts.targetSdk <= 16
  {
  }

  /** Without the attribute, any other component is exported exactly when it has an intent filter. */
  lemma IntentFilterDefault(e: Element, tag: string, facts: ManifestFacts)
    requires "android:exported" !in e.attrs && tag != "provider"
    ensures IsExported(e, tag, facts) <==> DescendantsByTag(e, "intent-filter") != []
  {
  }

  /** A component without a name, or not exported, gives no issue. */
  lemma UnnamedOrHiddenSilent(e: Element, tag: string, facts: ManifestFacts)
    requires IsComponentTag(tag)
    requires "android:name" !in e.attrs || !IsExported(e, tag, facts)
    ensures ComponentIssues(e, tag, facts) == []
  {
  }

  /**
   * An exported component without intent filters: INFO when it has a
   * permission and the min SDK is below 20, a WARNING when it has no
   * permission, nothing when it has a permission from API 20 on.
   */
  lemma NoFilterClassification(e: Element, tag: string, facts: ManifestFacts)
    requires IsComponentTag(tag) && "android:name" in e.attrs && IsExported(e, tag, facts)
    requires DescendantsByTag(e, "intent-filter") == []
    ensures var r := ComponentIssues(e, tag, facts); var perm := "android:permission" in e.attrs;
      (perm && facts.minSdk < 20 ==> |r| == 1 && r[0].severity == Info && r[0].name == Pre50Name) &&
      (!perm ==> |r| == 1 && r[0].severity == Warning && r[0].name == UnprotectedName) &&
      (perm && facts.minSdk >= 20 ==> r == [])
  {
  }

  /**
   * One named action: a protected broadcast is INFO; otherwise a permission
   * below API 20 is INFO; otherwise a WARNING; the action is recorded in the
   * exploit data, and a protected broadcast is flagged as such.
   */
  lemma ActionClassification(tag: string, name: string, facts: ManifestFacts, hasPermission: bool,
                             data: ExploitDict, actionName: string)
    ensures var x := ActionIssue(tag, name, facts, hasPermission, data, actionName);
      x.exploit.Some? && "action_name" in x.exploit.value && x.exploit.value["action_name"] == StrValue(actionName) &&
      (actionName in ProtectedBroadcasts ==>
        x.severity == Info && x.name == ProtectedBroadcastName &&
        "is_protected_broadcast" in x.exploit.value && x.exploit.value["is_protected_broadcast"] == BoolValue(true)) &&
      (actionName !in ProtectedBroadcasts && hasPermission && facts.minSdk < 20 ==>
        x.severity == Info && x.name == Pre50Name) &&
      (actionName !in ProtectedBroadcasts && !(hasPermission && facts.minSdk < 20) ==>
        x.severity == Warning && x.name == UnprotectedName)
  {
  }

  /** The actions that have a name, in document order. */
  function NamedActions(actions: seq<Element>): seq<string> {
    if actions == [] then []
    else
      var last := actions[|actions| - 1];
      NamedActions(actions[..|actions| - 1]) + (if "android:name" in last.attrs then [last.attrs["android:name"]] else [])
  }

  /** One issue per named action, in order, each classified by its action name. */
  lemma {:induction false} OneIssuePerNamedAction(actions: seq<Element>, tag: string, name: string, facts: ManifestFacts,
                                                  hasPermission: bool, data: ExploitDict)
    ensures var r := ActionsIssues(actions, tag, name, facts, hasPermission, data); var n := NamedActions(actions);
      |r| == |n| && forall k :: 0 <= k < |r| ==> r[k] == ActionIssue(tag, name, facts, hasPermission, data, n[k])
  {
    if actions != [] {
      OneIssuePerNamedAction(actions[..|actions| - 1], tag, name, facts, hasPermission, data);
    }
  }

  /** Intent filters that name no action give no issue, even for a component without a permission. */
  lemma {:induction false} NoNamedActionSilent(filters: seq<Element>, tag: string, name: string, facts: ManifestFacts,
                                               hasPermission: bool, data: ExploitDict)
    requires forall f :: f in filters ==> NamedActions(DescendantsByTag(f, "action")) == []
    ensures FiltersIssues(filters, tag, name, facts, hasPermission, data) == []
  {
    if filters != [] {
      var last := filters[|filters| - 1];
      NoNamedActionSilent(filters[..|filters| - 1], tag, name, facts, hasPermission, data);
      OneIssuePerNamedAction(DescendantsByTag(last, "action"), tag, name, facts, hasPermission, data);
    }
  }

  /**
   * What every issue of the manifest pass carries: the `Manifest` category,
   * the manifest file, no line, INFO or WARNING, and exploit data naming the
   * component and its tag.
   */
  ghost predicate ManifestShaped(x: Issue, facts: ManifestFacts) {
    x.category == Category && x.fileObject == facts.manifestPath && x.lineNumber == None &&
    (x.severity == Info || x.severity == Warning) &&
    x.exploit.Some? && "tag_name" in x.exploit.value && x.exploit.value["tag_name"].StrValue? &&
    "component_type" in x.exploit.value && x.exploit.value["component_type"].StrValue? &&
    IsComponentTag(x.exploit.value["component_type"].s)
  }

  /** The exploit data of a component, with an action name added or not. */
  ghost predicate ComponentData(data: ExploitDict, tag: string, name: string) {
    "tag_name" in data && data["tag_name"] == StrValue(name) &&
    "component_type" in data && data["component_type"] == StrValue(tag) && IsComponentTag(tag)
  }

  lemma {:induction false} ActionsShaped(actions: seq<Element>, tag: string, name: string, facts: ManifestFacts,
                                         hasPermission: bool, data: ExploitDict)
    requires ComponentData(data, tag, name)
    ensures forall x :: x in ActionsIssues(actions, tag, name, facts, hasPermission, data) ==> ManifestShaped(x, facts)
  {
    if actions != [] {
      ActionsShaped(actions[..|actions| - 1], tag, name, facts, hasPermission, data);
      var last := actions[|actions| - 1];
      if "android:name" in last.attrs {
        ActionIssueShaped(tag, name, facts, hasPermission, data, last.attrs["android:name"]);
      }
    }
  }

  lemma ActionIssueShaped(tag: string, name: string, facts: ManifestFacts, hasPermission: bool, data: ExploitDict,
                          actionName: string)
    requires ComponentData(data, tag, name)
    ensures ManifestShaped(ActionIssue(tag, name, facts, hasPermission, data, actionName), facts)
  {
    var withAction := data["action_name" := StrValue(actionName)];
    assert ComponentData(withAction, tag, name);
    assert ComponentData(withAction["is_protected_broadcast" := BoolValue(true)], tag, name);
  }

  lemma {:induction false} FiltersShaped(filters: seq<Element>, tag: string, name: string, facts: ManifestFacts,
                                         hasPermission: bool, data: ExploitDict)
    requires ComponentData(data, tag, name)
    ensures forall x :: x in FiltersIssues(filters, tag, name, facts, hasPermission, data) ==> ManifestShaped(x, facts)
  {
    if filters != [] {
      FiltersShaped(filters[..|filters| - 1], tag, name, facts, hasPermission, data);
      ActionsShaped(DescendantsByTag(filters[|filters| - 1], "action"), tag, name, facts, hasPermission, data);
    }
  }

  lemma {:induction false} ComponentsShaped(cs: seq<Element>, tag: string, facts: ManifestFacts)
    requires IsComponentTag(tag)
    ensures forall x :: x in ComponentsIssues(cs, tag, facts) ==> ManifestShaped(x, facts)
  {
    if cs != [] {
      ComponentsShaped(cs[..|cs| - 1], tag, facts);
      var e := cs[|cs| - 1];
      if "android:name" in e.attrs && IsExported(e, tag, facts) {
        var name := e.attrs["android:name"];
        var hasPermission := "android:permission" in e.attrs;
        var filters := DescendantsByTag(e, "intent-filter");
        FiltersShaped(filters, tag, name, facts, hasPermission, IssueData(tag, name, facts, hasPermission, filters != []));
      }
    }
  }

  lemma {:induction false} TagsShaped(d: Document, tags: seq<string>, facts: ManifestFacts)
    requires forall t :: t in tags ==> IsComponentTag(t)
    ensures forall x :: x in TagsIssues(d, tags, facts) ==> ManifestShaped(x, facts)
  {
    if tags != [] {
      var tag := tags[|tags| - 1];
      TagsShaped(d, tags[..|tags| - 1], facts);
      ComponentsShaped(DocumentElementsByTag(d, tag), tag, facts);
    }
  }

  /** Every issue of the manifest pass has that shape; in particular none is a vulnerability. */
  lemma ManifestIssuesShaped(d: Document, facts: ManifestFacts)
    ensures forall x :: x in ManifestIssues(d, facts) ==> ManifestShaped(x, facts) && x.severity != Vulnerability
  {
    TagsShaped(d, VulnerableComponents, facts);
  }

  // ---------------------------------------------------------------------
  // Properties of the Java pass.

  /** A non-empty literal argument, unquoted, is `x`. */
  ghost predicate LiteralGives(x: string, arg: JNode) {
    arg.Literal? && arg.value != "" && StripQuotes(arg.value) == x
  }

  ghost predicate ArgGives(x: string, args: seq<JNode>) {
    exists k :: 0 <= k < |args| && LiteralGives(x, args[k])
  }

  /** An extras call among `nodes` has such an argument. */
  ghost predicate CallGives(x: string, n: JNode) {
    IsExtrasCall(n) && ArgGives(x, n.arguments)
  }

  ghost predicate NodesGive(x: string, nodes: seq<JNode>) {
    exists j :: 0 <= j < |nodes| && CallGives(x, nodes[j])
  }

  lemma ArgGivesSnoc(args: seq<JNode>)
    requires args != []
    ensures forall x :: ArgGives(x, args) <==> ArgGives(x, args[..|args| - 1]) || LiteralGives(x, args[|args| - 1])
  {
    var init := args[..|args| - 1];
    forall x ensures ArgGives(x, args) <==> ArgGives(x, init) || LiteralGives(x, args[|args| - 1]) {
      if ArgGives(x, init) {
        var k :| 0 <= k < |init| && LiteralGives(x, init[k]);
        assert args[k] == init[k];
      }
      if ArgGives(x, args) {
        var k :| 0 <= k < |args| && LiteralGives(x, args[k]);
        if k < |init| {
          assert init[k] == args[k];
          assert LiteralGives(x, init[k]);
        } else {
          assert k == |args| - 1;
        }
      }
    }
  }

  lemma NodesGiveSnoc(nodes: seq<JNode>)
    requires nodes != []
    ensures forall x :: NodesGive(x, nodes) <==> NodesGive(x, nodes[..|nodes| - 1]) || CallGives(x, nodes[|nodes| - 1])
  {
    forall x {
      NodesGiveSnocAt(nodes, x);
    }
  }

  lemma NodesGiveSnocAt(nodes: seq<JNode>, x: string)
    requires nodes != []
    ensures NodesGive(x, nodes) <==> NodesGive(x, nodes[..|nodes| - 1]) || CallGives(x, nodes[|nodes| - 1])
  {
    var init := nodes[..|nodes| - 1];
    if NodesGive(x, init) {
      var j :| 0 <= j < |init| && CallGives(x, init[j]);
      assert nodes[j] == init[j];
    }
    if NodesGive(x, nodes) {
      var j :| 0 <= j < |nodes| && CallGives(x, nodes[j]);
      if j < |init| {
        assert init[j] == nodes[j];
        assert CallGives(x, init[j]);
      } else {
        assert j == |nodes| - 1;
      }
    }
  }

  /** The argument scan keeps what was there, in place, and adds no duplicate. */
  lemma {:induction false} ArgParamsExtends(ps: seq<string>, args: seq<JNode>)
    ensures Distinct(ps) ==> Distinct(ArgParams(ps, args))
    ensures |ps| <= |ArgParams(ps, args)| && ArgParams(ps, args)[..|ps|] == ps
  {
    if args != [] {
      var init := args[..|args| - 1];
      ArgParamsExtends(ps, init);
      var acc := ArgParams(ps, init);
      assert ArgParams(ps, args)[..|acc|] == acc;
      assert acc[..|ps|] == ps;
    }
  }

  /** The argument scan adds exactly the values its arguments give. */
  lemma {:induction false} ArgParamsMembers(ps: seq<string>, args: seq<JNode>)
    ensures forall x :: x in ArgParams(ps, args) <==> x in ps || ArgGives(x, args)
  {
    if args != [] {
      ArgParamsMembers(ps, args[..|args| - 1]);
      ArgGivesSnoc(args);
    }
  }

  lemma {:induction false} CallParamsExtends(ps: seq<string>, nodes: seq<JNode>)
    ensures Distinct(ps) ==> Distinct(CallParams(ps, nodes))
    ensures |ps| <= |CallParams(ps, nodes)| && CallParams(ps, nodes)[..|ps|] == ps
  {
    if nodes != [] {
      var init := nodes[..|nodes| - 1];
      var n := nodes[|nodes| - 1];
      CallParamsExtends(ps, init);
      var acc := CallParams(ps, init);
      if IsExtrasCall(n) {
        ArgParamsExtends(acc, n.arguments);
      }
      assert CallParams(ps, nodes)[..|acc|] == acc;
      assert acc[..|ps|] == ps;
    }
  }

  /** The call scan adds exactly the values the extras calls among `nodes` give. */
  lemma {:induction false} CallParamsMembers(ps: seq<string>, nodes: seq<JNode>)
    ensures forall x :: x in CallParams(ps, nodes) <==> x in ps || NodesGive(x, nodes)
  {
    if nodes != [] {
      var init := nodes[..|nodes| - 1];
      var n := nodes[|nodes| - 1];
      CallParamsMembers(ps, init);
      if IsExtrasCall(n) {
        ArgParamsMembers(CallParams(ps, init), n.arguments);
      }
      NodesGiveSnoc(nodes);
    }
  }

  lemma {:induction false} ArgParamsSaturated(ps: seq<string>, args: seq<JNode>)
    requires forall x :: ArgGives(x, args) ==> x in ps
    ensures ArgParams(ps, args) == ps
  {
    if args != [] {
      ArgGivesSnoc(args);
      ArgParamsSaturated(ps, args[..|args| - 1]);
      var last := args[|args| - 1];
      if last.Literal? && last.value != "" {
        assert LiteralGives(StripQuotes(last.value), last);
      }
    }
  }

  lemma {:induction false} CallParamsSaturated(ps: seq<string>, nodes: seq<JNode>)
    requires forall x :: NodesGive(x, nodes) ==> x in ps
    ensures CallParams(ps, nodes) == ps
  {
    if nodes != [] {
      NodesGiveSnoc(nodes);
      CallParamsSaturated(ps, nodes[..|nodes| - 1]);
      var n := nodes[|nodes| - 1];
      if IsExtrasCall(n) {
        ArgParamsSaturated(ps, n.arguments);
      }
    }
  }

  /**
   * Scanning the unit's calls again, as the code does for every further
   * entry method, adds nothing: the parameters are those of one scan.
   */
  lemma RescanAddsNothing(ps: seq<string>, nodes: seq<JNode>)
    ensures CallParams(CallParams(ps, nodes), nodes) == CallParams(ps, nodes)
  {
    CallParamsMembers(ps, nodes);
    CallParamsSaturated(CallParams(ps, nodes), nodes);
  }

  lemma {:induction false} DeclsScanDistinct(acc: Found, decls: seq<JNode>, entries: set<string>, nodes: seq<JNode>)
    requires forall m :: m in decls ==> m.MethodDecl?
    requires Distinct(acc.params)
    ensures Distinct(DeclsScan(acc, decls, entries, nodes).params)
  {
    if decls != [] {
      DeclsScanDistinct(acc, decls[..|decls| - 1], entries, nodes);
      CallParamsExtends(DeclsScan(acc, decls[..|decls| - 1], entries, nodes).params, nodes);
    }
  }

  lemma {:induction false} FilesScanDistinct(acc: Found, files: seq<string>, search: string, entries: set<string>,
                                             parsed: string -> Option<Tree>)
    requires Distinct(acc.params)
    ensures Distinct(FilesScan(acc, files, search, entries, parsed).params)
    decreases |files|
  {
    if files != [] {
      if Contains(files[0], search) && parsed(files[0]).Some? {
        var t := parsed(files[0]).value;
        DeclsScanDistinct(acc, MethodDecls(t), entries, Nodes(t));
        FilesScanDistinct(TreeScan(acc, t, entries), files[1..], search, entries, parsed);
      } else {
        FilesScanDistinct(acc, files[1..], search, entries, parsed);
      }
    }
  }

  /** `vulnerable_parameters` never holds the same value twice. */
  lemma VulnerableParametersDistinct(d: ExploitDict, javaFiles: seq<string>, search: string,
                                     parsed: string -> Option<Tree>)
    ensures var r := Extract(d, javaFiles, search, parsed);
      "vulnerable_parameters" in r && r["vulnerable_parameters"].ListValue? && Distinct(r["vulnerable_parameters"].items)
  {
    FilesScanDistinct(Found([], []), javaFiles, search, EntryMethods(d), parsed);
  }

  /** No Java file whose path contains the search name: both lists are left empty. */
  lemma {:induction false} NoMatchingFileEmpty(acc: Found, files: seq<string>, search: string, entries: set<string>,
                                              parsed: string -> Option<Tree>)
    requires forall f :: f in files ==> !Contains(f, search)
    ensures FilesScan(acc, files, search, entries, parsed) == acc
    decreases |files|
  {
    if files != [] {
      assert files[0] in files;
      NoMatchingFileEmpty(acc, files[1..], search, entries, parsed);
    }
  }

  /**
   * The Java pass changes nothing but exploit data: the same number of
   * issues, each with its name, severity, description, file and line.
   */
  lemma {:induction false} EnhanceKeepsIssues(issues: seq<Issue>, javaFiles: seq<string>, parsed: string -> Option<Tree>)
    ensures var r := EnhanceAll(issues, javaFiles, parsed);
      |r| == |issues| && forall k :: 0 <= k < |r| ==> r[k].(exploit := issues[k].exploit) == issues[k]
    decreases |issues|
  {
    if issues != [] && Enhance(issues[0], javaFiles, parsed).Some? {
      EnhanceKeepsIssues(issues[1..], javaFiles, parsed);
      var r := EnhanceAll(issues, javaFiles, parsed);
      forall k | 0 <= k < |r| ensures r[k].(exploit := issues[k].exploit) == issues[k] {
        if k > 0 {
          assert r[k] == EnhanceAll(issues[1..], javaFiles, parsed)[k - 1];
          assert issues[k] == issues[1..][k - 1];
        }
      }
    }
  }
}
