/**
 * plugins/manifest/custom_permissions.py: a manifest rule that looks at the
 * `protectionLevel` of every `<permission>` the manifest declares and, for
 * target SDKs 21 to 34, reports `signatureOrSystem` and `dangerous`.
 *
 * The rule reads the shared manifest state: the parsed document (None when
 * the manifest could not be parsed, in which case the lookup raises, the
 * rule's handler catches it and nothing is reported), the manifest path and
 * the target SDK.
 */
module CustomPermissions {
  import opened Wrappers
  import opened Text
  import opened Findings
  import opened Xml

  const Category: string := "manifest"
  const SignatureOrSystemName: string := "Insecure custom permission: signatureOrSystem"
  const DangerousName: string := "Custom permission with protectionLevel='dangerous'"
  const StandardId: string := "MSTG-PLATFORM-5"

  /** The protection level of one `<permission>`: its attribute, stripped, or `normal` when absent. */
  function ProtectionValue(e: Element): string {
    if "android:protectionLevel" in e.attrs then Strip(e.attrs["android:protectionLevel"]) else "normal"
  }

  /** The API levels the rule analyses. */
  predicate Analysed(targetSdk: int) {
    21 <= targetSdk <= 34
  }

  function PermissionIssue(name: string, severity: Severity, description: Description, e: Element,
                           manifestPath: Option<string>): Issue
  {
    NewIssue(Category, name, Member(severity), description, e.line, manifestPath, None,
             Some(StandardId), Some(Named("STANDARD_DESCRIPTION")), Some(["M1"]))
  }

  /**
   * What one `<permission>` adds: nothing outside the analysed range;
   * `signatureOrSystem` is a vulnerability below API 29 and INFO from 29;
   * `dangerous` is a WARNING up to API 28 and INFO from 29; any other level
   * adds nothing.
   */
  function ElementIssues(e: Element, manifestPath: Option<string>, targetSdk: int): (r: seq<Issue>)
    ensures |r| <= 1
  {
    if !Analysed(targetSdk) then []
    else if ProtectionValue(e) == "signatureOrSystem" then
      [PermissionIssue(SignatureOrSystemName, if targetSdk < 29 then Vulnerability else Info,
                       Named("SIGNATURE_OR_SYSTEM_DESCRIPTION"), e, manifestPath)]
    else if ProtectionValue(e) == "dangerous" then
      [PermissionIssue(DangerousName, if targetSdk <= 28 then Warning else Info,
                       Named("DANGEROUS_DESCRIPTION"), e, manifestPath)]
    else []
  }

  /** The issues for a list of `<permission>` elements, in document order. */
  function PermissionsIssues(es: seq<Element>, manifestPath: Option<string>, targetSdk: int): seq<Issue> {
    if es == [] then []
    else PermissionsIssues(es[..|es| - 1], manifestPath, targetSdk) + ElementIssues(es[|es| - 1], manifestPath, targetSdk)
  }

  /** What `run` appends to the rule's issues. */
  function RunIssues(manifestXml: Option<Document>, manifestPath: Option<string>, targetSdk: int): seq<Issue> {
    match manifestXml
    case None => []
    case Some(d) => PermissionsIssues(DocumentElementsByTag(d, "permission"), manifestPath, targetSdk)
  }

  /** `run`: the loop over the `<permission>` elements. */
  method Run(manifestXml: Option<Document>, manifestPath: Option<string>, targetSdk: int)
    returns (added: seq<Issue>)
    ensures added == RunIssues(manifestXml, manifestPath, targetSdk)
  {
    added := [];
    if manifestXml.None? {
      return;
    }
    var sections := DocumentElementsByTag(manifestXml.value, "permission");
    var i := 0;
    while i < |sections|
      invariant 0 <= i <= |sections|
      invariant added == PermissionsIssues(sections[..i], manifestPath, targetSdk)
    {
      var found := Analyse(sections[i], manifestPath, targetSdk);
      IssuesSnoc(sections, i, manifestPath, targetSdk);
      added := added + found;
      i := i + 1;
    }
    assert sections[..i] == sections;
  }

  /** The body of the loop for one `<permission>`. */
  method Analyse(permission: Element, manifestPath: Option<string>, targetSdk: int) returns (found: seq<Issue>)
    ensures found == ElementIssues(permission, manifestPath, targetSdk)
  {
    found := [];
    var protectionValue := ProtectionValue(permission);
    if !(21 <= targetSdk <= 34) {
      return;
    }
    if protectionValue == "signatureOrSystem" {
      var severity := if targetSdk < 29 then Vulnerability else Info;
      found := [PermissionIssue(SignatureOrSystemName, severity, Named("SIGNATURE_OR_SYSTEM_DESCRIPTION"),
                                permission, manifestPath)];
    } else if protectionValue == "dangerous" {
      var severity := if targetSdk <= 28 then Warning else Info;
      found := [PermissionIssue(DangerousName, severity, Named("DANGEROUS_DESCRIPTION"), permission, manifestPath)];
    }
  }

  lemma IssuesSnoc(es: seq<Element>, i: int, manifestPath: Option<string>, targetSdk: int)
    requires 0 <= i < |es|
    ensures PermissionsIssues(es[..i + 1], manifestPath, targetSdk) ==
      PermissionsIssues(es[..i], manifestPath, targetSdk) + ElementIssues(es[i], manifestPath, targetSdk)
  {
    assert es[..i + 1][..i] == es[..i];
  }

  // ---------------------------------------------------------------------
  // Properties.

  /**
   * An issue the rule gives for element `e`: the manifest file, the
   * platform standard, OWASP M1, `e`'s line, and the name and severity its
   * protection level and the target SDK call for.
   */
  ghost predicate ReportsElement(x: Issue, e: Element, manifestPath: Option<string>, targetSdk: int) {
    Analysed(targetSdk) && x.fileObject == manifestPath && x.standardId == Some(StandardId) &&
    x.owaspRefs == ["M1"] && x.category == Category && x.lineNumber == e.line &&
    ((ProtectionValue(e) == "signatureOrSystem" && x.name == SignatureOrSystemName &&
      x.severity == (if targetSdk < 29 then Vulnerability else Info)) ||
     (ProtectionValue(e) == "dangerous" && x.name == DangerousName &&
      x.severity == (if targetSdk <= 28 then Warning else Info)))
  }

  lemma ElementIssueShape(e: Element, manifestPath: Option<string>, targetSdk: int)
    ensures forall x :: x in ElementIssues(e, manifestPath, targetSdk) ==> ReportsElement(x, e, manifestPath, targetSdk)
  {
  }

  /** Every issue belongs to one listed element whose level is `signatureOrSystem` or `dangerous`. */
  lemma {:induction false} IssuesComeFromElements(es: seq<Element>, manifestPath: Option<string>, targetSdk: int)
    ensures |PermissionsIssues(es, manifestPath, targetSdk)| <= |es|
    ensures forall x :: x in PermissionsIssues(es, manifestPath, targetSdk) ==>
      exists e :: e in es && ReportsElement(x, e, manifestPath, targetSdk)
  {
    if es != [] {
      var init := es[..|es| - 1];
      var last := es[|es| - 1];
      IssuesComeFromElements(init, manifestPath, targetSdk);
      ElementIssueShape(last, manifestPath, targetSdk);
      forall x | x in PermissionsIssues(es, manifestPath, targetSdk)
        ensures exists e :: e in es && ReportsElement(x, e, manifestPath, targetSdk)
      {
        if x in PermissionsIssues(init, manifestPath, targetSdk) {
          var e :| e in init && ReportsElement(x, e, manifestPath, targetSdk);
          assert e in es;
        } else {
          assert last in es;
        }
      }
    }
  }

  /**
   * In the analysed range, every `signatureOrSystem` or `dangerous`
   * permission is reported, with its own line.
   */
  lemma {:induction false} WeakLevelsReported(es: seq<Element>, manifestPath: Option<string>, targetSdk: int, k: int)
    requires Analysed(targetSdk) && 0 <= k < |es|
    requires ProtectionValue(es[k]) == "signatureOrSystem" || ProtectionValue(es[k]) == "dangerous"
    ensures exists x :: x in PermissionsIssues(es, manifestPath, targetSdk) && ReportsElement(x, es[k], manifestPath, targetSdk)
  {
    var init := es[..|es| - 1];
    ElementIssueShape(es[k], manifestPath, targetSdk);
    if k == |es| - 1 {
      var x := ElementIssues(es[k], manifestPath, targetSdk)[0];
      assert x in PermissionsIssues(es, manifestPath, targetSdk);
    } else {
      assert init[k] == es[k];
      WeakLevelsReported(init, manifestPath, targetSdk, k);
    }
  }

  /** Outside API 21 to 34 nothing is reported, whatever the manifest declares. */
  lemma {:induction false} OutsideRangeSilent(es: seq<Element>, manifestPath: Option<string>, targetSdk: int)
    requires !Analysed(targetSdk)
    ensures PermissionsIssues(es, manifestPath, targetSdk) == []
  {
    if es != [] {
      OutsideRangeSilent(es[..|es| - 1], manifestPath, targetSdk);
    }
  }

  /** An unparsable manifest reports nothing. */
  lemma NoDocumentSilent(manifestPath: Option<string>, targetSdk: int)
    ensures RunIssues(None, manifestPath, targetSdk) == []
  {
  }

  /**
   * The severity thresholds: `signatureOrSystem` is a vulnerability only
   * below API 29, `dangerous` a WARNING only up to API 28; from API 29 both
   * are INFO.
   */
  lemma SeverityByTarget(e: Element, manifestPath: Option<string>, targetSdk: int)
    requires Analysed(targetSdk)
    ensures var r := ElementIssues(e, manifestPath, targetSdk);
      (ProtectionValue(e) == "signatureOrSystem" ==>
        |r| == 1 && (r[0].severity == Vulnerability <==> targetSdk < 29) && (r[0].severity == Info <==> targetSdk >= 29)) &&
      (ProtectionValue(e) == "dangerous" ==>
        |r| == 1 && (r[0].severity == Warning <==> targetSdk <= 28) && (r[0].severity == Info <==> targetSdk >= 29)) &&
      (ProtectionValue(e) != "signatureOrSystem" && ProtectionValue(e) != "dangerous" ==> r == [])
  {
  }

  /** A permission with no `protectionLevel` is `normal` and never reported. */
  lemma MissingLevelIsNormal(e: Element, manifestPath: Option<string>, targetSdk: int)
    requires "android:protectionLevel" !in e.attrs
    ensures ElementIssues(e, manifestPath, targetSdk) == []
  {
  }

  /**
   * Any whitespace around the attribute's value is stripped, so it neither
   * hides a weak level nor changes which one is read.
   */
  lemma PaddedLevelRecognised(e: Element, pre: string, level: string, post: string)
    requires "android:protectionLevel" in e.attrs && e.attrs["android:protectionLevel"] == pre + level + post
    requires AllSpace(pre) && AllSpace(post)
    requires level != [] && !IsSpace(level[0]) && !IsSpace(level[|level| - 1])
    ensures ProtectionValue(e) == level
  {
    StripSurrounding(pre, level, post);
  }
}
