/**
 * manifest_helpers.py: reading minSdkVersion, targetSdkVersion and the
 * package name out of AndroidManifest.xml, with the fallbacks the code
 * takes when the document cannot be parsed or the value is missing.
 *
 * Files on disk are a parameter: for each path, the parsed document (None
 * when the XML parser rejects it) and the UTF-8 text (None when it cannot be
 * opened or decoded). A path absent from the map can be neither parsed nor
 * opened.
 */
module ManifestHelpers {
  import opened Wrappers
  import opened Text
  import opened Xml

  datatype ManifestFile = ManifestFile(dom: Option<Document>, text: Option<string>)

  type Disk = map<string, ManifestFile>

  /** What `get_min_sdk`/`get_target_sdk` accept as `manifest_xml`: a parsed document, a path, or None. */
  datatype ManifestSource = DomSource(doc: Document) | PathSource(path: string) | NoSource

  predicate IsQuote(c: char) { c == '"' || c == '\'' }

  /** The longest prefix of `s` made of decimal digits. */
  function LeadingDigits(s: string): (r: string)
    ensures |r| <= |s| && AllDigits(r) && r == s[..|r|]
    ensures |r| == |s| || !IsDigit(s[|r|])
  {
    if s != [] && IsDigit(s[0]) then
      var t := LeadingDigits(s[1..]);
      assert [s[0]] + t == s[..|t| + 1];
      [s[0]] + t
    else []
  }

  function AttrPrefix(attr: string): string {
    "android:" + attr + "="
  }

  /**
   * Where the digits of a match of `android:{attr}=["']?(\d+)["']?` starting
   * at `i` begin, if the pattern matches there.
   */
  function DigitsStartAt(text: string, attr: string, i: int): (r: Option<int>)
    ensures r.Some? ==> 0 <= r.value < |text| && IsDigit(text[r.value])
  {
    var j := i + |AttrPrefix(attr)|;
    if !OccursAt(text, AttrPrefix(attr), i) then None
    else if j < |text| && IsDigit(text[j]) then Some(j)
    else if j + 1 < |text| && IsQuote(text[j]) && IsDigit(text[j + 1]) then Some(j + 1)
    else None
  }

  /** The pattern matches at no position from `lo` up to, not including, `hi`. */
  predicate NoMatchBetween(text: string, attr: string, lo: int, hi: int) {
    forall m :: lo <= m < hi ==> DigitsStartAt(text, attr, m).None?
  }

  /** `re.search` from `i` on: the leftmost position where the pattern matches. */
  function FirstMatch(text: string, attr: string, i: nat): (r: Option<nat>)
    ensures r.Some? ==> i <= r.value <= |text| && DigitsStartAt(text, attr, r.value).Some?
    ensures r.Some? ==> NoMatchBetween(text, attr, i, r.value)
    ensures r.None? ==> NoMatchBetween(text, attr, i, |text| + 1)
    decreases |text| - i
  {
    if i > |text| then None
    else if DigitsStartAt(text, attr, i).Some? then Some(i)
    else FirstMatch(text, attr, i + 1)
  }

  /**
   * `_extract_sdk_from_text`: the number after the first `android:{attr}=`
   * that is followed, after at most one quote, by a digit; 1 when there is none.
   */
  function ExtractSdkFromText(text: string, attr: string): int {
    match FirstMatch(text, attr, 0)
    case Some(m) =>
      var k := DigitsStartAt(text, attr, m).value;
      DigitsValue(LeadingDigits(text[k..]))
    case None => 1
  }

  /** Text that never mentions `android:{attr}=` gives the default 1. */
  lemma NoAttributeGivesOne(text: string, attr: string)
    requires !Contains(text, AttrPrefix(attr))
    ensures ExtractSdkFromText(text, attr) == 1
  {
  }

  lemma {:induction false} LeadingDigitsOfDigits(d: string, rest: string)
    requires AllDigits(d)
    requires rest == [] || !IsDigit(rest[0])
    ensures LeadingDigits(d + rest) == d
  {
    if d != [] {
      assert (d + rest)[0] == d[0];
      assert (d + rest)[1..] == d[1..] + rest;
      LeadingDigitsOfDigits(d[1..], rest);
      assert d == [d[0]] + d[1..];
    } else {
      assert d + rest == rest;
    }
  }

  /**
   * Reading back: any text in which the pattern does not match yet, then
   * `android:{attr}=`, an optional quote, the decimal form of `n`, and
   * anything that does not continue the number, gives `n`.
   */
  lemma ExtractSdkRoundTrip(pre: string, attr: string, quote: string, n: nat, rest: string)
    requires quote == "" || quote == "\"" || quote == "'"
    requires rest == [] || !IsDigit(rest[0])
    requires NoMatchBetween(pre + AttrPrefix(attr) + quote + NatToString(n) + rest, attr, 0, |pre|)
    ensures ExtractSdkFromText(pre + AttrPrefix(attr) + quote + NatToString(n) + rest, attr) == n
  {
    var d := NatToString(n);
    var front := pre + AttrPrefix(attr) + quote;
    var text := front + d + rest;
    MatchAfterPrefix(pre, attr, quote, d, rest);
    LeftmostMatch(text, attr, |pre|);
    DropFront(front, d, rest);
    LeadingDigitsOfDigits(d, rest);
    NatToStringRoundTrip(n);
    ReadAt(text, attr, |pre|, |front|, d);
  }

  /** A match at `p` with none before it is the one `re.search` finds. */
  lemma LeftmostMatch(text: string, attr: string, p: nat)
    requires DigitsStartAt(text, attr, p).Some? && NoMatchBetween(text, attr, 0, p)
    ensures FirstMatch(text, attr, 0) == Some(p)
  {
  }

  lemma ReadAt(text: string, attr: string, p: nat, k: nat, d: string)
    requires FirstMatch(text, attr, 0) == Some(p) && DigitsStartAt(text, attr, p) == Some(k)
    requires k <= |text| && AllDigits(d) && LeadingDigits(text[k..]) == d
    ensures ExtractSdkFromText(text, attr) == DigitsValue(d)
  {
  }

  /** What follows a front part of a three-part text. */
  lemma DropFront(a: string, b: string, c: string)
    ensures (a + b + c)[|a|..] == b + c
  {
    assert a + b + c == a + (b + c);
  }

  /** After `pre`, the pattern matches, and its digits start after the prefix and the quote. */
  lemma MatchAfterPrefix(pre: string, attr: string, quote: string, d: string, rest: string)
    requires quote == "" || quote == "\"" || quote == "'"
    requires d != [] && AllDigits(d)
    ensures var text := pre + AttrPrefix(attr) + quote + d + rest;
      DigitsStartAt(text, attr, |pre|) == Some(|pre| + |AttrPrefix(attr)| + |quote|)
  {
    var p := AttrPrefix(attr);
    var text := pre + p + quote + d + rest;
    var k := |pre| + |p| + |quote|;
    assert text[|pre|..|pre| + |p|] == p;
    assert OccursAt(text, p, |pre|);
    assert text[k] == d[0];
    if quote != "" {
      assert text[|pre| + |p|] == quote[0];
    }
  }

  /**
   * The value of `android:{attr}` on the first `uses-sdk` element; 1 when
   * there is no such element, no such attribute, or the value is not an integer.
   */
  function SdkFromDocument(d: Document, attr: string): int {
    var sections := DocumentElementsByTag(d, "uses-sdk");
    if sections == [] then 1
    else if "android:" + attr !in sections[0].attrs then 1
    else ParseInt(sections[0].attrs["android:" + attr]).GetOr(1)
  }

  /**
   * The shared shape of `get_min_sdk` and `get_target_sdk`. With no manifest
   * and a non-empty file list, the manifest is looked up among the files;
   * `located` is what that lookup returns. A path is parsed; when parsing
   * fails its text goes to the regular-expression fallback; when it cannot
   * be read either, the result is 1.
   */
  function SdkVersion(manifest: ManifestSource, files: seq<string>, located: ManifestSource,
                      disk: Disk, attr: string): int
  {
    var m := if manifest.NoSource? && files != [] then located else manifest;
    match m
    case DomSource(d) => SdkFromDocument(d, attr)
    case PathSource(p) =>
      if p in disk && disk[p].dom.Some? then SdkFromDocument(disk[p].dom.value, attr)
      else if p in disk && disk[p].text.Some? then ExtractSdkFromText(disk[p].text.value, attr)
      else 1
    case NoSource => 1
  }

  function GetMinSdk(manifest: ManifestSource, files: seq<string>, located: ManifestSource, disk: Disk): int {
    SdkVersion(manifest, files, located, disk, "minSdkVersion")
  }

  function GetTargetSdk(manifest: ManifestSource, files: seq<string>, located: ManifestSource, disk: Disk): int {
    SdkVersion(manifest, files, located, disk, "targetSdkVersion")
  }

  /** A document whose first `uses-sdk` carries the decimal form of `n` yields `n`. */
  lemma SdkFromDocumentReadsValue(d: Document, attr: string, n: nat)
    requires var s := DocumentElementsByTag(d, "uses-sdk");
      s != [] && "android:" + attr in s[0].attrs && s[0].attrs["android:" + attr] == NatToString(n)
    ensures SdkFromDocument(d, attr) == n
  {
    ParseIntOfNatToString(n);
  }

  /** Underscores between digits are read as `int()` reads them: "1_9" gives 19. */
  lemma SdkFromDocumentUnderscored(d: Document, attr: string, a: string, b: string)
    requires a != [] && AllDigits(a) && b != [] && AllDigits(b)
    requires var s := DocumentElementsByTag(d, "uses-sdk");
      s != [] && "android:" + attr in s[0].attrs && s[0].attrs["android:" + attr] == a + "_" + b
    ensures SdkFromDocument(d, attr) == DigitsValue(a + b)
  {
    UnderscoreIgnored(a, b);
  }

  /** Missing `uses-sdk`, a missing attribute and an unparsable value all give 1, for both versions. */
  lemma SdkDefaultsToOne(d: Document, attr: string)
    requires var s := DocumentElementsByTag(d, "uses-sdk");
      s == [] || "android:" + attr !in s[0].attrs || ParseInt(s[0].attrs["android:" + attr]).None?
    ensures SdkFromDocument(d, attr) == 1
    ensures attr == "minSdkVersion" ==> GetMinSdk(DomSource(d), [], NoSource, map[]) == 1
    ensures attr == "targetSdkVersion" ==> GetTargetSdk(DomSource(d), [], NoSource, map[]) == 1
  {
  }

  /**
   * A manifest path the parser rejects falls back to the regular expression
   * on its text; if the file cannot be read either, the result is 1.
   */
  lemma UnparsableManifestFallsBack(p: string, files: seq<string>, located: ManifestSource, disk: Disk, attr: string)
    requires p !in disk || disk[p].dom.None?
    ensures p in disk && disk[p].text.Some? ==>
      SdkVersion(PathSource(p), files, located, disk, attr) == ExtractSdkFromText(disk[p].text.value, attr)
    ensures !(p in disk && disk[p].text.Some?) ==> SdkVersion(PathSource(p), files, located, disk, attr) == 1
  {
  }

  /** With no manifest and no files, there is nothing to read and the version is 1. */
  lemma NoManifestGivesOne(located: ManifestSource, disk: Disk, attr: string)
    ensures SdkVersion(NoSource, [], located, disk, attr) == 1
  {
  }

  /**
   * `get_package_from_manifest`: the root's `package` attribute; None when
   * the file cannot be parsed or the attribute is absent.
   */
  function GetPackage(path: string, disk: Disk): (r: Option<string>)
    ensures r.Some? <==>
      path in disk && disk[path].dom.Some? && "package" in disk[path].dom.value.root.attrs
    ensures r.Some? ==> r.value == disk[path].dom.value.root.attrs["package"]
  {
    if path in disk && disk[path].dom.Some? && "package" in disk[path].dom.value.root.attrs then
      Some(disk[path].dom.value.root.attrs["package"])
    else None
  }
}
