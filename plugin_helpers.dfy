/**
 * plugins/helpers.py: the line scanner with its exclusion patterns, the Java
 * file filter, pruning a dictionary by value, matching a method call by name
 * and argument count, and locating minSdkVersion from a file list.
 */
module PluginHelpers {
  import opened Wrappers
  import opened Text
  import opened Paths
  import opened JavaAst
  import opened ManifestHelpers

  // ---------------------------------------------------------------------
  // EXCLUDE_REGEXES, each applied with `re.match` (anchored at the start).

  /** `^\s*(//|/\*)` and `^\s*\*`: after leading whitespace, a comment opener or a star. */
  predicate CommentLine(line: string) {
    var t := StripLeft(line);
    StartsWith(t, "//") || StartsWith(t, "/*") || StartsWith(t, "*")
  }

  /** The line without the one newline a file iterator leaves at its end. */
  function WithoutNewline(line: string): string {
    if line != [] && line[|line| - 1] == '\n' then line[..|line| - 1] else line
  }

  /** The third pattern: the line, up to its newline, ends by closing a block comment. */
  predicate ClosesComment(line: string) {
    EndsWith(WithoutNewline(line), "*/")
  }

  /** `^\s*Log\..\(`: a call `Log.x(` with a one-letter method name. */
  predicate ShortLogCall(line: string) {
    var t := StripLeft(line);
    |t| >= 6 && t[..4] == "Log." && t[4] != '\n' && t[5] == '('
  }

  /** `(.*)(public|private)\s(String|List)`. */
  predicate DeclaresStringOrList(line: string) {
    exists i | 0 <= i <= |line| ::
      (OccursAt(line, "public", i) && TypeAfter(line, i + 6)) ||
      (OccursAt(line, "private", i) && TypeAfter(line, i + 7))
  }

  predicate TypeAfter(line: string, j: int) {
    0 <= j < |line| && IsSpace(line[j]) && (OccursAt(line, "String", j + 1) || OccursAt(line, "List", j + 1))
  }

  /** `EXCLUSION_REGEX`: any of the five patterns. */
  predicate Excluded(line: string) {
    CommentLine(line) || ClosesComment(line) || ShortLogCall(line) || DeclaresStringOrList(line)
  }

  /**
   * The entries `run_regex` builds from `lines` for a test of a line: the
   * 1-based number and the stripped text of each line the test accepts.
   */
  function Numbered(lines: seq<string>, keep: string -> bool): seq<(int, string)> {
    if lines == [] then [] else Numbered(lines[..|lines| - 1], keep) + LastEntry(lines, keep)
  }

  function LastEntry(lines: seq<string>, keep: string -> bool): seq<(int, string)>
    requires lines != []
  {
    if keep(lines[|lines| - 1]) then [(|lines|, Strip(lines[|lines| - 1]))] else []
  }

  /**
   * `run_regex`: `lines` are the lines read before the file ended, or failed
   * to open or to decode; on a failure the results gathered so far are what
   * the code returns, and that is what this gives.
   */
  method RunRegex(lines: seq<string>, found: string -> bool) returns (results: seq<(int, string)>)
    ensures results == Numbered(lines, ReportedBy(found))
  {
    var keep := ReportedBy(found);
    results := [];
    var i := 0;
    while i < |lines|
      invariant 0 <= i <= |lines|
      invariant results == Numbered(lines[..i], keep)
    {
      NumberedSnoc(lines, i, keep);
      assert keep(lines[i]) == Reported(lines[i], found);
      if Reported(lines[i], found) {
        results := results + [(i + 1, Strip(lines[i]))];
      }
      i := i + 1;
    }
    assert lines[..|lines|] == lines;
  }

  lemma NumberedSnoc(lines: seq<string>, i: int, keep: string -> bool)
    requires 0 <= i < |lines|
    ensures Numbered(lines[..i + 1], keep) ==
      Numbered(lines[..i], keep) + (if keep(lines[i]) then [(i + 1, Strip(lines[i]))] else [])
  {
    var next := lines[..i + 1];
    assert next[..i] == lines[..i] && next[i] == lines[i];
  }

  /** An entry names an accepted line of `lines` by its 1-based number and carries that line stripped. */
  ghost predicate EntryOf(lines: seq<string>, keep: string -> bool, e: (int, string)) {
    1 <= e.0 <= |lines| && keep(lines[e.0 - 1]) && e.1 == Strip(lines[e.0 - 1])
  }

  /** Every entry names an accepted line by its 1-based number and carries that line stripped. */
  lemma {:induction false} NumberedSound(lines: seq<string>, keep: string -> bool)
    ensures forall k :: 0 <= k < |Numbered(lines, keep)| ==> EntryOf(lines, keep, Numbered(lines, keep)[k])
  {
    if lines != [] {
      var init := lines[..|lines| - 1];
      NumberedSound(init, keep);
      var p := Numbered(init, keep);
      var r := p + LastEntry(lines, keep);
      assert Numbered(lines, keep) == r;
      forall k | 0 <= k < |r| ensures EntryOf(lines, keep, r[k]) {
        if k < |p| {
          assert r[k] == p[k] && EntryOf(init, keep, p[k]);
          assert lines[p[k].0 - 1] == init[p[k].0 - 1];
        } else {
          assert r[k] == (|lines|, Strip(lines[|lines| - 1]));
        }
      }
    }
  }

  /** Line numbers strictly increase along the results. */
  lemma {:induction false} NumberedIncreasing(lines: seq<string>, keep: string -> bool)
    ensures forall k, l :: 0 <= k < l < |Numbered(lines, keep)| ==>
      Numbered(lines, keep)[k].0 < Numbered(lines, keep)[l].0
  {
    if lines != [] {
      var init := lines[..|lines| - 1];
      NumberedIncreasing(init, keep);
      NumberedSound(init, keep);
      var r := Numbered(lines, keep);
      var p := Numbered(init, keep);
      forall k, l | 0 <= k < l < |r| ensures r[k].0 < r[l].0 {
        assert r[k] == p[k];
        if l < |p| {
          assert r[l] == p[l];
        } else {
          assert EntryOf(init, keep, p[k]);
          assert r[l].0 == |lines|;
        }
      }
    }
  }

  /** Every accepted line is reported. */
  lemma {:induction false} NumberedComplete(lines: seq<string>, keep: string -> bool, i: int)
    requires 0 <= i < |lines| && keep(lines[i])
    ensures exists k :: 0 <= k < |Numbered(lines, keep)| && Numbered(lines, keep)[k].0 == i + 1
  {
    var init := lines[..|lines| - 1];
    var r := Numbered(lines, keep);
    var p := Numbered(init, keep);
    if i == |lines| - 1 {
      assert r[|p|].0 == i + 1;
    } else {
      assert init[i] == lines[i];
      NumberedComplete(init, keep, i);
      var k :| 0 <= k < |p| && p[k].0 == i + 1;
      assert r[k] == p[k];
    }
  }

  /**
   * What `run_regex` returns: 1-based, strictly increasing line numbers of
   * lines the pattern finds and no exclusion pattern matches, each with its
   * stripped text, and every such line is there.
   */
  lemma {:induction false} RunRegexResults(lines: seq<string>, found: string -> bool, results: seq<(int, string)>)
    requires results == Numbered(lines, ReportedBy(found))
    ensures forall k :: 0 <= k < |results| ==>
      1 <= results[k].0 <= |lines| && Reported(lines[results[k].0 - 1], found) &&
      results[k].1 == Strip(lines[results[k].0 - 1])
    ensures forall k, l :: 0 <= k < l < |results| ==> results[k].0 < results[l].0
    ensures forall i :: 0 <= i < |lines| && Reported(lines[i], found) ==>
      exists k :: 0 <= k < |results| && results[k].0 == i + 1
  {
    ResultsSound(lines, found, results);
    NumberedIncreasing(lines, ReportedBy(found));
    ResultsComplete(lines, found, results);
  }

  lemma {:induction false} ResultsSound(lines: seq<string>, found: string -> bool, results: seq<(int, string)>)
    requires results == Numbered(lines, ReportedBy(found))
    ensures forall k :: 0 <= k < |results| ==>
      1 <= results[k].0 <= |lines| && Reported(lines[results[k].0 - 1], found) &&
      results[k].1 == Strip(lines[results[k].0 - 1])
  {
    var keep := ReportedBy(found);
    NumberedSound(lines, keep);
    forall k | 0 <= k < |results|
      ensures 1 <= results[k].0 <= |lines| && Reported(lines[results[k].0 - 1], found) &&
        results[k].1 == Strip(lines[results[k].0 - 1])
    {
      assert EntryOf(lines, keep, results[k]);
      assert keep(lines[results[k].0 - 1]);
    }
  }

  lemma {:induction false} ResultsComplete(lines: seq<string>, found: string -> bool, results: seq<(int, string)>)
    requires results == Numbered(lines, ReportedBy(found))
    ensures forall i :: 0 <= i < |lines| && Reported(lines[i], found) ==>
      exists k :: 0 <= k < |results| && results[k].0 == i + 1
  {
    var keep := ReportedBy(found);
    forall i | 0 <= i < |lines| && Reported(lines[i], found)
      ensures exists k :: 0 <= k < |results| && results[k].0 == i + 1
    {
      assert keep(lines[i]);
      NumberedComplete(lines, keep, i);
    }
  }

  /** A line the scan reports: the pattern finds it and no exclusion pattern matches it. */
  predicate Reported(line: string, found: string -> bool) {
    found(line) && !Excluded(line)
  }

  /** The filter `run_regex` applies, as a value. */
  function ReportedBy(found: string -> bool): string -> bool {
    line => Reported(line, found)
  }

  /** An excluded line is never reported, whatever the pattern finds. */
  lemma CommentsNeverReported(line: string, found: string -> bool)
    requires StartsWith(StripLeft(line), "//")
    ensures !Reported(line, found)
  {
  }

  // ---------------------------------------------------------------------

  /** `java_files_from_files`: the Java paths, in the order given. */
  function JavaFilesFromFiles(files: seq<string>): (r: seq<string>)
    ensures forall p :: p in r <==> p in files && IsJavaFile(p)
    ensures |r| <= |files|
  {
    if files == [] then [] else KeepJava(files[0]) + JavaFilesFromFiles(files[1..])
  }

  function KeepJava(p: string): (r: seq<string>)
    ensures r == [] || r == [p]
    ensures p in r <==> IsJavaFile(p)
  {
    if IsJavaFile(p) then [p] else []
  }

  /** Filtering a concatenation filters each part in turn, so the order is kept. */
  lemma {:induction false} JavaFilesAppend(a: seq<string>, b: seq<string>)
    ensures JavaFilesFromFiles(a + b) == JavaFilesFromFiles(a) + JavaFilesFromFiles(b)
  {
    if a == [] {
      assert a + b == b;
    } else {
      var ab := a + b;
      assert ab[0] == a[0] && ab[1..] == a[1..] + b;
      JavaFilesAppend(a[1..], b);
    }
  }

  /**
   * `remove_dict_entry_by_value(d, key)`: drops every entry whose value equals
   * `d.get(key)`; when `key` is absent that is None, which no value equals.
   */
  function RemoveDictEntryByValue<V(==)>(d: map<string, V>, key: string): (r: map<string, V>)
    ensures forall k :: k in r <==> k in d && (key !in d || d[k] != d[key])
    ensures forall k :: k in r ==> r[k] == d[k]
  {
    map k | k in d && (key !in d || d[k] != d[key]) :: d[k]
  }

  /** The entry named by the key goes, and so does every other name for the same value. */
  lemma RemoveDropsSharedValue<V>(d: map<string, V>, key: string, other: string)
    requires key in d && other in d && d[other] == d[key]
    ensures key !in RemoveDictEntryByValue(d, key) && other !in RemoveDictEntryByValue(d, key)
  {
  }

  /** An absent key removes nothing. */
  lemma RemoveAbsentKeyKeepsAll<V>(d: map<string, V>, key: string)
    requires key !in d
    ensures RemoveDictEntryByValue(d, key) == d
  {
  }

  /**
   * `valid_method_invocation`: a method call named `name` with exactly `n`
   * arguments. Any other kind of node has no `member` and never matches.
   */
  predicate ValidMethodInvocation(node: JNode, name: string, n: int) {
    node.Invocation? && node.member == name && |node.arguments| == n
  }

  /**
   * A call matches exactly its own name and argument count; a node that is
   * not a call (it has no `member`) matches nothing.
   */
  lemma ValidMethodInvocationExact(node: JNode)
    ensures node.Invocation? ==> ValidMethodInvocation(node, node.member, |node.arguments|)
    ensures forall name, n :: ValidMethodInvocation(node, name, n) ==>
      node.Invocation? && name == node.member && n == |node.arguments|
  {
  }

  // ---------------------------------------------------------------------

  predicate IsManifestPath(f: string) {
    EndsWith(Lower(f), "/androidmanifest.xml")
  }

  /**
   * `get_min_sdk_from_files`: `apk_constants["min_sdk"]` when present;
   * otherwise the minSdkVersion of the first file whose lower-cased path ends
   * in "/androidmanifest.xml"; otherwise 1.
   */
  method GetMinSdkFromFiles(files: seq<string>, apkConstants: Option<map<string, int>>, disk: Disk)
    returns (r: int)
    ensures apkConstants.Some? && "min_sdk" in apkConstants.value ==> r == apkConstants.value["min_sdk"]
    ensures !(apkConstants.Some? && "min_sdk" in apkConstants.value) ==>
      (exists i :: 0 <= i < |files| && IsManifestPath(files[i]) &&
         (forall j :: 0 <= j < i ==> !IsManifestPath(files[j])) &&
         r == GetMinSdk(PathSource(files[i]), [], NoSource, disk)) ||
      ((forall j :: 0 <= j < |files| ==> !IsManifestPath(files[j])) && r == 1)
  {
    if apkConstants.Some? && "min_sdk" in apkConstants.value {
      return apkConstants.value["min_sdk"];
    }
    var i := 0;
    while i < |files|
      invariant 0 <= i <= |files|
      invariant forall j :: 0 <= j < i ==> !IsManifestPath(files[j])
    {
      if IsManifestPath(files[i]) {
        return GetMinSdk(PathSource(files[i]), [], NoSource, disk);
      }
      i := i + 1;
    }
    return 1;
  }
}
