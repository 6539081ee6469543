/**
 * plugins/file/android_logging.py: a node-stream rule that records, across
 * all files, the lines of `Log.<m>(...)` calls, and after the last file
 * reports them all in one issue.
 *
 * `detected_logs` maps each file path (None when no path was set) to a set
 * of line numbers, and keeps its keys in insertion order. Here it is a
 * `LogTable`: the keys in insertion order, and for each key its lines as a
 * strictly increasing sequence, which is how a set of integers is written
 * down once sorted.
 */
module AndroidLogging {
  import opened Wrappers
  import opened Text
  import opened Findings
  import opened JavaAst

  const LoggingMethods: seq<string> := ["v", "d", "i", "w", "e", "f", "println"]

  datatype LogTable = LogTable(files: seq<Option<string>>, lines: map<Option<string>, seq<int>>)

  const EmptyTable: LogTable := LogTable([], map[])

  ghost predicate Increasing(xs: seq<int>) {
    forall i, j :: 0 <= i < j < |xs| ==> xs[i] < xs[j]
  }

  /** Keys listed once each, exactly the map's keys, each line list increasing. */
  ghost predicate ValidTable(t: LogTable) {
    (forall i, j :: 0 <= i < j < |t.files| ==> t.files[i] != t.files[j]) &&
    (forall f :: f in t.lines <==> f in t.files) &&
    (forall f :: f in t.lines ==> Increasing(t.lines[f]))
  }

  /** `set.add` on a set kept as an increasing sequence. */
  function AddLine(xs: seq<int>, x: int): (r: seq<int>)
    ensures Increasing(xs) ==> Increasing(r)
    ensures forall y :: y in r <==> y in xs || y == x
  {
    if xs == [] then [x]
    else if x < xs[0] then [x] + xs
    else if x == xs[0] then xs
    else
      var rest := AddLine(xs[1..], x);
      assert forall y :: y in xs <==> y == xs[0] || y in xs[1..];
      assert Increasing(xs) ==> forall k :: 0 <= k < |rest| ==> xs[0] < rest[k] by {
        if Increasing(xs) {
          forall k | 0 <= k < |rest| ensures xs[0] < rest[k] {
            assert rest[k] in rest;
          }
        }
      }
      [xs[0]] + rest
  }

  /** A call the rule looks for: `Log.<m>(...)` with `m` one of the logging methods. */
  predicate IsLogCall(node: JNode) {
    node.Invocation? && node.qualifier == "Log" && node.member in LoggingMethods
  }

  /**
   * What one streamed node does to `detected_logs`: a logging call creates
   * the entry for the current file if it is missing, then adds its line when
   * the call has a position with a non-zero line.
   */
  function Record(t: LogTable, filePath: Option<string>, node: JNode): (r: LogTable)
    ensures ValidTable(t) ==> ValidTable(r)
  {
    if !IsLogCall(node) then t
    else
      var t1 := if filePath in t.lines then t else LogTable(t.files + [filePath], t.lines[filePath := []]);
      assert ValidTable(t) ==> forall f :: f in t1.lines <==> f in t1.files;
      if node.position.Some? && node.position.value.line != 0 then
        t1.(lines := t1.lines[filePath := AddLine(t1.lines[filePath], node.position.value.line)])
      else t1
  }

  // ---------------------------------------------------------------------
  // finalize

  const IssueName: string := "Logging statements detected"
  const StandardId: string := "MSTG-STORAGE-8"

  /** How Python prints a key: the path, or `None`. */
  function FileText(f: Option<string>): string {
    match f
    case Some(p) => p
    case None => "None"
  }

  /** `", ".join(str(ln) for ln in sorted(lines))`. */
  function JoinLines(xs: seq<int>): string {
    if xs == [] then ""
    else if |xs| == 1 then IntToString(xs[0])
    else JoinLines(xs[..|xs| - 1]) + ", " + IntToString(xs[|xs| - 1])
  }

  /** One line of the file list: `- {file} (lines: {line_list})`. */
  function Entry(f: Option<string>, xs: seq<int>): string {
    "- " + FileText(f) + " (lines: " + JoinLines(xs) + ")"
  }

  /** The file list, one entry per key in insertion order. */
  function Entries(t: LogTable): (r: seq<string>)
    requires forall f :: f in t.files ==> f in t.lines
    ensures |r| == |t.files|
    ensures forall k :: 0 <= k < |r| ==> r[k] == Entry(t.files[k], t.lines[t.files[k]])
    decreases |t.files|
  {
    if t.files == [] then []
    else
      var init := LogTable(t.files[..|t.files| - 1], t.lines);
      var last := t.files[|t.files| - 1];
      Entries(init) + [Entry(last, t.lines[last])]
  }

  /**
   * The summary issue: the number of files, then the file list, filled into
   * the rule's message; the WARNING severity, the storage standard and the
   * OWASP references M2 and M10.
   */
  function SummaryIssue(count: nat, entries: seq<string>): Issue {
    NewIssue("file", IssueName, Member(Warning), Template("detected_logs_summary", [NatToString(count)] + entries),
             None, None, None, Some(StandardId), Some(Named("standard_description")), Some(["M2", "M10"]))
  }

  /** The issues `finalize` appends: one summary when anything was recorded, none otherwise. */
  function FinalIssues(t: LogTable): seq<Issue>
    requires forall f :: f in t.files ==> f in t.lines
  {
    if t.files == [] then [] else [SummaryIssue(|t.files|, Entries(t))]
  }

  lemma EntriesSnoc(t: LogTable, i: int)
    requires forall f :: f in t.files ==> f in t.lines
    requires 0 <= i < |t.files|
    ensures Entries(LogTable(t.files[..i + 1], t.lines)) ==
      Entries(LogTable(t.files[..i], t.lines)) + [Entry(t.files[i], t.lines[t.files[i]])]
  {
    var next := LogTable(t.files[..i + 1], t.lines);
    assert next.files[..|next.files| - 1] == t.files[..i];
  }

  /** `finalize`: the loop over the recorded files building the list, then the one issue. */
  method Finalize(t: LogTable) returns (added: seq<Issue>)
    requires forall f :: f in t.files ==> f in t.lines
    ensures added == FinalIssues(t)
  {
    if t.files == [] {
      return [];
    }
    var descriptions: seq<string> := [];
    var i := 0;
    while i < |t.files|
      invariant 0 <= i <= |t.files|
      invariant descriptions == Entries(LogTable(t.files[..i], t.lines))
    {
      EntriesSnoc(t, i);
      descriptions := descriptions + [Entry(t.files[i], t.lines[t.files[i]])];
      i := i + 1;
    }
    assert t.files[..i] == t.files;
    added := [SummaryIssue(|t.files|, descriptions)];
  }

  // ---------------------------------------------------------------------
  // Properties.

  /** Only logging calls change the table. */
  lemma OnlyLogCallsRecorded(t: LogTable, filePath: Option<string>, node: JNode)
    requires ValidTable(t) && !IsLogCall(node)
    ensures Record(t, filePath, node) == t
  {
  }

  /**
   * A logging call always leaves an entry for the current file, with or
   * without a position; the lines are the old ones plus the call's line
   * when it has a non-zero one.
   */
  lemma LogCallRecorded(t: LogTable, filePath: Option<string>, node: JNode)
    requires ValidTable(t) && IsLogCall(node)
    ensures var r := Record(t, filePath, node);
      filePath in r.lines && r.files[..|t.files|] == t.files &&
      (forall f :: f != filePath && f in t.lines ==> f in r.lines && r.lines[f] == t.lines[f]) &&
      (forall y :: y in r.lines[filePath] <==>
        (filePath in t.lines && y in t.lines[filePath]) ||
        (node.position.Some? && node.position.value.line != 0 && y == node.position.value.line))
  {
  }

  lemma {:induction false} AddLineAgain(xs: seq<int>, x: int)
    requires Increasing(xs)
    ensures AddLine(AddLine(xs, x), x) == AddLine(xs, x)
  {
    if xs != [] && x > xs[0] {
      AddLineAgain(xs[1..], x);
    }
  }

  /** The same call streamed twice records nothing new: lines form a set. */
  lemma RecordTwiceIsOnce(t: LogTable, filePath: Option<string>, node: JNode)
    requires ValidTable(t)
    ensures Record(Record(t, filePath, node), filePath, node) == Record(t, filePath, node)
  {
    if IsLogCall(node) {
      var r1 := Record(t, filePath, node);
      assert filePath in r1.lines;
      if node.position.Some? && node.position.value.line != 0 {
        var x := node.position.value.line;
        var t1 := if filePath in t.lines then t else LogTable(t.files + [filePath], t.lines[filePath := []]);
        assert r1 == t1.(lines := t1.lines[filePath := AddLine(t1.lines[filePath], x)]);
        AddLineAgain(t1.lines[filePath], x);
        assert AddLine(r1.lines[filePath], x) == r1.lines[filePath];
        assert r1.lines[filePath := r1.lines[filePath]] == r1.lines;
      } else {
        assert Record(r1, filePath, node) == r1;
      }
    }
  }

  /** Nothing recorded, nothing reported. */
  lemma NothingRecordedNoIssue()
    ensures FinalIssues(EmptyTable) == []
  {
  }

  /**
   * Something recorded: exactly one WARNING, whose first field is the number
   * of files recorded and whose file list is `Entries`, one entry per file in
   * the order the files were first seen; each file's lines are in increasing
   * order.
   */
  lemma SummaryReportsEveryFile(t: LogTable)
    requires ValidTable(t) && t.files != []
    ensures var r := FinalIssues(t);
      |r| == 1 && r[0].severity == Warning && r[0].name == IssueName &&
      r[0].description == Template("detected_logs_summary", [NatToString(|t.lines|)] + Entries(t))
    ensures forall k :: 0 <= k < |t.files| ==> Increasing(t.lines[t.files[k]])
  {
    TableSize(t);
  }

  /** As many keys as files listed. */
  lemma TableSize(t: LogTable)
    requires ValidTable(t)
    ensures |t.lines| == |t.files|
  {
    DistinctCount(t.files);
    assert t.lines.Keys == set f | f in t.files;
  }

  lemma {:induction false} DistinctCount(fs: seq<Option<string>>)
    requires forall i, j :: 0 <= i < j < |fs| ==> fs[i] != fs[j]
    ensures |set f | f in fs| == |fs|
  {
    if fs != [] {
      var init := fs[..|fs| - 1];
      DistinctCount(init);
      assert (set f | f in fs) == (set f | f in init) + {fs[|fs| - 1]};
    }
  }
}
