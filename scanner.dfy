/**
 * scanner/scanner.py: the scanner that loads the plugins category by
 * category, runs the manifest rules once, then drives every observer
 * plugin over every gathered file, and collects the issues.
 *
 * For each file the observers are notified in registration order (each
 * updates the shared file state and may run), then, when the file has a
 * parse tree, the node-stream plugins are primed and fed every node of the
 * tree, then every observer resets the shared state. After the last file
 * the plugins with a `finalize` run it, and the issues of every observer
 * are appended in registration order.
 *
 * Plugin loading is a parameter: for each category, the modules its
 * directory lists, each with the plugin object it defines. The directory
 * walk is a parameter too: the joined paths it yields, in walk order.
 */
module Scanner {
  import opened Wrappers
  import opened Findings
  import opened JavaAst
  import opened Paths
  import opened ManifestHelpers
  import opened ScannerPlugin
  import opened Rules

  const PluginCategories: seq<string> := ["manifest", "broadcast", "file", "crypto", "intent", "cert", "webview", "generic"]

  ghost predicate Distinct(rs: seq<Rule>) {
    forall j, k :: 0 <= j < k < |rs| ==> rs[j] != rs[k]
  }

  /**
   * The registered observers as `_run_checks` leaves them: distinct, all
   * file observers, and `coroutines` the node-stream ones among them, in order.
   */
  ghost predicate Wired(observers: seq<Rule>, coroutines: seq<Rule>) {
    Distinct(observers) && coroutines == CoroutineRules(observers) && Distinct(coroutines) &&
    forall j :: 0 <= j < |observers| ==> IsObserver(observers[j].kind)
  }

  /** The rules' slots are `values`, position by position. */
  ghost predicate Hold(rs: seq<Rule>, values: seq<Slot>)
    reads rs
  {
    |values| == |rs| && forall j :: 0 <= j < |rs| ==> rs[j].Current() == values[j]
  }

  /** `isinstance(observer, PluginObserver)`, keeping the order. */
  function ObserverRules(rs: seq<Rule>): (r: seq<Rule>)
    ensures forall j :: 0 <= j < |r| ==> r[j] in rs && IsObserver(r[j].kind)
    ensures forall j :: 0 <= j < |rs| && IsObserver(rs[j].kind) ==> rs[j] in r
  {
    if rs == [] then []
    else ObserverRules(rs[..|rs| - 1]) + (if IsObserver(rs[|rs| - 1].kind) then [rs[|rs| - 1]] else [])
  }

  /** `isinstance(coro, CoroutinePlugin)`, keeping the order. */
  function CoroutineRules(rs: seq<Rule>): (r: seq<Rule>)
    ensures forall j :: 0 <= j < |r| ==> r[j] in rs && IsCoroutine(r[j].kind)
    ensures forall j :: 0 <= j < |rs| && IsCoroutine(rs[j].kind) ==> rs[j] in r
  {
    if rs == [] then []
    else CoroutineRules(rs[..|rs| - 1]) + (if IsCoroutine(rs[|rs| - 1].kind) then [rs[|rs| - 1]] else [])
  }

  /** The same filter on values. */
  function Observers(xs: seq<Slot>): (r: seq<Slot>)
    ensures forall x :: x in r ==> x in xs && IsObserver(x.kind)
  {
    if xs == [] then []
    else Observers(xs[..|xs| - 1]) + (if IsObserver(xs[|xs| - 1].kind) then [xs[|xs| - 1]] else [])
  }

  // ---------------------------------------------------------------------
  // The per-file cycle, on values.

  /**
   * `Subject.notify`: each observer in order updates the shared state and,
   * when its class says so, runs on what the state then holds.
   */
  function NotifyAll(xs: seq<Slot>, s: FileState, path: string, fs: FileSystem,
                     parser: string -> Option<Tree>): (r: (seq<Slot>, FileState))
    requires path != "" && Coherent(s)
    ensures |r.0| == |xs| && Coherent(r.1)
    ensures forall j :: 0 <= j < |xs| ==>
      r.0[j].kind == xs[j].kind && r.0[j].value.logs == xs[j].value.logs &&
      r.0[j].value.broadcast == xs[j].value.broadcast
    decreases |xs|
  {
    if xs == [] then ([], s)
    else
      var (front, s1) := NotifyAll(xs[..|xs| - 1], s, path, fs, parser);
      var last := xs[|xs| - 1];
      var s2 := Step(LevelOf(last.kind), s1, path, fs, parser);
      (front + [Updated(last, s2)], s2)
  }

  /** `Subject.reset`: each observer's reset, in order. */
  function ClearAll(xs: seq<Slot>, s: FileState): FileState
    decreases |xs|
  {
    if xs == [] then s else Clear(LevelOf(xs[|xs| - 1].kind), ClearAll(xs[..|xs| - 1], s))
  }

  /** `notify_coroutines` on every rule: the node-stream ones are primed and fed the tree. */
  function StreamAll(xs: seq<Slot>, s: FileState, minSdk: int): (r: seq<Slot>)
    ensures |r| == |xs|
    ensures forall j :: 0 <= j < |xs| ==> r[j] == Streamed(xs[j], s, minSdk)
    decreases |xs|
  {
    if xs == [] then [] else StreamAll(xs[..|xs| - 1], s, minSdk) + [Streamed(xs[|xs| - 1], s, minSdk)]
  }

  /**
   * One file: notify from the fresh shared state, then stream. (The reset
   * brings the shared state back to fresh; see `CycleEndsFresh`.)
   */
  function Cycle(xs: seq<Slot>, path: string, fs: FileSystem, parser: string -> Option<Tree>, minSdk: int): (r: seq<Slot>)
    requires path != ""
    ensures |r| == |xs|
    ensures forall j :: 0 <= j < |xs| ==> r[j].kind == xs[j].kind
  {
    var (ys, s1) := NotifyAll(xs, Fresh, path, fs, parser);
    StreamAll(ys, s1, minSdk)
  }

  ghost predicate NonEmptyPaths(files: seq<string>) {
    forall i :: 0 <= i < |files| ==> files[i] != ""
  }

  /** Every file in turn. */
  function ScanFiles(xs: seq<Slot>, files: seq<string>, fs: FileSystem, parser: string -> Option<Tree>,
                     minSdk: int): (r: seq<Slot>)
    requires NonEmptyPaths(files)
    ensures |r| == |xs|
    ensures forall j :: 0 <= j < |xs| ==> r[j].kind == xs[j].kind
    decreases |files|
  {
    if files == [] then xs
    else Cycle(ScanFiles(xs, files[..|files| - 1], fs, parser, minSdk), files[|files| - 1], fs, parser, minSdk)
  }

  function FinalizeAll(xs: seq<Slot>): (r: seq<Slot>)
    ensures |r| == |xs| && forall j :: 0 <= j < |xs| ==> r[j] == Finalized(xs[j])
    decreases |xs|
  {
    if xs == [] then [] else FinalizeAll(xs[..|xs| - 1]) + [Finalized(xs[|xs| - 1])]
  }

  /** The issues of every plugin, in order. */
  function Collect(xs: seq<Slot>): seq<Issue>
    decreases |xs|
  {
    if xs == [] then [] else Collect(xs[..|xs| - 1]) + xs[|xs| - 1].value.issues
  }

  /** What `_run_checks` appends, given the plugins it is handed. */
  function ChecksIssues(xs: seq<Slot>, files: seq<string>, fs: FileSystem, parser: string -> Option<Tree>,
                        minSdk: int): seq<Issue>
    requires NonEmptyPaths(files)
  {
    Collect(FinalizeAll(ScanFiles(Observers(xs), files, fs, parser, minSdk)))
  }

  /** The manifest pass: each manifest rule runs, then its whole issue list is appended. */
  function ManifestRuns(xs: seq<Slot>, m: ManifestValue, allFiles: seq<string>, parsed: string -> Option<Tree>): seq<Issue>
    requires forall j :: 0 <= j < |xs| ==> !IsObserver(xs[j].kind)
    decreases |xs|
  {
    if xs == [] then []
    else ManifestRuns(xs[..|xs| - 1], m, allFiles, parsed) + ManifestRan(xs[|xs| - 1], m, allFiles, parsed).value.issues
  }

  // ---------------------------------------------------------------------
  // Files.

  /** A set built by adding each element in turn, listed in first-seen order. */
  function Dedup(xs: seq<string>): (r: seq<string>)
    ensures forall x :: x in r <==> x in xs
    ensures forall j, k :: 0 <= j < k < |r| ==> r[j] != r[k]
  {
    if xs == [] then []
    else
      var init := Dedup(xs[..|xs| - 1]);
      var x := xs[|xs| - 1];
      assert forall y :: y in xs <==> y in xs[..|xs| - 1] || y == x;
      if x in init then init else init + [x]
  }

  /** `_gather_files`: a `.java` source path alone, otherwise every file the walk yields. */
  function Gathered(pathToSource: string, walked: seq<string>): (r: seq<string>)
    ensures IsJavaFile(pathToSource) ==> r == [pathToSource]
    ensures !IsJavaFile(pathToSource) ==> forall x :: x in r <==> x in walked
    ensures forall j, k :: 0 <= j < k < |r| ==> r[j] != r[k]
  {
    if IsJavaFile(pathToSource) then [pathToSource] else Dedup(walked)
  }

  // ---------------------------------------------------------------------
  // The objects. Each method that walks a list of plugin objects is given,
  // as a ghost argument, the values those objects hold on entry, and states
  // what each object holds on exit in terms of the functions above.

  class Subject {
    var observers: seq<Rule>

    constructor()
      ensures observers == []
    {
      observers := [];
    }

    method Register(observer: Rule)
      modifies this
      ensures observers == old(observers) + [observer]
    {
      observers := observers + [observer];
    }

    /** `notify`: each observer in turn updates the shared state and may run. */
    method Notify(path: string, cache: FileCache, fs: FileSystem, parser: string -> Option<Tree>, ghost before: seq<Slot>)
      requires path != "" && Coherent(cache.State()) && Distinct(observers) && Hold(observers, before)
      requires forall j :: 0 <= j < |observers| ==> IsObserver(observers[j].kind)
      modifies observers, cache
      ensures cache.State() == NotifyAll(before, old(cache.State()), path, fs, parser).1
      ensures Hold(observers, NotifyAll(before, old(cache.State()), path, fs, parser).0)
    {
      ghost var s0 := cache.State();
      var i := 0;
      while i < |observers|
        invariant 0 <= i <= |observers|
        invariant cache.State() == NotifyAll(before[..i], s0, path, fs, parser).1
        invariant forall j :: 0 <= j < i ==> observers[j].Current() == NotifyAll(before[..i], s0, path, fs, parser).0[j]
        invariant forall j :: i <= j < |observers| ==> observers[j].Current() == before[j]
      {
        NotifyStep(observers, i, path, cache, fs, parser, before, s0);
        i := i + 1;
      }
      assert before[..i] == before;
      ghost var all := NotifyAll(before, s0, path, fs, parser).0;
      assert forall j :: 0 <= j < |observers| ==> observers[j].Current() == all[j];
    }

    /** `reset`: each observer's reset, in order; only their classes matter. */
    method Reset(cache: FileCache, ghost kinds: seq<Slot>)
      requires |kinds| == |observers| && forall j :: 0 <= j < |observers| ==> observers[j].kind == kinds[j].kind
      modifies cache
      ensures cache.State() == ClearAll(kinds, old(cache.State()))
      ensures unchanged(observers)
    {
      ghost var s0 := cache.State();
      var i := 0;
      while i < |observers|
        invariant 0 <= i <= |observers|
        invariant cache.State() == ClearAll(kinds[..i], s0)
      {
        observers[i].Reset(cache);
        assert kinds[..i + 1][..i] == kinds[..i];
        i := i + 1;
      }
      assert kinds[..i] == kinds;
    }
  }

  /** The body of the notify loop, for observer `i`. */
  method NotifyStep(observers: seq<Rule>, i: int, path: string, cache: FileCache, fs: FileSystem,
                    parser: string -> Option<Tree>, ghost before: seq<Slot>, ghost s0: FileState)
    requires 0 <= i < |observers| == |before| && Distinct(observers) && IsObserver(observers[i].kind)
    requires path != "" && Coherent(s0)
    requires cache.State() == NotifyAll(before[..i], s0, path, fs, parser).1
    requires forall j :: 0 <= j < i ==> observers[j].Current() == NotifyAll(before[..i], s0, path, fs, parser).0[j]
    requires forall j :: i <= j < |observers| ==> observers[j].Current() == before[j]
    modifies observers[i], cache
    ensures cache.State() == NotifyAll(before[..i + 1], s0, path, fs, parser).1
    ensures forall j :: 0 <= j < i + 1 ==> observers[j].Current() == NotifyAll(before[..i + 1], s0, path, fs, parser).0[j]
    ensures forall j :: i + 1 <= j < |observers| ==> observers[j].Current() == before[j]
  {
    ghost var front := NotifyAll(before[..i], s0, path, fs, parser).0;
    assert before[..i + 1][..i] == before[..i];
    var r := observers[i];
    r.Update(path, cache, fs, parser);
    ghost var next := NotifyAll(before[..i + 1], s0, path, fs, parser);
    assert next == (front + [Updated(before[i], cache.State())], cache.State());
    forall j | 0 <= j < i + 1 ensures observers[j].Current() == next.0[j] {
      if j < i {
        assert observers[j] != r;
      }
    }
    forall j | i + 1 <= j < |observers| ensures observers[j].Current() == before[j] {
      assert observers[j] != r;
    }
  }

  /** One `send` of a node to every primed coroutine, in order. */
  method SendNode(coroutines: seq<Rule>, go: seq<bool>, filePath: Option<string>, node: JNode, ghost before: seq<Slot>)
    requires |go| == |coroutines| == |before| && Distinct(coroutines)
    requires forall j :: 0 <= j < |coroutines| ==> coroutines[j].Current() == before[j] && IsCoroutine(before[j].kind)
    modifies coroutines
    ensures forall j :: 0 <= j < |coroutines| ==>
      coroutines[j].Current() == (if go[j] then Received(before[j], filePath, node) else before[j])
  {
    var i := 0;
    while i < |coroutines|
      invariant 0 <= i <= |coroutines|
      invariant forall j :: 0 <= j < i ==>
        coroutines[j].Current() == (if go[j] then Received(before[j], filePath, node) else before[j])
      invariant forall j :: i <= j < |coroutines| ==> coroutines[j].Current() == before[j]
    {
      if go[i] {
        coroutines[i].Receive(filePath, node);
      }
      i := i + 1;
    }
  }

  /** The priming loop of `notify_coroutines`: ask each plugin whether it can run. */
  method PrimeAll(coroutines: seq<Rule>, cache: FileCache, minSdk: int, ghost before: seq<Slot>)
      returns (go: seq<bool>, ghost primed: seq<Slot>)
    requires Distinct(coroutines) && |before| == |coroutines|
    requires forall j :: 0 <= j < |coroutines| ==> IsCoroutine(before[j].kind) && coroutines[j].Current() == before[j]
    modifies coroutines
    ensures |go| == |primed| == |coroutines|
    ensures forall j :: 0 <= j < |coroutines| ==>
      coroutines[j].Current() == primed[j] && (primed[j], go[j]) == Primed(before[j], cache.State(), minSdk)
  {
    go := [];
    primed := [];
    var i := 0;
    while i < |coroutines|
      invariant 0 <= i <= |coroutines| && |go| == |primed| == i
      invariant forall j :: 0 <= j < i ==>
        coroutines[j].Current() == primed[j] && (primed[j], go[j]) == Primed(before[j], cache.State(), minSdk)
      invariant forall j :: i <= j < |coroutines| ==> coroutines[j].Current() == before[j]
    {
      var canRun := coroutines[i].CanRunCoroutine(cache, minSdk);
      go := go + [canRun];
      primed := primed + [coroutines[i].Current()];
      i := i + 1;
    }
  }

  /**
   * `notify_coroutines`: with a tree, every node-stream plugin is asked
   * whether it can run (which sets its fields), then each node of the tree
   * goes to each plugin that can, node by node.
   */
  method NotifyCoroutines(coroutines: seq<Rule>, cache: FileCache, minSdk: int, ghost before: seq<Slot>)
    requires Distinct(coroutines) && Coherent(cache.State()) && |before| == |coroutines|
    requires forall j :: 0 <= j < |coroutines| ==> IsCoroutine(coroutines[j].kind)
    requires forall j :: 0 <= j < |coroutines| ==> coroutines[j].Current() == before[j]
    modifies coroutines
    ensures forall j :: 0 <= j < |coroutines| ==> coroutines[j].Current() == Streamed(before[j], cache.State(), minSdk)
  {
    if cache.ast.None? {
      return;
    }
    var go, primed := PrimeAll(coroutines, cache, minSdk, before);
    var nodes := Nodes(cache.ast.value);
    var k := 0;
    while k < |nodes|
      invariant 0 <= k <= |nodes|
      invariant forall j :: 0 <= j < |coroutines| ==> IsCoroutine(primed[j].kind)
      invariant forall j :: 0 <= j < |coroutines| ==>
        coroutines[j].Current() == (if go[j] then ReceivedAll(primed[j], cache.filePath, nodes[..k]) else primed[j])
    {
      ghost var now := seq(|coroutines|, j requires 0 <= j < |coroutines| reads coroutines => coroutines[j].Current());
      SendNode(coroutines, go, cache.filePath, nodes[k], now);
      assert nodes[..k + 1][..k] == nodes[..k];
      k := k + 1;
    }
    assert nodes[..k] == nodes;
  }

  /** The `notify_coroutines` step of one iteration, seen from the whole list of observers. */
  method StreamObservers(observers: seq<Rule>, coroutines: seq<Rule>, cache: FileCache, minSdk: int, ghost ys: seq<Slot>)
    requires Wired(observers, coroutines) && Coherent(cache.State()) && Hold(observers, ys)
    modifies observers
    ensures cache.State() == old(cache.State())
    ensures Hold(observers, StreamAll(ys, cache.State(), minSdk))
  {
    ghost var cs := seq(|coroutines|, k requires 0 <= k < |coroutines| reads coroutines => coroutines[k].Current());
    NotifyCoroutines(coroutines, cache, minSdk, cs);
    forall j | 0 <= j < |observers| ensures observers[j].Current() == Streamed(ys[j], cache.State(), minSdk) {
      if IsCoroutine(observers[j].kind) {
        var k :| 0 <= k < |coroutines| && coroutines[k] == observers[j];
      } else {
        assert observers[j] !in coroutines;
      }
    }
  }

  /**
   * One iteration of the file loop: notify, stream, reset. The shared state
   * starts and ends fresh.
   */
  method ScanFile(subject: Subject, coroutines: seq<Rule>, path: string, cache: FileCache, minSdk: int,
                  fs: FileSystem, parser: string -> Option<Tree>, ghost before: seq<Slot>)
    requires path != "" && cache.State() == Fresh
    requires Wired(subject.observers, coroutines) && Hold(subject.observers, before)
    modifies subject.observers, cache
    ensures cache.State() == Fresh
    ensures Hold(subject.observers, Cycle(before, path, fs, parser, minSdk))
  {
    var observers := subject.observers;
    subject.Notify(path, cache, fs, parser, before);
    ghost var (ys, s1) := NotifyAll(before, Fresh, path, fs, parser);
    assert cache.State() == s1;
    ghost var streamed := StreamAll(ys, s1, minSdk);
    assert Cycle(before, path, fs, parser, minSdk) == streamed;
    StreamObservers(observers, coroutines, cache, minSdk, ys);
    assert Hold(observers, streamed);
    subject.Reset(cache, before);
    CycleEndsFresh(before, path, fs, parser);
  }

  /** Only the kinds matter to the resets. */
  lemma {:induction false} ClearAllKinds(zs: seq<Slot>, xs: seq<Slot>, s: FileState)
    requires |zs| == |xs| && forall j :: 0 <= j < |xs| ==> zs[j].kind == xs[j].kind
    ensures ClearAll(zs, s) == ClearAll(xs, s)
  {
    if xs != [] {
      ClearAllKinds(zs[..|zs| - 1], xs[..|xs| - 1], s);
    }
  }

  /** The deepest class among the observers. */
  function MaxLevel(xs: seq<Slot>): (m: Level)
    ensures forall j :: 0 <= j < |xs| ==> AtMost(LevelOf(xs[j].kind), m)
    ensures xs != [] ==> exists j :: 0 <= j < |xs| && LevelOf(xs[j].kind) == m
    decreases |xs|
  {
    if xs == [] then PathLevel
    else
      var m0 := MaxLevel(xs[..|xs| - 1]);
      var l := LevelOf(xs[|xs| - 1].kind);
      assert forall j :: 0 <= j < |xs| - 1 ==> xs[..|xs| - 1][j] == xs[j];
      if AtMost(m0, l) then l else m0
  }

  lemma {:induction false} NotifyStaysWithin(xs: seq<Slot>, s: FileState, bound: Level, path: string, fs: FileSystem,
                                             parser: string -> Option<Tree>)
    requires path != "" && Coherent(s) && Within(s, bound)
    requires forall j :: 0 <= j < |xs| ==> AtMost(LevelOf(xs[j].kind), bound)
    ensures Within(NotifyAll(xs, s, path, fs, parser).1, bound)
  {
    if xs != [] {
      var init := xs[..|xs| - 1];
      assert forall j :: 0 <= j < |init| ==> init[j] == xs[j];
      NotifyStaysWithin(init, s, bound, path, fs, parser);
      var s1 := NotifyAll(init, s, path, fs, parser).1;
      StepStaysWithin(LevelOf(xs[|xs| - 1].kind), bound, s1, path, fs, parser);
    }
  }

  lemma {:induction false} ClearsStayWithin(xs: seq<Slot>, s: FileState, bound: Level)
    requires Within(s, bound)
    ensures Within(ClearAll(xs, s), bound)
  {
    if xs != [] {
      ClearsStayWithin(xs[..|xs| - 1], s, bound);
      ClearRestores(LevelOf(xs[|xs| - 1].kind), bound, ClearAll(xs[..|xs| - 1], s));
    }
  }

  /** Resets that include one at the bound restore every attribute the bound covers. */
  lemma {:induction false} ClearsRestore(xs: seq<Slot>, s: FileState, bound: Level, k: int)
    requires Within(s, bound) && 0 <= k < |xs| && LevelOf(xs[k].kind) == bound
    ensures ClearAll(xs, s) == Fresh
  {
    var init := xs[..|xs| - 1];
    var last := LevelOf(xs[|xs| - 1].kind);
    if k < |xs| - 1 {
      assert init[k] == xs[k];
      ClearsRestore(init, s, bound, k);
      ClearRestores(last, last, Fresh);
    } else {
      ClearsStayWithin(init, s, bound);
      ClearRestores(last, last, ClearAll(init, s));
    }
  }

  /**
   * Whatever the observers, the per-file cycle leaves the shared state as
   * fresh as it found it: the deepest observer class's reset clears
   * everything any observer's update could have set.
   */
  lemma CycleEndsFresh(xs: seq<Slot>, path: string, fs: FileSystem, parser: string -> Option<Tree>)
    requires path != ""
    ensures ClearAll(xs, NotifyAll(xs, Fresh, path, fs, parser).1) == Fresh
  {
    if xs != [] {
      var m := MaxLevel(xs);
      NotifyStaysWithin(xs, Fresh, m, path, fs, parser);
      var k :| 0 <= k < |xs| && LevelOf(xs[k].kind) == m;
      ClearsRestore(xs, NotifyAll(xs, Fresh, path, fs, parser).1, m, k);
    }
  }

  /** What the observers hold: the same filter, on the objects and on their values. */
  lemma {:induction false} ObserverValues(rs: seq<Rule>, xs: seq<Slot>)
    requires Hold(rs, xs)
    ensures Hold(ObserverRules(rs), Observers(xs))
  {
    if rs != [] {
      var ri, xi := rs[..|rs| - 1], xs[..|xs| - 1];
      assert Hold(ri, xi) by {
        forall j | 0 <= j < |ri| ensures ri[j].Current() == xi[j] {
          assert ri[j] == rs[j] && xi[j] == xs[j];
        }
      }
      ObserverValues(ri, xi);
      var last := rs[|rs| - 1];
      assert last.Current() == xs[|xs| - 1];
      assert ObserverRules(rs) == ObserverRules(ri) + (if IsObserver(last.kind) then [last] else []);
      assert Observers(xs) == Observers(xi) + (if IsObserver(last.kind) then [xs[|xs| - 1]] else []);
    }
  }

  lemma {:induction false} FilteredDistinct(rs: seq<Rule>)
    requires Distinct(rs)
    ensures Distinct(ObserverRules(rs)) && Distinct(CoroutineRules(rs))
  {
    if rs != [] {
      var init := rs[..|rs| - 1];
      FilteredDistinct(init);
      assert rs[|rs| - 1] !in init;
    }
  }

  /** The finalize loop: every observer with a `finalize` runs it. */
  method FinalizeLoop(observers: seq<Rule>, ghost before: seq<Slot>)
    requires Distinct(observers) && |before| == |observers|
    requires forall j :: 0 <= j < |observers| ==> observers[j].Current() == before[j]
    modifies observers
    ensures forall j :: 0 <= j < |observers| ==> observers[j].Current() == Finalized(before[j])
  {
    var i := 0;
    while i < |observers|
      invariant 0 <= i <= |observers|
      invariant forall j :: 0 <= j < i ==> observers[j].Current() == Finalized(before[j])
      invariant forall j :: i <= j < |observers| ==> observers[j].Current() == before[j]
    {
      FinalizeOne(observers[i], before[i]);
      i := i + 1;
    }
  }

  /** One iteration of the finalize loop. */
  method FinalizeOne(r: Rule, ghost x: Slot)
    requires r.Current() == x
    modifies r
    ensures r.Current() == Finalized(x)
  {
    if HasFinalize(r.kind) {
      r.Finalize();
    }
  }

  /** The register loop of `_run_checks`. */
  method RegisterAll(subject: Subject, observers: seq<Rule>)
    requires subject.observers == []
    modifies subject
    ensures subject.observers == observers
  {
    var i := 0;
    while i < |observers|
      invariant 0 <= i <= |observers| && subject.observers == observers[..i]
    {
      subject.Register(observers[i]);
      assert observers[..i + 1] == observers[..i] + [observers[i]];
      i := i + 1;
    }
  }

  /** The file loop of `_run_checks`: notify, stream and reset for each file in turn. */
  method ScanAll(subject: Subject, coroutines: seq<Rule>, files: seq<string>, cache: FileCache, minSdk: int,
                 fs: FileSystem, parser: string -> Option<Tree>, ghost before: seq<Slot>)
    requires NonEmptyPaths(files) && cache.State() == Fresh
    requires Wired(subject.observers, coroutines) && Hold(subject.observers, before)
    modifies subject.observers, cache
    ensures cache.State() == Fresh
    ensures Hold(subject.observers, ScanFiles(before, files, fs, parser, minSdk))
  {
    var n := 0;
    ghost var cur := before;
    while n < |files|
      invariant 0 <= n <= |files| && cache.State() == Fresh
      invariant cur == ScanFiles(before, files[..n], fs, parser, minSdk) && Hold(subject.observers, cur)
    {
      ScanFile(subject, coroutines, files[n], cache, minSdk, fs, parser, cur);
      ScanFilesSnoc(before, files, n, fs, parser, minSdk);
      cur := Cycle(cur, files[n], fs, parser, minSdk);
      n := n + 1;
    }
    assert files[..n] == files;
  }

  lemma ScanFilesSnoc(xs: seq<Slot>, files: seq<string>, n: int, fs: FileSystem, parser: string -> Option<Tree>,
                      minSdk: int)
    requires NonEmptyPaths(files) && 0 <= n < |files|
    ensures ScanFiles(xs, files[..n + 1], fs, parser, minSdk) ==
      Cycle(ScanFiles(xs, files[..n], fs, parser, minSdk), files[n], fs, parser, minSdk)
  {
    assert files[..n + 1][..n] == files[..n];
  }

  /** `[plugin_source.load_plugin(name).plugin for name in get_plugins(category)]`. */
  method LoadCategory(listed: seq<Listed>) returns (plugins: seq<Rule>)
    ensures plugins == LoadPlugins(listed)
  {
    plugins := [];
    var i := 0;
    while i < |listed|
      invariant 0 <= i <= |listed| && plugins == LoadPlugins(listed[..i])
    {
      assert listed[..i + 1][..i] == listed[..i];
      if listed[i].name !in Denylist {
        plugins := plugins + [listed[i].plugin];
      }
      i := i + 1;
    }
    assert listed[..i] == listed;
  }

  /** A loaded plugin is an object some category module defines, so it exists before the scan. */
  lemma LoadedAllocated(catalog: seq<seq<Listed>>)
    requires |catalog| > 0
    ensures forall r :: r in LoadPlugins(catalog[0]) + LoadAll(catalog[1..]) ==> allocated(r)
  {
    forall r | r in LoadPlugins(catalog[0]) ensures allocated(r) {
      var i :| 0 <= i < |catalog[0]| && catalog[0][i].plugin == r;
    }
    forall r | r in LoadAll(catalog[1..]) ensures allocated(r) {
      var c :| 0 <= c < |catalog[1..]| && r in LoadPlugins(catalog[1..][c]);
      var i :| 0 <= i < |catalog[1..][c]| && catalog[1..][c][i].plugin == r;
    }
  }

  /** The loop of `run` over the categories after the manifest one: their plugins, in order. */
  method LoadRest(catalog: seq<seq<Listed>>) returns (plugins: seq<Rule>)
    ensures plugins == LoadAll(catalog)
  {
    plugins := [];
    var c := 0;
    while c < |catalog|
      invariant 0 <= c <= |catalog| && plugins == LoadAll(catalog[..c])
    {
      assert catalog[..c + 1][..c] == catalog[..c];
      var more := LoadCategory(catalog[c]);
      plugins := plugins + more;
      c := c + 1;
    }
    assert catalog[..c] == catalog;
  }

  class Scanner {
    var files: seq<string>
    var issues: seq<Issue>
    const manifestPath: string
    const pathToSource: string

    ghost predicate Valid()
      reads this
    {
      NonEmptyPaths(files) && forall j, k :: 0 <= j < k < |files| ==> files[j] != files[k]
    }

    /** `__init__`, which gathers the files; every path the walk yields is a non-empty join. */
    constructor(manifestPath: string, pathToSource: string, walked: seq<string>)
      requires NonEmptyPaths(walked)
      ensures this.manifestPath == manifestPath && this.pathToSource == pathToSource
      ensures issues == [] && files == Gathered(pathToSource, walked) && Valid()
    {
      this.manifestPath := manifestPath;
      this.pathToSource := pathToSource;
      issues := [];
      new;
      files := GatherFiles(pathToSource, walked);
      if IsJavaFile(pathToSource) {
        assert pathToSource != "";
      } else {
        forall i | 0 <= i < |files| ensures files[i] != "" {
          assert files[i] in walked;
        }
      }
    }

    /**
     * `_run_checks`: register the observers, run the per-file cycle for
     * every file, finalize, then append each observer's issues. `minSdk` is
     * the manifest attribute the broadcast rule reads when primed.
     */
    method RunChecks(plugins: seq<Rule>, cache: FileCache, minSdk: int, fs: FileSystem,
                     parser: string -> Option<Tree>, ghost before: seq<Slot>)
      requires Valid() && Distinct(plugins) && cache.State() == Fresh && |before| == |plugins|
      requires forall j :: 0 <= j < |plugins| ==> plugins[j].Current() == before[j]
      modifies this, plugins, cache
      ensures files == old(files) && cache.State() == Fresh
      ensures issues == old(issues) + ChecksIssues(before, files, fs, parser, minSdk)
    {
      var subject := new Subject();
      var observers := ObserverRules(plugins);
      var coroutines := CoroutineRules(observers);
      FilteredDistinct(plugins);
      FilteredDistinct(observers);
      ObserverValues(plugins, before);
      RegisterAll(subject, observers);
      DriveObservers(subject, coroutines, cache, minSdk, fs, parser, Observers(before));
    }

    /** The rest of `_run_checks`, once the observers are registered: the file loop, finalize, collect. */
    method DriveObservers(subject: Subject, coroutines: seq<Rule>, cache: FileCache, minSdk: int, fs: FileSystem,
                          parser: string -> Option<Tree>, ghost before: seq<Slot>)
      requires Valid() && cache.State() == Fresh
      requires Wired(subject.observers, coroutines) && Hold(subject.observers, before)
      modifies this, subject.observers, cache
      ensures files == old(files) && cache.State() == Fresh
      ensures issues == old(issues) + Collect(FinalizeAll(ScanFiles(before, files, fs, parser, minSdk)))
    {
      var observers := subject.observers;
      ghost var scanned := ScanFiles(before, files, fs, parser, minSdk);
      ScanAll(subject, coroutines, files, cache, minSdk, fs, parser, before);
      FinalizeLoop(observers, scanned);
      CollectIssues(observers, FinalizeAll(scanned));
    }

    /** The collecting loop: each observer's issues, in registration order. */
    method CollectIssues(observers: seq<Rule>, ghost after: seq<Slot>)
      requires |after| == |observers| && forall j :: 0 <= j < |observers| ==> observers[j].Current() == after[j]
      modifies this
      ensures files == old(files)
      ensures issues == old(issues) + Collect(after)
    {
      var i := 0;
      while i < |observers|
        invariant 0 <= i <= |observers| && files == old(files)
        invariant issues == old(issues) + Collect(after[..i])
      {
        assert after[..i + 1][..i] == after[..i];
        issues := issues + observers[i].issues;
        i := i + 1;
      }
      assert after[..i] == after;
    }

    /** The manifest category when the manifest parsed: run each rule and append its issues. */
    method RunManifestPlugins(loaded: seq<Rule>, manifest: ManifestState, parsed: string -> Option<Tree>,
                              ghost before: seq<Slot>)
      requires Distinct(loaded) && |before| == |loaded| && forall j :: 0 <= j < |before| ==> !IsObserver(before[j].kind)
      requires forall j :: 0 <= j < |loaded| ==> loaded[j].Current() == before[j]
      modifies this, loaded
      ensures files == old(files)
      ensures issues == old(issues) + ManifestRuns(before, manifest.Value(), files, parsed)
    {
      var i := 0;
      while i < |loaded|
        invariant 0 <= i <= |loaded| && files == old(files)
        invariant forall j :: i <= j < |loaded| ==> loaded[j].Current() == before[j]
        invariant issues == old(issues) + ManifestRuns(before[..i], manifest.Value(), files, parsed)
      {
        assert before[..i + 1][..i] == before[..i];
        loaded[i].RunManifest(manifest, files, parsed);
        issues := issues + loaded[i].issues;
        i := i + 1;
      }
      assert before[..i] == before;
    }

    /**
     * `run`: the categories in order. The first one, the manifest category,
     * updates the manifest attributes and, when the manifest parsed, runs
     * its rules at once; otherwise its plugins join those of every other
     * category in the list handed to `_run_checks`.
     */
    method Run(catalog: seq<seq<Listed>>, cache: FileCache, manifest: ManifestState, disk: Disk, fs: FileSystem,
               parser: string -> Option<Tree>, parsed: string -> Option<Tree>,
               ghost manifestRules: seq<Slot>, ghost otherRules: seq<Slot>)
      requires |catalog| == |PluginCategories| && Valid() && cache.State() == Fresh
      requires Distinct(LoadPlugins(catalog[0]) + LoadAll(catalog[1..]))
      requires |manifestRules| == |LoadPlugins(catalog[0])| && |otherRules| == |LoadAll(catalog[1..])|
      requires forall j :: 0 <= j < |manifestRules| ==>
        LoadPlugins(catalog[0])[j].Current() == manifestRules[j] && !IsObserver(manifestRules[j].kind)
      requires forall j :: 0 <= j < |otherRules| ==> LoadAll(catalog[1..])[j].Current() == otherRules[j]
      modifies this, manifest, cache, LoadPlugins(catalog[0]), LoadAll(catalog[1..])
      ensures files == old(files)
      ensures manifest.Value() == ManifestAfter(old(manifest.Value()), manifestPath, disk)
      ensures issues == old(issues) + RunIssues(manifestRules, otherRules, manifest.Value(), files, fs, parser, parsed)
    {
      assert PluginCategories[0] == "manifest";
      LoadedAllocated(catalog);
      var loaded := LoadCategory(catalog[0]);
      forall j | 0 <= j < |loaded| ensures loaded[j].Current() == manifestRules[j] {
        assert loaded[j] in LoadPlugins(catalog[0]) + LoadAll(catalog[1..]);
      }
      DistinctSplit(loaded, LoadAll(catalog[1..]));
      manifest.UpdateManifest(manifestPath, disk);
      var rest := LoadRest(catalog[1..]);
      forall j | 0 <= j < |rest| ensures rest[j].Current() == otherRules[j] {
        assert rest[j] in LoadPlugins(catalog[0]) + LoadAll(catalog[1..]);
      }
      RunCategories(loaded, rest, cache, manifest, fs, parser, parsed, manifestRules, otherRules);
    }

    /** After loading: the manifest rules run at once when the manifest parsed, otherwise they join the checks. */
    method RunCategories(loaded: seq<Rule>, rest: seq<Rule>, cache: FileCache, manifest: ManifestState, fs: FileSystem,
                         parser: string -> Option<Tree>, parsed: string -> Option<Tree>,
                         ghost manifestRules: seq<Slot>, ghost otherRules: seq<Slot>)
      requires Valid() && cache.State() == Fresh && Prepared(loaded, rest, manifestRules, otherRules)
      modifies this, cache, loaded, rest
      ensures files == old(files)
      ensures issues == old(issues) + RunIssues(manifestRules, otherRules, manifest.Value(), files, fs, parser, parsed)
    {
      if manifest.xml.Some? {
        RunParsed(loaded, rest, cache, manifest, fs, parser, parsed, manifestRules, otherRules);
      } else {
        RunJoined(loaded, rest, cache, manifest.minSdk, fs, parser, manifestRules, otherRules);
      }
    }

    /** With a parsed manifest, its rules run at once and the other categories go to `_run_checks`. */
    method RunParsed(loaded: seq<Rule>, rest: seq<Rule>, cache: FileCache, manifest: ManifestState, fs: FileSystem,
                     parser: string -> Option<Tree>, parsed: string -> Option<Tree>,
                     ghost manifestRules: seq<Slot>, ghost otherRules: seq<Slot>)
      requires Valid() && cache.State() == Fresh && Prepared(loaded, rest, manifestRules, otherRules)
      modifies this, cache, loaded, rest
      ensures files == old(files)
      requires manifest.xml.Some?
      ensures issues == old(issues) + RunIssues(manifestRules, otherRules, manifest.Value(), files, fs, parser, parsed)
    {
      RunManifestPlugins(loaded, manifest, parsed, manifestRules);
      forall j | 0 <= j < |rest| ensures rest[j].Current() == otherRules[j] {
        assert rest[j] !in loaded;
      }
      RunChecks(rest, cache, manifest.minSdk, fs, parser, otherRules);
      AppendAssociates(old(issues), ManifestRuns(manifestRules, manifest.Value(), files, parsed),
                       ChecksIssues(otherRules, files, fs, parser, manifest.minSdk));
    }

    /** Without a parsed manifest, the manifest category's plugins go to `_run_checks` ahead of the others. */
    method RunJoined(loaded: seq<Rule>, rest: seq<Rule>, cache: FileCache, minSdk: int, fs: FileSystem,
                     parser: string -> Option<Tree>, ghost manifestRules: seq<Slot>, ghost otherRules: seq<Slot>)
      requires Valid() && cache.State() == Fresh && Prepared(loaded, rest, manifestRules, otherRules)
      modifies this, cache, loaded, rest
      ensures files == old(files) && cache.State() == Fresh
      ensures issues == old(issues) + ChecksIssues(manifestRules + otherRules, files, fs, parser, minSdk)
    {
      ghost var all := manifestRules + otherRules;
      forall j | 0 <= j < |loaded + rest| ensures (loaded + rest)[j].Current() == all[j] {
        if j < |loaded| {
          assert (loaded + rest)[j] == loaded[j] && all[j] == manifestRules[j];
        } else {
          assert (loaded + rest)[j] == rest[j - |loaded|] && all[j] == otherRules[j - |loaded|];
        }
      }
      DistinctJoin(loaded, rest);
      RunChecks(loaded + rest, cache, minSdk, fs, parser, all);
    }
  }

  /**
   * What the two halves of `run` hand on: the manifest category's plugins
   * and the others' are distinct objects whose slots are the given values,
   * and no manifest plugin is a file observer.
   */
  ghost predicate Prepared(loaded: seq<Rule>, rest: seq<Rule>, manifestRules: seq<Slot>, otherRules: seq<Slot>)
    reads loaded, rest
  {
    Distinct(loaded) && Distinct(rest) && (forall x :: x in loaded ==> x !in rest) &&
    |manifestRules| == |loaded| && |otherRules| == |rest| &&
    (forall j :: 0 <= j < |loaded| ==> loaded[j].Current() == manifestRules[j] && !IsObserver(manifestRules[j].kind)) &&
    (forall j :: 0 <= j < |rest| ==> rest[j].Current() == otherRules[j])
  }

  /** `_gather_files`, the loop over the walk. */
  method GatherFiles(pathToSource: string, walked: seq<string>) returns (files: seq<string>)
    ensures files == Gathered(pathToSource, walked)
  {
    if IsJavaFile(pathToSource) {
      return [pathToSource];
    }
    files := [];
    var i := 0;
    while i < |walked|
      invariant 0 <= i <= |walked| && files == Dedup(walked[..i])
    {
      assert walked[..i + 1][..i] == walked[..i];
      if walked[i] !in files {
        files := files + [walked[i]];
      }
      i := i + 1;
    }
    assert walked[..i] == walked;
  }

  // ---------------------------------------------------------------------
  // Loading.

  /** A module a category directory lists, with the plugin object it defines. */
  datatype Listed = Listed(name: string, plugin: Rule)

  function Names(listed: seq<Listed>): (r: seq<string>)
    ensures |r| == |listed| && forall j :: 0 <= j < |listed| ==> r[j] == listed[j].name
  {
    if listed == [] then [] else Names(listed[..|listed| - 1]) + [listed[|listed| - 1].name]
  }

  /** The listed modules `get_plugins` keeps. */
  function Kept(listed: seq<Listed>): seq<Listed> {
    if listed == [] then []
    else Kept(listed[..|listed| - 1]) + (if listed[|listed| - 1].name in Denylist then [] else [listed[|listed| - 1]])
  }

  /** `load_plugin(name).plugin` for each name `get_plugins` keeps. */
  function LoadPlugins(listed: seq<Listed>): (r: seq<Rule>)
    ensures |r| == |Kept(listed)| && forall j :: 0 <= j < |r| ==> r[j] == Kept(listed)[j].plugin
    ensures forall x :: x in r ==> exists i :: 0 <= i < |listed| && listed[i].plugin == x
  {
    if listed == [] then []
    else LoadPlugins(listed[..|listed| - 1]) + (if listed[|listed| - 1].name in Denylist then [] else [listed[|listed| - 1].plugin])
  }

  /** The plugins of several categories, in category order. */
  function LoadAll(catalog: seq<seq<Listed>>): (r: seq<Rule>)
    ensures forall x :: x in r ==> exists c :: 0 <= c < |catalog| && x in LoadPlugins(catalog[c])
  {
    if catalog == [] then [] else LoadAll(catalog[..|catalog| - 1]) + LoadPlugins(catalog[|catalog| - 1])
  }

  lemma LoadAllSnoc(catalog: seq<seq<Listed>>, listed: seq<Listed>)
    ensures LoadAll(catalog + [listed]) == LoadAll(catalog) + LoadPlugins(listed)
  {
    assert (catalog + [listed])[..|catalog|] == catalog;
  }

  /** The loaded modules are exactly the names `get_plugins` returns, in the same order. */
  lemma {:induction false} LoadedAreGetPlugins(listed: seq<Listed>)
    ensures Names(Kept(listed)) == GetPlugins(Names(listed))
  {
    if listed != [] {
      var init, last := listed[..|listed| - 1], listed[|listed| - 1];
      LoadedAreGetPlugins(init);
      var tail := if last.name in Denylist then [] else [last];
      assert Kept(listed) == Kept(init) + tail;
      NamesAppend(Kept(init), tail);
      var names := Names(listed);
      assert names[..|names| - 1] == Names(init) && names[|names| - 1] == last.name;
      assert GetPlugins(names) == GetPlugins(Names(init)) + (if last.name in Denylist then [] else [last.name]);
    }
  }

  lemma NamesAppend(a: seq<Listed>, b: seq<Listed>)
    ensures Names(a + b) == Names(a) + Names(b)
  {
    assert forall j :: 0 <= j < |a + b| ==> Names(a + b)[j] == (Names(a) + Names(b))[j];
  }

  lemma DistinctSplit(a: seq<Rule>, b: seq<Rule>)
    requires Distinct(a + b)
    ensures Distinct(a) && Distinct(b) && forall x :: x in a ==> x !in b
  {
    forall x | x in a ensures x !in b {
      var j :| 0 <= j < |a| && a[j] == x;
      forall k | 0 <= k < |b| ensures b[k] != x {
        assert (a + b)[j] == a[j] && (a + b)[|a| + k] == b[k];
      }
    }
    forall j, k | 0 <= j < k < |b| ensures b[j] != b[k] {
      assert (a + b)[|a| + j] == b[j] && (a + b)[|a| + k] == b[k];
    }
    forall j, k | 0 <= j < k < |a| ensures a[j] != a[k] {
      assert (a + b)[j] == a[j] && (a + b)[k] == a[k];
    }
  }

  lemma DistinctJoin(a: seq<Rule>, b: seq<Rule>)
    requires Distinct(a) && Distinct(b) && forall x :: x in a ==> x !in b
    ensures Distinct(a + b)
  {
    forall j, k | 0 <= j < k < |a + b| ensures (a + b)[j] != (a + b)[k] {
      if k >= |a| && j < |a| {
        assert (a + b)[j] in a && (a + b)[k] in b;
      }
    }
  }

  // ---------------------------------------------------------------------
  // Properties of the whole run.

  /** Appending plugin by plugin: the issues of the plugins of `a` come first, then those of `b`. */
  lemma {:induction false} CollectAppend(a: seq<Slot>, b: seq<Slot>)
    ensures Collect(a + b) == Collect(a) + Collect(b)
    decreases |b|
  {
    if b == [] {
      assert a + b == a;
    } else {
      var init, last := b[..|b| - 1], b[|b| - 1];
      CollectAppend(a, init);
      assert (a + b)[..|a + b| - 1] == a + init && (a + b)[|a + b| - 1] == last;
      assert Collect(a + b) == Collect(a + init) + last.value.issues;
      AppendAssociates(Collect(a), Collect(init), last.value.issues);
    }
  }

  /** A plugin's issues stand in the collected list at the place its registration gives it. */
  lemma CollectPlaces(xs: seq<Slot>, j: int)
    requires 0 <= j < |xs|
    ensures Collect(xs) == Collect(xs[..j]) + xs[j].value.issues + Collect(xs[j + 1..])
  {
    var front := xs[..j + 1];
    assert xs == front + xs[j + 1..];
    CollectAppend(front, xs[j + 1..]);
    assert front[..|front| - 1] == xs[..j];
    assert Collect(front) == Collect(xs[..j]) + xs[j].value.issues;
  }

  lemma {:induction false} NoObservers(xs: seq<Slot>)
    requires forall j :: 0 <= j < |xs| ==> !IsObserver(xs[j].kind)
    ensures Observers(xs) == []
  {
    if xs != [] {
      NoObservers(xs[..|xs| - 1]);
    }
  }

  /** Plugins that are not observers are dropped by the filter wherever they stand ahead of the others. */
  lemma {:induction false} ObserversSkip(a: seq<Slot>, b: seq<Slot>)
    requires forall j :: 0 <= j < |a| ==> !IsObserver(a[j].kind)
    ensures Observers(a + b) == Observers(b)
    decreases |b|
  {
    if b == [] {
      assert a + b == a;
      NoObservers(a);
    } else {
      ObserversSkip(a, b[..|b| - 1]);
      assert (a + b)[..|a + b| - 1] == a + b[..|b| - 1];
    }
  }

  /**
   * Without a parsed manifest the manifest rules are handed to
   * `_run_checks` with the others, but, not being observers, they never run
   * and add no issue: the run reports exactly what the other categories do.
   */
  lemma UnparsedManifestRulesNeverRun(manifestRules: seq<Slot>, otherRules: seq<Slot>, m: ManifestValue,
                                      files: seq<string>, fs: FileSystem, parser: string -> Option<Tree>,
                                      parsed: string -> Option<Tree>)
    requires forall j :: 0 <= j < |manifestRules| ==> !IsObserver(manifestRules[j].kind)
    requires NonEmptyPaths(files) && m.xml.None?
    ensures RunIssues(manifestRules, otherRules, m, files, fs, parser, parsed) ==
      ChecksIssues(otherRules, files, fs, parser, m.minSdk)
  {
    ObserversSkip(manifestRules, otherRules);
  }

  lemma AppendAssociates(a: seq<Issue>, b: seq<Issue>, c: seq<Issue>)
    ensures a + b + c == a + (b + c)
  {
  }

  /** What `run` appends: the manifest pass when the manifest parsed, then the checks. */
  function RunIssues(manifestRules: seq<Slot>, otherRules: seq<Slot>, m: ManifestValue, files: seq<string>,
                     fs: FileSystem, parser: string -> Option<Tree>, parsed: string -> Option<Tree>): seq<Issue>
    requires forall j :: 0 <= j < |manifestRules| ==> !IsObserver(manifestRules[j].kind)
    requires NonEmptyPaths(files)
  {
    if m.xml.Some? then ManifestRuns(manifestRules, m, files, parsed) + ChecksIssues(otherRules, files, fs, parser, m.minSdk)
    else ChecksIssues(manifestRules + otherRules, files, fs, parser, m.minSdk)
  }
}
