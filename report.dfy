/**
 * The ordering step of `Report.generate` (report.py): issues are sorted by a
 * fixed display priority, VULNERABILITY first, then WARNING, ERROR and INFO.
 * Python's `sorted` is stable; it is modelled here by a stable insertion sort,
 * and `SortIsBucketed` shows that the result is the only stable ordering, so
 * the choice of algorithm does not matter.
 */
module Report {
  import opened Wrappers
  import opened Findings

  /** The `priority_order` table. */
  function Priority(s: Severity): (p: int)
    ensures 1 <= p <= 4
  {
    match s
    case Vulnerability => 1
    case Warning => 2
    case Error => 3
    case Info => 4
  }

  ghost predicate SortedByPriority(s: seq<Issue>) {
    forall i, j :: 0 <= i < j < |s| ==> Priority(s[i].severity) <= Priority(s[j].severity)
  }

  /** The issues of priority `p`, in the order they appear in `s`. */
  function WithPriority(s: seq<Issue>, p: int): seq<Issue> {
    if s == [] then [] else Selected(s[0], p) + WithPriority(s[1..], p)
  }

  function Selected(x: Issue, p: int): seq<Issue> {
    if Priority(x.severity) == p then [x] else []
  }

  lemma {:induction false} WithPriorityAppend(a: seq<Issue>, b: seq<Issue>, p: int)
    ensures WithPriority(a + b, p) == WithPriority(a, p) + WithPriority(b, p)
  {
    if a == [] {
      assert a + b == b;
    } else {
      var h := Selected(a[0], p);
      calc {
        WithPriority(a + b, p);
        { assert (a + b)[0] == a[0]; assert (a + b)[1..] == a[1..] + b; }
        h + WithPriority(a[1..] + b, p);
        { WithPriorityAppend(a[1..], b, p); }
        h + (WithPriority(a[1..], p) + WithPriority(b, p));
        (h + WithPriority(a[1..], p)) + WithPriority(b, p);
      }
    }
  }

  lemma WithPriorityCons(x: Issue, s: seq<Issue>, p: int)
    ensures WithPriority([x] + s, p) == Selected(x, p) + WithPriority(s, p)
  {
    assert ([x] + s)[0] == x;
    assert ([x] + s)[1..] == s;
  }

  /** Every issue in `s` has priority `q` or later. */
  ghost predicate AllAtLeast(s: seq<Issue>, q: int) {
    forall i :: 0 <= i < |s| ==> q <= Priority(s[i].severity)
  }

  /** Places `x` before the first issue whose priority is not smaller, so earlier issues stay earlier. */
  function Insert(x: Issue, s: seq<Issue>): seq<Issue> {
    if s == [] || Priority(x.severity) <= Priority(s[0].severity) then [x] + s
    else [s[0]] + Insert(x, s[1..])
  }

  lemma {:induction false} InsertKeepsOrder(x: Issue, s: seq<Issue>)
    ensures multiset(Insert(x, s)) == multiset(s) + multiset{x}
    ensures forall q :: AllAtLeast(s, q) && q <= Priority(x.severity) ==> AllAtLeast(Insert(x, s), q)
    ensures SortedByPriority(s) ==> SortedByPriority(Insert(x, s))
    ensures forall p :: WithPriority(Insert(x, s), p) == WithPriority([x] + s, p)
  {
    InsertPermutes(x, s);
    forall q | AllAtLeast(s, q) && q <= Priority(x.severity) ensures AllAtLeast(Insert(x, s), q) {
      InsertAtLeast(x, s, q);
    }
    if SortedByPriority(s) {
      InsertSorted(x, s);
    }
    forall p ensures WithPriority(Insert(x, s), p) == WithPriority([x] + s, p) {
      InsertStable(x, s, p);
    }
  }

  lemma {:induction false} InsertPermutes(x: Issue, s: seq<Issue>)
    ensures multiset(Insert(x, s)) == multiset(s) + multiset{x}
  {
    if !(s == [] || Priority(x.severity) <= Priority(s[0].severity)) {
      InsertPermutes(x, s[1..]);
      assert s == [s[0]] + s[1..];
      assert multiset(Insert(x, s)) == multiset([s[0]]) + multiset(Insert(x, s[1..]));
    }
  }

  lemma {:induction false} InsertAtLeast(x: Issue, s: seq<Issue>, q: int)
    requires AllAtLeast(s, q) && q <= Priority(x.severity)
    ensures AllAtLeast(Insert(x, s), q)
  {
    if !(s == [] || Priority(x.severity) <= Priority(s[0].severity)) {
      var t := Insert(x, s[1..]);
      assert AllAtLeast(s[1..], q) by {
        forall i | 0 <= i < |s[1..]| ensures q <= Priority(s[1..][i].severity) {
          assert s[1..][i] == s[i + 1];
        }
      }
      InsertAtLeast(x, s[1..], q);
      forall i | 0 <= i < |[s[0]] + t| ensures q <= Priority(([s[0]] + t)[i].severity) {
        if i > 0 {
          assert ([s[0]] + t)[i] == t[i - 1];
        }
      }
    }
  }

  lemma {:induction false} InsertSorted(x: Issue, s: seq<Issue>)
    requires SortedByPriority(s)
    ensures SortedByPriority(Insert(x, s))
  {
    if s == [] || Priority(x.severity) <= Priority(s[0].severity) {
      var r := [x] + s;
      forall i, j | 0 <= i < j < |r| ensures Priority(r[i].severity) <= Priority(r[j].severity) {
        assert r[j] == s[j - 1];
        if i > 0 {
          assert r[i] == s[i - 1];
        }
      }
    } else {
      var t := Insert(x, s[1..]);
      var r := [s[0]] + t;
      var q := Priority(s[0].severity);
      assert SortedByPriority(s[1..]) by {
        forall i, j | 0 <= i < j < |s[1..]|
          ensures Priority(s[1..][i].severity) <= Priority(s[1..][j].severity)
        {
          assert s[1..][i] == s[i + 1] && s[1..][j] == s[j + 1];
        }
      }
      InsertSorted(x, s[1..]);
      assert AllAtLeast(s[1..], q) by {
        forall i | 0 <= i < |s[1..]| ensures q <= Priority(s[1..][i].severity) {
          assert s[1..][i] == s[i + 1];
        }
      }
      InsertAtLeast(x, s[1..], q);
      forall i, j | 0 <= i < j < |r| ensures Priority(r[i].severity) <= Priority(r[j].severity) {
        assert r[j] == t[j - 1];
        if i > 0 {
          assert r[i] == t[i - 1];
        }
      }
    }
  }

  lemma {:induction false} InsertStable(x: Issue, s: seq<Issue>, p: int)
    ensures WithPriority(Insert(x, s), p) == WithPriority([x] + s, p)
  {
    if !(s == [] || Priority(x.severity) <= Priority(s[0].severity)) {
      var t := Insert(x, s[1..]);
      assert Priority(x.severity) != Priority(s[0].severity);
      calc {
        WithPriority(Insert(x, s), p);
        WithPriority([s[0]] + t, p);
        { WithPriorityCons(s[0], t, p); }
        Selected(s[0], p) + WithPriority(t, p);
        { InsertStable(x, s[1..], p); WithPriorityCons(x, s[1..], p); }
        Selected(s[0], p) + (Selected(x, p) + WithPriority(s[1..], p));
        Selected(x, p) + (Selected(s[0], p) + WithPriority(s[1..], p));
        { WithPriorityCons(s[0], s[1..], p); assert s == [s[0]] + s[1..]; }
        Selected(x, p) + WithPriority(s, p);
        { WithPriorityCons(x, s, p); }
        WithPriority([x] + s, p);
      }
    }
  }

  /**
   * `sorted(issues, key=lambda issue: priority_order.get(issue.severity, 5))`:
   * ordered by priority, a permutation of the input, and stable (the issues
   * of each priority keep their input order).
   */
  function SortByPriority(s: seq<Issue>): (r: seq<Issue>)
    ensures SortedByPriority(r)
    ensures multiset(r) == multiset(s)
    ensures forall p :: WithPriority(r, p) == WithPriority(s, p)
  {
    if s == [] then []
    else
      InsertKeepsOrder(s[0], SortByPriority(s[1..]));
      assert s == [s[0]] + s[1..];
      StableStep(s[0], SortByPriority(s[1..]), s[1..]);
      Insert(s[0], SortByPriority(s[1..]))
  }

  lemma StableStep(x: Issue, t: seq<Issue>, u: seq<Issue>)
    requires forall p :: WithPriority(t, p) == WithPriority(u, p)
    ensures forall p :: WithPriority([x] + t, p) == WithPriority([x] + u, p)
  {
    forall p ensures WithPriority([x] + t, p) == WithPriority([x] + u, p) {
      WithPriorityCons(x, t, p);
      WithPriorityCons(x, u, p);
    }
  }

  /** Reference ordering: all VULNERABILITY issues, then WARNING, then ERROR, then INFO, each group in input order. */
  function Buckets(s: seq<Issue>): seq<Issue> {
    BucketsFrom(s, 1)
  }

  /** The groups of priority `p` to 4, in priority order. */
  function BucketsFrom(s: seq<Issue>, p: int): seq<Issue>
    decreases 5 - p
  {
    if p > 4 then [] else WithPriority(s, p) + BucketsFrom(s, p + 1)
  }

  lemma {:induction false} NoneBelow(s: seq<Issue>, q: int, p: int)
    requires forall i :: 0 <= i < |s| ==> q <= Priority(s[i].severity)
    requires p < q
    ensures WithPriority(s, p) == []
  {
    if s != [] {
      NoneBelow(s[1..], q, p);
    }
  }

  /** Groups after the priority of `x` do not see `x`. */
  lemma {:induction false} BucketsFromSkip(x: Issue, rest: seq<Issue>, p: int)
    requires Priority(x.severity) < p
    ensures BucketsFrom([x] + rest, p) == BucketsFrom(rest, p)
    decreases 5 - p
  {
    if p <= 4 {
      calc {
        BucketsFrom([x] + rest, p);
        WithPriority([x] + rest, p) + BucketsFrom([x] + rest, p + 1);
        { WithPriorityCons(x, rest, p); BucketsFromSkip(x, rest, p + 1); }
        WithPriority(rest, p) + BucketsFrom(rest, p + 1);
      }
    }
  }

  /** From the priority of `x` or earlier, `x` comes first when it is earliest. */
  lemma {:induction false} BucketsFromCons(x: Issue, rest: seq<Issue>, p: int)
    requires 1 <= p <= Priority(x.severity)
    requires forall k :: p <= k < Priority(x.severity) ==> WithPriority(rest, k) == []
    ensures BucketsFrom([x] + rest, p) == [x] + BucketsFrom(rest, p)
    decreases 5 - p
  {
    var w := WithPriority(rest, p);
    if p == Priority(x.severity) {
      calc {
        BucketsFrom([x] + rest, p);
        WithPriority([x] + rest, p) + BucketsFrom([x] + rest, p + 1);
        { WithPriorityCons(x, rest, p); BucketsFromSkip(x, rest, p + 1); }
        ([x] + w) + BucketsFrom(rest, p + 1);
        [x] + (w + BucketsFrom(rest, p + 1));
      }
    } else {
      calc {
        BucketsFrom([x] + rest, p);
        WithPriority([x] + rest, p) + BucketsFrom([x] + rest, p + 1);
        { WithPriorityCons(x, rest, p); BucketsFromCons(x, rest, p + 1); }
        w + ([x] + BucketsFrom(rest, p + 1));
        { assert w == []; }
        [x] + BucketsFrom(rest, p + 1);
        [x] + (w + BucketsFrom(rest, p + 1));
      }
    }
  }

  /** A sequence already ordered by priority is its own bucketing. */
  lemma {:induction false} SortedIsBucketed(t: seq<Issue>)
    requires SortedByPriority(t)
    ensures t == Buckets(t)
  {
    if t != [] {
      var rest := t[1..];
      var q := Priority(t[0].severity);
      assert SortedByPriority(rest) by {
        forall i, j | 0 <= i < j < |rest| ensures Priority(rest[i].severity) <= Priority(rest[j].severity) {
          assert rest[i] == t[i + 1] && rest[j] == t[j + 1];
        }
      }
      SortedIsBucketed(rest);
      forall p | p < q ensures WithPriority(rest, p) == [] {
        forall i | 0 <= i < |rest| ensures q <= Priority(rest[i].severity) {
          assert rest[i] == t[i + 1];
        }
        NoneBelow(rest, q, p);
      }
      BucketsFromCons(t[0], rest, 1);
      assert t == [t[0]] + rest;
    }
  }

  /**
   * Any ordering by priority that keeps each priority's issues in input order
   * is the bucketing, so the sort's result is determined by its input.
   */
  lemma StableOrderIsUnique(r: seq<Issue>, s: seq<Issue>)
    requires SortedByPriority(r)
    requires forall p :: WithPriority(r, p) == WithPriority(s, p)
    ensures r == Buckets(s)
  {
    SortedIsBucketed(r);
  }

  lemma SortIsBucketed(s: seq<Issue>)
    ensures SortByPriority(s) == Buckets(s)
  {
    StableOrderIsUnique(SortByPriority(s), s);
  }

  /**
   * The issue list a report is built from: `issues if issues else []`, then
   * sorted. `None` stands for a missing argument; an empty list is falsy too.
   */
  function ReportOrder(issues: Option<seq<Issue>>): (r: seq<Issue>)
    ensures issues.None? ==> r == []
    ensures issues.Some? ==> multiset(r) == multiset(issues.value)
    ensures SortedByPriority(r)
  {
    var given := if issues.Some? && issues.value != [] then issues.value else [];
    SortByPriority(given)
  }

  lemma WithPriorityOfFour(a: Issue, b: Issue, c: Issue, d: Issue, p: int)
    ensures WithPriority([a, b, c, d], p) == Selected(a, p) + Selected(b, p) + Selected(c, p) + Selected(d, p)
  {
    calc {
      WithPriority([a, b, c, d], p);
      { assert [a, b, c, d] == [a] + [b, c, d]; WithPriorityCons(a, [b, c, d], p); }
      Selected(a, p) + WithPriority([b, c, d], p);
      { assert [b, c, d] == [b] + [c, d]; WithPriorityCons(b, [c, d], p); }
      Selected(a, p) + (Selected(b, p) + WithPriority([c, d], p));
      { assert [c, d] == [c] + [d]; WithPriorityCons(c, [d], p); WithPriorityCons(d, [], p); }
      Selected(a, p) + (Selected(b, p) + (Selected(c, p) + (Selected(d, p) + WithPriority([], p))));
    }
  }

  lemma BucketsOfExample(a: Issue, b: Issue, c: Issue, d: Issue)
    requires a.severity == Info && b.severity == Vulnerability
    requires c.severity == Error && d.severity == Warning
    ensures Buckets([a, b, c, d]) == [b, d, c, a]
  {
    var s := [a, b, c, d];
    assert BucketsFrom(s, 5) == [];
    assert BucketsFrom(s, 4) == [a] by {
      WithPriorityOfFour(a, b, c, d, 4);
    }
    assert BucketsFrom(s, 3) == [c, a] by {
      WithPriorityOfFour(a, b, c, d, 3);
    }
    assert BucketsFrom(s, 2) == [d, c, a] by {
      WithPriorityOfFour(a, b, c, d, 2);
    }
    assert BucketsFrom(s, 1) == [b, d, c, a] by {
      WithPriorityOfFour(a, b, c, d, 1);
    }
  }

  /** INFO, VULNERABILITY, ERROR, WARNING is reported as VULNERABILITY, WARNING, ERROR, INFO. */
  lemma DisplayOrderExample(a: Issue, b: Issue, c: Issue, d: Issue)
    requires a.severity == Info && b.severity == Vulnerability
    requires c.severity == Error && d.severity == Warning
    ensures SortByPriority([a, b, c, d]) == [b, d, c, a]
  {
    BucketsOfExample(a, b, c, d);
    SortIsBucketed([a, b, c, d]);
  }
}
