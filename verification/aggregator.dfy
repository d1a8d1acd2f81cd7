/**
 The reporting script of the direct-store binding (list-tests-from-redis.js):
 for every execution's result list it folds over the records, counting passed
 and failed results, summing durations and tracking the earliest start and
 latest end, sorts the records by their joined path, and finally sorts the
 execution summaries most recent first. Reading the keys and lists from the
 store is not modelled: the lists are the input.
 */
module Aggregator {
  import opened Wrappers
  import opened Text
  import opened TestResults
  import opened Sorting

  /** `r.id.join('/')` */
  function JoinedPath(r: TestResult): string
  {
    Join(r.id, "/")
  }

  /** Results are listed by ascending joined path. */
  predicate PathLe(a: TestResult, b: TestResult)
  {
    LexLe(JoinedPath(a), JoinedPath(b))
  }

  lemma PathOrderIsTotalPreorder()
    ensures TotalPreorder(PathLe)
  {
    forall x: TestResult, y: TestResult
      ensures PathLe(x, y) || PathLe(y, x)
    {
      LexLeTotal(JoinedPath(x), JoinedPath(y));
    }
    forall x: TestResult, y: TestResult, z: TestResult | PathLe(x, y) && PathLe(y, z)
      ensures PathLe(x, z)
    {
      LexLeTransitive(JoinedPath(x), JoinedPath(y), JoinedPath(z));
    }
  }

  /** The earliest start time, as the loop finds it; none for an empty list. */
  function MinStart(rs: seq<TestResult>): (m: Option<int>)
    ensures m.Some? <==> |rs| > 0
    ensures m.Some? ==> forall i :: 0 <= i < |rs| ==> m.value <= rs[i].startTime
    ensures m.Some? ==> exists i :: 0 <= i < |rs| && rs[i].startTime == m.value
  {
    if rs == [] then None
    else
      var m := MinStart(rs[..|rs| - 1]);
      var t := rs[|rs| - 1].startTime;
      if m.None? || t < m.value then Some(t) else m
  }

  /** The latest end time, as the loop finds it; none for an empty list. */
  function MaxEnd(rs: seq<TestResult>): (m: Option<int>)
    ensures m.Some? <==> |rs| > 0
    ensures m.Some? ==> forall i :: 0 <= i < |rs| ==> rs[i].endTime <= m.value
    ensures m.Some? ==> exists i :: 0 <= i < |rs| && rs[i].endTime == m.value
  {
    if rs == [] then None
    else
      var m := MaxEnd(rs[..|rs| - 1]);
      var t := rs[|rs| - 1].endTime;
      if m.None? || t > m.value then Some(t) else m
  }

  /** `x || 0` on a number that may be null. */
  function OrZero(v: Option<int>): int
  {
    if v.Some? then v.value else 0
  }

  /** The summary reported for one execution key. */
  datatype ExecutionSummary = ExecutionSummary(
    key: string,
    startTime: int,
    endTime: int,
    aggregatedDuration: int,
    realDuration: int,
    testsPassed: nat,
    testsFailed: nat,
    testResults: seq<TestResult>)

  /** The wall-clock span when both ends are known and non-zero, else the summed duration. */
  function RealDuration(raw: seq<TestResult>): int
  {
    var first, last := MinStart(raw), MaxEnd(raw);
    if first.Some? && first.value != 0 && last.Some? && last.value != 0 then last.value - first.value
    else TotalDuration(raw)
  }

  /** `s` is the summary of the result list `raw` stored under `key`. */
  ghost predicate Summarizes(s: ExecutionSummary, key: string, raw: seq<TestResult>)
  {
    && s.key == key
    && s.testsPassed == CountState(raw, "passed")
    && s.testsFailed == CountState(raw, "failed")
    && s.aggregatedDuration == TotalDuration(raw)
    && s.startTime == OrZero(MinStart(raw))
    && s.endTime == OrZero(MaxEnd(raw))
    && s.realDuration == RealDuration(raw)
    && SortedBy(s.testResults, PathLe)
    && multiset(s.testResults) == multiset(raw)
  }

  /** The loop over one execution's stored records, then the sort by path. */
  method SummarizeExecution(key: string, raw: seq<TestResult>) returns (s: ExecutionSummary)
    ensures Summarizes(s, key, raw)
  {
    var passed, failed := 0, 0;
    var aggregatedDurationMs := 0;
    var firstStartTime: Option<int> := None;
    var lastEndTime: Option<int> := None;
    var jsonResultList := new TestResult[|raw|];
    var i := 0;
    while i < |raw|
      invariant 0 <= i <= |raw|
      invariant jsonResultList[..i] == raw[..i]
      invariant passed == CountState(raw[..i], "passed")
      invariant failed == CountState(raw[..i], "failed")
      invariant aggregatedDurationMs == TotalDuration(raw[..i])
      invariant firstStartTime == MinStart(raw[..i])
      invariant lastEndTime == MaxEnd(raw[..i])
    {
      var jsonResult := raw[i];
      jsonResultList[i] := jsonResult;
      if firstStartTime.None? || jsonResult.startTime < firstStartTime.value {
        firstStartTime := Some(jsonResult.startTime);
      }
      if lastEndTime.None? || jsonResult.endTime > lastEndTime.value {
        lastEndTime := Some(jsonResult.endTime);
      }
      passed := passed + (if jsonResult.state == "passed" then 1 else 0);
      failed := failed + (if jsonResult.state == "failed" then 1 else 0);
      aggregatedDurationMs := aggregatedDurationMs + DurationOrZero(jsonResult.duration);
      assert raw[..i + 1][..i] == raw[..i];
      i := i + 1;
    }
    assert raw[..i] == raw;
    assert jsonResultList[..] == raw;
    PathOrderIsTotalPreorder();
    SortBy(jsonResultList, PathLe);
    var realDuration :=
      if firstStartTime.Some? && firstStartTime.value != 0 && lastEndTime.Some? && lastEndTime.value != 0
      then lastEndTime.value - firstStartTime.value
      else aggregatedDurationMs;
    s := ExecutionSummary(
      key := key,
      startTime := OrZero(firstStartTime),
      endTime := OrZero(lastEndTime),
      aggregatedDuration := aggregatedDurationMs,
      realDuration := realDuration,
      testsPassed := passed,
      testsFailed := failed,
      testResults := jsonResultList[..]);
  }

  /** Execution summaries are listed most recent start first. */
  predicate RecentFirst(a: ExecutionSummary, b: ExecutionSummary)
  {
    a.startTime >= b.startTime
  }

  lemma RecentFirstIsTotalPreorder()
    ensures TotalPreorder(RecentFirst)
  {
  }

  /** A result list as read from the store, with its key. */
  datatype StoredList = StoredList(key: string, records: seq<TestResult>)

  /** Every summary of `all` belongs to some stored list and every stored list has its summary in `all`. */
  ghost predicate SummariesOf(all: seq<ExecutionSummary>, lists: seq<StoredList>)
  {
    && (forall s :: s in all ==> exists j :: 0 <= j < |lists| && Summarizes(s, lists[j].key, lists[j].records))
    && (forall j :: 0 <= j < |lists| ==> exists s :: s in all && Summarizes(s, lists[j].key, lists[j].records))
  }

  /** Reordering the summaries, one per list in list order, keeps them the summaries of the lists. */
  lemma ReorderedSummaries(unsorted: seq<ExecutionSummary>, all: seq<ExecutionSummary>, lists: seq<StoredList>)
    requires |unsorted| == |lists|
    requires forall j :: 0 <= j < |lists| ==> Summarizes(unsorted[j], lists[j].key, lists[j].records)
    requires multiset(all) == multiset(unsorted)
    ensures SummariesOf(all, lists)
  {
    forall s | s in all
      ensures exists j :: 0 <= j < |lists| && Summarizes(s, lists[j].key, lists[j].records)
    {
      assert s in multiset(unsorted);
      var j :| 0 <= j < |unsorted| && unsorted[j] == s;
      assert Summarizes(unsorted[j], lists[j].key, lists[j].records);
    }
    forall j | 0 <= j < |lists|
      ensures exists s :: s in all && Summarizes(s, lists[j].key, lists[j].records)
    {
      assert unsorted[j] in multiset(all);
    }
  }

  /** getTestResults: one summary per stored list, most recent first. */
  method GetTestResults(lists: seq<StoredList>) returns (all: seq<ExecutionSummary>)
    ensures |all| == |lists|
    ensures SortedBy(all, RecentFirst)
    ensures SummariesOf(all, lists)
  {
    var allResults := new ExecutionSummary[|lists|];
    var i := 0;
    while i < |lists|
      invariant 0 <= i <= |lists|
      invariant forall j :: 0 <= j < i ==> Summarizes(allResults[j], lists[j].key, lists[j].records)
    {
      var summary := SummarizeExecution(lists[i].key, lists[i].records);
      allResults[i] := summary;
      i := i + 1;
    }
    ghost var unsorted := allResults[..];
    RecentFirstIsTotalPreorder();
    SortBy(allResults, RecentFirst);
    all := allResults[..];
    assert |multiset(all)| == |multiset(unsorted)|;
    ReorderedSummaries(unsorted, all, lists);
  }

  lemma {:induction false} CountStateAppend(a: seq<TestResult>, b: seq<TestResult>, st: string)
    ensures CountState(a + b, st) == CountState(a, st) + CountState(b, st)
  {
    if b == [] {
      assert a + b == a;
    } else {
      CountStateAppend(a, b[..|b| - 1], st);
      assert (a + b)[..|a + b| - 1] == a + b[..|b| - 1];
    }
  }

  lemma {:induction false} TotalDurationAppend(a: seq<TestResult>, b: seq<TestResult>)
    ensures TotalDuration(a + b) == TotalDuration(a) + TotalDuration(b)
  {
    if b == [] {
      assert a + b == a;
    } else {
      TotalDurationAppend(a, b[..|b| - 1]);
      assert (a + b)[..|a + b| - 1] == a + b[..|b| - 1];
    }
  }

  /** Taking one occurrence of `b[k]` out of `b` takes it out of the multiset. */
  lemma RemoveAt(b: seq<TestResult>, k: nat)
    requires k < |b|
    ensures multiset(b[..k] + b[k + 1..]) == multiset(b) - multiset{b[k]}
  {
    assert b == b[..k] + [b[k]] + b[k + 1..];
  }

  lemma CountStateRemove(b: seq<TestResult>, k: nat, st: string)
    requires k < |b|
    ensures CountState(b, st) == CountState(b[..k] + b[k + 1..], st) + (if b[k].state == st then 1 else 0)
  {
    assert b == b[..k] + ([b[k]] + b[k + 1..]);
    CountStateAppend(b[..k], [b[k]] + b[k + 1..], st);
    CountStateAppend([b[k]], b[k + 1..], st);
    CountStateAppend(b[..k], b[k + 1..], st);
    assert [b[k]][..0] == [];
  }

  lemma TotalDurationRemove(b: seq<TestResult>, k: nat)
    requires k < |b|
    ensures TotalDuration(b) == TotalDuration(b[..k] + b[k + 1..]) + DurationOrZero(b[k].duration)
  {
    var front, mid, back := b[..k], [b[k]], b[k + 1..];
    assert b == front + (mid + back);
    TotalDurationAppend(front, mid + back);
    TotalDurationAppend(mid, back);
    TotalDurationAppend(front, back);
    assert TotalDuration(mid) == DurationOrZero(b[k].duration) by {
      assert mid[..0] == [];
    }
  }

  /** Removing the last element of `a` and one occurrence of it from `b` keeps two permutations permutations. */
  lemma RemoveLast(a: seq<TestResult>, b: seq<TestResult>) returns (k: nat)
    requires a != [] && multiset(a) == multiset(b)
    ensures k < |b| && b[k] == a[|a| - 1]
    ensures multiset(a[..|a| - 1]) == multiset(b[..k] + b[k + 1..])
  {
    var x := a[|a| - 1];
    assert a == a[..|a| - 1] + [x];
    assert x in multiset(b);
    k :| 0 <= k < |b| && b[k] == x;
    RemoveAt(b, k);
  }

  /** The pass/fail counts do not depend on the order of the stored list. */
  lemma {:induction false} CountStateOrderIndependent(a: seq<TestResult>, b: seq<TestResult>, st: string)
    requires multiset(a) == multiset(b)
    ensures CountState(a, st) == CountState(b, st)
    decreases |a|
  {
    if a != [] {
      var k := RemoveLast(a, b);
      CountStateOrderIndependent(a[..|a| - 1], b[..k] + b[k + 1..], st);
      CountStateRemove(b, k, st);
    } else {
      assert |b| == |multiset(b)| == 0;
    }
  }

  /** The summed duration does not depend on the order of the stored list. */
  lemma {:induction false} TotalDurationOrderIndependent(a: seq<TestResult>, b: seq<TestResult>)
    requires multiset(a) == multiset(b)
    ensures TotalDuration(a) == TotalDuration(b)
    decreases |a|
  {
    if a != [] {
      var k := RemoveLast(a, b);
      TotalDurationOrderIndependent(a[..|a| - 1], b[..k] + b[k + 1..]);
      TotalDurationRemove(b, k);
    } else {
      assert |b| == |multiset(b)| == 0;
    }
  }

  /** An element of `b` found in `a`, when the two are permutations. */
  lemma ElementOf(a: seq<TestResult>, b: seq<TestResult>, j: nat) returns (i: nat)
    requires multiset(a) == multiset(b) && j < |b|
    ensures i < |a| && a[i] == b[j]
  {
    assert b[j] in multiset(a);
    i :| 0 <= i < |a| && a[i] == b[j];
  }

  /** The earliest start does not depend on the order of the stored list. */
  lemma MinStartOrderIndependent(a: seq<TestResult>, b: seq<TestResult>)
    requires multiset(a) == multiset(b)
    ensures MinStart(a) == MinStart(b)
  {
    assert |a| == |multiset(a)| == |multiset(b)| == |b|;
    if a != [] {
      var i :| 0 <= i < |a| && a[i].startTime == MinStart(a).value;
      var j :| 0 <= j < |b| && b[j].startTime == MinStart(b).value;
      var i' := ElementOf(b, a, i);
      var j' := ElementOf(a, b, j);
      assert MinStart(b).value <= b[i'].startTime;
      assert MinStart(a).value <= a[j'].startTime;
    }
  }

  /** The latest end does not depend on the order of the stored list. */
  lemma MaxEndOrderIndependent(a: seq<TestResult>, b: seq<TestResult>)
    requires multiset(a) == multiset(b)
    ensures MaxEnd(a) == MaxEnd(b)
  {
    assert |a| == |multiset(a)| == |multiset(b)| == |b|;
    if a != [] {
      var i :| 0 <= i < |a| && a[i].endTime == MaxEnd(a).value;
      var j :| 0 <= j < |b| && b[j].endTime == MaxEnd(b).value;
      var i' := ElementOf(b, a, i);
      var j' := ElementOf(a, b, j);
      assert b[i'].endTime <= MaxEnd(b).value;
      assert a[j'].endTime <= MaxEnd(a).value;
    }
  }

  /** Summaries of two orderings of the same records agree on everything but the order of equal-path records. */
  lemma SummaryOrderIndependent(s: ExecutionSummary, t: ExecutionSummary, key: string, a: seq<TestResult>, b: seq<TestResult>)
    requires Summarizes(s, key, a) && Summarizes(t, key, b)
    requires multiset(a) == multiset(b)
    ensures s.(testResults := []) == t.(testResults := [])
    ensures multiset(s.testResults) == multiset(t.testResults)
  {
    CountStateOrderIndependent(a, b, "passed");
    CountStateOrderIndependent(a, b, "failed");
    TotalDurationOrderIndependent(a, b);
    MinStartOrderIndependent(a, b);
    MaxEndOrderIndependent(a, b);
  }

  /** Only exactly "passed" and exactly "failed" are counted, so the two counts never exceed the records. */
  lemma {:induction false} PassedAndFailedBounded(rs: seq<TestResult>)
    ensures CountState(rs, "passed") + CountState(rs, "failed") <= |rs|
  {
    if rs != [] {
      PassedAndFailedBounded(rs[..|rs| - 1]);
    }
  }

  /** Three records of one execution: two passed, one failed, overlapping in time. */
  lemma ThreeRecordExample(s: ExecutionSummary)
    requires Summarizes(s, "E1:test_result", [
      TestResult(["A", "t1"], "t1", false, Some(100), 1000, 1100, "passed", false),
      TestResult(["A", "t2"], "t2", false, Some(200), 1050, 1250, "failed", true),
      TestResult(["B", "t3"], "t3", false, Some(50), 1300, 1350, "passed", false)])
    ensures s.testsPassed == 2 && s.testsFailed == 1
    ensures s.aggregatedDuration == 350 && s.realDuration == 350
    ensures s.startTime == 1000 && s.endTime == 1350
  {
    var r0 := TestResult(["A", "t1"], "t1", false, Some(100), 1000, 1100, "passed", false);
    var r1 := TestResult(["A", "t2"], "t2", false, Some(200), 1050, 1250, "failed", true);
    var r2 := TestResult(["B", "t3"], "t3", false, Some(50), 1300, 1350, "passed", false);
    var raw := [r0, r1, r2];
    assert raw[..2] == [r0, r1] && [r0, r1][..1] == [r0] && [r0][..0] == [];
    assert CountState([r0], "passed") == 1 && CountState([r0, r1], "passed") == 1;
    assert CountState([r0], "failed") == 0 && CountState([r0, r1], "failed") == 1;
    assert TotalDuration([r0]) == 100 && TotalDuration([r0, r1]) == 300;
  }
}
