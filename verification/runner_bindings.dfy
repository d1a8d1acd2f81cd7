/**
 The worker side of the HTTP binding (runner-mocha-bindings.js). While mocha
 collects a test file, `describe` and `it` keep the stack of enclosing suite
 titles, and each `it` registers its test with the path it was declared at.
 When mocha later runs a test, the wrapper asks the coordinator whether this
 runner may run it (first for the top-level suite, then, if granted, for the
 full path joined with ">>>"), runs the body only when granted, and reports
 "success" or "failed" for the full path.

 The coordinator is the registry of the master server, reached through its
 request handler with the URL the runner builds; the query string is handed
 over already parsed.
 */
module RunnerBindings {
  import opened Wrappers
  import opened Text
  import opened Constants
  import opened MasterServer

  /** What a test body does when called: returns a value or throws an error. */
  datatype Outcome = Completes(value: string) | Throws(error: string)

  /** A declaration of a test file: a `describe` block with its body, or an `it` with its test body. */
  datatype Decl = SuiteDecl(title: string, body: seq<Decl>) | TestDecl(title: string, fn: Outcome)

  /** A test as mocha holds it after collection: the captured path and the body. */
  datatype TestCase = TestCase(path: seq<string>, fn: Outcome)

  /** The tests registered by declaring `decls` while `stack` holds the enclosing suite titles. */
  function Collect(stack: seq<string>, decls: seq<Decl>): seq<TestCase>
    decreases decls
  {
    if decls == [] then []
    else
      Collect(stack, decls[..|decls| - 1]) +
      match decls[|decls| - 1]
      case SuiteDecl(title, body) => Collect(stack + [title], body)
      case TestDecl(title, fn) => [TestCase(stack + [title], fn)]
  }

  /** Every registered path extends the enclosing titles with at least the test's own title. */
  lemma {:induction false} CollectedPathsExtendStack(stack: seq<string>, decls: seq<Decl>)
    ensures forall tc :: tc in Collect(stack, decls) ==> |tc.path| > |stack| && tc.path[..|stack|] == stack
    decreases decls
  {
    if decls != [] {
      CollectedPathsExtendStack(stack, decls[..|decls| - 1]);
      match decls[|decls| - 1]
      case SuiteDecl(title, body) =>
        CollectedPathsExtendStack(stack + [title], body);
        forall tc | tc in Collect(stack + [title], body)
          ensures |tc.path| > |stack| && tc.path[..|stack|] == stack
        {
          assert tc.path[..|stack|] == tc.path[..|stack| + 1][..|stack|];
        }
      case TestDecl(title, fn) =>
        assert (stack + [title])[..|stack|] == stack;
    }
  }

  /** A test declared at the top of a file is claimed under its own title. */
  lemma TopLevelTestPath(title: string, fn: Outcome)
    ensures Collect([], [TestDecl(title, fn)]) == [TestCase([title], fn)]
  {
    assert [TestDecl(title, fn)][..0] == [];
    assert [] + [title] == [title];
  }

  /** askMasterIfShouldRun on the registry: the decision and the registry afterwards. */
  function AskStep(reg: Registry, runner: string, path: seq<string>): (out: (bool, Registry))
    requires |path| >= 1
    // the decision is exactly whether the suite claim was granted
    ensures out.0 <==> ShouldRunStep(reg, runner, Some(path[0])).0 == Run
    ensures out.0 <==> path[0] != "" && (path[0] !in reg || reg[path[0]].runner == runner)
    ensures out.0 ==> path[0] in out.1 && out.1[path[0]].runner == runner
    // a refused runner changes nothing, a granted one claims only the suite and the full path
    ensures !out.0 ==> out.1 == reg
    ensures out.0 ==> out.1.Keys == reg.Keys + {path[0], Join(path, TestPathSeparator)}
    ensures out.0 ==> forall k :: k in reg && k != path[0] && k != Join(path, TestPathSeparator) ==> out.1[k] == reg[k]
    // the full path becomes the runner's when it was free or already the runner's
    ensures out.0 && (Join(path, TestPathSeparator) !in reg || reg[Join(path, TestPathSeparator)].runner == runner) ==>
      out.1[Join(path, TestPathSeparator)].runner == runner
    ensures KeepsOwners(reg, out.1)
  {
    var first := ShouldRunStep(reg, runner, Param(map["test" := path[0]], "test"));
    if first.0 == Run then
      JoinStartsWithFirst(path, TestPathSeparator);
      var second := ShouldRunStep(first.1, runner, Param(map["test" := Join(path, TestPathSeparator)], "test"));
      (true, second.1)
    else (false, first.1)
  }

  /** The text of a joined path starts with its first title. */
  lemma JoinStartsWithFirst(parts: seq<string>, sep: string)
    requires |parts| >= 1
    ensures |Join(parts, sep)| >= |parts[0]| && Join(parts, sep)[..|parts[0]|] == parts[0]
  {
    if |parts| > 1 {
      assert Join(parts, sep) == parts[0] + (sep + Join(parts[1..], sep));
    }
  }

  /** What the wrapped test function does: nothing, return the body's value, or rethrow its error. */
  datatype RunResult = NotRun | Returned(value: string) | Rethrown(error: string)

  /** The query of a result report for a full path. */
  function ReportQuery(path: seq<string>, status: Status): Query
  {
    map["test" := Join(path, TestPathSeparator), "status" := StatusText(status)]
  }

  /** The `it` wrapper on the registry: ask, run the body if granted, report its outcome. */
  function RunStep(reg: Registry, runner: string, t: TestCase): (out: (RunResult, Registry))
    requires |t.path| >= 1
    // a test that was not granted is not run and reports nothing
    ensures out.0.NotRun? <==> !AskStep(reg, runner, t.path).0
    ensures out.0.NotRun? ==> out.1 == reg
    // otherwise the body's value is returned and its error rethrown, unchanged
    ensures !out.0.NotRun? ==> out.0 == match t.fn case Completes(v) => Returned(v) case Throws(e) => Rethrown(e)
    // a granted run touches only the suite key and the full path
    ensures !out.0.NotRun? ==> forall k :: k in reg && k != t.path[0] && k != Join(t.path, TestPathSeparator) ==>
      k in out.1 && out.1[k] == reg[k]
    // a report for a full path another runner holds changes nothing beyond the ask
    ensures var ask := AskStep(reg, runner, t.path); var full := Join(t.path, TestPathSeparator);
      ask.0 && full in ask.1 && ask.1[full].runner != runner ==> out.1 == ask.1
    // a report for a full path the runner holds records the body's outcome as its status
    ensures var ask := AskStep(reg, runner, t.path); var full := Join(t.path, TestPathSeparator);
      ask.0 && full in ask.1 && ask.1[full].runner == runner ==>
        full in out.1 && out.1[full].runner == runner && out.1[full].status == (if t.fn.Completes? then Success else Failed)
    ensures KeepsOwners(reg, out.1)
  {
    var (ok, reg1) := AskStep(reg, runner, t.path);
    if !ok then (NotRun, reg1)
    else
      var returned := match t.fn case Completes(v) => Returned(v) case Throws(e) => Rethrown(e);
      var q := ReportQuery(t.path, if t.fn.Completes? then Success else Failed);
      JoinStartsWithFirst(t.path, TestPathSeparator);
      assert Param(q, "test") == Some(Join(t.path, TestPathSeparator));
      assert Param(q, "status") == Some(StatusText(if t.fn.Completes? then Success else Failed));
      (returned, ResultStep(reg1, runner, Param(q, "test"), Param(q, "status")).1)
  }

  /**
   When the runner is granted the suite and nobody else holds the full path,
   the full path ends up owned by the runner with the body's outcome as status.
   */
  lemma RunRecordsOutcome(reg: Registry, runner: string, t: TestCase)
    requires |t.path| >= 1
    requires t.path[0] != "" && (t.path[0] !in reg || reg[t.path[0]].runner == runner)
    requires var full := Join(t.path, TestPathSeparator); full !in reg || reg[full].runner == runner
    ensures var full := Join(t.path, TestPathSeparator);
      && full in RunStep(reg, runner, t).1
      && RunStep(reg, runner, t).1[full].runner == runner
      && RunStep(reg, runner, t).1[full].status == (if t.fn.Completes? then Success else Failed)
  {
    var full := Join(t.path, TestPathSeparator);
    JoinStartsWithFirst(t.path, TestPathSeparator);
    var (ok, reg1) := AskStep(reg, runner, t.path);
    var first := ShouldRunStep(reg, runner, Some(t.path[0]));
    assert reg1 == ShouldRunStep(first.1, runner, Some(full)).1;
    assert full in reg1 && reg1[full].runner == runner;
    var q := ReportQuery(t.path, if t.fn.Completes? then Success else Failed);
    assert Param(q, "test") == Some(full);
  }

  /** Once one runner was granted a suite, every other runner's test of that suite is skipped and changes nothing. */
  lemma SuiteRunsOnOneRunner(reg: Registry, a: string, b: string, t: TestCase, u: TestCase)
    requires |t.path| >= 1 && |u.path| >= 1 && u.path[0] == t.path[0]
    requires a != b
    requires AskStep(reg, a, t.path).0
    ensures var reg' := RunStep(reg, a, t).1;
      RunStep(reg', b, u) == (NotRun, reg')
  {
    var reg1 := AskStep(reg, a, t.path).1;
    assert t.path[0] in reg1 && reg1[t.path[0]].runner == a;
  }

  /** A runner process of the HTTP binding. */
  class Runner {
    const id: string
    const master: Coordinator
    /** The titles of the `describe` blocks being declared, outermost first. */
    var testPath: seq<string>
    /** The tests handed to mocha so far, in declaration order. */
    var registered: seq<TestCase>

    /** The runner id is a URL path segment: non-empty and free of '/'. */
    predicate Valid()
    {
      id != "" && '/' !in id
    }

    constructor (id: string, master: Coordinator)
      requires id != "" && '/' !in id
      ensures this.id == id && this.master == master
      ensures testPath == [] && registered == [] && Valid()
    {
      this.id := id;
      this.master := master;
      testPath := [];
      registered := [];
    }

    /** `describe`: push the title, let mocha run the body at once, pop the title. */
    method Describe(title: string, body: seq<Decl>)
      modifies this
      ensures testPath == old(testPath)
      ensures registered == old(registered) + Collect(old(testPath) + [title], body)
      decreases body, 1
    {
      testPath := testPath + [title];
      DeclareAll(body);
      testPath := testPath[..|testPath| - 1];
    }

    /** A `describe` body: its declarations, in order. */
    method DeclareAll(decls: seq<Decl>)
      modifies this
      ensures testPath == old(testPath)
      ensures registered == old(registered) + Collect(old(testPath), decls)
      decreases decls, 0
    {
      var i := 0;
      while i < |decls|
        invariant 0 <= i <= |decls|
        invariant testPath == old(testPath)
        invariant registered == old(registered) + Collect(old(testPath), decls[..i])
        decreases |decls| - i
      {
        assert decls[..i + 1][..i] == decls[..i];
        match decls[i] {
          case SuiteDecl(title, body) =>
            Describe(title, body);
          case TestDecl(title, fn) =>
            It(title, fn);
        }
        i := i + 1;
      }
      assert decls[..i] == decls;
    }

    /** `it`: capture the path down to this test and register the wrapped body. */
    method It(title: string, fn: Outcome)
      modifies this
      ensures testPath == old(testPath)
      ensures registered == old(registered) + [TestCase(old(testPath) + [title], fn)]
    {
      testPath := testPath + [title];
      var path := testPath;
      testPath := testPath[..|testPath| - 1];
      registered := registered + [TestCase(path, fn)];
    }

    /** askMasterIfShouldRun: claim the suite; only if granted, also claim the full path. */
    method AskMasterIfShouldRun(path: seq<string>) returns (ok: bool)
      requires Valid() && |path| >= 1
      modifies master
      ensures (ok, master.tests) == AskStep(old(master.tests), id, path)
    {
      RouteByAction(master.tests, id, "should-run", map["test" := path[0]]);
      var r := master.MainServerHandler(RunnerPath(id, "should-run"), map["test" := path[0]]);
      ok := r == Run;
      if ok {
        var full := Join(path, TestPathSeparator);
        RouteByAction(master.tests, id, "should-run", map["test" := full]);
        var _ := master.MainServerHandler(RunnerPath(id, "should-run"), map["test" := full]);
      }
    }

    /** sendTestResultToMaster: the coordinator's reply is not read. */
    method SendTestResultToMaster(path: seq<string>, status: Status)
      requires Valid()
      modifies master
      ensures var q := ReportQuery(path, status);
        master.tests == ResultStep(old(master.tests), id, Param(q, "test"), Param(q, "status")).1
    {
      var q := ReportQuery(path, status);
      RouteByAction(master.tests, id, "result", q);
      var _ := master.MainServerHandler(RunnerPath(id, "result"), q);
    }

    /** The function `it` hands to mocha: ask, then run and report, or do nothing. */
    method RunTest(t: TestCase) returns (r: RunResult)
      requires Valid() && |t.path| >= 1
      modifies master
      ensures (r, master.tests) == RunStep(old(master.tests), id, t)
    {
      var ok := AskMasterIfShouldRun(t.path);
      if !ok {
        return NotRun;
      }
      match t.fn
      case Completes(v) =>
        SendTestResultToMaster(t.path, Success);
        r := Returned(v);
      case Throws(e) =>
        SendTestResultToMaster(t.path, Failed);
        r := Rethrown(e);
    }
  }
}
