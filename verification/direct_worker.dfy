/**
 The worker of the direct-store binding (index.js): every runner executes the
 same suite, and before each test it claims the test's work-item key in the
 shared store with SET NX followed by GET, running the test only when the
 stored owner is itself. After each test that was not skipped it appends a
 result record to `<execId>:test_result` and increments `<execId>:<state>_count`.

 The execution id, runner id and granularity setting are parameters (the
 source reads them from the environment); the clock is the `now` parameter.
 */
module DirectWorker {
  import opened Wrappers
  import opened Text
  import opened TestResults
  import opened Redis

  datatype Granularity = PerTest | PerSuite

  /** The granularity setting defaults to "test"; every other value means suite. */
  function GranularityOf(setting: Option<string>): (g: Granularity)
    ensures g == PerTest <==> setting.None? || setting.value == "" || setting.value == "test"
  {
    var value := if setting.Some? && setting.value != "" then setting.value else "test";
    if value != "test" then PerSuite else PerTest
  }

  /** A mocha test or suite as a hook sees it: its title, whether it is the root suite, and its parent. */
  datatype Ctx = Ctx(title: string, root: bool, parent: Option<Ctx>)

  /** The titles getTestPath collects above a test: its non-root ancestors, outermost first. */
  function TitlesAbove(c: Ctx): seq<string>
  {
    if c.root || c.parent.None? || c.parent.value.root then []
    else TitlesAbove(c.parent.value) + [c.parent.value.title]
  }

  /** The path of a test: the titles above it, then its own title. */
  function TestPath(c: Ctx): (path: seq<string>)
    ensures |path| >= 1 && path[|path| - 1] == c.title
  {
    TitlesAbove(c) + [c.title]
  }

  /** `Array.prototype.reverse` on a sequence. */
  function Reverse(s: seq<string>): (r: seq<string>)
    ensures |r| == |s|
    ensures forall i :: 0 <= i < |s| ==> r[i] == s[|s| - 1 - i]
  {
    if s == [] then [] else [s[|s| - 1]] + Reverse(s[..|s| - 1])
  }

  /** getTestPath: walk up the parents collecting titles, then reverse. */
  method GetTestPath(testContext: Ctx) returns (path: seq<string>)
    ensures path == TestPath(testContext)
  {
    var ctx := testContext;
    var collected := [ctx.title];
    while !ctx.root && ctx.parent.Some?
      invariant TestPath(testContext) == TitlesAbove(ctx) + Reverse(collected)
      decreases ctx
    {
      var parent := ctx.parent.value;
      assert TitlesAbove(ctx) == if parent.root then [] else TitlesAbove(parent) + [parent.title];
      ctx := parent;
      if !ctx.root {
        assert (collected + [ctx.title])[..|collected|] == collected;
        collected := collected + [ctx.title];
      }
    }
    path := Reverse(collected);
  }

  /**
   The context of a test declared inside nested suites: `titles` lists the
   suites from the outermost one down, then the test; the outermost suite hangs
   off a root suite titled `rootTitle`.
   */
  function Nest(rootTitle: string, titles: seq<string>): Ctx
  {
    if |titles| == 0 then Ctx(rootTitle, true, None)
    else Ctx(titles[|titles| - 1], false, Some(Nest(rootTitle, titles[..|titles| - 1])))
  }

  lemma {:induction false} TitlesAboveNest(rootTitle: string, titles: seq<string>)
    requires |titles| >= 1
    ensures TitlesAbove(Nest(rootTitle, titles)) == titles[..|titles| - 1]
  {
    if |titles| > 1 {
      var up := titles[..|titles| - 1];
      TitlesAboveNest(rootTitle, up);
      assert up[..|up| - 1] + [up[|up| - 1]] == titles[..|titles| - 1];
    }
  }

  /** A test's path is the titles of its enclosing suites and its own, and never the root's title. */
  lemma NestedTestPath(rootTitle: string, titles: seq<string>)
    requires |titles| >= 1
    ensures TestPath(Nest(rootTitle, titles)) == titles
  {
    TitlesAboveNest(rootTitle, titles);
  }

  /** The work-item key of a test: the whole path under test granularity, the outermost title under suite granularity. */
  function ClaimKey(execId: string, path: seq<string>, g: Granularity): string
    requires |path| >= 1
  {
    if g == PerTest then execId + ":" + Join(path, ":") else execId + ":" + path[0]
  }

  /** Under suite granularity two tests share a key exactly when their outermost titles agree. */
  lemma SuiteKeys(execId: string, p: seq<string>, q: seq<string>)
    requires |p| >= 1 && |q| >= 1
    ensures ClaimKey(execId, p, PerSuite) == ClaimKey(execId, q, PerSuite) <==> p[0] == q[0]
  {
    if ClaimKey(execId, p, PerSuite) == ClaimKey(execId, q, PerSuite) {
      var n := |execId| + 1;
      assert ClaimKey(execId, p, PerSuite)[n..] == p[0];
      assert ClaimKey(execId, q, PerSuite)[n..] == q[0];
    }
  }

  /** Under test granularity, paths whose titles contain no ':' share a key only when they are equal. */
  lemma TestKeys(execId: string, p: seq<string>, q: seq<string>)
    requires |p| >= 1 && |q| >= 1
    requires forall i :: 0 <= i < |p| ==> ':' !in p[i]
    requires forall i :: 0 <= i < |q| ==> ':' !in q[i]
    ensures ClaimKey(execId, p, PerTest) == ClaimKey(execId, q, PerTest) <==> p == q
  {
    if ClaimKey(execId, p, PerTest) == ClaimKey(execId, q, PerTest) {
      var n := |execId| + 1;
      assert ClaimKey(execId, p, PerTest)[n..] == Join(p, ":");
      assert ClaimKey(execId, q, PerTest)[n..] == Join(q, ":");
      JoinInjective(p, q, ':');
    }
  }

  /** As written, titles containing ':' let two different tests share one key under test granularity. */
  lemma ColonTitlesShareKey()
    ensures ["a:b"] != ["a", "b"]
    ensures ClaimKey("E", ["a:b"], PerTest) == ClaimKey("E", ["a", "b"], PerTest)
  {
    assert ["a", "b"][1..] == ["b"];
    assert Join(["a", "b"], ":") == "a" + ":" + "b";
  }

  /** The key of the result list of an execution. */
  function ResultKey(execId: string): string
  {
    execId + ":test_result"
  }

  /** The key of the counter of results in state `state`. */
  function CountKey(execId: string, state: string): string
  {
    execId + ":" + state + "_count"
  }

  lemma ResultKeyIsNotCountKey(execId: string, state: string)
    ensures ResultKey(execId) != CountKey(execId, state)
  {
    var a, b := ResultKey(execId), CountKey(execId, state);
    if |a| == |b| {
      var i := |execId| + 7;
      assert a[i] == 'e' && b[i] == 'c';
    }
  }

  lemma CountKeyInjective(execId: string, s: string, t: string)
    requires CountKey(execId, s) == CountKey(execId, t)
    ensures s == t
  {
    var n := |execId| + 1;
    assert CountKey(execId, s)[n..n + |s|] == s;
    assert CountKey(execId, t)[n..n + |t|] == t;
  }

  /** `state || (timedOut ? "failed" : "passed")`: the state recorded for a finished test. */
  function StateFixed(state: Option<string>, timedOut: bool): (s: string)
    ensures s != ""
    ensures state.Some? && state.value != "" ==> s == state.value
    ensures state.None? || state.value == "" ==> (s == "failed" <==> timedOut) && (s == "passed" <==> !timedOut)
  {
    if state.Some? && state.value != "" then state.value
    else if timedOut then "failed" else "passed"
  }

  /** What the afterEach hook reads of mocha's current test. */
  datatype CurrentTest = CurrentTest(ctx: Ctx, state: Option<string>, timedOut: bool, duration: Option<int>)

  /** The record stored for a finished test at time `now`. */
  function ResultOf(t: CurrentTest, now: int): (r: TestResult)
    ensures r.id == TestPath(t.ctx) && r.title == t.ctx.title
    ensures r.state == StateFixed(t.state, t.timedOut) && (r.failed <==> r.state == "failed")
    ensures r.endTime == now && r.endTime - r.startTime == DurationOrZero(t.duration)
    // the stored duration and timeout flag are the test's own
    ensures r.duration == t.duration && r.timedOut == t.timedOut
  {
    var stateFixed := StateFixed(t.state, t.timedOut);
    TestResult(
      id := TestPath(t.ctx),
      title := t.ctx.title,
      timedOut := t.timedOut,
      duration := t.duration,
      startTime := now - DurationOrZero(t.duration),
      endTime := now,
      state := stateFixed,
      failed := stateFixed == "failed")
  }

  /** The claim transaction: SET key runner NX, then GET key; granted when the stored owner is `runner`. */
  function ClaimStep(db: Db, key: string, runner: string): (out: (bool, Db))
    // granted exactly when the key was free or already held by this runner
    ensures out.0 <==> key !in db || db[key] == Str(runner)
    // an existing value is never overwritten
    ensures key in db ==> out.1 == db
    ensures key !in db ==> out.1 == db[key := Str(runner)]
  {
    var db' := SetIfAbsentStep(db, key, runner);
    (GetStep(db', key) == Some(Str(runner)), db')
  }

  /** The afterEach writes: RPUSH the record, then INCR the counter of its state. */
  function RecordStep(db: Db, execId: string, r: TestResult): (db': Db)
    // exactly one entry is appended to the result list
    ensures ResultKey(execId) !in db || db[ResultKey(execId)].List? ==>
      ItemsAt(db', ResultKey(execId)) == ItemsAt(db, ResultKey(execId)) + [r]
    // exactly the counter of the recorded state goes up, by one
    ensures IntAt(db, CountKey(execId, r.state)).Some? ==>
      IntAt(db', CountKey(execId, r.state)) == Some(IntAt(db, CountKey(execId, r.state)).value + 1)
    // no other key changes
    ensures forall k :: k != ResultKey(execId) && k != CountKey(execId, r.state) ==>
      (k in db' <==> k in db) && (k in db ==> db'[k] == db[k])
  {
    ResultKeyIsNotCountKey(execId, r.state);
    IncrStep(RPushStep(db, ResultKey(execId), r), CountKey(execId, r.state))
  }

  /** A worker process: its ids, the granularity, and the shared store. */
  class Worker {
    const execId: string
    const runnerId: string
    const granularity: Granularity
    const store: RedisStore

    constructor (execId: string, runnerId: string, granularitySetting: Option<string>, store: RedisStore)
      ensures this.execId == execId && this.runnerId == runnerId && this.store == store
      ensures granularity == GranularityOf(granularitySetting)
    {
      this.execId := execId;
      this.runnerId := runnerId;
      this.granularity := GranularityOf(granularitySetting);
      this.store := store;
    }

    /** The beforeEach hook: claim the test's key; the test runs only when `run` holds. */
    method BeforeEach(currentTest: Ctx) returns (run: bool)
      modifies store
      ensures (run, store.db) == ClaimStep(old(store.db), ClaimKey(execId, TestPath(currentTest), granularity), runnerId)
    {
      var testPath := GetTestPath(currentTest);
      var testKeyFullPath := execId + ":" + Join(testPath, ":");
      var testKeySuite := execId + ":" + testPath[0];
      var testKey := if granularity == PerTest then testKeyFullPath else testKeySuite;
      var assignedRunnerId := store.SetNxGet(testKey, runnerId);
      run := assignedRunnerId == Some(Str(runnerId));
    }

    /** The afterEach hook: record every test that was not skipped. */
    method AfterEach(currentTest: CurrentTest, now: int)
      modifies store
      ensures store.db ==
        if currentTest.state == Some("pending") then old(store.db)
        else RecordStep(old(store.db), execId, ResultOf(currentTest, now))
    {
      if currentTest.state != Some("pending") {
        var stateFixed := StateFixed(currentTest.state, currentTest.timedOut);
        var id := GetTestPath(currentTest.ctx);
        var duration := DurationOrZero(currentTest.duration);
        var testResult := TestResult(
          id := id,
          title := currentTest.ctx.title,
          timedOut := currentTest.timedOut,
          duration := currentTest.duration,
          startTime := now - duration,
          endTime := now,
          state := stateFixed,
          failed := stateFixed == "failed");
        store.RPush(ResultKey(execId), testResult);
        store.Incr(CountKey(execId, stateFixed));
      }
    }
  }

  /**
   One store command issued by some worker: the claim transaction, or one of
   the two separate commands afterEach sends for a result.
   */
  datatype StoreOp =
    | Claim(key: string, runner: string)
    | Push(key: string, item: TestResult)
    | Incr(key: string)

  function ApplyOp(db: Db, op: StoreOp): Db
  {
    match op
    case Claim(key, runner) => ClaimStep(db, key, runner).1
    case Push(key, item) => RPushStep(db, key, item)
    case Incr(key) => IncrStep(db, key)
  }

  /** The store after the commands of all workers, in the order the store executed them. */
  function Apply(db: Db, ops: seq<StoreOp>): Db
  {
    if ops == [] then db else ApplyOp(Apply(db, ops[..|ops| - 1]), ops[|ops| - 1])
  }

  /** The commands afterEach sends for one result: RPUSH to the list, then INCR of the state's counter. */
  function RecordOps(execId: string, r: TestResult): seq<StoreOp>
  {
    [Push(ResultKey(execId), r), Incr(CountKey(execId, r.state))]
  }

  /** Recording a result is the two commands run one after the other. */
  lemma RecordIsTwoCommands(db: Db, execId: string, r: TestResult)
    ensures Apply(db, RecordOps(execId, r)) == RecordStep(db, execId, r)
  {
    var ops := RecordOps(execId, r);
    assert ops[..1] == [Push(ResultKey(execId), r)] && ops[..1][..0] == [];
    assert Apply(db, ops[..1]) == RPushStep(db, ResultKey(execId), r);
    assert Apply(db, ops) == IncrStep(Apply(db, ops[..1]), CountKey(execId, r.state));
  }

  /** No command of `ops` increments `key`. */
  predicate NeverIncremented(ops: seq<StoreOp>, key: string)
  {
    forall k :: 0 <= k < |ops| && ops[k].Incr? ==> ops[k].key != key
  }

  /**
   Once a key holds a runner id, no later command changes it: claims never
   overwrite, RPUSH refuses a string, and INCR refuses a string that is not
   integer text. An id that reads as an integer survives only if nothing
   increments its key.
   */
  lemma {:induction false} OwnerStable(db: Db, ops: seq<StoreOp>, key: string, owner: string)
    requires key in db && db[key] == Str(owner)
    requires ParseInt(owner).None? || NeverIncremented(ops, key)
    ensures key in Apply(db, ops) && Apply(db, ops)[key] == Str(owner)
  {
    if ops != [] {
      OwnerStable(db, ops[..|ops| - 1], key, owner);
    }
  }

  /**
   Exclusivity in the shared store: if two claims on the same key are both
   granted, in whatever order the store ran them and whatever ran in between,
   they were made by the same runner, provided the first runner's id is not
   integer text or no command in between increments the claimed key.
   */
  lemma ClaimsExclusive(db: Db, ops: seq<StoreOp>, i: nat, j: nat)
    requires i < j < |ops|
    requires ops[i].Claim? && ops[j].Claim? && ops[i].key == ops[j].key
    requires ParseInt(ops[i].runner).None? || NeverIncremented(ops[i + 1..j], ops[i].key)
    requires ClaimStep(Apply(db, ops[..i]), ops[i].key, ops[i].runner).0
    requires ClaimStep(Apply(db, ops[..j]), ops[j].key, ops[j].runner).0
    ensures ops[i].runner == ops[j].runner
  {
    var key := ops[i].key;
    var afterI := Apply(db, ops[..i + 1]);
    assert ops[..i + 1][..i] == ops[..i];
    assert key in afterI && afterI[key] == Str(ops[i].runner);
    OwnerStable(afterI, ops[i + 1..j], key, ops[i].runner);
    ApplyConcat(db, ops[..i + 1], ops[i + 1..j]);
    assert ops[..i + 1] + ops[i + 1..j] == ops[..j];
  }

  /**
   As written, a claim key can be a counter key: under suite granularity a
   top-level suite titled "passed_count" is claimed under `E:passed_count`.
   A runner whose id is integer text claims it, a passed result increments it
   to the next integer, and the runner with that id is then granted it too.
   */
  lemma CounterKeyClaimCollision(r: TestResult)
    requires r.state == "passed"
    ensures ClaimKey("E", ["passed_count"], PerSuite) == CountKey("E", r.state)
    ensures var ops := [Claim("E:passed_count", "5")] + RecordOps("E", r) + [Claim("E:passed_count", "6")];
      && ClaimStep(Apply(map[], ops[..0]), "E:passed_count", "5").0
      && ClaimStep(Apply(map[], ops[..3]), "E:passed_count", "6").0
  {
    var ops := [Claim("E:passed_count", "5")] + RecordOps("E", r) + [Claim("E:passed_count", "6")];
    var db1 := Apply(map[], ops[..1]);
    assert ops[0] == Claim("E:passed_count", "5");
    assert ops[..1][..0] == [];
    assert Apply(map[], ops[..1][..0]) == map[];
    assert db1 == ApplyOp(map[], ops[0]);
    assert db1 == map["E:passed_count" := Str("5")];
    assert ParseInt("5") == Some(5) by {
      assert "5"[..0] == [];
    }
    var db2 := Apply(map[], ops[..2]);
    assert ops[..2][..1] == ops[..1];
    assert db2 == db1[ResultKey("E") := List([r])];
    assert ops[..3][..2] == ops[..2];
    assert IntText(6) == "6";
    assert ops[2] == Incr(CountKey("E", r.state)) && CountKey("E", r.state) == "E:passed_count";
    assert IntAt(db2, "E:passed_count") == Some(5);
    assert Apply(map[], ops[..3]) == db2["E:passed_count" := Str("6")];
  }

  /** A claim key of an execution is one of its counter keys only when the claimed title text ends in "_count". */
  lemma ClaimKeyIsCounterKeyOnlyForCountTitles(execId: string, title: string, st: string)
    ensures execId + ":" + title == CountKey(execId, st) ==> title == st + "_count"
  {
    if execId + ":" + title == CountKey(execId, st) {
      var n := |execId| + 1;
      assert (execId + ":" + title)[n..] == title;
      assert CountKey(execId, st)[n..] == st + "_count";
    }
  }

  lemma {:induction false} ApplyConcat(db: Db, a: seq<StoreOp>, b: seq<StoreOp>)
    ensures Apply(db, a + b) == Apply(Apply(db, a), b)
  {
    if b != [] {
      ApplyConcat(db, a, b[..|b| - 1]);
      assert (a + b)[..|a + b| - 1] == a + b[..|b| - 1];
    } else {
      assert a + b == a;
    }
  }

  /**
   The counters of an execution agree with its result list: for every state,
   `<execId>:<state>_count` reads as the number of listed results in that state.
   */
  ghost predicate CountersMatch(db: Db, execId: string)
  {
    && (ResultKey(execId) !in db || db[ResultKey(execId)].List?)
    && forall st :: IntAt(db, CountKey(execId, st)) == Some(CountState(ItemsAt(db, ResultKey(execId)), st))
  }

  lemma EmptyStoreCountersMatch(execId: string)
    ensures CountersMatch(map[], execId)
  {
  }

  /** Recording a result keeps the counters in step with the list. */
  lemma RecordKeepsCountersMatch(db: Db, execId: string, r: TestResult)
    requires CountersMatch(db, execId)
    ensures CountersMatch(RecordStep(db, execId, r), execId)
  {
    var db' := RecordStep(db, execId, r);
    var items := ItemsAt(db, ResultKey(execId));
    assert ItemsAt(db', ResultKey(execId)) == items + [r];
    assert (items + [r])[..|items|] == items;
    forall st
      ensures IntAt(db', CountKey(execId, st)) == Some(CountState(items + [r], st))
    {
      ResultKeyIsNotCountKey(execId, st);
      if st != r.state {
        if CountKey(execId, st) == CountKey(execId, r.state) {
          CountKeyInjective(execId, st, r.state);
        }
      }
    }
  }

  /** A claim on a key outside the execution's result and counter keys leaves them in step. */
  lemma ClaimKeepsCountersMatch(db: Db, execId: string, key: string, runner: string)
    requires CountersMatch(db, execId)
    requires key != ResultKey(execId)
    requires forall st :: key != CountKey(execId, st)
    ensures CountersMatch(ClaimStep(db, key, runner).1, execId)
  {
    var db' := ClaimStep(db, key, runner).1;
    assert ItemsAt(db', ResultKey(execId)) == ItemsAt(db, ResultKey(execId));
    forall st
      ensures IntAt(db', CountKey(execId, st)) == IntAt(db, CountKey(execId, st))
    {
      assert key != CountKey(execId, st);
    }
  }
}
