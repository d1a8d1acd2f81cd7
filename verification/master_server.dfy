/**
 The coordinator of the HTTP binding (master-server.js): an in-memory registry
 from test id to ownership record, a `should-run` claim, a `result` report that
 only the owner may make, and the URL routing in front of the two.

 The registry is a class whose `tests` field the handlers reassign; each handler
 is proved against a pure step function on registries, and the protocol's
 guarantees (first claimer owns, owners never change, non-owners are refused)
 are proved about those step functions, up to whole request traces.
 */
module MasterServer {
  import opened Wrappers
  import opened Text
  import opened Constants

  /** An entry of the registry; the `start`/`end` timestamps are not modelled. */
  datatype Ownership = Ownership(runner: string, status: Status, retries: nat)

  /** Test id to ownership record. */
  type Registry = map<string, Ownership>

  /** A parsed query string. */
  type Query = map<string, string>

  /** `queryObj[name] || null`: a missing or empty parameter reads as absent. */
  function Param(q: Query, name: string): Option<string>
  {
    if name in q && q[name] != "" then Some(q[name]) else None
  }

  /** `splitted[i]` read through JavaScript's falsy test: out of range or empty is absent. */
  function Segment(parts: seq<string>, i: nat): Option<string>
  {
    if i < |parts| && parts[i] != "" then Some(parts[i]) else None
  }

  /** The body written to the HTTP response. */
  datatype Reply =
    | NoBody                                           // `res.end()` with nothing written
    | Run                                              // {answer: 'run'}
    | Skip(reason: ErrorCode, owner: Option<string>)   // {answer: 'skip', reason, runner?}
    | Error(code: ErrorCode)                           // {error}
    | Reported(status: Status)                         // {status}

  predicate ValidTestId(test: Option<string>)
  {
    test.Some? && test.value != ""
  }

  /** Every test id owned in `reg` is still owned, by the same runner, in `reg'`. */
  ghost predicate KeepsOwners(reg: Registry, reg': Registry)
  {
    forall k :: k in reg ==> k in reg' && reg'[k].runner == reg[k].runner
  }

  /** `reg'` agrees with `reg` on every test id except `id`. */
  ghost predicate SameExcept(reg: Registry, reg': Registry, id: string)
  {
    forall k :: k in reg && k != id ==> k in reg' && reg'[k] == reg[k]
  }

  /** handleRunnerShouldRun on the registry: the reply and the registry afterwards. */
  function ShouldRunStep(reg: Registry, runner: string, test: Option<string>): (out: (Reply, Registry))
    // a missing or empty test id is refused and changes nothing
    ensures !ValidTestId(test) ==> out == (Skip(InvalidTestId, None), reg)
    // the first claimer becomes the owner, and an owner is never replaced
    ensures ValidTestId(test) ==>
      && out.1.Keys == reg.Keys + {test.value}
      && out.1[test.value].runner == (if test.value in reg then reg[test.value].runner else runner)
      && SameExcept(reg, out.1, test.value)
    // the caller is told to run exactly when it is the owner afterwards
    ensures ValidTestId(test) ==> (out.0 == Run <==> out.1[test.value].runner == runner)
    ensures out.0 != Run ==> out.1 == reg
    // a fresh claim starts a running record with no retries
    ensures ValidTestId(test) && test.value !in reg ==> out.1[test.value] == Ownership(runner, Running, 0)
    // a claim by the owner is a retry: only the retry counter moves, by one
    ensures ValidTestId(test) && test.value in reg && reg[test.value].runner == runner ==>
      out.1[test.value] == reg[test.value].(retries := reg[test.value].retries + 1)
    // anyone else learns who the owner is
    ensures ValidTestId(test) && test.value in reg && reg[test.value].runner != runner ==>
      out.0 == Skip(AlreadyRunning, Some(reg[test.value].runner))
    ensures KeepsOwners(reg, out.1)
  {
    if !ValidTestId(test) then (Skip(InvalidTestId, None), reg)
    else if test.value in reg then
      var rec := reg[test.value];
      if rec.runner == runner then (Run, reg[test.value := rec.(retries := rec.retries + 1)])
      else (Skip(AlreadyRunning, Some(rec.runner)), reg)
    else (Run, reg[test.value := Ownership(runner, Running, 0)])
  }

  /** handleRunnerResult on the registry: the reply and the registry afterwards. */
  function ResultStep(reg: Registry, runner: string, test: Option<string>, status: Option<string>): (out: (Reply, Registry))
    // an unknown test id is refused and changes nothing
    ensures !ValidTestId(test) || test.value !in reg ==> out == (Error(InvalidTestId), reg)
    // so is a report from anyone but the owner
    ensures ValidTestId(test) && test.value in reg && reg[test.value].runner != runner ==>
      out == (Error(InvalidRunnerOwnership), reg)
    // the owner's report is accepted: only the status of that one record changes
    ensures out.0.Reported? <==> ValidTestId(test) && test.value in reg && reg[test.value].runner == runner
    ensures out.0.Reported? ==> out.1 == reg[test.value := reg[test.value].(status := out.0.status)]
    // the recorded status is success only when the report said "success", else failed
    ensures out.0.Reported? ==> out.0.status != Running && (out.0.status == Success <==> status == Some("success"))
    ensures out.1.Keys == reg.Keys && KeepsOwners(reg, out.1)
  {
    if !ValidTestId(test) || test.value !in reg then (Error(InvalidTestId), reg)
    else if reg[test.value].runner != runner then (Error(InvalidRunnerOwnership), reg)
    else
      var st := ReportedStatus(if status.Some? then status.value else StatusText(Failed));
      (Reported(st), reg[test.value := reg[test.value].(status := st)])
  }

  /** handleRunners: dispatch on `/runner/<runner-id>/<action>`. */
  function HandleRunnersStep(reg: Registry, pathname: string, q: Query): (Reply, Registry)
  {
    var parts := Split(pathname, '/');
    var runner := Segment(parts, 2);
    var action := Segment(parts, 3);
    if runner.None? || action.None? then (NoBody, reg)
    else if action.value == "should-run" then ShouldRunStep(reg, runner.value, Param(q, "test"))
    else if action.value == "result" then ResultStep(reg, runner.value, Param(q, "test"), Param(q, "status"))
    else (Error(InvalidRequestAction), reg)
  }

  /** mainServerHandler: only paths under `/runner/` are served. */
  function ServeStep(reg: Registry, pathname: string, q: Query): (Reply, Registry)
  {
    if StartsWith(pathname, "/runner/") then HandleRunnersStep(reg, pathname, q)
    else (Error(InvalidRequest), reg)
  }

  /** The coordinator process: the registry and its request handlers. */
  class Coordinator {
    var tests: Registry

    constructor ()
      ensures tests == map[]
    {
      tests := map[];
    }

    method HandleRunnerShouldRun(runnerId: string, query: Query) returns (reply: Reply)
      modifies this
      ensures (reply, tests) == ShouldRunStep(old(tests), runnerId, Param(query, "test"))
    {
      var testId := Param(query, "test");
      if testId.None? {
        return Skip(InvalidTestId, None);
      }
      var id := testId.value;
      if id in tests {
        var owner := tests[id].runner;
        if runnerId == owner {
          tests := tests[id := tests[id].(retries := tests[id].retries + 1)];
          return Run;
        }
        return Skip(AlreadyRunning, Some(owner));
      }
      tests := tests[id := Ownership(runnerId, Running, 0)];
      return Run;
    }

    method HandleRunnerResult(runnerId: string, query: Query) returns (reply: Reply)
      modifies this
      ensures (reply, tests) == ResultStep(old(tests), runnerId, Param(query, "test"), Param(query, "status"))
    {
      var testId := Param(query, "test");
      if testId.None? || testId.value !in tests {
        return Error(InvalidTestId);
      }
      var id := testId.value;
      if tests[id].runner != runnerId {
        return Error(InvalidRunnerOwnership);
      }
      var status := Param(query, "status");
      var text := if status.Some? then status.value else StatusText(Failed);
      var st := if text != StatusText(Success) then Failed else Success;
      tests := tests[id := tests[id].(status := st)];
      return Reported(st);
    }

    method HandleRunners(pathname: string, query: Query) returns (reply: Reply)
      modifies this
      ensures (reply, tests) == HandleRunnersStep(old(tests), pathname, query)
    {
      var splitted := Split(pathname, '/');
      var runnerId := Segment(splitted, 2);
      var action := Segment(splitted, 3);
      if runnerId.None? || action.None? {
        return NoBody;
      }
      if action.value == "should-run" {
        reply := HandleRunnerShouldRun(runnerId.value, query);
      } else if action.value == "result" {
        reply := HandleRunnerResult(runnerId.value, query);
      } else {
        reply := Error(InvalidRequestAction);
      }
    }

    method MainServerHandler(pathname: string, query: Query) returns (reply: Reply)
      modifies this
      ensures (reply, tests) == ServeStep(old(tests), pathname, query)
    {
      if StartsWith(pathname, "/runner/") {
        reply := HandleRunners(pathname, query);
      } else {
        reply := Error(InvalidRequest);
      }
    }
  }

  /** The URL of a runner's request, as the runner builds it. */
  function RunnerPath(runner: string, action: string): string
  {
    "/runner/" + runner + "/" + action
  }

  /**
   A request to `/runner/<runner>/<action>`, for a runner id and an action that
   are non-empty and free of '/', reaches the handler of that action, and an
   unknown action is answered INVALID_REQUEST_ACTION with the registry unchanged.
   */
  lemma RouteByAction(reg: Registry, runner: string, action: string, q: Query)
    requires runner != "" && '/' !in runner
    requires action != "" && '/' !in action
    ensures ServeStep(reg, RunnerPath(runner, action), q) ==
      if action == "should-run" then ShouldRunStep(reg, runner, Param(q, "test"))
      else if action == "result" then ResultStep(reg, runner, Param(q, "test"), Param(q, "status"))
      else (Error(InvalidRequestAction), reg)
  {
    var path := RunnerPath(runner, action);
    var parts := ["", "runner", runner, action];
    assert Join(parts, "/") == path by {
      assert Join(parts[3..], "/") == action;
      assert Join(parts[2..], "/") == runner + "/" + action;
      assert Join(parts[1..], "/") == "runner/" + runner + "/" + action;
    }
    forall i | 0 <= i < |parts| ensures '/' !in parts[i] {
    }
    SplitJoin(parts, '/');
    assert path[..|"/runner/"|] == "/runner/";
  }

  /** A request that names a runner but no action gets an empty response and changes nothing. */
  lemma MissingActionIsEmpty(reg: Registry, runner: string, q: Query)
    requires '/' !in runner
    ensures ServeStep(reg, "/runner/" + runner, q) == (NoBody, reg)
    ensures ServeStep(reg, RunnerPath(runner, ""), q) == (NoBody, reg)
  {
    var parts := ["", "runner", runner];
    assert Join(parts, "/") == "/runner/" + runner by {
      assert Join(parts[2..], "/") == runner;
      assert Join(parts[1..], "/") == "runner/" + runner;
    }
    forall i | 0 <= i < |parts| ensures '/' !in parts[i] {
    }
    SplitJoin(parts, '/');
    assert ("/runner/" + runner)[..|"/runner/"|] == "/runner/";
    var parts' := ["", "runner", runner, ""];
    assert Join(parts', "/") == RunnerPath(runner, "") by {
      assert Join(parts'[3..], "/") == "";
      assert Join(parts'[2..], "/") == runner + "/";
      assert Join(parts'[1..], "/") == "runner/" + runner + "/";
    }
    forall i | 0 <= i < |parts'| ensures '/' !in parts'[i] {
    }
    SplitJoin(parts', '/');
    assert RunnerPath(runner, "")[..|"/runner/"|] == "/runner/";
  }

  /** A request with an empty runner segment gets an empty response and changes nothing, whatever the action. */
  lemma MissingRunnerIsEmpty(reg: Registry, action: string, q: Query)
    requires '/' !in action
    ensures ServeStep(reg, RunnerPath("", action), q) == (NoBody, reg)
  {
    var parts := ["", "runner", "", action];
    assert Join(parts, "/") == RunnerPath("", action) by {
      assert Join(parts[3..], "/") == action;
      assert Join(parts[2..], "/") == "/" + action;
      assert Join(parts[1..], "/") == "runner//" + action;
    }
    forall i | 0 <= i < |parts| ensures '/' !in parts[i] {
    }
    SplitJoin(parts, '/');
    assert RunnerPath("", action)[..|"/runner/"|] == "/runner/";
  }

  /** A request to the coordinator. */
  datatype Request = Request(pathname: string, query: Query)

  /** The (runner, test id) of a request that the coordinator routes to should-run with a test id. */
  function ClaimOf(req: Request): Option<(string, string)>
  {
    var parts := Split(req.pathname, '/');
    var runner := Segment(parts, 2);
    var test := Param(req.query, "test");
    if StartsWith(req.pathname, "/runner/") && runner.Some? && Segment(parts, 3) == Some("should-run") && test.Some?
    then Some((runner.value, test.value))
    else None
  }

  /** No request removes an owner or hands an owned test to another runner. */
  lemma ServeKeepsOwners(reg: Registry, req: Request)
    ensures KeepsOwners(reg, ServeStep(reg, req.pathname, req.query).1)
  {
  }

  /** Only a should-run request is answered "run", and its caller then owns the test. */
  lemma RunOnlyForOwner(reg: Registry, req: Request)
    requires ServeStep(reg, req.pathname, req.query).0 == Run
    ensures ClaimOf(req).Some?
    ensures var (runner, test) := ClaimOf(req).value;
      var reg' := ServeStep(reg, req.pathname, req.query).1;
      test in reg' && reg'[test].runner == runner
  {
  }

  /** The registry after serving `reqs` one by one, in order. */
  function Replay(reg: Registry, reqs: seq<Request>): Registry
  {
    if reqs == [] then reg
    else
      var last := reqs[|reqs| - 1];
      ServeStep(Replay(reg, reqs[..|reqs| - 1]), last.pathname, last.query).1
  }

  lemma {:induction false} ReplayKeepsOwners(reg: Registry, reqs: seq<Request>, i: nat, j: nat)
    requires i <= j <= |reqs|
    ensures KeepsOwners(Replay(reg, reqs[..i]), Replay(reg, reqs[..j]))
  {
    if i < j {
      ReplayKeepsOwners(reg, reqs, i, j - 1);
      var prefix := reqs[..j];
      assert prefix[..j - 1] == reqs[..j - 1];
      ServeKeepsOwners(Replay(reg, reqs[..j - 1]), reqs[j - 1]);
    }
  }

  /**
   Exclusivity: over any sequence of requests served one at a time, two
   requests that are answered "run" for the same test id come from the same
   runner. So each test id is granted to at most one runner.
   */
  lemma {:induction false} OneGranteePerTest(reg: Registry, reqs: seq<Request>, i: nat, j: nat)
    requires i < j < |reqs|
    requires ServeStep(Replay(reg, reqs[..i]), reqs[i].pathname, reqs[i].query).0 == Run
    requires ServeStep(Replay(reg, reqs[..j]), reqs[j].pathname, reqs[j].query).0 == Run
    ensures ClaimOf(reqs[i]).Some? && ClaimOf(reqs[j]).Some?
    ensures ClaimOf(reqs[i]).value.1 == ClaimOf(reqs[j]).value.1 ==>
      ClaimOf(reqs[i]).value.0 == ClaimOf(reqs[j]).value.0
  {
    var before := Replay(reg, reqs[..i]);
    RunOnlyForOwner(before, reqs[i]);
    var atJ := Replay(reg, reqs[..j]);
    RunOnlyForOwner(atJ, reqs[j]);
    var (a, t) := ClaimOf(reqs[i]).value;
    var (b, u) := ClaimOf(reqs[j]).value;
    if t == u {
      assert reqs[..i + 1][..i] == reqs[..i];
      assert Replay(reg, reqs[..i + 1]) == ServeStep(before, reqs[i].pathname, reqs[i].query).1;
      ReplayKeepsOwners(reg, reqs, i + 1, j);
      assert t in atJ && atJ[t].runner == a;
      ServeKeepsOwners(atJ, reqs[j]);
    }
  }
}
