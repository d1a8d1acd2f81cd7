# mocha-distributed: claiming, reporting and aggregation

mocha-distributed runs one mocha test suite on many processes at once. It makes
sure each test, or each top-level suite, runs on exactly one of them, and it
gathers the outcomes in one place. Two bindings exist, and this project models
both of them plus the script that reads back the results.

- **HTTP binding.** A master server keeps a map from test id to ownership
  record: runner, status and retry count. Runners ask it over HTTP whether
  they may run a test (`/runner/<id>/should-run?test=…`). Afterwards they
  report the outcome (`/runner/<id>/result?test=…&status=…`).
- **Direct-store binding.** Every runner claims a test's key in Redis with
  `SET NX` followed by `GET`. It appends a result record to
  `<execId>:test_result` and increments `<execId>:<state>_count`.
- **Reporting script.** It folds over each execution's result list. It
  counts passed and failed results, sums durations and finds the earliest
  start and the latest end. It then sorts the results by path and the
  executions most recent first.

The model follows the source's form:

- **Master server** (`master_server.dfy`). A `Coordinator` class holds the
  registry map, and its handlers reassign it. Each handler is proved equal
  to a pure step function on registries. Exclusivity is proved on those
  step functions over whole request traces.
- **Direct-store worker** (`direct_worker.dfy`, `redis.dfy`). A `Worker`
  class works on a `RedisStore` class whose `db` map the commands reassign.
  Each command is one atomic step, and counters are decimal text as in
  Redis. `getTestPath` is a loop over the context's parents. Exclusivity is
  proved over any sequence of store commands from any set of workers. It
  holds when the granted runner's id is not integer text, or when no INCR in
  between touches the claimed key (see "## Findings").
- **Reporting script** (`aggregator.dfy`, `sorting.dfy`). The per-execution
  loop keeps accumulators. Both sorts are an in-place sort of an array by a
  total preorder, so the results are sorted and a permutation of the input.
- **HTTP-binding worker** (`runner_bindings.dfy`). A `Runner` class keeps the
  stack of suite titles during collection. It reaches the `Coordinator`
  through its request handler with the URL the runner builds.

Supporting modules:

- `text.dfy`: `split`, `join`, `startsWith` and string order.
- `constants.dfy`: statuses and error codes.
- `test_results.dfy`: the stored record.
- `wrappers.dfy`: `Option`.

Inputs the source takes from elsewhere are parameters of the model:

- the execution id, runner id and granularity setting, which come from
  environment variables;
- the clock (`now`);
- the parsed query string.

## Model

| member | source | states |
|---|---|---|
| MasterServer.ShouldRunStep | master-server.js:19-73 | a missing or empty test id is skipped with INVALID_TEST_ID and the map is unchanged; a new id becomes owned by the caller with status running and 0 retries; the owner asking again is told to run and only its retry count rises, by one; anyone else is skipped with ALREADY_RUNNING and the owner's id, map unchanged; "run" is answered exactly when the caller owns the id afterwards; no owner is ever replaced |
| MasterServer.ResultStep | master-server.js:82-115 | an unknown or missing test id gives INVALID_TEST_ID and a non-owner gives INVALID_RUNNER_OWNERSHIP, both with the map unchanged; the owner's report is accepted and changes only that record's status, to success exactly when the report said "success" and to failed otherwise |
| MasterServer.Coordinator.constructor | master-server.js:10 | the registry starts empty |
| MasterServer.Coordinator.HandleRunnerShouldRun | master-server.js:19-73 | the reply and the new registry are those of the should-run step on the old registry |
| MasterServer.Coordinator.HandleRunnerResult | master-server.js:82-115 | the reply and the new registry are those of the result step on the old registry |
| MasterServer.Coordinator.HandleRunners | master-server.js:124-147 | the reply and the new registry are those of the dispatch on path segments 2 and 3 |
| MasterServer.Coordinator.MainServerHandler | master-server.js:156-170 | the reply and the new registry are those of serving the request: paths outside `/runner/` get INVALID_REQUEST |
| MasterServer.RouteByAction | master-server.js:124-170 | a request to `/runner/<runner>/<action>` with a non-empty, '/'-free runner id and action reaches should-run or result for that runner, and any other action gets INVALID_REQUEST_ACTION with the map unchanged |
| MasterServer.MissingActionIsEmpty | master-server.js:131-134 | a request with no action segment, or an empty one, gets an empty response and changes nothing |
| MasterServer.MissingRunnerIsEmpty | master-server.js:131-134 | a request with an empty runner segment gets an empty response and changes nothing, whatever its action |
| MasterServer.ServeKeepsOwners | master-server.js:38-66 | no request removes a test id's owner or hands it to another runner |
| MasterServer.RunOnlyForOwner | master-server.js:38-72 | "run" is answered only to a should-run request with a test id, and its caller owns that id afterwards |
| MasterServer.ReplayKeepsOwners | master-server.js:38-66 | over any sequence of requests, every owner present at one point is still the owner at every later point |
| MasterServer.OneGranteePerTest | master-server.js:38-72 | over any sequence of requests served one at a time, two requests answered "run" for the same test id come from the same runner |
| Text.Split | master-server.js:126 | `split('/')` returns at least one piece and no piece contains the separator |
| Text.JoinSplit | master-server.js:126 | joining the pieces of a split with the separator gives the original path back |
| Text.SplitJoin | master-server.js:126 | splitting a join of non-empty, separator-free pieces gives the pieces back |
| Text.JoinInjective | index.js:140 | two lists of separator-free titles that join to the same text are equal |
| Text.LexLeTotal | list-tests-from-redis.js:53 | any two strings are ordered one way or the other |
| Text.LexLeTransitive | list-tests-from-redis.js:53 | string order is transitive |
| Text.LexLeAntisymmetric | list-tests-from-redis.js:53 | two strings each ordered before the other are equal |
| Constants.ReportedStatus | master-server.js:107-111 | a reported status is never running, and it is success exactly when the text is "success" |
| Redis.NatText | index.js:212 | the decimal text of a counter is non-empty, all digits, with a leading zero only for 0 |
| Redis.ParseIntText | index.js:212 | reading back the decimal text of any integer gives that integer |
| Redis.IntTextOfParse | index.js:212 | every text read as an integer is the canonical text of that integer |
| Redis.SetIfAbsentStep | index.js:150 | SET NX stores the value only under a missing key and never changes an existing one |
| Redis.RPushStep | index.js:207 | RPUSH appends exactly the item to the list (a missing key starts an empty one), and is refused with no change on a string value |
| Redis.IncrStep | index.js:212 | INCR on a missing key or an integer text stores the text of the value plus one; on any other value it is refused with no change |
| Redis.RedisStore.constructor | index.js:113 | the store starts empty |
| Redis.RedisStore.SetNxGet | index.js:148-152 | the transaction does SET NX, then returns what GET reads afterwards |
| Redis.RedisStore.RPush | index.js:207 | the store afterwards is the RPUSH step on the store before |
| Redis.RedisStore.Incr | index.js:212 | the store afterwards is the INCR step on the store before |
| TestResults.CountState | list-tests-from-redis.js:45-46 | the number of records in a state is at most the number of records |
| DirectWorker.GranularityOf | index.js:25-31 | the granularity is per test exactly when the setting is absent, empty or "test"; otherwise it is per suite |
| DirectWorker.TestPath | index.js:48-60 | a test's path is non-empty and ends with the test's own title |
| DirectWorker.Reverse | index.js:59 | the reversed list has the same length, and its element i is element length-1-i of the original |
| DirectWorker.GetTestPath | index.js:48-60 | the loop over parents returns the titles of the non-root ancestors, outermost first, then the test's title |
| DirectWorker.NestedTestPath | index.js:48-60 | for a test declared inside nested suites under the root suite, the path is exactly the suite titles and the test title, without the root's title |
| DirectWorker.TitlesAboveNest | index.js:51-57 | the ancestors collected above a nested test are exactly its enclosing suites |
| DirectWorker.SuiteKeys | index.js:141-144 | under suite granularity, two tests share a key exactly when their outermost titles are equal |
| DirectWorker.TestKeys | index.js:140-144 | under test granularity, tests whose titles contain no ':' share a key exactly when their paths are equal |
| DirectWorker.ColonTitlesShareKey | index.js:140 | as written, the paths ["a:b"] and ["a", "b"] are different but get the same key under test granularity |
| DirectWorker.ResultKeyIsNotCountKey | index.js:206-211 | the result-list key is never a counter key |
| DirectWorker.CountKeyInjective | index.js:211 | different states have different counter keys |
| DirectWorker.StateFixed | index.js:187 | a non-empty reported state is kept; otherwise the state is "failed" exactly when the test timed out and "passed" exactly when it did not |
| DirectWorker.ResultOf | index.js:186-203 | the record holds the test's path and title and the fixed state; it is marked failed exactly when that state is "failed"; it keeps the test's own duration and timeout flag, which the reporting script sums and reads back; it ends now and starts the duration (0 if missing) before |
| DirectWorker.ClaimStep | index.js:146-157 | a claim is granted exactly when the key was free or already held this runner's id, and it never overwrites a stored value |
| DirectWorker.RecordStep | index.js:205-213 | recording appends exactly the record to the result list, raises exactly the counter of its state by one, and changes no other key |
| DirectWorker.Worker.constructor | index.js:24-31 | the worker holds the given ids and store and the normalised granularity |
| DirectWorker.Worker.BeforeEach | index.js:138-162 | the hook claims the key chosen by granularity from the test's path, and runs the test exactly when the claim is granted |
| DirectWorker.Worker.AfterEach | index.js:163-217 | a pending test changes nothing; any other test is recorded with its result at the current time |
| DirectWorker.RecordIsTwoCommands | index.js:205-213 | the RPUSH command followed by the INCR command has the effect of recording the result |
| DirectWorker.OwnerStable | index.js:148-152 | once a key holds a runner id, no later command changes it, provided the id is not integer text or nothing increments that key |
| DirectWorker.ClaimsExclusive | index.js:146-157 | over any sequence of claims, RPUSH and INCR commands, two granted claims on the same key come from the same runner, provided the first runner's id is not integer text or no command in between increments that key |
| DirectWorker.CounterKeyClaimCollision | index.js:141-212 | as written, a top-level suite titled "passed_count" is claimed under the passed counter's key: runner "5" is granted it, a passed result increments it to "6", and runner "6" is then granted it too |
| DirectWorker.ClaimKeyIsCounterKeyOnlyForCountTitles | index.js:141-211 | a claim key of an execution equals one of its counter keys only when the claimed text is a state followed by "_count" |
| DirectWorker.EmptyStoreCountersMatch | index.js:205-213 | in an empty store every counter agrees with the empty result list |
| DirectWorker.RecordKeepsCountersMatch | index.js:205-213 | if every `<state>_count` counter equals the number of listed results in that state, it still does after recording a result |
| DirectWorker.ClaimKeepsCountersMatch | index.js:148-152 | a claim on a key other than the result and counter keys keeps the counters in step with the list |
| Sorting.SortBy | list-tests-from-redis.js:53 | after sorting, the array is ordered by the comparator and is a permutation of the original |
| Aggregator.PathOrderIsTotalPreorder | list-tests-from-redis.js:53 | ordering results by their joined path is total and transitive |
| Aggregator.MinStart | list-tests-from-redis.js:37-39 | the first start time is absent exactly for an empty list; otherwise it is at most every start time and is one of them |
| Aggregator.MaxEnd | list-tests-from-redis.js:41-43 | the last end time is absent exactly for an empty list; otherwise it is at least every end time and is one of them |
| Aggregator.SummarizeExecution | list-tests-from-redis.js:23-64 | the summary counts the records exactly "passed" and exactly "failed" and sums durations (0 if missing); start and end are the earliest start and latest end, or 0; real duration is end minus start when both are non-zero, else the summed duration; results are the records sorted by joined path |
| Aggregator.RecentFirstIsTotalPreorder | list-tests-from-redis.js:68 | ordering summaries by start time, later first, is total and transitive |
| Aggregator.ReorderedSummaries | list-tests-from-redis.js:55-68 | reordering the per-list summaries keeps exactly one summary for each stored list |
| Aggregator.GetTestResults | list-tests-from-redis.js:9-72 | there is one summary per stored list, each summary belongs to a list and each list has its summary, and they are ordered most recent start first |
| Aggregator.CountStateOrderIndependent | list-tests-from-redis.js:45-46 | the pass and fail counts are the same for any ordering of the stored list |
| Aggregator.TotalDurationOrderIndependent | list-tests-from-redis.js:48 | the summed duration is the same for any ordering of the stored list |
| Aggregator.MinStartOrderIndependent | list-tests-from-redis.js:37-39 | the earliest start is the same for any ordering of the stored list |
| Aggregator.MaxEndOrderIndependent | list-tests-from-redis.js:41-43 | the latest end is the same for any ordering of the stored list |
| Aggregator.SummaryOrderIndependent | list-tests-from-redis.js:32-64 | two orderings of the same records give summaries equal in every field except the order of the results, which hold the same records |
| Aggregator.PassedAndFailedBounded | list-tests-from-redis.js:45-46 | passed plus failed is at most the number of records |
| Aggregator.ThreeRecordExample | list-tests-from-redis.js:23-64 | records (passed, 100 ms, 1000-1100), (failed, 200 ms, 1050-1250) and (passed, 50 ms, 1300-1350) give 2 passed, 1 failed, 350 ms summed and 350 ms real, from 1000 to 1350 |
| RunnerBindings.CollectedPathsExtendStack | runner-mocha-bindings.js:81-101 | every test registered inside a stack of suite titles has a path that starts with that stack and is longer than it |
| RunnerBindings.TopLevelTestPath | runner-mocha-bindings.js:99-100 | a test declared outside any suite gets its own title as its path |
| RunnerBindings.AskStep | runner-mocha-bindings.js:44-57 | the decision is exactly whether the claim of the suite title was granted, that is the title is non-empty and free or already this runner's; a refusal changes nothing; a grant also claims the full path joined with ">>>", whose answer is ignored; after a grant the runner owns the full path if it was free or already its own, and every other record is unchanged |
| RunnerBindings.RunStep | runner-mocha-bindings.js:104-117 | a test not granted is not run and reports nothing; otherwise the body's value is returned, or its error rethrown, unchanged; a granted run changes no record but the suite key's and the full path's; a report for a full path another runner holds changes nothing beyond the ask; when the runner holds the full path, it records status success if the body completed and failed if it threw |
| RunnerBindings.RunRecordsOutcome | runner-mocha-bindings.js:104-117 | when the suite is granted and nobody else holds the full path, the full path ends owned by the runner, with status success if the body completed and failed if it threw |
| RunnerBindings.SuiteRunsOnOneRunner | runner-mocha-bindings.js:44-57 | once one runner was granted a suite, any test of that suite on another runner is not run and changes nothing |
| RunnerBindings.Runner.constructor | runner-mocha-bindings.js:17-35 | the runner starts with an empty title stack and no registered tests |
| RunnerBindings.Runner.Describe | runner-mocha-bindings.js:81-87 | the title stack is left as it was, and exactly the tests of the body, declared under the title, are registered |
| RunnerBindings.Runner.DeclareAll | runner-mocha-bindings.js:81-87 | the declarations of a body register their tests in order and leave the title stack unchanged |
| RunnerBindings.Runner.It | runner-mocha-bindings.js:97-101 | the test is registered with the stack plus its title as its path, and the stack is left unchanged |
| RunnerBindings.Runner.AskMasterIfShouldRun | runner-mocha-bindings.js:44-57 | the two should-run requests leave the coordinator's registry and the decision as described for the ask step |
| RunnerBindings.Runner.SendTestResultToMaster | runner-mocha-bindings.js:62-65 | the report of the full path and status updates the registry as the result handler does |
| RunnerBindings.Runner.RunTest | runner-mocha-bindings.js:104-117 | the wrapped test's result and the registry afterwards are those of the run step |

Some definitions carry no contract of their own. The lemmas and methods above state what they do:

- DirectWorker.ClaimKey (index.js:140-144): the work-item key. See SuiteKeys, TestKeys and Worker.BeforeEach.
- MasterServer.HandleRunnersStep and MasterServer.ServeStep (master-server.js:124-170): dispatch on the path. See RouteByAction, MissingActionIsEmpty, MissingRunnerIsEmpty and OneGranteePerTest.
- MasterServer.Param (master-server.js:25, 88, 107): a query parameter read through `|| null`. See ShouldRunStep and ResultStep.
- RunnerBindings.Collect (runner-mocha-bindings.js:81-101): the tests registered under the title stack. See CollectedPathsExtendStack, Runner.Describe and Runner.It.
- Aggregator.RealDuration (list-tests-from-redis.js:60): the wall-clock span, or the summed duration as a fallback. See SummarizeExecution and ThreeRecordExample.

## Left out

- Timestamps of ownership records (`start`, `end` in master-server.js:64-65) are not modelled, because they are wall-clock values nothing reads.
- The record's start and end times come from one `now`, whereas index.js:194-195 reads the clock twice. The two reads can differ by a millisecond.
- TTL expiry (`EX`, `expire`) is not modelled. It is storage-layer behaviour, so a claimed key is never freed in the model.
- Redis connection, setup and teardown are not modelled, and neither is the error handler that exits the process. The `KEYS *:test_result` and `LRANGE` calls of the reporting script are also out: the stored lists are its input.
- Output capture and ANSI stripping are not modelled. The captured stdout and stderr and the `type`, `file`, `speed` and `err` fields of the record are left out of `TestResult`, because they are copied through and no logic reads them.
- The title suffix and `this.skip()` on a refused claim are not modelled; `BeforeEach` returns the decision instead.
- HTTP transport, `url.parse` and `querystring` are not modelled. The query arrives as a parsed map, and escaping then unescaping a test id is taken to give it back. Repeated query keys, which `querystring` turns into arrays, are not modelled.
- The network failures of axios are not modelled, and the coordinator's reply to a result report is never read.
- JSON encoding is not modelled: the list stores records directly, as if `JSON.parse(JSON.stringify(r))` gave `r` back.
- Redis.IncrStep does not model the 64-bit range of INCR or its overflow error, because counters here stay small.
- A GET that returns a list where the runner id is expected reads as "not granted" (`ClaimStep`). Redis would raise WRONGTYPE there, which the source does not handle either.
- Text.LexLe orders strings by code point, whereas JavaScript compares UTF-16 code units. The two orders differ only for characters outside the Basic Multilingual Plane.
- Sorting.SortBy promises nothing about the order of results whose joined paths are equal. The comparators of list-tests-from-redis.js:53 and :68 never return 0, so that order is unspecified in JavaScript too.
- Concurrency is not modelled. Each request handler, the claim transaction and each Redis command is one atomic step. Exclusivity is proved over every order in which those steps can be served. In those traces RPUSH and INCR are separate commands, as in index.js:207 and :212. `Worker.AfterEach` runs the two back to back.
- master.js, runner.js and master-mocha-bindings.js are not part of this model. They only replace mocha's globals, start the server or are empty stubs.
- The hook wrappers of runner-mocha-bindings.js:126-173 (`execHookMochaMethod` and `before`, `beforeEach`, `after`, `afterEach`) are not modelled. At line 128, `const testPath` redeclares a parameter of the same function. That is an early SyntaxError in JavaScript, so runner-mocha-bindings.js cannot load as written. The wrappers also call an undefined `fn`.
- The HTTP binding cannot start as written either. master.js:29 calls `masterServer.setEventEmitter`, which master-server.js does not export (master-server.js:173-175). `MasterServer.Coordinator`, `RunnerBindings.Runner` and `RunnerBindings.RunStep` therefore model the evident intent of `mainServerHandler`, `describe`, `it` and `askMasterIfShouldRun`: the code as it would run once those two lines load.
- The `[serial:…]` title tags of the example suites are not modelled. No code in the bindings gives them a meaning.
- `describe` bodies are modelled as running to completion during `describe`, which is how mocha's collection pass runs them. An asynchronous body registering tests late is not modelled.
- RunnerBindings.Runner.constructor takes the runner id as a parameter. The source generates 16 random bytes as hex, which the model reduces to a non-empty id without '/'.

## Findings

| source | as written | input that shows it | evidently intended | confidence | as-written member | corrected member |
|---|---|---|---|---|---|---|
| index.js:141-212 | claim keys `<execId>:<title>` and counter keys `<execId>:<state>_count` share one key space, so INCR can rewrite a claimed runner id | suite granularity, top-level suite titled "passed_count", runner ids "5" and "6" (set through the environment, index.js:24): "5" is granted, a passed result increments the key to "6", and runner "6" is granted as well | a granted claim stays exclusive: no result command touches a claim key | high; not executed | DirectWorker.CounterKeyClaimCollision | DirectWorker.ClaimsExclusive |
| index.js:140 | the test-granularity key joins titles with ':', which titles may contain | paths ["a:b"] and ["a", "b"] both get the key `E:a:b` | different tests get different keys | medium; not executed | DirectWorker.ColonTitlesShareKey | DirectWorker.TestKeys |
