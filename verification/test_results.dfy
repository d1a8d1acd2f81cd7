/**
 The record a worker of the direct-store binding appends for each finished
 test (index.js), as the reporting script reads it back
 (list-tests-from-redis.js), and the per-state counts and duration total
 that both sides speak about.
 */
module TestResults {
  import opened Wrappers

  datatype TestResult = TestResult(
    id: seq<string>,         // titles from the outermost suite down to the test
    title: string,
    timedOut: bool,
    duration: Option<int>,   // mocha's duration, absent when mocha did not time the test
    startTime: int,
    endTime: int,
    state: string,           // "passed", "failed", or whatever mocha reported
    failed: bool)

  /** `duration || 0`: a missing duration counts as zero. */
  function DurationOrZero(d: Option<int>): int
  {
    if d.Some? then d.value else 0
  }

  /** The number of results whose state is exactly `st`. */
  function CountState(rs: seq<TestResult>, st: string): (n: nat)
    ensures n <= |rs|
  {
    if rs == [] then 0
    else CountState(rs[..|rs| - 1], st) + (if rs[|rs| - 1].state == st then 1 else 0)
  }

  /** The sum of the durations, missing ones counted as zero. */
  function TotalDuration(rs: seq<TestResult>): int
  {
    if rs == [] then 0
    else TotalDuration(rs[..|rs| - 1]) + DurationOrZero(rs[|rs| - 1].duration)
  }
}
