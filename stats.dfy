/**
 * The statistics tree kept by the test runner's base reporter (runner -> spec -> suite -> test),
 * and the suite flattening done when a runner ends.
 *
 * Object-keyed dictionaries that the reporter iterates (`suites`, `tests`, `hooks`) are sequences
 * of key/value pairs in key order; the two that are only indexed (`runners`, `specs`) are maps.
 * Dates, durations, output payloads and image data are left out or kept as opaque values.
 */
module Stats {
  import opened Wrappers

  /** Browser and platform identity of a worker; numeric versions are kept as their text. */
  datatype Capabilities = Capabilities(
    browserName: string, version: string, platform: string,
    platformName: string, platformVersion: string)

  datatype TestFailedError = TestFailedError(message: string, stack: string, kind: string)

  /** A `runner:screenshot` event; `uid` names the test it documents, `time` is an opaque timestamp. */
  datatype Screenshot = Screenshot(
    cid: string, specs: seq<string>, filename: string, data: string, title: string,
    uid: string, parent: string, parentUid: string, time: int, specHash: string)

  /** One test; `failureScreenshot` is absent until the end-of-run reconciliation sets it. */
  datatype TestStats = TestStats(
    uid: string, title: string, state: string,
    error: Option<TestFailedError>, failureScreenshot: Option<Screenshot>)

  datatype HookStats = HookStats(uid: string, title: string, parent: string, currentTest: string)

  datatype SuiteStats = SuiteStats(
    uid: string, title: string,
    tests: seq<(string, TestStats)>, hooks: seq<(string, HookStats)>)

  datatype SpecStats = SpecStats(uid: string, files: seq<string>, suites: seq<(string, SuiteStats)>)

  datatype RunnerStats = RunnerStats(cid: string, capabilities: Capabilities, specs: map<string, SpecStats>)

  datatype ReporterStats = ReporterStats(runners: map<string, RunnerStats>)

  /** The values of a dictionary, in key order. */
  function Values<K, V>(entries: seq<(K, V)>): seq<V>
  {
    seq(|entries|, i requires 0 <= i < |entries| => entries[i].1)
  }

  /** A suite is reported only when it holds at least one test; hooks alone do not count. */
  predicate Reportable(suite: SuiteStats)
  {
    |suite.tests| != 0
  }

  /** `r` is `s` with some elements removed, the rest kept in their order. */
  ghost predicate IsSubsequence<T>(r: seq<T>, s: seq<T>)
    decreases |s|
  {
    if r == [] then true
    else if s == [] then false
    else (r[0] == s[0] && IsSubsequence(r[1..], s[1..])) || IsSubsequence(r, s[1..])
  }

  /** The suites that hold at least one test, in their order. */
  function KeepReportable(suites: seq<SuiteStats>): (r: seq<SuiteStats>)
    ensures forall s :: s in r ==> Reportable(s)
    ensures IsSubsequence(r, suites)
    ensures forall s :: multiset(r)[s] == if Reportable(s) then multiset(suites)[s] else 0
  {
    if suites == [] then []
    else
      assert suites == [suites[0]] + suites[1..];
      if Reportable(suites[0]) then [suites[0]] + KeepReportable(suites[1..])
      else KeepReportable(suites[1..])
  }

  /**
   * The suites of one spec, in key order, without those that hold no test.
   * Every suite with a test is kept, exactly as often as it occurs, and nothing is reordered.
   */
  function GetAllTestSuites(spec: SpecStats): (r: seq<SuiteStats>)
    ensures forall s :: s in r ==> Reportable(s)
    ensures forall i :: 0 <= i < |spec.suites| && Reportable(spec.suites[i].1) ==> spec.suites[i].1 in r
    ensures IsSubsequence(r, Values(spec.suites))
    ensures forall s :: multiset(r)[s] == if Reportable(s) then multiset(Values(spec.suites))[s] else 0
  {
    var suites := Values(spec.suites);
    var r := KeepReportable(suites);
    assert forall i :: 0 <= i < |spec.suites| ==> suites[i] == spec.suites[i].1 && suites[i] in multiset(suites);
    r
  }
}
