/** The per-worker result records kept by the reporter, and their lookup by correlation id. */
module Results {
  import opened Wrappers
  import opened Stats

  /** Pass/pending/fail counters of one worker; they only ever grow. */
  datatype TestsNumber = TestsNumber(passing: nat, pending: nat, failing: nat)

  /** One record per worker, created on `runner:start`; `suites` is filled on `runner:end`. */
  datatype RunnerResult = RunnerResult(
    cid: string, capabilities: Capabilities, specFilePath: seq<string>, specFileHash: string,
    runnerTestsNumber: TestsNumber, suites: seq<SuiteStats>)

  /** The errors a handler can throw. */
  datatype ReporterError =
    | RunnerNotFound(cid: string)                       // no record has this cid
    | RunnerStatsMissing(cid: string)                   // the stats tree has no runner for this cid
    | SpecStatsMissing(cid: string, specHash: string)   // the runner's stats have no such spec

  /**
   * The position of the first record whose cid is `cid`, or RunnerNotFound when there is none.
   * With duplicated cids the earliest record always wins.
   */
  function GetRunner(results: seq<RunnerResult>, cid: string): (r: Result<nat, ReporterError>)
    ensures r.Ok? ==> r.value < |results| && results[r.value].cid == cid
    ensures r.Ok? ==> forall j :: 0 <= j < r.value ==> results[j].cid != cid
    ensures r.Err? ==> r.error == RunnerNotFound(cid)
    ensures r.Err? ==> forall j :: 0 <= j < |results| ==> results[j].cid != cid
  {
    if results == [] then Err(RunnerNotFound(cid))
    else if results[0].cid == cid then Ok(0)
    else match GetRunner(results[1..], cid)
      case Ok(k) => Ok(k + 1)
      case Err(e) => Err(e)
  }

  /**
   * Appending a record never changes what an existing cid finds: a second record with a cid
   * already present is shadowed, and a new cid finds the appended record.
   */
  lemma {:induction false} GetRunnerAppend(results: seq<RunnerResult>, record: RunnerResult, cid: string)
    ensures GetRunner(results + [record], cid) ==
      if GetRunner(results, cid).Ok? then GetRunner(results, cid)
      else if record.cid == cid then Ok(|results|)
      else Err(RunnerNotFound(cid))
  {
    var all := results + [record];
    match GetRunner(all, cid)
    case Ok(k) =>
      if GetRunner(results, cid).Ok? {
        var i := GetRunner(results, cid).value;
        assert all[i].cid == cid;
      } else {
        assert k == |results|;
      }
    case Err(_) =>
      assert all[|results|] == record;
      if GetRunner(results, cid).Ok? {
        assert all[GetRunner(results, cid).value].cid == cid;
      }
  }

  /** Every suite attached to a record holds at least one test. */
  ghost predicate AllReportable(results: seq<RunnerResult>)
  {
    forall r, s :: 0 <= r < |results| && 0 <= s < |results[r].suites| ==> Reportable(results[r].suites[s])
  }

  predicate CountersLe(a: TestsNumber, b: TestsNumber)
  {
    a.passing <= b.passing && a.pending <= b.pending && a.failing <= b.failing
  }

  /** `after` keeps every record of `before` in place, with counters that did not decrease. */
  ghost predicate Grows(before: seq<RunnerResult>, after: seq<RunnerResult>)
  {
    |before| <= |after| &&
    forall i :: 0 <= i < |before| ==>
      after[i].cid == before[i].cid && CountersLe(before[i].runnerTestsNumber, after[i].runnerTestsNumber)
  }
}
