/**
 * The `SimpleReporter`: one method per event it listens to. Each handler runs to completion
 * before the next event; a handler that throws is modelled by returning `Threw(error)`, and in
 * that case it has changed nothing.
 */
module Reporter {
  import opened Wrappers
  import opened Stats
  import opened Results
  import opened Reconcile

  datatype RunnerStartEvent = RunnerStartEvent(
    cid: string, specs: seq<string>, capabilities: Capabilities, specHash: string)

  datatype RunnerEndEvent = RunnerEndEvent(cid: string, failures: int, specs: seq<string>, specHash: string)

  /** A `test:pass`, `test:fail` or `test:pending` event; only `cid` is used. */
  datatype TestEvent = TestEvent(cid: string, uid: string, title: string, parentUid: string, specHash: string)

  /** The reporter options; `None` stands for an option that was not given. */
  datatype ConfigOptions = ConfigOptions(resultsDir: Option<string>, resultsFile: Option<string>)

  /** What is handed to the writer at the end of the run: where, and the records to save. */
  datatype WriteRequest = WriteRequest(dir: string, file: string, contents: seq<RunnerResult>)

  /** The default directory, relative to the reporter's own installation directory. */
  const DEFAULT_RESULTS_DIR: string := "../reports"
  const DEFAULT_RESULTS_FILE: string := "report.json"

  /** JavaScript truthiness of an optional string: present and not empty. */
  predicate Truthy(option: Option<string>)
  {
    option.Some? && option.value != ""
  }

  /** The output directory: the configured one when it is given and non-empty, else the default. */
  function FinalResultsDir(options: ConfigOptions): (dir: string)
    ensures dir != ""
    ensures Truthy(options.resultsDir) ==> dir == options.resultsDir.value
    ensures !Truthy(options.resultsDir) ==> dir == DEFAULT_RESULTS_DIR
  {
    if Truthy(options.resultsDir) then options.resultsDir.value else DEFAULT_RESULTS_DIR
  }

  /** The output file name: the configured one when it is given and non-empty, else `report.json`. */
  function FinalResultsFile(options: ConfigOptions): (file: string)
    ensures file != ""
    ensures Truthy(options.resultsFile) ==> file == options.resultsFile.value
    ensures !Truthy(options.resultsFile) ==> file == DEFAULT_RESULTS_FILE
  {
    if Truthy(options.resultsFile) then options.resultsFile.value else DEFAULT_RESULTS_FILE
  }

  /** The spec entry `stats.runners[cid].specs[specHash]`, or the error reading it throws. */
  function SpecOf(stats: ReporterStats, cid: string, specHash: string): (r: Result<SpecStats, ReporterError>)
    ensures r.Ok? <==> cid in stats.runners && specHash in stats.runners[cid].specs
    ensures r.Ok? ==> r.value == stats.runners[cid].specs[specHash]
    ensures cid !in stats.runners ==> r == Err(RunnerStatsMissing(cid))
    ensures cid in stats.runners && specHash !in stats.runners[cid].specs ==> r == Err(SpecStatsMissing(cid, specHash))
  {
    if cid !in stats.runners then Err(RunnerStatsMissing(cid))
    else if specHash !in stats.runners[cid].specs then Err(SpecStatsMissing(cid, specHash))
    else Ok(stats.runners[cid].specs[specHash])
  }

  class SimpleReporter {
    const options: ConfigOptions
    /** One record per `runner:start`, in arrival order. */
    var runnerResults: seq<RunnerResult>
    /** Every `runner:screenshot` event, in arrival order. */
    var failureScreenshots: seq<Screenshot>

    /** Every attached suite holds a test. */
    ghost predicate Valid()
      reads this
    {
      AllReportable(runnerResults)
    }

    constructor (options: ConfigOptions)
      ensures Valid()
      ensures this.options == options && runnerResults == [] && failureScreenshots == []
    {
      this.options := options;
      runnerResults := [];
      failureScreenshots := [];
    }

    /** `runner:start`: append a fresh record with zeroed counters and no suites. */
    method RunnerStart(runner: RunnerStartEvent)
      requires Valid()
      modifies this
      ensures Valid() && Grows(old(runnerResults), runnerResults)
      ensures runnerResults == old(runnerResults) +
        [RunnerResult(runner.cid, runner.capabilities, runner.specs, runner.specHash, TestsNumber(0, 0, 0), [])]
      ensures failureScreenshots == old(failureScreenshots)
    {
      var current := RunnerResult(runner.cid, runner.capabilities, runner.specs, runner.specHash, TestsNumber(0, 0, 0), []);
      runnerResults := runnerResults + [current];
    }

    /**
     * `runner:end`: replace the suites of the first record with this cid by the reportable suites
     * of the runner's spec in `stats`, the statistics tree as it stands when the event arrives.
     */
    method RunnerEnd(runner: RunnerEndEvent, stats: ReporterStats) returns (out: Outcome<ReporterError>)
      requires Valid()
      modifies this
      ensures Valid() && Grows(old(runnerResults), runnerResults)
      ensures failureScreenshots == old(failureScreenshots)
      ensures SpecOf(stats, runner.cid, runner.specHash).Err? ==>
        out == Threw(SpecOf(stats, runner.cid, runner.specHash).error) && runnerResults == old(runnerResults)
      ensures SpecOf(stats, runner.cid, runner.specHash).Ok? && GetRunner(old(runnerResults), runner.cid).Err? ==>
        out == Threw(RunnerNotFound(runner.cid)) && runnerResults == old(runnerResults)
      ensures SpecOf(stats, runner.cid, runner.specHash).Ok? && GetRunner(old(runnerResults), runner.cid).Ok? ==>
        var i := GetRunner(old(runnerResults), runner.cid).value;
        out == Done &&
        runnerResults == old(runnerResults)[i := old(runnerResults)[i].(suites :=
          GetAllTestSuites(SpecOf(stats, runner.cid, runner.specHash).value))]
    {
      var spec := SpecOf(stats, runner.cid, runner.specHash);
      if spec.Err? {
        return Threw(spec.error);
      }
      var suites := GetAllTestSuites(spec.value);
      var found := GetRunner(runnerResults, runner.cid);
      match found {
        case Err(e) => out := Threw(e);
        case Ok(i) =>
          runnerResults := runnerResults[i := runnerResults[i].(suites := suites)];
          out := Done;
      }
    }

    /** `runner:screenshot`: buffer the screenshot until the end of the run. */
    method RunnerScreenshot(screenshot: Screenshot)
      requires Valid()
      modifies this
      ensures Valid()
      ensures failureScreenshots == old(failureScreenshots) + [screenshot]
      ensures runnerResults == old(runnerResults)
    {
      failureScreenshots := failureScreenshots + [screenshot];
    }

    /** `test:pass`: one more passing test on the first record with the event's cid. */
    method TestPass(test: TestEvent) returns (out: Outcome<ReporterError>)
      requires Valid()
      modifies this
      ensures Valid() && Grows(old(runnerResults), runnerResults)
      ensures failureScreenshots == old(failureScreenshots)
      ensures GetRunner(old(runnerResults), test.cid).Err? ==>
        out == Threw(RunnerNotFound(test.cid)) && runnerResults == old(runnerResults)
      ensures GetRunner(old(runnerResults), test.cid).Ok? ==>
        var i := GetRunner(old(runnerResults), test.cid).value;
        var n := old(runnerResults)[i].runnerTestsNumber;
        out == Done &&
        runnerResults == old(runnerResults)[i := old(runnerResults)[i].(runnerTestsNumber :=
          TestsNumber(n.passing + 1, n.pending, n.failing))]
    {
      var found := GetRunner(runnerResults, test.cid);
      match found {
        case Err(e) => out := Threw(e);
        case Ok(i) =>
          var n := runnerResults[i].runnerTestsNumber;
          runnerResults := runnerResults[i := runnerResults[i].(runnerTestsNumber := n.(passing := n.passing + 1))];
          out := Done;
      }
    }

    /** `test:fail`: one more failing test on the first record with the event's cid. */
    method TestFail(test: TestEvent) returns (out: Outcome<ReporterError>)
      requires Valid()
      modifies this
      ensures Valid() && Grows(old(runnerResults), runnerResults)
      ensures failureScreenshots == old(failureScreenshots)
      ensures GetRunner(old(runnerResults), test.cid).Err? ==>
        out == Threw(RunnerNotFound(test.cid)) && runnerResults == old(runnerResults)
      ensures GetRunner(old(runnerResults), test.cid).Ok? ==>
        var i := GetRunner(old(runnerResults), test.cid).value;
        var n := old(runnerResults)[i].runnerTestsNumber;
        out == Done &&
        runnerResults == old(runnerResults)[i := old(runnerResults)[i].(runnerTestsNumber :=
          TestsNumber(n.passing, n.pending, n.failing + 1))]
    {
      var found := GetRunner(runnerResults, test.cid);
      match found {
        case Err(e) => out := Threw(e);
        case Ok(i) =>
          var n := runnerResults[i].runnerTestsNumber;
          runnerResults := runnerResults[i := runnerResults[i].(runnerTestsNumber := n.(failing := n.failing + 1))];
          out := Done;
      }
    }

    /** `test:pending`: one more pending test on the first record with the event's cid. */
    method TestPending(test: TestEvent) returns (out: Outcome<ReporterError>)
      requires Valid()
      modifies this
      ensures Valid() && Grows(old(runnerResults), runnerResults)
      ensures failureScreenshots == old(failureScreenshots)
      ensures GetRunner(old(runnerResults), test.cid).Err? ==>
        out == Threw(RunnerNotFound(test.cid)) && runnerResults == old(runnerResults)
      ensures GetRunner(old(runnerResults), test.cid).Ok? ==>
        var i := GetRunner(old(runnerResults), test.cid).value;
        var n := old(runnerResults)[i].runnerTestsNumber;
        out == Done &&
        runnerResults == old(runnerResults)[i := old(runnerResults)[i].(runnerTestsNumber :=
          TestsNumber(n.passing, n.pending + 1, n.failing))]
    {
      var found := GetRunner(runnerResults, test.cid);
      match found {
        case Err(e) => out := Threw(e);
        case Ok(i) =>
          var n := runnerResults[i].runnerTestsNumber;
          runnerResults := runnerResults[i := runnerResults[i].(runnerTestsNumber := n.(pending := n.pending + 1))];
          out := Done;
      }
    }

    /**
     * `end`: attach every buffered screenshot to every test with its uid, across all records
     * and suites, then hand the records to the writer. Write failures are swallowed by the
     * source, so the handler never fails.
     */
    method End() returns (request: WriteRequest)
      requires Valid()
      modifies this
      ensures Valid() && Grows(old(runnerResults), runnerResults)
      ensures failureScreenshots == old(failureScreenshots)
      ensures runnerResults == Settle(old(runnerResults), failureScreenshots)
      ensures request == WriteRequest(FinalResultsDir(options), FinalResultsFile(options), runnerResults)
    {
      var shots := failureScreenshots;
      SettleUnmatched(runnerResults, []);
      assert shots[..0] == [];
      var i := 0;
      while i < |shots|
        invariant 0 <= i <= |shots|
        invariant failureScreenshots == shots == old(failureScreenshots)
        invariant runnerResults == Settle(old(runnerResults), shots[..i])
      {
        var shot := shots[i];
        ghost var before := runnerResults;
        var j := 0;
        while j < |runnerResults|
          invariant 0 <= j <= |runnerResults| == |before|
          invariant failureScreenshots == old(failureScreenshots)
          invariant forall m :: 0 <= m < j ==> runnerResults[m] == SettleRunner(before[m], [shot])
          invariant forall m :: j <= m < |runnerResults| ==> runnerResults[m] == before[m]
        {
          var suites := runnerResults[j].suites;
          ghost var atJ := runnerResults;
          var k := 0;
          while k < |suites|
            invariant runnerResults == atJ && failureScreenshots == old(failureScreenshots)
            invariant 0 <= k <= |suites| == |before[j].suites|
            invariant forall m :: 0 <= m < k ==> suites[m] == SettleSuite(before[j].suites[m], [shot])
            invariant forall m :: k <= m < |suites| ==> suites[m] == before[j].suites[m]
          {
            var tests := suites[k].tests;
            var l := 0;
            while l < |tests|
              invariant runnerResults == atJ && failureScreenshots == old(failureScreenshots)
              invariant 0 <= l <= |tests| == |before[j].suites[k].tests|
              invariant forall m :: 0 <= m < l ==>
                tests[m] == (before[j].suites[k].tests[m].0, SettleTest(before[j].suites[k].tests[m].1, [shot]))
              invariant forall m :: l <= m < |tests| ==> tests[m] == before[j].suites[k].tests[m]
            {
              var test := tests[l].1;
              SettleTestOne(test, shot);
              if test.uid == shot.uid {
                tests := tests[l := (tests[l].0, test.(failureScreenshot := Some(shot)))];
              }
              l := l + 1;
            }
            assert tests == SettleTests(before[j].suites[k].tests, [shot]);
            suites := suites[k := suites[k].(tests := tests)];
            k := k + 1;
          }
          runnerResults := runnerResults[j := runnerResults[j].(suites := suites)];
          j := j + 1;
        }
        assert runnerResults == Settle(before, [shot]);
        SettleCompose(old(runnerResults), shots[..i], [shot]);
        assert shots[..i + 1] == shots[..i] + [shot];
        i := i + 1;
      }
      assert shots[..i] == shots;
      request := WriteRequest(FinalResultsDir(options), FinalResultsFile(options), runnerResults);
    }
  }

  /**
   * The run `runner:start A`, two `test:pass`, one `test:fail`, `runner:end A`, `end`, with no
   * screenshot: the record of A counts 2 passing, 0 pending, 1 failing, and holds the
   * reportable suites of its spec `h1`.
   */
  method ExampleRun(caps: Capabilities, spec: SpecStats) returns (result: RunnerResult)
    ensures result.cid == "A" && result.specFilePath == ["a.js"] && result.specFileHash == "h1"
    ensures result.runnerTestsNumber == TestsNumber(2, 0, 1)
    ensures result.suites == GetAllTestSuites(spec)
  {
    var reporter := new SimpleReporter(ConfigOptions(None, None));
    var test := TestEvent("A", "t1", "a test", "s1", "h1");
    reporter.RunnerStart(RunnerStartEvent("A", ["a.js"], caps, "h1"));
    var out := reporter.TestPass(test);
    out := reporter.TestPass(test);
    out := reporter.TestFail(test);
    var stats := ReporterStats(map["A" := RunnerStats("A", caps, map["h1" := spec])]);
    out := reporter.RunnerEnd(RunnerEndEvent("A", 1, ["a.js"], "h1"), stats);
    ghost var ended := reporter.runnerResults;
    var request := reporter.End();
    SettleUnmatched(ended, []);
    result := request.contents[0];
  }
}
