/**
 * What the end-of-run screenshot pass computes: every test whose uid matches a buffered
 * screenshot ends up holding the last such screenshot in buffer order; nothing else changes.
 */
module Reconcile {
  import opened Wrappers
  import opened Stats
  import opened Results

  /** Index of the last screenshot in `shots` taken for the test `uid`, if any. */
  function LastMatch(shots: seq<Screenshot>, uid: string): (r: Option<nat>)
    ensures r.Some? ==> r.value < |shots| && shots[r.value].uid == uid
    ensures r.Some? ==> forall j :: r.value < j < |shots| ==> shots[j].uid != uid
    ensures r.None? ==> forall j :: 0 <= j < |shots| ==> shots[j].uid != uid
  {
    if shots == [] then None
    else if shots[|shots| - 1].uid == uid then Some(|shots| - 1)
    else LastMatch(shots[..|shots| - 1], uid)
  }

  /** The screenshot a test with this uid holds after the pass, if any. */
  function LastShot(shots: seq<Screenshot>, uid: string): Option<Screenshot>
  {
    match LastMatch(shots, uid)
    case None => None
    case Some(i) => Some(shots[i])
  }

  function SettleTest(test: TestStats, shots: seq<Screenshot>): TestStats
  {
    match LastShot(shots, test.uid)
    case None => test
    case Some(shot) => test.(failureScreenshot := Some(shot))
  }

  function SettleTests(tests: seq<(string, TestStats)>, shots: seq<Screenshot>): seq<(string, TestStats)>
  {
    seq(|tests|, i requires 0 <= i < |tests| => (tests[i].0, SettleTest(tests[i].1, shots)))
  }

  function SettleSuite(suite: SuiteStats, shots: seq<Screenshot>): SuiteStats
  {
    suite.(tests := SettleTests(suite.tests, shots))
  }

  function SettleRunner(runner: RunnerResult, shots: seq<Screenshot>): RunnerResult
  {
    runner.(suites := seq(|runner.suites|, i requires 0 <= i < |runner.suites| => SettleSuite(runner.suites[i], shots)))
  }

  /** Two suites that differ at most in the screenshots attached to their tests. */
  ghost predicate SuiteShape(a: SuiteStats, b: SuiteStats)
  {
    a.(tests := []) == b.(tests := []) && |a.tests| == |b.tests| &&
    forall t :: 0 <= t < |a.tests| ==>
      a.tests[t].0 == b.tests[t].0 &&
      a.tests[t].1.(failureScreenshot := None) == b.tests[t].1.(failureScreenshot := None)
  }

  /** Two record lists that differ at most in the screenshots attached to their tests. */
  ghost predicate SameShape(a: seq<RunnerResult>, b: seq<RunnerResult>)
  {
    |a| == |b| &&
    forall r :: 0 <= r < |a| ==>
      a[r].(suites := []) == b[r].(suites := []) && |a[r].suites| == |b[r].suites| &&
      forall s :: 0 <= s < |a[r].suites| ==> SuiteShape(a[r].suites[s], b[r].suites[s])
  }

  /**
   * The records after the pass over the buffer `shots`: each test holds the last screenshot with
   * its uid, or is as it was; runners, counters, suites and test keys are untouched.
   */
  function Settle(results: seq<RunnerResult>, shots: seq<Screenshot>): (r: seq<RunnerResult>)
    ensures SameShape(results, r)
    ensures AllReportable(results) ==> AllReportable(r)
  {
    seq(|results|, i requires 0 <= i < |results| => SettleRunner(results[i], shots))
  }

  /**
   * After the pass, a test whose uid matches a buffered screenshot holds the last such
   * screenshot in buffer order; a test with no match is unchanged.
   */
  lemma SettlePointwise(results: seq<RunnerResult>, shots: seq<Screenshot>, r: nat, s: nat, t: nat)
    requires r < |results| && s < |results[r].suites| && t < |results[r].suites[s].tests|
    ensures var before := results[r].suites[s].tests[t].1;
      var after := Settle(results, shots)[r].suites[s].tests[t].1;
      ((forall i :: 0 <= i < |shots| ==> shots[i].uid != before.uid) ==> after == before) &&
      (forall i ::
         (0 <= i < |shots| && shots[i].uid == before.uid &&
          (forall j :: i < j < |shots| ==> shots[j].uid != before.uid)) ==>
         after == before.(failureScreenshot := Some(shots[i])))
  {
  }

  /** Some test in some suite of some record has this uid. */
  ghost predicate HasTest(results: seq<RunnerResult>, uid: string)
  {
    exists r, s, t :: 0 <= r < |results| && 0 <= s < |results[r].suites| &&
      0 <= t < |results[r].suites[s].tests| && results[r].suites[s].tests[t].1.uid == uid
  }

  /** A screenshot buffered later overrides every earlier one taken for the same test. */
  lemma {:induction false} LastShotAppend(xs: seq<Screenshot>, ys: seq<Screenshot>, uid: string)
    ensures LastShot(xs + ys, uid) == if LastShot(ys, uid).Some? then LastShot(ys, uid) else LastShot(xs, uid)
    decreases |ys|
  {
    if ys == [] {
      assert xs + ys == xs;
    } else if ys[|ys| - 1].uid == uid {
      assert (xs + ys)[|xs + ys| - 1] == ys[|ys| - 1];
    } else {
      var init := ys[..|ys| - 1];
      assert (xs + ys)[..|xs + ys| - 1] == xs + init;
      assert (xs + ys)[|xs + ys| - 1] == ys[|ys| - 1];
      LastShotAppend(xs, init, uid);
    }
  }

  /** The pass with a single screenshot sets it on exactly the tests with its uid. */
  lemma SettleTestOne(test: TestStats, shot: Screenshot)
    ensures SettleTest(test, [shot]) == if test.uid == shot.uid then test.(failureScreenshot := Some(shot)) else test
  {
  }

  /** Two buffers that agree on the last screenshot of every test present give the same records. */
  lemma {:induction false} SettleAgree(results: seq<RunnerResult>, xs: seq<Screenshot>, ys: seq<Screenshot>)
    requires forall r, s, t ::
      (0 <= r < |results| && 0 <= s < |results[r].suites| && 0 <= t < |results[r].suites[s].tests|) ==>
        LastShot(xs, results[r].suites[s].tests[t].1.uid) == LastShot(ys, results[r].suites[s].tests[t].1.uid)
    ensures Settle(results, xs) == Settle(results, ys)
  {
    forall r | 0 <= r < |results|
      ensures SettleRunner(results[r], xs) == SettleRunner(results[r], ys)
    {
      var runner := results[r];
      forall s | 0 <= s < |runner.suites|
        ensures SettleSuite(runner.suites[s], xs) == SettleSuite(runner.suites[s], ys)
      {
        var tests := runner.suites[s].tests;
        assert SettleTests(tests, xs) == SettleTests(tests, ys) by {
          forall t | 0 <= t < |tests| ensures SettleTest(tests[t].1, xs) == SettleTest(tests[t].1, ys) {
            assert LastShot(xs, tests[t].1.uid) == LastShot(ys, tests[t].1.uid);
          }
        }
      }
    }
  }

  /** Running the pass over `xs` and then over `ys` is the pass over `xs + ys`. */
  lemma {:induction false} SettleCompose(results: seq<RunnerResult>, xs: seq<Screenshot>, ys: seq<Screenshot>)
    ensures Settle(Settle(results, xs), ys) == Settle(results, xs + ys)
  {
    var mid := Settle(results, xs);
    forall r | 0 <= r < |results|
      ensures SettleRunner(mid[r], ys) == SettleRunner(results[r], xs + ys)
    {
      var runner := results[r];
      forall s | 0 <= s < |runner.suites|
        ensures SettleSuite(mid[r].suites[s], ys) == SettleSuite(runner.suites[s], xs + ys)
      {
        var tests := runner.suites[s].tests;
        assert mid[r].suites[s].tests == SettleTests(tests, xs);
        forall t | 0 <= t < |tests|
          ensures SettleTest(SettleTest(tests[t].1, xs), ys) == SettleTest(tests[t].1, xs + ys)
        {
          LastShotAppend(xs, ys, tests[t].1.uid);
        }
        assert SettleTests(SettleTests(tests, xs), ys) == SettleTests(tests, xs + ys);
      }
    }
  }

  /** Running the pass twice over the same buffer gives the result of running it once. */
  lemma {:induction false} SettleIdempotent(results: seq<RunnerResult>, shots: seq<Screenshot>)
    ensures Settle(Settle(results, shots), shots) == Settle(results, shots)
  {
    SettleCompose(results, shots, shots);
    forall uid { LastShotAppend(shots, shots, uid); }
    SettleAgree(results, shots + shots, shots);
  }

  /** A buffered screenshot whose uid matches no test has no effect and may be dropped. */
  lemma {:induction false} SettleDropUnmatched(
    results: seq<RunnerResult>, xs: seq<Screenshot>, shot: Screenshot, ys: seq<Screenshot>)
    requires !HasTest(results, shot.uid)
    ensures Settle(results, xs + [shot] + ys) == Settle(results, xs + ys)
  {
    forall uid | uid != shot.uid
      ensures LastShot(xs + [shot] + ys, uid) == LastShot(xs + ys, uid)
    {
      LastShotAppend(xs + [shot], ys, uid);
      LastShotAppend(xs, [shot], uid);
      LastShotAppend(xs, ys, uid);
    }
    SettleAgree(results, xs + [shot] + ys, xs + ys);
  }

  /** When no buffered screenshot matches any test, the pass leaves every record as it was. */
  lemma {:induction false} SettleUnmatched(results: seq<RunnerResult>, shots: seq<Screenshot>)
    requires forall i :: 0 <= i < |shots| ==> !HasTest(results, shots[i].uid)
    ensures Settle(results, shots) == results
  {
    forall r | 0 <= r < |results|
      ensures SettleRunner(results[r], shots) == results[r]
    {
      var runner := results[r];
      forall s | 0 <= s < |runner.suites|
        ensures SettleSuite(runner.suites[s], shots) == runner.suites[s]
      {
        var tests := runner.suites[s].tests;
        forall t | 0 <= t < |tests| ensures SettleTest(tests[t].1, shots) == tests[t].1 {
          var m := LastMatch(shots, tests[t].1.uid);
          if m.Some? {
            assert HasTest(results, shots[m.value].uid);
            assert false;
          }
        }
        assert SettleTests(tests, shots) == tests;
      }
      assert SettleRunner(runner, shots).suites == runner.suites;
    }
  }
}
