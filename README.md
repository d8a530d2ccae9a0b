# wdio-simple-reporter: the event-to-result aggregator

This project models `SimpleReporter`, the WebdriverIO reporter that turns the stream of
runner events into one JSON report. The reporter owns two collections. `runnerResults` is an
ordered list of per-worker records keyed by correlation id (`cid`). `failureScreenshots` is a
buffer of screenshot events. Each event handler changes them:

- `runner:start` appends a record with zeroed counters and no suites;
- `test:pass`, `test:fail`, `test:pending` raise one counter of the first record with the cid;
- `runner:end` replaces that record's suites with the spec's suites that hold at least one test,
  read from the base reporter's statistics tree;
- `runner:screenshot` buffers the screenshot;
- `end` attaches every buffered screenshot to every test with the same `uid`, across all
  records and suites, then writes the records to `<resultsDir>/<resultsFile>`.

Files:

- `wrappers.dfy`: `Option`, `Result`, and `Outcome`, the result of a handler that may throw.
- `stats.dfy`: the statistics tree (runner, spec, suite, test, hook, screenshot) and the suite
  flattening of `getAllTestSuites`. Dictionaries that the code iterates are key/value sequences
  in key order. Dictionaries that it only indexes are maps.
- `results.dfy`: the result records, the counter triple, and `getRunner`.
- `reconcile.dfy`: the end-of-run screenshot pass as a specification, `Settle`, with its laws.
- `reporter.dfy`: the `SimpleReporter` class, with one method per event, the choice of the
  output location, and the example run of a single worker.

Records are datatype values held in a `seq` field. A handler that changes a record in place is
modelled by writing the updated record back into the field. A thrown error is modelled as a
`Threw` outcome, and a handler that fails has changed nothing.

Behaviour of the code worth noting:

- the default directory is `../reports`, resolved relative to the reporter's installation
  directory;
- a second `runner:start` with a cid that is already present is not rejected; it adds a record
  that lookups never find;
- `end` is not guarded against running twice (running the pass twice is harmless:
  `SettleIdempotent`);
- a `runner:end` whose runner or spec is missing from the statistics tree throws, before the
  record lookup.

## Model

| member | source | states |
|---|---|---|
| `Stats.KeepReportable` | src/reporter.ts:267-268 | the result holds only suites with tests, is an order-preserving subsequence of the input, and keeps every suite with tests exactly as often as it occurs |
| `Stats.GetAllTestSuites` | src/reporter.ts:261-269 | the suites of the spec in key order, without those that hold no test (hooks alone do not count); every suite with a test is kept, nothing is merged or reordered |
| `Results.GetRunner` | src/reporter.ts:271-278 | returns the position of the first record with the cid; with duplicated cids the earliest wins; fails with RunnerNotFound(cid) exactly when no record has the cid |
| `Results.GetRunnerAppend` | src/reporter.ts:207 | after a record is appended, a cid that was found still finds the same record; otherwise it finds the new record when the cids match, and still fails when they do not |
| `Reconcile.LastMatch` | src/reporter.ts:219-222 | the index of the last buffered screenshot whose uid is the test's uid; none when no screenshot has that uid |
| `Reconcile.Settle` | src/reporter.ts:217-224 | the pass changes only the screenshot attached to tests: records, counters, suites and test keys keep their shape, and every suite still holds a test |
| `Reconcile.SettlePointwise` | src/reporter.ts:219-224 | after the pass, a test whose uid matches a buffered screenshot holds the last such screenshot in buffer order; a test with no match is unchanged |
| `Reconcile.SettleTestOne` | src/reporter.ts:221-222 | a pass with one screenshot sets it on a test exactly when the uids are equal and leaves other tests unchanged |
| `Reconcile.LastShotAppend` | src/reporter.ts:219 | for a buffer `xs + ys`, a screenshot in `ys` overrides any in `xs` for the same test |
| `Reconcile.SettleAgree` | src/reporter.ts:219-224 | two buffers that agree on the last screenshot for every test present give the same records |
| `Reconcile.SettleCompose` | src/reporter.ts:219-224 | processing buffer `xs` and then buffer `ys` is the same as processing `xs + ys`, one screenshot at a time in buffer order |
| `Reconcile.SettleIdempotent` | src/reporter.ts:217-224 | running the pass twice over the same buffer gives the result of running it once |
| `Reconcile.SettleDropUnmatched` | src/reporter.ts:219-224 | a screenshot whose uid matches no test has no effect: removing it from the buffer gives the same records |
| `Reconcile.SettleUnmatched` | src/reporter.ts:219-224 | when no buffered screenshot matches any test, every record is left unchanged |
| `Reporter.FinalResultsDir` | src/reporter.ts:227-229 | the directory is `resultsDir` when it is given and non-empty, else the default `../reports`; never empty |
| `Reporter.FinalResultsFile` | src/reporter.ts:230-232 | the file is `resultsFile` when it is given and non-empty, else `report.json`; never empty |
| `Reporter.SpecOf` | src/reporter.ts:213 | reading `stats.runners[cid].specs[specHash]` succeeds exactly when both entries exist; otherwise it names which of the two is missing |
| `Reporter.SimpleReporter.constructor` | src/reporter.ts:177-189 | a new reporter has no records and an empty screenshot buffer |
| `Reporter.SimpleReporter.RunnerStart` | src/reporter.ts:191-208 | appends exactly one record, with the event's cid, capabilities, specs and specHash, counters 0/0/0 and no suites; existing records and the buffer are unchanged |
| `Reporter.SimpleReporter.RunnerEnd` | src/reporter.ts:210-215 | sets the suites of the first record with the cid to the reportable suites of `stats.runners[cid].specs[specHash]`; fails with no change when the stats entry or the record is missing; counters, other fields and other records are unchanged |
| `Reporter.SimpleReporter.RunnerScreenshot` | src/reporter.ts:244-246 | appends the screenshot to the end of the buffer and changes nothing else |
| `Reporter.SimpleReporter.TestPass` | src/reporter.ts:248-250 | raises `passing` by one on the record found by `getRunner`; the other counters, fields and records are unchanged; an unknown cid fails with RunnerNotFound and no change |
| `Reporter.SimpleReporter.TestFail` | src/reporter.ts:252-254 | raises `failing` by one on the record found by `getRunner`; nothing else changes; an unknown cid fails with RunnerNotFound and no change |
| `Reporter.SimpleReporter.TestPending` | src/reporter.ts:256-258 | raises `pending` by one on the record found by `getRunner`; nothing else changes; an unknown cid fails with RunnerNotFound and no change |
| `Reporter.SimpleReporter.End` | src/reporter.ts:217-242 | the nested loops leave every test holding the last buffered screenshot with its uid, or as it was (`Settle`); the buffer is unchanged; the records are handed to the writer at the chosen directory and file |
| `Reporter.ExampleRun` | src/reporter.ts:191-258 | start A, two passes, one failure, end of A and end of run give A the counters 2 passing, 0 pending, 1 failing, and the reportable suites of its spec `h1` |

Every handler that changes records also ensures `Grows`: existing records keep their position
and cid, and no counter decreases. Every handler also keeps the class invariant `Valid`: every
attached suite holds a test.

## Left out

- Persistence (src/reporter.ts:235-241 and src/utils.ts:3-17): directory creation, the JSON
  write and the logged-and-swallowed error. `End` returns the `WriteRequest` that the writer
  receives. Because the source swallows write errors, `End` never fails. `readObjectFromJson` is
  never called by the reporter.
- `path.join` and `__dirname`: the directory and the file are kept as a pair, and the default
  directory is the relative text `../reports`.
- The `EventEmitter` registration and the string event names: each handler is a method.
- Sharing of objects. In the source, the suites attached on `runner:end` are the same objects as
  those in the base reporter's statistics tree, so the screenshot pass also changes that tree.
  The model copies values, so it does not capture this aliasing.
- `baseReporter.stats` is a live object updated by the base reporter. `RunnerEnd` takes the tree
  as it stands when the event arrives as a parameter; how the tree is built is not part of this model.
- `Object.keys` order: JavaScript lists integer-like keys first, in ascending order. The model
  takes dictionary entries in the order given.
- TestPass, TestFail, TestPending: the counters are unbounded naturals. JavaScript numbers stop
  counting exactly beyond 2^53.
- Dates, durations, `output` payloads, the `screenshots` arrays of tests, image data, the
  `config` option (`screenshotPath`), the `config` field of `runner:start` and `reporterName`
  are opaque or unused by the handlers, and are left out or kept as uninterpreted values.
  Capability versions that may be numbers are kept as text.
