/** The run bookkeeping of `main` (src/html5lib_tests_bench/cli.py): which browsers run,
    how many cases each runs, the records and counters one browser leaves behind when
    launching, a case or closing fails, the exit code, and the truncated failure diff.

    The fixture parser has no scripting flag, so the corrected run takes each case's flag
    as a parameter `scriptingOf`. The code as written reads a `scripting_enabled`
    attribute the test record does not have; `RunBrowserAsWritten` models what that
    does. */
module BenchRun {
  import opened Wrappers
  import opened DatParser
  import opened Classify

  // ---------------------------------------------------------------- browsers

  const AllBrowsers: seq<string> := ["chromium", "firefox", "webkit"]

  /** `_browsers_from_arg`: `all` names the three engines, anything else names itself. */
  function BrowsersFromArg(arg: string): (r: seq<string>)
    ensures |r| >= 1
    ensures arg != "all" ==> r == [arg]
    // `all` runs the three engines in this order, which is the order of the records
    ensures arg == "all" ==> r == ["chromium", "firefox", "webkit"]
    // no browser runs twice
    ensures forall i, j :: 0 <= i < j < |r| ==> r[i] != r[j]
  {
    if arg == "all" then AllBrowsers else [arg]
  }

  // ---------------------------------------------------------------- the --max-tests cap

  /** The cases the loop reaches from position `idx` on: it stops at the end of the list
      or, when the limit is not zero, once the position reaches the limit. */
  function CapFrom(tests: seq<DatTest>, limit: int, idx: nat): seq<DatTest>
    decreases |tests| - idx
  {
    if idx >= |tests| || (limit != 0 && idx >= limit) then []
    else [tests[idx]] + CapFrom(tests, limit, idx + 1)
  }

  /** How many cases the loop runs. */
  function CapBound(n: nat, limit: int): nat {
    if limit == 0 then n else if limit < 0 then 0 else if limit < n then limit else n
  }

  lemma {:induction false} CapFromSlice(tests: seq<DatTest>, limit: int, idx: nat)
    requires idx <= CapBound(|tests|, limit)
    ensures CapFrom(tests, limit, idx) == tests[idx..CapBound(|tests|, limit)]
    decreases |tests| - idx
  {
    if idx < CapBound(|tests|, limit) {
      CapFromSlice(tests, limit, idx + 1);
      assert tests[idx..CapBound(|tests|, limit)] == [tests[idx]] + tests[idx + 1..CapBound(|tests|, limit)];
    }
  }

  /** The cases one browser runs: all of them for limit 0, the first `limit` for a
      positive limit, none for a negative one. */
  function Capped(tests: seq<DatTest>, limit: int): (r: seq<DatTest>)
    ensures limit == 0 ==> r == tests
    ensures limit > 0 && limit < |tests| ==> r == tests[..limit]
    ensures limit >= |tests| ==> r == tests
    ensures limit < 0 ==> r == []
  {
    CapFromSlice(tests, limit, 0);
    CapFrom(tests, limit, 0)
  }

  // ---------------------------------------------------------------- records

  /** The case fields of a record; the synthetic record of a failed browser has none. */
  datatype CaseId = CaseId(sourceFile: string, index: nat, fragmentContext: Option<string>, scriptingEnabled: bool)

  datatype CaseRecord = CaseRecord(browser: string, browserVersion: string, caseId: Option<CaseId>, outcome: Outcome)

  function CaseIdOf(t: DatTest, scripting: bool): CaseId {
    CaseId(t.sourceFile, t.index, t.fragmentContext, scripting)
  }

  /** The record of one case that ran to the end of the inner `try`. */
  function CaseRecordOf(b: Backend, browser: string, version: string, t: DatTest, scripting: bool, compare: bool): CaseRecord {
    CaseRecord(browser, version, Some(CaseIdOf(t, scripting)), ClassifyCase(b, browser, t, scripting, compare).outcome)
  }

  /** The classifier of one browser, as a value the case loop can be handed. */
  function Classifier(b: Backend, browser: string, compare: bool): (DatTest, bool) -> Outcome {
    (t: DatTest, scripting: bool) => ClassifyCase(b, browser, t, scripting, compare).outcome
  }

  /** The record appended when an exception escapes the browser's `with` block. */
  function Synthetic(browser: string, version: string, message: string): CaseRecord {
    CaseRecord(browser, version, None, Error(message))
  }

  function Outcomes(records: seq<CaseRecord>): (os: seq<Outcome>)
    ensures |os| == |records|
    ensures forall i :: 0 <= i < |records| ==> os[i] == records[i].outcome
  {
    seq(|records|, i requires 0 <= i < |records| => records[i].outcome)
  }

  lemma OutcomesSnoc(records: seq<CaseRecord>, rec: CaseRecord)
    ensures Outcomes(records + [rec]) == Outcomes(records) + [rec.outcome]
  {
  }

  // ---------------------------------------------------------------- one browser

  /** The state of the case loop: the records appended, the counters bumped, and the
      exception that left the loop early, if one did. */
  datatype CasesRun = CasesRun(records: seq<CaseRecord>, counters: Counters, escaped: Option<Exception>)

  /** The case loop over the cases it reaches, each case's outcome given by `classify`.
      Reading a case's scripting flag (`read`) happens outside the inner `try`, so an
      exception there ends the loop. */
  function RunCases(browser: string, version: string, tests: seq<DatTest>,
                    read: DatTest -> Result<bool, Exception>, classify: (DatTest, bool) -> Outcome): (r: CasesRun)
    // the counters always agree with the records appended so far
    ensures r.counters == Tally(Outcomes(r.records))
    // one record per case, in order, until an exception escapes
    ensures |r.records| <= |tests|
    ensures forall i :: 0 <= i < |r.records| ==>
              read(tests[i]).Success? &&
              r.records[i] == CaseRecord(browser, version, Some(CaseIdOf(tests[i], read(tests[i]).value)),
                                         classify(tests[i], read(tests[i]).value))
    ensures r.escaped.None? ==> |r.records| == |tests|
    ensures r.escaped.Some? ==> |r.records| < |tests| && read(tests[|r.records|]) == Failure(r.escaped.value)
    decreases |tests|
  {
    if |tests| == 0 then CasesRun([], NoCounts, None)
    else
      var n := |tests| - 1;
      var prev := RunCases(browser, version, tests[..n], read, classify);
      assert forall i :: 0 <= i < n ==> tests[..n][i] == tests[i];
      if prev.escaped.Some? then prev
      else
        match read(tests[n])
        case Failure(e) => CasesRun(prev.records, prev.counters, Some(e))
        case Success(s) =>
          var rec := CaseRecord(browser, version, Some(CaseIdOf(tests[n], s)), classify(tests[n], s));
          TallySnoc(Outcomes(prev.records), rec.outcome);
          OutcomesSnoc(prev.records, rec);
          CasesRun(prev.records + [rec], Count(prev.counters, rec.outcome), None)
  }

  /** What one browser leaves behind: the version recorded for it, its records, its
      summary counters, and the error recorded against the browser itself. */
  datatype BrowserRun = BrowserRun(version: string, records: seq<CaseRecord>, counters: Counters, launchError: Option<string>)

  /** The exception that ends the `with` block, if any: leaving the harness closes the
      browser, and an exception raised while closing replaces the one in flight. */
  function Escaping(escaped: Option<Exception>, closing: Option<Exception>): Option<Exception> {
    if closing.Some? then closing else escaped
  }

  /** One browser, with the scripting flag of each case read by `read`. */
  function RunBrowserWith(b: Backend, browser: string, tests: seq<DatTest>, limit: int, compare: bool,
                          read: DatTest -> Result<bool, Exception>): (r: BrowserRun)
    // the counters agree with the records, the synthetic one included
    ensures r.counters == Tally(Outcomes(r.records))
    // a failed launch leaves an empty version and one synthetic error record
    ensures b.launch(browser).Failure? ==>
              r.version == "" && r.launchError == Some(ErrorText(b.launch(browser).error)) &&
              r.records == [Synthetic(browser, "", r.launchError.value)]
    // after a launch the version stays, the case records come first, and an exception
    // that ends the block adds one synthetic record carrying its text
    ensures b.launch(browser).Success? ==>
              var cases := RunCases(browser, r.version, Capped(tests, limit), read, Classifier(b, browser, compare));
              var escaping := Escaping(cases.escaped, b.close(browser));
              r.version == b.launch(browser).value &&
              (r.launchError.Some? <==> escaping.Some?) &&
              (r.launchError.Some? ==> r.launchError.value == ErrorText(escaping.value)) &&
              r.records == cases.records + (if escaping.Some? then [Synthetic(browser, r.version, r.launchError.value)] else [])
  {
    match b.launch(browser)
    case Failure(e) =>
      var rec := Synthetic(browser, "", ErrorText(e));
      TallySnoc([], rec.outcome);
      assert Outcomes([rec]) == [] + [rec.outcome];
      BrowserRun("", [rec], Count(NoCounts, rec.outcome), Some(ErrorText(e)))
    case Success(version) =>
      var cases := RunCases(browser, version, Capped(tests, limit), read, Classifier(b, browser, compare));
      match Escaping(cases.escaped, b.close(browser))
      case None =>
        assert cases.records + [] == cases.records;
        BrowserRun(version, cases.records, cases.counters, None)
      case Some(e) =>
        var rec := Synthetic(browser, version, ErrorText(e));
        TallySnoc(Outcomes(cases.records), rec.outcome);
        OutcomesSnoc(cases.records, rec);
        BrowserRun(version, cases.records + [rec], Count(cases.counters, rec.outcome), Some(ErrorText(e)))
  }

  /** The shape of one browser's records: all are the browser's and carry its version;
      a browser error is recorded exactly when the last record has no case fields, and
      no other record lacks them. */
  lemma RunBrowserRecords(b: Backend, browser: string, tests: seq<DatTest>, limit: int, compare: bool,
                          read: DatTest -> Result<bool, Exception>)
    ensures var r := RunBrowserWith(b, browser, tests, limit, compare, read);
            (forall i :: 0 <= i < |r.records| ==> r.records[i].browser == browser && r.records[i].browserVersion == r.version) &&
            (r.launchError.Some? <==> |r.records| > 0 && r.records[|r.records| - 1].caseId.None?) &&
            (r.launchError.Some? ==> r.records[|r.records| - 1] == Synthetic(browser, r.version, r.launchError.value)) &&
            (forall i :: 0 <= i < |r.records| - 1 ==> r.records[i].caseId.Some?)
  {
    var r := RunBrowserWith(b, browser, tests, limit, compare, read);
    if b.launch(browser).Success? {
      var cases := RunCases(browser, r.version, Capped(tests, limit), read, Classifier(b, browser, compare));
      assert forall i :: 0 <= i < |cases.records| ==> r.records[i] == cases.records[i];
    }
  }

  /** Reading a case's scripting flag when the record has one: it never raises. */
  function FlagReader(scriptingOf: DatTest -> bool): DatTest -> Result<bool, Exception> {
    t => Success(scriptingOf(t))
  }

  /** One browser, each case's scripting flag given by `scriptingOf`. */
  function RunBrowser(b: Backend, browser: string, tests: seq<DatTest>, limit: int, compare: bool,
                      scriptingOf: DatTest -> bool): (r: BrowserRun)
    ensures r.counters == Tally(Outcomes(r.records))
    ensures b.launch(browser).Failure? ==>
              r.version == "" && r.records == [Synthetic(browser, "", ErrorText(b.launch(browser).error))]
    // after a launch, one record per capped case, followed by nothing when closing
    // succeeds and by one error record when it raises
    ensures b.launch(browser).Success? ==> r.version == b.launch(browser).value
    ensures b.launch(browser).Success? && b.close(browser).None? ==>
              |r.records| == |Capped(tests, limit)| && r.launchError.None?
    ensures b.launch(browser).Success? && b.close(browser).Some? ==>
              |r.records| == |Capped(tests, limit)| + 1 &&
              r.records[|r.records| - 1] == Synthetic(browser, r.version, ErrorText(b.close(browser).value))
  {
    var read := FlagReader(scriptingOf);
    var r := RunBrowserWith(b, browser, tests, limit, compare, read);
    if b.launch(browser).Success? then
      var cases := RunCases(browser, r.version, Capped(tests, limit), read, Classifier(b, browser, compare));
      assert cases.escaped.None?;
      r
    else r
  }

  /** After a launch the records open with every capped case's record, in order. */
  lemma RunBrowserCases(b: Backend, browser: string, tests: seq<DatTest>, limit: int, compare: bool,
                        scriptingOf: DatTest -> bool)
    requires b.launch(browser).Success?
    ensures var r := RunBrowser(b, browser, tests, limit, compare, scriptingOf);
            var cases := Capped(tests, limit);
            |r.records| >= |cases| &&
            forall i :: 0 <= i < |cases| ==>
              r.records[i] == CaseRecordOf(b, browser, r.version, cases[i], scriptingOf(cases[i]), compare)
  {
    var read := FlagReader(scriptingOf);
    var r := RunBrowserWith(b, browser, tests, limit, compare, read);
    var cases := RunCases(browser, r.version, Capped(tests, limit), read, Classifier(b, browser, compare));
    assert cases.escaped.None?;
    assert forall i :: 0 <= i < |cases.records| ==> r.records[i] == cases.records[i];
  }

  /** The exception reading `t.scripting_enabled` raises on the slotted test record. */
  const MissingAttribute := Exception("AttributeError", "'Html5libDatTest' object has no attribute 'scripting_enabled'")

  /** The attribute read as written: it raises for every case. */
  function ReadScriptingAsWritten(t: DatTest): Result<bool, Exception> {
    Failure(MissingAttribute)
  }

  /** One browser as the code is written. */
  function RunBrowserAsWritten(b: Backend, browser: string, tests: seq<DatTest>, limit: int, compare: bool): BrowserRun {
    RunBrowserWith(b, browser, tests, limit, compare, ReadScriptingAsWritten)
  }

  /** As written, a browser that launches and has a case to run records no case at all:
      its only record is one synthetic error, about the missing attribute unless closing
      raised something else. */
  lemma AsWrittenOnlyErrors(b: Backend, browser: string, tests: seq<DatTest>, limit: int, compare: bool)
    requires b.launch(browser).Success? && |Capped(tests, limit)| > 0
    ensures var r := RunBrowserAsWritten(b, browser, tests, limit, compare);
            var e := if b.close(browser).Some? then b.close(browser).value else MissingAttribute;
            r.records == [Synthetic(browser, b.launch(browser).value, ErrorText(e))] &&
            r.counters == Counters(0, 0, 1, 0)
  {
    var r := RunBrowserAsWritten(b, browser, tests, limit, compare);
    var cases := RunCases(browser, r.version, Capped(tests, limit), ReadScriptingAsWritten, Classifier(b, browser, compare));
    assert cases.records == [];
  }

  /** The corrected run of the same browser keeps a record for every case instead. */
  lemma AsWrittenLosesCases(b: Backend, browser: string, tests: seq<DatTest>, limit: int, compare: bool,
                            scriptingOf: DatTest -> bool)
    requires b.launch(browser).Success? && b.close(browser).None? && |Capped(tests, limit)| > 0
    ensures RunBrowser(b, browser, tests, limit, compare, scriptingOf).records[0].caseId.Some?
    ensures RunBrowserAsWritten(b, browser, tests, limit, compare).records[0].caseId.None?
  {
    AsWrittenOnlyErrors(b, browser, tests, limit, compare);
  }

  // ---------------------------------------------------------------- the whole run

  /** Some record of some browser has an outcome of kind `k`. */
  predicate AnyRecord(runs: seq<BrowserRun>, k: Kind) {
    exists i, j :: 0 <= i < |runs| && 0 <= j < |runs[i].records| && KindOf(runs[i].records[j].outcome) == k
  }

  /** Some browser's counter of kind `k` is positive; the loop over browsers behind
      `any(...)` at the end of `main`. */
  function AnyCounter(runs: seq<BrowserRun>, k: Kind): (r: bool)
    requires forall i :: 0 <= i < |runs| ==> runs[i].counters == Tally(Outcomes(runs[i].records))
    requires k == ErrorKind || k == FailKind
    ensures r <==> AnyRecord(runs, k)
    decreases |runs|
  {
    if |runs| == 0 then false
    else
      var c := runs[0].counters;
      var here := if k == ErrorKind then c.error > 0 else c.fail > 0;
      CountKindPositive(Outcomes(runs[0].records), k);
      assert c == Tally(Outcomes(runs[0].records));
      assert here <==> CountKind(Outcomes(runs[0].records), k) > 0;
      var rest := AnyCounter(runs[1..], k);
      assert AnyRecord(runs[1..], k) ==> AnyRecord(runs, k) by {
        if AnyRecord(runs[1..], k) {
          var i, j :| 0 <= i < |runs| - 1 && 0 <= j < |runs[1..][i].records| && KindOf(runs[1..][i].records[j].outcome) == k;
          assert runs[i + 1] == runs[1..][i];
        }
      }
      assert AnyRecord(runs, k) ==> here || AnyRecord(runs[1..], k) by {
        if AnyRecord(runs, k) {
          var i, j :| 0 <= i < |runs| && 0 <= j < |runs[i].records| && KindOf(runs[i].records[j].outcome) == k;
          if i > 0 {
            assert runs[1..][i - 1] == runs[i];
          } else {
            assert KindOf(Outcomes(runs[0].records)[j]) == k;
            assert here;
          }
        }
      }
      assert here ==> AnyRecord(runs, k) by {
        if here {
          var j :| 0 <= j < |runs[0].records| && KindOf(Outcomes(runs[0].records)[j]) == k;
          assert KindOf(runs[0].records[j].outcome) == k;
        }
      }
      here || rest
  }

  /** Everything `main` computes from the loaded tests. */
  datatype Bench = Bench(exitCode: int, browsers: seq<string>, runs: seq<BrowserRun>)

  /** `main` from the loaded tests on, each case's scripting flag read by `read`: no
      tests exits 1 before any browser starts; then each browser runs in turn, and the
      exit code is 2 if any error was recorded, else 3 if comparing and any case failed,
      else 0. */
  function RunBenchWith(b: Backend, browserArg: string, tests: seq<DatTest>, limit: int, compare: bool,
                        read: DatTest -> Result<bool, Exception>): (r: Bench)
    ensures |tests| == 0 <==> r.exitCode == 1
    ensures |tests| == 0 ==> r.runs == []
    ensures |tests| > 0 ==>
              r.browsers == BrowsersFromArg(browserArg) && |r.runs| == |r.browsers| &&
              forall i :: 0 <= i < |r.runs| ==> r.runs[i] == RunBrowserWith(b, r.browsers[i], tests, limit, compare, read)
    ensures r.exitCode == 2 <==> |tests| > 0 && AnyRecord(r.runs, ErrorKind)
    ensures r.exitCode == 3 <==> |tests| > 0 && !AnyRecord(r.runs, ErrorKind) && compare && AnyRecord(r.runs, FailKind)
    ensures r.exitCode == 0 <==> |tests| > 0 && !AnyRecord(r.runs, ErrorKind) && !(compare && AnyRecord(r.runs, FailKind))
  {
    if |tests| == 0 then Bench(1, [], [])
    else
      var browsers := BrowsersFromArg(browserArg);
      var runs := seq(|browsers|, i requires 0 <= i < |browsers| =>
                        RunBrowserWith(b, browsers[i], tests, limit, compare, read));
      var code := if AnyCounter(runs, ErrorKind) then 2
                  else if compare && AnyCounter(runs, FailKind) then 3
                  else 0;
      Bench(code, browsers, runs)
  }

  /** The corrected `main`: every case's scripting flag is read without raising. */
  function RunBench(b: Backend, browserArg: string, tests: seq<DatTest>, limit: int, compare: bool,
                    scriptingOf: DatTest -> bool): (r: Bench)
    ensures |tests| == 0 <==> r.exitCode == 1
    ensures |tests| == 0 ==> r.runs == []
    ensures |tests| > 0 ==>
              r.browsers == BrowsersFromArg(browserArg) && |r.runs| == |r.browsers| &&
              forall i :: 0 <= i < |r.runs| ==> r.runs[i] == RunBrowser(b, r.browsers[i], tests, limit, compare, scriptingOf)
    ensures r.exitCode == 2 <==> |tests| > 0 && AnyRecord(r.runs, ErrorKind)
    ensures r.exitCode == 3 <==> |tests| > 0 && !AnyRecord(r.runs, ErrorKind) && compare && AnyRecord(r.runs, FailKind)
    ensures r.exitCode == 0 <==> |tests| > 0 && !AnyRecord(r.runs, ErrorKind) && !(compare && AnyRecord(r.runs, FailKind))
  {
    RunBenchWith(b, browserArg, tests, limit, compare, FlagReader(scriptingOf))
  }

  /** `main` as the code is written. */
  function RunBenchAsWritten(b: Backend, browserArg: string, tests: seq<DatTest>, limit: int, compare: bool): Bench {
    RunBenchWith(b, browserArg, tests, limit, compare, ReadScriptingAsWritten)
  }

  /** As written, any run with tests and a cap that is not negative exits 2: the first
      browser records an error, whether it fails to launch or reaches its first case. */
  lemma AsWrittenExitsTwo(b: Backend, browserArg: string, tests: seq<DatTest>, limit: int, compare: bool)
    requires |tests| > 0 && limit >= 0
    ensures RunBenchAsWritten(b, browserArg, tests, limit, compare).exitCode == 2
  {
    var r := RunBenchAsWritten(b, browserArg, tests, limit, compare);
    var browser := r.browsers[0];
    var run := r.runs[0];
    assert run == RunBrowserAsWritten(b, browser, tests, limit, compare);
    if b.launch(browser).Success? {
      assert |Capped(tests, limit)| > 0 by {
        if limit > 0 && limit < |tests| {
          assert |tests[..limit]| == limit;
        }
      }
      AsWrittenOnlyErrors(b, browser, tests, limit, compare);
    }
    assert KindOf(run.records[0].outcome) == ErrorKind;
  }

  // ---------------------------------------------------------------- failure diffs

  const TruncationMarker := "... (diff truncated)"

  /** The lines printed for one failure's diff under `--max-diff-lines maxLines`:
      0 prints all of it; otherwise the marker replaces whatever is left once `maxLines`
      lines are out, so a negative value prints only the marker. */
  method EmitDiff(diff: seq<string>, maxLines: int) returns (out: seq<string>)
    ensures maxLines == 0 ==> out == diff
    ensures maxLines > 0 && |diff| <= maxLines ==> out == diff
    ensures maxLines > 0 && |diff| > maxLines ==> out == diff[..maxLines] + [TruncationMarker]
    ensures maxLines < 0 && |diff| == 0 ==> out == []
    ensures maxLines < 0 && |diff| > 0 ==> out == [TruncationMarker]
  {
    out := [];
    var n := 0;
    while n < |diff|
      invariant 0 <= n <= |diff|
      invariant out == diff[..n]
      invariant maxLines > 0 ==> n <= maxLines
      invariant maxLines < 0 ==> n == 0
    {
      if maxLines != 0 && n >= maxLines {
        out := out + [TruncationMarker];
        return;
      }
      out := out + [diff[n]];
      n := n + 1;
    }
    assert diff[..n] == diff;
  }
}
