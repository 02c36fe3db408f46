/**
 * The failing-test lines of a blame post: a header citing the latest build,
 * a fail/pass count line and one line per failing case, in suite then case order.
 */
module TestReport {
  import opened Wrappers
  import opened Jenkins
  import Decimal

  /** The exact, case-sensitive set of statuses reported as failures. */
  predicate IsFailure(status: string) {
    status == "FAILED" || status == "REGRESSION" || status == "FAIL"
  }

  function HeaderLine(latest: Build): string {
    "Will show the test result from the last build [#" + Decimal.Itoa(latest.number) + "](" + latest.url + ")"
  }

  function CountLine(result: TestResult): string {
    "**FailCount:** `" + Decimal.Itoa(result.failCount) + "` **PassCount:** `" + Decimal.Itoa(result.passCount) + "`"
  }

  function CaseLine(c: TestCase): string {
    "**Test Name:** `" + c.name + "` **Status:** `" + c.status + "` "
  }

  /** One line per failing case, in order. */
  function CaseLines(cases: seq<TestCase>): seq<string> {
    if |cases| == 0 then []
    else
      var last := cases[|cases| - 1];
      CaseLines(cases[..|cases| - 1]) + (if IsFailure(last.status) then [CaseLine(last)] else [])
  }

  /** The case lines of every suite, suite after suite. */
  function SuiteLines(suites: seq<Suite>): seq<string> {
    if |suites| == 0 then [] else SuiteLines(suites[..|suites| - 1]) + CaseLines(suites[|suites| - 1].cases)
  }

  /** Every case of the report, suite after suite. */
  function AllCases(suites: seq<Suite>): seq<TestCase> {
    if |suites| == 0 then [] else AllCases(suites[..|suites| - 1]) + suites[|suites| - 1].cases
  }

  /** How many cases carry a failing status. */
  function FailingCount(cases: seq<TestCase>): nat {
    if |cases| == 0 then 0
    else FailingCount(cases[..|cases| - 1]) + (if IsFailure(cases[|cases| - 1].status) then 1 else 0)
  }

  /** The lines for the latest build's report: none when the fetch failed or nothing failed. */
  function TestLines(latest: Build, result: Option<TestResult>): seq<string> {
    match result
    case None => []
    case Some(r) => if r.failCount == 0 then [] else [HeaderLine(latest), CountLine(r)] + SuiteLines(r.suites)
  }

  /** The outer loop over suites, appending to the message lines. */
  method CollectTestLines(latest: Build, result: Option<TestResult>) returns (lines: seq<string>)
    ensures lines == TestLines(latest, result)
  {
    lines := [];
    if result.None? {
      return;
    }
    var testResult := result.value;
    if testResult.failCount != 0 {
      lines := lines + [HeaderLine(latest)];
      lines := lines + [CountLine(testResult)];
      ghost var head := lines;
      var suites := testResult.suites;
      for i := 0 to |suites|
        invariant lines == head + SuiteLines(suites[..i])
      {
        lines := AppendCaseLines(lines, suites[i].cases);
        SuiteLinesStep(suites, i);
      }
      assert suites[..|suites|] == suites;
    }
  }

  /** The inner loop over one suite's cases: a line for each failing one. */
  method AppendCaseLines(before: seq<string>, cases: seq<TestCase>) returns (lines: seq<string>)
    ensures lines == before + CaseLines(cases)
  {
    lines := before;
    for j := 0 to |cases|
      invariant lines == before + CaseLines(cases[..j])
    {
      CaseLinesStep(cases, j);
      if IsFailure(cases[j].status) {
        lines := lines + [CaseLine(cases[j])];
      }
    }
    assert cases[..|cases|] == cases;
  }

  lemma CaseLinesStep(cases: seq<TestCase>, j: nat)
    requires j < |cases|
    ensures CaseLines(cases[..j + 1]) ==
      CaseLines(cases[..j]) + (if IsFailure(cases[j].status) then [CaseLine(cases[j])] else [])
  {
    assert cases[..j + 1][..j] == cases[..j];
  }

  lemma SuiteLinesStep(suites: seq<Suite>, i: nat)
    requires i < |suites|
    ensures SuiteLines(suites[..i + 1]) == SuiteLines(suites[..i]) + CaseLines(suites[i].cases)
  {
    assert suites[..i + 1][..i] == suites[..i];
  }

  /** Case lines of two runs of cases, one after the other, keep their order. */
  lemma {:induction false} CaseLinesAppend(a: seq<TestCase>, b: seq<TestCase>)
    ensures CaseLines(a + b) == CaseLines(a) + CaseLines(b)
  {
    if |b| > 0 {
      var b' := b[..|b| - 1];
      assert (a + b)[..|a + b| - 1] == a + b';
      CaseLinesAppend(a, b');
    } else {
      assert a + b == a;
    }
  }

  /** The suite-by-suite lines are the case lines of the flattened report. */
  lemma {:induction false} SuiteLinesFlatten(suites: seq<Suite>)
    ensures SuiteLines(suites) == CaseLines(AllCases(suites))
  {
    if |suites| > 0 {
      var init := suites[..|suites| - 1];
      SuiteLinesFlatten(init);
      CaseLinesAppend(AllCases(init), suites[|suites| - 1].cases);
    }
  }

  /** A line appears exactly when some case with a failing status produces it. */
  lemma {:induction false} CaseLinesExact(cases: seq<TestCase>, line: string)
    ensures line in CaseLines(cases) <==> exists c :: c in cases && IsFailure(c.status) && line == CaseLine(c)
  {
    if |cases| > 0 {
      var init := cases[..|cases| - 1];
      var last := cases[|cases| - 1];
      CaseLinesExact(init, line);
      assert cases == init + [last];
      if line in CaseLines(cases) && line !in CaseLines(init) {
        assert IsFailure(last.status) && line == CaseLine(last);
      }
      if exists c :: c in cases && IsFailure(c.status) && line == CaseLine(c) {
        var c :| c in cases && IsFailure(c.status) && line == CaseLine(c);
        if c in init {
          assert line in CaseLines(init);
        }
      }
    }
  }

  /** Exactly one line per failing case. */
  lemma {:induction false} CaseLinesCount(cases: seq<TestCase>)
    ensures |CaseLines(cases)| == FailingCount(cases)
  {
    if |cases| > 0 {
      CaseLinesCount(cases[..|cases| - 1]);
    }
  }

  /**
   * The report is empty when the fetch failed or FailCount is zero; otherwise it is
   * the header (naming the latest build), the count line, then one line per failing case.
   */
  lemma TestLinesShape(latest: Build, result: Option<TestResult>)
    ensures TestLines(latest, result) == [] <==> result.None? || result.value.failCount == 0
    ensures result.Some? && result.value.failCount != 0 ==>
      var lines := TestLines(latest, result);
      && |lines| == 2 + FailingCount(AllCases(result.value.suites))
      && lines[0] == HeaderLine(latest)
      && lines[1] == CountLine(result.value)
      && lines[2..] == CaseLines(AllCases(result.value.suites))
  {
    if result.Some? && result.value.failCount != 0 {
      SuiteLinesFlatten(result.value.suites);
      CaseLinesCount(AllCases(result.value.suites));
    }
  }
}
