/**
 * What one evaluation cycle learns from the Jenkins server. Every fetch the
 * watcher makes is a field of a Snapshot instead of a call; a fetch that fails
 * is None.
 */
module Jenkins {
  import opened Wrappers

  /** One build of the job, as GetBuild or GetLastBuild reports it. */
  datatype Build = Build(number: int, isGood: bool, isRunning: bool, url: string)

  /** One case of a test report and its status text (PASSED, FAILED, REGRESSION, FIXED, ...). */
  datatype TestCase = TestCase(name: string, status: string)

  datatype Suite = Suite(cases: seq<TestCase>)

  /** A build's test report, as GetResultSet returns it. */
  datatype TestResult = TestResult(failCount: int, passCount: int, suites: seq<Suite>)

  /**
   * clientOk:   creating the client (Init) and looking up the job (GetJob) succeeded;
   * latest:     GetLastBuild;
   * listing:    GetAllBuildIds, newest first, each id already resolved with GetBuild;
   * testResult: GetResultSet of the build that `latest` names.
   */
  datatype Snapshot = Snapshot(
    clientOk: bool,
    latest: Option<Build>,
    listing: Option<seq<Build>>,
    testResult: Option<TestResult>)
}
