/**
 * The build-watch cycle: one run of checkJenkinsJob. The only state kept between
 * cycles is the marker, the decimal text of the last build evaluated, stored under
 * a fixed key; every other input arrives with the cycle's Snapshot.
 */
module Watcher {
  import opened Wrappers
  import opened Jenkins
  import Decimal
  import Blame
  import TestReport
  import Commits
  import Notify

  /** The key the marker is stored under. */
  const JENKINS_LASTBUILD_KEY := "_JenkinsLastBuild"

  /** The configuration a cycle reads and never changes. */
  datatype Config = Config(botUserId: string, channelId: string, repositories: string)

  /** Where a cycle ended. */
  datatype Path =
    | ClientFailed         // creating the Jenkins client or looking up the job failed
    | BootstrapListFailed  // no marker, and listing the build ids failed: the process exits
    | Bootstrapped         // no marker: the newest id is stored, the first three builds judged
    | LatestFailed         // fetching the latest build failed
    | AlreadySeen          // the marker names the latest build, or the latest build is running
    | ListFailed           // listing the build ids failed
    | NewestRunning        // the newest listed build is still running: evaluate it later
    | Evaluated            // the newest id is stored, the first three builds judged
    | Panicked             // blamed, but a configured repository has no '/': the commit loop panics

  /** The marker after the cycle and the post it made, if any. */
  datatype CycleResult = CycleResult(path: Path, marker: Option<string>, post: Option<Notify.Post>)

  /** The marker written for a listing: the newest id, when there is one. */
  function MarkerFor(builds: seq<Build>, stored: Option<string>): Option<string> {
    if |builds| > 0 then Some(Decimal.Itoa(builds[0].number)) else stored
  }

  /** Blame for the listed builds, judged on the first three. */
  predicate Blamed(builds: seq<Build>) {
    Blame.NoneGood(Blame.Sample(builds))
  }

  /** The blame post of a later cycle: identity override, test lines of the latest build, commits. */
  function SteadyPost(cfg: Config, latest: Build, result: Option<TestResult>, report: Commits.CommitReport): Notify.Post {
    var lines := TestReport.TestLines(latest, result);
    Notify.Post(cfg.botUserId, cfg.channelId, Notify.SteadyMessage(lines, report), Notify.BlameProps())
  }

  /** One cycle, from the stored marker and what the servers answer. */
  function Cycle(stored: Option<string>, ci: Snapshot, cfg: Config, github: Commits.GitHub): CycleResult {
    if !ci.clientOk then CycleResult(ClientFailed, stored, None)
    else match stored
      case None => BootstrapCycle(ci, cfg)
      case Some(seen) => SteadyCycle(seen, ci, cfg, github)
  }

  /** A cycle with no marker stored. */
  function BootstrapCycle(ci: Snapshot, cfg: Config): CycleResult {
    match ci.listing
    case None => CycleResult(BootstrapListFailed, None, None)
    case Some(builds) =>
      var post := if Blamed(builds) then Some(Notify.BootstrapPost(cfg.botUserId, cfg.channelId)) else None;
      CycleResult(Bootstrapped, MarkerFor(builds, None), post)
  }

  /** A cycle with marker text `seen` stored. */
  function SteadyCycle(seen: string, ci: Snapshot, cfg: Config, github: Commits.GitHub): CycleResult {
    match ci.latest
    case None => CycleResult(LatestFailed, Some(seen), None)
    case Some(last) =>
      if seen == Decimal.Itoa(last.number) || last.isRunning then CycleResult(AlreadySeen, Some(seen), None)
      else match ci.listing
        case None => CycleResult(ListFailed, Some(seen), None)
        case Some(builds) =>
          if |builds| > 0 && builds[0].isRunning then CycleResult(NewestRunning, Some(seen), None)
          else if !Blamed(builds) then CycleResult(Evaluated, MarkerFor(builds, Some(seen)), None)
          else match Commits.Last3Commiters(cfg.repositories, github)
            case None => CycleResult(Panicked, MarkerFor(builds, Some(seen)), None)
            case Some(report) =>
              CycleResult(Evaluated, MarkerFor(builds, Some(seen)), Some(SteadyPost(cfg, last, ci.testResult, report)))
  }

  /** The plugin: its configuration and the marker kept in its key-value store. */
  class BuildWatcher {
    const cfg: Config
    /** The value stored under JENKINS_LASTBUILD_KEY; None while nothing is stored. */
    var marker: Option<string>

    constructor (cfg: Config, stored: Option<string>)
      ensures this.cfg == cfg && marker == stored
    {
      this.cfg := cfg;
      marker := stored;
    }

    /**
     * checkJenkinsJob: give up when the client cannot be set up, then take the first-cycle
     * path when no marker is stored and the later-cycle path otherwise.
     */
    method CheckJenkinsJob(ci: Snapshot, github: Commits.GitHub) returns (result: CycleResult)
      modifies this
      ensures result == Cycle(old(marker), ci, cfg, github)
      ensures marker == result.marker
    {
      if !ci.clientOk {
        return CycleResult(ClientFailed, marker, None);
      }
      if marker.None? {
        result := Bootstrap(ci);
      } else {
        result := Steady(ci, github);
      }
    }

    /**
     * The first-cycle path. The marker is written while the first listed build is
     * read, before any outcome is looked at; at most three builds are read.
     */
    method Bootstrap(ci: Snapshot) returns (result: CycleResult)
      requires marker.None?
      modifies this
      ensures result == BootstrapCycle(ci, cfg)
      ensures marker == result.marker
    {
      if ci.listing.None? {
        return CycleResult(BootstrapListFailed, marker, None);
      }
      var buildIds := ci.listing.value;
      var last3: seq<bool> := [];
      var i := 0;
      while i < |buildIds|
        invariant i <= |buildIds| && i < Blame.WINDOW
        invariant last3 == Blame.Outcomes(buildIds[..i])
        invariant marker == if i == 0 then None else MarkerFor(buildIds, None)
      {
        if i == 0 {
          marker := Some(Decimal.Itoa(buildIds[i].number));
        }
        var job := buildIds[i];
        last3 := last3 + [job.isGood];
        Blame.OutcomesStep(buildIds, i);
        if i == 2 {
          break;
        }
        i := i + 1;
      }
      SampleIsPrefix(buildIds, |last3|);
      var blame := Blame.ReduceBlame(last3);
      var post := None;
      if blame {
        post := Some(Notify.BootstrapPost(cfg.botUserId, cfg.channelId));
      }
      return CycleResult(Bootstrapped, marker, post);
    }

    /**
     * The later-cycle path. A latest build already evaluated or still running ends
     * the cycle; a running newest listed build ends it before the marker is written.
     */
    method Steady(ci: Snapshot, github: Commits.GitHub) returns (result: CycleResult)
      requires marker.Some?
      modifies this
      ensures result == SteadyCycle(old(marker).value, ci, cfg, github)
      ensures marker == result.marker
    {
      var lastBuildToChecked := marker.value;
      if ci.latest.None? {
        return CycleResult(LatestFailed, marker, None);
      }
      var lastBuild := ci.latest.value;
      if lastBuildToChecked == Decimal.Itoa(lastBuild.number) || lastBuild.isRunning {
        return CycleResult(AlreadySeen, marker, None);
      }
      if ci.listing.None? {
        return CycleResult(ListFailed, marker, None);
      }
      var buildIds := ci.listing.value;
      var last3: seq<bool> := [];
      var i := 0;
      while i < |buildIds|
        invariant i <= |buildIds| && i < Blame.WINDOW
        invariant last3 == Blame.Outcomes(buildIds[..i])
        invariant i > 0 ==> !buildIds[0].isRunning
        invariant marker == if i == 0 then Some(lastBuildToChecked) else MarkerFor(buildIds, Some(lastBuildToChecked))
      {
        var job := buildIds[i];
        if i == 0 {
          if job.isRunning {
            return CycleResult(NewestRunning, marker, None);
          }
          marker := Some(Decimal.Itoa(job.number));
        }
        last3 := last3 + [job.isGood];
        Blame.OutcomesStep(buildIds, i);
        if i == 2 {
          break;
        }
        i := i + 1;
      }
      SampleIsPrefix(buildIds, |last3|);
      var panicked, post := Judge(cfg, lastBuild, ci.testResult, github, last3);
      if panicked {
        return CycleResult(Panicked, marker, None);
      }
      return CycleResult(Evaluated, marker, post);
    }
  }

  /**
   * The end of a later cycle: reduce the sampled outcomes to blame, gather the
   * failing tests of the latest build and, when blamed, the commits and the post.
   * `panicked` when the commit loop reaches a configured entry without '/'.
   */
  method Judge(cfg: Config, lastBuild: Build, testResult: Option<TestResult>, github: Commits.GitHub,
               last3: seq<bool>) returns (panicked: bool, post: Option<Notify.Post>)
    ensures panicked <==> Blame.NoneGood(last3) && Commits.Last3Commiters(cfg.repositories, github).None?
    ensures !panicked ==> (post.Some? <==> Blame.NoneGood(last3))
    ensures post.Some? ==> && Commits.Last3Commiters(cfg.repositories, github).Some?
                           && post.value == SteadyPost(cfg, lastBuild, testResult, Commits.Last3Commiters(cfg.repositories, github).value)
  {
    var blame := Blame.ReduceBlame(last3);
    var msgTestResults := TestReport.CollectTestLines(lastBuild, testResult);
    panicked, post := false, None;
    if blame {
      var commitsPanicked, commitsMsg, failed := Commits.GetLast3Commiters(cfg.repositories, github);
      if commitsPanicked {
        return true, None;
      }
      var p := Notify.ComposeSteadyPost(cfg.botUserId, cfg.channelId, msgTestResults, Commits.CommitReport(commitsMsg, failed));
      post := Some(p);
    }
  }

  /** The flags gathered by the sampling loop, whichever way it left, are the sample. */
  lemma SampleIsPrefix(builds: seq<Build>, n: nat)
    requires n == |builds| <= Blame.WINDOW || n == Blame.WINDOW <= |builds|
    ensures Blame.Outcomes(builds[..n]) == Blame.Sample(builds)
  {
    assert n == |builds| ==> builds[..n] == builds;
  }
}
