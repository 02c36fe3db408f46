/**
 * What a cycle of the build watcher promises, stated on the Cycle function that
 * BuildWatcher.CheckJenkinsJob is proved to follow.
 */
module WatcherFacts {
  import opened Wrappers
  import opened Jenkins
  import Decimal
  import Blame
  import TestReport
  import Commits
  import Notify
  import opened Watcher

  /**
   * First cycle: the newest listed id is stored as decimal text that reads back as
   * that id, and the fixed alert is posted exactly when none of the first three
   * listed builds is good. Whether the newest build is still running is not looked at.
   */
  lemma BootstrapRecordsNewest(ci: Snapshot, cfg: Config, github: Commits.GitHub)
    requires ci.clientOk && ci.listing.Some? && |ci.listing.value| > 0
    ensures var r, newest := Cycle(None, ci, cfg, github), ci.listing.value[0];
      && r.path == Bootstrapped
      && r.marker == Some(Decimal.Itoa(newest.number))
      && Decimal.ParseInt(r.marker.value) == Some(newest.number)
  {
    Decimal.ItoaRoundTrip(ci.listing.value[0].number);
  }

  /** First cycle: the alert goes out exactly when none of the first three listed builds (or all, if fewer) is good. */
  lemma BootstrapAlertIff(ci: Snapshot, cfg: Config, github: Commits.GitHub)
    requires ci.clientOk && ci.listing.Some?
    ensures var r, builds := Cycle(None, ci, cfg, github), ci.listing.value;
      && (r.post.Some? <==> forall i :: 0 <= i < |builds| && i < Blame.WINDOW ==> !builds[i].isGood)
      && (r.post.Some? ==> r.post.value.message == Notify.BOOTSTRAP_MESSAGE && r.post.value.props == map[])
  {
    Blame.BlameOfSample(ci.listing.value);
  }

  /** First cycle, listing failed: the process stops with nothing stored and nothing posted. */
  lemma BootstrapListFailure(ci: Snapshot, cfg: Config, github: Commits.GitHub)
    requires ci.clientOk && ci.listing.None?
    ensures Cycle(None, ci, cfg, github) == CycleResult(BootstrapListFailed, None, None)
  {
  }

  /**
   * Later cycle with the marker holding the text of build number `seen`: the cycle
   * ends at once exactly when that number is the latest build's or the latest build
   * is running, and then the marker stays and nothing is posted.
   */
  lemma SkipIff(seen: int, ci: Snapshot, cfg: Config, github: Commits.GitHub)
    requires ci.clientOk && ci.latest.Some?
    ensures var r, last := Cycle(Some(Decimal.Itoa(seen)), ci, cfg, github), ci.latest.value;
      && (r.path == AlreadySeen <==> seen == last.number || last.isRunning)
      && (r.path == AlreadySeen ==> r.marker == Some(Decimal.Itoa(seen)) && r.post.None?)
  {
    Decimal.ItoaInjective(seen, ci.latest.value.number);
  }

  /**
   * Later cycle past the skip test, with a non-empty listing: a running newest build
   * defers everything; otherwise the decimal text of its id becomes the marker, reading
   * back as that id.
   */
  lemma SteadyRecordsNewest(seen: string, ci: Snapshot, cfg: Config, github: Commits.GitHub)
    requires ci.clientOk && ci.latest.Some? && ci.listing.Some? && |ci.listing.value| > 0
    requires seen != Decimal.Itoa(ci.latest.value.number) && !ci.latest.value.isRunning
    ensures var r, newest := Cycle(Some(seen), ci, cfg, github), ci.listing.value[0];
      && (newest.isRunning ==> r == CycleResult(NewestRunning, Some(seen), None))
      && (!newest.isRunning ==>
            && r.path in {Evaluated, Panicked}
            && r.marker == Some(Decimal.Itoa(newest.number))
            && Decimal.ParseInt(r.marker.value) == Some(newest.number))
  {
    Decimal.ItoaRoundTrip(ci.listing.value[0].number);
  }

  /**
   * Later cycle that evaluates: the post goes out exactly when none of the first three
   * listed builds is good; it carries the identity override, the failing-test lines of
   * the latest build and the commit report, and is never the apology text.
   */
  lemma SteadyPostIff(seen: string, ci: Snapshot, cfg: Config, github: Commits.GitHub)
    requires ci.clientOk
    requires Cycle(Some(seen), ci, cfg, github).path == Evaluated
    ensures ci.latest.Some? && ci.listing.Some?
    ensures var r, builds := Cycle(Some(seen), ci, cfg, github), ci.listing.value;
      && (r.post.Some? <==> forall i :: 0 <= i < |builds| && i < Blame.WINDOW ==> !builds[i].isGood)
      && (r.post.Some? ==>
            && Commits.Last3Commiters(cfg.repositories, github).Some?
            && r.post.value.props == Notify.BlameProps()
            && r.post.value.message == Notify.SteadyMessage(
                 TestReport.TestLines(ci.latest.value, ci.testResult),
                 Commits.Last3Commiters(cfg.repositories, github).value)
            && r.post.value.message != Notify.APOLOGY)
  {
    var r := Cycle(Some(seen), ci, cfg, github);
    var report := Commits.Last3Commiters(cfg.repositories, github);
    assert r.post.Some? <==> Blamed(ci.listing.value);
    assert r.post.Some? ==> report.Some? && r.post.value == SteadyPost(cfg, ci.latest.value, ci.testResult, report.value);
    Blame.BlameOfSample(ci.listing.value);
    if report.Some? {
      Notify.ApologyNeverSent(TestReport.TestLines(ci.latest.value, ci.testResult), cfg.repositories, github);
    }
  }

  /**
   * A later cycle that blames while some configured entry lacks '/' panics in the commit
   * loop after the newest id was stored: nothing is posted, and while the latest build
   * is still that newest one, the next cycle skips it, so its failure is not reported.
   */
  lemma PanicSwallowsBuild(seen: string, ci: Snapshot, cfg: Config, github: Commits.GitHub)
    requires ci.clientOk
    requires Cycle(Some(seen), ci, cfg, github).path == Panicked
    ensures ci.latest.Some? && ci.listing.Some?
    ensures var r, builds := Cycle(Some(seen), ci, cfg, github), ci.listing.value;
      && r.post.None?
      && (|builds| > 0 ==> r.marker == Some(Decimal.Itoa(builds[0].number)))
      && (|builds| == 0 ==> r.marker == Some(seen))
      && !Commits.WellFormedRepoList(cfg.repositories)
      && (forall i :: 0 <= i < |builds| && i < Blame.WINDOW ==> !builds[i].isGood)
      && (|builds| > 0 && ci.latest.value.number == builds[0].number ==>
            Cycle(r.marker, ci, cfg, github).path == AlreadySeen)
  {
    Blame.BlameOfSample(ci.listing.value);
    if Commits.WellFormedRepoList(cfg.repositories) {
      Commits.WellFormedNeverPanics(cfg.repositories, github);
    }
  }

  /** Every way of ending early leaves the marker as it was and posts nothing. */
  lemma AbortsChangeNothing(stored: Option<string>, ci: Snapshot, cfg: Config, github: Commits.GitHub)
    ensures var r := Cycle(stored, ci, cfg, github);
      r.path !in {Bootstrapped, Evaluated, Panicked} ==> r.marker == stored && r.post.None?
  {
  }

  /**
   * The answers of one instant: a non-empty listing whose newest id is the latest
   * build's, whenever a listing is returned.
   */
  predicate Consistent(ci: Snapshot) {
    ci.listing.Some? ==>
      |ci.listing.value| > 0 && ci.latest.Some? && ci.latest.value.number == ci.listing.value[0].number
  }

  /**
   * Run twice on the same consistent answers, the second cycle posts nothing and
   * keeps the marker: a build is never reported twice.
   */
  lemma SecondCycleQuiet(stored: Option<string>, ci: Snapshot, cfg: Config, github: Commits.GitHub)
    requires Consistent(ci)
    ensures var r1 := Cycle(stored, ci, cfg, github);
      var r2 := Cycle(r1.marker, ci, cfg, github);
      r2.post.None? && r2.marker == r1.marker
  {
    var r1 := Cycle(stored, ci, cfg, github);
    if r1.path in {Bootstrapped, Evaluated, Panicked} {
      assert r1.marker == Some(Decimal.Itoa(ci.latest.value.number));
    } else {
      AbortsChangeNothing(stored, ci, cfg, github);
    }
  }

  /**
   * A job with no builds at all is alerted on every cycle: the first cycle stores
   * nothing and posts, so the next cycle sees no marker again and does the same.
   */
  lemma EmptyHistoryAlertsEveryCycle(ci: Snapshot, cfg: Config, github: Commits.GitHub)
    requires ci.clientOk && ci.listing == Some([])
    ensures var r := Cycle(None, ci, cfg, github);
      && r.marker.None?
      && r.post == Some(Notify.BootstrapPost(cfg.botUserId, cfg.channelId))
      && Cycle(r.marker, ci, cfg, github) == r
  {
    Blame.BlameOfSample([]);
  }

  /**
   * Builds older than the third listed one change nothing: the marker, the path and
   * the post are those of the first three builds alone.
   */
  lemma OnlySampledBuildsMatter(stored: Option<string>, ci: Snapshot, older: seq<Build>,
                                cfg: Config, github: Commits.GitHub)
    requires ci.listing.Some? && |ci.listing.value| >= Blame.WINDOW
    ensures Cycle(stored, ci.(listing := Some(ci.listing.value + older)), cfg, github) == Cycle(stored, ci, cfg, github)
  {
    var builds := ci.listing.value;
    Blame.SampleIgnoresOlder(builds, older);
    assert (builds + older)[0] == builds[0];
  }
}
