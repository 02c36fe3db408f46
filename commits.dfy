/**
 * The commit-blame text: for every configured repository, in configuration order,
 * a repository line and the first three commits GitHub lists for it.
 */
module Commits {
  import opened Wrappers
  import opened Text

  datatype Commit = Commit(authorLogin: string, sha: string, htmlUrl: string)

  /** owner/name of one configured repository. */
  datatype RepoRef = RepoRef(owner: string, name: string)

  /**
   * What ListCommits returns for each repository; a repository missing from the
   * map is one whose ListCommits call returned an error.
   */
  type GitHub = map<RepoRef, seq<Commit>>

  /** The text and whether an error was returned; on error the text is empty. */
  datatype CommitReport = CommitReport(text: string, failed: bool)

  const HEADER := "**Last 3 Commiters for the following Repositories:**"

  /** At most this many commits are listed per repository. */
  const PER_REPO: nat := 3

  function RepoLine(entry: string): string {
    "**Repository**: `" + entry + "`"
  }

  /** Every commit line is numbered "1."; the list is rendered as Markdown. */
  function CommitLine(c: Commit): string {
    "1. @" + c.authorLogin + " - `SHA`:[" + c.sha + "](" + c.htmlUrl + ")"
  }

  /** The configured list: comma-separated entries, each holding a '/'. */
  predicate WellFormedRepoList(repositories: string) {
    AllHaveSlash(Split(repositories, ','))
  }

  /** The owner is the text before the first '/', the name the text up to the next one. */
  function ParseRepo(entry: string): RepoRef
    requires '/' in entry
  {
    SplitPieces(entry, '/');
    var pieces := Split(entry, '/');
    RepoRef(pieces[0], pieces[1])
  }

  /** The lines of the first `n` commits, in listing order. */
  function CommitLines(commits: seq<Commit>, n: nat): seq<string>
    requires n <= |commits|
  {
    seq(n, i requires 0 <= i < n => CommitLine(commits[i]))
  }

  /** One repository's block: its line, then at most three commit lines. */
  function Section(entry: string, commits: seq<Commit>): seq<string> {
    [RepoLine(entry)] + CommitLines(commits, if |commits| < PER_REPO then |commits| else PER_REPO)
  }

  predicate AllHaveSlash(entries: seq<string>) {
    forall i :: 0 <= i < |entries| ==> '/' in entries[i]
  }

  /** How the loop over the entries ends: every block listed, a failed fetch, or a panic. */
  datatype LoopEnd = Completed(lines: seq<string>) | FetchFailed | Panicked

  /** The entry makes the loop stop: no second piece to index, or its fetch fails. */
  predicate Stops(entry: string, github: GitHub) {
    '/' !in entry || ParseRepo(entry) !in github
  }

  /**
   * The loop over the entries, in order: each entry without '/' panics, each failed
   * fetch returns an error, and otherwise the entry's block is appended.
   */
  function Sections(entries: seq<string>, github: GitHub): LoopEnd {
    if |entries| == 0 then Completed([])
    else
      var entry := entries[|entries| - 1];
      match Sections(entries[..|entries| - 1], github)
      case Completed(before) =>
        if '/' !in entry then Panicked
        else if ParseRepo(entry) !in github then FetchFailed
        else Completed(before + Section(entry, github[ParseRepo(entry)]))
      case other => other
  }

  /**
   * GetLast3Commiters as a value: None when it panics on an entry without '/',
   * otherwise the joined lines, or the empty text and an error.
   */
  function Last3Commiters(repositories: string, github: GitHub): Option<CommitReport> {
    match Sections(Split(repositories, ','), github)
    case Panicked => None
    case FetchFailed => Some(CommitReport("", true))
    case Completed(lines) => Some(CommitReport(Join([HEADER] + lines, "\n"), false))
  }

  /**
   * The loop over the configured repositories, in order, giving up at the first failed
   * fetch; `panicked` reports the out-of-range index on an entry without '/'.
   */
  method GetLast3Commiters(repositories: string, github: GitHub) returns (panicked: bool, text: string, failed: bool)
    ensures panicked <==> Last3Commiters(repositories, github).None?
    ensures !panicked ==> Last3Commiters(repositories, github).value == CommitReport(text, failed)
  {
    var msg := [HEADER];
    var repositoryList := Split(repositories, ',');
    panicked, failed, msg := AppendRepoBlocks(msg, repositoryList, github);
    if panicked || failed {
      return panicked, "", failed;
    }
    return false, Join(msg, "\n"), false;
  }

  /**
   * The loop body run over every entry in order, after the lines already in `before`.
   * It stops with `panicked` at an entry without '/', or with `failed` at a fetch that
   * fails, whichever comes first; otherwise it appends every block.
   */
  method AppendRepoBlocks(before: seq<string>, entries: seq<string>, github: GitHub)
    returns (panicked: bool, failed: bool, msg: seq<string>)
    ensures panicked <==> Sections(entries, github).Panicked?
    ensures failed <==> Sections(entries, github).FetchFailed?
    ensures Sections(entries, github).Completed? ==> msg == before + Sections(entries, github).lines
  {
    msg := before;
    ghost var done: seq<string> := [];
    assert entries[..0] == [];
    for i := 0 to |entries|
      invariant Sections(entries[..i], github).Completed? && Sections(entries[..i], github).lines == done
      invariant msg == before + done
    {
      var entryPanicked, entryFailed, block := RepoBlock(entries[i], github);
      SectionsExtend(entries, i, github);
      if entryPanicked || entryFailed {
        SectionsStop(entries, i + 1, github);
        return entryPanicked, entryFailed, msg;
      }
      msg := msg + block;
      done := done + block;
    }
    assert entries[..|entries|] == entries;
    return false, false, msg;
  }

  /**
   * One pass of the loop: split the entry at '/', fetch its commits and give its block.
   * `panicked` when there is no second piece to index; `failed` when the fetch fails.
   */
  method RepoBlock(entry: string, github: GitHub) returns (panicked: bool, failed: bool, block: seq<string>)
    ensures panicked <==> '/' !in entry
    ensures failed <==> '/' in entry && ParseRepo(entry) !in github
    ensures !panicked && !failed ==> block == Section(entry, github[ParseRepo(entry)])
  {
    var repoSplit := Split(entry, '/');
    SplitPieces(entry, '/');
    if |repoSplit| < 2 {
      return true, false, [];
    }
    var ref := RepoRef(repoSplit[0], repoSplit[1]);
    if ref !in github {
      return false, true, [];
    }
    var masterCommits := github[ref];
    var commitLines := FirstCommitLines(masterCommits);
    return false, false, [RepoLine(entry)] + commitLines;
  }

  /** The inner loop: one line per listed commit, leaving after the third. */
  method FirstCommitLines(commits: seq<Commit>) returns (lines: seq<string>)
    ensures |lines| == if |commits| < PER_REPO then |commits| else PER_REPO
    ensures forall j :: 0 <= j < |lines| ==> lines[j] == CommitLine(commits[j])
    ensures lines == CommitLines(commits, |lines|)
  {
    lines := [];
    var i := 0;
    while i < |commits|
      invariant i <= |commits| && i < PER_REPO
      invariant lines == CommitLines(commits, i)
    {
      lines := lines + [CommitLine(commits[i])];
      if i == 2 {
        break;
      }
      i := i + 1;
    }
  }

  /** After entries that all went through, entry i panics, fails, or adds its block. */
  lemma SectionsExtend(entries: seq<string>, i: nat, github: GitHub)
    requires i < |entries|
    requires Sections(entries[..i], github).Completed?
    ensures '/' !in entries[i] ==> Sections(entries[..i + 1], github).Panicked?
    ensures '/' in entries[i] && ParseRepo(entries[i]) !in github ==> Sections(entries[..i + 1], github).FetchFailed?
    ensures !Stops(entries[i], github) ==>
      && Sections(entries[..i + 1], github).Completed?
      && Sections(entries[..i + 1], github).lines
         == Sections(entries[..i], github).lines + Section(entries[i], github[ParseRepo(entries[i])])
  {
    assert entries[..i + 1][..i] == entries[..i];
  }

  /** Once the loop has stopped, the entries after it change nothing. */
  lemma {:induction false} SectionsStop(entries: seq<string>, k: nat, github: GitHub)
    requires k <= |entries|
    requires !Sections(entries[..k], github).Completed?
    ensures Sections(entries, github) == Sections(entries[..k], github)
  {
    if k < |entries| {
      var init := entries[..|entries| - 1];
      assert init[..k] == entries[..k];
      SectionsStop(init, k, github);
    } else {
      assert entries[..k] == entries;
    }
  }

  /** The loop lists every block exactly when no entry stops it. */
  lemma {:induction false} SectionsCompleteIff(entries: seq<string>, github: GitHub)
    ensures Sections(entries, github).Completed? <==> forall i :: 0 <= i < |entries| ==> !Stops(entries[i], github)
  {
    if |entries| > 0 {
      var init := entries[..|entries| - 1];
      SectionsCompleteIff(init, github);
      assert forall i :: 0 <= i < |init| ==> init[i] == entries[i];
    }
  }

  /**
   * The first entry that stops the loop decides how it ends: a panic when it has no
   * '/', an error when its fetch fails.
   */
  lemma FirstStopDecides(entries: seq<string>, i: nat, github: GitHub)
    requires i < |entries| && Stops(entries[i], github)
    requires forall j :: 0 <= j < i ==> !Stops(entries[j], github)
    ensures Sections(entries, github) == if '/' !in entries[i] then Panicked else FetchFailed
  {
    var prefix := entries[..i];
    SectionsCompleteIff(prefix, github);
    assert forall j :: 0 <= j < i ==> prefix[j] == entries[j];
    SectionsExtend(entries, i, github);
    SectionsStop(entries, i + 1, github);
  }

  /** Entries that all hold '/' never make the loop panic. */
  lemma {:induction false} SlashedNeverPanic(entries: seq<string>, github: GitHub)
    requires AllHaveSlash(entries)
    ensures !Sections(entries, github).Panicked?
  {
    if |entries| > 0 {
      var init := entries[..|entries| - 1];
      assert forall i :: 0 <= i < |init| ==> init[i] == entries[i];
      SlashedNeverPanic(init, github);
    }
  }

  /** A configured list whose every entry holds '/' always gives a report. */
  lemma WellFormedNeverPanics(repositories: string, github: GitHub)
    requires WellFormedRepoList(repositories)
    ensures Last3Commiters(repositories, github).Some?
  {
    SlashedNeverPanic(Split(repositories, ','), github);
  }

  /** Blocks follow configuration order: the blocks of a + b are a's blocks, then b's. */
  lemma {:induction false} SectionsAppend(a: seq<string>, b: seq<string>, github: GitHub)
    requires Sections(a, github).Completed? && Sections(b, github).Completed?
    ensures Sections(a + b, github).Completed?
    ensures Sections(a + b, github).lines == Sections(a, github).lines + Sections(b, github).lines
  {
    if |b| == 0 {
      assert a + b == a;
    } else {
      var b' := b[..|b| - 1];
      assert (a + b)[..|a + b| - 1] == a + b';
      SectionsAppend(a, b', github);
    }
  }

  /** One repository's block: its line, then the first min(3, |commits|) commits, in order. */
  lemma SectionShape(entry: string, commits: seq<Commit>)
    ensures var block := Section(entry, commits);
      && |block| == 1 + (if |commits| < PER_REPO then |commits| else PER_REPO)
      && block[0] == RepoLine(entry)
      && forall j :: 1 <= j < |block| ==> block[j] == CommitLine(commits[j - 1])
  {
  }

  /** An entry owner/name with no further '/' names that repository. */
  lemma ParseRepoRoundTrip(owner: string, name: string)
    requires '/' !in owner && '/' !in name
    ensures '/' in owner + "/" + name
    ensures ParseRepo(owner + "/" + name) == RepoRef(owner, name)
  {
    var entry := owner + "/" + name;
    assert entry[|owner|] == '/';
    SplitFirst(owner, '/', name);
    SplitNone(name, '/');
  }

  /** Every repository and commit line ends in a backquote or a closing parenthesis. */
  predicate EndsLine(line: string) {
    |line| > 0 && (line[|line| - 1] == '`' || line[|line| - 1] == ')')
  }

  lemma {:induction false} SectionsLinesEnd(entries: seq<string>, github: GitHub)
    requires Sections(entries, github).Completed?
    ensures forall k :: 0 <= k < |Sections(entries, github).lines| ==> EndsLine(Sections(entries, github).lines[k])
  {
    if |entries| > 0 {
      var init := entries[..|entries| - 1];
      SectionsLinesEnd(init, github);
      var entry := entries[|entries| - 1];
      var block := Section(entry, github[ParseRepo(entry)]);
      assert forall k :: 0 <= k < |block| ==> EndsLine(block[k]);
    }
  }

  /**
   * When the loop returns, the report fails exactly when it stopped at a failed fetch,
   * and then its text is empty; otherwise every entry held a '/', and the text begins
   * with the header line and ends with the last character of a header, repository or
   * commit line.
   */
  lemma ReportOutcome(repositories: string, github: GitHub)
    requires Last3Commiters(repositories, github).Some?
    ensures var entries, report := Split(repositories, ','), Last3Commiters(repositories, github).value;
      && (report.failed <==> Sections(entries, github).FetchFailed?)
      && (report.failed ==> report.text == "")
      && (!report.failed ==> WellFormedRepoList(repositories))
      && (!report.failed ==> HEADER <= report.text)
      && (!report.failed ==> |report.text| > 0 && report.text[|report.text| - 1] in {'`', ')', '*'})
  {
    var entries := Split(repositories, ',');
    match Sections(entries, github)
    case FetchFailed =>
    case Completed(lines) =>
      SectionsCompleteIff(entries, github);
      var parts := [HEADER] + lines;
      JoinEndsWithLast(parts, "\n");
      SectionsLinesEnd(entries, github);
      var last := parts[|parts| - 1];
      assert last == HEADER || last == lines[|lines| - 1];
      assert last[|last| - 1] in {'`', ')', '*'};
  }

  /** A returned report's text: empty when it failed, otherwise ending in a line's last character. */
  lemma ReportTextEnd(repositories: string, github: GitHub)
    requires Last3Commiters(repositories, github).Some?
    ensures var report := Last3Commiters(repositories, github).value;
      && (report.failed ==> report.text == "")
      && (!report.failed ==> |report.text| > 0 && report.text[|report.text| - 1] in {'`', ')', '*'})
  {
    ReportOutcome(repositories, github);
  }
}
