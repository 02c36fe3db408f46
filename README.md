# Build-watch engine of the Jenkins blame plugin, in Dafny

This project models the part of the Mattermost plugin that watches one Jenkins job and blames the
latest commits in a channel. It covers two functions of `server/plugin.go`:

- `checkJenkinsJob` runs on a timer. It keeps one marker in the plugin's key-value store
  (key `_JenkinsLastBuild`), which holds the decimal text of the last build it evaluated.
  - When no marker is stored, it stores the newest build id. It posts a fixed alert when
    none of the first three listed builds (or all of them, if fewer are listed) is good.
    An empty listing always posts.
  - Otherwise it fetches the latest build. It stops when the marker already names that
    build or the build is still running.
  - It also stops when the newest listed build is still running.
  - Otherwise it stores the newest id and judges the first three listed builds. When none
    of them (or none of all, if fewer are listed) is good, it posts a blame message under an
    overridden identity; an empty listing always blames. The message holds the failing tests
    of the latest build and the last three commits of each configured repository.
- `GetLast3Commiters` builds that commit report. A failed fetch for any repository makes the
  whole report fail. A configured entry without '/' makes it panic, because it indexes the
  second piece of the entry unchecked. The panic comes after the new marker was stored, so
  the cycle posts nothing, and while the latest build is still that build, the next cycle
  skips it (`WatcherFacts.PanicSwallowsBuild`).

Everything a cycle learns from Jenkins arrives as one `Jenkins.Snapshot` value. Everything it
learns from GitHub arrives as a `Commits.GitHub` map. A repository missing from the map stands
for a failed `ListCommits` call.

The modules:

| module | file | what it holds |
|---|---|---|
| `Wrappers` | `wrappers.dfy` | the `Option` type |
| `Decimal` | `decimal.dfy` | `strconv.Itoa`, and a decoder that reads the marker back |
| `Text` | `text.dfy` | `strings.Split` with a one-character separator, and `strings.Join` |
| `Jenkins` | `jenkins.dfy` | builds, test results and the snapshot of one cycle's Jenkins answers |
| `Blame` | `blame.dfy` | the three-build sample and its reduction to blame |
| `TestReport` | `test_report.dfy` | the failing-test lines |
| `Commits` | `commits.dfy` | `GetLast3Commiters` |
| `Notify` | `notify.dfy` | the two kinds of post |
| `Watcher` | `watcher.dfy` | one cycle as a function, `Cycle`, and the `BuildWatcher` class |
| `WatcherFacts` | `watcher_facts.dfy` | what a cycle promises, stated on `Cycle` |

In `BuildWatcher`, the `marker` field stands for the stored marker. `CheckJenkinsJob` and its
two paths, `Bootstrap` and `Steady`, are imperative methods. Their sampling loops write the
marker at the point where the source writes it, and each method is proved to follow `Cycle`.
The reduction to blame, the test-line collection and the commit collection are also loops in
the source, and each is proved equal to a pure definition.

Behaviour that the code has and the model keeps on purpose:

- When the commit fetch fails, the apology text is assigned and then always overwritten. It
  never reaches the channel (`Notify.ApologyNeverSent`). The body then holds only the test
  lines and a blank line, or nothing at all (`Notify.FailedCommitsLeaveNoExplanation`).
- If the first cycle fetches the build list and it comes back empty, nothing is stored and the
  alert is posted. The next cycle does the same again (`WatcherFacts.EmptyHistoryAlertsEveryCycle`).
- The first cycle stores the newest id even while that build is running. It also judges that
  build's outcome.
- The marker is compared as text with the decimal text of the latest build number. For a
  marker the plugin wrote, equal text means an equal number (`Decimal.ItoaInjective`).
- The code does not check that the marker only grows. The new marker is the newest listed id,
  whatever it is.
- Every commit line starts with the literal `1. `; the lines are not numbered
  (server/plugin.go:254).
- A failed build listing on the first cycle ends the process (server/plugin.go:112-115). The
  model records this as the `BootstrapListFailed` path, which stores nothing and posts nothing.

## Model

| member | source | states |
|---|---|---|
| `Decimal.NatText` | server/plugin.go:119 | the decimal digits of a natural number: at least one digit, all digits, and no leading zero unless the number is 0 |
| `Decimal.Itoa` | server/plugin.go:119 | `strconv.Itoa`: never empty, and starts with '-' exactly for negative numbers |
| `Decimal.ParseInt` | server/plugin.go:155 | a reference decoder used to state what the marker means; the program never decodes the marker (line 155 compares text). It succeeds only on non-empty text |
| `Decimal.NatTextValue` | server/plugin.go:119 | the digits of n have the value n |
| `Decimal.ItoaRoundTrip` | server/plugin.go:119-120 | the stored marker text decodes to exactly the build number written |
| `Decimal.ItoaInjective` | server/plugin.go:155 | two numbers have the same decimal text exactly when they are equal, so the textual skip test is a numeric one |
| `Text.Split` | server/plugin.go:244-246 | `strings.Split` with a one-character separator gives at least one piece |
| `Text.SplitPiecesFree` | server/plugin.go:244-246 | no piece holds the separator |
| `Text.SplitJoin` | server/plugin.go:244-246 | joining the pieces with the separator gives back the text |
| `Text.SplitPieces` | server/plugin.go:246-247 | there is a second piece exactly when the separator occurs, so `repoSplit[1]` exists exactly for entries holding '/' |
| `Text.SplitFirst` | server/plugin.go:246 | a separator-free prefix followed by the separator is split off as the first piece |
| `Text.SplitNone` | server/plugin.go:246 | text without the separator is a single piece |
| `Text.Join` | server/plugin.go:220 | `strings.Join`: the parts with the separator between each two; also used at line 261 |
| `Text.JoinEndsWithLast` | server/plugin.go:261 | a joined text ends with its last part |
| `Blame.Sample` | server/plugin.go:116-127 | the outcomes the sampling loop gathers: one per build for the first min(3, n) listed builds, each the build's `IsGood` |
| `Blame.OutcomesStep` | server/plugin.go:123 | appending one outcome extends the outcome list of a prefix by that build's flag |
| `Blame.ReduceBlame` | server/plugin.go:128-133 | the loop's blame is true exactly when no sampled outcome is good |
| `Blame.BlameOfSample` | server/plugin.go:116-133 | the sample is the first min(3, n) builds; blame holds exactly when none of those is good, and holds for an empty listing |
| `Blame.SampleIgnoresOlder` | server/plugin.go:124-126 | with at least three builds listed, older builds do not change the sample |
| `TestReport.HeaderLine` | server/plugin.go:193 | the first test line, naming the latest build's number and URL |
| `TestReport.CountLine` | server/plugin.go:194 | the second test line, with the fail and pass counts |
| `TestReport.CaseLine` | server/plugin.go:198 | the line of one failing case, with its name and status |
| `TestReport.CaseLines` | server/plugin.go:196-200 | the lines of one suite's failing cases, in order: one per case whose status is FAILED, REGRESSION or FAIL |
| `TestReport.SuiteLines` | server/plugin.go:195-201 | the failing-case lines of every suite, suite after suite |
| `TestReport.TestLines` | server/plugin.go:187-203 | the failing-test lines of the latest build: none when the test result is missing or has no failures |
| `TestReport.CollectTestLines` | server/plugin.go:187-203 | the loop over suites and cases gives exactly the failing-test lines of the latest build |
| `TestReport.AppendCaseLines` | server/plugin.go:196-200 | the inner loop appends exactly the lines of the failing cases of one suite, in order |
| `TestReport.CaseLinesStep` | server/plugin.go:196-199 | one more case adds its line exactly when its status is FAILED, REGRESSION or FAIL |
| `TestReport.SuiteLinesStep` | server/plugin.go:195-201 | one more suite adds the lines of its failing cases |
| `TestReport.CaseLinesAppend` | server/plugin.go:196-200 | the lines of two runs of cases are the lines of each, concatenated |
| `TestReport.SuiteLinesFlatten` | server/plugin.go:195-201 | the suite loop lists the failing cases of all suites flattened, in order |
| `TestReport.CaseLinesExact` | server/plugin.go:197-198 | a line is listed exactly when it is the line of some case with a failing status |
| `TestReport.CaseLinesCount` | server/plugin.go:197-198 | there is one line per failing case |
| `TestReport.TestLinesShape` | server/plugin.go:188-203 | no lines when the test result is missing or shows no failures; otherwise the header line with the build number and URL, the count line, then one line per failing case |
| `Commits.RepoLine` | server/plugin.go:251 | the line naming one configured repository entry |
| `Commits.CommitLine` | server/plugin.go:254 | the line of one commit: the literal `1. `, the author's login, the SHA and the link |
| `Commits.ParseRepo` | server/plugin.go:246-247 | the owner and name an entry is fetched under: its first two '/'-separated pieces |
| `Commits.Section` | server/plugin.go:251-258 | the block of one repository: its repository line, then the lines of its first min(3, n) commits |
| `Commits.Sections` | server/plugin.go:245-260 | how the loop over the entries ends: every block in order, a failed fetch, or a panic at an entry without '/' |
| `Commits.Last3Commiters` | server/plugin.go:235-262 | the report: none on a panic, the empty text and an error after a failed fetch, else the header and the blocks joined by newlines |
| `Commits.GetLast3Commiters` | server/plugin.go:235-262 | the loop panics exactly when `Last3Commiters` gives no report, and otherwise returns the report it defines |
| `Commits.AppendRepoBlocks` | server/plugin.go:245-260 | the loop over the entries panics, fails or completes exactly as `Sections` says, and on completion appends every block in order |
| `Commits.RepoBlock` | server/plugin.go:246-258 | one pass panics exactly for an entry without '/', fails exactly when that entry's fetch fails, and otherwise gives the entry's block |
| `Commits.FirstCommitLines` | server/plugin.go:253-258 | the inner loop gives one line per commit for the first min(3, n) commits, in order |
| `Commits.SectionsExtend` | server/plugin.go:245-251 | after entries that all went through, one more entry panics when it lacks '/', fails when its fetch fails, and adds its block otherwise |
| `Commits.SectionsStop` | server/plugin.go:247-250 | once the loop has panicked or failed, the later entries change nothing |
| `Commits.SectionsCompleteIff` | server/plugin.go:245-250 | the loop lists every block exactly when every entry holds '/' and can be fetched |
| `Commits.FirstStopDecides` | server/plugin.go:246-250 | the first entry that stops the loop decides the outcome: a panic when it lacks '/', an error when its fetch fails, whatever follows |
| `Commits.SlashedNeverPanic` | server/plugin.go:246-247 | entries that all hold '/' never make the loop panic |
| `Commits.WellFormedNeverPanics` | server/plugin.go:244-247 | a configured list whose every entry holds '/' always gives a report |
| `Commits.SectionsAppend` | server/plugin.go:245-260 | the blocks of a concatenated list are the blocks of each part, concatenated |
| `Commits.SectionShape` | server/plugin.go:251-258 | a repository block is its repository line followed by the lines of its first min(3, n) commits |
| `Commits.ParseRepoRoundTrip` | server/plugin.go:246-247 | an entry `owner/name` without a further '/' is fetched as repository `name` of `owner` |
| `Commits.SectionsLinesEnd` | server/plugin.go:251-254 | every repository and commit line ends in a backquote or a closing parenthesis |
| `Commits.ReportOutcome` | server/plugin.go:243-261 | a returned report fails exactly when the loop stopped at a failed fetch, and then its text is empty; otherwise every entry held '/', and the text starts with the header and ends with the last character of a header, repository or commit line |
| `Commits.ReportTextEnd` | server/plugin.go:249-261 | a returned report's text is empty when it failed, and otherwise is non-empty and ends in a backquote, a closing parenthesis or an asterisk |
| `Notify.BlameProps` | server/plugin.go:209-213 | the identity override: the blame user name, the blame icon and the webhook flag |
| `Notify.BootstrapPost` | server/plugin.go:136-140 | the first-cycle alert: the bot, the channel, the fixed text and no properties |
| `Notify.SteadyMessage` | server/plugin.go:219-224 | the blame body: the test lines joined by newlines, a blank line and the commit text, or the commit text alone when there are no test lines |
| `Notify.ComposeSteadyPost` | server/plugin.go:205-224 | the blame post has the bot as author, the channel, the identity override, and the body `SteadyMessage` gives (test lines, a blank line and the commits, or only the commits), whatever the commit fetch did |
| `Notify.ApologyNeverSent` | server/plugin.go:215-224 | whatever the test lines and fetches are, the posted body is never the apology text |
| `Notify.FailedCommitsLeaveNoExplanation` | server/plugin.go:215-224 | after a failed commit fetch the body is empty, or the test lines followed by a blank line |
| `Watcher.MarkerFor` | server/plugin.go:118-120 | the marker after a listing is judged: the decimal text of the newest listed id, or the stored marker when nothing is listed; also lines 172-173 |
| `Watcher.SteadyPost` | server/plugin.go:206-224 | the blame post of a later cycle: the bot, the channel, the identity override, and the test lines of the latest build with the commit text as body |
| `Watcher.Cycle` | server/plugin.go:93-233 | one cycle: give up when the client fails, then the first-cycle path with no marker, the later-cycle path otherwise |
| `Watcher.BootstrapCycle` | server/plugin.go:109-147 | the first cycle: stop on a failed listing, else store the newest id and post the alert when blamed |
| `Watcher.SteadyCycle` | server/plugin.go:149-233 | a later cycle: skip, defer or evaluate; an evaluating cycle stores the newest id, and when blamed it posts or panics in the commit loop |
| `Watcher.BuildWatcher.constructor` | server/plugin.go:108 | the watcher starts with its configuration and the marker read from the store |
| `Watcher.BuildWatcher.CheckJenkinsJob` | server/plugin.go:93-233 | a cycle returns the result `Cycle` defines and leaves the marker that result names |
| `Watcher.BuildWatcher.Bootstrap` | server/plugin.go:109-147 | the first-cycle path stores the newest id, judges the first three builds and posts the fixed alert when blamed |
| `Watcher.BuildWatcher.Steady` | server/plugin.go:149-230 | the later-cycle path skips, defers, evaluates or panics as `SteadyCycle` defines, and writes the marker only when it evaluates or panics |
| `Watcher.Judge` | server/plugin.go:180-224 | it panics exactly when blamed and the commit loop panics; otherwise a post is made exactly when no sampled outcome is good, and it is the blame post for the latest build |
| `Watcher.SampleIsPrefix` | server/plugin.go:164-179 | the outcomes the sampling loop gathers, whichever way the loop ends, are the sample of the listing |
| `WatcherFacts.BootstrapRecordsNewest` | server/plugin.go:117-121 | the first cycle stores the newest listed id as text that decodes to that id |
| `WatcherFacts.BootstrapAlertIff` | server/plugin.go:128-147 | the first cycle posts exactly when none of the first three listed builds (or all, if fewer) is good, so an empty listing always posts; the post is the fixed alert and has no properties |
| `WatcherFacts.BootstrapListFailure` | server/plugin.go:111-115 | a failed listing on the first cycle stores nothing and posts nothing |
| `WatcherFacts.SkipIff` | server/plugin.go:155-157 | with a marker the plugin wrote, a later cycle stops at once exactly when the marker names the latest build or that build is running; it then keeps the marker and posts nothing |
| `WatcherFacts.SteadyRecordsNewest` | server/plugin.go:165-174 | past the skip test, a running newest build defers the cycle and leaves the marker; otherwise the cycle evaluates or panics, and the marker becomes the decimal text of the newest id, which decodes to it |
| `WatcherFacts.SteadyPostIff` | server/plugin.go:180-230 | an evaluating cycle posts exactly when none of the first three listed builds (or all, if fewer) is good; the post has the identity override and the test-line and commit body, and is never the apology |
| `WatcherFacts.PanicSwallowsBuild` | server/plugin.go:172-173 | a cycle that panics in the commit loop was blamed and has an entry without '/'; it posts nothing but has already stored the newest id, so while the latest build is still that build, the next cycle skips it |
| `WatcherFacts.AbortsChangeNothing` | server/plugin.go:93-233 | every exit other than the first-cycle store, an evaluation or a panic in the commit loop keeps the marker and posts nothing |
| `WatcherFacts.SecondCycleQuiet` | server/plugin.go:155-157 | when the listing agrees with the latest build, a second cycle on the same answers posts nothing and keeps the marker |
| `WatcherFacts.EmptyHistoryAlertsEveryCycle` | server/plugin.go:116-147 | with an empty listing, the first cycle stores nothing and posts the alert, so every later cycle does the same |
| `WatcherFacts.OnlySampledBuildsMatter` | server/plugin.go:124-126 | builds after the third listed one change neither the marker nor the post |

## Left out

- Plugin activation (`OnActivate`), team, user and channel lookup or creation: not part of the
  watched cycle. The bot user id and the channel id are configuration values.
- The 20-minute cron schedule and the goroutine it runs in are left out. So is the race
  between two overlapping cycles on the marker: the model runs one cycle at a time.
- Building the Jenkins and GitHub clients, the OAuth token and the network are left out. The
  answers of `Init`, `GetJob`, `GetLastBuild`, `GetAllBuildIds`, `GetBuild`, `GetResultSet` and
  `ListCommits` are parameters of a cycle.
- Errors from `GetBuild` are ignored by the code. The model assumes every listed build
  resolves, so the snapshot lists builds rather than ids.
- An error from the key-value read is treated as an absent marker. The key-value write is
  assumed to succeed.
- Logging, `fmt.Println` and the failure of `CreatePost` are left out. A failed post ends the
  cycle after everything else has happened, so it changes nothing the model records.
- `os.Exit(1)` after a failed first-cycle listing is modelled as the end of the cycle
  (`BootstrapListFailed`). The end of the process itself is not modelled.
- The panic on a configured entry without '/' is modelled as the `Panicked` end of the cycle,
  with the marker already written. What the panic does to the plugin process is not modelled.
- `Commits.GetLast3Commiters` does not keep the text of the error it returns. Only the
  failure is recorded, because the caller discards the text.
- A commit without an author has an empty login, because Go's `GetLogin` is safe on nil. A
  commit without a SHA would make Go panic. Commits are modelled with both fields present.
- `ListCommits` returns only its first page. Only the first three commits are used, so the
  page size is not modelled.
- The configuration lock and the reading of configuration values are left out. A cycle reads
  one fixed `Config`.
- Build numbers are unbounded integers. Go's `int64` build number is printed as `int`, which
  does not truncate on 64-bit platforms, so no wrap-around is modelled.
