/** The posts the watcher sends to its channel. */
module Notify {
  import opened Text
  import Commits

  const BLAME_USERNAME := "Burnning Jenkins"
  const BLAME_ICON_URL := "https://raw.githubusercontent.com/jenkins-infra/jenkins.io/master/content/images/logos/fire/fire.png"

  /** The whole text of a post made on the first cycle. */
  const BOOTSTRAP_MESSAGE := "last build 3 build failed, please check"

  /** Set when the commits could not be fetched, and always replaced right after. */
  const APOLOGY := "The last three builds on Jenkins failed, please check the commits. I was unable to get the information for you. Sorry."

  /** A chat post: author, channel, text and the properties that override the author's identity. */
  datatype Post = Post(userId: string, channelId: string, message: string, props: map<string, string>)

  /** The identity override of a blame post. */
  function BlameProps(): map<string, string> {
    map["override_username" := BLAME_USERNAME, "override_icon_url" := BLAME_ICON_URL, "from_webhook" := "true"]
  }

  /** The first-cycle post: fixed text, no properties. */
  function BootstrapPost(botUserId: string, channelId: string): Post {
    Post(botUserId, channelId, BOOTSTRAP_MESSAGE, map[])
  }

  /** The body a later cycle posts: the test lines, a blank line and the commits, or the commits alone. */
  function SteadyMessage(testLines: seq<string>, report: Commits.CommitReport): string {
    if |testLines| > 0 then Join(testLines, "\n") + "\n\n" + report.text else report.text
  }

  /** Builds the blame post as the watcher does, message assigned twice when the commits failed. */
  method ComposeSteadyPost(botUserId: string, channelId: string, testLines: seq<string>, report: Commits.CommitReport)
    returns (post: Post)
    ensures post == Post(botUserId, channelId, SteadyMessage(testLines, report), BlameProps())
  {
    post := Post(botUserId, channelId, "", BlameProps());
    if report.failed {
      post := post.(message := APOLOGY);
    }
    if |testLines| > 0 {
      var testResultMsg := Join(testLines, "\n");
      post := post.(message := testResultMsg + "\n\n" + report.text);
    } else {
      post := post.(message := report.text);
    }
  }

  /** The apology is not empty and ends in a full stop. */
  lemma ApologyEnd()
    ensures |APOLOGY| > 0 && APOLOGY[|APOLOGY| - 1] == '.'
  {
  }

  /**
   * Whatever the test lines and the commit fetches, the apology text never reaches
   * the channel: the body is empty or ends in a character the apology does not end in.
   */
  lemma ApologyNeverSent(lines: seq<string>, repositories: string, github: Commits.GitHub)
    requires Commits.Last3Commiters(repositories, github).Some?
    ensures SteadyMessage(lines, Commits.Last3Commiters(repositories, github).value) != APOLOGY
  {
    var report := Commits.Last3Commiters(repositories, github).value;
    var message := SteadyMessage(lines, report);
    Commits.ReportTextEnd(repositories, github);
    ApologyEnd();
    if report.text != "" {
      assert message[|message| - 1] == report.text[|report.text| - 1];
    } else if |lines| > 0 {
      assert message[|message| - 1] == '\n';
    }
  }

  /**
   * A failed commit fetch leaves nothing in its place: the body is the test lines
   * followed by a blank line, or the empty text when there are no test lines.
   */
  lemma FailedCommitsLeaveNoExplanation(testLines: seq<string>, repositories: string, github: Commits.GitHub)
    requires Commits.Last3Commiters(repositories, github).Some?
    requires Commits.Last3Commiters(repositories, github).value.failed
    ensures var report := Commits.Last3Commiters(repositories, github).value;
      && (|testLines| == 0 ==> SteadyMessage(testLines, report) == "")
      && (|testLines| > 0 ==> SteadyMessage(testLines, report) == Join(testLines, "\n") + "\n\n")
  {
    Commits.ReportTextEnd(repositories, github);
  }
}
