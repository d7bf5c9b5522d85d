/** The GitHub channel (agents-monitor/lib/notifiers/github-notifier.js): the
    issue title and labels, the `owner/repo` checks, and a send that either
    reports that issue creation is switched off or, the API call being a
    placeholder in the source, creates issue 123 on its first attempt. */
module GitHubNotifiers {
  import opened Common
  import opened Text
  import opened AlertHistory
  import opened NotifierBase

  const PlaceholderIssueNumber: int := 123

  /** The issue's title and labels; its markdown body (details, message and
      the metrics as JSON) is not modelled. */
  datatype Issue = Issue(title: string, labels: seq<string>)

  /** `formatGitHubIssue(alert)` under the given label prefix. */
  function FormatGitHubIssue(labelPrefix: string, a: Alert): Issue {
    Issue(
      "[" + Upper(a.severity) + "] " + a.name + " - " + a.agentName,
      [labelPrefix + ":" + a.severity, "alert", "agents-monitor"])
  }

  /** The title is the upper-cased severity in brackets, then exactly the
      alert name, ` - ` and the agent name; there are exactly three labels, the first of which tags
      the severity under the prefix, and the other two are fixed. */
  lemma IssueShape(labelPrefix: string, a: Alert)
    ensures var issue := FormatGitHubIssue(labelPrefix, a);
      && StartsWith(issue.title, "[" + Upper(a.severity) + "] ")
      && Contains(issue.title, a.name)
      && Contains(issue.title, " - " + a.agentName)
      && issue.title[|"[" + Upper(a.severity) + "] "|..] == a.name + " - " + a.agentName
      && |issue.labels| == 3
      && StartsWith(issue.labels[0], labelPrefix + ":")
      && issue.labels[0][|labelPrefix| + 1..] == a.severity
      && issue.labels[1..] == ["alert", "agents-monitor"]
  {
    var head := "[" + Upper(a.severity) + "] ";
    var title := FormatGitHubIssue(labelPrefix, a).title;
    assert title == head + a.name + (" - " + a.agentName);
    ContainsInfix(head, a.name, " - " + a.agentName);
    assert title == (head + a.name) + (" - " + a.agentName) + "";
    ContainsInfix(head + a.name, " - " + a.agentName, "");
    assert title == head + (a.name + " - " + a.agentName);
    assert (head + (a.name + " - " + a.agentName))[|head|..] == a.name + " - " + a.agentName;
  }

  datatype GitHubOptions = GitHubOptions(
    base: NotifierOptions,
    repo: Option<string>,
    autoCreateIssues: Option<bool>,
    labelPrefix: Option<string>)

  /** What a successful send resolves to. */
  datatype GitHubReceipt =
    | IssueCreated(issueNumber: int, repo: string, alertId: string)
    | CreationDisabled

  /** The GitHub validation: disabled first, then a missing or empty repo,
      then a repo without a `/`. */
  function ValidateGitHub(enabled: bool, repo: Option<string>): (o: Outcome<NotifierError>)
    ensures o.Pass? <==> enabled && StringGiven(repo) && '/' in repo.value
    ensures !enabled ==> o == Fail(NotEnabled)
    ensures enabled && !StringGiven(repo) ==> o == Fail(RepoNotConfigured)
    ensures enabled && StringGiven(repo) && '/' !in repo.value ==> o == Fail(InvalidRepoFormat)
  {
    if !enabled then Fail(NotEnabled)
    else if !StringGiven(repo) then Fail(RepoNotConfigured)
    else if '/' !in repo.value then Fail(InvalidRepoFormat)
    else Pass
  }

  class GitHubNotifier {
    var enabled: bool
    var retryAttempts: int
    var retryDelay: int
    var repo: Option<string>
    var autoCreateIssues: bool
    var labelPrefix: string

    /** `new GitHubNotifier(options)`: the base defaults, the repo unchecked,
        issue creation on unless explicitly off, and label prefix `alert`
        unless a non-empty one is given. */
    constructor(options: GitHubOptions)
      ensures enabled == EnabledOption(options.base)
      ensures retryAttempts == AttemptsOption(options.base)
      ensures retryDelay == DelayOption(options.base)
      ensures repo == options.repo
      ensures autoCreateIssues <==> options.autoCreateIssues != Some(false)
      ensures labelPrefix == StringOr(options.labelPrefix, "alert")
    {
      enabled := EnabledOption(options.base);
      retryAttempts := AttemptsOption(options.base);
      retryDelay := DelayOption(options.base);
      repo := options.repo;
      autoCreateIssues := !(options.autoCreateIssues.Some? && !options.autoCreateIssues.value);
      labelPrefix := StringOr(options.labelPrefix, "alert");
    }

    /** `validate()`. */
    function Validate(): (o: Outcome<NotifierError>)
      reads this
      ensures o.Pass? <==> enabled && StringGiven(repo) && '/' in repo.value
    {
      ValidateGitHub(enabled, repo)
    }

    /** `send(alert)` for the alert with id `alertId`: a failed validation
        rejects; with issue creation off the send succeeds without any
        attempt; otherwise the first attempt creates issue 123 on the
        configured repo. */
    method Send(alertId: string) returns (r: Result<GitHubReceipt, NotifierError>, calls: nat)
      ensures Validate().Fail? ==> r == Failure(Validate().error) && calls == 0
      ensures Validate().Pass? && !autoCreateIssues ==> r == Success(CreationDisabled) && calls == 0
      ensures Validate().Pass? && autoCreateIssues && retryAttempts >= 1 ==>
        r == Success(IssueCreated(PlaceholderIssueNumber, repo.value, alertId)) && calls == 1
      ensures Validate().Pass? && autoCreateIssues && retryAttempts < 1 ==>
        r == Failure(NoAttemptMade) && calls == 0
    {
      var v := Validate();
      if v.Fail? {
        return Failure(v.error), 0;
      }
      if !autoCreateIssues {
        return Success(CreationDisabled), 0;
      }
      var target := repo.value;
      var create := (k: nat) => Ok(IssueCreated(PlaceholderIssueNumber, target, alertId));
      var delays;
      r, calls, delays := RetryWithBackoff(retryAttempts, retryDelay, create, "GitHub issue creation");
      if retryAttempts >= 1 {
        assert create(0).Ok?;
      }
    }

    /** `setRepository(repo)`: accepted exactly when it contains a `/`; a
        rejected repo throws and leaves the old one in place. */
    method SetRepository(newRepo: string) returns (o: Outcome<NotifierError>)
      modifies this
      ensures o.Pass? <==> '/' in newRepo
      ensures o.Pass? ==> repo == Some(newRepo)
      ensures o.Fail? ==> o.error == InvalidRepoFormat && repo == old(repo)
      ensures enabled == old(enabled) && retryAttempts == old(retryAttempts) && retryDelay == old(retryDelay)
      ensures autoCreateIssues == old(autoCreateIssues) && labelPrefix == old(labelPrefix)
    {
      if '/' !in newRepo {
        return Fail(InvalidRepoFormat);
      }
      repo := Some(newRepo);
      o := Pass;
    }

    /** `setAutoCreate(enabled)`. */
    method SetAutoCreate(on: bool)
      modifies this
      ensures autoCreateIssues == on
      ensures enabled == old(enabled) && retryAttempts == old(retryAttempts) && retryDelay == old(retryDelay)
      ensures repo == old(repo) && labelPrefix == old(labelPrefix)
    {
      autoCreateIssues := on;
    }
  }

  /** A repo accepted by `setRepository` passes validation whenever the
      notifier is enabled. */
  lemma AcceptedRepoValidates(enabled: bool, repo: string)
    requires '/' in repo
    ensures ValidateGitHub(enabled, Some(repo)) == ValidateEnabled(enabled)
  {
  }
}
