/**
 * `summarizer.application.CheckForRelease`: the timed action that looks up the latest release of a repository,
 * summarizes it when it is newer than every release seen so far, saves the summary in the repository's entity and,
 * when all of that completed without failure, schedules the next check.
 *
 * The collaborators are parameters: the GitHub client's latest-release lookup and issue lookup (both depending on
 * the client, so on its token), the model's scripted responses, the clock reading and the configured interval.
 */
module SummarizerCheckForRelease {
  import opened Wrappers
  import opened ReleaseIds
  import opened SummarizerDomain
  import opened GitHubApi
  import opened AnthropicMessages
  import opened ToolLoop
  import opened SummarizerSessionLoop
  import opened SummarizerRepositoryEntity

  /** Why a check completed with a failure. */
  datatype CheckError =
    | EntityFailed(entityError: EntityError)
    | ReleaseLookupFailed(reason: string)
    | SummarizationFailed(sessionError: SessionError)

  /** A `java.time.Duration`, in nanoseconds. */
  datatype Duration = Duration(nanos: int)

  /** The deferred call a timer makes when it fires: `checkForNewRelease(repositoryIdentifier)`. */
  datatype Timer = Timer(delay: Duration, checkFor: RepositoryIdentifier)

  /** The reply of `getLatestSeenRelease` for an entity whose log is `journal`. */
  function LatestSeenReply(journal: seq<RepositoryEvent>): (r: Result<LatestSeenRelease, EntityError>)
    requires WellFormedLog(journal)
    ensures r.Failure? <==> journal == []
    ensures r.Failure? ==> r.error == NotInitialized
    ensures r.Success? ==> r.value.id == LatestOf(AddedIds(journal)) && r.value.gitHubApiToken == journal[0].gitApiHubToken
  {
    if journal == [] then Failure(NotInitialized)
    else Success(LatestSeenRelease(LatestOf(AddedIds(journal)), journal[0].gitApiHubToken))
  }

  /** The decision: summarize when nothing has been seen yet or the latest seen id is below the latest release's. */
  predicate IsNewRelease(latestSeen: Option<Long>, latestId: Long) {
    latestSeen.None? || latestSeen.value < latestId
  }

  /** The decision on the high-water mark is the decision "newer than every release seen". */
  lemma IsNewReleaseAboveAllSeen(seen: set<Long>, latestId: Long)
    ensures IsNewRelease(LatestOf(seen), latestId) <==> forall s :: s in seen ==> s < latestId
  {
    if seen != {} && forall s :: s in seen ==> s < latestId {
      assert LatestOf(seen).value in seen;
    }
  }

  /** The repository's stored token, when there is one, replaces the default client's. */
  function AuthorizedClient(latestSeen: LatestSeenRelease, default: GitHubClient): (c: GitHubClient)
    ensures latestSeen.gitHubApiToken.Some? ==> c.apiToken == latestSeen.gitHubApiToken
    ensures latestSeen.gitHubApiToken.None? ==> c == default
  {
    match latestSeen.gitHubApiToken
    case Some(token) => default.WithApiToken(token)
    case None => default
  }

  /** `saveSummary`: the summary the entity is asked to add. */
  function SavedSummary(result: SummaryResult, now: Instant): ReleaseSummary {
    ReleaseSummary(result.releaseName, result.gitHubReleaseId, now, result.summaryText)
  }

  /** What one check did: the session it ran, if any, the summary it saved, if any, and how it completed. */
  datatype Check = Check(session: Option<SessionRun>, saved: Option<ReleaseSummary>, completion: Result<Done, CheckError>)

  /**
   * One check of `repo` against an entity whose log is `journal`. A failing step fails the check and skips the rest;
   * the save cannot fail, because the entity answered the first lookup, so it holds a state.
   */
  function CheckFor(repo: RepositoryIdentifier, journal: seq<RepositoryEvent>, defaultClient: GitHubClient,
                    latestRelease: GitHubClient -> Result<ReleaseDetails, string>,
                    issues: GitHubClient -> (int -> IssueLookup), script: seq<Message>, now: Instant): Check
    requires WellFormedLog(journal)
  {
    match LatestSeenReply(journal)
    case Failure(e) => Check(None, None, Failure(EntityFailed(e)))
    case Success(latestSeen) =>
      var client := AuthorizedClient(latestSeen, defaultClient);
      match latestRelease(client)
      case Failure(reason) => Check(None, None, Failure(ReleaseLookupFailed(reason)))
      case Success(release) =>
        if !IsNewRelease(latestSeen.id, release.id) then Check(None, None, Success(Done))
        else
          var run := SummaryRun(release, repo, issues(client), script);
          match run.result
          case Failure(e) => Check(Some(run), None, Failure(SummarizationFailed(e)))
          case Success(summary) => Check(Some(run), Some(SavedSummary(summary, now)), Success(Done))
  }

  /** The timer `whenComplete` starts: under `owner/repo`, after the interval, for the same repository. */
  function NextTimer(completion: Result<Done, CheckError>, repo: RepositoryIdentifier, interval: Duration): (t: Option<(string, Timer)>)
    ensures t.Some? <==> completion.Success?
    ensures t.Some? ==> t.value.0 == EntityIdOf(repo) && t.value.1 == Timer(interval, repo)
  {
    if completion.Success? then Some((repo.ToString(), Timer(interval, repo))) else None
  }

  /**
   * A check runs the session exactly when the entity is set up, the latest-release lookup with the stored token (if
   * any) succeeded, and that release is newer than every release added to the entity; the session is then the one
   * for that release, with the issue lookup of the same client.
   */
  lemma CheckSummarizesIff(repo: RepositoryIdentifier, journal: seq<RepositoryEvent>, defaultClient: GitHubClient,
                           latestRelease: GitHubClient -> Result<ReleaseDetails, string>,
                           issues: GitHubClient -> (int -> IssueLookup), script: seq<Message>, now: Instant)
    requires WellFormedLog(journal)
    ensures var c := CheckFor(repo, journal, defaultClient, latestRelease, issues, script, now);
      var client := if journal != [] && journal[0].gitApiHubToken.Some?
                    then defaultClient.WithApiToken(journal[0].gitApiHubToken.value) else defaultClient;
      && (c.session.Some? <==>
            && journal != [] && latestRelease(client).Success?
            && forall s :: s in AddedIds(journal) ==> s < latestRelease(client).value.id)
      && (c.session.Some? ==> c.session.value == SummaryRun(latestRelease(client).value, repo, issues(client), script))
  {
    if journal != [] {
      var latestSeen := LatestSeenReply(journal).value;
      var client := AuthorizedClient(latestSeen, defaultClient);
      assert client == (if journal[0].gitApiHubToken.Some?
                        then defaultClient.WithApiToken(journal[0].gitApiHubToken.value) else defaultClient);
      if latestRelease(client).Success? {
        var release := latestRelease(client).value;
        IsNewReleaseAboveAllSeen(AddedIds(journal), release.id);
        var c := CheckFor(repo, journal, defaultClient, latestRelease, issues, script, now);
        assert c.session.Some? <==> IsNewRelease(latestSeen.id, release.id);
        assert latestSeen.id == LatestOf(AddedIds(journal));
        assert IsNewRelease(latestSeen.id, release.id) <==> forall s :: s in AddedIds(journal) ==> s < release.id;
      }
    }
  }

  /**
   * A check saves exactly when its session succeeded, and then saves the session's release name, release id and
   * text, dated now; a check that ran a session completes without failure exactly when the session succeeded, and
   * otherwise fails with the session's error.
   */
  lemma CheckSavesSummary(repo: RepositoryIdentifier, journal: seq<RepositoryEvent>, defaultClient: GitHubClient,
                          latestRelease: GitHubClient -> Result<ReleaseDetails, string>,
                          issues: GitHubClient -> (int -> IssueLookup), script: seq<Message>, now: Instant)
    requires WellFormedLog(journal)
    ensures var c := CheckFor(repo, journal, defaultClient, latestRelease, issues, script, now);
      && (c.saved.Some? <==> c.session.Some? && c.session.value.result.Success?)
      && (c.saved.Some? ==>
            var summary := c.session.value.result.value;
            c.saved.value == ReleaseSummary(summary.releaseName, summary.gitHubReleaseId, now, summary.summaryText))
      && (c.completion.Failure? ==> c.saved.None?)
      && (c.session.Some? ==> (c.completion.Success? <==> c.session.value.result.Success?))
      && (c.session.Some? && c.completion.Failure? ==>
            c.completion.error == SummarizationFailed(c.session.value.result.error))
  {
  }

  /**
   * After a check saved a summary, checking again while GitHub still reports the same latest release summarizes
   * nothing and completes without failure: the saved id raised the high-water mark to at least that release.
   */
  lemma {:induction false} RecheckSummarizesNothing(repo: RepositoryIdentifier, journal: seq<RepositoryEvent>,
                                                    defaultClient: GitHubClient,
                                                    latestRelease: GitHubClient -> Result<ReleaseDetails, string>,
                                                    issues: GitHubClient -> (int -> IssueLookup), script: seq<Message>,
                                                    now: Instant, later: Instant)
    requires WellFormedLog(journal)
    requires CheckFor(repo, journal, defaultClient, latestRelease, issues, script, now).saved.Some?
    ensures var saved := CheckFor(repo, journal, defaultClient, latestRelease, issues, script, now).saved.value;
      var journal' := journal + [SummaryAdded(saved)];
      WellFormedLog(journal') &&
      CheckFor(repo, journal', defaultClient, latestRelease, issues, script, later) == Check(None, None, Success(Done))
  {
    var c := CheckFor(repo, journal, defaultClient, latestRelease, issues, script, now);
    var saved := c.saved.value;
    var journal' := journal + [SummaryAdded(saved)];
    assert journal'[0] == journal[0];
    assert journal'[..|journal'| - 1] == journal;
    assert AddedIds(journal') == AddedIds(journal) + {saved.githubReleaseId};
    LatestOfInsert(AddedIds(journal), saved.githubReleaseId);
    var latestSeen := LatestSeenReply(journal).value;
    var client := AuthorizedClient(latestSeen, defaultClient);
    assert LatestSeenReply(journal').value.gitHubApiToken == latestSeen.gitHubApiToken;
    var release := latestRelease(client).value;
    SummarizeRounds(release, repo, issues(client), script);
    assert saved.githubReleaseId == release.id;
  }

  /** `TimerScheduler`: the single timers started so far, by name; starting one replaces any of the same name. */
  class TimerScheduler {
    var timers: map<string, Timer>

    constructor ()
      ensures timers == map[]
    {
      timers := map[];
    }

    method StartSingleTimer(name: string, delay: Duration, checkFor: RepositoryIdentifier)
      modifies this
      ensures timers == old(timers)[name := Timer(delay, checkFor)]
    {
      timers := timers[name := Timer(delay, checkFor)];
    }
  }

  class CheckForRelease {
    const gitHubApiClient: GitHubClient
    /** The GitHub client's `getLatestRelease` for the repository being checked, per client. */
    const latestRelease: GitHubClient -> Result<ReleaseDetails, string>
    /** The GitHub client's issue lookup, per client. */
    const issues: GitHubClient -> (int -> IssueLookup)
    /** The model client: the responses it gives, in order. */
    const script: seq<Message>
    const timerScheduler: TimerScheduler
    /** `new-release-check-interval`. */
    const checkInterval: Duration

    constructor (gitHubApiClient: GitHubClient, latestRelease: GitHubClient -> Result<ReleaseDetails, string>,
                 issues: GitHubClient -> (int -> IssueLookup), script: seq<Message>, timerScheduler: TimerScheduler,
                 checkInterval: Duration)
      ensures this.gitHubApiClient == gitHubApiClient && this.latestRelease == latestRelease && this.issues == issues
      ensures this.script == script && this.timerScheduler == timerScheduler && this.checkInterval == checkInterval
    {
      this.gitHubApiClient := gitHubApiClient;
      this.latestRelease := latestRelease;
      this.issues := issues;
      this.script := script;
      this.timerScheduler := timerScheduler;
      this.checkInterval := checkInterval;
    }

    /**
     * `checkForNewRelease` on the entity addressed by `entityIdFor(repositoryIdentifier)`: completes as `CheckFor`
     * says, adds exactly the saved summary to the entity's log, and starts the next timer only on success.
     */
    method CheckForNewRelease(repositoryIdentifier: RepositoryIdentifier, entity: GitHubRepositoryEntity, now: Instant)
      returns (completion: Result<Done, CheckError>)
      requires entity.Valid()
      modifies entity, entity.currentState, timerScheduler
      ensures entity.Valid()
      ensures var c := CheckFor(repositoryIdentifier, old(entity.journal), gitHubApiClient, latestRelease, issues, script, now);
        && completion == c.completion
        && entity.journal == old(entity.journal) + (if c.saved.Some? then [SummaryAdded(c.saved.value)] else [])
        && timerScheduler.timers ==
             match NextTimer(completion, repositoryIdentifier, checkInterval)
             case Some(next) => old(timerScheduler.timers)[next.0 := next.1]
             case None => old(timerScheduler.timers)
    {
      var reply := entity.GetLatestSeenRelease();
      completion := Success(Done);
      match reply {
        case Failure(e) =>
          completion := Failure(EntityFailed(e));
        case Success(latestSeen) =>
          var client := AuthorizedClient(latestSeen, gitHubApiClient);
          match latestRelease(client) {
            case Failure(reason) =>
              completion := Failure(ReleaseLookupFailed(reason));
            case Success(release) =>
              if IsNewRelease(latestSeen.id, release.id) {
                var session := new SummarizerSession(issues(client), script, repositoryIdentifier, release);
                var result, _, _ := session.Summarize();
                match result {
                  case Failure(e) =>
                    completion := Failure(SummarizationFailed(e));
                  case Success(summary) =>
                    var saved := entity.AddSummary(SavedSummary(summary, now));
                    completion := match saved
                      case Success(_) => Success(Done)
                      case Failure(e) => Failure(EntityFailed(e));
                }
              }
          }
      }
      if completion.Success? {
        timerScheduler.StartSingleTimer(repositoryIdentifier.ToString(), checkInterval, repositoryIdentifier);
      }
    }
  }
}
