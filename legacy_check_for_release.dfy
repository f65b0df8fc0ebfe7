/**
 * `application.CheckForRelease`: the legacy timed action. It asks the entity for the latest seen release and GitHub
 * for the latest release at the same time, combines the two replies, and summarizes and saves when the release is
 * new. It always uses the default GitHub client and never schedules another check.
 */
module LegacyCheckForRelease {
  import opened Wrappers
  import opened ReleaseIds
  import SummarizerDomain
  import opened GitHubApi
  import opened AnthropicMessages
  import opened ToolLoop
  import opened SummarizerSessionLoop
  import Summarizer = SummarizerRepositoryEntity
  import opened SummarizerCheckForRelease
  import opened LegacyDomain
  import opened LegacyRepositoryEntity
  import opened LegacyReleaseSummarizer

  /** The audience every legacy summary is saved for. */
  const TARGET_AUDIENCE_PLACEHOLDER := "FIXME target audience"

  /** The legacy entity's `getLatestSeenRelease` reply for the log `journal`. */
  function LegacyLatestSeenReply(journal: seq<RepositoryEvent>): (r: Result<LatestSeenRelease, Summarizer.EntityError>)
    requires WellFormedLog(journal)
    ensures r.Failure? <==> journal == []
    ensures r.Failure? ==> r.error == Summarizer.NotInitialized
    ensures r.Success? ==> r.value.id == LatestOf(AddedIds(journal))
  {
    if journal == [] then Failure(Summarizer.NotInitialized) else Success(LatestSeenRelease(LatestOf(AddedIds(journal))))
  }

  /**
   * `thenCombine` of the two lookups: both replies when both succeeded; otherwise the entity's failure if it failed,
   * else GitHub's.
   */
  function Combine(seen: Result<LatestSeenRelease, Summarizer.EntityError>, latest: Result<ReleaseDetails, string>)
    : (r: Result<(LatestSeenRelease, ReleaseDetails), CheckError>)
    ensures r.Success? <==> seen.Success? && latest.Success?
    ensures r.Success? ==> r.value == (seen.value, latest.value)
    ensures seen.Failure? ==> r == Failure(EntityFailed(seen.error))
    ensures seen.Success? && latest.Failure? ==> r == Failure(ReleaseLookupFailed(latest.error))
  {
    match seen
    case Failure(e) => Failure(EntityFailed(e))
    case Success(s) =>
      match latest
      case Failure(reason) => Failure(ReleaseLookupFailed(reason))
      case Success(release) => Success((s, release))
  }

  /** `saveSummary`: the release's name and id, the placeholder audience, the date and the text. */
  function LegacySavedSummary(result: SummaryResult, now: SummarizerDomain.Instant): ReleaseSummary {
    ReleaseSummary(result.releaseName, result.gitHubReleaseId, TARGET_AUDIENCE_PLACEHOLDER, now, result.summaryText)
  }

  /** What one legacy check did: the summarizer run, if any, the summary it saved, if any, and how it completed. */
  datatype LegacyCheck = LegacyCheck(session: Option<SessionRun>, saved: Option<ReleaseSummary>, completion: Result<Done, CheckError>)

  /**
   * One legacy check of `repo` against an entity whose log is `journal`, GitHub answering `latestRelease` to the
   * default client and issue lookups going through `lookup`.
   */
  function LegacyCheckFor(repo: SummarizerDomain.RepositoryIdentifier, journal: seq<RepositoryEvent>,
                          latestRelease: Result<ReleaseDetails, string>, lookup: int -> IssueLookup,
                          script: seq<Message>, now: SummarizerDomain.Instant): LegacyCheck
    requires WellFormedLog(journal)
  {
    match Combine(LegacyLatestSeenReply(journal), latestRelease)
    case Failure(e) => LegacyCheck(None, None, Failure(e))
    case Success(replies) =>
      var (latestSeen, release) := replies;
      if !IsNewRelease(latestSeen.id, release.id) then LegacyCheck(None, None, Success(Done))
      else
        var run := LegacySummaryRun(release, repo, lookup, script);
        match run.result
        case Failure(e) => LegacyCheck(Some(run), None, Failure(SummarizationFailed(e)))
        case Success(summary) => LegacyCheck(Some(run), Some(LegacySavedSummary(summary, now)), Success(Done))
  }

  /**
   * A legacy check runs the summarizer exactly when the entity is set up, GitHub answered, and the release is newer
   * than every release added to the entity; a failed entity lookup is reported even when GitHub failed too.
   */
  lemma LegacyCheckSummarizesIff(repo: SummarizerDomain.RepositoryIdentifier, journal: seq<RepositoryEvent>,
                                 latestRelease: Result<ReleaseDetails, string>, lookup: int -> IssueLookup,
                                 script: seq<Message>, now: SummarizerDomain.Instant)
    requires WellFormedLog(journal)
    ensures var c := LegacyCheckFor(repo, journal, latestRelease, lookup, script, now);
      && (c.session.Some? <==>
            && journal != [] && latestRelease.Success?
            && forall s :: s in AddedIds(journal) ==> s < latestRelease.value.id)
      && (c.session.Some? ==> c.session.value == LegacySummaryRun(latestRelease.value, repo, lookup, script))
      && (journal == [] ==> c == LegacyCheck(None, None, Failure(EntityFailed(Summarizer.NotInitialized))))
  {
    if journal != [] && latestRelease.Success? {
      var release := latestRelease.value;
      IsNewReleaseAboveAllSeen(AddedIds(journal), release.id);
      var c := LegacyCheckFor(repo, journal, latestRelease, lookup, script, now);
      assert c.session.Some? <==> IsNewRelease(LatestOf(AddedIds(journal)), release.id);
    }
  }

  /**
   * A legacy check saves exactly when its summarizer run succeeded, and then saves the run's release name and id, the
   * placeholder audience, now and the text; a check that ran the summarizer completes without failure exactly when
   * the run succeeded, and otherwise fails with the run's error.
   */
  lemma LegacyCheckSavesSummary(repo: SummarizerDomain.RepositoryIdentifier, journal: seq<RepositoryEvent>,
                                latestRelease: Result<ReleaseDetails, string>, lookup: int -> IssueLookup,
                                script: seq<Message>, now: SummarizerDomain.Instant)
    requires WellFormedLog(journal)
    ensures var c := LegacyCheckFor(repo, journal, latestRelease, lookup, script, now);
      && (c.saved.Some? <==> c.session.Some? && c.session.value.result.Success?)
      && (c.saved.Some? ==>
            var summary := c.session.value.result.value;
            c.saved.value == ReleaseSummary(summary.releaseName, summary.gitHubReleaseId, "FIXME target audience", now, summary.summaryText))
      && (c.completion.Failure? ==> c.saved.None?)
      && (c.session.Some? ==> (c.completion.Success? <==> c.session.value.result.Success?))
      && (c.session.Some? && c.completion.Failure? ==>
            c.completion.error == SummarizationFailed(c.session.value.result.error))
  {
  }

  /**
   * The legacy check decides as the newer one does on the same entity history and the same GitHub answer, and when
   * both summarize they save the same release name, id, date and text; they differ in the audience field only.
   */
  lemma LegacyCheckMatchesNewer(repo: SummarizerDomain.RepositoryIdentifier, journal: seq<RepositoryEvent>,
                                newerJournal: seq<SummarizerDomain.RepositoryEvent>,
                                release: ReleaseDetails, lookup: int -> IssueLookup, script: seq<Message>,
                                now: SummarizerDomain.Instant, client: GitHubClient)
    requires WellFormedLog(journal) && Summarizer.WellFormedLog(newerJournal)
    requires journal != [] && newerJournal != [] && AddedIds(journal) == Summarizer.AddedIds(newerJournal)
    ensures var legacy := LegacyCheckFor(repo, journal, Success(release), lookup, script, now);
      var newer := CheckFor(repo, newerJournal, client, _ => Success(release), _ => lookup, script, now);
      && (legacy.session.Some? <==> newer.session.Some?)
      && (legacy.saved.Some? <==> newer.saved.Some?)
      && (legacy.saved.Some? ==>
            && legacy.saved.value.version == newer.saved.value.version
            && legacy.saved.value.githubReleaseId == newer.saved.value.githubReleaseId
            && legacy.saved.value.creationDate == newer.saved.value.creationDate
            && legacy.saved.value.summary == newer.saved.value.summary)
      && (legacy.completion.Success? <==> newer.completion.Success?)
  {
    LegacyAgreesWithSession(release, repo, lookup, script);
  }
}
