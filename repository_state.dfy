/**
 * `summarizer.domain.RepositoryState`: the state of one repository aggregate. `addSummary` updates the set of
 * seen release ids and the newest-first list of summaries in place and returns the same object.
 */
module SummarizerRepositoryState {
  import opened Wrappers
  import opened ReleaseIds
  import opened SummarizerDomain

  /** The value a state object holds. */
  datatype StateValue =
    StateValue(creationDate: Instant, seenReleases: set<Long>, summaries: seq<ReleaseSummary>, gitHubApiToken: Option<string>)

  /** The value of a freshly constructed state. */
  function Fresh(creationDate: Instant, gitHubApiToken: Option<string>): StateValue {
    StateValue(creationDate, {}, [], gitHubApiToken)
  }

  /** The value after `addSummary`: the summary first in the list, its release id in the set. */
  function WithSummary(v: StateValue, summary: ReleaseSummary): StateValue {
    v.(seenReleases := v.seenReleases + {summary.githubReleaseId}, summaries := [summary] + v.summaries)
  }

  class RepositoryState {
    const creationDate: Instant
    /** GitHub release ids. */
    var seenReleases: set<Long>
    var summaries: seq<ReleaseSummary>
    const gitHubApiToken: Option<string>

    function Value(): StateValue
      reads this
    {
      StateValue(creationDate, seenReleases, summaries, gitHubApiToken)
    }

    constructor (creationDate: Instant, gitHubApiToken: Option<string>)
      ensures Value() == Fresh(creationDate, gitHubApiToken)
    {
      this.creationDate := creationDate;
      this.seenReleases := {};
      this.summaries := [];
      this.gitHubApiToken := gitHubApiToken;
    }

    /** The largest seen release id; empty exactly when nothing has been seen. */
    function GetLatestSeenRelease(): (r: Option<Long>)
      reads this
      ensures r.None? <==> seenReleases == {}
      ensures r.Some? ==> IsMaxOf(r.value, seenReleases)
    {
      LatestOf(seenReleases)
    }

    /** Prepends the summary and records its release id, even if that id was seen before; returns this object. */
    method AddSummary(summaryAdded: RepositoryEvent) returns (r: RepositoryState)
      requires summaryAdded.SummaryAdded?
      modifies this
      ensures r == this
      ensures summaries == [summaryAdded.summary] + old(summaries)
      ensures seenReleases == old(seenReleases) + {summaryAdded.summary.githubReleaseId}
      ensures Value() == WithSummary(old(Value()), summaryAdded.summary)
    {
      summaries := [summaryAdded.summary] + summaries;
      seenReleases := seenReleases + {summaryAdded.summary.githubReleaseId};
      r := this;
    }

    /** The summaries, newest first. */
    function GetSummaries(): (r: seq<ReleaseSummary>)
      reads this
      ensures r == Value().summaries
    {
      summaries
    }

    /** The repository's own GitHub API token, if it has one. */
    function GetGitHubApiToken(): (r: Option<string>)
      reads this
      ensures r == Value().gitHubApiToken
    {
      gitHubApiToken
    }
  }

  /** A fresh state has seen nothing, holds no summary and keeps the creation date and token it was given. */
  lemma FreshState(creationDate: Instant, gitHubApiToken: Option<string>)
    ensures LatestOf(Fresh(creationDate, gitHubApiToken).seenReleases) == None
    ensures Fresh(creationDate, gitHubApiToken).summaries == []
    ensures Fresh(creationDate, gitHubApiToken).creationDate == creationDate
    ensures Fresh(creationDate, gitHubApiToken).gitHubApiToken == gitHubApiToken
  {
  }

  /**
   * After adding a summary for release id r the latest seen release is the larger of the old one and r, so the
   * high-water mark never decreases; the creation date and token stay as they were.
   */
  lemma WithSummaryRaisesLatest(v: StateValue, summary: ReleaseSummary)
    ensures LatestOf(WithSummary(v, summary).seenReleases) == Some(RaiseTo(LatestOf(v.seenReleases), summary.githubReleaseId))
    ensures AtMost(LatestOf(v.seenReleases), LatestOf(WithSummary(v, summary).seenReleases))
    ensures WithSummary(v, summary).creationDate == v.creationDate
    ensures WithSummary(v, summary).gitHubApiToken == v.gitHubApiToken
  {
    LatestOfInsert(v.seenReleases, summary.githubReleaseId);
    LatestOfMonotone(v.seenReleases, WithSummary(v, summary).seenReleases);
  }

  /** No de-duplication: a release id seen before leaves the set as it is, but the list still grows by one. */
  lemma WithSummaryDuplicate(v: StateValue, summary: ReleaseSummary)
    requires summary.githubReleaseId in v.seenReleases
    ensures WithSummary(v, summary).seenReleases == v.seenReleases
    ensures |WithSummary(v, summary).summaries| == |v.summaries| + 1
    ensures WithSummary(v, summary).summaries[0] == summary
  {
  }
}
