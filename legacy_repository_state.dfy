/**
 * `domain.RepositoryState`: the legacy state of one repository. It keeps target audiences instead of an API token;
 * `addSummary` updates the seen release ids and the newest-first summaries in place and returns the same object.
 */
module LegacyRepositoryState {
  import opened Wrappers
  import opened ReleaseIds
  import SummarizerDomain
  import opened LegacyDomain

  /** The value a legacy state object holds. */
  datatype StateValue =
    StateValue(creationDate: SummarizerDomain.Instant, targetSummaryAudiences: set<string>, seenReleases: set<Long>, summaries: seq<ReleaseSummary>)

  /** The value of a freshly constructed state. */
  function Fresh(creationDate: SummarizerDomain.Instant, targetSummaryAudiences: set<string>): StateValue {
    StateValue(creationDate, targetSummaryAudiences, {}, [])
  }

  /** The value after `addSummary`: the summary first in the list, its release id in the set. */
  function WithSummary(v: StateValue, summary: ReleaseSummary): StateValue {
    v.(seenReleases := v.seenReleases + {summary.githubReleaseId}, summaries := [summary] + v.summaries)
  }

  class RepositoryState {
    const creationDate: SummarizerDomain.Instant
    const targetSummaryAudiences: set<string>
    /** GitHub release ids. */
    var seenReleases: set<Long>
    var summaries: seq<ReleaseSummary>

    function Value(): StateValue
      reads this
    {
      StateValue(creationDate, targetSummaryAudiences, seenReleases, summaries)
    }

    constructor (creationDate: SummarizerDomain.Instant, targetSummaryAudiences: set<string>)
      ensures Value() == Fresh(creationDate, targetSummaryAudiences)
    {
      this.creationDate := creationDate;
      this.targetSummaryAudiences := targetSummaryAudiences;
      this.seenReleases := {};
      this.summaries := [];
    }

    /** The largest seen release id; empty exactly when nothing has been seen. */
    function GetLatestSeenRelease(): (r: Option<Long>)
      reads this
      ensures r.None? <==> seenReleases == {}
      ensures r.Some? ==> IsMaxOf(r.value, seenReleases)
    {
      LatestOf(seenReleases)
    }

    /** Prepends the summary and records its release id, duplicates included; returns this object. */
    method AddSummary(summaryAdded: RepositoryEvent) returns (r: RepositoryState)
      requires summaryAdded.SummaryAdded?
      modifies this
      ensures r == this
      ensures summaries == [summaryAdded.summary] + old(summaries)
      ensures seenReleases == old(seenReleases) + {summaryAdded.summary.githubReleaseId}
      ensures Value() == WithSummary(old(Value()), summaryAdded.summary)
    {
      summaries := [summaryAdded.summary] + summaries;
      seenReleases := seenReleases + {summaryAdded.summary.githubReleaseId};
      r := this;
    }
  }

  /** A fresh state has seen nothing, holds no summary and keeps its creation date and target audiences. */
  lemma FreshState(creationDate: SummarizerDomain.Instant, targetSummaryAudiences: set<string>)
    ensures LatestOf(Fresh(creationDate, targetSummaryAudiences).seenReleases) == None
    ensures Fresh(creationDate, targetSummaryAudiences).summaries == []
    ensures Fresh(creationDate, targetSummaryAudiences).creationDate == creationDate
    ensures Fresh(creationDate, targetSummaryAudiences).targetSummaryAudiences == targetSummaryAudiences
  {
  }

  /**
   * After adding a summary for release id r the latest seen release is the larger of the old one and r; a release
   * id seen before still adds a summary; the creation date and target audiences stay as they were.
   */
  lemma WithSummaryRaisesLatest(v: StateValue, summary: ReleaseSummary)
    ensures LatestOf(WithSummary(v, summary).seenReleases) == Some(RaiseTo(LatestOf(v.seenReleases), summary.githubReleaseId))
    ensures AtMost(LatestOf(v.seenReleases), LatestOf(WithSummary(v, summary).seenReleases))
    ensures |WithSummary(v, summary).summaries| == |v.summaries| + 1
    ensures WithSummary(v, summary).creationDate == v.creationDate
    ensures WithSummary(v, summary).targetSummaryAudiences == v.targetSummaryAudiences
  {
    LatestOfInsert(v.seenReleases, summary.githubReleaseId);
    LatestOfMonotone(v.seenReleases, WithSummary(v, summary).seenReleases);
  }
}
