/**
 * The records of the older top-level `domain` package. `domain.ReleaseSummary` is built with five values (release
 * name, release id, target audience, date, text) and read for its release id, so it has those five fields here;
 * `domain.RepositoryEvent` is matched on `SummaryAdded` as well as `Created`, so it has both.
 */
module LegacyDomain {
  import opened ReleaseIds
  import SummarizerDomain

  /** One summarized release for one target audience. */
  datatype ReleaseSummary =
    ReleaseSummary(version: string, githubReleaseId: Long, targetAudience: string, creationDate: SummarizerDomain.Instant, summary: string)

  /** The two events of the legacy repository aggregate; set-up records the target audiences. */
  datatype RepositoryEvent =
    | Created(creationDate: SummarizerDomain.Instant, summaryTargetAudience: set<string>)
    | SummaryAdded(summary: ReleaseSummary)
}
