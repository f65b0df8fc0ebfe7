/** The records of the `summarizer.domain` package that the aggregate and the session pass around. */
module SummarizerDomain {
  import opened Wrappers
  import opened ReleaseIds

  /** A point in time. `Instant.now()` is read by the callers and passed in. */
  datatype Instant = Instant(epochNanos: int)

  /** A GitHub repository, `owner/repo`. */
  datatype RepositoryIdentifier = RepositoryIdentifier(owner: string, repo: string) {
    /** The record's `toString`: owner, a slash, repo. */
    function ToString(): (s: string)
      ensures |s| == |owner| + 1 + |repo|
      ensures s[..|owner|] == owner && s[|owner|] == '/' && s[|owner| + 1..] == repo
    {
      owner + "/" + repo
    }
  }

  /** One summarized release; `githubReleaseId` is what the aggregate records as seen. */
  datatype ReleaseSummary = ReleaseSummary(version: string, githubReleaseId: Long, creationDate: Instant, summary: string)

  /** The two events of the repository aggregate. */
  datatype RepositoryEvent =
    | Created(creationDate: Instant, gitApiHubToken: Option<string>)
    | SummaryAdded(summary: ReleaseSummary)
}
