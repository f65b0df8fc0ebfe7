/**
 * What the core sees of the GitHub REST client: the release and issue records it reads, the outcome of an issue
 * lookup by HTTP status, and which API token a client sends. The HTTP calls themselves are not modelled.
 */
module GitHubApi {
  import opened Wrappers
  import opened ReleaseIds

  /** The fields of a release the core reads. */
  datatype ReleaseDetails = ReleaseDetails(id: Long, name: string, body: string)

  /** The fields of an issue the core reads; a JSON null is None. */
  datatype IssueDetails = IssueDetails(number: Long, title: Option<string>, body: Option<string>)

  /** How `getDetails` ends: the issue, or one of the failures it raises. */
  datatype IssueLookup =
    | Details(details: IssueDetails)
    | Transferred(location: Option<string>)
    | NotFound
    | Deleted
    | UnexpectedStatus(status: int)

  /** The switch on the response status of `getDetails`. */
  function LookupOutcome(status: int, body: IssueDetails, location: Option<string>): (r: IssueLookup)
    ensures r.Details? <==> status == 200
    ensures r.Details? ==> r.details == body
    ensures r.Transferred? <==> status == 301
    ensures r.Transferred? ==> r.location == location
    ensures r.NotFound? <==> status == 404
    ensures r.Deleted? <==> status == 410
    ensures r.UnexpectedStatus? <==> status !in {200, 301, 404, 410}
    ensures r.UnexpectedStatus? ==> r.status == status
  {
    match status
    case 200 => Details(body)
    case 301 => Transferred(location)
    case 404 => NotFound
    case 410 => Deleted
    case _ => UnexpectedStatus(status)
  }

  /** A client, identified by the bearer token it sends, if any. */
  datatype GitHubClient = GitHubClient(apiToken: Option<string>) {
    /** `withApiToken`: the same client sending the given token. */
    function WithApiToken(token: string): (c: GitHubClient)
      ensures c.apiToken == Some(token)
    {
      GitHubClient(Some(token))
    }
  }
}
