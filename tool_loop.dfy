/**
 * What the two versions of the tool-use loop share: the tool contract (`fetchIssueDetails`), the result of one
 * tool use, the text of an issue as a tool result, and the branching on the stop reason once the model stops
 * asking for tools.
 */
module ToolLoop {
  import opened Wrappers
  import opened ReleaseIds
  import opened JavaText
  import opened SummarizerDomain
  import opened GitHubApi
  import opened AnthropicMessages

  /** The only tool declared to the model. */
  const FETCH_ISSUE_DETAILS_TOOL_NAME: string := "fetchIssueDetails"

  /** What a successful session returns. */
  datatype SummaryResult =
    SummaryResult(gitHubReleaseId: Long, releaseName: string, repositoryIdentifier: RepositoryIdentifier, summaryText: string)

  /** The exceptions a session ends with. */
  datatype SessionError =
    | EmptyResponse                                          // RuntimeException("Empty response")
    | MaxTokensReached                                       // RuntimeException("Max tokens reached")
    | UnexpectedStopSequence(stopSequence: Option<string>)   // IllegalStateException
    | UnexpectedToolName(name: string)                       // IllegalStateException
    | IssueLookupFailed(issueId: int, lookup: IssueLookup)   // the GitHub client's RuntimeException
    | ModelUnavailable                                       // the model API call itself failed

  /** The tool result text for an issue: `"##" + title + "\n"` when there is a title, then the body; null parts are "". */
  function IssueContent(d: IssueDetails): string {
    (if d.title.None? then "" else "##" + d.title.value + "\n") + d.body.GetOr("")
  }

  datatype ParsedContent = ParsedContent(title: Option<string>, body: string)

  /** Reads a tool result text back: a leading `##` line is the title, the rest the body. */
  function ParseIssueContent(content: string): ParsedContent {
    if |content| >= 2 && content[..2] == "##" && IndexOf(content[2..], '\n') < |content| - 2 then
      var rest := content[2..];
      var i := IndexOf(rest, '\n');
      ParsedContent(Some(rest[..i]), rest[i + 1..])
    else
      ParsedContent(None, content)
  }

  /**
   * The tool result text loses nothing: a one-line title and the body (null read as "") can be read back, as long
   * as a body without a title does not itself start with a title line.
   */
  lemma IssueContentParses(d: IssueDetails)
    requires d.title.Some? ==> Free(d.title.value, '\n')
    requires d.title.None? ==> ParseIssueContent(d.body.GetOr("")).title.None?
    ensures ParseIssueContent(IssueContent(d)) == ParsedContent(d.title, d.body.GetOr(""))
  {
    var c := IssueContent(d);
    var b := d.body.GetOr("");
    if d.title.Some? {
      var t := d.title.value;
      assert c == "##" + (t + ['\n'] + b);
      assert c[..2] == "##";
      assert c[2..] == t + ['\n'] + b;
      FirstSeparator(t, b, '\n');
      assert c[2..][..|t|] == t;
      assert c[2..][|t| + 1..] == b;
    } else {
      assert c == b;
    }
  }

  /** The issue ids of a run of tool uses, in order. */
  function IssueIds(uses: seq<ToolUseRequest>): (ids: seq<int>)
    ensures |ids| == |uses| && forall i :: 0 <= i < |uses| ==> ids[i] == uses[i].issueId
  {
    seq(|uses|, i requires 0 <= i < |uses| => uses[i].issueId)
  }

  /**
   * `toolResultFor`: a `fetchIssueDetails` use is answered with the issue's text under the same tool-use id; a lookup
   * that does not find the issue, or any other tool name, is a failure.
   */
  function ToolResultFor(use: ToolUseRequest, lookup: int -> IssueLookup): (r: Result<ToolResult, SessionError>)
    ensures r.Success? <==> use.name == FETCH_ISSUE_DETAILS_TOOL_NAME && lookup(use.issueId).Details?
    ensures r.Success? ==> r.value == ToolResult(use.id, IssueContent(lookup(use.issueId).details))
    ensures use.name != FETCH_ISSUE_DETAILS_TOOL_NAME ==> r == Failure(UnexpectedToolName(use.name))
    ensures use.name == FETCH_ISSUE_DETAILS_TOOL_NAME && !lookup(use.issueId).Details? ==>
              r == Failure(IssueLookupFailed(use.issueId, lookup(use.issueId)))
  {
    if use.name == FETCH_ISSUE_DETAILS_TOOL_NAME then
      match lookup(use.issueId)
      case Details(d) => Success(ToolResult(use.id, IssueContent(d)))
      case other => Failure(IssueLookupFailed(use.issueId, other))
    else
      Failure(UnexpectedToolName(use.name))
  }

  /** The results answer the uses one for one, in order, each under its use's id. */
  predicate Answers(results: seq<ToolResult>, uses: seq<ToolUseRequest>, lookup: int -> IssueLookup) {
    |results| == |uses| &&
    forall i :: 0 <= i < |uses| ==> ToolResultFor(uses[i], lookup) == Success(results[i])
  }

  /** The index of the first tool use that fails, or the number of uses when none does. */
  function FirstFailure(uses: seq<ToolUseRequest>, lookup: int -> IssueLookup): (k: nat)
    ensures k <= |uses|
    ensures forall i :: 0 <= i < k ==> ToolResultFor(uses[i], lookup).Success?
    ensures k < |uses| ==> ToolResultFor(uses[k], lookup).Failure?
  {
    if uses == [] then 0
    else if ToolResultFor(uses[0], lookup).Failure? then 0
    else 1 + FirstFailure(uses[1..], lookup)
  }

  /** The tool results of one round and the issue lookups the round issued, in order. */
  datatype Round = Round(results: Result<seq<ToolResult>, SessionError>, lookups: seq<int>)

  /**
   * The branching once the stop reason is no longer TOOL_USE. END_TURN: the text blocks concatenated in order, a
   * failure when that text is blank, otherwise the summary of the release. MAX_TOKENS and every other stop reason
   * (or none): a failure.
   */
  function Completion(release: ReleaseDetails, repo: RepositoryIdentifier, response: Message): (r: Result<SummaryResult, SessionError>)
    ensures r.Success? <==> response.stopReason == Some(EndTurn) && !IsBlank(TextOf(response.content))
    ensures r.Success? ==> r.value == SummaryResult(release.id, release.name, repo, TextOf(response.content))
    ensures response.stopReason == Some(EndTurn) && IsBlank(TextOf(response.content)) ==> r == Failure(EmptyResponse)
    ensures response.stopReason == Some(MaxTokens) ==> r == Failure(MaxTokensReached)
    ensures response.stopReason !in {Some(EndTurn), Some(MaxTokens)} ==>
              r == Failure(UnexpectedStopSequence(response.stopSequence))
  {
    if response.stopReason == Some(EndTurn) then
      var summaryText := TextOf(response.content);
      if IsBlank(summaryText) then Failure(EmptyResponse)
      else Success(SummaryResult(release.id, release.name, repo, summaryText))
    else if response.stopReason == Some(MaxTokens) then
      Failure(MaxTokensReached)
    else
      Failure(UnexpectedStopSequence(response.stopSequence))
  }
}
