/**
 * `domain.ReleaseSummarizer`: the legacy, asynchronous tool-use loop. `loopUntilDone` recurses on each response;
 * a TOOL_USE round starts one issue lookup per tool use, waits for all of them (`allOf`) and joins their results in
 * the order of the tool uses, so the order in which the lookups complete does not matter.
 *
 * The model client is a script of responses and the GitHub client an issue-lookup function, as for the newer
 * session; the requests, tool results, completion branching and summary are shared with it.
 */
module LegacyReleaseSummarizer {
  import opened Wrappers
  import opened SummarizerDomain
  import opened GitHubApi
  import opened AnthropicMessages
  import opened ToolLoop
  import opened SummarizerSessionLoop

  /** The outcome of every tool use's future, in the order of the tool uses. */
  function ResultsOf(uses: seq<ToolUseRequest>, lookup: int -> IssueLookup): (rs: seq<Result<ToolResult, SessionError>>)
    ensures |rs| == |uses| && forall i :: 0 <= i < |uses| ==> rs[i] == ToolResultFor(uses[i], lookup)
  {
    seq(|uses|, i requires 0 <= i < |uses| => ToolResultFor(uses[i], lookup))
  }

  /**
   * `allOf(...)` then `join` of each future in list order: every result, in order, when all succeeded; otherwise the
   * failure of the first failed future in list order (`allOf` reports its left operand's failure first).
   */
  function JoinInOrder(rs: seq<Result<ToolResult, SessionError>>): (r: Result<seq<ToolResult>, SessionError>)
    ensures r.Success? <==> forall i :: 0 <= i < |rs| ==> rs[i].Success?
    ensures r.Success? ==> |r.value| == |rs| && forall i :: 0 <= i < |rs| ==> rs[i] == Success(r.value[i])
  {
    if rs == [] then Success([])
    else
      match rs[0]
      case Failure(e) => Failure(e)
      case Success(t) =>
        match JoinInOrder(rs[1..])
        case Success(ts) => Success([t] + ts)
        case Failure(e) => Failure(e)
  }

  /** The index of the first tool use with another name than `fetchIssueDetails`, or the number of uses. */
  function FirstUnknownTool(uses: seq<ToolUseRequest>): (u: nat)
    ensures u <= |uses|
    ensures forall i :: 0 <= i < u ==> uses[i].name == FETCH_ISSUE_DETAILS_TOOL_NAME
    ensures u < |uses| ==> uses[u].name != FETCH_ISSUE_DETAILS_TOOL_NAME
  {
    if uses == [] || uses[0].name != FETCH_ISSUE_DETAILS_TOOL_NAME then 0 else 1 + FirstUnknownTool(uses[1..])
  }

  /**
   * One legacy round. Building the list of futures calls `toolResultFor` on each use in order; an unknown tool name
   * throws there, after the lookups of the uses before it were started and before any later one is. With only known
   * names every lookup is started, and the round's outcome is the in-order join.
   */
  function AsyncToolRound(uses: seq<ToolUseRequest>, lookup: int -> IssueLookup): Round {
    var u := FirstUnknownTool(uses);
    if u < |uses| then Round(Failure(UnexpectedToolName(uses[u].name)), IssueIds(uses[..u]))
    else Round(JoinInOrder(ResultsOf(uses, lookup)), IssueIds(uses))
  }

  // ------------------------------------------------------------- fan-in order

  /** The futures complete in the order `order` (tool-use indices): each fills its slot with its result. */
  function Complete(order: seq<nat>, rs: seq<Result<ToolResult, SessionError>>): map<nat, Result<ToolResult, SessionError>>
    requires forall i :: 0 <= i < |order| ==> order[i] < |rs|
    decreases |order|
  {
    if order == [] then map[]
    else
      var last := order[|order| - 1];
      Complete(order[..|order| - 1], rs)[last := rs[last]]
  }

  /** The slots filled so far are those of the completed futures, each holding its own future's result. */
  lemma {:induction false} CompleteSlots(order: seq<nat>, rs: seq<Result<ToolResult, SessionError>>)
    requires forall i :: 0 <= i < |order| ==> order[i] < |rs|
    ensures forall k :: k in Complete(order, rs) <==> k in order
    ensures forall k :: k in Complete(order, rs) ==> k < |rs| && Complete(order, rs)[k] == rs[k]
    decreases |order|
  {
    if order != [] {
      var init := order[..|order| - 1];
      CompleteSlots(init, rs);
      assert order == init + [order[|order| - 1]];
    }
  }

  /** Joining the slots in list order, once every slot is filled. */
  function JoinSlots(slots: map<nat, Result<ToolResult, SessionError>>, n: nat): Result<seq<ToolResult>, SessionError>
    requires forall i :: 0 <= i < n ==> i in slots
  {
    JoinInOrder(seq(n, i requires 0 <= i < n => slots[i]))
  }

  /**
   * Completion order does not matter: whatever order the futures complete in, once all have completed the joined
   * outcome is the in-order join of their results.
   */
  lemma CompletionOrderIrrelevant(order: seq<nat>, rs: seq<Result<ToolResult, SessionError>>)
    requires forall i :: 0 <= i < |order| ==> order[i] < |rs|
    requires forall i :: 0 <= i < |rs| ==> i in order
    ensures forall i :: 0 <= i < |rs| ==> i in Complete(order, rs)
    ensures JoinSlots(Complete(order, rs), |rs|) == JoinInOrder(rs)
  {
    CompleteSlots(order, rs);
    var slots := Complete(order, rs);
    assert seq(|rs|, i requires 0 <= i < |rs| => slots[i]) == rs;
  }

  // ------------------------------------------------------- agreement per round

  /** With known tool names only, the in-order join gives exactly the tool results of the sequential round. */
  lemma {:induction false} JoinInOrderIsSyncRound(uses: seq<ToolUseRequest>, lookup: int -> IssueLookup)
    ensures JoinInOrder(ResultsOf(uses, lookup)) == SyncToolRound(uses, lookup).results
  {
    if uses != [] {
      JoinInOrderIsSyncRound(uses[1..], lookup);
      assert ResultsOf(uses, lookup)[1..] == ResultsOf(uses[1..], lookup);
    }
  }

  /** Appending to a run of tool uses appends to its issue ids. */
  lemma IssueIdsPrefix(uses: seq<ToolUseRequest>, a: nat, b: nat)
    requires a <= b <= |uses|
    ensures IssueIds(uses[..b]) == IssueIds(uses[..a]) + IssueIds(uses[a..b])
  {
  }

  /**
   * The legacy round succeeds exactly when the sequential one does, with the same tool results and lookups. When it
   * fails, it fails with the first unknown tool name if there is one, and the sequential round's lookups are a
   * prefix of its own: it may have started lookups after the first failing one.
   */
  lemma {:induction false} AsyncRoundAgrees(uses: seq<ToolUseRequest>, lookup: int -> IssueLookup)
    ensures var a := AsyncToolRound(uses, lookup);
      var s := SyncToolRound(uses, lookup);
      && (a.results.Success? <==> s.results.Success?)
      && (a.results.Success? ==> a == s)
      && (FirstUnknownTool(uses) < |uses| ==>
            a.results == Failure(UnexpectedToolName(uses[FirstUnknownTool(uses)].name)))
      && (FirstUnknownTool(uses) == |uses| ==> a.results == s.results && a.lookups == IssueIds(uses))
      && |s.lookups| <= |a.lookups| && a.lookups[..|s.lookups|] == s.lookups
  {
    SyncToolRoundSpec(uses, lookup);
    JoinInOrderIsSyncRound(uses, lookup);
    if FirstUnknownTool(uses) < |uses| {
      UnknownToolRound(uses, lookup);
    } else {
      KnownToolsRound(uses, lookup);
    }
  }

  /** A round with an unknown tool name: the sequential round stops at or before it, having looked up less. */
  lemma UnknownToolRound(uses: seq<ToolUseRequest>, lookup: int -> IssueLookup)
    requires FirstUnknownTool(uses) < |uses|
    ensures var s := SyncToolRound(uses, lookup);
      var a := AsyncToolRound(uses, lookup);
      s.results.Failure? && |s.lookups| <= |a.lookups| && a.lookups[..|s.lookups|] == s.lookups
  {
    var u := FirstUnknownTool(uses);
    var k := FirstFailure(uses, lookup);
    SyncToolRoundSpec(uses, lookup);
    var s := SyncToolRound(uses, lookup);
    assert ToolResultFor(uses[u], lookup).Failure?;
    assert k <= u;
    var upTo := if k < u then k + 1 else k;
    if k < u {
      assert uses[k].name == FETCH_ISSUE_DETAILS_TOOL_NAME;
      assert uses[..k + 1] == uses[..k] + [uses[k]];
    }
    assert s.lookups == IssueIds(uses[..upTo]);
    IssueIdsPrefix(uses, upTo, u);
  }

  /** A round with known tool names only: the sequential round's lookups are a prefix of all of them. */
  lemma KnownToolsRound(uses: seq<ToolUseRequest>, lookup: int -> IssueLookup)
    requires FirstUnknownTool(uses) == |uses|
    ensures var s := SyncToolRound(uses, lookup);
      |s.lookups| <= |uses| && IssueIds(uses)[..|s.lookups|] == s.lookups
  {
    var k := FirstFailure(uses, lookup);
    SyncToolRoundSpec(uses, lookup);
    var s := SyncToolRound(uses, lookup);
    assert uses[..|uses|] == uses;
    if k < |uses| {
      assert uses[..k + 1] == uses[..k] + [uses[k]];
      assert s.lookups == IssueIds(uses[..k + 1]);
      IssueIdsPrefix(uses, k + 1, |uses|);
    } else {
      IssueIdsPrefix(uses, k, |uses|);
    }
  }

  // ------------------------------------------------------------------ the loop

  /** `loopUntilDone` after `j` requests have been answered by `script[..j]`. */
  function LoopFrom(release: ReleaseDetails, repo: RepositoryIdentifier, lookup: int -> IssueLookup,
                    script: seq<Message>, j: nat, requests: seq<seq<Turn>>, lookups: seq<int>): SessionRun
    requires 1 <= j <= |script| && |requests| == j
    decreases |script| - j
  {
    var response := script[j - 1];
    if response.stopReason == Some(ToolUse) then
      var round := AsyncToolRound(ToolUsesOf(response.content), lookup);
      match round.results
      case Failure(e) => SessionRun(Failure(e), requests, lookups + round.lookups)
      case Success(results) =>
        var next := requests[j - 1] + [AssistantMessage(response), ToolResultsMessage(results)];
        if j == |script| then SessionRun(Failure(ModelUnavailable), requests + [next], lookups + round.lookups)
        else LoopFrom(release, repo, lookup, script, j + 1, requests + [next], lookups + round.lookups)
    else
      SessionRun(Completion(release, repo, response), requests, lookups)
  }

  /** `summarize(repositoryIdentifier, release)` against a scripted model. */
  function LegacySummaryRun(release: ReleaseDetails, repo: RepositoryIdentifier, lookup: int -> IssueLookup, script: seq<Message>): SessionRun {
    var initial := InitialConversation(release, repo);
    if script == [] then SessionRun(Failure(ModelUnavailable), [initial], [])
    else LoopFrom(release, repo, lookup, script, 1, [initial], [])
  }

  /** Both loops from the same point: the same requests, success together, the same outcome on success. */
  lemma {:induction false} LoopFromAgrees(release: ReleaseDetails, repo: RepositoryIdentifier, lookup: int -> IssueLookup,
                                          script: seq<Message>, j: nat, requests: seq<seq<Turn>>, lookups: seq<int>)
    requires 1 <= j <= |script| && |requests| == j
    ensures var a := LoopFrom(release, repo, lookup, script, j, requests, lookups);
      var s := RunFrom(release, repo, lookup, script, j, requests, lookups);
      && a.requests == s.requests
      && (a.result.Success? <==> s.result.Success?)
      && (s.result.Success? ==> a == s)
      && |s.lookups| <= |a.lookups| && a.lookups[..|s.lookups|] == s.lookups
    decreases |script| - j
  {
    var response := script[j - 1];
    if response.stopReason == Some(ToolUse) {
      var uses := ToolUsesOf(response.content);
      AsyncRoundAgrees(uses, lookup);
      var a := AsyncToolRound(uses, lookup);
      var s := SyncToolRound(uses, lookup);
      if a.results.Failure? {
        assert (lookups + a.lookups)[..|lookups + s.lookups|] == lookups + s.lookups;
      } else if j < |script| {
        var next := requests[j - 1] + [AssistantMessage(response), ToolResultsMessage(a.results.value)];
        LoopFromAgrees(release, repo, lookup, script, j + 1, requests + [next], lookups + a.lookups);
      }
    }
  }

  /**
   * The legacy summarizer sends exactly the requests the newer session sends, succeeds exactly when it does and then
   * with the same summary and lookups; the newer session's lookups are always a prefix of the legacy one's.
   */
  lemma LegacyAgreesWithSession(release: ReleaseDetails, repo: RepositoryIdentifier, lookup: int -> IssueLookup, script: seq<Message>)
    ensures var a := LegacySummaryRun(release, repo, lookup, script);
      var s := SummaryRun(release, repo, lookup, script);
      && a.requests == s.requests
      && (a.result.Success? <==> s.result.Success?)
      && (s.result.Success? ==> a == s)
      && |s.lookups| <= |a.lookups| && a.lookups[..|s.lookups|] == s.lookups
  {
    if script != [] {
      LoopFromAgrees(release, repo, lookup, script, 1, [InitialConversation(release, repo)], []);
    }
  }

  /**
   * A TOOL_USE response with a failing lookup followed by an unknown tool name: the newer session stops at the
   * lookup, the legacy one reports the unknown name, both having looked up the issue.
   */
  lemma UnknownToolTakesPrecedence(lookup: int -> IssueLookup, uses: seq<ToolUseRequest>)
    requires |uses| == 2 && uses[0].name == FETCH_ISSUE_DETAILS_TOOL_NAME && !lookup(uses[0].issueId).Details?
    requires uses[1].name != FETCH_ISSUE_DETAILS_TOOL_NAME
    ensures AsyncToolRound(uses, lookup) == Round(Failure(UnexpectedToolName(uses[1].name)), [uses[0].issueId])
    ensures SyncToolRound(uses, lookup) ==
              Round(Failure(IssueLookupFailed(uses[0].issueId, lookup(uses[0].issueId))), [uses[0].issueId])
  {
    assert FirstUnknownTool(uses[1..]) == 0;
    assert uses[..1] == [uses[0]];
  }

  // ------------------------------------------------------ the mutable builder

  /** `MessageCreateParams.Builder`: the conversation so far; the add methods append in place and return it. */
  class MessageParamsBuilder {
    var messages: seq<Turn>

    constructor (initial: seq<Turn>)
      ensures messages == initial
    {
      messages := initial;
    }

    method AddMessage(response: Message)
      modifies this
      ensures messages == old(messages) + [AssistantMessage(response)]
    {
      messages := messages + [AssistantMessage(response)];
    }

    method AddUserMessageOfBlockParams(results: seq<ToolResult>)
      modifies this
      ensures messages == old(messages) + [ToolResultsMessage(results)]
    {
      messages := messages + [ToolResultsMessage(results)];
    }
  }

  class ReleaseSummarizer {
    /** The GitHub client's issue lookup. */
    const lookup: int -> IssueLookup
    /** The model client: the responses it gives, in order. */
    const script: seq<Message>

    constructor (lookup: int -> IssueLookup, script: seq<Message>)
      ensures this.lookup == lookup && this.script == script
    {
      this.lookup := lookup;
      this.script := script;
    }

    /** `summarize`: the first request, then `loopUntilDone` on its response. */
    method Summarize(repositoryIdentifier: RepositoryIdentifier, gitHubReleaseDetails: ReleaseDetails)
      returns (result: Result<SummaryResult, SessionError>, requests: seq<seq<Turn>>, lookups: seq<int>)
      ensures SessionRun(result, requests, lookups) == LegacySummaryRun(gitHubReleaseDetails, repositoryIdentifier, lookup, script)
    {
      var paramsBuilder := new MessageParamsBuilder(InitialConversation(gitHubReleaseDetails, repositoryIdentifier));
      if |script| == 0 {
        return Failure(ModelUnavailable), [paramsBuilder.messages], [];
      }
      result, requests, lookups :=
        LoopUntilDone(repositoryIdentifier, gitHubReleaseDetails, paramsBuilder, script[0], 1, [paramsBuilder.messages], []);
    }

    /**
     * `loopUntilDone(..., previousParamsBuilder, response)` after `calls` requests: `sent` are the requests so far,
     * the builder holds the last of them and `response` is the answer to it.
     */
    method LoopUntilDone(repositoryIdentifier: RepositoryIdentifier, gitHubReleaseDetails: ReleaseDetails,
                         previousParamsBuilder: MessageParamsBuilder, response: Message, calls: nat,
                         sent: seq<seq<Turn>>, issued: seq<int>)
      returns (result: Result<SummaryResult, SessionError>, requests: seq<seq<Turn>>, lookups: seq<int>)
      requires 1 <= calls <= |script| && |sent| == calls
      requires response == script[calls - 1] && previousParamsBuilder.messages == sent[calls - 1]
      modifies previousParamsBuilder
      ensures SessionRun(result, requests, lookups)
              == LoopFrom(gitHubReleaseDetails, repositoryIdentifier, lookup, script, calls, sent, issued)
      decreases |script| - calls
    {
      if response.stopReason == Some(ToolUse) {
        var round := AsyncToolRound(ToolUsesOf(response.content), lookup);
        match round.results {
          case Failure(e) =>
            return Failure(e), sent, issued + round.lookups;
          case Success(toolResults) =>
            previousParamsBuilder.AddMessage(response);
            previousParamsBuilder.AddUserMessageOfBlockParams(toolResults);
            assert previousParamsBuilder.messages
                == sent[calls - 1] + [AssistantMessage(response), ToolResultsMessage(toolResults)];
            var sent' := sent + [previousParamsBuilder.messages];
            if calls == |script| {
              return Failure(ModelUnavailable), sent', issued + round.lookups;
            }
            result, requests, lookups := LoopUntilDone(repositoryIdentifier, gitHubReleaseDetails, previousParamsBuilder,
                                                       script[calls], calls + 1, sent', issued + round.lookups);
        }
      } else {
        return Completion(gitHubReleaseDetails, repositoryIdentifier, response), sent, issued;
      }
    }
  }
}
