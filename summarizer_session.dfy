/**
 * `summarizer.domain.SummarizerSession`: the synchronous tool-use loop. The model client is a script of the
 * responses it gives, one per request; the GitHub client is a function from issue id to the lookup's outcome.
 */
module SummarizerSessionLoop {
  import opened Wrappers
  import opened JavaText
  import opened SummarizerDomain
  import opened GitHubApi
  import opened AnthropicMessages
  import opened ToolLoop

  /**
   * One round's tool results, as the sequential stream `map(this::toolResultFor).toList()` produces them: every use
   * answered in order, or the failure of the first use that fails, after which no further lookup is issued.
   */
  function SyncToolRound(uses: seq<ToolUseRequest>, lookup: int -> IssueLookup): Round {
    if uses == [] then Round(Success([]), [])
    else
      var issued := if uses[0].name == FETCH_ISSUE_DETAILS_TOOL_NAME then [uses[0].issueId] else [];
      match ToolResultFor(uses[0], lookup)
      case Failure(e) => Round(Failure(e), issued)
      case Success(t) =>
        var rest := SyncToolRound(uses[1..], lookup);
        var results := match rest.results
          case Success(ts) => Success([t] + ts)
          case Failure(e) => Failure(e);
        Round(results, issued + rest.lookups)
  }

  /**
   * A round succeeds exactly when every tool use does, and then answers each use in order under its id, having
   * looked up each use's issue in order; otherwise it fails with the first failing use's error, having looked up only
   * the issues up to that use.
   */
  lemma {:induction false} SyncToolRoundSpec(uses: seq<ToolUseRequest>, lookup: int -> IssueLookup)
    ensures var r := SyncToolRound(uses, lookup);
      var k := FirstFailure(uses, lookup);
      && (r.results.Success? <==> k == |uses|)
      && (r.results.Success? ==> Answers(r.results.value, uses, lookup))
      && (r.results.Failure? ==> r.results.error == ToolResultFor(uses[k], lookup).error)
      && r.lookups == IssueIds(uses[..k])
                      + (if k < |uses| && uses[k].name == FETCH_ISSUE_DETAILS_TOOL_NAME then [uses[k].issueId] else [])
  {
    if uses != [] {
      var head := ToolResultFor(uses[0], lookup);
      if head.Failure? {
        assert uses[..0] == [];
      } else {
        var tail := uses[1..];
        SyncToolRoundSpec(tail, lookup);
        var rest := SyncToolRound(tail, lookup);
        var k' := FirstFailure(tail, lookup);
        assert FirstFailure(uses, lookup) == k' + 1;
        assert uses[..k' + 1] == [uses[0]] + tail[..k'];
        assert k' < |tail| ==> uses[k' + 1] == tail[k'];
        if rest.results.Success? {
          var ts := [head.value] + rest.results.value;
          assert SyncToolRound(uses, lookup).results == Success(ts);
          forall i | 0 <= i < |uses| ensures ToolResultFor(uses[i], lookup) == Success(ts[i]) {
            if i > 0 { assert uses[i] == tail[i - 1]; }
          }
        }
      }
    }
  }

  /** What a session did: its outcome, every conversation it sent to the model, and every issue it looked up. */
  datatype SessionRun = SessionRun(result: Result<SummaryResult, SessionError>, requests: seq<seq<Turn>>, lookups: seq<int>)

  /** The conversation the session opens with: the instructions and the release notes. */
  function InitialConversation(release: ReleaseDetails, repo: RepositoryIdentifier): seq<Turn> {
    [UserPrompt(repo.repo, release.name, release.body)]
  }

  /**
   * The loop after `j` requests have been answered by `script[..j]`: while the latest response asks for tools,
   * answer them, append the response and the results to the conversation and send it again.
   */
  function RunFrom(release: ReleaseDetails, repo: RepositoryIdentifier, lookup: int -> IssueLookup,
                   script: seq<Message>, j: nat, requests: seq<seq<Turn>>, lookups: seq<int>): SessionRun
    requires 1 <= j <= |script| && |requests| == j
    decreases |script| - j
  {
    var latest := script[j - 1];
    if latest.stopReason == Some(ToolUse) then
      var round := SyncToolRound(ToolUsesOf(latest.content), lookup);
      match round.results
      case Failure(e) => SessionRun(Failure(e), requests, lookups + round.lookups)
      case Success(results) =>
        var next := requests[j - 1] + [AssistantMessage(latest), ToolResultsMessage(results)];
        if j == |script| then SessionRun(Failure(ModelUnavailable), requests + [next], lookups + round.lookups)
        else RunFrom(release, repo, lookup, script, j + 1, requests + [next], lookups + round.lookups)
    else
      SessionRun(Completion(release, repo, latest), requests, lookups)
  }

  /** `summarize()` against a scripted model: the first request is the initial conversation. */
  function SummaryRun(release: ReleaseDetails, repo: RepositoryIdentifier, lookup: int -> IssueLookup, script: seq<Message>): SessionRun {
    var initial := InitialConversation(release, repo);
    if script == [] then SessionRun(Failure(ModelUnavailable), [initial], [])
    else RunFrom(release, repo, lookup, script, 1, [initial], [])
  }

  /**
   * One round: the response asked for tools, and the next request is the previous one followed by that response and
   * then a single message answering every tool use, in order.
   */
  predicate RoundStep(prev: seq<Turn>, next: seq<Turn>, response: Message, lookup: int -> IssueLookup) {
    && response.stopReason == Some(ToolUse)
    && |next| == |prev| + 2
    && next[..|prev|] == prev
    && next[|prev|] == AssistantMessage(response)
    && next[|prev| + 1].ToolResultsMessage?
    && Answers(next[|prev| + 1].results, ToolUsesOf(response.content), lookup)
  }

  /** Every request after the first is one round on from the one before, the response being the script's. */
  predicate Rounds(requests: seq<seq<Turn>>, script: seq<Message>, lookup: int -> IssueLookup) {
    && 1 <= |requests| <= |script| + 1
    && forall i :: 1 <= i < |requests| ==> RoundStep(requests[i - 1], requests[i], script[i - 1], lookup)
  }

  /** The issue ids asked for by the first k responses, in order. */
  function RoundIssueIds(script: seq<Message>, k: nat): seq<int>
    requires k <= |script|
  {
    if k == 0 then [] else RoundIssueIds(script, k - 1) + IssueIds(ToolUsesOf(script[k - 1].content))
  }

  /**
   * How a run that sent n requests ended: on a response that stops for another reason than TOOL_USE, with the
   * completion branching and the lookups of all earlier rounds; on a TOOL_USE response, with the failure of one of
   * its tool uses; or, having no response left for its last request, with the model call's failure.
   */
  predicate Ends(run: SessionRun, release: ReleaseDetails, repo: RepositoryIdentifier, lookup: int -> IssueLookup, script: seq<Message>) {
    var n := |run.requests|;
    && (1 <= n <= |script| && script[n - 1].stopReason != Some(ToolUse) ==>
          run.result == Completion(release, repo, script[n - 1]) && run.lookups == RoundIssueIds(script, n - 1))
    && (1 <= n <= |script| && script[n - 1].stopReason == Some(ToolUse) ==>
          run.result.Failure? && (run.result.error.UnexpectedToolName? || run.result.error.IssueLookupFailed?))
    && (n == |script| + 1 ==> run.result == Failure(ModelUnavailable) && run.lookups == RoundIssueIds(script, |script|))
  }

  lemma {:induction false} RunFromRounds(release: ReleaseDetails, repo: RepositoryIdentifier, lookup: int -> IssueLookup,
                                         script: seq<Message>, j: nat, requests: seq<seq<Turn>>, lookups: seq<int>)
    requires 1 <= j <= |script| && |requests| == j
    requires Rounds(requests, script, lookup)
    requires lookups == RoundIssueIds(script, j - 1)
    ensures var run := RunFrom(release, repo, lookup, script, j, requests, lookups);
      && Rounds(run.requests, script, lookup)
      && j <= |run.requests| && run.requests[..j] == requests
      && Ends(run, release, repo, lookup, script)
    decreases |script| - j
  {
    var run := RunFrom(release, repo, lookup, script, j, requests, lookups);
    var latest := script[j - 1];
    if latest.stopReason != Some(ToolUse) {
      assert run == SessionRun(Completion(release, repo, latest), requests, lookups);
      assert requests[..j] == requests;
      return;
    }
    var round := SyncToolRound(ToolUsesOf(latest.content), lookup);
    if round.results.Failure? {
      assert run == SessionRun(Failure(round.results.error), requests, lookups + round.lookups);
      assert requests[..j] == requests;
      RoundFailure(ToolUsesOf(latest.content), lookup);
      return;
    }
    var next := requests[j - 1] + [AssistantMessage(latest), ToolResultsMessage(round.results.value)];
    var requests' := requests + [next];
    var lookups' := lookups + round.lookups;
    ContinueRound(script, j, requests, lookups, lookup);
    if j == |script| {
      assert run == SessionRun(Failure(ModelUnavailable), requests', lookups');
      assert requests'[..j] == requests;
    } else {
      assert run == RunFrom(release, repo, lookup, script, j + 1, requests', lookups');
      RunFromRounds(release, repo, lookup, script, j + 1, requests', lookups');
      PrefixOfPrefix(run.requests, requests', requests);
    }
  }

  /** A failing round fails on an unknown tool name or on an issue lookup. */
  lemma RoundFailure(uses: seq<ToolUseRequest>, lookup: int -> IssueLookup)
    requires SyncToolRound(uses, lookup).results.Failure?
    ensures var e := SyncToolRound(uses, lookup).results.error; e.UnexpectedToolName? || e.IssueLookupFailed?
  {
    SyncToolRoundSpec(uses, lookup);
    var k := FirstFailure(uses, lookup);
    assert ToolResultFor(uses[k], lookup).Failure?;
  }

  /** A successful round on the j-th response extends the rounds by one request and the lookups by its issue ids. */
  lemma ContinueRound(script: seq<Message>, j: nat, requests: seq<seq<Turn>>, lookups: seq<int>, lookup: int -> IssueLookup)
    requires 1 <= j <= |script| && |requests| == j
    requires Rounds(requests, script, lookup) && lookups == RoundIssueIds(script, j - 1)
    requires script[j - 1].stopReason == Some(ToolUse)
    requires SyncToolRound(ToolUsesOf(script[j - 1].content), lookup).results.Success?
    ensures var round := SyncToolRound(ToolUsesOf(script[j - 1].content), lookup);
      var next := requests[j - 1] + [AssistantMessage(script[j - 1]), ToolResultsMessage(round.results.value)];
      && Rounds(requests + [next], script, lookup)
      && lookups + round.lookups == RoundIssueIds(script, j)
  {
    var uses := ToolUsesOf(script[j - 1].content);
    var round := SyncToolRound(uses, lookup);
    SyncToolRoundSpec(uses, lookup);
    var next := requests[j - 1] + [AssistantMessage(script[j - 1]), ToolResultsMessage(round.results.value)];
    assert uses[..|uses|] == uses;
    NextRound(requests, next, script, lookup);
  }

  lemma PrefixOfPrefix<T>(s: seq<T>, p: seq<T>, q: seq<T>)
    requires |p| <= |s| && s[..|p|] == p && |q| <= |p| && p[..|q|] == q
    ensures s[..|q|] == q
  {
    assert s[..|q|] == s[..|p|][..|q|];
  }

  /** Appending one round to rounds gives rounds. */
  lemma NextRound(requests: seq<seq<Turn>>, next: seq<Turn>, script: seq<Message>, lookup: int -> IssueLookup)
    requires Rounds(requests, script, lookup) && |requests| <= |script|
    requires RoundStep(requests[|requests| - 1], next, script[|requests| - 1], lookup)
    ensures Rounds(requests + [next], script, lookup)
  {
    var requests' := requests + [next];
    forall i | 1 <= i < |requests'|
      ensures RoundStep(requests'[i - 1], requests'[i], script[i - 1], lookup)
    {
      if i < |requests| {
        assert requests'[i - 1] == requests[i - 1] && requests'[i] == requests[i];
      }
    }
  }

  /**
   * The shape of every session. The first request is the initial conversation; each later one is the previous
   * request plus the TOOL_USE response and one message answering all its tool uses in order, so earlier turns never
   * change and the loop runs exactly while the stop reason is TOOL_USE. Once a response stops for another reason,
   * the outcome is the completion branching on it; a successful outcome is the summary of the release with the
   * final response's text, and the lookups issued were those of the tool uses of the rounds, in order.
   */
  lemma SummarizeRounds(release: ReleaseDetails, repo: RepositoryIdentifier, lookup: int -> IssueLookup, script: seq<Message>)
    ensures var run := SummaryRun(release, repo, lookup, script);
      var n := |run.requests|;
      && Rounds(run.requests, script, lookup)
      && run.requests[0] == InitialConversation(release, repo)
      && Ends(run, release, repo, lookup, script)
      && (run.result.Success? ==>
            && n <= |script| && script[n - 1].stopReason == Some(EndTurn)
            && !IsBlank(TextOf(script[n - 1].content))
            && run.result.value == SummaryResult(release.id, release.name, repo, TextOf(script[n - 1].content)))
  {
    var initial := InitialConversation(release, repo);
    var run := SummaryRun(release, repo, lookup, script);
    if script != [] {
      RunFromRounds(release, repo, lookup, script, 1, [initial], []);
      assert run.requests[..1] == [initial];
    }
  }

  /**
   * A model that asks for issue 42 and then answers with text: exactly one lookup, for 42, the tool result carries
   * the tool-use id and the issue's text, and the summary is the final text.
   */
  lemma OneToolRoundThenSummary(release: ReleaseDetails, repo: RepositoryIdentifier, lookup: int -> IssueLookup, text: string)
    requires lookup(42).Details? && !IsBlank(text)
    ensures var script := [
        Message([ToolUseBlock(ToolUseRequest("toolu_1", FETCH_ISSUE_DETAILS_TOOL_NAME, 42))], Some(ToolUse), None),
        Message([TextBlock(text)], Some(EndTurn), None)];
      var run := SummaryRun(release, repo, lookup, script);
      && run.lookups == [42]
      && run.result == Success(SummaryResult(release.id, release.name, repo, text))
      && |run.requests| == 2 && |run.requests[1]| == 3
      && run.requests[1][2] == ToolResultsMessage([ToolResult("toolu_1", IssueContent(lookup(42).details))])
  {
    var use := ToolUseRequest("toolu_1", FETCH_ISSUE_DETAILS_TOOL_NAME, 42);
    var first := Message([ToolUseBlock(use)], Some(ToolUse), None);
    var last := Message([TextBlock(text)], Some(EndTurn), None);
    var script := [first, last];
    var initial := InitialConversation(release, repo);
    assert ToolUsesOf(first.content) == [use];
    assert TextOf(last.content) == text;
    var answer := ToolResult("toolu_1", IssueContent(lookup(42).details));
    assert ToolResultFor(use, lookup) == Success(answer);
    assert [use][1..] == [];
    assert SyncToolRound([], lookup) == Round(Success([]), []);
    assert [answer] == [answer] + [];
    var round := SyncToolRound([use], lookup);
    assert round == Round(Success([answer]), [42]);
    var next := initial + [AssistantMessage(first), ToolResultsMessage([answer])];
    assert SummaryRun(release, repo, lookup, script) == RunFrom(release, repo, lookup, script, 1, [initial], []);
    assert RunFrom(release, repo, lookup, script, 1, [initial], [])
        == RunFrom(release, repo, lookup, script, 2, [initial, next], [42]);
    assert RunFrom(release, repo, lookup, script, 2, [initial, next], [42])
        == SessionRun(Success(SummaryResult(release.id, release.name, repo, text)), [initial, next], [42]);
  }

  /** A first response that ends the turn with no text fails with "Empty response" and looks nothing up. */
  lemma EmptyFirstResponse(release: ReleaseDetails, repo: RepositoryIdentifier, lookup: int -> IssueLookup, script: seq<Message>)
    requires script != [] && script[0].stopReason == Some(EndTurn)
    requires forall k :: 0 <= k < |script[0].content| ==> !script[0].content[k].TextBlock?
    ensures SummaryRun(release, repo, lookup, script) == SessionRun(Failure(EmptyResponse), [InitialConversation(release, repo)], [])
  {
    TextOfWithoutText(script[0].content);
  }

  class SummarizerSession {
    /** The GitHub client's issue lookup. */
    const lookup: int -> IssueLookup
    /** The model client: the responses it gives, in order. */
    const script: seq<Message>
    const repositoryIdentifier: RepositoryIdentifier
    const gitHubReleaseDetails: ReleaseDetails

    constructor (lookup: int -> IssueLookup, script: seq<Message>, repositoryIdentifier: RepositoryIdentifier,
                 gitHubReleaseDetails: ReleaseDetails)
      ensures this.lookup == lookup && this.script == script
      ensures this.repositoryIdentifier == repositoryIdentifier && this.gitHubReleaseDetails == gitHubReleaseDetails
    {
      this.lookup := lookup;
      this.script := script;
      this.repositoryIdentifier := repositoryIdentifier;
      this.gitHubReleaseDetails := gitHubReleaseDetails;
    }

    /** The `while` loop of `summarize()`: returns the outcome, the requests it sent and the lookups it issued. */
    method Summarize() returns (result: Result<SummaryResult, SessionError>, requests: seq<seq<Turn>>, lookups: seq<int>)
      ensures SessionRun(result, requests, lookups) == SummaryRun(gitHubReleaseDetails, repositoryIdentifier, lookup, script)
    {
      var conversation := InitialConversation(gitHubReleaseDetails, repositoryIdentifier);
      requests := [conversation];
      lookups := [];
      if |script| == 0 {
        result := Failure(ModelUnavailable);
        return;
      }
      var calls := 1;
      var latestResponse := script[0];
      ghost var run := SummaryRun(gitHubReleaseDetails, repositoryIdentifier, lookup, script);
      while latestResponse.stopReason == Some(ToolUse)
        invariant 1 <= calls <= |script| && |requests| == calls
        invariant latestResponse == script[calls - 1] && conversation == requests[calls - 1]
        invariant RunFrom(gitHubReleaseDetails, repositoryIdentifier, lookup, script, calls, requests, lookups) == run
        decreases |script| - calls
      {
        var round := SyncToolRound(ToolUsesOf(latestResponse.content), lookup);
        lookups := lookups + round.lookups;
        if round.results.Failure? {
          result := Failure(round.results.error);
          return;
        }
        conversation := conversation + [AssistantMessage(latestResponse), ToolResultsMessage(round.results.value)];
        requests := requests + [conversation];
        if calls == |script| {
          result := Failure(ModelUnavailable);
          return;
        }
        latestResponse := script[calls];
        calls := calls + 1;
      }
      result := Completion(gitHubReleaseDetails, repositoryIdentifier, latestResponse);
    }
  }
}
