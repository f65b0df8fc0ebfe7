# Changelog agent: repository aggregate, tool-use loop and release check

This project is a Dafny model of the core of the changelog agent, a service that watches GitHub repositories. For each repository it:

- keeps an event-sourced aggregate holding the releases it has seen and their summaries;
- periodically asks GitHub for the latest release;
- when that release is newer than every release seen, has a language model summarize the release notes, letting the model look up GitHub issues through a `fetchIssueDetails` tool, and stores the summary.

The code exists in two versions and both are modelled.

The newer `summarizer` package:
- `RepositoryState` (class `SummarizerRepositoryState.RepositoryState`).
- `GitHubRepositoryEntity` (`SummarizerRepositoryEntity`). The framework-held current state and the event journal are fields of the entity class, so every command keeps "current state == replay of the journal".
- The synchronous `while` loop of `SummarizerSession` (`SummarizerSessionLoop`). It is proved against the recursive specification `RunFrom`.
- `CheckForRelease` (`SummarizerCheckForRelease`): the decision, the stored-token override, the save, and the timer started only on success.

The older top-level packages:
- `domain.RepositoryState` and `application.GitHubRepositoryEntity` (`LegacyRepositoryState`, `LegacyRepositoryEntity`).
- The asynchronous recursion of `domain.ReleaseSummarizer` with its in-order fan-in (`LegacyReleaseSummarizer`).
- `application.CheckForRelease` (`LegacyCheckForRelease`), which combines the two lookups and never reschedules.

Shared modules:
- `Wrappers`: Option and Result.
- `ReleaseIds`: Java `long` and the maximum of a set.
- `JavaText`: `String.split` with its trailing-empty-string removal, and `isBlank`.
- `SummarizerDomain`: records and events.
- `GitHubApi`: the issue lookup's status switch and the client's token.
- `AnthropicMessages`: responses, content blocks and conversation turns.
- `ToolLoop`: `toolResultFor`, and the stop-reason branching both loops share.

Modelling choices:
- The language model is a script: the sequence of responses it gives, one per request. A request with no response left is the model call failing (`ModelUnavailable`).
- The GitHub issue lookup is a function from issue id to the outcome of the status switch.
- The latest-release lookup is a function of the client, since the client carries the token.
- Exceptions become `Failure` values.
- A dereference of the absent current state (a `NullPointerException`) becomes `NotInitialized`.
- Clock readings (`Instant.now()`) are parameters.
- The prompt text is not modelled: the first turn records only the repository name and the release's name and body.

Points where the code does something a reader might not expect:
- The newer `CheckForRelease` starts the next timer only when the check completed without failure (`whenComplete` at `summarizer/application/CheckForRelease.java:75-86`), not after every check.
- The tool is named `fetchIssueDetails`.
- The legacy `ReleaseSummary` record declares four fields. The legacy code builds it with five values (name, id, audience, date, text) and reads a `githubReleaseId` from it, so it has those five fields here.
- The legacy `RepositoryEvent` declares only `Created`, but the legacy code also matches on `SummaryAdded`, so the model has both events.

## Model

| member | source | states |
|---|---|---|
| ReleaseIds.LatestOf | src/main/java/summarizer/domain/RepositoryState.java:25-27 | the stream maximum of a set of release ids: empty exactly for the empty set, otherwise an element at least as large as every element |
| ReleaseIds.LatestOfInsert | src/main/java/summarizer/domain/RepositoryState.java:25-33 | inserting id r moves the maximum to the larger of the old maximum and r |
| ReleaseIds.LatestOfMonotone | src/main/java/summarizer/domain/RepositoryState.java:25-33 | a larger set never has a smaller maximum |
| SummarizerDomain.RepositoryIdentifier.ToString | src/main/java/summarizer/domain/RepositoryIdentifier.java:4-7 | the string form is the owner, a slash, and the repo |
| SummarizerRepositoryState.RepositoryState.constructor | src/main/java/summarizer/domain/RepositoryState.java:18-23 | a new state has no seen releases, no summaries, and the given date and token |
| SummarizerRepositoryState.RepositoryState.GetLatestSeenRelease | src/main/java/summarizer/domain/RepositoryState.java:25-27 | empty iff nothing was seen, otherwise the maximum of the seen ids |
| SummarizerRepositoryState.RepositoryState.AddSummary | src/main/java/summarizer/domain/RepositoryState.java:29-34 | prepends the summary, inserts its release id, leaves date and token alone and returns the same object |
| SummarizerRepositoryState.RepositoryState.GetSummaries | src/main/java/summarizer/domain/RepositoryState.java:36-38 | the summary list |
| SummarizerRepositoryState.RepositoryState.GetGitHubApiToken | src/main/java/summarizer/domain/RepositoryState.java:43-45 | exactly the token given at construction |
| SummarizerRepositoryState.Fresh | src/main/java/summarizer/domain/RepositoryState.java:18-23 | the value of a new state; stated by FreshState |
| SummarizerRepositoryState.WithSummary | src/main/java/summarizer/domain/RepositoryState.java:29-34 | the value after `addSummary`; stated by WithSummaryRaisesLatest and WithSummaryDuplicate |
| SummarizerRepositoryState.FreshState | src/main/java/summarizer/domain/RepositoryState.java:18-23 | a fresh state's latest seen release is empty, it holds no summaries, and it keeps date and token |
| SummarizerRepositoryState.WithSummaryRaisesLatest | src/main/java/summarizer/domain/RepositoryState.java:25-33 | after adding release r the latest seen release is max(old latest, r); the high-water mark never decreases |
| SummarizerRepositoryState.WithSummaryDuplicate | src/main/java/summarizer/domain/RepositoryState.java:31-32 | a summary for a release already seen leaves the seen set unchanged but still grows the list |
| SummarizerRepositoryEntity.EntityIdFor | src/main/java/summarizer/application/GitHubRepositoryEntity.java:30-32 | the entity id is the organization, a slash, and the repository |
| SummarizerRepositoryEntity.EntityIdOf | src/main/java/summarizer/application/GitHubRepositoryEntity.java:27-29 | the entity id of an identifier is its string form `owner/repo` |
| JavaText.Split | src/main/java/summarizer/application/GitHubRepositoryEntity.java:35 | `split`: the pieces hold no separator; a string without the separator comes back whole; otherwise the pieces are a prefix of all separator-cut pieces, end in a non-empty piece (or are none), and only empty pieces were dropped |
| JavaText.DropTrailingEmpty | src/main/java/summarizer/application/GitHubRepositoryEntity.java:35 | Java's `split` removal of trailing empty strings: a prefix of the pieces ending in a non-empty piece, with only empty pieces dropped |
| JavaText.JoinSplitAll | src/main/java/summarizer/application/GitHubRepositoryEntity.java:35 | the separator-split pieces of a string are separator-free and re-join to the string |
| JavaText.SplitAllJoin | src/main/java/summarizer/application/GitHubRepositoryEntity.java:35 | splitting the join of separator-free pieces gives back the pieces |
| SummarizerRepositoryEntity.IdentifierFor | src/main/java/summarizer/application/GitHubRepositoryEntity.java:34-41 | a refused id fails with `InvalidEntityId` of that id; an accepted id gives an owner and a non-empty repository, both without "/" |
| SummarizerRepositoryEntity.IdentifierForEntityIdFor | src/main/java/summarizer/application/GitHubRepositoryEntity.java:27-41 | `identifierFor(entityIdFor(o, r))` is (o, r) for slash-free o and non-empty slash-free r, even with trailing slashes appended |
| SummarizerRepositoryEntity.IdentifierForRejectsEmptyRepo | src/main/java/summarizer/application/GitHubRepositoryEntity.java:34-41 | `identifierFor("o/")` fails: `split` drops the empty repo, leaving one part |
| SummarizerRepositoryEntity.IdentifierForSound | src/main/java/summarizer/application/GitHubRepositoryEntity.java:34-41 | whatever `identifierFor` accepts is owner/repo with both parts slash-free and the repo non-empty, followed only by slashes; the owner may be empty, since `split` keeps leading empty strings |
| SummarizerRepositoryEntity.ApplyValue | src/main/java/summarizer/application/GitHubRepositoryEntity.java:74-80 | `applyEvent` on state values: Created gives a fresh state with the event's date and token, SummaryAdded the state with the summary added; its use on the entity is stated by ApplyEvent and Persist |
| SummarizerRepositoryEntity.Replay | src/main/java/summarizer/application/GitHubRepositoryEntity.java:74-80 | the state the framework rebuilds by applying the journal's events in order; stated by ReplayWellFormed and ReplayLatestSeen |
| SummarizerRepositoryEntity.ReplayWellFormed | src/main/java/summarizer/application/GitHubRepositoryEntity.java:74-80 | replaying a journal of one Created event and then SummaryAdded events gives the Created date and token, every added id as seen and every summary, newest first |
| SummarizerRepositoryEntity.ReplayLatestSeen | src/main/java/summarizer/application/GitHubRepositoryEntity.java:59-62 | after such a journal, the latest seen release is the maximum of the added release ids |
| SummarizerRepositoryEntity.GitHubRepositoryEntity.constructor | src/main/java/summarizer/application/GitHubRepositoryEntity.java:23 | an entity starts with no state and an empty journal |
| SummarizerRepositoryEntity.GitHubRepositoryEntity.SetUp | src/main/java/summarizer/application/GitHubRepositoryEntity.java:47-57 | fails and persists nothing when a state exists; otherwise persists Created with the requested token, giving a fresh state |
| SummarizerRepositoryEntity.GitHubRepositoryEntity.GetLatestSeenRelease | src/main/java/summarizer/application/GitHubRepositoryEntity.java:59-62 | the maximum of all release ids ever added, paired with the token of the Created event; a failure before set-up |
| SummarizerRepositoryEntity.GitHubRepositoryEntity.AddSummary | src/main/java/summarizer/application/GitHubRepositoryEntity.java:64-68 | always appends SummaryAdded to the journal, with no check against seen ids; the same state object is updated |
| SummarizerRepositoryEntity.GitHubRepositoryEntity.GetSummaries | src/main/java/summarizer/application/GitHubRepositoryEntity.java:70-72 | all added summaries, newest first |
| SummarizerRepositoryEntity.GitHubRepositoryEntity.ApplyEvent | src/main/java/summarizer/application/GitHubRepositoryEntity.java:74-80 | Created yields a fresh state with the event's date and token; SummaryAdded is the current state's `addSummary`, in place |
| SummarizerRepositoryEntity.GitHubRepositoryEntity.Persist | src/main/java/summarizer/application/GitHubRepositoryEntity.java:55-56 | persisting applies the event, appends it to the journal and makes the result the current state, keeping state == replay(journal) |
| GitHubApi.LookupOutcome | src/main/java/summarizer/integration/GitHubApiClient.java:131-140 | 200 gives the issue details, 301 transferred (with the location), 404 not found, 410 deleted, any other status unexpected |
| GitHubApi.GitHubClient.WithApiToken | src/main/java/summarizer/integration/GitHubApiClient.java:78-80 | the new client sends the given token |
| AnthropicMessages.ToolUsesOf | src/main/java/summarizer/domain/SummarizerSession.java:105 | a tool use is returned iff some content block carries it, and there are at most as many as blocks; order and multiplicity are stated by ToolUsesAtIndices |
| AnthropicMessages.ToolUseIndices | src/main/java/summarizer/domain/SummarizerSession.java:105 | the positions of the tool-use blocks: strictly ascending, each pointing at a tool-use block, and covering every tool-use block |
| AnthropicMessages.ToolUsesAtIndices | src/main/java/summarizer/domain/SummarizerSession.java:105 | the k-th tool use is the one carried by the k-th tool-use block, so `flatMap(toolUse)` keeps block order and multiplicity |
| AnthropicMessages.TextOf | src/main/java/summarizer/domain/SummarizerSession.java:127-129 | the text of the text blocks, concatenated in block order; its behaviour is stated by TextOfConcat and TextOfWithoutText |
| AnthropicMessages.ToolUsesOfConcat | src/main/java/summarizer/domain/SummarizerSession.java:105 | the tool uses of concatenated blocks are the concatenation of the tool uses |
| AnthropicMessages.TextOfConcat | src/main/java/summarizer/domain/SummarizerSession.java:127-129 | the text of concatenated blocks is the concatenation of their texts |
| AnthropicMessages.TextOfWithoutText | src/main/java/summarizer/domain/SummarizerSession.java:127-129 | a response with no text block has the empty text |
| ToolLoop.ToolResultFor | src/main/java/summarizer/domain/SummarizerSession.java:150-169 | a `fetchIssueDetails` use whose lookup finds the issue is answered under the same tool-use id with the issue text; another tool name fails with the name; a failed lookup fails with its outcome |
| ToolLoop.IssueContent | src/main/java/summarizer/domain/SummarizerSession.java:161-164 | the tool result text of an issue: `##title` and a newline when there is a title, then the body, null parts as ""; IssueContentParses reads it back |
| ToolLoop.IssueContentParses | src/main/java/summarizer/domain/SummarizerSession.java:162-164 | the tool result text `##title\nbody` gives back the title and body (absent parts as "") when the title is newline-free and, for an issue without a title, when the body does not itself start with a `##` line ended by a newline |
| ToolLoop.FirstFailure | src/main/java/summarizer/domain/SummarizerSession.java:104-106 | the index of the first tool use that fails: all before it succeed |
| JavaText.IsWhitespace | src/main/java/summarizer/domain/SummarizerSession.java:137 | Java's `Character.isWhitespace`: space, line and paragraph separators other than the no-break ones, the tab and line controls, and U+001C to U+001F |
| JavaText.IsBlank | src/main/java/summarizer/domain/SummarizerSession.java:137 | `isBlank`: empty or only whitespace |
| ToolLoop.Completion | src/main/java/summarizer/domain/SummarizerSession.java:124-147 | END_TURN with non-blank text gives `SummaryResult(id, name, repo, text)`; blank text fails "Empty response"; MAX_TOKENS fails; any other stop reason fails with the stop sequence |
| SummarizerSessionLoop.SyncToolRound | src/main/java/summarizer/domain/SummarizerSession.java:104-106 | one round of the newer loop: `toolResultFor` on each tool use in order, stopping at the first that throws; stated by SyncToolRoundSpec |
| SummarizerSessionLoop.SyncToolRoundSpec | src/main/java/summarizer/domain/SummarizerSession.java:104-106 | a round succeeds iff every tool use does, and then answers each use in order under its id; otherwise it fails with the first failing use's error, having looked up only the issues up to that use |
| SummarizerSessionLoop.RunFromRounds | src/main/java/summarizer/domain/SummarizerSession.java:99-147 | every run from a valid point extends the requests so far by rounds, and ends as the stop-reason branching, a tool failure, or the model running out |
| SummarizerSessionLoop.SummarizeRounds | src/main/java/summarizer/domain/SummarizerSession.java:99-147 | the loop runs exactly while the stop reason is TOOL_USE; each request is the previous one plus the response and one message answering all its tool uses, so earlier turns never change; a success is the final END_TURN text summarized for the release |
| SummarizerSessionLoop.RunFrom | src/main/java/summarizer/domain/SummarizerSession.java:99-147 | the `while` loop as a recursion on the script position; stated by RunFromRounds |
| SummarizerSessionLoop.SummaryRun | src/main/java/summarizer/domain/SummarizerSession.java:72-148 | a whole session: the first request, then RunFrom; stated by SummarizeRounds, and the method Summarize is proved equal to it |
| SummarizerSessionLoop.OneToolRoundThenSummary | src/main/java/summarizer/domain/SummarizerSession.java:99-139 | a model that asks for issue 42 and then answers: one lookup for 42, two requests, the second carrying the issue text under the tool-use id, and the answer as the summary |
| SummarizerSessionLoop.EmptyFirstResponse | src/main/java/summarizer/domain/SummarizerSession.java:124-137 | an END_TURN first response without text fails "Empty response" after one request and no lookups |
| SummarizerSessionLoop.SummarizerSession.constructor | src/main/java/summarizer/domain/SummarizerSession.java:65-70 | stores the clients, the repository and the release |
| SummarizerSessionLoop.SummarizerSession.Summarize | src/main/java/summarizer/domain/SummarizerSession.java:72-148 | the `while` loop returns exactly the outcome, requests and lookups of the specification `SummaryRun` |
| SummarizerCheckForRelease.LatestSeenReply | src/main/java/summarizer/application/CheckForRelease.java:49-51 | the entity's reply to `getLatestSeenRelease`: the maximum added release id and the stored token, or a failure before set-up |
| SummarizerCheckForRelease.IsNewRelease | src/main/java/summarizer/application/CheckForRelease.java:60 | the test "no id seen, or the seen id below GitHub's"; IsNewReleaseAboveAllSeen states what it means |
| SummarizerCheckForRelease.IsNewReleaseAboveAllSeen | src/main/java/summarizer/application/CheckForRelease.java:60 | "no seen release, or the latest seen id is less than GitHub's" holds exactly when GitHub's id is above every seen id |
| SummarizerCheckForRelease.AuthorizedClient | src/main/java/summarizer/application/CheckForRelease.java:54-55 | the stored token, when present, replaces the default client's token; otherwise the default client is used |
| SummarizerCheckForRelease.SavedSummary | src/main/java/summarizer/application/CheckForRelease.java:92-96 | the summary `saveSummary` sends: the session's release name, release id and text, dated now; stated by CheckSavesSummary |
| SummarizerCheckForRelease.CheckFor | src/main/java/summarizer/application/CheckForRelease.java:47-87 | one check against a journal, as a value: session run, summary saved, completion; stated by CheckSummarizesIff, CheckSavesSummary and RecheckSummarizesNothing, and CheckForNewRelease is proved to complete as it does |
| SummarizerCheckForRelease.NextTimer | src/main/java/summarizer/application/CheckForRelease.java:75-86 | a timer exists exactly when the check succeeded; it is keyed `owner/repo` and calls the check again for the same repository after the interval |
| SummarizerCheckForRelease.CheckSummarizesIff | src/main/java/summarizer/application/CheckForRelease.java:49-72 | the session runs exactly when the entity is set up, the latest-release lookup through the token-overridden client succeeded, and the release is above every added id; the session uses that release and that client's issue lookup |
| SummarizerCheckForRelease.CheckSavesSummary | src/main/java/summarizer/application/CheckForRelease.java:59-96 | a save happens exactly when the session succeeded, as `ReleaseSummary(name, id, now, text)`; a check that ran the session succeeds iff the session did |
| SummarizerCheckForRelease.RecheckSummarizesNothing | src/main/java/summarizer/application/CheckForRelease.java:60-71 | after a check saved a summary, checking again against the same latest release summarizes nothing and completes |
| SummarizerCheckForRelease.TimerScheduler.StartSingleTimer | src/main/java/summarizer/application/CheckForRelease.java:80-85 | the timer is recorded under its name, replacing any timer of that name |
| SummarizerCheckForRelease.CheckForRelease.CheckForNewRelease | src/main/java/summarizer/application/CheckForRelease.java:47-96 | completes as `CheckFor` on the entity's journal, appends exactly the saved summary to the journal, and starts the timer NextTimer gives, so only on success and under `owner/repo` |
| LegacyRepositoryState.RepositoryState.constructor | src/main/java/domain/RepositoryState.java:18-23 | a new state has no seen releases, no summaries, and the given date and target audiences |
| LegacyRepositoryState.RepositoryState.GetLatestSeenRelease | src/main/java/domain/RepositoryState.java:25-27 | empty iff nothing was seen, otherwise the maximum of the seen ids |
| LegacyRepositoryState.RepositoryState.AddSummary | src/main/java/domain/RepositoryState.java:29-33 | prepends the summary, inserts its release id without rejecting duplicates, leaves date and audiences alone, and returns the same object |
| LegacyRepositoryState.Fresh | src/main/java/domain/RepositoryState.java:18-23 | the value of a new legacy state; stated by FreshState |
| LegacyRepositoryState.WithSummary | src/main/java/domain/RepositoryState.java:29-33 | the value after the legacy `addSummary`; stated by WithSummaryRaisesLatest |
| LegacyRepositoryState.FreshState | src/main/java/domain/RepositoryState.java:18-23 | a fresh state's latest seen release is empty, it holds no summaries, and it keeps the date and audiences |
| LegacyRepositoryState.WithSummaryRaisesLatest | src/main/java/domain/RepositoryState.java:25-33 | after adding release r the latest seen release is max(old latest, r), the list grows by one, and date and audiences are unchanged |
| LegacyRepositoryEntity.EntityIdFor | src/main/java/application/GitHubRepositoryEntity.java:23-25 | `org + "/" + repo`, the same id as the newer entity's |
| LegacyRepositoryEntity.EntityIdOf | src/main/java/application/GitHubRepositoryEntity.java:20-22 | the entity id of an identifier is its `owner/repo` string form |
| LegacyRepositoryEntity.ApplyValue | src/main/java/application/GitHubRepositoryEntity.java:49-55 | the legacy `applyEvent` on state values: Created gives a fresh state with the event's date and audiences, SummaryAdded adds the summary; its use on the entity is stated by ApplyEvent |
| LegacyRepositoryEntity.Replay | src/main/java/application/GitHubRepositoryEntity.java:49-55 | the legacy state rebuilt from the journal; stated by ReplayWellFormed |
| LegacyRepositoryEntity.ReplayWellFormed | src/main/java/application/GitHubRepositoryEntity.java:50-54 | replaying a journal that the entity wrote gives the Created date and audiences, and every added id as seen |
| LegacyRepositoryEntity.GitHubRepositoryEntity.SetUp | src/main/java/application/GitHubRepositoryEntity.java:31-37 | fails when a state exists; otherwise persists Created with the target audiences |
| LegacyRepositoryEntity.GitHubRepositoryEntity.GetLatestSeenRelease | src/main/java/application/GitHubRepositoryEntity.java:39-41 | replies with only the maximum added release id |
| LegacyRepositoryEntity.GitHubRepositoryEntity.AddSummary | src/main/java/application/GitHubRepositoryEntity.java:43-47 | always appends SummaryAdded; the latest writer wins |
| LegacyRepositoryEntity.GitHubRepositoryEntity.ApplyEvent | src/main/java/application/GitHubRepositoryEntity.java:49-55 | Created yields a fresh state; SummaryAdded delegates to the current state's `addSummary` |
| LegacyReleaseSummarizer.ResultsOf | src/main/java/domain/ReleaseSummarizer.java:93-97 | one tool result future per tool use, in tool-use order |
| LegacyReleaseSummarizer.JoinInOrder | src/main/java/domain/ReleaseSummarizer.java:99-101 | the join succeeds iff every future did, and then lists their results in list order |
| LegacyReleaseSummarizer.AsyncToolRound | src/main/java/domain/ReleaseSummarizer.java:93-101 | one legacy round: an unknown tool name fails while the futures are built, otherwise every lookup is issued and joined in order; stated by AsyncRoundAgrees and UnknownToolTakesPrecedence |
| LegacyReleaseSummarizer.JoinInOrderIsSyncRound | src/main/java/domain/ReleaseSummarizer.java:93-101 | with known tool names, the in-order join is exactly the sequential round's outcome, including which failure is reported |
| LegacyReleaseSummarizer.FirstUnknownTool | src/main/java/domain/ReleaseSummarizer.java:134-155 | the first tool use whose name is not `fetchIssueDetails`, which throws while the futures are built |
| LegacyReleaseSummarizer.CompletionOrderIrrelevant | src/main/java/domain/ReleaseSummarizer.java:93-101 | whatever order the lookups complete in, once all have completed the joined outcome is the in-order join |
| LegacyReleaseSummarizer.AsyncRoundAgrees | src/main/java/domain/ReleaseSummarizer.java:93-110 | a legacy round succeeds iff the sequential one does, then with the same results and lookups; an unknown name is reported first; the sequential lookups are a prefix of the legacy ones |
| LegacyReleaseSummarizer.UnknownToolTakesPrecedence | src/main/java/domain/ReleaseSummarizer.java:93-155 | a failing lookup followed by an unknown tool: the legacy round reports the unknown name, the newer one the lookup |
| LegacyReleaseSummarizer.LoopFrom | src/main/java/domain/ReleaseSummarizer.java:88-132 | `loopUntilDone` as a recursion on the script position; stated by LoopFromAgrees |
| LegacyReleaseSummarizer.LegacySummaryRun | src/main/java/domain/ReleaseSummarizer.java:65-86 | a whole legacy run: the first request, then LoopFrom; stated by LegacyAgreesWithSession |
| LegacyReleaseSummarizer.LoopFromAgrees | src/main/java/domain/ReleaseSummarizer.java:88-132 | from the same point, the recursive legacy loop and the newer loop send the same requests and succeed together, with equal outcomes on success |
| LegacyReleaseSummarizer.LegacyAgreesWithSession | src/main/java/domain/ReleaseSummarizer.java:65-132 | on the modelled turns, the legacy summarizer sends the same requests as the newer session, succeeds exactly when it does, then with the same summary and lookups; the newer lookups are always a prefix of the legacy ones |
| LegacyReleaseSummarizer.MessageParamsBuilder.AddMessage | src/main/java/domain/ReleaseSummarizer.java:105-106 | appends the response to the builder's conversation in place |
| LegacyReleaseSummarizer.MessageParamsBuilder.AddUserMessageOfBlockParams | src/main/java/domain/ReleaseSummarizer.java:107 | appends one user message holding all tool results, in place |
| LegacyReleaseSummarizer.ReleaseSummarizer.Summarize | src/main/java/domain/ReleaseSummarizer.java:65-86 | sends the initial conversation and returns exactly the outcome, requests and lookups of `LegacySummaryRun` |
| LegacyReleaseSummarizer.ReleaseSummarizer.LoopUntilDone | src/main/java/domain/ReleaseSummarizer.java:88-132 | the recursion, appending to the same builder each round, returns exactly what `LoopFrom` specifies |
| LegacyCheckForRelease.LegacyLatestSeenReply | src/main/java/application/CheckForRelease.java:33-35 | the legacy entity's reply: the maximum added release id, or a failure before set-up |
| LegacyCheckForRelease.Combine | src/main/java/application/CheckForRelease.java:36-39 | the two lookups combine into both replies iff both succeeded; otherwise the entity's failure is reported first, then GitHub's |
| LegacyCheckForRelease.LegacySavedSummary | src/main/java/application/CheckForRelease.java:54-58 | the summary the legacy `saveSummary` sends, with the audience "FIXME target audience"; stated by LegacyCheckSavesSummary |
| LegacyCheckForRelease.LegacyCheckFor | src/main/java/application/CheckForRelease.java:32-52 | one legacy check as a value; stated by LegacyCheckSummarizesIff, LegacyCheckSavesSummary and LegacyCheckMatchesNewer |
| LegacyCheckForRelease.LegacyCheckSummarizesIff | src/main/java/application/CheckForRelease.java:40-48 | the summarizer runs exactly when the entity is set up, GitHub answered and the release is above every added id |
| LegacyCheckForRelease.LegacyCheckSavesSummary | src/main/java/application/CheckForRelease.java:44-57 | a save happens exactly when the run succeeded, with name, id, "FIXME target audience", now and text; a check that ran the summarizer succeeds iff the run did |
| LegacyCheckForRelease.LegacyCheckMatchesNewer | src/main/java/application/CheckForRelease.java:32-57 | on the same seen ids and the same GitHub release the legacy check decides, saves and completes as the newer one does, and saves the same name, id, date and text |

## Left out

- HTTP, JSON parsing and the GitHub REST calls: the clients are functions from the request to its outcome.
- The Anthropic SDK: the model is a script of responses. The tool definition, system text, model name, token limit and prompt text are not modelled. The legacy version asks with `ToolChoiceAny` and the newer with `ToolChoiceAuto`; a script can play either.
- Logging, the token-usage text and the debug JSON dump: they have no effect on behaviour.
- The asynchronous machinery (`CompletableFuture`, `thenCompose`, `thenCombine`, `allOf`): the model keeps only its observable effect. `thenCombine` reports the entity's failure first; `allOf` joins in list order; an exception thrown while the futures are built wins over the lookups.
- The parsing of the tool input `issueId`: a tool use carries its issue id as a number.
- `Instant.now()`: a parameter. `Duration` is a count of nanoseconds.
- Framework glue: `SummarizerAgent`, `NewRepoListener`, `NewSummaryPublisher`, `ReleaseSummaryWorkflow`, both `Bootstrap` classes and the HTTP endpoints. The framework's routing of a call to the entity with a given id: the check is given that entity. The framework's retry of a failed timed action.
- `src/main/java/domain/RepositoryIdentifier.java` and the legacy `integration.GitHubApiClient` are not part of this model. The legacy code reuses the newer identifier and issue-lookup outcome; the legacy client's status switch is the same.
- The comment "defensive copy" on `getSummaries`: the code returns the list itself. The model's value semantics cannot express that aliasing.
- The mismatched types between files are not modelled, for example the asynchronous client passed to the synchronous session. Each file's logic is modelled as written.
- SummarizerCheckForRelease.CheckForRelease.CheckForNewRelease: the session is summarized with the model's responses as given; a timer firing is not modelled. When the entity lookup, the release lookup or the save fails, no new timer is started.
- CheckForNewRelease, LegacyCheckFor: a check is one atomic step here. In the source the entity read, the summarizing session and the `addSummary` command are three separate steps, so two overlapping checks of the same repository (a timer firing again, or a retry, while a session is still running) can both pass the newness test and both save the same release; the entity then records the summary twice, as WithSummaryDuplicate shows. RecheckSummarizesNothing covers only checks that run one after the other.
- Neither loop has a cap on rounds (`summarizer/domain/SummarizerSession.java:100-122`, `domain/ReleaseSummarizer.java:88-110`): a model that keeps answering TOOL_USE keeps them running forever. The finite script turns that case into `ModelUnavailable` once the responses are used up.
- The legacy version asks with `ToolChoiceAny`, under which the model API documents that the response must use a tool, so a script ending in END_TURN may not be reachable for it. LegacyAgreesWithSession compares the two loops on the same scripted responses and does not model that restriction.
