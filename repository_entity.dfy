/**
 * `summarizer.application.GitHubRepositoryEntity`: the event-sourced entity for one repository, its `owner/repo`
 * entity id, and its command handlers. The framework keeps the current state and the log of persisted events;
 * here they are the fields `currentState` and `journal`, and persisting an event applies it with `ApplyEvent`.
 */
module SummarizerRepositoryEntity {
  import opened Wrappers
  import opened ReleaseIds
  import opened JavaText
  import opened SummarizerDomain
  import opened SummarizerRepositoryState

  // ---------------------------------------------------------------- entity ids

  /** `entityIdFor(organization, repository)`: the two names joined by a slash. */
  function EntityIdFor(organization: string, repository: string): (e: string)
    ensures |e| == |organization| + 1 + |repository|
    ensures e[..|organization|] == organization && e[|organization|] == '/' && e[|organization| + 1..] == repository
  {
    organization + "/" + repository
  }

  /** `entityIdFor(repositoryIdentifier)`: the identifier's string form. */
  function EntityIdOf(id: RepositoryIdentifier): (e: string)
    ensures e == id.ToString()
  {
    EntityIdFor(id.owner, id.repo)
  }

  datatype EntityError =
    | InvalidEntityId(entityId: string)   // IllegalArgumentException of identifierFor
    | AlreadySetUp                        // IllegalStateException of setUp
    | NotInitialized                      // the null current state dereferenced

  /** `identifierFor`: the entity id split on "/", which must give exactly two parts. */
  function IdentifierFor(entityId: string): (r: Result<RepositoryIdentifier, EntityError>)
    ensures r.Failure? ==> r == Failure(InvalidEntityId(entityId))
    ensures r.Success? ==> Free(r.value.owner, '/') && Free(r.value.repo, '/') && r.value.repo != []
  {
    var parts := Split(entityId, '/');
    if |parts| == 2 then Success(RepositoryIdentifier(parts[0], parts[1]))
    else Failure(InvalidEntityId(entityId))
  }

  lemma {:induction false} DropEmpties(parts: seq<string>, k: nat)
    requires parts != [] && parts[|parts| - 1] != []
    ensures DropTrailingEmpty(parts + Empties(k)) == parts
  {
    if k > 0 {
      var ps := parts + Empties(k);
      assert ps[|ps| - 1] == [];
      assert ps[..|ps| - 1] == parts + Empties(k - 1);
      DropEmpties(parts, k - 1);
    } else {
      assert parts + Empties(0) == parts;
    }
  }

  /**
   * Round trip: the id of an owner and a non-empty repository, neither holding "/", reads back as the same pair,
   * also with trailing slashes appended (Java's split drops trailing empty strings).
   */
  lemma IdentifierForEntityIdFor(owner: string, repo: string, k: nat)
    requires Free(owner, '/') && Free(repo, '/') && repo != []
    ensures IdentifierFor(EntityIdFor(owner, repo) + Repeat('/', k)) == Success(RepositoryIdentifier(owner, repo))
  {
    var e := EntityIdFor(owner, repo) + Repeat('/', k);
    var parts := [owner, repo];
    assert Join(parts, '/') == EntityIdFor(owner, repo) by {
      assert parts[1..] == [repo];
    }
    JoinEmpties(parts, k, '/');
    var all := parts + Empties(k);
    assert AllFree(all, '/') by {
      forall i | 0 <= i < |all| ensures Free(all[i], '/') {
        if i >= 2 { assert all[i] == []; }
      }
    }
    SplitAllJoin(all, '/');
    assert e[|owner|] == '/';
    DropEmpties(parts, k);
  }

  /** Why the repository must be non-empty: "owner/" splits into fewer than two parts and is refused. */
  lemma IdentifierForRejectsEmptyRepo(owner: string)
    requires Free(owner, '/')
    ensures IdentifierFor(EntityIdFor(owner, "")) == Failure(InvalidEntityId(owner + "/"))
  {
    var e := EntityIdFor(owner, "");
    assert e == owner + "/";
    var parts := [owner, ""];
    assert Join(parts, '/') == e by { assert parts[1..] == [""]; }
    assert AllFree(parts, '/');
    SplitAllJoin(parts, '/');
    assert e[|owner|] == '/';
    assert parts[..1] == [owner];
    assert DropTrailingEmpty(parts) == DropTrailingEmpty([owner]);
    assert |Split(e, '/')| <= 1;
  }

  /**
   * Every accepted entity id is an owner and a non-empty repository without "/", joined by "/" and followed by
   * nothing but slashes.
   */
  lemma IdentifierForSound(entityId: string)
    requires IdentifierFor(entityId).Success?
    ensures var id := IdentifierFor(entityId).value;
      && Free(id.owner, '/') && Free(id.repo, '/') && id.repo != []
      && EntityIdFor(id.owner, id.repo) <= entityId
      && forall i :: |EntityIdFor(id.owner, id.repo)| <= i < |entityId| ==> entityId[i] == '/'
  {
    var id := IdentifierFor(entityId).value;
    assert '/' in entityId;
    var ps := SplitAll(entityId, '/');
    var kept := DropTrailingEmpty(ps);
    assert kept == [id.owner, id.repo];
    JoinSplitAll(entityId, '/');
    var k := |ps| - 2;
    assert ps == kept + Empties(k) by {
      assert ps[..2] == kept;
      forall i | 2 <= i < |ps| ensures ps[i] == (kept + Empties(k))[i] { }
    }
    assert Free(ps[0], '/') && Free(ps[1], '/');
    JoinEmpties(kept, k, '/');
    assert Join(kept, '/') == EntityIdFor(id.owner, id.repo) by {
      assert kept[1..] == [id.repo];
    }
  }

  // ------------------------------------------------------------ the event log

  /** `applyEvent` on state values: Created starts afresh, SummaryAdded needs a state. */
  function ApplyValue(s: Option<StateValue>, e: RepositoryEvent): Option<StateValue> {
    match e
    case Created(date, token) => Some(Fresh(date, token))
    case SummaryAdded(summary) => if s.None? then None else Some(WithSummary(s.value, summary))
  }

  /** The state the framework rebuilds from a log: the left fold of `applyEvent` from no state. */
  function Replay(events: seq<RepositoryEvent>): Option<StateValue> {
    if events == [] then None else ApplyValue(Replay(events[..|events| - 1]), events[|events| - 1])
  }

  /** The logs the entity writes: one Created first, then only SummaryAdded events. */
  predicate WellFormedLog(events: seq<RepositoryEvent>) {
    events == [] || (events[0].Created? && forall i :: 1 <= i < |events| ==> events[i].SummaryAdded?)
  }

  /** The release ids of all SummaryAdded events of a log. */
  function AddedIds(events: seq<RepositoryEvent>): set<Long> {
    if events == [] then {}
    else
      var last := events[|events| - 1];
      AddedIds(events[..|events| - 1]) + (if last.SummaryAdded? then {last.summary.githubReleaseId} else {})
  }

  /** The summaries of all SummaryAdded events of a log, the latest first. */
  function AddedSummaries(events: seq<RepositoryEvent>): seq<ReleaseSummary> {
    if events == [] then []
    else
      var last := events[|events| - 1];
      (if last.SummaryAdded? then [last.summary] else []) + AddedSummaries(events[..|events| - 1])
  }

  /**
   * Replaying a log the entity wrote gives the Created event's date and token, every added release id as seen, and
   * every added summary, newest first, duplicates included.
   */
  lemma {:induction false} ReplayWellFormed(events: seq<RepositoryEvent>)
    requires WellFormedLog(events) && events != []
    ensures Replay(events) == Some(StateValue(events[0].creationDate, AddedIds(events), AddedSummaries(events), events[0].gitApiHubToken))
    ensures |AddedSummaries(events)| == |events| - 1
  {
    if |events| > 1 {
      var init := events[..|events| - 1];
      assert init[0] == events[0];
      assert WellFormedLog(init);
      ReplayWellFormed(init);
    } else {
      assert events[..0] == [];
      assert AddedIds(events) == {} && AddedSummaries(events) == [];
      assert Replay(events) == ApplyValue(None, events[0]);
    }
  }

  /** The high-water mark after any log the entity wrote is the largest added release id, or none if none was added. */
  lemma ReplayLatestSeen(events: seq<RepositoryEvent>)
    requires WellFormedLog(events) && events != []
    ensures Replay(events).Some? && LatestOf(Replay(events).value.seenReleases) == LatestOf(AddedIds(events))
  {
    ReplayWellFormed(events);
  }

  // ------------------------------------------------------------------ commands

  datatype SetUpRepository = SetUpRepository(gitHubOrganization: string, repositoryName: string, gitHubApiToken: Option<string>)

  datatype LatestSeenRelease = LatestSeenRelease(id: Option<Long>, gitHubApiToken: Option<string>)

  class GitHubRepositoryEntity {
    /** The framework's `currentState()`; null before set-up. */
    var currentState: RepositoryState?
    /** The persisted events, in order. */
    ghost var journal: seq<RepositoryEvent>

    /** The current state is always the replay of the log; set-up happened at most once. */
    ghost predicate Valid()
      reads this, currentState
    {
      && WellFormedLog(journal)
      && (currentState == null <==> journal == [])
      && (currentState != null ==> Replay(journal) == Some(currentState.Value()))
    }

    constructor ()
      ensures Valid() && currentState == null && journal == []
    {
      currentState := null;
      journal := [];
    }

    /** Fails, persisting nothing, when the repository is already set up; otherwise persists Created with the token. */
    method SetUp(setUpRepository: SetUpRepository, now: Instant) returns (r: Result<Done, EntityError>)
      requires Valid()
      modifies this
      ensures Valid()
      ensures old(currentState) != null ==>
                r == Failure(AlreadySetUp) && currentState == old(currentState) && journal == old(journal)
      ensures old(currentState) == null ==>
                && r == Success(Done)
                && journal == [Created(now, setUpRepository.gitHubApiToken)]
                && currentState != null && fresh(currentState)
                && currentState.Value() == Fresh(now, setUpRepository.gitHubApiToken)
    {
      if currentState != null {
        return Failure(AlreadySetUp);
      }
      r := Persist(Created(now, setUpRepository.gitHubApiToken));
    }

    /** The largest release id ever added, paired with the repository's token. */
    method GetLatestSeenRelease() returns (r: Result<LatestSeenRelease, EntityError>)
      requires Valid()
      ensures currentState == null ==> r == Failure(NotInitialized)
      ensures currentState != null ==>
                r == Success(LatestSeenRelease(LatestOf(AddedIds(journal)), journal[0].gitApiHubToken))
    {
      if currentState == null {
        return Failure(NotInitialized);
      }
      ReplayWellFormed(journal);
      r := Success(LatestSeenRelease(currentState.GetLatestSeenRelease(), currentState.GetGitHubApiToken()));
    }

    /** Always persists SummaryAdded, with no check against the ids already seen: the latest writer wins. */
    method AddSummary(summary: ReleaseSummary) returns (r: Result<Done, EntityError>)
      requires Valid()
      modifies this, currentState
      ensures Valid()
      ensures old(currentState) == null ==>
                r == Failure(NotInitialized) && currentState == null && journal == old(journal)
      ensures old(currentState) != null ==>
                && r == Success(Done)
                && journal == old(journal) + [SummaryAdded(summary)]
                && currentState == old(currentState)
                && currentState.Value() == WithSummary(old(currentState.Value()), summary)
    {
      r := Persist(SummaryAdded(summary));
    }

    /** All summaries added so far, the latest first. */
    method GetSummaries() returns (r: Result<seq<ReleaseSummary>, EntityError>)
      requires Valid()
      ensures currentState == null ==> r == Failure(NotInitialized)
      ensures currentState != null ==> r == Success(AddedSummaries(journal))
    {
      if currentState == null {
        return Failure(NotInitialized);
      }
      ReplayWellFormed(journal);
      r := Success(currentState.GetSummaries());
    }

    /**
     * `applyEvent`: Created gives a new state with the event's date and token; SummaryAdded is
     * `currentState().addSummary(...)`, which updates the current state in place and returns it.
     */
    method ApplyEvent(event: RepositoryEvent) returns (next: Result<RepositoryState, EntityError>)
      modifies currentState
      ensures event.Created? ==> next.Success? && fresh(next.value)
      ensures event.Created? ==> next.value.Value() == Fresh(event.creationDate, event.gitApiHubToken)
      ensures event.Created? && currentState != null ==> unchanged(currentState)
      ensures event.SummaryAdded? && currentState == null ==> next == Failure(NotInitialized)
      ensures event.SummaryAdded? && currentState != null ==>
                && next == Success(currentState)
                && currentState.Value() == WithSummary(old(currentState.Value()), event.summary)
    {
      match event
      case Created(date, token) =>
        var s := new RepositoryState(date, token);
        next := Success(s);
      case SummaryAdded(_) =>
        if currentState == null {
          next := Failure(NotInitialized);
        } else {
          var s := currentState.AddSummary(event);
          next := Success(s);
        }
    }

    /** Applies an event and, if that succeeds, records it in the log and makes the result the current state. */
    method Persist(event: RepositoryEvent) returns (r: Result<Done, EntityError>)
      requires Valid()
      requires event.Created? ==> currentState == null
      modifies this, currentState
      ensures Valid()
      ensures old(currentState) == null && event.SummaryAdded? ==>
                r == Failure(NotInitialized) && currentState == null && journal == old(journal)
      ensures event.Created? ==>
                r == Success(Done) && journal == old(journal) + [event] && fresh(currentState)
      ensures event.Created? ==> currentState != null && currentState.Value() == Fresh(event.creationDate, event.gitApiHubToken)
      ensures old(currentState) != null && event.SummaryAdded? ==>
                && r == Success(Done) && journal == old(journal) + [event]
                && currentState == old(currentState)
                && currentState.Value() == WithSummary(old(currentState.Value()), event.summary)
    {
      var next := ApplyEvent(event);
      match next
      case Failure(e) =>
        r := Failure(e);
      case Success(s) =>
        ghost var before := journal;
        currentState := s;
        journal := journal + [event];
        assert journal[..|journal| - 1] == before;
        r := Success(Done);
    }
  }
}
