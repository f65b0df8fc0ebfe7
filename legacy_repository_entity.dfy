/**
 * `application.GitHubRepositoryEntity`: the legacy event-sourced entity for one repository. Set-up records target
 * audiences, the latest-seen reply carries only the release id, and there is no parsing of entity ids.
 */
module LegacyRepositoryEntity {
  import opened Wrappers
  import opened ReleaseIds
  import SummarizerDomain
  import Summarizer = SummarizerRepositoryEntity
  import opened LegacyDomain
  import opened LegacyRepositoryState

  /** `entityIdFor(organization, repository)`: the same `owner/repo` ids as the newer entity. */
  function EntityIdFor(organization: string, repository: string): (e: string)
    ensures e == Summarizer.EntityIdFor(organization, repository)
    ensures e == SummarizerDomain.RepositoryIdentifier(organization, repository).ToString()
  {
    organization + "/" + repository
  }

  /** `entityIdFor(repositoryIdentifier)`. */
  function EntityIdOf(id: SummarizerDomain.RepositoryIdentifier): (e: string)
    ensures e == id.ToString()
  {
    EntityIdFor(id.owner, id.repo)
  }

  // ------------------------------------------------------------ the event log

  /** `applyEvent` on state values: Created starts afresh, SummaryAdded needs a state. */
  function ApplyValue(s: Option<StateValue>, e: RepositoryEvent): Option<StateValue> {
    match e
    case Created(date, audiences) => Some(Fresh(date, audiences))
    case SummaryAdded(summary) => if s.None? then None else Some(WithSummary(s.value, summary))
  }

  /** The state rebuilt from a log: the left fold of `applyEvent` from no state. */
  function Replay(events: seq<RepositoryEvent>): Option<StateValue> {
    if events == [] then None else ApplyValue(Replay(events[..|events| - 1]), events[|events| - 1])
  }

  /** The logs the entity writes: one Created first, then only SummaryAdded events. */
  predicate WellFormedLog(events: seq<RepositoryEvent>) {
    events == [] || (events[0].Created? && forall i :: 1 <= i < |events| ==> events[i].SummaryAdded?)
  }

  /** The release ids of all SummaryAdded events of a log. */
  function AddedIds(events: seq<RepositoryEvent>): set<Long> {
    if events == [] then {}
    else
      var last := events[|events| - 1];
      AddedIds(events[..|events| - 1]) + (if last.SummaryAdded? then {last.summary.githubReleaseId} else {})
  }

  /** Replaying a log the entity wrote gives the Created event's date and audiences and every added release id. */
  lemma {:induction false} ReplayWellFormed(events: seq<RepositoryEvent>)
    requires WellFormedLog(events) && events != []
    ensures Replay(events).Some?
    ensures Replay(events).value.creationDate == events[0].creationDate
    ensures Replay(events).value.targetSummaryAudiences == events[0].summaryTargetAudience
    ensures Replay(events).value.seenReleases == AddedIds(events)
    ensures |Replay(events).value.summaries| == |events| - 1
  {
    if |events| > 1 {
      var init := events[..|events| - 1];
      assert init[0] == events[0];
      assert WellFormedLog(init);
      ReplayWellFormed(init);
    } else {
      assert events[..0] == [];
      assert Replay(events) == ApplyValue(None, events[0]);
    }
  }

  // ------------------------------------------------------------------ commands

  datatype SetUpRepository = SetUpRepository(gitHubOrganization: string, repositoryName: string, targetSummaryAudiences: set<string>)

  datatype LatestSeenRelease = LatestSeenRelease(id: Option<Long>)

  class GitHubRepositoryEntity {
    /** The framework's `currentState()`; null before set-up. */
    var currentState: RepositoryState?
    /** The persisted events, in order. */
    ghost var journal: seq<RepositoryEvent>

    /** The current state is always the replay of the log. */
    ghost predicate Valid()
      reads this, currentState
    {
      && WellFormedLog(journal)
      && (currentState == null <==> journal == [])
      && (currentState != null ==> Replay(journal) == Some(currentState.Value()))
    }

    constructor ()
      ensures Valid() && currentState == null && journal == []
    {
      currentState := null;
      journal := [];
    }

    /** Fails, persisting nothing, when already set up; otherwise persists Created with the target audiences. */
    method SetUp(setUpRepository: SetUpRepository, now: SummarizerDomain.Instant) returns (r: Result<Done, Summarizer.EntityError>)
      requires Valid()
      modifies this
      ensures Valid()
      ensures old(currentState) != null ==>
                r == Failure(Summarizer.AlreadySetUp) && currentState == old(currentState) && journal == old(journal)
      ensures old(currentState) == null ==>
                && r == Success(Done)
                && journal == [Created(now, setUpRepository.targetSummaryAudiences)]
                && currentState != null && fresh(currentState)
                && currentState.Value() == Fresh(now, setUpRepository.targetSummaryAudiences)
    {
      if currentState != null {
        return Failure(Summarizer.AlreadySetUp);
      }
      var s := new RepositoryState(now, setUpRepository.targetSummaryAudiences);
      currentState := s;
      journal := [Created(now, setUpRepository.targetSummaryAudiences)];
      r := Success(Done);
    }

    /** Only the largest release id ever added. */
    method GetLatestSeenRelease() returns (r: Result<LatestSeenRelease, Summarizer.EntityError>)
      requires Valid()
      ensures currentState == null ==> r == Failure(Summarizer.NotInitialized)
      ensures currentState != null ==> r == Success(LatestSeenRelease(LatestOf(AddedIds(journal))))
    {
      if currentState == null {
        return Failure(Summarizer.NotInitialized);
      }
      ReplayWellFormed(journal);
      r := Success(LatestSeenRelease(currentState.GetLatestSeenRelease()));
    }

    /** Always persists SummaryAdded: the latest writer wins. */
    method AddSummary(summary: ReleaseSummary) returns (r: Result<Done, Summarizer.EntityError>)
      requires Valid()
      modifies this, currentState
      ensures Valid()
      ensures old(currentState) == null ==>
                r == Failure(Summarizer.NotInitialized) && currentState == null && journal == old(journal)
      ensures old(currentState) != null ==>
                && r == Success(Done)
                && journal == old(journal) + [SummaryAdded(summary)]
                && currentState == old(currentState)
                && currentState.Value() == WithSummary(old(currentState.Value()), summary)
    {
      var event := SummaryAdded(summary);
      var next := ApplyEvent(event);
      match next
      case Failure(e) =>
        r := Failure(e);
      case Success(s) =>
        ghost var before := journal;
        currentState := s;
        journal := journal + [event];
        assert journal[..|journal| - 1] == before;
        r := Success(Done);
    }

    /** `applyEvent`: Created gives a new state; SummaryAdded is `currentState().addSummary(...)`, in place. */
    method ApplyEvent(event: RepositoryEvent) returns (next: Result<RepositoryState, Summarizer.EntityError>)
      modifies currentState
      ensures event.Created? ==> next.Success? && fresh(next.value)
      ensures event.Created? ==> next.value.Value() == Fresh(event.creationDate, event.summaryTargetAudience)
      ensures event.Created? && currentState != null ==> unchanged(currentState)
      ensures event.SummaryAdded? && currentState == null ==> next == Failure(Summarizer.NotInitialized)
      ensures event.SummaryAdded? && currentState != null ==>
                && next == Success(currentState)
                && currentState.Value() == WithSummary(old(currentState.Value()), event.summary)
    {
      match event
      case Created(date, audiences) =>
        var s := new RepositoryState(date, audiences);
        next := Success(s);
      case SummaryAdded(_) =>
        if currentState == null {
          next := Failure(Summarizer.NotInitialized);
        } else {
          var s := currentState.AddSummary(event);
          next := Success(s);
        }
    }
  }
}
