/**
 The mission entity, its causal event log and its status table
 (app/domain/mission.py, app/domain/execution.py,
 app/domain/execution_attempt.py, app/services/mission_state_machine.py).

 Instants and durations are whole microseconds.  A UUID is a natural number whose
 value is its `int`, so 0 is the nil UUID.
 */
module MissionDomain {
  import opened Wrappers

  type Time = int
  type MissionId = nat
  type EventId = nat
  type ProviderId = nat
  type ReservationId = nat

  datatype Status =
    | Created | Waiting | Paused | Processing | Running | Searching | OptionFound
    | Reserving | RequiresConfirmation | Completed | Failed | Cancelled | Expired

  datatype Mode = SearchOnly | RequireConfirmation | AutoPurchase

  /** Event types, with the metadata that later decisions read. */
  datatype EventKind =
    | ProviderSelectionChanged
    | ProviderResolved(provider: ProviderId)
    | ProviderResolutionFailed
    | ParticipantMissing
    | MissionStarted
    | SearchStarted
    | OptionsFound(count: nat)
    | NoValidOptionFound
    | BestOptionSelected
    | MissionSearchCompleted
    | ReservationStarted
    | ReservationFailed
    | ReservationSucceeded(reservation: ReservationId, needsConfirmation: bool)
    | WaitingForUserConfirmation
    | AutomaticConfirmationStarted
    | AutomaticConfirmationFailed
    | AutomaticConfirmationSucceeded
    | ConfirmationStarted
    | ConfirmationFailed
    | ConfirmationSucceeded
    | MissionConfirmed
    | MissionCompleted
    | CancellationStarted
    | CancellationFailed
    | CancellationSucceeded
    | MissionCancelled
    | ProviderOperationFailed(retryable: bool)
    | ClaimRecovered(exhausted: bool)
    | MissionExpired
    | MissionRetryScheduled(retryAt: Time)
    | MissionScheduled(at: Time)
    | MissionUnscheduled
    | MissionPaused
    | MissionResumed
    | MissionUpdated
    | MissionFailed
    | MissionProcessingFailed

  datatype Event = Event(
    eventId: EventId,
    correlationId: EventId,
    causationId: Option<EventId>,
    sequence: nat,
    timestamp: Time,
    kind: EventKind)

  /** Why a status was assigned: a history variable, read by no operation. */
  datatype Cause = Creation | ByTable | ByClaim | ByRetry | ByRecovery | ByMarkFailed

  datatype Visit = Visit(status: Status, cause: Cause)

  datatype Mission = Mission(
    id: MissionId,
    title: string,
    fallbackRules: nat,
    mode: Mode,
    providerId: Option<ProviderId>,
    resolvedProviderId: Option<ProviderId>,
    reservationId: Option<ReservationId>,
    bestOption: Option<nat>,
    status: Status,
    scheduledAt: Option<Time>,
    expiresAt: Option<Time>,
    claimedAt: Option<Time>,
    executionAttempts: nat,
    maxExecutionAttempts: nat,
    lastEventSequence: nat,
    log: seq<Event>,
    trail: seq<Visit>)
  {
    predicate HasExhaustedAttempts() {
      executionAttempts >= maxExecutionAttempts
    }
  }

  datatype AttemptStatus =
    | AttemptProcessing | AttemptRequiresConfirmation | AttemptCompleted | AttemptFailed | AttemptRecovered

  datatype Attempt = Attempt(
    number: nat,
    status: AttemptStatus,
    claimedAt: Time,
    finishedAt: Option<Time>,
    resolvedProviderId: Option<ProviderId>,
    reservationId: Option<ReservationId>)

  // ---------------------------------------------------------------- event log

  datatype EventIdError = NilEventId | DuplicateEventId

  /** What `uuid4` and the clock deliver for the event with a given sequence number. */
  datatype Stamp = Stamp(id: EventId, time: Time)
  type Stamps = nat -> Stamp

  predicate HasEventId(log: seq<Event>, id: EventId) {
    exists i :: 0 <= i < |log| && log[i].eventId == id
  }

  /** The event `record_event` builds, and the mission it leaves. */
  function Append(m: Mission, id: EventId, time: Time, kind: EventKind): Mission {
    var event := Event(
      id,
      if m.log == [] then id else m.log[|m.log| - 1].correlationId,
      if m.log == [] then None else Some(m.log[|m.log| - 1].eventId),
      m.lastEventSequence + 1, time, kind);
    m.(log := m.log + [event], lastEventSequence := m.lastEventSequence + 1)
  }

  /** `record_event` with both of its refusals. */
  function RecordEvent(m: Mission, id: EventId, time: Time, kind: EventKind): Result<Mission, EventIdError> {
    if id == 0 then Failure(NilEventId)
    else if HasEventId(m.log, id) then Failure(DuplicateEventId)
    else Success(Append(m, id, time, kind))
  }

  function MaxEventId(log: seq<Event>): (max: EventId)
    ensures forall i :: 0 <= i < |log| ==> log[i].eventId <= max
  {
    if log == [] then 0
    else
      var rest := MaxEventId(log[..|log| - 1]);
      if log[|log| - 1].eventId > rest then log[|log| - 1].eventId else rest
  }

  /** `uuid4` never repeats and never returns nil: a draw that would is replaced by a new identifier. */
  function DrawEventId(log: seq<Event>, drawn: EventId): (id: EventId)
    ensures id != 0 && !HasEventId(log, id)
    ensures drawn != 0 && !HasEventId(log, drawn) ==> id == drawn
  {
    if drawn != 0 && !HasEventId(log, drawn) then drawn else MaxEventId(log) + 1
  }

  /** `_add_event`: identifier and time both come from the environment. */
  function Emit(m: Mission, kind: EventKind, st: Stamps): Mission {
    EmitAt(m, kind, st, st(m.lastEventSequence + 1).time)
  }

  /** `record_event(timestamp=time, ...)`: only the identifier comes from the environment. */
  function EmitAt(m: Mission, kind: EventKind, st: Stamps, time: Time): Mission {
    Append(m, DrawEventId(m.log, st(m.lastEventSequence + 1).id), time, kind)
  }

  /** `EmitAt` is `record_event` where the drawn identifier is neither nil nor already used. */
  lemma EmitIsRecordEvent(m: Mission, kind: EventKind, st: Stamps, time: Time)
    ensures RecordEvent(m, DrawEventId(m.log, st(m.lastEventSequence + 1).id), time, kind) == Success(EmitAt(m, kind, st, time))
  {
  }

  /** A log in which each event was built from the one before it. */
  ghost predicate Chained(log: seq<Event>) {
    log == [] ||
    (var earlier, last := log[..|log| - 1], log[|log| - 1];
     && Chained(earlier)
     && last.sequence == |log|
     && last.eventId != 0
     && !HasEventId(earlier, last.eventId)
     && last.correlationId == (if earlier == [] then last.eventId else earlier[|earlier| - 1].correlationId)
     && last.causationId == (if earlier == [] then None else Some(earlier[|earlier| - 1].eventId)))
  }

  ghost predicate LogOk(m: Mission) {
    |m.log| == m.lastEventSequence && Chained(m.log)
  }

  lemma EmitKeepsChain(m: Mission, kind: EventKind, st: Stamps, time: Time)
    requires LogOk(m)
    ensures LogOk(EmitAt(m, kind, st, time))
    ensures m.log <= EmitAt(m, kind, st, time).log
  {
    var longer := EmitAt(m, kind, st, time).log;
    assert longer[..|longer| - 1] == m.log;
  }

  /** The event that caused the one at position `i`. */
  function CauseOf(log: seq<Event>, i: nat): Option<EventId>
    requires i < |log|
  {
    if i == 0 then None else Some(log[i - 1].eventId)
  }

  /** One causal chain: numbered 1..n, one correlation, each event caused by its predecessor. */
  ghost predicate Causal(log: seq<Event>) {
    && (forall i :: 0 <= i < |log| ==>
          && log[i].sequence == i + 1
          && log[i].eventId != 0
          && log[i].correlationId == log[0].eventId
          && log[i].causationId == CauseOf(log, i))
    && (forall i, j :: 0 <= i < j < |log| ==> log[i].eventId != log[j].eventId)
  }

  /** Building events one from another gives exactly the causal chains. */
  lemma {:induction false} ChainedIsCausal(log: seq<Event>)
    ensures Chained(log) <==> Causal(log)
  {
    if log != [] {
      var n := |log| - 1;
      ChainedIsCausal(log[..n]);
      if Chained(log) {
        CausalExtends(log);
      }
      if Causal(log) {
        CausalShrinks(log);
      }
    }
  }

  lemma CausalExtends(log: seq<Event>)
    requires log != [] && Causal(log[..|log| - 1]) && Chained(log)
    ensures Causal(log)
  {
    hide Chained, CauseOf;
    var n := |log| - 1;
    var earlier := log[..n];
    LastLink(log);
    forall i | 0 <= i <= n
      ensures log[i].causationId == CauseOf(log, i)
    {
      CauseAt(log, i);
      if i < n {
        CauseAt(earlier, i);
        assert earlier[i].causationId == CauseOf(earlier, i);
      }
    }
    assert n > 0 ==> earlier[n - 1].correlationId == earlier[0].eventId;
  }

  lemma CauseAt(log: seq<Event>, i: nat)
    requires i < |log|
    ensures CauseOf(log, i) == if i == 0 then None else Some(log[i - 1].eventId)
  {
  }

  lemma LastLink(log: seq<Event>)
    requires log != [] && Chained(log)
    ensures var n := |log| - 1;
            && log[n].sequence == n + 1 && log[n].eventId != 0
            && log[n].correlationId == (if n == 0 then log[n].eventId else log[n - 1].correlationId)
            && log[n].causationId == (if n == 0 then None else Some(log[n - 1].eventId))
            && forall i :: 0 <= i < n ==> log[i].eventId != log[n].eventId
  {
    var earlier := log[..|log| - 1];
    assert forall i :: 0 <= i < |earlier| ==> earlier[i] == log[i];
  }

  lemma CausalShrinks(log: seq<Event>)
    requires log != [] && Causal(log) && (Chained(log[..|log| - 1]) <==> Causal(log[..|log| - 1]))
    ensures Chained(log)
  {
    hide CauseOf;
    var n := |log| - 1;
    var earlier := log[..n];
    assert Causal(earlier) by {
      hide Chained;
      forall i | 0 <= i < n
        ensures earlier[i].causationId == CauseOf(earlier, i)
      {
        CauseAt(earlier, i);
        CauseAt(log, i);
        assert log[i].causationId == CauseOf(log, i);
      }
    }
    CauseAt(log, n);
    assert log[n].causationId == CauseOf(log, n);
    assert n > 0 ==> earlier[n - 1].correlationId == log[0].eventId;
  }

  // ------------------------------------------------- validate_event_sequence

  datatype SequenceError = InvalidSequence | InvalidEventId

  /** What a stored log must satisfy, stated over positions. */
  ghost predicate ValidPrefix(events: seq<Event>, n: nat)
    requires n <= |events|
  {
    && (forall i :: 0 <= i < n ==> events[i].sequence > (if i == 0 then 0 else events[i - 1].sequence))
    && (forall i :: 0 <= i < n ==>
          && events[i].eventId != 0
          && events[i].correlationId != 0
          && events[i].causationId != Some(0)
          && events[i].causationId != Some(events[i].eventId))
    && (forall i, j :: 0 <= i < j < n ==> events[i].eventId != events[j].eventId)
  }

  ghost predicate ValidLog(events: seq<Event>, lastEventSequence: nat) {
    && ValidPrefix(events, |events|)
    && lastEventSequence == (if events == [] then 0 else events[|events| - 1].sequence)
  }

  /** `validate_event_sequence` accepts a log exactly when `ValidLog` holds. */
  method ValidateEventSequence(events: seq<Event>, lastEventSequence: nat) returns (r: Result<(), SequenceError>)
    ensures r.Success? <==> ValidLog(events, lastEventSequence)
  {
    var previousSequence := 0;
    var eventIds: set<EventId> := {};
    for position := 0 to |events|
      invariant previousSequence == if position == 0 then 0 else events[position - 1].sequence
      invariant eventIds == set i | 0 <= i < position :: events[i].eventId
      invariant ValidPrefix(events, position)
    {
      var event := events[position];
      if event.sequence <= previousSequence {
        return Failure(InvalidSequence);
      }
      previousSequence := event.sequence;
      if event.eventId == 0 || event.eventId in eventIds {
        return Failure(InvalidEventId);
      }
      eventIds := eventIds + {event.eventId};
      if event.correlationId == 0 {
        return Failure(InvalidEventId);
      }
      if event.causationId.Some? {
        if event.causationId.value == 0 || event.causationId.value == event.eventId {
          return Failure(InvalidEventId);
        }
      }
    }
    if lastEventSequence != previousSequence {
      return Failure(InvalidSequence);
    }
    return Success(());
  }

  /** Every log built by `record_event` is one the validator accepts. */
  lemma ChainedIsValid(log: seq<Event>)
    requires Chained(log)
    ensures ValidLog(log, |log|)
  {
    ChainedIsCausal(log);
    forall i | 0 <= i < |log|
      ensures log[i].causationId != Some(log[i].eventId)
      ensures log[i].causationId != Some(0) && log[i].correlationId != 0
    {
      assert log[0].eventId != 0;
      if i > 0 {
        assert log[i - 1].eventId != 0 && log[i - 1].eventId != log[i].eventId;
      }
    }
  }

  // ------------------------------------------------------------ status table

  function AllowedTransitions(s: Status): set<Status> {
    match s
    case Created => {Waiting, Paused, Running, Cancelled, Expired}
    case Waiting => {Created, Paused, Processing, Running, Cancelled, Expired}
    case Paused => {Created, Waiting, Cancelled, Expired}
    case Processing => {RequiresConfirmation, Completed, Failed}
    case Running => {Searching, Failed}
    case Searching => {OptionFound, Failed}
    case OptionFound => {Reserving, Completed, Failed}
    case Reserving => {RequiresConfirmation, Completed, Failed}
    case RequiresConfirmation => {Completed, Failed, Cancelled}
    case Completed => {}
    case Failed => {}
    case Cancelled => {}
    case Expired => {}
  }

  predicate CanTransition(current: Status, target: Status, recovery: bool, retry: bool) {
    if current == Processing && target == Waiting then recovery
    else if current == Failed && target == Waiting then retry
    else target in AllowedTransitions(current)
  }

  /** `MissionStateMachine.transition`, for every move but waiting -> processing, which only a claim makes. */
  function Transition(m: Mission, target: Status, cause: Cause): Result<Mission, ()> {
    if CanTransition(m.status, target, cause == ByRecovery, cause == ByRetry) then
      Success(m.(status := target, claimedAt := None, trail := m.trail + [Visit(target, cause)]))
    else Failure(())
  }

  /** The status changes a mission may show. */
  predicate LegalVisit(previous: Status, v: Visit) {
    match v.cause
    case Creation => false
    case ByTable => v.status in AllowedTransitions(previous)
    case ByClaim => previous == Waiting && v.status == Processing
    case ByRetry => previous == Failed && v.status == Waiting
    case ByRecovery => previous == Processing && (v.status == Waiting || v.status == Failed)
    case ByMarkFailed => previous == Processing && v.status == Failed
  }

  ghost predicate LegalTrail(trail: seq<Visit>) {
    forall i :: 0 < i < |trail| ==> LegalVisit(trail[i - 1].status, trail[i])
  }
}
