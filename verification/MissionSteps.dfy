/**
 What every mission operation does to one mission and its attempt ledger
 (app/storage/memory.py, app/services/mission_engine.py and the services that
 retry, schedule, pause, update, expire and select a provider).

 The repository suspends only inside provider calls, so `run_mission`,
 `confirm_mission` and `cancel_mission` are cut there: each function below is the code
 from one such point to the next and is atomic.
 */
module MissionSteps {
  import opened Wrappers
  import opened MissionDomain
  import opened Backoff

  /** A mission object together with the ledger row of `_execution_attempts` for its id. */
  datatype Entry = Entry(mission: Mission, attempts: seq<Attempt>)

  datatype Error =
    | MissionNotFound | InvalidRun | NotReady | ResolutionError | InvalidTransition
    | ProviderCrash(transient: bool) | InvalidConfirmation | InvalidCancellation
    | SchedulingNotAllowed | InvalidSchedule | PauseNotAllowed | ResumeNotAllowed
    | UpdateNotAllowed | InvalidUpdate | UnsupportedExecutionMode | UnsupportedMissionType
    | UnknownProvider | SelectionNotAllowed | RetryNotAllowed | AttemptsExhausted
    | InvalidRetryTime | BadAttemptNumber

  // ------------------------------------------------------- the attempt ledger

  predicate LastIsOpen(attempts: seq<Attempt>) {
    attempts != [] && attempts[|attempts| - 1].status == AttemptProcessing
  }

  /** `_close_execution_attempt`. */
  function CloseLast(m: Mission, attempts: seq<Attempt>, finishedAt: Time, status: AttemptStatus): seq<Attempt> {
    if LastIsOpen(attempts) then
      attempts[|attempts| - 1 := attempts[|attempts| - 1].(
        status := status, finishedAt := Some(finishedAt),
        resolvedProviderId := m.resolvedProviderId, reservationId := m.reservationId)]
    else attempts
  }

  /** `_set_open_attempt_provider`. */
  function SetOpenProvider(m: Mission, attempts: seq<Attempt>): seq<Attempt> {
    if LastIsOpen(attempts) && m.resolvedProviderId.Some? then
      attempts[|attempts| - 1 := attempts[|attempts| - 1].(resolvedProviderId := m.resolvedProviderId)]
    else attempts
  }

  function ClosingStatus(s: Status): Option<AttemptStatus> {
    match s
    case RequiresConfirmation => Some(AttemptRequiresConfirmation)
    case Completed => Some(AttemptCompleted)
    case Failed => Some(AttemptFailed)
    case _ => None
  }

  /** The ledger half of `update`; a closing update needs a time, which the last event gives. */
  function UpdateLedger(m: Mission, attempts: seq<Attempt>): seq<Attempt>
    requires ClosingStatus(m.status).Some? ==> m.log != []
  {
    if m.status == Processing then SetOpenProvider(m, attempts)
    else
      match ClosingStatus(m.status)
      case Some(status) => CloseLast(m, attempts, m.log[|m.log| - 1].timestamp, status)
      case None => attempts
  }

  function Save(e: Entry): Entry
    requires ClosingStatus(e.mission.status).Some? ==> e.mission.log != []
  {
    e.(attempts := UpdateLedger(e.mission, e.attempts))
  }

  // ----------------------------------------------- claim, expiry and recovery

  predicate Due(m: Mission, now: Time) {
    && m.status == Waiting
    && m.scheduledAt.Some? && m.scheduledAt.value <= now
    && (m.expiresAt.None? || m.expiresAt.value > now)
    && !m.HasExhaustedAttempts()
  }

  /** What `claim_due` does to one mission it picked: no event is recorded. */
  function Claim(e: Entry, now: Time): Entry {
    var m := e.mission;
    Entry(
      m.(status := Processing, claimedAt := Some(now), executionAttempts := m.executionAttempts + 1,
         trail := m.trail + [Visit(Processing, ByClaim)]),
      e.attempts + [Attempt(m.executionAttempts + 1, AttemptProcessing, now, None, None, None)])
  }

  predicate Expirable(s: Status) {
    s == Created || s == Waiting || s == Paused
  }

  predicate ExpiryDue(m: Mission, now: Time) {
    Expirable(m.status) && m.expiresAt.Some? && m.expiresAt.value <= now
  }

  /** `expire_due` and `expire_mission_if_due` on a mission whose expiry is due. */
  function Expire(m: Mission, now: Time, st: Stamps): Mission {
    match Transition(m, Expired, ByTable)
    case Success(moved) => EmitAt(moved, MissionExpired, st, now)
    case Failure(_) => m
  }

  predicate Stale(m: Mission, now: Time, claimTimeout: Time) {
    m.status == Processing && m.claimedAt.Some? && m.claimedAt.value <= now - claimTimeout
  }

  /** `recover_stale` followed by the closing of the attempt. */
  function Recover(e: Entry, now: Time, st: Stamps): Entry {
    var m := e.mission;
    var target := if m.HasExhaustedAttempts() then Failed else Waiting;
    match Transition(m, target, ByRecovery)
    case Failure(_) => e
    case Success(moved) =>
      var recovered := EmitAt(moved, ClaimRecovered(target == Failed), st, now);
      Entry(recovered, CloseLast(recovered, e.attempts, now,
                                 if recovered.status == Failed then AttemptFailed else AttemptRecovered))
  }

  // ------------------------------------------------------ segments of a run

  datatype Await =
    | AwaitSearch
    | AwaitReserve
    | AwaitAutoConfirm(reservation: ReservationId)
    | AwaitConfirm(reservation: ReservationId)
    | AwaitCancel(reservation: ReservationId)

  /** How a segment ends: inside a provider call, with a result, or with an exception. */
  datatype Segment =
    | Suspended(entry: Entry, at: Await, provider: ProviderId)
    | Returned(entry: Entry)
    | Raised(entry: Entry, error: Error)

  datatype Resolution = Unresolved | Resolved(provider: ProviderId)

  /** Move to a final status of the segment, record the event, store. */
  function FinishAs(e: Entry, m: Mission, target: Status, kind: EventKind, st: Stamps): Segment {
    match Transition(m, target, ByTable)
    case Failure(_) => Raised(e.(mission := m), InvalidTransition)
    case Success(moved) => Returned(Save(e.(mission := Emit(moved, kind, st))))
  }

  /** `run_mission` up to the search call. */
  function StartRun(e: Entry, now: Time, allowProcessing: bool, resolution: Resolution,
                    participantsFound: bool, st: Stamps): Segment
  {
    var m := e.mission;
    if !(m.status == Created || m.status == Waiting || (allowProcessing && m.status == Processing)) then
      Raised(e, InvalidRun)
    else if ExpiryDue(m, now) then
      Raised(Save(e.(mission := Expire(m, now, st))), NotReady)
    else if m.status == Waiting && m.scheduledAt.Some? && m.scheduledAt.value > now then
      Raised(e, NotReady)
    else Resolve(e, resolution, participantsFound, st)
  }

  /** Record which provider was resolved, or that none was. */
  function Resolve(e: Entry, resolution: Resolution, participantsFound: bool, st: Stamps): Segment
    requires ClosingStatus(e.mission.status).None?
  {
    var m := e.mission;
    match resolution
    case Unresolved => Raised(Save(e.(mission := Emit(m, ProviderResolutionFailed, st))), ResolutionError)
    case Resolved(provider) =>
      var known := Emit(m.(resolvedProviderId := Some(provider)), ProviderResolved(provider), st);
      BeginSearch(Save(e.(mission := known)), provider, participantsFound, st)
  }

  /** The rest of that segment, once the provider is recorded. */
  function BeginSearch(e: Entry, provider: ProviderId, participantsFound: bool, st: Stamps): Segment {
    var m := e.mission;
    var processing := m.status == Processing;
    match (if processing then Success(m) else Transition(m, Running, ByTable))
    case Failure(_) => Raised(e, InvalidTransition)
    case Success(running) =>
      if !participantsFound then FinishAs(e, running, Failed, ParticipantMissing, st)
      else
        var started := Emit(running, MissionStarted, st);
        match (if processing then Success(started) else Transition(started, Searching, ByTable))
        case Failure(_) => Raised(e.(mission := started), InvalidTransition)
        case Success(searching) =>
          Suspended(e.(mission := Emit(searching, SearchStarted, st)), AwaitSearch, provider)
  }

  datatype SearchAnswer =
    | Found(count: nat, best: Option<nat>)
    | SearchFailed(retryable: bool)
    | SearchCrashed(transient: bool)

  /** From the search answer to the reservation call; `processing` is the run's own flag. */
  function AfterSearch(e: Entry, processing: bool, provider: ProviderId, answer: SearchAnswer, st: Stamps): Segment {
    var m := e.mission;
    match answer
    case SearchCrashed(transient) => Raised(e, ProviderCrash(transient))
    case SearchFailed(retryable) => FinishAs(e, m, Failed, ProviderOperationFailed(retryable), st)
    case Found(count, best) =>
      var counted := Emit(m, OptionsFound(count), st);
      if best.None? then FinishAs(e, counted, Failed, NoValidOptionFound, st)
      else
        match (if processing then Success(counted) else Transition(counted, OptionFound, ByTable))
        case Failure(_) => Raised(e.(mission := counted), InvalidTransition)
        case Success(chosen) =>
          ReserveOrFinish(e, Emit(chosen.(bestOption := best), BestOptionSelected, st), processing, provider, st)
  }

  function ReserveOrFinish(e: Entry, m: Mission, processing: bool, provider: ProviderId, st: Stamps): Segment {
    if m.mode == SearchOnly then FinishAs(e, m, Completed, MissionSearchCompleted, st)
    else
      match (if processing then Success(m) else Transition(m, Reserving, ByTable))
      case Failure(_) => Raised(e.(mission := m), InvalidTransition)
      case Success(reserving) =>
        Suspended(e.(mission := Emit(reserving, ReservationStarted, st)), AwaitReserve, provider)
  }

  datatype ReserveAnswer =
    | Reserved(reservation: ReservationId, needsConfirmation: bool)
    | ReserveRejected
    | ReserveFailed(retryable: bool)
    | ReserveCrashed(transient: bool)

  /** From the reservation answer to the confirmation call or the end. */
  function AfterReserve(e: Entry, provider: ProviderId, answer: ReserveAnswer, st: Stamps): Segment {
    var m := e.mission;
    match answer
    case ReserveCrashed(transient) => Raised(e, ProviderCrash(transient))
    case ReserveFailed(retryable) => FinishAs(e, m, Failed, ProviderOperationFailed(retryable), st)
    case ReserveRejected => FinishAs(e, m, Failed, ReservationFailed, st)
    case Reserved(reservation, needsConfirmation) =>
      var booked := Emit(m.(reservationId := Some(reservation)), ReservationSucceeded(reservation, needsConfirmation), st);
      if m.mode == RequireConfirmation then
        FinishAs(e, booked, RequiresConfirmation, WaitingForUserConfirmation, st)
      else if needsConfirmation then
        Suspended(e.(mission := Emit(booked, AutomaticConfirmationStarted, st)), AwaitAutoConfirm(reservation), provider)
      else FinishAs(e, booked, Completed, MissionCompleted, st)
  }

  datatype CallAnswer =
    | Accepted
    | Rejected
    | CallFailed(retryable: bool)
    | CallCrashed(transient: bool)

  function AfterAutoConfirm(e: Entry, answer: CallAnswer, st: Stamps): Segment {
    var m := e.mission;
    match answer
    case CallCrashed(transient) => Raised(e, ProviderCrash(transient))
    case CallFailed(retryable) => FinishAs(e, m, Failed, ProviderOperationFailed(retryable), st)
    case Rejected => FinishAs(e, m, Failed, AutomaticConfirmationFailed, st)
    case Accepted => FinishAs(e, Emit(m, AutomaticConfirmationSucceeded, st), Completed, MissionCompleted, st)
  }

  // ------------------------------------------------- confirm and cancel calls

  /** `_requires_provider_confirmation`: None is the incomplete-metadata exception. */
  function NeedsProvider(m: Mission): Option<bool> {
    if m.resolvedProviderId.None? && m.reservationId.None? then Some(false)
    else if m.resolvedProviderId.None? || m.reservationId.None? then None
    else Some(true)
  }

  function Confirmed(e: Entry, m: Mission, st: Stamps): Segment {
    match Transition(m, Completed, ByTable)
    case Failure(_) => Raised(e.(mission := m), InvalidTransition)
    case Success(moved) => Returned(Save(e.(mission := Emit(Emit(moved, MissionConfirmed, st), MissionCompleted, st))))
  }

  function StartConfirm(e: Entry, providerKnown: bool, st: Stamps): Segment {
    var m := e.mission;
    if m.status != RequiresConfirmation then Raised(e, InvalidConfirmation)
    else
      match NeedsProvider(m)
      case None => Raised(e, InvalidConfirmation)
      case Some(false) => Confirmed(e, m, st)
      case Some(true) =>
        if !providerKnown then Raised(e, InvalidConfirmation)
        else Suspended(e.(mission := Emit(m, ConfirmationStarted, st)),
                       AwaitConfirm(m.reservationId.value), m.resolvedProviderId.value)
  }

  function AfterConfirm(e: Entry, answer: CallAnswer, st: Stamps): Segment {
    var m := e.mission;
    match answer
    case CallCrashed(transient) => Raised(e, ProviderCrash(transient))
    case CallFailed(retryable) => FinishAs(e, m, Failed, ProviderOperationFailed(retryable), st)
    case Rejected => FinishAs(e, m, Failed, ConfirmationFailed, st)
    case Accepted => Confirmed(e, Emit(m, ConfirmationSucceeded, st), st)
  }

  function StartCancel(e: Entry, providerKnown: bool, st: Stamps): Segment {
    var m := e.mission;
    if m.status == Created || m.status == Waiting || m.status == Paused then
      FinishAs(e, m, Cancelled, MissionCancelled, st)
    else if m.status != RequiresConfirmation then Raised(e, InvalidCancellation)
    else
      match NeedsProvider(m)
      case None => Raised(e, InvalidCancellation)
      case Some(false) => FinishAs(e, m, Cancelled, MissionCancelled, st)
      case Some(true) =>
        if !providerKnown then Raised(e, InvalidCancellation)
        else Suspended(e.(mission := Emit(m, CancellationStarted, st)),
                       AwaitCancel(m.reservationId.value), m.resolvedProviderId.value)
  }

  function AfterCancel(e: Entry, answer: CallAnswer, st: Stamps): Segment {
    var m := e.mission;
    match answer
    case CallCrashed(transient) => Raised(e, ProviderCrash(transient))
    case CallFailed(retryable) => FinishAs(e, m, Failed, ProviderOperationFailed(retryable), st)
    case Rejected => FinishAs(e, m, Failed, CancellationFailed, st)
    case Accepted => FinishAs(e, Emit(m, CancellationSucceeded, st), Cancelled, MissionCancelled, st)
  }

  // --------------------------------------------- retry and the planning services

  /** `retry_mission`. */
  function RetryMission(e: Entry, retryAt: Option<Time>, now: Time, st: Stamps): Result<Entry, Error> {
    var m := e.mission;
    var effective := if retryAt.Some? then retryAt.value else now;
    if effective < now then Failure(InvalidRetryTime)
    else if m.status != Failed then Failure(RetryNotAllowed)
    else if m.HasExhaustedAttempts() then Failure(AttemptsExhausted)
    else
      match Transition(m, Waiting, ByRetry)
      case Failure(_) => Failure(InvalidTransition)
      case Success(moved) =>
        Success(Save(e.(mission := EmitAt(
          moved.(scheduledAt := Some(effective), resolvedProviderId := None, reservationId := None, bestOption := None),
          MissionRetryScheduled(effective), st, now))))
  }

  predicate Plannable(s: Status) {
    s == Created || s == Waiting || s == Paused
  }

  /** The mission with another schedule and the status that goes with it, a move the table allows. */
  function Planned(m: Mission, at: Option<Time>, target: Status): Mission {
    if target == m.status then m.(scheduledAt := at)
    else m.(scheduledAt := at, status := target, claimedAt := None, trail := m.trail + [Visit(target, ByTable)])
  }

  /** The status a new schedule asks for. */
  function PlanTarget(current: Status, at: Option<Time>): Status {
    if at.None? && current == Waiting then Created else if at.Some? && current == Created then Waiting else current
  }

  function PlanKind(at: Option<Time>): EventKind {
    if at.None? then MissionUnscheduled else MissionScheduled(at.value)
  }

  /** `schedule_mission`. */
  function ScheduleMission(e: Entry, scheduledAt: Option<Time>, now: Time, st: Stamps): Result<Entry, Error> {
    var m := e.mission;
    if !Plannable(m.status) then Failure(SchedulingNotAllowed)
    else if m.scheduledAt == scheduledAt then Success(e)
    else if scheduledAt.None? && m.status == Created then Success(e)
    else if scheduledAt.Some? && scheduledAt.value <= now then Failure(InvalidSchedule)
    else if scheduledAt.Some? && m.expiresAt.Some? && scheduledAt.value > m.expiresAt.value then Failure(InvalidSchedule)
    else
      var planned := Planned(m, scheduledAt, PlanTarget(m.status, scheduledAt));
      Success(Save(e.(mission := EmitAt(planned, PlanKind(scheduledAt), st, now))))
  }

  /** `pause_mission`. */
  function PauseMission(e: Entry, st: Stamps): Result<Entry, Error> {
    var m := e.mission;
    if m.status != Created && m.status != Waiting then Failure(PauseNotAllowed)
    else
      match Transition(m, Paused, ByTable)
      case Failure(_) => Failure(InvalidTransition)
      case Success(moved) => Success(Save(e.(mission := Emit(moved, MissionPaused, st))))
  }

  /** `resume_mission`. */
  function ResumeMission(e: Entry, st: Stamps): Result<Entry, Error> {
    var m := e.mission;
    if m.status != Paused then Failure(ResumeNotAllowed)
    else
      match Transition(m, if m.scheduledAt.Some? then Waiting else Created, ByTable)
      case Failure(_) => Failure(InvalidTransition)
      case Success(moved) => Success(Save(e.(mission := Emit(moved, MissionResumed, st))))
  }

  /** The fields a request to `update_mission` may carry. */
  datatype Changes = Changes(
    title: Option<string>, fallbackRules: Option<nat>, mode: Option<Mode>, maxExecutionAttempts: Option<nat>)

  function Changed<T(==)>(current: T, wanted: Option<T>): T {
    if wanted.Some? then wanted.value else current
  }

  /** The changes and their event; a request that changes nothing records nothing. */
  function RecordUpdate(e: Entry, changes: Changes, st: Stamps): Entry
    requires Plannable(e.mission.status)
  {
    var m := e.mission;
    var updated := m.(
      title := Changed(m.title, changes.title),
      fallbackRules := Changed(m.fallbackRules, changes.fallbackRules),
      mode := Changed(m.mode, changes.mode),
      maxExecutionAttempts := Changed(m.maxExecutionAttempts, changes.maxExecutionAttempts));
    if updated == m then e else Save(e.(mission := Emit(updated, MissionUpdated, st)))
  }

  /** `update_mission`; `modeSupport` is what the explicitly selected provider answers. */
  function UpdateMission(e: Entry, changes: Changes, modeSupport: Result<bool, Error>, st: Stamps): Result<Entry, Error> {
    var m := e.mission;
    if !Plannable(m.status) then Failure(UpdateNotAllowed)
    else if changes.maxExecutionAttempts.Some? && changes.maxExecutionAttempts.value < m.executionAttempts then
      Failure(InvalidUpdate)
    else if changes.mode.Some? && changes.mode.value != m.mode && m.providerId.Some? && modeSupport.Failure? then
      Failure(modeSupport.error)
    else if changes.mode.Some? && changes.mode.value != m.mode && m.providerId.Some? && !modeSupport.value then
      Failure(UnsupportedExecutionMode)
    else Success(RecordUpdate(e, changes, st))
  }

  datatype ProviderSupport = NotRegistered | NoMissionType | NoExecutionMode | Supported

  /** `SetMissionProvider.execute`: a change of choice makes a copy of the mission object. */
  function SelectProvider(e: Entry, provider: Option<ProviderId>, support: ProviderSupport, now: Time, st: Stamps)
    : Result<Option<Entry>, Error>
  {
    var m := e.mission;
    if !Plannable(m.status) then Failure(SelectionNotAllowed)
    else if provider.Some? && support == NotRegistered then Failure(UnknownProvider)
    else if provider.Some? && support == NoMissionType then Failure(UnsupportedMissionType)
    else if provider.Some? && support == NoExecutionMode then Failure(UnsupportedExecutionMode)
    else if provider == m.providerId then Success(None)
    else
      Success(Some(Save(e.(mission := EmitAt(
        m.(providerId := provider, resolvedProviderId := None, reservationId := None),
        ProviderSelectionChanged, st, now)))))
  }

  // ------------------------------------------------------ the due processor

  /** `should_retry_mission`. */
  predicate ShouldRetryMission(m: Mission) {
    && !m.HasExhaustedAttempts()
    && m.log != []
    && (var last := m.log[|m.log| - 1].kind;
        last == NoValidOptionFound || last == ProviderOperationFailed(true))
  }

  /** `should_retry_exception`: connection and timeout errors only. */
  predicate ShouldRetryException(error: Error) {
    error == ProviderCrash(true)
  }

  /** `_mark_claimed_mission_failed` assigns the status without asking the table. */
  function MarkFailed(e: Entry, st: Stamps): Entry {
    var m := e.mission;
    Save(e.(mission := Emit(
      m.(status := Failed, claimedAt := None, trail := m.trail + [Visit(Failed, ByMarkFailed)]),
      MissionProcessingFailed, st)))
  }

  /** `_record_terminal_failure`. */
  function RecordTerminalFailure(e: Entry, now: Time, st: Stamps): Entry {
    Save(e.(mission := EmitAt(e.mission, MissionFailed, st, now)))
  }

  /** `_schedule_automatic_retry`. */
  function AutomaticRetryTime(m: Mission, now: Time, policy: RetryPolicy): Time
    requires policy.Valid() && m.executionAttempts >= 1
  {
    var at := now + CappedDelay(policy, m.executionAttempts);
    if m.expiresAt.Some? then Min(at, m.expiresAt.value) else at
  }

  function AutomaticRetry(e: Entry, now: Time, policy: RetryPolicy, st: Stamps): Result<Entry, Error>
    requires policy.Valid()
  {
    if e.mission.executionAttempts < 1 then Failure(BadAttemptNumber)
    else RetryMission(e, Some(AutomaticRetryTime(e.mission, now, policy)), now, st)
  }

  /** The list of the pass in which a claimed mission ends, or the exception that ends the pass. */
  datatype Verdict = SucceededVerdict | FailedVerdict | RetryVerdict | NoVerdict | Escaped(error: Error)

  /** The pass after `run_mission` returned the entry. */
  function AfterDueReturn(e: Entry, now: Time, policy: RetryPolicy, st: Stamps): (Entry, Verdict)
    requires policy.Valid()
  {
    var m := e.mission;
    if m.status == RequiresConfirmation || m.status == Completed then (e, SucceededVerdict)
    else if m.status != Failed then (e, NoVerdict)
    else if ShouldRetryMission(m) then
      match AutomaticRetry(e, now, policy, st)
      case Success(retried) => (retried, RetryVerdict)
      case Failure(error) => (e, Escaped(error))
    else (RecordTerminalFailure(e, now, st), FailedVerdict)
  }

  /** The pass after `run_mission` raised; the entry is the stored one. */
  function AfterDueRaise(e: Entry, error: Error, now: Time, policy: RetryPolicy, st: Stamps): (Entry, Verdict)
    requires policy.Valid()
  {
    var marked := MarkFailed(e, st);
    if ShouldRetryException(error) then
      match AutomaticRetry(marked, now, policy, st)
      case Success(retried) => (retried, RetryVerdict)
      case Failure(escaped) => (marked, Escaped(escaped))
    else (marked, FailedVerdict)
  }
}
