/**
 The mission services as they change the mission object and the repository in place
 (app/services/mission_engine.py, mission_retry.py, mission_scheduling.py, mission_pause.py,
 mission_update.py, mission_provider_selection.py).  A call is cut at its provider requests; every
 method is proved to be the segment of MissionSteps on the values the objects hold, so that what
 MissionInvariants, MissionSafety and MissionLifecycle prove of segments holds of these methods.
 */
module MissionEngine {
  import opened Wrappers
  import D = MissionDomain
  import opened MissionDomain
  import S = MissionSteps
  import opened MissionSteps
  import opened MissionObjects

  /** Where a method stops: in a provider request, with a result, or with an exception. */
  datatype Stop =
    | Calls(at: Await, provider: ProviderId)
    | Returns
    | Raises(error: Error)

  function Ending(e: Entry, stop: Stop): Segment {
    match stop
    case Calls(at, provider) => Suspended(e, at, provider)
    case Returns => Returned(e)
    case Raises(error) => Raised(e, error)
  }

  /** The mission with its ledger row, whether or not the object is the one stored. */
  ghost function EntryOf(repo: MissionRepository, mission: MissionObject): Entry
    reads repo, mission
  {
    Entry(mission.View(), repo.AttemptsOf(mission.id))
  }

  /** An object that came out of the repository: its id is known there. */
  ghost predicate Known(repo: MissionRepository, mission: MissionObject)
    reads repo
  {
    repo.Valid() && mission.id in repo.missions
  }

  /** A call touches one ledger row and files at most this object. */
  twostate predicate OnlyThis(repo: MissionRepository, new mission: MissionObject, stores: bool)
    reads repo
  {
    && repo.Valid()
    && repo.order == old(repo.order)
    && repo.missions == (if stores then old(repo.missions)[mission.id := mission] else old(repo.missions))
    && forall other :: other != mission.id ==> repo.AttemptsOf(other) == old(repo.AttemptsOf(other))
  }

  method Save(repo: MissionRepository, mission: MissionObject)
    requires Known(repo, mission)
    requires ClosingStatus(mission.status).Some? ==> mission.executionLog != []
    modifies repo
    ensures EntryOf(repo, mission) == S.Save(old(EntryOf(repo, mission)))
    ensures OnlyThis(repo, mission, true)
  {
    repo.Update(mission);
  }

  /** Move to a final status, record the event, store. */
  method FinishAs(repo: MissionRepository, mission: MissionObject, target: Status, kind: EventKind, st: Stamps)
    returns (stop: Stop)
    requires Known(repo, mission)
    modifies repo, mission
    ensures Ending(EntryOf(repo, mission), stop)
         == S.FinishAs(old(EntryOf(repo, mission)), old(mission.View()), target, kind, st)
    ensures OnlyThis(repo, mission, stop.Returns?) && !stop.Calls?
  {
    hide EmitAt, UpdateLedger;
    var moved := mission.MoveTo(target, ByTable);
    if !moved {
      return Raises(InvalidTransition);
    }
    mission.AddEvent(kind, st);
    Save(repo, mission);
    return Returns;
  }

  // ------------------------------------------------------------- run_mission

  /** `expire_mission_if_due`. */
  method ExpireMissionIfDue(repo: MissionRepository, mission: MissionObject, now: Time, st: Stamps) returns (expired: bool)
    requires repo.Valid() && repo.IsAt(mission, mission.id)
    modifies repo, mission
    ensures expired == ExpiryDue(old(mission.View()), now)
    ensures EntryOf(repo, mission) ==
            if expired then S.Save(old(EntryOf(repo, mission)).(mission := Expire(old(mission.View()), now, st)))
            else old(EntryOf(repo, mission))
    ensures OnlyThis(repo, mission, false)
  {
    hide EmitAt, UpdateLedger;
    if mission.expiresAt.None? || mission.expiresAt.value > now || !Expirable(mission.status) {
      return false;
    }
    var moved := mission.MoveTo(Expired, ByTable);
    mission.AddEventAt(MissionExpired, st, now);
    Save(repo, mission);
    return true;
  }

  /** `run_mission` up to the search call. */
  method StartRun(repo: MissionRepository, mission: MissionObject, now: Time, allowProcessing: bool,
                  resolution: Resolution, participantsFound: bool, st: Stamps)
    returns (stop: Stop)
    requires repo.Valid() && repo.IsAt(mission, mission.id)
    modifies repo, mission
    ensures Ending(EntryOf(repo, mission), stop)
         == S.StartRun(old(EntryOf(repo, mission)), now, allowProcessing, resolution, participantsFound, st)
    ensures OnlyThis(repo, mission, false)
  {
    hide S.Save, Expire, S.Resolve;
    if mission.status != Created && mission.status != Waiting && !(allowProcessing && mission.status == Processing) {
      return Raises(InvalidRun);
    }
    var expired := ExpireMissionIfDue(repo, mission, now, st);
    if expired {
      return Raises(NotReady);
    }
    if mission.status == Waiting && mission.scheduledAt.Some? && mission.scheduledAt.value > now {
      return Raises(NotReady);
    }
    stop := Resolve(repo, mission, resolution, participantsFound, st);
  }

  method Resolve(repo: MissionRepository, mission: MissionObject, resolution: Resolution, participantsFound: bool, st: Stamps)
    returns (stop: Stop)
    requires repo.Valid() && repo.IsAt(mission, mission.id) && ClosingStatus(mission.status).None?
    modifies repo, mission
    ensures Ending(EntryOf(repo, mission), stop) == S.Resolve(old(EntryOf(repo, mission)), resolution, participantsFound, st)
    ensures OnlyThis(repo, mission, false)
  {
    hide Emit, S.Save, S.BeginSearch;
    match resolution
    case Unresolved =>
      mission.AddEvent(ProviderResolutionFailed, st);
      Save(repo, mission);
      return Raises(ResolutionError);
    case Resolved(provider) =>
      mission.resolvedProviderId := Some(provider);
      mission.AddEvent(ProviderResolved(provider), st);
      Save(repo, mission);
      stop := BeginSearch(repo, mission, provider, participantsFound, st);
  }

  method BeginSearch(repo: MissionRepository, mission: MissionObject, provider: ProviderId, participantsFound: bool, st: Stamps)
    returns (stop: Stop)
    requires repo.Valid() && repo.IsAt(mission, mission.id)
    modifies repo, mission
    ensures Ending(EntryOf(repo, mission), stop) == S.BeginSearch(old(EntryOf(repo, mission)), provider, participantsFound, st)
    ensures OnlyThis(repo, mission, false)
  {
    hide Emit, S.FinishAs;
    var processing := mission.status == Processing;
    var moved := true;
    if !processing {
      moved := mission.MoveTo(Running, ByTable);
      if !moved {
        return Raises(InvalidTransition);
      }
    }
    if !participantsFound {
      FinishFrom(old(EntryOf(repo, mission)), mission.View(), Failed, ParticipantMissing, st);
      stop := FinishAs(repo, mission, Failed, ParticipantMissing, st);
      return;
    }
    mission.AddEvent(MissionStarted, st);
    if !processing {
      moved := mission.MoveTo(Searching, ByTable);
      if !moved {
        return Raises(InvalidTransition);
      }
    }
    mission.AddEvent(SearchStarted, st);
    return Calls(AwaitSearch, provider);
  }

  /** Finishing depends on the object at hand and the ledger, not on how the object was when the segment began. */
  lemma FinishFrom(e: Entry, m: Mission, target: Status, kind: EventKind, st: Stamps)
    ensures S.FinishAs(e, m, target, kind, st) == S.FinishAs(e.(mission := m), m, target, kind, st)
  {
    hide EmitAt, UpdateLedger;
  }

  /** From the search answer to the reservation call; `processing` is the run's own flag. */
  method AfterSearch(repo: MissionRepository, mission: MissionObject, processing: bool, provider: ProviderId,
                     answer: SearchAnswer, st: Stamps)
    returns (stop: Stop)
    requires Known(repo, mission)
    modifies repo, mission
    ensures Ending(EntryOf(repo, mission), stop) == S.AfterSearch(old(EntryOf(repo, mission)), processing, provider, answer, st)
    ensures OnlyThis(repo, mission, stop.Returns?)
  {
    hide Emit, S.FinishAs, S.ReserveOrFinish;
    match answer
    case SearchCrashed(transient) => return Raises(ProviderCrash(transient));
    case SearchFailed(retryable) => stop := FinishAs(repo, mission, Failed, ProviderOperationFailed(retryable), st);
    case Found(count, best) =>
      mission.AddEvent(OptionsFound(count), st);
      if best.None? {
        FinishFrom(old(EntryOf(repo, mission)), mission.View(), Failed, NoValidOptionFound, st);
        stop := FinishAs(repo, mission, Failed, NoValidOptionFound, st);
        return;
      }
      if !processing {
        var moved := mission.MoveTo(OptionFound, ByTable);
        if !moved {
          return Raises(InvalidTransition);
        }
      }
      mission.bestOption := best;
      mission.AddEvent(BestOptionSelected, st);
      ReserveFrom(old(EntryOf(repo, mission)), mission.View(), processing, provider, st);
      stop := ReserveOrFinish(repo, mission, processing, provider, st);
  }

  lemma ReserveFrom(e: Entry, m: Mission, processing: bool, provider: ProviderId, st: Stamps)
    ensures S.ReserveOrFinish(e, m, processing, provider, st) == S.ReserveOrFinish(e.(mission := m), m, processing, provider, st)
  {
    hide Emit, S.FinishAs;
    FinishFrom(e, m, Completed, MissionSearchCompleted, st);
  }

  method ReserveOrFinish(repo: MissionRepository, mission: MissionObject, processing: bool, provider: ProviderId, st: Stamps)
    returns (stop: Stop)
    requires Known(repo, mission)
    modifies repo, mission
    ensures Ending(EntryOf(repo, mission), stop)
         == S.ReserveOrFinish(old(EntryOf(repo, mission)), old(mission.View()), processing, provider, st)
    ensures OnlyThis(repo, mission, stop.Returns?)
  {
    hide Emit, S.FinishAs;
    if mission.mode == SearchOnly {
      stop := FinishAs(repo, mission, Completed, MissionSearchCompleted, st);
      return;
    }
    if !processing {
      var moved := mission.MoveTo(Reserving, ByTable);
      if !moved {
        return Raises(InvalidTransition);
      }
    }
    mission.AddEvent(ReservationStarted, st);
    return Calls(AwaitReserve, provider);
  }

  /** From the reservation answer to the confirmation call or the end. */
  method AfterReserve(repo: MissionRepository, mission: MissionObject, provider: ProviderId, answer: ReserveAnswer, st: Stamps)
    returns (stop: Stop)
    requires Known(repo, mission)
    modifies repo, mission
    ensures Ending(EntryOf(repo, mission), stop) == S.AfterReserve(old(EntryOf(repo, mission)), provider, answer, st)
    ensures OnlyThis(repo, mission, stop.Returns?)
  {
    hide Emit, S.FinishAs;
    match answer
    case ReserveCrashed(transient) => return Raises(ProviderCrash(transient));
    case ReserveFailed(retryable) => stop := FinishAs(repo, mission, Failed, ProviderOperationFailed(retryable), st);
    case ReserveRejected => stop := FinishAs(repo, mission, Failed, ReservationFailed, st);
    case Reserved(reservation, needsConfirmation) =>
      mission.reservationId := Some(reservation);
      mission.AddEvent(ReservationSucceeded(reservation, needsConfirmation), st);
      ghost var e, booked := old(EntryOf(repo, mission)), mission.View();
      EmitKeepsRest(e.mission.(reservationId := Some(reservation)), ReservationSucceeded(reservation, needsConfirmation), st);
      if mission.mode == RequireConfirmation {
        FinishFrom(e, booked, RequiresConfirmation, WaitingForUserConfirmation, st);
        stop := FinishAs(repo, mission, RequiresConfirmation, WaitingForUserConfirmation, st);
      } else if needsConfirmation {
        mission.AddEvent(AutomaticConfirmationStarted, st);
        return Calls(AwaitAutoConfirm(reservation), provider);
      } else {
        FinishFrom(e, booked, Completed, MissionCompleted, st);
        stop := FinishAs(repo, mission, Completed, MissionCompleted, st);
      }
  }

  method AfterAutoConfirm(repo: MissionRepository, mission: MissionObject, answer: CallAnswer, st: Stamps)
    returns (stop: Stop)
    requires Known(repo, mission)
    modifies repo, mission
    ensures Ending(EntryOf(repo, mission), stop) == S.AfterAutoConfirm(old(EntryOf(repo, mission)), answer, st)
    ensures OnlyThis(repo, mission, stop.Returns?) && !stop.Calls?
  {
    hide Emit, S.FinishAs;
    match answer
    case CallCrashed(transient) => return Raises(ProviderCrash(transient));
    case CallFailed(retryable) => stop := FinishAs(repo, mission, Failed, ProviderOperationFailed(retryable), st);
    case Rejected => stop := FinishAs(repo, mission, Failed, AutomaticConfirmationFailed, st);
    case Accepted =>
      mission.AddEvent(AutomaticConfirmationSucceeded, st);
      FinishFrom(old(EntryOf(repo, mission)), mission.View(), Completed, MissionCompleted, st);
      stop := FinishAs(repo, mission, Completed, MissionCompleted, st);
  }

  lemma EmitKeepsRest(m: Mission, kind: EventKind, st: Stamps)
    ensures var r := Emit(m, kind, st);
            r.(log := m.log, lastEventSequence := m.lastEventSequence) == m
  {
  }

  // ------------------------------------------------- confirm_mission, cancel_mission

  method StartConfirm(repo: MissionRepository, mission: MissionObject, providerKnown: bool, st: Stamps)
    returns (stop: Stop)
    requires Known(repo, mission)
    modifies repo, mission
    ensures Ending(EntryOf(repo, mission), stop) == S.StartConfirm(old(EntryOf(repo, mission)), providerKnown, st)
    ensures OnlyThis(repo, mission, stop.Returns?)
  {
    hide Emit, S.Confirmed;
    if mission.status != RequiresConfirmation {
      return Raises(InvalidConfirmation);
    }
    if mission.resolvedProviderId.None? && mission.reservationId.None? {
      stop := Confirmed(repo, mission, st);
      return;
    }
    if mission.resolvedProviderId.None? || mission.reservationId.None? || !providerKnown {
      return Raises(InvalidConfirmation);
    }
    EmitKeepsRest(mission.View(), ConfirmationStarted, st);
    mission.AddEvent(ConfirmationStarted, st);
    return Calls(AwaitConfirm(mission.reservationId.value), mission.resolvedProviderId.value);
  }

  method AfterConfirm(repo: MissionRepository, mission: MissionObject, answer: CallAnswer, st: Stamps)
    returns (stop: Stop)
    requires Known(repo, mission)
    modifies repo, mission
    ensures Ending(EntryOf(repo, mission), stop) == S.AfterConfirm(old(EntryOf(repo, mission)), answer, st)
    ensures OnlyThis(repo, mission, stop.Returns?) && !stop.Calls?
  {
    hide Emit, S.FinishAs, S.Confirmed;
    match answer
    case CallCrashed(transient) => return Raises(ProviderCrash(transient));
    case CallFailed(retryable) => stop := FinishAs(repo, mission, Failed, ProviderOperationFailed(retryable), st);
    case Rejected => stop := FinishAs(repo, mission, Failed, ConfirmationFailed, st);
    case Accepted =>
      mission.AddEvent(ConfirmationSucceeded, st);
      ConfirmedFrom(old(EntryOf(repo, mission)), mission.View(), st);
      stop := Confirmed(repo, mission, st);
  }

  lemma ConfirmedFrom(e: Entry, m: Mission, st: Stamps)
    ensures S.Confirmed(e, m, st) == S.Confirmed(e.(mission := m), m, st)
  {
    hide EmitAt, UpdateLedger;
  }

  method Confirmed(repo: MissionRepository, mission: MissionObject, st: Stamps) returns (stop: Stop)
    requires Known(repo, mission)
    modifies repo, mission
    ensures Ending(EntryOf(repo, mission), stop) == S.Confirmed(old(EntryOf(repo, mission)), old(mission.View()), st)
    ensures OnlyThis(repo, mission, stop.Returns?) && !stop.Calls?
  {
    hide Emit, S.Save;
    var moved := mission.MoveTo(Completed, ByTable);
    if !moved {
      return Raises(InvalidTransition);
    }
    mission.AddEvent(MissionConfirmed, st);
    mission.AddEvent(MissionCompleted, st);
    Save(repo, mission);
    return Returns;
  }

  method StartCancel(repo: MissionRepository, mission: MissionObject, providerKnown: bool, st: Stamps)
    returns (stop: Stop)
    requires Known(repo, mission)
    modifies repo, mission
    ensures Ending(EntryOf(repo, mission), stop) == S.StartCancel(old(EntryOf(repo, mission)), providerKnown, st)
    ensures OnlyThis(repo, mission, stop.Returns?)
  {
    hide Emit, S.FinishAs;
    if mission.status != Created && mission.status != Waiting && mission.status != Paused
       && mission.status != RequiresConfirmation {
      return Raises(InvalidCancellation);
    }
    if mission.status == RequiresConfirmation {
      var booked := mission.resolvedProviderId.Some? || mission.reservationId.Some?;
      if booked {
        if mission.resolvedProviderId.None? || mission.reservationId.None? || !providerKnown {
          return Raises(InvalidCancellation);
        }
        EmitKeepsRest(mission.View(), CancellationStarted, st);
        mission.AddEvent(CancellationStarted, st);
        return Calls(AwaitCancel(mission.reservationId.value), mission.resolvedProviderId.value);
      }
    }
    stop := FinishAs(repo, mission, Cancelled, MissionCancelled, st);
  }

  method AfterCancel(repo: MissionRepository, mission: MissionObject, answer: CallAnswer, st: Stamps)
    returns (stop: Stop)
    requires Known(repo, mission)
    modifies repo, mission
    ensures Ending(EntryOf(repo, mission), stop) == S.AfterCancel(old(EntryOf(repo, mission)), answer, st)
    ensures OnlyThis(repo, mission, stop.Returns?) && !stop.Calls?
  {
    hide Emit, S.FinishAs;
    match answer
    case CallCrashed(transient) => return Raises(ProviderCrash(transient));
    case CallFailed(retryable) => stop := FinishAs(repo, mission, Failed, ProviderOperationFailed(retryable), st);
    case Rejected => stop := FinishAs(repo, mission, Failed, CancellationFailed, st);
    case Accepted =>
      mission.AddEvent(CancellationSucceeded, st);
      FinishFrom(old(EntryOf(repo, mission)), mission.View(), Cancelled, MissionCancelled, st);
      stop := FinishAs(repo, mission, Cancelled, MissionCancelled, st);
  }

  // ------------------------------------------------------ retry and planning

  /** A service answers with a stored entry or refuses and leaves everything as it was. */
  ghost predicate Serves(wanted: Result<Entry, Error>, before: Entry, after: Entry, answer: Result<(), Error>) {
    match wanted
    case Success(e) => after == e && answer.Success?
    case Failure(error) => after == before && answer == Failure(error)
  }

  method RetryMission(repo: MissionRepository, mission: MissionObject, retryAt: Option<Time>, now: Time, st: Stamps)
    returns (r: Result<(), Error>)
    requires repo.Valid() && repo.IsAt(mission, mission.id)
    modifies repo, mission
    ensures Serves(S.RetryMission(old(EntryOf(repo, mission)), retryAt, now, st),
                   old(EntryOf(repo, mission)), EntryOf(repo, mission), r)
    ensures OnlyThis(repo, mission, false)
  {
    hide EmitAt, S.Save;
    var effective := if retryAt.Some? then retryAt.value else now;
    if effective < now {
      return Failure(InvalidRetryTime);
    }
    if mission.status != Failed {
      return Failure(RetryNotAllowed);
    }
    if mission.executionAttempts >= mission.maxExecutionAttempts {
      return Failure(AttemptsExhausted);
    }
    Requeue(mission, effective);
    mission.AddEventAt(MissionRetryScheduled(effective), st, now);
    Save(repo, mission);
    return Success(());
  }

  /** Back to waiting, with nothing left of the failed attempt. */
  method Requeue(mission: MissionObject, at: Time)
    requires mission.status == Failed
    modifies mission
    ensures mission.View() == old(mission.View()).(
              status := Waiting, claimedAt := None, trail := old(mission.trail) + [Visit(Waiting, ByRetry)],
              scheduledAt := Some(at), resolvedProviderId := None, reservationId := None, bestOption := None)
  {
    var moved := mission.MoveTo(Waiting, ByRetry);
    mission.scheduledAt := Some(at);
    mission.resolvedProviderId := None;
    mission.reservationId := None;
    mission.bestOption := None;
  }

  method ScheduleMission(repo: MissionRepository, mission: MissionObject, scheduledAt: Option<Time>, now: Time, st: Stamps)
    returns (r: Result<(), Error>)
    requires repo.Valid() && repo.IsAt(mission, mission.id)
    modifies repo, mission
    ensures Serves(S.ScheduleMission(old(EntryOf(repo, mission)), scheduledAt, now, st),
                   old(EntryOf(repo, mission)), EntryOf(repo, mission), r)
    ensures OnlyThis(repo, mission, false)
  {
    hide EmitAt, S.Save, Planned;
    if mission.status != Created && mission.status != Waiting && mission.status != Paused {
      return Failure(SchedulingNotAllowed);
    }
    if mission.scheduledAt == scheduledAt {
      return Success(());
    }
    if scheduledAt.None? {
      if mission.status == Created {
        return Success(());
      }
    } else {
      if scheduledAt.value <= now || (mission.expiresAt.Some? && scheduledAt.value > mission.expiresAt.value) {
        return Failure(InvalidSchedule);
      }
    }
    Replan(mission, scheduledAt);
    mission.AddEventAt(PlanKind(scheduledAt), st, now);
    Save(repo, mission);
    return Success(());
  }

  /** The new schedule with the move that goes with it. */
  method Replan(mission: MissionObject, at: Option<Time>)
    requires Plannable(mission.status)
    modifies mission
    ensures mission.View() == Planned(old(mission.View()), at, PlanTarget(old(mission.status), at))
  {
    if at.None? {
      if mission.status == Waiting {
        var moved := mission.MoveTo(Created, ByTable);
      }
      mission.scheduledAt := None;
    } else {
      mission.scheduledAt := at;
      if mission.status == Created {
        var moved := mission.MoveTo(Waiting, ByTable);
      }
    }
  }

  method PauseMission(repo: MissionRepository, mission: MissionObject, st: Stamps) returns (r: Result<(), Error>)
    requires repo.Valid() && repo.IsAt(mission, mission.id)
    modifies repo, mission
    ensures Serves(S.PauseMission(old(EntryOf(repo, mission)), st), old(EntryOf(repo, mission)), EntryOf(repo, mission), r)
    ensures OnlyThis(repo, mission, false)
  {
    hide Emit, S.Save;
    if mission.status != Created && mission.status != Waiting {
      return Failure(PauseNotAllowed);
    }
    var moved := mission.MoveTo(Paused, ByTable);
    mission.AddEvent(MissionPaused, st);
    Save(repo, mission);
    return Success(());
  }

  method ResumeMission(repo: MissionRepository, mission: MissionObject, st: Stamps) returns (r: Result<(), Error>)
    requires repo.Valid() && repo.IsAt(mission, mission.id)
    modifies repo, mission
    ensures Serves(S.ResumeMission(old(EntryOf(repo, mission)), st), old(EntryOf(repo, mission)), EntryOf(repo, mission), r)
    ensures OnlyThis(repo, mission, false)
  {
    hide Emit, S.Save;
    if mission.status != Paused {
      return Failure(ResumeNotAllowed);
    }
    var moved := mission.MoveTo(if mission.scheduledAt.Some? then Waiting else Created, ByTable);
    mission.AddEvent(MissionResumed, st);
    Save(repo, mission);
    return Success(());
  }

  method UpdateMission(repo: MissionRepository, mission: MissionObject, changes: Changes,
                       modeSupport: Result<bool, Error>, st: Stamps)
    returns (r: Result<(), Error>)
    requires repo.Valid() && repo.IsAt(mission, mission.id)
    modifies repo, mission
    ensures Serves(S.UpdateMission(old(EntryOf(repo, mission)), changes, modeSupport, st),
                   old(EntryOf(repo, mission)), EntryOf(repo, mission), r)
    ensures OnlyThis(repo, mission, false)
  {
    hide S.RecordUpdate;
    if mission.status != Created && mission.status != Waiting && mission.status != Paused {
      return Failure(UpdateNotAllowed);
    }
    if changes.maxExecutionAttempts.Some? && changes.maxExecutionAttempts.value < mission.executionAttempts {
      return Failure(InvalidUpdate);
    }
    if changes.mode.Some? && changes.mode.value != mission.mode && mission.providerId.Some? {
      if modeSupport.Failure? {
        return Failure(modeSupport.error);
      }
      if !modeSupport.value {
        return Failure(UnsupportedExecutionMode);
      }
    }
    RecordUpdate(repo, mission, changes, st);
    return Success(());
  }

  method RecordUpdate(repo: MissionRepository, mission: MissionObject, changes: Changes, st: Stamps)
    requires repo.Valid() && repo.IsAt(mission, mission.id) && Plannable(mission.status)
    modifies repo, mission
    ensures EntryOf(repo, mission) == S.RecordUpdate(old(EntryOf(repo, mission)), changes, st)
    ensures OnlyThis(repo, mission, false)
  {
    hide Emit, S.Save, Changed;
    var changed := ApplyChanges(mission, changes);
    if changed {
      mission.AddEvent(MissionUpdated, st);
      Save(repo, mission);
    }
  }

  /** The four `_apply_change` calls. */
  method ApplyChanges(mission: MissionObject, changes: Changes) returns (changed: bool)
    modifies mission`title, mission`fallbackRules, mission`mode, mission`maxExecutionAttempts
    ensures mission.title == Changed(old(mission.title), changes.title)
    ensures mission.fallbackRules == Changed(old(mission.fallbackRules), changes.fallbackRules)
    ensures mission.mode == Changed(old(mission.mode), changes.mode)
    ensures mission.maxExecutionAttempts == Changed(old(mission.maxExecutionAttempts), changes.maxExecutionAttempts)
    ensures changed <==> mission.View() != old(mission.View())
  {
    changed := false;
    if changes.title.Some? && changes.title.value != mission.title {
      mission.title, changed := changes.title.value, true;
    }
    if changes.fallbackRules.Some? && changes.fallbackRules.value != mission.fallbackRules {
      mission.fallbackRules, changed := changes.fallbackRules.value, true;
    }
    if changes.mode.Some? && changes.mode.value != mission.mode {
      mission.mode, changed := changes.mode.value, true;
    }
    if changes.maxExecutionAttempts.Some? && changes.maxExecutionAttempts.value != mission.maxExecutionAttempts {
      mission.maxExecutionAttempts, changed := changes.maxExecutionAttempts.value, true;
    }
  }

  /** `SetMissionProvider.execute`: the repository gets a new object, and whoever held the old one keeps it. */
  method SelectProvider(repo: MissionRepository, mission: MissionObject, provider: Option<ProviderId>,
                        support: ProviderSupport, now: Time, st: Stamps)
    returns (r: Result<MissionObject, Error>)
    requires repo.Valid() && repo.IsAt(mission, mission.id)
    modifies repo
    ensures match S.SelectProvider(old(EntryOf(repo, mission)), provider, support, now, st) {
              case Failure(error) => r == Failure(error) && OnlyThis(repo, mission, false)
              case Success(None) => r == Success(mission) && OnlyThis(repo, mission, false)
              case Success(Some(e)) =>
                && r.Success? && fresh(r.value) && r.value.id == mission.id
                && EntryOf(repo, r.value) == e && OnlyThis(repo, r.value, true)
            }
  {
    hide EmitAt, S.Save;
    if mission.status != Created && mission.status != Waiting && mission.status != Paused {
      return Failure(SelectionNotAllowed);
    }
    if provider.Some? {
      match support
      case NotRegistered => return Failure(UnknownProvider);
      case NoMissionType => return Failure(UnsupportedMissionType);
      case NoExecutionMode => return Failure(UnsupportedExecutionMode);
      case Supported =>
    }
    if provider == mission.providerId {
      return Success(mission);
    }
    var copy := new MissionObject.WithProviderSelection(mission, provider);
    copy.AddEventAt(ProviderSelectionChanged, st, now);
    Save(repo, copy);
    return Success(copy);
  }

  // ------------------------------------------------------------- the due pass

  /** `_mark_claimed_mission_failed`. */
  method MarkClaimedMissionFailed(repo: MissionRepository, mission: MissionObject, st: Stamps)
    requires repo.Valid() && repo.IsAt(mission, mission.id)
    modifies repo, mission
    ensures EntryOf(repo, mission) == S.MarkFailed(old(EntryOf(repo, mission)), st)
    ensures OnlyThis(repo, mission, false)
  {
    hide Emit, S.Save;
    mission.status := Failed;
    mission.claimedAt := None;
    mission.trail := mission.trail + [Visit(Failed, ByMarkFailed)];
    mission.AddEvent(MissionProcessingFailed, st);
    Save(repo, mission);
  }

  /** `_record_terminal_failure`. */
  method RecordTerminalFailure(repo: MissionRepository, mission: MissionObject, now: Time, st: Stamps)
    requires repo.Valid() && repo.IsAt(mission, mission.id)
    modifies repo, mission
    ensures EntryOf(repo, mission) == S.RecordTerminalFailure(old(EntryOf(repo, mission)), now, st)
    ensures OnlyThis(repo, mission, false)
  {
    hide EmitAt, S.Save;
    mission.AddEventAt(MissionFailed, st, now);
    Save(repo, mission);
  }
}
