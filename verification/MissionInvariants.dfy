/**
 What every operation keeps of one mission and its ledger, one small lemma per
 operation.  MissionWorld lifts these facts to every interleaving.
 */
module MissionInvariants {
  import opened Wrappers
  import opened MissionDomain
  import opened MissionSteps
  import opened Backoff

  /** Attempts are numbered 1..n and only the last may be open. */
  ghost predicate Numbered(attempts: seq<Attempt>) {
    && (forall i :: 0 <= i < |attempts| ==> attempts[i].number == i + 1)
    && (forall i :: 0 <= i < |attempts| - 1 ==> attempts[i].status != AttemptProcessing)
    && (forall i :: 0 <= i < |attempts| ==> (attempts[i].status == AttemptProcessing <==> attempts[i].finishedAt.None?))
  }

  /** The ledger and the mission tell the same story. */
  ghost predicate LedgerOk(e: Entry) {
    && Numbered(e.attempts)
    && |e.attempts| == e.mission.executionAttempts
    && (LastIsOpen(e.attempts) <==> e.mission.status == Processing)
    && (LastIsOpen(e.attempts) ==> e.mission.claimedAt == Some(e.attempts[|e.attempts| - 1].claimedAt))
  }

  /** Nothing recorded is lost: attempts keep their number and claim time, closed ones keep everything. */
  ghost predicate LedgerGrows(before: seq<Attempt>, after: seq<Attempt>) {
    && |before| <= |after|
    && (forall i :: 0 <= i < |before| ==>
          && after[i].number == before[i].number
          && after[i].claimedAt == before[i].claimedAt
          && (before[i].status != AttemptProcessing ==> after[i] == before[i]))
  }

  lemma LedgerGrowsTransitive(a: seq<Attempt>, b: seq<Attempt>, c: seq<Attempt>)
    requires LedgerGrows(a, b) && LedgerGrows(b, c)
    ensures LedgerGrows(a, c)
  {
    forall i | 0 <= i < |a|
      ensures c[i].number == a[i].number && c[i].claimedAt == a[i].claimedAt
      ensures a[i].status != AttemptProcessing ==> c[i] == a[i]
    {
      assert b[i].number == a[i].number;
    }
  }

  /** The unchecked failure mark of the due pass. */
  predicate Marked(v: Visit) {
    v == Visit(Failed, ByMarkFailed)
  }

  /** The last status, and a trail whose only suspect steps are the unchecked failure marks. */
  ghost predicate TrailOk(m: Mission) {
    && m.trail != []
    && m.trail[|m.trail| - 1].status == m.status
    && (forall i :: 0 < i < |m.trail| ==> Marked(m.trail[i]) || LegalVisit(m.trail[i - 1].status, m.trail[i]))
  }

  ghost predicate MissionOk(m: Mission) {
    && LogOk(m)
    && TrailOk(m)
    && (m.claimedAt.Some? <==> m.status == Processing)
    && (m.status == Waiting || m.status == Processing ==> m.scheduledAt.Some?)
    && (m.status == Created ==> m.scheduledAt.None?)
    && (m.status == RequiresConfirmation ==> m.reservationId.Some?)
    && m.executionAttempts <= m.maxExecutionAttempts
  }

  ghost predicate EntryOk(e: Entry) {
    MissionOk(e.mission) && LedgerOk(e)
  }

  /** What no segment of a call touches. */
  ghost predicate SamePlan(m: Mission, r: Mission) {
    && r.id == m.id && r.mode == m.mode && r.providerId == m.providerId
    && r.scheduledAt == m.scheduledAt && r.expiresAt == m.expiresAt
    && r.executionAttempts == m.executionAttempts && r.maxExecutionAttempts == m.maxExecutionAttempts
  }

  /** Logs and trails are only extended. */
  ghost predicate Prefixes(m: Mission, r: Mission) {
    m.log <= r.log && m.trail <= r.trail
  }

  /** Extended, and every new status went through the table, a claim, a retry or a recovery. */
  ghost predicate Extends(m: Mission, r: Mission) {
    && Prefixes(m, r)
    && (forall i :: |m.trail| <= i < |r.trail| ==> r.trail[i].cause != ByMarkFailed)
  }

  // ------------------------------------------------------------ small steps

  lemma EmitAtOk(m: Mission, kind: EventKind, st: Stamps, time: Time)
    requires MissionOk(m)
    ensures var r := EmitAt(m, kind, st, time);
            MissionOk(r) && r.status == m.status && r.lastEventSequence == m.lastEventSequence + 1 && r.log != []
            && SamePlan(m, r) && Extends(m, r)
  {
    EmitKeepsChain(m, kind, st, time);
  }

  lemma EmitOk(m: Mission, kind: EventKind, st: Stamps)
    requires MissionOk(m)
    ensures var r := Emit(m, kind, st);
            MissionOk(r) && r.status == m.status && r.lastEventSequence == m.lastEventSequence + 1 && r.log != []
            && SamePlan(m, r) && Extends(m, r)
  {
    EmitAtOk(m, kind, st, st(m.lastEventSequence + 1).time);
  }

  lemma VisitOk(m: Mission, r: Mission, v: Visit)
    requires TrailOk(m) && r.trail == m.trail + [v] && r.status == v.status
    requires Marked(v) || LegalVisit(m.status, v)
    ensures TrailOk(r) && m.trail <= r.trail
  {
    forall i | 0 < i < |r.trail|
      ensures Marked(r.trail[i]) || LegalVisit(r.trail[i - 1].status, r.trail[i])
    {
      if i < |m.trail| {
        assert r.trail[i] == m.trail[i] && r.trail[i - 1] == m.trail[i - 1];
      }
    }
  }

  /** A successful table move to a status that needs no schedule and no reservation. */
  lemma MoveOk(m: Mission, target: Status, cause: Cause)
    requires MissionOk(m) && Transition(m, target, cause).Success?
    requires
      || cause == ByTable
      || (cause == ByRecovery && m.status == Processing && (target == Waiting || target == Failed))
      || (cause == ByRetry && m.status == Failed && target == Waiting)
    requires target != Processing
    requires target == Waiting ==> m.scheduledAt.Some?
    requires target == Created ==> m.scheduledAt.None?
    requires target == RequiresConfirmation ==> m.reservationId.Some?
    ensures var r := Transition(m, target, cause).value;
            MissionOk(r) && r.status == target && SamePlan(m, r) && Extends(m, r)
            && r.log == m.log && r.lastEventSequence == m.lastEventSequence
  {
    VisitOk(m, Transition(m, target, cause).value, Visit(target, cause));
  }

  lemma CloseLastOk(e: Entry, m: Mission, finishedAt: Time, status: AttemptStatus)
    requires Numbered(e.attempts) && |e.attempts| == e.mission.executionAttempts
    requires m.executionAttempts == e.mission.executionAttempts && m.status != Processing && status != AttemptProcessing
    ensures LedgerOk(Entry(m, CloseLast(m, e.attempts, finishedAt, status)))
    ensures LedgerGrows(e.attempts, CloseLast(m, e.attempts, finishedAt, status))
  {
  }

  lemma UpdateLedgerOk(e: Entry, m: Mission)
    requires LedgerOk(e) && m.executionAttempts == e.mission.executionAttempts
    requires ClosingStatus(m.status).Some? ==> m.log != []
    requires m.status == Processing ==> e.mission.status == Processing && m.claimedAt == e.mission.claimedAt
    requires e.mission.status == Processing ==> m.status == Processing || ClosingStatus(m.status).Some?
    ensures LedgerOk(Entry(m, UpdateLedger(m, e.attempts)))
    ensures LedgerGrows(e.attempts, UpdateLedger(m, e.attempts))
  {
    if m.status != Processing && ClosingStatus(m.status).Some? {
      CloseLastOk(e, m, m.log[|m.log| - 1].timestamp, ClosingStatus(m.status).value);
    }
  }

  /** What a segment guarantees about the entry it leaves, relative to the one it found. */
  ghost predicate SegmentKeeps(e: Entry, s: Segment) {
    && EntryOk(s.entry)
    && SamePlan(e.mission, s.entry.mission)
    && Extends(e.mission, s.entry.mission)
    && LedgerGrows(e.attempts, s.entry.attempts)
    && (s.entry.mission == e.mission || s.entry.mission.lastEventSequence > e.mission.lastEventSequence)
    && (s.Returned? ==> s.entry.mission.status in {RequiresConfirmation, Completed, Failed, Cancelled})
  }

  /** An object on which no run can be in progress stays so, and is not stored. */
  ghost predicate IdleStaysIdle(e: Entry, s: Segment) {
    Plannable(e.mission.status) ==>
      !s.Returned? && s.entry.mission.status == e.mission.status && s.entry.attempts == e.attempts
  }

  // ------------------------------------------------------- segments of calls

  /** A mission object on its way through a segment that started from `e`. */
  ghost predicate InFlight(e: Entry, m: Mission) {
    EntryOk(e) && MissionOk(m) && SamePlan(e.mission, m) && Extends(e.mission, m)
    && m.lastEventSequence >= e.mission.lastEventSequence
    && (m.status == Processing ==> m.claimedAt == e.mission.claimedAt && e.mission.status == Processing)
    && (e.mission.status == Processing ==> m.status == Processing)
  }

  lemma EmitInFlight(e: Entry, m: Mission, kind: EventKind, st: Stamps)
    requires InFlight(e, m)
    ensures var r := Emit(m, kind, st);
            InFlight(e, r) && r.status == m.status && r.lastEventSequence == m.lastEventSequence + 1
            && r.mode == m.mode && r.reservationId == m.reservationId && r.resolvedProviderId == m.resolvedProviderId
  {
    EmitOk(m, kind, st);
  }

  lemma MoveInFlight(e: Entry, m: Mission, target: Status)
    requires InFlight(e, m) && e.mission.status != Processing
    requires target in {Running, Searching, OptionFound, Reserving} && target in AllowedTransitions(m.status)
    ensures Transition(m, target, ByTable).Success?
    ensures var r := Transition(m, target, ByTable).value;
            InFlight(e, r) && r.status == target && r.lastEventSequence == m.lastEventSequence
            && r.mode == m.mode && r.reservationId == m.reservationId && r.resolvedProviderId == m.resolvedProviderId
  {
    MoveOk(m, target, ByTable);
  }

  /** The mission of a final move that the table allows. */
  lemma FinishedMission(e: Entry, m: Mission, target: Status, kind: EventKind, st: Stamps)
    requires InFlight(e, m)
    requires target in {RequiresConfirmation, Completed, Failed, Cancelled}
    requires target == RequiresConfirmation ==> m.reservationId.Some?
    ensures Transition(m, target, ByTable).Success? <==> target in AllowedTransitions(m.status)
    ensures target in AllowedTransitions(m.status) ==>
              var r := Emit(Transition(m, target, ByTable).value, kind, st);
              && MissionOk(r) && r.status == target && SamePlan(e.mission, r) && Extends(e.mission, r)
              && r.lastEventSequence > m.lastEventSequence && r.log != [] && SameBooking(m, r) && Last(r) == kind
  {
    hide LogOk, TrailOk;
    if target in AllowedTransitions(m.status) {
      MoveOk(m, target, ByTable);
      EmitOk(Transition(m, target, ByTable).value, kind, st);
    }
  }

  /** The end of a segment: either the table refuses and nothing is stored, or the entry is stored. */
  lemma FinishInFlight(e: Entry, m: Mission, target: Status, kind: EventKind, st: Stamps)
    requires InFlight(e, m)
    requires target in {RequiresConfirmation, Completed, Failed} || (target == Cancelled && e.mission.status != Processing)
    requires target == RequiresConfirmation ==> m.reservationId.Some?
    requires m == e.mission || m.lastEventSequence > e.mission.lastEventSequence || target in AllowedTransitions(m.status)
    ensures var s := FinishAs(e, m, target, kind, st);
            SegmentKeeps(e, s) && !s.Suspended? && SameBooking(m, s.entry.mission)
            && (s.Returned? <==> target in AllowedTransitions(m.status))
            && (if s.Returned? then s.entry.mission.status == target && Last(s.entry.mission) == kind
                else s.entry == e.(mission := m) && s.error == InvalidTransition)
  {
    hide MissionOk, Extends, Numbered, LedgerGrows, UpdateLedger, Emit, Transition;
    InFlightLedger(e, m);
    FinishedMission(e, m, target, kind, st);
    if target in AllowedTransitions(m.status) {
      UpdateLedgerOk(e, Emit(Transition(m, target, ByTable).value, kind, st));
    }
  }

  function Last(m: Mission): EventKind {
    if m.log == [] then MissionStarted else m.log[|m.log| - 1].kind
  }

  ghost predicate SameBooking(m: Mission, r: Mission) {
    r.reservationId == m.reservationId && r.resolvedProviderId == m.resolvedProviderId
  }

  /** Until it is stored, an object in flight fits the ledger it started with. */
  lemma InFlightLedger(e: Entry, m: Mission)
    requires InFlight(e, m)
    ensures LedgerOk(e.(mission := m)) && LedgerGrows(e.attempts, e.attempts)
  {
  }

  lemma BeginSearchOk(e: Entry, provider: ProviderId, participantsFound: bool, st: Stamps)
    requires EntryOk(e) && e.mission.status in {Created, Waiting, Processing}
    ensures var s := BeginSearch(e, provider, participantsFound, st);
            SegmentKeeps(e, s) && BeginSearchResult(e, s, provider)
  {
    var m := e.mission;
    if m.status == Processing {
      BeginSearchFrom(e, m, provider, participantsFound, st);
    } else {
      assert InFlight(e, m);
      MoveInFlight(e, m, Running);
      BeginSearchFrom(e, Transition(m, Running, ByTable).value, provider, participantsFound, st);
    }
  }

  ghost predicate BeginSearchResult(e: Entry, s: Segment, provider: ProviderId) {
    && !s.Raised?
    && (s.Returned? ==> s.entry.mission.status == Failed)
    && (s.Suspended? ==>
          && s.at == AwaitSearch && s.provider == provider
          && s.entry.mission.resolvedProviderId == e.mission.resolvedProviderId
          && s.entry.mission.status == if e.mission.status == Processing then Processing else Searching)
  }

  lemma BeginSearchFrom(e: Entry, running: Mission, provider: ProviderId, participantsFound: bool, st: Stamps)
    requires InFlight(e, running) && running.lastEventSequence == e.mission.lastEventSequence
    requires running.resolvedProviderId == e.mission.resolvedProviderId
    requires if e.mission.status == Processing then running == e.mission
             else Transition(e.mission, Running, ByTable) == Success(running)
    ensures var s := BeginSearch(e, provider, participantsFound, st);
            SegmentKeeps(e, s) && BeginSearchResult(e, s, provider)
  {
    hide MissionOk, LedgerOk, Emit;
    if !participantsFound {
      FinishInFlight(e, running, Failed, ParticipantMissing, st);
    } else {
      EmitInFlight(e, running, MissionStarted, st);
      var started := Emit(running, MissionStarted, st);
      if e.mission.status != Processing {
        MoveInFlight(e, started, Searching);
      }
      var searching := if e.mission.status == Processing then started else Transition(started, Searching, ByTable).value;
      EmitInFlight(e, searching, SearchStarted, st);
      InFlightLedger(e, Emit(searching, SearchStarted, st));
    }
  }

  /** `run_mission` up to the search call. */
  lemma StartRunOk(e: Entry, now: Time, allowProcessing: bool, resolution: Resolution, participantsFound: bool, st: Stamps)
    requires EntryOk(e)
    ensures var s := StartRun(e, now, allowProcessing, resolution, participantsFound, st);
            SegmentKeeps(e, s)
            && (s.Returned? ==> s.entry.mission.status == Failed)
            && (s.Raised? ==> s.entry.mission.status == e.mission.status || Expirable(e.mission.status))
            && (s.Suspended? ==>
                  && s.at == AwaitSearch
                  && s.entry.mission.resolvedProviderId == Some(s.provider)
                  && e.mission.status in {Created, Waiting, Processing}
                  && s.entry.mission.status == if e.mission.status == Processing then Processing else Searching)
  {
    hide MissionOk, LedgerOk, Emit, SegmentKeeps, SamePlan, Extends, LedgerGrows, BeginSearch, UpdateLedger;
    var m := e.mission;
    NothingChanged(e);
    if ExpiryDue(m, now) {
      ExpireOk(e, now, st);
    } else if m.status in {Created, Waiting, Processing} {
      match resolution
      case Unresolved => UnresolvedOk(e, st);
      case Resolved(provider) =>
        ResolveOk(e, provider, st);
        var known := Emit(m.(resolvedProviderId := Some(provider)), ProviderResolved(provider), st);
        var saved := Save(e.(mission := known));
        BeginSearchOk(saved, provider, participantsFound, st);
        SegmentAfter(e, saved, BeginSearch(saved, provider, participantsFound, st));
    }
  }

  lemma ExpireOk(e: Entry, now: Time, st: Stamps)
    requires EntryOk(e) && ExpiryDue(e.mission, now)
    ensures var r := Expire(e.mission, now, st);
            r.status == Expired && r.lastEventSequence == e.mission.lastEventSequence + 1
            && EntryOk(e.(mission := r)) && Save(e.(mission := r)) == e.(mission := r)
            && SegmentKeeps(e, Raised(e.(mission := r), NotReady))
  {
    MoveOk(e.mission, Expired, ByTable);
    EmitAtOk(Transition(e.mission, Expired, ByTable).value, MissionExpired, st, now);
  }

  lemma UnresolvedOk(e: Entry, st: Stamps)
    requires EntryOk(e) && ClosingStatus(e.mission.status).None?
    ensures var r := Emit(e.mission, ProviderResolutionFailed, st);
            r.status == e.mission.status && SegmentKeeps(e, Raised(Save(e.(mission := r)), ResolutionError))
  {
    EmitOk(e.mission, ProviderResolutionFailed, st);
    UpdateLedgerOk(e, Emit(e.mission, ProviderResolutionFailed, st));
  }

  lemma ResolveOk(e: Entry, provider: ProviderId, st: Stamps)
    requires EntryOk(e) && ClosingStatus(e.mission.status).None?
    ensures var r := Emit(e.mission.(resolvedProviderId := Some(provider)), ProviderResolved(provider), st);
            EntryKeeps(e, Save(e.(mission := r))) && r.status == e.mission.status
            && r.resolvedProviderId == Some(provider) && r.lastEventSequence > e.mission.lastEventSequence
  {
    EmitOk(e.mission.(resolvedProviderId := Some(provider)), ProviderResolved(provider), st);
    UpdateLedgerOk(e, Emit(e.mission.(resolvedProviderId := Some(provider)), ProviderResolved(provider), st));
  }

  ghost predicate EntryKeeps(e: Entry, r: Entry) {
    EntryOk(r) && SamePlan(e.mission, r.mission) && Extends(e.mission, r.mission) && LedgerGrows(e.attempts, r.attempts)
  }

  /** A segment that continues from a saved entry keeps what the save kept. */
  lemma SegmentAfter(e: Entry, saved: Entry, s: Segment)
    requires EntryKeeps(e, saved) && saved.mission.lastEventSequence > e.mission.lastEventSequence
    requires SegmentKeeps(saved, s)
    ensures SegmentKeeps(e, s)
  {
    LedgerGrowsTransitive(e.attempts, saved.attempts, s.entry.attempts);
  }

  lemma StartInFlight(e: Entry)
    requires EntryOk(e)
    ensures InFlight(e, e.mission)
  {
  }

  ghost predicate SearchOnlyEnd(m: Mission) {
    m.status == Completed && Last(m) == MissionSearchCompleted
  }

  /** The options are counted and one of them is chosen. */
  lemma ChosenOk(e: Entry, counted: Mission, processing: bool, best: Option<nat>, st: Stamps)
    requires InFlight(e, counted) && counted.status == e.mission.status
    requires processing || OptionFound in AllowedTransitions(counted.status)
    ensures !processing ==> Transition(counted, OptionFound, ByTable).Success?
    ensures var chosen := if processing then counted else Transition(counted, OptionFound, ByTable).value;
            var r := Emit(chosen.(bestOption := best), BestOptionSelected, st);
            && InFlight(e, r) && r.status == (if processing then counted.status else OptionFound)
            && r.lastEventSequence == counted.lastEventSequence + 1
            && r.mode == counted.mode && r.resolvedProviderId == counted.resolvedProviderId
  {
    hide MissionOk, LedgerOk, Emit, InFlight, SamePlan, Extends, LedgerGrows;
    if !processing {
      MoveInFlight(e, counted, OptionFound);
    }
    var chosen := if processing then counted else Transition(counted, OptionFound, ByTable).value;
    ChooseInFlight(e, chosen, best, st);
  }

  lemma AfterSearchOk(e: Entry, processing: bool, provider: ProviderId, answer: SearchAnswer, st: Stamps)
    requires EntryOk(e)
    ensures var s := AfterSearch(e, processing, provider, answer, st);
            SegmentKeeps(e, s)
            && (s.Raised? ==> s.entry.mission.status == e.mission.status)
            && (s.Returned? ==> s.entry.mission.status == Failed || SearchOnlyEnd(s.entry.mission))
            && (s.Suspended? ==>
                  && s.at == AwaitReserve && s.provider == provider
                  && s.entry.mission.resolvedProviderId == e.mission.resolvedProviderId
                  && s.entry.mission.status == (if processing then e.mission.status else Reserving)
                  && (processing || e.mission.status == Searching))
  {
    hide MissionOk, LedgerOk, Emit, SegmentKeeps, InFlight, SamePlan, Extends, LedgerGrows;
    var m := e.mission;
    StartInFlight(e);
    match answer
    case SearchCrashed(_) => NothingChanged(e);
    case SearchFailed(retryable) => FinishInFlight(e, m, Failed, ProviderOperationFailed(retryable), st);
    case Found(count, best) =>
      EmitInFlight(e, m, OptionsFound(count), st);
      var counted := Emit(m, OptionsFound(count), st);
      RaisedInFlight(e, counted);
      if best.None? {
        FinishInFlight(e, counted, Failed, NoValidOptionFound, st);
      } else if processing || OptionFound in AllowedTransitions(m.status) {
        ChosenOk(e, counted, processing, best, st);
        var chosen := if processing then counted else Transition(counted, OptionFound, ByTable).value;
        ReserveOrFinishOk(e, Emit(chosen.(bestOption := best), BestOptionSelected, st), processing, provider, st);
      }
  }

  lemma NothingChanged(e: Entry)
    requires EntryOk(e)
    ensures forall error :: SegmentKeeps(e, Raised(e, error))
    ensures SameBooking(e.mission, e.mission)
  {
  }

  lemma RaisedInFlight(e: Entry, m: Mission)
    requires InFlight(e, m) && m.lastEventSequence > e.mission.lastEventSequence
    ensures SegmentKeeps(e, Raised(e.(mission := m), InvalidTransition))
    ensures forall at, provider :: SegmentKeeps(e, Suspended(e.(mission := m), at, provider))
  {
    InFlightLedger(e, m);
  }

  lemma ChooseInFlight(e: Entry, m: Mission, best: Option<nat>, st: Stamps)
    requires InFlight(e, m)
    ensures var r := Emit(m.(bestOption := best), BestOptionSelected, st);
            InFlight(e, r) && r.status == m.status && r.lastEventSequence == m.lastEventSequence + 1
            && r.mode == m.mode && r.resolvedProviderId == m.resolvedProviderId
  {
    EmitOk(m.(bestOption := best), BestOptionSelected, st);
  }

  lemma ReserveOrFinishOk(e: Entry, m: Mission, processing: bool, provider: ProviderId, st: Stamps)
    requires InFlight(e, m) && m.lastEventSequence > e.mission.lastEventSequence
    requires processing || (m.status == OptionFound && e.mission.status != Processing)
    requires processing ==> m.status == e.mission.status
    ensures var s := ReserveOrFinish(e, m, processing, provider, st);
            SegmentKeeps(e, s)
            && (s.Raised? ==> processing && s.entry.mission.status == e.mission.status)
            && (s.Returned? ==> SearchOnlyEnd(s.entry.mission))
            && (s.Suspended? ==>
                  && s.at == AwaitReserve && s.provider == provider
                  && s.entry.mission.resolvedProviderId == m.resolvedProviderId
                  && s.entry.mission.status == (if processing then m.status else Reserving))
  {
    hide MissionOk, LedgerOk, Emit, SegmentKeeps, SamePlan, Extends, LedgerGrows;
    if m.mode == SearchOnly {
      FinishInFlight(e, m, Completed, MissionSearchCompleted, st);
    } else {
      if !processing {
        MoveInFlight(e, m, Reserving);
      }
      var reserving := if processing then m else Transition(m, Reserving, ByTable).value;
      EmitInFlight(e, reserving, ReservationStarted, st);
      RaisedInFlight(e, Emit(reserving, ReservationStarted, st));
    }
  }

  lemma AfterReserveOk(e: Entry, provider: ProviderId, answer: ReserveAnswer, st: Stamps)
    requires EntryOk(e)
    ensures var s := AfterReserve(e, provider, answer, st);
            SegmentKeeps(e, s)
            && (s.Raised? ==> s.entry.mission.status == e.mission.status)
            && (s.Returned? ==>
                  || s.entry.mission.status == Failed
                  || (answer.Reserved? && s.entry.mission.reservationId == Some(answer.reservation)
                      && s.entry.mission.resolvedProviderId == e.mission.resolvedProviderId
                      && if e.mission.mode == RequireConfirmation then s.entry.mission.status == RequiresConfirmation
                         else s.entry.mission.status == Completed && !answer.needsConfirmation))
            && (s.Suspended? ==>
                  && answer.Reserved? && answer.needsConfirmation && e.mission.mode != RequireConfirmation
                  && s.at == AwaitAutoConfirm(answer.reservation) && s.provider == provider
                  && s.entry.mission.status == e.mission.status
                  && s.entry.mission.reservationId == Some(answer.reservation)
                  && s.entry.mission.resolvedProviderId == e.mission.resolvedProviderId)
  {
    hide MissionOk, LedgerOk, SegmentKeeps, SamePlan, Extends, LedgerGrows, Append;
    var m := e.mission;
    StartInFlight(e);
    NothingChanged(e);
    match answer
    case ReserveCrashed(_) =>
    case ReserveFailed(retryable) => FinishInFlight(e, m, Failed, ProviderOperationFailed(retryable), st);
    case ReserveRejected => FinishInFlight(e, m, Failed, ReservationFailed, st);
    case Reserved(reservation, needsConfirmation) =>
      BookInFlight(e, reservation, needsConfirmation, st);
      var booked := Emit(m.(reservationId := Some(reservation)), ReservationSucceeded(reservation, needsConfirmation), st);
      FinishKeepsBooking(booked, RequiresConfirmation, WaitingForUserConfirmation, st);
      FinishKeepsBooking(booked, Completed, MissionCompleted, st);
      if m.mode == RequireConfirmation {
        FinishInFlight(e, booked, RequiresConfirmation, WaitingForUserConfirmation, st);
      } else if needsConfirmation {
        EmitInFlight(e, booked, AutomaticConfirmationStarted, st);
        RaisedInFlight(e, Emit(booked, AutomaticConfirmationStarted, st));
      } else {
        FinishInFlight(e, booked, Completed, MissionCompleted, st);
      }
  }

  lemma BookInFlight(e: Entry, reservation: ReservationId, needsConfirmation: bool, st: Stamps)
    requires EntryOk(e)
    ensures var r := Emit(e.mission.(reservationId := Some(reservation)), ReservationSucceeded(reservation, needsConfirmation), st);
            InFlight(e, r) && r.status == e.mission.status && r.lastEventSequence == e.mission.lastEventSequence + 1
            && r.mode == e.mission.mode && r.resolvedProviderId == e.mission.resolvedProviderId
            && r.reservationId == Some(reservation)
  {
    EmitOk(e.mission.(reservationId := Some(reservation)), ReservationSucceeded(reservation, needsConfirmation), st);
  }

  lemma FinishKeepsBooking(m: Mission, target: Status, kind: EventKind, st: Stamps)
    ensures Transition(m, target, ByTable).Success? ==>
              var r := Emit(Transition(m, target, ByTable).value, kind, st);
              r.reservationId == m.reservationId && r.resolvedProviderId == m.resolvedProviderId && r.mode == m.mode
  {
  }

  lemma AfterAutoConfirmOk(e: Entry, answer: CallAnswer, st: Stamps)
    requires EntryOk(e)
    ensures var s := AfterAutoConfirm(e, answer, st);
            SegmentKeeps(e, s) && !s.Suspended? && SameBooking(e.mission, s.entry.mission)
            && (s.Raised? ==> s.entry.mission.status == e.mission.status)
            && (s.Returned? ==> s.entry.mission.status == if answer.Accepted? then Completed else Failed)
  {
    hide MissionOk, LedgerOk, SegmentKeeps, SamePlan, Extends, LedgerGrows, Append;
    StartInFlight(e);
    NothingChanged(e);
    match answer
    case CallCrashed(_) =>
    case CallFailed(retryable) => FinishInFlight(e, e.mission, Failed, ProviderOperationFailed(retryable), st);
    case Rejected => FinishInFlight(e, e.mission, Failed, AutomaticConfirmationFailed, st);
    case Accepted =>
      EmitInFlight(e, e.mission, AutomaticConfirmationSucceeded, st);
      FinishInFlight(e, Emit(e.mission, AutomaticConfirmationSucceeded, st), Completed, MissionCompleted, st);
  }

  /** The mission of a confirmation that the table allows. */
  lemma ConfirmedMission(e: Entry, m: Mission, st: Stamps)
    requires InFlight(e, m)
    ensures Transition(m, Completed, ByTable).Success? <==> Completed in AllowedTransitions(m.status)
    ensures Completed in AllowedTransitions(m.status) ==>
              var r := Emit(Emit(Transition(m, Completed, ByTable).value, MissionConfirmed, st), MissionCompleted, st);
              && MissionOk(r) && r.status == Completed && SamePlan(e.mission, r) && Extends(e.mission, r)
              && r.lastEventSequence > m.lastEventSequence && r.log != [] && SameBooking(m, r)
  {
    hide LogOk, TrailOk;
    if Completed in AllowedTransitions(m.status) {
      MoveOk(m, Completed, ByTable);
      var moved := Transition(m, Completed, ByTable).value;
      var confirmed := Emit(moved, MissionConfirmed, st);
      EmitOk(moved, MissionConfirmed, st);
      EmitOk(confirmed, MissionCompleted, st);
      EmitKeepsBooking(moved, MissionConfirmed, st);
      EmitKeepsBooking(confirmed, MissionCompleted, st);
    }
  }

  lemma ConfirmedOk(e: Entry, m: Mission, st: Stamps)
    requires InFlight(e, m)
    requires m == e.mission || m.lastEventSequence > e.mission.lastEventSequence
    ensures var s := Confirmed(e, m, st);
            SegmentKeeps(e, s) && !s.Suspended? && SameBooking(m, s.entry.mission)
            && (s.Returned? <==> Completed in AllowedTransitions(m.status))
            && (s.Returned? ==> s.entry.mission.status == Completed)
            && (s.Raised? ==> s.entry == e.(mission := m))
  {
    hide MissionOk, Extends, Numbered, LedgerGrows, UpdateLedger, Emit, Transition;
    InFlightLedger(e, m);
    ConfirmedMission(e, m, st);
    if Completed in AllowedTransitions(m.status) {
      var moved := Transition(m, Completed, ByTable).value;
      UpdateLedgerOk(e, Emit(Emit(moved, MissionConfirmed, st), MissionCompleted, st));
    }
  }

  lemma EmitAtKeepsBooking(m: Mission, kind: EventKind, st: Stamps, time: Time)
    ensures SameBooking(m, EmitAt(m, kind, st, time))
  {
  }

  lemma EmitKeepsBooking(m: Mission, kind: EventKind, st: Stamps)
    ensures SameBooking(m, Emit(m, kind, st))
  {
  }

  lemma StartConfirmOk(e: Entry, providerKnown: bool, st: Stamps)
    requires EntryOk(e)
    ensures var s := StartConfirm(e, providerKnown, st);
            SegmentKeeps(e, s) && !s.Returned?
            && (s.Raised? ==> s.entry == e)
            && (s.Suspended? ==>
                  && e.mission.status == RequiresConfirmation && s.entry.mission.status == RequiresConfirmation
                  && e.mission.resolvedProviderId == Some(s.provider)
                  && s.entry.mission.resolvedProviderId == e.mission.resolvedProviderId
                  && s.entry.mission.reservationId == e.mission.reservationId
                  && e.mission.reservationId.Some? && s.at == AwaitConfirm(e.mission.reservationId.value))
  {
    hide LogOk, TrailOk, LedgerOk, SegmentKeeps, SamePlan, Extends, LedgerGrows, Append;
    StartInFlight(e);
    NothingChanged(e);
    EmitInFlight(e, e.mission, ConfirmationStarted, st);
    RaisedInFlight(e, Emit(e.mission, ConfirmationStarted, st));
  }

  lemma AfterConfirmOk(e: Entry, answer: CallAnswer, st: Stamps)
    requires EntryOk(e)
    ensures var s := AfterConfirm(e, answer, st);
            SegmentKeeps(e, s) && !s.Suspended? && SameBooking(e.mission, s.entry.mission)
            && (s.Raised? ==> s.entry.mission.status == e.mission.status)
            && (s.Returned? ==> s.entry.mission.status == if answer.Accepted? then Completed else Failed)
  {
    hide MissionOk, LedgerOk, SegmentKeeps, SamePlan, Extends, LedgerGrows, Append, Confirmed;
    StartInFlight(e);
    NothingChanged(e);
    match answer
    case CallCrashed(_) =>
    case CallFailed(retryable) => FinishInFlight(e, e.mission, Failed, ProviderOperationFailed(retryable), st);
    case Rejected => FinishInFlight(e, e.mission, Failed, ConfirmationFailed, st);
    case Accepted =>
      EmitInFlight(e, e.mission, ConfirmationSucceeded, st);
      ConfirmedOk(e, Emit(e.mission, ConfirmationSucceeded, st), st);
  }

  lemma StartCancelOk(e: Entry, providerKnown: bool, st: Stamps)
    requires EntryOk(e)
    ensures var s := StartCancel(e, providerKnown, st);
            SegmentKeeps(e, s)
            && (s.Raised? ==> s.entry == e)
            && (s.Returned? ==> Plannable(e.mission.status) && s.entry.mission.status == Cancelled)
            && (s.Suspended? ==>
                  && e.mission.status == RequiresConfirmation && s.entry.mission.status == RequiresConfirmation
                  && e.mission.resolvedProviderId == Some(s.provider)
                  && s.entry.mission.resolvedProviderId == e.mission.resolvedProviderId
                  && s.entry.mission.reservationId == e.mission.reservationId
                  && e.mission.reservationId.Some? && s.at == AwaitCancel(e.mission.reservationId.value))
  {
    hide LogOk, TrailOk, LedgerOk, SegmentKeeps, SamePlan, Extends, LedgerGrows, Append;
    StartInFlight(e);
    NothingChanged(e);
    if Plannable(e.mission.status) {
      FinishInFlight(e, e.mission, Cancelled, MissionCancelled, st);
    } else {
      EmitInFlight(e, e.mission, CancellationStarted, st);
      RaisedInFlight(e, Emit(e.mission, CancellationStarted, st));
    }
  }

  lemma AfterCancelOk(e: Entry, answer: CallAnswer, st: Stamps)
    requires EntryOk(e)
    ensures var s := AfterCancel(e, answer, st);
            SegmentKeeps(e, s) && !s.Suspended? && SameBooking(e.mission, s.entry.mission)
            && (s.Raised? ==> s.entry.mission.status == e.mission.status)
            && (s.Returned? ==> s.entry.mission.status == if answer.Accepted? then Cancelled else Failed)
  {
    hide MissionOk, LedgerOk, SegmentKeeps, SamePlan, Extends, LedgerGrows, Append;
    StartInFlight(e);
    NothingChanged(e);
    match answer
    case CallCrashed(_) =>
    case CallFailed(retryable) => FinishInFlight(e, e.mission, Failed, ProviderOperationFailed(retryable), st);
    case Rejected => FinishInFlight(e, e.mission, Failed, CancellationFailed, st);
    case Accepted =>
      EmitInFlight(e, e.mission, CancellationSucceeded, st);
      var m := Emit(e.mission, CancellationSucceeded, st);
      if e.mission.status == Processing {
        RaisedInFlight(e, m);
      } else {
        FinishInFlight(e, m, Cancelled, MissionCancelled, st);
      }
  }

  /**
   A call that resumes on an object nobody runs (its mission was recovered, or copied away) may
   still write to that object, but the table refuses every move it wants: nothing is stored.
   Only a cancellation would be let through.
   */
  lemma IdleSearch(e: Entry, processing: bool, provider: ProviderId, answer: SearchAnswer, st: Stamps)
    requires Plannable(e.mission.status)
    ensures IdleStaysIdle(e, AfterSearch(e, processing, provider, answer, st))
  {
    hide Emit, FinishAs;
    IdleFinish(e, st);
    IdleEmit(st);
  }

  lemma IdleReserve(e: Entry, provider: ProviderId, answer: ReserveAnswer, st: Stamps)
    requires Plannable(e.mission.status)
    ensures IdleStaysIdle(e, AfterReserve(e, provider, answer, st))
  {
    hide Emit, FinishAs;
    IdleFinish(e, st);
    IdleEmit(st);
  }

  lemma IdleConfirm(e: Entry, answer: CallAnswer, st: Stamps)
    requires Plannable(e.mission.status)
    ensures IdleStaysIdle(e, AfterAutoConfirm(e, answer, st))
    ensures IdleStaysIdle(e, AfterConfirm(e, answer, st))
  {
    hide Emit, FinishAs;
    IdleFinish(e, st);
    IdleEmit(st);
  }

  lemma IdleFinish(e: Entry, st: Stamps)
    ensures forall m: Mission, target: Status, kind: EventKind {:trigger FinishAs(e, m, target, kind, st)} ::
              Plannable(m.status) && target in {Failed, Completed, RequiresConfirmation} ==>
                FinishAs(e, m, target, kind, st) == Raised(e.(mission := m), InvalidTransition)
  {
  }

  lemma IdleEmit(st: Stamps)
    ensures forall m: Mission, kind: EventKind {:trigger Emit(m, kind, st)} :: Emit(m, kind, st).status == m.status
  {
  }

  // ------------------------------------------ claim, recovery and the services

  /** What a service operation guarantees. */
  ghost predicate ServiceKeeps(e: Entry, r: Entry) {
    EntryGrows(e, r) && Extends(e.mission, r.mission)
  }

  ghost predicate EntryGrows(e: Entry, r: Entry) {
    && EntryOk(r)
    && Prefixes(e.mission, r.mission)
    && LedgerGrows(e.attempts, r.attempts)
    && r.mission.id == e.mission.id && r.mission.expiresAt == e.mission.expiresAt
    && r.mission.executionAttempts == e.mission.executionAttempts
    && (r == e || r.mission.lastEventSequence > e.mission.lastEventSequence)
  }

  /** A claim opens the next attempt, records no event and uses up one unit of the budget. */
  lemma ClaimOk(e: Entry, now: Time)
    requires EntryOk(e) && Due(e.mission, now)
    ensures var r := Claim(e, now);
            EntryOk(r) && Extends(e.mission, r.mission) && LedgerGrows(e.attempts, r.attempts)
            && r.mission.log == e.mission.log
            && r.mission.maxExecutionAttempts - r.mission.executionAttempts
               == e.mission.maxExecutionAttempts - e.mission.executionAttempts - 1
  {
    VisitOk(e.mission, Claim(e, now).mission, Visit(Processing, ByClaim));
  }

  /** Recovery ends the attempt; an exhausted mission fails, any other waits again. */
  lemma RecoverOk(e: Entry, now: Time, st: Stamps)
    requires EntryOk(e) && e.mission.status == Processing
    ensures var r := Recover(e, now, st);
            ServiceKeeps(e, r) && SamePlan(e.mission, r.mission)
            && r.mission.status == (if e.mission.HasExhaustedAttempts() then Failed else Waiting)
            && r.mission.lastEventSequence > e.mission.lastEventSequence
  {
    hide LogOk, TrailOk, Numbered, LedgerGrows;
    var target := if e.mission.HasExhaustedAttempts() then Failed else Waiting;
    MoveOk(e.mission, target, ByRecovery);
    var moved := Transition(e.mission, target, ByRecovery).value;
    EmitAtOk(moved, ClaimRecovered(target == Failed), st, now);
    CloseLastOk(e, EmitAt(moved, ClaimRecovered(target == Failed), st, now), now,
                if target == Failed then AttemptFailed else AttemptRecovered);
  }

  lemma RetryOk(e: Entry, retryAt: Option<Time>, now: Time, st: Stamps)
    requires EntryOk(e)
    ensures var r := RetryMission(e, retryAt, now, st);
            r.Success? ==>
              && ServiceKeeps(e, r.value)
              && e.mission.status == Failed && !e.mission.HasExhaustedAttempts()
              && r.value.mission.status == Waiting && !r.value.mission.HasExhaustedAttempts()
              && r.value.mission.scheduledAt.Some? && r.value.mission.scheduledAt.value >= now
              && r.value.mission.lastEventSequence > e.mission.lastEventSequence
  {
    hide LogOk, TrailOk, Numbered, LedgerGrows, Append;
    var effective := if retryAt.Some? then retryAt.value else now;
    if effective >= now && e.mission.status == Failed && !e.mission.HasExhaustedAttempts() {
      RetryMoveOk(e.mission, effective);
      var planned := Transition(e.mission, Waiting, ByRetry).value.(
        scheduledAt := Some(effective), resolvedProviderId := None, reservationId := None, bestOption := None);
      EmitAtOk(planned, MissionRetryScheduled(effective), st, now);
      UpdateLedgerOk(e, EmitAt(planned, MissionRetryScheduled(effective), st, now));
    }
  }

  lemma RetryMoveOk(m: Mission, at: Time)
    requires MissionOk(m) && m.status == Failed
    ensures var r := Transition(m, Waiting, ByRetry);
            r.Success? && MissionOk(r.value.(scheduledAt := Some(at), resolvedProviderId := None, reservationId := None, bestOption := None))
            && Extends(m, r.value)
  {
    VisitOk(m, Transition(m, Waiting, ByRetry).value, Visit(Waiting, ByRetry));
  }

  lemma ScheduleOk(e: Entry, scheduledAt: Option<Time>, now: Time, st: Stamps)
    requires EntryOk(e)
    ensures var r := ScheduleMission(e, scheduledAt, now, st);
            r.Success? ==>
              && ServiceKeeps(e, r.value) && Plannable(r.value.mission.status)
              && (r.value == e || r.value.mission.scheduledAt == scheduledAt)
              && r.value.mission.maxExecutionAttempts == e.mission.maxExecutionAttempts
  {
    hide EntryOk, ServiceKeeps, MissionOk, DrawEventId, UpdateLedger;
    var m := e.mission;
    SameEntryOk(e);
    if Plannable(m.status) && m.scheduledAt != scheduledAt && !(m.status == Created && scheduledAt.None?) {
      PlanOk(e, scheduledAt, PlanTarget(m.status, scheduledAt), PlanKind(scheduledAt), now, st);
      SaveIdle(e.(mission := EmitAt(Planned(m, scheduledAt, PlanTarget(m.status, scheduledAt)), PlanKind(scheduledAt), st, now)));
    }
  }

  lemma SameEntryOk(e: Entry)
    requires EntryOk(e)
    ensures ServiceKeeps(e, e)
  {
  }

  lemma PlannedOk(m: Mission, at: Option<Time>, target: Status)
    requires MissionOk(m) && Plannable(m.status) && Plannable(target)
    requires target == m.status || target in AllowedTransitions(m.status)
    requires (target == Waiting ==> at.Some?) && (target == Created ==> at.None?)
    ensures MissionOk(Planned(m, at, target)) && Extends(m, Planned(m, at, target))
  {
    hide Chained;
    if target != m.status {
      VisitOk(m, Planned(m, at, target), Visit(target, ByTable));
    }
  }

  /** A change of schedule with the move that goes with it; it stores nothing in the ledger. */
  lemma PlanOk(e: Entry, at: Option<Time>, target: Status, kind: EventKind, now: Time, st: Stamps)
    requires EntryOk(e) && Plannable(e.mission.status) && Plannable(target)
    requires target == e.mission.status || target in AllowedTransitions(e.mission.status)
    requires (target == Waiting ==> at.Some?) && (target == Created ==> at.None?)
    ensures var r := e.(mission := EmitAt(Planned(e.mission, at, target), kind, st, now));
            ServiceKeeps(e, r) && r.mission.status == target
  {
    hide MissionOk, EmitAt, LedgerGrows, Numbered;
    var planned := Planned(e.mission, at, target);
    IdleMission(e);
    PlannedOk(e.mission, at, target);
    EmitAtOk(planned, kind, st, now);
    SameLedgerGrows(e.attempts);
  }

  lemma IdleMission(e: Entry)
    requires EntryOk(e) && Plannable(e.mission.status)
    ensures MissionOk(e.mission) && !LastIsOpen(e.attempts)
  {
    hide MissionOk;
  }

  lemma SameLedgerGrows(attempts: seq<Attempt>)
    ensures LedgerGrows(attempts, attempts)
  {
  }

  lemma SaveIdle(e: Entry)
    requires Plannable(e.mission.status)
    ensures Save(e) == e
  {
  }

  lemma PauseOk(e: Entry, st: Stamps)
    requires EntryOk(e)
    ensures var r := PauseMission(e, st);
            r.Success? ==>
              && ServiceKeeps(e, r.value) && r.value.mission.status == Paused
              && SamePlan(e.mission, r.value.mission)
  {
    hide LogOk, TrailOk, Numbered, LedgerGrows, Append;
    if e.mission.status == Created || e.mission.status == Waiting {
      MoveOk(e.mission, Paused, ByTable);
      var moved := Transition(e.mission, Paused, ByTable).value;
      EmitOk(moved, MissionPaused, st);
      UpdateLedgerOk(e, Emit(moved, MissionPaused, st));
    }
  }

  lemma ResumeOk(e: Entry, st: Stamps)
    requires EntryOk(e)
    ensures var r := ResumeMission(e, st);
            r.Success? ==>
              && ServiceKeeps(e, r.value) && SamePlan(e.mission, r.value.mission)
              && r.value.mission.status == (if e.mission.scheduledAt.Some? then Waiting else Created)
  {
    hide LogOk, TrailOk, Numbered, LedgerGrows, Append;
    if e.mission.status == Paused {
      var target := if e.mission.scheduledAt.Some? then Waiting else Created;
      MoveOk(e.mission, target, ByTable);
      var moved := Transition(e.mission, target, ByTable).value;
      EmitOk(moved, MissionResumed, st);
      UpdateLedgerOk(e, Emit(moved, MissionResumed, st));
    }
  }

  lemma UpdateOk(e: Entry, changes: Changes, modeSupport: Result<bool, Error>, st: Stamps)
    requires EntryOk(e)
    ensures var r := UpdateMission(e, changes, modeSupport, st);
            r.Success? ==>
              && ServiceKeeps(e, r.value)
              && r.value.mission.status == e.mission.status && Plannable(e.mission.status)
              && r.value.mission.scheduledAt == e.mission.scheduledAt
              && r.value.mission.executionAttempts <= r.value.mission.maxExecutionAttempts
  {
    hide LogOk, TrailOk, Numbered, LedgerGrows, Append;
    SameEntryOk(e);
    if Plannable(e.mission.status) && (changes.maxExecutionAttempts.Some? ==> changes.maxExecutionAttempts.value >= e.mission.executionAttempts) {
      var updated := e.mission.(
        title := Changed(e.mission.title, changes.title),
        fallbackRules := Changed(e.mission.fallbackRules, changes.fallbackRules),
        mode := Changed(e.mission.mode, changes.mode),
        maxExecutionAttempts := Changed(e.mission.maxExecutionAttempts, changes.maxExecutionAttempts));
      SameHistoryOk(e.mission, updated);
      EmitOk(updated, MissionUpdated, st);
      UpdateLedgerOk(e, Emit(updated, MissionUpdated, st));
    }
  }

  lemma SameHistoryOk(m: Mission, r: Mission)
    requires MissionOk(m)
    requires r.log == m.log && r.lastEventSequence == m.lastEventSequence && r.trail == m.trail && r.status == m.status
    requires r.claimedAt == m.claimedAt && r.scheduledAt == m.scheduledAt
    requires m.status != RequiresConfirmation && r.executionAttempts <= r.maxExecutionAttempts
    ensures MissionOk(r)
  {
  }

  lemma SelectOk(e: Entry, provider: Option<ProviderId>, support: ProviderSupport, now: Time, st: Stamps)
    requires EntryOk(e)
    ensures var r := SelectProvider(e, provider, support, now, st);
            r.Success? && r.value.Some? ==>
              && ServiceKeeps(e, r.value.value)
              && r.value.value.mission.providerId == provider && provider != e.mission.providerId
              && r.value.value.mission.resolvedProviderId.None? && r.value.value.mission.reservationId.None?
              && Plannable(e.mission.status) && r.value.value.mission.status == e.mission.status
              && r.value.value.mission.scheduledAt == e.mission.scheduledAt
              && r.value.value.mission.maxExecutionAttempts == e.mission.maxExecutionAttempts
              && r.value.value.mission.lastEventSequence > e.mission.lastEventSequence
  {
    hide LogOk, TrailOk, Numbered, LedgerGrows, Append;
    if Plannable(e.mission.status) {
      var copy := e.mission.(providerId := provider, resolvedProviderId := None, reservationId := None);
      SameHistoryOk(e.mission, copy);
      EmitAtOk(copy, ProviderSelectionChanged, st, now);
      EmitAtKeepsBooking(copy, ProviderSelectionChanged, st, now);
      UpdateLedgerOk(e, EmitAt(copy, ProviderSelectionChanged, st, now));
    }
  }

  // ------------------------------------------------------ the due processor

  lemma MarkFailedOk(e: Entry, st: Stamps)
    requires EntryOk(e)
    ensures var r := MarkFailed(e, st);
            EntryOk(r) && Prefixes(e.mission, r.mission) && LedgerGrows(e.attempts, r.attempts)
            && SamePlan(e.mission, r.mission)
            && r.mission.status == Failed && r.mission.lastEventSequence > e.mission.lastEventSequence
  {
    hide Chained, Numbered, LedgerGrows, Append;
    var marked := e.mission.(status := Failed, claimedAt := None, trail := e.mission.trail + [Visit(Failed, ByMarkFailed)]);
    VisitOk(e.mission, marked, Visit(Failed, ByMarkFailed));
    EmitOk(marked, MissionProcessingFailed, st);
    UpdateLedgerOk(e, Emit(marked, MissionProcessingFailed, st));
  }

  lemma RecordTerminalFailureOk(e: Entry, now: Time, st: Stamps)
    requires EntryOk(e) && e.mission.status == Failed
    ensures var r := RecordTerminalFailure(e, now, st);
            EntryKeeps(e, r) && r.mission.status == Failed && r.mission.lastEventSequence > e.mission.lastEventSequence
  {
    hide LogOk, TrailOk, Numbered, LedgerGrows, Append;
    EmitAtOk(e.mission, MissionFailed, st, now);
    UpdateLedgerOk(e, EmitAt(e.mission, MissionFailed, st, now));
  }

  ghost predicate NotPast(deadline: Option<Time>, now: Time) {
    deadline.None? || deadline.value >= now
  }

  /** The automatic retry time is never in the past and never after the deadline. */
  lemma AutomaticRetryTimeOk(m: Mission, now: Time, policy: RetryPolicy)
    requires policy.Valid() && m.executionAttempts >= 1 && NotPast(m.expiresAt, now)
    ensures now <= AutomaticRetryTime(m, now, policy)
    ensures NotPast(m.expiresAt, AutomaticRetryTime(m, now, policy))
  {
    DelayIsMonotone(policy, 1, m.executionAttempts);
  }

  /** What the due pass leaves behind, whatever list the mission ends in. */
  ghost predicate VerdictKeeps(e: Entry, now: Time, r: Entry, verdict: Verdict) {
    && EntryGrows(e, r)
    && match verdict {
         case SucceededVerdict => r == e && r.mission.status in {RequiresConfirmation, Completed}
         case FailedVerdict => r.mission.status == Failed
         case RetryVerdict =>
           && r.mission.status == Waiting && !r.mission.HasExhaustedAttempts()
           && r.mission.scheduledAt.Some? && now <= r.mission.scheduledAt.value
           && NotPast(r.mission.expiresAt, r.mission.scheduledAt.value)
         case Escaped(error) =>
           error == AttemptsExhausted && r.mission.status == Failed && r.mission.HasExhaustedAttempts()
         case NoVerdict => false
       }
  }

  lemma AutomaticRetryOk(e: Entry, now: Time, policy: RetryPolicy, st: Stamps)
    requires policy.Valid() && EntryOk(e) && e.mission.status == Failed
    requires e.mission.executionAttempts >= 1 && NotPast(e.mission.expiresAt, now)
    ensures var r := AutomaticRetry(e, now, policy, st);
            if e.mission.HasExhaustedAttempts() then r == Failure(AttemptsExhausted)
            else r.Success? && VerdictKeeps(e, now, r.value, RetryVerdict) && Extends(e.mission, r.value.mission)
                 && r.value.mission.scheduledAt == Some(AutomaticRetryTime(e.mission, now, policy))
  {
    hide EntryOk, LedgerGrows, DrawEventId, UpdateLedger;
    AutomaticRetryTimeOk(e.mission, now, policy);
    RetryOk(e, Some(AutomaticRetryTime(e.mission, now, policy)), now, st);
  }

  lemma AfterDueReturnOk(e: Entry, now: Time, policy: RetryPolicy, st: Stamps)
    requires policy.Valid() && EntryOk(e) && e.mission.status in {RequiresConfirmation, Completed, Failed}
    requires e.mission.executionAttempts >= 1 && NotPast(e.mission.expiresAt, now)
    ensures var (r, verdict) := AfterDueReturn(e, now, policy, st);
            VerdictKeeps(e, now, r, verdict) && !verdict.Escaped? && Extends(e.mission, r.mission)
            && (verdict == SucceededVerdict <==> e.mission.status != Failed)
            && (verdict == RetryVerdict <==> e.mission.status == Failed && ShouldRetryMission(e.mission))
  {
    hide EntryOk, LedgerGrows, AutomaticRetry, RecordTerminalFailure, Claim;
    SameEntryOk(e);
    if e.mission.status == Failed {
      if ShouldRetryMission(e.mission) {
        AutomaticRetryOk(e, now, policy, st);
      } else {
        RecordTerminalFailureOk(e, now, st);
      }
    }
  }

  /** The only exception that leaves the pass: a transient error on a mission whose budget is used up. */
  lemma AfterDueRaiseOk(e: Entry, error: Error, now: Time, policy: RetryPolicy, st: Stamps)
    requires policy.Valid() && EntryOk(e)
    requires e.mission.executionAttempts >= 1 && NotPast(e.mission.expiresAt, now)
    ensures var (r, verdict) := AfterDueRaise(e, error, now, policy, st);
            VerdictKeeps(e, now, r, verdict) && verdict != SucceededVerdict
            && (verdict.Escaped? <==> ShouldRetryException(error) && e.mission.HasExhaustedAttempts())
            && (verdict == RetryVerdict <==> ShouldRetryException(error) && !e.mission.HasExhaustedAttempts())
            && r.mission.lastEventSequence > e.mission.lastEventSequence
  {
    hide EntryOk, LedgerGrows, AutomaticRetry, MarkFailed;
    MarkFailedOk(e, st);
    var marked := MarkFailed(e, st);
    AutomaticRetryOk(marked, now, policy, st);
    match AutomaticRetry(marked, now, policy, st)
    case Success(retried) => LedgerGrowsTransitive(e.attempts, marked.attempts, retried.attempts);
    case Failure(_) =>
  }

  // ------------------------------------------------------ legal status trails

  /** Extending a legal trail without unchecked marks keeps it legal. */
  lemma ExtendsLegal(m: Mission, r: Mission)
    requires LegalTrail(m.trail) && m.trail != [] && TrailOk(r) && Extends(m, r)
    ensures LegalTrail(r.trail)
  {
    forall i | 0 < i < |r.trail|
      ensures LegalVisit(r.trail[i - 1].status, r.trail[i])
    {
      if i < |m.trail| {
        assert r.trail[i] == m.trail[i] && r.trail[i - 1] == m.trail[i - 1];
      }
    }
  }

  /** The unchecked mark is a table edge when the mission is still processing. */
  lemma AfterDueRaiseLegal(e: Entry, error: Error, now: Time, policy: RetryPolicy, st: Stamps)
    requires policy.Valid() && EntryOk(e) && LegalTrail(e.mission.trail) && e.mission.status == Processing
    requires e.mission.executionAttempts >= 1 && NotPast(e.mission.expiresAt, now)
    ensures LegalTrail(AfterDueRaise(e, error, now, policy, st).0.mission.trail)
  {
    hide EntryOk, LedgerGrows, AutomaticRetry, MarkFailed;
    MarkFailedOk(e, st);
    var marked := MarkFailed(e, st);
    MarkFailedLegal(e, st);
    AutomaticRetryOk(marked, now, policy, st);
    match AutomaticRetry(marked, now, policy, st)
    case Success(retried) => RetriedLegal(marked, retried);
    case Failure(_) =>
  }

  lemma RetriedLegal(marked: Entry, retried: Entry)
    requires EntryOk(marked) && EntryOk(retried)
    requires LegalTrail(marked.mission.trail) && Extends(marked.mission, retried.mission)
    ensures LegalTrail(retried.mission.trail)
  {
    ExtendsLegal(marked.mission, retried.mission);
  }

  lemma MarkFailedLegal(e: Entry, st: Stamps)
    requires EntryOk(e) && LegalTrail(e.mission.trail) && e.mission.status == Processing
    ensures LegalTrail(MarkFailed(e, st).mission.trail)
  {
    hide LogOk, LedgerOk;
    var trail := MarkFailed(e, st).mission.trail;
    assert trail == e.mission.trail + [Visit(Failed, ByMarkFailed)];
    forall i | 0 < i < |trail|
      ensures LegalVisit(trail[i - 1].status, trail[i])
    {
      if i < |e.mission.trail| {
        assert trail[i] == e.mission.trail[i] && trail[i - 1] == e.mission.trail[i - 1];
      }
    }
  }
}
