/**
 What each piece of the mission code makes of the object it works on, whatever ledger row it is given: the object
 stays sound, its log only grows, and the log tells where the recorded provider and reservation came from.
 */
module MissionTraces {
  import opened Wrappers
  import opened MissionDomain
  import opened MissionSteps
  import opened MissionInvariants
  import opened MissionWorld
  import opened MissionSafety
  import opened MissionLifecycle

  // ----------------------------------------------------------- sound objects

  /** What a mission object keeps by itself, without its ledger row. */
  ghost predicate Fits(m: Mission) {
    MissionOk(m) && (m.status == Processing ==> m.executionAttempts >= 1)
  }

  /** A ledger that fits the object: what a segment does to the object does not depend on the ledger it is given. */
  function Shadow(m: Mission): seq<Attempt>
    requires m.status == Processing ==> m.executionAttempts >= 1 && m.claimedAt.Some?
  {
    if m.status == Processing then
      ClosedLedger(m.executionAttempts - 1)
      + [Attempt(m.executionAttempts, AttemptProcessing, m.claimedAt.value, None, None, None)]
    else ClosedLedger(m.executionAttempts)
  }

  lemma ShadowOk(m: Mission) returns (e: Entry)
    requires Fits(m)
    ensures EntryOk(e) && e.mission == m
  {
    hide LogOk, TrailOk;
    e := Entry(m, Shadow(m));
  }

  lemma EntryFits(e: Entry)
    requires EntryOk(e)
    ensures Fits(e.mission)
  {
    hide MissionOk;
  }

  // ------------------------------------------------- what the log remembers

  ghost predicate LoggedReservation(log: seq<Event>, reservation: ReservationId) {
    exists i :: 0 <= i < |log| && log[i].kind.ReservationSucceeded? && log[i].kind.reservation == reservation
  }

  /** The recorded provider was resolved, and the recorded reservation was made, according to the log. */
  ghost predicate Traced(m: Mission) {
    && (m.resolvedProviderId.Some? ==> Logged(m.log, ProviderResolved(m.resolvedProviderId.value)))
    && (m.reservationId.Some? ==> LoggedReservation(m.log, m.reservationId.value))
  }

  /** The log grew, and not by a choice of provider; identity, choice and deadline never change. */
  ghost predicate Adds(m: Mission, r: Mission) {
    && m.log <= r.log && r.id == m.id && r.expiresAt == m.expiresAt && r.providerId == m.providerId
    && forall i :: |m.log| <= i < |r.log| ==> r.log[i].kind != ProviderSelectionChanged
  }

  lemma AddsMore(a: Mission, b: Mission, c: Mission)
    requires Adds(a, b) && Adds(b, c)
    ensures Adds(a, c)
  {
  }

  lemma LoggedLater(log: seq<Event>, longer: seq<Event>)
    requires log <= longer
    ensures forall kind :: Logged(log, kind) ==> Logged(longer, kind)
    ensures forall reservation :: LoggedReservation(log, reservation) ==> LoggedReservation(longer, reservation)
  {
    forall kind | Logged(log, kind)
      ensures Logged(longer, kind)
    {
      var i :| 0 <= i < |log| && log[i].kind == kind;
      assert longer[i] == log[i];
    }
    forall reservation | LoggedReservation(log, reservation)
      ensures LoggedReservation(longer, reservation)
    {
      var i :| 0 <= i < |log| && log[i].kind.ReservationSucceeded? && log[i].kind.reservation == reservation;
      assert longer[i] == log[i];
    }
  }

  /** What emitting one event does to the log and to what it remembers. */
  ghost predicate Emits(m: Mission, kind: EventKind, r: Mission) {
    && m.log <= r.log && (kind != ProviderSelectionChanged ==> Adds(m, r))
    && Logged(r.log, kind) && (kind.ReservationSucceeded? ==> LoggedReservation(r.log, kind.reservation))
    && SameBooking(m, r) && r.status == m.status && r.mode == m.mode && r.id == m.id
    && (Traced(m) ==> Traced(r))
  }

  lemma EmitAtEmits(m: Mission, kind: EventKind, st: Stamps, time: Time)
    ensures Emits(m, kind, EmitAt(m, kind, st, time))
  {
    hide DrawEventId;
    var r := EmitAt(m, kind, st, time);
    assert r.log[|m.log|].kind == kind;
    LoggedLater(m.log, r.log);
  }

  lemma EmitEmits(st: Stamps)
    ensures forall m: Mission, kind: EventKind {:trigger Emit(m, kind, st)} :: Emits(m, kind, Emit(m, kind, st))
  {
    hide Emits, EmitAt;
    forall m: Mission, kind: EventKind {:trigger Emit(m, kind, st)}
      ensures Emits(m, kind, Emit(m, kind, st))
    {
      EmitAtEmits(m, kind, st, st(m.lastEventSequence + 1).time);
    }
  }

  // --------------------------------------------------------- one segment

  /** Two segments that differ in the ledger at most. */
  ghost predicate SameUpToLedger(s: Segment, t: Segment) {
    && s.entry.mission == t.entry.mission
    && (s.Suspended? <==> t.Suspended?) && (s.Returned? <==> t.Returned?)
    && (s.Suspended? ==> s.at == t.at && s.provider == t.provider)
    && (s.Raised? ==> s.error == t.error)
  }

  /** What finishing an object does to it. */
  ghost predicate Finishes(m: Mission, target: Status, kind: EventKind, s: Segment) {
    && !s.Suspended?
    && (s.Raised? ==> s.entry.mission == m)
    && (s.Returned? ==>
          && s.entry.mission.status == target && Logged(s.entry.mission.log, kind) && s.entry.mission.id == m.id
          && (kind != ProviderSelectionChanged ==> Adds(m, s.entry.mission))
          && SameBooking(m, s.entry.mission) && (Traced(m) ==> Traced(s.entry.mission)))
  }

  lemma FinishFinishes(e: Entry, f: Entry, m: Mission, target: Status, kind: EventKind, st: Stamps)
    ensures SameUpToLedger(FinishAs(e, m, target, kind, st), FinishAs(f, m, target, kind, st))
    ensures Finishes(m, target, kind, FinishAs(e, m, target, kind, st))
  {
    hide Emit, UpdateLedger, AllowedTransitions;
    EmitEmits(st);
    match Transition(m, target, ByTable)
    case Failure(_) =>
    case Success(moved) => assert Emits(moved, kind, Emit(moved, kind, st));
  }

  lemma FinishesFinish(e: Entry, f: Entry, st: Stamps)
    ensures forall m: Mission, target: Status, kind: EventKind {:trigger FinishAs(e, m, target, kind, st)} ::
              && SameUpToLedger(FinishAs(e, m, target, kind, st), FinishAs(f, m, target, kind, st))
              && Finishes(m, target, kind, FinishAs(e, m, target, kind, st))
  {
    hide Finishes, SameUpToLedger, FinishAs;
    forall m: Mission, target: Status, kind: EventKind {:trigger FinishAs(e, m, target, kind, st)}
      ensures SameUpToLedger(FinishAs(e, m, target, kind, st), FinishAs(f, m, target, kind, st))
      ensures Finishes(m, target, kind, FinishAs(e, m, target, kind, st))
    {
      FinishFinishes(e, f, m, target, kind, st);
    }
  }

  /** The reservation a waiting call is about. */
  function About(at: Await): Option<ReservationId> {
    match at
    case AwaitAutoConfirm(reservation) => Some(reservation)
    case AwaitConfirm(reservation) => Some(reservation)
    case AwaitCancel(reservation) => Some(reservation)
    case _ => None
  }

  /** The log knows the provider and the reservation of the request a segment ends in. */
  ghost predicate AsksTraced(r: Mission, at: Await, provider: ProviderId) {
    Logged(r.log, ProviderResolved(provider)) && (About(at).Some? ==> LoggedReservation(r.log, About(at).value))
  }

  /** What every segment makes of the object it works on. */
  ghost predicate Carries(m: Mission, s: Segment) {
    && Adds(m, s.entry.mission) && s.entry.mission.id == m.id && Traced(s.entry.mission)
    && (s.Suspended? ==> AsksTraced(s.entry.mission, s.at, s.provider))
  }

  /** The object a segment leaves is sound because the segment leaves the same object whatever the ledger. */
  lemma FitsLike(s: Segment, f: Entry, t: Segment)
    requires SegmentKeeps(f, t) && SameUpToLedger(s, t)
    ensures Fits(s.entry.mission)
  {
    hide MissionOk;
  }

  lemma SearchCarries(e: Entry, processing: bool, provider: ProviderId, answer: SearchAnswer, st: Stamps)
    requires Fits(e.mission) && Traced(e.mission) && Logged(e.mission.log, ProviderResolved(provider))
    ensures var s := AfterSearch(e, processing, provider, answer, st);
            && Fits(s.entry.mission) && Carries(e.mission, s)
            && (s.entry.mission.status == Completed ==>
                  e.mission.status == Completed || Logged(s.entry.mission.log, MissionSearchCompleted))
  {
    hide Fits, EntryOk, SegmentKeeps, Carries;
    var f := ShadowOk(e.mission);
    AfterSearchOk(f, processing, provider, answer, st);
    SearchSame(e, f, processing, provider, answer, st);
    SearchGrows(e, processing, provider, answer, st);
    FitsLike(AfterSearch(e, processing, provider, answer, st), f, AfterSearch(f, processing, provider, answer, st));
  }

  /** The object grew into another one with everything its log remembers. */
  ghost predicate Grows(m: Mission, r: Mission) {
    Adds(m, r) && r.id == m.id && (Traced(m) ==> Traced(r))
  }

  lemma GrowsMore(a: Mission, b: Mission, c: Mission)
    requires Grows(a, b) && Grows(b, c)
    ensures Grows(a, c)
  {
    hide Traced;
    AddsMore(a, b, c);
  }

  lemma SameLogGrows(m: Mission, r: Mission)
    requires r.log == m.log && r.id == m.id && r.expiresAt == m.expiresAt && r.providerId == m.providerId && SameBooking(m, r)
    ensures Grows(m, r)
  {
  }

  lemma EmitGrows(m: Mission, kind: EventKind, st: Stamps)
    requires kind != ProviderSelectionChanged
    ensures Grows(m, Emit(m, kind, st)) && Logged(Emit(m, kind, st).log, kind) && Emit(m, kind, st).status == m.status
  {
    hide Emit, Traced, Adds;
    EmitEmits(st);
    assert Emits(m, kind, Emit(m, kind, st));
  }

  lemma MoveGrows(m: Mission, target: Status)
    ensures Transition(m, target, ByTable).Success? ==>
              Grows(m, Transition(m, target, ByTable).value) && Transition(m, target, ByTable).value.status == target
  {
    hide AllowedTransitions, Traced;
    if Transition(m, target, ByTable).Success? {
      SameLogGrows(m, Transition(m, target, ByTable).value);
    }
  }

  lemma FinishGrows(e: Entry, m: Mission, target: Status, kind: EventKind, st: Stamps)
    requires kind != ProviderSelectionChanged
    ensures var s := FinishAs(e, m, target, kind, st);
            && !s.Suspended? && Grows(m, s.entry.mission)
            && (if s.Returned? then s.entry.mission.status == target && Logged(s.entry.mission.log, kind)
                else s.entry.mission == m)
  {
    hide FinishAs, Traced;
    FinishFinishes(e, e, m, target, kind, st);
    SameLogGrows(m, m);
  }

  // -- the search answer

  lemma SearchSame(e: Entry, f: Entry, processing: bool, provider: ProviderId, answer: SearchAnswer, st: Stamps)
    requires f.mission == e.mission
    ensures SameUpToLedger(AfterSearch(e, processing, provider, answer, st), AfterSearch(f, processing, provider, answer, st))
  {
    hide Emit, FinishAs, Transition;
    FinishesFinish(e, f, st);
  }

  lemma SearchGrows(e: Entry, processing: bool, provider: ProviderId, answer: SearchAnswer, st: Stamps)
    requires Traced(e.mission) && Logged(e.mission.log, ProviderResolved(provider))
    ensures var s := AfterSearch(e, processing, provider, answer, st);
            && Carries(e.mission, s)
            && (s.entry.mission.status == Completed ==>
                  e.mission.status == Completed || Logged(s.entry.mission.log, MissionSearchCompleted))
  {
    hide Emit, FinishAs, Transition, Traced, Adds, ReserveOrFinish, Logged, LoggedReservation;
    var m := e.mission;
    SameLogGrows(m, m);
    match answer
    case SearchCrashed(_) =>
    case SearchFailed(retryable) => FinishGrows(e, m, Failed, ProviderOperationFailed(retryable), st);
    case Found(count, best) =>
      EmitGrows(m, OptionsFound(count), st);
      var counted := Emit(m, OptionsFound(count), st);
      if best.None? {
        FinishGrows(e, counted, Failed, NoValidOptionFound, st);
        GrowsMore(m, counted, FinishAs(e, counted, Failed, NoValidOptionFound, st).entry.mission);
      } else {
        MoveGrows(counted, OptionFound);
        if processing || Transition(counted, OptionFound, ByTable).Success? {
          var chosen := if processing then counted else Transition(counted, OptionFound, ByTable).value;
          var best' := chosen.(bestOption := best);
          SameLogGrows(chosen, best');
          EmitGrows(best', BestOptionSelected, st);
          var picked := Emit(best', BestOptionSelected, st);
          SameLogGrows(counted, counted);
          GrowsMore(counted, chosen, best');
          GrowsMore(counted, best', picked);
          GrowsMore(m, counted, picked);
          ReserveOrFinishGrows(e, picked, processing, provider, st);
          GrowsMore(m, picked, ReserveOrFinish(e, picked, processing, provider, st).entry.mission);
          AddsKeepLog(m, ReserveOrFinish(e, picked, processing, provider, st).entry.mission);
        }
      }
  }

  lemma AddsKeepLog(m: Mission, r: Mission)
    requires Grows(m, r)
    ensures forall kind :: Logged(m.log, kind) ==> Logged(r.log, kind)
    ensures forall reservation :: LoggedReservation(m.log, reservation) ==> LoggedReservation(r.log, reservation)
  {
    LoggedLater(m.log, r.log);
  }

  lemma ReserveOrFinishGrows(e: Entry, m: Mission, processing: bool, provider: ProviderId, st: Stamps)
    ensures var s := ReserveOrFinish(e, m, processing, provider, st);
            && Grows(m, s.entry.mission) && (s.Suspended? ==> s.at == AwaitReserve && s.provider == provider)
            && (s.entry.mission.status == Completed ==>
                  m.status == Completed || Logged(s.entry.mission.log, MissionSearchCompleted))
  {
    hide Emit, FinishAs, Transition, Traced, Adds;
    SameLogGrows(m, m);
    if m.mode == SearchOnly {
      FinishGrows(e, m, Completed, MissionSearchCompleted, st);
    } else {
      MoveGrows(m, Reserving);
      if processing || Transition(m, Reserving, ByTable).Success? {
        var reserving := if processing then m else Transition(m, Reserving, ByTable).value;
        EmitGrows(reserving, ReservationStarted, st);
        GrowsMore(m, reserving, Emit(reserving, ReservationStarted, st));
      }
    }
  }

  // -- the reservation answer

  lemma ReserveSame(e: Entry, f: Entry, provider: ProviderId, answer: ReserveAnswer, st: Stamps)
    requires f.mission == e.mission
    ensures SameUpToLedger(AfterReserve(e, provider, answer, st), AfterReserve(f, provider, answer, st))
  {
    hide Emit, FinishAs;
    FinishesFinish(e, f, st);
  }

  lemma BookGrows(m: Mission, reservation: ReservationId, needsConfirmation: bool, st: Stamps)
    ensures var r := Emit(m.(reservationId := Some(reservation)), ReservationSucceeded(reservation, needsConfirmation), st);
            && Grows(m, r) && LoggedReservation(r.log, reservation) && r.status == m.status && r.mode == m.mode
            && r.reservationId == Some(reservation) && r.resolvedProviderId == m.resolvedProviderId
  {
    hide Emit;
    EmitEmits(st);
    var chosen := m.(reservationId := Some(reservation));
    var r := Emit(chosen, ReservationSucceeded(reservation, needsConfirmation), st);
    assert Emits(chosen, ReservationSucceeded(reservation, needsConfirmation), r);
    LoggedLater(m.log, r.log);
  }

  lemma ReserveGrows(e: Entry, provider: ProviderId, answer: ReserveAnswer, st: Stamps)
    requires Traced(e.mission) && Logged(e.mission.log, ProviderResolved(provider))
    ensures var s := AfterReserve(e, provider, answer, st);
            && Carries(e.mission, s)
            && (s.entry.mission.status == Completed ==>
                  || e.mission.status == Completed
                  || (answer.Reserved? && !answer.needsConfirmation && LoggedReservation(s.entry.mission.log, answer.reservation)))
  {
    hide Emit, FinishAs, Traced, Adds, Logged, LoggedReservation;
    var m := e.mission;
    SameLogGrows(m, m);
    match answer
    case ReserveCrashed(_) =>
    case ReserveFailed(retryable) => FinishGrows(e, m, Failed, ProviderOperationFailed(retryable), st);
    case ReserveRejected => FinishGrows(e, m, Failed, ReservationFailed, st);
    case Reserved(reservation, needsConfirmation) => ReservedGrows(e, provider, reservation, needsConfirmation, st);
  }

  lemma ReservedGrows(e: Entry, provider: ProviderId, reservation: ReservationId, needsConfirmation: bool, st: Stamps)
    requires Traced(e.mission) && Logged(e.mission.log, ProviderResolved(provider))
    ensures var s := AfterReserve(e, provider, Reserved(reservation, needsConfirmation), st);
            && Carries(e.mission, s)
            && (s.entry.mission.status == Completed ==>
                  || e.mission.status == Completed
                  || (!needsConfirmation && LoggedReservation(s.entry.mission.log, reservation)))
  {
    hide Emit, FinishAs, Traced, Adds, Logged, LoggedReservation;
    var m := e.mission;
    BookGrows(m, reservation, needsConfirmation, st);
    var booked := Emit(m.(reservationId := Some(reservation)), ReservationSucceeded(reservation, needsConfirmation), st);
    FinishGrows(e, booked, RequiresConfirmation, WaitingForUserConfirmation, st);
    FinishGrows(e, booked, Completed, MissionCompleted, st);
    EmitGrows(booked, AutomaticConfirmationStarted, st);
    var s := AfterReserve(e, provider, Reserved(reservation, needsConfirmation), st);
    assert Grows(booked, s.entry.mission);
    GrowsMore(m, booked, s.entry.mission);
    AddsKeepLog(m, s.entry.mission);
    AddsKeepLog(booked, s.entry.mission);
  }

  lemma ReserveCarries(e: Entry, provider: ProviderId, answer: ReserveAnswer, st: Stamps)
    requires Fits(e.mission) && Traced(e.mission) && Logged(e.mission.log, ProviderResolved(provider))
    ensures var s := AfterReserve(e, provider, answer, st);
            && Fits(s.entry.mission) && Carries(e.mission, s)
            && (s.entry.mission.status == Completed ==>
                  || e.mission.status == Completed
                  || (answer.Reserved? && !answer.needsConfirmation && LoggedReservation(s.entry.mission.log, answer.reservation)))
  {
    hide Fits, EntryOk, SegmentKeeps, Carries;
    var f := ShadowOk(e.mission);
    AfterReserveOk(f, provider, answer, st);
    ReserveSame(e, f, provider, answer, st);
    ReserveGrows(e, provider, answer, st);
    FitsLike(AfterReserve(e, provider, answer, st), f, AfterReserve(f, provider, answer, st));
  }

  // -- the answers to confirmations and cancellations

  ghost predicate CompletedByAnswer(m: Mission, r: Mission, answer: CallAnswer) {
    r.status == Completed ==> m.status == Completed || answer.Accepted?
  }

  lemma AutoConfirmGrows(e: Entry, answer: CallAnswer, st: Stamps)
    requires Traced(e.mission)
    ensures var s := AfterAutoConfirm(e, answer, st);
            Carries(e.mission, s) && CompletedByAnswer(e.mission, s.entry.mission, answer)
  {
    hide Emit, FinishAs, Traced, Adds;
    var m := e.mission;
    SameLogGrows(m, m);
    FinishGrows(e, m, Failed, AutomaticConfirmationFailed, st);
    EmitGrows(m, AutomaticConfirmationSucceeded, st);
    var accepted := Emit(m, AutomaticConfirmationSucceeded, st);
    FinishGrows(e, accepted, Completed, MissionCompleted, st);
    GrowsMore(m, accepted, FinishAs(e, accepted, Completed, MissionCompleted, st).entry.mission);
    if answer.CallFailed? {
      FinishGrows(e, m, Failed, ProviderOperationFailed(answer.retryable), st);
    }
  }

  lemma ConfirmedGrows(e: Entry, m: Mission, st: Stamps)
    ensures !Confirmed(e, m, st).Suspended? && Grows(m, Confirmed(e, m, st).entry.mission)
    ensures Confirmed(e, m, st).Raised? ==> Confirmed(e, m, st).entry.mission == m
  {
    hide Emit, Traced, Adds, UpdateLedger;
    SameLogGrows(m, m);
    MoveGrows(m, Completed);
    match Transition(m, Completed, ByTable)
    case Failure(_) =>
    case Success(moved) =>
      EmitGrows(moved, MissionConfirmed, st);
      var confirmed := Emit(moved, MissionConfirmed, st);
      EmitGrows(confirmed, MissionCompleted, st);
      GrowsMore(m, moved, confirmed);
      GrowsMore(m, confirmed, Emit(confirmed, MissionCompleted, st));
  }

  lemma ConfirmedSame(e: Entry, f: Entry, st: Stamps)
    ensures forall m: Mission {:trigger Confirmed(e, m, st)} :: SameUpToLedger(Confirmed(e, m, st), Confirmed(f, m, st))
  {
    hide Emit, UpdateLedger;
  }

  lemma ConfirmGrows(e: Entry, answer: CallAnswer, st: Stamps)
    requires Traced(e.mission)
    ensures var s := AfterConfirm(e, answer, st);
            Carries(e.mission, s) && CompletedByAnswer(e.mission, s.entry.mission, answer)
  {
    hide Emit, FinishAs, Confirmed, Traced, Adds;
    var m := e.mission;
    SameLogGrows(m, m);
    FinishGrows(e, m, Failed, ConfirmationFailed, st);
    EmitGrows(m, ConfirmationSucceeded, st);
    var accepted := Emit(m, ConfirmationSucceeded, st);
    ConfirmedGrows(e, accepted, st);
    GrowsMore(m, accepted, Confirmed(e, accepted, st).entry.mission);
    if answer.CallFailed? {
      FinishGrows(e, m, Failed, ProviderOperationFailed(answer.retryable), st);
    }
  }

  lemma CancelGrows(e: Entry, answer: CallAnswer, st: Stamps)
    requires Traced(e.mission)
    ensures var s := AfterCancel(e, answer, st);
            Carries(e.mission, s) && (s.entry.mission.status == Completed ==> e.mission.status == Completed)
  {
    hide Emit, FinishAs, Traced, Adds;
    var m := e.mission;
    SameLogGrows(m, m);
    FinishGrows(e, m, Failed, CancellationFailed, st);
    EmitGrows(m, CancellationSucceeded, st);
    var accepted := Emit(m, CancellationSucceeded, st);
    FinishGrows(e, accepted, Cancelled, MissionCancelled, st);
    GrowsMore(m, accepted, FinishAs(e, accepted, Cancelled, MissionCancelled, st).entry.mission);
    if answer.CallFailed? {
      FinishGrows(e, m, Failed, ProviderOperationFailed(answer.retryable), st);
    }
  }

  lemma AnswersSame(e: Entry, f: Entry, answer: CallAnswer, st: Stamps)
    requires f.mission == e.mission
    ensures SameUpToLedger(AfterAutoConfirm(e, answer, st), AfterAutoConfirm(f, answer, st))
    ensures SameUpToLedger(AfterConfirm(e, answer, st), AfterConfirm(f, answer, st))
    ensures SameUpToLedger(AfterCancel(e, answer, st), AfterCancel(f, answer, st))
  {
    hide Emit, FinishAs, Confirmed;
    FinishesFinish(e, f, st);
    ConfirmedSame(e, f, st);
  }

  lemma AutoConfirmCarries(e: Entry, answer: CallAnswer, st: Stamps)
    requires Fits(e.mission) && Traced(e.mission)
    ensures var s := AfterAutoConfirm(e, answer, st);
            Fits(s.entry.mission) && Carries(e.mission, s) && CompletedByAnswer(e.mission, s.entry.mission, answer)
  {
    hide Fits, EntryOk, SegmentKeeps, Carries;
    var f := ShadowOk(e.mission);
    AfterAutoConfirmOk(f, answer, st);
    AnswersSame(e, f, answer, st);
    AutoConfirmGrows(e, answer, st);
    FitsLike(AfterAutoConfirm(e, answer, st), f, AfterAutoConfirm(f, answer, st));
  }

  lemma ConfirmCarries(e: Entry, answer: CallAnswer, st: Stamps)
    requires Fits(e.mission) && Traced(e.mission)
    ensures var s := AfterConfirm(e, answer, st);
            Fits(s.entry.mission) && Carries(e.mission, s) && CompletedByAnswer(e.mission, s.entry.mission, answer)
  {
    hide Fits, EntryOk, SegmentKeeps, Carries;
    var f := ShadowOk(e.mission);
    AfterConfirmOk(f, answer, st);
    AnswersSame(e, f, answer, st);
    ConfirmGrows(e, answer, st);
    FitsLike(AfterConfirm(e, answer, st), f, AfterConfirm(f, answer, st));
  }

  lemma CancelCarries(e: Entry, answer: CallAnswer, st: Stamps)
    requires Fits(e.mission) && Traced(e.mission)
    ensures var s := AfterCancel(e, answer, st);
            Fits(s.entry.mission) && Carries(e.mission, s)
            && (s.entry.mission.status == Completed ==> e.mission.status == Completed)
  {
    hide Fits, EntryOk, SegmentKeeps, Carries;
    var f := ShadowOk(e.mission);
    AfterCancelOk(f, answer, st);
    AnswersSame(e, f, answer, st);
    CancelGrows(e, answer, st);
    FitsLike(AfterCancel(e, answer, st), f, AfterCancel(f, answer, st));
  }

  // -- the first segments

  lemma StartsSame(e: Entry, f: Entry, now: Time, allowProcessing: bool, resolution: Resolution, participantsFound: bool,
                   providerKnown: bool, st: Stamps)
    requires f.mission == e.mission
    ensures SameUpToLedger(StartRun(e, now, allowProcessing, resolution, participantsFound, st),
                           StartRun(f, now, allowProcessing, resolution, participantsFound, st))
    ensures SameUpToLedger(StartConfirm(e, providerKnown, st), StartConfirm(f, providerKnown, st))
    ensures SameUpToLedger(StartCancel(e, providerKnown, st), StartCancel(f, providerKnown, st))
  {
    hide Emit, FinishAs, Confirmed, UpdateLedger, Expire, BeginSearch;
    FinishesFinish(e, f, st);
    ConfirmedSame(e, f, st);
    BeginsSame(st);
  }

  lemma BeginsSame(st: Stamps)
    ensures forall e: Entry, f: Entry, provider: ProviderId, found: bool
              {:trigger BeginSearch(e, provider, found, st), BeginSearch(f, provider, found, st)} ::
              f.mission == e.mission ==> SameUpToLedger(BeginSearch(e, provider, found, st), BeginSearch(f, provider, found, st))
  {
    hide BeginSearch, SameUpToLedger;
    forall e: Entry, f: Entry, provider: ProviderId, found: bool | f.mission == e.mission
      ensures SameUpToLedger(BeginSearch(e, provider, found, st), BeginSearch(f, provider, found, st))
    {
      BeginSame(e, f, provider, found, st);
    }
  }

  lemma BeginSame(e: Entry, f: Entry, provider: ProviderId, participantsFound: bool, st: Stamps)
    requires f.mission == e.mission
    ensures SameUpToLedger(BeginSearch(e, provider, participantsFound, st), BeginSearch(f, provider, participantsFound, st))
  {
    hide Emit, FinishAs, Transition;
    FinishesFinish(e, f, st);
  }

  lemma BeginGrows(e: Entry, provider: ProviderId, participantsFound: bool, st: Stamps)
    ensures var s := BeginSearch(e, provider, participantsFound, st);
            && Grows(e.mission, s.entry.mission) && (s.Suspended? ==> s.at == AwaitSearch && s.provider == provider)
            && (s.entry.mission.status == Completed ==> e.mission.status == Completed)
  {
    hide Emit, FinishAs, Transition, Traced, Adds;
    var m := e.mission;
    SameLogGrows(m, m);
    MoveGrows(m, Running);
    if m.status == Processing || Transition(m, Running, ByTable).Success? {
      var running := if m.status == Processing then m else Transition(m, Running, ByTable).value;
      FinishGrows(e, running, Failed, ParticipantMissing, st);
      GrowsMore(m, running, FinishAs(e, running, Failed, ParticipantMissing, st).entry.mission);
      EmitGrows(running, MissionStarted, st);
      var started := Emit(running, MissionStarted, st);
      GrowsMore(m, running, started);
      MoveGrows(started, Searching);
      if m.status == Processing || Transition(started, Searching, ByTable).Success? {
        var searching := if m.status == Processing then started else Transition(started, Searching, ByTable).value;
        SameLogGrows(started, started);
        GrowsMore(m, started, searching);
        EmitGrows(searching, SearchStarted, st);
        GrowsMore(m, searching, Emit(searching, SearchStarted, st));
      }
    }
  }

  lemma ResolveGrows(m: Mission, provider: ProviderId, st: Stamps)
    ensures var r := Emit(m.(resolvedProviderId := Some(provider)), ProviderResolved(provider), st);
            Grows(m, r) && Logged(r.log, ProviderResolved(provider)) && r.status == m.status
  {
    hide Emit;
    EmitEmits(st);
    var chosen := m.(resolvedProviderId := Some(provider));
    var r := Emit(chosen, ProviderResolved(provider), st);
    assert Emits(chosen, ProviderResolved(provider), r);
    LoggedLater(m.log, r.log);
  }

  lemma ExpireGrows(m: Mission, now: Time, st: Stamps)
    ensures Grows(m, Expire(m, now, st)) && (Expire(m, now, st).status == Completed ==> m.status == Completed)
  {
    hide EmitAt, Traced;
    SameLogGrows(m, m);
    MoveGrows(m, Expired);
    match Transition(m, Expired, ByTable)
    case Success(moved) =>
      EmitAtEmits(moved, MissionExpired, st, now);
      GrowsMore(m, moved, EmitAt(moved, MissionExpired, st, now));
    case Failure(_) =>
  }

  lemma StartRunGrows(e: Entry, now: Time, allowProcessing: bool, resolution: Resolution, participantsFound: bool, st: Stamps)
    requires Traced(e.mission)
    ensures var s := StartRun(e, now, allowProcessing, resolution, participantsFound, st);
            Carries(e.mission, s) && (s.entry.mission.status == Completed ==> e.mission.status == Completed)
  {
    hide Emit, Traced, Adds, Expire, BeginSearch, UpdateLedger;
    var m := e.mission;
    SameLogGrows(m, m);
    ExpireGrows(m, now, st);
    EmitGrows(m, ProviderResolutionFailed, st);
    if resolution.Resolved? && ClosingStatus(m.status).None? {
      var provider := resolution.provider;
      ResolveGrows(m, provider, st);
      var known := Emit(m.(resolvedProviderId := Some(provider)), ProviderResolved(provider), st);
      var saved := Save(e.(mission := known));
      BeginGrows(saved, provider, participantsFound, st);
      var s := BeginSearch(saved, provider, participantsFound, st);
      GrowsMore(m, known, s.entry.mission);
      AddsKeepLog(known, s.entry.mission);
    }
  }

  lemma StartRunCarries(e: Entry, now: Time, allowProcessing: bool, resolution: Resolution, participantsFound: bool, st: Stamps)
    requires Fits(e.mission) && Traced(e.mission)
    ensures var s := StartRun(e, now, allowProcessing, resolution, participantsFound, st);
            && Fits(s.entry.mission) && Carries(e.mission, s)
            && (s.entry.mission.status == Completed ==> e.mission.status == Completed)
  {
    hide Fits, EntryOk, SegmentKeeps, Carries, StartRun;
    var f := ShadowOk(e.mission);
    StartRunOk(f, now, allowProcessing, resolution, participantsFound, st);
    StartsSame(e, f, now, allowProcessing, resolution, participantsFound, true, st);
    StartRunGrows(e, now, allowProcessing, resolution, participantsFound, st);
    FitsLike(StartRun(e, now, allowProcessing, resolution, participantsFound, st), f,
             StartRun(f, now, allowProcessing, resolution, participantsFound, st));
  }

  /** A mission before the user has a reservation, so confirming it always asks its provider. */
  lemma StartConfirmGrows(e: Entry, providerKnown: bool, st: Stamps)
    requires Traced(e.mission) && (e.mission.status == RequiresConfirmation ==> e.mission.reservationId.Some?)
    ensures var s := StartConfirm(e, providerKnown, st);
            Carries(e.mission, s) && (s.entry.mission.status == Completed ==> e.mission.status == Completed)
  {
    hide Emit, Adds, Confirmed, Logged, LoggedReservation;
    var m := e.mission;
    SameLogGrows(m, m);
    EmitGrows(m, ConfirmationStarted, st);
    AddsKeepLog(m, Emit(m, ConfirmationStarted, st));
  }

  lemma StartCancelGrows(e: Entry, providerKnown: bool, st: Stamps)
    requires Traced(e.mission)
    ensures var s := StartCancel(e, providerKnown, st);
            Carries(e.mission, s) && (s.entry.mission.status == Completed ==> e.mission.status == Completed)
  {
    hide Emit, Adds, FinishAs, Logged, LoggedReservation;
    var m := e.mission;
    SameLogGrows(m, m);
    FinishGrows(e, m, Cancelled, MissionCancelled, st);
    EmitGrows(m, CancellationStarted, st);
    AddsKeepLog(m, Emit(m, CancellationStarted, st));
  }

  lemma RequestsCarry(e: Entry, providerKnown: bool, st: Stamps)
    requires Fits(e.mission) && Traced(e.mission)
    ensures var s := StartConfirm(e, providerKnown, st);
            && Fits(s.entry.mission) && Carries(e.mission, s)
            && (s.entry.mission.status == Completed ==> e.mission.status == Completed)
    ensures var s := StartCancel(e, providerKnown, st);
            && Fits(s.entry.mission) && Carries(e.mission, s)
            && (s.entry.mission.status == Completed ==> e.mission.status == Completed)
  {
    hide LogOk, TrailOk, EntryOk, SegmentKeeps, Carries, StartConfirm, StartCancel;
    var f := ShadowOk(e.mission);
    StartsSame(e, f, 0, false, Unresolved, false, providerKnown, st);
    StartConfirmOk(f, providerKnown, st);
    StartConfirmGrows(e, providerKnown, st);
    FitsLike(StartConfirm(e, providerKnown, st), f, StartConfirm(f, providerKnown, st));
    StartCancelOk(f, providerKnown, st);
    StartCancelGrows(e, providerKnown, st);
    FitsLike(StartCancel(e, providerKnown, st), f, StartCancel(f, providerKnown, st));
  }

  // ------------------------------------------------- changes without a provider

  /** A change that asks no provider: the object stays sound and completes nothing. */
  ghost predicate Renews(m: Mission, r: Mission) {
    Fits(r) && Grows(m, r) && (r.status == Completed ==> m.status == Completed)
  }

  lemma RenewsMore(a: Mission, b: Mission, c: Mission)
    requires Renews(a, b) && Renews(b, c)
    ensures Renews(a, c)
  {
    hide Fits, Grows;
    GrowsMore(a, b, c);
  }

  lemma SameRenews(m: Mission)
    requires Fits(m)
    ensures Renews(m, m)
  {
    hide Fits;
    SameLogGrows(m, m);
  }

  lemma EmitAtGrows(m: Mission, kind: EventKind, st: Stamps, time: Time)
    requires kind != ProviderSelectionChanged
    ensures Grows(m, EmitAt(m, kind, st, time)) && EmitAt(m, kind, st, time).status == m.status
  {
    hide EmitAt, Adds, Traced;
    EmitAtEmits(m, kind, st, time);
  }

  lemma RetryRenews(e: Entry, retryAt: Option<Time>, now: Time, st: Stamps)
    requires Fits(e.mission)
    ensures var r := RetryMission(e, retryAt, now, st); r.Success? ==> Renews(e.mission, r.value.mission)
  {
    hide EntryOk, UpdateLedger, EmitAt, AllowedTransitions, Adds, Fits, ServiceKeeps;
    var r := RetryMission(e, retryAt, now, st);
    if r.Success? {
      var f := ShadowOk(e.mission);
      RetryOk(f, retryAt, now, st);
      KeptFits(f, RetryMission(f, retryAt, now, st).value);
      var at := if retryAt.Some? then retryAt.value else now;
      var moved := Transition(e.mission, Waiting, ByRetry).value.(
        scheduledAt := Some(at), resolvedProviderId := None, reservationId := None, bestOption := None);
      ClearedGrows(e.mission, moved);
      EmitAtGrows(moved, MissionRetryScheduled(at), st, now);
      GrowsMore(e.mission, moved, r.value.mission);
    }
  }

  lemma KeptFits(e: Entry, r: Entry)
    requires ServiceKeeps(e, r)
    ensures Fits(r.mission)
  {
    hide MissionOk;
  }

  lemma ClearedGrows(m: Mission, r: Mission)
    requires r.log == m.log && r.id == m.id && r.expiresAt == m.expiresAt && r.providerId == m.providerId
    requires r.resolvedProviderId.None? && r.reservationId.None?
    ensures Grows(m, r)
  {
  }

  lemma MarkRenews(e: Entry, st: Stamps)
    requires Fits(e.mission)
    ensures Renews(e.mission, MarkFailed(e, st).mission)
  {
    hide EntryOk, UpdateLedger, Emit, Adds, Fits, MissionOk;
    var f := ShadowOk(e.mission);
    MarkFailedOk(f, st);
    EntryFits(MarkFailed(f, st));
    var marked := e.mission.(status := Failed, claimedAt := None, trail := e.mission.trail + [Visit(Failed, ByMarkFailed)]);
    SameLogGrows(e.mission, marked);
    EmitGrows(marked, MissionProcessingFailed, st);
    GrowsMore(e.mission, marked, MarkFailed(e, st).mission);
  }

  lemma TerminalRenews(e: Entry, now: Time, st: Stamps)
    requires Fits(e.mission) && e.mission.status == Failed
    ensures Renews(e.mission, RecordTerminalFailure(e, now, st).mission)
  {
    hide EntryOk, UpdateLedger, EmitAt, Fits, Grows;
    var f := ShadowOk(e.mission);
    RecordTerminalFailureOk(f, now, st);
    EntryFits(RecordTerminalFailure(f, now, st));
    EmitAtGrows(e.mission, MissionFailed, st, now);
  }

  /** Whatever the pass does to the stored mission once a run of it is over. */
  lemma DueEndRenews(e: Entry, error: Error, now: Time, policy: ValidPolicy, st: Stamps)
    requires Fits(e.mission)
    ensures Renews(e.mission, AfterDueReturn(e, now, policy, st).0.mission)
    ensures Renews(e.mission, AfterDueRaise(e, error, now, policy, st).0.mission)
  {
    hide Renews, RetryMission, MarkFailed, RecordTerminalFailure;
    SameRenews(e.mission);
    var marked := MarkFailed(e, st);
    MarkRenews(e, st);
    FitsOf(e.mission, marked.mission);
    if e.mission.executionAttempts >= 1 {
      RetryRenews(e, Some(AutomaticRetryTime(e.mission, now, policy)), now, st);
    }
    if marked.mission.executionAttempts >= 1 {
      RetryRenews(marked, Some(AutomaticRetryTime(marked.mission, now, policy)), now, st);
      match RetryMission(marked, Some(AutomaticRetryTime(marked.mission, now, policy)), now, st)
      case Success(r) => RenewsMore(e.mission, marked.mission, r.mission);
      case Failure(_) =>
    }
    if e.mission.status == Failed {
      TerminalRenews(e, now, st);
    }
  }

  lemma FitsOf(m: Mission, r: Mission)
    requires Renews(m, r)
    ensures Fits(r)
  {
  }

  lemma ScheduleRenews(e: Entry, at: Option<Time>, now: Time, st: Stamps)
    requires Fits(e.mission)
    ensures var r := ScheduleMission(e, at, now, st); r.Success? ==> Renews(e.mission, r.value.mission)
  {
    hide EntryOk, UpdateLedger, EmitAt, Adds, Fits, ServiceKeeps, Planned;
    var r := ScheduleMission(e, at, now, st);
    SameRenews(e.mission);
    if r.Success? {
      var f := ShadowOk(e.mission);
      ScheduleOk(f, at, now, st);
      KeptFits(f, ScheduleMission(f, at, now, st).value);
      var planned := Planned(e.mission, at, PlanTarget(e.mission.status, at));
      PlannedGrows(e.mission, at, PlanTarget(e.mission.status, at));
      EmitAtGrows(planned, PlanKind(at), st, now);
      GrowsMore(e.mission, planned, EmitAt(planned, PlanKind(at), st, now));
    }
  }

  lemma PlannedGrows(m: Mission, at: Option<Time>, target: Status)
    ensures Grows(m, Planned(m, at, target)) && Planned(m, at, target).status == target
  {
    SameLogGrows(m, Planned(m, at, target));
  }

  lemma PauseRenews(e: Entry, st: Stamps)
    requires Fits(e.mission)
    ensures var r := PauseMission(e, st); r.Success? ==> Renews(e.mission, r.value.mission)
    ensures var r := ResumeMission(e, st); r.Success? ==> Renews(e.mission, r.value.mission)
  {
    hide EntryOk, UpdateLedger, Emit, Adds, Fits, ServiceKeeps, Transition;
    var f := ShadowOk(e.mission);
    var target := if e.mission.scheduledAt.Some? then Waiting else Created;
    if PauseMission(e, st).Success? {
      PauseOk(f, st);
      KeptFits(f, PauseMission(f, st).value);
      MoveGrows(e.mission, Paused);
      var moved := Transition(e.mission, Paused, ByTable).value;
      EmitGrows(moved, MissionPaused, st);
      GrowsMore(e.mission, moved, Emit(moved, MissionPaused, st));
    }
    if ResumeMission(e, st).Success? {
      ResumeOk(f, st);
      KeptFits(f, ResumeMission(f, st).value);
      MoveGrows(e.mission, target);
      var moved := Transition(e.mission, target, ByTable).value;
      EmitGrows(moved, MissionResumed, st);
      GrowsMore(e.mission, moved, Emit(moved, MissionResumed, st));
    }
  }

  lemma UpdateRenews(e: Entry, changes: Changes, modeSupport: Result<bool, Error>, st: Stamps)
    requires Fits(e.mission)
    ensures var r := UpdateMission(e, changes, modeSupport, st); r.Success? ==> Renews(e.mission, r.value.mission)
  {
    hide EntryOk, UpdateLedger, Emit, Adds, Fits, ServiceKeeps;
    SameRenews(e.mission);
    if UpdateMission(e, changes, modeSupport, st).Success? {
      var f := ShadowOk(e.mission);
      UpdateOk(f, changes, modeSupport, st);
      KeptFits(f, UpdateMission(f, changes, modeSupport, st).value);
      var updated := e.mission.(
        title := Changed(e.mission.title, changes.title),
        fallbackRules := Changed(e.mission.fallbackRules, changes.fallbackRules),
        mode := Changed(e.mission.mode, changes.mode),
        maxExecutionAttempts := Changed(e.mission.maxExecutionAttempts, changes.maxExecutionAttempts));
      SameLogGrows(e.mission, updated);
      EmitGrows(updated, MissionUpdated, st);
      GrowsMore(e.mission, updated, Emit(updated, MissionUpdated, st));
    }
  }

  lemma ClaimRenews(e: Entry, now: Time)
    requires Fits(e.mission) && Due(e.mission, now)
    ensures Renews(e.mission, Claim(e, now).mission)
  {
    hide EntryOk, MissionOk, Grows;
    var f := ShadowOk(e.mission);
    ClaimOk(f, now);
    EntryFits(Claim(f, now));
    SameLogGrows(e.mission, Claim(e, now).mission);
  }

  lemma ExpireRenews(m: Mission, now: Time, st: Stamps)
    requires Fits(m) && ExpiryDue(m, now)
    ensures Renews(m, Expire(m, now, st))
  {
    hide EntryOk, Fits, Grows, Expire, SegmentKeeps;
    var f := ShadowOk(m);
    ExpireOk(f, now, st);
    EntryFits(f.(mission := Expire(m, now, st)));
    ExpireGrows(m, now, st);
  }

  lemma RecoverRenews(e: Entry, now: Time, st: Stamps)
    requires Fits(e.mission) && e.mission.status == Processing
    ensures Renews(e.mission, Recover(e, now, st).mission)
  {
    hide EntryOk, EmitAt, Adds, Fits, ServiceKeeps, CloseLast;
    var f := ShadowOk(e.mission);
    RecoverOk(f, now, st);
    KeptFits(f, Recover(f, now, st));
    var target := if e.mission.HasExhaustedAttempts() then Failed else Waiting;
    var moved := Transition(e.mission, target, ByRecovery).value;
    SameLogGrows(e.mission, moved);
    EmitAtGrows(moved, ClaimRecovered(target == Failed), st, now);
    GrowsMore(e.mission, moved, EmitAt(moved, ClaimRecovered(target == Failed), st, now));
  }

  /** The copy with another provider choice is sound too and remembers as much. */
  lemma SelectCopies(e: Entry, choice: Option<ProviderId>, support: ProviderSupport, now: Time, st: Stamps)
    requires Fits(e.mission)
    ensures var r := SelectProvider(e, choice, support, now, st);
            r.Success? && r.value.Some? ==>
              var copy := r.value.value.mission;
              && Fits(copy) && Traced(copy) && copy.id == e.mission.id && copy.status == e.mission.status
              && copy.expiresAt == e.mission.expiresAt && copy.resolvedProviderId == None && copy.reservationId == None
              && Plannable(copy.status) && e.mission.log < copy.log
              && copy.log[|e.mission.log|].kind == ProviderSelectionChanged
  {
    hide EntryOk, UpdateLedger, Fits, ServiceKeeps, DrawEventId, Logged, LoggedReservation;
    var r := SelectProvider(e, choice, support, now, st);
    if r.Success? && r.value.Some? {
      var f := ShadowOk(e.mission);
      SelectOk(f, choice, support, now, st);
      KeptFits(f, SelectProvider(f, choice, support, now, st).value.value);
    }
  }
}
