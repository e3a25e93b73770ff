/**
 One registry answers all runs of a mission, so each object of it has one provider for ever: whatever is recorded of a
 provider and a reservation belongs to that provider, and a waiting or completed mission falls short of its reservation
 only where a half of the pair is not recorded.
 */
module MissionBacking {
  import opened Wrappers
  import opened MissionDomain
  import opened MissionSteps
  import opened MissionInvariants
  import opened MissionWorld
  import opened MissionSafety
  import opened MissionLifecycle
  import opened MissionTraces
  import opened MissionEveryRun
  import opened MissionExactness
  import opened MissionPairs
  import R = ProviderRegistry

  type Registry = seq<R.Adapter<ProviderId>>

  // --------------------------------------------------------------- invariant

  /** The provider holds one reservation for the mission, and it is settled. */
  ghost predicate BookingSettled(id: MissionId, book: ProviderBook, provider: Option<ProviderId>) {
    && provider.Some?
    && (provider.value, ReservationKey(id)) in book.reservations
    && (provider.value, book.reservations[(provider.value, ReservationKey(id))].reservation) in book.settled
  }

  /** What the object records belongs to its one provider. */
  ghost predicate ObjectGrounded(registry: Registry, m: Mission, book: ProviderBook) {
    var one := R.OneProvider(registry, m.providerId);
    && (m.resolvedProviderId.Some? ==> m.resolvedProviderId == one && Known(registry, m))
    && (m.reservationId.Some? ==> Held(m.id, book, one, m.reservationId))
    && (m.status == Completed ==> Logged(m.log, MissionSearchCompleted) || BookingSettled(m.id, book, one))
  }

  /** A waiting call asks the one provider of its object, about a reservation it holds. */
  ghost predicate CallGrounded(w: World, call: Call) {
    && call.ref < |w.objects|
    && (call.stage.At? ==>
          && R.OneProvider(w.registry, w.objects[call.ref].providerId) == Some(call.provider)
          && (About(call.stage.await).Some? ==>
                Held(w.objects[call.ref].id, w.book, Some(call.provider), About(call.stage.await))))
  }

  ghost predicate Grounded(w: World) {
    && (forall i :: 0 <= i < |w.objects| ==> ObjectGrounded(w.registry, w.objects[i], w.book))
    && (forall c :: c in w.calls ==> CallGrounded(w, w.calls[c]))
  }

  // -------------------------------------------------- what a step leaves alone

  lemma RegistryStays(w: World, step: Step)
    requires CanStep(w, step)
    ensures Next(w, step).registry == w.registry
  {
    hide StartRun, StartConfirm, StartCancel, AfterSearch, AfterReserve, AfterAutoConfirm, AfterConfirm, AfterCancel,
         AfterDueReturn, AfterDueRaise, RetryMission, ScheduleMission, PauseMission, ResumeMission, UpdateMission,
         SelectProvider, Claim, Expire, Recover, Reserve, Confirm;
  }

  /** Nothing the providers hold or have settled is ever lost. */
  ghost predicate BookGrows(book: ProviderBook, more: ProviderBook) {
    && (forall k :: k in book.reservations ==> k in more.reservations && more.reservations[k] == book.reservations[k])
    && book.settled <= more.settled
  }

  lemma BookMoves(w: World, step: Step)
    requires EveryOk(w) && CanStep(w, step)
    ensures BookGrows(w.book, Next(w, step).book)
    ensures step.ReserveReply? && AnswerOf(w, step).Reserved? ==>
              var call := w.calls[step.call];
              Held(w.objects[call.ref].id, Next(w, step).book, Some(call.provider), Some(AnswerOf(w, step).reservation))
  {
    hide EveryOk, Next, Confirm, Fits, Traced, Settles;
    if step.ReserveReply? || step.AutoConfirmReply? || step.ConfirmReply? {
      var call := w.calls[step.call];
      ObjectIsOk(w, call.ref);
      BookAfterReply(w, step);
      if step.ReserveReply? {
        ReserveKeepsBook(w.StoredMission().id, w.book, call.provider, step.fate);
      } else {
        ConfirmKeepsBook(w.StoredMission().id, w.book, call.provider, call.stage.await.reservation, step.confirm);
      }
    } else {
      BookStays(w, step);
    }
  }

  lemma BookStays(w: World, step: Step)
    requires CanStep(w, step) && !step.ReserveReply? && !step.AutoConfirmReply? && !step.ConfirmReply?
    ensures Next(w, step).book == w.book
  {
    hide StartRun, StartConfirm, StartCancel, AfterSearch, AfterCancel, AfterDueReturn, AfterDueRaise, RetryMission,
         ScheduleMission, PauseMission, ResumeMission, UpdateMission, SelectProvider, Claim, Expire, Recover;
  }

  lemma HeldLater(id: MissionId, book: ProviderBook, more: ProviderBook)
    requires BookGrows(book, more)
    ensures forall provider, reservation :: Held(id, book, provider, reservation) ==> Held(id, more, provider, reservation)
    ensures forall provider :: BookingSettled(id, book, provider) ==> BookingSettled(id, more, provider)
  {
  }

  // ------------------------------------------------------------------- objects

  /** What a run resolves is the one provider of the mission it starts on. */
  lemma ResolvesToTheOne(w: World, step: Step, ref: nat)
    requires CanStep(w, step) && Answers(w, step) && ref < |w.objects| && ResolvedBy(w, step, ref).Some?
    ensures ResolvedBy(w, step, ref) == R.OneProvider(w.registry, w.objects[ref].providerId)
    ensures R.Find(w.registry, ResolvedBy(w, step, ref).value).Some?
  {
    hide R.Resolve, R.OneProvider, R.Find;
    R.ModeDoesNotMatter(w.registry, w.StoredMission().providerId, w.StoredMission().mode);
  }

  /** What completes an object settles the one booking of its provider. */
  lemma CompletionGrounded(w: World, step: Step, ref: nat)
    requires EveryOk(w) && Grounded(w) && CanStep(w, step) && ref < |w.objects| && NewlyCompleted(w, Next(w, step), ref)
    ensures var after := Next(w, step);
            || Logged(after.objects[ref].log, MissionSearchCompleted)
            || BookingSettled(w.objects[ref].id, after.book, R.OneProvider(w.registry, w.objects[ref].providerId))
  {
    hide EveryOk, Next, NewlyCompleted, ObjectGrounded, R.OneProvider, AfterReserve, AfterAutoConfirm, AfterConfirm, Reserve, Logged;
    RepliesComplete(w, step, ref);
    if Completes(w, step, ref) {
      ReplySettles(w, step);
      BookMoves(w, step);
      var call := w.calls[step.call];
      assert CallGrounded(w, call);
    }
  }

  lemma ObjectStays(w: World, step: Step, ref: nat)
    requires EveryOk(w) && Grounded(w) && CanStep(w, step) && Answers(w, step) && ref < |w.objects|
    ensures ref < |Next(w, step).objects| && Adds(w.objects[ref], Next(w, step).objects[ref])
    ensures ObjectGrounded(w.registry, Next(w, step).objects[ref], Next(w, step).book)
  {
    hide EveryOk, Next, CanStep, Answers, R.OneProvider, R.Find, CallGrounded, BookingSettled, Held, Logged, Rebooks;
    var after := Next(w, step);
    StepMoves(w, step);
    PairMoves(w, step, ref);
    BookMoves(w, step);
    var m, r := w.objects[ref], after.objects[ref];
    assert Adds(m, r);
    HeldLater(m.id, w.book, after.book);
    LoggedLater(m.log, r.log);
    assert ObjectGrounded(w.registry, m, w.book);
    if ResolvedBy(w, step, ref).Some? {
      ResolvesToTheOne(w, step, ref);
    }
    if Rebooks(w, step, ref) {
      BookedAtTheOne(w, step, ref);
    }
    if r.status == Completed && m.status != Completed {
      CompletionGrounded(w, step, ref);
    }
  }

  lemma BookedAtTheOne(w: World, step: Step, ref: nat)
    requires EveryOk(w) && Grounded(w) && ref < |w.objects| && Rebooks(w, step, ref)
    ensures Held(w.objects[ref].id, Next(w, step).book, R.OneProvider(w.registry, w.objects[ref].providerId),
                 Some(AnswerOf(w, step).reservation))
  {
    hide EveryOk, Next, ObjectGrounded, Held, R.OneProvider, Reserve;
    BookMoves(w, step);
    assert CallGrounded(w, w.calls[step.call]);
  }

  /** A new object records nothing yet. */
  lemma NewObjectIsBare(w: World, step: Step, i: nat)
    requires EveryOk(w) && CanStep(w, step) && |w.objects| <= i < |Next(w, step).objects|
    ensures var m := Next(w, step).objects[i];
            m.resolvedProviderId == None && m.reservationId == None && Plannable(m.status)
  {
    hide Fits, Traced, BookOk, Settles, CallTraced, StartRun, StartConfirm, StartCancel, AfterSearch, AfterReserve,
         AfterAutoConfirm, AfterConfirm, AfterCancel, AfterDueReturn, AfterDueRaise, RetryMission, ScheduleMission,
         PauseMission, ResumeMission, UpdateMission, SelectProvider, Claim, Expire, Recover, Reserve, Confirm;
    StoredIsOk(w);
    if step.SelectRequest? {
      SelectCopies(w.StoredEntry(), step.choice, step.support, step.now, step.st);
    }
  }

  // --------------------------------------------------------------------- calls

  /** How a call comes to wait where it waits after the step. */
  ghost predicate Waiting(w: World, step: Step, c: nat, call: Call)
    requires call.stage.At?
  {
    || (c in w.calls && call == w.calls[c])
    || (&& (step.StartDue? || step.StartManual?) && call.ref == w.stored
        && Some(call.provider) == ResolvedBy(w, step, w.stored) && About(call.stage.await) == None)
    || (&& step.SearchReply? && step.call in w.calls && w.calls[step.call].stage.At? && call.ref == w.calls[step.call].ref
        && call.provider == w.calls[step.call].provider && About(call.stage.await) == None)
    || (&& Rebooks(w, step, call.ref) && call.provider == w.calls[step.call].provider
        && About(call.stage.await) == Some(AnswerOf(w, step).reservation))
    || (&& (step.ConfirmRequest? || step.CancelRequest?) && w.HasStored() && call.ref == w.stored
        && w.StoredMission().resolvedProviderId == Some(call.provider)
        && About(call.stage.await).Some? && About(call.stage.await) == w.StoredMission().reservationId)
  }

  lemma StartWaits(e: Entry, now: Time, allowProcessing: bool, resolution: Resolution, found: bool, known: bool, st: Stamps)
    ensures var s := StartRun(e, now, allowProcessing, resolution, found, st);
            s.Suspended? ==> s.at == AwaitSearch && Some(s.provider) == ResolvedTo(resolution)
    ensures var s := StartConfirm(e, known, st);
            s.Suspended? ==> About(s.at).Some? && About(s.at) == e.mission.reservationId && e.mission.resolvedProviderId == Some(s.provider)
    ensures var s := StartCancel(e, known, st);
            s.Suspended? ==> About(s.at).Some? && About(s.at) == e.mission.reservationId && e.mission.resolvedProviderId == Some(s.provider)
  {
    hide Emit, FinishAs, Transition, Expire, UpdateLedger, Finishes, SameUpToLedger;
    NeverSuspends(st);
  }

  lemma NeverSuspends(st: Stamps)
    ensures forall e: Entry, m: Mission, target: Status, kind: EventKind {:trigger FinishAs(e, m, target, kind, st)} ::
              !FinishAs(e, m, target, kind, st).Suspended?
  {
    hide Emit, Transition, UpdateLedger;
  }

  lemma ReplyWaits(e: Entry, processing: bool, provider: ProviderId, search: SearchAnswer, booked: ReserveAnswer, answer: CallAnswer,
                   st: Stamps)
    ensures var s := AfterSearch(e, processing, provider, search, st);
            s.Suspended? ==> s.at == AwaitReserve && s.provider == provider
    ensures var s := AfterReserve(e, provider, booked, st);
            s.Suspended? ==> booked.Reserved? && s.at == AwaitAutoConfirm(booked.reservation) && s.provider == provider
    ensures !AfterAutoConfirm(e, answer, st).Suspended? && !AfterConfirm(e, answer, st).Suspended?
    ensures !AfterCancel(e, answer, st).Suspended?
  {
    hide Emit, FinishAs, Transition, UpdateLedger;
    NeverSuspends(st);
  }

  lemma ConcludeCalls(w: World, c: nat, call: Call, s: Segment, st: Stamps, d: nat)
    requires w.HasStored() && call.ref < |w.objects| && d in Conclude(w, c, call, s, st).calls
    ensures var after := Conclude(w, c, call, s, st);
            || (d in w.calls && after.calls[d] == w.calls[d])
            || (d == c && s.Suspended? && after.calls[d] == call.(stage := At(s.at), provider := s.provider))
  {
    hide AfterDueReturn, AfterDueRaise;
  }

  lemma CallsWait(w: World, step: Step, c: nat)
    requires CanStep(w, step) && c in Next(w, step).calls && Next(w, step).calls[c].stage.At?
    ensures Waiting(w, step, c, Next(w, step).calls[c])
  {
    hide Waiting, Next, CanStep;
    if step.StartDue? || step.StartManual? || step.ConfirmRequest? || step.CancelRequest? {
      CallsWaitAfterStart(w, step, c);
    } else if step.SearchReply? || step.CancelReply? {
      CallsWaitAfterReply(w, step, c);
    } else if step.ReserveReply? || step.AutoConfirmReply? || step.ConfirmReply? {
      CallsWaitAfterBooking(w, step, c);
    } else {
      CallsWaitOtherwise(w, step, c);
    }
  }

  lemma CallsWaitAfterStart(w: World, step: Step, c: nat)
    requires CanStep(w, step) && c in Next(w, step).calls && Next(w, step).calls[c].stage.At?
    requires step.StartDue? || step.StartManual? || step.ConfirmRequest? || step.CancelRequest?
    ensures Waiting(w, step, c, Next(w, step).calls[c])
  {
    hide Conclude, StartRun, StartConfirm, StartCancel;
    var e := w.StoredEntry();
    var started := Call(Api, InLine, w.stored, false, 0);
    match step
    case StartDue(d, resolution, found, st) =>
      var call := w.calls[d].(ref := w.stored, processing := e.mission.status == Processing);
      StartWaits(e, call.driver.now, true, resolution, found, false, st);
      ConcludeCalls(w, d, call, StartRun(e, call.driver.now, true, resolution, found, st), st, c);
    case StartManual(d, now, resolution, found, st) =>
      StartWaits(e, now, false, resolution, found, false, st);
      ConcludeCalls(w, d, started, StartRun(e, now, false, resolution, found, st), st, c);
    case ConfirmRequest(d, known, st) =>
      StartWaits(e, 0, false, Unresolved, false, known, st);
      ConcludeCalls(w, d, started, StartConfirm(e, known, st), st, c);
    case CancelRequest(d, known, st) =>
      StartWaits(e, 0, false, Unresolved, false, known, st);
      ConcludeCalls(w, d, started, StartCancel(e, known, st), st, c);
  }

  lemma CallsWaitAfterReply(w: World, step: Step, c: nat)
    requires CanStep(w, step) && c in Next(w, step).calls && Next(w, step).calls[c].stage.At?
    requires step.SearchReply? || step.CancelReply?
    ensures Waiting(w, step, c, Next(w, step).calls[c])
  {
    hide Conclude, AfterSearch, AfterCancel;
    var call := w.calls[step.call];
    var e := EntryOf(w, call.ref);
    if step.SearchReply? {
      ReplyWaits(e, call.processing, call.provider, step.search, ReserveRejected, Rejected, step.st);
      ConcludeCalls(w, step.call, call, AfterSearch(e, call.processing, call.provider, step.search, step.st), step.st, c);
    } else {
      ReplyWaits(e, false, 0, SearchFailed(false), ReserveRejected, step.answer, step.st);
      ConcludeCalls(w, step.call, call, AfterCancel(e, step.answer, step.st), step.st, c);
    }
  }

  lemma CallsWaitAfterBooking(w: World, step: Step, c: nat)
    requires CanStep(w, step) && c in Next(w, step).calls && Next(w, step).calls[c].stage.At?
    requires step.ReserveReply? || step.AutoConfirmReply? || step.ConfirmReply?
    ensures Waiting(w, step, c, Next(w, step).calls[c])
  {
    hide Conclude, AfterReserve, AfterAutoConfirm, AfterConfirm, Reserve, Confirm;
    var call := w.calls[step.call];
    var e := EntryOf(w, call.ref);
    ReplyWaits(e, false, call.provider, SearchFailed(false), if step.ReserveReply? then AnswerOf(w, step) else ReserveRejected,
               if step.ReserveReply? then Rejected else step.confirm.answer, step.st);
    BookAfterReply(w, step);
    ConcludeCalls(w.(book := Next(w, step).book), step.call, call, ReplySegment(w, step), step.st, c);
  }

  lemma CallsWaitOtherwise(w: World, step: Step, c: nat)
    requires CanStep(w, step) && c in Next(w, step).calls && Next(w, step).calls[c].stage.At?
    requires step.RetryRequest? || step.ScheduleRequest? || step.PauseRequest? || step.ResumeRequest? || step.UpdateRequest?
             || step.ClaimDue? || step.ExpireDue? || step.RecoverStale? || step.Abandon? || step.SelectRequest?
    ensures Waiting(w, step, c, Next(w, step).calls[c])
  {
    hide RetryMission, ScheduleMission, PauseMission, ResumeMission, UpdateMission, Claim, Expire, Recover, SelectProvider;
  }

  lemma CallHasObject(w: World, step: Step, c: nat, call: Call)
    requires Grounded(w) && CanStep(w, step) && call.stage.At? && Waiting(w, step, c, call)
    ensures call.ref < |w.objects|
  {
    hide ObjectGrounded, Held, R.OneProvider, AnswerOf;
  }

  /** What was grounded before the step still is, seen from the object and the book after it. */
  lemma CallLater(w: World, step: Step, c: nat, call: Call)
    requires EveryOk(w) && Grounded(w) && CanStep(w, step) && Answers(w, step)
    requires call.stage.At? && call.ref < |w.objects| && Waiting(w, step, c, call)
    ensures R.OneProvider(w.registry, w.objects[call.ref].providerId) == Some(call.provider)
    ensures About(call.stage.await).Some? ==>
              Held(w.objects[call.ref].id, Next(w, step).book, Some(call.provider), About(call.stage.await))
  {
    hide EveryOk, Next, Answers, R.OneProvider, R.Find, Held, ResolvedBy, BookGrows, AnswerOf;
    BookMoves(w, step);
    HeldLater(w.objects[call.ref].id, w.book, Next(w, step).book);
    assert ObjectGrounded(w.registry, w.objects[call.ref], w.book);
    if c in w.calls && call == w.calls[c] {
      assert CallGrounded(w, w.calls[c]);
    } else if step.StartDue? || step.StartManual? {
      ResolvesToTheOne(w, step, w.stored);
    } else if step.SearchReply? {
      assert CallGrounded(w, w.calls[step.call]);
    } else if Rebooks(w, step, call.ref) {
      assert CallGrounded(w, w.calls[step.call]);
      BookedAtTheOne(w, step, call.ref);
    }
  }

  lemma CallStays(w: World, step: Step, c: nat)
    requires EveryOk(w) && Grounded(w) && CanStep(w, step) && Answers(w, step) && c in Next(w, step).calls
    ensures CallGrounded(Next(w, step), Next(w, step).calls[c])
  {
    hide EveryOk, Next, CanStep, Answers, R.OneProvider, Held, Grounded, Waiting;
    var after := Next(w, step);
    var call := after.calls[c];
    StepMoves(w, step);
    MovesOk(w, after);
    CallIsOk(after, c);
    RegistryStays(w, step);
    if call.stage.At? {
      CallsWait(w, step, c);
      CallHasObject(w, step, c, call);
      CallLater(w, step, c, call);
      assert Adds(w.objects[call.ref], after.objects[call.ref]);
    }
  }

  // ---------------------------------------------------------------- whole runs

  lemma GroundedStep(w: World, step: Step)
    requires EveryOk(w) && Grounded(w) && CanStep(w, step) && Answers(w, step)
    ensures EveryOk(Next(w, step)) && Grounded(Next(w, step))
  {
    hide EveryOk, Next, CanStep, Answers, ObjectGrounded, CallGrounded;
    var after := Next(w, step);
    StepMoves(w, step);
    MovesOk(w, after);
    RegistryStays(w, step);
    forall i | 0 <= i < |after.objects|
      ensures ObjectGrounded(after.registry, after.objects[i], after.book)
    {
      if i < |w.objects| {
        ObjectStays(w, step, i);
      } else {
        NewObjectIsBare(w, step, i);
        BareIsGrounded(after.registry, after.objects[i], after.book);
      }
    }
    forall c | c in after.calls
      ensures CallGrounded(after, after.calls[c])
    {
      CallStays(w, step, c);
    }
  }

  lemma BareIsGrounded(registry: Registry, m: Mission, book: ProviderBook)
    requires m.resolvedProviderId == None && m.reservationId == None && m.status != Completed
    ensures ObjectGrounded(registry, m, book)
  {
  }

  lemma {:induction false} RunGrounded(run: seq<World>, n: nat)
    requires IsRun(AnyOrder, run) && n < |run|
    ensures EveryOk(run[n]) && Grounded(run[n])
  {
    hide EveryOk, Grounded, Next, CanStep, Answers;
    if n == 0 {
      InitialGrounded(run[0]);
    } else {
      RunGrounded(run, n - 1);
      assert Follows(AnyOrder, run[n - 1], run[n]);
      var step :| CanStep(run[n - 1], step) && Permits(AnyOrder, run[n - 1], step) && run[n] == Next(run[n - 1], step);
      GroundedStep(run[n - 1], step);
    }
  }

  lemma InitialGrounded(w: World)
    requires Initial(w)
    ensures EveryOk(w) && Grounded(w)
  {
    InitialEvery(w);
  }

  // -------------------------------------------------------------- main results

  /**
   In every run and for every object of the mission: a recorded provider is the one its choice can resolve to, in whatever
   mode, and it is registered, so that no confirmation or cancellation ever lacks its adapter.
   */
  lemma RecordedProviderIsTheOne(run: seq<World>, n: nat, ref: nat)
    requires IsRun(AnyOrder, run) && n < |run| && ref < |run[n].objects| && run[n].objects[ref].resolvedProviderId.Some?
    ensures var m := run[n].objects[ref];
            m.resolvedProviderId == R.OneProvider(run[n].registry, m.providerId) && Known(run[n].registry, m)
  {
    hide IsRun, EveryOk, CallGrounded, R.OneProvider, R.Find, Held, Logged;
    RunGrounded(run, n);
    assert ObjectGrounded(run[n].registry, run[n].objects[ref], run[n].book);
  }

  /** In every run: what waits for the user is backed by its provider exactly when a provider is recorded. */
  lemma WaitingIsBackedExactly(run: seq<World>, n: nat, ref: nat)
    requires IsRun(AnyOrder, run) && n < |run| && ref < |run[n].objects| && run[n].objects[ref].status == RequiresConfirmation
    ensures var m := run[n].objects[ref];
            && m.reservationId.Some?
            && (Held(m.id, run[n].book, m.resolvedProviderId, m.reservationId) <==> m.resolvedProviderId.Some?)
  {
    RunGrounded(run, n);
    WaitingBacked(run[n], ref);
  }

  lemma WaitingBacked(w: World, ref: nat)
    requires EveryOk(w) && Grounded(w) && ref < |w.objects| && w.objects[ref].status == RequiresConfirmation
    ensures var m := w.objects[ref];
            && m.reservationId.Some?
            && (Held(m.id, w.book, m.resolvedProviderId, m.reservationId) <==> m.resolvedProviderId.Some?)
  {
    hide EveryOk, CallGrounded, R.OneProvider, Traced, Settles, BookOk, Known, LogOk, TrailOk;
    ObjectIsOk(w, ref);
    assert ObjectGrounded(w.registry, w.objects[ref], w.book);
  }

  /**
   In every run: a completed mission only searched, or the pair it records is settled exactly when both halves of it are
   recorded.
   */
  lemma CompletedIsSettledExactly(run: seq<World>, n: nat, ref: nat)
    requires IsRun(AnyOrder, run) && n < |run| && ref < |run[n].objects| && run[n].objects[ref].status == Completed
    ensures var m := run[n].objects[ref];
            || Logged(m.log, MissionSearchCompleted)
            || (Settled(run[n].book, m.resolvedProviderId, m.reservationId) <==> m.resolvedProviderId.Some? && m.reservationId.Some?)
  {
    hide IsRun, EveryOk, CallGrounded, R.OneProvider, Known;
    RunGrounded(run, n);
    assert ObjectGrounded(run[n].registry, run[n].objects[ref], run[n].book);
  }
}
