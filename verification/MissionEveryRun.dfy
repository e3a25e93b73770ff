/**
 What holds in every run whatsoever, also where a stale copy of a mission is stored: each object the repository ever
 handed out stays sound and only grows its log, the provider's book knows one reservation per provider, and a
 completed mission's own log names a reservation that was settled.
 */
module MissionEveryRun {
  import opened Wrappers
  import opened MissionDomain
  import opened MissionSteps
  import opened MissionInvariants
  import opened MissionWorld
  import opened MissionSafety
  import opened MissionLifecycle
  import opened MissionTraces

  // --------------------------------------------------------------- invariant

  /** The log names a provider and a reservation that this provider confirmed or made without need of confirmation. */
  ghost predicate SettledInLog(log: seq<Event>, book: ProviderBook) {
    exists pair :: pair in book.settled && Logged(log, ProviderResolved(pair.0)) && LoggedReservation(log, pair.1)
  }

  ghost predicate Settles(m: Mission, book: ProviderBook) {
    m.status == Completed ==> Logged(m.log, MissionSearchCompleted) || SettledInLog(m.log, book)
  }

  ghost predicate ObjectOk(id: MissionId, m: Mission, book: ProviderBook) {
    m.id == id && Fits(m) && Traced(m) && Settles(m, book)
  }

  ghost predicate CallTraced(w: World, call: Call) {
    && call.ref < |w.objects|
    && (call.stage.At? ==> AsksTraced(w.objects[call.ref], call.stage.await, call.provider))
  }

  ghost predicate EveryOk(w: World) {
    && w.HasStored()
    && BookOk(w.StoredMission().id, w.book)
    && (forall i :: 0 <= i < |w.objects| ==> ObjectOk(w.StoredMission().id, w.objects[i], w.book))
    && (forall c :: c in w.calls ==> CallTraced(w, w.calls[c]))
  }

  /** Objects only grow, and there are only ever more of them. */
  ghost predicate ObjectsGrow(w: World, after: World) {
    |w.objects| <= |after.objects| && forall i :: 0 <= i < |w.objects| ==> Adds(w.objects[i], after.objects[i])
  }

  ghost predicate Moves(w: World, after: World) {
    EveryOk(after) && ObjectsGrow(w, after)
  }

  lemma MovesMore(a: World, b: World, c: World)
    requires Moves(a, b) && Moves(b, c)
    ensures Moves(a, c)
  {
    hide EveryOk, Adds;
    forall i | 0 <= i < |a.objects|
      ensures Adds(a.objects[i], c.objects[i])
    {
      AddsMore(a.objects[i], b.objects[i], c.objects[i]);
    }
  }

  lemma StaysPut(w: World)
    requires EveryOk(w)
    ensures Moves(w, w)
  {
    hide ObjectOk, BookOk, CallTraced;
  }

  // ------------------------------------------------------ pieces of a step

  lemma PutObject(w: World, ref: nat, r: Mission)
    requires EveryOk(w) && ref < |w.objects| && ObjectOk(w.StoredMission().id, r, w.book) && Adds(w.objects[ref], r)
    ensures Moves(w, w.(objects := w.objects[ref := r]))
  {
    hide BookOk, Fits, Traced, Settles, AsksTraced;
    var after := w.(objects := w.objects[ref := r]);
    assert ObjectOk(w.StoredMission().id, w.objects[ref], w.book);
    assert after.StoredMission().id == w.StoredMission().id;
    forall c | c in after.calls
      ensures CallTraced(after, after.calls[c])
    {
      var call := w.calls[c];
      assert CallTraced(w, call);
      if call.stage.At? && call.ref == ref {
        AsksLater(w.objects[ref], r, call.stage.await, call.provider);
      }
    }
  }

  lemma AsksLater(m: Mission, r: Mission, at: Await, provider: ProviderId)
    requires AsksTraced(m, at, provider) && Adds(m, r)
    ensures AsksTraced(r, at, provider)
  {
    LoggedLater(m.log, r.log);
  }

  lemma SettlesLater(m: Mission, r: Mission, book: ProviderBook, more: ProviderBook)
    requires Settles(m, book) && m.log <= r.log && book.settled <= more.settled
    requires r.status == Completed ==> m.status == Completed
    ensures Settles(r, more)
  {
    LoggedLater(m.log, r.log);
  }

  /** The ledger row plays no part. */
  lemma AnyLedger(w: World, attempts: seq<Attempt>)
    requires EveryOk(w)
    ensures Moves(w, w.(attempts := attempts))
  {
    hide ObjectOk, BookOk, AsksTraced;
    var after := w.(attempts := attempts);
    forall c | c in after.calls
      ensures CallTraced(after, after.calls[c])
    {
      assert CallTraced(w, w.calls[c]);
    }
  }

  lemma PutCall(w: World, c: nat, call: Call)
    requires EveryOk(w) && CallTraced(w, call)
    ensures Moves(w, w.(calls := w.calls[c := call]))
  {
    hide ObjectOk, BookOk, AsksTraced;
    var after := w.(calls := w.calls[c := call]);
    forall d | d in after.calls
      ensures CallTraced(after, after.calls[d])
    {
      assert d != c ==> CallTraced(w, w.calls[d]);
    }
  }

  lemma EndCall(w: World, c: nat)
    requires EveryOk(w)
    ensures Moves(w, w.(calls := w.calls - {c}))
  {
    hide ObjectOk, BookOk, AsksTraced;
    var after := w.(calls := w.calls - {c});
    forall d | d in after.calls
      ensures CallTraced(after, after.calls[d])
    {
      assert CallTraced(w, w.calls[d]);
    }
  }

  lemma PutStored(w: World, ref: nat)
    requires EveryOk(w) && ref < |w.objects|
    ensures Moves(w, w.(stored := ref))
  {
    hide BookOk, AsksTraced, Fits, Traced, Settles;
    var after := w.(stored := ref);
    assert ObjectOk(w.StoredMission().id, w.objects[ref], w.book);
    forall c | c in after.calls
      ensures CallTraced(after, after.calls[c])
    {
      assert CallTraced(w, w.calls[c]);
    }
  }

  lemma PutBook(w: World, book: ProviderBook)
    requires EveryOk(w) && BookOk(w.StoredMission().id, book) && w.book.settled <= book.settled
    ensures Moves(w, w.(book := book))
  {
    hide BookOk, AsksTraced, Fits, Traced, Settles;
    var after := w.(book := book);
    forall i | 0 <= i < |after.objects|
      ensures ObjectOk(w.StoredMission().id, after.objects[i], book)
    {
      assert ObjectOk(w.StoredMission().id, w.objects[i], w.book);
      SettlesLater(w.objects[i], w.objects[i], w.book, book);
    }
    forall c | c in after.calls
      ensures CallTraced(after, after.calls[c])
    {
      assert CallTraced(w, w.calls[c]);
    }
  }

  /** A change of the stored mission that asks no provider. */
  lemma PutRenewed(w: World, e: Entry)
    requires EveryOk(w) && Renews(w.StoredMission(), e.mission)
    ensures Moves(w, w.WithStored(e))
  {
    hide EveryOk, Fits, Adds, Traced, Settles, Moves;
    StoredIsOk(w);
    LongerLog(w.StoredMission(), e.mission);
    SettlesLater(w.StoredMission(), e.mission, w.book, w.book);
    PutObject(w, w.stored, e.mission);
    var put := w.(objects := w.objects[w.stored := e.mission]);
    MovesOk(w, put);
    AnyLedger(put, e.attempts);
    MovesMore(w, put, w.WithStored(e));
  }

  lemma LongerLog(m: Mission, r: Mission)
    requires Grows(m, r)
    ensures m.log <= r.log
  {
  }

  lemma MovesOk(w: World, after: World)
    requires Moves(w, after)
    ensures EveryOk(after)
  {
  }

  lemma StoredIsOk(w: World)
    requires EveryOk(w)
    ensures w.HasStored() && ObjectOk(w.StoredMission().id, w.StoredMission(), w.book)
    ensures w.StoredMission().log <= w.StoredMission().log
  {
    hide ObjectOk, BookOk, CallTraced;
  }

  lemma ObjectIsOk(w: World, ref: nat)
    requires EveryOk(w) && ref < |w.objects|
    ensures w.HasStored() && ObjectOk(w.StoredMission().id, w.objects[ref], w.book) && BookOk(w.StoredMission().id, w.book)
  {
    hide ObjectOk, BookOk, CallTraced;
  }

  /** The end of a segment, with what a due pass does after it. */
  lemma ConcludeMoves(w: World, c: nat, call: Call, s: Segment, st: Stamps)
    requires EveryOk(w) && call.ref < |w.objects|
    requires Carries(w.objects[call.ref], s) && Fits(s.entry.mission) && Settles(s.entry.mission, w.book)
    ensures Moves(w, Conclude(w, c, call, s, st))
  {
    hide EveryOk, Fits, Adds, Traced, Settles, Moves, AsksTraced, AfterDueReturn, AfterDueRaise, Renews, BookOk;
    ObjectIsOk(w, call.ref);
    PutObject(w, call.ref, s.entry.mission);
    var put := w.(objects := w.objects[call.ref := s.entry.mission]);
    MovesOk(w, put);
    AnyLedger(put, s.entry.attempts);
    var wrote := put.(attempts := s.entry.attempts);
    MovesOk(put, wrote);
    MovesMore(w, put, wrote);
    match s
    case Suspended(_, at, provider) =>
      PutCall(wrote, c, call.(stage := At(at), provider := provider));
      MovesMore(w, wrote, Conclude(w, c, call, s, st));
    case Returned(_) =>
      EndCall(wrote, c);
      var ended := wrote.(calls := wrote.calls - {c});
      MovesOk(wrote, ended);
      PutStored(ended, call.ref);
      var saved := ended.(stored := call.ref);
      MovesOk(ended, saved);
      MovesMore(w, wrote, ended);
      MovesMore(w, ended, saved);
      if call.driver.DuePass? {
        StoredIsOk(saved);
        DueEndRenews(saved.StoredEntry(), NotReady, call.driver.now, w.policy, st);
        PutRenewed(saved, AfterDueReturn(saved.StoredEntry(), call.driver.now, w.policy, st).0);
        MovesMore(w, saved, Conclude(w, c, call, s, st));
      }
    case Raised(_, error) =>
      EndCall(wrote, c);
      var ended := wrote.(calls := wrote.calls - {c});
      MovesOk(wrote, ended);
      MovesMore(w, wrote, ended);
      if call.driver.DuePass? {
        StoredIsOk(ended);
        DueEndRenews(ended.StoredEntry(), error, call.driver.now, w.policy, st);
        PutRenewed(ended, AfterDueRaise(ended.StoredEntry(), error, call.driver.now, w.policy, st).0);
        MovesMore(w, ended, Conclude(w, c, call, s, st));
      }
  }

  // ------------------------------------------------------------------ the steps

  /** A segment that completes nothing settles nothing new. */
  lemma CarriedSettles(m: Mission, s: Segment, book: ProviderBook)
    requires Carries(m, s) && Settles(m, book)
    requires s.entry.mission.status == Completed ==> m.status == Completed || Logged(s.entry.mission.log, MissionSearchCompleted)
    ensures Settles(s.entry.mission, book)
  {
    LoggedLater(m.log, s.entry.mission.log);
  }

  /** A segment that completes with a settled pair its log knows. */
  lemma PairSettles(m: Mission, s: Segment, book: ProviderBook, provider: ProviderId, reservation: ReservationId)
    requires Carries(m, s) && Settles(m, book) && Logged(m.log, ProviderResolved(provider))
    requires s.entry.mission.status == Completed ==>
               || m.status == Completed
               || (LoggedReservation(s.entry.mission.log, reservation) && (provider, reservation) in book.settled)
    ensures Settles(s.entry.mission, book)
  {
    LoggedLater(m.log, s.entry.mission.log);
    if s.entry.mission.status == Completed && m.status != Completed {
      var pair := (provider, reservation);
      assert pair in book.settled && Logged(s.entry.mission.log, ProviderResolved(pair.0))
             && LoggedReservation(s.entry.mission.log, pair.1);
    }
  }

  lemma CallIsOk(w: World, c: nat)
    requires EveryOk(w) && c in w.calls
    ensures CallTraced(w, w.calls[c])
  {
    hide ObjectOk, BookOk, CallTraced;
  }

  lemma StartMoves(w: World, step: Step)
    requires EveryOk(w) && CanStep(w, step)
    requires step.StartDue? || step.StartManual? || step.ConfirmRequest? || step.CancelRequest?
    ensures Moves(w, Next(w, step))
  {
    hide EveryOk, Fits, Traced, Carries, Settles, Moves, Conclude, StartRun, StartConfirm, StartCancel, BookOk;
    var e := w.StoredEntry();
    StoredIsOk(w);
    var started := Call(Api, InLine, w.stored, false, 0);
    match step
    case StartDue(c, resolution, found, st) =>
      var call := w.calls[c].(ref := w.stored, processing := e.mission.status == Processing);
      var s := StartRun(e, call.driver.now, true, resolution, found, st);
      StartRunCarries(e, call.driver.now, true, resolution, found, st);
      CarriedSettles(e.mission, s, w.book);
      ConcludeMoves(w, c, call, s, st);
    case StartManual(c, now, resolution, found, st) =>
      var s := StartRun(e, now, false, resolution, found, st);
      StartRunCarries(e, now, false, resolution, found, st);
      CarriedSettles(e.mission, s, w.book);
      ConcludeMoves(w, c, started, s, st);
    case ConfirmRequest(c, providerKnown, st) =>
      RequestsCarry(e, providerKnown, st);
      CarriedSettles(e.mission, StartConfirm(e, providerKnown, st), w.book);
      ConcludeMoves(w, c, started, StartConfirm(e, providerKnown, st), st);
    case CancelRequest(c, providerKnown, st) =>
      RequestsCarry(e, providerKnown, st);
      CarriedSettles(e.mission, StartCancel(e, providerKnown, st), w.book);
      ConcludeMoves(w, c, started, StartCancel(e, providerKnown, st), st);
  }

  lemma SearchMoves(w: World, step: Step)
    requires EveryOk(w) && CanStep(w, step) && step.SearchReply?
    ensures Moves(w, Next(w, step))
  {
    hide EveryOk, Fits, Traced, Carries, Settles, Moves, Conclude, AfterSearch, BookOk, Logged;
    var call := w.calls[step.call];
    CallIsOk(w, step.call);
    ObjectIsOk(w, call.ref);
    var e := EntryOf(w, call.ref);
    SearchCarries(e, call.processing, call.provider, step.search, step.st);
    CarriedSettles(e.mission, AfterSearch(e, call.processing, call.provider, step.search, step.st), w.book);
    ConcludeMoves(w, step.call, call, AfterSearch(e, call.processing, call.provider, step.search, step.st), step.st);
  }

  lemma CancelMoves(w: World, step: Step)
    requires EveryOk(w) && CanStep(w, step) && step.CancelReply?
    ensures Moves(w, Next(w, step))
  {
    hide EveryOk, Fits, Traced, Carries, Settles, Moves, Conclude, AfterCancel, BookOk, Logged;
    var call := w.calls[step.call];
    CallIsOk(w, step.call);
    ObjectIsOk(w, call.ref);
    var e := EntryOf(w, call.ref);
    CancelCarries(e, step.answer, step.st);
    CarriedSettles(e.mission, AfterCancel(e, step.answer, step.st), w.book);
    ConcludeMoves(w, step.call, call, AfterCancel(e, step.answer, step.st), step.st);
  }

  lemma ReserveMoves(w: World, step: Step)
    requires EveryOk(w) && CanStep(w, step) && step.ReserveReply?
    ensures Moves(w, Next(w, step))
  {
    hide EveryOk, Fits, Traced, Carries, Settles, Moves, Conclude, AfterReserve, BookOk, Logged, LoggedReservation, Reserve;
    var call := w.calls[step.call];
    CallIsOk(w, step.call);
    ObjectIsOk(w, call.ref);
    var id := w.StoredMission().id;
    var (book, answer) := Reserve(w.book, call.provider, ReservationKey(w.objects[call.ref].id), step.fate);
    ReserveKeepsBook(id, w.book, call.provider, step.fate);
    PutBook(w, book);
    var w1 := w.(book := book);
    MovesOk(w, w1);
    ObjectIsOk(w1, call.ref);
    var e := EntryOf(w, call.ref);
    var s := AfterReserve(e, call.provider, answer, step.st);
    ReserveCarries(e, call.provider, answer, step.st);
    PairSettles(e.mission, s, book, call.provider, if answer.Reserved? then answer.reservation else 0);
    ConcludeMoves(w1, step.call, call, s, step.st);
    MovesMore(w, w1, Next(w, step));
  }

  lemma ConfirmMoves(w: World, step: Step)
    requires EveryOk(w) && CanStep(w, step) && (step.AutoConfirmReply? || step.ConfirmReply?)
    ensures Moves(w, Next(w, step))
  {
    hide EveryOk, Fits, Traced, Carries, Settles, Moves, Conclude, AfterAutoConfirm, AfterConfirm, BookOk, Logged, LoggedReservation, Confirm;
    var call := w.calls[step.call];
    CallIsOk(w, step.call);
    ObjectIsOk(w, call.ref);
    var reservation := call.stage.await.reservation;
    var book := Confirm(w.book, call.provider, reservation, step.confirm);
    ConfirmKeepsBook(w.StoredMission().id, w.book, call.provider, reservation, step.confirm);
    PutBook(w, book);
    var w1 := w.(book := book);
    MovesOk(w, w1);
    ObjectIsOk(w1, call.ref);
    var e := EntryOf(w, call.ref);
    var answer := step.confirm.answer;
    AutoConfirmCarries(e, answer, step.st);
    ConfirmCarries(e, answer, step.st);
    var s := if step.AutoConfirmReply? then AfterAutoConfirm(e, answer, step.st) else AfterConfirm(e, answer, step.st);
    CarriedLog(e.mission, s);
    PairSettles(e.mission, s, book, call.provider, reservation);
    ConcludeMoves(w1, step.call, call, s, step.st);
    MovesMore(w, w1, Next(w, step));
  }

  lemma CarriedLog(m: Mission, s: Segment)
    requires Carries(m, s)
    ensures forall reservation :: LoggedReservation(m.log, reservation) ==> LoggedReservation(s.entry.mission.log, reservation)
  {
    LoggedLater(m.log, s.entry.mission.log);
  }

  lemma ServiceMoves(w: World, step: Step)
    requires EveryOk(w) && CanStep(w, step)
    requires step.RetryRequest? || step.ScheduleRequest? || step.PauseRequest? || step.ResumeRequest? || step.UpdateRequest?
    ensures Moves(w, Next(w, step))
  {
    hide EveryOk, Fits, Traced, Settles, Moves, Renews, RetryMission, ScheduleMission, PauseMission, ResumeMission, UpdateMission;
    var e := w.StoredEntry();
    StoredIsOk(w);
    StaysPut(w);
    var r := match step
      case RetryRequest(retryAt, now, st) => RetryMission(e, retryAt, now, st)
      case ScheduleRequest(at, now, st) => ScheduleMission(e, at, now, st)
      case PauseRequest(st) => PauseMission(e, st)
      case ResumeRequest(st) => ResumeMission(e, st)
      case UpdateRequest(changes, modeSupport, st) => UpdateMission(e, changes, modeSupport, st)
      case _ => Failure(NotReady);
    match step {
      case RetryRequest(retryAt, now, st) => RetryRenews(e, retryAt, now, st);
      case ScheduleRequest(at, now, st) => ScheduleRenews(e, at, now, st);
      case PauseRequest(st) => PauseRenews(e, st);
      case ResumeRequest(st) => PauseRenews(e, st);
      case UpdateRequest(changes, modeSupport, st) => UpdateRenews(e, changes, modeSupport, st);
      case _ =>
    }
    if r.Success? {
      PutRenewed(w, r.value);
    }
    assert Next(w, step) == Serve(w, r);
  }

  lemma RepositoryMoves(w: World, step: Step)
    requires EveryOk(w) && CanStep(w, step)
    requires step.ClaimDue? || step.ExpireDue? || step.RecoverStale? || step.Abandon?
    ensures Moves(w, Next(w, step))
  {
    hide EveryOk, Fits, Traced, Settles, Moves, Renews, Claim, Expire, Recover;
    var e := w.StoredEntry();
    StoredIsOk(w);
    match step
    case ClaimDue(c, now) =>
      ClaimRenews(e, now);
      PutRenewed(w, Claim(e, now));
      var claimed := w.WithStored(Claim(e, now));
      MovesOk(w, claimed);
      StoredRef(claimed);
      PutCall(claimed, c, Call(DuePass(now), InLine, w.stored, false, 0));
      MovesMore(w, claimed, Next(w, step));
    case ExpireDue(now, st) =>
      ExpireRenews(e.mission, now, st);
      PutRenewed(w, e.(mission := Expire(e.mission, now, st)));
    case RecoverStale(now, _, st) =>
      RecoverRenews(e, now, st);
      PutRenewed(w, Recover(e, now, st));
    case Abandon(c) => EndCall(w, c);
  }

  lemma StoredRef(w: World)
    requires EveryOk(w)
    ensures w.stored < |w.objects|
  {
    hide ObjectOk, BookOk, CallTraced;
  }

  /** A new object is filed in place of the old one, which whoever held it keeps. */
  lemma SelectMoves(w: World, step: Step)
    requires EveryOk(w) && CanStep(w, step) && step.SelectRequest?
    ensures Moves(w, Next(w, step))
  {
    hide BookOk, Fits, Traced, AsksTraced, SelectProvider;
    var e := w.StoredEntry();
    StaysPut(w);
    StoredIsOk(w);
    SelectCopies(e, step.choice, step.support, step.now, step.st);
    match SelectProvider(e, step.choice, step.support, step.now, step.st)
    case Success(Some(copy)) =>
      var after := Next(w, step);
      forall c | c in after.calls
        ensures CallTraced(after, after.calls[c])
      {
        assert CallTraced(w, w.calls[c]);
      }
      assert forall i :: 0 <= i < |w.objects| ==> after.objects[i] == w.objects[i];
    case _ =>
  }

  lemma StepMoves(w: World, step: Step)
    requires EveryOk(w) && CanStep(w, step)
    ensures Moves(w, Next(w, step))
  {
    hide EveryOk, Moves, Next;
    match step
    case SearchReply(_, _, _) => SearchMoves(w, step);
    case ReserveReply(_, _, _) => ReserveMoves(w, step);
    case AutoConfirmReply(_, _, _) => ConfirmMoves(w, step);
    case ConfirmReply(_, _, _) => ConfirmMoves(w, step);
    case CancelReply(_, _, _) => CancelMoves(w, step);
    case StartDue(_, _, _, _) => StartMoves(w, step);
    case StartManual(_, _, _, _, _) => StartMoves(w, step);
    case ConfirmRequest(_, _, _) => StartMoves(w, step);
    case CancelRequest(_, _, _) => StartMoves(w, step);
    case RetryRequest(_, _, _) => ServiceMoves(w, step);
    case ScheduleRequest(_, _, _) => ServiceMoves(w, step);
    case PauseRequest(_) => ServiceMoves(w, step);
    case ResumeRequest(_) => ServiceMoves(w, step);
    case UpdateRequest(_, _, _) => ServiceMoves(w, step);
    case ClaimDue(_, _) => RepositoryMoves(w, step);
    case ExpireDue(_, _) => RepositoryMoves(w, step);
    case RecoverStale(_, _, _) => RepositoryMoves(w, step);
    case Abandon(_) => RepositoryMoves(w, step);
    case SelectRequest(_, _, _, _) => SelectMoves(w, step);
  }

  // ---------------------------------------------------------------- whole runs

  lemma InitialEvery(w: World)
    requires Initial(w)
    ensures EveryOk(w)
  {
  }

  lemma {:induction false} RunEvery(run: seq<World>, n: nat)
    requires IsRun(AnyOrder, run) && n < |run|
    ensures EveryOk(run[n])
  {
    hide EveryOk, Next, CanStep;
    if n == 0 {
      InitialEvery(run[0]);
    } else {
      RunEvery(run, n - 1);
      FollowsMoves(run[n - 1], run[n]);
    }
  }

  lemma FollowsMoves(w: World, after: World)
    requires EveryOk(w) && Follows(AnyOrder, w, after)
    ensures Moves(w, after) && EveryOk(after)
  {
    hide EveryOk, Next;
    var step :| CanStep(w, step) && Permits(AnyOrder, w, step) && after == Next(w, step);
    StepMoves(w, step);
    MovesOk(w, after);
  }

  /** Every object ever handed out only grows its log, whatever is stored in its place. */
  lemma {:induction false} ObjectsOnlyGrow(run: seq<World>, i: nat, j: nat)
    requires IsRun(AnyOrder, run) && i <= j < |run|
    ensures EveryOk(run[j]) && ObjectsGrow(run[i], run[j])
    decreases j
  {
    hide EveryOk, Next, CanStep;
    RunEvery(run, i);
    StaysPut(run[i]);
    if i < j {
      ObjectsOnlyGrow(run, i, j - 1);
      FollowsMoves(run[j - 1], run[j]);
      MovesMore(run[i], run[j - 1], run[j]);
    }
  }

  // -------------------------------------------------------------- main results

  /** Attempt budget, in every run: the attempts never exceed the maximum. */
  lemma AttemptBudget(run: seq<World>, n: nat)
    requires IsRun(AnyOrder, run) && n < |run|
    ensures run[n].HasStored()
    ensures run[n].StoredMission().executionAttempts <= run[n].StoredMission().maxExecutionAttempts
  {
    RunEvery(run, n);
  }

  /** Causal log, in every run: one chain numbered 1..n, with n the mission's last sequence, that the validator accepts. */
  lemma CausalLog(run: seq<World>, n: nat)
    requires IsRun(AnyOrder, run) && n < |run|
    ensures run[n].HasStored()
    ensures var m := run[n].StoredMission();
            Causal(m.log) && |m.log| == m.lastEventSequence && ValidLog(m.log, m.lastEventSequence)
  {
    hide Chained, Causal, ValidLog;
    RunEvery(run, n);
    ChainedIsCausal(run[n].StoredMission().log);
    ChainedIsValid(run[n].StoredMission().log);
  }

  /** Lifecycle shape, in every run: the claim time goes with processing and the schedule with waiting. */
  lemma LifecycleShape(run: seq<World>, n: nat)
    requires IsRun(AnyOrder, run) && n < |run|
    ensures run[n].HasStored()
    ensures var m := run[n].StoredMission();
            && (m.claimedAt.Some? <==> m.status == Processing)
            && (m.status == Waiting ==> m.scheduledAt.Some?)
            && (m.status == Created ==> m.scheduledAt.None?)
  {
    RunEvery(run, n);
  }

  /**
   Status changes, in every run and for every object: nothing but the unchecked failure mark of the due pass ever leaves
   the table, the claims, the retries and the recoveries, and the trail is legal exactly when each mark came from
   processing.
   */
  lemma OnlyTheMarkLeavesTheTable(run: seq<World>, n: nat, ref: nat)
    requires IsRun(AnyOrder, run) && n < |run| && ref < |run[n].objects|
    ensures var m := run[n].objects[ref];
            && m.trail != [] && m.trail[|m.trail| - 1].status == m.status
            && (forall i :: 0 < i < |m.trail| ==> Marked(m.trail[i]) || LegalVisit(m.trail[i - 1].status, m.trail[i]))
            && (LegalTrail(m.trail) <==> forall i :: 0 < i < |m.trail| && Marked(m.trail[i]) ==> m.trail[i - 1].status == Processing)
  {
    hide IsRun, EveryOk, Traced, Settles, BookOk, LogOk, AllowedTransitions;
    RunEvery(run, n);
    ObjectIsOk(run[n], ref);
    MarksDecide(run[n].objects[ref].trail);
  }

  /**
   So in every run an object leaves completed, cancelled and expired by that mark alone, failed by a retry or the mark, and
   it waits again after processing only by recovery.
   */
  lemma LeavingInEveryRun(run: seq<World>, n: nat, ref: nat, k: nat)
    requires IsRun(AnyOrder, run) && n < |run| && ref < |run[n].objects| && 0 < k < |run[n].objects[ref].trail|
    ensures var before, v := run[n].objects[ref].trail[k - 1].status, run[n].objects[ref].trail[k];
            && (before in {Completed, Cancelled, Expired} ==> Marked(v))
            && (before == Failed ==> Marked(v) || v == Visit(Waiting, ByRetry))
            && (before == Processing && v.status == Waiting ==> v.cause == ByRecovery)
  {
    hide IsRun;
    OnlyTheMarkLeavesTheTable(run, n, ref);
  }

  lemma MarksDecide(trail: seq<Visit>)
    requires forall i :: 0 < i < |trail| ==> Marked(trail[i]) || LegalVisit(trail[i - 1].status, trail[i])
    ensures LegalTrail(trail) <==> forall i :: 0 < i < |trail| && Marked(trail[i]) ==> trail[i - 1].status == Processing
  {
    hide AllowedTransitions;
    if LegalTrail(trail) {
      forall i | 0 < i < |trail| && Marked(trail[i])
        ensures trail[i - 1].status == Processing
      {
        assert LegalVisit(trail[i - 1].status, trail[i]);
      }
    }
  }

  /** However often a mission runs, fails, is recovered, retried and copied, each provider makes it one reservation at most. */
  lemma OneReservationPerProvider(run: seq<World>, n: nat, i: nat, j: nat)
    requires IsRun(AnyOrder, run) && n < |run| && i < j < |run[n].book.made|
    ensures run[n].book.made[i].0 != run[n].book.made[j].0
  {
    hide Fits, Traced, Settles, CallTraced;
    RunEvery(run, n);
  }

  /**
   In every run a completed mission only searched, or its own log names a provider it was resolved to and a
   reservation it made such that this provider has confirmed that reservation or asked for no confirmation.
   */
  lemma EveryCompletionIsSettled(run: seq<World>, n: nat)
    requires IsRun(AnyOrder, run) && n < |run|
    ensures run[n].HasStored()
    ensures var m := run[n].StoredMission();
            m.status == Completed ==> Logged(m.log, MissionSearchCompleted) || SettledInLog(m.log, run[n].book)
  {
    RunEvery(run, n);
  }
}
