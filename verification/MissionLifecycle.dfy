/**
 Runs in which no mission is disturbed: it is not recovered while its run is alive and not
 retried while a confirmation or cancellation waits for its provider.  In such runs the status table
 is obeyed by every status change and a mission that waits for the user always has the reservation
 that its provider holds.
 */
module MissionLifecycle {
  import opened Wrappers
  import opened MissionDomain
  import opened MissionSteps
  import opened MissionInvariants
  import opened MissionWorld
  import opened MissionSafety

  // ------------------------------------------------------------- reservations

  /** Reservations exist only under the mission's own key, so each provider holds at most one. */
  ghost predicate BookOk(id: MissionId, book: ProviderBook) {
    && (forall k :: k in book.reservations ==> k.1 == ReservationKey(id))
    && (forall i :: 0 <= i < |book.made| ==> book.made[i] in book.reservations)
    && (forall i, j :: 0 <= i < j < |book.made| ==> book.made[i] != book.made[j])
    && (forall k :: k in book.reservations && !book.reservations[k].needsConfirmation ==>
          (k.0, book.reservations[k].reservation) in book.settled)
  }

  lemma ReserveKeepsBook(id: MissionId, book: ProviderBook, provider: ProviderId, fate: ReserveFate)
    requires BookOk(id, book)
    ensures var (after, answer) := Reserve(book, provider, ReservationKey(id), fate);
            && BookOk(id, after)
            && book.settled <= after.settled
            && (forall k :: k in book.reservations ==> k in after.reservations && after.reservations[k] == book.reservations[k])
            && (answer.Reserved? ==>
                  && (provider, ReservationKey(id)) in after.reservations
                  && after.reservations[(provider, ReservationKey(id))] == Booking(answer.reservation, answer.needsConfirmation)
                  && (!answer.needsConfirmation ==> (provider, answer.reservation) in after.settled))
  {
  }

  /** The provider holds this reservation for the mission. */
  ghost predicate Held(id: MissionId, book: ProviderBook, provider: Option<ProviderId>, reservation: Option<ReservationId>) {
    && provider.Some? && reservation.Some?
    && (provider.value, ReservationKey(id)) in book.reservations
    && book.reservations[(provider.value, ReservationKey(id))].reservation == reservation.value
  }

  ghost predicate Settled(book: ProviderBook, provider: Option<ProviderId>, reservation: Option<ReservationId>) {
    provider.Some? && reservation.Some? && (provider.value, reservation.value) in book.settled
  }

  ghost predicate Logged(log: seq<Event>, kind: EventKind) {
    exists i :: 0 <= i < |log| && log[i].kind == kind
  }

  // ---------------------------------------------------------------- invariant

  predicate IsRunCall(call: Call) {
    call.stage.InLine? || call.stage.await.AwaitSearch? || call.stage.await.AwaitReserve? || call.stage.await.AwaitAutoConfirm?
  }

  /** What a live call knows about the stored mission. */
  ghost predicate QuietCall(m: Mission, stored: nat, call: Call) {
    if call.stage.InLine? then call.driver.DuePass? && m.status == Processing
    else
      && call.ref == stored
      && m.resolvedProviderId == Some(call.provider)
      && match call.stage.await {
           case AwaitSearch => RunStatus(m, call, Searching)
           case AwaitReserve => RunStatus(m, call, Reserving)
           case AwaitAutoConfirm(reservation) =>
             RunStatus(m, call, Reserving) && m.reservationId == Some(reservation) && m.mode != RequireConfirmation
           case AwaitConfirm(reservation) =>
             m.status in {RequiresConfirmation, Completed, Failed, Cancelled} && m.reservationId == Some(reservation)
           case AwaitCancel(reservation) =>
             m.status in {RequiresConfirmation, Completed, Failed, Cancelled} && m.reservationId == Some(reservation)
         }
  }

  ghost predicate RunStatus(m: Mission, call: Call, manual: Status) {
    if call.driver.DuePass? then call.processing && m.status == Processing
    else !call.processing && m.status == manual
  }

  ghost predicate MissionQuiet(m: Mission, book: ProviderBook) {
    && LegalTrail(m.trail)
    && (m.status == RequiresConfirmation ==> Held(m.id, book, m.resolvedProviderId, m.reservationId))
    && (m.status == Completed ==>
          Logged(m.log, MissionSearchCompleted) || Settled(book, m.resolvedProviderId, m.reservationId))
  }

  ghost predicate QuietCalls(w: World)
    requires w.HasStored()
  {
    && (forall c :: c in w.calls ==> QuietCall(w.StoredMission(), w.stored, w.calls[c]))
    && (forall c, d :: c in w.calls && d in w.calls && c != d ==> !IsRunCall(w.calls[c]) || !IsRunCall(w.calls[d]))
    && (forall c :: c in w.calls && w.calls[c].stage.At? && w.calls[c].stage.await.AwaitAutoConfirm? ==>
          Held(w.StoredMission().id, w.book, Some(w.calls[c].provider), Some(w.calls[c].stage.await.reservation)))
  }

  ghost predicate QuietOk(w: World) {
    WorldOk(w) && BookOk(w.StoredMission().id, w.book) && MissionQuiet(w.StoredMission(), w.book) && QuietCalls(w)
  }

  // ------------------------------------------------------- which calls are live

  /** The call of a run is the only call. */
  lemma RunIsAlone(w: World, c: nat)
    requires QuietOk(w) && c in w.calls && IsRunCall(w.calls[c])
    ensures w.calls == map[c := w.calls[c]]
  {
    forall d | d in w.calls
      ensures d == c
    {
      assert QuietCall(w.StoredMission(), w.stored, w.calls[d]);
      assert QuietCall(w.StoredMission(), w.stored, w.calls[c]);
    }
  }

  /** In these situations no call is alive. */
  lemma NoCalls(w: World)
    requires QuietOk(w)
    requires
      || Plannable(w.StoredMission().status)
      || (w.StoredMission().status == Failed && !Settling(w))
      || (w.StoredMission().status == Processing && !HasDueCall(w))
    ensures w.calls == map[]
  {
    if w.calls != map[] {
      var c :| c in w.calls;
      LiveCallStatus(w, c);
      assert false;
    }
  }

  lemma LiveCallStatus(w: World, c: nat)
    requires QuietOk(w) && c in w.calls
    ensures !Plannable(w.StoredMission().status)
    ensures w.StoredMission().status == Failed ==> Settling(w)
    ensures w.StoredMission().status == Processing ==> HasDueCall(w)
  {
    hide EntryOk, MissionOk, BookOk, MissionQuiet;
    assert QuietCall(w.StoredMission(), w.stored, w.calls[c]);
    assert CallOk(w, w.calls[c]);
    if w.StoredMission().status == Failed {
      assert WaitsForConfirm(w, c) || WaitsForCancel(w, c);
    }
  }

  // ------------------------------------------------------ the end of a segment

  /** What a segment leaves on the mission, seen from the provider's book. */
  ghost predicate EndQuiet(m: Mission, book: ProviderBook) {
    && (m.status == RequiresConfirmation ==> Held(m.id, book, m.resolvedProviderId, m.reservationId))
    && (m.status == Completed ==>
          Logged(m.log, MissionSearchCompleted) || Settled(book, m.resolvedProviderId, m.reservationId))
  }

  ghost predicate SegmentQuiet(w: World, call: Call, s: Segment)
    requires w.HasStored()
  {
    && SegmentKeeps(w.StoredEntry(), s) && DueShape(call, s)
    && EndQuiet(s.entry.mission, w.book)
    && (s.Raised? && call.driver.DuePass? ==> s.entry.mission.status == Processing)
    && (s.Suspended? ==>
          && QuietCall(s.entry.mission, w.stored, call.(stage := At(s.at), provider := s.provider))
          && (s.at.AwaitAutoConfirm? ==> Held(s.entry.mission.id, w.book, Some(s.provider), Some(s.at.reservation))))
  }

  lemma FinalQuiet(w: World, call: Call, s: Segment, st: Stamps)
    requires WorldOk(w) && LegalTrail(w.StoredMission().trail) && SegmentQuiet(w, call, s)
    requires call.driver.DuePass? ==>
               w.StoredMission().executionAttempts >= 1 && NotPast(w.StoredMission().expiresAt, call.driver.now)
    ensures MissionQuiet(Final(w, call, s, st).mission, w.book)
    ensures Final(w, call, s, st).mission.id == w.StoredMission().id
  {
    hide ObjectsOk, CallsOk, LogOk, LedgerOk, LedgerGrows, AfterDueReturn, AfterDueRaise, Held, Settled, QuietCall, LegalTrail, VersionStep;
    var e := w.StoredEntry();
    SegmentLegal(e, s);
    if call.driver.DuePass? && s.Returned? {
      AfterDueReturnOk(s.entry, call.driver.now, w.policy, st);
      var (r, verdict) := AfterDueReturn(s.entry, call.driver.now, w.policy, st);
      VerdictQuiet(s.entry, call.driver.now, r, verdict, w.book);
      RetriedLegal(s.entry, r);
    } else if call.driver.DuePass? && s.Raised? {
      AfterDueRaiseOk(s.entry, s.error, call.driver.now, w.policy, st);
      AfterDueRaiseLegal(s.entry, s.error, call.driver.now, w.policy, st);
      var (r, verdict) := AfterDueRaise(s.entry, s.error, call.driver.now, w.policy, st);
      VerdictQuiet(s.entry, call.driver.now, r, verdict, w.book);
    }
  }

  lemma SegmentLegal(e: Entry, s: Segment)
    requires EntryOk(e) && LegalTrail(e.mission.trail) && SegmentKeeps(e, s)
    ensures LegalTrail(s.entry.mission.trail) && EntryOk(s.entry)
  {
    ExtendsLegal(e.mission, s.entry.mission);
  }

  lemma VerdictQuiet(e: Entry, now: Time, r: Entry, verdict: Verdict, book: ProviderBook)
    requires VerdictKeeps(e, now, r, verdict) && EndQuiet(e.mission, book)
    ensures EndQuiet(r.mission, book) && EntryOk(r) && r.mission.id == e.mission.id
  {
  }

  lemma ConcludeQuiet(w: World, c: nat, call: Call, s: Segment, st: Stamps)
    requires WorldOk(w) && BookOk(w.StoredMission().id, w.book) && LegalTrail(w.StoredMission().trail)
    requires w.calls.Keys <= {c}
    requires call.ref == w.stored && CallOk(w, call.(stage := At(AwaitSearch))) && SegmentQuiet(w, call, s)
    ensures QuietOk(Conclude(w, c, call, s, st))
  {
    hide EntryOk, MissionOk, ObjectsOk, CallsOk, SegmentKeeps, Conclude, MissionQuiet, BookOk;
    hide AfterDueReturn, AfterDueRaise, Evolves, LegalTrail, VersionStep;
    ConcludeOk(w, c, call, s, st);
    FinalQuiet(w, call, s, st);
    ConcludeIs(w, c, call, s, st);
  }

  // ------------------------------------------------------------ steps of a run

  lemma SearchReplyQuiet(w: World, step: Step)
    requires QuietOk(w) && CanStep(w, step) && step.SearchReply?
    ensures QuietOk(Next(w, step))
  {
    hide EntryOk, ObjectsOk, SegmentKeeps, Conclude, AfterSearch, BookOk, LegalTrail, Held, Settled;
    var call := w.calls[step.call];
    RunIsAlone(w, step.call);
    assert CallOk(w, call) && QuietCall(w.StoredMission(), w.stored, call);
    AfterSearchOk(w.StoredEntry(), call.processing, call.provider, step.search, step.st);
    var s := AfterSearch(w.StoredEntry(), call.processing, call.provider, step.search, step.st);
    SegmentIds(w.StoredEntry(), s);
    ConcludeQuiet(w, step.call, call, s, step.st);
  }

  lemma SegmentIds(e: Entry, s: Segment)
    requires SegmentKeeps(e, s)
    ensures s.entry.mission.id == e.mission.id && s.entry.mission.mode == e.mission.mode
    ensures SearchOnlyEnd(s.entry.mission) && s.entry.mission.log != [] ==> Logged(s.entry.mission.log, MissionSearchCompleted)
    ensures s.entry.mission.status == Completed && e.mission.status != Completed ==> s.entry.mission.log != []
  {
    if SearchOnlyEnd(s.entry.mission) && s.entry.mission.log != [] {
      assert s.entry.mission.log[|s.entry.mission.log| - 1].kind == MissionSearchCompleted;
    }
  }

  lemma ReserveReplyQuiet(w: World, step: Step)
    requires QuietOk(w) && CanStep(w, step) && step.ReserveReply?
    ensures QuietOk(Next(w, step))
  {
    hide EntryOk, ObjectsOk, SegmentKeeps, Conclude, AfterReserve, BookOk, LegalTrail, Reserve;
    var call := w.calls[step.call];
    RunIsAlone(w, step.call);
    assert CallOk(w, call) && QuietCall(w.StoredMission(), w.stored, call);
    var id := w.StoredMission().id;
    ReserveKeepsBook(id, w.book, call.provider, step.fate);
    var (book, answer) := Reserve(w.book, call.provider, ReservationKey(id), step.fate);
    BookIrrelevant(w, book);
    AfterReserveOk(w.StoredEntry(), call.provider, answer, step.st);
    var s := AfterReserve(w.StoredEntry(), call.provider, answer, step.st);
    BookedQuiet(w.(book := book), call, answer, s);
    ConcludeQuiet(w.(book := book), step.call, call, s, step.st);
  }

  lemma BookedQuiet(w: World, call: Call, answer: ReserveAnswer, s: Segment)
    requires w.HasStored() && SegmentKeeps(w.StoredEntry(), s) && QuietCall(w.StoredMission(), w.stored, call)
    requires call.stage == At(AwaitReserve)
    requires answer.Reserved? ==>
               && Held(w.StoredMission().id, w.book, Some(call.provider), Some(answer.reservation))
               && (!answer.needsConfirmation ==> Settled(w.book, Some(call.provider), Some(answer.reservation)))
    requires s.Raised? ==> s.entry.mission.status == w.StoredMission().status
    requires s.Returned? ==>
               || s.entry.mission.status == Failed
               || (answer.Reserved? && s.entry.mission.reservationId == Some(answer.reservation)
                   && s.entry.mission.resolvedProviderId == w.StoredMission().resolvedProviderId
                   && if w.StoredMission().mode == RequireConfirmation then s.entry.mission.status == RequiresConfirmation
                      else s.entry.mission.status == Completed && !answer.needsConfirmation)
    requires s.Suspended? ==>
               && answer.Reserved? && w.StoredMission().mode != RequireConfirmation
               && s.at == AwaitAutoConfirm(answer.reservation) && s.provider == call.provider
               && s.entry.mission.status == w.StoredMission().status
               && s.entry.mission.resolvedProviderId == w.StoredMission().resolvedProviderId
               && s.entry.mission.reservationId == Some(answer.reservation)
    ensures SegmentQuiet(w, call, s)
  {
    hide Held, Settled;
    SegmentIds(w.StoredEntry(), s);
  }

  lemma ConfirmKeepsBook(id: MissionId, book: ProviderBook, provider: ProviderId, reservation: ReservationId, fate: ConfirmFate)
    requires BookOk(id, book)
    ensures var after := Confirm(book, provider, reservation, fate);
            BookOk(id, after) && after.reservations == book.reservations && book.settled <= after.settled
            && (fate.answer.Accepted? ==> (provider, reservation) in after.settled)
  {
  }

  lemma AutoConfirmReplyQuiet(w: World, step: Step)
    requires QuietOk(w) && CanStep(w, step) && step.AutoConfirmReply?
    ensures QuietOk(Next(w, step))
  {
    hide EntryOk, ObjectsOk, SegmentKeeps, Conclude, AfterAutoConfirm, BookOk, LegalTrail, Confirm;
    var call := w.calls[step.call];
    var reservation := call.stage.await.reservation;
    RunIsAlone(w, step.call);
    assert CallOk(w, call) && QuietCall(w.StoredMission(), w.stored, call);
    ConfirmKeepsBook(w.StoredMission().id, w.book, call.provider, reservation, step.confirm);
    var book := Confirm(w.book, call.provider, reservation, step.confirm);
    BookIrrelevant(w, book);
    AfterAutoConfirmOk(w.StoredEntry(), step.confirm.answer, step.st);
    var s := AfterAutoConfirm(w.StoredEntry(), step.confirm.answer, step.st);
    SegmentIds(w.StoredEntry(), s);
    ConcludeQuiet(w.(book := book), step.call, call, s, step.st);
  }

  lemma StartDueQuiet(w: World, step: Step)
    requires QuietOk(w) && CanStep(w, step) && step.StartDue?
    ensures QuietOk(Next(w, step))
  {
    hide EntryOk, ObjectsOk, SegmentKeeps, Conclude, StartRun, BookOk, LegalTrail;
    var e := w.StoredEntry();
    RunIsAlone(w, step.call);
    assert CallOk(w, w.calls[step.call]) && QuietCall(w.StoredMission(), w.stored, w.calls[step.call]);
    var call := w.calls[step.call].(ref := w.stored, processing := e.mission.status == Processing);
    StartRunOk(e, call.driver.now, true, step.resolution, step.participantsFound, step.st);
    var s := StartRun(e, call.driver.now, true, step.resolution, step.participantsFound, step.st);
    SegmentIds(e, s);
    ConcludeQuiet(w, step.call, call, s, step.st);
  }

  // ----------------------------------------------- steps when no call is alive

  /** A new entry for the stored mission while no call is alive, in a status that needs no reservation. */
  lemma ReplaceQuiet(w: World, after: World)
    requires QuietOk(w) && WorldOk(after) && w.calls == map[] && after.calls == map[] && after.book == w.book
    requires Extends(w.StoredMission(), after.StoredMission()) && after.StoredMission().id == w.StoredMission().id
    requires after.StoredMission().status != RequiresConfirmation && after.StoredMission().status != Completed
    ensures QuietOk(after)
  {
    ExtendsLegal(w.StoredMission(), after.StoredMission());
  }

  lemma ServeQuiet(w: World, r: Result<Entry, Error>)
    requires QuietOk(w)
    requires r.Success? && r.value != w.StoredEntry() ==>
               && w.calls == map[] && ServiceKeeps(w.StoredEntry(), r.value)
               && r.value.mission.status != RequiresConfirmation && r.value.mission.status != Completed
    ensures QuietOk(Serve(w, r))
  {
    hide EntryOk, ObjectsOk, CallsOk, BookOk, MissionQuiet, QuietCalls, Replaces;
    if r.Success? {
      if r.value == w.StoredEntry() {
        assert w.WithStored(r.value) == w;
      } else {
        ServiceReplaces(w.StoredEntry(), r.value);
        WithStoredOk(w, r.value);
        ReplaceQuiet(w, w.WithStored(r.value));
      }
    }
  }

  lemma ServiceQuiet(w: World, step: Step)
    requires QuietOk(w) && CanStep(w, step) && Permits(Undisturbed, w, step)
    requires step.RetryRequest? || step.ScheduleRequest? || step.PauseRequest? || step.ResumeRequest? || step.UpdateRequest?
    ensures QuietOk(Next(w, step))
  {
    hide EntryOk, MissionOk, ServiceKeeps, ObjectsOk, CallsOk, BookOk, MissionQuiet, QuietCalls, Serve;
    var e := w.StoredEntry();
    if Plannable(w.StoredMission().status) || (step.RetryRequest? && w.StoredMission().status == Failed) {
      NoCalls(w);
    }
    match step
    case RetryRequest(retryAt, now, st) =>
      RetryOk(e, retryAt, now, st);
      ServeQuiet(w, RetryMission(e, retryAt, now, st));
    case ScheduleRequest(at, now, st) =>
      ScheduleOk(e, at, now, st);
      ServeQuiet(w, ScheduleMission(e, at, now, st));
    case PauseRequest(st) =>
      PauseOk(e, st);
      ServeQuiet(w, PauseMission(e, st));
    case ResumeRequest(st) =>
      ResumeOk(e, st);
      ServeQuiet(w, ResumeMission(e, st));
    case UpdateRequest(changes, modeSupport, st) =>
      UpdateOk(e, changes, modeSupport, st);
      ServeQuiet(w, UpdateMission(e, changes, modeSupport, st));
  }

  lemma ExpireDueQuiet(w: World, step: Step)
    requires QuietOk(w) && CanStep(w, step) && step.ExpireDue?
    ensures QuietOk(Next(w, step))
  {
    hide EntryOk, MissionOk, ObjectsOk, CallsOk, BookOk, MissionQuiet, QuietCalls, Evolves, SegmentKeeps, Expire, VersionStep, LedgerGrows;
    var e := w.StoredEntry();
    NoCalls(w);
    RepositoryStepOk(w, step);
    ExpireOk(e, step.now, step.st);
    SegmentExtends(e, Raised(e.(mission := Expire(e.mission, step.now, step.st)), NotReady));
    ReplaceQuiet(w, Next(w, step));
  }

  lemma RecoverStaleQuiet(w: World, step: Step)
    requires QuietOk(w) && CanStep(w, step) && step.RecoverStale? && !HasDueCall(w)
    ensures QuietOk(Next(w, step))
  {
    hide EntryOk, MissionOk, ObjectsOk, CallsOk, BookOk, MissionQuiet, QuietCalls, Evolves, ServiceKeeps, Recover, VersionStep, LedgerGrows;
    var e := w.StoredEntry();
    NoCalls(w);
    RepositoryStepOk(w, step);
    RecoverOk(e, step.now, step.st);
    ServiceExtends(e, Recover(e, step.now, step.st));
    ReplaceQuiet(w, Next(w, step));
  }

  lemma SegmentExtends(e: Entry, s: Segment)
    requires SegmentKeeps(e, s)
    ensures Extends(e.mission, s.entry.mission) && s.entry.mission.id == e.mission.id
  {
  }

  lemma ServiceExtends(e: Entry, r: Entry)
    requires ServiceKeeps(e, r)
    ensures Extends(e.mission, r.mission) && r.mission.id == e.mission.id
  {
  }

  lemma ClaimDueQuiet(w: World, step: Step)
    requires QuietOk(w) && CanStep(w, step) && step.ClaimDue?
    ensures QuietOk(Next(w, step))
  {
    hide EntryOk, MissionOk, ObjectsOk, CallsOk, BookOk, LegalTrail, LedgerGrows;
    NoCalls(w);
    ClaimDueOk(w, step);
    ClaimOk(w.StoredEntry(), step.now);
    var r := Claim(w.StoredEntry(), step.now);
    EntryTrail(w.StoredEntry());
    EntryTrail(r);
    ExtendsLegal(w.StoredMission(), r.mission);
  }

  lemma EntryTrail(e: Entry)
    requires EntryOk(e)
    ensures TrailOk(e.mission)
  {
  }

  lemma SelectRequestQuiet(w: World, step: Step)
    requires QuietOk(w) && CanStep(w, step) && step.SelectRequest?
    ensures QuietOk(Next(w, step))
  {
    hide EntryOk, MissionOk, ObjectsOk, CallsOk, BookOk, MissionQuiet, QuietCalls, ServiceKeeps, Evolves;
    var e := w.StoredEntry();
    SelectOk(e, step.choice, step.support, step.now, step.st);
    match SelectProvider(e, step.choice, step.support, step.now, step.st)
    case Success(Some(copy)) =>
      NoCalls(w);
      SelectRequestOk(w, step);
      ServiceExtends(e, copy);
      ReplaceQuiet(w, Next(w, step));
    case Success(None) =>
    case Failure(_) =>
  }

  /** A manual run starts only on a mission without live calls. */
  lemma StartManualQuiet(w: World, step: Step)
    requires QuietOk(w) && CanStep(w, step) && step.StartManual?
    ensures QuietOk(Next(w, step))
  {
    hide EntryOk, MissionOk, ObjectsOk, SegmentKeeps, Conclude, StartRun, BookOk, LegalTrail;
    var e := w.StoredEntry();
    var call := Call(Api, InLine, w.stored, false, 0);
    if e.mission.status == Created || e.mission.status == Waiting {
      NoCalls(w);
      StartRunOk(e, step.now, false, step.resolution, step.participantsFound, step.st);
      var s := StartRun(e, step.now, false, step.resolution, step.participantsFound, step.st);
      SegmentIds(e, s);
      StartRunEnds(e, step.now, step.resolution, step.participantsFound, step.st);
      ConcludeQuiet(w, step.call, call, s, step.st);
    } else {
      StartRunRefuses(e, step.now, step.resolution, step.participantsFound, step.st);
      RefusedCall(w, step.call, call, InvalidRun, step.st);
    }
  }

  lemma StartRunEnds(e: Entry, now: Time, resolution: Resolution, participantsFound: bool, st: Stamps)
    requires e.mission.status == Created || e.mission.status == Waiting
    ensures var s := StartRun(e, now, false, resolution, participantsFound, st);
            s.entry.mission.status != RequiresConfirmation && s.entry.mission.status != Completed
  {
    hide DrawEventId, UpdateLedger;
  }

  lemma StartRunRefuses(e: Entry, now: Time, resolution: Resolution, participantsFound: bool, st: Stamps)
    requires e.mission.status != Created && e.mission.status != Waiting
    ensures StartRun(e, now, false, resolution, participantsFound, st) == Raised(e, InvalidRun)
  {
  }

  /** A refused request leaves the world as it was. */
  lemma RefusedCall(w: World, c: nat, call: Call, error: Error, st: Stamps)
    requires w.HasStored() && c !in w.calls && call.ref == w.stored && call.driver.Api?
    ensures Conclude(w, c, call, Raised(w.StoredEntry(), error), st) == w
  {
  }

  // ------------------------------------------------ confirmation and cancellation

  /** A request or reply of the user's while every live call waits for such a reply. */
  lemma SettleQuiet(w: World, c: nat, call: Call, s: Segment, st: Stamps)
    requires QuietOk(w) && call.ref == w.stored && call.driver.Api?
    requires w.StoredMission().status in {RequiresConfirmation, Completed, Failed, Cancelled}
    requires SegmentKeeps(w.StoredEntry(), s) && SameBooking(w.StoredMission(), s.entry.mission)
    requires s.entry.mission.status in {RequiresConfirmation, Completed, Failed, Cancelled}
    requires EndQuiet(s.entry.mission, w.book)
    requires s.Suspended? ==>
               && (s.at.AwaitConfirm? || s.at.AwaitCancel?)
               && s.entry.mission.resolvedProviderId == Some(s.provider)
               && s.entry.mission.reservationId == Some(s.at.reservation)
    ensures QuietOk(Conclude(w, c, call, s, st))
  {
    hide EntryOk, MissionOk, ObjectsOk, CallsOk, SegmentKeeps, Conclude, BookOk, Evolves, LegalTrail, Held, Settled, VersionStep;
    ConcludeOk(w, c, call, s, st);
    ConcludeIs(w, c, call, s, st);
    SegmentLegal(w.StoredEntry(), s);
    SegmentIds(w.StoredEntry(), s);
    var after := Conclude(w, c, call, s, st);
    forall d | d in after.calls
      ensures QuietCall(after.StoredMission(), after.stored, after.calls[d]) && !IsRunCall(after.calls[d])
    {
      if d in w.calls && after.calls[d] == w.calls[d] {
        assert QuietCall(w.StoredMission(), w.stored, w.calls[d]);
      }
    }
  }

  lemma ConfirmReplyQuiet(w: World, step: Step)
    requires QuietOk(w) && CanStep(w, step) && step.ConfirmReply?
    ensures QuietOk(Next(w, step))
  {
    hide EntryOk, MissionOk, ObjectsOk, SegmentKeeps, Conclude, AfterConfirm, BookOk, LegalTrail, Confirm, Held;
    var call := w.calls[step.call];
    var reservation := call.stage.await.reservation;
    assert CallOk(w, call) && QuietCall(w.StoredMission(), w.stored, call);
    ConfirmKeepsBook(w.StoredMission().id, w.book, call.provider, reservation, step.confirm);
    var book := Confirm(w.book, call.provider, reservation, step.confirm);
    BookGrowsQuiet(w, book);
    AfterConfirmOk(w.StoredEntry(), step.confirm.answer, step.st);
    var s := AfterConfirm(w.StoredEntry(), step.confirm.answer, step.st);
    SegmentIds(w.StoredEntry(), s);
    SegmentLogs(w.StoredEntry(), s);
    SameHeld(w.StoredMission().id, w.book, book);
    SettleQuiet(w.(book := book), step.call, call, s, step.st);
  }

  lemma SameHeld(id: MissionId, book: ProviderBook, after: ProviderBook)
    requires after.reservations == book.reservations
    ensures forall p, r {:trigger Held(id, after, p, r)} :: Held(id, book, p, r) <==> Held(id, after, p, r)
  {
  }

  lemma SegmentLogs(e: Entry, s: Segment)
    requires SegmentKeeps(e, s)
    ensures Logged(e.mission.log, MissionSearchCompleted) ==> Logged(s.entry.mission.log, MissionSearchCompleted)
  {
    if Logged(e.mission.log, MissionSearchCompleted) {
      var i :| 0 <= i < |e.mission.log| && e.mission.log[i].kind == MissionSearchCompleted;
      assert s.entry.mission.log[i] == e.mission.log[i];
    }
  }

  lemma BookGrowsQuiet(w: World, book: ProviderBook)
    requires QuietOk(w) && BookOk(w.StoredMission().id, book)
    requires book.reservations == w.book.reservations && w.book.settled <= book.settled
    ensures QuietOk(w.(book := book))
  {
    hide EntryOk, MissionOk, ObjectsOk, CallsOk, BookOk, LegalTrail;
    BookIrrelevant(w, book);
  }

  lemma CancelReplyQuiet(w: World, step: Step)
    requires QuietOk(w) && CanStep(w, step) && step.CancelReply?
    ensures QuietOk(Next(w, step))
  {
    hide EntryOk, MissionOk, ObjectsOk, SegmentKeeps, Conclude, AfterCancel, BookOk, LegalTrail, Held;
    var call := w.calls[step.call];
    assert CallOk(w, call) && QuietCall(w.StoredMission(), w.stored, call);
    AfterCancelOk(w.StoredEntry(), step.answer, step.st);
    var s := AfterCancel(w.StoredEntry(), step.answer, step.st);
    SegmentIds(w.StoredEntry(), s);
    SegmentLogs(w.StoredEntry(), s);
    SettleQuiet(w, step.call, call, s, step.st);
  }

  lemma ConfirmRequestQuiet(w: World, step: Step)
    requires QuietOk(w) && CanStep(w, step) && step.ConfirmRequest?
    ensures QuietOk(Next(w, step))
  {
    hide EntryOk, MissionOk, ObjectsOk, CallsOk, SegmentKeeps, Conclude, StartConfirm, BookOk, LegalTrail, Held;
    var e := w.StoredEntry();
    var call := Call(Api, InLine, w.stored, false, 0);
    StartConfirmOk(e, step.providerKnown, step.st);
    var s := StartConfirm(e, step.providerKnown, step.st);
    SegmentIds(e, s);
    if s.Suspended? {
      SettleQuiet(w, step.call, call, s, step.st);
    } else {
      RefusedCall(w, step.call, call, s.error, step.st);
    }
  }

  lemma CancelRequestQuiet(w: World, step: Step)
    requires QuietOk(w) && CanStep(w, step) && step.CancelRequest?
    ensures QuietOk(Next(w, step))
  {
    hide EntryOk, MissionOk, ObjectsOk, SegmentKeeps, Conclude, StartCancel, BookOk, LegalTrail, Held;
    var e := w.StoredEntry();
    var call := Call(Api, InLine, w.stored, false, 0);
    StartCancelOk(e, step.providerKnown, step.st);
    var s := StartCancel(e, step.providerKnown, step.st);
    SegmentIds(e, s);
    match s
    case Suspended(_, _, _) => SettleQuiet(w, step.call, call, s, step.st);
    case Returned(_) =>
      NoCalls(w);
      ConcludeQuiet(w, step.call, call, s, step.st);
    case Raised(_, error) => RefusedCall(w, step.call, call, error, step.st);
  }

  lemma AbandonQuiet(w: World, step: Step)
    requires QuietOk(w) && CanStep(w, step) && step.Abandon?
    ensures QuietOk(Next(w, step))
  {
    hide EntryOk, MissionOk, ObjectsOk, CallsOk, BookOk, MissionQuiet;
    DropCallOk(w, step.call);
  }

  // ---------------------------------------------------------------- whole runs

  lemma StepQuiet(w: World, step: Step)
    requires QuietOk(w) && CanStep(w, step) && Permits(Undisturbed, w, step)
    ensures QuietOk(Next(w, step))
  {
    hide QuietOk, Next;
    match step
    case SearchReply(_, _, _) => SearchReplyQuiet(w, step);
    case ReserveReply(_, _, _) => ReserveReplyQuiet(w, step);
    case AutoConfirmReply(_, _, _) => AutoConfirmReplyQuiet(w, step);
    case ConfirmReply(_, _, _) => ConfirmReplyQuiet(w, step);
    case CancelReply(_, _, _) => CancelReplyQuiet(w, step);
    case StartDue(_, _, _, _) => StartDueQuiet(w, step);
    case StartManual(_, _, _, _, _) => StartManualQuiet(w, step);
    case ConfirmRequest(_, _, _) => ConfirmRequestQuiet(w, step);
    case CancelRequest(_, _, _) => CancelRequestQuiet(w, step);
    case RetryRequest(_, _, _) => ServiceQuiet(w, step);
    case ScheduleRequest(_, _, _) => ServiceQuiet(w, step);
    case PauseRequest(_) => ServiceQuiet(w, step);
    case ResumeRequest(_) => ServiceQuiet(w, step);
    case UpdateRequest(_, _, _) => ServiceQuiet(w, step);
    case ClaimDue(_, _) => ClaimDueQuiet(w, step);
    case ExpireDue(_, _) => ExpireDueQuiet(w, step);
    case RecoverStale(_, _, _) => RecoverStaleQuiet(w, step);
    case Abandon(_) => AbandonQuiet(w, step);
    case SelectRequest(_, _, _, _) => SelectRequestQuiet(w, step);
  }

  lemma InitialQuiet(w: World)
    requires Initial(w)
    ensures QuietOk(w)
  {
    InitialOk(w);
  }

  lemma {:induction false} RunQuiet(run: seq<World>, n: nat)
    requires IsRun(Undisturbed, run) && n < |run|
    ensures QuietOk(run[n])
  {
    hide QuietOk;
    if n == 0 {
      InitialQuiet(run[0]);
    } else {
      RunQuiet(run, n - 1);
      FollowsQuiet(run[n - 1], run[n]);
    }
  }

  lemma FollowsQuiet(w: World, after: World)
    requires QuietOk(w) && Follows(Undisturbed, w, after)
    ensures QuietOk(after) && Follows(NoStaleCopy, w, after)
  {
    hide QuietOk, Next;
    var step :| CanStep(w, step) && Permits(Undisturbed, w, step) && after == Next(w, step);
    StepQuiet(w, step);
    if step.CancelReply? {
      QuietHoldsStored(w, step.call);
    }
  }

  lemma QuietHoldsStored(w: World, c: nat)
    requires QuietOk(w) && c in w.calls && w.calls[c].stage.At?
    ensures w.calls[c].ref == w.stored
  {
    hide EntryOk, ObjectsOk, CallsOk, BookOk, MissionQuiet;
    assert QuietCall(w.StoredMission(), w.stored, w.calls[c]);
  }

  /** In an undisturbed run every call holds the stored object, so no cancellation stores another one. */
  lemma UndisturbedRunsAreLedgerRuns(run: seq<World>)
    requires IsRun(Undisturbed, run)
    ensures IsRun(NoStaleCopy, run)
  {
    hide QuietOk;
    forall i | 0 < i < |run|
      ensures Follows(NoStaleCopy, run[i - 1], run[i])
    {
      RunQuiet(run, i - 1);
      FollowsQuiet(run[i - 1], run[i]);
    }
  }

  /** Every status a mission ever had follows from the one before it by the table, a claim, a retry or a recovery. */
  lemma StatusChangesAreLegal(run: seq<World>, i: nat, j: nat)
    requires IsRun(Undisturbed, run) && i <= j < |run|
    ensures run[i].HasStored() && run[j].HasStored()
    ensures run[i].StoredMission().trail <= run[j].StoredMission().trail
    ensures LegalTrail(run[j].StoredMission().trail)
    ensures run[j].StoredMission().trail != []
    ensures run[j].StoredMission().trail[|run[j].StoredMission().trail| - 1].status == run[j].StoredMission().status
  {
    hide IsRun, LegalTrail;
    RunQuiet(run, j);
    QuietTrail(run[j]);
    UndisturbedRunsAreLedgerRuns(run);
    RunEvolves(run, i, j);
    EvolvesTrail(run[i], run[j]);
  }

  lemma QuietTrail(w: World)
    requires QuietOk(w)
    ensures w.HasStored() && var m := w.StoredMission();
            LegalTrail(m.trail) && m.trail != [] && m.trail[|m.trail| - 1].status == m.status
  {
    hide LedgerOk, LogOk, LegalTrail, QuietCalls, BookOk, CallsOk;
  }

  lemma EvolvesTrail(w: World, after: World)
    requires Evolves(w, after)
    ensures w.HasStored() && after.HasStored() && w.StoredMission().trail <= after.StoredMission().trail
  {
    hide VersionStep, LedgerGrows;
  }

  lemma FinalStatusIsLast(trail: seq<Visit>, k: nat)
    requires LegalTrail(trail) && k < |trail| && trail[k].status in {Completed, Cancelled, Expired}
    ensures k == |trail| - 1
  {
    forall i | 0 <= i < |trail| - 1
      ensures trail[i].status !in {Completed, Cancelled, Expired}
    {
      assert LegalVisit(trail[i + 1 - 1].status, trail[i + 1]);
    }
  }

  /** Completed, cancelled and expired are final. */
  lemma TerminalStatusIsFinal(run: seq<World>, i: nat, j: nat)
    requires IsRun(Undisturbed, run) && i <= j < |run|
    requires run[i].HasStored() && run[i].StoredMission().status in {Completed, Cancelled, Expired}
    ensures run[j].HasStored() && run[j].StoredMission().status == run[i].StoredMission().status
  {
    StatusChangesAreLegal(run, i, i);
    StatusChangesAreLegal(run, i, j);
    var early, late := run[i].StoredMission().trail, run[j].StoredMission().trail;
    assert late[|early| - 1] == early[|early| - 1];
    FinalStatusIsLast(late, |early| - 1);
  }

  /** A failed mission leaves that status only by a retry, and a processing one waits again only by recovery. */
  lemma LeavingFailedAndProcessing(run: seq<World>, n: nat, k: nat)
    requires IsRun(Undisturbed, run) && n < |run| && run[n].HasStored()
    requires 0 < k < |run[n].StoredMission().trail|
    ensures var trail := run[n].StoredMission().trail;
            && (trail[k - 1].status == Failed ==> trail[k] == Visit(Waiting, ByRetry))
            && (trail[k - 1].status == Processing && trail[k].status == Waiting ==> trail[k].cause == ByRecovery)
  {
    StatusChangesAreLegal(run, n, n);
    assert LegalVisit(run[n].StoredMission().trail[k - 1].status, run[n].StoredMission().trail[k]);
  }

  // ------------------------------------------------------- reservation safety

  /** A mission that waits for the user's confirmation records the provider and the reservation that provider holds for it. */
  lemma WaitingForUserHasReservation(run: seq<World>, n: nat)
    requires IsRun(Undisturbed, run) && n < |run| && run[n].HasStored()
    requires run[n].StoredMission().status == RequiresConfirmation
    ensures var m := run[n].StoredMission(); Held(m.id, run[n].book, m.resolvedProviderId, m.reservationId)
  {
    RunQuiet(run, n);
  }

  /** A completed mission either only searched, or its reservation was confirmed by its provider or needed no confirmation. */
  lemma CompletionIsSettled(run: seq<World>, n: nat)
    requires IsRun(Undisturbed, run) && n < |run| && run[n].HasStored()
    requires run[n].StoredMission().status == Completed
    ensures var m := run[n].StoredMission();
            Logged(m.log, MissionSearchCompleted) || Settled(run[n].book, m.resolvedProviderId, m.reservationId)
  {
    RunQuiet(run, n);
  }

  /** A run asks the provider to confirm only for missions that do not require the user's confirmation. */
  lemma NeverConfirmsByItself(run: seq<World>, n: nat, c: nat)
    requires IsRun(Undisturbed, run) && n < |run| && WaitsForAutoConfirm(run[n], c)
    ensures run[n].StoredMission().mode != RequireConfirmation
  {
    RunQuiet(run, n);
    assert QuietCall(run[n].StoredMission(), run[n].stored, run[n].calls[c]);
  }
}
