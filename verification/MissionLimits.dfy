/**
 Where the guarantees of MissionSafety and MissionLifecycle end: concrete runs that break them when their
 conditions are dropped, and the exact condition under which a late cancellation is harmless.
 */
module MissionLimits {
  import opened Backoff
  import opened Wrappers
  import opened MissionDomain
  import opened MissionSteps
  import opened MissionInvariants
  import opened MissionWorld
  import opened MissionSafety
  import opened MissionLifecycle
  import opened MissionExactness
  import opened MissionForks
  import R = ProviderRegistry

  /**
   In every run that has not yet stored an old copy: the reply to a cancellation keeps the ledger in order exactly when
   the call still holds the stored object, or was not accepted, or the object it holds counts the same attempts and
   none is open.
   */
  lemma LateCancelExactly(run: seq<World>, n: nat, step: Step)
    requires IsRun(NoStaleCopy, run) && n < |run| && CanStep(run[n], step) && step.CancelReply?
    ensures var w, after, held := run[n], Next(run[n], step), run[n].calls[step.call].ref;
            && after.HasStored()
            && (LedgerOk(after.StoredEntry())
                <==> held == w.stored || !step.answer.Accepted?
                     || (w.objects[held].executionAttempts == w.StoredMission().executionAttempts
                         && w.StoredMission().status != Processing))
  {
    hide IsRun, WorldOk, CallOk, Next;
    RunOk(run, n);
    CancellingCall(run[n], step.call);
    CancelKeepsLedger(run[n], step);
  }

  lemma CancelKeepsLedger(w: World, step: Step)
    requires w.HasStored() && EntryOk(w.StoredEntry()) && ObjectsOk(w)
    requires CanStep(w, step) && step.CancelReply? && w.calls[step.call].driver.Api?
    ensures Next(w, step).HasStored()
    ensures var held := w.calls[step.call].ref;
            LedgerOk(Next(w, step).StoredEntry())
            <==> held == w.stored || !step.answer.Accepted?
                 || (w.objects[held].executionAttempts == w.StoredMission().executionAttempts
                     && w.StoredMission().status != Processing)
  {
    hide MissionOk, LogOk, Numbered;
    var call := w.calls[step.call];
    var e := EntryOf(w, call.ref);
    if call.ref == w.stored {
      AfterCancelOk(e, step.answer, step.st);
      SegmentLedger(e, AfterCancel(e, step.answer, step.st));
    } else {
      IdleCancel(e, step.answer, step.st);
    }
  }

  lemma SegmentLedger(e: Entry, s: Segment)
    requires SegmentKeeps(e, s)
    ensures LedgerOk(s.entry)
  {
  }

  /** The unchecked failure mark of the due pass obeys the table exactly when the mission is still processing. */
  lemma MarkFailedExactly(e: Entry, st: Stamps)
    requires EntryOk(e) && LegalTrail(e.mission.trail)
    ensures LegalTrail(MarkFailed(e, st).mission.trail) <==> e.mission.status == Processing
  {
    hide LogOk, LedgerOk;
    if e.mission.status == Processing {
      MarkFailedLegal(e, st);
    } else {
      var n := |e.mission.trail|;
      var trail := MarkFailed(e, st).mission.trail;
      assert trail[n - 1] == e.mission.trail[n - 1] && trail[n] == Visit(Failed, ByMarkFailed);
      assert !LegalVisit(trail[n - 1].status, trail[n]);
    }
  }

  /** A mission put before the user has its provider recorded exactly when it was still recorded as the reservation answer came. */
  lemma ConfirmationRecordedExactly(e: Entry, provider: ProviderId, answer: ReserveAnswer, st: Stamps)
    requires EntryOk(e) && AfterReserve(e, provider, answer, st).Returned?
    requires AfterReserve(e, provider, answer, st).entry.mission.status == RequiresConfirmation
    ensures NeedsProvider(AfterReserve(e, provider, answer, st).entry.mission) == Some(true)
            <==> e.mission.resolvedProviderId.Some?
  {
    hide EntryOk, SegmentKeeps, AfterReserve;
    AfterReserveOk(e, provider, answer, st);
  }

  // --------------------------------------------------------- pieces of example runs

  const ST: Stamps := (k: nat) => Stamp(k, 10)

  /** One adapter, which also purchases automatically. */
  const REGISTRY: seq<R.Adapter<ProviderId>> := [R.Adapter(7, {R.Capability(true)})]

  /** Whatever the mode, it answers with this adapter, by itself or as the chosen one. */
  lemma RegistryAnswers(m: Mission)
    ensures m.providerId == None || m.providerId == Some(7) ==> ResolutionOf(REGISTRY, m) == Resolved(7)
    ensures m.resolvedProviderId == Some(7) ==> Known(REGISTRY, m)
    ensures forall mode :: SupportOf(REGISTRY, Some(7), mode) == Supported && SupportOf(REGISTRY, None, mode) == Supported
  {
    var one := REGISTRY[0];
    assert REGISTRY[1..] == [] && R.Capability(true) in one.capabilities;
    assert R.Supporting(REGISTRY, Some(m.mode)) == [7];
    assert R.Find(REGISTRY, 7) == Some(one);
  }

  /** What the examples need to know of a mission and its ledger. */
  ghost predicate EntryFacts(e: Entry, status: Status, resolved: Option<ProviderId>, reservation: Option<ReservationId>, claims: nat) {
    var m := e.mission;
    && m.id == 1 && m.status == status && m.resolvedProviderId == resolved && m.reservationId == reservation
    && m.executionAttempts == claims && |e.attempts| == claims
    && (LastIsOpen(e.attempts) <==> status == Processing)
    && m.mode == RequireConfirmation && m.maxExecutionAttempts == 9
    && (m.providerId == None || m.providerId == Some(7))
    && m.expiresAt == None && m.scheduledAt.Some? && m.scheduledAt.value <= 10
    && (status == Processing ==> m.claimedAt.Some?)
    && m.trail != [] && m.trail[|m.trail| - 1].status == status
  }

  ghost predicate Facts(w: World, status: Status, resolved: Option<ProviderId>, reservation: Option<ReservationId>, claims: nat) {
    w.HasStored() && w.registry == REGISTRY && EntryFacts(w.StoredEntry(), status, resolved, reservation, claims)
  }

  lemma FactsMean(w: World, status: Status, resolved: Option<ProviderId>, reservation: Option<ReservationId>, claims: nat)
    requires Facts(w, status, resolved, reservation, claims)
    ensures w.StoredMission().status == status && w.StoredMission().resolvedProviderId == resolved
    ensures w.StoredMission().executionAttempts == claims && w.StoredMission().reservationId == reservation
    ensures w.StoredMission().id == 1
    ensures ResolutionOf(w.registry, w.StoredMission()) == Resolved(7)
    ensures resolved == Some(7) ==> Known(w.registry, w.StoredMission())
  {
    RegistryAnswers(w.StoredMission());
  }

  function Start(): World {
    World(
      [Mission(1, "", 0, RequireConfirmation, None, None, None, None, Waiting, Some(0), None, None, 0, 9, 0, [], [Visit(Waiting, Creation)])],
      0, [], map[], ProviderBook(map[], [], {}), DEFAULT_RETRY_POLICY, REGISTRY)
  }

  lemma StartFacts()
    ensures Initial(Start()) && Facts(Start(), Waiting, None, None, 0)
  {
  }

  /** A run extended by one permitted step. */
  lemma Extend(d: Discipline, run: seq<World>, step: Step)
    requires IsRun(d, run) && CanStep(run[|run| - 1], step) && Permits(d, run[|run| - 1], step)
    ensures IsRun(d, run + [Next(run[|run| - 1], step)])
  {
    var longer := run + [Next(run[|run| - 1], step)];
    forall i | 0 < i < |longer|
      ensures Follows(d, longer[i - 1], longer[i])
    {
      if i < |run| {
        assert longer[i] == run[i] && longer[i - 1] == run[i - 1];
      }
    }
  }

  function WaitAt(ref: nat, driver: Driver, at: Await, processing: bool, provider: ProviderId): Call {
    Call(driver, At(at), ref, processing, provider)
  }

  /** A step that touched only the stored object and the calls. */
  ghost predicate Local(w: World, after: World) {
    && w.HasStored() && after.HasStored()
    && after.stored == w.stored && after.book == w.book && after.registry == w.registry
    && after.objects == w.objects[w.stored := after.objects[w.stored]]
  }

  // what each segment does to the entry

  lemma StartEntry(e: Entry, now: Time, resolved: Option<ProviderId>, claims: nat)
    requires EntryFacts(e, Processing, resolved, None, claims)
    ensures var s := StartRun(e, now, true, Resolved(7), true, ST);
            s.Suspended? && s.at == AwaitSearch && s.provider == 7
            && EntryFacts(s.entry, Processing, Some(7), None, claims)
  {
    hide DrawEventId;
  }

  lemma FoundEntry(e: Entry, claims: nat)
    requires EntryFacts(e, Processing, Some(7), None, claims)
    ensures var s := AfterSearch(e, true, 7, Found(1, Some(0)), ST);
            && s.Suspended? && s.at == AwaitReserve && s.provider == 7 && EntryFacts(s.entry, Processing, Some(7), None, claims)
            && s.entry.mission.claimedAt == e.mission.claimedAt
  {
    hide DrawEventId;
  }

  lemma BookEntry(e: Entry, resolved: Option<ProviderId>, claims: nat)
    requires EntryFacts(e, Processing, resolved, None, claims)
    ensures var s := AfterReserve(e, 7, Reserved(5, true), ST);
            s.Returned? && s.entry.mission.status == RequiresConfirmation
            && EntryFacts(s.entry, RequiresConfirmation, resolved, Some(5), claims)
  {
    hide DrawEventId;
  }

  lemma CancelEntry(e: Entry, claims: nat)
    requires EntryFacts(e, RequiresConfirmation, Some(7), Some(5), claims)
    ensures var s := StartCancel(e, true, ST);
            s.Suspended? && s.at == AwaitCancel(5) && s.provider == 7
            && EntryFacts(s.entry, RequiresConfirmation, Some(7), Some(5), claims)
  {
    hide DrawEventId;
  }

  lemma ConfirmEntry(e: Entry, claims: nat)
    requires EntryFacts(e, RequiresConfirmation, Some(7), Some(5), claims)
    ensures var s := StartConfirm(e, true, ST);
            s.Suspended? && s.at == AwaitConfirm(5) && s.provider == 7
            && EntryFacts(s.entry, RequiresConfirmation, Some(7), Some(5), claims)
  {
    hide DrawEventId;
  }

  lemma FailEntry(e: Entry, status: Status, reservation: Option<ReservationId>, claims: nat)
    requires EntryFacts(e, status, Some(7), reservation, claims) && status in {RequiresConfirmation, Processing, Reserving}
    ensures var s := AfterConfirm(e, CallFailed(true), ST);
            s.Returned? && EntryFacts(s.entry, Failed, Some(7), reservation, claims)
    ensures AfterCancel(e, CallFailed(true), ST) == AfterConfirm(e, CallFailed(true), ST)
  {
    hide DrawEventId;
  }

  lemma RetryEntry(e: Entry, resolved: Option<ProviderId>, reservation: Option<ReservationId>, claims: nat)
    requires EntryFacts(e, Failed, resolved, reservation, claims) && claims < 9
    ensures var r := RetryMission(e, None, 10, ST);
            r.Success? && EntryFacts(r.value, Waiting, None, None, claims)
  {
    hide DrawEventId;
  }

  lemma SelectEntry(e: Entry, choice: Option<ProviderId>, claims: nat)
    requires EntryFacts(e, Waiting, None, None, claims) && choice != e.mission.providerId && (choice == None || choice == Some(7))
    ensures var r := SelectProvider(e, choice, Supported, 10, ST);
            r.Success? && r.value.Some? && EntryFacts(r.value.value, Waiting, None, None, claims)
  {
    hide DrawEventId;
  }

  lemma ManualEntry(e: Entry, resolved: Option<ProviderId>, claims: nat)
    requires EntryFacts(e, Waiting, resolved, None, claims)
    ensures var s := StartRun(e, 10, false, Resolved(7), true, ST);
            s.Suspended? && s.at == AwaitSearch && s.provider == 7
            && EntryFacts(s.entry, Searching, Some(7), None, claims)
  {
    hide DrawEventId;
  }

  lemma SearchFailsEntry(e: Entry, claims: nat)
    requires EntryFacts(e, Searching, Some(7), None, claims)
    ensures var s := AfterSearch(e, false, 7, SearchFailed(true), ST);
            s.Returned? && EntryFacts(s.entry, Failed, Some(7), None, claims)
  {
    hide DrawEventId;
  }

  // how a segment of the call that holds the stored object ends

  lemma SuspendedAt(w: World, c: nat, call: Call, s: Segment, st: Stamps)
    requires w.HasStored() && call.ref == w.stored && s.Suspended?
    ensures var after := Conclude(w, c, call, s, st);
            && after.HasStored() && after.StoredEntry() == s.entry && Local(w, after)
            && after.calls == w.calls[c := call.(stage := At(s.at), provider := s.provider)]
  {
    hide AfterDueReturn, AfterDueRaise;
  }

  lemma ReturnedTo(w: World, c: nat, call: Call, s: Segment, st: Stamps)
    requires w.HasStored() && call.ref == w.stored && s.Returned?
    requires call.driver.DuePass? ==> s.entry.mission.status == RequiresConfirmation
    ensures var after := Conclude(w, c, call, s, st);
            && after.HasStored() && after.StoredEntry() == s.entry && Local(w, after)
            && after.calls == w.calls - {c}
  {
    hide AfterDueRaise;
    var saved := w.(objects := w.objects[call.ref := s.entry.mission], attempts := s.entry.attempts, calls := w.calls - {c});
    assert saved.StoredEntry() == s.entry;
    assert w.objects[w.stored := s.entry.mission][w.stored := s.entry.mission] == w.objects[w.stored := s.entry.mission];
  }

  lemma DoClaim(w: World, c: nat, resolved: Option<ProviderId>, claims: nat)
    requires Facts(w, Waiting, resolved, None, claims) && claims < 9 && c !in w.calls
    ensures CanStep(w, ClaimDue(c, 10))
    ensures var after := Next(w, ClaimDue(c, 10));
            Facts(after, Processing, resolved, None, claims + 1) && Local(w, after)
            && after.calls == w.calls[c := Call(DuePass(10), InLine, w.stored, false, 0)]
  {
  }

  /** The first claim of the examples comes earlier, so that it may get stale. */
  lemma DoFirstClaim()
    ensures CanStep(Start(), ClaimDue(0, 0))
    ensures var after := Next(Start(), ClaimDue(0, 0));
            Facts(after, Processing, None, None, 1) && Local(Start(), after)
            && after.calls == map[0 := Call(DuePass(0), InLine, 0, false, 0)]
            && after.StoredMission().claimedAt == Some(0)
  {
  }

  lemma DoStartDue(w: World, c: nat, now: Time, resolved: Option<ProviderId>, claims: nat)
    requires Facts(w, Processing, resolved, None, claims)
    requires c in w.calls && w.calls[c] == Call(DuePass(now), InLine, w.stored, false, 0)
    ensures var step := StartDue(c, Resolved(7), true, ST);
            CanStep(w, step) && Answers(w, step)
            && var after := Next(w, step);
               Facts(after, Processing, Some(7), None, claims) && Local(w, after)
               && after.StoredMission().claimedAt == w.StoredMission().claimedAt
               && after.calls == w.calls[c := WaitAt(w.stored, DuePass(now), AwaitSearch, true, 7)]
  {
    StartEntry(w.StoredEntry(), now, resolved, claims);
    StartKeepsClaim(w.StoredEntry(), now);
    FactsMean(w, Processing, resolved, None, claims);
    hide EntryFacts, StartRun, ResolutionOf;
    var s := StartRun(w.StoredEntry(), now, true, Resolved(7), true, ST);
    SuspendedAt(w, c, Call(DuePass(now), InLine, w.stored, true, 0), s, ST);
  }

  lemma StartKeepsClaim(e: Entry, now: Time)
    requires e.mission.status == Processing
    ensures StartRun(e, now, true, Resolved(7), true, ST).entry.mission.claimedAt == e.mission.claimedAt
  {
    hide DrawEventId;
  }

  lemma DoFound(w: World, c: nat, now: Time, claims: nat)
    requires Facts(w, Processing, Some(7), None, claims)
    requires c in w.calls && w.calls[c] == WaitAt(w.stored, DuePass(now), AwaitSearch, true, 7)
    ensures var step := SearchReply(c, Found(1, Some(0)), ST);
            CanStep(w, step)
            && var after := Next(w, step);
               Facts(after, Processing, Some(7), None, claims) && Local(w, after)
               && after.StoredMission().claimedAt == w.StoredMission().claimedAt
               && after.calls == w.calls[c := WaitAt(w.stored, DuePass(now), AwaitReserve, true, 7)]
  {
    FoundEntry(w.StoredEntry(), claims);
    hide EntryFacts, AfterSearch, Conclude;
    SuspendedAt(w, c, w.calls[c], AfterSearch(w.StoredEntry(), true, 7, Found(1, Some(0)), ST), ST);
  }

  /** The reservation succeeds: the mission waits for the user. */
  lemma DoBook(w: World, c: nat, now: Time, resolved: Option<ProviderId>, claims: nat)
    requires Facts(w, Processing, resolved, None, claims)
    requires c in w.calls && w.calls[c] == WaitAt(w.stored, DuePass(now), AwaitReserve, true, 7)
    requires w.book.reservations == map[]
    ensures var step := ReserveReply(c, Books(Booking(5, true)), ST);
            CanStep(w, step)
            && var after := Next(w, step);
               Facts(after, RequiresConfirmation, resolved, Some(5), claims) && after.stored == w.stored
               && |after.objects| == |w.objects| && after.calls == w.calls - {c}
               && after.book.reservations == map[(7, ReservationKey(1)) := Booking(5, true)] && after.book.settled == w.book.settled
  {
    BookEntry(w.StoredEntry(), resolved, claims);
    hide EntryFacts, AfterReserve, AfterDueRaise;
    FactsMean(w, Processing, resolved, None, claims);
    var key := ReservationKey(1);
    assert Reserve(w.book, 7, key, Books(Booking(5, true))).1 == Reserved(5, true);
    assert Reserve(w.book, 7, key, Books(Booking(5, true))).0.reservations == map[(7, key) := Booking(5, true)];
    BookAfterReply(w, ReserveReply(c, Books(Booking(5, true)), ST));
    hide Reserve;
    var book := Reserve(w.book, 7, key, Books(Booking(5, true))).0;
    ReturnedTo(w.(book := book), c, w.calls[c], AfterReserve(w.StoredEntry(), 7, Reserved(5, true), ST), ST);
  }

  lemma DoCancelRequest(w: World, c: nat, claims: nat)
    requires Facts(w, RequiresConfirmation, Some(7), Some(5), claims) && c !in w.calls
    ensures var step := CancelRequest(c, true, ST);
            CanStep(w, step) && Answers(w, step)
            && var after := Next(w, step);
               Facts(after, RequiresConfirmation, Some(7), Some(5), claims) && Local(w, after)
               && after.calls == w.calls[c := WaitAt(w.stored, Api, AwaitCancel(5), false, 7)]
  {
    CancelEntry(w.StoredEntry(), claims);
    FactsMean(w, RequiresConfirmation, Some(7), Some(5), claims);
    hide EntryFacts, Known, StartCancel, Conclude;
    SuspendedAt(w, c, Call(Api, InLine, w.stored, false, 0), StartCancel(w.StoredEntry(), true, ST), ST);
  }

  lemma DoCancelFails(w: World, c: nat, claims: nat)
    requires Facts(w, RequiresConfirmation, Some(7), Some(5), claims)
    requires c in w.calls && w.calls[c] == WaitAt(w.stored, Api, AwaitCancel(5), false, 7)
    ensures var step := CancelReply(c, CallFailed(true), ST);
            CanStep(w, step)
            && var after := Next(w, step);
               Facts(after, Failed, Some(7), Some(5), claims) && Local(w, after) && after.calls == w.calls - {c}
  {
    FailEntry(w.StoredEntry(), RequiresConfirmation, Some(5), claims);
    hide EntryFacts, AfterCancel, Conclude;
    ReturnedTo(w, c, w.calls[c], AfterCancel(w.StoredEntry(), CallFailed(true), ST), ST);
  }

  lemma DoConfirmRequest(w: World, c: nat, claims: nat)
    requires Facts(w, RequiresConfirmation, Some(7), Some(5), claims) && c !in w.calls
    ensures var step := ConfirmRequest(c, true, ST);
            CanStep(w, step) && Answers(w, step)
            && var after := Next(w, step);
               Facts(after, RequiresConfirmation, Some(7), Some(5), claims) && Local(w, after)
               && after.calls == w.calls[c := WaitAt(w.stored, Api, AwaitConfirm(5), false, 7)]
  {
    ConfirmEntry(w.StoredEntry(), claims);
    FactsMean(w, RequiresConfirmation, Some(7), Some(5), claims);
    hide EntryFacts, Known, StartConfirm, Conclude;
    SuspendedAt(w, c, Call(Api, InLine, w.stored, false, 0), StartConfirm(w.StoredEntry(), true, ST), ST);
  }

  lemma DoConfirmFails(w: World, c: nat, status: Status, reservation: Option<ReservationId>, claims: nat)
    requires Facts(w, status, Some(7), reservation, claims) && status in {RequiresConfirmation, Processing, Reserving}
    requires c in w.calls && w.calls[c] == WaitAt(w.stored, Api, AwaitConfirm(5), false, 7)
    ensures var step := ConfirmReply(c, ConfirmFate(CallFailed(true), false), ST);
            CanStep(w, step)
            && var after := Next(w, step);
               Facts(after, Failed, Some(7), reservation, claims) && Local(w, after) && after.calls == w.calls - {c}
  {
    FailEntry(w.StoredEntry(), status, reservation, claims);
    hide EntryFacts, AfterConfirm, Conclude;
    ReturnedTo(w, c, w.calls[c], AfterConfirm(w.StoredEntry(), CallFailed(true), ST), ST);
  }

  lemma DoRetry(w: World, resolved: Option<ProviderId>, reservation: Option<ReservationId>, claims: nat)
    requires Facts(w, Failed, resolved, reservation, claims) && claims < 9
    ensures var step := RetryRequest(None, 10, ST);
            CanStep(w, step)
            && var after := Next(w, step);
               Facts(after, Waiting, None, None, claims) && Local(w, after) && after.calls == w.calls
  {
    RetryEntry(w.StoredEntry(), resolved, reservation, claims);
    hide EntryFacts, RetryMission;
  }

  lemma DoSelect(w: World, choice: Option<ProviderId>, claims: nat)
    requires Facts(w, Waiting, None, None, claims)
    requires choice != w.StoredMission().providerId && (choice == None || choice == Some(7))
    ensures var step := SelectRequest(choice, Supported, 10, ST);
            CanStep(w, step) && Answers(w, step)
            && var after := Next(w, step);
               Facts(after, Waiting, None, None, claims) && after.calls == w.calls
               && after.stored == |w.objects| && after.objects[..|w.objects|] == w.objects && |after.objects| == |w.objects| + 1
  {
    SelectEntry(w.StoredEntry(), choice, claims);
    RegistryAnswers(w.StoredMission());
    SelectIs(w, SelectRequest(choice, Supported, 10, ST));
    hide EntryFacts, SelectProvider, SupportOf, Next;
  }

  lemma SelectIs(w: World, step: Step)
    requires CanStep(w, step) && step.SelectRequest?
    ensures match SelectProvider(w.StoredEntry(), step.choice, step.support, step.now, step.st) {
              case Success(Some(copy)) =>
                Next(w, step) == w.(objects := w.objects + [copy.mission], stored := |w.objects|, attempts := copy.attempts)
              case _ => true
            }
  {
    hide SelectProvider;
  }

  lemma DoRecover(w: World, resolved: Option<ProviderId>, claims: nat)
    requires Facts(w, Processing, resolved, None, claims) && claims < 9 && w.StoredMission().claimedAt == Some(0)
    ensures var step := RecoverStale(10, 1, ST);
            CanStep(w, step)
            && var after := Next(w, step);
               Facts(after, Waiting, resolved, None, claims) && Local(w, after) && after.calls == w.calls
  {
    hide DrawEventId;
  }

  lemma DoManualStart(w: World, c: nat, resolved: Option<ProviderId>, claims: nat)
    requires Facts(w, Waiting, resolved, None, claims) && c !in w.calls
    ensures var step := StartManual(c, 10, Resolved(7), true, ST);
            CanStep(w, step) && Answers(w, step)
            && var after := Next(w, step);
               Facts(after, Searching, Some(7), None, claims) && Local(w, after)
               && after.calls == w.calls[c := WaitAt(w.stored, Api, AwaitSearch, false, 7)]
  {
    ManualEntry(w.StoredEntry(), resolved, claims);
    FactsMean(w, Waiting, resolved, None, claims);
    StartManualIs(w, StartManual(c, 10, Resolved(7), true, ST));
    hide EntryFacts, StartRun, Conclude, ResolutionOf, Next;
    SuspendedAt(w, c, Call(Api, InLine, w.stored, false, 0),
                StartRun(w.StoredEntry(), 10, false, Resolved(7), true, ST), ST);
  }

  lemma StartManualIs(w: World, step: Step)
    requires CanStep(w, step) && step.StartManual?
    ensures Next(w, step) ==
            Conclude(w, step.call, Call(Api, InLine, w.stored, false, 0),
                     StartRun(w.StoredEntry(), step.now, false, step.resolution, step.participantsFound, step.st), step.st)
  {
  }

  lemma DoManualSearchFails(w: World, c: nat, claims: nat)
    requires Facts(w, Searching, Some(7), None, claims)
    requires c in w.calls && w.calls[c] == WaitAt(w.stored, Api, AwaitSearch, false, 7)
    ensures var step := SearchReply(c, SearchFailed(true), ST);
            CanStep(w, step)
            && var after := Next(w, step);
               Facts(after, Failed, Some(7), None, claims) && Local(w, after) && after.calls == w.calls - {c}
  {
    SearchFailsEntry(w.StoredEntry(), claims);
    hide EntryFacts, AfterSearch, Conclude;
    ReturnedTo(w, c, w.calls[c], AfterSearch(w.StoredEntry(), false, 7, SearchFailed(true), ST), ST);
  }

  /** The search of a due run crashes after the mission left `processing`. */
  lemma DoCrash(w: World, c: nat, now: Time, status: Status, claims: nat)
    requires Facts(w, status, Some(7), None, claims) && status in {Waiting, Failed}
    requires c in w.calls && w.calls[c] == WaitAt(w.stored, DuePass(now), AwaitSearch, true, 7)
    ensures var step := SearchReply(c, SearchCrashed(false), ST);
            CanStep(w, step) && Next(w, step).HasStored() && !LegalTrail(Next(w, step).StoredMission().trail)
  {
    hide DrawEventId;
    var before := w.StoredMission().trail;
    var trail := Next(w, SearchReply(c, SearchCrashed(false), ST)).StoredMission().trail;
    assert trail == before + [Visit(Failed, ByMarkFailed)];
    assert !LegalVisit(trail[|before| - 1].status, trail[|before|]);
  }

  /** A run that reaches the user's confirmation with one claim. */
  lemma UpToConfirmation() returns (run: seq<World>)
    ensures IsRun(Undisturbed, run) && AllNewest(run)
    ensures var w := run[|run| - 1];
            && Facts(w, RequiresConfirmation, Some(7), Some(5), 1) && w.calls == map[] && w.stored == 0 && |w.objects| == 1
            && w.book.reservations == map[(7, ReservationKey(1)) := Booking(5, true)] && w.book.settled == {}
  {
    hide Next, CanStep, EntryFacts;
    run := UpToReservation();
    var w := run[|run| - 1];
    DoBook(w, 0, 0, Some(7), 1);
    Extend(Undisturbed, run, ReserveReply(0, Books(Booking(5, true)), ST));
    NewestSoFar(run, Next(w, ReserveReply(0, Books(Booking(5, true)), ST)));
    run := run + [Next(w, ReserveReply(0, Books(Booking(5, true)), ST))];
  }

  lemma UpToReservation() returns (run: seq<World>)
    ensures IsRun(Undisturbed, run) && AllNewest(run)
    ensures var w := run[|run| - 1];
            && Facts(w, Processing, Some(7), None, 1) && w.StoredMission().claimedAt == Some(0)
            && w.stored == 0 && |w.objects| == 1 && w.book == ProviderBook(map[], [], {})
            && w.calls == map[0 := WaitAt(0, DuePass(0), AwaitReserve, true, 7)]
  {
    hide Next, CanStep, EntryFacts;
    run := UpToSearch();
    var w := run[|run| - 1];
    DoFound(w, 0, 0, 1);
    Extend(Undisturbed, run, SearchReply(0, Found(1, Some(0)), ST));
    NewestSoFar(run, Next(w, SearchReply(0, Found(1, Some(0)), ST)));
    run := run + [Next(w, SearchReply(0, Found(1, Some(0)), ST))];
  }

  lemma UpToSearch() returns (run: seq<World>)
    ensures IsRun(Undisturbed, run) && AllNewest(run)
    ensures var w := run[|run| - 1];
            && Facts(w, Processing, Some(7), None, 1) && w.StoredMission().claimedAt == Some(0)
            && w.stored == 0 && |w.objects| == 1 && w.book == ProviderBook(map[], [], {})
            && w.calls == map[0 := WaitAt(0, DuePass(0), AwaitSearch, true, 7)]
  {
    hide Next, CanStep, EntryFacts;
    StartFacts();
    var w0 := Start();
    DoFirstClaim();
    Extend(Undisturbed, [w0], ClaimDue(0, 0));
    var w1 := Next(w0, ClaimDue(0, 0));
    DoStartDue(w1, 0, 0, None, 1);
    Extend(Undisturbed, [w0, w1], StartDue(0, Resolved(7), true, ST));
    run := [w0, w1] + [Next(w1, StartDue(0, Resolved(7), true, ST))];
  }

  /** No old copy has been stored so far. */
  ghost predicate AllNewest(run: seq<World>) {
    forall i :: 0 <= i < |run| ==> NewestStored(run[i])
  }

  lemma NewestSoFar(run: seq<World>, w: World)
    requires AllNewest(run) && NewestStored(w)
    ensures AllNewest(run + [w])
  {
  }

  // ------------------------------------------------------------------ the examples

  /**
   The attempt ledger breaks when a provider choice overtakes a cancellation: two cancellations wait, one
   fails, the mission is retried, given another provider and claimed, then the other cancellation succeeds and
   stores the object it held.  The stored log is lost with it.
   */
  lemma StaleCancelBreaksLedger() returns (run: seq<World>)
    ensures IsRun(AnyOrder, run) && |run| >= 2
    ensures run[|run| - 1].HasStored() && !LedgerOk(run[|run| - 1].StoredEntry())
    ensures run[|run| - 2].HasStored() && !(run[|run| - 2].StoredMission().log <= run[|run| - 1].StoredMission().log)
  {
    hide Next, CanStep, EntryFacts;
    var w: World;
    run, w := TwoCancellations();
    DoCancelFails(w, 2, 1);
    run, w := TakeNewest(run, CancelReply(2, CallFailed(true), ST));
    DoRetry(w, Some(7), Some(5), 1);
    run, w := TakeNewest(run, RetryRequest(None, 10, ST));
    run := StaleCancelEnd(run, w);
  }

  lemma TwoCancellations() returns (run: seq<World>, w: World)
    ensures IsRun(AnyOrder, run) && AllNewest(run) && w == run[|run| - 1]
    ensures Facts(w, RequiresConfirmation, Some(7), Some(5), 1) && w.stored == 0 && |w.objects| == 1
    ensures w.calls == map[1 := WaitAt(0, Api, AwaitCancel(5), false, 7), 2 := WaitAt(0, Api, AwaitCancel(5), false, 7)]
  {
    hide Next, CanStep, EntryFacts;
    run := UpToConfirmation();
    AnyRun(run);
    w := run[|run| - 1];
    DoCancelRequest(w, 1, 1);
    run, w := TakeNewest(run, CancelRequest(1, true, ST));
    DoCancelRequest(w, 2, 1);
    run, w := TakeNewest(run, CancelRequest(2, true, ST));
  }

  lemma StaleCancelEnd(run0: seq<World>, w0: World) returns (run: seq<World>)
    requires IsRun(AnyOrder, run0) && AllNewest(run0) && w0 == run0[|run0| - 1]
    requires Facts(w0, Waiting, None, None, 1) && w0.stored == 0 && |w0.objects| == 1
    requires w0.calls == map[1 := WaitAt(0, Api, AwaitCancel(5), false, 7)]
    ensures IsRun(AnyOrder, run) && |run| >= 2
    ensures run[|run| - 1].HasStored() && !LedgerOk(run[|run| - 1].StoredEntry())
    ensures run[|run| - 2].HasStored() && !(run[|run| - 2].StoredMission().log <= run[|run| - 1].StoredMission().log)
  {
    hide Next, CanStep, EntryFacts, Answers, LedgerOk;
    FactsMean(w0, Waiting, None, None, 1);
    Unasked(ClaimDue(3, 10));
    Unasked(CancelReply(1, Accepted, ST));
    var choice := if w0.StoredMission().providerId == Some(7) then None else Some(7);
    var w: World;
    DoSelect(w0, choice, 1);
    run, w := TakeNewest(run0, SelectRequest(choice, Supported, 10, ST));
    DoClaim(w, 3, None, 1);
    run, w := TakeNewest(run, ClaimDue(3, 10));
    assert w.objects[0] == w0.objects[0];
    DoLateCancel(w);
    LateCancelForksExactly(run, |run| - 1, CancelReply(1, Accepted, ST));
    run, w := Take(run, CancelReply(1, Accepted, ST));
  }

  lemma DoLateCancel(w: World)
    requires Facts(w, Processing, None, None, 2) && w.stored == 1 && |w.objects| == 2
    requires w.objects[0].status == Waiting && w.objects[0].executionAttempts == 1
    requires 1 in w.calls && w.calls[1] == WaitAt(0, Api, AwaitCancel(5), false, 7)
    ensures var step := CancelReply(1, Accepted, ST);
            CanStep(w, step) && Next(w, step).HasStored() && !LedgerOk(Next(w, step).StoredEntry())
  {
    hide DrawEventId;
  }

  lemma AnyRun(run: seq<World>)
    requires IsRun(Undisturbed, run)
    ensures IsRun(AnyOrder, run) && IsRun(NoStaleCopy, run)
  {
    hide Next, CanStep, EntryFacts;
    UndisturbedRunsAreLedgerRuns(run);
    forall i | 0 < i < |run|
      ensures Follows(AnyOrder, run[i - 1], run[i])
    {
      Loosen(run[i - 1], run[i]);
    }
  }

  lemma Loosen(w: World, after: World)
    requires Follows(Undisturbed, w, after)
    ensures Follows(AnyOrder, w, after)
  {
    hide Next, CanStep, EntryFacts;
    var step :| CanStep(w, step) && Permits(Undisturbed, w, step) && after == Next(w, step);
    assert Permits(AnyOrder, w, step);
  }

  /** Steps that ask the registry nothing. */
  lemma Unasked(step: Step)
    requires step.ClaimDue? || step.CancelReply? || step.ReserveReply? || step.SearchReply? || step.RetryRequest?
    ensures forall w :: Answers(w, step)
  {
  }

  lemma Take(run: seq<World>, step: Step) returns (longer: seq<World>, w: World)
    requires IsRun(AnyOrder, run) && CanStep(run[|run| - 1], step) && Answers(run[|run| - 1], step)
    ensures longer == run + [w] && w == Next(run[|run| - 1], step) && IsRun(AnyOrder, longer)
  {
    w := Next(run[|run| - 1], step);
    longer := run + [w];
    Extend(AnyOrder, run, step);
  }

  /** A step that keeps the newest copy stored. */
  lemma TakeNewest(run: seq<World>, step: Step) returns (longer: seq<World>, w: World)
    requires IsRun(AnyOrder, run) && AllNewest(run) && CanStep(run[|run| - 1], step) && Answers(run[|run| - 1], step) && NewestStored(Next(run[|run| - 1], step))
    ensures longer == run + [w] && w == Next(run[|run| - 1], step) && IsRun(AnyOrder, longer) && AllNewest(longer)
  {
    longer, w := Take(run, step);
    NewestSoFar(run, w);
  }

  /** The same without storing an old copy. */
  lemma TakeLedger(run: seq<World>, step: Step) returns (longer: seq<World>, w: World)
    requires IsRun(NoStaleCopy, run) && CanStep(run[|run| - 1], step)
    requires Answers(run[|run| - 1], step) && !StoresOldCopy(run[|run| - 1], step)
    ensures longer == run + [w] && w == Next(run[|run| - 1], step) && IsRun(NoStaleCopy, longer)
  {
    w := Next(run[|run| - 1], step);
    longer := run + [w];
    Extend(NoStaleCopy, run, step);
  }

  /** Recovery of a live run alone makes the due pass fail a waiting mission, which the table does not allow. */
  lemma RecoveryBreaksTable() returns (run: seq<World>)
    ensures IsRun(NoStaleCopy, run)
    ensures run[|run| - 1].HasStored() && !LegalTrail(run[|run| - 1].StoredMission().trail)
  {
    hide Next, CanStep, EntryFacts;
    run := UpToSearch();
    AnyRun(run);
    var w := run[|run| - 1];
    DoRecover(w, Some(7), 1);
    run, w := TakeLedger(run, RecoverStale(10, 1, ST));
    DoCrash(w, 0, 0, Waiting, 1);
    run, w := TakeLedger(run, SearchReply(0, SearchCrashed(false), ST));
  }

  /** So does a retry while a confirmation still waits, without any recovery. */
  lemma RetryUnderConfirmationBreaksTable() returns (run: seq<World>)
    ensures IsRun(NoStaleCopy, run)
    ensures run[|run| - 1].HasStored() && !LegalTrail(run[|run| - 1].StoredMission().trail)
  {
    hide Next, CanStep, EntryFacts;
    var w: World;
    run, w := TwoConfirmations();
    DoConfirmFails(w, 2, RequiresConfirmation, Some(5), 1);
    run, w := TakeLedger(run, ConfirmReply(2, ConfirmFate(CallFailed(true), false), ST));
    DoRetry(w, Some(7), Some(5), 1);
    run, w := TakeLedger(run, RetryRequest(None, 10, ST));
    run := LateConfirmEnd(run, w);
  }

  lemma TwoConfirmations() returns (run: seq<World>, w: World)
    ensures IsRun(NoStaleCopy, run) && w == run[|run| - 1]
    ensures Facts(w, RequiresConfirmation, Some(7), Some(5), 1) && w.stored == 0 && |w.objects| == 1
    ensures w.calls == map[1 := WaitAt(0, Api, AwaitConfirm(5), false, 7), 2 := WaitAt(0, Api, AwaitConfirm(5), false, 7)]
    ensures w.book.reservations == map[(7, ReservationKey(1)) := Booking(5, true)] && w.book.settled == {}
  {
    hide Next, CanStep, EntryFacts;
    run := UpToConfirmation();
    AnyRun(run);
    w := run[|run| - 1];
    DoConfirmRequest(w, 1, 1);
    run, w := TakeLedger(run, ConfirmRequest(1, true, ST));
    DoConfirmRequest(w, 2, 1);
    run, w := TakeLedger(run, ConfirmRequest(2, true, ST));
  }

  lemma LateConfirmEnd(run0: seq<World>, w0: World) returns (run: seq<World>)
    requires IsRun(NoStaleCopy, run0) && w0 == run0[|run0| - 1]
    requires Facts(w0, Waiting, None, None, 1) && w0.stored == 0 && |w0.objects| == 1
    requires w0.calls == map[1 := WaitAt(0, Api, AwaitConfirm(5), false, 7)]
    ensures IsRun(NoStaleCopy, run)
    ensures run[|run| - 1].HasStored() && !LegalTrail(run[|run| - 1].StoredMission().trail)
  {
    hide Next, CanStep, EntryFacts;
    var w: World;
    DoClaim(w0, 3, None, 1);
    run, w := TakeLedger(run0, ClaimDue(3, 10));
    DoStartDue(w, 3, 10, None, 2);
    run, w := TakeLedger(run, StartDue(3, Resolved(7), true, ST));
    DoConfirmFails(w, 1, Processing, None, 2);
    run, w := TakeLedger(run, ConfirmReply(1, ConfirmFate(CallFailed(true), false), ST));
    DoCrash(w, 3, 10, Failed, 2);
    run, w := TakeLedger(run, SearchReply(3, SearchCrashed(false), ST));
  }

  /** A live run is recovered, the mission run by hand and retried, and the reservation of the first run is still to come. */
  lemma RetriedUnderReservation() returns (run: seq<World>, w: World)
    ensures IsRun(NoStaleCopy, run) && w == run[|run| - 1]
    ensures Facts(w, Waiting, None, None, 1) && w.stored == 0 && |w.objects| == 1 && w.book == ProviderBook(map[], [], {})
    ensures w.calls == map[0 := WaitAt(0, DuePass(0), AwaitReserve, true, 7)]
  {
    hide Next, CanStep, EntryFacts;
    run := UpToReservation();
    AnyRun(run);
    w := run[|run| - 1];
    DoRecover(w, Some(7), 1);
    run, w := TakeLedger(run, RecoverStale(10, 1, ST));
    DoManualStart(w, 1, Some(7), 1);
    run, w := TakeLedger(run, StartManual(1, 10, Resolved(7), true, ST));
    DoManualSearchFails(w, 1, 1);
    run, w := TakeLedger(run, SearchReply(1, SearchFailed(true), ST));
    DoRetry(w, Some(7), None, 1);
    run, w := TakeLedger(run, RetryRequest(None, 10, ST));
  }

  /** Recovery of a live run followed by a retry leaves a mission waiting for the user without its provider. */
  lemma RecoveryLosesProvider() returns (run: seq<World>)
    ensures IsRun(NoStaleCopy, run)
    ensures run[|run| - 1].HasStored()
    ensures run[|run| - 1].StoredMission().status == RequiresConfirmation
    ensures run[|run| - 1].StoredMission().resolvedProviderId == None
  {
    hide Next, CanStep, EntryFacts;
    var w: World;
    run, w := RetriedUnderReservation();
    DoClaim(w, 2, None, 1);
    run, w := TakeLedger(run, ClaimDue(2, 10));
    DoBook(w, 0, 0, None, 2);
    run, w := TakeLedger(run, ReserveReply(0, Books(Booking(5, true)), ST));
    FactsMean(w, RequiresConfirmation, None, Some(5), 2);
  }
}
