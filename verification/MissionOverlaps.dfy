/**
 Two more concrete runs that overlap: a due run whose mission is replaced by a cancelled one without attempts lets an
 exception out of its pass, and a late reservation completes a mission whose provider a retry has cleared.
 */
module MissionOverlaps {
  import opened Wrappers
  import opened MissionDomain
  import opened MissionSteps
  import opened MissionInvariants
  import opened MissionWorld
  import opened MissionLifecycle
  import opened MissionExactness
  import opened MissionForks
  import opened MissionLimits
  import opened MissionPass
  import R = ProviderRegistry

  // ------------------------------------------------- more pieces of example runs

  lemma ManualFoundEntry(e: Entry, provider: ProviderId, claims: nat)
    requires EntryFacts(e, Searching, Some(provider), None, claims)
    ensures var s := AfterSearch(e, false, provider, Found(1, Some(0)), ST);
            s.Suspended? && s.at == AwaitReserve && s.provider == provider
            && EntryFacts(s.entry, Reserving, Some(provider), None, claims)
  {
    hide DrawEventId;
  }

  lemma DoManualFound(w: World, c: nat, provider: ProviderId, claims: nat)
    requires Facts(w, Searching, Some(provider), None, claims)
    requires c in w.calls && w.calls[c] == WaitAt(w.stored, Api, AwaitSearch, false, provider)
    ensures var step := SearchReply(c, Found(1, Some(0)), ST);
            CanStep(w, step)
            && var after := Next(w, step);
               Facts(after, Reserving, Some(provider), None, claims) && Local(w, after)
               && after.calls == w.calls[c := WaitAt(w.stored, Api, AwaitReserve, false, provider)]
  {
    ManualFoundEntry(w.StoredEntry(), provider, claims);
    hide EntryFacts, AfterSearch, Conclude;
    SuspendedAt(w, c, w.calls[c], AfterSearch(w.StoredEntry(), false, provider, Found(1, Some(0)), ST), ST);
  }

  lemma ManualBookEntry(e: Entry, provider: ProviderId, reservation: ReservationId, claims: nat)
    requires EntryFacts(e, Reserving, Some(provider), None, claims)
    ensures var s := AfterReserve(e, provider, Reserved(reservation, true), ST);
            s.Returned? && EntryFacts(s.entry, RequiresConfirmation, Some(provider), Some(reservation), claims)
  {
    hide DrawEventId;
  }

  /** A reservation under a new key succeeds: the mission waits for the user. */
  lemma DoManualBook(w: World, c: nat, provider: ProviderId, reservation: ReservationId, claims: nat)
    requires Facts(w, Reserving, Some(provider), None, claims)
    requires c in w.calls && w.calls[c] == WaitAt(w.stored, Api, AwaitReserve, false, provider)
    requires (provider, ReservationKey(1)) !in w.book.reservations
    ensures var step := ReserveReply(c, Books(Booking(reservation, true)), ST);
            CanStep(w, step)
            && var after := Next(w, step);
               Facts(after, RequiresConfirmation, Some(provider), Some(reservation), claims) && after.stored == w.stored
               && |after.objects| == |w.objects| && after.calls == w.calls - {c}
               && after.book.reservations == w.book.reservations[(provider, ReservationKey(1)) := Booking(reservation, true)]
               && after.book.settled == w.book.settled
  {
    ManualBookEntry(w.StoredEntry(), provider, reservation, claims);
    FactsMean(w, Reserving, Some(provider), None, claims);
    hide EntryFacts, AfterReserve, Conclude;
    var (book, answer) := Reserve(w.book, provider, ReservationKey(1), Books(Booking(reservation, true)));
    assert answer == Reserved(reservation, true);
    hide Reserve;
    ReturnedTo(w.(book := book), c, w.calls[c], AfterReserve(w.StoredEntry(), provider, answer, ST), ST);
  }

  // ------------------------------------------------------ an exception leaves the pass

  /** A run by hand reaches the user's confirmation without any claim, and two cancellations wait. */
  lemma UnclaimedCancellations() returns (run: seq<World>, w: World)
    ensures IsRun(NoStaleCopy, run) && w == run[|run| - 1]
    ensures Facts(w, RequiresConfirmation, Some(7), Some(5), 0) && w.stored == 0 && |w.objects| == 1
    ensures w.calls == map[1 := WaitAt(0, Api, AwaitCancel(5), false, 7), 2 := WaitAt(0, Api, AwaitCancel(5), false, 7)]
  {
    hide Next, CanStep, EntryFacts;
    StartFacts();
    run, w := [Start()], Start();
    DoManualStart(w, 0, None, 0);
    run, w := TakeLedger(run, StartManual(0, 10, Resolved(7), true, ST));
    DoManualFound(w, 0, 7, 0);
    run, w := TakeLedger(run, SearchReply(0, Found(1, Some(0)), ST));
    DoManualBook(w, 0, 7, 5, 0);
    run, w := TakeLedger(run, ReserveReply(0, Books(Booking(5, true)), ST));
    DoCancelRequest(w, 1, 0);
    run, w := TakeLedger(run, CancelRequest(1, true, ST));
    DoCancelRequest(w, 2, 0);
    run, w := TakeLedger(run, CancelRequest(2, true, ST));
  }

  /**
   One cancellation fails, the mission is retried, given another provider and claimed; then the other cancellation
   stores the object without attempts, and a transient error of the claimed run finds no attempt to count from.
   */
  lemma StrayExceptionLeavesPass() returns (run: seq<World>, step: Step)
    ensures IsRun(AnyOrder, run) && EndsDueRun(run[|run| - 1], step)
    ensures Filing(run[|run| - 1], step) == Escaped(BadAttemptNumber)
    ensures run[|run| - 1].StoredMission().executionAttempts == 0 < run[|run| - 1].StoredMission().maxExecutionAttempts
  {
    hide Next, CanStep, EntryFacts, EndsDueRun, Filing;
    var w: World;
    run, w := UnclaimedCancellations();
    DoCancelFails(w, 2, 0);
    run, w := TakeLedger(run, CancelReply(2, CallFailed(true), ST));
    DoRetry(w, Some(7), Some(5), 0);
    run, w := TakeLedger(run, RetryRequest(None, 10, ST));
    run, step := StrayEnd(run, w);
  }

  lemma StrayEnd(run0: seq<World>, w0: World) returns (run: seq<World>, step: Step)
    requires IsRun(NoStaleCopy, run0) && w0 == run0[|run0| - 1]
    requires Facts(w0, Waiting, None, None, 0) && w0.stored == 0 && |w0.objects| == 1
    requires w0.calls == map[1 := WaitAt(0, Api, AwaitCancel(5), false, 7)]
    ensures IsRun(AnyOrder, run) && EndsDueRun(run[|run| - 1], step)
    ensures Filing(run[|run| - 1], step) == Escaped(BadAttemptNumber)
    ensures run[|run| - 1].StoredMission().executionAttempts == 0 < run[|run| - 1].StoredMission().maxExecutionAttempts
  {
    hide Next, CanStep, EntryFacts, EndsDueRun, Filing, Answers;
    IdleFacts(w0);
    Unasked(ClaimDue(3, 10));
    Unasked(CancelReply(1, Accepted, ST));
    var choice := if w0.StoredMission().providerId == Some(7) then None else Some(7);
    var w: World;
    DoSelect(w0, choice, 0);
    run, w := TakeLedger(run0, SelectRequest(choice, Supported, 10, ST));
    DoClaim(w, 3, None, 0);
    run, w := TakeLedger(run, ClaimDue(3, 10));
    DoStartDue(w, 3, 10, None, 1);
    run, w := TakeLedger(run, StartDue(3, Resolved(7), true, ST));
    assert w.objects[0] == w0.objects[0];
    DoStrayCancel(w);
    LooseRun(run);
    run, w := Take(run, CancelReply(1, Accepted, ST));
    step := SearchReply(3, SearchCrashed(true), ST);
    StrayCrash(w);
  }

  lemma IdleFacts(w: World)
    requires Facts(w, Waiting, None, None, 0)
    ensures w.StoredMission().status == Waiting && w.StoredMission().executionAttempts == 0
    ensures w.StoredMission().maxExecutionAttempts == 9
  {
  }

  lemma DoStrayCancel(w: World)
    requires w.stored == 1 && |w.objects| == 2
    requires w.objects[0].status == Waiting && w.objects[0].executionAttempts == 0 && w.objects[0].maxExecutionAttempts == 9
    requires 1 in w.calls && w.calls[1] == WaitAt(0, Api, AwaitCancel(5), false, 7)
    requires 3 in w.calls && w.calls[3] == WaitAt(1, DuePass(10), AwaitSearch, true, 7)
    ensures var step := CancelReply(1, Accepted, ST);
            CanStep(w, step)
            && var after := Next(w, step);
               after.stored == 0 && |after.objects| == 2 && 3 in after.calls && after.calls[3] == w.calls[3]
               && after.objects[0].executionAttempts == 0 && after.objects[0].maxExecutionAttempts == 9
  {
    hide DrawEventId, UpdateLedger;
  }

  lemma StrayCrash(w: World)
    requires w.stored == 0 && |w.objects| == 2 && w.objects[0].executionAttempts == 0
    requires 3 in w.calls && w.calls[3] == WaitAt(1, DuePass(10), AwaitSearch, true, 7)
    ensures var step := SearchReply(3, SearchCrashed(true), ST);
            EndsDueRun(w, step) && Filing(w, step) == Escaped(BadAttemptNumber)
  {
    hide MarkFailed;
    MarkedFailed(Entry(w.objects[0], w.attempts), ST);
  }

  // ------------------------------------------------ a completion without its provider

  /** What the rest of that run needs to know once the mode is another one. */
  ghost predicate AutoFacts(w: World, status: Status) {
    && w.HasStored() && w.stored == 0 && |w.objects| == 1 && w.book == ProviderBook(map[], [], {})
    && var m := w.StoredMission();
       && m.id == 1 && m.status == status && m.mode == AutoPurchase && m.resolvedProviderId == None && m.reservationId == None
       && m.expiresAt == None && m.scheduledAt.Some? && m.scheduledAt.value <= 10
       && m.executionAttempts <= 2 && m.maxExecutionAttempts == 9
       && (status == Waiting ==> m.executionAttempts == 1)
  }

  const TO_AUTO := Changes(None, None, Some(AutoPurchase), None)

  lemma DoAutoMode(w: World)
    requires Facts(w, Waiting, None, None, 1) && w.stored == 0 && |w.objects| == 1 && w.book == ProviderBook(map[], [], {})
    ensures var step := UpdateRequest(TO_AUTO, Success(true), ST);
            CanStep(w, step) && Answers(w, step) && AutoFacts(Next(w, step), Waiting) && Next(w, step).calls == w.calls
  {
    hide DrawEventId, UpdateLedger;
    RegistrySupports(w.StoredMission());
  }

  lemma RegistrySupports(m: Mission)
    requires m.providerId == None || m.providerId == Some(7)
    ensures ModeSupport(REGISTRY, m, Some(AutoPurchase)) == Success(true)
  {
    assert R.Find(REGISTRY, 7) == Some(REGISTRY[0]);
    assert R.Capability(true) in REGISTRY[0].capabilities;
  }

  lemma DoAutoClaim(w: World)
    requires AutoFacts(w, Waiting) && 2 !in w.calls
    ensures var step := ClaimDue(2, 10);
            CanStep(w, step) && AutoFacts(Next(w, step), Processing)
            && Next(w, step).calls == w.calls[2 := Call(DuePass(10), InLine, 0, false, 0)]
  {
  }

  lemma AutoBookEntry(e: Entry)
    requires e.mission.status == Processing && e.mission.mode == AutoPurchase && e.mission.resolvedProviderId == None
    ensures var s := AfterReserve(e, 7, Reserved(5, false), ST);
            s.Returned? && s.entry.mission.status == Completed
            && s.entry.mission.resolvedProviderId == None && s.entry.mission.reservationId == Some(5)
  {
    hide DrawEventId, UpdateLedger;
  }

  lemma DoAutoBook(w: World)
    requires AutoFacts(w, Processing)
    requires 0 in w.calls && w.calls[0] == WaitAt(0, DuePass(0), AwaitReserve, true, 7)
    ensures var step := ReserveReply(0, Books(Booking(5, false)), ST);
            CanStep(w, step) && Next(w, step).HasStored()
            && var m := Next(w, step).StoredMission();
               m.status == Completed && m.resolvedProviderId == None && m.reservationId == Some(5)
               && (7, 5) in Next(w, step).book.settled
  {
    var step := ReserveReply(0, Books(Booking(5, false)), ST);
    AutoBookEntry(w.StoredEntry());
    assert Reserve(w.book, 7, ReservationKey(1), Books(Booking(5, false))).1 == Reserved(5, false);
    assert (7, 5) in Reserve(w.book, 7, ReservationKey(1), Books(Booking(5, false))).0.settled;
    hide AfterReserve, Reserve, Next;
    StoredAfterReply(w, step);
    BookAfterReply(w, step);
  }

  /** The reservation of the recovered run needs no confirmation, and the mode asks for none: the mission completes. */
  lemma CompletionLosesProvider() returns (run: seq<World>)
    ensures IsRun(NoStaleCopy, run)
    ensures run[|run| - 1].HasStored() && (7, 5) in run[|run| - 1].book.settled
    ensures var m := run[|run| - 1].StoredMission();
            m.status == Completed && m.resolvedProviderId == None && m.reservationId == Some(5)
  {
    hide Next, CanStep, Answers, EntryFacts, AutoFacts;
    var w: World;
    run, w := RetriedUnderReservation();
    DoAutoMode(w);
    run, w := TakeLedger(run, UpdateRequest(TO_AUTO, Success(true), ST));
    DoAutoClaim(w);
    NoQuestion(w);
    run, w := TakeLedger(run, ClaimDue(2, 10));
    DoAutoBook(w);
    NoQuestion(w);
    run, w := TakeLedger(run, ReserveReply(0, Books(Booking(5, false)), ST));
  }

  lemma NoQuestion(w: World)
    ensures Answers(w, ClaimDue(2, 10)) && Answers(w, ReserveReply(0, Books(Booking(5, false)), ST))
  {
  }
}
