/**
 Waiting and completed missions step by step, over every run: exactly when a reservation answer puts a mission before its
 user that its provider does not back, and that neither a reservation nor a settled pair is lost again.
 */
module MissionSettlement {
  import opened Wrappers
  import opened MissionDomain
  import opened MissionSteps
  import opened MissionInvariants
  import opened MissionWorld
  import opened MissionSafety
  import opened MissionLifecycle
  import opened MissionTraces
  import opened MissionEveryRun
  import opened MissionExactness
  import opened MissionPairs
  import opened MissionBacking
  import R = ProviderRegistry

  // ------------------------------------------------------- waiting for the user

  /** What the recorded provider holds for the object is what the object records. */
  ghost predicate HeldFor(m: Mission, book: ProviderBook) {
    Held(m.id, book, m.resolvedProviderId, m.reservationId)
  }

  /**
   A step that puts an object before the user is a reservation answer for it, and the object is backed exactly when its
   provider was still recorded as the answer came.
   */
  lemma HeldExactly(run: seq<World>, n: nat, step: Step, ref: nat)
    requires IsRun(AnyOrder, run) && n < |run| && CanStep(run[n], step) && Answers(run[n], step)
    requires ref < |Next(run[n], step).objects| && Next(run[n], step).objects[ref].status == RequiresConfirmation
    requires ref < |run[n].objects| ==> run[n].objects[ref].status != RequiresConfirmation
    ensures ref < |run[n].objects| && Rebooks(run[n], step, ref)
    ensures HeldFor(Next(run[n], step).objects[ref], Next(run[n], step).book) <==> run[n].objects[ref].resolvedProviderId.Some?
  {
    hide IsRun, EveryOk, Grounded, Next, CanStep, Answers, Held, Rebooks;
    RunGrounded(run, n);
    GroundedStep(run[n], step);
    WaitingBacked(Next(run[n], step), ref);
    if ref < |run[n].objects| {
      PairMoves(run[n], step, ref);
    } else {
      NewObjectIsBare(run[n], step, ref);
    }
  }

  /** While an object waits for the user, no step makes or breaks what backs it. */
  lemma HeldStays(run: seq<World>, n: nat, step: Step, ref: nat)
    requires IsRun(AnyOrder, run) && n < |run| && CanStep(run[n], step) && Answers(run[n], step) && ref < |run[n].objects|
    requires run[n].objects[ref].status == RequiresConfirmation
    ensures ref < |Next(run[n], step).objects|
    ensures var r := Next(run[n], step).objects[ref];
            r.status == RequiresConfirmation ==>
              (HeldFor(r, Next(run[n], step).book) <==> HeldFor(run[n].objects[ref], run[n].book))
  {
    hide IsRun, EveryOk, Grounded, Next, CanStep, Answers, Held, Rebooks;
    RunGrounded(run, n);
    GroundedStep(run[n], step);
    PairMoves(run[n], step, ref);
    WaitingBacked(run[n], ref);
    if Next(run[n], step).objects[ref].status == RequiresConfirmation {
      WaitingBacked(Next(run[n], step), ref);
    }
  }

  // -- over whole runs

  ghost predicate Backed(w: World) {
    forall i :: 0 <= i < |w.objects| && w.objects[i].status == RequiresConfirmation ==> HeldFor(w.objects[i], w.book)
  }

  /** A reservation answer for an object without a provider, which the mode and the table put before the user. */
  predicate LosesProvider(w: World, step: Step) {
    && CanStep(w, step) && step.ReserveReply? && AnswerOf(w, step).Reserved?
    && var m := w.objects[w.calls[step.call].ref];
       m.resolvedProviderId == None && m.mode == RequireConfirmation && RequiresConfirmation in AllowedTransitions(m.status)
  }

  lemma ReservedStatus(e: Entry, provider: ProviderId, answer: ReserveAnswer, st: Stamps)
    requires answer.Reserved?
    ensures var s := AfterReserve(e, provider, answer, st);
            var moves := e.mission.mode == RequireConfirmation && RequiresConfirmation in AllowedTransitions(e.mission.status);
            && (s.entry.mission.status == RequiresConfirmation ==> moves || e.mission.status == RequiresConfirmation)
            && (moves ==> s.Returned? && s.entry.mission.status == RequiresConfirmation)
  {
    hide Emit, UpdateLedger, ClosingStatus;
    EmitEmits(st);
  }

  /** Where an object comes to wait for the user, the answer was for it, and the mode and the table let it. */
  lemma ReplyStatus(w: World, step: Step)
    requires CanStep(w, step) && step.ReserveReply? && AnswerOf(w, step).Reserved?
    ensures var ref := w.calls[step.call].ref;
            var m := w.objects[ref];
            var moves := m.mode == RequireConfirmation && RequiresConfirmation in AllowedTransitions(m.status);
            && ref < |Next(w, step).objects|
            && (moves ==> Next(w, step).objects[ref].status == RequiresConfirmation)
            && (Next(w, step).objects[ref].status == RequiresConfirmation ==> moves || m.status == RequiresConfirmation)
  {
    hide AfterReserve, Reserve, AfterDueReturn, AfterDueRaise, AllowedTransitions;
    var call, s := w.calls[step.call], ReplySegment(w, step);
    ReservedStatus(EntryOf(w, call.ref), call.provider, AnswerOf(w, step), step.st);
    var seen := if s.Returned? || call.ref == w.stored then s.entry else Entry(w.objects[w.stored], s.entry.attempts);
    if call.driver.DuePass? {
      DueEndPair(seen, if s.Raised? then s.error else NotReady, call.driver.now, w.policy, step.st);
      SucceedsWaiting(seen, call.driver.now, w.policy, step.st);
    }
  }

  lemma SucceedsWaiting(e: Entry, now: Time, policy: ValidPolicy, st: Stamps)
    ensures e.mission.status == RequiresConfirmation ==> AfterDueReturn(e, now, policy, st).0 == e
  {
    hide AutomaticRetry, RecordTerminalFailure;
  }

  /** One step from a world in which all waiting objects are backed. */
  lemma BackedStep(w: World, step: Step)
    requires EveryOk(w) && Grounded(w) && CanStep(w, step) && Answers(w, step) && Backed(w)
    ensures Backed(Next(w, step)) <==> !LosesProvider(w, step)
  {
    hide EveryOk, Grounded, Next, CanStep, Answers, Held, AnswerOf;
    var after := Next(w, step);
    GroundedStep(w, step);
    if step.ReserveReply? && AnswerOf(w, step).Reserved? {
      CallHolds(w, step);
      ReplyStatus(w, step);
      PairMoves(w, step, w.calls[step.call].ref);
      if LosesProvider(w, step) {
        WaitingBacked(after, w.calls[step.call].ref);
      }
    }
    if !LosesProvider(w, step) {
      forall i | 0 <= i < |after.objects| && after.objects[i].status == RequiresConfirmation
        ensures HeldFor(after.objects[i], after.book)
      {
        WaitingBacked(after, i);
        if i < |w.objects| {
          PairMoves(w, step, i);
          if w.objects[i].status == RequiresConfirmation {
            WaitingBacked(w, i);
          }
        } else {
          NewObjectIsBare(w, step, i);
        }
      }
    }
  }

  lemma CallHolds(w: World, step: Step)
    requires CanStep(w, step) && step.ReserveReply?
    ensures step.call in w.calls && w.calls[step.call].ref < |w.objects|
    ensures AnswerOf(w, step).Reserved? ==> Rebooks(w, step, w.calls[step.call].ref)
  {
  }

  ghost predicate LosesProviderBetween(w: World, after: World) {
    forall step :: CanStep(w, step) && Answers(w, step) && after == Next(w, step) ==> LosesProvider(w, step)
  }

  /**
   A run keeps every mission that waits for its user backed by the provider it records exactly when none of its steps is a
   reservation answer that puts a mission before the user whose provider is not recorded any more.
   */
  lemma WaitingMissionsAreBackedExactly(run: seq<World>)
    requires IsRun(AnyOrder, run)
    ensures (forall n :: 0 <= n < |run| ==> Backed(run[n]))
            <==> (forall n :: 0 < n < |run| ==> !LosesProviderBetween(run[n - 1], run[n]))
  {
    hide EveryOk, Grounded, Next, CanStep, Answers, Backed, LosesProvider;
    if forall n :: 0 < n < |run| ==> !LosesProviderBetween(run[n - 1], run[n]) {
      forall n | 0 <= n < |run|
        ensures Backed(run[n])
      {
        BackedSoFar(run, n);
      }
    }
    if forall n :: 0 <= n < |run| ==> Backed(run[n]) {
      forall n | 0 < n < |run|
        ensures !LosesProviderBetween(run[n - 1], run[n])
      {
        RunGrounded(run, n - 1);
        assert Follows(AnyOrder, run[n - 1], run[n]);
        var step :| CanStep(run[n - 1], step) && Permits(AnyOrder, run[n - 1], step) && run[n] == Next(run[n - 1], step);
        BackedStep(run[n - 1], step);
      }
    }
  }

  lemma {:induction false} BackedSoFar(run: seq<World>, n: nat)
    requires IsRun(AnyOrder, run) && n < |run|
    requires forall k :: 0 < k < |run| ==> !LosesProviderBetween(run[k - 1], run[k])
    ensures Backed(run[n])
  {
    hide EveryOk, Grounded, Next, CanStep, Answers, Backed, LosesProvider;
    if n == 0 {
      InitialBacked(run[0]);
    } else {
      BackedSoFar(run, n - 1);
      RunGrounded(run, n - 1);
      assert !LosesProviderBetween(run[n - 1], run[n]);
      var step :| CanStep(run[n - 1], step) && Answers(run[n - 1], step) && run[n] == Next(run[n - 1], step) && !LosesProvider(run[n - 1], step);
      BackedStep(run[n - 1], step);
    }
  }

  lemma InitialBacked(w: World)
    requires Initial(w)
    ensures Backed(w)
  {
  }

  // ------------------------------------------------------------ completed missions

  /** Both halves of the pair will be recorded: the answer brings the reservation, or the object has it. */
  ghost predicate RecordsBoth(w: World, step: Step)
    requires CanStep(w, step) && (step.ReserveReply? || step.AutoConfirmReply? || step.ConfirmReply?)
  {
    var m := w.objects[w.calls[step.call].ref];
    m.resolvedProviderId.Some? && (step.ReserveReply? || m.reservationId.Some?)
  }

  /**
   In every run a reply that completes a mission has settled the pair of its call; the mission then records that pair, and
   the recorded pair is settled, exactly when both halves of it are recorded.
   */
  lemma CompletingStepSettles(run: seq<World>, n: nat, step: Step)
    requires IsRun(AnyOrder, run) && n < |run| && CanStep(run[n], step) && Answers(run[n], step)
    requires step.ReserveReply? || step.AutoConfirmReply? || step.ConfirmReply?
    requires Completes(run[n], step, run[n].calls[step.call].ref)
    ensures var w, after, call := run[n], Next(run[n], step), run[n].calls[step.call];
            && after.HasStored() && after.stored == call.ref && after.StoredMission().status == Completed
            && var r, pair := after.StoredMission(), (Some(call.provider), Some(AboutReply(w, step)));
               && (call.provider, AboutReply(w, step)) in after.book.settled
               && ((r.resolvedProviderId, r.reservationId) == pair <==> RecordsBoth(w, step))
               && (Settled(after.book, r.resolvedProviderId, r.reservationId) <==> RecordsBoth(w, step))
  {
    hide IsRun, EveryOk, Next, Held, AnswerOf, R.OneProvider, R.Find, Known;
    var w, call := run[n], run[n].calls[step.call];
    RunGrounded(run, n);
    StoredAfterReply(w, step);
    ReplySettles(w, step);
    PairMoves(w, step, call.ref);
    RecordedPair(w, step);
  }

  /** Whatever halves the object records are those of the call. */
  lemma RecordedPair(w: World, step: Step)
    requires EveryOk(w) && Grounded(w) && CanStep(w, step) && (step.ReserveReply? || step.AutoConfirmReply? || step.ConfirmReply?)
    ensures var call := w.calls[step.call];
            var m := w.objects[call.ref];
            && (m.resolvedProviderId.Some? ==> m.resolvedProviderId == Some(call.provider))
            && (m.reservationId.Some? && !step.ReserveReply? ==> m.reservationId == Some(AboutReply(w, step)))
  {
    hide EveryOk, AnswerOf, R.OneProvider, R.Find, Known;
    var call := w.calls[step.call];
    assert CallGrounded(w, call);
    assert ObjectGrounded(w.registry, w.objects[call.ref], w.book);
  }

  /** In every run a completed mission whose recorded pair is settled keeps a settled pair as long as it is completed. */
  lemma SettledStays(run: seq<World>, n: nat, step: Step, ref: nat)
    requires IsRun(AnyOrder, run) && n < |run| && CanStep(run[n], step) && Answers(run[n], step) && ref < |run[n].objects|
    requires var m := run[n].objects[ref]; m.status == Completed && Settled(run[n].book, m.resolvedProviderId, m.reservationId)
    ensures ref < |Next(run[n], step).objects|
    ensures var r := Next(run[n], step).objects[ref];
            r.status == Completed ==> Settled(Next(run[n], step).book, r.resolvedProviderId, r.reservationId)
  {
    hide IsRun, EveryOk, Next, CanStep, Answers, R.OneProvider, R.Find, Known, Rebooks, Logged, CallGrounded;
    var w, after := run[n], Next(run[n], step);
    RunGrounded(run, n);
    GroundedStep(w, step);
    PairMoves(w, step, ref);
    BookMoves(w, step);
    ObjectStays(w, step, ref);
    assert ObjectGrounded(w.registry, w.objects[ref], w.book);
    HeldLater(w.objects[ref].id, w.book, after.book);
  }
}
