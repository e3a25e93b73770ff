/**
 The due pass under interference: whatever other clients, workers and recoveries do between the provider calls
 of a claimed run, the run still ends in exactly one list that is right about the stored mission, or in an exception
 whose reasons are known.
 */
module MissionPass {
  import opened Wrappers
  import opened MissionDomain
  import opened MissionSteps
  import opened MissionInvariants
  import opened MissionWorld
  import opened MissionSafety
  import opened MissionLifecycle
  import opened MissionTraces
  import opened MissionEveryRun
  import opened Backoff
  import D = DuePass

  /** The call a step of a run drives, and the segment it executes. */
  datatype Turn = Turn(id: nat, call: Call, segment: Segment, st: Stamps)

  function TurnOf(w: World, step: Step): Option<Turn>
    requires CanStep(w, step)
  {
    match step
    case StartDue(c, resolution, participantsFound, st) =>
      var call := w.calls[c].(ref := w.stored, processing := w.StoredMission().status == Processing);
      Some(Turn(c, call, StartRun(w.StoredEntry(), call.driver.now, true, resolution, participantsFound, st), st))
    case SearchReply(c, search, st) =>
      var call := w.calls[c];
      Some(Turn(c, call, AfterSearch(EntryOf(w, call.ref), call.processing, call.provider, search, st), st))
    case ReserveReply(c, fate, st) =>
      var call := w.calls[c];
      var answer := Reserve(w.book, call.provider, ReservationKey(w.objects[call.ref].id), fate).1;
      Some(Turn(c, call, AfterReserve(EntryOf(w, call.ref), call.provider, answer, st), st))
    case AutoConfirmReply(c, confirm, st) =>
      var call := w.calls[c];
      Some(Turn(c, call, AfterAutoConfirm(EntryOf(w, call.ref), confirm.answer, st), st))
    case _ => None
  }

  /** The step ends a run that the due pass drives. */
  predicate EndsDueRun(w: World, step: Step) {
    CanStep(w, step) &&
    match TurnOf(w, step)
    case Some(turn) => turn.call.driver.DuePass? && !turn.segment.Suspended?
    case None => false
  }

  /** The stored entry the pass looks at once the run is over. */
  function SeenByPass(w: World, turn: Turn): Entry
    requires w.HasStored()
  {
    if turn.call.ref == w.stored || turn.segment.Returned? then turn.segment.entry
    else Entry(w.StoredMission(), turn.segment.entry.attempts)
  }

  /** The list the pass then puts the mission in. */
  function Filing(w: World, step: Step): Verdict
    requires EndsDueRun(w, step)
  {
    var turn := TurnOf(w, step).value;
    match turn.segment
    case Raised(_, error) => AfterDueRaise(SeenByPass(w, turn), error, turn.call.driver.now, w.policy, turn.st).1
    case ended => AfterDueReturn(ended.entry, turn.call.driver.now, w.policy, turn.st).1
  }

  /** What a list says about the mission; an exception leaves a failed mission without budget or without attempts. */
  ghost predicate Filed(m: Mission, now: Time, verdict: Verdict) {
    || D.Settled(m, now, verdict)
    || (verdict == Escaped(BadAttemptNumber) && m.status == Failed && m.executionAttempts == 0)
  }

  // ------------------------------------------------- what the pass does at the end

  lemma RequeueFiles(e: Entry, now: Time, policy: ValidPolicy, st: Stamps)
    requires e.mission.status == Failed && NotPast(e.mission.expiresAt, now)
    ensures match AutomaticRetry(e, now, policy, st) {
              case Success(r) =>
                && e.mission.executionAttempts >= 1 && !e.mission.HasExhaustedAttempts()
                && D.Settled(r.mission, now, RetryVerdict) && r.mission.executionAttempts == e.mission.executionAttempts
              case Failure(error) =>
                if e.mission.executionAttempts == 0 then error == BadAttemptNumber
                else error == AttemptsExhausted && e.mission.HasExhaustedAttempts()
            }
  {
    hide DrawEventId, UpdateLedger, CappedDelay;
    if e.mission.executionAttempts >= 1 {
      AutomaticRetryTimeOk(e.mission, now, policy);
    }
  }

  lemma MarkedFailed(e: Entry, st: Stamps)
    ensures var m := MarkFailed(e, st).mission;
            && m.status == Failed && m.expiresAt == e.mission.expiresAt
            && m.executionAttempts == e.mission.executionAttempts && m.maxExecutionAttempts == e.mission.maxExecutionAttempts
  {
    hide DrawEventId, UpdateLedger;
  }

  lemma ReturnFiles(e: Entry, now: Time, policy: ValidPolicy, st: Stamps)
    requires e.mission.status in {RequiresConfirmation, Completed, Failed} && NotPast(e.mission.expiresAt, now)
    ensures var (r, verdict) := AfterDueReturn(e, now, policy, st);
            && Filed(r.mission, now, verdict) && r.mission.executionAttempts == e.mission.executionAttempts
            && (verdict.Escaped? <==>
                  e.mission.status == Failed && ShouldRetryMission(e.mission) && e.mission.executionAttempts == 0)
  {
    hide AutomaticRetry, DrawEventId, UpdateLedger;
    if e.mission.status == Failed {
      RequeueFiles(e, now, policy, st);
    }
  }

  lemma RaiseFiles(e: Entry, error: Error, now: Time, policy: ValidPolicy, st: Stamps)
    requires NotPast(e.mission.expiresAt, now)
    ensures var (r, verdict) := AfterDueRaise(e, error, now, policy, st);
            && Filed(r.mission, now, verdict) && r.mission.executionAttempts == e.mission.executionAttempts
            && (verdict.Escaped? <==>
                  ShouldRetryException(error) && (r.mission.HasExhaustedAttempts() || r.mission.executionAttempts == 0))
  {
    hide AutomaticRetry, MarkFailed;
    MarkedFailed(e, st);
    RequeueFiles(MarkFailed(e, st), now, policy, st);
  }

  // ------------------------------------------------------------ the deadline

  /** All objects of the mission have one deadline, and no due call was claimed after it. */
  ghost predicate InTime(w: World) {
    && w.HasStored()
    && (forall i :: 0 <= i < |w.objects| ==> w.objects[i].expiresAt == w.StoredMission().expiresAt)
    && (forall c :: c in w.calls && w.calls[c].driver.DuePass? ==>
          NotPast(w.StoredMission().expiresAt, w.calls[c].driver.now))
  }

  /** Due calls are made by claims alone, and new objects by choices of provider alone. */
  lemma WhatIsNew(w: World, step: Step)
    requires CanStep(w, step)
    ensures var after := Next(w, step);
            && (forall c :: c in after.calls && after.calls[c].driver.DuePass? ==>
                  || (c in w.calls && after.calls[c].driver == w.calls[c].driver)
                  || (step.ClaimDue? && after.calls[c].driver.now == step.now))
            && (!step.SelectRequest? ==> |after.objects| == |w.objects|)
            && (step.ClaimDue? ==> NotPast(w.StoredMission().expiresAt, step.now))
  {
    hide StartRun, StartConfirm, StartCancel, AfterSearch, AfterReserve, AfterAutoConfirm, AfterConfirm, AfterCancel,
         AfterDueReturn, AfterDueRaise, RetryMission, ScheduleMission, PauseMission, ResumeMission, UpdateMission,
         SelectProvider, Claim, Expire, Recover, Reserve, Confirm;
  }

  lemma InTimeStays(w: World, step: Step)
    requires EveryOk(w) && InTime(w) && CanStep(w, step)
    ensures EveryOk(Next(w, step)) && InTime(Next(w, step))
  {
    hide EveryOk, Next, CanStep;
    StepMoves(w, step);
    MovesOk(w, Next(w, step));
    StoredRef(Next(w, step));
    WhatIsNew(w, step);
    var after := Next(w, step);
    forall i | 0 <= i < |after.objects|
      ensures after.objects[i].expiresAt == w.StoredMission().expiresAt
    {
      if i < |w.objects| {
        assert Adds(w.objects[i], after.objects[i]);
      } else {
        NewObject(w, step, i);
      }
    }
  }

  lemma NewObject(w: World, step: Step, i: nat)
    requires EveryOk(w) && CanStep(w, step) && step.SelectRequest? && |w.objects| <= i < |Next(w, step).objects|
    ensures Next(w, step).objects[i].expiresAt == w.StoredMission().expiresAt
  {
    hide SelectProvider, Fits, Traced, BookOk, Settles, CallTraced;
    StoredIsOk(w);
    SelectCopies(w.StoredEntry(), step.choice, step.support, step.now, step.st);
  }

  lemma {:induction false} RunInTime(run: seq<World>, n: nat)
    requires IsRun(AnyOrder, run) && n < |run|
    ensures EveryOk(run[n]) && InTime(run[n])
  {
    hide EveryOk, InTime, Next, CanStep;
    if n == 0 {
      InitialInTime(run[0]);
    } else {
      RunInTime(run, n - 1);
      assert Follows(AnyOrder, run[n - 1], run[n]);
      var step :| CanStep(run[n - 1], step) && Permits(AnyOrder, run[n - 1], step) && run[n] == Next(run[n - 1], step);
      InTimeStays(run[n - 1], step);
    }
  }

  lemma InitialInTime(w: World)
    requires Initial(w)
    ensures EveryOk(w) && InTime(w)
  {
    InitialEvery(w);
  }

  // ------------------------------------------------------------- ends of runs

  /** What a due run may end with, and that it leaves the deadline alone. */
  ghost predicate TurnOk(w: World, turn: Turn) {
    && turn.call.ref < |w.objects|
    && turn.segment.entry.mission.expiresAt == w.objects[turn.call.ref].expiresAt
    && (turn.segment.Returned? ==> turn.segment.entry.mission.status in {RequiresConfirmation, Completed, Failed})
  }

  lemma ReturnedStatus(e: Entry, now: Time, resolution: Resolution, found: bool, processing: bool, provider: ProviderId,
                       search: SearchAnswer, booked: ReserveAnswer, answer: CallAnswer, st: Stamps)
    ensures var s := StartRun(e, now, true, resolution, found, st); s.Returned? ==> s.entry.mission.status == Failed
    ensures var s := AfterSearch(e, processing, provider, search, st);
            s.Returned? ==> s.entry.mission.status in {Completed, Failed}
    ensures var s := AfterReserve(e, provider, booked, st);
            s.Returned? ==> s.entry.mission.status in {RequiresConfirmation, Completed, Failed}
    ensures var s := AfterAutoConfirm(e, answer, st); s.Returned? ==> s.entry.mission.status in {Completed, Failed}
  {
    hide Emit, FinishAs, Transition, Expire, Finishes, SameUpToLedger;
    AlwaysFinishes(st);
  }

  lemma AlwaysFinishes(st: Stamps)
    ensures forall e: Entry, m: Mission, target: Status, kind: EventKind {:trigger FinishAs(e, m, target, kind, st)} ::
              var s := FinishAs(e, m, target, kind, st); !s.Suspended? && (s.Returned? ==> s.entry.mission.status == target)
  {
    hide FinishAs;
    forall e: Entry, m: Mission, target: Status, kind: EventKind {:trigger FinishAs(e, m, target, kind, st)}
      ensures var s := FinishAs(e, m, target, kind, st); !s.Suspended? && (s.Returned? ==> s.entry.mission.status == target)
    {
      FinishFinishes(e, e, m, target, kind, st);
    }
  }

  lemma TurnIsOk(w: World, step: Step)
    requires EveryOk(w) && EndsDueRun(w, step)
    ensures TurnOk(w, TurnOf(w, step).value)
  {
    hide EveryOk, Fits, Traced, Settles, BookOk, Reserve, StartRun, AfterSearch, AfterReserve, AfterAutoConfirm, Logged, LoggedReservation;
    StoredIsOk(w);
    if !step.StartDue? {
      CallIsOk(w, step.call);
    }
    var turn := TurnOf(w, step).value;
    ObjectIsOk(w, turn.call.ref);
    var e := EntryOf(w, turn.call.ref);
    match step
    case StartDue(_, resolution, found, st) =>
      StartRunCarries(e, turn.call.driver.now, true, resolution, found, st);
      ReturnedStatus(e, turn.call.driver.now, resolution, found, false, 0, SearchFailed(false), ReserveRejected, Rejected, st);
    case SearchReply(_, search, st) =>
      SearchCarries(e, turn.call.processing, turn.call.provider, search, st);
      ReturnedStatus(e, 0, Unresolved, false, turn.call.processing, turn.call.provider, search, ReserveRejected, Rejected, st);
    case ReserveReply(_, fate, st) =>
      var answer := Reserve(w.book, turn.call.provider, ReservationKey(w.objects[turn.call.ref].id), fate).1;
      ReserveCarries(e, turn.call.provider, answer, st);
      ReturnedStatus(e, 0, Unresolved, false, false, turn.call.provider, SearchFailed(false), answer, Rejected, st);
    case AutoConfirmReply(_, confirm, st) =>
      AutoConfirmCarries(e, confirm.answer, st);
      ReturnedStatus(e, 0, Unresolved, false, false, 0, SearchFailed(false), ReserveRejected, confirm.answer, st);
    case _ =>
  }

  /** What the end of a due run does to the stored mission. */
  lemma NextFiles(w: World, step: Step)
    requires EndsDueRun(w, step)
    ensures var turn, after := TurnOf(w, step).value, Next(w, step);
            var now, seen := turn.call.driver.now, SeenByPass(w, turn);
            && after.HasStored() && turn.id !in after.calls
            && after.StoredEntry() == if turn.segment.Returned? then AfterDueReturn(seen, now, w.policy, turn.st).0
                                      else AfterDueRaise(seen, turn.segment.error, now, w.policy, turn.st).0
  {
    hide AfterDueReturn, AfterDueRaise, Reserve, Confirm, StartRun, AfterSearch, AfterReserve, AfterAutoConfirm, Conclude;
    var turn := TurnOf(w, step).value;
    match step
    case ReserveReply(c, fate, _) =>
      var book := Reserve(w.book, w.calls[c].provider, ReservationKey(w.objects[w.calls[c].ref].id), fate).0;
      ConcludeFiles(w.(book := book), turn);
    case AutoConfirmReply(c, confirm, _) =>
      ConcludeFiles(w.(book := Confirm(w.book, w.calls[c].provider, w.calls[c].stage.await.reservation, confirm)), turn);
    case StartDue(_, _, _, _) => ConcludeFiles(w, turn);
    case SearchReply(_, _, _) => ConcludeFiles(w, turn);
    case _ =>
  }

  lemma ConcludeFiles(w: World, turn: Turn)
    requires w.HasStored() && turn.call.ref < |w.objects| && turn.call.driver.DuePass? && !turn.segment.Suspended?
    ensures var after := Conclude(w, turn.id, turn.call, turn.segment, turn.st);
            var now, seen := turn.call.driver.now, SeenByPass(w, turn);
            && after.HasStored() && turn.id !in after.calls
            && after.StoredEntry() == if turn.segment.Returned? then AfterDueReturn(seen, now, w.policy, turn.st).0
                                      else AfterDueRaise(seen, turn.segment.error, now, w.policy, turn.st).0
  {
    hide AfterDueReturn, AfterDueRaise;
    var call, s := turn.call, turn.segment;
    var wrote := w.(objects := w.objects[call.ref := s.entry.mission], attempts := s.entry.attempts);
    assert Entry(wrote.objects[call.ref], wrote.attempts) == s.entry;
  }

  /** The exceptions that leave the pass. */
  ghost predicate LetsOut(turn: Turn, m: Mission) {
    || (&& turn.segment.Raised? && ShouldRetryException(turn.segment.error)
        && (m.HasExhaustedAttempts() || m.executionAttempts == 0))
    || (&& turn.segment.Returned? && turn.segment.entry.mission.status == Failed
        && ShouldRetryMission(turn.segment.entry.mission) && m.executionAttempts == 0)
  }

  /** One step: the run that ends is filed in one list, and the list is right about the stored mission. */
  lemma FiledRight(w: World, step: Step)
    requires EveryOk(w) && InTime(w) && EndsDueRun(w, step)
    ensures var turn, after := TurnOf(w, step).value, Next(w, step);
            && after.HasStored()
            && Filed(after.StoredMission(), turn.call.driver.now, Filing(w, step))
            && (Filing(w, step).Escaped? <==> LetsOut(turn, after.StoredMission()))
  {
    hide EveryOk, TurnOf, Next, AfterDueRaise, AfterDueReturn, Filed;
    var turn := TurnOf(w, step).value;
    TurnIsOk(w, step);
    NextFiles(w, step);
    DueDriver(w, step);
    var seen, now := SeenByPass(w, turn), turn.call.driver.now;
    if turn.segment.Returned? {
      ReturnFiles(seen, now, w.policy, turn.st);
    } else {
      RaiseFiles(seen, turn.segment.error, now, w.policy, turn.st);
    }
  }

  lemma DueDriver(w: World, step: Step)
    requires EndsDueRun(w, step)
    ensures var turn := TurnOf(w, step).value; turn.id in w.calls && turn.call.driver == w.calls[turn.id].driver
    ensures !step.CancelReply?
  {
    hide Reserve, StartRun, AfterSearch, AfterReserve, AfterAutoConfirm;
  }

  // ------------------------------------------------------------- main results

  /**
   In every run of the system, overlapping recoveries, retries and old copies included, each due run that ends is put in
   exactly one list of its pass and the stored mission is as the list says, or an exception leaves the pass.  It does
   exactly when the run raised a connection or timeout error and the stored mission has no attempt left or never had
   one, or when the run returned a failure worth a retry on a mission that never had one.
   */
  lemma DueRunsAreFiled(run: seq<World>, i: nat, step: Step)
    requires IsRun(AnyOrder, run) && i < |run| && EndsDueRun(run[i], step)
    ensures var turn, after := TurnOf(run[i], step).value, Next(run[i], step);
            && after.HasStored() && turn.id !in after.calls
            && Filed(after.StoredMission(), turn.call.driver.now, Filing(run[i], step))
            && (Filing(run[i], step).Escaped? <==> LetsOut(turn, after.StoredMission()))
  {
    hide IsRun, EveryOk, InTime, EndsDueRun, Filed, LetsOut, Filing, Next;
    RunInTime(run, i);
    FiledRight(run[i], step);
    NextFiles(run[i], step);
  }

  /**
   As long as no accepted cancellation stores a replaced object, a claimed mission has an attempt, and only a transient
   error on an exhausted mission leaves the pass.
   */
  lemma OnlyExhaustionEscapes(run: seq<World>, i: nat, step: Step)
    requires IsRun(NoStaleCopy, run) && i < |run| && EndsDueRun(run[i], step)
    ensures var turn, after := TurnOf(run[i], step).value, Next(run[i], step);
            && after.HasStored()
            && D.Settled(after.StoredMission(), turn.call.driver.now, Filing(run[i], step))
            && (Filing(run[i], step).Escaped? <==>
                  && turn.segment.Raised? && ShouldRetryException(turn.segment.error)
                  && after.StoredMission().HasExhaustedAttempts())
  {
    hide IsRun, TurnOf, Next, Filing, WorldOk;
    LooseRun(run);
    DueRunsAreFiled(run, i, step);
    RunOk(run, i);
    DueDriver(run[i], step);
    StepOk(run[i], step);
    ClaimedStays(run[i], Next(run[i], step), TurnOf(run[i], step).value.id);
  }

  lemma ClaimedStays(w: World, after: World, c: nat)
    requires WorldOk(w) && StepKeeps(w, after) && c in w.calls && w.calls[c].driver.DuePass?
    ensures after.HasStored() && after.StoredMission().executionAttempts >= 1
  {
    hide MissionOk, ObjectsOk, Numbered, Prefixes, VersionStep;
    assert CallOk(w, w.calls[c]);
  }

  lemma LooseRun(run: seq<World>)
    requires IsRun(NoStaleCopy, run)
    ensures IsRun(AnyOrder, run)
  {
    hide CanStep, Next, Initial;
    forall i | 0 < i < |run|
      ensures Follows(AnyOrder, run[i - 1], run[i])
    {
      assert Follows(NoStaleCopy, run[i - 1], run[i]);
      var step :| CanStep(run[i - 1], step) && Permits(NoStaleCopy, run[i - 1], step) && run[i] == Next(run[i - 1], step);
      assert Permits(AnyOrder, run[i - 1], step);
    }
  }
}
