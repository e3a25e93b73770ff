/**
 What a change of provider choice leaves behind: as long as the newest copy of a mission is the stored one, every older
 copy lies on another branch of the log, and the reply to a cancellation that stores such a copy is the one way to
 lose the stored log.
 */
module MissionForks {
  import opened Wrappers
  import opened MissionDomain
  import opened MissionSteps
  import opened MissionInvariants
  import opened MissionWorld
  import opened MissionSafety
  import opened MissionLifecycle
  import opened MissionTraces
  import opened MissionEveryRun
  import opened MissionExactness
  import opened MissionVersion

  ghost predicate ChoiceAt(log: seq<Event>, k: int) {
    0 <= k < |log| && log[k].kind == ProviderSelectionChanged
  }

  /** The later log records a choice of provider where the earlier one does not. */
  ghost predicate Forked(older: seq<Event>, newer: seq<Event>) {
    exists k :: ChoiceAt(newer, k) && !ChoiceAt(older, k)
  }

  ghost predicate NewestStored(w: World) {
    w.HasStored() && w.stored == |w.objects| - 1
  }

  /** The copies left behind are idle and on other branches. */
  ghost predicate Behind(w: World)
    requires NewestStored(w)
  {
    forall i :: 0 <= i < w.stored ==> Plannable(w.objects[i].status) && Forked(w.objects[i].log, w.StoredMission().log)
  }

  lemma ForkStays(older: Mission, older': Mission, newer: Mission, newer': Mission)
    requires Forked(older.log, newer.log) && Adds(older, older') && newer.log <= newer'.log
    ensures Forked(older'.log, newer'.log)
  {
    var k :| ChoiceAt(newer.log, k) && !ChoiceAt(older.log, k);
    assert ChoiceAt(newer'.log, k) && !ChoiceAt(older'.log, k);
  }

  /** A forked log is not continued on the older branch. */
  lemma ForkIsNoPrefix(older: Mission, older': Mission, newer: seq<Event>)
    requires Forked(older.log, newer) && Adds(older, older')
    ensures !(newer <= older'.log)
  {
    var k :| ChoiceAt(newer, k) && !ChoiceAt(older.log, k);
    assert !ChoiceAt(older'.log, k);
  }

  /** An idle copy stays idle in everything that does not store it. */
  lemma IdleStays(e: Entry, processing: bool, provider: ProviderId, search: SearchAnswer, booked: ReserveAnswer, answer: CallAnswer, st: Stamps)
    requires Plannable(e.mission.status)
    ensures var s := AfterSearch(e, processing, provider, search, st); !s.Returned? && s.entry.mission.status == e.mission.status
    ensures var s := AfterReserve(e, provider, booked, st); !s.Returned? && s.entry.mission.status == e.mission.status
    ensures var s := AfterAutoConfirm(e, answer, st); !s.Returned? && s.entry.mission.status == e.mission.status
    ensures var s := AfterConfirm(e, answer, st); !s.Returned? && s.entry.mission.status == e.mission.status
  {
    hide AfterSearch, AfterReserve, AfterAutoConfirm, AfterConfirm;
    IdleSearch(e, processing, provider, search, st);
    IdleReserve(e, provider, booked, st);
    IdleConfirm(e, answer, st);
  }

  /** A cancellation of an idle copy is stored exactly when the provider accepts it. */
  lemma IdleCancelStays(e: Entry, answer: CallAnswer, st: Stamps)
    requires Plannable(e.mission.status)
    ensures var s := AfterCancel(e, answer, st);
            && !s.Suspended?
            && (s.Returned? <==> answer.Accepted?)
            && (s.Raised? ==> s.entry.mission == e.mission)
            && (s.Returned? ==> s.entry.mission.status == Cancelled
                                && s.entry.mission.lastEventSequence == e.mission.lastEventSequence + 2)
  {
    hide DrawEventId, UpdateLedger;
  }

  /** The object a reply works on, and whether the reply stores it. */
  lemma OtherObjects(w: World, c: nat, call: Call, s: Segment, st: Stamps, i: nat)
    requires w.HasStored() && call.ref < |w.objects| && i < |w.objects| && i != w.stored
    ensures var after := Conclude(w, c, call, s, st);
            && |after.objects| == |w.objects| && after.HasStored()
            && (after.stored == w.stored ==> after.objects[i] == if i == call.ref then s.entry.mission else w.objects[i])
            && after.stored == (if s.Returned? then call.ref else w.stored)
  {
    hide AfterDueReturn, AfterDueRaise;
  }

  /** The status of a copy left behind does not change while the newest one stays stored. */
  lemma ReplyLeavesIdle(w: World, step: Step, i: nat)
    requires EveryOk(w) && NewestStored(w) && Behind(w) && CanStep(w, step) && i < w.stored
    requires step.SearchReply? || step.CancelReply?
    requires Next(w, step).stored == w.stored
    ensures i < |Next(w, step).objects| && Plannable(Next(w, step).objects[i].status)
  {
    hide EveryOk, Conclude, AfterSearch, AfterCancel, Forked;
    var call := w.calls[step.call];
    var e := EntryOf(w, call.ref);
    match step
    case SearchReply(c, search, st) =>
      OtherObjects(w, c, call, AfterSearch(e, call.processing, call.provider, search, st), st, i);
      if call.ref == i {
        IdleStays(e, call.processing, call.provider, search, ReserveRejected, Rejected, st);
      }
    case CancelReply(c, answer, st) =>
      OtherObjects(w, c, call, AfterCancel(e, answer, st), st, i);
      if call.ref == i {
        IdleCancelStays(e, answer, st);
      }
    case _ =>
  }

  lemma BookingReplyLeavesIdle(w: World, step: Step, i: nat)
    requires EveryOk(w) && NewestStored(w) && Behind(w) && CanStep(w, step) && i < w.stored
    requires step.ReserveReply? || step.AutoConfirmReply? || step.ConfirmReply?
    requires Next(w, step).stored == w.stored
    ensures i < |Next(w, step).objects| && Plannable(Next(w, step).objects[i].status)
  {
    hide EveryOk, Conclude, AfterReserve, AfterAutoConfirm, AfterConfirm, Reserve, Confirm, Forked;
    var call := w.calls[step.call];
    var e := EntryOf(w, call.ref);
    var w1 := w.(book := Next(w, step).book);
    BookAfterReply(w, step);
    OtherObjects(w1, step.call, call, ReplySegment(w, step), step.st, i);
    if call.ref == i {
      if step.ReserveReply? {
        IdleStays(e, false, call.provider, SearchFailed(false), AnswerOf(w, step), Rejected, step.st);
      } else {
        IdleStays(e, false, 0, SearchFailed(false), ReserveRejected, step.confirm.answer, step.st);
      }
    }
  }

  /** Every other step works on the stored object, or files a new one. */
  lemma OthersUntouched(w: World, step: Step, i: nat)
    requires CanStep(w, step) && w.HasStored() && i < |w.objects| && i != w.stored
    requires !step.SearchReply? && !step.ReserveReply? && !step.AutoConfirmReply? && !step.ConfirmReply? && !step.CancelReply?
    ensures i < |Next(w, step).objects| && Next(w, step).objects[i] == w.objects[i]
  {
    hide StartRun, StartConfirm, StartCancel, AfterDueReturn, AfterDueRaise, RetryMission, ScheduleMission, PauseMission,
         ResumeMission, UpdateMission, SelectProvider, Claim, Expire, Recover;
  }

  lemma BehindStep(w: World, step: Step)
    requires EveryOk(w) && NewestStored(w) && Behind(w) && CanStep(w, step) && NewestStored(Next(w, step))
    ensures Behind(Next(w, step))
  {
    hide EveryOk, Next, Fits, Traced;
    var after := Next(w, step);
    StepMoves(w, step);
    if step.SelectRequest? {
      SelectBehind(w, step);
    } else {
      StoredStays(w, step);
      forall i | 0 <= i < after.stored
        ensures Plannable(after.objects[i].status) && Forked(after.objects[i].log, after.StoredMission().log)
      {
        if step.SearchReply? || step.CancelReply? {
          ReplyLeavesIdle(w, step, i);
        } else if step.ReserveReply? || step.AutoConfirmReply? || step.ConfirmReply? {
          BookingReplyLeavesIdle(w, step, i);
        } else {
          OthersUntouched(w, step, i);
        }
        ForkStays(w.objects[i], after.objects[i], w.StoredMission(), after.StoredMission());
      }
    }
  }

  /** Only a choice of provider adds an object. */
  lemma StoredStays(w: World, step: Step)
    requires CanStep(w, step) && NewestStored(w) && NewestStored(Next(w, step)) && !step.SelectRequest?
    ensures Next(w, step).stored == w.stored && |Next(w, step).objects| == |w.objects|
  {
    hide StartRun, StartConfirm, StartCancel, AfterSearch, AfterReserve, AfterAutoConfirm, AfterConfirm, AfterCancel,
         AfterDueReturn, AfterDueRaise, RetryMission, ScheduleMission, PauseMission, ResumeMission, UpdateMission, Claim,
         Expire, Recover, Reserve, Confirm;
  }

  /** The replaced object is idle, and the copy records the choice where the replaced log ends. */
  lemma SelectBehind(w: World, step: Step)
    requires EveryOk(w) && NewestStored(w) && Behind(w) && CanStep(w, step) && step.SelectRequest?
    ensures NewestStored(Next(w, step)) && Behind(Next(w, step))
  {
    hide EveryOk, Fits, Traced, SelectProvider;
    var e := w.StoredEntry();
    ObjectFits(w, w.stored);
    StoredIsOk(w);
    SelectCopies(e, step.choice, step.support, step.now, step.st);
    match SelectProvider(e, step.choice, step.support, step.now, step.st)
    case Success(Some(copy)) =>
      var after := Next(w, step);
      forall i | 0 <= i < after.stored
        ensures Plannable(after.objects[i].status) && Forked(after.objects[i].log, after.StoredMission().log)
      {
        if i < w.stored {
          assert after.objects[i] == w.objects[i];
          AddsItself(w.objects[i]);
          ForkStays(w.objects[i], w.objects[i], w.StoredMission(), copy.mission);
        } else {
          assert ChoiceAt(copy.mission.log, |e.mission.log|) && !ChoiceAt(e.mission.log, |e.mission.log|);
        }
      }
    case _ =>
  }

  lemma AddsItself(m: Mission)
    ensures Adds(m, m)
  {
  }

  lemma {:induction false} RunBehind(run: seq<World>, n: nat)
    requires IsRun(AnyOrder, run) && n < |run| && forall i :: 0 <= i <= n ==> NewestStored(run[i])
    ensures Behind(run[n])
  {
    hide NewestStored, Behind, Next, CanStep, EveryOk;
    if n == 0 {
      InitialBehind(run[0]);
    } else {
      RunBehind(run, n - 1);
      RunEvery(run, n - 1);
      assert Follows(AnyOrder, run[n - 1], run[n]);
      var step :| CanStep(run[n - 1], step) && Permits(AnyOrder, run[n - 1], step) && run[n] == Next(run[n - 1], step);
      BehindStep(run[n - 1], step);
    }
  }

  lemma InitialBehind(w: World)
    requires Initial(w) && NewestStored(w)
    ensures Behind(w)
  {
  }

  // ------------------------------------------------------------- main results

  /**
   In every run that has not yet stored an old copy: the reply to a cancellation continues the stored log, and stores
   nothing but the newest copy, exactly when the call holds the stored object or the provider did not accept.
   */
  lemma LateCancelForksExactly(run: seq<World>, n: nat, step: Step)
    requires IsRun(AnyOrder, run) && n < |run| && CanStep(run[n], step) && step.CancelReply?
    requires forall i :: 0 <= i <= n ==> NewestStored(run[i])
    ensures var w, after := run[n], Next(run[n], step);
            var harmless := w.calls[step.call].ref == w.stored || !step.answer.Accepted?;
            && after.HasStored()
            && (w.StoredMission().log <= after.StoredMission().log <==> harmless)
            && (NewestStored(after) <==> harmless)
  {
    hide IsRun, EveryOk, Conclude, AfterCancel, Forked;
    var w, call := run[n], run[n].calls[step.call];
    var after := Next(w, step);
    RunEvery(run, n);
    RunBehind(run, n);
    StepMoves(w, step);
    var s := AfterCancel(EntryOf(w, call.ref), step.answer, step.st);
    ConcludeStores(w, step.call, call, s, step.st);
    if call.ref != w.stored {
      IdleCancelStays(EntryOf(w, call.ref), step.answer, step.st);
      if step.answer.Accepted? {
        ForkIsNoPrefix(w.objects[call.ref], after.objects[call.ref], w.StoredMission().log);
      }
    }
  }

  lemma ConcludeStores(w: World, c: nat, call: Call, s: Segment, st: Stamps)
    requires w.HasStored() && call.ref < |w.objects|
    ensures var after := Conclude(w, c, call, s, st);
            |after.objects| == |w.objects| && after.stored == (if s.Returned? then call.ref else w.stored)
  {
    hide AfterDueReturn, AfterDueRaise;
  }

  // ---------------------------------------------- what the discipline amounts to

  /** The reply to a call that holds a replaced object returns nothing, unless it is an accepted cancellation. */
  lemma NewestStays(w: World, step: Step)
    requires WorldOk(w) && NewestStored(w) && CanStep(w, step) && !StoresOldCopy(w, step)
    ensures NewestStored(Next(w, step))
  {
    hide WorldOk, Next;
    if step.SearchReply? || step.CancelReply? {
      NewestUnderReply(w, step);
    } else if step.ReserveReply? || step.AutoConfirmReply? || step.ConfirmReply? {
      NewestUnderBooking(w, step);
    } else {
      NewestOtherwise(w, step);
    }
  }

  lemma NewestUnderReply(w: World, step: Step)
    requires WorldOk(w) && NewestStored(w) && CanStep(w, step) && !StoresOldCopy(w, step)
    requires step.SearchReply? || step.CancelReply?
    ensures NewestStored(Next(w, step))
  {
    hide WorldOk, Conclude, AfterSearch, AfterCancel;
    var call := w.calls[step.call];
    var e := EntryOf(w, call.ref);
    if call.ref != w.stored {
      IdleObject(w, call.ref);
    }
    match step
    case SearchReply(c, search, st) =>
      ConcludeStores(w, c, call, AfterSearch(e, call.processing, call.provider, search, st), st);
      if call.ref != w.stored {
        IdleStays(e, call.processing, call.provider, search, ReserveRejected, Rejected, st);
      }
    case CancelReply(c, answer, st) =>
      ConcludeStores(w, c, call, AfterCancel(e, answer, st), st);
      if call.ref != w.stored {
        IdleCancelStays(e, answer, st);
      }
    case _ =>
  }

  lemma NewestUnderBooking(w: World, step: Step)
    requires WorldOk(w) && NewestStored(w) && CanStep(w, step)
    requires step.ReserveReply? || step.AutoConfirmReply? || step.ConfirmReply?
    ensures NewestStored(Next(w, step))
  {
    hide WorldOk, Conclude, AfterReserve, AfterAutoConfirm, AfterConfirm, Reserve, Confirm;
    var call := w.calls[step.call];
    var e := EntryOf(w, call.ref);
    BookAfterReply(w, step);
    ConcludeStores(w.(book := Next(w, step).book), step.call, call, ReplySegment(w, step), step.st);
    if call.ref != w.stored {
      IdleObject(w, call.ref);
      if step.ReserveReply? {
        IdleStays(e, false, call.provider, SearchFailed(false), AnswerOf(w, step), Rejected, step.st);
      } else {
        IdleStays(e, false, 0, SearchFailed(false), ReserveRejected, step.confirm.answer, step.st);
      }
    }
  }

  lemma NewestOtherwise(w: World, step: Step)
    requires CanStep(w, step) && NewestStored(w)
    requires !step.SearchReply? && !step.ReserveReply? && !step.AutoConfirmReply? && !step.ConfirmReply? && !step.CancelReply?
    ensures NewestStored(Next(w, step))
  {
    hide StartRun, StartConfirm, StartCancel, AfterDueReturn, AfterDueRaise, RetryMission, ScheduleMission, PauseMission,
         ResumeMission, UpdateMission, SelectProvider, Claim, Expire, Recover;
  }

  lemma {:induction false} NewestInRun(run: seq<World>, n: nat)
    requires IsRun(NoStaleCopy, run) && n < |run|
    ensures NewestStored(run[n]) && WorldOk(run[n])
  {
    hide WorldOk, CanStep, Next;
    RunOk(run, n);
    if n == 0 {
      assert Initial(run[0]);
    } else {
      NewestInRun(run, n - 1);
      assert Follows(NoStaleCopy, run[n - 1], run[n]);
      var step :| CanStep(run[n - 1], step) && Permits(NoStaleCopy, run[n - 1], step) && run[n] == Next(run[n - 1], step);
      NewestStays(run[n - 1], step);
    }
  }

  /** The NoStaleCopy runs are exactly the runs in which the newest object of the mission is always the stored one. */
  lemma NoStaleCopyExactly(run: seq<World>)
    ensures IsRun(NoStaleCopy, run) <==> IsRun(AnyOrder, run) && forall i :: 0 <= i < |run| ==> NewestStored(run[i])
  {
    hide CanStep, Next, NewestStored, Initial;
    if IsRun(NoStaleCopy, run) {
      forall i | 0 < i < |run|
        ensures Follows(AnyOrder, run[i - 1], run[i])
      {
        assert Follows(NoStaleCopy, run[i - 1], run[i]);
        var step :| CanStep(run[i - 1], step) && Permits(NoStaleCopy, run[i - 1], step) && run[i] == Next(run[i - 1], step);
        assert Permits(AnyOrder, run[i - 1], step);
      }
      forall i | 0 <= i < |run|
        ensures NewestStored(run[i])
      {
        NewestInRun(run, i);
      }
    }
    if IsRun(AnyOrder, run) && forall i :: 0 <= i < |run| ==> NewestStored(run[i]) {
      forall i | 0 < i < |run|
        ensures Follows(NoStaleCopy, run[i - 1], run[i])
      {
        NewestFollows(run, i);
      }
    }
  }

  lemma NewestFollows(run: seq<World>, i: nat)
    requires IsRun(AnyOrder, run) && 0 < i < |run| && forall k :: 0 <= k < |run| ==> NewestStored(run[k])
    ensures Follows(NoStaleCopy, run[i - 1], run[i])
  {
    hide Next, NewestStored;
    assert Follows(AnyOrder, run[i - 1], run[i]);
    var step :| CanStep(run[i - 1], step) && Permits(AnyOrder, run[i - 1], step) && run[i] == Next(run[i - 1], step);
    if step.CancelReply? {
      LateCancelForksExactly(run, i - 1, step);
    }
    assert Permits(NoStaleCopy, run[i - 1], step);
  }

  lemma CancellingCall(w: World, c: nat)
    requires WorldOk(w) && WaitsForCancel(w, c)
    ensures EntryOk(w.StoredEntry()) && ObjectsOk(w) && w.calls[c].driver.Api?
  {
    hide EntryOk, ObjectsOk;
    assert CallOk(w, w.calls[c]);
  }

  /**
   The version where NoStaleCopy ends: the tag of the mission that an accepted late cancellation replaces is still
   let through, although the mission is another one, exactly when the copy the call held is two events behind it.
   */
  lemma LateCancelTagExactly(run: seq<World>, n: nat, step: Step)
    requires IsRun(NoStaleCopy, run) && n < |run| && CanStep(run[n], step) && StoresOldCopy(run[n], step)
    ensures var w, after := run[n], Next(run[n], step);
            && after.HasStored() && after.StoredMission() != w.StoredMission()
            && !OneClaim(w.StoredMission(), after.StoredMission())
            && (EnsureVersion(Some(after.StoredMission()), ETag(w.StoredMission())).Success? <==>
                  w.objects[w.calls[step.call].ref].lastEventSequence + 2 == w.StoredMission().lastEventSequence)
  {
    hide IsRun, EveryOk, AfterCancel, AfterDueReturn, AfterDueRaise, Forked, WorldOk;
    NoStaleCopyExactly(run);
    RunOk(run, n);
    CancellingCall(run[n], step.call);
    LateCancelForksExactly(run, n, step);
    RunBehind(run, n);
    var w, call := run[n], run[n].calls[step.call];
    IdleCancelStays(EntryOf(w, call.ref), step.answer, step.st);
  }
}
