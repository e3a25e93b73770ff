/**
 Safety over every run of MissionWorld in which no accepted cancellation stores a replaced object: the attempt
 ledger, the stored log and the mission version.
 */
module MissionSafety {
  import opened Wrappers
  import opened MissionDomain
  import opened MissionSteps
  import opened MissionInvariants
  import opened MissionWorld

  // --------------------------------------------------------------- invariants

  ghost predicate CallOk(w: World, call: Call)
    requires w.HasStored()
  {
    && call.ref < |w.objects|
    && (call.stage.InLine? ==> call.driver.DuePass?)
    && (call.driver.DuePass? ==>
          && w.StoredMission().executionAttempts >= 1
          && NotPast(w.StoredMission().expiresAt, call.driver.now)
          && (call.stage.At? ==> !call.stage.await.AwaitConfirm? && !call.stage.await.AwaitCancel?))
  }

  /** Every object is sound; those the repository no longer holds are idle. */
  ghost predicate ObjectsOk(w: World)
    requires w.HasStored()
  {
    forall r :: 0 <= r < |w.objects| ==>
      && MissionOk(w.objects[r])
      && w.objects[r].id == w.StoredMission().id
      && w.objects[r].expiresAt == w.StoredMission().expiresAt
      && (r != w.stored ==> Plannable(w.objects[r].status))
  }

  ghost predicate CallsOk(w: World)
    requires w.HasStored()
  {
    forall c :: c in w.calls ==> CallOk(w, w.calls[c])
  }

  ghost predicate WorldOk(w: World) {
    w.HasStored() && EntryOk(w.StoredEntry()) && ObjectsOk(w) && CallsOk(w)
  }

  /** Between two states of the stored mission: nothing happened, an event was logged, or one claim was made. */
  ghost predicate VersionStep(m: Mission, r: Mission) {
    || r == m
    || r.lastEventSequence > m.lastEventSequence
    || OneClaim(m, r)
  }

  ghost predicate OneClaim(m: Mission, r: Mission) {
    && m.status == Waiting
    && r.claimedAt.Some?
    && r == Claim(Entry(m, []), r.claimedAt.value).mission
  }

  /** What holds between a state and any later one. */
  ghost predicate Evolves(w: World, after: World) {
    && w.HasStored() && after.HasStored()
    && Prefixes(w.StoredMission(), after.StoredMission())
    && LedgerGrows(w.attempts, after.attempts)
    && VersionStep(w.StoredMission(), after.StoredMission())
    && after.StoredMission().id == w.StoredMission().id
    && after.StoredMission().expiresAt == w.StoredMission().expiresAt
  }

  // ------------------------------------------------------------ small lemmas

  /** An entry that may replace the stored one. */
  ghost predicate Replaces(e: Entry, r: Entry) {
    && EntryOk(r) && Prefixes(e.mission, r.mission) && LedgerGrows(e.attempts, r.attempts)
    && r.mission.id == e.mission.id && r.mission.expiresAt == e.mission.expiresAt
    && r.mission.executionAttempts >= e.mission.executionAttempts
    && VersionStep(e.mission, r.mission)
  }

  lemma WithStoredOk(w: World, r: Entry)
    requires WorldOk(w) && Replaces(w.StoredEntry(), r)
    ensures WorldOk(w.WithStored(r)) && Evolves(w, w.WithStored(r))
  {
    hide EntryOk, MissionOk, Prefixes, LedgerGrows, VersionStep;
    var after := w.WithStored(r);
    assert after.StoredEntry() == r;
    assert MissionOk(r.mission) by {
      EntryHasMission(r);
    }
    forall i | 0 <= i < |after.objects|
      ensures MissionOk(after.objects[i])
      ensures after.objects[i].id == r.mission.id && after.objects[i].expiresAt == r.mission.expiresAt
      ensures i != after.stored ==> Plannable(after.objects[i].status)
    {
      assert i != w.stored ==> after.objects[i] == w.objects[i];
    }
    forall c | c in after.calls
      ensures CallOk(after, after.calls[c])
    {
      assert CallOk(w, w.calls[c]);
    }
  }

  lemma EntryHasMission(e: Entry)
    requires EntryOk(e)
    ensures MissionOk(e.mission)
  {
  }

  lemma EvolvesTransitive(a: World, b: World, c: World)
    requires Evolves(a, b) && Evolves(b, c)
    requires WorldOk(a) && WorldOk(b)
    requires VersionStep(a.StoredMission(), c.StoredMission())
    ensures Evolves(a, c)
  {
    LedgerGrowsTransitive(a.attempts, b.attempts, c.attempts);
  }

  lemma DropCallOk(w: World, c: nat)
    requires WorldOk(w)
    ensures WorldOk(w.(calls := w.calls - {c}))
  {
    hide EntryOk, MissionOk;
    var after := w.(calls := w.calls - {c});
    assert after.StoredEntry() == w.StoredEntry();
    forall k | k in after.calls
      ensures CallOk(after, after.calls[k])
    {
      assert CallOk(w, w.calls[k]);
    }
  }

  lemma SetCallOk(w: World, c: nat, call: Call)
    requires WorldOk(w) && CallOk(w, call)
    ensures WorldOk(w.(calls := w.calls[c := call]))
  {
    hide EntryOk, MissionOk;
    var after := w.(calls := w.calls[c := call]);
    assert after.StoredEntry() == w.StoredEntry();
    forall k | k in after.calls
      ensures CallOk(after, after.calls[k])
    {
      assert k != c ==> CallOk(w, w.calls[k]);
      assert k == c ==> CallOk(w, call);
    }
  }

  lemma SameWorld(w: World)
    requires WorldOk(w)
    ensures Evolves(w, w)
  {
  }

  // --------------------------------------------------- the end of a segment

  /** What a segment of a call of the due pass may end with. */
  ghost predicate DueShape(call: Call, s: Segment) {
    call.driver.DuePass? ==>
      && (s.Returned? ==> s.entry.mission.status in {RequiresConfirmation, Completed, Failed})
      && (s.Suspended? ==> !s.at.AwaitConfirm? && !s.at.AwaitCancel?)
  }

  lemma SegmentReplaces(e: Entry, s: Segment)
    requires SegmentKeeps(e, s)
    ensures Replaces(e, s.entry)
    ensures s.entry.mission == e.mission || s.entry.mission.lastEventSequence > e.mission.lastEventSequence
    ensures s.entry.mission.executionAttempts == e.mission.executionAttempts
    ensures s.entry.mission.expiresAt == e.mission.expiresAt && EntryOk(s.entry)
  {
  }

  lemma VerdictReplaces(e: Entry, s: Entry, now: Time, r: Entry, verdict: Verdict)
    requires Replaces(e, s) && VerdictKeeps(s, now, r, verdict)
    requires s.mission == e.mission || s.mission.lastEventSequence > e.mission.lastEventSequence
    ensures Replaces(e, r)
  {
    LedgerGrowsTransitive(e.attempts, s.attempts, r.attempts);
  }

  /** The entry a finished call leaves, with what its due pass did to it. */
  function Final(w: World, call: Call, s: Segment, st: Stamps): Entry {
    match s
    case Suspended(e, _, _) => e
    case Returned(e) => if call.driver.DuePass? then AfterDueReturn(e, call.driver.now, w.policy, st).0 else e
    case Raised(e, error) => if call.driver.DuePass? then AfterDueRaise(e, error, call.driver.now, w.policy, st).0 else e
  }

  lemma ConcludeIs(w: World, c: nat, call: Call, s: Segment, st: Stamps)
    requires w.HasStored() && call.ref == w.stored
    ensures Conclude(w, c, call, s, st)
            == w.WithStored(Final(w, call, s, st)).(calls :=
                 if s.Suspended? then w.calls[c := call.(stage := At(s.at), provider := s.provider)] else w.calls - {c})
  {
    hide AfterDueReturn, AfterDueRaise;
    var wrote := w.(objects := w.objects[call.ref := s.entry.mission], attempts := s.entry.attempts);
    var r := Final(w, call, s, st);
    assert w.objects[w.stored := s.entry.mission][w.stored := r.mission] == w.objects[w.stored := r.mission];
    assert Entry(wrote.objects[w.stored], wrote.attempts) == s.entry;
  }

  lemma FinalReplaces(w: World, call: Call, s: Segment, st: Stamps)
    requires WorldOk(w) && SegmentKeeps(w.StoredEntry(), s) && DueShape(call, s)
    requires call.driver.DuePass? ==>
               w.StoredMission().executionAttempts >= 1 && NotPast(w.StoredMission().expiresAt, call.driver.now)
    ensures Replaces(w.StoredEntry(), Final(w, call, s, st))
  {
    hide ObjectsOk, CallsOk, EntryOk, Prefixes, LedgerGrows, VersionStep, SegmentKeeps, VerdictKeeps, AfterDueReturn, AfterDueRaise, Replaces;
    var e := w.StoredEntry();
    SegmentReplaces(e, s);
    if call.driver.DuePass? && s.Returned? {
      AfterDueReturnOk(s.entry, call.driver.now, w.policy, st);
      var (r, verdict) := AfterDueReturn(s.entry, call.driver.now, w.policy, st);
      VerdictReplaces(e, s.entry, call.driver.now, r, verdict);
    } else if call.driver.DuePass? && s.Raised? {
      AfterDueRaiseOk(s.entry, s.error, call.driver.now, w.policy, st);
      var (r, verdict) := AfterDueRaise(s.entry, s.error, call.driver.now, w.policy, st);
      VerdictReplaces(e, s.entry, call.driver.now, r, verdict);
    }
  }

  /** A call that holds the stored object. */
  lemma ConcludeOk(w: World, c: nat, call: Call, s: Segment, st: Stamps)
    requires WorldOk(w) && call.ref == w.stored && CallOk(w, call.(stage := At(AwaitSearch)))
    requires SegmentKeeps(w.StoredEntry(), s) && DueShape(call, s)
    ensures WorldOk(Conclude(w, c, call, s, st)) && Evolves(w, Conclude(w, c, call, s, st))
  {
    hide EntryOk, MissionOk, Prefixes, LedgerGrows, VersionStep, SegmentKeeps, Final, Replaces, Conclude;
    FinalReplaces(w, call, s, st);
    ConcludeIs(w, c, call, s, st);
    var r := Final(w, call, s, st);
    WithStoredOk(w, r);
    if s.Suspended? {
      ReplacesFacts(w.StoredEntry(), r);
      SetCallOk(w.WithStored(r), c, call.(stage := At(s.at), provider := s.provider));
    } else {
      DropCallOk(w.WithStored(r), c);
    }
  }

  lemma ReplacesFacts(e: Entry, r: Entry)
    requires Replaces(e, r)
    ensures r.mission.expiresAt == e.mission.expiresAt && r.mission.executionAttempts >= e.mission.executionAttempts
  {
  }

  /** A call that holds an object the repository has replaced: it writes there and stores nothing. */
  lemma ConcludeIdleOk(w: World, c: nat, call: Call, s: Segment, st: Stamps)
    requires WorldOk(w) && call.ref != w.stored && CallOk(w, call.(stage := At(AwaitSearch)))
    requires !s.Returned? && s.entry.attempts == w.attempts && DueShape(call, s)
    requires MissionOk(s.entry.mission) && Plannable(s.entry.mission.status)
    requires s.entry.mission.id == w.objects[call.ref].id && s.entry.mission.expiresAt == w.objects[call.ref].expiresAt
    ensures WorldOk(Conclude(w, c, call, s, st)) && Evolves(w, Conclude(w, c, call, s, st))
  {
    hide EntryOk, MissionOk, Prefixes, LedgerGrows, VersionStep, Replaces, AfterDueRaise, VerdictKeeps;
    var wrote := w.(objects := w.objects[call.ref := s.entry.mission]);
    WriteIdleOk(w, call.ref, s.entry.mission);
    SameStored(w, wrote);
    match s
    case Suspended(_, at, provider) =>
      SetCallOk(wrote, c, call.(stage := At(at), provider := provider));
    case Raised(_, error) =>
      DropCallOk(wrote, c);
      if call.driver.DuePass? {
        var ended := wrote.(calls := w.calls - {c});
        var e := ended.StoredEntry();
        AfterDueRaiseOk(e, error, call.driver.now, w.policy, st);
        var (r, verdict) := AfterDueRaise(e, error, call.driver.now, w.policy, st);
        SelfReplaces(e);
        VerdictReplaces(e, e, call.driver.now, r, verdict);
        WithStoredOk(ended, r);
      }
  }

  lemma SelfReplaces(e: Entry)
    requires EntryOk(e)
    ensures Replaces(e, e)
  {
  }

  lemma SameStored(w: World, after: World)
    requires WorldOk(w) && after.HasStored() && after.StoredEntry() == w.StoredEntry()
    ensures Evolves(w, after)
  {
  }

  lemma WriteIdleOk(w: World, ref: nat, m: Mission)
    requires WorldOk(w) && ref < |w.objects| && ref != w.stored && MissionOk(m) && Plannable(m.status)
    requires m.id == w.objects[ref].id && m.expiresAt == w.objects[ref].expiresAt
    ensures WorldOk(w.(objects := w.objects[ref := m]))
  {
    hide EntryOk, MissionOk;
    var after := w.(objects := w.objects[ref := m]);
    assert after.StoredEntry() == w.StoredEntry();
    forall i | 0 <= i < |after.objects|
      ensures MissionOk(after.objects[i])
      ensures after.objects[i].id == w.StoredMission().id && after.objects[i].expiresAt == w.StoredMission().expiresAt
      ensures i != after.stored ==> Plannable(after.objects[i].status)
    {
      assert i != ref ==> after.objects[i] == w.objects[i];
    }
    forall k | k in after.calls
      ensures CallOk(after, after.calls[k])
    {
      assert CallOk(w, w.calls[k]);
    }
  }

  // ------------------------------- calls that resume on an object left behind

  /** A ledger that fits an idle mission: what a segment does to the object does not depend on it. */
  function ClosedLedger(n: nat): (a: seq<Attempt>)
    ensures |a| == n && Numbered(a) && !LastIsOpen(a)
  {
    if n == 0 then [] else ClosedLedger(n - 1) + [Attempt(n, AttemptRecovered, 0, Some(0), None, None)]
  }

  /** What a resumed call does to an object that no longer is the stored one. */
  ghost predicate IdleResult(m: Mission, s: Segment, attempts: seq<Attempt>) {
    && !s.Returned? && s.entry.attempts == attempts
    && MissionOk(s.entry.mission) && Plannable(s.entry.mission.status)
    && s.entry.mission.id == m.id && s.entry.mission.expiresAt == m.expiresAt
  }

  lemma IdleKeeps(e: Entry, s: Segment, shadow: Segment)
    requires Plannable(e.mission.status) && IdleStaysIdle(e, s)
    requires SegmentKeeps(Entry(e.mission, ClosedLedger(e.mission.executionAttempts)), shadow)
    requires s.entry.mission == shadow.entry.mission
    ensures IdleResult(e.mission, s, e.attempts)
  {
  }

  lemma IdleSearchOk(e: Entry, processing: bool, provider: ProviderId, answer: SearchAnswer, st: Stamps)
    requires MissionOk(e.mission) && Plannable(e.mission.status)
    ensures IdleResult(e.mission, AfterSearch(e, processing, provider, answer, st), e.attempts)
  {
    hide MissionOk, SegmentKeeps, Emit, Transition;
    var shadow := Entry(e.mission, ClosedLedger(e.mission.executionAttempts));
    IdleSearch(e, processing, provider, answer, st);
    ShadowOk(e.mission);
    AfterSearchOk(shadow, processing, provider, answer, st);
    IdleKeeps(e, AfterSearch(e, processing, provider, answer, st), AfterSearch(shadow, processing, provider, answer, st));
  }

  lemma ShadowOk(m: Mission)
    requires MissionOk(m) && Plannable(m.status)
    ensures EntryOk(Entry(m, ClosedLedger(m.executionAttempts)))
  {
  }

  lemma IdleReserveOk(e: Entry, provider: ProviderId, answer: ReserveAnswer, st: Stamps)
    requires MissionOk(e.mission) && Plannable(e.mission.status)
    ensures IdleResult(e.mission, AfterReserve(e, provider, answer, st), e.attempts)
  {
    hide MissionOk, SegmentKeeps, Emit, Transition;
    var shadow := Entry(e.mission, ClosedLedger(e.mission.executionAttempts));
    IdleReserve(e, provider, answer, st);
    ShadowOk(e.mission);
    AfterReserveOk(shadow, provider, answer, st);
    IdleKeeps(e, AfterReserve(e, provider, answer, st), AfterReserve(shadow, provider, answer, st));
  }

  lemma IdleConfirmOk(e: Entry, answer: CallAnswer, st: Stamps)
    requires MissionOk(e.mission) && Plannable(e.mission.status)
    ensures IdleResult(e.mission, AfterAutoConfirm(e, answer, st), e.attempts)
    ensures IdleResult(e.mission, AfterConfirm(e, answer, st), e.attempts)
  {
    hide MissionOk, SegmentKeeps, Emit, Transition;
    var shadow := Entry(e.mission, ClosedLedger(e.mission.executionAttempts));
    IdleConfirm(e, answer, st);
    ShadowOk(e.mission);
    AfterAutoConfirmOk(shadow, answer, st);
    IdleKeeps(e, AfterAutoConfirm(e, answer, st), AfterAutoConfirm(shadow, answer, st));
    AfterConfirmOk(shadow, answer, st);
    IdleKeeps(e, AfterConfirm(e, answer, st), AfterConfirm(shadow, answer, st));
  }

  // ------------------------------------------------------------ one step

  ghost predicate StepKeeps(w: World, after: World) {
    WorldOk(after) && Evolves(w, after)
  }

  lemma SearchReplyOk(w: World, step: Step)
    requires WorldOk(w) && CanStep(w, step) && step.SearchReply?
    ensures StepKeeps(w, Next(w, step))
  {
    hide EntryOk, MissionOk, Evolves, Conclude, AfterSearch, SegmentKeeps, ObjectsOk;
    var call := w.calls[step.call];
    assert CallOk(w, call);
    var e := EntryOf(w, call.ref);
    var s := AfterSearch(e, call.processing, call.provider, step.search, step.st);
    if call.ref == w.stored {
      AfterSearchOk(e, call.processing, call.provider, step.search, step.st);
      ConcludeOk(w, step.call, call, s, step.st);
    } else {
      IdleObject(w, call.ref);
      IdleSearchOk(e, call.processing, call.provider, step.search, step.st);
      AfterSearchStage(e, call.processing, call.provider, step.search, step.st);
      ConcludeIdleOk(w, step.call, call, s, step.st);
    }
  }

  lemma IdleObject(w: World, ref: nat)
    requires WorldOk(w) && ref < |w.objects| && ref != w.stored
    ensures MissionOk(w.objects[ref]) && Plannable(w.objects[ref].status)
  {
  }

  lemma AfterSearchStage(e: Entry, processing: bool, provider: ProviderId, answer: SearchAnswer, st: Stamps)
    ensures var s := AfterSearch(e, processing, provider, answer, st); s.Suspended? ==> s.at == AwaitReserve
  {
    hide Emit, Transition;
  }

  lemma ReserveReplyOk(w: World, step: Step)
    requires WorldOk(w) && CanStep(w, step) && step.ReserveReply?
    ensures StepKeeps(w, Next(w, step))
  {
    hide EntryOk, MissionOk, Evolves, Conclude, AfterReserve, SegmentKeeps, ObjectsOk, Reserve;
    var call := w.calls[step.call];
    assert CallOk(w, call);
    var (book, answer) := Reserve(w.book, call.provider, ReservationKey(w.objects[call.ref].id), step.fate);
    var w1 := w.(book := book);
    BookIrrelevant(w, book);
    var e := EntryOf(w, call.ref);
    var s := AfterReserve(e, call.provider, answer, step.st);
    if call.ref == w.stored {
      AfterReserveOk(e, call.provider, answer, step.st);
      ConcludeOk(w1, step.call, call, s, step.st);
    } else {
      IdleObject(w, call.ref);
      IdleReserveOk(e, call.provider, answer, step.st);
      AfterReserveStage(e, call.provider, answer, step.st);
      ConcludeIdleOk(w1, step.call, call, s, step.st);
    }
    BookIrrelevantEvolves(w, book, Next(w, step));
  }

  lemma AfterReserveStage(e: Entry, provider: ProviderId, answer: ReserveAnswer, st: Stamps)
    ensures var s := AfterReserve(e, provider, answer, st); s.Suspended? ==> s.at.AwaitAutoConfirm?
  {
    hide Emit, Transition;
  }

  lemma BookIrrelevant(w: World, book: ProviderBook)
    requires WorldOk(w)
    ensures WorldOk(w.(book := book))
  {
    hide EntryOk, MissionOk;
    var after := w.(book := book);
    assert after.StoredEntry() == w.StoredEntry();
    forall k | k in after.calls
      ensures CallOk(after, after.calls[k])
    {
      assert CallOk(w, w.calls[k]);
    }
  }

  lemma BookIrrelevantEvolves(w: World, book: ProviderBook, after: World)
    requires WorldOk(w) && Evolves(w.(book := book), after)
    ensures Evolves(w, after)
  {
    hide Prefixes, LedgerGrows, VersionStep, EntryOk, MissionOk;
  }

  lemma AutoConfirmReplyOk(w: World, step: Step)
    requires WorldOk(w) && CanStep(w, step) && step.AutoConfirmReply?
    ensures StepKeeps(w, Next(w, step))
  {
    hide EntryOk, MissionOk, Evolves, Conclude, AfterAutoConfirm, SegmentKeeps, ObjectsOk, Confirm;
    var call := w.calls[step.call];
    assert CallOk(w, call);
    var book := Confirm(w.book, call.provider, call.stage.await.reservation, step.confirm);
    BookIrrelevant(w, book);
    var e := EntryOf(w, call.ref);
    var s := AfterAutoConfirm(e, step.confirm.answer, step.st);
    if call.ref == w.stored {
      AfterAutoConfirmOk(e, step.confirm.answer, step.st);
      ConcludeOk(w.(book := book), step.call, call, s, step.st);
    } else {
      IdleObject(w, call.ref);
      IdleConfirmOk(e, step.confirm.answer, step.st);
      AfterConfirmStage(e, step.confirm.answer, step.st);
      ConcludeIdleOk(w.(book := book), step.call, call, s, step.st);
    }
    BookIrrelevantEvolves(w, book, Next(w, step));
  }

  lemma AfterConfirmStage(e: Entry, answer: CallAnswer, st: Stamps)
    ensures !AfterAutoConfirm(e, answer, st).Suspended? && !AfterConfirm(e, answer, st).Suspended?
  {
    hide Emit, Transition;
  }

  lemma ConfirmReplyOk(w: World, step: Step)
    requires WorldOk(w) && CanStep(w, step) && step.ConfirmReply?
    ensures StepKeeps(w, Next(w, step))
  {
    hide EntryOk, MissionOk, Evolves, Conclude, AfterConfirm, SegmentKeeps, ObjectsOk, Confirm;
    var call := w.calls[step.call];
    assert CallOk(w, call);
    var book := Confirm(w.book, call.provider, call.stage.await.reservation, step.confirm);
    BookIrrelevant(w, book);
    var e := EntryOf(w, call.ref);
    var s := AfterConfirm(e, step.confirm.answer, step.st);
    if call.ref == w.stored {
      AfterConfirmOk(e, step.confirm.answer, step.st);
      ConcludeOk(w.(book := book), step.call, call, s, step.st);
    } else {
      IdleObject(w, call.ref);
      IdleConfirmOk(e, step.confirm.answer, step.st);
      AfterConfirmStage(e, step.confirm.answer, step.st);
      ConcludeIdleOk(w.(book := book), step.call, call, s, step.st);
    }
    BookIrrelevantEvolves(w, book, Next(w, step));
  }

  lemma StartOk(w: World, step: Step)
    requires WorldOk(w) && CanStep(w, step) && (step.StartDue? || step.StartManual? || step.ConfirmRequest? || step.CancelRequest?)
    ensures StepKeeps(w, Next(w, step))
  {
    hide EntryOk, MissionOk, Evolves, Conclude, StartRun, StartConfirm, StartCancel, SegmentKeeps, ObjectsOk;
    var e := w.StoredEntry();
    var newCall := Call(Api, InLine, w.stored, false, 0);
    match step
    case StartDue(c, resolution, participantsFound, st) =>
      assert CallOk(w, w.calls[c]);
      var call := w.calls[c].(ref := w.stored, processing := e.mission.status == Processing);
      StartRunOk(e, call.driver.now, true, resolution, participantsFound, st);
      ConcludeOk(w, c, call, StartRun(e, call.driver.now, true, resolution, participantsFound, st), st);
    case StartManual(c, now, resolution, participantsFound, st) =>
      StartRunOk(e, now, false, resolution, participantsFound, st);
      ConcludeOk(w, c, newCall, StartRun(e, now, false, resolution, participantsFound, st), st);
    case ConfirmRequest(c, providerKnown, st) =>
      StartConfirmOk(e, providerKnown, st);
      ConcludeOk(w, c, newCall, StartConfirm(e, providerKnown, st), st);
    case CancelRequest(c, providerKnown, st) =>
      StartCancelOk(e, providerKnown, st);
      ConcludeOk(w, c, newCall, StartCancel(e, providerKnown, st), st);
  }

  /** A cancellation of an idle object is stored exactly when the provider accepts it. */
  lemma IdleCancel(e: Entry, answer: CallAnswer, st: Stamps)
    requires Plannable(e.mission.status)
    ensures var s := AfterCancel(e, answer, st);
            if answer.Accepted? then
              && s.Returned? && s.entry.attempts == e.attempts && s.entry.mission.status == Cancelled
              && s.entry.mission.executionAttempts == e.mission.executionAttempts
            else s.Raised? && s.entry == e
  {
    hide DrawEventId;
  }

  /** The answer is applied to the object the call holds; a refused one leaves a replaced object alone. */
  lemma CancelReplyOk(w: World, step: Step)
    requires WorldOk(w) && CanStep(w, step) && step.CancelReply? && !StoresOldCopy(w, step)
    ensures StepKeeps(w, Next(w, step))
  {
    hide EntryOk, MissionOk, Evolves, Conclude, AfterCancel, SegmentKeeps, ObjectsOk;
    var call := w.calls[step.call];
    assert CallOk(w, call);
    var e := EntryOf(w, call.ref);
    if call.ref == w.stored {
      AfterCancelOk(e, step.answer, step.st);
      ConcludeOk(w, step.call, call, AfterCancel(e, step.answer, step.st), step.st);
    } else {
      IdleObject(w, call.ref);
      IdleCancel(e, step.answer, step.st);
      ConcludeIdleOk(w, step.call, call, AfterCancel(e, step.answer, step.st), step.st);
    }
  }

  lemma ServiceReplaces(e: Entry, r: Entry)
    requires ServiceKeeps(e, r)
    ensures Replaces(e, r)
  {
  }

  /** The services that act on the stored mission without suspending. */
  lemma ServiceOk(w: World, step: Step)
    requires WorldOk(w) && CanStep(w, step)
    requires step.RetryRequest? || step.ScheduleRequest? || step.PauseRequest? || step.ResumeRequest? || step.UpdateRequest?
    ensures StepKeeps(w, Next(w, step))
  {
    hide EntryOk, MissionOk, Evolves, ServiceKeeps, ObjectsOk, CallsOk, RetryMission, ScheduleMission, PauseMission, ResumeMission, UpdateMission;
    var e := w.StoredEntry();
    SameWorld(w);
    match step
    case RetryRequest(retryAt, now, st) =>
      RetryOk(e, retryAt, now, st);
      ServeOk(w, RetryMission(e, retryAt, now, st));
    case ScheduleRequest(at, now, st) =>
      ScheduleOk(e, at, now, st);
      ServeOk(w, ScheduleMission(e, at, now, st));
    case PauseRequest(st) =>
      PauseOk(e, st);
      ServeOk(w, PauseMission(e, st));
    case ResumeRequest(st) =>
      ResumeOk(e, st);
      ServeOk(w, ResumeMission(e, st));
    case UpdateRequest(changes, modeSupport, st) =>
      UpdateOk(e, changes, modeSupport, st);
      ServeOk(w, UpdateMission(e, changes, modeSupport, st));
  }

  lemma ServeOk(w: World, r: Result<Entry, Error>)
    requires WorldOk(w) && (r.Success? ==> ServiceKeeps(w.StoredEntry(), r.value))
    ensures StepKeeps(w, Serve(w, r))
  {
    hide EntryOk, MissionOk, ObjectsOk, CallsOk, ServiceKeeps, Replaces, Evolves;
    SameWorld(w);
    if r.Success? {
      ServiceReplaces(w.StoredEntry(), r.value);
      WithStoredOk(w, r.value);
    }
  }

  lemma ClaimDueOk(w: World, step: Step)
    requires WorldOk(w) && CanStep(w, step) && step.ClaimDue?
    ensures StepKeeps(w, Next(w, step))
  {
    hide EntryOk, MissionOk, ObjectsOk, CallsOk, Claim, Prefixes, LedgerGrows, VersionStep, Replaces;
    var r := Claim(w.StoredEntry(), step.now);
    ClaimReplaces(w, step.now);
    WithStoredOk(w, r);
    SetCallOk(w.WithStored(r), step.call, Call(DuePass(step.now), InLine, w.stored, false, 0));
  }

  /** Expiry and recovery by the repository, and the end of an abandoned call. */
  lemma RepositoryStepOk(w: World, step: Step)
    requires WorldOk(w) && CanStep(w, step)
    requires step.ExpireDue? || step.RecoverStale? || step.Abandon?
    ensures StepKeeps(w, Next(w, step))
  {
    hide MissionOk, LedgerOk, Evolves, ObjectsOk, CallsOk, Claim, Recover, Expire, Prefixes, LedgerGrows;
    var e := w.StoredEntry();
    match step
    case ExpireDue(now, st) =>
      ExpireReplaces(e, now, st);
      WithStoredOk(w, e.(mission := Expire(e.mission, now, st)));
    case RecoverStale(now, _, st) =>
      RecoverOk(e, now, st);
      ServiceReplaces(e, Recover(e, now, st));
      WithStoredOk(w, Recover(e, now, st));
    case Abandon(c) =>
      DropCallOk(w, c);
      SameStored(w, Next(w, step));
  }

  lemma ExpireReplaces(e: Entry, now: Time, st: Stamps)
    requires EntryOk(e) && ExpiryDue(e.mission, now)
    ensures Replaces(e, e.(mission := Expire(e.mission, now, st)))
  {
    ExpireOk(e, now, st);
    SegmentReplaces(e, Raised(e.(mission := Expire(e.mission, now, st)), NotReady));
  }

  lemma ClaimReplaces(w: World, now: Time)
    requires WorldOk(w) && Due(w.StoredMission(), now)
    ensures Replaces(w.StoredEntry(), Claim(w.StoredEntry(), now))
    ensures var m := Claim(w.StoredEntry(), now).mission; m.executionAttempts >= 1 && NotPast(m.expiresAt, now)
  {
    hide ObjectsOk, CallsOk, MissionOk, LedgerOk, Prefixes, LedgerGrows;
    ClaimOk(w.StoredEntry(), now);
  }

  /** Choosing another provider stores a copy; the object it replaces is idle. */
  lemma SelectRequestOk(w: World, step: Step)
    requires WorldOk(w) && CanStep(w, step) && step.SelectRequest?
    ensures StepKeeps(w, Next(w, step))
  {
    hide EntryOk, MissionOk, Prefixes, LedgerGrows, VersionStep, SelectProvider;
    var e := w.StoredEntry();
    SelectOk(e, step.choice, step.support, step.now, step.st);
    SameWorld(w);
    match SelectProvider(e, step.choice, step.support, step.now, step.st)
    case Success(Some(copy)) =>
      ServiceReplaces(e, copy);
      EntryHasMission(copy);
      var after := Next(w, step);
      assert after.StoredEntry() == copy;
      forall i | 0 <= i < |after.objects|
        ensures MissionOk(after.objects[i])
        ensures after.objects[i].id == copy.mission.id && after.objects[i].expiresAt == copy.mission.expiresAt
        ensures i != after.stored ==> Plannable(after.objects[i].status)
      {
        assert i != after.stored ==> after.objects[i] == w.objects[i];
      }
      forall c | c in after.calls
        ensures CallOk(after, after.calls[c])
      {
        assert CallOk(w, w.calls[c]);
      }
    case Success(None) =>
    case Failure(_) =>
  }

  lemma StepOk(w: World, step: Step)
    requires WorldOk(w) && CanStep(w, step) && !StoresOldCopy(w, step)
    ensures StepKeeps(w, Next(w, step))
  {
    hide WorldOk, StepKeeps, Next, StoresOldCopy;
    match step
    case SearchReply(_, _, _) => SearchReplyOk(w, step);
    case ReserveReply(_, _, _) => ReserveReplyOk(w, step);
    case AutoConfirmReply(_, _, _) => AutoConfirmReplyOk(w, step);
    case ConfirmReply(_, _, _) => ConfirmReplyOk(w, step);
    case CancelReply(_, _, _) => CancelReplyOk(w, step);
    case StartDue(_, _, _, _) => StartOk(w, step);
    case StartManual(_, _, _, _, _) => StartOk(w, step);
    case ConfirmRequest(_, _, _) => StartOk(w, step);
    case CancelRequest(_, _, _) => StartOk(w, step);
    case RetryRequest(_, _, _) => ServiceOk(w, step);
    case ScheduleRequest(_, _, _) => ServiceOk(w, step);
    case PauseRequest(_) => ServiceOk(w, step);
    case ResumeRequest(_) => ServiceOk(w, step);
    case UpdateRequest(_, _, _) => ServiceOk(w, step);
    case ClaimDue(_, _) => ClaimDueOk(w, step);
    case ExpireDue(_, _) => RepositoryStepOk(w, step);
    case RecoverStale(_, _, _) => RepositoryStepOk(w, step);
    case Abandon(_) => RepositoryStepOk(w, step);
    case SelectRequest(_, _, _, _) => SelectRequestOk(w, step);
  }

  // ---------------------------------------------------------------- whole runs

  lemma InitialOk(w: World)
    requires Initial(w)
    ensures WorldOk(w)
  {
  }

  lemma {:induction false} RunOk(run: seq<World>, n: nat)
    requires IsRun(NoStaleCopy, run) && n < |run|
    ensures WorldOk(run[n])
  {
    if n == 0 {
      InitialOk(run[0]);
    } else {
      RunOk(run, n - 1);
      FollowsOk(run[n - 1], run[n]);
    }
  }

  lemma FollowsOk(w: World, after: World)
    requires WorldOk(w) && Follows(NoStaleCopy, w, after)
    ensures StepKeeps(w, after)
  {
    hide WorldOk, StepKeeps, Next;
    var step :| CanStep(w, step) && Permits(NoStaleCopy, w, step) && after == Next(w, step);
    StepOk(w, step);
  }

  /**
   Attempt ledger, in every interleaving in which no accepted cancellation stores a replaced object,
   including recovery during a live run: attempts are numbered 1..execution_attempts, only the
   last may be open, it is open exactly while the mission is processing and then carries the mission's
   claim time, and a closed attempt never changes again.
   */
  lemma AttemptLedger(run: seq<World>, i: nat, j: nat)
    requires IsRun(NoStaleCopy, run) && i <= j < |run|
    ensures run[j].HasStored() && LedgerOk(run[j].StoredEntry())
    ensures LedgerGrows(run[i].attempts, run[j].attempts)
  {
    RunOk(run, j);
    RunEvolves(run, i, j);
  }

  lemma {:induction false} RunEvolves(run: seq<World>, i: nat, j: nat)
    requires IsRun(NoStaleCopy, run) && i <= j < |run|
    ensures WorldOk(run[i]) && WorldOk(run[j]) && Evolves(run[i], run[j])
    decreases j
  {
    hide WorldOk, Evolves, Next, CanStep, StoresOldCopy, Initial;
    RunOk(run, i);
    if i == j {
      SameWorld(run[i]);
    } else {
      RunEvolves(run, i, j - 1);
      FollowsOk(run[j - 1], run[j]);
      EvolvesComposes(run[i], run[j - 1], run[j]);
    }
  }

  lemma EvolvesComposes(a: World, b: World, c: World)
    requires WorldOk(a) && WorldOk(b) && StepKeeps(b, c) && Evolves(a, b)
    ensures Evolves(a, c)
  {
    hide EntryOk, ObjectsOk, CallsOk, LedgerGrows, Prefixes;
    EvolvesMore(a, b, c);
  }

  lemma EvolvesMore(a: World, b: World, c: World)
    requires WorldOk(a) && WorldOk(b) && Evolves(b, c) && Evolves(a, b)
    ensures Prefixes(a.StoredMission(), c.StoredMission()) && LedgerGrows(a.attempts, c.attempts)
    ensures VersionStep(a.StoredMission(), c.StoredMission())
  {
    hide ObjectsOk, CallsOk;
    LedgerGrowsTransitive(a.attempts, b.attempts, c.attempts);
    VersionComposes(a.StoredMission(), b.StoredMission(), c.StoredMission());
  }

  lemma VersionComposes(a: Mission, b: Mission, c: Mission)
    requires VersionStep(a, b) && VersionStep(b, c)
    ensures VersionStep(a, c)
  {
  }

  /** The attempt counter is the length of the ledger. */
  lemma AttemptCount(run: seq<World>, n: nat)
    requires IsRun(NoStaleCopy, run) && n < |run|
    ensures run[n].HasStored() && run[n].StoredMission().executionAttempts == |run[n].attempts|
  {
    RunOk(run, n);
  }

  /** The stored log is only ever extended. */
  lemma LogOnlyGrows(run: seq<World>, i: nat, j: nat)
    requires IsRun(NoStaleCopy, run) && i <= j < |run|
    ensures run[i].HasStored() && run[j].HasStored()
    ensures run[i].StoredMission().log <= run[j].StoredMission().log
  {
    RunEvolves(run, i, j);
  }

  /**
   Version: two states of a mission with the same `last_event_sequence`, which is the entity tag the
   API compares, are equal or differ by exactly one claim.
   */
  lemma VersionIdentifiesState(run: seq<World>, i: nat, j: nat)
    requires IsRun(NoStaleCopy, run) && i <= j < |run|
    requires run[i].HasStored() && run[j].HasStored()
    requires run[i].StoredMission().lastEventSequence == run[j].StoredMission().lastEventSequence
    ensures run[i].StoredMission() == run[j].StoredMission() || OneClaim(run[i].StoredMission(), run[j].StoredMission())
  {
    RunEvolves(run, i, j);
  }
}
