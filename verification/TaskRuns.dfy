/**
 A task over its whole life: planning, approvals, execution in chunks, agent results, pausing, resuming and
 cancelling (app/api/routes/tasks.py), and what the journal and the approvals can be trusted for.
 */
module TaskRuns {
  import opened Wrappers
  import opened TaskExecutor

  // -------------------------------------------------------------- the requests

  datatype AgentStatus = AgentCompleted | AgentWaiting(reason: UserActionReason) | AgentExhausted | AgentFailed

  datatype Request =
    | PreparePlan(plan: Plan)
    | ApproveStep(step: StepId, approvalId: nat, at: Time)
    | ExecutePlan(maxSteps: Option<int>, env: Environment)
    | AgentRun(result: AgentStatus, stepByStep: bool, snapshot: Option<nat>)
    | Clarify
    | MapPage(fillPlan: nat)
    | Pause
    | Resume
    | Cancel

  /** `execute_task` first reopens a task that waits for the user, except for sensitive data or a clarification. */
  function Reopen(t: Task): Task {
    if t.status == WaitingForUser && t.waitingReason.Some?
       && t.waitingReason.value in {AuthenticationRequired, CaptchaRequired, ConfirmationRequired, PaymentRequired}
    then t.(status := Ready, waitingReason := None)
    else t
  }

  /** `approve_task_step`; None is the conflict response. */
  function Approved(t: Task, step: StepId, approvalId: nat, at: Time): Option<Task> {
    if t.status != WaitingForUser || t.waitingReason.None? || t.plan.None? || t.journal.None? || t.journal.value == [] then None
    else
      var blocked := t.journal.value[|t.journal.value| - 1];
      if blocked.outcome != Blocked || blocked.stepId != step then None
      else if blocked.code != ByUser(t.waitingReason.value) then None
      else if exists a :: a in t.approvals && a.stepId == blocked.stepId && a.consumedAt.None? then None
      else
        Some(t.(
          approvals := t.approvals + [Approval(approvalId, t.plan.value.version, blocked.stepId, t.waitingReason.value, at, None)],
          status := Ready, waitingReason := None))
  }

  /** `_apply_agent_result`. */
  function AgentApplied(t: Task, result: AgentStatus, stepByStep: bool, snapshot: Option<nat>): Task {
    var changed := t.(snapshot := snapshot, fillPlan := None, waitingReason := None);
    match result
    case AgentCompleted => changed.(status := TaskCompleted)
    case AgentWaiting(reason) => changed.(status := WaitingForUser, waitingReason := Some(reason))
    case AgentExhausted => changed.(status := if stepByStep then Ready else TaskFailed)
    case AgentFailed => changed.(status := TaskFailed)
  }

  /** The stored task after a request; a refused request leaves it as it was. */
  function Handle(t: Task, r: Request): Task {
    match r
    case PreparePlan(plan) =>
      if t.status in {Running, TaskCompleted, TaskCancelled} then t
      else t.(plan := Some(plan), journal := None, approvals := [], snapshot := None, fillPlan := None,
              status := Ready, waitingReason := None)
    case ApproveStep(step, approvalId, at) =>
      (match Approved(t, step, approvalId, at)
       case Some(approved) => approved
       case None => t)
    case ExecutePlan(maxSteps, env) =>
      (match Execute(Reopen(t), maxSteps, env)
       case Success(executed) => executed
       case Failure(_) => t)
    case AgentRun(result, stepByStep, snapshot) =>
      if Reopen(t).status in {Ready, Running} then AgentApplied(Reopen(t), result, stepByStep, snapshot) else t
    case Clarify =>
      if t.status == WaitingForUser && t.waitingReason == Some(ClarificationRequired) then t.(status := Ready, waitingReason := None)
      else t
    case MapPage(fillPlan) => if t.snapshot.Some? then t.(fillPlan := Some(fillPlan)) else t
    case Pause =>
      if t.status in {TaskCompleted, TaskCancelled, TaskPaused} then t else t.(status := TaskPaused, waitingReason := None)
    case Resume =>
      if t.status in {TaskPaused, TaskFailed, Monitoring, WaitingForUser} then t.(status := Ready, waitingReason := None) else t
    case Cancel =>
      if t.status in {TaskCompleted, TaskCancelled} then t else t.(status := TaskCancelled, waitingReason := None)
  }

  /** The planner's plans are valid, and approval ids are new. */
  ghost predicate CanHandle(t: Task, r: Request) {
    match r
    case PreparePlan(plan) => ValidPlan(plan)
    case ApproveStep(_, approvalId, _) => forall a :: a in t.approvals ==> a.id != approvalId
    case _ => true
  }

  ghost predicate Fresh(t: Task) {
    t.status == Draft && t.waitingReason.None? && t.plan.None? && t.journal.None? && t.approvals == []
  }

  ghost predicate IsTaskRun(run: seq<Task>) {
    && run != [] && Fresh(run[0])
    && forall i :: 0 < i < |run| ==> StepsTo(run[i - 1], run[i])
  }

  ghost predicate StepsTo(t: Task, after: Task) {
    exists r :: Leads(t, r, after)
  }

  ghost predicate Leads(t: Task, r: Request, after: Task) {
    CanHandle(t, r) && after == Handle(t, r)
  }

  // --------------------------------------------------------------- invariants

  /** A start happens when exactly the steps before it in the plan have succeeded, and with an approval where one is asked. */
  ghost predicate StartsRight(t: Task, plan: Plan, journal: seq<Entry>, i: nat)
    requires i < |journal|
  {
    exists k :: 0 <= k < |plan.steps| && StartsStep(t, plan, journal, i, k)
  }

  ghost predicate StartsStep(t: Task, plan: Plan, journal: seq<Entry>, i: nat, k: nat)
    requires i < |journal| && k < |plan.steps|
  {
    && plan.steps[k].id == journal[i].stepId
    && SucceededIn(journal[..i]) == IdsBefore(plan.steps, k)
    && !Decide(t.policy, t.origin, plan.steps[k]).Denied?
    && (Decide(t.policy, t.origin, plan.steps[k]).AsksUser? <==> journal[i].code == UserApproved)
  }

  /** A step is blocked for the reason it asks the user. */
  ghost predicate BlocksRight(t: Task, plan: Plan, e: Entry) {
    e.outcome == Blocked ==>
      e.code.ByUser? && exists k :: 0 <= k < |plan.steps| && AsksFor(t, plan.steps[k], e.stepId, e.code.reason)
  }

  ghost predicate EntryOk(t: Task, plan: Plan, journal: seq<Entry>, i: nat)
    requires i < |journal|
  {
    && journal[i].sequence == i + 1
    && BlocksRight(t, plan, journal[i])
    && (journal[i].outcome == Started ==>
          && i + 1 < |journal| && journal[i + 1].stepId == journal[i].stepId
          && (journal[i + 1].outcome == Succeeded || journal[i + 1].outcome == Failed)
          && StartsRight(t, plan, journal, i))
    && (journal[i].outcome == Succeeded ==>
          i > 0 && journal[i - 1].outcome == Started && journal[i - 1].stepId == journal[i].stepId)
  }

  ghost predicate JournalOk(t: Task, plan: Plan, journal: seq<Entry>) {
    && (forall i :: 0 <= i < |journal| ==> EntryOk(t, plan, journal, i))
    && IsPrefixDone(plan, journal)
  }

  ghost predicate IsPrefixDone(plan: Plan, journal: seq<Entry>) {
    exists n :: 0 <= n <= |plan.steps| && SucceededIn(journal) == IdsBefore(plan.steps, n)
  }

  /** Starts of a step that say the user approved it. */
  function ApprovedStarts(journal: seq<Entry>, id: StepId): nat {
    if journal == [] then 0
    else ApprovedStarts(journal[..|journal| - 1], id) + ApprovedStart(journal[|journal| - 1], id)
  }

  function ApprovedStart(e: Entry, id: StepId): nat {
    if e.outcome == Started && e.code == UserApproved && e.stepId == id then 1 else 0
  }

  /** Approvals of a step that are used up. */
  function Consumed(approvals: seq<Approval>, id: StepId): nat {
    if approvals == [] then 0
    else Consumed(approvals[..|approvals| - 1], id) + UsedUp(approvals[|approvals| - 1], id)
  }

  function UsedUp(a: Approval, id: StepId): nat {
    if a.consumedAt.Some? && a.stepId == id then 1 else 0
  }

  ghost predicate Balanced(journal: seq<Entry>, approvals: seq<Approval>) {
    forall id :: ApprovedStarts(journal, id) == Consumed(approvals, id)
  }

  /** An approval is used up for this version of the plan, and for the reason its step asks the user. */
  ghost predicate SpentRight(t: Task, plan: Plan, a: Approval) {
    a.consumedAt.Some? ==>
      a.planVersion == plan.version && exists k :: 0 <= k < |plan.steps| && AsksFor(t, plan.steps[k], a.stepId, a.reason)
  }

  predicate AsksFor(t: Task, step: PlanStep, id: StepId, reason: UserActionReason) {
    step.id == id && Decide(t.policy, t.origin, step) == AsksUser(reason)
  }

  ghost predicate AllSpentRight(t: Task, plan: Plan, approvals: seq<Approval>) {
    forall i :: 0 <= i < |approvals| ==> SpentRight(t, plan, approvals[i])
  }

  ghost predicate ApprovalsOk(approvals: seq<Approval>) {
    forall i, j :: 0 <= i < j < |approvals| ==> approvals[i].id != approvals[j].id
  }

  ghost predicate TaskOk(t: Task) {
    match t.plan
    case None => t.journal.None? && t.approvals == []
    case Some(plan) =>
      && ValidPlan(plan) && JournalOk(t, plan, JournalOf(t)) && ApprovalsOk(t.approvals)
      && Balanced(JournalOf(t), t.approvals) && AllSpentRight(t, plan, t.approvals)
  }

  // ------------------------------------------------------------ journal lemmas

  lemma SucceededAppend(journal: seq<Entry>, e: Entry)
    ensures SucceededIn(journal + [e]) == SucceededIn(journal) + (if e.outcome == Succeeded then {e.stepId} else {})
  {
  }

  lemma ApprovedStartsAppend(journal: seq<Entry>, e: Entry)
    ensures forall id :: ApprovedStarts(journal + [e], id) == ApprovedStarts(journal, id) + ApprovedStart(e, id)
  {
    assert (journal + [e])[..|journal|] == journal;
  }

  /** Entries that are already right stay right when more follow. */
  lemma EntriesStay(t: Task, plan: Plan, journal: seq<Entry>, more: seq<Entry>, i: nat)
    requires i < |journal| && EntryOk(t, plan, journal, i)
    ensures EntryOk(t, plan, journal + more, i)
  {
    var longer := journal + more;
    assert longer[..i] == journal[..i];
    if journal[i].outcome == Started {
      var k :| 0 <= k < |plan.steps| && StartsStep(t, plan, journal, i, k);
      assert StartsStep(t, plan, longer, i, k);
    }
  }

  /** A blocked or denied step adds one entry and changes nothing else. */
  lemma StopEntryOk(t: Task, plan: Plan, journal: seq<Entry>, e: Entry)
    requires JournalOk(t, plan, journal) && e.sequence == |journal| + 1 && (e.outcome == Blocked || e.outcome == Failed)
    requires BlocksRight(t, plan, e)
    ensures JournalOk(t, plan, journal + [e])
    ensures forall id :: ApprovedStarts(journal + [e], id) == ApprovedStarts(journal, id)
    ensures SucceededIn(journal + [e]) == SucceededIn(journal)
  {
    hide EntryOk;
    SucceededAppend(journal, e);
    ApprovedStartsAppend(journal, e);
    LastEntryOk(t, plan, journal, e);
    forall i | 0 <= i < |journal|
      ensures EntryOk(t, plan, journal + [e], i)
    {
      EntriesStay(t, plan, journal, [e], i);
    }
    var n :| 0 <= n <= |plan.steps| && SucceededIn(journal) == IdsBefore(plan.steps, n);
    assert SucceededIn(journal + [e]) == IdsBefore(plan.steps, n);
  }

  lemma LastEntryOk(t: Task, plan: Plan, journal: seq<Entry>, e: Entry)
    requires e.sequence == |journal| + 1 && (e.outcome == Blocked || e.outcome == Failed) && BlocksRight(t, plan, e)
    ensures EntryOk(t, plan, journal + [e], |journal|)
  {
  }

  /** A run step adds its start and its end. */
  lemma RunEntriesOk(t: Task, plan: Plan, journal: seq<Entry>, k: nat, start: Entry, end: Entry)
    requires JournalOk(t, plan, journal) && ValidPlan(plan) && k < |plan.steps|
    requires SucceededIn(journal) == IdsBefore(plan.steps, k)
    requires start.sequence == |journal| + 1 && start.outcome == Started && start.stepId == plan.steps[k].id
    requires !Decide(t.policy, t.origin, plan.steps[k]).Denied?
    requires Decide(t.policy, t.origin, plan.steps[k]).AsksUser? <==> start.code == UserApproved
    requires end.sequence == |journal| + 2 && end.stepId == start.stepId && (end.outcome == Succeeded || end.outcome == Failed)
    ensures JournalOk(t, plan, journal + [start, end])
    ensures forall id :: ApprovedStarts(journal + [start, end], id) == ApprovedStarts(journal, id) + ApprovedStart(start, id)
    ensures SucceededIn(journal + [start, end]) == IdsBefore(plan.steps, if end.outcome == Succeeded then k + 1 else k)
  {
    hide EntryOk, Decide, SucceededIn, IdsBefore, ValidPlan, ApprovedStarts;
    var longer := journal + [start, end];
    TwoMore(plan, journal, k, start, end);
    forall i | 0 <= i < |journal|
      ensures EntryOk(t, plan, longer, i)
    {
      EntriesStay(t, plan, journal, [start, end], i);
    }
    StartEntryOk(t, plan, journal, k, start, end);
    assert IsPrefixDone(plan, longer);
  }

  lemma TwoMore(plan: Plan, journal: seq<Entry>, k: nat, start: Entry, end: Entry)
    requires k < |plan.steps| && SucceededIn(journal) == IdsBefore(plan.steps, k)
    requires start.outcome == Started && start.stepId == end.stepId == plan.steps[k].id
    requires end.outcome == Succeeded || end.outcome == Failed
    ensures forall id :: ApprovedStarts(journal + [start, end], id) == ApprovedStarts(journal, id) + ApprovedStart(start, id)
    ensures SucceededIn(journal + [start, end]) == IdsBefore(plan.steps, if end.outcome == Succeeded then k + 1 else k)
  {
    hide SucceededIn, ApprovedStarts;
    assert journal + [start, end] == journal + [start] + [end];
    SucceededAppend(journal, start);
    SucceededAppend(journal + [start], end);
    ApprovedStartsAppend(journal, start);
    ApprovedStartsAppend(journal + [start], end);
    assert IdsBefore(plan.steps, k + 1) == IdsBefore(plan.steps, k) + {plan.steps[k].id};
  }

  lemma StartEntryOk(t: Task, plan: Plan, journal: seq<Entry>, k: nat, start: Entry, end: Entry)
    requires k < |plan.steps| && SucceededIn(journal) == IdsBefore(plan.steps, k)
    requires start.sequence == |journal| + 1 && start.outcome == Started && start.stepId == plan.steps[k].id
    requires !Decide(t.policy, t.origin, plan.steps[k]).Denied?
    requires Decide(t.policy, t.origin, plan.steps[k]).AsksUser? <==> start.code == UserApproved
    requires end.sequence == |journal| + 2 && end.stepId == start.stepId && (end.outcome == Succeeded || end.outcome == Failed)
    ensures EntryOk(t, plan, journal + [start, end], |journal|)
    ensures EntryOk(t, plan, journal + [start, end], |journal| + 1)
  {
    hide Decide;
    var longer := journal + [start, end];
    assert longer[..|journal|] == journal;
    assert StartsStep(t, plan, longer, |journal|, k);
  }

  // ----------------------------------------------------------- approval lemmas

  /** Using an approval consumes exactly one. */
  lemma {:induction false} ConsumeOne(approvals: seq<Approval>, k: nat, at: Time)
    requires ApprovalsOk(approvals) && k < |approvals| && approvals[k].consumedAt.None?
    ensures forall id ::
              Consumed(Consume(approvals, approvals[k], at), id) ==
              Consumed(approvals, id) + (if id == approvals[k].stepId then 1 else 0)
    ensures ApprovalsOk(Consume(approvals, approvals[k], at))
  {
    var n := |approvals| - 1;
    var after := Consume(approvals, approvals[k], at);
    if k == n {
      assert forall i :: 0 <= i < n ==> after[i] == approvals[i];
      assert after[..n] == approvals[..n];
    } else {
      ConsumeOne(approvals[..n], k, at);
      assert after[..n] == Consume(approvals[..n], approvals[k], at);
    }
  }

  lemma ConsumedRight(t: Task, plan: Plan, k: nat, n: nat, reason: UserActionReason, at: Time)
    requires AllSpentRight(t, plan, t.approvals) && n < |t.approvals| && k < |plan.steps|
    requires t.approvals[n].planVersion == plan.version && AsksFor(t, plan.steps[k], t.approvals[n].stepId, reason)
    requires t.approvals[n].reason == reason
    ensures AllSpentRight(t, plan, Consume(t.approvals, t.approvals[n], at))
  {
    hide Decide;
    var after := Consume(t.approvals, t.approvals[n], at);
    forall i | 0 <= i < |after|
      ensures SpentRight(t, plan, after[i])
    {
      assert SpentRight(t, plan, t.approvals[i]);
    }
  }

  lemma ConsumedAppend(approvals: seq<Approval>, a: Approval)
    ensures forall id :: Consumed(approvals + [a], id) == Consumed(approvals, id) + UsedUp(a, id)
  {
    assert (approvals + [a])[..|approvals|] == approvals;
  }

  // ----------------------------------------------------------------- execution

  ghost predicate MidRun(t: Task, plan: Plan) {
    && t.plan == Some(plan) && t.journal.Some? && ValidPlan(plan)
    && JournalOk(t, plan, JournalOf(t)) && ApprovalsOk(t.approvals)
    && Balanced(JournalOf(t), t.approvals) && AllSpentRight(t, plan, t.approvals)
  }

  /** The invariant speaks of the plan, the policy, the journal and the approvals only. */
  lemma MidRunSame(t: Task, r: Task, plan: Plan)
    requires MidRun(t, plan) && r.journal.Some? && JournalOf(r) == JournalOf(t) && r.plan == t.plan
    requires r.policy == t.policy && r.origin == t.origin && r.approvals == t.approvals
    ensures MidRun(r, plan)
  {
    hide SucceededIn, IdsBefore, Decide;
    JournalSame(t, r, plan, JournalOf(t));
  }

  lemma JournalSame(t: Task, r: Task, plan: Plan, journal: seq<Entry>)
    requires JournalOk(t, plan, journal) && r.policy == t.policy && r.origin == t.origin
    ensures JournalOk(r, plan, journal)
  {
    hide SucceededIn, IdsBefore, Decide;
    forall i | 0 <= i < |journal|
      ensures EntryOk(r, plan, journal, i)
    {
      assert EntryOk(t, plan, journal, i);
      if journal[i].outcome == Started {
        var k :| 0 <= k < |plan.steps| && StartsStep(t, plan, journal, i, k);
        assert StartsStep(r, plan, journal, i, k);
      }
    }
  }

  lemma RunStepOk(t: Task, s: Task, plan: Plan, k: nat, code: Code, at: Time, env: Environment)
    requires MidRun(t, plan) && k < |plan.steps| && SucceededIn(JournalOf(t)) == IdsBefore(plan.steps, k)
    requires !Decide(t.policy, t.origin, plan.steps[k]).Denied?
    requires Decide(t.policy, t.origin, plan.steps[k]).AsksUser? <==> code == UserApproved
    requires s.journal == t.journal && s.plan == t.plan && s.policy == t.policy && s.origin == t.origin
    requires ApprovalsOk(s.approvals) && AllSpentRight(t, plan, s.approvals)
    requires forall other ::
               Consumed(s.approvals, other) ==
               Consumed(t.approvals, other) + (if code == UserApproved && other == plan.steps[k].id then 1 else 0)
    ensures var p := RunStep(Log(s, plan.steps[k].id, Started, code, at), plan.steps[k].id, env);
            MidRun(p.task, plan) && (p.Advanced? ==> SucceededIn(JournalOf(p.task)) == IdsBefore(plan.steps, k + 1))
  {
    hide Decide, EntryOk, SucceededIn, IdsBefore, ApprovalsOk, ValidPlan;
    var id := plan.steps[k].id;
    var journal := JournalOf(t);
    var started := Log(s, id, Started, code, at);
    var p := RunStep(started, id, env);
    var start := Entry(|journal| + 1, at, id, Started, code);
    assert JournalOf(started) == journal + [start];
    var end := JournalOf(p.task)[|journal| + 1];
    assert JournalOf(p.task) == journal + [start, end];
    RunEntriesOk(t, plan, journal, k, start, end);
    JournalSame(t, p.task, plan, journal + [start, end]);
  }

  lemma TurnOk(t: Task, plan: Plan, k: nat, env: Environment)
    requires MidRun(t, plan) && k < |plan.steps| && SucceededIn(JournalOf(t)) == IdsBefore(plan.steps, k)
    ensures var p := Turn(t, plan.version, plan.steps[k], env);
            MidRun(p.task, plan) && (p.Advanced? ==> SucceededIn(JournalOf(p.task)) == IdsBefore(plan.steps, k + 1))
  {
    hide Decide, JournalOk, SucceededIn, IdsBefore, ApprovalsOk, ValidPlan, RunStep, ApprovedStarts, Consumed, Consume;
    var step := plan.steps[k];
    var journal := JournalOf(t);
    var now := env.clock(|journal|);
    match Decide(t.policy, t.origin, step)
    case Denied(code) => StopOk(t, plan, step.id, Failed, ByPolicy(code), now);
    case Allowed(code) => RunStepOk(t, t, plan, k, ByPolicy(code), now, env);
    case AsksUser(reason) =>
      match FindApproval(t.approvals, plan.version, step.id, reason)
      case None => StopOk(t, plan, step.id, Blocked, ByUser(reason), now);
      case Some(n) =>
        FoundApproval(t.approvals, plan.version, step.id, reason);
        ConsumeOne(t.approvals, n, now);
        ConsumedRight(t, plan, k, n, reason, now);
        RunStepOk(t, t.(approvals := Consume(t.approvals, t.approvals[n], now)), plan, k, UserApproved, now, env);
  }

  lemma StopOk(t: Task, plan: Plan, id: StepId, outcome: Outcome, code: Code, at: Time)
    requires MidRun(t, plan) && (outcome == Blocked || outcome == Failed)
    requires BlocksRight(t, plan, Entry(0, at, id, outcome, code))
    ensures forall status, reason ::
              MidRun(Log(t, id, outcome, code, at).(status := status, waitingReason := reason), plan)
  {
    hide EntryOk, SucceededIn, IdsBefore, ApprovalsOk, ValidPlan, ApprovedStarts, Consumed;
    var journal := JournalOf(t);
    var e := Entry(|journal| + 1, at, id, outcome, code);
    StopEntryOk(t, plan, journal, e);
    var logged := Log(t, id, outcome, code, at);
    JournalSame(t, logged, plan, journal + [e]);
    forall status, reason
      ensures MidRun(logged.(status := status, waitingReason := reason), plan)
    {
      MidRunSame(logged, logged.(status := status, waitingReason := reason), plan);
    }
  }

  /** The first step that is not done is the one right after the done prefix. */
  lemma NextIsFirst(plan: Plan, i: nat, done: set<StepId>, n: nat)
    requires ValidPlan(plan) && i < |plan.steps| && n <= |plan.steps|
    requires IdsBefore(plan.steps, i) <= done && done == IdsBefore(plan.steps, n) && plan.steps[i].id !in done
    ensures n == i
  {
    InIdsBefore(plan, i, n);
    if n < i {
      InIdsBefore(plan, n, i);
      InIdsBefore(plan, n, n);
    }
  }

  lemma InIdsBefore(plan: Plan, m: nat, n: nat)
    requires ValidPlan(plan) && m < |plan.steps| && n <= |plan.steps|
    ensures plan.steps[m].id in IdsBefore(plan.steps, n) <==> m < n
  {
  }

  /** The loop keeps the invariant, whatever the runner and the clock say. */
  lemma {:induction false} RunFromOk(t: Task, plan: Plan, i: nat, done: set<StepId>, budget: Option<int>, env: Environment)
    requires MidRun(t, plan) && i <= |plan.steps|
    requires IdsBefore(plan.steps, i) <= done && done == SucceededIn(JournalOf(t))
    ensures MidRun(RunFrom(t, plan, i, done, budget, env), plan)
    decreases |plan.steps| - i
  {
    hide Turn, JournalOk, ApprovalsOk, ApprovedStarts, Consumed, SucceededIn;
    if i == |plan.steps| {
      MidRunSame(t, t.(status := Prepared), plan);
    } else {
      assert IdsBefore(plan.steps, i + 1) == IdsBefore(plan.steps, i) + {plan.steps[i].id};
      if plan.steps[i].id in done {
        RunFromOk(t, plan, i + 1, done, budget, env);
      } else {
        PrefixIs(t, plan, i, done);
        TurnOk(t, plan, i, env);
        var p := Turn(t, plan.version, plan.steps[i], env);
        if p.Advanced? {
          if budget.Some? && budget.value <= 1 {
            MidRunSame(p.task, p.task.(status := Ready), plan);
          } else {
            RunFromOk(p.task, plan, i + 1, done + {plan.steps[i].id}, if budget.Some? then Some(budget.value - 1) else None, env);
          }
        }
      }
    }
  }

  lemma PrefixIs(t: Task, plan: Plan, i: nat, done: set<StepId>)
    requires MidRun(t, plan) && i < |plan.steps| && done == SucceededIn(JournalOf(t))
    requires IdsBefore(plan.steps, i) <= done && plan.steps[i].id !in done
    ensures done == IdsBefore(plan.steps, i)
  {
    hide EntryOk, SucceededIn;
    var n :| 0 <= n <= |plan.steps| && SucceededIn(JournalOf(t)) == IdsBefore(plan.steps, n);
    NextIsFirst(plan, i, done, n);
  }

  lemma ExecuteOk(t: Task, maxSteps: Option<int>, env: Environment)
    requires TaskOk(t)
    ensures Execute(t, maxSteps, env).Success? ==> TaskOk(Execute(t, maxSteps, env).value)
  {
    hide RunFrom, JournalOk, ApprovalsOk, ApprovedStarts, Consumed, SucceededIn, ValidPlan;
    if Execute(t, maxSteps, env).Success? {
      var plan := t.plan.value;
      JournalSame(t, Begin(t), plan, JournalOf(t));
      RunFromOk(Begin(t), plan, 0, SucceededIn(JournalOf(t)), maxSteps, env);
    }
  }

  // ------------------------------------------------------------- whole runs

  /** What only touches status, waiting reason and page artefacts keeps the invariant. */
  lemma SameArtefacts(t: Task, r: Task)
    requires TaskOk(t) && r.plan == t.plan && r.journal == t.journal && r.approvals == t.approvals
    requires r.policy == t.policy && r.origin == t.origin
    ensures TaskOk(r)
  {
    hide JournalOk, ApprovalsOk, ApprovedStarts, Consumed, ValidPlan;
    if t.plan.Some? {
      JournalSame(t, r, t.plan.value, JournalOf(t));
    }
  }

  lemma ApproveOk(t: Task, step: StepId, approvalId: nat, at: Time)
    requires TaskOk(t) && forall a :: a in t.approvals ==> a.id != approvalId
    ensures Approved(t, step, approvalId, at).Some? ==> TaskOk(Approved(t, step, approvalId, at).value)
  {
    hide JournalOk, ApprovedStarts, Consumed, ValidPlan;
    match Approved(t, step, approvalId, at)
    case None =>
    case Some(r) =>
      JournalSame(t, r, t.plan.value, JournalOf(t));
      ConsumedAppend(t.approvals, r.approvals[|t.approvals|]);
  }

  lemma PlanOk(t: Task, plan: Plan)
    requires ValidPlan(plan)
    ensures TaskOk(t.(plan := Some(plan), journal := None, approvals := [], snapshot := None, fillPlan := None,
                      status := Ready, waitingReason := None))
  {
    assert SucceededIn([]) == IdsBefore(plan.steps, 0);
  }

  lemma HandleOk(t: Task, r: Request)
    requires TaskOk(t) && CanHandle(t, r)
    ensures TaskOk(Handle(t, r))
  {
    hide TaskOk, Execute, ValidPlan;
    match r
    case PreparePlan(plan) => PlanOk(t, plan);
    case ApproveStep(step, approvalId, at) => ApproveOk(t, step, approvalId, at);
    case ExecutePlan(maxSteps, env) =>
      SameArtefacts(t, Reopen(t));
      ExecuteOk(Reopen(t), maxSteps, env);
    case _ => SameArtefacts(t, Handle(t, r));
  }

  lemma {:induction false} TaskRunOk(run: seq<Task>, n: nat)
    requires IsTaskRun(run) && n < |run|
    ensures TaskOk(run[n])
  {
    hide TaskOk, Handle, CanHandle;
    if n == 0 {
      FreshOk(run[0]);
    } else {
      TaskRunOk(run, n - 1);
      assert StepsTo(run[n - 1], run[n]);
      var r :| Leads(run[n - 1], r, run[n]);
      HandleOk(run[n - 1], r);
    }
  }

  lemma FreshOk(t: Task)
    requires Fresh(t)
    ensures TaskOk(t)
  {
  }

  // ------------------------------------------------------------- main results

  /** A step has succeeded before position `i` of the journal. */
  ghost predicate DoneBefore(journal: seq<Entry>, i: nat, id: StepId)
    requires i <= |journal|
  {
    exists j :: 0 <= j < i && journal[j].stepId == id && journal[j].outcome == Succeeded
  }

  /**
   In every run: the succeeded steps are a prefix of the plan; a step starts only after everything it depends on
   has succeeded, although the executor never looks at dependencies, and never after it succeeded itself; each
   start is immediately followed by the end of the same step.
   */
  lemma StepsRunInOrder(run: seq<Task>, n: nat)
    requires IsTaskRun(run) && n < |run| && run[n].plan.Some?
    ensures var steps, journal := run[n].plan.value.steps, JournalOf(run[n]);
            && (exists k :: 0 <= k <= |steps| && SucceededIn(journal) == IdsBefore(steps, k))
            && forall i :: 0 <= i < |journal| && journal[i].outcome == Started ==>
                 && !DoneBefore(journal, i, journal[i].stepId)
                 && (forall s, d :: s in steps && s.id == journal[i].stepId && d in s.dependsOn ==> DoneBefore(journal, i, d))
                 && i + 1 < |journal| && journal[i + 1].stepId == journal[i].stepId
                 && journal[i + 1].outcome in {Succeeded, Failed}
  {
    hide Decide;
    TaskRunOk(run, n);
    var plan, journal := run[n].plan.value, JournalOf(run[n]);
    forall i | 0 <= i < |journal| && journal[i].outcome == Started
      ensures !DoneBefore(journal, i, journal[i].stepId)
      ensures forall s, d :: s in plan.steps && s.id == journal[i].stepId && d in s.dependsOn ==> DoneBefore(journal, i, d)
      ensures i + 1 < |journal| && journal[i + 1].stepId == journal[i].stepId && journal[i + 1].outcome in {Succeeded, Failed}
    {
      assert EntryOk(run[n], plan, journal, i);
      StartIsOrdered(run[n], plan, journal, i);
    }
  }

  lemma DoneMeans(journal: seq<Entry>, i: nat, id: StepId)
    requires i <= |journal|
    ensures DoneBefore(journal, i, id) <==> id in SucceededIn(journal[..i])
  {
    if DoneBefore(journal, i, id) {
      var j :| 0 <= j < i && journal[j].stepId == id && journal[j].outcome == Succeeded;
      assert journal[j] == journal[..i][j] && journal[j] in journal[..i];
    }
    if id in SucceededIn(journal[..i]) {
      var e :| e in journal[..i] && e.outcome == Succeeded && e.stepId == id;
      var j :| 0 <= j < i && journal[..i][j] == e;
      assert journal[j] == e;
    }
  }

  lemma StartIsOrdered(t: Task, plan: Plan, journal: seq<Entry>, i: nat)
    requires ValidPlan(plan) && i < |journal| && StartsRight(t, plan, journal, i)
    ensures !DoneBefore(journal, i, journal[i].stepId)
    ensures forall s, d :: s in plan.steps && s.id == journal[i].stepId && d in s.dependsOn ==> DoneBefore(journal, i, d)
  {
    hide Decide, SucceededIn;
    var k :| 0 <= k < |plan.steps| && StartsStep(t, plan, journal, i, k);
    DoneMeans(journal, i, journal[i].stepId);
    forall s, d | s in plan.steps && s.id == journal[i].stepId && d in s.dependsOn
      ensures DoneBefore(journal, i, d)
    {
      var m :| 0 <= m < |plan.steps| && plan.steps[m] == s;
      assert m == k;
      assert DependsOnEarlier(plan.steps, k);
      DoneMeans(journal, i, d);
    }
  }

  /** Approvals used up for a version of the plan, a step and a reason. */
  function Spent(approvals: seq<Approval>, version: nat, id: StepId, reason: UserActionReason): nat {
    if approvals == [] then 0
    else
      var last := approvals[|approvals| - 1];
      Spent(approvals[..|approvals| - 1], version, id, reason)
      + (if last.consumedAt.Some? && last.planVersion == version && last.stepId == id && last.reason == reason then 1 else 0)
  }

  /** Whatever is used up for a step is used up for the plan's version and for the reason the step asks the user. */
  lemma {:induction false} SpentIsConsumed(t: Task, plan: Plan, approvals: seq<Approval>, k: nat)
    requires ValidPlan(plan) && AllSpentRight(t, plan, approvals) && k < |plan.steps|
    ensures match Decide(t.policy, t.origin, plan.steps[k]) {
              case AsksUser(reason) =>
                Consumed(approvals, plan.steps[k].id) == Spent(approvals, plan.version, plan.steps[k].id, reason)
              case _ => Consumed(approvals, plan.steps[k].id) == 0
            }
  {
    hide Decide;
    if approvals != [] {
      var n := |approvals| - 1;
      SpentIsConsumed(t, plan, approvals[..n], k);
      assert SpentRight(t, plan, approvals[n]);
      if UsedUp(approvals[n], plan.steps[k].id) == 1 {
        var m :| 0 <= m < |plan.steps| && AsksFor(t, plan.steps[m], approvals[n].stepId, approvals[n].reason);
        assert m == k;
      }
    }
  }

  /**
   In every run and for every step of the plan: it was started with a user's approval as often as approvals were used up
   for this step, this version of the plan and the reason it asks the user; a step that asks nobody uses up none.  A step
   that pays or creates a charge never starts without one.
   */
  lemma ApprovalsAreSpentOnce(run: seq<Task>, n: nat)
    requires IsTaskRun(run) && n < |run| && run[n].plan.Some?
    ensures var t, plan, journal := run[n], run[n].plan.value, JournalOf(run[n]);
            && (forall k :: 0 <= k < |plan.steps| ==>
                  ApprovedStarts(journal, plan.steps[k].id) ==
                  match Decide(t.policy, t.origin, plan.steps[k])
                  case AsksUser(reason) => Spent(t.approvals, plan.version, plan.steps[k].id, reason)
                  case _ => 0)
            && forall i :: 0 <= i < |journal| ==> ChargesApproved(plan, journal[i])
  {
    hide JournalOk, StartsRight, Decide, ValidPlan, AllSpentRight, ApprovalsOk, ChargesApproved, ApprovedStarts, Spent, Consumed;
    TaskRunOk(run, n);
    var t, plan, journal := run[n], run[n].plan.value, JournalOf(run[n]);
    forall k | 0 <= k < |plan.steps|
      ensures ApprovedStarts(journal, plan.steps[k].id) ==
              match Decide(t.policy, t.origin, plan.steps[k])
              case AsksUser(reason) => Spent(t.approvals, plan.version, plan.steps[k].id, reason)
              case _ => 0
    {
      SpentIsConsumed(t, plan, t.approvals, k);
    }
    forall i | 0 <= i < |journal|
      ensures ChargesApproved(plan, journal[i])
    {
      ChargeStart(t, plan, journal, i);
    }
  }

  /** An entry that starts a step which pays or creates a charge says that the user approved it. */
  ghost predicate ChargesApproved(plan: Plan, e: Entry) {
    forall s :: s in plan.steps && s.id == e.stepId && e.outcome == Started && (s.action == Pay || s.createsCharge) ==>
      e.code == UserApproved
  }

  lemma ChargeStart(t: Task, plan: Plan, journal: seq<Entry>, i: nat)
    requires ValidPlan(plan) && JournalOk(t, plan, journal) && i < |journal|
    ensures ChargesApproved(plan, journal[i])
  {
    hide SucceededIn, IdsBefore;
    assert EntryOk(t, plan, journal, i);
    if journal[i].outcome == Started {
      var k :| 0 <= k < |plan.steps| && StartsStep(t, plan, journal, i, k);
      forall s | s in plan.steps && s.id == journal[i].stepId && (s.action == Pay || s.createsCharge)
        ensures journal[i].code == UserApproved
      {
        var m :| 0 <= m < |plan.steps| && plan.steps[m] == s;
        assert m == k;
      }
    }
  }
}
