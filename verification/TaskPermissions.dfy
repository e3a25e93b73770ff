/**
 What the permission policy means for a task, told by actions, flags and targets (app/services/task_permission.py,
 app/services/task_executor.py), and what the status of a task says about its journal.
 */
module TaskPermissions {
  import opened Wrappers
  import opened TaskExecutor
  import opened TaskRuns

  // ---------------------------------------------------------------- the policy

  /** The policy asks the user exactly for these steps, and for exactly this reason. */
  lemma AsksExactly(policy: Policy, origin: Origin, s: PlanStep, reason: UserActionReason)
    ensures Decide(policy, origin, s) == AsksUser(reason) <==>
            match reason
            case PaymentRequired => s.action == Pay || s.createsCharge
            case CaptchaRequired => s.action == SolveCaptcha && !s.createsCharge
            case AuthenticationRequired => s.action == Authenticate && !s.createsCharge
            case SensitiveDataApprovalRequired =>
              s.action == FillSensitiveProfile && !s.createsCharge && s.reversible && policy.requireApprovalForSensitiveData
            case ConfirmationRequired =>
              && s.action !in {Pay, SolveCaptcha, Authenticate} && !s.createsCharge
              && (|| s.action == SubmitOrder || !s.reversible
                  || (s.action == CreateFreeReservation && !policy.allowFreeReservation)
                  || (&& s.action == Navigate && policy.allowNavigation && s.target.At? && s.target.origin != origin
                      && policy.requireApprovalForCrossOriginNavigation))
            case ClarificationRequired => false
  {
  }

  /** It denies exactly the harmless steps whose flag is off and navigations without a target it can check. */
  lemma DeniesExactly(policy: Policy, origin: Origin, s: PlanStep)
    ensures Decide(policy, origin, s).Denied? <==>
            && !s.createsCharge && s.reversible
            && match s.action {
                 case Navigate => !policy.allowNavigation || !s.target.At?
                 case ReadPage => !policy.allowReadingPages
                 case FillBasicProfile => !policy.allowBasicProfileFilling
                 case SelectOption => !policy.allowOptionSelection
                 case PrepareReview => !policy.allowReviewPreparation
                 case _ => false
               }
    ensures !s.createsCharge && s.reversible ==>
              && (Decide(policy, origin, s) == Denied(NavigationNotAllowed) <==> s.action == Navigate && !policy.allowNavigation)
              && (Decide(policy, origin, s) == Denied(NavigationTargetRequired) <==>
                    s.action == Navigate && policy.allowNavigation && s.target.NoTarget?)
              && (Decide(policy, origin, s) == Denied(InvalidNavigationTarget) <==>
                    s.action == Navigate && policy.allowNavigation && s.target.InvalidTarget?)
  {
  }

  // -------------------------------------------------------------- whole task runs

  /** What nobody may do without the user. */
  ghost predicate NeedsUser(policy: Policy, origin: Origin, s: PlanStep) {
    || s.createsCharge || !s.reversible || s.action in {Pay, SubmitOrder, Authenticate, SolveCaptcha}
    || (s.action == FillSensitiveProfile && policy.requireApprovalForSensitiveData)
    || (s.action == CreateFreeReservation && !policy.allowFreeReservation)
    || (&& s.action == Navigate && policy.allowNavigation && s.target.At? && s.target.origin != origin
        && policy.requireApprovalForCrossOriginNavigation)
  }

  /** What is never done, not even with the user's approval. */
  ghost predicate Forbidden(policy: Policy, s: PlanStep) {
    && !s.createsCharge && s.reversible
    && (|| (s.action == Navigate && (!policy.allowNavigation || !s.target.At?))
        || (s.action == ReadPage && !policy.allowReadingPages)
        || (s.action == FillBasicProfile && !policy.allowBasicProfileFilling)
        || (s.action == SelectOption && !policy.allowOptionSelection)
        || (s.action == PrepareReview && !policy.allowReviewPreparation))
  }

  lemma DecisionMeans(policy: Policy, origin: Origin, s: PlanStep)
    ensures Decide(policy, origin, s).AsksUser? <==> NeedsUser(policy, origin, s)
    ensures Decide(policy, origin, s).Denied? <==> Forbidden(policy, s)
  {
  }

  /** The step a journal entry is about. */
  ghost predicate About(e: Entry, s: PlanStep) {
    e.stepId == s.id
  }

  /**
   In every run of a task: a step that started is not forbidden, and it started with the user's approval exactly where it
   needs the user.  A step that was blocked needs the user, and is blocked for the reason the policy gives.
   */
  lemma StartsArePermitted(run: seq<Task>, n: nat, i: nat, s: PlanStep)
    requires IsTaskRun(run) && n < |run| && run[n].plan.Some? && i < |JournalOf(run[n])|
    requires s in run[n].plan.value.steps && About(JournalOf(run[n])[i], s)
    ensures var t, e := run[n], JournalOf(run[n])[i];
            && (e.outcome == Started ==> !Forbidden(t.policy, s) && (e.code == UserApproved <==> NeedsUser(t.policy, t.origin, s)))
            && (e.outcome == Blocked ==>
                  && NeedsUser(t.policy, t.origin, s) && e.code.ByUser?
                  && (e.code.reason == PaymentRequired <==> s.action == Pay || s.createsCharge)
                  && (e.code.reason == CaptchaRequired <==> s.action == SolveCaptcha && !s.createsCharge)
                  && (e.code.reason == AuthenticationRequired <==> s.action == Authenticate && !s.createsCharge)
                  && (e.code.reason == SensitiveDataApprovalRequired <==>
                        s.action == FillSensitiveProfile && s.reversible && !s.createsCharge)
                  && e.code.reason != ClarificationRequired)
  {
    hide Decide, NeedsUser, Forbidden, IsTaskRun, SucceededIn, IdsBefore;
    TaskRunOk(run, n);
    var t, plan, journal := run[n], run[n].plan.value, JournalOf(run[n]);
    assert TaskRuns.EntryOk(t, plan, journal, i);
    DecisionMeans(t.policy, t.origin, s);
    if journal[i].outcome == Started {
      var k :| 0 <= k < |plan.steps| && StartsStep(t, plan, journal, i, k);
      SameStep(plan, k, s);
    } else if journal[i].outcome == Blocked {
      var k :| 0 <= k < |plan.steps| && AsksFor(t, plan.steps[k], journal[i].stepId, journal[i].code.reason);
      SameStep(plan, k, s);
      AskedReason(t.policy, t.origin, s, journal[i].code.reason);
    }
  }

  lemma AskedReason(policy: Policy, origin: Origin, s: PlanStep, reason: UserActionReason)
    requires Decide(policy, origin, s) == AsksUser(reason)
    ensures reason == PaymentRequired <==> s.action == Pay || s.createsCharge
    ensures reason == CaptchaRequired <==> s.action == SolveCaptcha && !s.createsCharge
    ensures reason == AuthenticationRequired <==> s.action == Authenticate && !s.createsCharge
    ensures reason == SensitiveDataApprovalRequired <==> s.action == FillSensitiveProfile && s.reversible && !s.createsCharge
    ensures reason != ClarificationRequired
  {
  }

  lemma SameStep(plan: Plan, k: nat, s: PlanStep)
    requires ValidPlan(plan) && k < |plan.steps| && s in plan.steps && plan.steps[k].id == s.id
    ensures plan.steps[k] == s
  {
    var m :| 0 <= m < |plan.steps| && plan.steps[m] == s;
    assert m == k;
  }

  // -------------------------------------------------- what the status tells

  /** The entry a call ended with, and the status that goes with it. */
  ghost predicate EndsAs(t: Task, before: seq<Entry>, plan: Plan) {
    var journal := JournalOf(t);
    && before <= journal
    && match t.status {
         case Prepared => forall k :: 0 <= k < |plan.steps| ==> plan.steps[k].id in SucceededIn(journal)
         case Ready => |journal| > |before| && journal[|journal| - 1].outcome == Succeeded
         case WaitingForUser =>
           && |journal| > |before| && journal[|journal| - 1].outcome == Blocked
           && t.waitingReason.Some? && journal[|journal| - 1].code == ByUser(t.waitingReason.value)
         case Monitoring =>
           |journal| > |before| && journal[|journal| - 1].outcome == Failed && journal[|journal| - 1].code == REVIEW_NOT_AVAILABLE
         case TaskFailed =>
           |journal| > |before| && journal[|journal| - 1].outcome == Failed && journal[|journal| - 1].code != REVIEW_NOT_AVAILABLE
         case _ => false
       }
  }

  lemma TurnEnds(t: Task, version: nat, s: PlanStep, env: Environment, plan: Plan)
    ensures match Turn(t, version, s, env) {
              case Stopped(r) => r.status !in {Prepared, Ready} && EndsAs(r, JournalOf(t), plan)
              case Advanced(r) =>
                && r.status == t.status && |JournalOf(r)| == |JournalOf(t)| + 2 && JournalOf(t) <= JournalOf(r)
                && JournalOf(r)[|JournalOf(t)|].outcome == Started && JournalOf(r)[|JournalOf(t)|].stepId == s.id
                && JournalOf(r)[|JournalOf(t)| + 1].outcome == Succeeded && JournalOf(r)[|JournalOf(t)| + 1].stepId == s.id
                && r.waitingReason == t.waitingReason && r.plan == t.plan
            }
  {
    hide Decide, Consume, SucceededIn, EndsAs, RunStep;
    var now := env.clock(|JournalOf(t)|);
    match Decide(t.policy, t.origin, s)
    case Denied(code) => StoppedEnds(t, Log(t, s.id, Failed, ByPolicy(code), now).(status := TaskFailed), plan);
    case Allowed(code) => StepEnds(t, t, s.id, ByPolicy(code), now, env, plan);
    case AsksUser(reason) =>
      match FindApproval(t.approvals, version, s.id, reason)
      case None =>
        StoppedEnds(t, Log(t, s.id, Blocked, ByUser(reason), now).(status := WaitingForUser, waitingReason := Some(reason)), plan);
      case Some(k) =>
        StepEnds(t, t.(approvals := Consume(t.approvals, t.approvals[k], now)), s.id, UserApproved, now, env, plan);
  }

  lemma StoppedEnds(t: Task, r: Task, plan: Plan)
    requires |JournalOf(r)| == |JournalOf(t)| + 1 && JournalOf(t) <= JournalOf(r)
    requires var last := JournalOf(r)[|JournalOf(t)|];
             || (r.status == TaskFailed && last.outcome == Failed && last.code.ByPolicy?)
             || (r.status == WaitingForUser && last.outcome == Blocked && r.waitingReason.Some? && last.code == ByUser(r.waitingReason.value))
    ensures EndsAs(r, JournalOf(t), plan)
  {
  }

  lemma StepEnds(t: Task, u: Task, id: StepId, code: Code, now: Time, env: Environment, plan: Plan)
    requires JournalOf(u) == JournalOf(t) && u.status == t.status && u.waitingReason == t.waitingReason && u.plan == t.plan
    ensures match RunStep(Log(u, id, Started, code, now), id, env) {
              case Stopped(r) => r.status !in {Prepared, Ready} && EndsAs(r, JournalOf(t), plan)
              case Advanced(r) =>
                && r.status == t.status && |JournalOf(r)| == |JournalOf(t)| + 2 && JournalOf(t) <= JournalOf(r)
                && JournalOf(r)[|JournalOf(t)|].outcome == Started && JournalOf(r)[|JournalOf(t)|].stepId == id
                && JournalOf(r)[|JournalOf(t)| + 1].outcome == Succeeded && JournalOf(r)[|JournalOf(t)| + 1].stepId == id
                && r.waitingReason == t.waitingReason && r.plan == t.plan
            }
  {
    hide SucceededIn;
  }

  lemma {:induction false} RunFromEnds(t: Task, plan: Plan, i: nat, done: set<StepId>, budget: Option<int>, env: Environment)
    requires i <= |plan.steps| && done == SucceededIn(JournalOf(t))
    requires forall k :: 0 <= k < i ==> plan.steps[k].id in done
    ensures EndsAs(RunFrom(t, plan, i, done, budget, env), JournalOf(t), plan)
    ensures RunFrom(t, plan, i, done, budget, env).status == Ready ==> budget.Some?
    decreases |plan.steps| - i
  {
    hide Turn, EndsAs;
    if i == |plan.steps| {
      PreparedEnds(t, plan);
    } else if plan.steps[i].id in done {
      RunFromEnds(t, plan, i + 1, done, budget, env);
    } else {
      TurnEnds(t, plan.version, plan.steps[i], env, plan);
      match Turn(t, plan.version, plan.steps[i], env)
      case Stopped(_) =>
      case Advanced(r) =>
        if budget.Some? && budget.value <= 1 {
          ReadyEnds(t, r, plan);
        } else {
          OneMoreDone(JournalOf(t), JournalOf(r), plan.steps[i].id);
          var left := if budget.Some? then Some(budget.value - 1) else None;
          RunFromEnds(r, plan, i + 1, done + {plan.steps[i].id}, left, env);
          LongerBefore(RunFrom(r, plan, i + 1, done + {plan.steps[i].id}, left, env), JournalOf(t), JournalOf(r), plan);
        }
    }
  }

  lemma PreparedEnds(t: Task, plan: Plan)
    requires forall k :: 0 <= k < |plan.steps| ==> plan.steps[k].id in SucceededIn(JournalOf(t))
    ensures EndsAs(t.(status := Prepared), JournalOf(t), plan)
  {
    hide SucceededIn;
  }

  lemma ReadyEnds(t: Task, r: Task, plan: Plan)
    requires JournalOf(t) <= JournalOf(r) && |JournalOf(r)| == |JournalOf(t)| + 2
    requires JournalOf(r)[|JournalOf(t)| + 1].outcome == Succeeded
    ensures EndsAs(r.(status := Ready), JournalOf(t), plan)
  {
  }

  lemma LongerBefore(t: Task, before: seq<Entry>, middle: seq<Entry>, plan: Plan)
    requires before <= middle && EndsAs(t, middle, plan)
    ensures EndsAs(t, before, plan)
  {
    hide SucceededIn;
  }

  lemma OneMoreDone(journal: seq<Entry>, longer: seq<Entry>, id: StepId)
    requires journal <= longer && |longer| == |journal| + 2
    requires longer[|journal|].outcome == Started
    requires longer[|journal| + 1].outcome == Succeeded && longer[|journal| + 1].stepId == id
    ensures SucceededIn(longer) == SucceededIn(journal) + {id}
  {
    hide SucceededIn;
    assert longer == journal + [longer[|journal|]] + [longer[|journal| + 1]];
    SucceededAppend(journal, longer[|journal|]);
    SucceededAppend(journal + [longer[|journal|]], longer[|journal| + 1]);
  }

  /**
   What a call of the executor leaves: it refuses without a plan or unless the task is ready or running; otherwise the
   journal is only extended, and the status says how: prepared when all steps have succeeded, ready when the limit of
   steps was used up, waiting for the user at a blocked step and for its reason, monitoring or failed at a failed one.
   */
  lemma StatusTellsTheJournal(t: Task, maxSteps: Option<int>, env: Environment)
    ensures Execute(t, maxSteps, env) == Failure(NoPlan) <==> t.plan.None?
    ensures Execute(t, maxSteps, env) == Failure(NotExecutable) <==> t.plan.Some? && t.status !in {Ready, Running}
    ensures Execute(t, maxSteps, env).Success? ==>
              var r := Execute(t, maxSteps, env).value;
              EndsAs(r, JournalOf(t), t.plan.value) && (r.status == Ready ==> maxSteps.Some?)
  {
    hide EndsAs, RunFrom;
    if t.plan.Some? && t.status in {Ready, Running} {
      RunFromEnds(Begin(t), t.plan.value, 0, SucceededIn(JournalOf(t)), maxSteps, env);
    }
  }

  /** The steps a call may take: at least one, whatever the limit says. */
  function Limit(maxSteps: int): int {
    if maxSteps < 1 then 1 else maxSteps
  }

  lemma {:induction false} RunFromLimited(t: Task, plan: Plan, i: nat, done: set<StepId>, budget: int, env: Environment)
    requires i <= |plan.steps|
    ensures var r := RunFrom(t, plan, i, done, Some(budget), env);
            && |JournalOf(t)| <= |JournalOf(r)| <= |JournalOf(t)| + 2 * Limit(budget)
            && (r.status == Ready ==> |JournalOf(r)| == |JournalOf(t)| + 2 * Limit(budget))
            && (r.status != Ready && |JournalOf(r)| == |JournalOf(t)| + 2 * Limit(budget) ==>
                  JournalOf(r)[|JournalOf(r)| - 1].outcome == Failed)
    decreases |plan.steps| - i
  {
    hide Turn;
    if i < |plan.steps| && plan.steps[i].id in done {
      RunFromLimited(t, plan, i + 1, done, budget, env);
    } else if i < |plan.steps| {
      TurnLength(t, plan.version, plan.steps[i], env);
      match Turn(t, plan.version, plan.steps[i], env)
      case Stopped(_) =>
      case Advanced(r) =>
        if budget > 1 {
          RunFromLimited(r, plan, i + 1, done + {plan.steps[i].id}, budget - 1, env);
        }
    }
  }

  lemma TurnLength(t: Task, version: nat, s: PlanStep, env: Environment)
    ensures match Turn(t, version, s, env) {
              case Stopped(r) =>
                && r.status != Ready && |JournalOf(t)| < |JournalOf(r)| <= |JournalOf(t)| + 2
                && (|JournalOf(r)| == |JournalOf(t)| + 2 ==> JournalOf(r)[|JournalOf(r)| - 1].outcome == Failed)
              case Advanced(r) => |JournalOf(r)| == |JournalOf(t)| + 2
            }
  {
    hide Decide, Consume, FindApproval;
  }

  /** A call with a limit takes no more steps than that; it ends ready exactly if it took that many and all succeeded. */
  lemma StepsAreLimited(t: Task, maxSteps: int, env: Environment)
    requires Execute(t, Some(maxSteps), env).Success?
    ensures var r := Execute(t, Some(maxSteps), env).value;
            var taken := |JournalOf(r)| - |JournalOf(t)|;
            && 0 <= taken <= 2 * Limit(maxSteps)
            && (r.status == Ready <==> taken == 2 * Limit(maxSteps) && JournalOf(r)[|JournalOf(r)| - 1].outcome == Succeeded)
  {
    hide EndsAs, RunFrom;
    RunFromLimited(Begin(t), t.plan.value, 0, SucceededIn(JournalOf(t)), maxSteps, env);
    StatusTellsTheJournal(t, Some(maxSteps), env);
    ReadyMeansSucceeded(Execute(t, Some(maxSteps), env).value, JournalOf(t), t.plan.value);
  }

  lemma ReadyMeansSucceeded(r: Task, before: seq<Entry>, plan: Plan)
    requires EndsAs(r, before, plan)
    ensures r.status == Ready ==> |JournalOf(r)| > |before| && JournalOf(r)[|JournalOf(r)| - 1].outcome == Succeeded
  {
    hide SucceededIn;
  }

  /** What a turn shows of the runner's answer, in the last journal entry and in the page and the fill plan it leaves. */
  ghost predicate Shows(t: Task, turn: Progress, id: StepId, env: Environment) {
    var n := |JournalOf(t)|;
    var r, answer := turn.task, env.runner(n + 1);
    if |JournalOf(r)| != n + 2 then turn.Stopped? && r.snapshot == t.snapshot && r.fillPlan == t.fillPlan
    else
      var last := JournalOf(r)[n + 1];
      && last.stepId == id && last.timestamp == env.clock(n + 1) && JournalOf(r)[n].timestamp == env.clock(n)
      && (turn.Advanced? <==> answer.Ran? && answer.result.succeeded)
      && (last.outcome == Succeeded <==> turn.Advanced?) && (last.outcome == Failed <==> turn.Stopped?)
      && (answer.Threw? ==> last.code == STEP_EXCEPTION && r.snapshot == t.snapshot && r.fillPlan == t.fillPlan)
      && (answer.Ran? ==>
            && last.code == answer.result.code
            && (answer.result.snapshot.Some? ==> r.snapshot == answer.result.snapshot)
            && (answer.result.snapshot.None? ==> r.snapshot == t.snapshot)
            && (answer.result.fillPlan.Some? ==> r.fillPlan == answer.result.fillPlan)
            && (answer.result.fillPlan.None? && answer.result.snapshot.Some? ==> r.fillPlan.None?)
            && (answer.result.fillPlan.None? && answer.result.snapshot.None? ==> r.fillPlan == t.fillPlan))
  }

  lemma RunShows(t: Task, u: Task, id: StepId, code: Code, env: Environment)
    requires JournalOf(u) == JournalOf(t) && u.snapshot == t.snapshot && u.fillPlan == t.fillPlan
    ensures Shows(t, RunStep(Log(u, id, Started, code, env.clock(|JournalOf(t)|)), id, env), id, env)
  {
  }

  /**
   A step that ran ends with what the runner answered, an exception counting as a failure with a code of its own; the
   page it saw replaces the page and drops the fill plan made for the earlier one, unless the answer brings a new plan.
   */
  lemma TurnShowsWhatItSaw(t: Task, version: nat, s: PlanStep, env: Environment)
    ensures Shows(t, Turn(t, version, s, env), s.id, env)
  {
    hide Decide, Consume, FindApproval, Shows, RunStep;
    var now := env.clock(|JournalOf(t)|);
    match Decide(t.policy, t.origin, s)
    case Denied(code) => NothingRan(t, Log(t, s.id, Failed, ByPolicy(code), now).(status := TaskFailed), s.id, env);
    case Allowed(code) => RunShows(t, t, s.id, ByPolicy(code), env);
    case AsksUser(reason) =>
      match FindApproval(t.approvals, version, s.id, reason)
      case None =>
        NothingRan(t, Log(t, s.id, Blocked, ByUser(reason), now).(status := WaitingForUser, waitingReason := Some(reason)), s.id, env);
      case Some(k) => RunShows(t, t.(approvals := Consume(t.approvals, t.approvals[k], now)), s.id, UserApproved, env);
  }

  lemma NothingRan(t: Task, r: Task, id: StepId, env: Environment)
    requires |JournalOf(r)| == |JournalOf(t)| + 1 && r.snapshot == t.snapshot && r.fillPlan == t.fillPlan
    ensures Shows(t, Stopped(r), id, env)
  {
  }

  // -------------------------------------------------------------------- requests

  /** A completed or cancelled task stays what it is, whatever is requested. */
  lemma FinishedTasksStay(t: Task, r: Request)
    requires t.status in {TaskCompleted, TaskCancelled}
    ensures Handle(t, r) == t.(fillPlan := Handle(t, r).fillPlan)
    ensures !r.MapPage? ==> Handle(t, r) == t
  {
  }

  /**
   An approval is granted exactly to the step the task waits at, for the reason it waits, while no approval of that step is
   unused; it is for the current version of the plan and makes the task ready.
   */
  lemma ApprovalsAreGrantedExactly(t: Task, step: StepId, approvalId: nat, at: Time)
    ensures var granted := && t.status == WaitingForUser && t.waitingReason.Some? && t.plan.Some? && JournalOf(t) != []
                           && var last := JournalOf(t)[|JournalOf(t)| - 1];
                              && last.outcome == Blocked && last.stepId == step && last.code == ByUser(t.waitingReason.value)
                              && forall a :: a in t.approvals && a.stepId == step ==> a.consumedAt.Some?;
            Handle(t, ApproveStep(step, approvalId, at)) ==
            if granted then
              t.(approvals := t.approvals + [Approval(approvalId, t.plan.value.version, step, t.waitingReason.value, at, None)],
                 status := Ready, waitingReason := None)
            else t
  {
  }

  /** A new plan starts over: no journal and no approval of an earlier plan survives. */
  lemma NewPlansStartOver(t: Task, plan: Plan)
    ensures var r := Handle(t, PreparePlan(plan));
            if t.status in {Running, TaskCompleted, TaskCancelled} then r == t
            else r.plan == Some(plan) && r.journal == None && r.approvals == [] && r.snapshot == None && r.fillPlan == None
                 && r.status == Ready && r.waitingReason == None && r.policy == t.policy && r.origin == t.origin
  {
  }

  /** What pausing, resuming, cancelling and clarifying do; none of them touches the plan, the journal or an approval. */
  lemma UserRequestsExactly(t: Task)
    ensures Handle(t, Cancel) == if t.status in {TaskCompleted, TaskCancelled} then t else t.(status := TaskCancelled, waitingReason := None)
    ensures Handle(t, Pause).status == TaskPaused <==> t.status !in {TaskCompleted, TaskCancelled}
    ensures Handle(t, Pause) != t ==> Handle(t, Pause) == t.(status := TaskPaused, waitingReason := None)
    ensures Handle(t, Resume).status == Ready <==> t.status in {Ready, TaskPaused, TaskFailed, Monitoring, WaitingForUser}
    ensures Handle(t, Resume) != t ==> Handle(t, Resume) == t.(status := Ready, waitingReason := None)
    ensures Handle(t, Clarify) != t <==> t.status == WaitingForUser && t.waitingReason == Some(ClarificationRequired)
    ensures Handle(t, Clarify) != t ==> Handle(t, Clarify) == t.(status := Ready, waitingReason := None)
  {
  }

  /**
   An agent runs for a task that is ready or running, or waits for something it can go on from; what it answers decides
   the status, and running out of steps fails the task unless it goes step by step.
   */
  lemma AgentRunsExactly(t: Task, result: AgentStatus, stepByStep: bool, snapshot: Option<nat>)
    ensures var r := Handle(t, AgentRun(result, stepByStep, snapshot));
            var runs := || t.status in {Ready, Running}
                        || (t.status == WaitingForUser
                            && t.waitingReason in {Some(AuthenticationRequired), Some(CaptchaRequired), Some(ConfirmationRequired), Some(PaymentRequired)});
            && (!runs ==> r == t)
            && (runs ==>
                  && r.snapshot == snapshot && r.fillPlan.None?
                  && r.plan == t.plan && r.journal == t.journal && r.approvals == t.approvals
                  && (r.status == TaskCompleted <==> result.AgentCompleted?)
                  && (r.status == WaitingForUser <==> result.AgentWaiting?)
                  && (r.status == Ready <==> result.AgentExhausted? && stepByStep)
                  && (r.status == TaskFailed <==> result.AgentFailed? || (result.AgentExhausted? && !stepByStep))
                  && r.waitingReason == if result.AgentWaiting? then Some(result.reason) else None)
  {
  }

  /** A call reopens a task that waits for the user, but not one that waits for sensitive data or a clarification. */
  lemma ReopensExactly(t: Task, maxSteps: Option<int>, env: Environment)
    ensures t.status == WaitingForUser && t.plan.Some? ==>
              (Handle(t, ExecutePlan(maxSteps, env)) != t ==>
                 t.waitingReason in {Some(AuthenticationRequired), Some(CaptchaRequired), Some(ConfirmationRequired), Some(PaymentRequired)})
    ensures t.status in {TaskPaused, TaskFailed, Monitoring, Prepared, Draft} ==> Handle(t, ExecutePlan(maxSteps, env)) == t
  {
    hide RunFrom;
  }
}
