/**
 The resumable interpreter of task plans: permission policy, one-time approvals, journal
 (app/services/task_executor.py, app/services/task_permission.py, app/services/task_journal.py,
 app/domain/task_plan.py).
 */
module TaskExecutor {
  import opened Wrappers

  type Time = int
  type StepId = nat
  type Origin = nat

  datatype Action =
    | Navigate | ReadPage | FillBasicProfile | FillSensitiveProfile | SelectOption | PrepareReview
    | CreateFreeReservation | SubmitOrder | Authenticate | SolveCaptcha | Pay

  datatype UserActionReason =
    | AuthenticationRequired | CaptchaRequired | ConfirmationRequired | PaymentRequired
    | SensitiveDataApprovalRequired | ClarificationRequired

  /** The origin of a step's URL: no URL, one without an HTTP origin, or an origin. */
  datatype Target = NoTarget | InvalidTarget | At(origin: Origin)

  datatype PlanStep = PlanStep(
    id: StepId, action: Action, dependsOn: seq<StepId>, target: Target, createsCharge: bool, reversible: bool)

  datatype Policy = Policy(
    allowNavigation: bool, allowReadingPages: bool, allowBasicProfileFilling: bool, allowOptionSelection: bool,
    allowReviewPreparation: bool, allowFreeReservation: bool, requireApprovalForSensitiveData: bool,
    requireApprovalForCrossOriginNavigation: bool)

  datatype PolicyCode =
    | SensitiveDataPreapproved | NavigationNotAllowed | NavigationTargetRequired | InvalidNavigationTarget
    | NavigationAllowed | PageReadingAllowed | PageReadingNotAllowed | BasicFillingAllowed | BasicFillingNotAllowed
    | OptionSelectionAllowed | OptionSelectionNotAllowed | ReviewAllowed | ReviewNotAllowed | FreeReservationAllowed

  datatype Decision = Allowed(code: PolicyCode) | Denied(code: PolicyCode) | AsksUser(reason: UserActionReason)

  function Gate(allowed: bool, yes: PolicyCode, no: PolicyCode): Decision {
    if allowed then Allowed(yes) else Denied(no)
  }

  /** `evaluate_browser_action`. */
  function Decide(policy: Policy, origin: Origin, step: PlanStep): Decision {
    if step.action == Pay || step.createsCharge then AsksUser(PaymentRequired)
    else if step.action == SolveCaptcha then AsksUser(CaptchaRequired)
    else if step.action == Authenticate then AsksUser(AuthenticationRequired)
    else if step.action == SubmitOrder || !step.reversible then AsksUser(ConfirmationRequired)
    else
      match step.action
      case FillSensitiveProfile =>
        if policy.requireApprovalForSensitiveData then AsksUser(SensitiveDataApprovalRequired)
        else Allowed(SensitiveDataPreapproved)
      case Navigate =>
        if !policy.allowNavigation then Denied(NavigationNotAllowed)
        else if step.target == NoTarget then Denied(NavigationTargetRequired)
        else if step.target == InvalidTarget then Denied(InvalidNavigationTarget)
        else if step.target != At(origin) && policy.requireApprovalForCrossOriginNavigation then AsksUser(ConfirmationRequired)
        else Allowed(NavigationAllowed)
      case ReadPage => Gate(policy.allowReadingPages, PageReadingAllowed, PageReadingNotAllowed)
      case FillBasicProfile => Gate(policy.allowBasicProfileFilling, BasicFillingAllowed, BasicFillingNotAllowed)
      case SelectOption => Gate(policy.allowOptionSelection, OptionSelectionAllowed, OptionSelectionNotAllowed)
      case PrepareReview => Gate(policy.allowReviewPreparation, ReviewAllowed, ReviewNotAllowed)
      case _ => if policy.allowFreeReservation then Allowed(FreeReservationAllowed) else AsksUser(ConfirmationRequired)
  }

  datatype Status = Draft | Ready | Running | Monitoring | WaitingForUser | Prepared | TaskCompleted | TaskFailed | TaskPaused | TaskCancelled

  datatype Outcome = Started | Succeeded | Blocked | Failed

  /** `reason_code`: the user's boundary, the policy's answer, an approval used, or what the runner says. */
  datatype Code = NoCode | ByUser(reason: UserActionReason) | ByPolicy(code: PolicyCode) | UserApproved | FromRunner(text: nat)

  const STEP_EXCEPTION := FromRunner(0)
  const REVIEW_NOT_AVAILABLE := FromRunner(1)

  datatype Entry = Entry(sequence: nat, timestamp: Time, stepId: StepId, outcome: Outcome, code: Code)

  datatype Approval = Approval(id: nat, planVersion: nat, stepId: StepId, reason: UserActionReason, approvedAt: Time, consumedAt: Option<Time>)

  datatype Plan = Plan(version: nat, steps: seq<PlanStep>)

  datatype Task = Task(
    status: Status,
    waitingReason: Option<UserActionReason>,
    policy: Policy,
    origin: Origin,
    plan: Option<Plan>,
    journal: Option<seq<Entry>>,
    approvals: seq<Approval>,
    snapshot: Option<nat>,
    fillPlan: Option<nat>)

  /** What the browser runner answers; an exception counts as a failed step. */
  datatype StepResult = StepResult(succeeded: bool, code: Code, snapshot: Option<nat>, fillPlan: Option<nat>)
  datatype RunnerAnswer = Ran(result: StepResult) | Threw

  /** The clock and the runner, read at a journal length: the same journal meets the same world. */
  datatype Environment = Environment(clock: nat -> Time, runner: nat -> RunnerAnswer)

  // ------------------------------------------------------------- plan validity

  ghost predicate ValidPlan(p: Plan) {
    && p.steps != []
    && (forall i, j :: 0 <= i < j < |p.steps| ==> p.steps[i].id != p.steps[j].id)
    && (forall i :: 0 <= i < |p.steps| ==> DependsOnEarlier(p.steps, i))
  }

  ghost predicate DependsOnEarlier(steps: seq<PlanStep>, i: nat)
    requires i < |steps|
  {
    forall d :: d in steps[i].dependsOn ==> d in IdsBefore(steps, i)
  }

  function IdsBefore(steps: seq<PlanStep>, n: nat): set<StepId>
    requires n <= |steps|
  {
    set i | 0 <= i < n :: steps[i].id
  }

  /** `validate_step_graph` accepts exactly the plans with unique ids whose steps depend on earlier steps only. */
  method ValidateStepGraph(steps: seq<PlanStep>) returns (ok: bool)
    requires steps != []
    ensures ok <==> ValidPlan(Plan(1, steps))
  {
    var seen: set<StepId> := {};
    for k := 0 to |steps|
      invariant seen == IdsBefore(steps, k)
      invariant forall i, j :: 0 <= i < j < k ==> steps[i].id != steps[j].id
      invariant forall i :: 0 <= i < k ==> DependsOnEarlier(steps, i)
    {
      if steps[k].id in seen {
        return false;
      }
      if steps[k].id in steps[k].dependsOn {
        assert !DependsOnEarlier(steps, k);
        return false;
      }
      if exists d :: d in steps[k].dependsOn && d !in seen {
        assert !DependsOnEarlier(steps, k);
        return false;
      }
      seen := seen + {steps[k].id};
    }
    return true;
  }

  // ------------------------------------------------------------------ one step

  /** The first unused approval that fits; None if there is none. */
  function FindApproval(approvals: seq<Approval>, version: nat, step: StepId, reason: UserActionReason): (r: Option<nat>)
    ensures r.Some? ==> r.value < |approvals|
  {
    if approvals == [] then None
    else
      var a := approvals[0];
      if a.planVersion == version && a.stepId == step && a.reason == reason && a.consumedAt.None? then Some(0)
      else
        match FindApproval(approvals[1..], version, step, reason)
        case Some(k) => Some(k + 1)
        case None => None
  }

  /** Every item with the approval's id is replaced. */
  function Consume(approvals: seq<Approval>, used: Approval, at: Time): seq<Approval> {
    seq(|approvals|, i requires 0 <= i < |approvals| =>
      if approvals[i].id == used.id then used.(consumedAt := Some(at)) else approvals[i])
  }

  function JournalOf(t: Task): seq<Entry> {
    if t.journal.Some? then t.journal.value else []
  }

  /** `append_task_journal_entry`. */
  function Log(t: Task, step: StepId, outcome: Outcome, code: Code, at: Time): Task {
    t.(journal := Some(JournalOf(t) + [Entry(|JournalOf(t)| + 1, at, step, outcome, code)]))
  }

  function FitOf(t: Task, version: nat, step: PlanStep): Option<nat> {
    match Decide(t.policy, t.origin, step)
    case AsksUser(reason) => FindApproval(t.approvals, version, step.id, reason)
    case _ => None
  }

  datatype Progress = Stopped(task: Task) | Advanced(task: Task)

  /** One turn of the loop. */
  function Turn(t: Task, version: nat, step: PlanStep, env: Environment): Progress {
    var now := env.clock(|JournalOf(t)|);
    match Decide(t.policy, t.origin, step)
    case Denied(code) => Stopped(Log(t, step.id, Failed, ByPolicy(code), now).(status := TaskFailed))
    case Allowed(code) => RunStep(Log(t, step.id, Started, ByPolicy(code), now), step.id, env)
    case AsksUser(reason) =>
      match FindApproval(t.approvals, version, step.id, reason)
      case None =>
        Stopped(Log(t, step.id, Blocked, ByUser(reason), now).(status := WaitingForUser, waitingReason := Some(reason)))
      case Some(k) =>
        RunStep(Log(t.(approvals := Consume(t.approvals, t.approvals[k], now)), step.id, Started, UserApproved, now), step.id, env)
  }

  /** From the runner's answer on, once the step is journalled as started. */
  function RunStep(t: Task, step: StepId, env: Environment): Progress {
    var result := match env.runner(|JournalOf(t)|)
      case Ran(result) => result
      case Threw => StepResult(false, STEP_EXCEPTION, None, None);
    var logged := Log(t, step, if result.succeeded then Succeeded else Failed, result.code, env.clock(|JournalOf(t)|));
    var seen := if result.snapshot.Some? then logged.(snapshot := result.snapshot, fillPlan := None) else logged;
    var filled := if result.fillPlan.Some? then seen.(fillPlan := result.fillPlan) else seen;
    if result.succeeded then Advanced(filled)
    else Stopped(filled.(status := if result.code == REVIEW_NOT_AVAILABLE then Monitoring else TaskFailed))
  }

  // ------------------------------------------------------------------ the loop

  /** The ids with a SUCCEEDED entry. */
  function SucceededIn(journal: seq<Entry>): set<StepId> {
    set e | e in journal && e.outcome == Succeeded :: e.stepId
  }

  /** The loop from step `i` on; `budget` is what is left of `max_steps`. */
  function RunFrom(t: Task, plan: Plan, i: nat, done: set<StepId>, budget: Option<int>, env: Environment): Task
    requires i <= |plan.steps|
    decreases |plan.steps| - i
  {
    if i == |plan.steps| then t.(status := Prepared)
    else if plan.steps[i].id in done then RunFrom(t, plan, i + 1, done, budget, env)
    else
      match Turn(t, plan.version, plan.steps[i], env)
      case Stopped(r) => r
      case Advanced(r) =>
        if budget.Some? && budget.value <= 1 then r.(status := Ready)
        else RunFrom(r, plan, i + 1, done + {plan.steps[i].id}, if budget.Some? then Some(budget.value - 1) else None, env)
  }

  datatype ExecutionError = NoPlan | NotExecutable

  /** The task as the loop starts with it. */
  function Begin(t: Task): Task {
    t.(status := Running, waitingReason := None, journal := Some(JournalOf(t)))
  }

  /** `execute_task_plan`. */
  function Execute(t: Task, maxSteps: Option<int>, env: Environment): Result<Task, ExecutionError> {
    if t.plan.None? then Failure(NoPlan)
    else if t.status != Ready && t.status != Running then Failure(NotExecutable)
    else Success(RunFrom(Begin(t), t.plan.value, 0, SucceededIn(JournalOf(t)), maxSteps, env))
  }

  lemma {:induction false} FoundApproval(approvals: seq<Approval>, version: nat, step: StepId, reason: UserActionReason)
    ensures match FindApproval(approvals, version, step, reason)
            case Some(k) =>
              && k < |approvals|
              && approvals[k].planVersion == version && approvals[k].stepId == step
              && approvals[k].reason == reason && approvals[k].consumedAt.None?
            case None => forall a :: a in approvals ==>
              !(a.planVersion == version && a.stepId == step && a.reason == reason && a.consumedAt.None?)
  {
    if approvals != [] {
      FoundApproval(approvals[1..], version, step, reason);
      assert approvals == [approvals[0]] + approvals[1..];
    }
  }

  /** The loop as the program runs it, rebinding the current task and growing the set of succeeded steps. */
  method ExecuteTaskPlan(task: Task, maxSteps: Option<int>, env: Environment) returns (r: Result<Task, ExecutionError>)
    ensures r == Execute(task, maxSteps, env)
  {
    if task.plan.None? {
      return Failure(NoPlan);
    }
    if task.status != Ready && task.status != Running {
      return Failure(NotExecutable);
    }
    var executed := RunSteps(Begin(task), task.plan.value, SucceededIn(JournalOf(task)), maxSteps, env);
    return Success(executed);
  }

  method RunSteps(start: Task, plan: Plan, done: set<StepId>, maxSteps: Option<int>, env: Environment) returns (r: Task)
    ensures r == RunFrom(start, plan, 0, done, maxSteps, env)
  {
    hide Turn, RunFrom;
    var current, succeeded, executed := start, done, 0;
    ghost var whole := RunFrom(start, plan, 0, done, maxSteps, env);
    ghost var budget := maxSteps;
    for i := 0 to |plan.steps|
      invariant budget == if maxSteps.Some? then Some(maxSteps.value - executed) else None
      invariant whole == RunFrom(current, plan, i, succeeded, budget, env)
    {
      var step := plan.steps[i];
      RunFromHere(current, plan, i, succeeded, budget, env);
      if step.id in succeeded {
        continue;
      }
      var progress := RunTurn(current, plan.version, step, env);
      if progress.Stopped? {
        return progress.task;
      }
      current := progress.task;
      succeeded := succeeded + {step.id};
      executed := executed + 1;
      budget := if budget.Some? then Some(budget.value - 1) else None;
      if maxSteps.Some? && executed >= maxSteps.value {
        return current.(status := Ready);
      }
    }
    RunFromHere(current, plan, |plan.steps|, succeeded, budget, env);
    return current.(status := Prepared);
  }

  /** One unfolding of the loop. */
  lemma RunFromHere(t: Task, plan: Plan, i: nat, done: set<StepId>, budget: Option<int>, env: Environment)
    requires i <= |plan.steps|
    ensures RunFrom(t, plan, i, done, budget, env) ==
            if i == |plan.steps| then t.(status := Prepared)
            else if plan.steps[i].id in done then RunFrom(t, plan, i + 1, done, budget, env)
            else
              match Turn(t, plan.version, plan.steps[i], env)
              case Stopped(r) => r
              case Advanced(r) =>
                if budget.Some? && budget.value <= 1 then r.(status := Ready)
                else RunFrom(r, plan, i + 1, done + {plan.steps[i].id}, if budget.Some? then Some(budget.value - 1) else None, env)
  {
    hide Turn;
  }

  method RunTurn(task: Task, version: nat, step: PlanStep, env: Environment) returns (progress: Progress)
    ensures progress == Turn(task, version, step, env)
  {
    var current := task;
    var decision := Decide(current.policy, current.origin, step);
    var approval := FitOf(current, version, step);
    if decision.AsksUser? && approval.None? {
      current := Log(current, step.id, Blocked, ByUser(decision.reason), env.clock(|JournalOf(current)|));
      return Stopped(current.(status := WaitingForUser, waitingReason := Some(decision.reason)));
    }
    if decision.Denied? {
      current := Log(current, step.id, Failed, ByPolicy(decision.code), env.clock(|JournalOf(current)|));
      return Stopped(current.(status := TaskFailed));
    }
    var startedAt := env.clock(|JournalOf(current)|);
    if approval.Some? {
      FoundApproval(current.approvals, version, step.id, decision.reason);
      current := current.(approvals := Consume(current.approvals, current.approvals[approval.value], startedAt));
    }
    current := Log(current, step.id, Started, if decision.AsksUser? then UserApproved else ByPolicy(decision.code), startedAt);
    var answer := env.runner(|JournalOf(current)|);
    var result := if answer.Ran? then answer.result else StepResult(false, STEP_EXCEPTION, None, None);
    current := Log(current, step.id, if result.succeeded then Succeeded else Failed, result.code, env.clock(|JournalOf(current)|));
    if result.snapshot.Some? {
      current := current.(snapshot := result.snapshot, fillPlan := None);
    }
    if result.fillPlan.Some? {
      current := current.(fillPlan := result.fillPlan);
    }
    if !result.succeeded {
      return Stopped(current.(status := if result.code == REVIEW_NOT_AVAILABLE then Monitoring else TaskFailed));
    }
    return Advanced(current);
  }

  // ---------------------------------------------- chunks and the whole batch

  /** Steps not yet done. */
  function Remaining(steps: seq<PlanStep>, done: set<StepId>): nat {
    if steps == [] then 0
    else Remaining(steps[..|steps| - 1], done) + (if steps[|steps| - 1].id in done then 0 else 1)
  }

  lemma {:induction false} RemainingShrinks(steps: seq<PlanStep>, done: set<StepId>, more: set<StepId>)
    requires done <= more
    ensures Remaining(steps, more) <= Remaining(steps, done) <= |steps|
    ensures (exists i :: 0 <= i < |steps| && steps[i].id in more && steps[i].id !in done) ==>
              Remaining(steps, more) < Remaining(steps, done)
  {
    if steps != [] {
      RemainingShrinks(steps[..|steps| - 1], done, more);
    }
  }

  /** A finished turn succeeded with its step and left the plan, the policy and the running state alone. */
  lemma AdvancedTurn(t: Task, version: nat, step: PlanStep, env: Environment)
    requires Turn(t, version, step, env).Advanced?
    ensures var r := Turn(t, version, step, env).task;
            && SucceededIn(JournalOf(r)) == SucceededIn(JournalOf(t)) + {step.id}
            && r.plan == t.plan && r.status == t.status && r.waitingReason == t.waitingReason && r.journal.Some?
  {
    hide Decide, FindApproval, Consume;
    LogSucceeded(t, step.id, env);
  }

  lemma LogSucceeded(t: Task, step: StepId, env: Environment)
    ensures forall code, at :: SucceededIn(JournalOf(Log(t, step, Started, code, at))) == SucceededIn(JournalOf(t))
    ensures forall code, at :: SucceededIn(JournalOf(Log(t, step, Succeeded, code, at))) == SucceededIn(JournalOf(t)) + {step}
  {
  }

  /** Skipping: a loop that restarts at the front passes over the steps that are done. */
  lemma {:induction false} SkipsDone(t: Task, plan: Plan, i: nat, done: set<StepId>, budget: Option<int>, env: Environment)
    requires i <= |plan.steps| && IdsBefore(plan.steps, i) <= done
    ensures RunFrom(t, plan, 0, done, budget, env) == RunFrom(t, plan, i, done, budget, env)
  {
    hide Turn;
    if i > 0 {
      assert IdsBefore(plan.steps, i - 1) <= IdsBefore(plan.steps, i);
      SkipsDone(t, plan, i - 1, done, budget, env);
      assert plan.steps[i - 1].id in IdsBefore(plan.steps, i);
    }
  }

  /** A task in the middle of the loop. */
  ghost predicate InLoop(t: Task, plan: Plan, i: nat, done: set<StepId>) {
    && i <= |plan.steps| && IdsBefore(plan.steps, i) <= done
    && t.plan == Some(plan) && t.status == Running && t.waitingReason.None? && t.journal.Some?
    && SucceededIn(JournalOf(t)) == done
  }

  /**
   A chunk against the whole batch from the same point: either the chunk ends where the batch ends, or it stops READY
   with more steps done and the batch is what a new call without limit makes of it.
   */
  lemma {:induction false} ChunkThenRest(t: Task, plan: Plan, i: nat, done: set<StepId>, budget: int, env: Environment)
    requires InLoop(t, plan, i, done) && budget >= 1
    ensures var chunk, batch := RunFrom(t, plan, i, done, Some(budget), env), RunFrom(t, plan, i, done, None, env);
            && chunk.plan == Some(plan)
            && (chunk.status != Ready ==> chunk == batch)
            && (chunk.status == Ready ==>
                  && Execute(chunk, None, env) == Success(batch)
                  && Remaining(plan.steps, SucceededIn(JournalOf(chunk))) < Remaining(plan.steps, done))
    decreases |plan.steps| - i
  {
    hide Turn, SucceededIn, Remaining;
    if i < |plan.steps| {
      var step := plan.steps[i];
      assert IdsBefore(plan.steps, i + 1) == IdsBefore(plan.steps, i) + {step.id};
      if step.id in done {
        ChunkThenRest(t, plan, i + 1, done, budget, env);
      } else {
        var turn := Turn(t, plan.version, step, env);
        if turn.Stopped? {
          StoppedTurn(t, plan.version, step, env);
        } else {
          AdvancedTurn(t, plan.version, step, env);
          var more := done + {step.id};
          RemainingShrinks(plan.steps, done, more);
          if budget > 1 {
            ChunkThenRest(turn.task, plan, i + 1, more, budget - 1, env);
          } else {
            SkipsDone(turn.task, plan, i + 1, more, None, env);
            assert Begin(turn.task.(status := Ready)) == turn.task;
          }
        }
      }
    }
  }

  /** A turn that ends the call never leaves the task READY or RUNNING. */
  lemma StoppedTurn(t: Task, version: nat, step: PlanStep, env: Environment)
    requires Turn(t, version, step, env).Stopped?
    ensures Turn(t, version, step, env).task.status in {WaitingForUser, Monitoring, TaskFailed}
    ensures Turn(t, version, step, env).task.plan == t.plan
  {
  }

  /** Calls with the given limits, one after the other, as long as they return READY. */
  function Drive(t: Task, limits: seq<int>, env: Environment): Task
    decreases |limits|
  {
    if limits == [] then t
    else
      match Execute(t, Some(limits[0]), env)
      case Failure(_) => t
      case Success(r) => if r.status == Ready then Drive(r, limits[1..], env) else r
  }

  /**
   Chunked execution refines batch execution: any limits of at least one step, given one call more than there are
   steps, lead to exactly the task that one unlimited call returns.
   */
  lemma ChunksMakeTheBatch(t: Task, limits: seq<int>, env: Environment)
    requires t.plan.Some? && (t.status == Ready || t.status == Running)
    requires forall k :: 0 <= k < |limits| ==> limits[k] >= 1
    requires |limits| > |t.plan.value.steps|
    ensures Execute(t, None, env) == Success(Drive(t, limits, env))
  {
    RemainingShrinks(t.plan.value.steps, SucceededIn(JournalOf(t)), SucceededIn(JournalOf(t)));
    DriveRest(t, limits, env);
  }

  lemma {:induction false} DriveRest(t: Task, limits: seq<int>, env: Environment)
    requires t.plan.Some? && (t.status == Ready || t.status == Running)
    requires forall k :: 0 <= k < |limits| ==> limits[k] >= 1
    requires |limits| > Remaining(t.plan.value.steps, SucceededIn(JournalOf(t)))
    ensures Execute(t, None, env) == Success(Drive(t, limits, env))
    decreases |limits|
  {
    hide RunFrom, Remaining, SucceededIn;
    var plan, done := t.plan.value, SucceededIn(JournalOf(t));
    ChunkThenRest(Begin(t), plan, 0, done, limits[0], env);
    var chunk := RunFrom(Begin(t), plan, 0, done, Some(limits[0]), env);
    if chunk.status == Ready {
      DriveRest(chunk, limits[1..], env);
    }
  }
}
