/**
 * The holds of a run the simple way: every reason to stop is a flag of its own, and
 * the state a user sees is computed from the flags.  The store keeps one state
 * column and one resume_state column instead; `Agrees` ties the two together and
 * the store proves that every one of its operations keeps the tie.
 */
module HoldModel {
  import opened Wrappers
  import opened RunModel

  /** `home` is the state the run works in whenever nothing holds it. */
  datatype Hold = Hold(home: RunState, userHold: bool, accountHold: bool,
                       budget: Budget, usage: Usage, end: Option<RunState>)

  datatype Op =
    | PauseOp
    | ResumeOp
    | UseOp(input: UsageInput)
    | BudgetOp(budget: Budget)
    | AccountOp(blocked: bool)
    | WorkOp(to: RunState)
    | FinishOp(to: RunState)

  predicate OverBudget(h: Hold) {
    OverLimit(h.budget, h.usage)
  }

  /** The state the flags amount to. */
  function Shown(h: Hold): RunState {
    if h.end.Some? then h.end.value
    else if h.userHold then Paused
    else if h.accountHold || OverBudget(h) then BudgetExhausted
    else h.home
  }

  function Start(budget: Budget): Hold {
    Hold(Created, false, false, budget, NO_USAGE, None)
  }

  function Step(h: Hold, op: Op): Hold {
    match op
    case UseOp(i) => h.(usage := AddUsage(h.budget, h.usage, i))
    case BudgetOp(b) => h.(budget := b)
    case _ =>
      if h.end.Some? then h else
      match op
      case PauseOp => h.(userHold := true)
      case ResumeOp => if h.accountHold || OverBudget(h) then h else h.(userHold := false)
      case AccountOp(b) => h.(accountHold := b)
      case WorkOp(to) => if Working(Shown(h)) && Working(to) then h.(home := to) else h
      case FinishOp(to) => if Terminal(to) then h.(end := Some(to)) else h
      case _ => h
  }

  function Replay(h: Hold, ops: seq<Op>): Hold {
    if ops == [] then h else Step(Replay(h, ops[..|ops| - 1]), ops[|ops| - 1])
  }

  ghost predicate TasksAgree(state: RunState, tasks: seq<Task>) {
    && (Held(state) ==> NoTask(tasks, TaskActive) && NoTask(tasks, TaskPending))
    && (Working(state) ==> NoTask(tasks, TaskPaused))
  }

  /** The stored row represents the flags. */
  ghost predicate Agrees(run: Run, h: Hold) {
    && run.budget == h.budget && run.usage == h.usage && run.accountBlocked == h.accountHold
    && Working(h.home)
    && (h.end.Some? ==> Terminal(h.end.value))
    && run.state == Shown(h) && run.resume != Some(ResumeStateUnknown)
    && (h.end.None? ==>
          && run.resume == (if Held(run.state) then Some(h.home) else None)
          && TasksAgree(run.state, run.tasks))
  }

  // ---- What agreement means for a stored row ----

  lemma AgreementReads(run: Run, h: Hold)
    requires Agrees(run, h)
    ensures Working(run.state) ==>
      !run.accountBlocked && !OverLimit(run.budget, run.usage) && run.resume == None && NoTask(run.tasks, TaskPaused)
    ensures Held(run.state) ==>
      run.resume == Some(h.home) && Working(h.home) && NoTask(run.tasks, TaskActive) && NoTask(run.tasks, TaskPending)
    ensures run.state == BudgetExhausted ==> run.accountBlocked || OverLimit(run.budget, run.usage)
    ensures run.state != ResumeStateUnknown && run.resume != Some(ResumeStateUnknown)
  {
  }

  // ---- Facts about every history of the simple model ----

  lemma StepKeepsShape(h: Hold, op: Op)
    requires Working(h.home) && (h.end.Some? ==> Terminal(h.end.value))
    ensures Working(Step(h, op).home) && (Step(h, op).end.Some? ==> Terminal(Step(h, op).end.value))
  {
  }

  lemma {:induction false} ReplayKeepsShape(h: Hold, ops: seq<Op>)
    requires Working(h.home) && (h.end.Some? ==> Terminal(h.end.value))
    ensures Working(Replay(h, ops).home) && (Replay(h, ops).end.Some? ==> Terminal(Replay(h, ops).end.value))
  {
    if ops != [] {
      ReplayKeepsShape(h, ops[..|ops| - 1]);
      StepKeepsShape(Replay(h, ops[..|ops| - 1]), ops[|ops| - 1]);
    }
  }

  /** The last working state that was visible at any point of the history. */
  function LastWorkingShown(h: Hold, ops: seq<Op>): RunState {
    var now := Shown(Replay(h, ops));
    if Working(now) || ops == [] then now else LastWorkingShown(h, ops[..|ops| - 1])
  }

  /**
   * Whatever holds came and went, in whatever order, `home` is the last working
   * state the run was seen in: the state before the first hold still in force.
   */
  lemma {:induction false} HomeIsLastWorkingState(h: Hold, ops: seq<Op>)
    requires Working(h.home) && h.end.None? && Working(Shown(h))
    ensures Replay(h, ops).home == LastWorkingShown(h, ops)
  {
    ReplayKeepsShape(h, ops);
    if ops != [] {
      var before := ops[..|ops| - 1];
      HomeIsLastWorkingState(h, before);
      ReplayKeepsShape(h, before);
    }
  }

  /** A step that takes a held run back to work takes it to its home state. */
  lemma ReleaseReturnsHome(h: Hold, op: Op)
    requires Working(h.home) && Held(Shown(h)) && Working(Shown(Step(h, op)))
    ensures Shown(Step(h, op)) == h.home
  {
    match op
    case WorkOp(_) =>
    case _ =>
  }

  predicate OnlyHolds(ops: seq<Op>) {
    forall op :: op in ops ==> !op.WorkOp? && !op.FinishOp?
  }

  /** Any run of pauses, resumes, usage, budget edits and account changes that ends in work ends where it began. */
  lemma {:induction false} HoldsLoseNothing(h: Hold, ops: seq<Op>)
    requires Working(h.home) && h.end.None? && OnlyHolds(ops)
    ensures Replay(h, ops).home == h.home && Replay(h, ops).end.None?
    ensures Working(Shown(Replay(h, ops))) ==> Shown(Replay(h, ops)) == h.home
  {
    ReplayKeepsShape(h, ops);
    if ops != [] {
      HoldsLoseNothing(h, ops[..|ops| - 1]);
    }
  }

  // ---- Views of an agreeing row ----

  function ResumeTarget(run: Run): RunState {
    if run.resume.Some? then run.resume.value else if run.adaptive then Executing else Researching
  }

  /** When `resumeRun` returns instead of throwing. */
  predicate ResumeSucceeds(run: Run) {
    run.state == Paused && !run.accountBlocked && !OverLimit(run.budget, run.usage) && Working(ResumeTarget(run))
  }

  lemma CanResumeIsExact(run: Run, h: Hold)
    requires Agrees(run, h)
    ensures CanResume(run) <==> ResumeSucceeds(run)
    ensures CanResume(run) <==> h.end.None? && h.userHold && Shown(Step(h, ResumeOp)) == h.home
  {
  }

  /** Work that goes on only when somebody acts. */
  predicate WaitsForSomebody(s: RunState) {
    s == RevisionRequested || s == ReworkRequested || s == WaitingApproval || s == WaitingInput || s == Blocked
  }

  /**
   * A row is in exactly one of the lists.  An unfinished run shows a budget item exactly
   * while the account blocks it or a limit is reached, and is in the first list exactly
   * for what it shows, a stored item, or a state that waits for somebody; a finished run
   * is there only for a stored item.
   */
  lemma AttentionIsListed(run: Run, h: Hold, pendingItem: bool)
    requires Agrees(run, h)
    ensures [NeedsAttention(run, pendingItem), ListedActive(run, pendingItem), ListedRecent(run, pendingItem)] in
      {[true, false, false], [false, true, false], [false, false, true]}
    ensures h.end.None? ==> (BudgetItem in DerivedAttention(run) <==> h.accountHold || OverBudget(h))
    ensures PlanConfirmation in DerivedAttention(run) <==> Shown(h) == AwaitingPlanConfirmation
    ensures ResumeUnknownItem !in DerivedAttention(run)
    ensures NeedsAttention(run, pendingItem) <==>
      pendingItem || (h.end.None? && (DerivedAttention(run) != [] || WaitsForSomebody(run.state)))
    ensures ListedRecent(run, pendingItem) <==> h.end.Some? && !pendingItem
  {
    if h.end.Some? {
      assert Terminal(run.state);
    } else {
      AgreementReads(run, h);
      assert DerivedAttention(run) != [] <==> run.state == AwaitingPlanConfirmation || h.accountHold || OverBudget(h);
    }
  }

  // ---- Writers that do not look at holds ----

  /** `transition` as called by a step that does not check the current state (agent recovery). */
  function Transitioned(run: Run, to: RunState, taskState: Option<TaskState>, taskPhase: Option<string>): Run {
    run.(state := to,
         tasks := seq(|run.tasks|, i requires 0 <= i < |run.tasks| =>
           Task(if taskState.Some? then taskState.value else run.tasks[i].state,
                if taskPhase.Some? then taskPhase.value else run.tasks[i].phase)))
  }

  function Retried(run: Run, index: nat): Run
    requires index < |run.tasks|
  {
    run.(state := Executing, tasks := run.tasks[index := run.tasks[index].(state := TaskPending)])
  }

  ghost predicate AgreesWithSome(run: Run) {
    exists h :: Agrees(run, h)
  }

  /** Nothing holds the run: no saved state, no account block and no limit reached. */
  predicate Unheld(run: Run) {
    run.resume.None? && !run.accountBlocked && !OverLimit(run.budget, run.usage)
  }

  /** Whatever a row was before, put to work it is representable exactly when nothing holds it and no task is paused. */
  lemma WorkAgreesExactlyWhen(row: Run)
    requires Working(row.state)
    ensures AgreesWithSome(row) <==> Unheld(row) && NoTask(row.tasks, TaskPaused)
  {
    if Unheld(row) && NoTask(row.tasks, TaskPaused) {
      assert Agrees(row, Hold(row.state, false, false, row.budget, row.usage, None));
    }
  }

  /**
   * `retryAdaptiveTask` keeps the row representable exactly when nothing held the
   * run; retried from a hold, the row works while a hold is still recorded.
   */
  lemma RetryNeedsNoHold(run: Run, h: Hold, index: nat)
    requires Agrees(run, h) && !Terminal(run.state) && index < |run.tasks|
    ensures AgreesWithSome(Retried(run, index)) <==> Working(run.state)
  {
    var after := Retried(run, index);
    if Working(run.state) {
      assert Agrees(after, h.(home := Executing));
    }
  }

  /** An unguarded transition to a working state is safe exactly when the run was working. */
  lemma UncheckedTransitionNeedsNoHold(run: Run, h: Hold, to: RunState)
    requires Agrees(run, h) && !Terminal(run.state) && Working(to)
    ensures AgreesWithSome(Transitioned(run, to, None, None)) <==> Working(run.state)
  {
    var after := Transitioned(run, to, None, None);
    if Working(run.state) {
      assert after.tasks == run.tasks;
      assert Agrees(after, h.(home := to));
    }
  }
}
