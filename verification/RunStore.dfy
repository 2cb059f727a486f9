/**
 * The run table and the usage receipts of the collaboration store.  Every method
 * follows the branches of the store method it is named after and appends, in ghost
 * code, the operation of the simple hold model it amounts to; `Valid` says that
 * each row agrees with the replay of its history.
 */
module RunStore {
  import opened Wrappers
  import opened RunModel
  import opened HoldModel
  import opened UsageTotals

  // ---- Sums over receipts ----

  function TokensOf(receipts: seq<Receipt>, runId: string): nat {
    if receipts == [] then 0
    else TokensOf(receipts[..|receipts| - 1], runId)
         + var r := receipts[|receipts| - 1]; if r.runId == runId then r.tokens else 0
  }

  function AmountOf(receipts: seq<Receipt>, runId: string): nat {
    if receipts == [] then 0
    else AmountOf(receipts[..|receipts| - 1], runId)
         + var r := receipts[|receipts| - 1]; if r.runId == runId then r.amount else 0
  }

  predicate InCurrency(r: Receipt, currency: Option<string>) {
    r.currency != "" && currency == Some(r.currency)
  }

  function UnpricedOf(receipts: seq<Receipt>, runId: string, currency: Option<string>): nat {
    if receipts == [] then 0
    else UnpricedOf(receipts[..|receipts| - 1], runId, currency)
         + var r := receipts[|receipts| - 1];
           if r.runId == runId && !InCurrency(r, currency) then 1 else 0
  }

  /** The run's totals are exactly what its receipts say. */
  ghost predicate Conserved(receipts: seq<Receipt>, runId: string, u: Usage) {
    && u.tokens == TokensOf(receipts, runId)
    && u.amount == AmountOf(receipts, runId)
    && u.unpriced == UnpricedOf(receipts, runId, u.currency)
    && u.currency != Some("")
    && (forall i :: 0 <= i < |receipts| && receipts[i].runId == runId ==>
          && (receipts[i].amount > 0 ==> InCurrency(receipts[i], u.currency))
          && (u.currency.None? ==> receipts[i].currency == ""))
  }

  ghost predicate UniqueEvents(receipts: seq<Receipt>) {
    forall i, j :: 0 <= i < j < |receipts| ==> receipts[i].eventId != receipts[j].eventId
  }

  predicate Recorded(receipts: seq<Receipt>, eventId: string) {
    exists i :: 0 <= i < |receipts| && receipts[i].eventId == eventId
  }

  lemma {:induction false} NoReceiptsNoTotals(receipts: seq<Receipt>, runId: string, currency: Option<string>)
    requires forall i :: 0 <= i < |receipts| ==> receipts[i].runId != runId
    ensures TokensOf(receipts, runId) == 0 && AmountOf(receipts, runId) == 0
    ensures UnpricedOf(receipts, runId, currency) == 0
  {
    if receipts != [] {
      NoReceiptsNoTotals(receipts[..|receipts| - 1], runId, currency);
    }
  }

  /** While no receipt carries a currency, naming one leaves every receipt unpriced. */
  lemma {:induction false} NamingCurrencyKeepsUnpriced(receipts: seq<Receipt>, runId: string, currency: string)
    requires forall i :: 0 <= i < |receipts| && receipts[i].runId == runId ==> receipts[i].currency == ""
    ensures UnpricedOf(receipts, runId, Some(currency)) == UnpricedOf(receipts, runId, None)
  {
    if receipts != [] {
      NamingCurrencyKeepsUnpriced(receipts[..|receipts| - 1], runId, currency);
    }
  }

  /** One more receipt moves the totals by exactly that receipt, and the currency is never replaced. */
  lemma UsageStepConserves(receipts: seq<Receipt>, runId: string, b: Budget, u: Usage, i: UsageInput)
    requires Conserved(receipts, runId, u)
    ensures Conserved(receipts + [ReceiptOf(runId, b, u, i)], runId, AddUsage(b, u, i))
    ensures u.currency.Some? ==> AddUsage(b, u, i).currency == u.currency
  {
    var r := ReceiptOf(runId, b, u, i);
    var more := receipts + [r];
    assert more[..|more| - 1] == receipts;
    if u.currency.None? && AddUsage(b, u, i).currency.Some? {
      NamingCurrencyKeepsUnpriced(receipts, runId, AddUsage(b, u, i).currency.value);
    }
  }

  /** A receipt of one run leaves every other run's totals alone. */
  lemma OtherRunsConserve(receipts: seq<Receipt>, r: Receipt, runId: string, u: Usage)
    requires Conserved(receipts, runId, u) && r.runId != runId
    ensures Conserved(receipts + [r], runId, u)
  {
    var more := receipts + [r];
    assert more[..|more| - 1] == receipts;
  }

  // ---- How each operation rewrites one row ----

  /**
   * What the hold model does not see: tasks stop when a hold begins and start again
   * when the last one ends, and nothing else of the row changes.
   */
  predicate Carried(run: Run, row: Run, op: Op) {
    var to := if run.adaptive || (op.ResumeOp? && row.state == Created) then TaskPending else TaskActive;
    && row.adaptive == run.adaptive
    && row.budgetRevision == run.budgetRevision + (if op.BudgetOp? then 1 else 0)
    && row.tasks == (if Working(run.state) && Held(row.state) then StopTasks(run.tasks)
                     else if Held(run.state) && Working(row.state) then RestartTasks(run.tasks, to)
                     else run.tasks)
    && (Terminal(run.state) ==> row.state == run.state && row.resume == run.resume)
  }

  lemma StoppedTasksStay(tasks: seq<Task>)
    requires NoTask(tasks, TaskActive) && NoTask(tasks, TaskPending)
    ensures StopTasks(tasks) == tasks
  {
  }

  /** The row a user pause writes. */
  method PausedRow(run: Run, ghost h: Hold) returns (row: Run)
    requires Agrees(run, h) && !Terminal(run.state) && run.state != Paused
    ensures Agrees(row, Step(h, PauseOp)) && Carried(run, row, PauseOp)
    ensures row.state == Paused && row.usage == run.usage
    ensures row.resume == if Held(run.state) then run.resume else Some(run.state)
  {
    if Held(run.state) { StoppedTasksStay(run.tasks); }
    // Under a budget hold the column already names the working state, so it stays.
    var resumeState :=
      if run.state == BudgetExhausted then
        (if run.resume.Some? && run.resume.value != BudgetExhausted && run.resume.value != Paused
         then run.resume.value else ResumeStateUnknown)
      else run.state;
    row := run.(state := Paused, resume := Some(resumeState), tasks := StopTasks(run.tasks));
  }

  /** The row an accepted resume writes, or the reason to refuse. */
  method ResumedRow(run: Run, ghost h: Hold) returns (r: Outcome<RunError>, row: Run)
    requires Agrees(run, h)
    ensures r.Ok? <==> ResumeSucceeds(run)
    ensures r.Refused? ==> row == run
    ensures r.Refused? ==>
      r.error == if run.state != Paused then RunNotPaused
                 else if run.accountBlocked then AccountStillBlocked else BudgetStillExhausted
    ensures r.Ok? ==>
      && Agrees(row, Step(h, ResumeOp)) && Carried(run, row, ResumeOp) && row.usage == run.usage
      && run.resume == Some(row.state) && row.resume == None && Working(row.state)
  {
    if run.state != Paused { return Refused(RunNotPaused), run; }
    if run.accountBlocked { return Refused(AccountStillBlocked), run; }
    if OverLimit(run.budget, run.usage) { return Refused(BudgetStillExhausted), run; }
    var nextState := ResumeTarget(run);
    if nextState == ResumeStateUnknown || Held(nextState) || Terminal(nextState) {
      return Refused(OriginalStateUnavailable), run;
    }
    var started := if nextState == Created || run.adaptive then TaskPending else TaskActive;
    return Ok, run.(state := nextState, resume := None, tasks := RestartTasks(run.tasks, started));
  }

  /** The row after usage was added: a paused run keeps its pause and its saved state. */
  method UsageRow(run: Run, input: UsageInput, ghost h: Hold) returns (row: Run)
    requires Agrees(run, h)
    ensures Agrees(row, Step(h, UseOp(input))) && row.usage == AddUsage(run.budget, run.usage, input)
    ensures Carried(run, row, UseOp(input))
    ensures row.state == run.state || (Working(run.state) && row.state == BudgetExhausted)
  {
    if Held(run.state) { StoppedTasksStay(run.tasks); }
    row := run.(usage := AddUsage(run.budget, run.usage, input));
    if OverLimit(row.budget, row.usage) && run.state != Paused && !Terminal(run.state) {
      var resumeState := if run.state == BudgetExhausted then run.resume else Some(run.state);
      row := row.(state := BudgetExhausted,
                  resume := if run.resume == None then resumeState else run.resume,
                  tasks := StopTasks(run.tasks));
    }
  }

  /** The phase a restored run falls back to when no state was saved. */
  function FallbackState(tasks: seq<Task>): RunState {
    if tasks == [] then WaitingInput
    else match tasks[0].phase
         case "research" => Researching
         case "planning" => Planning
         case "plan_review" => AwaitingPlanReview
         case "implementation" => Implementing
         case "verification" => AwaitingVerification
         case _ => WaitingInput
  }

  /** The row after its budget was replaced. */
  method BudgetRow(run: Run, budget: Budget, ghost h: Hold) returns (row: Run)
    requires Agrees(run, h)
    ensures Agrees(row, Step(h, BudgetOp(budget))) && Carried(run, row, BudgetOp(budget)) && row.usage == run.usage
    ensures Held(run.state) && Working(row.state) ==> run.resume == Some(row.state)
  {
    if Held(run.state) { StoppedTasksStay(run.tasks); }
    var exhausted := OverLimit(budget, run.usage);
    var nextState, nextResume, tasks := run.state, run.resume, run.tasks;
    if exhausted && !Terminal(run.state) && run.state != Paused {
      if run.state != BudgetExhausted { nextResume := Some(run.state); }
      nextState := BudgetExhausted;
      tasks := StopTasks(tasks);
    } else if run.state == BudgetExhausted && !run.accountBlocked {
      nextState := if nextResume.Some? then nextResume.value else FallbackState(run.tasks);
      nextResume := None;
      tasks := RestartTasks(tasks, if run.adaptive then TaskPending else TaskActive);
    }
    row := run.(budget := budget, state := nextState, resume := nextResume, tasks := tasks,
                budgetRevision := run.budgetRevision + 1);
  }

  /** The row after the account flag of an unfinished run changed. */
  method AccountRow(run: Run, blocked: bool, ghost h: Hold) returns (row: Run, restored: bool)
    requires Agrees(run, h) && !Terminal(run.state) && run.accountBlocked != blocked
    ensures Agrees(row, Step(h, AccountOp(blocked))) && Carried(run, row, AccountOp(blocked)) && row.usage == run.usage
    ensures row.accountBlocked == blocked && !Terminal(row.state)
    ensures restored <==> run.state == BudgetExhausted && Working(row.state)
  {
    if Held(run.state) { StoppedTasksStay(run.tasks); }
    restored := false;
    if run.state == Paused {
      row := run.(accountBlocked := blocked);
    } else if blocked {
      var resumeState := if run.state == BudgetExhausted then run.resume else Some(run.state);
      row := run.(state := BudgetExhausted, accountBlocked := true,
                  resume := if run.resume == None then resumeState else run.resume,
                  tasks := StopTasks(run.tasks));
    } else {
      row := run.(accountBlocked := false);
      if !OverLimit(run.budget, run.usage) && run.state == BudgetExhausted {
        restored := true;
        row := row.(state := if run.resume.Some? then run.resume.value else FallbackState(run.tasks),
                    resume := None,
                    tasks := RestartTasks(run.tasks, if run.adaptive then TaskPending else TaskActive));
      }
    }
  }

  /** What the callers of `transition` check first: work leads to work, and only an unfinished run finishes. */
  predicate CheckedMove(from: RunState, to: RunState, taskState: Option<TaskState>) {
    (Working(from) && Working(to) && taskState != Some(TaskPaused)) || (!Terminal(from) && Terminal(to))
  }

  function MoveOp(to: RunState): Op {
    if Terminal(to) then FinishOp(to) else WorkOp(to)
  }

  lemma CheckedMoveAgrees(run: Run, h: Hold, to: RunState, taskState: Option<TaskState>, taskPhase: Option<string>)
    requires Agrees(run, h) && CheckedMove(run.state, to, taskState)
    ensures Agrees(Transitioned(run, to, taskState, taskPhase), Step(h, MoveOp(to)))
  {
  }

  lemma WorkingRowHasNoSavedState(run: Run)
    requires Working(run.state) && run.resume.Some?
    ensures !AgreesWithSome(run) && !ResumeSucceeds(run)
  {
  }

  lemma PutToWorkAgreesExactlyWhen(run: Run, to: RunState, taskState: Option<TaskState>, taskPhase: Option<string>)
    ensures var row := Transitioned(run, to, taskState, taskPhase);
      Working(to) ==> (AgreesWithSome(row) <==> Unheld(run) && NoTask(row.tasks, TaskPaused))
  {
    if Working(to) {
      WorkAgreesExactlyWhen(Transitioned(run, to, taskState, taskPhase));
    }
  }

  /** Where a run began in the simple hold model, and every operation since. */
  datatype Trail = Trail(start: Hold, ops: seq<Op>)

  function Now(t: Trail): Hold {
    Replay(t.start, t.ops)
  }

  function Extended(t: Trail, op: Op): Trail {
    t.(ops := t.ops + [op])
  }

  lemma ExtendedStep(t: Trail, op: Op)
    ensures Now(Extended(t, op)) == Step(Now(t), op)
  {
    assert Extended(t, op).ops[..|t.ops|] == t.ops;
  }

  ghost predicate RowAgrees(run: Run, t: Trail) {
    t.start == Start(t.start.budget) && Agrees(run, Now(t))
  }

  /** The saved state of a held run is the working state it was last seen in, however many holds came since. */
  lemma ResumeStateIsLastWorkingState(run: Run, t: Trail)
    requires RowAgrees(run, t) && Held(run.state)
    ensures run.resume == Some(LastWorkingShown(t.start, t.ops)) && Working(run.resume.value)
  {
    if Now(t).end.Some? {
      assert false;
    }
    HomeIsLastWorkingState(t.start, t.ops);
  }

  /** The row shows what its usage events add up to, and works only while they reach no limit. */
  ghost predicate Accounted(run: Run, t: Trail) {
    && run.usage == UsedAfter(t.start.budget, t.ops)
    && run.budget == BudgetAfter(t.start.budget, t.ops)
    && (LimitReached(t.start.budget, t.ops) ==> !Working(run.state))
  }

  lemma RowIsAccounted(run: Run, t: Trail)
    requires RowAgrees(run, t)
    ensures Accounted(run, t)
  {
    UsageIsTotals(t.start.budget, t.ops);
    WorksExactlyWhen(t.start.budget, t.ops);
  }

  /** The receipt of one event, as it stands in the table. */
  lemma ReceiptReads(runId: string, b: Budget, u: Usage, i: UsageInput)
    requires u.currency != Some("")
    ensures ReceiptOf(runId, b, u, i) ==
      Receipt(i.eventId, runId, Sampled(i), if Adds(i, AddUsage(b, u, i).currency) then i.amount.value else 0,
              if Configured(i) then i.currency else "")
  {
    EventAdds(b, u, i);
    assert Priced(i) <==> Configured(i);
  }

  /** Every row agrees with the replay of its history. */
  ghost predicate RowsAgree(runs: map<string, Run>, trails: map<string, Trail>) {
    runs.Keys == trails.Keys && forall id :: id in runs ==> RowAgrees(runs[id], trails[id])
  }

  /** Every run's totals are what the receipts say. */
  ghost predicate TotalsAgree(runs: map<string, Run>, receipts: seq<Receipt>) {
    && UniqueEvents(receipts)
    && (forall i :: 0 <= i < |receipts| ==> receipts[i].runId in runs)
    && (forall id :: id in runs ==> Conserved(receipts, id, runs[id].usage))
  }

  lemma RowOf(runs: map<string, Run>, trails: map<string, Trail>, id: string)
    requires RowsAgree(runs, trails) && id in runs
    ensures id in trails && Agrees(runs[id], Now(trails[id]))
  {
    assert RowAgrees(runs[id], trails[id]);
  }

  lemma RunAdded(runs: map<string, Run>, receipts: seq<Receipt>, id: string, run: Run)
    requires TotalsAgree(runs, receipts) && id !in runs && run.usage == NO_USAGE
    ensures TotalsAgree(runs[id := run], receipts)
  {
    NoReceiptsNoTotals(receipts, id, None);
  }

  lemma TrailAdded(runs: map<string, Run>, trails: map<string, Trail>, id: string, run: Run, trail: Trail)
    requires RowsAgree(runs, trails) && RowAgrees(run, trail)
    ensures RowsAgree(runs[id := run], trails[id := trail])
  {
    var rows, all := runs[id := run], trails[id := trail];
    forall k | k in rows ensures RowAgrees(rows[k], all[k]) {
      if k != id {
        assert RowAgrees(runs[k], trails[k]);
      }
    }
  }

  /** One row replaced by a row that agrees with one more step of the simple model. */
  lemma RowReplaced(runs: map<string, Run>, trails: map<string, Trail>, id: string, run: Run, op: Op)
    requires RowsAgree(runs, trails) && id in runs && id in trails
    requires Agrees(run, Step(Now(trails[id]), op))
    ensures RowsAgree(runs[id := run], trails[id := Extended(trails[id], op)])
  {
    ExtendedStep(trails[id], op);
    assert RowAgrees(runs[id], trails[id]);
    TrailAdded(runs, trails, id, run, Extended(trails[id], op));
  }

  lemma NewEventStaysUnique(receipts: seq<Receipt>, r: Receipt)
    requires UniqueEvents(receipts) && !Recorded(receipts, r.eventId)
    ensures UniqueEvents(receipts + [r])
  {
  }

  /** A new receipt together with the usage of the run it belongs to. */
  lemma ReceiptInserted(runs: map<string, Run>, receipts: seq<Receipt>, id: string, row: Run, input: UsageInput)
    requires TotalsAgree(runs, receipts) && id in runs && !Recorded(receipts, input.eventId)
    requires row.usage == AddUsage(runs[id].budget, runs[id].usage, input)
    ensures TotalsAgree(runs[id := row], receipts + [ReceiptOf(id, runs[id].budget, runs[id].usage, input)])
  {
    var receipt := ReceiptOf(id, runs[id].budget, runs[id].usage, input);
    NewEventStaysUnique(receipts, receipt);
    var runs' := runs[id := row];
    forall k | k in runs' ensures Conserved(receipts + [receipt], k, runs'[k].usage) {
      if k == id {
        UsageStepConserves(receipts, id, runs[id].budget, runs[id].usage, input);
      } else {
        OtherRunsConserve(receipts, receipt, k, runs[k].usage);
      }
    }
  }

  lemma ReceiptOfRun(runs: map<string, Run>, receipts: seq<Receipt>, id: string, input: UsageInput)
    requires TotalsAgree(runs, receipts) && id in runs
    ensures var b, u := runs[id].budget, runs[id].usage;
      ReceiptOf(id, b, u, input) ==
        Receipt(input.eventId, id, Sampled(input),
                if Adds(input, AddUsage(b, u, input).currency) then input.amount.value else 0,
                if Configured(input) then input.currency else "")
  {
    assert Conserved(receipts, id, runs[id].usage);
    ReceiptReads(id, runs[id].budget, runs[id].usage, input);
  }

  // ---- Columns that are written without a look at the holds ----

  /** The row is in this state, and so is each task, in this phase, where they are given; nothing else changed. */
  ghost predicate MovedTo(run: Run, row: Run, to: RunState, taskState: Option<TaskState>, taskPhase: Option<string>) {
    && row == run.(state := to, tasks := row.tasks) && |row.tasks| == |run.tasks|
    && forall i :: 0 <= i < |run.tasks| ==>
         && (if taskState.Some? then row.tasks[i].state == taskState.value else row.tasks[i].state == run.tasks[i].state)
         && (if taskPhase.Some? then row.tasks[i].phase == taskPhase.value else row.tasks[i].phase == run.tasks[i].phase)
  }

  /** The run executes and one task waits again; nothing else changed. */
  ghost predicate TaskPutBack(run: Run, row: Run, index: nat)
    requires index < |run.tasks|
  {
    && row == run.(state := Executing, tasks := row.tasks) && |row.tasks| == |run.tasks|
    && row.tasks[index].state == TaskPending && row.tasks[index].phase == run.tasks[index].phase
    && forall i :: 0 <= i < |run.tasks| && i != index ==> row.tasks[i] == run.tasks[i]
  }

  lemma MovingMeans(run: Run, to: RunState, taskState: Option<TaskState>, taskPhase: Option<string>)
    ensures MovedTo(run, Transitioned(run, to, taskState, taskPhase), to, taskState, taskPhase)
  {
  }

  lemma RetryingMeans(run: Run, index: nat)
    requires index < |run.tasks|
    ensures TaskPutBack(run, Retried(run, index), index)
  {
  }

  // ---- Budget edits ----

  predicate InRange(f: Field<int>, max: int) {
    f == Absent || f == Null || (f.Given? && 0 < f.value <= max)
  }

  /** What an edit must be for a run: in range, in its currency, and, if guarded, of its revision and before its end. */
  predicate Acceptable(run: Run, e: BudgetEdit) {
    && (e.expected.Some? ==> e.expected.value == run.budgetRevision <= MAX_SAFE_INTEGER && !Terminal(run.state))
    && InRange(e.tokenLimit, MAX_SAFE_INTEGER) && InRange(e.amountLimit, MAX_SAFE_INTEGER) && InRange(e.maxConcurrency, 32)
    && (e.currency.Given? ==>
          && |e.currency.value| == 3 && (forall i :: 0 <= i < 3 ==> 'A' <= e.currency.value[i] <= 'Z')
          && (run.usage.currency in {None, Some(""), Some(e.currency.value)}))
  }

  /** The budget an edit leaves: only a guarded null lifts the token limit; other nulls always lift theirs. */
  predicate Applied(b: Budget, e: BudgetEdit, after: Budget) {
    && (match e.tokenLimit
        case Given(n) => after.tokenLimit == Some(n)
        case Null => after.tokenLimit == if e.expected.Some? then None else b.tokenLimit
        case Absent => after.tokenLimit == b.tokenLimit)
    && (match e.amountLimit
        case Given(n) => after.amountLimit == Some(n)
        case Null => after.amountLimit == None
        case Absent => after.amountLimit == b.amountLimit)
    && (match e.currency
        case Given(c) => after.currency == Some(c)
        case Null => after.currency == None
        case Absent => after.currency == b.currency)
    && (match e.maxConcurrency
        case Given(n) => after.maxConcurrency == n
        case _ => after.maxConcurrency == b.maxConcurrency)
  }

  lemma EditMeans(run: Run, e: BudgetEdit)
    ensures EditError(run, e).None? <==> Acceptable(run, e)
    ensures EditError(run, e).None? ==> Applied(run.budget, e, EditedBudget(run, e))
    ensures EditError(run, e) == Some(BudgetRevisionConflict) <==>
      e.expected.Some? && 0 <= e.expected.value <= MAX_SAFE_INTEGER && e.expected.value != run.budgetRevision
    ensures EditError(run, e) == Some(BudgetCurrencyConflict) ==>
      e.currency.Given? && run.usage.currency.Some? && run.usage.currency.value != e.currency.value
    ensures EditError(run, e).Some? ==> EditError(run, e).value in {BudgetInvalid, BudgetRevisionConflict, BudgetCurrencyConflict}
  {
    assert e.currency.Given? ==> (CurrencyCode(e.currency.value) <==>
      (|e.currency.value| == 3 && forall i :: 0 <= i < 3 ==> 'A' <= e.currency.value[i] <= 'Z'));
  }

  /** The history of one run grew by one operation; no other run changed. */
  ghost predicate Logged(runs: map<string, Run>, trails: map<string, Trail>,
                         runs': map<string, Run>, trails': map<string, Trail>, id: string, op: Op)
  {
    && id in runs && id in trails && id in runs'
    && trails' == trails[id := Extended(trails[id], op)]
    && runs' == runs[id := runs'[id]]
    && (op.WorkOp? || op.FinishOp? || Carried(runs[id], runs'[id], op))
  }

  // ---- Retrying a task ----

  datatype RetryError = AdaptiveRunNotFound | RunHasFinished | TaskNotFound | TaskNotRetryable

  /** The checks of `retryAdaptiveTask`; `index` is the task the reference names, if any. */
  function RetryOutcome(runs: map<string, Run>, id: string, index: Option<nat>): Outcome<RetryError> {
    if id !in runs || !runs[id].adaptive then Refused(AdaptiveRunNotFound)
    else if Terminal(runs[id].state) then Refused(RunHasFinished)
    else if index.None? || index.value >= |runs[id].tasks| then Refused(TaskNotFound)
    else if runs[id].tasks[index.value].state !in {TaskFailed, TaskCancelled, TaskBlocked, TaskPaused}
    then Refused(TaskNotRetryable)
    else Ok
  }

  lemma RetriedAgrees(run: Run, h: Hold, index: nat)
    requires Agrees(run, h) && Working(run.state) && index < |run.tasks|
    ensures Agrees(Retried(run, index), Step(h, WorkOp(Executing)))
  {
  }

  class CollaborationStore {
    var runs: map<string, Run>
    var receipts: seq<Receipt>
    ghost var trails: map<string, Trail>

    ghost predicate Valid()
      reads this
    {
      RowsAgree(runs, trails) && TotalsAgree(runs, receipts)
    }

    constructor ()
      ensures Valid() && runs == map[] && receipts == []
    {
      runs, receipts, trails := map[], [], map[];
    }

    method CreateRun(id: string, adaptive: bool, budget: Budget, tasks: seq<Task>)
      requires Valid() && id !in runs && NoTask(tasks, TaskPaused)
      modifies this
      ensures Valid()
      ensures runs == old(runs)[id := Run(Created, None, false, adaptive, budget, NO_USAGE, tasks, 0)]
      ensures receipts == old(receipts)
      ensures trails == old(trails)[id := Trail(Start(budget), [])]
    {
      var run := Run(Created, None, false, adaptive, budget, NO_USAGE, tasks, 0);
      RunAdded(runs, receipts, id, run);
      TrailAdded(runs, trails, id, run, Trail(Start(budget), []));
      PutRow(id, run, Trail(Start(budget), []));
    }

    /** Write one row. */
    method PutRow(id: string, run: Run, ghost trail: Trail)
      requires RowsAgree(runs[id := run], trails[id := trail]) && TotalsAgree(runs[id := run], receipts)
      modifies this`runs, this`trails
      ensures Valid() && runs == old(runs)[id := run] && trails == old(trails)[id := trail]
    {
      runs := runs[id := run];
      trails := trails[id := trail];
    }

    /** Store a row that agrees with one more operation of the simple model. */
    method Store(id: string, run: Run, ghost op: Op)
      requires Valid() && id in runs && id in trails && run.usage == runs[id].usage
      requires Agrees(run, Step(Now(trails[id]), op))
      requires op.WorkOp? || op.FinishOp? || Carried(runs[id], run, op)
      modifies this`runs, this`trails
      ensures Valid() && Logged(old(runs), old(trails), runs, trails, id, op) && runs[id] == run
    {
      RowReplaced(runs, trails, id, run, op);
      PutRow(id, run, Extended(trails[id], op));
    }

    /** Insert the receipt of one usage event together with the row it leads to. */
    method InsertReceipt(id: string, row: Run, input: UsageInput)
      requires Valid() && id in runs && id in trails && !Recorded(receipts, input.eventId)
      requires Agrees(row, Step(Now(trails[id]), UseOp(input)))
      requires row.usage == AddUsage(runs[id].budget, runs[id].usage, input) && Carried(runs[id], row, UseOp(input))
      modifies this
      ensures Valid() && Logged(old(runs), old(trails), runs, trails, id, UseOp(input))
      ensures receipts == old(receipts) + [ReceiptOf(id, old(runs[id]).budget, old(runs[id]).usage, input)]
    {
      RowReplaced(runs, trails, id, row, UseOp(input));
      ReceiptInserted(runs, receipts, id, row, input);
      receipts := receipts + [ReceiptOf(id, runs[id].budget, runs[id].usage, input)];
      runs := runs[id := row];
      trails := trails[id := Extended(trails[id], UseOp(input))];
    }

    method PauseRun(id: string) returns (r: Outcome<RunError>)
      requires Valid()
      modifies this
      ensures Valid() && receipts == old(receipts)
      ensures r == if id !in old(runs) then Refused(RunNotFound)
                   else if Terminal(old(runs[id]).state) then Refused(RunFinished) else Ok
      ensures r.Refused? || old(runs[id]).state == Paused ==> runs == old(runs) && trails == old(trails)
      ensures r.Ok? && old(runs[id]).state != Paused ==>
        && Logged(old(runs), old(trails), runs, trails, id, PauseOp)
        && runs[id].state == Paused
    {
      if id !in runs { return Refused(RunNotFound); }
      var run := runs[id];
      if Terminal(run.state) { return Refused(RunFinished); }
      if run.state == Paused { return Ok; }
      RowOf(runs, trails, id);
      var row := PausedRow(run, Now(trails[id]));
      Store(id, row, PauseOp);
      return Ok;
    }

    method ResumeRun(id: string) returns (r: Outcome<RunError>)
      requires Valid()
      modifies this
      ensures Valid() && receipts == old(receipts)
      ensures r.Ok? <==> id in old(runs) && ResumeSucceeds(old(runs[id]))
      ensures r.Refused? ==> runs == old(runs) && trails == old(trails)
      ensures r.Ok? ==>
        && Logged(old(runs), old(trails), runs, trails, id, ResumeOp)
        && old(runs[id]).resume == Some(runs[id].state) && Working(runs[id].state)
    {
      if id !in runs { return Refused(RunNotFound); }
      RowOf(runs, trails, id);
      var row;
      r, row := ResumedRow(runs[id], Now(trails[id]));
      if r.Ok? {
        Store(id, row, ResumeOp);
      }
    }

    method RecordUsage(id: string, input: UsageInput) returns (r: Outcome<RunError>, duplicate: bool)
      requires Valid()
      modifies this
      ensures Valid()
      ensures r == if id !in old(runs) then Refused(RunNotFound)
                   else if |input.eventId| < 8 then Refused(UsageEventIdRequired) else Ok
      ensures r.Ok? ==> (duplicate <==> exists i :: 0 <= i < |old(receipts)| && old(receipts)[i].eventId == input.eventId)
      ensures r.Refused? || duplicate ==> runs == old(runs) && receipts == old(receipts) && trails == old(trails)
      ensures r.Ok? && !duplicate ==>
        && Logged(old(runs), old(trails), runs, trails, id, UseOp(input))
        && id in trails && Accounted(runs[id], trails[id])
        && receipts == old(receipts) + [Receipt(input.eventId, id, Sampled(input),
                                                if Adds(input, runs[id].usage.currency) then input.amount.value else 0,
                                                if Configured(input) then input.currency else "")]
    {
      duplicate := false;
      if id !in runs { return Refused(RunNotFound), false; }
      if |input.eventId| < 8 { return Refused(UsageEventIdRequired), false; }
      if Recorded(receipts, input.eventId) { return Ok, true; }
      CountUsage(id, input);
      return Ok, false;
    }

    /** Add one usage event that was not recorded before. */
    method CountUsage(id: string, input: UsageInput)
      requires Valid() && id in runs && !Recorded(receipts, input.eventId)
      modifies this
      ensures Valid() && Logged(old(runs), old(trails), runs, trails, id, UseOp(input)) && Accounted(runs[id], trails[id])
      ensures receipts == old(receipts) + [Receipt(input.eventId, id, Sampled(input),
                                                   if Adds(input, runs[id].usage.currency) then input.amount.value else 0,
                                                   if Configured(input) then input.currency else "")]
    {
      RowOf(runs, trails, id);
      ReceiptOfRun(runs, receipts, id, input);
      var row := UsageRow(runs[id], input, Now(trails[id]));
      InsertReceipt(id, row, input);
      RowIsAccounted(runs[id], trails[id]);
    }

    method UpdateBudget(id: string, edit: BudgetEdit) returns (r: Outcome<RunError>)
      requires Valid()
      modifies this
      ensures Valid() && receipts == old(receipts)
      ensures r == if id !in old(runs) then Refused(RunNotFound)
                   else if EditError(old(runs[id]), edit).Some? then Refused(EditError(old(runs[id]), edit).value)
                   else Ok
      ensures r.Ok? <==> id in old(runs) && Acceptable(old(runs[id]), edit)
      ensures r == Refused(BudgetRevisionConflict) <==>
        id in old(runs) && edit.expected.Some? && 0 <= edit.expected.value <= MAX_SAFE_INTEGER
        && edit.expected.value != old(runs[id]).budgetRevision
      ensures r.Refused? ==> runs == old(runs) && trails == old(trails)
      ensures r.Ok? ==>
        id in runs && id in trails && Applied(old(runs[id]).budget, edit, runs[id].budget) && Accounted(runs[id], trails[id])
      ensures r.Ok? ==>
        Logged(old(runs), old(trails), runs, trails, id, BudgetOp(EditedBudget(old(runs[id]), edit)))
    {
      if id !in runs { return Refused(RunNotFound); }
      EditMeans(runs[id], edit);
      var problem := EditError(runs[id], edit);
      if problem.Some? { return Refused(problem.value); }
      ReplaceBudget(id, EditedBudget(runs[id], edit));
      return Ok;
    }

    method ReplaceBudget(id: string, budget: Budget)
      requires Valid() && id in runs
      modifies this`runs, this`trails
      ensures Valid() && Logged(old(runs), old(trails), runs, trails, id, BudgetOp(budget))
      ensures runs[id].budget == budget && Accounted(runs[id], trails[id])
    {
      RowOf(runs, trails, id);
      var row := BudgetRow(runs[id], budget, Now(trails[id]));
      Store(id, row, BudgetOp(budget));
      RowIsAccounted(runs[id], trails[id]);
    }

    method SetAccountBudgetBlocked(id: string, blocked: bool) returns (changed: bool, restored: bool)
      requires Valid()
      modifies this
      ensures Valid() && receipts == old(receipts)
      ensures changed <==> id in old(runs) && !Terminal(old(runs[id]).state) && old(runs[id]).accountBlocked != blocked
      ensures !changed ==> runs == old(runs) && trails == old(trails) && !restored
      ensures id in old(runs) ==> id in runs && runs == old(runs)[id := runs[id]]
      ensures id in old(runs) && !Terminal(old(runs[id]).state) ==>
        runs[id].accountBlocked == blocked && !Terminal(runs[id].state)
      ensures changed ==>
        && Logged(old(runs), old(trails), runs, trails, id, AccountOp(blocked))
        && (restored <==> old(runs[id]).state == BudgetExhausted && Working(runs[id].state))
    {
      assert id in runs ==> runs == runs[id := runs[id]];
      if id !in runs || Terminal(runs[id].state) { return false, false; }
      if runs[id].accountBlocked == blocked { return false, false; }
      restored := SwitchAccountFlag(id, blocked);
      changed := true;
    }

    /** Set the flag of an unfinished run to its other value. */
    method SwitchAccountFlag(id: string, blocked: bool) returns (restored: bool)
      requires Valid() && id in runs && !Terminal(runs[id].state) && runs[id].accountBlocked != blocked
      modifies this`runs, this`trails
      ensures Valid() && Logged(old(runs), old(trails), runs, trails, id, AccountOp(blocked))
      ensures runs[id].accountBlocked == blocked && !Terminal(runs[id].state)
      ensures restored <==> old(runs[id]).state == BudgetExhausted && Working(runs[id].state)
    {
      RowOf(runs, trails, id);
      var row;
      row, restored := AccountRow(runs[id], blocked, Now(trails[id]));
      Store(id, row, AccountOp(blocked));
    }

    /**
     * The row is always rewritten.  It keeps its history when the caller made its check;
     * without one, a row put to work is representable exactly when nothing holds the run
     * and no task stays paused.
     */
    method Transition(id: string, to: RunState, taskState: Option<TaskState>, taskPhase: Option<string>)
      returns (r: Outcome<RunError>)
      requires Valid()
      modifies this`runs, this`trails
      ensures r == if id in old(runs) then Ok else Refused(RunNotFound)
      ensures r.Refused? ==> Valid() && runs == old(runs) && trails == old(trails)
      ensures r.Ok? ==> runs == old(runs)[id := Transitioned(old(runs[id]), to, taskState, taskPhase)]
      ensures r.Ok? ==> id in runs && MovedTo(old(runs[id]), runs[id], to, taskState, taskPhase)
      ensures r.Ok? && ((Working(old(runs[id]).state) && Working(to) && taskState != Some(TaskPaused))
                        || (!Terminal(old(runs[id]).state) && Terminal(to))) ==>
        Valid() && Logged(old(runs), old(trails), runs, trails, id, MoveOp(to))
      ensures r.Ok? && Working(to) ==>
        (AgreesWithSome(runs[id]) <==> Unheld(old(runs[id])) && NoTask(runs[id].tasks, TaskPaused))
    {
      if id !in runs { return Refused(RunNotFound); }
      PutToWorkAgreesExactlyWhen(runs[id], to, taskState, taskPhase);
      MovingMeans(runs[id], to, taskState, taskPhase);
      if CheckedMove(runs[id].state, to, taskState) {
        MoveChecked(id, to, taskState, taskPhase);
      } else {
        WriteRow(id, Transitioned(runs[id], to, taskState, taskPhase));
      }
      return Ok;
    }

    /** Write a row, whether or not a history explains it. */
    method WriteRow(id: string, run: Run)
      modifies this`runs
      ensures runs == old(runs)[id := run]
    {
      runs := runs[id := run];
    }

    method MoveChecked(id: string, to: RunState, taskState: Option<TaskState>, taskPhase: Option<string>)
      requires Valid() && id in runs && CheckedMove(runs[id].state, to, taskState)
      modifies this`runs, this`trails
      ensures Valid() && Logged(old(runs), old(trails), runs, trails, id, MoveOp(to))
      ensures runs == old(runs)[id := Transitioned(old(runs[id]), to, taskState, taskPhase)]
    {
      RowOf(runs, trails, id);
      CheckedMoveAgrees(runs[id], Now(trails[id]), to, taskState, taskPhase);
      Store(id, Transitioned(runs[id], to, taskState, taskPhase), MoveOp(to));
    }

    /** `retryAdaptiveTask`: no check looks at the holds, and the row is representable only if there were none. */
    method RetryAdaptiveTask(id: string, index: Option<nat>) returns (r: Outcome<RetryError>)
      requires Valid()
      modifies this`runs, this`trails
      ensures r == RetryOutcome(old(runs), id, index)
      ensures r.Ok? <==>
        && id in old(runs) && old(runs[id]).adaptive && !Terminal(old(runs[id]).state)
        && index.Some? && index.value < |old(runs[id]).tasks|
        && old(runs[id]).tasks[index.value].state in {TaskFailed, TaskCancelled, TaskBlocked, TaskPaused}
      ensures r.Refused? ==> Valid() && runs == old(runs) && trails == old(trails)
      ensures r.Ok? ==> runs == old(runs)[id := Retried(old(runs[id]), index.value)]
      ensures r.Ok? ==> id in runs && TaskPutBack(old(runs[id]), runs[id], index.value)
      ensures r.Ok? ==> (Valid() <==> Working(old(runs[id]).state))
      ensures r.Ok? && Working(old(runs[id]).state) ==> Logged(old(runs), old(trails), runs, trails, id, WorkOp(Executing))
    {
      if id !in runs || !runs[id].adaptive { return Refused(AdaptiveRunNotFound); }
      if Terminal(runs[id].state) { return Refused(RunHasFinished); }
      if index.None? || index.value >= |runs[id].tasks| { return Refused(TaskNotFound); }
      var state := runs[id].tasks[index.value].state;
      if state != TaskFailed && state != TaskCancelled && state != TaskBlocked && state != TaskPaused {
        return Refused(TaskNotRetryable);
      }
      r := Ok;
      RowOf(runs, trails, id);
      ghost var h := Now(trails[id]);
      RetryNeedsNoHold(runs[id], h, index.value);
      RetryingMeans(runs[id], index.value);
      if Working(runs[id].state) {
        RetriedAgrees(runs[id], h, index.value);
        Store(id, Retried(runs[id], index.value), WorkOp(Executing));
      } else {
        PutUnchecked(id, Retried(runs[id], index.value));
      }
    }

    /** Write a row that no history explains. */
    method PutUnchecked(id: string, run: Run)
      requires id in runs && !AgreesWithSome(run)
      modifies this`runs
      ensures runs == old(runs)[id := run] && !Valid()
    {
      runs := runs[id := run];
      assert id in trails ==> !RowAgrees(runs[id], trails[id]);
    }

    /** The unfinished runs, each once. */
    method ListAccountBudgetRunIds() returns (ids: seq<string>)
      ensures forall id :: id in ids <==> id in runs && !Terminal(runs[id].state)
      ensures forall i, j :: 0 <= i < j < |ids| ==> ids[i] != ids[j]
    {
      ids := [];
      var left := runs.Keys;
      while left != {}
        invariant left <= runs.Keys
        invariant forall id :: id in ids <==> id in runs.Keys - left && !Terminal(runs[id].state)
        invariant forall i, j :: 0 <= i < j < |ids| ==> ids[i] != ids[j]
        decreases left
      {
        var id :| id in left;
        left := left - {id};
        if !Terminal(runs[id].state) {
          ids := ids + [id];
        }
      }
    }
  }

  // ---- Two histories that lose a hold ----

  const UNLIMITED: Budget := Budget(None, None, None, 2)

  /** The row of a run with one task after it was started and its user paused it. */
  const PAUSED_RUN: Run := Run(Paused, Some(Executing), false, true, UNLIMITED, NO_USAGE, [Task(TaskPaused, "")], 0)

  const PAUSED_TRAIL: Trail := Trail(Start(UNLIMITED), [WorkOp(Executing), PauseOp])

  lemma PausedRunHasHistory()
    ensures RowAgrees(PAUSED_RUN, PAUSED_TRAIL)
  {
    var ops := PAUSED_TRAIL.ops;
    assert ops[..1] == [WorkOp(Executing)] && ops[..1][..0] == [];
    assert Replay(Start(UNLIMITED), ops[..1]) == Start(UNLIMITED).(home := Executing);
    assert Now(PAUSED_TRAIL) == Start(UNLIMITED).(home := Executing, userHold := true);
  }

  /** Retrying the paused task puts the run to work, and no history of holds explains the row. */
  lemma RetryUndoesPause()
    ensures RowAgrees(PAUSED_RUN, PAUSED_TRAIL) && RetryOutcome(map["r" := PAUSED_RUN], "r", Some(0)).Ok?
    ensures var after := Retried(PAUSED_RUN, 0); after.state == Executing && !AgreesWithSome(after)
  {
    PausedRunHasHistory();
    WorkingRowHasNoSavedState(Retried(PAUSED_RUN, 0));
  }

  /**
   * A dispatch is under way when the user pauses; its failure then blocks the run for
   * agent recovery.  No history explains the row, and the pause cannot be lifted.
   */
  lemma RecoveryBlockUndoesPause()
    ensures RowAgrees(PAUSED_RUN, PAUSED_TRAIL)
    ensures var after := Transitioned(PAUSED_RUN, Blocked, None, None);
      after.state == Blocked && !AgreesWithSome(after) && !ResumeSucceeds(after)
  {
    PausedRunHasHistory();
    WorkingRowHasNoSavedState(Transitioned(PAUSED_RUN, Blocked, None, None));
  }
}
