/**
 * One row of the collaboration run table, and the pure expressions the store
 * evaluates on it: limits, usage arithmetic, budget edits and the read-only views.
 */
module RunModel {
  import opened Wrappers

  // RUN_STATES, plus ResumeStateUnknown for the one text outside that set that
  // the program may put in the resume_state column.
  datatype RunState =
    | Created | Designing | AwaitingPlanConfirmation | Executing | Researching
    | Decomposing | Planning | AwaitingPlanReview | RevisionRequested | PlanApproved
    | Implementing | AwaitingVerification | ReworkRequested | WaitingApproval
    | WaitingInput | WaitingDevice | Blocked
    | BudgetExhausted | Paused
    | Completed | Failed | Cancelled | Expired
    | ResumeStateUnknown

  predicate Terminal(s: RunState) {
    s == Completed || s == Failed || s == Cancelled || s == Expired
  }

  predicate Held(s: RunState) {
    s == Paused || s == BudgetExhausted
  }

  predicate Working(s: RunState) {
    !Terminal(s) && !Held(s) && s != ResumeStateUnknown
  }

  datatype TaskState =
    TaskPending | TaskActive | TaskPaused | TaskCompleted | TaskFailed | TaskCancelled | TaskBlocked

  datatype Task = Task(state: TaskState, phase: string)

  datatype Budget = Budget(tokenLimit: Option<nat>, amountLimit: Option<nat>,
                           currency: Option<string>, maxConcurrency: nat)

  datatype Usage = Usage(tokens: nat, amount: nat, currency: Option<string>, unpriced: nat)

  const NO_USAGE := Usage(0, 0, None, 0)

  datatype Run = Run(state: RunState, resume: Option<RunState>, accountBlocked: bool,
                     adaptive: bool, budget: Budget, usage: Usage, tasks: seq<Task>,
                     budgetRevision: nat)

  // Limits. A missing or zero limit does not limit.

  predicate Reached(limit: Option<nat>, used: nat) {
    limit.Some? && limit.value != 0 && used >= limit.value
  }

  predicate OverLimit(b: Budget, u: Usage) {
    Reached(b.tokenLimit, u.tokens) || Reached(b.amountLimit, u.amount)
  }

  // Tasks as a hold stops them and as a resume restarts them.

  function StopTasks(tasks: seq<Task>): (stopped: seq<Task>)
    ensures |stopped| == |tasks|
    ensures forall i :: 0 <= i < |tasks| ==>
      stopped[i].state != TaskActive && stopped[i].state != TaskPending
    ensures forall i :: 0 <= i < |tasks| ==>
      stopped[i] == tasks[i] || (tasks[i].state in {TaskActive, TaskPending} && stopped[i].state == TaskPaused)
  {
    seq(|tasks|, i requires 0 <= i < |tasks| =>
      if tasks[i].state == TaskActive || tasks[i].state == TaskPending
      then tasks[i].(state := TaskPaused) else tasks[i])
  }

  function RestartTasks(tasks: seq<Task>, to: TaskState): (started: seq<Task>)
    ensures |started| == |tasks|
    ensures to != TaskPaused ==> forall i :: 0 <= i < |tasks| ==> started[i].state != TaskPaused
    ensures forall i :: 0 <= i < |tasks| ==>
      started[i] == if tasks[i].state == TaskPaused then tasks[i].(state := to) else tasks[i]
  {
    seq(|tasks|, i requires 0 <= i < |tasks| =>
      if tasks[i].state == TaskPaused then tasks[i].(state := to) else tasks[i])
  }

  predicate NoTask(tasks: seq<Task>, state: TaskState) {
    forall i :: 0 <= i < |tasks| ==> tasks[i].state != state
  }

  // Usage events.

  const MAX_SAFE_INTEGER: nat := 9007199254740991

  /** `amount` is None when the reported amount is not a whole number. */
  datatype UsageInput = UsageInput(eventId: string, sampledTokens: int, amount: Option<int>,
                                   costSource: string, currency: string)

  /** The currency column is empty for an event without a usable price. */
  datatype Receipt = Receipt(eventId: string, runId: string, tokens: nat, amount: nat, currency: string)

  predicate CurrencyCode(c: string) {
    |c| == 3 && forall i :: 0 <= i < 3 ==> 'A' <= c[i] <= 'Z'
  }

  predicate Priced(i: UsageInput) {
    i.amount.Some? && 0 <= i.amount.value <= MAX_SAFE_INTEGER
    && i.costSource == "configured" && CurrencyCode(i.currency)
  }

  function FirstNamed(a: Option<string>, b: Option<string>): Option<string> {
    if a.Some? && a.value != "" then a else if b.Some? && b.value != "" then b else None
  }

  predicate Counted(b: Budget, u: Usage, i: UsageInput) {
    var aggregate := FirstNamed(u.currency, b.currency);
    Priced(i) && (aggregate.None? || aggregate == Some(i.currency))
  }

  function ReceiptOf(runId: string, b: Budget, u: Usage, i: UsageInput): Receipt {
    Receipt(i.eventId, runId, if i.sampledTokens < 0 then 0 else i.sampledTokens,
            if Counted(b, u, i) then i.amount.value else 0,
            if Priced(i) then i.currency else "")
  }

  function AddUsage(b: Budget, u: Usage, i: UsageInput): Usage {
    var r := ReceiptOf("", b, u, i);
    Usage(u.tokens + r.tokens, u.amount + r.amount,
          FirstNamed(FirstNamed(u.currency, b.currency), Some(r.currency)),
          u.unpriced + if Counted(b, u, i) then 0 else 1)
  }

  // Budget edits.

  /** A member of the request: left out, an explicit null, or a value. */
  datatype Field<+T> = Absent | Null | Given(value: T)

  /** `expected` is present exactly when the caller guards the edit with a revision. */
  datatype BudgetEdit = BudgetEdit(expected: Option<int>, tokenLimit: Field<int>, amountLimit: Field<int>,
                                   currency: Field<string>, maxConcurrency: Field<int>)

  datatype RunError =
    | RunNotFound | RunFinished | RunNotPaused | AccountStillBlocked | BudgetStillExhausted
    | OriginalStateUnavailable | UsageEventIdRequired
    | BudgetInvalid | BudgetRevisionConflict | BudgetCurrencyConflict

  predicate ValidNumber(f: Field<int>, max: int) {
    f.Given? ==> 1 <= f.value <= max
  }

  function EditError(run: Run, e: BudgetEdit): Option<RunError> {
    if e.expected.Some? && !(0 <= e.expected.value <= MAX_SAFE_INTEGER) then Some(BudgetInvalid)
    else if e.expected.Some? && e.expected.value != run.budgetRevision then Some(BudgetRevisionConflict)
    else if e.expected.Some? && Terminal(run.state) then Some(BudgetInvalid)
    else if e.currency.Given? && !CurrencyCode(e.currency.value) then Some(BudgetInvalid)
    else if e.currency.Given? && run.usage.currency.Some? && run.usage.currency.value != ""
            && e.currency.value != run.usage.currency.value then Some(BudgetCurrencyConflict)
    else if !ValidNumber(e.tokenLimit, MAX_SAFE_INTEGER) || !ValidNumber(e.amountLimit, MAX_SAFE_INTEGER)
            || !ValidNumber(e.maxConcurrency, 32) then Some(BudgetInvalid)
    else None
  }

  function EditedLimit(f: Field<int>, nullClears: bool, current: Option<nat>): Option<nat>
    requires ValidNumber(f, MAX_SAFE_INTEGER)
  {
    match f
    case Given(v) => Some(v)
    case Null => if nullClears then None else current
    case Absent => current
  }

  function EditedBudget(run: Run, e: BudgetEdit): Budget
    requires EditError(run, e).None?
  {
    // An unguarded null leaves the token limit alone; a null amount limit or
    // currency always clears it.
    Budget(EditedLimit(e.tokenLimit, e.expected.Some?, run.budget.tokenLimit),
           EditedLimit(e.amountLimit, true, run.budget.amountLimit),
           match e.currency
           case Given(c) => Some(c)
           case Null => None
           case Absent => run.budget.currency,
           if e.maxConcurrency.Given? then e.maxConcurrency.value else run.budget.maxConcurrency)
  }

  // Read-only views.

  predicate CanResume(run: Run) {
    run.state == Paused && !run.accountBlocked
    && run.resume != Some(BudgetExhausted) && run.resume != Some(ResumeStateUnknown)
    && !OverLimit(run.budget, run.usage)
  }

  /** The kinds of the attention items derived from the run itself. */
  datatype AttentionKind = PlanConfirmation | BudgetItem | ResumeUnknownItem

  function DerivedAttention(run: Run): (items: seq<AttentionKind>) {
    (if run.state == AwaitingPlanConfirmation then [PlanConfirmation] else [])
    + (if run.state == BudgetExhausted || run.accountBlocked
          || (run.state == Paused && OverLimit(run.budget, run.usage)) then [BudgetItem] else [])
    + (if run.state == Paused && (run.resume == Some(BudgetExhausted) || run.resume == Some(ResumeStateUnknown))
       then [ResumeUnknownItem] else [])
  }

  predicate NeedsAttention(run: Run, pendingItem: bool) {
    run.state in {AwaitingPlanConfirmation, BudgetExhausted, RevisionRequested, ReworkRequested,
                  WaitingApproval, WaitingInput, Blocked}
    || pendingItem
    || (run.state == Paused
        && (run.accountBlocked || run.resume == Some(BudgetExhausted) || run.resume == Some(ResumeStateUnknown)
            || OverLimit(run.budget, run.usage)))
  }

  predicate ListedActive(run: Run, pendingItem: bool) {
    !Terminal(run.state) && !NeedsAttention(run, pendingItem)
  }

  predicate ListedRecent(run: Run, pendingItem: bool) {
    Terminal(run.state) && !pendingItem
  }
}
