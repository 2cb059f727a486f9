/**
 * What a run has used, as sums over the usage events themselves: the totals that every
 * history of a run must show, and the limits they meet.
 */
module UsageTotals {
  import opened Wrappers
  import opened RunModel
  import opened HoldModel

  // ---- The events ----

  function Sampled(i: UsageInput): nat {
    if i.sampledTokens > 0 then i.sampledTokens else 0
  }

  /** A whole amount from configured prices, in a currency named by three capital letters. */
  predicate Configured(i: UsageInput) {
    && i.costSource == "configured"
    && i.amount.Some? && 0 <= i.amount.value <= 9007199254740991
    && |i.currency| == 3 && 'A' <= i.currency[0] <= 'Z' && 'A' <= i.currency[1] <= 'Z' && 'A' <= i.currency[2] <= 'Z'
  }

  /** The event adds to the amount of a run that counts in this currency. */
  predicate Adds(i: UsageInput, currency: Option<string>) {
    Configured(i) && currency == Some(i.currency)
  }

  function TokensUsed(ops: seq<Op>): nat {
    if ops == [] then 0
    else TokensUsed(ops[..|ops| - 1]) + if ops[|ops| - 1].UseOp? then Sampled(ops[|ops| - 1].input) else 0
  }

  function AmountUsed(ops: seq<Op>, currency: Option<string>): nat {
    if ops == [] then 0
    else AmountUsed(ops[..|ops| - 1], currency)
         + var op := ops[|ops| - 1]; if op.UseOp? && Adds(op.input, currency) then op.input.amount.value else 0
  }

  /** The events that are not in the amount. */
  function Unpriced(ops: seq<Op>, currency: Option<string>): nat {
    if ops == [] then 0
    else Unpriced(ops[..|ops| - 1], currency)
         + var op := ops[|ops| - 1]; if op.UseOp? && !Adds(op.input, currency) then 1 else 0
  }

  /** The budget in force: the last one given. */
  function BudgetAfter(first: Budget, ops: seq<Op>): Budget {
    if ops == [] then first
    else if ops[|ops| - 1].BudgetOp? then ops[|ops| - 1].budget
    else BudgetAfter(first, ops[..|ops| - 1])
  }

  /** The currency a usage event names for a run that has none: that of the budget, else its own. */
  function Names(b: Budget, i: UsageInput): Option<string> {
    if b.currency.Some? && b.currency.value != "" then b.currency
    else if Configured(i) then Some(i.currency)
    else None
  }

  /** The currency of the run: the first that a usage event named. */
  function CurrencyAfter(first: Budget, ops: seq<Op>): Option<string> {
    if ops == [] then None
    else
      var before, op := CurrencyAfter(first, ops[..|ops| - 1]), ops[|ops| - 1];
      if before.Some? || !op.UseOp? then before else Names(BudgetAfter(first, ops[..|ops| - 1]), op.input)
  }

  // ---- The totals of every history ----

  /** What a run that began with this budget has used after these operations. */
  function UsedAfter(first: Budget, ops: seq<Op>): Usage {
    var currency := CurrencyAfter(first, ops);
    Usage(TokensUsed(ops), AmountUsed(ops, currency), currency, Unpriced(ops, currency))
  }

  /** Before a currency is named no event has an amount that could count. */
  lemma {:induction false} NothingCountsBefore(first: Budget, ops: seq<Op>, currency: Option<string>)
    requires CurrencyAfter(first, ops).None?
    ensures AmountUsed(ops, currency) == AmountUsed(ops, None) && Unpriced(ops, currency) == Unpriced(ops, None)
  {
    if ops != [] {
      NothingCountsBefore(first, ops[..|ops| - 1], currency);
    }
  }

  /** One usage event, for totals of any kind. */
  lemma EventAdds(b: Budget, u: Usage, i: UsageInput)
    requires u.currency != Some("")
    ensures var currency := if u.currency.Some? then u.currency else Names(b, i);
      AddUsage(b, u, i) == Usage(u.tokens + Sampled(i),
                                 u.amount + (if Adds(i, currency) then i.amount.value else 0), currency,
                                 u.unpriced + if Adds(i, currency) then 0 else 1)
  {
    assert Priced(i) <==> Configured(i);
  }

  lemma {:induction false} CurrencyIsNamed(first: Budget, ops: seq<Op>)
    ensures CurrencyAfter(first, ops) != Some("")
  {
    if ops != [] {
      CurrencyIsNamed(first, ops[..|ops| - 1]);
    }
  }

  /**
   * After any history the tokens are the sum of those sampled, the amount is the sum of
   * the configured amounts in the run's currency, the rest of the events are counted as
   * unpriced, and the currency is the first that was named.
   */
  lemma {:induction false} UsageIsTotals(first: Budget, ops: seq<Op>)
    ensures Replay(Start(first), ops).usage == UsedAfter(first, ops)
    ensures Replay(Start(first), ops).budget == BudgetAfter(first, ops)
  {
    if ops != [] {
      var before, op := ops[..|ops| - 1], ops[|ops| - 1];
      UsageIsTotals(first, before);
      if op.UseOp? {
        CurrencyIsNamed(first, before);
        EventAdds(BudgetAfter(first, before), UsedAfter(first, before), op.input);
        if CurrencyAfter(first, before).None? {
          NothingCountsBefore(first, before, CurrencyAfter(first, ops));
        }
      }
    }
  }

  /** The tokens or the amount have reached a limit that is not zero. */
  predicate LimitReached(first: Budget, ops: seq<Op>) {
    var b := BudgetAfter(first, ops);
    || (b.tokenLimit.Some? && 0 < b.tokenLimit.value <= TokensUsed(ops))
    || (b.amountLimit.Some? && 0 < b.amountLimit.value <= AmountUsed(ops, CurrencyAfter(first, ops)))
  }

  /** After any history a run works exactly when it has not ended, nobody holds it and no limit is reached. */
  lemma WorksExactlyWhen(first: Budget, ops: seq<Op>)
    ensures var h := Replay(Start(first), ops);
      Working(Shown(h)) <==> h.end.None? && !h.userHold && !h.accountHold && !LimitReached(first, ops)
  {
    UsageIsTotals(first, ops);
    ReplayKeepsShape(Start(first), ops);
  }
}
