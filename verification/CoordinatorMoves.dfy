/**
 * The moves of a gated run: research, plan, review, implement, verify, with bounded
 * loops of plan revisions and rework, and the holds and agent recoveries that interrupt
 * them.
 */
module CoordinatorMoves {
  import opened Wrappers
  import opened RunModel

  datatype Gates = Gates(planNeedsApproval: bool, implementationNeedsVerification: bool,
                         maxRevisions: nat, maxRework: nat)

  datatype MessageType =
    | TaskProgress | PlanSubmitted | RevisionAsked | ReviewApproved | ImplementationDone
    | VerificationFailed | ReworkAsked | VerificationPassed | TaskIsBlocked | TaskHasFailed

  /**
   * Why a run moves.  A hold may keep the state saved by an earlier one.  A dispatch
   * that fails blocks the run for agent recovery: it `seen` the run in some state, and
   * its attention item may be `known`, that is, stored already.  Rebuilding the agent
   * resolves one pending item.
   */
  datatype Cause =
    | Starting | Beginning | ByMessage(kind: MessageType) | Cancelling
    | Holding(keeps: bool) | Releasing
    | RecoveryBlock(seen: RunState, known: bool) | Rebuilding(item: nat)

  datatype Move = Move(from: RunState, to: RunState, cause: Cause)

  datatype CoordinatorError = InvalidTransition | RunHasEnded | RunIsHeld | ItemNotPending

  datatype Role = Lead | Worker | Verifier

  /** The transition table. */
  predicate Allows(s: RunState, next: RunState) {
    match s
    case Created => next == Designing || next == Executing || next == Researching || next == Cancelled
    case Designing => next == AwaitingPlanConfirmation || next == WaitingInput || next == Cancelled || next == Failed
    case AwaitingPlanConfirmation => next == Executing || next == Cancelled || next == Failed
    case Executing => next == Completed || next == WaitingApproval || next == WaitingInput || next == WaitingDevice || next == Blocked || next == Cancelled || next == Failed
    case Researching => next == Decomposing || next == Planning || next == WaitingInput || next == Cancelled || next == Failed
    case Decomposing => next == Planning || next == WaitingInput || next == Cancelled || next == Failed
    case Planning => next == AwaitingPlanReview || next == WaitingInput || next == Cancelled || next == Failed
    case AwaitingPlanReview => next == RevisionRequested || next == PlanApproved || next == Cancelled || next == Failed
    case RevisionRequested => next == Planning || next == Blocked || next == Cancelled || next == Failed
    case PlanApproved => next == Implementing || next == Cancelled || next == Failed
    case Implementing => next == AwaitingVerification || next == WaitingApproval || next == WaitingInput || next == Cancelled || next == Failed
    case AwaitingVerification => next == ReworkRequested || next == Completed || next == Cancelled || next == Failed
    case ReworkRequested => next == Implementing || next == Blocked || next == Cancelled || next == Failed
    case WaitingApproval => next == Implementing || next == Cancelled || next == Failed
    case WaitingInput => next == Researching || next == Planning || next == Implementing || next == Cancelled || next == Failed
    case _ => false
  }

  /** Where a message wants the run to go, given how often it was sent back so far. */
  function Wanted(kind: MessageType, revisions: nat, rework: nat, g: Gates): Option<RunState> {
    match kind
    case PlanSubmitted => Some(AwaitingPlanReview)
    case RevisionAsked => Some(if revisions >= g.maxRevisions then Failed else RevisionRequested)
    case ReviewApproved => Some(PlanApproved)
    case ImplementationDone => Some(AwaitingVerification)
    case VerificationFailed => Some(if rework >= g.maxRework then Failed else ReworkRequested)
    case ReworkAsked => Some(if rework >= g.maxRework then Failed else ReworkRequested)
    case VerificationPassed => Some(Completed)
    case TaskIsBlocked => Some(Blocked)
    case TaskHasFailed => Some(Failed)
    case TaskProgress => None
  }

  /** Blocked and failed messages move the run without asking the table. */
  predicate Unguarded(kind: MessageType) {
    kind == TaskIsBlocked || kind == TaskHasFailed
  }

  /**
   * Where a run is, how often it was sent back, how many agent turns it took, the state
   * a hold saved, and the states that pending recovery items would take it back to.
   */
  datatype Position = Position(state: RunState, revisions: nat, rework: nat, turns: nat,
                               saved: Option<RunState>, pending: seq<RunState>)

  const START := Position(Created, 0, 0, 0, None, [])

  /** The moves of the coordinator itself. */
  predicate LegalStep(p: Position, m: Move, g: Gates) {
    match m.cause
    case Starting => m.to == Researching && Allows(m.from, m.to)
    case Beginning => (m.to == Planning || m.to == Implementing) && Allows(m.from, m.to)
    case Cancelling => !Terminal(m.from) && m.to == Cancelled
    case ByMessage(kind) =>
      Wanted(kind, p.revisions, p.rework, g) == Some(m.to) && (Unguarded(kind) || Allows(m.from, m.to))
    case _ => false
  }

  /** Holds, and agents that have to be rebuilt. */
  predicate LegalInterruption(p: Position, m: Move) {
    match m.cause
    case Holding(keeps) =>
      !Terminal(m.from) && m.from != Paused && Held(m.to) && m.to != m.from
      && (keeps ==> p.saved.Some? && m.to == BudgetExhausted)
    case Releasing => Held(m.from) && p.saved == Some(m.to)
    case RecoveryBlock(seen, _) => AgentWorks(seen) && m.to == Blocked
    case Rebuilding(item) => !Terminal(m.from) && !Held(m.from) && item < |p.pending| && m.to == p.pending[item]
    case _ => false
  }

  predicate Interrupts(c: Cause) {
    c.Holding? || c.Releasing? || c.RecoveryBlock? || c.Rebuilding?
  }

  predicate LegalMove(p: Position, m: Move, g: Gates) {
    m.from == p.state && if Interrupts(m.cause) then LegalInterruption(p, m) else LegalStep(p, m, g)
  }

  /** The states in which an agent turn moves the run on. */
  predicate AgentWorks(s: RunState) {
    s == Researching || s == Planning || s == AwaitingPlanReview || s == Implementing || s == AwaitingVerification
  }

  /** The move is made by an agent turn. */
  predicate ByTurn(m: Move) {
    AgentWorks(m.from) && (m.cause.ByMessage? || m.cause.Beginning?)
  }

  function Without(s: seq<RunState>, i: nat): seq<RunState> {
    if i < |s| then s[..i] + s[i + 1..] else s
  }

  function SavedAfter(saved: Option<RunState>, m: Move): Option<RunState> {
    match m.cause
    case Holding(keeps) => if Held(m.from) || keeps then saved else Some(m.from)
    case Releasing => None
    case _ => saved
  }

  /** A run that ends closes its items. */
  function PendingAfter(pending: seq<RunState>, m: Move): seq<RunState> {
    if Terminal(m.to) then []
    else
      match m.cause
      case RecoveryBlock(seen, known) => if known then pending else pending + [seen]
      case Rebuilding(item) => Without(pending, item)
      case _ => pending
  }

  function RevisionsAfter(revisions: nat, m: Move): nat {
    revisions + if m.cause.ByMessage? && m.to == RevisionRequested then 1 else 0
  }

  function ReworkAfter(rework: nat, m: Move): nat {
    rework + if m.cause.ByMessage? && m.to == ReworkRequested then 1 else 0
  }

  function Moved(p: Position, m: Move): Position {
    Position(m.to, RevisionsAfter(p.revisions, m), ReworkAfter(p.rework, m), p.turns + if ByTurn(m) then 1 else 0,
             SavedAfter(p.saved, m), PendingAfter(p.pending, m))
  }

  // ---- How much is left ----

  /** The states of a gated run. */
  predicate Gated(s: RunState) {
    AgentWorks(s) || s == Created || s == RevisionRequested || s == PlanApproved || s == ReworkRequested
    || s == Blocked || Terminal(s)
  }

  /** One turn for research, two for each plan and two for each implementation. */
  function MostTurns(g: Gates): nat {
    1 + 2 * (g.maxRevisions + 1) + 2 * (g.maxRework + 1)
  }

  /** How many more agent turns can move a run on from this state. */
  function RankAt(s: RunState, revisions: nat, rework: nat, g: Gates): int {
    var verify := 2 * (g.maxRework - rework);
    var plan := 2 * (g.maxRevisions - revisions) + verify + 2;
    match s
    case Created => plan + 3
    case Researching => plan + 3
    case Planning => plan + 2
    case RevisionRequested => plan + 2
    case AwaitingPlanReview => plan + 1
    case PlanApproved => verify + 2
    case Implementing => verify + 2
    case ReworkRequested => verify + 2
    case AwaitingVerification => verify + 1
    case _ => 0
  }

  function PendingRank(pending: seq<RunState>, revisions: nat, rework: nat, g: Gates): int {
    if pending == [] then 0
    else PendingRank(pending[..|pending| - 1], revisions, rework, g) + RankAt(pending[|pending| - 1], revisions, rework, g)
  }

  function SavedRank(saved: Option<RunState>, revisions: nat, rework: nat, g: Gates): int {
    if saved.None? then 0 else RankAt(saved.value, revisions, rework, g)
  }

  /** The turns that are left from here, from the saved state, and from every pending item. */
  function Rank(p: Position, g: Gates): int {
    RankAt(p.state, p.revisions, p.rework, g) + SavedRank(p.saved, p.revisions, p.rework, g)
    + PendingRank(p.pending, p.revisions, p.rework, g)
  }

  predicate WithinGates(p: Position, g: Gates) {
    && (Gated(p.state) || (Held(p.state) && p.saved.Some?))
    && p.revisions <= g.maxRevisions && p.rework <= g.maxRework
    && (p.saved.Some? ==> Gated(p.saved.value) && !Terminal(p.saved.value))
    && forall i :: 0 <= i < |p.pending| ==> AgentWorks(p.pending[i])
  }

  lemma {:induction false} PendingRankFalls(pending: seq<RunState>, revisions: nat, rework: nat,
                                            revisions': nat, rework': nat, g: Gates)
    requires revisions <= revisions' <= g.maxRevisions && rework <= rework' <= g.maxRework
    requires forall i :: 0 <= i < |pending| ==> AgentWorks(pending[i])
    ensures 0 <= PendingRank(pending, revisions', rework', g) <= PendingRank(pending, revisions, rework, g)
  {
    if pending != [] {
      PendingRankFalls(pending[..|pending| - 1], revisions, rework, revisions', rework', g);
    }
  }

  lemma LastItem(pending: seq<RunState>, revisions: nat, rework: nat, g: Gates)
    requires pending != []
    ensures PendingRank(pending, revisions, rework, g)
      == PendingRank(pending[..|pending| - 1], revisions, rework, g) + RankAt(pending[|pending| - 1], revisions, rework, g)
  {
  }

  lemma WithoutEarlier(pending: seq<RunState>, i: nat)
    requires i < |pending| - 1
    ensures var rest := Without(pending, i);
      rest != [] && rest[..|rest| - 1] == Without(pending[..|pending| - 1], i) && rest[|rest| - 1] == pending[|pending| - 1]
  {
  }

  lemma {:induction false} ItemRemoved(pending: seq<RunState>, i: nat, revisions: nat, rework: nat, g: Gates)
    requires i < |pending|
    ensures PendingRank(Without(pending, i), revisions, rework, g)
      == PendingRank(pending, revisions, rework, g) - RankAt(pending[i], revisions, rework, g)
  {
    var n := |pending| - 1;
    LastItem(pending, revisions, rework, g);
    if i < n {
      ItemRemoved(pending[..n], i, revisions, rework, g);
      WithoutEarlier(pending, i);
      LastItem(Without(pending, i), revisions, rework, g);
    } else {
      assert Without(pending, i) == pending[..n];
    }
  }

  lemma ItemAdded(pending: seq<RunState>, s: RunState, revisions: nat, rework: nat, g: Gates)
    ensures PendingRank(pending + [s], revisions, rework, g)
      == PendingRank(pending, revisions, rework, g) + RankAt(s, revisions, rework, g)
  {
    assert (pending + [s])[..|pending|] == pending;
  }

  /** A dispatch that fails after the run has moved on, and whose item is new. */
  predicate Late(m: Move) {
    m.cause.RecoveryBlock? && !m.cause.known && m.cause.seen != m.from
  }

  lemma StepStaysWithinGates(p: Position, m: Move, g: Gates)
    requires WithinGates(p, g) && m.from == p.state && LegalStep(p, m, g)
    ensures var q := Moved(p, m);
      WithinGates(q, g) && p.revisions <= q.revisions && p.rework <= q.rework && q.saved == p.saved
  {
  }

  /** A step of the coordinator lowers what is left at its state when an agent turn made it, and never raises it. */
  lemma StepLowersRank(p: Position, m: Move, g: Gates)
    requires WithinGates(p, g) && m.from == p.state && LegalStep(p, m, g)
    ensures var q := Moved(p, m);
      && RankAt(q.state, q.revisions, q.rework, g) + q.turns <= RankAt(p.state, p.revisions, p.rework, g) + p.turns
      && 0 <= RankAt(q.state, q.revisions, q.rework, g)
  {
  }

  lemma RankAtFalls(s: RunState, revisions: nat, rework: nat, revisions': nat, rework': nat, g: Gates)
    requires revisions <= revisions' <= g.maxRevisions && rework <= rework' <= g.maxRework
    ensures 0 <= RankAt(s, revisions', rework', g) <= RankAt(s, revisions, rework, g) <= MostTurns(g)
  {
  }

  lemma StepKeepsRank(p: Position, m: Move, g: Gates)
    requires WithinGates(p, g) && m.from == p.state && LegalStep(p, m, g) && !Interrupts(m.cause)
    ensures WithinGates(Moved(p, m), g) && 0 <= Rank(Moved(p, m), g)
    ensures Rank(Moved(p, m), g) + Moved(p, m).turns <= Rank(p, g) + p.turns
  {
    StepStaysWithinGates(p, m, g);
    StepLowersRank(p, m, g);
    var q := Moved(p, m);
    if p.saved.Some? {
      RankAtFalls(p.saved.value, p.revisions, p.rework, q.revisions, q.rework, g);
    }
    PendingRankFalls(p.pending, p.revisions, p.rework, q.revisions, q.rework, g);
  }

  /** What a block for agent recovery leaves. */
  lemma BlockedPosition(p: Position, m: Move)
    requires LegalInterruption(p, m) && m.cause.RecoveryBlock?
    ensures Moved(p, m) == Position(Blocked, p.revisions, p.rework, p.turns, p.saved,
                                    if m.cause.known then p.pending else p.pending + [m.cause.seen])
    ensures AgentWorks(m.cause.seen)
  {
  }

  lemma SavedRankIsRank(p: Position, g: Gates)
    requires WithinGates(p, g)
    ensures 0 <= SavedRank(p.saved, p.revisions, p.rework, g)
  {
    if p.saved.Some? {
      RankAtFalls(p.saved.value, p.revisions, p.rework, p.revisions, p.rework, g);
    }
  }

  /** What a hold or a release moves between the state and the saved one. */
  lemma HeldPosition(p: Position, m: Move, g: Gates)
    requires WithinGates(p, g) && m.from == p.state && LegalInterruption(p, m) && (m.cause.Holding? || m.cause.Releasing?)
    ensures var q := Moved(p, m);
      && q == Position(m.to, p.revisions, p.rework, p.turns, q.saved, p.pending)
      && (m.cause.Releasing? ==> p.saved == Some(m.to) && q.saved == None)
      && (m.cause.Holding? ==> Held(m.to) && (q.saved == p.saved || q.saved == Some(p.state)))
  {
  }

  lemma HoldStaysWithinGates(p: Position, m: Move, g: Gates)
    requires WithinGates(p, g) && m.from == p.state && LegalInterruption(p, m) && (m.cause.Holding? || m.cause.Releasing?)
    ensures WithinGates(Moved(p, m), g)
  {
  }

  lemma HoldKeepsRank(p: Position, m: Move, g: Gates)
    requires WithinGates(p, g) && m.from == p.state && LegalInterruption(p, m) && (m.cause.Holding? || m.cause.Releasing?)
    ensures 0 <= Rank(Moved(p, m), g) <= Rank(p, g) && Moved(p, m).turns == p.turns
  {
    HeldPosition(p, m, g);
    RankAtFalls(p.state, p.revisions, p.rework, p.revisions, p.rework, g);
    RankAtFalls(m.to, p.revisions, p.rework, p.revisions, p.rework, g);
    PendingRankFalls(p.pending, p.revisions, p.rework, p.revisions, p.rework, g);
    SavedRankIsRank(p, g);
  }

  /** A block in time moves what is left at the state to the item; a late one adds to it. */
  lemma BlockKeepsRank(p: Position, m: Move, g: Gates)
    requires WithinGates(p, g) && m.from == p.state && LegalInterruption(p, m) && m.cause.RecoveryBlock?
    ensures WithinGates(Moved(p, m), g) && 0 <= Rank(Moved(p, m), g) && Moved(p, m).turns == p.turns
    ensures Rank(Moved(p, m), g) <= Rank(p, g) + if Late(m) then MostTurns(g) else 0
  {
    BlockedPosition(p, m);
    var seen, known := m.cause.seen, m.cause.known;
    PendingRankFalls(p.pending, p.revisions, p.rework, p.revisions, p.rework, g);
    SavedRankIsRank(p, g);
    RankAtFalls(p.state, p.revisions, p.rework, p.revisions, p.rework, g);
    RankAtFalls(seen, p.revisions, p.rework, p.revisions, p.rework, g);
    ItemAdded(p.pending, seen, p.revisions, p.rework, g);
  }

  lemma RebuiltPosition(p: Position, m: Move, g: Gates)
    requires WithinGates(p, g) && LegalInterruption(p, m) && m.cause.Rebuilding?
    ensures AgentWorks(m.to)
    ensures Moved(p, m) == Position(m.to, p.revisions, p.rework, p.turns, p.saved, Without(p.pending, m.cause.item))
    ensures forall s :: s in Without(p.pending, m.cause.item) ==> s in p.pending
  {
  }

  lemma RebuildKeepsRank(p: Position, m: Move, g: Gates)
    requires WithinGates(p, g) && m.from == p.state && LegalInterruption(p, m) && m.cause.Rebuilding?
    ensures WithinGates(Moved(p, m), g) && 0 <= Rank(Moved(p, m), g) <= Rank(p, g) && Moved(p, m).turns == p.turns
  {
    RebuiltPosition(p, m, g);
    SavedRankIsRank(p, g);
    RankAtFalls(p.state, p.revisions, p.rework, p.revisions, p.rework, g);
    RankAtFalls(m.to, p.revisions, p.rework, p.revisions, p.rework, g);
    ItemRemoved(p.pending, m.cause.item, p.revisions, p.rework, g);
    PendingRankFalls(Without(p.pending, m.cause.item), p.revisions, p.rework, p.revisions, p.rework, g);
  }

  /** Every move keeps or lowers the rank, an agent turn lowers it, and only a late block raises it. */
  lemma MoveLowersRank(p: Position, m: Move, g: Gates)
    requires WithinGates(p, g) && LegalMove(p, m, g)
    ensures WithinGates(Moved(p, m), g) && 0 <= Rank(Moved(p, m), g)
    ensures Rank(Moved(p, m), g) + Moved(p, m).turns <= Rank(p, g) + p.turns + if Late(m) then MostTurns(g) else 0
  {
    match m.cause
    case Holding(_) =>
      HoldStaysWithinGates(p, m, g);
      HoldKeepsRank(p, m, g);
    case Releasing =>
      HoldStaysWithinGates(p, m, g);
      HoldKeepsRank(p, m, g);
    case RecoveryBlock(_, _) => BlockKeepsRank(p, m, g);
    case Rebuilding(_) => RebuildKeepsRank(p, m, g);
    case _ => StepKeepsRank(p, m, g);
  }

  // ---- Which moves enter and leave which states ----

  predicate NeedsApprovedPlan(s: RunState) {
    s == PlanApproved || s == Implementing || s == AwaitingVerification || s == ReworkRequested || s == Completed
  }

  predicate NeedsImplementation(s: RunState) {
    s == AwaitingVerification || s == ReworkRequested || s == Completed
  }

  const APPROVAL := Move(AwaitingPlanReview, PlanApproved, ByMessage(ReviewApproved))
  const DELIVERY := Move(Implementing, AwaitingVerification, ByMessage(ImplementationDone))
  const ACCEPTANCE := Move(AwaitingVerification, Completed, ByMessage(VerificationPassed))

  /** Only the approval and the delivery enter these states from outside them. */
  lemma EntryMoves(p: Position, m: Move, g: Gates)
    requires WithinGates(p, g) && m.from == p.state && LegalStep(p, m, g)
    ensures NeedsApprovedPlan(m.to) && m != APPROVAL ==> NeedsApprovedPlan(m.from)
    ensures NeedsImplementation(m.to) && m != DELIVERY ==> NeedsImplementation(m.from)
    ensures m == DELIVERY ==> NeedsApprovedPlan(m.from)
    ensures m.to == Completed ==> m == ACCEPTANCE
  {
  }

  /** An interruption takes a run to a hold, to the blocked state, or back to where it was. */
  lemma InterruptionEntries(p: Position, m: Move, g: Gates)
    requires WithinGates(p, g) && LegalInterruption(p, m)
    ensures m.to == Blocked || Held(m.to) || p.saved == Some(m.to) || m.to in p.pending
    ensures !Terminal(m.to)
  {
  }

  /** A blocked message, or a dispatch that fails. */
  predicate Blocks(m: Move) {
    m.cause == ByMessage(TaskIsBlocked) || m.cause.RecoveryBlock?
  }

  /** The moves that a final state does not stop. */
  predicate ReplacesEnd(m: Move) {
    Terminal(m.from) && (Blocks(m) || (m.cause == ByMessage(TaskHasFailed) && m.from != Failed))
  }

  /**
   * A move takes a run that has ended to another state exactly when it blocks it or is
   * a failed message to a run that did not fail, and to an unfinished state exactly
   * when it blocks it.
   */
  lemma EndIsLeftExactlyBy(p: Position, m: Move, g: Gates)
    requires LegalMove(p, m, g) && Terminal(p.state)
    ensures m.to != p.state <==> ReplacesEnd(m)
    ensures !Terminal(m.to) <==> Blocks(m)
  {
  }
}
