/**
 * The gated coordinator: what holds after any series of its moves, and the coordinator
 * itself.
 */
module Coordinator {
  import opened Wrappers
  import opened RunModel
  import opened CoordinatorMoves

  /** A dispatch can only have seen a state that the run was in. */
  ghost predicate Witnessed(log: seq<Move>, m: Move) {
    m.cause.RecoveryBlock? ==> Entered(log, m.cause.seen)
  }

  ghost predicate Entered(log: seq<Move>, s: RunState) {
    exists j :: 0 <= j < |log| && log[j].to == s
  }

  /** Where a series of moves leads, if the operations of the coordinator can make them. */
  ghost function Play(log: seq<Move>, g: Gates): Option<Position> {
    if log == [] then Some(START)
    else
      var before, m := Play(log[..|log| - 1], g), log[|log| - 1];
      if before.None? || !LegalMove(before.value, m, g) || !Witnessed(log[..|log| - 1], m) then None
      else Some(Moved(before.value, m))
  }

  ghost predicate Legal(log: seq<Move>, g: Gates) {
    Play(log, g).Some?
  }

  ghost function At(log: seq<Move>, g: Gates): Position
    requires Legal(log, g)
  {
    Play(log, g).value
  }

  lemma Extend(log: seq<Move>, p: Position, m: Move, g: Gates)
    requires Play(log, g) == Some(p) && LegalMove(p, m, g) && Witnessed(log, m)
    ensures Play(log + [m], g) == Some(Moved(p, m))
  {
    assert (log + [m])[..|log|] == log;
  }

  lemma {:induction false} PrefixIsLegal(log: seq<Move>, g: Gates, n: nat)
    requires Legal(log, g) && n <= |log|
    ensures Legal(log[..n], g)
    ensures n < |log| ==> LegalMove(At(log[..n], g), log[n], g) && Witnessed(log[..n], log[n])
  {
    if n < |log| {
      var before := log[..|log| - 1];
      PrefixIsLegal(before, g, n);
      assert log[..n] == before[..n];
      assert n == |before| ==> before[..n] == before;
    } else {
      assert log[..n] == log;
    }
  }

  // ---- Loops are bounded ----

  function LateBlocks(log: seq<Move>): nat {
    if log == [] then 0 else LateBlocks(log[..|log| - 1]) + if Late(log[|log| - 1]) then 1 else 0
  }

  /** The turns a run may take: what its gates allow, and as many again for each late block. */
  function Allowance(log: seq<Move>, g: Gates): nat {
    if log == [] then MostTurns(g) else Allowance(log[..|log| - 1], g) + if Late(log[|log| - 1]) then MostTurns(g) else 0
  }

  lemma {:induction false} AllowanceIs(log: seq<Move>, g: Gates)
    ensures Allowance(log, g) == MostTurns(g) * (1 + LateBlocks(log))
  {
    if log != [] {
      AllowanceIs(log[..|log| - 1], g);
    }
  }

  lemma {:induction false} RunIsAllowed(log: seq<Move>, g: Gates)
    requires Legal(log, g)
    ensures WithinGates(At(log, g), g) && 0 <= Rank(At(log, g), g)
    ensures At(log, g).turns + Rank(At(log, g), g) <= Allowance(log, g)
  {
    if log != [] {
      var before, m := log[..|log| - 1], log[|log| - 1];
      RunIsAllowed(before, g);
      MoveLowersRank(At(before, g), m, g);
    }
  }

  /**
   * No run exceeds its gates.  Held and released in any order, blocked and rebuilt, it
   * takes no more agent turns than the gates allow, and as many again for each late block.
   */
  lemma RunIsBounded(log: seq<Move>, g: Gates)
    requires Legal(log, g)
    ensures var p := At(log, g);
      p.revisions <= g.maxRevisions && p.rework <= g.maxRework && p.turns <= MostTurns(g) * (1 + LateBlocks(log))
  {
    RunIsAllowed(log, g);
    AllowanceIs(log, g);
  }

  // ---- The bound is reached ----

  lemma Take(log: seq<Move>, m: Move, g: Gates) returns (longer: seq<Move>)
    requires Legal(log, g) && LegalMove(At(log, g), m, g) && Witnessed(log, m)
    ensures longer == log + [m] && Legal(longer, g) && At(longer, g) == Moved(At(log, g), m)
    ensures LateBlocks(longer) == LateBlocks(log) + if Late(m) then 1 else 0
  {
    longer := log + [m];
    Extend(log, At(log, g), m, g);
  }

  const SUBMISSION := Move(Planning, AwaitingPlanReview, ByMessage(PlanSubmitted))
  const REJECTION := Move(AwaitingPlanReview, RevisionRequested, ByMessage(RevisionAsked))
  const REPLANNING := Move(RevisionRequested, Planning, Beginning)
  const FAILURE := Move(AwaitingVerification, ReworkRequested, ByMessage(VerificationFailed))
  const REWORK := Move(ReworkRequested, Implementing, Beginning)
  const WORK := Move(PlanApproved, Implementing, Beginning)

  lemma Submits(p: Position, g: Gates)
    requires p.state == Planning
    ensures LegalMove(p, SUBMISSION, g) && Moved(p, SUBMISSION) == p.(state := AwaitingPlanReview, turns := p.turns + 1)
  {
  }

  lemma Rejects(p: Position, g: Gates)
    requires p.state == AwaitingPlanReview && p.revisions < g.maxRevisions
    ensures LegalMove(p, REJECTION, g) && Moved(p, REJECTION) == p.(state := RevisionRequested, revisions := p.revisions + 1, turns := p.turns + 1)
  {
  }

  lemma Replans(p: Position, g: Gates)
    requires p.state == RevisionRequested
    ensures LegalMove(p, REPLANNING, g) && Moved(p, REPLANNING) == p.(state := Planning)
  {
  }

  lemma Approves(p: Position, g: Gates)
    requires p.state == AwaitingPlanReview
    ensures LegalMove(p, APPROVAL, g) && Moved(p, APPROVAL) == p.(state := PlanApproved, turns := p.turns + 1)
  {
  }

  lemma Implements(p: Position, g: Gates)
    requires p.state == PlanApproved
    ensures LegalMove(p, WORK, g) && Moved(p, WORK) == p.(state := Implementing)
  {
  }

  lemma Delivers(p: Position, g: Gates)
    requires p.state == Implementing
    ensures LegalMove(p, DELIVERY, g) && Moved(p, DELIVERY) == p.(state := AwaitingVerification, turns := p.turns + 1)
  {
  }

  lemma Fails(p: Position, g: Gates)
    requires p.state == AwaitingVerification && p.rework < g.maxRework
    ensures LegalMove(p, FAILURE, g) && Moved(p, FAILURE) == p.(state := ReworkRequested, rework := p.rework + 1, turns := p.turns + 1)
  {
  }

  lemma Reworks(p: Position, g: Gates)
    requires p.state == ReworkRequested
    ensures LegalMove(p, REWORK, g) && Moved(p, REWORK) == p.(state := Implementing)
  {
  }

  lemma Passes(p: Position, g: Gates)
    requires p.state == AwaitingVerification
    ensures LegalMove(p, ACCEPTANCE, g) && Moved(p, ACCEPTANCE) == p.(state := Completed, turns := p.turns + 1, pending := [])
  {
  }

  /** Send the plan back once. */
  lemma ReviseOnce(log: seq<Move>, g: Gates, p: Position) returns (longer: seq<Move>)
    requires Legal(log, g) && At(log, g) == p && p.state == Planning && p.revisions < g.maxRevisions
    ensures Legal(longer, g) && LateBlocks(longer) == LateBlocks(log) && At(longer, g) == p.(revisions := p.revisions + 1, turns := p.turns + 2)
  {
    Submits(p, g);
    longer := Take(log, SUBMISSION, g);
    Rejects(At(longer, g), g);
    longer := Take(longer, REJECTION, g);
    Replans(At(longer, g), g);
    longer := Take(longer, REPLANNING, g);
  }

  /** Send the implementation back once. */
  lemma ReworkOnce(log: seq<Move>, g: Gates, p: Position) returns (longer: seq<Move>)
    requires Legal(log, g) && At(log, g) == p && p.state == Implementing && p.rework < g.maxRework
    ensures Legal(longer, g) && LateBlocks(longer) == LateBlocks(log) && At(longer, g) == p.(rework := p.rework + 1, turns := p.turns + 2)
  {
    Delivers(p, g);
    longer := Take(log, DELIVERY, g);
    Fails(At(longer, g), g);
    longer := Take(longer, FAILURE, g);
    Reworks(At(longer, g), g);
    longer := Take(longer, REWORK, g);
  }

  /** Have the plan approved and start on it. */
  lemma ApproveAndWork(log: seq<Move>, g: Gates, p: Position) returns (longer: seq<Move>)
    requires Legal(log, g) && At(log, g) == p && p.state == Planning
    ensures Legal(longer, g) && LateBlocks(longer) == LateBlocks(log) && At(longer, g) == p.(state := Implementing, turns := p.turns + 2)
  {
    Submits(p, g);
    longer := Take(log, SUBMISSION, g);
    Approves(At(longer, g), g);
    longer := Take(longer, APPROVAL, g);
    Implements(At(longer, g), g);
    longer := Take(longer, WORK, g);
  }

  /** Send the plan back n times. */
  lemma {:induction false} ReviseOften(log: seq<Move>, g: Gates, n: nat) returns (longer: seq<Move>)
    requires Legal(log, g) && At(log, g).state == Planning && At(log, g).revisions + n <= g.maxRevisions
    ensures Legal(longer, g) && LateBlocks(longer) == LateBlocks(log)
    ensures var p := At(log, g); At(longer, g) == p.(revisions := p.revisions + n, turns := p.turns + 2 * n)
    decreases n
  {
    longer := log;
    if n > 0 {
      var p := At(log, g);
      longer := ReviseOnce(log, g, p);
      longer := ReviseOften(longer, g, n - 1);
    }
  }

  /** Send the implementation back n times. */
  lemma {:induction false} ReworkOften(log: seq<Move>, g: Gates, n: nat) returns (longer: seq<Move>)
    requires Legal(log, g) && At(log, g).state == Implementing && At(log, g).rework + n <= g.maxRework
    ensures Legal(longer, g) && LateBlocks(longer) == LateBlocks(log)
    ensures var p := At(log, g); At(longer, g) == p.(rework := p.rework + n, turns := p.turns + 2 * n)
    decreases n
  {
    longer := log;
    if n > 0 {
      var p := At(log, g);
      longer := ReworkOnce(log, g, p);
      longer := ReworkOften(longer, g, n - 1);
    }
  }

  const BEGINNING := Move(Created, Researching, Starting)
  const PLANNING := Move(Researching, Planning, Beginning)

  lemma StartPath(g: Gates)
    ensures LegalMove(START, BEGINNING, g) && Moved(START, BEGINNING) == START.(state := Researching)
    ensures LegalMove(Moved(START, BEGINNING), PLANNING, g)
    ensures Moved(Moved(START, BEGINNING), PLANNING) == START.(state := Planning, turns := 1)
  {
  }

  lemma ReachResearch(g: Gates) returns (log: seq<Move>)
    ensures log == [BEGINNING] && LateBlocks(log) == 0 && Legal(log, g) && At(log, g) == START.(state := Researching)
  {
    StartPath(g);
    assert Play([], g) == Some(START);
    log := Take([], BEGINNING, g);
  }

  lemma ReachPlanning(g: Gates) returns (log: seq<Move>)
    ensures Legal(log, g) && LateBlocks(log) == 0 && At(log, g) == Position(Planning, 0, 0, 1, None, [])
  {
    StartPath(g);
    log := ReachResearch(g);
    log := Take(log, PLANNING, g);
  }

  lemma PassVerification(log: seq<Move>, g: Gates) returns (longer: seq<Move>)
    requires Legal(log, g) && At(log, g).state == Implementing
    ensures Legal(longer, g) && LateBlocks(longer) == LateBlocks(log)
    ensures var p := At(log, g); At(longer, g) == p.(state := Completed, turns := p.turns + 2, pending := [])
    ensures |longer| > 0 && longer[|longer| - 1] == ACCEPTANCE
  {
    Delivers(At(log, g), g);
    longer := Take(log, DELIVERY, g);
    Passes(At(longer, g), g);
    longer := Take(longer, ACCEPTANCE, g);
  }

  /** For any gates some run takes exactly the most turns, and completes. */
  lemma BoundIsReached(g: Gates) returns (log: seq<Move>)
    ensures Legal(log, g) && LateBlocks(log) == 0 && At(log, g).turns == MostTurns(g) && At(log, g).state == Completed
    ensures |log| > 0 && log[|log| - 1] == ACCEPTANCE && At(log, g).pending == []
  {
    log := ReachPlanning(g);
    log := ReviseOften(log, g, g.maxRevisions);
    log := ApproveAndWork(log, g, At(log, g));
    log := ReworkOften(log, g, g.maxRework);
    log := PassVerification(log, g);
  }

  // ---- What must have happened ----

  lemma EnteredStays(log: seq<Move>, m: Move, s: RunState)
    ensures Entered(log + [m], s) <==> Entered(log, s) || m.to == s
  {
    var longer := log + [m];
    if Entered(log, s) {
      var j :| 0 <= j < |log| && log[j].to == s;
      assert longer[j].to == s;
    }
    if m.to == s {
      assert longer[|log|].to == s;
    }
  }

  /** The run was in this state. */
  ghost predicate Visited(log: seq<Move>, s: RunState) {
    s == Created || Entered(log, s)
  }

  /** A run is, and goes back to, only where it was before. */
  ghost predicate PlacesVisited(log: seq<Move>, p: Position) {
    && Visited(log, p.state)
    && (p.saved.Some? ==> Visited(log, p.saved.value))
    && forall i :: 0 <= i < |p.pending| ==> Visited(log, p.pending[i])
  }

  lemma MoveKeepsPlaces(log: seq<Move>, p: Position, m: Move, g: Gates)
    requires PlacesVisited(log, p) && LegalMove(p, m, g) && Witnessed(log, m)
    ensures PlacesVisited(log + [m], Moved(p, m))
  {
    forall s: RunState ensures Entered(log + [m], s) <==> Entered(log, s) || m.to == s {
      EnteredStays(log, m, s);
    }
  }

  lemma {:induction false} PlacesWereVisited(log: seq<Move>, g: Gates)
    requires Legal(log, g)
    ensures PlacesVisited(log, At(log, g))
  {
    if log != [] {
      var before, m := log[..|log| - 1], log[|log| - 1];
      PlacesWereVisited(before, g);
      MoveKeepsPlaces(before, At(before, g), m, g);
      assert before + [m] == log;
    }
  }

  lemma LastMove(log: seq<Move>, g: Gates) returns (before: seq<Move>, m: Move, p: Position)
    requires Legal(log, g) && log != []
    ensures log == before + [m] && Legal(before, g) && p == At(before, g) && LegalMove(p, m, g)
  {
    before, m := log[..|log| - 1], log[|log| - 1];
    p := At(before, g);
  }

  lemma {:induction false} PlanWasApproved(log: seq<Move>, g: Gates, s: RunState)
    requires Legal(log, g) && Entered(log, s) && NeedsApprovedPlan(s)
    ensures APPROVAL in log
    decreases |log|
  {
    var before, m, p := LastMove(log, g);
    RunIsAllowed(before, g);
    PlacesWereVisited(before, g);
    EnteredStays(before, m, s);
    if Entered(before, s) {
      PlanWasApproved(before, g, s);
    } else if Interrupts(m.cause) {
      InterruptionEntries(p, m, g);
    } else {
      EntryMoves(p, m, g);
      if m != APPROVAL {
        PlanWasApproved(before, g, p.state);
      }
    }
  }

  ghost predicate ApprovedThenDelivered(log: seq<Move>) {
    exists i, j :: 0 <= i < j < |log| && log[i] == APPROVAL && log[j] == DELIVERY
  }

  lemma LongerLogKeepsBoth(log: seq<Move>, m: Move)
    ensures ApprovedThenDelivered(log) ==> ApprovedThenDelivered(log + [m])
    ensures APPROVAL in log && m == DELIVERY ==> ApprovedThenDelivered(log + [m])
  {
    var longer := log + [m];
    if ApprovedThenDelivered(log) {
      var i, j :| 0 <= i < j < |log| && log[i] == APPROVAL && log[j] == DELIVERY;
      assert longer[i] == APPROVAL && longer[j] == DELIVERY;
    }
    if APPROVAL in log && m == DELIVERY {
      var i :| 0 <= i < |log| && log[i] == APPROVAL;
      assert longer[i] == APPROVAL && longer[|log|] == DELIVERY;
    }
  }

  lemma {:induction false} ImplementationWasDelivered(log: seq<Move>, g: Gates, s: RunState)
    requires Legal(log, g) && Entered(log, s) && NeedsImplementation(s)
    ensures ApprovedThenDelivered(log)
    decreases |log|
  {
    var before, m, p := LastMove(log, g);
    RunIsAllowed(before, g);
    PlacesWereVisited(before, g);
    EnteredStays(before, m, s);
    LongerLogKeepsBoth(before, m);
    if Entered(before, s) {
      ImplementationWasDelivered(before, g, s);
    } else if Interrupts(m.cause) {
      InterruptionEntries(p, m, g);
    } else {
      EntryMoves(p, m, g);
      if m == DELIVERY {
        PlanWasApproved(before, g, p.state);
      } else {
        ImplementationWasDelivered(before, g, p.state);
      }
    }
  }

  lemma CompletedByAcceptance(p: Position, m: Move, g: Gates)
    requires WithinGates(p, g) && LegalMove(p, m, g) && m.to == Completed
    ensures m == ACCEPTANCE
  {
    if Interrupts(m.cause) {
      InterruptionEntries(p, m, g);
    } else {
      EntryMoves(p, m, g);
    }
  }

  /** A run is completed only by a passed verification, after a delivered implementation, after an approved plan. */
  lemma CompletionIsGated(log: seq<Move>, g: Gates, k: nat)
    requires Legal(log, g) && k < |log| && log[k].to == Completed
    ensures log[k] == ACCEPTANCE && ApprovedThenDelivered(log[..k])
  {
    PrefixIsLegal(log, g, k);
    RunIsAllowed(log[..k], g);
    PlacesWereVisited(log[..k], g);
    CompletedByAcceptance(At(log[..k], g), log[k], g);
    ImplementationWasDelivered(log[..k], g, AwaitingVerification);
  }

  // ---- Runs that have ended ----

  /**
   * A run that has ended is unfinished again after some later move exactly when some
   * later move blocks it while it has ended.
   */
  lemma EndedRunsAgainExactlyWhen(log: seq<Move>, g: Gates, k: nat)
    requires Legal(log, g) && k < |log| && Terminal(log[k].to)
    ensures (exists j :: k < j < |log| && !Terminal(log[j].to)) <==>
      (exists j :: k < j < |log| && Terminal(log[j].from) && Blocks(log[j]))
  {
    forall j | k < j < |log| ensures log[j].from == log[j - 1].to && (Terminal(log[j].from) ==> (!Terminal(log[j].to) <==> Blocks(log[j]))) {
      Consecutive(log, g, j);
    }
    if exists j :: k < j < |log| && !Terminal(log[j].to) {
      var j :| k < j < |log| && !Terminal(log[j].to);
      while Terminal(log[j].from) == false
        invariant k < j < |log| && !Terminal(log[j].to)
        decreases j
      {
        j := j - 1;
      }
    }
  }

  /** Each move after k starts where the one before it led, and leaves an end only if it replaces it. */
  ghost predicate Linked(log: seq<Move>, k: nat) {
    forall j :: k < j < |log| ==>
      log[j].from == log[j - 1].to && (Terminal(log[j].from) ==> (log[j].to != log[j].from <==> ReplacesEnd(log[j])))
  }

  lemma EndIsKept(log: seq<Move>, k: nat)
    requires Linked(log, k) && k < |log| && Terminal(log[k].to)
    ensures (forall j :: k < j < |log| ==> log[j].to == log[k].to) <==>
      (forall j :: k < j < |log| ==> !ReplacesEnd(log[j]))
  {
    for n := k + 1 to |log|
      invariant (forall j :: k < j < n ==> log[j].to == log[k].to) <==> (forall j :: k < j < n ==> !ReplacesEnd(log[j]))
    {
      assert log[n].from == log[n - 1].to;
    }
  }

  /** A run keeps the state it ended in exactly as long as no move comes that replaces it. */
  lemma EndIsKeptExactlyWhen(log: seq<Move>, g: Gates, k: nat)
    requires Legal(log, g) && k < |log| && Terminal(log[k].to)
    ensures (forall j :: k < j < |log| ==> log[j].to == log[k].to) <==>
      (forall j :: k < j < |log| ==> !ReplacesEnd(log[j]))
  {
    assert Linked(log, k) by {
      forall j | k < j < |log|
        ensures log[j].from == log[j - 1].to && (Terminal(log[j].from) ==> (log[j].to != log[j].from <==> ReplacesEnd(log[j])))
      {
        Consecutive(log, g, j);
      }
    }
    EndIsKept(log, k);
  }

  lemma Consecutive(log: seq<Move>, g: Gates, j: nat)
    requires Legal(log, g) && 0 < j < |log|
    ensures log[j].from == log[j - 1].to
    ensures Terminal(log[j].from) ==>
      (!Terminal(log[j].to) <==> Blocks(log[j])) && (log[j].to != log[j].from <==> ReplacesEnd(log[j]))
  {
    PrefixIsLegal(log, g, j);
    PrefixIsLegal(log, g, j - 1);
    assert log[..j][..j - 1] == log[..j - 1];
    if Terminal(log[j].from) {
      EndIsLeftExactlyBy(At(log[..j], g), log[j], g);
    }
  }

  /** A blocked message takes a completed run back to an unfinished state. */
  lemma CompletedRunIsBlocked(g: Gates) returns (log: seq<Move>)
    ensures Legal(log, g) && |log| > 1 && log[|log| - 2] == ACCEPTANCE
    ensures At(log, g).state == Blocked
  {
    log := BoundIsReached(g);
    log := Take(log, Move(Completed, Blocked, ByMessage(TaskIsBlocked)), g);
  }

  /** A failed message takes a completed run to failed. */
  lemma CompletedRunFails(g: Gates) returns (log: seq<Move>)
    ensures Legal(log, g) && |log| > 1 && log[|log| - 2] == ACCEPTANCE
    ensures At(log, g).state == Failed
  {
    log := BoundIsReached(g);
    log := Take(log, Move(Completed, Failed, ByMessage(TaskHasFailed)), g);
  }

  lemma CancelledRun(g: Gates) returns (log: seq<Move>)
    ensures log == [BEGINNING, Move(Researching, Cancelled, Cancelling)]
    ensures Legal(log, g) && At(log, g) == START.(state := Cancelled) && Entered(log, Researching)
  {
    log := ReachResearch(g);
    log := Take(log, Move(Researching, Cancelled, Cancelling), g);
    assert log[0].to == Researching;
  }

  /**
   * A run is cancelled while a dispatch is under way; the dispatch fails, and once its
   * agent is rebuilt the cancelled run works again.
   */
  lemma CancelledRunRunsAgain(g: Gates) returns (log: seq<Move>)
    ensures Legal(log, g) && |log| == 4 && log[1] == Move(Researching, Cancelled, Cancelling)
    ensures At(log, g) == START.(state := Researching)
  {
    log := CancelledRun(g);
    log := Take(log, Move(Cancelled, Blocked, RecoveryBlock(Researching, false)), g);
    assert At(log, g) == START.(state := Blocked, pending := [Researching]);
    log := Take(log, Move(Blocked, Researching, Rebuilding(0)), g);
  }

  const BLOCK := Move(Completed, Blocked, RecoveryBlock(AwaitingVerification, false))
  const REBUILDING := Move(Blocked, AwaitingVerification, Rebuilding(0))

  lemma BlocksLate(p: Position, g: Gates)
    requires p.state == Completed && p.pending == []
    ensures LegalMove(p, BLOCK, g) && Moved(p, BLOCK) == p.(state := Blocked, pending := [AwaitingVerification])
  {
  }

  lemma Rebuilds(p: Position, g: Gates)
    requires p.state == Blocked && p.pending == [AwaitingVerification]
    ensures LegalMove(p, REBUILDING, g) && Moved(p, REBUILDING) == p.(state := AwaitingVerification, pending := [])
  {
  }

  /** One late block, and the run takes a turn more than its gates allow. */
  lemma LateBlockExceedsGates(g: Gates) returns (log: seq<Move>)
    ensures Legal(log, g) && LateBlocks(log) == 1 && At(log, g).turns == MostTurns(g) + 1
  {
    log := BoundIsReached(g);
    var before, m, p := LastMove(log, g);
    PlacesWereVisited(before, g);
    EnteredStays(before, m, AwaitingVerification);
    BlocksLate(At(log, g), g);
    log := Take(log, BLOCK, g);
    Rebuilds(At(log, g), g);
    log := Take(log, REBUILDING, g);
    Passes(At(log, g), g);
    log := Take(log, ACCEPTANCE, g);
  }

  // ---- The coordinator ----

  function ExpectedRole(s: RunState, hasVerifier: bool): Option<Role> {
    if s == Researching || s == AwaitingPlanReview then Some(Lead)
    else if s == Planning || s == Implementing then Some(Worker)
    else if s == AwaitingVerification then Some(if hasVerifier then Verifier else Lead)
    else None
  }

  /** Where a whole agent turn takes the run: through a review or a rework request, not just to it. */
  function TurnResult(p: Position, positive: bool, g: Gates): RunState {
    match p.state
    case Researching => Planning
    case Planning => if g.planNeedsApproval then AwaitingPlanReview else Implementing
    case AwaitingPlanReview =>
      if positive then Implementing else if p.revisions >= g.maxRevisions then Failed else Planning
    case Implementing => if g.implementationNeedsVerification then AwaitingVerification else Completed
    case AwaitingVerification =>
      if positive then Completed else if p.rework >= g.maxRework then Failed else Implementing
    case other => other
  }

  /** Where a message takes the run when it arrives for the first time. */
  function Reacted(p: Position, kind: MessageType, g: Gates): Position {
    var wanted := Wanted(kind, p.revisions, p.rework, g);
    if wanted.Some? && (Unguarded(kind) || Allows(p.state, wanted.value))
    then Moved(p, Move(p.state, wanted.value, ByMessage(kind))) else p
  }

  /** Whether the operation succeeds: the message asks for nothing, or for something the table allows. */
  predicate Accepts(p: Position, kind: MessageType, g: Gates) {
    var wanted := Wanted(kind, p.revisions, p.rework, g);
    wanted.None? || Unguarded(kind) || Allows(p.state, wanted.value)
  }

  function Begun(p: Position, next: RunState): Position {
    if Allows(p.state, next) then Moved(p, Move(p.state, next, Beginning)) else p
  }

  /** The message keys a turn may use. */
  function TurnKeys(completion: string): set<string> {
    {"research-" + completion, "plan-" + completion, "auto-plan-approval-" + completion, "plan-review-" + completion,
     "implementation-" + completion, "auto-verification-" + completion, "verification-" + completion}
  }

  /** No turn moves the run without being counted. */
  predicate TurnCounts(before: Position, after: Position) {
    after.turns >= before.turns && (after.state != before.state ==> after.turns > before.turns)
  }

  lemma SubmissionEffect(p: Position, g: Gates)
    requires p.state == Planning
    ensures Accepts(p, PlanSubmitted, g)
    ensures Reacted(p, PlanSubmitted, g) == p.(state := AwaitingPlanReview, turns := p.turns + 1)
  {
  }

  lemma PlanEffect(p: Position, g: Gates)
    requires p.state == Planning
    ensures var q := Reacted(p, PlanSubmitted, g);
      var r := Reacted(q, ReviewApproved, g);
      && Accepts(p, PlanSubmitted, g) && q == p.(state := AwaitingPlanReview, turns := p.turns + 1)
      && Accepts(q, ReviewApproved, g) && r == p.(state := PlanApproved, turns := p.turns + 2)
      && Allows(PlanApproved, Implementing) && Begun(r, Implementing) == r.(state := Implementing)
  {
    SubmissionEffect(p, g);
    ApprovalEffect(p.(state := AwaitingPlanReview, turns := p.turns + 1), g);
  }

  /** An approval does nothing while the plan is not under review. */
  lemma ApprovalEffect(p: Position, g: Gates)
    requires p.state == Planning || p.state == AwaitingPlanReview
    ensures var r := Reacted(p, ReviewApproved, g);
      && Begun(p, Implementing) == p
      && (p.state == Planning ==> r == p)
      && (p.state == AwaitingPlanReview ==>
            Accepts(p, ReviewApproved, g) && r == p.(state := PlanApproved, turns := p.turns + 1)
            && Allows(PlanApproved, Implementing) && Begun(r, Implementing) == r.(state := Implementing))
  {
  }

  lemma PassingEffect(p: Position, g: Gates)
    requires p.state == Implementing
    ensures Reacted(p, VerificationPassed, g) == p
  {
  }

  lemma ImplementationEffect(p: Position, g: Gates)
    requires p.state == Implementing
    ensures var q := Reacted(p, ImplementationDone, g);
      && Accepts(p, ImplementationDone, g) && q == p.(state := AwaitingVerification, turns := p.turns + 1)
      && Accepts(q, VerificationPassed, g)
      && Reacted(q, VerificationPassed, g) == p.(state := Completed, turns := p.turns + 2, pending := [])
  {
  }

  lemma ReviewEffect(p: Position, approved: bool, g: Gates)
    requires p.state == AwaitingPlanReview
    ensures var kind := if approved then ReviewApproved else RevisionAsked;
      var q := Reacted(p, kind, g);
      && Accepts(p, kind, g) && q.turns == p.turns + 1
      && (approved <==> q.state == PlanApproved) && (q.state == RevisionRequested <==> !approved && p.revisions < g.maxRevisions)
      && (q.state == PlanApproved ==> Allows(q.state, Implementing) && Begun(q, Implementing) == q.(state := TurnResult(p, approved, g)))
      && (q.state == RevisionRequested ==> Allows(q.state, Planning) && Begun(q, Planning) == q.(state := TurnResult(p, approved, g)))
      && (q.state != PlanApproved && q.state != RevisionRequested ==> q.state == TurnResult(p, approved, g))
      && q.revisions == p.revisions + (if TurnResult(p, approved, g) == Planning then 1 else 0) && (q.rework, q.saved) == (p.rework, p.saved)
  {
  }

  lemma VerificationEffect(p: Position, passed: bool, g: Gates)
    requires p.state == AwaitingVerification
    ensures var kind := if passed then VerificationPassed else VerificationFailed;
      var q := Reacted(p, kind, g);
      && Accepts(p, kind, g) && q.turns == p.turns + 1
      && (q.state == ReworkRequested ==> Allows(q.state, Implementing) && Begun(q, Implementing) == q.(state := TurnResult(p, passed, g)))
      && (q.state != ReworkRequested ==> q.state == TurnResult(p, passed, g))
      && q.rework == p.rework + (if TurnResult(p, passed, g) == Implementing then 1 else 0) && (q.revisions, q.saved) == (p.revisions, p.saved)
  {
  }

  // ---- What a message and a turn mean ----

  /** A run can be failed for a used-up gate while it is at work or waits for an answer. */
  ghost predicate CanFail(s: RunState) {
    Working(s) && s != Created && s != WaitingDevice && s != Blocked
  }

  /** The one place each message takes a run to, and from where. */
  ghost predicate Takes(p: Position, kind: MessageType, g: Gates, to: RunState) {
    match kind
    case TaskProgress => false
    case PlanSubmitted => p.state == Planning && to == AwaitingPlanReview
    case ReviewApproved => p.state == AwaitingPlanReview && to == PlanApproved
    case RevisionAsked =>
      if p.revisions < g.maxRevisions then p.state == AwaitingPlanReview && to == RevisionRequested
      else CanFail(p.state) && to == Failed
    case ImplementationDone => p.state == Implementing && to == AwaitingVerification
    case VerificationFailed | ReworkAsked =>
      if p.rework < g.maxRework then p.state == AwaitingVerification && to == ReworkRequested
      else CanFail(p.state) && to == Failed
    case VerificationPassed => (p.state == AwaitingVerification || p.state == Executing) && to == Completed
    case TaskIsBlocked => to == Blocked
    case TaskHasFailed => to == Failed
  }

  /** A message takes the run there and counts the loop it opens, or it is refused and nothing changes; progress is just noted. */
  ghost predicate MessageDone(p: Position, kind: MessageType, g: Gates, ok: bool, q: Position) {
    if exists to :: Takes(p, kind, g, to) then
      && ok && Takes(p, kind, g, q.state) && q.saved == p.saved
      && q.pending == (if q.state == Completed || q.state == Failed then [] else p.pending)
      && q.revisions == p.revisions + (if kind == RevisionAsked && q.state != Failed then 1 else 0)
      && q.rework == p.rework + (if (kind == VerificationFailed || kind == ReworkAsked) && q.state != Failed then 1 else 0)
    else q == p && (ok <==> kind == TaskProgress)
  }

  lemma FailingMeans(s: RunState)
    ensures CanFail(s) <==> Allows(s, Failed)
  {
  }

  lemma TakesMeans(p: Position, kind: MessageType, g: Gates, to: RunState)
    ensures Takes(p, kind, g, to) <==>
      Wanted(kind, p.revisions, p.rework, g) == Some(to) && (Unguarded(kind) || Allows(p.state, to))
  {
    FailingMeans(p.state);
  }

  lemma MovedMeans(p: Position, kind: MessageType, g: Gates, to: RunState)
    requires Takes(p, kind, g, to)
    ensures MessageDone(p, kind, g, true, Moved(p, Move(p.state, to, ByMessage(kind))))
  {
  }

  lemma MessageMeans(p: Position, kind: MessageType, g: Gates)
    ensures MessageDone(p, kind, g, Accepts(p, kind, g), Reacted(p, kind, g))
  {
    forall to: RunState { TakesMeans(p, kind, g, to); }
    if to: RunState :| Takes(p, kind, g, to) {
      MovedMeans(p, kind, g, to);
    }
  }

  /** The worker plans and implements; the lead researches and reviews; the verifier, or the lead where there is none, verifies. */
  ghost predicate Serves(role: Role, s: RunState, hasVerifier: bool) {
    match role
    case Lead => s == Researching || s == AwaitingPlanReview || (s == AwaitingVerification && !hasVerifier)
    case Worker => s == Planning || s == Implementing
    case Verifier => s == AwaitingVerification && hasVerifier
  }

  /**
   * What the turn of the serving role does.  A worker hands over, and only where the
   * gate is off goes on by itself; a judgement lets the run through, sends it back and
   * counts that, or fails it when the gate is used up.
   */
  ghost predicate TurnDone(p: Position, positive: bool, g: Gates, q: Position) {
    var review, sentBack := p.state == AwaitingPlanReview, !positive && q.state != Failed;
    && (p.state == Researching ==> q.state == Planning)
    && (p.state == Planning ==> q.state == if g.planNeedsApproval then AwaitingPlanReview else Implementing)
    && (p.state == Implementing ==> q.state == if g.implementationNeedsVerification then AwaitingVerification else Completed)
    && (review ==> q.state == if positive then Implementing else if p.revisions < g.maxRevisions then Planning else Failed)
    && (p.state == AwaitingVerification ==>
          q.state == if positive then Completed else if p.rework < g.maxRework then Implementing else Failed)
    && q.revisions == p.revisions + (if review && sentBack then 1 else 0)
    && q.rework == p.rework + (if p.state == AwaitingVerification && sentBack then 1 else 0)
    && q.saved == p.saved
  }

  /** The loops a turn counts. */
  ghost predicate LoopsCounted(p: Position, q: Position) {
    && q.revisions == p.revisions + (if p.state == AwaitingPlanReview && q.state == Planning then 1 else 0)
    && q.rework == p.rework + (if p.state == AwaitingVerification && q.state == Implementing then 1 else 0)
    && q.saved == p.saved
  }

  lemma TurnMeans(p: Position, role: Role, positive: bool, g: Gates, hasVerifier: bool)
    ensures ExpectedRole(p.state, hasVerifier) == Some(role) <==> Serves(role, p.state, hasVerifier)
    ensures Serves(role, p.state, hasVerifier) ==> !Terminal(p.state) && forall q: Position ::
      q.state == TurnResult(p, positive, g) && LoopsCounted(p, q) ==> TurnDone(p, positive, g, q)
  {
  }

  class Coordinator {
    const gates: Gates
    const hasVerifier: bool
    var state: RunState
    var revisions: nat
    var rework: nat
    var saved: Option<RunState>
    var pending: seq<RunState>
    var keys: set<string>
    ghost var log: seq<Move>
    ghost var here: Position

    /** The row is where the moves made so far lead. */
    ghost predicate Valid()
      reads this
    {
      Play(log, gates) == Some(here) && here == Position(state, revisions, rework, here.turns, saved, pending)
    }

    constructor (gates: Gates, hasVerifier: bool)
      ensures Valid() && this.gates == gates && this.hasVerifier == hasVerifier
      ensures here == START && keys == {} && log == []
    {
      this.gates, this.hasVerifier := gates, hasVerifier;
      state, revisions, rework, saved, pending := Created, 0, 0, None, [];
      keys, log, here := {}, [], START;
    }

    /** The store's transition, and what the store writes with it. */
    method Transition(next: RunState, cause: Cause)
      requires Valid() && LegalMove(here, Move(state, next, cause), gates) && Witnessed(log, Move(state, next, cause))
      modifies this`state, this`revisions, this`rework, this`saved, this`pending, this`log, this`here
      ensures Valid() && here == Moved(old(here), Move(old(state), next, cause))
      ensures log == old(log) + [Move(old(state), next, cause)]
    {
      Extend(log, here, Move(state, next, cause), gates);
      Put(Move(state, next, cause));
    }

    /** Write the row. */
    method Put(m: Move)
      requires Play(log + [m], gates) == Some(Moved(here, m))
      requires here == Position(state, revisions, rework, here.turns, saved, pending)
      modifies this`state, this`revisions, this`rework, this`saved, this`pending, this`log, this`here
      ensures Valid() && here == Moved(old(here), m) && log == old(log) + [m]
    {
      state, revisions, rework := m.to, RevisionsAfter(revisions, m), ReworkAfter(rework, m);
      saved, pending := SavedAfter(saved, m), PendingAfter(pending, m);
      log, here := log + [m], Moved(here, m);
    }

    /** `move`: a transition that the table allows. */
    method MoveTo(next: RunState, cause: Cause) returns (r: Outcome<CoordinatorError>)
      requires Valid() && !cause.RecoveryBlock?
      requires Allows(state, next) ==> LegalMove(here, Move(state, next, cause), gates)
      modifies this`state, this`revisions, this`rework, this`saved, this`pending, this`log, this`here
      ensures Valid() && (r.Ok? <==> Allows(old(state), next))
      ensures here == if r.Ok? then Moved(old(here), Move(old(state), next, cause)) else old(here)
      ensures log == old(log) + if r.Ok? then [Move(old(state), next, cause)] else []
    {
      if !Allows(state, next) { return Refused(InvalidTransition); }
      Transition(next, cause);
      return Ok;
    }

    method Start() returns (r: Outcome<CoordinatorError>)
      requires Valid()
      modifies this`state, this`revisions, this`rework, this`saved, this`pending, this`log, this`here
      ensures Valid() && (r.Ok? <==> Allows(old(state), Researching))
      ensures log == old(log) + if r.Ok? then [Move(old(state), Researching, Starting)] else []
    {
      r := MoveTo(Researching, Starting);
    }

    /** `beginPlanning` and `beginImplementation`. */
    method Begin(next: RunState) returns (r: Outcome<CoordinatorError>)
      requires Valid() && (next == Planning || next == Implementing)
      modifies this`state, this`revisions, this`rework, this`saved, this`pending, this`log, this`here
      ensures Valid() && here == Begun(old(here), next) && (r.Ok? <==> Allows(old(state), next))
    {
      r := MoveTo(next, Beginning);
    }

    /** A message moves the run at most once, however often it arrives. */
    method Receive(kind: MessageType, key: string) returns (r: Outcome<CoordinatorError>)
      requires Valid()
      modifies this
      ensures Valid() && keys == old(keys) + {key}
      ensures here == if key in old(keys) then old(here) else Reacted(old(here), kind, gates)
      ensures r.Ok? <==> key in old(keys) || Accepts(old(here), kind, gates)
      ensures key !in old(keys) ==> MessageDone(old(here), kind, gates, r.Ok?, here)
    {
      MessageMeans(here, kind, gates);
      if key in keys { return Ok; }
      keys := keys + {key};
      r := React(kind);
    }

    /** What a message asks for when it arrives for the first time. */
    method React(kind: MessageType) returns (r: Outcome<CoordinatorError>)
      requires Valid()
      modifies this`state, this`revisions, this`rework, this`saved, this`pending, this`log, this`here
      ensures Valid() && here == Reacted(old(here), kind, gates) && (r.Ok? <==> Accepts(old(here), kind, gates))
    {
      var wanted := Wanted(kind, revisions, rework, gates);
      if wanted.None? { return Ok; }
      if Unguarded(kind) {
        Transition(wanted.value, ByMessage(kind));
        return Ok;
      }
      r := MoveTo(wanted.value, ByMessage(kind));
    }

    /** Ends the run, unless it has ended. */
    method Cancel()
      requires Valid()
      modifies this`state, this`revisions, this`rework, this`saved, this`pending, this`log, this`here
      ensures Valid() && here == if Terminal(old(state)) then old(here) else Moved(old(here), Move(old(state), Cancelled, Cancelling))
      ensures Terminal(state)
    {
      if !Terminal(state) {
        Transition(Cancelled, Cancelling);
      }
    }

    /** `fail`: a failure of the runtime ends the run, unless it has ended. */
    method Fail(key: string)
      requires Valid()
      modifies this
      ensures Valid()
      ensures Terminal(old(state)) || key in old(keys) ==> here == old(here)
      ensures !Terminal(old(state)) && key !in old(keys) ==>
        here == Moved(old(here), Move(old(state), Failed, ByMessage(TaskHasFailed))) && state == Failed
    {
      if Terminal(state) { return; }
      var r := Receive(TaskHasFailed, key);
    }

    /** A hold; `keeps` is whether it leaves a state saved earlier. */
    method Hold(next: RunState, keeps: bool)
      requires Valid() && Held(next) && (keeps ==> saved.Some? && next == BudgetExhausted)
      modifies this`state, this`revisions, this`rework, this`saved, this`pending, this`log, this`here
      ensures Valid()
      ensures here == if Terminal(old(state)) || old(state) == Paused || old(state) == next then old(here)
                      else Moved(old(here), Move(old(state), next, Holding(keeps)))
    {
      if !Terminal(state) && state != Paused && state != next {
        Transition(next, Holding(keeps));
      }
    }

    /** The last hold is lifted. */
    method Release()
      requires Valid() && Held(state)
      modifies this`state, this`revisions, this`rework, this`saved, this`pending, this`log, this`here
      ensures Valid() && old(saved).Some? && state == old(saved).value
      ensures here == Moved(old(here), Move(old(state), state, Releasing))
    {
      RunIsAllowed(log, gates);
      Transition(saved.value, Releasing);
    }

    /** `blockForAgentRecovery`, called with the run as the failed dispatch saw it; it asks nothing of the state now. */
    method BlockForAgentRecovery(seen: RunState, known: bool)
      requires Valid() && AgentWorks(seen) && Entered(log, seen)
      modifies this`state, this`revisions, this`rework, this`saved, this`pending, this`log, this`here
      ensures Valid() && here == Moved(old(here), Move(old(state), Blocked, RecoveryBlock(seen, known)))
    {
      Transition(Blocked, RecoveryBlock(seen, known));
    }

    /** The rebuild action of one recovery item. */
    method Rebuild(item: nat) returns (r: Outcome<CoordinatorError>)
      requires Valid()
      modifies this`state, this`revisions, this`rework, this`saved, this`pending, this`log, this`here
      ensures Valid()
      ensures r == if item >= |old(pending)| then Refused(ItemNotPending)
                   else if Terminal(old(state)) then Refused(RunHasEnded)
                   else if Held(old(state)) then Refused(RunIsHeld) else Ok
      ensures here == if r.Ok? then Moved(old(here), Move(old(state), old(pending)[item], Rebuilding(item))) else old(here)
    {
      if item >= |pending| { return Refused(ItemNotPending); }
      if Terminal(state) { return Refused(RunHasEnded); }
      if Held(state) { return Refused(RunIsHeld); }
      Transition(pending[item], Rebuilding(item));
      return Ok;
    }

    // One method for each state in which an agent works.  `Fresh` says that no message of
    // this turn was received before; then the turn makes all its moves.

    ghost predicate Fresh(completion: string)
      reads this
    {
      TurnKeys(completion) !! keys
    }

    /** An approval that nobody has to give. */
    method ApproveByItself(key: string) returns (r: Outcome<CoordinatorError>)
      requires Valid() && (state == Planning || state == AwaitingPlanReview)
      modifies this
      ensures Valid() && TurnCounts(old(here), here)
      ensures key !in old(keys) && old(here).state == AwaitingPlanReview ==>
        r.Ok? && here == old(here).(state := Implementing, turns := old(here).turns + 1)
    {
      ApprovalEffect(here, gates);
      r := Receive(ReviewApproved, key);
      if r.Ok? {
        r := Begin(Implementing);
      }
    }

    method PlanTurn(completion: string) returns (r: Outcome<CoordinatorError>)
      requires Valid() && state == Planning
      modifies this
      ensures Valid() && TurnCounts(old(here), here)
      ensures old(Fresh(completion)) ==> r.Ok? && state == TurnResult(old(here), true, gates) && LoopsCounted(old(here), here)
    {
      PlanEffect(here, gates);
      var own, auto := "plan-" + completion, "auto-plan-approval-" + completion;
      assert |own| != |auto|;
      r := Receive(PlanSubmitted, own);
      if r.Ok? && !gates.planNeedsApproval {
        r := ApproveByItself(auto);
      }
    }

    method ReviewTurn(approved: bool, completion: string) returns (r: Outcome<CoordinatorError>)
      requires Valid() && state == AwaitingPlanReview
      modifies this
      ensures Valid() && TurnCounts(old(here), here)
      ensures old(Fresh(completion)) ==> r.Ok? && state == TurnResult(old(here), approved, gates) && LoopsCounted(old(here), here)
    {
      ReviewEffect(here, approved, gates);
      r := Receive(if approved then ReviewApproved else RevisionAsked, "plan-review-" + completion);
      if r.Ok? && state == PlanApproved {
        r := Begin(Implementing);
      } else if r.Ok? && state == RevisionRequested {
        r := Begin(Planning);
      }
    }

    method ImplementationTurn(completion: string) returns (r: Outcome<CoordinatorError>)
      requires Valid() && state == Implementing
      modifies this
      ensures Valid() && TurnCounts(old(here), here)
      ensures old(Fresh(completion)) ==> r.Ok? && state == TurnResult(old(here), true, gates) && LoopsCounted(old(here), here)
    {
      ImplementationEffect(here, gates);
      PassingEffect(here, gates);
      var own, auto := "implementation-" + completion, "auto-verification-" + completion;
      assert |own| != |auto|;
      r := Receive(ImplementationDone, own);
      if r.Ok? && !gates.implementationNeedsVerification {
        r := Receive(VerificationPassed, auto);
      }
    }

    method VerificationTurn(passed: bool, completion: string) returns (r: Outcome<CoordinatorError>)
      requires Valid() && state == AwaitingVerification
      modifies this
      ensures Valid() && TurnCounts(old(here), here)
      ensures old(Fresh(completion)) ==> r.Ok? && state == TurnResult(old(here), passed, gates) && LoopsCounted(old(here), here)
    {
      VerificationEffect(here, passed, gates);
      r := Receive(if passed then VerificationPassed else VerificationFailed, "verification-" + completion);
      if r.Ok? && state == ReworkRequested {
        r := Begin(Implementing);
      }
    }

    /** `handleTurnCompleted`: the result of an agent turn, if that agent is the one whose turn it is. */
    method HandleTurnCompleted(role: Role, positive: bool, completion: string) returns (r: Outcome<CoordinatorError>)
      requires Valid()
      modifies this
      ensures Valid() && TurnCounts(old(here), here)
      ensures ExpectedRole(old(state), hasVerifier) != Some(role) ==> r.Ok? && here == old(here)
      ensures ExpectedRole(old(state), hasVerifier) == Some(role) && old(Fresh(completion)) ==>
        r.Ok? && state == TurnResult(old(here), positive, gates)
      ensures !Serves(role, old(state), hasVerifier) ==> r.Ok? && here == old(here) && keys == old(keys)
      ensures Serves(role, old(state), hasVerifier) && old(Fresh(completion)) ==> r.Ok? && TurnDone(old(here), positive, gates, here)
    {
      TurnMeans(here, role, positive, gates, hasVerifier);
      if Terminal(state) || ExpectedRole(state, hasVerifier) != Some(role) { return Ok; }
      if state == Researching {
        r := Receive(TaskProgress, "research-" + completion);
        r := Begin(Planning);
      } else if state == Planning {
        r := PlanTurn(completion);
      } else if state == AwaitingPlanReview {
        r := ReviewTurn(positive, completion);
      } else if state == Implementing {
        r := ImplementationTurn(completion);
      } else {
        r := VerificationTurn(positive, completion);
      }
    }
  }
}
