/**
 * The receiving side of remote dispatch: which dispatches pass the gate, what pauses
 * and cancellations are remembered, and which prompts reach an agent.  Messages may
 * be lost, repeated and reordered; every handler takes any message in any state.
 */
module Fencing {
  import opened Wrappers

  datatype Identity = Identity(run: string, task: string, role: string, source: string, target: string)

  datatype FencingMode = Legacy | Strict

  datatype Status = Pending | Starting | Running | Paused | BudgetExhausted | Cancelled

  datatype Assignment = Assignment(who: Identity, attempt: nat, fence: nat, lastDelivery: string,
                                   mode: FencingMode, status: Status, session: string)

  datatype Cancellation = Cancellation(run: string, task: string, role: string, attempt: nat, fence: nat)

  /** `complete` says that the fields not modelled here are present and valid. */
  datatype Dispatch = Dispatch(id: string, who: Identity, attempt: Option<int>, fence: Option<int>,
                               deliveryId: string, complete: bool)

  /** A pause or cancel frame. */
  datatype Stop = Stop(id: string, who: Identity, attempt: Option<int>, fence: Option<int>, sessionId: string)

  /** A dispatch frame: what the dispatch asks for, with the protocol version and the prompt around it. */
  datatype Frame = Frame(protocol: string, prompt: string, dispatch: Dispatch)

  datatype Rejection =
    | UnsupportedProtocol | InvalidSource | PromptRequired
    | InvalidAssignment | IdentityConflict | FencingConflict

  datatype Verdict = Accept(row: Assignment) | Duplicate | Stale | Blocked | Foreign | Throw(why: Rejection)

  function AtLeast(n: Option<int>, low: nat): (r: nat)
    ensures r >= low && (n.Some? && n.value >= low ==> r == n.value)
  {
    if n.None? || n.value < low then low else n.value
  }

  predicate Fenced(d: Dispatch) {
    d.attempt.Some? && d.fence.Some?
  }

  predicate WellFormed(d: Dispatch) {
    d.id != "" && d.who.run != "" && d.who.task != "" && d.who.role != ""
    && d.who.source != "" && d.who.target != "" && d.deliveryId != "" && d.complete
  }

  /** `isRemoteAssignmentCancelled`. */
  predicate IsCancelled(c: Option<Cancellation>, run: string, role: string, attempt: nat, fence: nat) {
    c.Some? && c.value.run == run && c.value.role == role
    && (c.value.fence > fence || (c.value.fence == fence && c.value.attempt >= attempt))
  }

  /** The row a dispatch writes over the current one. */
  function WrittenRow(current: Option<Assignment>, d: Dispatch): Assignment {
    Assignment(d.who,
               if Fenced(d) then AtLeast(d.attempt, 1) else (if current.Some? then current.value.attempt else 0) + 1,
               if Fenced(d) then AtLeast(d.fence, 1) else (if current.Some? then current.value.fence else 0) + 1,
               d.deliveryId, if Fenced(d) then Strict else Legacy, Pending,
               if current.Some? then current.value.session else "")
  }

  /**
   * The row an accepted dispatch leaves: waiting, with its owner and delivery, in the
   * session the assignment had; at the dispatch's numbers if it names both, else at the
   * ones after those of the row.
   */
  ghost predicate RowFor(current: Option<Assignment>, d: Dispatch, row: Assignment) {
    && row.who == d.who && row.lastDelivery == d.deliveryId && row.status == Pending
    && row.session == (if current.Some? then current.value.session else "")
    && if d.attempt.Some? && d.fence.Some? then
         && row.mode == Strict
         && row.attempt == (if d.attempt.value >= 1 then d.attempt.value else 1)
         && row.fence == (if d.fence.value >= 1 then d.fence.value else 1)
       else
         && row.mode == Legacy
         && row.attempt == 1 + (if current.Some? then current.value.attempt else 0)
         && row.fence == 1 + (if current.Some? then current.value.fence else 0)
  }

  /** `upsertRemoteAssignment`. */
  function Judge(current: Option<Assignment>, d: Dispatch): Verdict {
    if current.Some? && current.value.lastDelivery == d.deliveryId && d.deliveryId != "" then Duplicate
    else if !WellFormed(d) then Throw(InvalidAssignment)
    else if current.Some? && current.value.who != d.who then Throw(IdentityConflict)
    else if current.Some? && current.value.mode == Strict && !Fenced(d) then Stale
    else if current.Some? && current.value.mode == Strict && AtLeast(d.fence, 1) < current.value.fence then Stale
    else if current.Some? && current.value.mode == Strict && AtLeast(d.fence, 1) == current.value.fence
    then Throw(FencingConflict)
    else Accept(WrittenRow(current, d))
  }

  function Row<V>(table: map<string, V>, id: string): Option<V> {
    if id in table then Some(table[id]) else None
  }

  /** `isForeignRelayFrame`: the frame names another device. */
  predicate IsForeign(target: string, deviceId: string) {
    target != "" && target != deviceId
  }

  /** The checks before the gate; None lets the frame through to it. */
  function Screen(f: Frame, deviceId: string): Option<Verdict> {
    if f.protocol != "1" then Some(Throw(UnsupportedProtocol))
    else if IsForeign(f.dispatch.who.target, deviceId) then Some(Foreign)
    else if f.dispatch.who.source == deviceId then Some(Throw(InvalidSource))
    else if f.prompt == "" then Some(Throw(PromptRequired))
    else None
  }

  /** The gate of `receiveRemoteDispatch` on the two tables. */
  function Gate(assignments: map<string, Assignment>, cancellations: map<string, Cancellation>, d: Dispatch): Verdict {
    if IsCancelled(Row(cancellations, d.id), d.who.run, d.who.role, AtLeast(d.attempt, 0), AtLeast(d.fence, 0)) then Blocked
    else Judge(Row(assignments, d.id), d)
  }

  /** The dispatch reaches the gate: right protocol, for this device, from another one, and with something to do. */
  ghost predicate Arrives(f: Frame, deviceId: string) {
    f.protocol == "1" && f.prompt != "" && f.dispatch.who.target in {"", deviceId} && f.dispatch.who.source != deviceId
  }

  /** A stop of the same run and role was noted that covers the dispatch; a missing number counts as zero. */
  ghost predicate StoppedBefore(cancellations: map<string, Cancellation>, d: Dispatch) {
    && d.id in cancellations
    && var c := cancellations[d.id];
       var attempt := if d.attempt.Some? && d.attempt.value > 0 then d.attempt.value else 0;
       var fence := if d.fence.Some? && d.fence.value > 0 then d.fence.value else 0;
       && (c.run, c.role) == (d.who.run, d.who.role)
       && (c.fence > fence || (c.fence == fence && c.attempt >= attempt))
  }

  /** The fence a strict row asks of the next dispatch; a number below one counts as one. */
  ghost predicate Exceeds(d: Dispatch, fence: nat) {
    d.attempt.Some? && d.fence.Some? && (d.fence.value > fence || (d.fence.value < 1 && fence == 0))
  }

  /** The dispatch has both numbers and does not fall behind the row. */
  ghost predicate Reaches(d: Dispatch, fence: nat) {
    d.attempt.Some? && d.fence.Some? && (d.fence.value >= fence || fence <= 1)
  }

  /**
   * What each verdict means.  A dispatch is accepted exactly when it arrives whole and
   * unstopped, is no repetition, keeps the owner of its row, and, once that has seen
   * both numbers, comes with a higher fence.
   */
  ghost predicate VerdictMeans(assignments: map<string, Assignment>, cancellations: map<string, Cancellation>,
                               f: Frame, deviceId: string, v: Verdict)
  {
    var d := f.dispatch;
    var unstopped := Arrives(f, deviceId) && !StoppedBefore(cancellations, d);
    && (v.Accept? <==>
          && unstopped && d.complete
          && "" !in {d.id, d.who.run, d.who.task, d.who.role, d.who.source, d.who.target, d.deliveryId}
          && (d.id in assignments ==>
                && assignments[d.id].lastDelivery != d.deliveryId && assignments[d.id].who == d.who
                && (assignments[d.id].mode == Strict ==> Exceeds(d, assignments[d.id].fence))))
    && (v.Accept? ==> RowFor(Row(assignments, d.id), d, v.row))
    && (v == Blocked <==> Arrives(f, deviceId) && StoppedBefore(cancellations, d))
    && (v == Duplicate <==>
          unstopped && d.deliveryId != "" && d.id in assignments && assignments[d.id].lastDelivery == d.deliveryId)
    && (v == Foreign ==> d.who.target !in {"", deviceId})
    && (v == Stale ==> d.id in assignments && assignments[d.id].mode == Strict && !Reaches(d, assignments[d.id].fence))
    && (v.Throw? ==> match v.why
          case UnsupportedProtocol => f.protocol != "1"
          case InvalidSource => d.who.source == deviceId
          case PromptRequired => f.prompt == ""
          case InvalidAssignment =>
            !d.complete || "" in {d.id, d.who.run, d.who.task, d.who.role, d.who.source, d.who.target, d.deliveryId}
          case IdentityConflict => d.id in assignments && assignments[d.id].who != d.who
          case FencingConflict =>
            d.id in assignments && Reaches(d, assignments[d.id].fence) && !Exceeds(d, assignments[d.id].fence))
  }

  lemma GateMeans(assignments: map<string, Assignment>, cancellations: map<string, Cancellation>, f: Frame, deviceId: string)
    ensures VerdictMeans(assignments, cancellations, f, deviceId,
      if Screen(f, deviceId).Some? then Screen(f, deviceId).value else Gate(assignments, cancellations, f.dispatch))
  {
    var d := f.dispatch;
    assert WellFormed(d) <==>
      d.complete && "" !in {d.id, d.who.run, d.who.task, d.who.role, d.who.source, d.who.target, d.deliveryId};
    assert d.id in cancellations ==> (StoppedBefore(cancellations, d) <==>
      IsCancelled(Row(cancellations, d.id), d.who.run, d.who.role, AtLeast(d.attempt, 0), AtLeast(d.fence, 0)));
  }

  // ---- Cancellation records ----

  predicate StopIdentified(s: Stop) {
    s.id != "" && s.who.run != "" && s.who.task != "" && s.who.role != ""
  }

  predicate StopConflicts(c: Option<Cancellation>, s: Stop) {
    c.Some? && (c.value.run != s.who.run || c.value.task != s.who.task || c.value.role != s.who.role)
  }

  /** What a stop asks to be noted; a number that is missing or negative counts as zero. */
  function Asked(s: Stop): (c: Cancellation)
    ensures (c.run, c.task, c.role) == (s.who.run, s.who.task, s.who.role)
    ensures c.attempt == if s.attempt.Some? && s.attempt.value > 0 then s.attempt.value else 0
    ensures c.fence == if s.fence.Some? && s.fence.value > 0 then s.fence.value else 0
  {
    Cancellation(s.who.run, s.who.task, s.who.role, AtLeast(s.attempt, 0), AtLeast(s.fence, 0))
  }

  /** The upsert of `recordRemoteCancellation`. */
  function Merge(kept: Option<Cancellation>, asked: Cancellation): Cancellation {
    if kept.None? then asked
    else kept.value.(attempt := if asked.fence >= kept.value.fence then asked.attempt else kept.value.attempt,
                     fence := if asked.fence > kept.value.fence then asked.fence else kept.value.fence)
  }

  predicate SameTarget(a: Cancellation, b: Cancellation) {
    a.run == b.run && a.task == b.task && a.role == b.role
  }

  /** Stamped by a lease: attempt and fence are issued together. */
  predicate Lockstep(c: Cancellation) {
    c.attempt == c.fence
  }

  lemma MergeCommutes(a: Cancellation, b: Cancellation)
    requires SameTarget(a, b)
    ensures Merge(Some(a), b) == Merge(Some(b), a) <==> (a.fence != b.fence || a.attempt == b.attempt)
  {
  }

  /** Two stops at one fence with different attempts: the dispatch between them is blocked or not by their order. */
  lemma SameFenceDependsOnOrder()
    ensures var a, b := Cancellation("r", "t", "a", 1, 3), Cancellation("r", "t", "a", 2, 3);
      && IsCancelled(Some(Merge(Some(a), b)), "r", "a", 2, 3)
      && !IsCancelled(Some(Merge(Some(b), a)), "r", "a", 2, 3)
  {
  }

  /** The record after a series of stops, in arrival order. */
  function MergeAll(asked: seq<Cancellation>): Option<Cancellation> {
    if asked == [] then None
    else Some(Merge(MergeAll(asked[..|asked| - 1]), asked[|asked| - 1]))
  }

  /** Stops for one assignment, all stamped by leases. */
  ghost predicate Leased(asked: seq<Cancellation>, run: string, task: string, role: string) {
    forall c :: c in asked ==> c.run == run && c.task == task && c.role == role && Lockstep(c)
  }

  ghost predicate OneTarget(asked: seq<Cancellation>) {
    forall i, j :: 0 <= i < |asked| && 0 <= j < |asked| ==> SameTarget(asked[i], asked[j])
  }

  /** Stop k has the highest fence, and no later stop has it too. */
  ghost predicate LatestHighest(asked: seq<Cancellation>, k: nat) {
    k < |asked| && forall i :: 0 <= i < |asked| ==>
      asked[i].fence <= asked[k].fence && (i > k ==> asked[i].fence < asked[k].fence)
  }

  /** The record of any series of stops for one assignment is the latest one at the highest fence. */
  lemma {:induction false} RecordIsLatestHighest(asked: seq<Cancellation>) returns (k: nat)
    requires asked != [] && OneTarget(asked)
    ensures LatestHighest(asked, k) && MergeAll(asked) == Some(asked[k])
  {
    var n := |asked| - 1;
    k := n;
    if n > 0 {
      var before := RecordIsLatestHighest(asked[..n]);
      if asked[n].fence < asked[before].fence {
        k := before;
      }
    }
  }

  ghost predicate Highest(asked: seq<Cancellation>, c: Cancellation) {
    c in asked && forall e :: e in asked ==> e.fence <= c.fence
  }

  /** All stops at the highest fence carry one attempt. */
  ghost predicate HighestAgree(asked: seq<Cancellation>) {
    forall c, d :: Highest(asked, c) && Highest(asked, d) ==> c.attempt == d.attempt
  }

  /** The same stops, in another order or repeated. */
  ghost predicate SameStops(a: seq<Cancellation>, b: seq<Cancellation>) {
    forall c :: c in a <==> c in b
  }

  lemma MembersShareTarget(a: seq<Cancellation>, b: seq<Cancellation>)
    requires OneTarget(a) && SameStops(a, b)
    ensures OneTarget(b) && forall c, d :: c in a && d in b ==> SameTarget(c, d)
  {
    forall c, d | c in a && d in a ensures SameTarget(c, d) {
      var i :| 0 <= i < |a| && a[i] == c;
      var j :| 0 <= j < |a| && a[j] == d;
    }
    assert forall i :: 0 <= i < |b| ==> b[i] in a;
  }

  lemma AgreeingConverge(a: seq<Cancellation>, b: seq<Cancellation>)
    requires OneTarget(a) && HighestAgree(a) && SameStops(a, b)
    ensures MergeAll(a) == MergeAll(b)
  {
    assert (a != [] ==> a[0] in a) && (b != [] ==> b[0] in b);
    if a != [] && b != [] {
      MembersShareTarget(a, b);
      var k := RecordIsLatestHighest(a);
      var l := RecordIsLatestHighest(b);
      LatestIsHighest(a, k);
      LatestIsHighest(b, l);
      assert Highest(a, b[l]);
    }
  }

  lemma LatestIsHighest(asked: seq<Cancellation>, k: nat)
    requires LatestHighest(asked, k)
    ensures Highest(asked, asked[k])
  {
  }

  /** A stop at the highest fence that is repeated last becomes the record. */
  lemma RepeatedStopWins(asked: seq<Cancellation>, c: Cancellation)
    requires OneTarget(asked) && Highest(asked, c)
    ensures MergeAll(asked + [c]) == Some(c) && SameStops(asked + [c], asked)
  {
    assert (asked + [c])[..|asked|] == asked;
    var k := RecordIsLatestHighest(asked);
    var i :| 0 <= i < |asked| && asked[i] == c;
    assert SameTarget(asked[k], asked[i]);
    LatestIsHighest(asked, k);
  }

  /** Whatever the delivery, the record is the same. */
  ghost predicate Converges(asked: seq<Cancellation>) {
    forall other :: SameStops(other, asked) ==> MergeAll(other) == MergeAll(asked)
  }

  /**
   * Every delivery of the same stops, in any order and with any repetition, leaves the
   * same record exactly when the stops at the highest fence carry one attempt.
   */
  lemma DeliveriesConvergeExactlyWhen(asked: seq<Cancellation>)
    requires OneTarget(asked)
    ensures Converges(asked) <==> HighestAgree(asked)
  {
    if HighestAgree(asked) {
      forall other | SameStops(other, asked) ensures MergeAll(other) == MergeAll(asked) {
        AgreeingConverge(asked, other);
      }
    }
    if Converges(asked) {
      forall c, d | Highest(asked, c) && Highest(asked, d) ensures c.attempt == d.attempt {
        RepeatedStopWins(asked, c);
        RepeatedStopWins(asked, d);
      }
    }
  }

  /** So any two deliveries of the same lease-stamped stops leave the same record. */
  lemma CancellationsConverge(a: seq<Cancellation>, b: seq<Cancellation>, run: string, task: string, role: string)
    requires forall c :: c in a <==> c in b
    requires Leased(a, run, task, role)
    ensures MergeAll(a) == MergeAll(b)
  {
    assert forall i :: 0 <= i < |a| ==> a[i] in a;
    AgreeingConverge(a, b);
  }

  // ---- What the device has seen, and what its tables say about it ----

  datatype Event =
    | Took(id: string, who: Identity, attempt: nat, fence: nat, strict: bool)
    | Noted(id: string, asked: Cancellation)

  predicate TookAt(log: seq<Event>, i: nat, id: string)
    requires i < |log|
  {
    log[i].Took? && log[i].id == id
  }

  predicate NotedAt(log: seq<Event>, i: nat, id: string)
    requires i < |log|
  {
    log[i].Noted? && log[i].id == id
  }

  /** The event that writes this row. */
  function TookRow(id: string, row: Assignment): Event {
    Took(id, row.who, row.attempt, row.fence, row.mode == Strict)
  }

  /** A noted stop with the numbers of this record. */
  ghost predicate NotedNumbers(log: seq<Event>, id: string, c: Cancellation) {
    exists e :: e in log && e.Noted? && e.id == id && e.asked.fence == c.fence && e.asked.attempt == c.attempt
  }

  /** The assignment table is the latest accepted dispatch of each assignment. */
  ghost predicate RowsExplained(log: seq<Event>, assignments: map<string, Assignment>) {
    && (forall id :: id in assignments ==> TookRow(id, assignments[id]) in log)
    && (forall e :: e in log && e.Took? ==>
          && e.id in assignments && assignments[e.id].who == e.who
          && (e.strict ==> assignments[e.id].mode == Strict && e.fence <= assignments[e.id].fence))
  }

  /** The latest dispatch that was accepted for this assignment. */
  function LatestTook(log: seq<Event>, id: string): Option<Event> {
    if log == [] then None
    else if TookAt(log, |log| - 1, id) then Some(log[|log| - 1])
    else LatestTook(log[..|log| - 1], id)
  }

  ghost predicate RowsAreLatest(log: seq<Event>, assignments: map<string, Assignment>) {
    forall id: string ::
      LatestTook(log, id) == if id in assignments then Some(TookRow(id, assignments[id])) else None
  }

  lemma LatestAfter(log: seq<Event>, e: Event, id: string)
    ensures LatestTook(log + [e], id) == if e.Took? && e.id == id then Some(e) else LatestTook(log, id)
  {
    assert (log + [e])[..|log|] == log;
  }

  /** The cancellation table keeps the highest fence ever noted for each assignment. */
  ghost predicate StopsExplained(log: seq<Event>, cancellations: map<string, Cancellation>) {
    && (forall id :: id in cancellations ==> NotedNumbers(log, id, cancellations[id]))
    && (forall e :: e in log && e.Noted? ==>
          && e.id in cancellations && SameTarget(e.asked, cancellations[e.id])
          && e.asked.fence <= cancellations[e.id].fence)
  }

  /** Once an assignment is strict it stays strict, and its fences strictly increase. */
  ghost predicate FencesIncrease(log: seq<Event>) {
    forall i, j :: 0 <= i < j < |log| && log[i].Took? && log[j].Took? && log[i].id == log[j].id && log[i].strict ==>
      log[j].strict && log[i].fence < log[j].fence
  }

  ghost predicate Explained(log: seq<Event>, assignments: map<string, Assignment>, cancellations: map<string, Cancellation>) {
    && RowsExplained(log, assignments) && RowsAreLatest(log, assignments)
    && StopsExplained(log, cancellations) && FencesIncrease(log)
  }

  lemma LongerLog(log: seq<Event>, e: Event)
    ensures forall k :: k in log + [e] <==> k in log || k == e
    ensures forall id, c :: NotedNumbers(log, id, c) ==> NotedNumbers(log + [e], id, c)
  {
    forall id, c | NotedNumbers(log, id, c) ensures NotedNumbers(log + [e], id, c) {
      var k :| k in log && k.Noted? && k.id == id && k.asked.fence == c.fence && k.asked.attempt == c.attempt;
      assert k in log + [e];
    }
  }

  lemma TakingExplained(log: seq<Event>, assignments: map<string, Assignment>, d: Dispatch)
    requires RowsExplained(log, assignments) && FencesIncrease(log)
    requires Judge(Row(assignments, d.id), d).Accept?
    ensures var row := WrittenRow(Row(assignments, d.id), d);
      RowsExplained(log + [TookRow(d.id, row)], assignments[d.id := row]) && FencesIncrease(log + [TookRow(d.id, row)])
  {
    var row := WrittenRow(Row(assignments, d.id), d);
    LongerLog(log, TookRow(d.id, row));
    assert forall i :: 0 <= i < |log| ==> log[i] in log;
  }

  lemma TakingIsLatest(log: seq<Event>, assignments: map<string, Assignment>, id: string, row: Assignment)
    requires RowsAreLatest(log, assignments)
    ensures RowsAreLatest(log + [TookRow(id, row)], assignments[id := row])
  {
    forall other: string ensures LatestTook(log + [TookRow(id, row)], other) ==
      if other == id then Some(TookRow(id, row)) else LatestTook(log, other)
    {
      LatestAfter(log, TookRow(id, row), other);
    }
  }

  lemma NotingExplained(log: seq<Event>, cancellations: map<string, Cancellation>, s: Stop)
    requires StopsExplained(log, cancellations) && !StopConflicts(Row(cancellations, s.id), s)
    ensures StopsExplained(log + [Noted(s.id, Asked(s))], cancellations[s.id := Merge(Row(cancellations, s.id), Asked(s))])
  {
    var e := Noted(s.id, Asked(s));
    LongerLog(log, e);
    var merged := Merge(Row(cancellations, s.id), Asked(s));
    if s.id !in cancellations || Asked(s).fence >= cancellations[s.id].fence {
      assert e in log + [e] && e.asked.fence == merged.fence && e.asked.attempt == merged.attempt;
      assert NotedNumbers(log + [e], s.id, merged);
    } else {
      assert merged == cancellations[s.id];
    }
  }

  /** An event of one kind says nothing about the other table. */
  lemma NotingKeepsRows(log: seq<Event>, e: Event, assignments: map<string, Assignment>)
    requires e.Noted? && RowsExplained(log, assignments) && FencesIncrease(log)
    ensures RowsExplained(log + [e], assignments) && FencesIncrease(log + [e])
  {
    LongerLog(log, e);
  }

  lemma NotingKeepsLatest(log: seq<Event>, e: Event, assignments: map<string, Assignment>)
    requires e.Noted? && RowsAreLatest(log, assignments)
    ensures RowsAreLatest(log + [e], assignments)
  {
    forall id: string ensures LatestTook(log + [e], id) == LatestTook(log, id) {
      LatestAfter(log, e, id);
    }
  }

  lemma TakingKeepsStops(log: seq<Event>, e: Event, cancellations: map<string, Cancellation>)
    requires e.Took? && StopsExplained(log, cancellations)
    ensures StopsExplained(log + [e], cancellations)
  {
    LongerLog(log, e);
  }

  lemma TakingKeepsAll(log: seq<Event>, assignments: map<string, Assignment>, cancellations: map<string, Cancellation>,
                       d: Dispatch, row: Assignment)
    requires Explained(log, assignments, cancellations) && Judge(Row(assignments, d.id), d) == Accept(row)
    ensures Explained(log + [TookRow(d.id, row)], assignments[d.id := row], cancellations)
  {
    TakingExplained(log, assignments, d);
    TakingIsLatest(log, assignments, d.id, row);
    TakingKeepsStops(log, TookRow(d.id, row), cancellations);
  }

  lemma StatusIsNotExplained(log: seq<Event>, assignments: map<string, Assignment>, id: string, row: Assignment)
    requires RowsExplained(log, assignments) && RowsAreLatest(log, assignments)
    requires id in assignments && TookRow(id, row) == TookRow(id, assignments[id])
    ensures RowsExplained(log, assignments[id := row]) && RowsAreLatest(log, assignments[id := row])
  {
  }

  // ---- The gate ----

  /** Every stop in the log was stamped by a lease. */
  ghost predicate LockstepLog(log: seq<Event>) {
    forall i :: 0 <= i < |log| && log[i].Noted? ==> Lockstep(log[i].asked)
  }

  /** A first delivery of a lease-stamped dispatch whose identity fits what the device knows. */
  ghost predicate Admissible(log: seq<Event>, assignments: map<string, Assignment>, d: Dispatch) {
    && WellFormed(d) && Fenced(d) && d.fence.value >= 1 && d.attempt == d.fence
    && (d.id in assignments ==> assignments[d.id].who == d.who && assignments[d.id].lastDelivery != d.deliveryId)
    && (forall i :: 0 <= i < |log| && NotedAt(log, i, d.id) ==>
          log[i].asked.run == d.who.run && log[i].asked.role == d.who.role)
  }

  /** The highest fence is a fence: "above the stored one" and "above every noted one" are the same. */
  lemma AboveEveryStop(log: seq<Event>, cancellations: map<string, Cancellation>, id: string, fence: nat)
    requires StopsExplained(log, cancellations)
    ensures (id in cancellations ==> cancellations[id].fence < fence) <==>
      (forall i :: 0 <= i < |log| && NotedAt(log, i, id) ==> log[i].asked.fence < fence)
  {
    if id in cancellations && cancellations[id].fence >= fence {
      var c := cancellations[id];
      assert NotedNumbers(log, id, c);
      var e :| e in log && e.Noted? && e.id == id && e.asked.fence == c.fence && e.asked.attempt == c.attempt;
      var i :| 0 <= i < |log| && log[i] == e;
      assert NotedAt(log, i, id);
    }
    forall i | 0 <= i < |log| && NotedAt(log, i, id) ensures id in cancellations && log[i].asked.fence <= cancellations[id].fence {
      assert log[i] in log;
    }
  }

  lemma AboveEveryAcceptedFence(log: seq<Event>, assignments: map<string, Assignment>, id: string, fence: nat)
    requires RowsExplained(log, assignments)
    ensures (id in assignments && assignments[id].mode == Strict ==> assignments[id].fence < fence) <==>
      (forall i :: 0 <= i < |log| && TookAt(log, i, id) && log[i].strict ==> log[i].fence < fence)
  {
    if id in assignments && assignments[id].mode == Strict && assignments[id].fence >= fence {
      var i :| 0 <= i < |log| && log[i] == TookRow(id, assignments[id]);
      assert TookAt(log, i, id);
    }
    forall i | 0 <= i < |log| && TookAt(log, i, id) && log[i].strict
      ensures id in assignments && assignments[id].mode == Strict && log[i].fence <= assignments[id].fence
    {
      assert log[i] in log;
    }
  }

  /** With lease stamps a record has attempt and fence equal, and names its run and role. */
  lemma StoredStopIsLeased(log: seq<Event>, cancellations: map<string, Cancellation>, d: Dispatch)
    requires StopsExplained(log, cancellations) && LockstepLog(log) && d.id in cancellations
    requires forall i :: 0 <= i < |log| && NotedAt(log, i, d.id) ==>
      log[i].asked.run == d.who.run && log[i].asked.role == d.who.role
    ensures Lockstep(cancellations[d.id])
    ensures cancellations[d.id].run == d.who.run && cancellations[d.id].role == d.who.role
  {
    var c := cancellations[d.id];
    assert NotedNumbers(log, d.id, c);
    var e :| e in log && e.Noted? && e.id == d.id && e.asked.fence == c.fence && e.asked.attempt == c.attempt;
    var i :| 0 <= i < |log| && log[i] == e;
    assert NotedAt(log, i, d.id);
  }

  /**
   * After any history, a lease-stamped dispatch is accepted exactly when its fence is
   * above every stop noted for its assignment and above every fence already accepted
   * strictly: no matter in which order stops and dispatches arrived.
   */
  lemma GateIsExact(log: seq<Event>, assignments: map<string, Assignment>, cancellations: map<string, Cancellation>, d: Dispatch)
    requires Explained(log, assignments, cancellations) && LockstepLog(log) && Admissible(log, assignments, d)
    ensures Gate(assignments, cancellations, d).Accept? <==>
      && (forall i :: 0 <= i < |log| && NotedAt(log, i, d.id) ==> log[i].asked.fence < d.fence.value)
      && (forall i :: 0 <= i < |log| && TookAt(log, i, d.id) && log[i].strict ==> log[i].fence < d.fence.value)
  {
    AboveEveryStop(log, cancellations, d.id, d.fence.value);
    AboveEveryAcceptedFence(log, assignments, d.id, d.fence.value);
    if d.id in cancellations {
      StoredStopIsLeased(log, cancellations, d);
    }
    GateByTables(assignments, cancellations, d);
  }

  /** The gate on the two stored rows alone. */
  lemma GateByTables(assignments: map<string, Assignment>, cancellations: map<string, Cancellation>, d: Dispatch)
    requires WellFormed(d) && Fenced(d) && d.fence.value >= 1 && d.attempt == d.fence
    requires d.id in assignments ==> assignments[d.id].who == d.who && assignments[d.id].lastDelivery != d.deliveryId
    requires d.id in cancellations ==>
      && Lockstep(cancellations[d.id])
      && cancellations[d.id].run == d.who.run && cancellations[d.id].role == d.who.role
    ensures Gate(assignments, cancellations, d).Accept? <==>
      && (d.id in cancellations ==> cancellations[d.id].fence < d.fence.value)
      && (d.id in assignments && assignments[d.id].mode == Strict ==> assignments[d.id].fence < d.fence.value)
  {
  }

  /** On any history at all, a dispatch strictly below a noted stop of its run and role is blocked. */
  lemma StopBlocksLowerFences(log: seq<Event>, assignments: map<string, Assignment>, cancellations: map<string, Cancellation>,
                              i: nat, d: Dispatch)
    requires Explained(log, assignments, cancellations) && i < |log| && NotedAt(log, i, d.id)
    requires log[i].asked.run == d.who.run && log[i].asked.role == d.who.role
    requires AtLeast(d.fence, 0) < log[i].asked.fence
    ensures Gate(assignments, cancellations, d) == Blocked
  {
    assert log[i] in log;
  }

  // ---- Pauses that overtake their dispatch ----

  predicate SameOwner(a: Assignment, s: Stop) {
    a.who.run == s.who.run && a.who.role == s.who.role && a.who.task == s.who.task && a.who.source == s.who.source
  }

  /** `pick` is the row the session lookup returns: any row with the frame's session id, if there is one. */
  predicate LookupReturns(assignments: map<string, Assignment>, s: Stop, pick: Option<string>) {
    match pick
    case Some(id) => id in assignments && assignments[id].session == s.sessionId
    case None => forall id :: id in assignments ==> assignments[id].session != s.sessionId
  }

  /** The assignment a pause finds: by id, else by session. */
  function PauseTarget(assignments: map<string, Assignment>, s: Stop, pick: Option<string>): Option<string> {
    if s.id in assignments then Some(s.id) else pick
  }

  /** Whether a pause frame is written to the cancellation table. */
  predicate PauseNoted(assignments: map<string, Assignment>, cancellations: map<string, Cancellation>, s: Stop, pick: Option<string>) {
    var found := PauseTarget(assignments, s, pick);
    (found.Some? && found.value in assignments ==> SameOwner(assignments[found.value], s))
    && StopIdentified(s) && !StopConflicts(Row(cancellations, s.id), s)
  }

  /**
   * A pause that arrives before its dispatch carries no session id, and the lookup by
   * an empty session id finds any assignment that has not started yet.  The pause is
   * remembered exactly when there is no such assignment or the one found has the same
   * owner; otherwise it is forgotten and its dispatch will pass.
   */
  lemma OvertakingPauseIsNotedExactlyWhen(assignments: map<string, Assignment>, cancellations: map<string, Cancellation>,
                                          s: Stop, pick: Option<string>)
    requires s.id !in assignments && s.sessionId == "" && LookupReturns(assignments, s, pick)
    requires StopIdentified(s) && !StopConflicts(Row(cancellations, s.id), s)
    ensures PauseNoted(assignments, cancellations, s, pick) <==>
      ((forall id :: id in assignments ==> assignments[id].session != "")
       || (pick.Some? && SameOwner(assignments[pick.value], s)))
  {
  }

  lemma ForgottenPauseLetsDispatchPass()
    ensures var waiting := Assignment(Identity("r1", "t1", "a", "src", "dst"), 1, 1, "d1", Strict, Pending, "");
      var pause := Stop("B", Identity("r2", "t2", "b", "src", "dst"), Some(1), Some(1), "");
      var dispatch := Dispatch("B", Identity("r2", "t2", "b", "src", "dst"), Some(1), Some(1), "d2", true);
      var table := map["A" := waiting];
      && LookupReturns(table, pause, Some("A"))
      && !PauseNoted(table, map[], pause, Some("A"))
      && Gate(table, map[], dispatch).Accept?
  {
  }

  /** The cancellation table after a stop, if it was noted. */
  function NotedStops(cancellations: map<string, Cancellation>, s: Stop, noted: bool): map<string, Cancellation> {
    if noted then cancellations[s.id := Merge(Row(cancellations, s.id), Asked(s))] else cancellations
  }

  // ---- What a stop does to a running assignment ----

  /** The assignment a pause interrupts: only one at exactly the numbers the frame names. */
  function PauseAim(assignments: map<string, Assignment>, s: Stop, pick: Option<string>): Option<string> {
    var found := PauseTarget(assignments, s, pick);
    if found.Some? && found.value in assignments
       && (s.fence.None? || s.fence.value == assignments[found.value].fence)
       && (s.attempt.None? || s.attempt.value == assignments[found.value].attempt)
    then found else None
  }

  /** The assignment a cancel interrupts. */
  function CancelAim(assignments: map<string, Assignment>, s: Stop): Option<string> {
    if s.id in assignments && assignments[s.id].who.run == s.who.run
       && (s.fence.None? || s.fence.value == assignments[s.id].fence)
    then Some(s.id) else None
  }

  function Stopped(assignments: map<string, Assignment>, aim: Option<string>, status: Status): map<string, Assignment> {
    if aim.Some? && aim.value in assignments then assignments[aim.value := assignments[aim.value].(status := status)]
    else assignments
  }

  function Interrupts(assignments: map<string, Assignment>, aim: Option<string>): seq<string> {
    if aim.Some? && aim.value in assignments && assignments[aim.value].session != "" then [assignments[aim.value].session]
    else []
  }

  /**
   * A stop that names a fence leaves every assignment at another fence alone: its row
   * is unchanged, and a session that only such assignments use is not interrupted.
   */
  lemma DelayedStopLeavesOtherFences(assignments: map<string, Assignment>, s: Stop, pick: Option<string>, status: Status,
                                     id: string)
    requires s.fence.Some? && id in assignments && assignments[id].fence != s.fence.value
    requires forall other :: other in assignments && assignments[other].session == assignments[id].session ==>
      assignments[other].fence != s.fence.value
    ensures forall aim :: aim in [PauseAim(assignments, s, pick), CancelAim(assignments, s)] ==>
      && id in Stopped(assignments, aim, status) && Stopped(assignments, aim, status)[id] == assignments[id]
      && assignments[id].session !in Interrupts(assignments, aim)
  {
  }

  /** Each number the frame names is that of the row. */
  predicate NamesRow(s: Stop, row: Assignment) {
    (s.fence.Some? ==> s.fence.value == row.fence) && (s.attempt.Some? ==> s.attempt.value == row.attempt)
  }

  /** The frame comes from where the row's dispatch came from. */
  predicate FromOwner(s: Stop, row: Assignment) {
    row.who == s.who.(target := row.who.target)
  }

  /** One row takes this status and its session, if it has one, is interrupted; nothing else happens. */
  ghost predicate StopsOneRow(before: map<string, Assignment>, id: string, status: Status,
                              after: map<string, Assignment>, cut: seq<string>)
    requires id in before
  {
    && after.Keys == before.Keys && after[id] == before[id].(status := status)
    && (forall other :: other in before && other != id ==> after[other] == before[other])
    && cut == if before[id].session == "" then [] else [before[id].session]
  }

  /** The frame names its run, task and role, and so does the stop recorded for its assignment, if any. */
  predicate Recordable(cancellations: map<string, Cancellation>, s: Stop) {
    && "" !in {s.id, s.who.run, s.who.task, s.who.role}
    && (s.id in cancellations ==>
          (cancellations[s.id].run, cancellations[s.id].task, cancellations[s.id].role) == (s.who.run, s.who.task, s.who.role))
  }

  /**
   * What a pause does: it is noted unless it is meant for another device, incomplete,
   * or not from the owner of the row it finds; and noted, it stops that row exactly
   * when each number it names is the row's.
   */
  ghost predicate PauseDone(before: map<string, Assignment>, cancellations: map<string, Cancellation>, s: Stop,
                            pick: Option<string>, deviceId: string, noted: bool,
                            after: map<string, Assignment>, cut: seq<string>)
  {
    var found := if s.id in before then Some(s.id) else pick;
    && (noted <==>
          && (s.who.target == "" || s.who.target == deviceId) && Recordable(cancellations, s)
          && (found.Some? && found.value in before ==> FromOwner(s, before[found.value])))
    && if noted && found.Some? && found.value in before && NamesRow(s, before[found.value])
       then StopsOneRow(before, found.value, Paused, after, cut)
       else after == before && cut == []
  }

  /** What a cancel does: it is noted whatever the device knows, and stops the row of its assignment and run at its fence. */
  ghost predicate CancelDone(before: map<string, Assignment>, cancellations: map<string, Cancellation>, s: Stop,
                             budget: bool, deviceId: string, noted: bool,
                             after: map<string, Assignment>, cut: seq<string>)
  {
    && (noted <==> (s.who.target == "" || s.who.target == deviceId) && Recordable(cancellations, s))
    && if noted && s.id in before && before[s.id].who.run == s.who.run
          && (s.fence.Some? ==> s.fence.value == before[s.id].fence)
       then StopsOneRow(before, s.id, if budget then BudgetExhausted else Cancelled, after, cut)
       else after == before && cut == []
  }

  lemma PauseMeans(before: map<string, Assignment>, cancellations: map<string, Cancellation>, s: Stop,
                   pick: Option<string>, deviceId: string)
    ensures var noted := !IsForeign(s.who.target, deviceId) && PauseNoted(before, cancellations, s, pick);
      var aim := if noted then PauseAim(before, s, pick) else None;
      PauseDone(before, cancellations, s, pick, deviceId, noted, Stopped(before, aim, Paused), Interrupts(before, aim))
  {
  }

  lemma CancelMeans(before: map<string, Assignment>, cancellations: map<string, Cancellation>, s: Stop,
                    budget: bool, deviceId: string)
    ensures var noted := !IsForeign(s.who.target, deviceId) && StopIdentified(s) && !StopConflicts(Row(cancellations, s.id), s);
      var aim := if noted then CancelAim(before, s) else None;
      CancelDone(before, cancellations, s, budget, deviceId, noted,
                 Stopped(before, aim, if budget then BudgetExhausted else Cancelled), Interrupts(before, aim))
  {
  }

  /** The frame stops the lease that was taken last for its assignment: same owner, same numbers. */
  ghost predicate ForLatestLease(log: seq<Event>, s: Stop) {
    var last := LatestTook(log, s.id);
    last.Some? && last.value.Took? && last.value.who == s.who.(target := last.value.who.target)
    && s.attempt == Some(last.value.attempt) && s.fence == Some(last.value.fence)
  }

  /** A pause of the lease taken last pauses its row, and interrupts its session. */
  lemma PauseOfLatestLeaseStops(log: seq<Event>, before: map<string, Assignment>, cancellations: map<string, Cancellation>,
                                s: Stop, pick: Option<string>, deviceId: string, noted: bool,
                                after: map<string, Assignment>, cut: seq<string>)
    requires RowsAreLatest(log, before) && ForLatestLease(log, s)
    requires PauseDone(before, cancellations, s, pick, deviceId, noted, after, cut)
    requires s.who.target in {"", deviceId} && Recordable(cancellations, s)
    ensures noted && s.id in after && after[s.id].status == Paused
    ensures before[s.id].session != "" ==> before[s.id].session in cut
  {
  }

  /** A cancel of the lease taken last ends its row in the same way. */
  lemma CancelOfLatestLeaseStops(log: seq<Event>, before: map<string, Assignment>, cancellations: map<string, Cancellation>,
                                 s: Stop, budget: bool, deviceId: string, noted: bool,
                                 after: map<string, Assignment>, cut: seq<string>)
    requires RowsAreLatest(log, before) && ForLatestLease(log, s)
    requires CancelDone(before, cancellations, s, budget, deviceId, noted, after, cut)
    requires s.who.target in {"", deviceId} && Recordable(cancellations, s)
    ensures noted && s.id in after && after[s.id].status in {BudgetExhausted, Cancelled}
    ensures before[s.id].session != "" ==> before[s.id].session in cut
  {
  }

  // ---- Prompts that wait for a launch ----

  /** A prompt whose agent is still starting; `snapshot` is the row as it was when the agent had started. */
  datatype Launch = Launch(id: string, fence: nat, attempt: nat, snapshot: Option<Assignment>)

  datatype Delivery = Delivery(id: string, fence: nat)

  /** A stop of the row's run and role was noted at its fence or a higher one; at its fence only for its attempt or a later one. */
  ghost predicate CoveredByStop(cancellations: map<string, Cancellation>, id: string, row: Assignment) {
    && id in cancellations
    && var c := cancellations[id];
       && c.run == row.who.run && c.role == row.who.role
       && c.fence >= row.fence && (c.fence == row.fence ==> c.attempt >= row.attempt)
  }

  /** The last check: the prompt is sent and the row runs, unless a stop covers it; then the row is cancelled and nothing sent. */
  ghost predicate SentOrStopped(before: map<string, Assignment>, cancellations: map<string, Cancellation>, id: string,
                                row: Assignment, fence: nat, delivered: seq<Delivery>,
                                sent: bool, after: map<string, Assignment>, delivered': seq<Delivery>)
  {
    && id in before && (sent <==> !CoveredByStop(cancellations, id, row))
    && after == before[id := before[id].(status := if sent then Running else Cancelled)]
    && delivered' == delivered + if sent then [Delivery(id, fence)] else []
  }

  /** Whether the second check lets a started launch deliver its prompt. */
  predicate LaunchDelivers(cancellations: map<string, Cancellation>, l: Launch) {
    l.snapshot.Some?
    && !IsCancelled(Row(cancellations, l.id), l.snapshot.value.who.run, l.snapshot.value.who.role,
                    l.snapshot.value.attempt, l.snapshot.value.fence)
  }

  /** Whether the prompt itself was stopped. */
  predicate PromptStopped(cancellations: map<string, Cancellation>, l: Launch) {
    l.snapshot.Some?
    && IsCancelled(Row(cancellations, l.id), l.snapshot.value.who.run, l.snapshot.value.who.role, l.attempt, l.fence)
  }

  /**
   * The second check reads the row, not the prompt: with lease stamps a stopped prompt
   * is delivered exactly when a newer dispatch replaced the row during the launch and
   * the stop lies between the two fences.
   */
  lemma StoppedPromptDeliveredExactlyWhen(cancellations: map<string, Cancellation>, l: Launch)
    requires l.snapshot.Some? && l.attempt == l.fence && l.snapshot.value.attempt == l.snapshot.value.fence
    requires l.id in cancellations ==>
      && Lockstep(cancellations[l.id])
      && cancellations[l.id].run == l.snapshot.value.who.run && cancellations[l.id].role == l.snapshot.value.who.role
    ensures LaunchDelivers(cancellations, l) && PromptStopped(cancellations, l) <==>
      l.id in cancellations && l.fence <= cancellations[l.id].fence < l.snapshot.value.fence
  {
  }

  /** Another dispatch wrote the row while the agent was starting. */
  predicate Overtaken(l: Launch) {
    l.snapshot.Some? && (l.snapshot.value.fence != l.fence || l.snapshot.value.attempt != l.attempt)
  }

  /** A launch that no newer dispatch overtook never delivers a stopped prompt. */
  lemma UndisturbedLaunchIsSafe(cancellations: map<string, Cancellation>, l: Launch)
    requires l.snapshot.Some?
    ensures LaunchDelivers(cancellations, l) <==> !CoveredByStop(cancellations, l.id, l.snapshot.value)
    ensures !CoveredByStop(cancellations, l.id, l.snapshot.value) && !Overtaken(l) ==> !PromptStopped(cancellations, l)
  {
  }

  class RemoteDevice {
    const deviceId: string
    var assignments: map<string, Assignment>
    var cancellations: map<string, Cancellation>
    var launches: map<string, Launch>
    var delivered: seq<Delivery>
    var interrupted: seq<string>
    ghost var log: seq<Event>

    ghost predicate Valid()
      reads this
    {
      && Explained(log, assignments, cancellations)
      && (forall s :: s in launches ==> launches[s].id in assignments)
    }

    constructor (deviceId: string)
      ensures Valid() && this.deviceId == deviceId
      ensures assignments == map[] && cancellations == map[] && launches == map[]
      ensures delivered == [] && interrupted == [] && log == []
    {
      this.deviceId := deviceId;
      assignments, cancellations, launches, delivered, interrupted, log := map[], map[], map[], [], [], [];
    }

    /** `recordRemoteCancellation`; false stands for the thrown identity errors. */
    method RecordRemoteCancellation(s: Stop) returns (ok: bool)
      requires Valid()
      modifies this`cancellations, this`log
      ensures Valid()
      ensures ok <==> StopIdentified(s) && !StopConflicts(Row(old(cancellations), s.id), s)
      ensures ok ==> log == old(log) + [Noted(s.id, Asked(s))]
      ensures !ok ==> log == old(log) && cancellations == old(cancellations)
      ensures ok ==> cancellations == old(cancellations)[s.id := Merge(Row(old(cancellations), s.id), Asked(s))]
    {
      if !StopIdentified(s) || StopConflicts(Row(cancellations, s.id), s) { return false; }
      var asked := Asked(s);
      NotingExplained(log, cancellations, s);
      NotingKeepsRows(log, Noted(s.id, asked), assignments);
      NotingKeepsLatest(log, Noted(s.id, asked), assignments);
      var kept := if s.id in cancellations then cancellations[s.id] else asked;
      PutStop(s, kept.(attempt := if asked.fence >= kept.fence then asked.attempt else kept.attempt,
                       fence := if asked.fence > kept.fence then asked.fence else kept.fence));
      return true;
    }

    /** Write one cancellation record. */
    method PutStop(s: Stop, merged: Cancellation)
      requires Explained(log + [Noted(s.id, Asked(s))], assignments, cancellations[s.id := merged])
      requires forall l :: l in launches ==> launches[l].id in assignments
      modifies this`cancellations, this`log
      ensures Valid() && log == old(log) + [Noted(s.id, Asked(s))] && cancellations == old(cancellations)[s.id := merged]
    {
      log, cancellations := log + [Noted(s.id, Asked(s))], cancellations[s.id := merged];
    }

    /** Write an accepted dispatch. */
    method Take(d: Dispatch, row: Assignment)
      requires Valid() && Judge(Row(assignments, d.id), d) == Accept(row)
      modifies this`assignments, this`log
      ensures Valid() && assignments == old(assignments)[d.id := row] && log == old(log) + [TookRow(d.id, row)]
    {
      TakingKeepsAll(log, assignments, cancellations, d, row);
      log := log + [TookRow(d.id, row)];
      assignments := assignments[d.id := row];
    }

    /** Rewrite the parts of a row that dispatches do not write. */
    method Put(id: string, status: Status, session: string)
      requires Valid() && id in assignments
      modifies this`assignments
      ensures Valid()
      ensures assignments == old(assignments)[id := old(assignments)[id].(status := status, session := session)]
    {
      StatusIsNotExplained(log, assignments, id, assignments[id].(status := status, session := session));
      assignments := assignments[id := assignments[id].(status := status, session := session)];
    }

    method PutLaunch(sessionId: string, l: Launch)
      requires Valid() && l.id in assignments
      modifies this`launches
      ensures Valid() && launches == old(launches)[sessionId := l]
    {
      launches := launches[sessionId := l];
    }

    method DropLaunch(sessionId: string)
      requires Valid()
      modifies this`launches
      ensures Valid() && launches == old(launches) - {sessionId}
    {
      launches := launches - {sessionId};
    }

    method Prompt(d: Delivery)
      requires Valid()
      modifies this`delivered
      ensures Valid() && delivered == old(delivered) + [d]
    {
      delivered := delivered + [d];
    }

    /** Send the prompt to the session, unless the row was stopped meanwhile. */
    method DeliverOrStop(id: string, row: Assignment, fence: nat) returns (sent: bool)
      requires Valid() && id in assignments
      modifies this`assignments, this`delivered
      ensures Valid() && SentOrStopped(old(assignments), cancellations, id, row, fence, old(delivered), sent, assignments, delivered)
    {
      sent := !IsCancelled(Row(cancellations, id), row.who.run, row.who.role, row.attempt, row.fence);
      if sent {
        Prompt(Delivery(id, fence));
      }
      Put(id, if sent then Running else Cancelled, assignments[id].session);
    }

    /** After the gate: a running session gets the prompt, otherwise a new one is started. */
    method HandOver(id: string, row: Assignment, running: bool, sessionId: string)
      requires Valid() && id in assignments
      modifies this`assignments, this`launches, this`delivered
      ensures Valid()
      ensures running && row.session != "" ==>
        launches == old(launches)
        && SentOrStopped(old(assignments), cancellations, id, row, row.fence, old(delivered), !CoveredByStop(cancellations, id, row),
                         assignments, delivered)
      ensures !(running && row.session != "") ==>
        launches == old(launches)[sessionId := Launch(id, row.fence, row.attempt, None)]
        && delivered == old(delivered) && assignments == old(assignments)
    {
      if running && row.session != "" {
        var sent := DeliverOrStop(id, row, row.fence);
      } else {
        PutLaunch(sessionId, Launch(id, row.fence, row.attempt, None));
      }
    }

    /**
     * The first half of `receiveRemoteDispatch`: the checks of the frame, the gate, and
     * either the delivery to a running session or the start of a new one under the fresh
     * name `sessionId`.
     */
    method BeginDispatch(f: Frame, running: bool, sessionId: string) returns (v: Verdict)
      requires Valid() && sessionId !in launches
      modifies this`assignments, this`launches, this`delivered, this`log
      ensures Valid()
      ensures v == if Screen(f, deviceId).Some? then Screen(f, deviceId).value else Gate(old(assignments), cancellations, f.dispatch)
      ensures VerdictMeans(old(assignments), cancellations, f, deviceId, v)
      ensures !v.Accept? ==> assignments == old(assignments) && launches == old(launches)
                             && delivered == old(delivered) && log == old(log)
      ensures v.Accept? ==> log == old(log) + [TookRow(f.dispatch.id, v.row)]
      ensures v.Accept? && running && v.row.session != "" ==>
        launches == old(launches)
        && SentOrStopped(old(assignments)[f.dispatch.id := v.row], cancellations, f.dispatch.id, v.row, v.row.fence, old(delivered),
                         !CoveredByStop(cancellations, f.dispatch.id, v.row), assignments, delivered)
      ensures v.Accept? && !(running && v.row.session != "") ==>
        launches == old(launches)[sessionId := Launch(f.dispatch.id, v.row.fence, v.row.attempt, None)]
        && delivered == old(delivered) && assignments == old(assignments)[f.dispatch.id := v.row]
    {
      GateMeans(assignments, cancellations, f, deviceId);
      if f.protocol != "1" { return Throw(UnsupportedProtocol); }
      if IsForeign(f.dispatch.who.target, deviceId) { return Foreign; }
      if f.dispatch.who.source == deviceId { return Throw(InvalidSource); }
      if f.prompt == "" { return Throw(PromptRequired); }
      v := AcceptDispatch(f.dispatch, running, sessionId);
    }

    /** The gate and what follows it. */
    method AcceptDispatch(d: Dispatch, running: bool, sessionId: string) returns (v: Verdict)
      requires Valid() && sessionId !in launches
      modifies this`assignments, this`launches, this`delivered, this`log
      ensures Valid() && v == Gate(old(assignments), cancellations, d)
      ensures !v.Accept? ==> assignments == old(assignments) && launches == old(launches)
                             && delivered == old(delivered) && log == old(log)
      ensures v.Accept? ==> log == old(log) + [TookRow(d.id, v.row)]
      ensures v.Accept? && running && v.row.session != "" ==>
        launches == old(launches)
        && SentOrStopped(old(assignments)[d.id := v.row], cancellations, d.id, v.row, v.row.fence, old(delivered),
                         !CoveredByStop(cancellations, d.id, v.row), assignments, delivered)
      ensures v.Accept? && !(running && v.row.session != "") ==>
        launches == old(launches)[sessionId := Launch(d.id, v.row.fence, v.row.attempt, None)]
        && delivered == old(delivered) && assignments == old(assignments)[d.id := v.row]
    {
      v := Gate(assignments, cancellations, d);
      if v.Accept? {
        Take(d, v.row);
        HandOver(d.id, v.row, running, sessionId);
      }
    }

    /** The agent process exists: its session goes into the row, and the row is read again. */
    method AgentStarted(sessionId: string)
      requires Valid() && sessionId in launches
      modifies this`assignments, this`launches
      ensures Valid()
      ensures launches == old(launches)[sessionId := old(launches)[sessionId].(snapshot := Some(assignments[old(launches)[sessionId].id]))]
      ensures var id := old(launches)[sessionId].id;
        assignments == old(assignments)[id := old(assignments)[id].(status := Starting, session := sessionId)]
    {
      var l := launches[sessionId];
      Put(l.id, Starting, sessionId);
      PutLaunch(sessionId, l.(snapshot := Some(assignments[l.id])));
    }

    /** The agent is ready: check once more, then deliver the prompt or stop the session. */
    method FinishDispatch(sessionId: string) returns (sent: bool)
      requires Valid() && sessionId in launches && launches[sessionId].snapshot.Some?
      modifies this`assignments, this`launches, this`delivered
      ensures Valid() && launches == old(launches) - {sessionId}
      ensures var l := old(launches)[sessionId];
        SentOrStopped(old(assignments), cancellations, l.id, l.snapshot.value, l.fence, old(delivered), sent, assignments, delivered)
      ensures sent && !Overtaken(old(launches)[sessionId]) ==> !PromptStopped(cancellations, old(launches)[sessionId])
    {
      var l := launches[sessionId];
      UndisturbedLaunchIsSafe(cancellations, l);
      DropLaunch(sessionId);
      sent := DeliverOrStop(l.id, l.snapshot.value, l.fence);
    }

    /** Stop the session of this row, if it has one. */
    method Interrupt(id: string, status: Status)
      requires Valid() && id in assignments
      modifies this`assignments, this`interrupted
      ensures Valid()
      ensures assignments == Stopped(old(assignments), Some(id), status)
      ensures interrupted == old(interrupted) + Interrupts(old(assignments), Some(id))
    {
      if assignments[id].session != "" {
        interrupted := interrupted + [assignments[id].session];
      }
      Put(id, status, assignments[id].session);
    }

    /** Stop the row a frame is aimed at, if there is one. */
    method StopAim(aim: Option<string>, status: Status) returns (ghost cut: seq<string>)
      requires Valid() && (aim.Some? ==> aim.value in assignments)
      modifies this`assignments, this`interrupted
      ensures Valid() && assignments == Stopped(old(assignments), aim, status)
      ensures cut == Interrupts(old(assignments), aim) && interrupted == old(interrupted) + cut
    {
      cut := Interrupts(assignments, aim);
      if aim.Some? {
        Interrupt(aim.value, status);
      }
    }

    /** The remote pause branch; `pick` is the row the session lookup happens to return. */
    method ReceivePause(s: Stop, pick: Option<string>) returns (noted: bool, ghost cut: seq<string>)
      requires Valid() && LookupReturns(assignments, s, pick)
      modifies this`assignments, this`cancellations, this`interrupted, this`log
      ensures Valid() && interrupted == old(interrupted) + cut
      ensures PauseDone(old(assignments), old(cancellations), s, pick, deviceId, noted, assignments, cut)
      ensures log == old(log) + if noted then [Noted(s.id, Asked(s))] else []
      ensures cancellations == NotedStops(old(cancellations), s, noted)
    {
      PauseMeans(assignments, cancellations, s, pick, deviceId);
      if IsForeign(s.who.target, deviceId) { return false, []; }
      var found := PauseTarget(assignments, s, pick);
      if found.Some? && !SameOwner(assignments[found.value], s) { return false, []; }
      noted, cut := NoteAndStop(s, PauseAim(assignments, s, pick), Paused);
    }

    /** The remote cancel branch: always noted first, whatever the device knows. */
    method ReceiveCancel(s: Stop, budget: bool) returns (noted: bool, ghost cut: seq<string>)
      requires Valid()
      modifies this`assignments, this`cancellations, this`interrupted, this`log
      ensures Valid() && interrupted == old(interrupted) + cut
      ensures CancelDone(old(assignments), old(cancellations), s, budget, deviceId, noted, assignments, cut)
      ensures log == old(log) + if noted then [Noted(s.id, Asked(s))] else []
      ensures cancellations == NotedStops(old(cancellations), s, noted)
    {
      CancelMeans(assignments, cancellations, s, budget, deviceId);
      if IsForeign(s.who.target, deviceId) { return false, []; }
      noted, cut := NoteAndStop(s, CancelAim(assignments, s), if budget then BudgetExhausted else Cancelled);
    }

    /** Note a stop and, unless its identity is refused, stop the row it is aimed at. */
    method NoteAndStop(s: Stop, aim: Option<string>, status: Status) returns (noted: bool, ghost cut: seq<string>)
      requires Valid() && (aim.Some? ==> aim.value in assignments)
      modifies this`assignments, this`cancellations, this`interrupted, this`log
      ensures Valid() && interrupted == old(interrupted) + cut
      ensures noted <==> StopIdentified(s) && !StopConflicts(Row(old(cancellations), s.id), s)
      ensures assignments == if noted then Stopped(old(assignments), aim, status) else old(assignments)
      ensures cut == if noted then Interrupts(old(assignments), aim) else []
      ensures log == old(log) + if noted then [Noted(s.id, Asked(s))] else []
      ensures cancellations == NotedStops(old(cancellations), s, noted)
    {
      cut := [];
      noted := RecordRemoteCancellation(s);
      if noted {
        cut := StopAim(aim, status);
      }
    }
  }

  // ---- A launch that a newer dispatch overtakes ----

  const OWNER: Identity := Identity("r", "t", "a", "src", "dst")

  function FrameAt(fence: nat, delivery: string): Frame {
    Frame("1", "go", Dispatch("A", OWNER, Some(fence), Some(fence), delivery, true))
  }

  function RowAt(fence: nat, delivery: string, status: Status, session: string): Assignment {
    Assignment(OWNER, fence, fence, delivery, Strict, status, session)
  }

  const FIRST: Launch := Launch("A", 1, 1, None)
  const SECOND: Launch := Launch("A", 2, 2, None)
  const PAUSE: Stop := Stop("A", OWNER, Some(1), Some(1), "")
  const TOOK_FIRST: Event := Took("A", OWNER, 1, 1, true)
  const TOOK_SECOND: Event := Took("A", OWNER, 2, 2, true)
  const NOTED_PAUSE: Event := Noted("A", Cancellation("r", "t", "a", 1, 1))

  lemma BothAreAccepted()
    ensures Screen(FrameAt(1, "d1"), "dst").None? && Screen(FrameAt(2, "d2"), "dst").None?
    ensures Gate(map[], map[], FrameAt(1, "d1").dispatch) == Accept(RowAt(1, "d1", Pending, ""))
    ensures Gate(map["A" := RowAt(1, "d1", Pending, "")], map[], FrameAt(2, "d2").dispatch) == Accept(RowAt(2, "d2", Pending, ""))
  {
  }

  method DispatchFirst() returns (device: RemoteDevice)
    ensures fresh(device) && device.Valid() && device.deviceId == "dst"
    ensures device.log == [TOOK_FIRST]
    ensures device.assignments == map["A" := RowAt(1, "d1", Pending, "")] && device.cancellations == map[]
    ensures device.launches == map["s1" := FIRST] && device.delivered == []
  {
    device := new RemoteDevice("dst");
    BothAreAccepted();
    var first := device.BeginDispatch(FrameAt(1, "d1"), false, "s1");
  }

  /** A second dispatch of the assignment, before the agent of the first one has started. */
  method DispatchSecond(device: RemoteDevice)
    requires device.Valid() && device.deviceId == "dst"
    requires device.assignments == map["A" := RowAt(1, "d1", Pending, "")] && device.cancellations == map[]
    requires device.launches.Keys == {"s1"} && device.launches["s1"] == FIRST
    requires device.delivered == [] && device.log == [TOOK_FIRST]
    modifies device`assignments, device`launches, device`delivered, device`log
    ensures device.Valid() && device.delivered == []
    ensures device.log == [TOOK_FIRST, TOOK_SECOND]
    ensures device.assignments == map["A" := RowAt(2, "d2", Pending, "")]
    ensures "s1" in device.launches && device.launches["s1"] == FIRST
  {
    BothAreAccepted();
    var second := device.BeginDispatch(FrameAt(2, "d2"), false, "s2");
  }

  /** The pause of the first dispatch arrives. */
  method PauseFirst(device: RemoteDevice)
    requires device.Valid() && device.deviceId == "dst"
    requires device.assignments == map["A" := RowAt(2, "d2", Pending, "")] && device.cancellations == map[]
    requires device.log == [TOOK_FIRST, TOOK_SECOND]
    modifies device`assignments, device`cancellations, device`interrupted, device`log
    ensures device.Valid() && device.assignments == old(device.assignments)
    ensures device.log == [TOOK_FIRST, TOOK_SECOND, NOTED_PAUSE]
    ensures device.cancellations == map["A" := Cancellation("r", "t", "a", 1, 1)]
  {
    assert LookupReturns(device.assignments, PAUSE, Some("A"));
    var noted, cut := device.ReceivePause(PAUSE, Some("A"));
  }

  /** The agent of the first dispatch is up. */
  method FinishFirst(device: RemoteDevice)
    requires device.Valid() && device.delivered == []
    requires device.assignments == map["A" := RowAt(2, "d2", Pending, "")]
    requires device.cancellations == map["A" := Cancellation("r", "t", "a", 1, 1)]
    requires "s1" in device.launches && device.launches["s1"] == FIRST
    modifies device`assignments, device`launches, device`delivered
    ensures device.Valid() && device.delivered == [Delivery("A", 1)]
  {
    device.AgentStarted("s1");
    var sent := device.FinishDispatch("s1");
  }

  /**
   * While the agent of a first dispatch starts, a second dispatch replaces its row and
   * a pause of the first is noted; then the first agent is up and gets the paused prompt.
   */
  method OvertakenLaunch() returns (device: RemoteDevice, ghost before: seq<Delivery>)
    ensures fresh(device) && device.Valid()
    ensures device.log == [TOOK_FIRST, TOOK_SECOND, NOTED_PAUSE]
    ensures IsCancelled(Row(device.cancellations, "A"), "r", "a", 1, 1)
    ensures before == [] && device.delivered == [Delivery("A", 1)]
  {
    device := DispatchFirst();
    DispatchSecond(device);
    PauseFirst(device);
    before := device.delivered;
    FinishFirst(device);
  }
}
