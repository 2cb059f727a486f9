/**
 * The account-budget status protocol of the collaboration runtime: which status
 * message may clear the account block, and how an applied status reaches every run.
 */
module AccountBudget {
  import opened Wrappers
  import opened RunModel
  import opened HoldModel
  import opened RunStore

  /** A status message.  An empty request id marks a status the server pushed. */
  datatype Status = Status(protocol: nat, blocked: bool, requestId: string)

  datatype Request = Request(id: string, blockEpoch: nat)

  /** The runtime fields the protocol uses. */
  datatype Link = Link(blocked: bool, epoch: nat, request: Option<Request>)

  /** What can be seen from outside: a request leaving, or a status being handled. */
  datatype Seen = Sent(id: string) | Got(status: Status)

  datatype Verdict = Apply | Drop | AskAgain

  /** The decision taken for one status before anything is applied. */
  function Decide(l: Link, hasBlockedRun: bool, s: Status): Verdict {
    if s.protocol == 0 || s.blocked then Apply
    else if s.requestId == "" then (if l.blocked || hasBlockedRun then AskAgain else Drop)
    else if l.request.None? || l.request.value.id != s.requestId then Drop
    else if l.request.value.blockEpoch != l.epoch then AskAgain
    else Apply
  }

  predicate CountedBlock(seen: Seen) {
    seen.Got? && seen.status.protocol >= 1 && seen.status.blocked
  }

  function BlocksIn(log: seq<Seen>): nat {
    if log == [] then 0
    else BlocksIn(log[..|log| - 1]) + if CountedBlock(log[|log| - 1]) then 1 else 0
  }

  /** How many observations precede the latest request, if one was ever sent. */
  function LatestRequest(log: seq<Seen>): Option<nat> {
    if log == [] then None
    else if log[|log| - 1].Sent? then Some(|log| - 1)
    else LatestRequest(log[..|log| - 1])
  }

  lemma {:induction false} LatestRequestIsSent(log: seq<Seen>)
    ensures LatestRequest(log).Some? ==>
      var k := LatestRequest(log).value;
      k < |log| && log[k].Sent? && forall j :: k < j < |log| ==> !log[j].Sent?
    ensures LatestRequest(log).None? ==> forall j :: 0 <= j < |log| ==> !log[j].Sent?
  {
    if log != [] {
      LatestRequestIsSent(log[..|log| - 1]);
    }
  }

  lemma {:induction false} BlocksGrow(log: seq<Seen>, k: nat)
    requires k <= |log|
    ensures BlocksIn(log[..k]) <= BlocksIn(log)
    ensures BlocksIn(log[..k]) == BlocksIn(log) <==> forall j :: k <= j < |log| ==> !CountedBlock(log[j])
  {
    if k == |log| {
      assert log[..k] == log;
    } else {
      var before := log[..|log| - 1];
      BlocksGrow(before, k);
      assert before[..k] == log[..k];
      assert forall j :: 0 <= j < |before| ==> before[j] == log[j];
    }
  }

  /** Observation j is the reply that the request at k was sent for, with no block counted in between. */
  ghost predicate Answers(log: seq<Seen>, k: nat, j: nat) {
    && k < j < |log| && log[k].Sent? && log[j].Got?
    && log[j].status.protocol >= 1 && !log[j].status.blocked
    && log[j].status.requestId != "" && log[j].status.requestId == log[k].id
    && BlocksIn(log[..j]) == BlocksIn(log[..k])
  }

  /** A request was sent, and the latest one has had no such reply. */
  ghost predicate Outstanding(log: seq<Seen>) {
    && LatestRequest(log).Some?
    && forall j: nat :: !Answers(log, LatestRequest(log).value, j)
  }

  lemma AnswersInPrefix(log: seq<Seen>, more: Seen, k: nat, j: nat)
    requires j < |log|
    ensures Answers(log + [more], k, j) <==> Answers(log, k, j)
  {
    if k < j {
      assert (log + [more])[..j] == log[..j] && (log + [more])[..k] == log[..k];
    }
  }

  /** The fields say what the log says. */
  ghost predicate Explains(log: seq<Seen>, l: Link) {
    && l.epoch == BlocksIn(log)
    && (l.request.Some? <==> Outstanding(log))
    && (l.request.Some? ==>
          && LatestRequest(log).value < |log|
          && log[LatestRequest(log).value] == Sent(l.request.value.id)
          && l.request.value.blockEpoch == BlocksIn(log[..LatestRequest(log).value]))
  }

  /** A clear that may be believed: the reply to the latest request, with no block handled since it left. */
  ghost predicate Fresh(log: seq<Seen>, s: Status) {
    && s.requestId != ""
    && LatestRequest(log).Some?
    && var k := LatestRequest(log).value;
       && k < |log| && log[k] == Sent(s.requestId)
       && forall j :: k <= j < |log| ==> !CountedBlock(log[j])
  }

  /** The fields once a request with this id has left. */
  function Requested(l: Link, id: string): Link {
    l.(request := Some(Request(id, l.epoch)))
  }

  /** The fields once one status was decided and, if applied, applied. */
  function Handled(l: Link, hasBlockedRun: bool, s: Status): Link {
    var counted := if s.protocol >= 1 && s.blocked then l.(epoch := l.epoch + 1) else l;
    if Decide(l, hasBlockedRun, s) == Apply then
      counted.(blocked := s.blocked,
               request := if s.protocol >= 1 && !s.blocked then None else l.request)
    else counted
  }

  /** The fields after one status, including the request that may be sent because of it. */
  function Answered(l: Link, hasBlockedRun: bool, s: Status, hasRelay: bool, nextId: string): Link {
    var after := Handled(l, hasBlockedRun, s);
    if Decide(l, hasBlockedRun, s) == AskAgain && hasRelay then Requested(after, nextId) else after
  }

  /** What is seen from outside while one status is handled. */
  function Heard(log: seq<Seen>, l: Link, hasBlockedRun: bool, s: Status, hasRelay: bool, nextId: string): seq<Seen> {
    if Decide(l, hasBlockedRun, s) == AskAgain && hasRelay then log + [Got(s)] + [Sent(nextId)] else log + [Got(s)]
  }

  ghost predicate AnyBlocked(runs: map<string, Run>) {
    exists id :: id in runs && runs[id].accountBlocked && !Terminal(runs[id].state)
  }

  lemma RequestExplained(log: seq<Seen>, l: Link, id: string)
    requires Explains(log, l)
    ensures Explains(log + [Sent(id)], Requested(l, id))
  {
    var longer := log + [Sent(id)];
    assert longer[..|log|] == log;
  }

  /** A status changes what is outstanding only if it is the awaited reply. */
  lemma StatusOutstanding(log: seq<Seen>, s: Status)
    ensures LatestRequest(log + [Got(s)]) == LatestRequest(log)
    ensures Outstanding(log + [Got(s)]) <==>
      Outstanding(log) && !Answers(log + [Got(s)], LatestRequest(log).value, |log|)
  {
    var longer := log + [Got(s)];
    assert longer[..|log|] == log;
    LatestRequestIsSent(log);
    if LatestRequest(log).Some? {
      var k := LatestRequest(log).value;
      forall j: nat | j < |log| ensures Answers(longer, k, j) <==> Answers(log, k, j) {
        AnswersInPrefix(log, Got(s), k, j);
      }
    }
  }

  lemma StatusExplained(log: seq<Seen>, l: Link, hasBlockedRun: bool, s: Status)
    requires Explains(log, l)
    ensures Explains(log + [Got(s)], Handled(l, hasBlockedRun, s))
  {
    var longer := log + [Got(s)];
    assert longer[..|log|] == log;
    LatestRequestIsSent(log);
    StatusOutstanding(log, s);
    if l.request.Some? {
      var k := LatestRequest(log).value;
      assert longer[..k] == log[..k];
    }
  }

  /**
   * After any history, a protocol-1 status takes the flag from blocked to clear only
   * if it is fresh; a pushed clear, a reply to an older request, or a reply that a
   * block has overtaken never does.
   */
  lemma ClearNeedsFreshReply(log: seq<Seen>, l: Link, hasBlockedRun: bool, s: Status)
    requires Explains(log, l) && s.protocol >= 1
    requires l.blocked && !Handled(l, hasBlockedRun, s).blocked
    ensures Fresh(log, s)
  {
    var k := LatestRequest(log).value;
    LatestRequestIsSent(log);
    BlocksGrow(log, k);
  }

  /**
   * After any history, a protocol-1 status takes the flag from blocked to clear
   * exactly when it is the fresh reply to a request that is still outstanding.
   */
  lemma ClearsExactlyWhen(log: seq<Seen>, l: Link, hasBlockedRun: bool, s: Status)
    requires Explains(log, l) && s.protocol >= 1 && l.blocked
    ensures !Handled(l, hasBlockedRun, s).blocked <==> !s.blocked && Fresh(log, s) && Outstanding(log)
  {
    if !Handled(l, hasBlockedRun, s).blocked {
      ClearNeedsFreshReply(log, l, hasBlockedRun, s);
    }
    if !s.blocked && Fresh(log, s) && Outstanding(log) {
      BlocksGrow(log, LatestRequest(log).value);
    }
  }

  // ---- When a status is answered with a request ----

  /** The status is the reply to the latest request, which has had none, but a block was counted since that left. */
  ghost predicate Overtaken(log: seq<Seen>, s: Status) {
    && s.requestId != "" && Outstanding(log)
    && var k := LatestRequest(log).value;
       && k < |log| && log[k] == Sent(s.requestId)
       && exists j :: k <= j < |log| && CountedBlock(log[j])
  }

  /** The status may be believed: it reports a block, comes from an older server, or is the awaited fresh reply. */
  ghost predicate Believed(log: seq<Seen>, s: Status) {
    s.protocol == 0 || s.blocked || (Fresh(log, s) && Outstanding(log))
  }

  /** A clear that cannot be believed but may be true: pushed while something is blocked, or overtaken by a block. */
  ghost predicate CallsForRequest(log: seq<Seen>, somethingBlocked: bool, s: Status) {
    s.protocol >= 1 && !s.blocked && if s.requestId == "" then somethingBlocked else Overtaken(log, s)
  }

  /** The decision over the log alone. */
  lemma DecisionMeans(log: seq<Seen>, l: Link, hasBlockedRun: bool, s: Status)
    requires Explains(log, l)
    ensures Decide(l, hasBlockedRun, s) == Apply <==> Believed(log, s)
    ensures Decide(l, hasBlockedRun, s) == AskAgain <==> CallsForRequest(log, l.blocked || hasBlockedRun, s)
  {
    if LatestRequest(log).Some? {
      LatestRequestIsSent(log);
      BlocksGrow(log, LatestRequest(log).value);
    }
  }

  /** What one status does, over the log alone. */
  ghost predicate StatusDone(log: seq<Seen>, blocked: bool, somethingBlocked: bool, s: Status, hasRelay: bool, nextId: string,
                             applied: bool, after: bool, longer: seq<Seen>)
  {
    && (applied <==> Believed(log, s))
    && after == (if Believed(log, s) then s.blocked else blocked)
    && longer == log + [Got(s)] + if hasRelay && CallsForRequest(log, somethingBlocked, s) then [Sent(nextId)] else []
  }

  lemma StatusMeans(log: seq<Seen>, l: Link, hasBlockedRun: bool, s: Status, hasRelay: bool, nextId: string)
    requires Explains(log, l)
    ensures StatusDone(log, l.blocked, l.blocked || hasBlockedRun, s, hasRelay, nextId,
                       Decide(l, hasBlockedRun, s) == Apply, Answered(l, hasBlockedRun, s, hasRelay, nextId).blocked,
                       Heard(log, l, hasBlockedRun, s, hasRelay, nextId))
  {
    DecisionMeans(log, l, hasBlockedRun, s);
  }

  /** Observations that neither send a request, nor count as a block, nor answer this request. */
  ghost predicate Silent(more: seq<Seen>, id: string) {
    forall j :: 0 <= j < |more| ==>
      && more[j].Got? && !CountedBlock(more[j])
      && !(more[j].status.protocol >= 1 && !more[j].status.blocked && more[j].status.requestId == id)
  }

  lemma {:induction false} StillOutstanding(log: seq<Seen>, id: string, more: seq<Seen>)
    requires id != "" && Silent(more, id)
    ensures LatestRequest(log + [Sent(id)] + more) == Some(|log|)
    ensures Outstanding(log + [Sent(id)] + more)
    decreases |more|
  {
    var sent := log + [Sent(id)];
    if more == [] {
      assert sent + more == sent;
    } else {
      var before, last := more[..|more| - 1], more[|more| - 1];
      StillOutstanding(log, id, before);
      assert sent + more == sent + before + [Got(last.status)];
      StatusOutstanding(sent + before, last.status);
      assert (sent + more)[|log|] == Sent(id);
    }
  }

  /**
   * A request that was sent stays outstanding until it is answered, and the first
   * answer that clears the flag is believed unless a block was counted in between.
   */
  lemma RequestBringsClear(log: seq<Seen>, id: string, more: seq<Seen>, l: Link, hasBlockedRun: bool, s: Status)
    requires id != "" && Silent(more, id) && Explains(log + [Sent(id)] + more, l)
    requires s.protocol >= 1 && !s.blocked && s.requestId == id
    ensures Outstanding(log + [Sent(id)] + more) && Believed(log + [Sent(id)] + more, s)
    ensures !Handled(l, hasBlockedRun, s).blocked
  {
    var all := log + [Sent(id)] + more;
    StillOutstanding(log, id, more);
    assert all[|log|] == Sent(id);
    forall j | |log| <= j < |all| ensures !CountedBlock(all[j]) {
      assert j > |log| ==> all[j] == more[j - |log| - 1];
    }
    assert Fresh(all, s);
    DecisionMeans(all, l, hasBlockedRun, s);
  }

  /** One request is believed once: its reply consumes it, so a duplicate is dropped. */
  lemma ReplyIsConsumed(l: Link, hasBlockedRun: bool, s: Status, again: Status, hasBlockedRun': bool)
    requires s.protocol >= 1 && !s.blocked && l.blocked && !Handled(l, hasBlockedRun, s).blocked
    requires again.protocol >= 1 && !again.blocked && again.requestId == s.requestId
    ensures Decide(Handled(l, hasBlockedRun, s), hasBlockedRun', again) == Drop
  {
  }

  /** A block from a peer without the protocol is not counted, so a reply can overtake it. */
  lemma LegacyBlockCanBeOvertaken()
    ensures var log := [Sent("r"), Got(Status(0, true, ""))];
      var l := Handled(Requested(Link(false, 0, None), "r"), false, Status(0, true, ""));
      && Explains(log, l) && l.blocked
      && !Handled(l, false, Status(1, false, "r")).blocked
  {
    var first := [Sent("r")];
    assert first == [] + [Sent("r")];
    RequestExplained([], Link(false, 0, None), "r");
    StatusExplained(first, Requested(Link(false, 0, None), "r"), false, Status(0, true, ""));
    assert first + [Got(Status(0, true, ""))] == [Sent("r"), Got(Status(0, true, ""))];
  }

  /** Every unfinished run carries the flag, and while it is set none of them has work left running. */
  ghost predicate FlagReachedEveryRun(runs: map<string, Run>, flag: bool) {
    forall id :: id in runs && !Terminal(runs[id].state) ==>
      && runs[id].accountBlocked == flag
      && (flag ==> Held(runs[id].state) && NoTask(runs[id].tasks, TaskActive) && NoTask(runs[id].tasks, TaskPending))
  }

  ghost predicate SameFinishedRuns(before: map<string, Run>, after: map<string, Run>) {
    && before.Keys == after.Keys
    && forall id :: id in before ==>
         && (Terminal(before[id].state) <==> Terminal(after[id].state))
         && (Terminal(before[id].state) ==> before[id] == after[id])
  }

  /** The first `n` of the listed runs carry the flag, and no finished run was touched. */
  ghost predicate FlaggedSoFar(start: map<string, Run>, runs: map<string, Run>, ids: seq<string>, n: nat, flag: bool) {
    && n <= |ids|
    && SameFinishedRuns(start, runs)
    && forall j :: 0 <= j < n ==> ids[j] in runs && runs[ids[j]].accountBlocked == flag
  }

  lemma OneMoreFlagged(start: map<string, Run>, before: map<string, Run>, after: map<string, Run>,
                       ids: seq<string>, n: nat, flag: bool)
    requires FlaggedSoFar(start, before, ids, n, flag) && n < |ids|
    requires ids[n] in before && !Terminal(before[ids[n]].state) && ids[n] in after
    requires after == before[ids[n] := after[ids[n]]]
    requires after[ids[n]].accountBlocked == flag && !Terminal(after[ids[n]].state)
    ensures FlaggedSoFar(start, after, ids, n + 1, flag)
  {
  }

  lemma StillUnfinished(start: map<string, Run>, runs: map<string, Run>, id: string)
    requires SameFinishedRuns(start, runs) && id in start && !Terminal(start[id].state)
    ensures id in runs && !Terminal(runs[id].state)
  {
  }

  lemma ListedAreAll(start: map<string, Run>, runs: map<string, Run>, ids: seq<string>, flag: bool)
    requires FlaggedSoFar(start, runs, ids, |ids|, flag)
    requires forall id :: id in start && !Terminal(start[id].state) ==> id in ids
    ensures forall id :: id in runs && !Terminal(runs[id].state) ==> runs[id].accountBlocked == flag
  {
  }

  /** On rows that agree with the hold model, a flag set everywhere has stopped all work. */
  lemma FlagStopsWork(runs: map<string, Run>, trails: map<string, Trail>, flag: bool)
    requires RowsAgree(runs, trails)
    requires forall id :: id in runs && !Terminal(runs[id].state) ==> runs[id].accountBlocked == flag
    ensures FlagReachedEveryRun(runs, flag)
  {
    forall id | id in runs && !Terminal(runs[id].state) && flag
      ensures Held(runs[id].state) && NoTask(runs[id].tasks, TaskActive) && NoTask(runs[id].tasks, TaskPending)
    {
      assert RowAgrees(runs[id], trails[id]);
      AgreementReads(runs[id], Now(trails[id]));
    }
  }

  class AccountRuntime {
    const store: CollaborationStore
    const hasRelay: bool
    var known: bool
    var blocked: bool
    var epoch: nat
    var request: Option<Request>
    ghost var log: seq<Seen>

    ghost predicate Valid()
      reads this, store
    {
      store.Valid() && Explains(log, View())
    }

    ghost function View(): Link
      reads this
    {
      Link(blocked, epoch, request)
    }

    constructor (store: CollaborationStore, hasRelay: bool, saved: Option<bool>, hasBlockedRun: bool)
      requires store.Valid()
      requires hasBlockedRun <==> AnyBlocked(store.runs)
      ensures Valid() && this.store == store && this.hasRelay == hasRelay && log == []
      ensures blocked == if saved.Some? then saved.value else hasBlockedRun
      ensures known <==> saved.Some? || hasBlockedRun
    {
      this.store := store;
      this.hasRelay := hasRelay;
      known := saved.Some? || hasBlockedRun;
      blocked := if saved.Some? then saved.value else hasBlockedRun;
      epoch, request, log := 0, None, [];
    }

    /** Issue a new status request; `id` is a fresh random token. */
    method RefreshAccountBudgetStatus(id: string)
      requires Valid()
      modifies this
      ensures Valid()
      ensures View() == if hasRelay then Requested(old(View()), id) else old(View())
      ensures log == if hasRelay then old(log) + [Sent(id)] else old(log)
      ensures known == old(known)
    {
      if !hasRelay { return; }
      RequestExplained(log, View(), id);
      PutRequest(Some(Request(id, epoch)), log + [Sent(id)]);
    }

    method PutRequest(r: Option<Request>, ghost longer: seq<Seen>)
      requires store.Valid() && Explains(longer, View().(request := r))
      modifies this`request, this`log
      ensures Valid() && View() == old(View()).(request := r) && log == longer
    {
      request, log := r, longer;
    }

    method HasAccountBudgetBlockedRuns() returns (found: bool)
      ensures found <==> AnyBlocked(store.runs)
    {
      found := exists id :: id in store.runs && store.runs[id].accountBlocked && !Terminal(store.runs[id].state);
    }

    /**
     * Decide on one status message and update the protocol fields.  `nextId` is the
     * token of the request that may be sent in turn.
     */
    method AdmitStatus(s: Status, nextId: string) returns (applied: bool)
      requires Valid()
      modifies this
      ensures Valid()
      ensures applied <==> Decide(old(View()), AnyBlocked(store.runs), s) == Apply
      ensures View() == Answered(old(View()), AnyBlocked(store.runs), s, hasRelay, nextId)
      ensures log == Heard(old(log), old(View()), AnyBlocked(store.runs), s, hasRelay, nextId)
      ensures known == (old(known) || applied)
      ensures StatusDone(old(log), old(blocked), old(blocked) || AnyBlocked(store.runs), s, hasRelay, nextId, applied, blocked, log)
    {
      var hasBlockedRun := HasAccountBudgetBlockedRuns();
      StatusMeans(log, View(), hasBlockedRun, s, hasRelay, nextId);
      applied := DecideStatus(s, hasBlockedRun, nextId);
    }

    method DecideStatus(s: Status, hasBlockedRun: bool, nextId: string) returns (applied: bool)
      requires Valid()
      modifies this
      ensures Valid()
      ensures applied <==> Decide(old(View()), hasBlockedRun, s) == Apply
      ensures View() == Answered(old(View()), hasBlockedRun, s, hasRelay, nextId)
      ensures log == Heard(old(log), old(View()), hasBlockedRun, s, hasRelay, nextId)
      ensures known == (old(known) || applied)
    {
      ghost var after, heard := Handled(View(), hasBlockedRun, s), log + [Got(s)];
      assert Explains(heard, after) by {
        StatusExplained(log, View(), hasBlockedRun, s);
      }
      log := heard;
      if s.protocol >= 1 {
        if s.blocked {
          epoch := epoch + 1;
        } else {
          if s.requestId == "" {
            assert View() == after;
            if blocked || hasBlockedRun {
              // Not believed by itself: ask, since a block may have come after it left.
              RefreshAccountBudgetStatus(nextId);
            }
            return false;
          }
          if request.None? || request.value.id != s.requestId {
            assert View() == after;
            return false;
          }
          if request.value.blockEpoch != epoch {
            assert View() == after;
            RefreshAccountBudgetStatus(nextId);
            return false;
          }
          request := None;
        }
      }
      known := true;
      blocked := s.blocked;
      applied := true;
      assert View() == after;
    }

    /** Handle one status message; `applied` tells whether it was applied to the runs. */
    method HandleStatus(s: Status, nextId: string) returns (applied: bool)
      requires Valid()
      modifies this, store
      ensures Valid()
      ensures applied <==> Decide(old(View()), AnyBlocked(old(store.runs)), s) == Apply
      ensures View() == Answered(old(View()), AnyBlocked(old(store.runs)), s, hasRelay, nextId)
      ensures StatusDone(old(log), old(blocked), old(blocked) || AnyBlocked(old(store.runs)), s, hasRelay, nextId, applied, blocked, log)
      ensures applied ==> FlagReachedEveryRun(store.runs, s.blocked)
      ensures !applied ==> store.runs == old(store.runs)
      ensures SameFinishedRuns(old(store.runs), store.runs)
    {
      applied := AdmitStatus(s, nextId);
      if applied {
        ApplyToRuns(s.blocked);
      }
    }

    /** One round of the loop over the unfinished runs. */
    method FlagRun(ghost start: map<string, Run>, runIds: seq<string>, i: nat, flag: bool)
      requires store.Valid() && i < |runIds| && FlaggedSoFar(start, store.runs, runIds, i, flag)
      requires runIds[i] in start && !Terminal(start[runIds[i]].state)
      modifies store
      ensures store.Valid() && store.receipts == old(store.receipts)
      ensures FlaggedSoFar(start, store.runs, runIds, i + 1, flag)
    {
      StillUnfinished(start, store.runs, runIds[i]);
      var changed, restored := store.SetAccountBudgetBlocked(runIds[i], flag);
      OneMoreFlagged(start, old(store.runs), store.runs, runIds, i, flag);
    }

    /** The loop over all unfinished runs. */
    method ApplyToRuns(flag: bool)
      requires store.Valid()
      modifies store
      ensures store.Valid() && FlagReachedEveryRun(store.runs, flag)
      ensures store.receipts == old(store.receipts) && SameFinishedRuns(old(store.runs), store.runs)
    {
      var runIds := store.ListAccountBudgetRunIds();
      for i := 0 to |runIds|
        invariant store.Valid() && store.receipts == old(store.receipts)
        invariant FlaggedSoFar(old(store.runs), store.runs, runIds, i, flag)
      {
        assert runIds[i] in runIds;
        FlagRun(old(store.runs), runIds, i, flag);
      }
      ListedAreAll(old(store.runs), store.runs, runIds, flag);
      FlagStopsWork(store.runs, store.trails, flag);
    }
  }
}
