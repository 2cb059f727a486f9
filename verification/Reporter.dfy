/**
 * The reporter of runtime events: it numbers what it sends, keeps one latch for the
 * task that is running, and sends each request for a decision at most once.
 */
module Reporter {
  import opened Wrappers

  /** How a request for a decision can be settled. */
  datatype Settlement =
    | ApprovalApplied | ApprovalExpired | ApprovalFailed
    | InteractionApplied | InteractionExpired | InteractionFailed | InteractionCanceled

  datatype Kind =
    | TaskStarted | TaskComplete | TaskFailed | TaskAborted | Ready
    | TaskResultReady | TaskFailedNotice
    | Requested(interaction: string)
    | Settled(outcome: Settlement, interaction: string)
    | SessionExited(failed: bool)
    | Other(name: string)

  /** A report that is queued; its number and the key it is deduplicated by, if any. */
  datatype Item = Item(kind: Kind, sequence: nat, key: Option<string>)

  // ---- The latch ----

  predicate Ends(kind: Kind) {
    kind == TaskResultReady || kind == TaskFailedNotice || kind == TaskAborted || kind == Ready
  }

  predicate Notifies(kind: Kind) {
    kind == TaskResultReady || kind == TaskFailedNotice
  }

  /** Whether a task is running after these reports. */
  function Running(kinds: seq<Kind>): bool {
    if kinds == [] then false
    else if kinds[|kinds| - 1] == TaskStarted then true
    else if Ends(kinds[|kinds| - 1]) then false
    else Running(kinds[..|kinds| - 1])
  }

  /** A start is reported only when no task runs, a result or failure notice only when one does. */
  ghost predicate Alternates(kinds: seq<Kind>) {
    forall i :: 0 <= i < |kinds| ==>
      && (kinds[i] == TaskStarted ==> !Running(kinds[..i]))
      && (Notifies(kinds[i]) ==> Running(kinds[..i]))
  }

  /** What is sent for an event, or nothing for a second start of the same task. */
  function Projected(kind: Kind, active: bool): Option<Kind> {
    match kind
    case TaskStarted => if active then None else Some(TaskStarted)
    case TaskComplete => Some(if active then TaskResultReady else TaskComplete)
    case TaskFailed => Some(if active then TaskFailedNotice else TaskFailed)
    case SessionExited(failed) => Some(if failed && active then TaskFailedNotice else kind)
    case _ => Some(kind)
  }

  function EventType(outcome: Settlement): (text: string)
    ensures ':' !in text
  {
    match outcome
    case ApprovalApplied => "approval_applied"
    case ApprovalExpired => "approval_expired"
    case ApprovalFailed => "approval_failed"
    case InteractionApplied => "interaction_applied"
    case InteractionExpired => "interaction_expired"
    case InteractionFailed => "interaction_failed"
    case InteractionCanceled => "interaction_canceled"
  }

  /** The notices are made by the reporter only; no runtime event has their type. */
  predicate FromRuntime(kind: Kind) {
    !Notifies(kind)
  }

  function KeyOf(kind: Kind): Option<string> {
    match kind
    case Requested(interaction) => Some("approval_requested:" + interaction)
    case Settled(outcome, interaction) => Some(EventType(outcome) + ":" + interaction)
    case _ => None
  }

  /** Both ask for, or settle in the same way, one decision. */
  predicate SameDecision(a: Kind, b: Kind) {
    (a.Requested? && a == b) || (a.Settled? && a == b)
  }

  lemma TextsDiffer(a: string, b: string, x: string, y: string)
    requires ':' !in a && ':' !in b && a + ":" + x == b + ":" + y
    ensures a == b && x == y
  {
    var s := a + ":" + x;
    assert s[|a|] == ':' && s[|b|] == ':';
    assert forall i :: 0 <= i < |a| ==> s[i] == a[i] && a[i] in a;
    assert forall i :: 0 <= i < |b| ==> s[i] == b[i] && b[i] in b;
    assert |a| == |b|;
    assert a == s[..|a|] && b == s[..|b|];
    assert x == s[|a| + 1..] && y == s[|b| + 1..];
  }

  /** The part of a key before the first colon. */
  function Prefix(kind: Kind): (prefix: string)
    ensures ':' !in prefix
  {
    if kind.Settled? then EventType(kind.outcome) else "approval_requested"
  }

  lemma PrefixesDiffer(a: Kind, b: Kind)
    requires Prefix(a) == Prefix(b)
    ensures a.Settled? <==> b.Settled?
    ensures a.Settled? ==> a.outcome == b.outcome
  {
    assert |Prefix(a)| == |Prefix(b)| && (|Prefix(a)| > 0 ==> Prefix(a)[0] == Prefix(b)[0]);
  }

  /** Two reports have the same key exactly when they are about the same decision. */
  lemma KeysTell(a: Kind, b: Kind)
    requires KeyOf(a).Some?
    ensures KeyOf(a) == KeyOf(b) <==> SameDecision(a, b)
    ensures KeyOf(a).Some? <==> a.Requested? || a.Settled?
  {
    if KeyOf(a) == KeyOf(b) {
      assert KeyOf(a).value == Prefix(a) + ":" + a.interaction;
      assert KeyOf(b).value == Prefix(b) + ":" + b.interaction;
      TextsDiffer(Prefix(a), Prefix(b), a.interaction, b.interaction);
      PrefixesDiffer(a, b);
    }
  }

  /** Every report carries the key of its kind. */
  ghost predicate Keyed(items: seq<Item>) {
    forall item :: item in items ==> item.key == KeyOf(item.kind)
  }

  /** The decision is among these reports. */
  ghost predicate Mentioned(items: seq<Item>, kind: Kind) {
    exists item :: item in items && SameDecision(item.kind, kind)
  }

  lemma {:induction false} KeyIsMentioned(items: seq<Item>, kind: Kind)
    requires Keyed(items) && FromRuntime(kind) && KeyOf(kind).Some?
    ensures KeyOf(kind).value in KeysOf(items) <==> Mentioned(items, kind)
  {
    if items != [] {
      var before, last := items[..|items| - 1], items[|items| - 1];
      assert items == before + [last];
      KeyIsMentioned(before, kind);
      KeysOfAppends(before, last);
      assert Mentioned(items, kind) <==> Mentioned(before, kind) || SameDecision(last.kind, kind);
      if last.key.Some? {
        assert last in items;
        KeysTell(last.kind, kind);
      }
    }
  }

  /** What a user is shown of an event, given whether a task is running. */
  predicate Shows(kind: Kind, running: bool, shown: Kind) {
    match kind
    case TaskStarted => shown == TaskStarted && !running
    case TaskComplete => if running then shown == TaskResultReady else shown == TaskComplete
    case TaskFailed => if running then shown == TaskFailedNotice else shown == TaskFailed
    case SessionExited(failed) => if failed && running then shown == TaskFailedNotice else shown == SessionExited(failed)
    case _ => shown == kind
  }

  lemma ProjectedShows(kind: Kind, running: bool)
    ensures Projected(kind, running).Some? ==> Shows(kind, running, Projected(kind, running).value)
    ensures Projected(kind, running).None? <==> kind == TaskStarted && running
  {
  }

  function Count(kinds: seq<Kind>, p: Kind -> bool): nat {
    if kinds == [] then 0 else Count(kinds[..|kinds| - 1], p) + if p(kinds[|kinds| - 1]) then 1 else 0
  }

  /** No task gives two notices: there are never more of them than starts. */
  lemma {:induction false} NoticesMatchStarts(kinds: seq<Kind>)
    requires Alternates(kinds)
    ensures Count(kinds, k => Notifies(k)) + (if Running(kinds) then 1 else 0) <= Count(kinds, k => k == TaskStarted)
  {
    if kinds != [] {
      var before := kinds[..|kinds| - 1];
      assert forall i :: 0 <= i < |before| ==> before[..i] == kinds[..i];
      NoticesMatchStarts(before);
      assert kinds[..|kinds| - 1] == before;
    }
  }

  lemma AlternationContinues(kinds: seq<Kind>, kind: Kind)
    requires Alternates(kinds)
    requires kind == TaskStarted ==> !Running(kinds)
    requires Notifies(kind) ==> Running(kinds)
    ensures Alternates(kinds + [kind])
  {
    var longer := kinds + [kind];
    forall i | 0 <= i < |longer|
      ensures (longer[i] == TaskStarted ==> !Running(longer[..i])) && (Notifies(longer[i]) ==> Running(longer[..i]))
    {
      assert longer[..i] == kinds[..i];
      assert kinds[..|kinds|] == kinds;
    }
  }

  // ---- Keys ----

  /** The keys of these items. */
  function KeysOf(items: seq<Item>): (keys: seq<string>)
    ensures |keys| <= |items|
  {
    if items == [] then []
    else KeysOf(items[..|items| - 1]) + if items[|items| - 1].key.Some? then [items[|items| - 1].key.value] else []
  }

  ghost predicate AllDiffer(keys: seq<string>) {
    forall i, j :: 0 <= i < j < |keys| ==> keys[i] != keys[j]
  }

  lemma KeysOfAppends(items: seq<Item>, item: Item)
    ensures KeysOf(items + [item]) == KeysOf(items) + if item.key.Some? then [item.key.value] else []
  {
    assert (items + [item])[..|items|] == items;
  }

  lemma {:induction false} KeysOfHead(items: seq<Item>)
    requires items != []
    ensures KeysOf(items) == (if items[0].key.Some? then [items[0].key.value] else []) + KeysOf(items[1..])
  {
    var before := items[..|items| - 1];
    if before != [] {
      KeysOfHead(before);
      assert items[1..][..|items[1..]| - 1] == before[1..];
    } else {
      assert items[1..] == [];
    }
  }

  /** Two reports with the same key cannot both have arrived. */
  lemma {:induction false} KeyArrivesOnce(succeeded: seq<Item>, i: nat, j: nat)
    requires AllDiffer(KeysOf(succeeded)) && i < j < |succeeded| && succeeded[i].key.Some?
    ensures succeeded[i].key != succeeded[j].key
    decreases |succeeded|
  {
    var before, last := succeeded[..|succeeded| - 1], succeeded[|succeeded| - 1];
    assert succeeded == before + [last];
    KeysOfAppends(before, last);
    var keys := KeysOf(before);
    assert forall k :: 0 <= k < |keys| ==> KeysOf(succeeded)[k] == keys[k];
    if j < |before| {
      KeyArrivesOnce(before, i, j);
    } else if last.key.Some? {
      KeyIsListed(before, i);
      var k :| 0 <= k < |keys| && keys[k] == succeeded[i].key.value;
      assert KeysOf(succeeded)[|keys|] == last.key.value;
    }
  }

  lemma {:induction false} KeyIsListed(items: seq<Item>, i: nat)
    requires i < |items| && items[i].key.Some?
    ensures items[i].key.value in KeysOf(items)
  {
    if i < |items| - 1 {
      KeyIsListed(items[..|items| - 1], i);
    }
  }

  ghost predicate Dense(items: seq<Item>) {
    forall i :: 0 <= i < |items| ==> items[i].sequence == i + 1
  }

  function Kinds(items: seq<Item>): seq<Kind> {
    seq(|items|, i requires 0 <= i < |items| => items[i].kind)
  }

  /** Everything reported so far is numbered from 1, and the latch is the state of the reported task. */
  ghost predicate ReportsFit(accepted: seq<Item>, sequence: nat, taskActive: bool) {
    Dense(accepted) && sequence == |accepted| && Alternates(Kinds(accepted)) && taskActive == Running(Kinds(accepted))
  }

  /** The two sets of keys are those of the reports that wait and of those that arrived; no key is in both, or twice. */
  ghost predicate KeysFit(queue: seq<Item>, succeeded: seq<Item>, pending: set<string>, delivered: set<string>) {
    && AllDiffer(KeysOf(queue)) && AllDiffer(KeysOf(succeeded))
    && (forall key :: key in pending <==> key in KeysOf(queue))
    && (forall key :: key in delivered <==> key in KeysOf(succeeded))
    && pending !! delivered
  }

  /** A report the latch lets through, and the latch after it. */
  predicate Passes(kind: Kind, taskActive: bool, after: bool) {
    && (kind == TaskStarted ==> !taskActive) && (Notifies(kind) ==> taskActive)
    && (after <==> kind == TaskStarted || (!Ends(kind) && taskActive))
  }

  lemma ReportingFits(accepted: seq<Item>, sequence: nat, taskActive: bool, item: Item, after: bool)
    requires ReportsFit(accepted, sequence, taskActive) && item.sequence == sequence + 1
    requires Passes(item.kind, taskActive, after)
    ensures ReportsFit(accepted + [item], sequence + 1, after)
  {
    AlternationContinues(Kinds(accepted), item.kind);
    assert Kinds(accepted + [item]) == Kinds(accepted) + [item.kind];
    assert (Kinds(accepted) + [item.kind])[..|accepted|] == Kinds(accepted);
  }

  lemma QueueingFits(queue: seq<Item>, succeeded: seq<Item>, pending: set<string>, delivered: set<string>, item: Item)
    requires KeysFit(queue, succeeded, pending, delivered)
    requires item.key.Some? ==> item.key.value !in pending && item.key.value !in delivered
    ensures KeysFit(queue + [item], succeeded, pending + KeySet(item), delivered)
  {
    KeysOfAppends(queue, item);
  }

  function KeySet(item: Item): set<string> {
    if item.key.Some? then {item.key.value} else {}
  }

  lemma DeliveringFits(queue: seq<Item>, succeeded: seq<Item>, pending: set<string>, delivered: set<string>, ok: bool)
    requires queue != [] && KeysFit(queue, succeeded, pending, delivered)
    ensures KeysFit(queue[1..], succeeded + if ok then [queue[0]] else [], pending - KeySet(queue[0]),
                    delivered + if ok then KeySet(queue[0]) else {})
  {
    KeysOfHead(queue);
    if ok {
      KeysOfAppends(succeeded, queue[0]);
    } else {
      assert succeeded + [] == succeeded;
    }
    var first, rest := queue[0].key, KeysOf(queue[1..]);
    if first.Some? {
      var keys := KeysOf(queue);
      assert keys == [first.value] + rest;
      forall j | 0 <= j < |rest| ensures rest[j] != first.value {
        assert keys[0] == first.value && keys[j + 1] == rest[j];
      }
      forall i, j | 0 <= i < j < |rest| ensures rest[i] != rest[j] {
        assert keys[i + 1] == rest[i] && keys[j + 1] == rest[j];
      }
    } else {
      assert KeysOf(queue) == rest;
    }
  }

  /** The latch: what is sent for an event, and whether a task runs after it. */
  method Latch(kind: Kind, taskActive: bool) returns (sent: Option<Kind>, active: bool)
    requires FromRuntime(kind)
    ensures sent == Projected(kind, taskActive)
    ensures sent.Some? ==> Passes(sent.value, taskActive, active) && KeyOf(sent.value) == KeyOf(kind)
    ensures KeyOf(kind).Some? ==> active == taskActive
  {
    sent, active := Some(kind), taskActive;
    if kind == TaskStarted {
      if taskActive { return None, taskActive; }
      active := true;
    } else if kind == TaskComplete || kind == TaskFailed {
      if taskActive {
        sent := Some(if kind == TaskComplete then TaskResultReady else TaskFailedNotice);
        active := false;
      }
    } else if kind == TaskAborted || kind == Ready {
      active := false;
    } else if kind == SessionExited(true) && taskActive {
      sent := Some(TaskFailedNotice);
      active := false;
    }
  }

  class RuntimeReporter {
    var sequence: nat
    var taskActive: bool
    var delivered: set<string>
    var pending: set<string>
    var queue: seq<Item>
    ghost var accepted: seq<Item>
    ghost var succeeded: seq<Item>

    ghost predicate Valid()
      reads this
    {
      && ReportsFit(accepted, sequence, taskActive) && KeysFit(queue, succeeded, pending, delivered)
      && Keyed(queue) && Keyed(succeeded)
    }

    constructor ()
      ensures Valid() && accepted == [] && succeeded == [] && queue == []
    {
      sequence, taskActive, delivered, pending, queue := 0, false, {}, {}, [];
      accepted, succeeded := [], [];
    }

    method Enqueue(item: Item, active: bool)
      requires Valid() && item.sequence == sequence + 1
      requires Passes(item.kind, taskActive, active)
      requires item.key.Some? ==> item.key.value !in pending && item.key.value !in delivered
      requires Keyed([item])
      modifies this
      ensures Valid() && accepted == old(accepted) + [item] && queue == old(queue) + [item]
      ensures taskActive == active && delivered == old(delivered) && succeeded == old(succeeded)
    {
      ReportingFits(accepted, sequence, taskActive, item, active);
      QueueingFits(queue, succeeded, pending, delivered, item);
      assert item in [item];
      PutReports(sequence + 1, active, accepted + [item]);
      PutQueue(queue + [item], pending + KeySet(item), delivered, succeeded);
    }

    method PutReports(n: nat, active: bool, ghost items: seq<Item>)
      requires ReportsFit(items, n, active)
      modifies this`sequence, this`taskActive, this`accepted
      ensures ReportsFit(accepted, sequence, taskActive) && accepted == items && taskActive == active
    {
      sequence, taskActive, accepted := n, active, items;
    }

    method PutQueue(items: seq<Item>, waiting: set<string>, arrived: set<string>, ghost sent: seq<Item>)
      requires KeysFit(items, sent, waiting, arrived) && Keyed(items) && Keyed(sent)
      modifies this`queue, this`pending, this`delivered, this`succeeded
      ensures KeysFit(queue, succeeded, pending, delivered) && Keyed(queue) && Keyed(succeeded)
      ensures queue == items && pending == waiting && delivered == arrived && succeeded == sent
    {
      queue, pending, delivered, succeeded := items, waiting, arrived, sent;
    }

    /**
     * `report`: a start of a running task, and a decision that a waiting or arrived
     * report is about, are dropped; anything else is queued under the next number.
     */
    method Report(kind: Kind) returns (queued: bool)
      requires Valid() && FromRuntime(kind)
      modifies this
      ensures Valid() && succeeded == old(succeeded) && delivered == old(delivered)
      ensures queued <==>
        && !(kind == TaskStarted && Running(Kinds(old(accepted))))
        && !Mentioned(old(queue), kind) && !Mentioned(old(succeeded), kind)
      ensures !queued ==> accepted == old(accepted) && queue == old(queue) && taskActive == old(taskActive)
      ensures queued ==>
        && |accepted| == |old(accepted)| + 1 && accepted[..|old(accepted)|] == old(accepted)
        && var item := accepted[|old(accepted)|];
           && queue == old(queue) + [item] && item.sequence == |accepted|
           && Shows(kind, Running(Kinds(old(accepted))), item.kind)
    {
      DecisionIsKnown(kind);
      ProjectedShows(kind, taskActive);
      var sent, active := Latch(kind, taskActive);
      if sent.None? { return false; }
      var key := KeyOf(sent.value);
      if key.Some? && (key.value in delivered || key.value in pending) { return false; }
      Enqueue(Item(sent.value, sequence + 1, key), active);
      return true;
    }

    /** The two sets of keys tell whether a decision is being or was reported. */
    lemma DecisionIsKnown(kind: Kind)
      requires Valid() && FromRuntime(kind)
      ensures KeyOf(kind).Some? ==>
        && (KeyOf(kind).value in pending <==> Mentioned(queue, kind))
        && (KeyOf(kind).value in delivered <==> Mentioned(succeeded, kind))
      ensures KeyOf(kind).None? ==> !Mentioned(queue, kind) && !Mentioned(succeeded, kind)
    {
      if KeyOf(kind).Some? {
        KeyIsMentioned(queue, kind);
        KeyIsMentioned(succeeded, kind);
      }
    }

    /** The next queued report has been sent, with its retries; `ok` is how that ended. */
    method Deliver(ok: bool)
      requires Valid() && queue != []
      modifies this
      ensures Valid() && queue == old(queue)[1..] && accepted == old(accepted) && taskActive == old(taskActive)
      ensures succeeded == old(succeeded) + if ok then [old(queue)[0]] else []
    {
      DeliveringFits(queue, succeeded, pending, delivered, ok);
      PutQueue(queue[1..], pending - KeySet(queue[0]), delivered + if ok then KeySet(queue[0]) else {},
               succeeded + if ok then [queue[0]] else []);
    }
  }
}
