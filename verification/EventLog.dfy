/**
 * The append-only event log of the runs: dense sequence numbers, unique keys, and
 * filtered paging that a reader can follow while the log grows.
 */
module EventLog {
  import opened Wrappers

  datatype Visibility = Summary | Detail | Diagnostic | AuditOnly

  datatype Event = Event(id: string, run: string, sequence: nat, participant: string, task: string,
                         visibility: Visibility, key: string)

  /** An empty text or set does not filter. */
  datatype Filter = Filter(participant: string, task: string, visibility: set<Visibility>)

  datatype Page = Page(events: seq<Event>, next: nat, last: nat, hasMore: bool)

  predicate Shows(f: Filter, e: Event) {
    (f.participant == "" || e.participant == f.participant)
    && (f.task == "" || e.task == f.task)
    && (f.visibility == {} || e.visibility in f.visibility)
  }

  function Filtered(f: Filter, events: seq<Event>): seq<Event> {
    if events == [] then []
    else Filtered(f, events[..|events| - 1]) + Shown(f, events[|events| - 1])
  }

  function Shown(f: Filter, e: Event): seq<Event> {
    if Shows(f, e) then [e] else []
  }

  lemma {:induction false} FilteredMembers(f: Filter, events: seq<Event>)
    ensures forall e :: e in Filtered(f, events) <==> e in events && Shows(f, e)
  {
    if events != [] {
      FilteredMembers(f, events[..|events| - 1]);
      assert events == events[..|events| - 1] + [events[|events| - 1]];
    }
  }

  lemma {:induction false} FilteredAdds(f: Filter, a: seq<Event>, b: seq<Event>)
    ensures Filtered(f, a + b) == Filtered(f, a) + Filtered(f, b)
    decreases |b|
  {
    if b == [] {
      assert a + b == a;
    } else {
      var before, last := b[..|b| - 1], b[|b| - 1];
      FilteredAdds(f, a, before);
      assert (a + b)[..|a + b| - 1] == a + before;
      Regroup(Filtered(f, a), Filtered(f, before), Shown(f, last));
    }
  }

  lemma Regroup(a: seq<Event>, b: seq<Event>, c: seq<Event>)
    ensures (a + b) + c == a + (b + c)
  {
  }

  // ---- The table ----

  /** The rows of one run, oldest first. */
  function RunLog(rows: seq<Event>, run: string): seq<Event> {
    if rows == [] then []
    else RunLog(rows[..|rows| - 1], run) + if rows[|rows| - 1].run == run then [rows[|rows| - 1]] else []
  }

  lemma {:induction false} RunLogMembers(rows: seq<Event>, run: string)
    ensures forall e :: e in RunLog(rows, run) <==> e in rows && e.run == run
  {
    if rows != [] {
      RunLogMembers(rows[..|rows| - 1], run);
      assert rows == rows[..|rows| - 1] + [rows[|rows| - 1]];
    }
  }

  lemma RunLogAppends(rows: seq<Event>, e: Event, run: string)
    ensures RunLog(rows + [e], run) == RunLog(rows, run) + if run == e.run then [e] else []
  {
    assert (rows + [e])[..|rows|] == rows;
  }

  /** Sequence numbers 1, 2, 3 and so on. */
  ghost predicate Dense(log: seq<Event>) {
    forall i :: 0 <= i < |log| ==> log[i].sequence == i + 1
  }

  /** No event is stored twice: ids differ everywhere, non-empty keys within a run. */
  ghost predicate NoRepeats(rows: seq<Event>) {
    forall i, j :: 0 <= i < j < |rows| ==>
      rows[i].id != rows[j].id && !(rows[i].run == rows[j].run && rows[i].key == rows[j].key != "")
  }

  /** So within a run all ids differ, and all keys that are not empty. */
  lemma {:induction false} RunLogRepeatsNothing(rows: seq<Event>, run: string)
    requires NoRepeats(rows)
    ensures NoRepeats(RunLog(rows, run))
  {
    if rows != [] {
      var before, e := rows[..|rows| - 1], rows[|rows| - 1];
      RunLogRepeatsNothing(before, run);
      RunLogMembers(before, run);
      var log := RunLog(before, run);
      forall i | 0 <= i < |log| ensures log[i].id != e.id && !(log[i].run == e.run && log[i].key == e.key != "") {
        assert log[i] in log;
        var k :| 0 <= k < |before| && before[k] == log[i];
        assert rows[k] == log[i];
      }
    }
  }

  predicate Matches(e: Event, run: string, id: string, key: string) {
    e.id == id || (e.run == run && key != "" && e.key == key)
  }

  // ---- Whose event answers a repeated one ----

  /** A row the lookup may return for an event that is recorded again. */
  predicate MayAnswer(rows: seq<Event>, e: Event, run: string, id: string, key: string) {
    e in rows && Matches(e, run, id, key)
  }

  /**
   * Every row the lookup may return belongs to the caller's run exactly when no other
   * run has used the id, whether or not the caller's run has used the key.
   */
  lemma AnswersAreOwnExactlyWhen(rows: seq<Event>, run: string, id: string, key: string)
    ensures (forall e :: MayAnswer(rows, e, run, id, key) ==> e.run == run) <==>
      (forall i :: 0 <= i < |rows| && rows[i].id == id ==> rows[i].run == run)
  {
    forall i | 0 <= i < |rows| && rows[i].id == id && (forall e :: MayAnswer(rows, e, run, id, key) ==> e.run == run)
      ensures rows[i].run == run
    {
      assert MayAnswer(rows, rows[i], run, id, key);
    }
  }

  /** At most two rows match: one by the id, and one of the caller's own run by the key. */
  lemma AtMostTwoAnswers(rows: seq<Event>, run: string, id: string, key: string, a: Event, b: Event)
    requires NoRepeats(rows) && MayAnswer(rows, a, run, id, key) && MayAnswer(rows, b, run, id, key) && a != b
    ensures (a.id == id) != (b.id == id)
    ensures var byKey := if a.id == id then b else a; byKey.run == run && byKey.key == key != ""
  {
    var i :| 0 <= i < |rows| && rows[i] == a;
    var j :| 0 <= j < |rows| && rows[j] == b;
    assert i < j || j < i;
  }

  /** The log of a run has as many events as its counter says. */
  ghost predicate Counted(rows: seq<Event>, last: map<string, nat>) {
    && (forall i :: 0 <= i < |rows| ==> rows[i].run in last)
    && (forall run :: run in last ==> |RunLog(rows, run)| == last[run] && Dense(RunLog(rows, run)))
  }

  lemma AppendKeepsCount(rows: seq<Event>, last: map<string, nat>, e: Event)
    requires Counted(rows, last) && e.run in last && e.sequence == last[e.run] + 1
    ensures Counted(rows + [e], last[e.run := e.sequence])
  {
    forall run | run in last
      ensures |RunLog(rows + [e], run)| == last[e.run := e.sequence][run] && Dense(RunLog(rows + [e], run))
    {
      RunLogAppends(rows, e, run);
    }
  }

  lemma NewRunKeepsCount(rows: seq<Event>, last: map<string, nat>, run: string)
    requires Counted(rows, last) && run !in last
    ensures Counted(rows, last[run := 0])
  {
    RunLogMembers(rows, run);
    assert RunLog(rows, run) != [] ==> RunLog(rows, run)[0] in RunLog(rows, run);
    assert forall e :: e in rows ==> e.run in last;
  }

  // ---- A table in which that happens ----

  const FIRST_RUN: Event := Event("x", "r1", 1, "", "", Summary, "")
  const SECOND_RUN: Event := Event("y", "r2", 1, "", "", Summary, "k")

  const NO_EVENTS: map<string, nat> := map["r1" := 0, "r2" := 0]

  lemma FirstRunIsStored()
    ensures Counted([FIRST_RUN], NO_EVENTS["r1" := 1])
  {
    AppendKeepsCount([], NO_EVENTS, FIRST_RUN);
    assert [] + [FIRST_RUN] == [FIRST_RUN];
  }

  lemma BothRunsAreStored()
    ensures Counted([FIRST_RUN, SECOND_RUN], NO_EVENTS["r1" := 1]["r2" := 1])
  {
    FirstRunIsStored();
    AppendKeepsCount([FIRST_RUN], NO_EVENTS["r1" := 1], SECOND_RUN);
    assert [FIRST_RUN] + [SECOND_RUN] == [FIRST_RUN, SECOND_RUN];
  }

  /**
   * The second run records an event whose id the first run used: the first run's event
   * answers, alone or, if the second run used the key before, as one of two.
   */
  lemma ForeignEventAnswers()
    ensures var rows := [FIRST_RUN, SECOND_RUN];
      && NoRepeats(rows) && Counted(rows, NO_EVENTS["r1" := 1]["r2" := 1])
      && (forall e :: MayAnswer(rows, e, "r2", "x", "") <==> e == FIRST_RUN)
      && (forall e :: MayAnswer(rows, e, "r2", "x", "k") <==> e == FIRST_RUN || e == SECOND_RUN)
  {
    BothRunsAreStored();
  }

  // ---- Pages ----

  function Clamped(limit: int): (n: nat)
    ensures 1 <= n <= 200
  {
    if limit == 0 || limit > 200 then 200 else if limit < 1 then 1 else limit
  }

  function Smaller(a: nat, b: nat): nat {
    if a < b then a else b
  }

  /** The rows read for a page of a log with dense numbers. */
  function RowsAfter(log: seq<Event>, after: nat, limit: int): seq<Event> {
    var start := Smaller(after, |log|);
    log[start..Smaller(start + Clamped(limit), |log|)]
  }

  /** The page after a sequence number: the filter is applied to the rows read. */
  function PageOf(log: seq<Event>, after: nat, f: Filter, limit: int): Page {
    var read := RowsAfter(log, after, limit);
    var next := if read == [] then after else Smaller(after, |log|) + |read|;
    Page(Filtered(f, read), next, |log|, next < |log|)
  }

  /** The rows with a higher number. */
  function Later(log: seq<Event>, after: nat): seq<Event> {
    if log == [] then []
    else Later(log[..|log| - 1], after) + if log[|log| - 1].sequence > after then [log[|log| - 1]] else []
  }

  lemma SuffixGrows(before: seq<Event>, last: Event, after: nat)
    requires after <= |before|
    ensures (before + [last])[after..] == before[after..] + [last]
  {
  }

  lemma {:induction false} LaterIsSuffix(log: seq<Event>, after: nat)
    requires Dense(log)
    ensures Later(log, after) == log[Smaller(after, |log|)..]
  {
    if log != [] {
      var before, last := log[..|log| - 1], log[|log| - 1];
      LaterIsSuffix(before, after);
      assert log == before + [last];
      if after < |log| {
        SuffixGrows(before, last, after);
      }
    }
  }

  /** What a query for the rows with a higher number returns. */
  function Selected(log: seq<Event>, after: nat, limit: int): seq<Event> {
    var later := Later(log, after);
    later[..Smaller(Clamped(limit), |later|)]
  }

  /** Selecting rows by their number reads the page's rows, and the last of them tells where it ends. */
  lemma SelectedIsPage(log: seq<Event>, after: nat, limit: int)
    requires Dense(log)
    ensures var found := Selected(log, after, limit);
      && found == RowsAfter(log, after, limit)
      && (found != [] ==> found[|found| - 1].sequence == Smaller(after, |log|) + |found|)
  {
    LaterIsSuffix(log, after);
    var start, n := Smaller(after, |log|), Clamped(limit);
    var end := Smaller(start + n, |log|);
    assert Smaller(n, |log| - start) == end - start;
    assert log[start..][..end - start] == log[start..end];
    if start < end {
      assert log[start..end][end - start - 1] == log[end - 1];
    }
  }

  /** The page as it is put together from the selected rows and the run's counter. */
  function ReadPage(log: seq<Event>, after: nat, f: Filter, limit: int, last: nat): Page {
    var found := Selected(log, after, limit);
    var next := if found == [] then after else found[|found| - 1].sequence;
    Page(Filtered(f, found), next, last, next < last)
  }

  lemma ReadIsPage(log: seq<Event>, after: nat, f: Filter, limit: int)
    requires Dense(log)
    ensures ReadPage(log, after, f, limit, |log|) == PageOf(log, after, f, limit)
  {
    SelectedIsPage(log, after, limit);
  }

  lemma RowsAreNext(log: seq<Event>, after: nat, limit: int)
    requires after <= |log|
    ensures var read := RowsAfter(log, after, limit);
      after + |read| <= |log| && log[..after + |read|] == log[..after] + read && (read == [] <==> after == |log|)
  {
  }

  /** A page takes a reader who has seen the first `after` events exactly to the first `next` ones. */
  lemma PageContinues(log: seq<Event>, after: nat, f: Filter, limit: int)
    requires after <= |log|
    ensures var p := PageOf(log, after, f, limit);
      && after <= p.next <= |log|
      && Filtered(f, log[..p.next]) == Filtered(f, log[..after]) + p.events
      && (p.next == after ==> after == |log|)
      && (p.hasMore <==> p.next < |log|)
  {
    var read := RowsAfter(log, after, limit);
    RowsAreNext(log, after, limit);
    FilteredAdds(f, log[..after], read);
  }

  lemma PageOfPrefixContinues(log: seq<Event>, length: nat, after: nat, f: Filter, limit: int)
    requires after <= length <= |log|
    ensures var p := PageOf(log[..length], after, f, limit);
      && after <= p.next <= length
      && Filtered(f, log[..p.next]) == Filtered(f, log[..after]) + p.events
      && (p.next == after ==> after == length)
      && (p.hasMore <==> p.next < length)
  {
    var next := PageOf(log[..length], after, f, limit).next;
    PageContinues(log[..length], after, f, limit);
    assert log[..length][..after] == log[..after] && log[..length][..next] == log[..next];
  }

  /** How long the log is when a reader asks for page i; the list of lengths ends with the final one. */
  function LengthAt(lengths: seq<nat>, final: nat, i: nat): nat {
    if i < |lengths| then lengths[i] else final
  }

  ghost predicate Grows(lengths: seq<nat>, final: nat) {
    forall i, j :: 0 <= i <= j ==> LengthAt(lengths, final, i) <= LengthAt(lengths, final, j) <= final
  }

  /**
   * A reader who follows `next_sequence` while there is more stops, and has then read
   * the filtered log in order, each event once, although the log grew between pages.
   */
  method FollowPages(log: seq<Event>, lengths: seq<nat>, f: Filter, limit: int) returns (events: seq<Event>, pages: nat)
    requires Grows(lengths, |log|)
    ensures pages > 0 && LengthAt(lengths, |log|, pages - 1) <= |log|
    ensures events == Filtered(f, log[..LengthAt(lengths, |log|, pages - 1)])
  {
    events, pages := [], 0;
    var after: nat, more := 0, true;
    while more
      invariant after <= |log| && events == Filtered(f, log[..after])
      invariant more ==> after <= LengthAt(lengths, |log|, pages)
      invariant pages > 0 && more ==> after < LengthAt(lengths, |log|, pages - 1)
      invariant !more ==> pages > 0 && after == LengthAt(lengths, |log|, pages - 1)
      decreases more, if pages == 0 then 1 else 0, |log| - after
    {
      var length := LengthAt(lengths, |log|, pages);
      assert length <= LengthAt(lengths, |log|, pages + 1) && length <= |log|;
      assert pages > 0 ==> LengthAt(lengths, |log|, pages - 1) <= length;
      var page := PageOf(log[..length], after, f, limit);
      PageOfPrefixContinues(log, length, after, f, limit);
      events := events + page.events;
      after, more, pages := page.next, page.hasMore, pages + 1;
    }
  }

  // ---- What a page means ----

  ghost predicate Ascending(events: seq<Event>) {
    forall i, j :: 0 <= i < j < |events| ==> events[i].sequence < events[j].sequence
  }

  lemma {:induction false} FilteredAscends(f: Filter, events: seq<Event>)
    requires Ascending(events)
    ensures Ascending(Filtered(f, events))
  {
    if events != [] {
      var before, last := events[..|events| - 1], events[|events| - 1];
      FilteredAscends(f, before);
      FilteredMembers(f, before);
      var kept := Filtered(f, before);
      forall i | 0 <= i < |kept| ensures kept[i].sequence < last.sequence {
        assert kept[i] in kept;
        var k :| 0 <= k < |before| && before[k] == kept[i];
        assert events[k] == kept[i];
      }
    }
  }

  /** A page reads 200 rows at most, and as many when no limit is given; no less than one. */
  ghost predicate MostRows(limit: int, n: nat) {
    if limit == 0 || limit > 200 then n == 200 else if limit < 0 then n == 1 else n == limit
  }

  /** The events a page is to show: of this run, with numbers up to `next`, and all that is asked for matches. */
  ghost predicate OnPage(rows: seq<Event>, run: string, from: int, next: int, f: Filter, e: Event) {
    && e in rows && e.run == run && from < e.sequence <= next
    && (f.participant != "" ==> e.participant == f.participant)
    && (f.task != "" ==> e.task == f.task)
    && (f.visibility != {} ==> e.visibility in f.visibility)
  }

  ghost predicate PageShows(rows: seq<Event>, run: string, last: nat, from: nat, f: Filter, limit: int, page: Page) {
    && Ascending(page.events) && (forall e :: e in page.events <==> OnPage(rows, run, from, page.next, f, e))
    && page.last == last && (page.hasMore <==> page.next < last)
    && (from >= last ==> page.next == from)
    && (from < last ==> exists n: nat :: MostRows(limit, n) && page.next == if last - from < n then last else from + n)
  }

  lemma RowsReadAre(log: seq<Event>, after: nat, limit: int, e: Event)
    requires Dense(log)
    ensures e in RowsAfter(log, after, limit) <==> e in log && after < e.sequence <= PageOf(log, after, Filter("", "", {}), limit).next
  {
    var start := Smaller(after, |log|);
    var end := Smaller(start + Clamped(limit), |log|);
    if e in log {
      var k :| 0 <= k < |log| && log[k] == e;
      if start <= k < end {
        assert log[start..end][k - start] == e;
      }
    }
  }

  lemma PageMeans(rows: seq<Event>, run: string, from: nat, f: Filter, limit: int)
    requires Dense(RunLog(rows, run))
    ensures PageShows(rows, run, |RunLog(rows, run)|, from, f, limit, PageOf(RunLog(rows, run), from, f, limit))
  {
    var log := RunLog(rows, run);
    var read, page := RowsAfter(log, from, limit), PageOf(log, from, f, limit);
    RunLogMembers(rows, run);
    FilteredMembers(f, read);
    FilteredAscends(f, read);
    forall e ensures e in page.events <==> OnPage(rows, run, from, page.next, f, e) {
      RowsReadAre(log, from, limit, e);
    }
    assert MostRows(limit, Clamped(limit));
  }

  datatype EventError = RunNotFound

  class EventStore {
    var rows: seq<Event>
    var last: map<string, nat>

    ghost predicate Valid()
      reads this
    {
      NoRepeats(rows) && Counted(rows, last)
    }

    constructor ()
      ensures Valid() && rows == [] && last == map[]
    {
      rows, last := [], map[];
    }

    method AddRun(run: string)
      requires Valid() && run !in last
      modifies this`last
      ensures Valid() && last == old(last)[run := 0]
    {
      NewRunKeepsCount(rows, last, run);
      last := last[run := 0];
    }

    method Append(e: Event)
      requires Valid() && e.run in last && e.sequence == last[e.run] + 1
      requires forall i :: 0 <= i < |rows| ==> !Matches(rows[i], e.run, e.id, e.key)
      modifies this
      ensures Valid() && rows == old(rows) + [e] && last == old(last)[e.run := e.sequence]
    {
      AppendKeepsCount(rows, last, e);
      rows, last := rows + [e], last[e.run := e.sequence];
    }

    /** The row an earlier delivery of the same event left. */
    method FindExisting(run: string, id: string, key: string) returns (found: Option<nat>)
      ensures found.Some? ==> found.value < |rows| && Matches(rows[found.value], run, id, key)
      ensures found.None? ==> forall i :: 0 <= i < |rows| ==> !Matches(rows[i], run, id, key)
    {
      for i := 0 to |rows|
        invariant forall k :: 0 <= k < i ==> !Matches(rows[k], run, id, key)
      {
        if Matches(rows[i], run, id, key) { return Some(i); }
      }
      return None;
    }

    /** `recordExecutionEvent`: an event is stored once, with the next number of its run. */
    method RecordExecutionEvent(input: Event) returns (r: Outcome<EventError>, duplicate: bool, event: Event)
      requires Valid()
      modifies this
      ensures Valid() && (r.Ok? <==> input.run in old(last))
      ensures duplicate <==> r.Ok? && exists i :: 0 <= i < |old(rows)| && Matches(old(rows)[i], input.run, input.id, input.key)
      ensures duplicate ==> MayAnswer(old(rows), event, input.run, input.id, input.key)
      ensures duplicate && event.run != input.run ==> event.id == input.id
      ensures !r.Ok? || duplicate ==> rows == old(rows) && last == old(last)
      ensures r.Ok? && !duplicate ==>
        && event == input.(sequence := old(last)[input.run] + 1)
        && rows == old(rows) + [event] && last == old(last)[input.run := event.sequence]
    {
      if input.run !in last { return Refused(RunNotFound), false, input; }
      var found := FindExisting(input.run, input.id, input.key);
      if found.Some? { return Ok, true, rows[found.value]; }
      event := input.(sequence := last[input.run] + 1);
      Append(event);
      return Ok, false, event;
    }

    /** `listExecutionEventPage`: the rows after a number, at most the limit, and of these the ones the filter shows. */
    method ListExecutionEventPage(run: string, afterSequence: int, f: Filter, limit: int) returns (page: Option<Page>)
      requires Valid()
      ensures page.Some? <==> run in last
      ensures page.Some? ==> page.value == PageOf(RunLog(rows, run), if afterSequence < 0 then 0 else afterSequence, f, limit)
      ensures page.Some? ==> PageShows(rows, run, last[run], if afterSequence < 0 then 0 else afterSequence, f, limit, page.value)
    {
      if run !in last { return None; }
      var after := if afterSequence < 0 then 0 else afterSequence;
      ReadIsPage(RunLog(rows, run), after, f, limit);
      PageMeans(rows, run, after, f, limit);
      page := Some(ReadPage(RunLog(rows, run), after, f, limit, last[run]));
    }
  }
}
