/**
 * Which conversations a scan looks at: the most recent ones, and a window over the
 * older ones that moves on from scan to scan.
 */
module HistoryRotation {
  import opened JsonText
  import opened Canonical

  const RECENT_SCAN_SIZE := 100
  const ROTATING_SCAN_SIZE := 100
  const CATALOG_PAGE_SIZE := 200

  function Smaller(a: nat, b: nat): nat {
    if a < b then a else b
  }

  /** The first row after the cursor, or the first of all. */
  function StartIndex(older: seq<Text>, cursor: Text): (i: nat)
    ensures i < |older| || i == 0
  {
    var i := FirstAfter(older, cursor);
    if i == |older| then 0 else i
  }

  function FirstAfter(older: seq<Text>, cursor: Text): (i: nat)
    ensures i <= |older|
  {
    if older == [] || Less(cursor, older[0]) then 0 else FirstAfter(older[1..], cursor) + 1
  }

  lemma {:induction false} FirstAfterIsFirst(older: seq<Text>, cursor: Text)
    ensures FirstAfter(older, cursor) < |older| ==> Less(cursor, older[FirstAfter(older, cursor)])
    ensures forall k :: 0 <= k < FirstAfter(older, cursor) ==> !Less(cursor, older[k])
  {
    if older != [] && !Less(cursor, older[0]) {
      FirstAfterIsFirst(older[1..], cursor);
      forall k | 0 < k < FirstAfter(older, cursor) ensures !Less(cursor, older[k]) {
        assert older[k] == older[1..][k - 1];
      }
    }
  }

  /** The older rows from the cursor on, wrapped around, as many as one scan takes. */
  function Window(older: seq<Text>, cursor: Text): (w: seq<Text>)
    ensures |w| == Smaller(|older|, ROTATING_SCAN_SIZE)
  {
    var start := StartIndex(older, cursor);
    (older[start..] + older[..start])[..Smaller(|older|, ROTATING_SCAN_SIZE)]
  }

  /** The cursor after k rows of the window were dealt with. */
  function CursorAfter(older: seq<Text>, cursor: Text, k: nat): Text
    requires k <= |Window(older, cursor)|
  {
    if k == 0 then cursor else Window(older, cursor)[k - 1]
  }

  /** A scan takes up where the one before stopped. */
  lemma NextRowFollows(older: seq<Text>, i: nat)
    requires Increasing(older) && i < |older|
    ensures StartIndex(older, older[i]) == if i + 1 == |older| then 0 else i + 1
  {
    FirstAfterIsFirst(older, older[i]);
    forall j | 0 <= j <= i ensures !Less(older[i], older[j]) {
      LessIsTotal(older[j], older[i]);
    }
    assert i + 1 < |older| ==> Less(older[i], older[i + 1]);
  }

  /** i modulo n. */
  function Wrap(i: nat, n: nat): (r: nat)
    requires n > 0
    ensures r < n
  {
    if i < n then i else Wrap(i - n, n)
  }

  lemma {:induction false} WrapNext(i: nat, n: nat)
    requires n > 0
    ensures Wrap(i + 1, n) == if Wrap(i, n) + 1 == n then 0 else Wrap(i, n) + 1
  {
    if i >= n {
      WrapNext(i - n, n);
    }
  }

  lemma {:induction false} WrapAdds(a: nat, b: nat, n: nat)
    requires n > 0
    ensures Wrap(Wrap(a, n) + b, n) == Wrap(a + b, n)
    decreases b, a
  {
    if b > 0 {
      WrapAdds(a, b - 1, n);
      WrapNext(Wrap(a, n) + (b - 1), n);
      WrapNext(a + (b - 1), n);
    } else if a >= n {
      WrapAdds(a - n, 0, n);
    }
  }

  /** These rows follow each other in cyclic order, from row number s on. */
  ghost predicate CyclicFrom(older: seq<Text>, s: nat, rows: seq<Text>) {
    forall j :: 0 <= j < |rows| ==> older != [] && rows[j] == older[Wrap(s + j, |older|)]
  }

  lemma CyclicJoins(older: seq<Text>, s: nat, a: seq<Text>, b: seq<Text>, next: nat)
    requires CyclicFrom(older, s, a) && CyclicFrom(older, next, b)
    requires older != [] && next == Wrap(s + |a|, |older|)
    ensures CyclicFrom(older, s, a + b)
  {
    forall j | |a| <= j < |a + b| ensures (a + b)[j] == older[Wrap(s + j, |older|)] {
      WrapAdds(s + |a|, j - |a|, |older|);
      assert (a + b)[j] == b[j - |a|];
    }
  }

  /** One scan takes rows in cyclic order from the cursor, and sorted rows not twice. */
  lemma {:induction false} WindowIsCyclic(older: seq<Text>, cursor: Text)
    ensures CyclicFrom(older, StartIndex(older, cursor), Window(older, cursor))
    ensures Increasing(older) ==>
      forall i, j :: 0 <= i < j < |Window(older, cursor)| ==> Window(older, cursor)[i] != Window(older, cursor)[j]
  {
    var start, n, w := StartIndex(older, cursor), |older|, Window(older, cursor);
    forall j | 0 <= j < |w| ensures w[j] == older[Wrap(start + j, n)] {
      if start + j >= n {
        assert Wrap(start + j, n) == start + j - n;
      }
    }
    if Increasing(older) {
      forall i, j | 0 <= i < j < |w| ensures w[i] != w[j] {
        CloseNumbersDiffer(start + i, start + j, n);
        IncreasingIsInjective(older, Wrap(start + i, n), Wrap(start + j, n));
      }
    }
  }

  // ---- Scan after scan ----

  /** Scan number i deals with ks[i] rows of its window; fewer than the whole window if it was cut short. */
  ghost predicate Lengths(older: seq<Text>, ks: seq<nat>) {
    forall i :: 0 <= i < |ks| ==> ks[i] <= Smaller(|older|, ROTATING_SCAN_SIZE)
  }

  function Sum(ks: seq<nat>): nat {
    if ks == [] then 0 else ks[0] + Sum(ks[1..])
  }

  /** The rows dealt with by a series of scans, in order. */
  function Visits(older: seq<Text>, cursor: Text, ks: seq<nat>): (v: seq<Text>)
    requires Lengths(older, ks)
    ensures |v| == Sum(ks)
    decreases |ks|
  {
    if ks == [] then []
    else Window(older, cursor)[..ks[0]] + Visits(older, CursorAfter(older, cursor, ks[0]), ks[1..])
  }

  /** The scan after a row starts at the next row, as `NextRowFollows` shows for sorted rows. */
  ghost predicate Resumes(older: seq<Text>) {
    forall i :: 0 <= i < |older| ==> StartIndex(older, older[i]) == Wrap(i + 1, |older|)
  }

  lemma SortedRowsResume(older: seq<Text>)
    requires Increasing(older)
    ensures Resumes(older)
  {
    forall i | 0 <= i < |older| ensures StartIndex(older, older[i]) == Wrap(i + 1, |older|) {
      NextRowFollows(older, i);
    }
  }

  lemma CursorMoves(older: seq<Text>, cursor: Text, k: nat)
    requires Resumes(older) && older != [] && k <= |Window(older, cursor)|
    ensures StartIndex(older, CursorAfter(older, cursor, k)) == Wrap(StartIndex(older, cursor) + k, |older|)
  {
    var start, n, w := StartIndex(older, cursor), |older|, Window(older, cursor);
    if k > 0 {
      WindowIsCyclic(older, cursor);
      var last := Wrap(start + (k - 1), n);
      assert w[k - 1] == older[last];
      WrapAdds(start + (k - 1), 1, n);
    }
  }

  /** Whatever the scans' lengths, the rows are dealt with in cyclic order, none skipped and none repeated early. */
  lemma {:induction false} VisitsAreCyclic(older: seq<Text>, cursor: Text, ks: seq<nat>)
    requires Resumes(older) && Lengths(older, ks) && older != []
    ensures CyclicFrom(older, StartIndex(older, cursor), Visits(older, cursor, ks))
    decreases |ks|
  {
    if ks != [] {
      var k, next := ks[0], CursorAfter(older, cursor, ks[0]);
      var first, later := Window(older, cursor)[..k], Visits(older, next, ks[1..]);
      assert CyclicFrom(older, StartIndex(older, cursor), first) by {
        WindowIsCyclic(older, cursor);
      }
      CursorMoves(older, cursor, k);
      VisitsAreCyclic(older, next, ks[1..]);
      CyclicJoins(older, StartIndex(older, cursor), first, later, StartIndex(older, next));
      assert Visits(older, cursor, ks) == first + later;
    }
  }

  lemma {:induction false} SumOfFullScans(older: seq<Text>, ks: seq<nat>)
    requires forall i :: 0 <= i < |ks| ==> ks[i] == Smaller(|older|, ROTATING_SCAN_SIZE)
    ensures |older| <= |ks| * ROTATING_SCAN_SIZE && older != [] ==> Sum(ks) >= |older|
    ensures Sum(ks) == |ks| * Smaller(|older|, ROTATING_SCAN_SIZE)
  {
    if ks != [] {
      SumOfFullScans(older, ks[1..]);
    }
  }

  /** Once as many rows were dealt with as there are, every row was among them. */
  lemma EnoughVisitsReachAll(older: seq<Text>, cursor: Text, ks: seq<nat>, row: nat)
    requires Increasing(older) && Lengths(older, ks) && Sum(ks) >= |older| && row < |older|
    ensures older[row] in Visits(older, cursor, ks)
  {
    var start, n := StartIndex(older, cursor), |older|;
    var j := if row >= start then row - start else row + n - start;
    assert Wrap(start + j, n) == row;
    SortedRowsResume(older);
    VisitsAreCyclic(older, cursor, ks);
    assert Visits(older, cursor, ks)[j] == older[row];
  }

  /** For n older rows, n / 100 rounded up full scans deal with every one of them, from any cursor. */
  lemma RotationIsFair(older: seq<Text>, cursor: Text, ks: seq<nat>)
    requires Increasing(older)
    requires |ks| >= (|older| + ROTATING_SCAN_SIZE - 1) / ROTATING_SCAN_SIZE
    requires forall i :: 0 <= i < |ks| ==> ks[i] == Smaller(|older|, ROTATING_SCAN_SIZE)
    ensures forall id :: id in older ==> id in Visits(older, cursor, ks)
  {
    SumOfFullScans(older, ks);
    forall id | id in older ensures id in Visits(older, cursor, ks) {
      var row :| 0 <= row < |older| && older[row] == id;
      EnoughVisitsReachAll(older, cursor, ks, row);
    }
  }

  /** Fewer scans do not do: the bound is exact. */
  lemma FewerScansMissSome(older: seq<Text>, cursor: Text, ks: seq<nat>) returns (missed: Text)
    requires Increasing(older) && older != [] && Lengths(older, ks)
    requires |ks| < (|older| + ROTATING_SCAN_SIZE - 1) / ROTATING_SCAN_SIZE
    ensures missed in older && missed !in Visits(older, cursor, ks)
  {
    var start, n, total := StartIndex(older, cursor), |older|, Sum(ks);
    SumAtMost(ks);
    SortedRowsResume(older);
    var at := Wrap(start + total, n);
    missed := older[at];
    VisitsAreCyclic(older, cursor, ks);
    CyclicRowsMissNext(older, start, Visits(older, cursor, ks));
  }

  /** Fewer rows in cyclic order than there are do not contain the one that would come next. */
  lemma CyclicRowsMissNext(older: seq<Text>, s: nat, rows: seq<Text>)
    requires Increasing(older) && |rows| < |older| && CyclicFrom(older, s, rows)
    ensures older[Wrap(s + |rows|, |older|)] !in rows
  {
    var n := |older|;
    var at := Wrap(s + |rows|, n);
    forall j | 0 <= j < |rows| ensures rows[j] != older[at] {
      CloseNumbersDiffer(s + j, s + |rows|, n);
      var other := Wrap(s + j, n);
      assert other != at && rows[j] == older[other];
      IncreasingIsInjective(older, other, at);
    }
  }

  lemma IncreasingIsInjective(older: seq<Text>, i: nat, k: nat)
    requires Increasing(older) && i < |older| && k < |older| && i != k
    ensures older[i] != older[k]
  {
    LessIsTotal(older[i], older[k]);
  }

  lemma {:induction false} SumAtMost(ks: seq<nat>)
    requires forall i :: 0 <= i < |ks| ==> ks[i] <= ROTATING_SCAN_SIZE
    ensures Sum(ks) <= |ks| * ROTATING_SCAN_SIZE
  {
    if ks != [] {
      SumAtMost(ks[1..]);
    }
  }

  lemma CloseNumbersDiffer(a: nat, b: nat, n: nat)
    requires a < b < a + n
    ensures Wrap(a, n) != Wrap(b, n)
  {
    WrapAdds(a, b - a, n);
    var c := Wrap(a, n) + (b - a);
    if c >= n {
      assert Wrap(c, n) == c - n;
    }
  }

  // ---- The scan ----

  function Older(rows: seq<Text>): seq<Text> {
    Sort(rows[Smaller(|rows|, RECENT_SCAN_SIZE)..])
  }

  /** Where a series of scans leaves the cursor. */
  function CursorAtEnd(older: seq<Text>, cursor: Text, ks: seq<nat>): Text
    requires Lengths(older, ks)
    decreases |ks|
  {
    if ks == [] then cursor else CursorAtEnd(older, CursorAfter(older, cursor, ks[0]), ks[1..])
  }

  lemma {:induction false} OneMoreScan(older: seq<Text>, cursor: Text, ks: seq<nat>, k: nat)
    requires Lengths(older, ks) && k <= Smaller(|older|, ROTATING_SCAN_SIZE)
    ensures Lengths(older, ks + [k])
    ensures var c := CursorAtEnd(older, cursor, ks);
      && Visits(older, cursor, ks + [k]) == Visits(older, cursor, ks) + Window(older, c)[..k]
      && CursorAtEnd(older, cursor, ks + [k]) == CursorAfter(older, c, k)
    decreases |ks|
  {
    if ks == [] {
      assert ks + [k] == [k] && [k][1..] == [];
    } else {
      var next := CursorAfter(older, cursor, ks[0]);
      OneMoreScan(older, next, ks[1..], k);
      assert (ks + [k])[1..] == ks[1..] + [k];
      Regroup(Window(older, cursor)[..ks[0]], Visits(older, next, ks[1..]),
              Window(older, CursorAtEnd(older, next, ks[1..]))[..k]);
    }
  }

  lemma Regroup(a: seq<Text>, b: seq<Text>, c: seq<Text>)
    ensures (a + b) + c == a + (b + c)
  {
  }

  /** The catalogue, read page by page. */
  method ReadCatalog(catalog: seq<Text>) returns (rows: seq<Text>)
    ensures rows == catalog
  {
    rows := [];
    var offset := 0;
    while true
      invariant offset <= |catalog| && rows == catalog[..offset]
      decreases |catalog| - offset
    {
      var page := catalog[offset..Smaller(offset + CATALOG_PAGE_SIZE, |catalog|)];
      rows := rows + page;
      if |page| < CATALOG_PAGE_SIZE { return; }
      offset := offset + CATALOG_PAGE_SIZE;
    }
  }

  class HistoryScan {
    const catalog: seq<Text>
    var cursor: Text
    ghost const first: Text
    ghost var lengths: seq<nat>
    ghost var visited: seq<Text>

    /** The older rows looked at so far are those of scans over an unchanged catalogue. */
    ghost predicate Valid()
      reads this
    {
      && Lengths(Older(catalog), lengths)
      && visited == Visits(Older(catalog), first, lengths)
      && cursor == CursorAtEnd(Older(catalog), first, lengths)
    }

    constructor (catalog: seq<Text>, saved: Text)
      ensures Valid() && this.catalog == catalog && cursor == saved && visited == []
    {
      this.catalog, cursor, first, lengths, visited := catalog, saved, saved, [], [];
    }

    /** `selectConversations`. */
    method SelectConversations() returns (recent: seq<Text>, rotating: seq<Text>)
      ensures recent == catalog[..Smaller(|catalog|, RECENT_SCAN_SIZE)]
      ensures rotating == Window(Older(catalog), cursor)
    {
      var rows := ReadCatalog(catalog);
      recent := rows[..Smaller(|rows|, RECENT_SCAN_SIZE)];
      var older := Sort(rows[Smaller(|rows|, RECENT_SCAN_SIZE)..]);
      var start := FirstAfter(older, cursor);
      var rotated := if start == |older| then older else older[start..] + older[..start];
      assert start == |older| ==> older[0..] + older[..0] == older;
      rotating := rotated[..Smaller(|older|, ROTATING_SCAN_SIZE)];
    }

    method PutCursor(id: Text)
      modifies this`cursor
      ensures cursor == id
    {
      cursor := id;
    }

    /** One scan that deals with k rows of its window; each moves the saved cursor. */
    method Scan(k: nat)
      requires Valid() && k <= Smaller(|Older(catalog)|, ROTATING_SCAN_SIZE)
      modifies this
      ensures Valid() && lengths == old(lengths) + [k]
      ensures cursor == CursorAfter(Older(catalog), old(cursor), k)
      ensures visited == old(visited) + Window(Older(catalog), old(cursor))[..k]
    {
      var recent, rotating := SelectConversations();
      OneMoreScan(Older(catalog), first, lengths, k);
      for i := 0 to k
        invariant lengths == old(lengths) && visited == old(visited)
        invariant cursor == CursorAfter(Older(catalog), old(cursor), i)
      {
        PutCursor(rotating[i]);
      }
      Note(k, rotating[..k]);
    }

    ghost method Note(k: nat, rows: seq<Text>)
      modifies this`lengths, this`visited
      ensures lengths == old(lengths) + [k] && visited == old(visited) + rows
    {
      lengths, visited := lengths + [k], visited + rows;
    }
  }
}
