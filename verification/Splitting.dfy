/**
 * Greedy splitting of a list into chunks under a limit that every part of a chunk also
 * meets: no other split has fewer chunks.
 */
module Splitting {
  /** Whatever lies inside a chunk that fits, fits. */
  ghost predicate Hereditary<T(!new)>(fits: seq<T> -> bool) {
    forall a: seq<T>, b: seq<T>, c: seq<T> :: |b| > 0 && fits(a + b + c) ==> fits(b)
  }

  function Flatten<T>(chunks: seq<seq<T>>): seq<T> {
    if chunks == [] then [] else chunks[0] + Flatten(chunks[1..])
  }

  lemma {:induction false} FlattenAdds<T>(chunks: seq<seq<T>>, last: seq<T>)
    ensures Flatten(chunks + [last]) == Flatten(chunks) + last
    decreases |chunks|
  {
    if chunks == [] {
      assert chunks + [last] == [last] && [last][1..] == [];
    } else {
      FlattenAdds(chunks[1..], last);
      assert (chunks + [last])[1..] == chunks[1..] + [last];
      assert chunks[0] + (Flatten(chunks[1..]) + last) == (chunks[0] + Flatten(chunks[1..])) + last;
    }
  }

  /** Within the limits, unless it is one oversized entry. */
  ghost predicate WithinLimits<T>(fits: seq<T> -> bool, chunks: seq<seq<T>>) {
    forall i :: 0 <= i < |chunks| ==> fits(chunks[i]) || |chunks[i]| <= 1
  }

  ghost predicate NoneEmpty<T>(chunks: seq<seq<T>>) {
    forall i :: 0 <= i < |chunks| ==> chunks[i] != []
  }

  /** No chunk could have taken the entry that starts the next one. */
  ghost predicate Maximal<T>(fits: seq<T> -> bool, chunks: seq<seq<T>>)
    requires NoneEmpty(chunks)
  {
    forall i :: 0 <= i < |chunks| - 1 ==> !fits(chunks[i] + [chunks[i + 1][0]])
  }

  /** When two concatenations are equal, the longer first part starts with the shorter one. */
  lemma Overlap<T>(a: seq<T>, b: seq<T>, c: seq<T>, d: seq<T>)
    requires a + b == c + d && |a| <= |c|
    ensures c == a + c[|a|..] && b == c[|a|..] + d
  {
    assert a == (a + b)[..|a|] && c[..|a|] == (c + d)[..|a|];
    assert b == (a + b)[|a|..] && c[|a|..] + d == (c + d)[|a|..];
  }

  /** A chunk that reaches past the end of the first one shows that the first one had room. */
  lemma RoomForOneMore<T(!new)>(fits: seq<T> -> bool, chunks: seq<seq<T>>, skipped: seq<T>, taken: seq<T>, rest: seq<T>)
    requires Hereditary(fits) && chunks != [] && NoneEmpty(chunks)
    requires Flatten(chunks) == taken + rest && |taken| > |chunks[0]|
    requires fits(skipped + taken)
    ensures |chunks| > 1 && fits(chunks[0] + [chunks[1][0]])
  {
    var first, others := chunks[0], Flatten(chunks[1..]);
    assert first + others == taken + rest;
    Overlap(first, others, taken, rest);
    var more := taken[|first|..];
    assert others[0] == chunks[1][0] == more[0];
    assert skipped + taken == skipped + (first + [more[0]]) + more[1..];
    assert fits(skipped + (first + [more[0]]) + more[1..]);
  }

  /** So no split within the limits has a chunk that reaches past the end of a maximal one. */
  lemma TakesAtLeastAsMuch<T(!new)>(fits: seq<T> -> bool, chunks: seq<seq<T>>, skipped: seq<T>, taken: seq<T>, rest: seq<T>)
    requires Hereditary(fits) && chunks != [] && NoneEmpty(chunks) && Maximal(fits, chunks)
    requires taken != [] && Flatten(chunks) == taken + rest
    requires fits(skipped + taken) || |skipped + taken| <= 1
    ensures |taken| <= |chunks[0]|
  {
    if |taken| > |chunks[0]| {
      RoomForOneMore(fits, chunks, skipped, taken, rest);
      assert false;
    }
  }

  /** Maximal chunks need no more chunks than any other split, even one that has more left to cover. */
  lemma {:induction false} StaysAhead<T(!new)>(fits: seq<T> -> bool, chunks: seq<seq<T>>, other: seq<seq<T>>, behind: seq<T>)
    requires Hereditary(fits) && NoneEmpty(chunks) && Maximal(fits, chunks) && WithinLimits(fits, other)
    requires Flatten(other) == behind + Flatten(chunks)
    ensures |chunks| <= |other|
    decreases |other|
  {
    if chunks != [] {
      assert Flatten(chunks) != [];
      assert other != [];
      var first, rest := other[0], Flatten(other[1..]);
      assert first + rest == behind + Flatten(chunks);
      if |first| <= |behind| {
        Overlap(first, rest, behind, Flatten(chunks));
        StaysAhead(fits, chunks, other[1..], behind[|first|..]);
      } else {
        Overlap(behind, Flatten(chunks), first, rest);
        var taken := first[|behind|..];
        TakesAtLeastAsMuch(fits, chunks, behind, taken, rest);
        Overlap(taken, rest, chunks[0], Flatten(chunks[1..]));
        StaysAhead(fits, chunks[1..], other[1..], chunks[0][|taken|..]);
      }
    }
  }

  /** No split of these entries within the limits has fewer chunks. */
  ghost predicate Fewest<T(!new)>(fits: seq<T> -> bool, entries: seq<T>, chunks: seq<seq<T>>) {
    forall other :: Flatten(other) == entries && WithinLimits(fits, other) ==> |chunks| <= |other|
  }

  lemma FewestChunks<T(!new)>(fits: seq<T> -> bool, chunks: seq<seq<T>>)
    requires Hereditary(fits) && NoneEmpty(chunks) && Maximal(fits, chunks)
    ensures Fewest(fits, Flatten(chunks), chunks)
  {
    forall other | Flatten(other) == Flatten(chunks) && WithinLimits(fits, other) ensures |chunks| <= |other| {
      assert Flatten(other) == [] + Flatten(chunks);
      StaysAhead(fits, chunks, other, []);
    }
  }

  /** Closed chunks, and one that still grows. */
  ghost predicate Open<T>(fits: seq<T> -> bool, chunks: seq<seq<T>>, current: seq<T>) {
    && NoneEmpty(chunks) && WithinLimits(fits, chunks) && Maximal(fits, chunks)
    && (current == [] ==> chunks == [])
    && (fits(current) || |current| <= 1)
    && (chunks != [] ==> !fits(chunks[|chunks| - 1] + [current[0]]))
  }

  lemma Close<T>(fits: seq<T> -> bool, chunks: seq<seq<T>>, current: seq<T>)
    requires Open(fits, chunks, current) && current != []
    ensures NoneEmpty(chunks + [current]) && WithinLimits(fits, chunks + [current]) && Maximal(fits, chunks + [current])
    ensures Flatten(chunks + [current]) == Flatten(chunks) + current
  {
    FlattenAdds(chunks, current);
  }

  /** One more entry joins the current chunk, or starts a new one. */
  lemma OneMoreEntry<T>(fits: seq<T> -> bool, chunks: seq<seq<T>>, current: seq<T>, entry: T)
    requires Open(fits, chunks, current)
    ensures current == [] || fits(current + [entry]) ==> Open(fits, chunks, current + [entry])
    ensures current != [] && !fits(current + [entry]) ==> Open(fits, chunks + [current], [entry])
    ensures Flatten(chunks) + (current + [entry]) == (Flatten(chunks) + current) + [entry]
    ensures Flatten(chunks + [current]) + [entry] == (Flatten(chunks) + current) + [entry]
  {
    FlattenAdds(chunks, current);
    if current != [] {
      Close(fits, chunks, current);
    }
  }

  /** One pass over the entries: each joins the current chunk if it can. */
  method SplitBy<T(!new)>(fits: seq<T> -> bool, entries: seq<T>) returns (chunks: seq<seq<T>>)
    requires Hereditary(fits)
    ensures Flatten(chunks) == entries
    ensures NoneEmpty(chunks) && WithinLimits(fits, chunks) && Maximal(fits, chunks)
    ensures Fewest(fits, entries, chunks)
  {
    chunks := [];
    var current: seq<T> := [];
    for i := 0 to |entries|
      invariant Flatten(chunks) + current == entries[..i]
      invariant Open(fits, chunks, current)
    {
      var candidate := current + [entries[i]];
      OneMoreEntry(fits, chunks, current, entries[i]);
      assert entries[..i + 1] == entries[..i] + [entries[i]];
      if |current| > 0 && !fits(candidate) {
        chunks := chunks + [current];
        current := [entries[i]];
      } else {
        current := candidate;
      }
    }
    if |current| > 0 {
      Close(fits, chunks, current);
      chunks := chunks + [current];
    }
    assert entries[..|entries|] == entries;
    FewestChunks(fits, chunks);
  }

  /** There is only one maximal split within the limits. */
  lemma {:induction false} MaximalSplitIsUnique<T(!new)>(fits: seq<T> -> bool, a: seq<seq<T>>, b: seq<seq<T>>)
    requires Hereditary(fits) && NoneEmpty(a) && WithinLimits(fits, a) && Maximal(fits, a)
    requires NoneEmpty(b) && WithinLimits(fits, b) && Maximal(fits, b)
    requires Flatten(a) == Flatten(b)
    ensures a == b
    decreases |a|
  {
    assert (a == [] <==> Flatten(a) == []) && (b == [] <==> Flatten(b) == []);
    if a != [] && b != [] {
      assert [] + a[0] == a[0] && [] + b[0] == b[0];
      TakesAtLeastAsMuch(fits, a, [], b[0], Flatten(b[1..]));
      TakesAtLeastAsMuch(fits, b, [], a[0], Flatten(a[1..]));
      assert a[0] == Flatten(a)[..|a[0]|] == b[0];
      assert Flatten(a[1..]) == Flatten(a)[|a[0]|..] == Flatten(b[1..]);
      MaximalSplitIsUnique(fits, a[1..], b[1..]);
      assert a == [a[0]] + a[1..] && b == [b[0]] + b[1..];
    }
  }
}
