/**
 * Splitting a transcript into upload chunks: as few as the limits on entries and bytes
 * allow.
 */
module HistoryChunks {
  import opened JsonText
  import opened Canonical
  import opened Splitting
  import Utf8

  const MAX_ENTRIES := 100
  const MAX_APPROX_BYTES := 220 * 1024

  function UnitBytes(c: CodeUnit): nat {
    if c < 0x80 then 1 else if c < 0x800 then 2 else 3
  }

  /** The length of the text in UTF-8; a surrogate pair takes four bytes. */
  function Utf8Length(t: Text): nat {
    if t == [] then 0
    else if |t| > 1 && IsHigh(t[0]) && IsLow(t[1]) then 4 + Utf8Length(t[2..])
    else UnitBytes(t[0]) + Utf8Length(t[1..])
  }

  /** That is how many bytes encoding the text takes, lone surrogates replaced. */
  lemma {:induction false} LengthIsBytes(t: Text)
    ensures Utf8Length(t) == |Utf8.Encode(t)|
    decreases |t|
  {
    if t != [] {
      LengthIsBytes(t[Utf8.FirstUnits(t)..]);
    }
  }

  lemma {:induction false} LengthAdds(a: Text, b: Text)
    requires b == [] || !IsLow(b[0])
    ensures Utf8Length(a + b) == Utf8Length(a) + Utf8Length(b)
    decreases |a|
  {
    if a == [] {
      assert a + b == b;
    } else if |a| > 1 && IsHigh(a[0]) && IsLow(a[1]) {
      LengthAdds(a[2..], b);
      assert (a + b)[2..] == a[2..] + b;
    } else {
      LengthAdds(a[1..], b);
      assert (a + b)[1..] == a[1..] + b;
      assert (a + b)[0] == a[0] && (|a| > 1 ==> (a + b)[1] == a[1]);
    }
  }

  function Size(entries: seq<Value>): nat {
    Utf8Length(CanonicalText(List(entries)))
  }

  predicate Fits(chunk: seq<Value>) {
    |chunk| <= MAX_ENTRIES && Size(chunk) <= MAX_APPROX_BYTES
  }

  lemma {:induction false} ItemTextsAdd(a: seq<Value>, b: seq<Value>)
    ensures ItemTexts(a + b) == ItemTexts(a) + ItemTexts(b)
    decreases |a|
  {
    if a == [] {
      assert a + b == b;
    } else {
      ItemTextsAdd(a[1..], b);
      assert (a + b)[1..] == a[1..] + b;
      FirstStays(ItemTexts(a)[0], ItemTexts(a[1..]), ItemTexts(b));
    }
  }

  lemma FirstStays(first: Text, a: seq<Text>, b: seq<Text>)
    ensures [first] + (a + b) == ([first] + a) + b
  {
  }

  lemma {:induction false} JoinedAdds(a: seq<Text>, b: seq<Text>)
    requires a != [] && b != []
    ensures Joined(a + b) == Joined(a) + ([COMMA] + Joined(b))
    decreases |a|
  {
    assert (a + b)[1..] == a[1..] + b;
    if |a| > 1 {
      JoinedAdds(a[1..], b);
      Reassociate(a[0], Joined(a[1..]), [COMMA] + Joined(b));
    } else {
      assert (a + b)[1..] == b;
      assert a[0] + [COMMA] + Joined(b) == a[0] + ([COMMA] + Joined(b));
    }
  }

  lemma Reassociate(a: Text, b: Text, c: Text)
    ensures a + [COMMA] + (b + c) == (a + [COMMA] + b) + c
  {
  }

  function Weight(entries: seq<Value>): nat {
    Utf8Length(Joined(ItemTexts(entries)))
  }

  lemma SizeIsWeight(entries: seq<Value>)
    ensures Size(entries) == Weight(entries) + 2
  {
    var inner := Joined(ItemTexts(entries));
    LengthAdds([OPEN_ARRAY] + inner, [CLOSE_ARRAY]);
    assert ([OPEN_ARRAY] + inner)[1..] == inner;
    assert [CLOSE_ARRAY][1..] == [];
  }

  lemma WeightAdds(a: seq<Value>, b: seq<Value>)
    requires a != [] && b != []
    ensures Weight(a + b) == Weight(a) + 1 + Weight(b)
  {
    ItemTextsAdd(a, b);
    JoinedAdds(ItemTexts(a), ItemTexts(b));
    var right := Joined(ItemTexts(b));
    LengthAdds(Joined(ItemTexts(a)), [COMMA] + right);
    assert ([COMMA] + right)[1..] == right;
  }

  /** Whatever lies inside a chunk that fits, fits. */
  lemma SubrangeFits(a: seq<Value>, b: seq<Value>, c: seq<Value>)
    requires Fits(a + b + c) && b != []
    ensures Fits(b)
  {
    SizeIsWeight(a + b + c);
    SizeIsWeight(b);
    if c != [] {
      WeightAdds(a + b, c);
    } else {
      assert a + b + c == a + b;
    }
    if a != [] {
      WeightAdds(a, b);
    } else {
      assert a + b == b;
    }
  }

  /** The bytes in which a chunk of these entries is measured. */
  ghost function Bytes(entries: seq<Value>): seq<Utf8.Byte> {
    Utf8.Encode(CanonicalText(List(entries)))
  }

  /** One entry, or up to 100 entries in up to 225,280 bytes. */
  ghost predicate Uploadable(chunk: seq<Value>) {
    |chunk| <= 1 || (|chunk| <= 100 && |Bytes(chunk)| <= 225_280)
  }

  /**
   * `splitEntries`.  A chunk of more than one entry has at most 100 of them and its
   * canonical text takes at most 225,280 bytes; the next entry would exceed one of the
   * two; and no split within them has fewer chunks.
   */
  method SplitEntries(entries: seq<Value>) returns (chunks: seq<seq<Value>>)
    ensures Flatten(chunks) == entries
    ensures forall chunk :: chunk in chunks ==> chunk != [] && Uploadable(chunk)
    ensures forall i, j :: 0 <= i && j == i + 1 < |chunks| ==>
      chunks[j] != [] && (|chunks[i]| >= 100 || |Bytes(chunks[i] + [chunks[j][0]])| > 225_280)
    ensures forall other :: Flatten(other) == entries && (forall chunk :: chunk in other ==> Uploadable(chunk)) ==>
      |chunks| <= |other|
  {
    SubrangesFit();
    chunks := SplitBy(Fits, entries);
    LimitsMean(chunks);
    MaximalMeans(chunks);
    FewestMeans(entries, chunks);
  }

  lemma LimitsMean(chunks: seq<seq<Value>>)
    ensures WithinLimits(Fits, chunks) <==> forall chunk :: chunk in chunks ==> Uploadable(chunk)
  {
    forall i | 0 <= i < |chunks| ensures Uploadable(chunks[i]) <==> Fits(chunks[i]) || |chunks[i]| <= 1 {
      FitsMeans(chunks[i]);
    }
    if WithinLimits(Fits, chunks) {
      forall chunk | chunk in chunks ensures Uploadable(chunk) {
        var i :| 0 <= i < |chunks| && chunks[i] == chunk;
      }
    }
    if forall chunk :: chunk in chunks ==> Uploadable(chunk) {
      forall i | 0 <= i < |chunks| ensures Fits(chunks[i]) || |chunks[i]| <= 1 {
        assert chunks[i] in chunks;
      }
    }
  }

  lemma MaximalMeans(chunks: seq<seq<Value>>)
    requires NoneEmpty(chunks) && Maximal(Fits, chunks)
    ensures forall i, j :: 0 <= i && j == i + 1 < |chunks| ==>
      |chunks[i]| >= 100 || |Bytes(chunks[i] + [chunks[j][0]])| > 225_280
  {
    forall i, j | 0 <= i && j == i + 1 < |chunks|
      ensures |chunks[i]| >= 100 || |Bytes(chunks[i] + [chunks[j][0]])| > 225_280
    {
      FitsMeans(chunks[i] + [chunks[j][0]]);
    }
  }

  lemma FewestMeans(entries: seq<Value>, chunks: seq<seq<Value>>)
    requires Fewest(Fits, entries, chunks)
    ensures forall other :: Flatten(other) == entries && (forall chunk :: chunk in other ==> Uploadable(chunk)) ==>
      |chunks| <= |other|
  {
    forall other | Flatten(other) == entries && forall chunk :: chunk in other ==> Uploadable(chunk)
      ensures |chunks| <= |other|
    {
      LimitsMean(other);
    }
  }

  lemma FitsMeans(chunk: seq<Value>)
    ensures Fits(chunk) <==> |chunk| <= 100 && |Bytes(chunk)| <= 225_280
  {
    LengthIsBytes(CanonicalText(List(chunk)));
  }

  lemma SubrangesFit()
    ensures Hereditary(Fits)
  {
    forall a: seq<Value>, b: seq<Value>, c: seq<Value> | |b| > 0 && Fits(a + b + c) ensures Fits(b) {
      SubrangeFits(a, b, c);
    }
  }
}
