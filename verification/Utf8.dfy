/**
 * Text as bytes: UTF-8 after RFC 3629, section 3, with a surrogate that has no partner
 * written as the replacement character U+FFFD.
 */
module Utf8 {
  import opened Wrappers
  import opened JsonText

  type Byte = b: int | 0 <= b < 256

  const REPLACEMENT: nat := 0xFFFD

  /** A code point that UTF-8 can carry. */
  predicate IsScalar(c: int) {
    0 <= c < 0xD800 || 0xE000 <= c < 0x11_0000
  }

  // ---- Code points of a text of code units ----

  predicate StartsWithPair(t: Text) {
    |t| > 1 && IsHigh(t[0]) && IsLow(t[1])
  }

  function FirstUnits(t: Text): (n: nat)
    requires t != []
    ensures 0 < n <= |t|
  {
    if StartsWithPair(t) then 2 else 1
  }

  function FirstPoint(t: Text): (c: nat)
    requires t != []
    ensures IsScalar(c)
  {
    if StartsWithPair(t) then 0x1_0000 + (t[0] - 0xD800) * 0x400 + (t[1] - 0xDC00)
    else if IsHigh(t[0]) || IsLow(t[0]) then REPLACEMENT
    else t[0]
  }

  /** The code units of one code point. */
  function Units(c: nat): Text
    requires IsScalar(c)
  {
    if c < 0x1_0000 then [c] else [0xD800 + (c - 0x1_0000) / 0x400, 0xDC00 + (c - 0x1_0000) % 0x400]
  }

  /** The text with every surrogate that has no partner replaced. */
  function Repaired(t: Text): Text {
    if t == [] then [] else Units(FirstPoint(t)) + Repaired(t[FirstUnits(t)..])
  }

  /** No surrogate is without its partner. */
  predicate Paired(t: Text) {
    t == [] || ((StartsWithPair(t) || !(IsHigh(t[0]) || IsLow(t[0]))) && Paired(t[FirstUnits(t)..]))
  }

  lemma {:induction false} PairedIsRepaired(t: Text)
    requires Paired(t)
    ensures Repaired(t) == t
  {
    if t != [] {
      PairedIsRepaired(t[FirstUnits(t)..]);
      assert t == t[..FirstUnits(t)] + t[FirstUnits(t)..];
      assert Units(FirstPoint(t)) == t[..FirstUnits(t)];
    }
  }

  // ---- Bytes ----

  function EncodePoint(c: nat): (bytes: seq<Byte>)
    requires IsScalar(c)
    ensures bytes != []
  {
    if c < 0x80 then [c]
    else if c < 0x800 then [0xC0 + c / 0x40, 0x80 + c % 0x40]
    else if c < 0x1_0000 then [0xE0 + c / 0x1000, 0x80 + c / 0x40 % 0x40, 0x80 + c % 0x40]
    else [0xF0 + c / 0x4_0000, 0x80 + c / 0x1000 % 0x40, 0x80 + c / 0x40 % 0x40, 0x80 + c % 0x40]
  }

  function Encode(t: Text): seq<Byte> {
    if t == [] then [] else EncodePoint(FirstPoint(t)) + Encode(t[FirstUnits(t)..])
  }

  predicate Continues(b: Byte) {
    0x80 <= b < 0xC0
  }

  /** How many bytes a sequence with this first byte has; 0 for a byte that starts none. */
  function SequenceLength(b: Byte): (n: nat)
    ensures n <= 4
  {
    if b < 0x80 then 1
    else if 0xC0 <= b < 0xE0 then 2
    else if 0xE0 <= b < 0xF0 then 3
    else if 0xF0 <= b < 0xF8 then 4
    else 0
  }

  /** The number the payload bits of a sequence make. */
  function Payload(bytes: seq<Byte>): int
    requires 1 <= |bytes| <= 4
  {
    if |bytes| == 1 then bytes[0]
    else if |bytes| == 2 then (bytes[0] as int - 0xC0) * 0x40 + Low(bytes[1])
    else if |bytes| == 3 then (bytes[0] as int - 0xE0) * 0x1000 + Low(bytes[1]) * 0x40 + Low(bytes[2])
    else (bytes[0] as int - 0xF0) * 0x4_0000 + Low(bytes[1]) * 0x1000 + Low(bytes[2]) * 0x40 + Low(bytes[3])
  }

  /** The payload of a continuing byte. */
  function Low(b: Byte): int {
    b as int - 0x80
  }

  /** The smallest number a sequence of this length may stand for; anything less has a shorter sequence. */
  function Smallest(n: nat): nat {
    if n <= 1 then 0 else if n == 2 then 0x80 else if n == 3 then 0x800 else 0x1_0000
  }

  /** The code point at the front and the length of its sequence. */
  function DecodePoint(bytes: seq<Byte>): (r: Option<(nat, nat)>)
    requires bytes != []
    ensures r.Some? ==> IsScalar(r.value.0) && 0 < r.value.1 <= |bytes|
  {
    var n := SequenceLength(bytes[0]);
    if n == 0 || n > |bytes| || exists i :: 1 <= i < n && !Continues(bytes[i]) then None
    else
      var c := Payload(bytes[..n]);
      if Smallest(n) <= c && IsScalar(c) then Some((c, n)) else None
  }

  /** The text that bytes stand for, if they are UTF-8. */
  function Decode(bytes: seq<Byte>): Option<Text> {
    if bytes == [] then Some([])
    else
      var first := DecodePoint(bytes);
      if first.None? then None
      else
        var rest := Decode(bytes[first.value.1..]);
        if rest.None? then None else Some(Units(first.value.0) + rest.value)
  }

  // ---- Main results ----

  /** The digits of a code point to the base 64. */
  lemma Digits(c: nat)
    ensures c == c / 0x40 * 0x40 + c % 0x40
    ensures c / 0x40 == c / 0x1000 * 0x40 + c / 0x40 % 0x40
    ensures c / 0x1000 == c / 0x4_0000 * 0x40 + c / 0x1000 % 0x40
  {
    assert c / 0x40 / 0x40 == c / 0x1000 && c / 0x1000 / 0x40 == c / 0x4_0000;
  }

  lemma PayloadComesBack(c: nat)
    requires IsScalar(c)
    ensures |EncodePoint(c)| <= 4 && Payload(EncodePoint(c)) == c
  {
    Digits(c);
  }

  lemma SequenceIsMarked(c: nat)
    requires IsScalar(c)
    ensures var bytes := EncodePoint(c);
      && SequenceLength(bytes[0]) == |bytes| && Smallest(|bytes|) <= c
      && forall i :: 1 <= i < |bytes| ==> Continues(bytes[i])
  {
    Digits(c);
  }

  /** One code point comes back, whatever follows it. */
  lemma PointComesBack(c: nat, rest: seq<Byte>)
    requires IsScalar(c)
    ensures DecodePoint(EncodePoint(c) + rest) == Some((c, |EncodePoint(c)|))
  {
    SequenceIsMarked(c);
    PayloadComesBack(c);
    FrontDecides(EncodePoint(c), rest);
  }

  lemma FrontDecides(bytes: seq<Byte>, rest: seq<Byte>)
    requires 1 <= |bytes| <= 4 && SequenceLength(bytes[0]) == |bytes|
    requires forall i :: 1 <= i < |bytes| ==> Continues(bytes[i])
    requires Smallest(|bytes|) <= Payload(bytes) && IsScalar(Payload(bytes))
    ensures DecodePoint(bytes + rest) == Some((Payload(bytes), |bytes|))
  {
    var all := bytes + rest;
    assert all[..|bytes|] == bytes;
    assert forall i :: 1 <= i < |bytes| ==> all[i] == bytes[i];
  }

  /** Decoding the bytes of any text gives it back, lone surrogates replaced. */
  lemma {:induction false} TextComesBack(t: Text)
    ensures Decode(Encode(t)) == Some(Repaired(t))
    decreases |t|
  {
    if t != [] {
      var first, rest := EncodePoint(FirstPoint(t)), Encode(t[FirstUnits(t)..]);
      PointComesBack(FirstPoint(t), rest);
      TextComesBack(t[FirstUnits(t)..]);
      assert Encode(t) == first + rest;
      assert (first + rest)[|first|..] == rest;
    }
  }

  /** A text without lone surrogates comes back as it is. */
  lemma PairedTextComesBack(t: Text)
    requires Paired(t)
    ensures Decode(Encode(t)) == Some(t)
  {
    TextComesBack(t);
    PairedIsRepaired(t);
  }
}
