/**
 * JSON text, after sections 2 to 7 of RFC 8259: a printer and a parser over UTF-16
 * code units, and the proof that the parser undoes the printer.
 */
module JsonText {
  import opened Wrappers

  type CodeUnit = c: int | 0 <= c < 0x1_0000
  type Text = seq<CodeUnit>

  datatype Json =
    | Null
    | Bool(value: bool)
    | Number(text: Text)
    | String(chars: Text)
    | Array(items: seq<Json>)
    | Object(members: seq<Member>)

  datatype Member = Member(key: Text, value: Json)

  const QUOTE: CodeUnit := '"' as int
  const BACKSLASH: CodeUnit := '\\' as int
  const COMMA: CodeUnit := ',' as int
  const COLON: CodeUnit := ':' as int
  const OPEN_ARRAY: CodeUnit := '[' as int
  const CLOSE_ARRAY: CodeUnit := ']' as int
  const OPEN_OBJECT: CodeUnit := '{' as int
  const CLOSE_OBJECT: CodeUnit := '}' as int

  const NULL_TEXT: Text := ['n' as int, 'u' as int, 'l' as int, 'l' as int]
  const TRUE_TEXT: Text := ['t' as int, 'r' as int, 'u' as int, 'e' as int]
  const FALSE_TEXT: Text := ['f' as int, 'a' as int, 'l' as int, 's' as int, 'e' as int]

  // ---- Numbers ----

  predicate IsDigit(c: CodeUnit) {
    '0' as int <= c <= '9' as int
  }

  /** The end of the digits that start at i. */
  function DigitsEnd(t: Text, i: nat): (e: nat)
    requires i <= |t|
    ensures i <= e <= |t|
    decreases |t| - i
  {
    if i < |t| && IsDigit(t[i]) then DigitsEnd(t, i + 1) else i
  }

  /** One or more digits at i. */
  function SomeDigits(t: Text, i: nat): (e: Option<nat>)
    ensures e.Some? ==> i < e.value <= |t|
  {
    if i < |t| && IsDigit(t[i]) then Some(DigitsEnd(t, i)) else None
  }

  /** int = zero / ( digit1-9 *DIGIT ), after an optional minus. */
  function IntegerEnd(t: Text): (e: Option<nat>)
    ensures e.Some? ==> 0 < e.value <= |t|
  {
    var i := if |t| > 0 && t[0] == '-' as int then 1 else 0;
    if i < |t| && t[i] == '0' as int then Some(i + 1) else SomeDigits(t, i)
  }

  /** frac = "." 1*DIGIT */
  function FractionEnd(t: Text, i: nat): (e: Option<nat>)
    requires i <= |t|
    ensures e.Some? ==> i <= e.value <= |t|
  {
    if i < |t| && t[i] == '.' as int then SomeDigits(t, i + 1) else Some(i)
  }

  /** exp = ( "e" / "E" ) [ "-" / "+" ] 1*DIGIT */
  function ExponentEnd(t: Text, i: nat): (e: Option<nat>)
    requires i <= |t|
    ensures e.Some? ==> i <= e.value <= |t|
  {
    if i < |t| && (t[i] == 'e' as int || t[i] == 'E' as int) then
      SomeDigits(t, if i + 1 < |t| && (t[i + 1] == '-' as int || t[i + 1] == '+' as int) then i + 2 else i + 1)
    else Some(i)
  }

  /** The end of the number that the text starts with. */
  function NumberEnd(t: Text): (e: Option<nat>)
    ensures e.Some? ==> 0 < e.value <= |t|
  {
    if IntegerEnd(t).None? then None
    else if FractionEnd(t, IntegerEnd(t).value).None? then None
    else ExponentEnd(t, FractionEnd(t, IntegerEnd(t).value).value)
  }

  predicate IsNumber(t: Text) {
    NumberEnd(t) == Some(|t|)
  }

  /** What can follow a number without being read as part of it. */
  predicate EndsNumber(rest: Text) {
    rest == [] || rest[0] in [COMMA, COLON, CLOSE_ARRAY, CLOSE_OBJECT]
  }

  lemma {:induction false} DigitsStop(t: Text, rest: Text, i: nat)
    requires i <= |t| && EndsNumber(rest)
    ensures DigitsEnd(t + rest, i) == DigitsEnd(t, i)
    decreases |t| - i
  {
    if i < |t| && IsDigit(t[i]) {
      DigitsStop(t, rest, i + 1);
    }
  }

  lemma SomeDigitsStop(t: Text, rest: Text, i: nat)
    requires i <= |t| && EndsNumber(rest)
    ensures SomeDigits(t + rest, i) == SomeDigits(t, i)
  {
    DigitsStop(t, rest, i);
  }

  /** Section 6: the parser reads exactly the number, whatever follows it in a document. */
  lemma NumberStops(t: Text, rest: Text)
    requires IsNumber(t) && EndsNumber(rest)
    ensures NumberEnd(t + rest) == Some(|t|)
  {
    SomeDigitsStop(t, rest, 0);
    SomeDigitsStop(t, rest, 1);
    var i := IntegerEnd(t).value;
    assert IntegerEnd(t + rest) == Some(i);
    if i < |t| {
      SomeDigitsStop(t, rest, i + 1);
    }
    var f := FractionEnd(t, i).value;
    assert FractionEnd(t + rest, i) == Some(f);
    if f < |t| {
      SomeDigitsStop(t, rest, f + 1);
      if f + 1 < |t| {
        SomeDigitsStop(t, rest, f + 2);
      }
    }
  }

  // ---- Strings ----

  predicate IsHigh(c: CodeUnit) {
    0xD800 <= c < 0xDC00
  }

  predicate IsLow(c: CodeUnit) {
    0xDC00 <= c < 0xE000
  }

  function HexDigit(n: nat): CodeUnit
    requires n < 16
  {
    if n < 10 then '0' as int + n else 'a' as int + n - 10
  }

  function HexValue(c: CodeUnit): (v: Option<nat>)
    ensures v.Some? ==> v.value < 16
  {
    if IsDigit(c) then Some(c - '0' as int)
    else if 'a' as int <= c <= 'f' as int then Some(c - 'a' as int + 10)
    else if 'A' as int <= c <= 'F' as int then Some(c - 'A' as int + 10)
    else None
  }

  function HexEscape(c: CodeUnit): (t: Text)
    ensures |t| == 6
  {
    [BACKSLASH, 'u' as int,
     HexDigit(c / 0x1000), HexDigit(c / 0x100 % 0x10), HexDigit(c / 0x10 % 0x10), HexDigit(c % 0x10)]
  }

  /** The letter of a two-character escape. */
  function ShortEscape(c: CodeUnit): Option<CodeUnit> {
    if c == 8 then Some('b' as int)
    else if c == 9 then Some('t' as int)
    else if c == 10 then Some('n' as int)
    else if c == 12 then Some('f' as int)
    else if c == 13 then Some('r' as int)
    else if c == QUOTE || c == BACKSLASH then Some(c)
    else None
  }

  function Unescape(letter: CodeUnit): Option<CodeUnit> {
    if letter == 'b' as int then Some(8)
    else if letter == 't' as int then Some(9)
    else if letter == 'n' as int then Some(10)
    else if letter == 'f' as int then Some(12)
    else if letter == 'r' as int then Some(13)
    else if letter == QUOTE || letter == BACKSLASH || letter == '/' as int then Some(letter)
    else None
  }

  function EscapeUnit(c: CodeUnit): Text {
    if ShortEscape(c).Some? then [BACKSLASH, ShortEscape(c).value]
    else if c < 0x20 || IsHigh(c) || IsLow(c) then HexEscape(c)
    else [c]
  }

  /** The inside of a string literal: surrogate pairs stay, lone surrogates are escaped. */
  function Escaped(s: Text): Text {
    if s == [] then []
    else if |s| > 1 && IsHigh(s[0]) && IsLow(s[1]) then [s[0], s[1]] + Escaped(s[2..])
    else EscapeUnit(s[0]) + Escaped(s[1..])
  }

  function ParseHex(t: Text): (r: Option<CodeUnit>)
  {
    if |t| < 4 then None
    else
      var a, b, c, d := HexValue(t[0]), HexValue(t[1]), HexValue(t[2]), HexValue(t[3]);
      if a.None? || b.None? || c.None? || d.None? then None
      else Some(((a.value * 16 + b.value) * 16 + c.value) * 16 + d.value)
  }

  /** One character of a string, and the text after it. */
  function ParseUnit(t: Text): (r: Option<(CodeUnit, Text)>)
    requires t != []
    ensures r.Some? ==> |r.value.1| < |t|
  {
    if t[0] != BACKSLASH then
      if t[0] < 0x20 then None else Some((t[0], t[1..]))
    else if |t| < 2 then None
    else if t[1] == 'u' as int then
      if ParseHex(t[2..]).None? then None else Some((ParseHex(t[2..]).value, t[6..]))
    else if Unescape(t[1]).None? then None
    else Some((Unescape(t[1]).value, t[2..]))
  }

  /** The rest of a string after its opening quotation mark. */
  function ParseString(t: Text): (r: Option<(Text, Text)>)
    ensures r.Some? ==> |r.value.1| < |t|
    decreases |t|
  {
    if t == [] then None
    else if t[0] == QUOTE then Some(([], t[1..]))
    else if ParseUnit(t).None? then None
    else
      var head := ParseUnit(t).value;
      var tail := ParseString(head.1);
      if tail.None? then None else Some(([head.0] + tail.value.0, tail.value.1))
  }

  lemma HexDigitComesBack(n: nat)
    requires n < 16
    ensures HexValue(HexDigit(n)) == Some(n)
  {
  }

  lemma FourNibbles(c: CodeUnit)
    ensures c == ((c / 0x1000 * 16 + c / 0x100 % 0x10) * 16 + c / 0x10 % 0x10) * 16 + c % 0x10
  {
    var x := c / 0x10;
    var y := x / 0x10;
    assert y == c / 0x100 && y / 0x10 == c / 0x1000;
  }

  lemma HexComesBack(c: CodeUnit, rest: Text)
    ensures ParseHex(HexEscape(c)[2..] + rest) == Some(c)
  {
    var a, b, d, e := c / 0x1000, c / 0x100 % 0x10, c / 0x10 % 0x10, c % 0x10;
    HexDigitComesBack(a);
    HexDigitComesBack(b);
    HexDigitComesBack(d);
    HexDigitComesBack(e);
    FourNibbles(c);
    var t := HexEscape(c)[2..] + rest;
    assert t[0] == HexDigit(a) && t[1] == HexDigit(b) && t[2] == HexDigit(d) && t[3] == HexDigit(e);
  }

  lemma UnitComesBack(c: CodeUnit, rest: Text)
    ensures EscapeUnit(c) != [] && EscapeUnit(c)[0] != QUOTE
    ensures ParseUnit(EscapeUnit(c) + rest) == Some((c, rest))
  {
    var t := EscapeUnit(c) + rest;
    if ShortEscape(c).Some? {
      assert t[2..] == rest;
    } else if c < 0x20 || IsHigh(c) || IsLow(c) {
      HexComesBack(c, rest);
      assert t[2..] == HexEscape(c)[2..] + rest && t[6..] == rest;
    } else {
      assert t[1..] == rest;
    }
  }

  lemma ParseOneMore(c: CodeUnit, t: Text, after: Text, s: Text, rest: Text)
    requires t != [] && t[0] != QUOTE && ParseUnit(t) == Some((c, after)) && ParseString(after) == Some((s, rest))
    ensures ParseString(t) == Some(([c] + s, rest))
  {
  }

  lemma RawUnit(c: CodeUnit, after: Text)
    requires c >= 0x20 && c != BACKSLASH
    ensures ParseUnit([c] + after) == Some((c, after))
  {
    assert ([c] + after)[1..] == after;
  }

  lemma Regroup(a: Text, b: Text, c: Text, d: Text)
    ensures (a + b) + c + d == a + (b + c + d)
  {
  }

  // How the inside of a literal starts, for the two cases of `Escaped`.

  lemma PairStart(s: Text, rest: Text)
    requires |s| > 1 && IsHigh(s[0]) && IsLow(s[1])
    ensures Escaped(s) + [QUOTE] + rest == [s[0]] + ([s[1]] + (Escaped(s[2..]) + [QUOTE] + rest))
  {
    var e := Escaped(s[2..]);
    assert Escaped(s) == [s[0], s[1]] + e;
    PairText(s[0], s[1], e, rest);
  }

  lemma PairText(high: CodeUnit, low: CodeUnit, e: Text, rest: Text)
    ensures ([high, low] + e) + [QUOTE] + rest == [high] + ([low] + (e + [QUOTE] + rest))
  {
  }

  lemma UnitStart(s: Text, rest: Text)
    requires s != [] && !(|s| > 1 && IsHigh(s[0]) && IsLow(s[1]))
    ensures Escaped(s) + [QUOTE] + rest == EscapeUnit(s[0]) + (Escaped(s[1..]) + [QUOTE] + rest)
  {
    var e := Escaped(s[1..]);
    assert Escaped(s) == EscapeUnit(s[0]) + e;
    Regroup(EscapeUnit(s[0]), e, [QUOTE], rest);
  }

  lemma PairComesBack(high: CodeUnit, low: CodeUnit, after: Text, s: Text, rest: Text)
    requires IsHigh(high) && IsLow(low) && ParseString(after) == Some((s, rest))
    ensures ParseString([high] + ([low] + after)) == Some(([high] + ([low] + s), rest))
  {
    RawUnit(low, after);
    ParseOneMore(low, [low] + after, after, s, rest);
    RawUnit(high, [low] + after);
    ParseOneMore(high, [high] + ([low] + after), [low] + after, [low] + s, rest);
  }

  lemma EscapedUnitComesBack(c: CodeUnit, after: Text, s: Text, rest: Text)
    requires ParseString(after) == Some((s, rest))
    ensures ParseString(EscapeUnit(c) + after) == Some(([c] + s, rest))
  {
    UnitComesBack(c, after);
    ParseOneMore(c, EscapeUnit(c) + after, after, s, rest);
  }

  /** Section 7: reading a quoted string gives the string, surrogates and control characters included. */
  lemma {:induction false} StringComesBack(s: Text, rest: Text)
    ensures ParseString(Escaped(s) + [QUOTE] + rest) == Some((s, rest))
    decreases |s|
  {
    if s == [] {
      EmptyStringComesBack(rest);
    } else {
      if |s| > 1 && IsHigh(s[0]) && IsLow(s[1]) {
        PairStart(s, rest);
        StringComesBack(s[2..], rest);
        PairComesBack(s[0], s[1], Escaped(s[2..]) + [QUOTE] + rest, s[2..], rest);
        assert s == [s[0]] + ([s[1]] + s[2..]);
      } else {
        UnitStart(s, rest);
        StringComesBack(s[1..], rest);
        EscapedUnitComesBack(s[0], Escaped(s[1..]) + [QUOTE] + rest, s[1..], rest);
        assert s == [s[0]] + s[1..];
      }
    }
  }

  lemma EmptyStringComesBack(rest: Text)
    ensures ParseString(Escaped([]) + [QUOTE] + rest) == Some(([], rest))
  {
    assert Escaped([]) + [QUOTE] + rest == [QUOTE] + rest;
    assert ([QUOTE] + rest)[1..] == rest;
  }

  // ---- Documents ----

  function Quoted(s: Text): Text {
    [QUOTE] + Escaped(s) + [QUOTE]
  }

  function Print(j: Json): Text
    decreases j
  {
    match j
    case Null => NULL_TEXT
    case Bool(b) => if b then TRUE_TEXT else FALSE_TEXT
    case Number(text) => text
    case String(s) => Quoted(s)
    case Array(items) => [OPEN_ARRAY] + PrintItems(items) + [CLOSE_ARRAY]
    case Object(members) => [OPEN_OBJECT] + PrintMembers(members) + [CLOSE_OBJECT]
  }

  function PrintItems(items: seq<Json>): Text
    decreases items
  {
    if items == [] then []
    else if |items| == 1 then Print(items[0])
    else Print(items[0]) + [COMMA] + PrintItems(items[1..])
  }

  function PrintMember(m: Member): Text
    decreases m
  {
    Quoted(m.key) + [COLON] + Print(m.value)
  }

  function PrintMembers(members: seq<Member>): Text
    decreases members
  {
    if members == [] then []
    else if |members| == 1 then PrintMember(members[0])
    else PrintMember(members[0]) + [COMMA] + PrintMembers(members[1..])
  }

  /** Every number in the document is a number by the grammar. */
  predicate Valid(j: Json)
    decreases j
  {
    match j
    case Number(text) => IsNumber(text)
    case Array(items) => forall i :: 0 <= i < |items| ==> Valid(items[i])
    case Object(members) => forall i :: 0 <= i < |members| ==> Valid(members[i].value)
    case _ => true
  }

  predicate IsSpace(c: CodeUnit) {
    c == 0x20 || c == 9 || c == 10 || c == 13
  }

  /** Insignificant white space, section 2. */
  function SkipSpace(t: Text): (rest: Text)
    ensures |rest| <= |t|
  {
    if t != [] && IsSpace(t[0]) then SkipSpace(t[1..]) else t
  }

  /** A value at the start of the text, and the text after it. */
  function Parse(text: Text): (r: Option<(Json, Text)>)
    ensures r.Some? ==> |r.value.1| < |text|
    decreases |text|, 0
  {
    var t := SkipSpace(text);
    if t == [] then None
    else if NULL_TEXT <= t then Some((Null, t[4..]))
    else if TRUE_TEXT <= t then Some((Bool(true), t[4..]))
    else if FALSE_TEXT <= t then Some((Bool(false), t[5..]))
    else if t[0] == QUOTE then
      var s := ParseString(t[1..]);
      if s.None? then None else Some((String(s.value.0), s.value.1))
    else if t[0] == OPEN_ARRAY then
      var rest := SkipSpace(t[1..]);
      if rest != [] && rest[0] == CLOSE_ARRAY then Some((Array([]), rest[1..]))
      else
        var items := ParseItems(rest);
        if items.None? then None else Some((Array(items.value.0), items.value.1))
    else if t[0] == OPEN_OBJECT then
      var rest := SkipSpace(t[1..]);
      if rest != [] && rest[0] == CLOSE_OBJECT then Some((Object([]), rest[1..]))
      else
        var members := ParseMembers(rest);
        if members.None? then None else Some((Object(members.value.0), members.value.1))
    else
      var e := NumberEnd(t);
      if e.None? then None else Some((Number(t[..e.value]), t[e.value..]))
  }

  /** One or more values and the closing bracket. */
  function ParseItems(text: Text): (r: Option<(seq<Json>, Text)>)
    ensures r.Some? ==> |r.value.1| < |text|
    decreases |text|, 1
  {
    var head := Parse(text);
    if head.None? then None
    else
      var after := SkipSpace(head.value.1);
      if after != [] && after[0] == CLOSE_ARRAY then Some(([head.value.0], after[1..]))
      else if after != [] && after[0] == COMMA then
        var tail := ParseItems(after[1..]);
        if tail.None? then None else Some(([head.value.0] + tail.value.0, tail.value.1))
      else None
  }

  function ParseMember(text: Text): (r: Option<(Member, Text)>)
    ensures r.Some? ==> |r.value.1| < |text|
    decreases |text|, 0
  {
    var t := SkipSpace(text);
    if t == [] || t[0] != QUOTE || ParseString(t[1..]).None? then None
    else
      var key := ParseString(t[1..]).value;
      var colon := SkipSpace(key.1);
      if colon == [] || colon[0] != COLON || Parse(colon[1..]).None? then None
      else
        var value := Parse(colon[1..]).value;
        Some((Member(key.0, value.0), value.1))
  }

  /** One or more members and the closing brace. */
  function ParseMembers(text: Text): (r: Option<(seq<Member>, Text)>)
    ensures r.Some? ==> |r.value.1| < |text|
    decreases |text|, 1
  {
    var head := ParseMember(text);
    if head.None? then None
    else
      var after := SkipSpace(head.value.1);
      if after != [] && after[0] == CLOSE_OBJECT then Some(([head.value.0], after[1..]))
      else if after != [] && after[0] == COMMA then
        var tail := ParseMembers(after[1..]);
        if tail.None? then None else Some(([head.value.0] + tail.value.0, tail.value.1))
      else None
  }

  /** No value begins with white space, a closing bracket or nothing. */
  lemma PrintedStart(j: Json)
    requires Valid(j)
    ensures Print(j) != [] && !IsSpace(Print(j)[0]) && Print(j)[0] != CLOSE_ARRAY && Print(j)[0] < 0x80
  {
    if j.Number? {
      assert NumberEnd(j.text) == Some(|j.text|);
    }
  }

  lemma NumberComesBack(text: Text, rest: Text)
    requires IsNumber(text) && EndsNumber(rest)
    ensures Parse(text + rest) == Some((Number(text), rest))
  {
    NumberStops(text, rest);
    var t := text + rest;
    assert t[..|text|] == text && t[|text|..] == rest;
    assert IntegerEnd(text).Some?;
    assert text[0] == '-' as int || IsDigit(text[0]);
    assert t[0] == text[0] && SkipSpace(t) == t;
  }

  lemma QuotedComesBack(s: Text, rest: Text)
    ensures (Quoted(s) + rest)[0] == QUOTE && ParseString((Quoted(s) + rest)[1..]) == Some((s, rest))
  {
    StringComesBack(s, rest);
    assert (Quoted(s) + rest)[1..] == Escaped(s) + [QUOTE] + rest;
  }

  lemma LiteralComesBack(j: Json, rest: Text)
    requires j.Null? || j.Bool?
    ensures Parse(Print(j) + rest) == Some((j, rest))
  {
    var t := Print(j) + rest;
    assert Print(j) <= t && t[|Print(j)|..] == rest;
    assert SkipSpace(t) == t;
    assert t[0] == Print(j)[0];
  }

  // How the printed lists start, and the matching steps of the parser.

  lemma Separated(first: Text, others: Text, close: Text, rest: Text)
    ensures (first + [COMMA] + others) + close + rest == first + ([COMMA] + (others + close + rest))
  {
  }

  lemma ItemsStart(items: seq<Json>, rest: Text)
    requires items != []
    ensures PrintItems(items) + [CLOSE_ARRAY] + rest ==
      Print(items[0]) + if |items| == 1 then [CLOSE_ARRAY] + rest
                        else [COMMA] + (PrintItems(items[1..]) + [CLOSE_ARRAY] + rest)
  {
    if |items| == 1 {
      Regroup(Print(items[0]), [], [CLOSE_ARRAY], rest);
    } else {
      Separated(Print(items[0]), PrintItems(items[1..]), [CLOSE_ARRAY], rest);
    }
  }

  lemma MembersStart(members: seq<Member>, rest: Text)
    requires members != []
    ensures PrintMembers(members) + [CLOSE_OBJECT] + rest ==
      PrintMember(members[0]) + if |members| == 1 then [CLOSE_OBJECT] + rest
                                else [COMMA] + (PrintMembers(members[1..]) + [CLOSE_OBJECT] + rest)
  {
    if |members| == 1 {
      Regroup(PrintMember(members[0]), [], [CLOSE_OBJECT], rest);
    } else {
      Separated(PrintMember(members[0]), PrintMembers(members[1..]), [CLOSE_OBJECT], rest);
    }
  }

  lemma QuoteFirst(m: Member, rest: Text)
    ensures (PrintMember(m) + rest)[0] == QUOTE
  {
    assert PrintMember(m)[0] == QUOTE;
  }

  lemma LastItem(text: Text, j: Json, rest: Text)
    requires Parse(text) == Some((j, [CLOSE_ARRAY] + rest))
    ensures ParseItems(text) == Some(([j], rest))
  {
    assert ([CLOSE_ARRAY] + rest)[1..] == rest;
  }

  lemma OneMoreItem(text: Text, j: Json, tail: Text, items: seq<Json>, rest: Text)
    requires Parse(text) == Some((j, [COMMA] + tail)) && ParseItems(tail) == Some((items, rest))
    ensures ParseItems(text) == Some(([j] + items, rest))
  {
    assert ([COMMA] + tail)[1..] == tail;
  }

  lemma LastMember(text: Text, m: Member, rest: Text)
    requires ParseMember(text) == Some((m, [CLOSE_OBJECT] + rest))
    ensures ParseMembers(text) == Some(([m], rest))
  {
    assert ([CLOSE_OBJECT] + rest)[1..] == rest;
  }

  lemma OneMoreMember(text: Text, m: Member, tail: Text, members: seq<Member>, rest: Text)
    requires ParseMember(text) == Some((m, [COMMA] + tail)) && ParseMembers(tail) == Some((members, rest))
    ensures ParseMembers(text) == Some(([m] + members, rest))
  {
    assert ([COMMA] + tail)[1..] == tail;
  }

  lemma KeyAndValue(text: Text, key: Text, tail: Text, value: Json, rest: Text)
    requires text != [] && text[0] == QUOTE && ParseString(text[1..]) == Some((key, [COLON] + tail))
    requires Parse(tail) == Some((value, rest))
    ensures ParseMember(text) == Some((Member(key, value), rest))
  {
    assert ([COLON] + tail)[1..] == tail;
  }

  lemma QuotedValue(text: Text, s: Text, rest: Text)
    requires text != [] && text[0] == QUOTE && ParseString(text[1..]) == Some((s, rest))
    ensures Parse(text) == Some((String(s), rest))
  {
  }

  lemma ArrayValue(tail: Text, items: seq<Json>, rest: Text)
    requires ParseItems(tail) == Some((items, rest))
    requires tail != [] && !IsSpace(tail[0]) && tail[0] != CLOSE_ARRAY
    ensures Parse([OPEN_ARRAY] + tail) == Some((Array(items), rest))
  {
    assert ([OPEN_ARRAY] + tail)[1..] == tail;
  }

  lemma ObjectValue(tail: Text, members: seq<Member>, rest: Text)
    requires ParseMembers(tail) == Some((members, rest))
    requires tail != [] && tail[0] == QUOTE
    ensures Parse([OPEN_OBJECT] + tail) == Some((Object(members), rest))
  {
    assert ([OPEN_OBJECT] + tail)[1..] == tail;
  }

  lemma EmptyValue(j: Json, rest: Text)
    requires j == Array([]) || j == Object([])
    ensures Parse(Print(j) + rest) == Some((j, rest))
  {
    var t := Print(j) + rest;
    assert t[1..][1..] == rest;
  }

  /** Parsing printed text gives the document back, and leaves what follows it. */
  lemma {:induction false} DocumentComesBack(j: Json, rest: Text)
    requires Valid(j) && EndsNumber(rest)
    ensures Parse(Print(j) + rest) == Some((j, rest))
    decreases j, 1
  {
    match j
    case Null => LiteralComesBack(j, rest);
    case Bool(b) => LiteralComesBack(j, rest);
    case Number(text) => NumberComesBack(text, rest);
    case String(s) =>
      QuotedComesBack(s, rest);
      QuotedValue(Quoted(s) + rest, s, rest);
    case Array(items) => ArrayComesBack(items, rest);
    case Object(members) => ObjectComesBack(members, rest);
  }

  lemma {:induction false} ArrayComesBack(items: seq<Json>, rest: Text)
    requires forall i :: 0 <= i < |items| ==> Valid(items[i])
    ensures Parse(Print(Array(items)) + rest) == Some((Array(items), rest))
    decreases Array(items), 0
  {
    if items == [] {
      EmptyValue(Array(items), rest);
    } else {
      ItemsComeBack(items, rest);
      PrintedStart(items[0]);
      ItemsStart(items, rest);
      var tail := PrintItems(items) + [CLOSE_ARRAY] + rest;
      ArrayValue(tail, items, rest);
      Regroup([OPEN_ARRAY], PrintItems(items), [CLOSE_ARRAY], rest);
    }
  }

  lemma {:induction false} ObjectComesBack(members: seq<Member>, rest: Text)
    requires forall i :: 0 <= i < |members| ==> Valid(members[i].value)
    ensures Parse(Print(Object(members)) + rest) == Some((Object(members), rest))
    decreases Object(members), 0
  {
    if members == [] {
      EmptyValue(Object(members), rest);
    } else {
      MembersComeBack(members, rest);
      MembersStart(members, rest);
      var tail := PrintMembers(members) + [CLOSE_OBJECT] + rest;
      QuoteFirst(members[0], if |members| == 1 then [CLOSE_OBJECT] + rest
                             else [COMMA] + (PrintMembers(members[1..]) + [CLOSE_OBJECT] + rest));
      ObjectValue(tail, members, rest);
      Regroup([OPEN_OBJECT], PrintMembers(members), [CLOSE_OBJECT], rest);
    }
  }

  lemma {:induction false} ItemsComeBack(items: seq<Json>, rest: Text)
    requires items != [] && forall i :: 0 <= i < |items| ==> Valid(items[i])
    ensures ParseItems(PrintItems(items) + [CLOSE_ARRAY] + rest) == Some((items, rest))
    decreases items
  {
    var text := PrintItems(items) + [CLOSE_ARRAY] + rest;
    ItemsStart(items, rest);
    if |items| == 1 {
      DocumentComesBack(items[0], [CLOSE_ARRAY] + rest);
      LastItem(text, items[0], rest);
      assert items == [items[0]];
    } else {
      var tail := PrintItems(items[1..]) + [CLOSE_ARRAY] + rest;
      ItemsComeBack(items[1..], rest);
      DocumentComesBack(items[0], [COMMA] + tail);
      OneMoreItem(text, items[0], tail, items[1..], rest);
      assert items == [items[0]] + items[1..];
    }
  }

  lemma {:induction false} MemberComesBack(m: Member, rest: Text)
    requires Valid(m.value) && EndsNumber(rest)
    ensures ParseMember(PrintMember(m) + rest) == Some((m, rest))
    decreases m
  {
    var tail := Print(m.value) + rest;
    DocumentComesBack(m.value, rest);
    QuotedComesBack(m.key, [COLON] + tail);
    KeyAndValue(Quoted(m.key) + ([COLON] + tail), m.key, tail, m.value, rest);
    MemberText(Quoted(m.key), Print(m.value), rest);
  }

  lemma MemberText(key: Text, value: Text, rest: Text)
    ensures (key + [COLON] + value) + rest == key + ([COLON] + (value + rest))
  {
  }

  lemma {:induction false} MembersComeBack(members: seq<Member>, rest: Text)
    requires members != [] && forall i :: 0 <= i < |members| ==> Valid(members[i].value)
    ensures ParseMembers(PrintMembers(members) + [CLOSE_OBJECT] + rest) == Some((members, rest))
    decreases members
  {
    var text := PrintMembers(members) + [CLOSE_OBJECT] + rest;
    MembersStart(members, rest);
    if |members| == 1 {
      MemberComesBack(members[0], [CLOSE_OBJECT] + rest);
      LastMember(text, members[0], rest);
      assert members == [members[0]];
    } else {
      var tail := PrintMembers(members[1..]) + [CLOSE_OBJECT] + rest;
      MembersComeBack(members[1..], rest);
      MemberComesBack(members[0], [COMMA] + tail);
      OneMoreMember(text, members[0], tail, members[1..], rest);
      assert members == [members[0]] + members[1..];
    }
  }

  /** Two documents that print to the same text are the same document. */
  lemma PrintIsInjective(a: Json, b: Json)
    requires Valid(a) && Valid(b)
    ensures Print(a) == Print(b) <==> a == b
  {
    DocumentComesBack(a, []);
    DocumentComesBack(b, []);
    assert Print(a) + [] == Print(a) && Print(b) + [] == Print(b);
  }
}
