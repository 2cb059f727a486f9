/**
 * Canonical printing: one text for all values that are equal up to the order of object
 * keys, dropped undefined members and empty array slots.
 */
module Canonical {
  import opened Wrappers
  import opened JsonText

  /** Numbers are identified with the text JavaScript prints for them; NotFinite is NaN or an infinity. */
  datatype Value =
    | Undefined
    | Nil
    | Truth(value: bool)
    | Finite(text: Text)
    | NotFinite
    | Chars(chars: Text)
    | List(items: seq<Value>)
    | Record(properties: seq<Property>)

  datatype Property = Property(key: Text, value: Value)

  ghost predicate DistinctKeys(ps: seq<Property>) {
    forall i, j :: 0 <= i < j < |ps| ==> ps[i].key != ps[j].key
  }

  /** A value JavaScript can hold: object keys are distinct and numbers print as numbers. */
  ghost predicate Proper(v: Value)
    decreases v
  {
    match v
    case Finite(text) => IsNumber(text)
    case List(items) => forall i :: 0 <= i < |items| ==> Proper(items[i])
    case Record(ps) => DistinctKeys(ps) && forall i :: 0 <= i < |ps| ==> Proper(ps[i].value)
    case _ => true
  }

  // ---- The order of keys ----

  predicate Less(a: Text, b: Text) {
    if b == [] then false
    else if a == [] then true
    else if a[0] != b[0] then a[0] < b[0]
    else Less(a[1..], b[1..])
  }

  lemma {:induction false} LessIsTotal(a: Text, b: Text)
    ensures a == b || Less(a, b) || Less(b, a)
    ensures !(Less(a, b) && Less(b, a)) && !Less(a, a)
    decreases |a|
  {
    if a != [] {
      LessIsTotal(a[1..], a[1..]);
      if b != [] && a[0] == b[0] {
        LessIsTotal(a[1..], b[1..]);
        assert a == [a[0]] + a[1..] && b == [b[0]] + b[1..];
      }
    }
  }

  lemma {:induction false} LessIsTransitive(a: Text, b: Text, c: Text)
    requires Less(a, b) && Less(b, c)
    ensures Less(a, c)
    decreases |a|
  {
    if a != [] && a[0] == b[0] && b[0] == c[0] {
      LessIsTransitive(a[1..], b[1..], c[1..]);
    }
  }

  ghost predicate Increasing(keys: seq<Text>) {
    forall i, j :: 0 <= i < j < |keys| ==> Less(keys[i], keys[j])
  }

  function Insert(key: Text, keys: seq<Text>): (r: seq<Text>)
    ensures |r| == |keys| + 1
    ensures forall k :: k in r <==> k == key || k in keys
  {
    if keys == [] then [key]
    else if Less(keys[0], key) then [keys[0]] + Insert(key, keys[1..])
    else [key] + keys
  }

  /** `.sort()`: by UTF-16 code units. */
  function Sort(keys: seq<Text>): (r: seq<Text>)
    ensures |r| == |keys|
    ensures forall k :: k in r <==> k in keys
  {
    if keys == [] then [] else Insert(keys[0], Sort(keys[1..]))
  }

  lemma {:induction false} InsertKeepsOrder(key: Text, keys: seq<Text>)
    requires Increasing(keys) && key !in keys
    ensures Increasing(Insert(key, keys))
    decreases |keys|
  {
    if keys != [] {
      LessIsTotal(key, keys[0]);
      if Less(keys[0], key) {
        var tail := Insert(key, keys[1..]);
        InsertKeepsOrder(key, keys[1..]);
        forall i | 0 <= i < |tail| ensures Less(keys[0], tail[i]) {
          assert tail[i] in tail;
          if tail[i] != key {
            var k :| 0 <= k < |keys[1..]| && keys[1..][k] == tail[i];
            assert keys[k + 1] == tail[i];
          }
        }
      } else {
        forall i | 0 <= i < |keys| ensures Less(key, keys[i]) {
          if i > 0 {
            LessIsTransitive(key, keys[0], keys[i]);
          }
        }
      }
    }
  }

  ghost predicate Distinct(keys: seq<Text>) {
    forall i, j :: 0 <= i < j < |keys| ==> keys[i] != keys[j]
  }

  lemma {:induction false} SortIncreases(keys: seq<Text>)
    requires Distinct(keys)
    ensures Increasing(Sort(keys))
    decreases |keys|
  {
    if keys != [] {
      SortIncreases(keys[1..]);
      InsertKeepsOrder(keys[0], Sort(keys[1..]));
    }
  }

  lemma FirstIsLeast(a: seq<Text>, b: seq<Text>)
    requires Increasing(a) && Increasing(b) && a != [] && b != []
    requires a[0] in b && b[0] in a
    ensures a[0] == b[0]
  {
    LessIsTotal(a[0], b[0]);
  }

  /** Sorted keys are determined by the set of keys. */
  lemma {:induction false} IncreasingIsUnique(a: seq<Text>, b: seq<Text>)
    requires Increasing(a) && Increasing(b)
    requires forall k :: k in a <==> k in b
    ensures a == b
    decreases |a|
  {
    assert (a != [] ==> a[0] in b) && (b != [] ==> b[0] in a);
    if a != [] && b != [] {
      FirstIsLeast(a, b);
      LessIsTotal(a[0], a[0]);
      forall k ensures k in a[1..] <==> k in b[1..] {
        if k in a[1..] { RestAvoidsFirst(a, k); }
        if k in b[1..] { RestAvoidsFirst(b, k); }
        assert k in a <==> k == a[0] || k in a[1..];
        assert k in b <==> k == b[0] || k in b[1..];
      }
      IncreasingIsUnique(a[1..], b[1..]);
      assert a == [a[0]] + a[1..] && b == [b[0]] + b[1..];
    }
  }

  lemma RestAvoidsFirst(a: seq<Text>, k: Text)
    requires Increasing(a) && a != [] && k in a[1..]
    ensures k != a[0] && k in a
  {
    var i :| 0 <= i < |a[1..]| && a[1..][i] == k;
    assert a[i + 1] == k;
    LessIsTotal(k, a[0]);
  }

  // ---- Objects ----

  /** The keys whose value is not undefined, in the object's own order. */
  function DefinedKeys(ps: seq<Property>): (keys: seq<Text>)
    ensures forall k :: k in keys <==> exists i :: 0 <= i < |ps| && ps[i].key == k && !ps[i].value.Undefined?
  {
    if ps == [] then []
    else
      var tail := DefinedKeys(ps[1..]);
      assert forall i :: 0 < i < |ps| ==> ps[i] == ps[1..][i - 1];
      if ps[0].value.Undefined? then tail else [ps[0].key] + tail
  }

  lemma {:induction false} DefinedKeysDistinct(ps: seq<Property>)
    requires DistinctKeys(ps)
    ensures Distinct(DefinedKeys(ps))
    decreases |ps|
  {
    if ps != [] {
      DefinedKeysDistinct(ps[1..]);
      assert ps[0].key !in DefinedKeys(ps[1..]);
    }
  }

  /** Where a defined key is. */
  function Find(ps: seq<Property>, key: Text): (i: nat)
    requires key in DefinedKeys(ps)
    ensures i < |ps| && ps[i].key == key && !ps[i].value.Undefined?
  {
    if ps[0].key == key && !ps[0].value.Undefined? then 0
    else
      assert key in DefinedKeys(ps[1..]);
      Find(ps[1..], key) + 1
  }

  function SortedKeys(ps: seq<Property>): (keys: seq<Text>)
    ensures forall k :: k in keys <==> k in DefinedKeys(ps)
  {
    Sort(DefinedKeys(ps))
  }

  // ---- canonical ----

  function Joined(texts: seq<Text>): Text {
    if texts == [] then [] else if |texts| == 1 then texts[0] else texts[0] + [COMMA] + Joined(texts[1..])
  }

  /** An undefined value prints as nothing; inside a list it reads as null, inside an object it is dropped. */
  function CanonicalText(v: Value): Text
    requires !v.Undefined?
    decreases v
  {
    match v
    case Nil => NULL_TEXT
    case NotFinite => NULL_TEXT
    case Truth(b) => if b then TRUE_TEXT else FALSE_TEXT
    case Finite(text) => text
    case Chars(s) => Quoted(s)
    case List(items) => [OPEN_ARRAY] + Joined(ItemTexts(items)) + [CLOSE_ARRAY]
    case Record(ps) => [OPEN_OBJECT] + Joined(PropertyTexts(ps, SortedKeys(ps))) + [CLOSE_OBJECT]
  }

  function ItemTexts(items: seq<Value>): (texts: seq<Text>)
    ensures |texts| == |items|
    decreases items
  {
    if items == [] then []
    else [if items[0].Undefined? then NULL_TEXT else CanonicalText(items[0])] + ItemTexts(items[1..])
  }

  function PropertyTexts(ps: seq<Property>, keys: seq<Text>): (texts: seq<Text>)
    requires forall k :: k in keys ==> k in DefinedKeys(ps)
    ensures |texts| == |keys|
    decreases ps, |keys|
  {
    if keys == [] then []
    else [Quoted(keys[0]) + [COLON] + CanonicalText(ps[Find(ps, keys[0])].value)] + PropertyTexts(ps, keys[1..])
  }

  // ---- The document behind the text ----

  function Normal(v: Value): Json
    decreases v
  {
    match v
    case Undefined => Null
    case Nil => Null
    case NotFinite => Null
    case Truth(b) => Bool(b)
    case Finite(text) => Number(text)
    case Chars(s) => String(s)
    case List(items) => Array(NormalItems(items))
    case Record(ps) => Object(NormalMembers(ps, SortedKeys(ps)))
  }

  function NormalItems(items: seq<Value>): (js: seq<Json>)
    ensures |js| == |items|
    decreases items
  {
    if items == [] then [] else [Normal(items[0])] + NormalItems(items[1..])
  }

  function NormalMembers(ps: seq<Property>, keys: seq<Text>): (ms: seq<Member>)
    requires forall k :: k in keys ==> k in DefinedKeys(ps)
    ensures |ms| == |keys|
    ensures forall i :: 0 <= i < |keys| ==> ms[i].key == keys[i]
    decreases ps, |keys|
  {
    if keys == [] then []
    else [Member(keys[0], Normal(ps[Find(ps, keys[0])].value))] + NormalMembers(ps, keys[1..])
  }

  lemma {:induction false} ItemsJoin(items: seq<Value>)
    ensures Joined(ItemTexts(items)) == PrintItems(NormalItems(items))
    decreases items
  {
    if items != [] {
      ItemsJoin(items[1..]);
      if !items[0].Undefined? {
        CanonicalIsPrinted(items[0]);
      }
      assert ItemTexts(items)[1..] == ItemTexts(items[1..]);
      assert NormalItems(items)[1..] == NormalItems(items[1..]);
    }
  }

  lemma {:induction false} PropertiesJoin(ps: seq<Property>, keys: seq<Text>)
    requires forall k :: k in keys ==> k in DefinedKeys(ps)
    ensures Joined(PropertyTexts(ps, keys)) == PrintMembers(NormalMembers(ps, keys))
    decreases ps, |keys|
  {
    if keys != [] {
      PropertiesJoin(ps, keys[1..]);
      CanonicalIsPrinted(ps[Find(ps, keys[0])].value);
      assert PropertyTexts(ps, keys)[1..] == PropertyTexts(ps, keys[1..]);
      assert NormalMembers(ps, keys)[1..] == NormalMembers(ps, keys[1..]);
    }
  }

  /** The canonical text is the printed normal document. */
  lemma {:induction false} CanonicalIsPrinted(v: Value)
    requires !v.Undefined?
    ensures CanonicalText(v) == Print(Normal(v))
    decreases v
  {
    match v
    case List(items) => ItemsJoin(items);
    case Record(ps) => PropertiesJoin(ps, SortedKeys(ps));
    case _ =>
  }

  lemma {:induction false} NormalIsValid(v: Value)
    requires Proper(v)
    ensures Valid(Normal(v))
    decreases v
  {
    match v
    case List(items) =>
      forall i | 0 <= i < |items| ensures Valid(NormalItems(items)[i]) {
        ItemAt(items, i);
        NormalIsValid(items[i]);
      }
    case Record(ps) =>
      var keys := SortedKeys(ps);
      forall i | 0 <= i < |keys| ensures Valid(NormalMembers(ps, keys)[i].value) {
        MemberAt(ps, keys, i);
        NormalIsValid(ps[Find(ps, keys[i])].value);
      }
    case _ =>
  }

  lemma {:induction false} ItemAt(items: seq<Value>, i: nat)
    requires i < |items|
    ensures NormalItems(items)[i] == Normal(items[i])
  {
    if i > 0 {
      ItemAt(items[1..], i - 1);
    }
  }

  lemma {:induction false} MemberAt(ps: seq<Property>, keys: seq<Text>, i: nat)
    requires i < |keys|
    requires forall k :: k in keys ==> k in DefinedKeys(ps)
    ensures keys[i] in keys
    ensures NormalMembers(ps, keys)[i] == Member(keys[i], Normal(ps[Find(ps, keys[i])].value))
  {
    if i > 0 {
      MemberAt(ps, keys[1..], i - 1);
    }
  }

  // ---- Equality up to what JSON cannot say ----

  predicate NullLike(v: Value) {
    v.Undefined? || v.Nil? || v.NotFinite?
  }

  /** Equal up to key order, dropped undefined members, and null for undefined slots and non-finite numbers. */
  ghost predicate Same(v: Value, w: Value)
    decreases v
  {
    if NullLike(v) || NullLike(w) then NullLike(v) && NullLike(w)
    else if v.List? && w.List? then
      |v.items| == |w.items| && forall i :: 0 <= i < |v.items| ==> Same(v.items[i], w.items[i])
    else if v.Record? && w.Record? then
      && (forall key :: key in DefinedKeys(v.properties) <==> key in DefinedKeys(w.properties))
      && (forall i, j :: 0 <= i < |v.properties| && 0 <= j < |w.properties| ==>
            (v.properties[i].key == w.properties[j].key
             && !v.properties[i].value.Undefined? && !w.properties[j].value.Undefined? ==>
               Same(v.properties[i].value, w.properties[j].value)))
    else v == w
  }

  lemma {:induction false} FindIsTheOnly(ps: seq<Property>, i: nat)
    requires DistinctKeys(ps) && i < |ps| && !ps[i].value.Undefined?
    ensures ps[i].key in DefinedKeys(ps) && Find(ps, ps[i].key) == i
  {
  }

  lemma {:induction false} SortedKeysAgree(a: seq<Property>, b: seq<Property>)
    requires DistinctKeys(a) && DistinctKeys(b)
    ensures SortedKeys(a) == SortedKeys(b) <==> forall key :: key in DefinedKeys(a) <==> key in DefinedKeys(b)
  {
    DefinedKeysDistinct(a);
    DefinedKeysDistinct(b);
    SortIncreases(DefinedKeys(a));
    SortIncreases(DefinedKeys(b));
    if forall key :: key in DefinedKeys(a) <==> key in DefinedKeys(b) {
      IncreasingIsUnique(SortedKeys(a), SortedKeys(b));
    } else {
      var key :| key in DefinedKeys(a) <==> key !in DefinedKeys(b);
      assert key in SortedKeys(a) <==> key !in SortedKeys(b);
      assert SortedKeys(a) != SortedKeys(b);
    }
  }

  lemma {:induction false} SameLists(a: seq<Value>, b: seq<Value>)
    requires Proper(List(a)) && Proper(List(b))
    ensures Normal(List(a)) == Normal(List(b)) <==> Same(List(a), List(b))
    decreases List(a), 0
  {
    forall i | 0 <= i < |a| && i < |b| ensures NormalItems(a)[i] == NormalItems(b)[i] <==> Same(a[i], b[i]) {
      ItemAt(a, i);
      ItemAt(b, i);
      SameNormal(a[i], b[i]);
    }
  }

  lemma {:induction false} SameRecords(a: seq<Property>, b: seq<Property>)
    requires Proper(Record(a)) && Proper(Record(b))
    ensures Normal(Record(a)) == Normal(Record(b)) <==> Same(Record(a), Record(b))
    decreases Record(a), 0
  {
    SortedKeysAgree(a, b);
    if Normal(Record(a)) == Normal(Record(b)) {
      EqualMembersAreSame(a, b);
    }
    if Same(Record(a), Record(b)) {
      SameMembersAreEqual(a, b);
    }
  }

  lemma {:induction false} EqualMembersAreSame(a: seq<Property>, b: seq<Property>)
    requires Proper(Record(a)) && Proper(Record(b))
    requires NormalMembers(a, SortedKeys(a)) == NormalMembers(b, SortedKeys(b))
    ensures Same(Record(a), Record(b))
    decreases Record(a), -1
  {
    var ka, kb := SortedKeys(a), SortedKeys(b);
    assert |ka| == |kb|;
    forall i | 0 <= i < |ka| ensures ka[i] == kb[i] {
      assert NormalMembers(a, ka)[i].key == ka[i] && NormalMembers(b, kb)[i].key == kb[i];
    }
    assert ka == kb;
    SortedKeysAgree(a, b);
    forall i, j | 0 <= i < |a| && 0 <= j < |b| && a[i].key == b[j].key && !a[i].value.Undefined? && !b[j].value.Undefined?
      ensures Same(a[i].value, b[j].value)
    {
      FindIsTheOnly(a, i);
      FindIsTheOnly(b, j);
      var n :| 0 <= n < |ka| && ka[n] == a[i].key;
      MemberAt(a, ka, n);
      MemberAt(b, kb, n);
      SameNormal(a[i].value, b[j].value);
    }
  }

  lemma {:induction false} SameMembersAreEqual(a: seq<Property>, b: seq<Property>)
    requires Proper(Record(a)) && Proper(Record(b)) && Same(Record(a), Record(b))
    ensures NormalMembers(a, SortedKeys(a)) == NormalMembers(b, SortedKeys(b))
    decreases Record(a), -1
  {
    SortedKeysAgree(a, b);
    var keys := SortedKeys(a);
    forall n | 0 <= n < |keys| ensures NormalMembers(a, keys)[n] == NormalMembers(b, keys)[n] {
      MemberAt(a, keys, n);
      MemberAt(b, keys, n);
      SameNormal(a[Find(a, keys[n])].value, b[Find(b, keys[n])].value);
    }
  }

  /** Normal documents are equal exactly when the values are the same. */
  lemma {:induction false} SameNormal(v: Value, w: Value)
    requires Proper(v) && Proper(w)
    ensures Normal(v) == Normal(w) <==> Same(v, w)
    decreases v, 1
  {
    if v.List? && w.List? {
      SameLists(v.items, w.items);
    } else if v.Record? && w.Record? {
      SameRecords(v.properties, w.properties);
    }
  }

  /**
   * Two values print to the same canonical text exactly when they are the same: so the
   * text decides equality, and the parser recovers the document from it.
   */
  lemma CanonicalDecidesSameness(v: Value, w: Value)
    requires Proper(v) && Proper(w) && !v.Undefined? && !w.Undefined?
    ensures CanonicalText(v) == CanonicalText(w) <==> Same(v, w)
    ensures Parse(CanonicalText(v)) == Some((Normal(v), []))
  {
    CanonicalIsPrinted(v);
    CanonicalIsPrinted(w);
    NormalIsValid(v);
    NormalIsValid(w);
    SameNormal(v, w);
    PrintIsInjective(Normal(v), Normal(w));
    DocumentComesBack(Normal(v), []);
    assert Print(Normal(v)) + [] == Print(Normal(v));
  }
}
