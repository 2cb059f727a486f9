/**
 * Version numbers of uploaded transcripts: reserved before the first message, so that
 * no version ever names two different sets of chunks, whatever stops the process.
 */
module HistorySync {
  import opened Wrappers
  import opened JsonText
  import opened Canonical

  /** The chunks of one transcript, each without its id and version. */
  type Manifest = seq<Value>

  function AsText(s: string): (t: Text)
    ensures |t| == |s| && forall i :: 0 <= i < |s| && s[i] as int < 0x1_0000 ==> t[i] == s[i] as int
  {
    seq(|s|, i requires 0 <= i < |s| => if s[i] as int < 0x1_0000 then s[i] as int else 0)
  }

  /** The three fields the fingerprint covers. */
  function ContentOf(chunk: Value): Value {
    if chunk.Record? then Record(ContentProperties(chunk.properties)) else chunk
  }

  function ContentProperties(ps: seq<Property>): seq<Property> {
    if ps == [] then []
    else (if IsContentKey(ps[0].key) then [ps[0]] else []) + ContentProperties(ps[1..])
  }

  predicate IsContentKey(key: Text) {
    key == AsText("sequence_start") || key == AsText("sequence_end") || key == AsText("entries")
  }

  // A hash is represented by the text that is hashed.

  function Fingerprint(m: Manifest): Text {
    CanonicalText(List(Contents(m)))
  }

  function ManifestHash(m: Manifest): Text {
    CanonicalText(List(m))
  }

  /**
   * The saved state of a conversation; `complete` covers the manifest flag and its
   * protocol number.  The times of the last publication and of the last answered look
   * at the index are in milliseconds, 0 when missing.
   */
  datatype Checkpoint = Checkpoint(fingerprint: Option<Text>, manifestHash: Option<Text>, version: nat, complete: bool,
                                   pendingFingerprint: Option<Text>, pendingManifestHash: Option<Text>, pendingVersion: nat,
                                   syncedAt: int, checkedAt: int)

  const BLANK := Checkpoint(None, None, 0, false, None, None, 0, 0, 0)

  function Saved(state: map<string, Checkpoint>, id: string): Checkpoint {
    if id in state then state[id] else BLANK
  }

  datatype Part = Query | Announce | Upload(index: nat) | Completion

  /** A message that sends this manifest, or a part of it, under this version. */
  datatype Message = Message(conversation: string, version: nat, manifest: Manifest, part: Part)

  datatype Publication = Publication(conversation: string, version: nat)

  /** What the service answers; Status lists the chunks it still wants. */
  datatype Reply = Okay | Status(wanted: set<nat>, published: bool) | RowError | Incomplete | Fatal

  /**
   * How the work on a conversation ends.  Unrepaired is a skipped conversation whose
   * index still lacks something; Died is a process that stopped while it waited for an
   * answer.
   */
  datatype End = Skipped | Synced | RowFailed | RowIncomplete | Unrepaired | Aborted | Died

  // ---- Versions ----

  function Max(a: nat, b: nat): nat {
    if a < b then b else a
  }

  predicate ResumesPending(r: Checkpoint, m: Manifest) {
    r.pendingFingerprint == Some(Fingerprint(m)) && r.pendingManifestHash == Some(ManifestHash(m)) && r.pendingVersion > 0
  }

  function NextVersion(r: Checkpoint, m: Manifest): (v: nat)
    ensures v > 0
  {
    if ResumesPending(r, m) then r.pendingVersion else Max(r.version, r.pendingVersion) + 1
  }

  /** Nothing new to upload: only the state of the index is looked at. */
  predicate Settled(r: Checkpoint, m: Manifest) {
    r.fingerprint == Some(Fingerprint(m)) && r.manifestHash == Some(ManifestHash(m)) && r.complete && r.pendingVersion == 0
  }

  function Reserved(r: Checkpoint, m: Manifest): Checkpoint {
    r.(pendingFingerprint := Some(Fingerprint(m)), pendingManifestHash := Some(ManifestHash(m)),
       pendingVersion := NextVersion(r, m))
  }

  function Published(m: Manifest, version: nat, at: int): Checkpoint {
    Checkpoint(Some(Fingerprint(m)), Some(ManifestHash(m)), version, true, None, None, 0, at, 0)
  }

  const INDEX_RETRY_INTERVAL_MS := 30 * 60 * 1000

  function LastCheck(r: Checkpoint): int {
    if r.checkedAt != 0 then r.checkedAt else r.syncedAt
  }

  /** Whether the index of a published version is to be looked at; a clock that went back counts. */
  predicate CheckDue(r: Checkpoint, now: int) {
    now < LastCheck(r) || now - LastCheck(r) >= INDEX_RETRY_INTERVAL_MS
  }

  // ---- What holds between any two steps ----

  /** The highest version that may have been used. */
  function Current(r: Checkpoint): nat {
    if r.pendingVersion > 0 then r.pendingVersion else r.version
  }

  /** The only manifest that may still be sent under the current version. */
  function Bound(r: Checkpoint): Option<Text> {
    if r.pendingVersion > 0 then r.pendingManifestHash else if r.complete then r.manifestHash else None
  }

  ghost predicate SentFits(sent: seq<Message>, id: string, r: Checkpoint) {
    forall i :: 0 <= i < |sent| && sent[i].conversation == id ==>
      && sent[i].version <= Current(r)
      && (sent[i].version == Current(r) && Bound(r).Some? ==> ManifestHash(sent[i].manifest) == Bound(r).value)
  }

  ghost predicate PublishedFits(published: seq<Publication>, id: string, r: Checkpoint) {
    forall i :: 0 <= i < |published| && published[i].conversation == id ==>
      published[i].version <= Current(r) && (r.pendingVersion > 0 ==> published[i].version < r.pendingVersion)
  }

  /** One content per version. */
  ghost predicate VersionsNameOneManifest(sent: seq<Message>) {
    forall i, j :: 0 <= i < |sent| && 0 <= j < |sent| ==>
      (sent[i].conversation == sent[j].conversation && sent[i].version == sent[j].version ==>
         ManifestHash(sent[i].manifest) == ManifestHash(sent[j].manifest))
  }

  ghost predicate PublishedIncreases(published: seq<Publication>) {
    forall i, j :: 0 <= i < j < |published| && published[i].conversation == published[j].conversation ==>
      published[i].version < published[j].version
  }

  ghost predicate Fits(sent: seq<Message>, published: seq<Publication>, id: string, r: Checkpoint) {
    SentFits(sent, id, r) && PublishedFits(published, id, r)
  }

  lemma ReservingFits(sent: seq<Message>, published: seq<Publication>, id: string, r: Checkpoint, m: Manifest)
    requires Fits(sent, published, id, r)
    ensures Fits(sent, published, id, Reserved(r, m))
  {
  }

  lemma ForgettingFits(sent: seq<Message>, published: seq<Publication>, id: string, r: Checkpoint)
    requires Fits(sent, published, id, r) && r.pendingVersion > 0
    ensures Fits(sent, published, id, r.(pendingManifestHash := None))
  {
  }

  lemma CheckingFits(sent: seq<Message>, published: seq<Publication>, id: string, r: Checkpoint, now: int)
    requires Fits(sent, published, id, r)
    ensures Fits(sent, published, id, r.(checkedAt := now))
  {
  }

  lemma PublishingFits(sent: seq<Message>, published: seq<Publication>, id: string, r: Checkpoint, m: Manifest, at: int)
    requires Fits(sent, published, id, r) && PublishedIncreases(published)
    requires r.pendingVersion > 0 && r.pendingManifestHash == Some(ManifestHash(m))
    ensures var p := Publication(id, r.pendingVersion);
      Fits(sent, published + [p], id, Published(m, r.pendingVersion, at)) && PublishedIncreases(published + [p])
  {
  }

  lemma OtherPublication(sent: seq<Message>, published: seq<Publication>, id: string, r: Checkpoint, p: Publication)
    requires Fits(sent, published, id, r) && p.conversation != id
    ensures Fits(sent, published + [p], id, r)
  {
  }

  /** A message under the current version that carries the bound manifest. */
  predicate MayBeSent(r: Checkpoint, msg: Message) {
    msg.version == Current(r) && Bound(r) == Some(ManifestHash(msg.manifest))
  }

  lemma SendingFits(sent: seq<Message>, id: string, r: Checkpoint, msg: Message)
    requires SentFits(sent, id, r) && VersionsNameOneManifest(sent) && msg.conversation == id && MayBeSent(r, msg)
    ensures SentFits(sent + [msg], id, r) && VersionsNameOneManifest(sent + [msg])
  {
  }

  // ---- Main results ----

  /** Every message under one version of a conversation carries the same chunks. */
  lemma OneContentPerVersion(sent: seq<Message>, a: Message, b: Message)
    requires VersionsNameOneManifest(sent) && a in sent && b in sent
    requires a.conversation == b.conversation && a.version == b.version
    requires Proper(List(a.manifest)) && Proper(List(b.manifest))
    ensures |a.manifest| == |b.manifest|
    ensures forall i :: 0 <= i < |a.manifest| ==> Same(a.manifest[i], b.manifest[i])
  {
    CanonicalDecidesSameness(List(a.manifest), List(b.manifest));
  }

  lemma {:induction false} ContentPropertiesAre(ps: seq<Property>)
    requires DistinctKeys(ps)
    ensures DistinctKeys(ContentProperties(ps))
    ensures forall p :: p in ContentProperties(ps) <==> p in ps && IsContentKey(p.key)
  {
    if ps != [] {
      var rest := ps[1..];
      ContentPropertiesAre(rest);
      assert ps == [ps[0]] + rest;
      forall p | p in ContentProperties(rest) ensures p.key != ps[0].key {
        assert p in rest;
        var i :| 0 <= i < |rest| && rest[i] == p;
        assert ps[i + 1] == p;
      }
    }
  }

  lemma DefinedKeysByMembers(ps: seq<Property>, key: Text)
    ensures key in DefinedKeys(ps) <==> exists p :: p in ps && p.key == key && !p.value.Undefined?
  {
    if key in DefinedKeys(ps) {
      assert ps[Find(ps, key)] in ps;
    }
    if exists p :: p in ps && p.key == key && !p.value.Undefined? {
      var p :| p in ps && p.key == key && !p.value.Undefined?;
      var i :| 0 <= i < |ps| && ps[i] == p;
    }
  }

  function Contents(m: Manifest): seq<Value> {
    seq(|m|, i requires 0 <= i < |m| => ContentOf(m[i]))
  }

  /** The member with this key is missing in both or the same in both. */
  ghost predicate SameMember(ps: seq<Property>, qs: seq<Property>, key: Text) {
    && (key in DefinedKeys(ps) <==> key in DefinedKeys(qs))
    && (forall i, j :: 0 <= i < |ps| && 0 <= j < |qs| ==>
          (ps[i].key == qs[j].key == key && !ps[i].value.Undefined? && !qs[j].value.Undefined? ==>
             Same(ps[i].value, qs[j].value)))
  }

  /** Both chunks cover the same numbers with the same entries, whatever else they say. */
  ghost predicate SameStretch(a: Value, b: Value)
    requires a.Record? && b.Record?
  {
    && SameMember(a.properties, b.properties, AsText("sequence_start"))
    && SameMember(a.properties, b.properties, AsText("sequence_end"))
    && SameMember(a.properties, b.properties, AsText("entries"))
  }

  lemma ContentKeys(ps: seq<Property>, key: Text)
    requires DistinctKeys(ps)
    ensures key in DefinedKeys(ContentProperties(ps)) <==> key in DefinedKeys(ps) && IsContentKey(key)
  {
    ContentPropertiesAre(ps);
    DefinedKeysByMembers(ContentProperties(ps), key);
    DefinedKeysByMembers(ps, key);
  }

  lemma SameMemberOfContent(ps: seq<Property>, qs: seq<Property>, key: Text)
    requires DistinctKeys(ps) && DistinctKeys(qs)
    ensures SameMember(ContentProperties(ps), ContentProperties(qs), key) <==> !IsContentKey(key) || SameMember(ps, qs, key)
  {
    var cs, ds := ContentProperties(ps), ContentProperties(qs);
    ContentPropertiesAre(ps);
    ContentPropertiesAre(qs);
    ContentKeys(ps, key);
    ContentKeys(qs, key);
    assert forall i :: 0 <= i < |cs| ==> cs[i] in cs;
    assert forall i :: 0 <= i < |ds| ==> ds[i] in ds;
    if IsContentKey(key) && SameMember(cs, ds, key) {
      forall i, j | 0 <= i < |ps| && 0 <= j < |qs| && ps[i].key == qs[j].key == key
                    && !ps[i].value.Undefined? && !qs[j].value.Undefined?
        ensures Same(ps[i].value, qs[j].value)
      {
        assert ps[i] in cs && qs[j] in ds;
      }
    }
  }

  lemma SameByMembers(a: Value, b: Value)
    requires a.Record? && b.Record?
    ensures Same(a, b) <==> forall key :: SameMember(a.properties, b.properties, key)
  {
    if forall key :: SameMember(a.properties, b.properties, key) {
      forall i, j | 0 <= i < |a.properties| && 0 <= j < |b.properties| && a.properties[i].key == b.properties[j].key
                    && !a.properties[i].value.Undefined? && !b.properties[j].value.Undefined?
        ensures Same(a.properties[i].value, b.properties[j].value)
      {
        assert SameMember(a.properties, b.properties, a.properties[i].key);
      }
      forall key ensures key in DefinedKeys(a.properties) <==> key in DefinedKeys(b.properties) {
        assert SameMember(a.properties, b.properties, key);
      }
    }
  }

  lemma ContentIsProper(a: Value)
    requires Proper(a)
    ensures Proper(ContentOf(a))
  {
    if a.Record? {
      ContentPropertiesAre(a.properties);
      var cs := ContentProperties(a.properties);
      assert forall i :: 0 <= i < |cs| ==> cs[i] in cs;
    }
  }

  lemma StretchMeans(a: Value, b: Value)
    requires a.Record? && b.Record? && Proper(a) && Proper(b)
    ensures Same(ContentOf(a), ContentOf(b)) <==> SameStretch(a, b)
  {
    var ps, qs := a.properties, b.properties;
    SameByMembers(ContentOf(a), ContentOf(b));
    forall key ensures SameMember(ContentProperties(ps), ContentProperties(qs), key) <==>
      !IsContentKey(key) || SameMember(ps, qs, key)
    {
      SameMemberOfContent(ps, qs, key);
    }
    assert IsContentKey(AsText("sequence_start")) && IsContentKey(AsText("sequence_end")) && IsContentKey(AsText("entries"));
  }

  /** Same documents have the same content. */
  lemma SameContent(a: Value, b: Value)
    requires Proper(a) && Proper(b) && Same(a, b)
    ensures Proper(ContentOf(a)) && Proper(ContentOf(b)) && Same(ContentOf(a), ContentOf(b))
  {
    ContentIsProper(a);
    ContentIsProper(b);
    if a.Record? && b.Record? {
      SameByMembers(a, b);
      StretchMeans(a, b);
    }
  }

  /** The fingerprint of the same chunks is the same. */
  lemma SameFingerprint(m: Manifest, later: Manifest)
    requires Proper(List(m)) && Proper(List(later)) && Same(List(m), List(later))
    ensures Fingerprint(m) == Fingerprint(later)
  {
    var a, b := Contents(m), Contents(later);
    forall i | 0 <= i < |a| ensures Proper(a[i]) && Proper(b[i]) && Same(a[i], b[i]) {
      SameContent(m[i], later[i]);
    }
    CanonicalDecidesSameness(List(a), List(b));
  }

  /** The fingerprint covers exactly the numbers and the entries of each chunk. */
  lemma FingerprintMeans(m: Manifest, later: Manifest)
    requires Proper(List(m)) && Proper(List(later))
    requires (forall chunk :: chunk in m ==> chunk.Record?) && (forall chunk :: chunk in later ==> chunk.Record?)
    ensures Fingerprint(m) == Fingerprint(later) <==>
      |m| == |later| && forall i :: 0 <= i < |m| ==> SameStretch(m[i], later[i])
  {
    var a, b := Contents(m), Contents(later);
    forall i | 0 <= i < |a| ensures Proper(a[i]) {
      ContentIsProper(m[i]);
    }
    forall i | 0 <= i < |b| ensures Proper(b[i]) {
      ContentIsProper(later[i]);
    }
    CanonicalDecidesSameness(List(a), List(b));
    if |m| == |later| {
      forall i | 0 <= i < |m| ensures Same(a[i], b[i]) <==> SameStretch(m[i], later[i]) {
        StretchMeans(m[i], later[i]);
      }
    }
  }

  lemma ReservationResumesFor(r: Checkpoint, m: Manifest, later: Manifest)
    ensures NextVersion(Reserved(r, m), later) == Reserved(r, m).pendingVersion <==>
      Fingerprint(m) == Fingerprint(later) && ManifestHash(m) == ManifestHash(later)
  {
  }

  /** An interrupted version is taken up again exactly for the content it was reserved for. */
  lemma ReservationResumesExactly(r: Checkpoint, m: Manifest, later: Manifest)
    requires Proper(List(m)) && Proper(List(later))
    ensures NextVersion(Reserved(r, m), later) == Reserved(r, m).pendingVersion <==> Same(List(m), List(later))
  {
    ReservationResumesFor(r, m, later);
    CanonicalDecidesSameness(List(m), List(later));
    if Same(List(m), List(later)) {
      SameFingerprint(m, later);
    }
  }

  /** A published version is taken as up to date exactly while the content is the same. */
  lemma PublicationIsUpToDateFor(m: Manifest, version: nat, at: int, later: Manifest)
    requires Proper(List(m)) && Proper(List(later))
    ensures Settled(Published(m, version, at), later) <==> Same(List(m), List(later))
  {
    CanonicalDecidesSameness(List(m), List(later));
    if Same(List(m), List(later)) {
      SameFingerprint(m, later);
    }
  }

  /** How many answers let the work go on. */
  function Okays(replies: seq<Reply>): (n: nat)
    ensures n <= |replies|
    ensures forall i :: 0 <= i < n ==> replies[i].Okay?
    ensures n < |replies| ==> !replies[n].Okay?
  {
    if replies == [] || !replies[0].Okay? then 0 else Okays(replies[1..]) + 1
  }

  /** An upload announces the version, sends the chunks in order and completes the manifest. */
  function PartAt(i: nat, chunks: nat): Part {
    if i == 0 then Announce else if i <= chunks then Upload(i - 1) else Completion
  }

  /** The first n messages of an upload. */
  function Script(id: string, version: nat, m: Manifest, n: nat): (script: seq<Message>)
    ensures |script| == n
  {
    seq(n, i requires 0 <= i < n => Message(id, version, m, PartAt(i, |m|)))
  }

  lemma OkaysIs(replies: seq<Reply>, n: nat)
    requires n <= |replies| && forall i :: 0 <= i < n ==> replies[i].Okay?
    ensures Okays(replies) >= n && (n == |replies| || !replies[n].Okay? ==> Okays(replies) == n)
  {
  }

  function Smaller(a: nat, b: nat): nat {
    if a < b then a else b
  }

  /** How an upload of n chunks ends after these answers. */
  function EndOf(replies: seq<Reply>, n: nat): End {
    var k := Okays(replies);
    if k >= n + 2 then Synced
    else if k == |replies| then Died
    else if replies[k].RowError? then RowFailed
    else if replies[k].Incomplete? && k == n + 1 then RowIncomplete
    else Aborted
  }

  /** A usable answer about the index names only chunks of this manifest. */
  predicate IndexAnswer(reply: Reply, m: Manifest) {
    reply.Status? && forall i :: i in reply.wanted ==> i < |m|
  }

  /** The wanted ones of the first n chunks, in order. */
  function WantedParts(wanted: set<nat>, n: nat): seq<Part> {
    if n == 0 then [] else WantedParts(wanted, n - 1) + if n - 1 in wanted then [Upload(n - 1)] else []
  }

  /** What the index lacks: chunks, or, when it has them all, the completion. */
  function LackingParts(reply: Reply, m: Manifest): seq<Part>
    requires reply.Status?
  {
    if reply.wanted == {} && !reply.published then [Completion] else WantedParts(reply.wanted, |m|)
  }

  /** The parts sent while the index is checked: chunks are sent until one is not accepted. */
  function RetryParts(replies: seq<Reply>, m: Manifest): seq<Part> {
    if replies == [] || !IndexAnswer(replies[0], m) then [Query]
    else
      var lacking := LackingParts(replies[0], m);
      [Query] + lacking[..Smaller(Okays(replies[1..]) + 1, |lacking|)]
  }

  /** How a look at the index ends after these answers. */
  function EndOfCheck(replies: seq<Reply>, m: Manifest): End {
    if replies == [] then Died
    else if replies[0].RowError? then RowFailed
    else if !IndexAnswer(replies[0], m) then Aborted
    else EndOfRetry(replies[1..], |LackingParts(replies[0], m)|)
  }

  /** How sending n lacking parts ends. */
  function EndOfRetry(replies: seq<Reply>, n: nat): End {
    if Okays(replies) >= n then Skipped else if Okays(replies) == |replies| then Died else Unrepaired
  }

  /** A usable answer is remembered before anything is sent again. */
  function Looked(r: Checkpoint, m: Manifest, now: int, replies: seq<Reply>): Checkpoint {
    if replies != [] && IndexAnswer(replies[0], m) then r.(checkedAt := now) else r
  }

  function Messages(id: string, version: nat, m: Manifest, parts: seq<Part>): seq<Message> {
    seq(|parts|, i requires 0 <= i < |parts| => Message(id, version, m, parts[i]))
  }

  lemma MessagesAdd(id: string, version: nat, m: Manifest, parts: seq<Part>, part: Part)
    ensures Messages(id, version, m, parts + [part]) == Messages(id, version, m, parts) + [Message(id, version, m, part)]
  {
  }

  lemma {:induction false} WantedPartsGrow(wanted: set<nat>, i: nat, n: nat)
    requires i <= n
    ensures WantedParts(wanted, i) <= WantedParts(wanted, n)
    ensures i < n && i in wanted ==> WantedParts(wanted, i) + [Upload(i)] <= WantedParts(wanted, n)
    decreases n
  {
    if i < n {
      WantedPartsGrow(wanted, i, n - 1);
    }
  }

  /** Where sending the wanted chunks stops. */
  lemma WantedStep(wanted: set<nat>, i: nat, n: nat, replies: seq<Reply>, done: nat)
    requires i < n && i in wanted && done == |WantedParts(wanted, i)| <= |replies|
    requires forall k :: 0 <= k < done ==> replies[k].Okay?
    ensures ([Query] + WantedParts(wanted, i)) + [Upload(i)] == [Query] + WantedParts(wanted, i + 1)
    ensures done == |replies| || !replies[done].Okay? ==>
      && WantedParts(wanted, n)[..Smaller(Okays(replies) + 1, |WantedParts(wanted, n)|)] == WantedParts(wanted, i + 1)
      && EndOfRetry(replies, |WantedParts(wanted, n)|) == (if done == |replies| then Died else Unrepaired)
  {
    WantedPartsGrow(wanted, i, n);
    OkaysIs(replies, done);
    assert ([Query] + WantedParts(wanted, i)) + [Upload(i)] == [Query] + (WantedParts(wanted, i) + [Upload(i)]);
  }

  lemma AllWantedSent(wanted: set<nat>, n: nat, replies: seq<Reply>, done: nat)
    requires done == |WantedParts(wanted, n)| <= |replies|
    requires forall k :: 0 <= k < done ==> replies[k].Okay?
    ensures WantedParts(wanted, n)[..Smaller(Okays(replies) + 1, |WantedParts(wanted, n)|)] == WantedParts(wanted, n)
    ensures EndOfRetry(replies, |WantedParts(wanted, n)|) == Skipped
  {
    OkaysIs(replies, done);
  }

  /** What is saved when the work on an upload ends; every end but two leaves the reservation. */
  function After(r: Checkpoint, m: Manifest, end: End, at: int): Checkpoint {
    if end == Synced then Published(m, NextVersion(r, m), at)
    else if end == RowIncomplete then Reserved(r, m).(pendingManifestHash := None)
    else Reserved(r, m)
  }

  // ---- What an upload and a look at the index mean ----

  /** The first k answers let the work go on. */
  predicate Good(replies: seq<Reply>, k: nat) {
    k <= |replies| && forall i :: 0 <= i < k ==> replies[i].Okay?
  }

  /**
   * An upload of n messages is published when all were answered well, dies with the
   * process when the answers run out before, and otherwise ends with the first bad one:
   * for this conversation only, for its manifest, or for the whole scan.
   */
  ghost predicate UploadEnds(replies: seq<Reply>, n: nat, end: End) {
    || (end == Synced && Good(replies, n))
    || (end == Died && |replies| < n && Good(replies, |replies|))
    || exists k :: 0 <= k < n && k < |replies| && Good(replies, k) && !replies[k].Okay?
         && end == if replies[k] == RowError then RowFailed
                   else if replies[k] == Incomplete && k == n - 1 then RowIncomplete else Aborted
  }

  /** How many of n messages leave: those answered well, and the one whose answer was bad or missing. */
  ghost predicate Leaves(replies: seq<Reply>, n: nat, count: nat) {
    if Good(replies, n) then count == n
    else 0 < count <= n && Good(replies, count - 1) && (count <= |replies| ==> !replies[count - 1].Okay?)
  }

  /** The messages of an upload in their order, from the announcement on. */
  ghost predicate InUploadOrder(messages: seq<Message>, id: string, version: nat, m: Manifest) {
    |messages| <= |m| + 2 && forall i :: 0 <= i < |messages| ==>
      messages[i] == Message(id, version, m, if i == 0 then Announce else if i == |m| + 1 then Completion else Upload(i - 1))
  }

  /** The version of an upload: the reserved one if it was reserved for this content, else a new one. */
  ghost predicate VersionFor(r: Checkpoint, m: Manifest, version: nat) {
    if r.pendingVersion > 0 && r.pendingFingerprint == Some(Fingerprint(m)) && r.pendingManifestHash == Some(ManifestHash(m))
    then version == r.pendingVersion
    else version > r.version && version > r.pendingVersion && (version == r.version + 1 || version == r.pendingVersion + 1)
  }

  /** What is saved when an upload ends: the publication, or else the reservation beside what was published before. */
  ghost predicate SavedAfter(r: Checkpoint, m: Manifest, version: nat, end: End, at: int, after: Checkpoint) {
    if end == Synced then
      after == Checkpoint(Some(Fingerprint(m)), Some(ManifestHash(m)), version, true, None, None, 0, at, 0)
    else
      && (after.fingerprint, after.manifestHash, after.version, after.complete)
           == (r.fingerprint, r.manifestHash, r.version, r.complete)
      && (after.syncedAt, after.checkedAt) == (r.syncedAt, r.checkedAt)
      && after.pendingVersion == version && after.pendingFingerprint == Some(Fingerprint(m))
      && after.pendingManifestHash == if end == RowIncomplete then None else Some(ManifestHash(m))
  }

  lemma GoodUpTo(replies: seq<Reply>, k: nat)
    ensures Good(replies, k) <==> k <= Okays(replies)
  {
    if k <= |replies| && Good(replies, k) {
      OkaysIs(replies, k);
    }
  }

  lemma EndMeans(replies: seq<Reply>, chunks: nat)
    ensures UploadEnds(replies, chunks + 2, EndOf(replies, chunks))
    ensures Leaves(replies, chunks + 2, Smaller(Okays(replies) + 1, chunks + 2))
  {
    var k := Okays(replies);
    GoodUpTo(replies, chunks + 2);
    GoodUpTo(replies, k);
    GoodUpTo(replies, |replies|);
  }

  lemma SavingMeans(r: Checkpoint, m: Manifest, end: End, at: int)
    ensures VersionFor(r, m, NextVersion(r, m)) && SavedAfter(r, m, NextVersion(r, m), end, at, After(r, m, end, at))
  {
  }

  lemma ScriptMeans(id: string, version: nat, m: Manifest, n: nat)
    requires n <= |m| + 2
    ensures InUploadOrder(Script(id, version, m, n), id, version, m)
  {
  }

  /** What one upload saved, and the messages it sent. */
  ghost predicate UploadedAs(r: Checkpoint, id: string, m: Manifest, replies: seq<Reply>, end: End, at: int,
                             after: Checkpoint, version: nat, messages: seq<Message>)
  {
    && VersionFor(r, m, version) && SavedAfter(r, m, version, end, at, after)
    && InUploadOrder(messages, id, version, m) && Leaves(replies, |m| + 2, |messages|)
  }

  ghost predicate Uploaded(r: Checkpoint, id: string, m: Manifest, replies: seq<Reply>, end: End, at: int,
                           after: Checkpoint, before: seq<Message>, sent: seq<Message>)
  {
    exists version: nat, messages: seq<Message> ::
      UploadedAs(r, id, m, replies, end, at, after, version, messages) && sent == before + messages
  }

  lemma UploadMeans(r: Checkpoint, id: string, m: Manifest, replies: seq<Reply>, end: End, at: int,
                    after: Checkpoint, before: seq<Message>, sent: seq<Message>)
    requires end == EndOf(replies, |m|) && after == After(r, m, end, at)
    requires sent == before + Script(id, NextVersion(r, m), m, Smaller(Okays(replies) + 1, |m| + 2))
    ensures UploadEnds(replies, |m| + 2, end) && Uploaded(r, id, m, replies, end, at, after, before, sent)
  {
    EndMeans(replies, |m|);
    SavingMeans(r, m, end, at);
    var n := Smaller(Okays(replies) + 1, |m| + 2);
    ScriptMeans(id, NextVersion(r, m), m, n);
    assert UploadedAs(r, id, m, replies, end, at, after, NextVersion(r, m), Script(id, NextVersion(r, m), m, n));
  }

  /** Chunks in ascending order, each once. */
  ghost predicate InOrder(parts: seq<Part>) {
    && (forall i :: 0 <= i < |parts| ==> parts[i].Upload?)
    && (forall i, j :: 0 <= i < j < |parts| ==> parts[i].index < parts[j].index)
  }

  /** The chunks the index wants, each once and in order; or the completion, if it has them all but did not publish. */
  ghost predicate Lacks(reply: Reply, m: Manifest, parts: seq<Part>)
    requires reply.Status?
  {
    if reply.wanted == {} && !reply.published then parts == [Completion]
    else InOrder(parts) && forall part: Part :: part in parts <==> part.Upload? && part.index in reply.wanted
  }

  lemma {:induction false} WantedMeans(wanted: set<nat>, n: nat)
    ensures InOrder(WantedParts(wanted, n))
    ensures forall part: Part :: part in WantedParts(wanted, n) <==> part.Upload? && part.index in wanted && part.index < n
  {
    if n > 0 {
      WantedMeans(wanted, n - 1);
      var before, parts := WantedParts(wanted, n - 1), WantedParts(wanted, n);
      forall i, j | 0 <= i < j < |parts| ensures parts[i].index < parts[j].index {
        assert parts[i] == before[i] && before[i] in before;
        assert j < |before| ==> parts[j] == before[j];
      }
    }
  }

  lemma LackingMeans(reply: Reply, m: Manifest)
    requires IndexAnswer(reply, m)
    ensures Lacks(reply, m, LackingParts(reply, m))
  {
    WantedMeans(reply.wanted, |m|);
  }

  /** The index is looked at when thirty minutes have passed since the last look, or else the publication, or the clock went back. */
  ghost predicate DueAt(r: Checkpoint, now: int) {
    var last := if r.checkedAt != 0 then r.checkedAt else r.syncedAt;
    now - last >= 1_800_000 || now < last
  }

  /** A usable answer names chunks of this manifest only. */
  ghost predicate Usable(replies: seq<Reply>, m: Manifest) {
    |replies| > 0 && replies[0].Status? && forall i :: i in replies[0].wanted ==> i < |m|
  }

  /**
   * A look at the index: one question; after a usable answer its time is saved, and what
   * is lacking is sent until the first bad or missing answer.
   */
  ghost predicate LookDone(r: Checkpoint, m: Manifest, now: int, replies: seq<Reply>, parts: seq<Part>, end: End, after: Checkpoint) {
    if !Usable(replies, m) then
      && parts == [Query] && after == r
      && end == if |replies| == 0 then Died else if replies[0] == RowError then RowFailed else Aborted
    else
      && after == r.(checkedAt := now)
      && exists lacking, count: nat ::
           && Lacks(replies[0], m, lacking) && count <= |lacking| && Leaves(replies[1..], |lacking|, count)
           && parts == [Query] + lacking[..count]
           && end == if Good(replies[1..], |lacking|) then Skipped else if count > |replies[1..]| then Died else Unrepaired
  }

  lemma LookMeans(r: Checkpoint, m: Manifest, now: int, replies: seq<Reply>)
    ensures CheckDue(r, now) <==> DueAt(r, now)
    ensures LookDone(r, m, now, replies, RetryParts(replies, m), EndOfCheck(replies, m), Looked(r, m, now, replies))
  {
    if Usable(replies, m) {
      var lacking, rest := LackingParts(replies[0], m), replies[1..];
      LackingMeans(replies[0], m);
      var count := Smaller(Okays(rest) + 1, |lacking|);
      GoodUpTo(rest, |lacking|);
      if count > 0 {
        GoodUpTo(rest, count - 1);
      }
      assert Leaves(rest, |lacking|, count);
    }
  }

  /** This content was published, with every chunk, and nothing was reserved since. */
  ghost predicate UpToDate(r: Checkpoint, m: Manifest) {
    && r.complete && r.pendingVersion == 0
    && r.fingerprint == Some(Fingerprint(m)) && r.manifestHash == Some(ManifestHash(m))
  }

  /** What one conversation's turn in a scan saved and sent. */
  ghost predicate Synchronised(r: Checkpoint, id: string, m: Manifest, now: int, replies: seq<Reply>, at: int, end: End,
                               after: Checkpoint, before: seq<Message>, sent: seq<Message>)
  {
    if m == [] || (UpToDate(r, m) && !DueAt(r, now)) then end == Skipped && after == r && sent == before
    else if UpToDate(r, m) then exists parts ::
      LookDone(r, m, now, replies, parts, end, after) && sent == before + Messages(id, r.version, m, parts)
    else UploadEnds(replies, |m| + 2, end) && Uploaded(r, id, m, replies, end, at, after, before, sent)
  }

  class HistorySync {
    var state: map<string, Checkpoint>
    ghost var sent: seq<Message>
    ghost var published: seq<Publication>

    ghost predicate Valid()
      reads this
    {
      && VersionsNameOneManifest(sent) && PublishedIncreases(published)
      && (forall id: string :: Fits(sent, published, id, Saved(state, id)))
    }

    /** Starts from whatever was saved. */
    constructor (saved: map<string, Checkpoint>)
      ensures Valid() && state == saved && sent == [] && published == []
    {
      state, sent, published := saved, [], [];
    }

    method Save(id: string, r: Checkpoint)
      requires Valid() && Fits(sent, published, id, r)
      modifies this`state
      ensures Valid() && state == old(state)[id := r]
    {
      ghost var before := state;
      state := state[id := r];
      forall other: string ensures Fits(sent, published, other, Saved(state, other)) {
        assert other != id ==> Saved(state, other) == Saved(before, other);
      }
    }

    method Send(msg: Message)
      requires Valid() && MayBeSent(Saved(state, msg.conversation), msg)
      modifies this`sent
      ensures Valid() && sent == old(sent) + [msg]
    {
      SendingFits(sent, msg.conversation, Saved(state, msg.conversation), msg);
      sent := sent + [msg];
    }

    method Publish(id: string, m: Manifest, version: nat, at: int)
      requires Valid() && Saved(state, id).pendingVersion == version > 0
      requires Saved(state, id).pendingManifestHash == Some(ManifestHash(m))
      modifies this`state, this`published
      ensures Valid() && state == old(state)[id := Published(m, version, at)]
      ensures published == old(published) + [Publication(id, version)]
    {
      PublishingFits(sent, published, id, Saved(state, id), m, at);
      ghost var before := state;
      published := published + [Publication(id, version)];
      state := state[id := Published(m, version, at)];
      forall other: string ensures Fits(sent, published, other, Saved(state, other)) {
        if other != id {
          assert Saved(state, other) == Saved(before, other);
          OtherPublication(sent, old(published), other, Saved(before, other), Publication(id, version));
        }
      }
    }

    /** Send message after message while the answers are good; `done` is how many were answered so. */
    method SendAll(id: string, m: Manifest, version: nat, replies: seq<Reply>) returns (done: nat)
      requires Valid() && MayBeSent(Saved(state, id), Message(id, version, m, Announce))
      modifies this`sent
      ensures Valid() && done == Smaller(Okays(replies), |m| + 2)
      ensures sent == old(sent) + Script(id, version, m, Smaller(done + 1, |m| + 2))
    {
      done := 0;
      while done < |m| + 2
        invariant done <= |m| + 2 && done <= |replies|
        invariant Valid() && sent == old(sent) + Script(id, version, m, done)
        invariant forall i :: 0 <= i < done ==> replies[i].Okay?
      {
        Send(Message(id, version, m, PartAt(done, |m|)));
        assert Script(id, version, m, done + 1) == Script(id, version, m, done) + [Message(id, version, m, PartAt(done, |m|))];
        OkaysIs(replies, done);
        if done == |replies| || !replies[done].Okay? { return; }
        done := done + 1;
      }
      OkaysIs(replies, done);
    }

    /** Save how an upload ended: published, to be announced anew, or still reserved. */
    method Conclude(id: string, m: Manifest, end: End, at: int, ghost before: Checkpoint)
      requires Valid() && id in state && state[id] == Reserved(before, m)
      modifies this`state, this`published
      ensures Valid() && state == old(state)[id := After(before, m, end, at)]
      ensures published == old(published) + if end == Synced then [Publication(id, NextVersion(before, m))] else []
    {
      var r := state[id];
      if end == Synced {
        Publish(id, m, r.pendingVersion, at);
      } else if end == RowIncomplete {
        assert Fits(sent, published, id, Saved(state, id));
        ForgettingFits(sent, published, id, r);
        Save(id, r.(pendingManifestHash := None));
      } else {
        assert state == state[id := r];
      }
    }

    /**
     * Upload a new or interrupted version.  The answers arrive one by one; the process
     * may stop while it waits for any of them.  `at` is the time when the last one is in.
     */
    method UploadVersion(id: string, m: Manifest, replies: seq<Reply>, at: int) returns (end: End)
      requires Valid() && !Settled(Saved(state, id), m) && m != []
      modifies this
      ensures Valid() && end == EndOf(replies, |m|)
      ensures sent == old(sent) + Script(id, NextVersion(Saved(old(state), id), m), m, Smaller(Okays(replies) + 1, |m| + 2))
      ensures state == old(state)[id := After(Saved(old(state), id), m, end, at)]
      ensures published == old(published) + if end == Synced then [Publication(id, NextVersion(Saved(old(state), id), m))] else []
      ensures UploadEnds(replies, |m| + 2, end)
      ensures Uploaded(Saved(old(state), id), id, m, replies, end, at, Saved(state, id), old(sent), sent)
    {
      var version := NextVersion(Saved(state, id), m);
      var r := Reserved(Saved(state, id), m);
      ReservingFits(sent, published, id, Saved(state, id), m);
      Save(id, r);
      var done := SendAll(id, m, version, replies);
      end := EndOf(replies, |m|);
      Conclude(id, m, end, at, Saved(old(state), id));
      UploadMeans(Saved(old(state), id), id, m, replies, end, at, Saved(state, id), old(sent), sent);
    }

    /** Send one part of the published version. */
    method SendPart(id: string, m: Manifest, part: Part, ghost start: seq<Message>, ghost parts: seq<Part>)
      requires Valid() && Settled(Saved(state, id), m)
      requires sent == start + Messages(id, Saved(state, id).version, m, parts)
      modifies this`sent
      ensures Valid() && sent == start + Messages(id, Saved(state, id).version, m, parts + [part])
    {
      MessagesAdd(id, Saved(state, id).version, m, parts, part);
      Send(Message(id, Saved(state, id).version, m, part));
    }

    /** Send the wanted chunks until one is not accepted. */
    method SendWanted(id: string, m: Manifest, wanted: set<nat>, replies: seq<Reply>, ghost start: seq<Message>)
      returns (end: End)
      requires Valid() && Settled(Saved(state, id), m)
      requires sent == start + Messages(id, Saved(state, id).version, m, [Query])
      modifies this`sent
      ensures Valid()
      ensures var parts := WantedParts(wanted, |m|);
        && sent == start + Messages(id, Saved(state, id).version, m, [Query] + parts[..Smaller(Okays(replies) + 1, |parts|)])
        && end == EndOfRetry(replies, |parts|)
    {
      var done := 0;
      assert [Query] + WantedParts(wanted, 0) == [Query];
      for i := 0 to |m|
        invariant Valid() && done <= |replies| && done == |WantedParts(wanted, i)|
        invariant forall k :: 0 <= k < done ==> replies[k].Okay?
        invariant sent == start + Messages(id, Saved(state, id).version, m, [Query] + WantedParts(wanted, i))
      {
        if i in wanted {
          SendPart(id, m, Part.Upload(i), start, [Query] + WantedParts(wanted, i));
          WantedStep(wanted, i, |m|, replies, done);
          if done >= |replies| { return Died; }
          if !replies[done].Okay? { return Unrepaired; }
          done := done + 1;
        }
      }
      AllWantedSent(wanted, |m|, replies, done);
      return Skipped;
    }

    /**
     * Nothing changed since the last publication: when a look at the index is due, ask
     * whether it has all chunks, and send again what it lacks, under the published
     * version.
     */
    method CheckIndex(id: string, m: Manifest, now: int, replies: seq<Reply>) returns (end: End)
      requires Valid() && Settled(Saved(state, id), m) && id in state
      modifies this`state, this`sent
      ensures Valid()
      ensures !CheckDue(Saved(old(state), id), now) ==> end == Skipped && state == old(state) && sent == old(sent)
      ensures CheckDue(Saved(old(state), id), now) ==>
        && end == EndOfCheck(replies, m)
        && state == old(state)[id := Looked(old(state)[id], m, now, replies)]
        && sent == old(sent) + Messages(id, Saved(old(state), id).version, m, RetryParts(replies, m))
      ensures !DueAt(old(state)[id], now) ==> end == Skipped && state == old(state) && sent == old(sent)
      ensures DueAt(old(state)[id], now) ==> exists parts ::
        && id in state && LookDone(old(state)[id], m, now, replies, parts, end, state[id])
        && sent == old(sent) + Messages(id, old(state)[id].version, m, parts)
    {
      LookMeans(state[id], m, now, replies);
      var r := state[id];
      assert state == state[id := r];
      if !CheckDue(r, now) { return Skipped; }
      SendPart(id, m, Query, sent, []);
      if |replies| == 0 { return Died; }
      if !IndexAnswer(replies[0], m) { return if replies[0].RowError? then RowFailed else Aborted; }
      CheckingFits(sent, published, id, r, now);
      Save(id, r.(checkedAt := now));
      end := SendLacking(id, m, replies[0], replies[1..], old(sent));
    }

    /** Send what the index lacks: the completion, or the chunks until one is not accepted. */
    method SendLacking(id: string, m: Manifest, answer: Reply, replies: seq<Reply>, ghost start: seq<Message>)
      returns (end: End)
      requires Valid() && Settled(Saved(state, id), m) && IndexAnswer(answer, m)
      requires sent == start + Messages(id, Saved(state, id).version, m, [Query])
      modifies this`sent
      ensures Valid() && end == EndOfRetry(replies, |LackingParts(answer, m)|)
      ensures sent == start + Messages(id, Saved(state, id).version, m, RetryParts([answer] + replies, m))
    {
      assert ([answer] + replies)[1..] == replies;
      if answer.wanted == {} && !answer.published {
        SendPart(id, m, Completion, start, [Query]);
        OkaysIs(replies, 0);
        return if |replies| == 0 then Died else if replies[0].Okay? then Skipped else Unrepaired;
      }
      end := SendWanted(id, m, answer.wanted, replies, start);
    }

    /** One conversation of a scan; a transcript without chunks is left alone. */
    method SyncConversation(id: string, m: Manifest, now: int, replies: seq<Reply>, at: int) returns (end: End)
      requires Valid()
      modifies this
      ensures Valid()
      ensures m == [] ==> end == Skipped && state == old(state) && sent == old(sent) && published == old(published)
      ensures m != [] && Settled(Saved(old(state), id), m) ==>
        && published == old(published)
        && end == (if CheckDue(Saved(old(state), id), now) then EndOfCheck(replies, m) else Skipped)
        && state == (if CheckDue(Saved(old(state), id), now)
                     then old(state)[id := Looked(Saved(old(state), id), m, now, replies)] else old(state))
        && sent == old(sent) + Messages(id, Saved(old(state), id).version, m,
                                        if CheckDue(Saved(old(state), id), now) then RetryParts(replies, m) else [])
      ensures m != [] && !Settled(Saved(old(state), id), m) ==>
        && end == EndOf(replies, |m|)
        && state == old(state)[id := After(Saved(old(state), id), m, end, at)]
        && sent == old(sent) + Script(id, NextVersion(Saved(old(state), id), m), m, Smaller(Okays(replies) + 1, |m| + 2))
        && published == old(published) + if end == Synced then [Publication(id, NextVersion(Saved(old(state), id), m))] else []
      ensures Synchronised(Saved(old(state), id), id, m, now, replies, at, end, Saved(state, id), old(sent), sent)
    {
      if |m| == 0 { return Skipped; }
      if Settled(Saved(state, id), m) {
        end := CheckIndex(id, m, now, replies);
      } else {
        end := UploadVersion(id, m, replies, at);
      }
    }
  }
}
