/**
 * The interning encoder of the endpoint writer (remote/endpoint_writer.go,
 * sendEnvelopes and its three lookup helpers): a run of remoteDeliver
 * requests becomes one MessageBatch whose envelopes refer, by index, to
 * three first-seen-order tables of type names, targets and senders.
 *
 * Encode is the reference definition: the fold, over the requests in order,
 * of the step the loop body of sendEnvelopes takes. Decode is its partner,
 * what a receiver does with the batch.
 */
module Interning {
  import opened Wrappers
  import opened Messages

  /** A MessageEnvelope on the wire. Sender 0 means "no sender"; any other
      value is one more than an index into the batch's senders. */
  datatype Envelope = Envelope(
    messageHeader: Option<MessageHeader>,
    messageData: seq<byte>,
    sender: nat,
    target: nat,
    typeId: nat,
    serializerId: int,
    targetRequestId: uint32,
    senderRequestId: uint32)

  datatype MessageBatch = MessageBatch(
    typeNames: seq<string>,
    targets: seq<PID>,
    senders: seq<PID>,
    envelopes: seq<Envelope>)

  /** What the serializer returns for a message: its bytes and type name. */
  datatype Serialized = Serialized(bytes: seq<byte>, typeName: string)

  /** The pluggable serialization collaborator. None stands for a returned
      error. isRootSerializable and rootSerialize are the RootSerializable
      interface; serialize is Serialize(message, serializerID). */
  datatype Codec = Codec(
    isRootSerializable: Payload -> bool,
    rootSerialize: Payload -> Option<Payload>,
    serialize: (Payload, int) -> Option<Serialized>)

  /** The serializer id sendEnvelopes passes and writes into every envelope:
      its local serializerID is declared and never assigned, so it is Go's
      zero value whatever the request's own serializerID says. */
  const SerializerId: int := 0

  /** A message's wire form, or None when either serialization step fails. */
  function SerializeMessage(codec: Codec, message: Payload): Option<Serialized> {
    if codec.isRootSerializable(message) then
      match codec.rootSerialize(message)
      case None => None
      case Some(root) => codec.serialize(root, SerializerId)
    else
      codec.serialize(message, SerializerId)
  }

  /** The header an envelope carries: none for a nil or empty header. */
  function HeaderOf(h: Option<MessageHeader>): Option<MessageHeader> {
    if h.None? || |h.value| == 0 then None else h
  }

  /** The interning key of a type name is the name itself. */
  function NameKey(name: string): string {
    name
  }

  /** The interning key of a PID, Address + "/" + Id: the request id takes
      no part in it. */
  function PidKey(p: PID): string {
    p.address + "/" + p.id
  }

  /** The copy of a PID stored in a table: its request id zeroed. */
  function Normalized(p: PID): PID {
    p.(requestId := 0)
  }

  predicate AllNormalized(a: seq<PID>) {
    forall i :: 0 <= i < |a| ==> a[i].requestId == 0
  }

  /** A lookup map m and the table a it indexes agree: they have the same
      size, the entry at position i is the one whose key maps to i, and
      every key in m maps to the position of an entry with that key. */
  predicate Consistent<T>(m: map<string, nat>, a: seq<T>, key: T -> string) {
    && |m| == |a|
    && (forall i :: 0 <= i < |a| ==> key(a[i]) in m && m[key(a[i])] == i)
    && (forall k :: k in m ==> m[k] < |a| && key(a[m[k]]) == k)
  }

  /** addToLookup. A name already in m keeps its index and changes nothing;
      a new name gets index |m| and is appended, so a consistent pair stays
      consistent and the returned index always holds the name. */
  method AddToLookup(m: map<string, nat>, name: string, a: seq<string>)
    returns (id: nat, m': map<string, nat>, a': seq<string>)
    ensures name in m ==> id == m[name] && m' == m && a' == a
    ensures name !in m ==> id == |m| && m' == m[name := id] && a' == a + [name]
    ensures Consistent(m, a, NameKey) ==>
      Consistent(m', a', NameKey) && id < |a'| && a'[id] == name
  {
    var max := |m|;
    m', a' := m, a;
    if name in m {
      id := m[name];
    } else {
      m' := m'[name := max];
      id := max;
      a' := a' + [name];
    }
  }

  /** addToTargetLookup: interning on Address + "/" + Id, so PIDs that
      differ only in their request id share one index and one entry; a new
      entry is stored with request id 0. */
  method AddToTargetLookup(m: map<string, nat>, pid: PID, arr: seq<PID>)
    returns (id: nat, m': map<string, nat>, arr': seq<PID>)
    ensures PidKey(pid) in m ==> id == m[PidKey(pid)] && m' == m && arr' == arr
    ensures PidKey(pid) !in m ==>
      id == |m| && m' == m[PidKey(pid) := id] && arr' == arr + [pid.(requestId := 0)]
    ensures Consistent(m, arr, PidKey) ==>
      Consistent(m', arr', PidKey) && id < |arr'| && PidKey(arr'[id]) == PidKey(pid)
    ensures AllNormalized(arr) ==> AllNormalized(arr')
  {
    var max := |m|;
    var key := pid.address + "/" + pid.id;
    m', arr' := m, arr;
    if key in m {
      id := m[key];
    } else {
      var c := pid.(requestId := 0);
      m' := m'[key := max];
      id := max;
      arr' := arr' + [c];
    }
  }

  /** addToSenderLookup: 0 and nothing changed for a nil sender; otherwise
      interned as a target is, and the index returned is one more than the
      sender's position, so it is never 0. */
  method AddToSenderLookup(m: map<string, nat>, pid: Option<PID>, arr: seq<PID>)
    returns (id: nat, m': map<string, nat>, arr': seq<PID>)
    ensures pid.None? ==> id == 0 && m' == m && arr' == arr
    ensures pid.Some? && PidKey(pid.value) in m ==>
      id == m[PidKey(pid.value)] + 1 && m' == m && arr' == arr
    ensures pid.Some? && PidKey(pid.value) !in m ==>
      id == |m| + 1 && m' == m[PidKey(pid.value) := |m|] && arr' == arr + [pid.value.(requestId := 0)]
    ensures pid.Some? && Consistent(m, arr, PidKey) ==>
      Consistent(m', arr', PidKey) && 1 <= id <= |arr'| && PidKey(arr'[id - 1]) == PidKey(pid.value)
    ensures AllNormalized(arr) ==> AllNormalized(arr')
  {
    if pid.None? {
      return 0, m, arr;
    }
    var p := pid.value;
    var max := |m|;
    var key := p.address + "/" + p.id;
    m', arr' := m, arr;
    if key in m {
      id := m[key];
    } else {
      var c := p.(requestId := 0);
      m' := m'[key := max];
      id := max;
      arr' := arr' + [c];
    }
    id := id + 1;
  }

  /** The reference interning step: the index of key k in (m, a), adding
      item under k when k is new. */
  function Intern<T>(m: map<string, nat>, a: seq<T>, k: string, item: T): (nat, map<string, nat>, seq<T>) {
    if k in m then (m[k], m, a) else (|m|, m[k := |m|], a + [item])
  }

  /** The locals of sendEnvelopes: three lookup maps, their tables, and the
      envelopes built so far. */
  datatype Encoding = Encoding(
    typeNames: map<string, nat>,
    typeNamesArr: seq<string>,
    targetNames: map<string, nat>,
    targetNamesArr: seq<PID>,
    senderNames: map<string, nat>,
    senderNamesArr: seq<PID>,
    envelopes: seq<Envelope>)

  const EmptyEncoding: Encoding := Encoding(map[], [], map[], [], map[], [], [])

  /** The envelope for a request whose message serialized to s, given the
      three indices interning chose. */
  function EnvelopeFor(rd: RemoteDeliver, s: Serialized, typeID: nat, targetID: nat, senderID: nat): Envelope {
    Envelope(HeaderOf(rd.header), s.bytes, senderID, targetID, typeID, SerializerId,
      rd.target.requestId, if rd.sender.None? then 0 else rd.sender.value.requestId)
  }

  /** One turn of sendEnvelopes' loop on a connected stream: a message that
      fails to serialize is skipped, any other is interned and appended. */
  function EncodeStep(e: Encoding, rd: RemoteDeliver, codec: Codec): Encoding {
    match SerializeMessage(codec, rd.message)
    case None => e
    case Some(s) =>
      var (typeID, tn, tarr) := Intern(e.typeNames, e.typeNamesArr, s.typeName, s.typeName);
      var (targetID, gn, garr) := Intern(e.targetNames, e.targetNamesArr, PidKey(rd.target), Normalized(rd.target));
      var (senderID, sn, sarr) := InternSender(e, rd.sender);
      Encoding(tn, tarr, gn, garr, sn, sarr, e.envelopes + [EnvelopeFor(rd, s, typeID, targetID, senderID)])
  }

  /** The encoding of a run of requests, in input order. */
  function Encode(reqs: seq<RemoteDeliver>, codec: Codec): Encoding
    decreases |reqs|
  {
    if reqs == [] then EmptyEncoding
    else EncodeStep(Encode(reqs[..|reqs| - 1], codec), reqs[|reqs| - 1], codec)
  }

  /** The batch put on the stream. */
  function BatchOf(e: Encoding): MessageBatch {
    MessageBatch(e.typeNamesArr, e.targetNamesArr, e.senderNamesArr, e.envelopes)
  }

  /** A request that serialized, with its wire form. */
  datatype Accepted = Accepted(request: RemoteDeliver, serialized: Serialized)

  /** The requests that serialize, in input order. */
  function AcceptedOf(reqs: seq<RemoteDeliver>, codec: Codec): seq<Accepted>
    decreases |reqs|
  {
    if reqs == [] then []
    else
      var rest := AcceptedOf(reqs[..|reqs| - 1], codec);
      match SerializeMessage(codec, reqs[|reqs| - 1].message)
      case None => rest
      case Some(s) => rest + [Accepted(reqs[|reqs| - 1], s)]
  }

  /** The three tables are consistent with their maps, and the PID tables
      hold request-id-free copies. */
  predicate WellFormed(e: Encoding) {
    && Consistent(e.typeNames, e.typeNamesArr, NameKey)
    && Consistent(e.targetNames, e.targetNamesArr, PidKey)
    && Consistent(e.senderNames, e.senderNamesArr, PidKey)
    && AllNormalized(e.targetNamesArr)
    && AllNormalized(e.senderNamesArr)
  }

  /** Envelope e of batch b stands for the accepted request x: its indices
      are in range and resolve to x's type name, target and sender (equal up
      to request id), the original request ids ride on the envelope, the
      sender index is 0 exactly when there is no sender, and the serializer
      id is 0. */
  predicate Describes(b: MessageBatch, e: Envelope, x: Accepted) {
    && e.typeId < |b.typeNames| && b.typeNames[e.typeId] == x.serialized.typeName
    && e.target < |b.targets| && PidKey(b.targets[e.target]) == PidKey(x.request.target)
    && e.targetRequestId == x.request.target.requestId
    && (match x.request.sender
        case None => e.sender == 0 && e.senderRequestId == 0
        case Some(s) =>
          1 <= e.sender <= |b.senders| && PidKey(b.senders[e.sender - 1]) == PidKey(s)
          && e.senderRequestId == s.requestId)
    && e.messageData == x.serialized.bytes
    && e.messageHeader == HeaderOf(x.request.header)
    && e.serializerId == 0
  }

  lemma DescribesExtend(b: MessageBatch, b': MessageBatch, e: Envelope, x: Accepted)
    requires Describes(b, e, x)
    requires b.typeNames <= b'.typeNames && b.targets <= b'.targets && b.senders <= b'.senders
    ensures Describes(b', e, x)
  {
  }

  lemma InternFacts<T>(m: map<string, nat>, a: seq<T>, key: T -> string, item: T)
    requires Consistent(m, a, key)
    ensures var (id, m', a') := Intern(m, a, key(item), item);
      Consistent(m', a', key) && a <= a' && id < |a'| && key(a'[id]) == key(item)
  {
    var k := key(item);
    if k !in m {
      var m', a' := m[k := |m|], a + [item];
      assert |m'| == |m| + 1;
      forall i | 0 <= i < |a'|
        ensures key(a'[i]) in m' && m'[key(a'[i])] == i
      {
        if i < |a| {
          assert a'[i] == a[i];
        }
      }
    }
  }

  lemma InternNormalized(m: map<string, nat>, a: seq<PID>, p: PID)
    requires AllNormalized(a)
    ensures AllNormalized(Intern(m, a, PidKey(p), Normalized(p)).2)
  {
  }

  /** The sender component of EncodeStep. */
  function InternSender(e: Encoding, sender: Option<PID>): (nat, map<string, nat>, seq<PID>) {
    if sender.None? then (0, e.senderNames, e.senderNamesArr)
    else
      var (i, sn, sarr) := Intern(e.senderNames, e.senderNamesArr, PidKey(sender.value), Normalized(sender.value));
      (i + 1, sn, sarr)
  }

  lemma InternSenderFacts(e: Encoding, sender: Option<PID>)
    requires Consistent(e.senderNames, e.senderNamesArr, PidKey) && AllNormalized(e.senderNamesArr)
    ensures var (id, sn, sarr) := InternSender(e, sender);
      && Consistent(sn, sarr, PidKey) && AllNormalized(sarr) && e.senderNamesArr <= sarr
      && (sender.None? ==> id == 0)
      && (sender.Some? ==> 1 <= id <= |sarr| && PidKey(sarr[id - 1]) == PidKey(sender.value))
  {
    if sender.Some? {
      InternFacts(e.senderNames, e.senderNamesArr, PidKey, Normalized(sender.value));
      InternNormalized(e.senderNames, e.senderNamesArr, sender.value);
    }
  }

  /** EncodeStep on a message that serializes to s, spelled out through the
      three interning results. */
  lemma EncodeStepParts(e: Encoding, rd: RemoteDeliver, codec: Codec, s: Serialized)
    requires SerializeMessage(codec, rd.message) == Some(s)
    ensures var t := Intern(e.typeNames, e.typeNamesArr, s.typeName, s.typeName);
      var g := Intern(e.targetNames, e.targetNamesArr, PidKey(rd.target), Normalized(rd.target));
      var d := InternSender(e, rd.sender);
      EncodeStep(e, rd, codec) == Encoding(t.1, t.2, g.1, g.2, d.1, d.2, e.envelopes + [EnvelopeFor(rd, s, t.0, g.0, d.0)])
  {
  }

  /** Interning one request's type name, target and sender keeps the
      tables consistent and only extends them. */
  lemma InternedWellFormed(e: Encoding, rd: RemoteDeliver, s: Serialized, envs: seq<Envelope>)
    requires WellFormed(e)
    ensures var t := Intern(e.typeNames, e.typeNamesArr, s.typeName, s.typeName);
      var g := Intern(e.targetNames, e.targetNamesArr, PidKey(rd.target), Normalized(rd.target));
      var d := InternSender(e, rd.sender);
      && WellFormed(Encoding(t.1, t.2, g.1, g.2, d.1, d.2, envs))
      && e.typeNamesArr <= t.2 && e.targetNamesArr <= g.2 && e.senderNamesArr <= d.2
  {
    InternFacts(e.typeNames, e.typeNamesArr, NameKey, s.typeName);
    InternFacts(e.targetNames, e.targetNamesArr, PidKey, Normalized(rd.target));
    InternNormalized(e.targetNames, e.targetNamesArr, rd.target);
    InternSenderFacts(e, rd.sender);
  }

  /** The envelope built from the three interning results stands for the
      request in any batch whose tables are the interned ones. */
  lemma InternedDescribes(e: Encoding, rd: RemoteDeliver, s: Serialized, envs: seq<Envelope>)
    requires WellFormed(e)
    ensures var t := Intern(e.typeNames, e.typeNamesArr, s.typeName, s.typeName);
      var g := Intern(e.targetNames, e.targetNamesArr, PidKey(rd.target), Normalized(rd.target));
      var d := InternSender(e, rd.sender);
      Describes(MessageBatch(t.2, g.2, d.2, envs), EnvelopeFor(rd, s, t.0, g.0, d.0), Accepted(rd, s))
  {
    InternFacts(e.typeNames, e.typeNamesArr, NameKey, s.typeName);
    InternFacts(e.targetNames, e.targetNamesArr, PidKey, Normalized(rd.target));
    InternSenderFacts(e, rd.sender);
  }

  /** One encoding step on a message that serializes keeps the tables
      consistent, only extends them, and appends one envelope that stands
      for the request. */
  lemma StepDescribes(e: Encoding, rd: RemoteDeliver, codec: Codec, s: Serialized)
    requires WellFormed(e)
    requires SerializeMessage(codec, rd.message) == Some(s)
    ensures var e' := EncodeStep(e, rd, codec);
      && WellFormed(e')
      && e.typeNamesArr <= e'.typeNamesArr && e.targetNamesArr <= e'.targetNamesArr
      && e.senderNamesArr <= e'.senderNamesArr
      && e'.envelopes == e.envelopes + [e'.envelopes[|e.envelopes|]]
      && Describes(BatchOf(e'), e'.envelopes[|e.envelopes|], Accepted(rd, s))
  {
    var t := Intern(e.typeNames, e.typeNamesArr, s.typeName, s.typeName);
    var g := Intern(e.targetNames, e.targetNamesArr, PidKey(rd.target), Normalized(rd.target));
    var d := InternSender(e, rd.sender);
    var env := EnvelopeFor(rd, s, t.0, g.0, d.0);
    var envs := e.envelopes + [env];
    EncodeStepParts(e, rd, codec, s);
    InternedWellFormed(e, rd, s, envs);
    InternedDescribes(e, rd, s, envs);
    assert envs[|e.envelopes|] == env;
  }

  lemma {:induction false} EncodeWellFormed(reqs: seq<RemoteDeliver>, codec: Codec)
    ensures WellFormed(Encode(reqs, codec))
    decreases |reqs|
  {
    if reqs != [] {
      var init := reqs[..|reqs| - 1];
      var rd := reqs[|reqs| - 1];
      EncodeWellFormed(init, codec);
      match SerializeMessage(codec, rd.message)
      case None =>
      case Some(s) =>
        StepDescribes(Encode(init, codec), rd, codec, s);
    }
  }

  lemma NameKeysOf(a: seq<string>)
    ensures KeysOf(a, NameKey) == a
  {
    assert forall i :: 0 <= i < |a| ==> KeysOf(a, NameKey)[i] == NameKey(a[i]) == a[i];
  }

  /** The envelopes of e stand, one for one and in order, for acc. */
  predicate AllDescribe(e: Encoding, acc: seq<Accepted>) {
    && |e.envelopes| == |acc|
    && forall j :: 0 <= j < |acc| ==> Describes(BatchOf(e), e.envelopes[j], acc[j])
  }

  /** Growing the tables and appending one envelope for x keeps every
      earlier envelope standing for its request. */
  lemma AllDescribeSnoc(e: Encoding, e': Encoding, acc: seq<Accepted>, x: Accepted)
    requires AllDescribe(e, acc)
    requires e.typeNamesArr <= e'.typeNamesArr && e.targetNamesArr <= e'.targetNamesArr
    requires e.senderNamesArr <= e'.senderNamesArr
    requires |e'.envelopes| == |e.envelopes| + 1 && e'.envelopes[..|e.envelopes|] == e.envelopes
    requires Describes(BatchOf(e'), e'.envelopes[|e.envelopes|], x)
    ensures AllDescribe(e', acc + [x])
  {
    var acc' := acc + [x];
    forall j | 0 <= j < |acc'|
      ensures Describes(BatchOf(e'), e'.envelopes[j], acc'[j])
    {
      if j < |acc| {
        assert e'.envelopes[j] == e.envelopes[j];
        DescribesExtend(BatchOf(e), BatchOf(e'), e.envelopes[j], acc[j]);
      }
    }
  }

  lemma {:induction false} EncodeAllDescribe(reqs: seq<RemoteDeliver>, codec: Codec)
    ensures WellFormed(Encode(reqs, codec))
    ensures AllDescribe(Encode(reqs, codec), AcceptedOf(reqs, codec))
    decreases |reqs|
  {
    if reqs != [] {
      var init := reqs[..|reqs| - 1];
      var rd := reqs[|reqs| - 1];
      EncodeAllDescribe(init, codec);
      var e := Encode(init, codec);
      var acc := AcceptedOf(init, codec);
      match SerializeMessage(codec, rd.message)
      case None =>
        assert Encode(reqs, codec) == e && AcceptedOf(reqs, codec) == acc;
      case Some(s) =>
        var e' := Encode(reqs, codec);
        assert e' == EncodeStep(e, rd, codec);
        StepDescribes(e, rd, codec, s);
        assert AcceptedOf(reqs, codec) == acc + [Accepted(rd, s)];
        assert e'.envelopes[..|e.envelopes|] == e.envelopes;
        AllDescribeSnoc(e, e', acc, Accepted(rd, s));
    }
  }

  /** Every envelope of the encoding stands for the matching accepted
      request, one envelope per accepted request and in the same order, and
      the tables stay consistent. */
  lemma EncodeDescribes(reqs: seq<RemoteDeliver>, codec: Codec)
    ensures WellFormed(Encode(reqs, codec))
    ensures |Encode(reqs, codec).envelopes| == |AcceptedOf(reqs, codec)|
    ensures forall j :: 0 <= j < |AcceptedOf(reqs, codec)| ==>
      Describes(BatchOf(Encode(reqs, codec)), Encode(reqs, codec).envelopes[j], AcceptedOf(reqs, codec)[j])
  {
    EncodeAllDescribe(reqs, codec);
  }

  /** Requests with the same target address and id, whatever their request
      ids, are sent with the same target index. */
  lemma SameTargetSameIndex(reqs: seq<RemoteDeliver>, codec: Codec, i: nat, j: nat)
    requires i < |AcceptedOf(reqs, codec)| && j < |AcceptedOf(reqs, codec)|
    requires PidKey(AcceptedOf(reqs, codec)[i].request.target) == PidKey(AcceptedOf(reqs, codec)[j].request.target)
    ensures i < |Encode(reqs, codec).envelopes| && j < |Encode(reqs, codec).envelopes|
    ensures Encode(reqs, codec).envelopes[i].target == Encode(reqs, codec).envelopes[j].target
  {
    EncodeDescribes(reqs, codec);
    var e := Encode(reqs, codec);
    var ti, tj := e.envelopes[i].target, e.envelopes[j].target;
    assert e.targetNames[PidKey(e.targetNamesArr[ti])] == ti;
    assert e.targetNames[PidKey(e.targetNamesArr[tj])] == tj;
  }

  /** A message that fails to serialize leaves every table and the envelope
      list exactly as they were. */
  lemma SkippedMessageAddsNothing(reqs: seq<RemoteDeliver>, rd: RemoteDeliver, codec: Codec)
    requires SerializeMessage(codec, rd.message).None?
    ensures Encode(reqs + [rd], codec) == Encode(reqs, codec)
  {
    assert (reqs + [rd])[..|reqs|] == reqs;
  }

  /** The keys of a table's entries, in table order. */
  function KeysOf<T>(a: seq<T>, key: T -> string): seq<string> {
    seq(|a|, i requires 0 <= i < |a| => key(a[i]))
  }

  /** The distinct strings of ks, in order of first occurrence. */
  function FirstSeen(ks: seq<string>): seq<string>
    decreases |ks|
  {
    if ks == [] then []
    else
      var p := FirstSeen(ks[..|ks| - 1]);
      if ks[|ks| - 1] in p then p else p + [ks[|ks| - 1]]
  }

  lemma FirstSeenStep(ks: seq<string>, k: string)
    ensures FirstSeen(ks + [k]) == if k in FirstSeen(ks) then FirstSeen(ks) else FirstSeen(ks) + [k]
  {
    assert (ks + [k])[..|ks|] == ks;
  }

  lemma InternKeys<T>(m: map<string, nat>, a: seq<T>, key: T -> string, item: T)
    requires Consistent(m, a, key)
    ensures var k := key(item);
      KeysOf(Intern(m, a, k, item).2, key) ==
        if k in KeysOf(a, key) then KeysOf(a, key) else KeysOf(a, key) + [k]
  {
    var k := key(item);
    if k in m {
      assert KeysOf(a, key)[m[k]] == k;
    } else {
      forall i | 0 <= i < |a|
        ensures KeysOf(a, key)[i] != k
      {
        assert key(a[i]) in m;
      }
      assert KeysOf(a + [item], key) == KeysOf(a, key) + [k];
    }
  }

  /** The type names of the accepted requests, in order. */
  function TypeNamesOf(acc: seq<Accepted>): seq<string> {
    seq(|acc|, i requires 0 <= i < |acc| => acc[i].serialized.typeName)
  }

  /** The target keys of the accepted requests, in order. */
  function TargetKeysOf(acc: seq<Accepted>): seq<string> {
    seq(|acc|, i requires 0 <= i < |acc| => PidKey(acc[i].request.target))
  }

  /** The sender keys of the accepted requests that have a sender, in order. */
  function SenderKeysOf(acc: seq<Accepted>): seq<string>
    decreases |acc|
  {
    if acc == [] then []
    else
      var last := acc[|acc| - 1];
      SenderKeysOf(acc[..|acc| - 1]) + (if last.request.sender.Some? then [PidKey(last.request.sender.value)] else [])
  }

  /** The type-name table lists each type name of the accepted messages
      once, in order of first occurrence. */
  lemma {:induction false} TypeNamesFirstSeen(reqs: seq<RemoteDeliver>, codec: Codec)
    ensures Encode(reqs, codec).typeNamesArr == FirstSeen(TypeNamesOf(AcceptedOf(reqs, codec)))
    decreases |reqs|
  {
    if reqs != [] {
      var init := reqs[..|reqs| - 1];
      var rd := reqs[|reqs| - 1];
      TypeNamesFirstSeen(init, codec);
      EncodeWellFormed(init, codec);
      var e := Encode(init, codec);
      var acc := AcceptedOf(init, codec);
      match SerializeMessage(codec, rd.message)
      case None =>
      case Some(s) =>
        InternKeys(e.typeNames, e.typeNamesArr, NameKey, s.typeName);
        NameKeysOf(e.typeNamesArr);
        NameKeysOf(Intern(e.typeNames, e.typeNamesArr, s.typeName, s.typeName).2);
        assert TypeNamesOf(acc + [Accepted(rd, s)]) == TypeNamesOf(acc) + [s.typeName];
        FirstSeenStep(TypeNamesOf(acc), s.typeName);
    }
  }

  /** The target table holds one entry per distinct target address and id,
      in order of first occurrence. */
  lemma {:induction false} TargetsFirstSeen(reqs: seq<RemoteDeliver>, codec: Codec)
    ensures KeysOf(Encode(reqs, codec).targetNamesArr, PidKey) == FirstSeen(TargetKeysOf(AcceptedOf(reqs, codec)))
    decreases |reqs|
  {
    if reqs != [] {
      var init := reqs[..|reqs| - 1];
      var rd := reqs[|reqs| - 1];
      TargetsFirstSeen(init, codec);
      EncodeWellFormed(init, codec);
      var e := Encode(init, codec);
      var acc := AcceptedOf(init, codec);
      match SerializeMessage(codec, rd.message)
      case None =>
      case Some(s) =>
        InternKeys(e.targetNames, e.targetNamesArr, PidKey, Normalized(rd.target));
        assert PidKey(Normalized(rd.target)) == PidKey(rd.target);
        assert TargetKeysOf(acc + [Accepted(rd, s)]) == TargetKeysOf(acc) + [PidKey(rd.target)];
        FirstSeenStep(TargetKeysOf(acc), PidKey(rd.target));
    }
  }

  /** The sender table holds one entry per distinct sender address and id,
      in order of first occurrence; requests without a sender add nothing. */
  lemma {:induction false} SendersFirstSeen(reqs: seq<RemoteDeliver>, codec: Codec)
    ensures KeysOf(Encode(reqs, codec).senderNamesArr, PidKey) == FirstSeen(SenderKeysOf(AcceptedOf(reqs, codec)))
    decreases |reqs|
  {
    if reqs != [] {
      var init := reqs[..|reqs| - 1];
      var rd := reqs[|reqs| - 1];
      SendersFirstSeen(init, codec);
      EncodeWellFormed(init, codec);
      var e := Encode(init, codec);
      var acc := AcceptedOf(init, codec);
      match SerializeMessage(codec, rd.message)
      case None =>
      case Some(s) =>
        var acc' := acc + [Accepted(rd, s)];
        assert acc'[..|acc'| - 1] == acc;
        if rd.sender.Some? {
          var p := rd.sender.value;
          InternKeys(e.senderNames, e.senderNamesArr, PidKey, Normalized(p));
          assert PidKey(Normalized(p)) == PidKey(p);
          FirstSeenStep(SenderKeysOf(acc), PidKey(p));
        } else {
          assert SenderKeysOf(acc') == SenderKeysOf(acc);
        }
    }
  }

  /** What a receiver hands on for one envelope: the type name and PIDs
      looked up in the tables, the request ids put back. None when an index
      is out of range. */
  datatype Delivery = Delivery(
    header: Option<MessageHeader>,
    data: seq<byte>,
    typeName: string,
    target: PID,
    sender: Option<PID>,
    serializerId: int)

  function DecodeEnvelope(b: MessageBatch, e: Envelope): Option<Delivery> {
    if e.typeId < |b.typeNames| && e.target < |b.targets| && e.sender <= |b.senders| then
      Some(Delivery(e.messageHeader, e.messageData, b.typeNames[e.typeId],
        b.targets[e.target].(requestId := e.targetRequestId),
        if e.sender == 0 then None else Some(b.senders[e.sender - 1].(requestId := e.senderRequestId)),
        e.serializerId))
    else None
  }

  function DecodeAll(b: MessageBatch, envs: seq<Envelope>): Option<seq<Delivery>>
    decreases |envs|
  {
    if envs == [] then Some([])
    else
      match DecodeAll(b, envs[..|envs| - 1])
      case None => None
      case Some(ds) =>
        match DecodeEnvelope(b, envs[|envs| - 1])
        case None => None
        case Some(d) => Some(ds + [d])
  }

  /** The receiving side of a batch. */
  function Decode(b: MessageBatch): Option<seq<Delivery>> {
    DecodeAll(b, b.envelopes)
  }

  /** What the receiver should get for an accepted request. */
  function Delivered(x: Accepted): Delivery {
    Delivery(HeaderOf(x.request.header), x.serialized.bytes, x.serialized.typeName,
      x.request.target, x.request.sender, SerializerId)
  }

  /** Neither the target's nor the sender's address contains a '/'. */
  predicate SlashFree(rd: RemoteDeliver) {
    '/' !in rd.target.address && (rd.sender.Some? ==> '/' !in rd.sender.value.address)
  }

  predicate TableSlashFree(a: seq<PID>) {
    forall i :: 0 <= i < |a| ==> '/' !in a[i].address
  }

  /** Two distinct PIDs share an interning key when an address contains a
      '/': the key does not identify a PID in general. */
  lemma PidKeyCollision()
    ensures PID("host/a", "b", 0) != PID("host", "a/b", 0)
    ensures PidKey(PID("host/a", "b", 0)) == PidKey(PID("host", "a/b", 0))
  {
  }

  /** With '/'-free addresses, the key determines address and id. */
  lemma PidKeyInjective(p: PID, q: PID)
    requires '/' !in p.address && '/' !in q.address
    requires PidKey(p) == PidKey(q)
    ensures p.address == q.address && p.id == q.id
  {
    var k := PidKey(p);
    assert k == p.address + ['/'] + p.id && k == q.address + ['/'] + q.id;
    assert k[|p.address|] == '/' && k[|q.address|] == '/';
    assert forall i :: 0 <= i < |p.address| ==> k[i] == p.address[i];
    assert forall i :: 0 <= i < |q.address| ==> k[i] == q.address[i];
    assert |p.address| == |q.address|;
    assert p.address == k[..|p.address|] == q.address;
    assert p.id == k[|p.address| + 1..] == q.id;
  }

  lemma {:induction false} AcceptedFromRequests(reqs: seq<RemoteDeliver>, codec: Codec)
    ensures forall j :: 0 <= j < |AcceptedOf(reqs, codec)| ==> AcceptedOf(reqs, codec)[j].request in reqs
    decreases |reqs|
  {
    if reqs != [] {
      AcceptedFromRequests(reqs[..|reqs| - 1], codec);
      forall r | r in reqs[..|reqs| - 1]
        ensures r in reqs
      {
      }
    }
  }

  lemma {:induction false} EncodeSlashFree(reqs: seq<RemoteDeliver>, codec: Codec)
    requires forall r :: r in reqs ==> SlashFree(r)
    ensures TableSlashFree(Encode(reqs, codec).targetNamesArr)
    ensures TableSlashFree(Encode(reqs, codec).senderNamesArr)
    decreases |reqs|
  {
    if reqs != [] {
      var init := reqs[..|reqs| - 1];
      forall r | r in init
        ensures SlashFree(r)
      {
        assert r in reqs;
      }
      EncodeSlashFree(init, codec);
      assert SlashFree(reqs[|reqs| - 1]);
    }
  }

  lemma {:induction false} DecodeAllOk(b: MessageBatch, envs: seq<Envelope>, ds: seq<Delivery>)
    requires |envs| == |ds|
    requires forall j :: 0 <= j < |envs| ==> DecodeEnvelope(b, envs[j]) == Some(ds[j])
    ensures DecodeAll(b, envs) == Some(ds)
    decreases |envs|
  {
    if envs != [] {
      var n := |envs| - 1;
      DecodeAllOk(b, envs[..n], ds[..n]);
      assert ds == ds[..n] + [ds[n]];
    }
  }

  lemma DecodeDescribed(b: MessageBatch, e: Envelope, x: Accepted)
    requires Describes(b, e, x) && SlashFree(x.request)
    requires TableSlashFree(b.targets) && TableSlashFree(b.senders)
    ensures DecodeEnvelope(b, e) == Some(Delivered(x))
  {
    PidKeyInjective(b.targets[e.target], x.request.target);
    if x.request.sender.Some? {
      PidKeyInjective(b.senders[e.sender - 1], x.request.sender.value);
    }
  }

  /** Round trip: when no address contains a '/', decoding the batch gives
      back, in input order, exactly the requests that serialized, with their
      targets, senders and request ids intact. */
  lemma DecodeRoundTrip(reqs: seq<RemoteDeliver>, codec: Codec)
    requires forall r :: r in reqs ==> SlashFree(r)
    ensures var acc := AcceptedOf(reqs, codec);
      Decode(BatchOf(Encode(reqs, codec))) == Some(seq(|acc|, j requires 0 <= j < |acc| => Delivered(acc[j])))
  {
    var acc := AcceptedOf(reqs, codec);
    var e := Encode(reqs, codec);
    var b := BatchOf(e);
    var ds := seq(|acc|, j requires 0 <= j < |acc| => Delivered(acc[j]));
    EncodeDescribes(reqs, codec);
    EncodeSlashFree(reqs, codec);
    AcceptedFromRequests(reqs, codec);
    forall j | 0 <= j < |e.envelopes|
      ensures DecodeEnvelope(b, e.envelopes[j]) == Some(ds[j])
    {
      DecodeDescribed(b, e.envelopes[j], acc[j]);
    }
    DecodeAllOk(b, e.envelopes, ds);
  }
}
