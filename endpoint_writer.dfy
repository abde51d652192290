/**
 * The endpoint writer (remote/endpoint_writer.go): the actor that owns the
 * outbound stream to one remote node. It connects with a bounded number of
 * attempts when started, turns each batch of delivery requests into one
 * MessageBatch (module Interning), dead-letters requests while it has no
 * stream, and stops itself on a terminate event or a failed send.
 *
 * The transport is abstract: the outcome of connect attempt i is dial(i),
 * and whether the stream accepts a batch is a boolean. Everything the writer
 * does to the outside world (events published, dead-letter responses,
 * requests and batches written to the stream, stash, stop, panic) is
 * appended to the trace `effects`.
 */
module EndpointWriter {
  import opened Wrappers
  import opened Messages
  import opened Interning
  import RemoteConfig

  /** A client stream, described by what initializeInternal builds it from:
      the endpoint URL, whether cleartext HTTP/2 is allowed, and the client
      TLS and HTTP settings of the configuration. */
  datatype Stream = Stream(
    endpoint: string,
    allowHTTP: bool,
    clientTLS: Option<RemoteConfig.TLSConfig>,
    clientHTTP: RemoteConfig.HTTPClientOptions)

  function OpenStream(config: RemoteConfig.Settings, address: string): Stream {
    Stream(config.scheme + "://" + address, config.scheme == "http",
      config.connectClientTLSConfig, config.connectClientHTTPOptions)
  }

  /** The first frame of a connection: this node's system id and address. */
  datatype ConnectRequest = ConnectRequest(systemId: string, address: string)

  /** The first reply on a new stream. */
  datatype Reply = ConnectResponse | OtherReply

  /** How one connect attempt goes: the ConnectRequest cannot be sent, no
      reply can be read, or a reply arrives. */
  datatype Handshake = SendFails | ReceiveFails | Replied(reply: Reply)

  /** The three errors initializeInternal returns. */
  datatype ConnectError = SendError | ReceiveError | InvalidConnectResponse

  /** Only a ConnectResponse completes a handshake. */
  predicate Succeeds(h: Handshake) {
    h == Replied(ConnectResponse)
  }

  datatype Event =
    | EndpointConnected(connected: EndpointConnectedEvent)
    | EndpointTerminated(terminated: EndpointTerminatedEvent)
    | DeadLetter(message: Payload, sender: Option<PID>, pid: PID)

  /** One element of the []interface{} batch the writer receives. */
  datatype BatchItem = Terminate(event: EndpointTerminatedEvent) | Deliver(rd: RemoteDeliver)

  /** What the writer does that others can observe. A ConnectRequestSent
      or BatchSent entry records that Send was called on the stream with
      that message, whether or not the send then succeeded. */
  datatype Effect =
    | Published(event: Event)
    | DeadLetterResponseSent(to: PID, target: PID)
    | ConnectRequestSent(stream: Stream, request: ConnectRequest)
    | BatchSent(onStream: Stream, batch: MessageBatch)
    | Stashed(items: seq<BatchItem>)
    | StopRequested
    | Panicked(reason: string)

  /** The messages Receive distinguishes. */
  datatype Message =
    | Started
    | Stopped
    | Restarting
    | Terminated(event: EndpointTerminatedEvent)
    | RestartAfterConnectFailure(err: string)
    | Batch(items: seq<BatchItem>)
    | SystemMessage
    | AutoReceiveMessage
    | Unknown

  /** The collaborators: connect outcomes, the serializer, and whether the
      stream accepts the next batch. */
  datatype Environment = Environment(dial: nat -> Handshake, codec: Codec, sendSucceeds: bool)

  // ----- connecting -----

  /** What one connect attempt shows: Send called with the ConnectRequest, and a
      Connected event when the handshake succeeds. */
  function AttemptEffects(stream: Stream, request: ConnectRequest, address: string, h: Handshake): seq<Effect> {
    [ConnectRequestSent(stream, request)]
    + (if Succeeds(h) then [Published(EndpointConnected(EndpointConnectedEvent(address)))] else [])
  }

  /** The effects of attempts 0 .. k-1. */
  function AttemptsLog(stream: Stream, request: ConnectRequest, address: string,
                       dial: nat -> Handshake, k: nat): seq<Effect>
    decreases k
  {
    if k == 0 then []
    else AttemptsLog(stream, request, address, dial, k - 1) + AttemptEffects(stream, request, address, dial(k - 1))
  }

  /** The first attempt from i on, below n, whose handshake succeeds, or
      the larger of i and n when none does. */
  function FirstSuccess(dial: nat -> Handshake, i: nat, n: int): (r: nat)
    ensures i <= r
    ensures r < n ==> Succeeds(dial(r))
    ensures forall j :: i <= j < r && j < n ==> !Succeeds(dial(j))
    ensures r >= n ==> r == if i < n then n else i
    decreases n - i
  {
    if i >= n then i
    else if Succeeds(dial(i)) then i
    else FirstSuccess(dial, i + 1, n)
  }

  /** initialize with retry count n: attempts until the first success, at
      most n of them; one Terminated event when n > 0 attempts all fail. */
  function InitializeEffects(stream: Stream, request: ConnectRequest, address: string,
                             dial: nat -> Handshake, n: int): seq<Effect>
  {
    var k := FirstSuccess(dial, 0, n);
    if k < n then AttemptsLog(stream, request, address, dial, k + 1)
    else
      AttemptsLog(stream, request, address, dial, k)
      + (if n > 0 then [Published(EndpointTerminated(EndpointTerminatedEvent(address)))] else [])
  }

  // ----- sending -----

  /** The position of the first terminate event, or |items| if none. */
  function FirstTerminate(items: seq<BatchItem>): (r: nat)
    ensures r <= |items|
    ensures forall j :: 0 <= j < r ==> items[j].Deliver?
    ensures r < |items| ==> items[r].Terminate?
    decreases |items|
  {
    if items == [] then 0
    else if items[0].Terminate? then 0
    else 1 + FirstTerminate(items[1..])
  }

  /** The delivery requests in the first n items, which are all deliveries. */
  function RequestsBefore(items: seq<BatchItem>, n: nat): seq<RemoteDeliver>
    requires n <= |items| && forall j :: 0 <= j < n ==> items[j].Deliver?
  {
    seq(n, j requires 0 <= j < n => items[j].rd)
  }

  /** The one dead-letter outcome of a request that cannot be sent: a
      DeadLetterResponse to its sender, or a DeadLetterEvent if it has none. */
  function DeadLetterFor(rd: RemoteDeliver): Effect {
    match rd.sender
    case Some(s) => DeadLetterResponseSent(s, rd.target)
    case None => Published(DeadLetter(rd.message, None, rd.target))
  }

  function DeadLetters(reqs: seq<RemoteDeliver>): seq<Effect> {
    seq(|reqs|, i requires 0 <= i < |reqs| => DeadLetterFor(reqs[i]))
  }

  /** sendEnvelopes on a batch: requests before the first terminate event
      are dead-lettered when there is no stream; a terminate event stops the
      writer before anything is sent; otherwise the encoded batch is sent if
      it has an envelope, and a failed send stashes the batch and stops the
      writer. */
  function SendEnvelopesEffects(items: seq<BatchItem>, stream: Option<Stream>, codec: Codec,
                                sendSucceeds: bool): seq<Effect>
  {
    var n := FirstTerminate(items);
    var reqs := RequestsBefore(items, n);
    if stream.None? then
      DeadLetters(reqs) + (if n < |items| then [StopRequested] else [])
    else if n < |items| then
      [StopRequested]
    else
      var e := Encode(reqs, codec);
      if |e.envelopes| == 0 then []
      else [BatchSent(stream.value, BatchOf(e))] + (if sendSucceeds then [] else [Stashed(items), StopRequested])
  }

  class EndpointWriter {
    const address: string
    const config: RemoteConfig.Settings
    /** The local actor system's id and address, sent in the ConnectRequest. */
    const systemId: string
    const localAddress: string
    var stream: Option<Stream>
    var effects: seq<Effect>

    function Connection(): Stream {
      OpenStream(config, address)
    }

    function Hello(): ConnectRequest {
      ConnectRequest(systemId, localAddress)
    }

    /** endpointWriterProducer: a writer for one remote address, with no
      stream yet. */
    constructor (address: string, config: RemoteConfig.Settings, systemId: string, localAddress: string)
      ensures this.address == address && this.config == config
      ensures this.systemId == systemId && this.localAddress == localAddress
      ensures stream.None? && effects == []
    {
      this.address := address;
      this.config := config;
      this.systemId := systemId;
      this.localAddress := localAddress;
      stream := None;
      effects := [];
    }

    /** Receive: dispatch on the message kind. */
    method Receive(msg: Message, env: Environment)
      modifies this
      ensures msg.Started? ==>
        && effects == old(effects) + InitializeEffects(Connection(), Hello(), address, env.dial, config.maxRetryCount)
        && stream == if config.maxRetryCount > 0 then Some(Connection()) else old(stream)
      ensures msg.Stopped? || msg.Restarting? ==> stream.None? && effects == old(effects)
      ensures msg.Terminated? ==> stream == old(stream) && effects == old(effects) + [StopRequested]
      ensures msg.RestartAfterConnectFailure? ==>
        stream == old(stream) && effects == old(effects) + [Panicked(msg.err)]
      ensures msg.Batch? ==>
        && stream == old(stream)
        && effects == old(effects) + SendEnvelopesEffects(msg.items, old(stream), env.codec, env.sendSucceeds)
      ensures msg.SystemMessage? || msg.AutoReceiveMessage? || msg.Unknown? ==>
        stream == old(stream) && effects == old(effects)
    {
      match msg
      case Started => Initialize(env.dial);
      case Stopped => CloseClientConn();
      case Restarting => CloseClientConn();
      case Terminated(_) => effects := effects + [StopRequested];
      case RestartAfterConnectFailure(err) => effects := effects + [Panicked(err)];
      case Batch(items) => SendEnvelopes(items, env.codec, env.sendSucceeds);
      case SystemMessage =>
      case AutoReceiveMessage =>
      case Unknown =>
    }

    /** initialize: up to MaxRetryCount connect attempts, stopping at the
      first that succeeds; if the last attempt made failed, one Terminated
      event. With a retry count of 0 or less nothing is attempted and
      nothing is published. */
    method Initialize(dial: nat -> Handshake)
      modifies this
      ensures effects == old(effects) + InitializeEffects(Connection(), Hello(), address, dial, config.maxRetryCount)
      ensures stream == if config.maxRetryCount > 0 then Some(Connection()) else old(stream)
    {
      var n := config.maxRetryCount;
      var err: Option<ConnectError> := None;
      var i := 0;
      while i < n
        invariant 0 <= i && (n > 0 ==> i <= n)
        invariant FirstSuccess(dial, 0, n) == FirstSuccess(dial, i, n)
        invariant effects == old(effects) + AttemptsLog(Connection(), Hello(), address, dial, i)
        invariant stream == if i > 0 then Some(Connection()) else old(stream)
        invariant err.Some? <==> i > 0
        decreases n - i
      {
        err := InitializeInternal(dial(i));
        if err.Some? {
          i := i + 1;
          continue;
        }
        break;
      }
      if err.Some? {
        effects := effects + [Published(EndpointTerminated(EndpointTerminatedEvent(address)))];
        return;
      }
    }

    /** initializeInternal: open a stream (kept in the stream field whatever
      happens next), write the ConnectRequest, and accept only a
      ConnectResponse as the reply; on success publish Connected. */
    method InitializeInternal(outcome: Handshake) returns (err: Option<ConnectError>)
      modifies this
      ensures stream == Some(Connection())
      ensures effects == old(effects) + AttemptEffects(Connection(), Hello(), address, outcome)
      ensures err.None? <==> Succeeds(outcome)
      ensures outcome == SendFails ==> err == Some(SendError)
      ensures outcome == ReceiveFails ==> err == Some(ReceiveError)
      ensures outcome == Replied(OtherReply) ==> err == Some(InvalidConnectResponse)
    {
      var allowHttp := false;
      if config.scheme == "http" {
        allowHttp := true;
      }
      var s := Stream(config.scheme + "://" + address, allowHttp,
        config.connectClientTLSConfig, config.connectClientHTTPOptions);
      stream := Some(s);
      var request := ConnectRequest(systemId, localAddress);
      effects := effects + [ConnectRequestSent(s, request)];
      match outcome
      case SendFails => return Some(SendError);
      case ReceiveFails => return Some(ReceiveError);
      case Replied(OtherReply) => return Some(InvalidConnectResponse);
      case Replied(ConnectResponse) =>
        effects := effects + [Published(EndpointConnected(EndpointConnectedEvent(address)))];
        return None;
    }

    /** closeClientConn: drop the stream. */
    method CloseClientConn()
      modifies this
      ensures stream.None? && effects == old(effects)
    {
      if stream.Some? {
        stream := None;
      }
    }

    /** sendEnvelopes: one pass over the items, then at most one send, as
      SendEnvelopesEffects describes. */
    method SendEnvelopes(items: seq<BatchItem>, codec: Codec, sendSucceeds: bool)
      modifies this
      ensures stream == old(stream)
      ensures effects == old(effects) + SendEnvelopesEffects(items, old(stream), codec, sendSucceeds)
    {
      var encoding, terminated := ProcessItems(items, codec);
      if terminated {
        return;
      }
      SendBatch(encoding, items, sendSucceeds);
    }

    /** The loop of sendEnvelopes: up to the first terminate event (which
      stops the writer and ends the call), each request is dead-lettered
      when there is no stream and encoded into the locals otherwise. */
    method ProcessItems(items: seq<BatchItem>, codec: Codec) returns (encoding: Encoding, terminated: bool)
      modifies this
      ensures stream == old(stream)
      ensures terminated <==> FirstTerminate(items) < |items|
      ensures effects == old(effects)
        + (if stream.None? then DeadLetters(RequestsBefore(items, FirstTerminate(items))) else [])
        + (if terminated then [StopRequested] else [])
      ensures stream.None? ==> encoding == EmptyEncoding
      ensures stream.Some? && !terminated ==> encoding == Encode(RequestsBefore(items, |items|), codec)
    {
      encoding := EmptyEncoding;
      ghost var reqs: seq<RemoteDeliver> := [];
      for i := 0 to |items|
        invariant stream == old(stream)
        invariant forall j :: 0 <= j < i ==> items[j].Deliver?
        invariant reqs == RequestsBefore(items, i)
        invariant stream.None? ==> effects == old(effects) + DeadLetters(reqs) && encoding == EmptyEncoding
        invariant stream.Some? ==> effects == old(effects) && encoding == Encode(reqs, codec)
      {
        if items[i].Terminate? {
          effects := effects + [StopRequested];
          assert FirstTerminate(items) == i;
          return encoding, true;
        }
        var rd := items[i].rd;
        RequestsSnoc(items, i);
        DeadLettersSnoc(reqs, rd);
        EncodeSnoc(reqs, rd, codec);
        encoding := HandleDelivery(rd, encoding, codec);
        assert stream.None? ==> effects == old(effects) + (DeadLetters(reqs) + [DeadLetterFor(rd)]);
        reqs := reqs + [rd];
      }
      assert FirstTerminate(items) == |items|;
      terminated := false;
    }

    /** The end of sendEnvelopes: nothing when no envelope was built;
      otherwise the batch goes on the stream, and a failed send stashes the
      message and stops the writer. */
    method SendBatch(encoding: Encoding, items: seq<BatchItem>, sendSucceeds: bool)
      requires stream.Some? || |encoding.envelopes| == 0
      modifies this
      ensures stream == old(stream)
      ensures effects == old(effects) +
        if |encoding.envelopes| == 0 then []
        else [BatchSent(stream.value, BatchOf(encoding))] + (if sendSucceeds then [] else [Stashed(items), StopRequested])
    {
      if |encoding.envelopes| == 0 {
        return;
      }

      var batch := MessageBatch(encoding.typeNamesArr, encoding.targetNamesArr,
        encoding.senderNamesArr, encoding.envelopes);
      effects := effects + [BatchSent(stream.value, batch)];
      if !sendSucceeds {
        effects := effects + [Stashed(items), StopRequested];
      }
    }

    /** One delivery request of sendEnvelopes' loop: dead-lettered when
      there is no stream, otherwise encoded into the locals. */
    method HandleDelivery(rd: RemoteDeliver, encoding: Encoding, codec: Codec) returns (encoding': Encoding)
      modifies this
      ensures stream == old(stream)
      ensures stream.None? ==> effects == old(effects) + [DeadLetterFor(rd)] && encoding' == encoding
      ensures stream.Some? ==> effects == old(effects) && encoding' == EncodeStep(encoding, rd, codec)
    {
      if stream.None? {
        if rd.sender.Some? {
          effects := effects + [DeadLetterResponseSent(rd.sender.value, rd.target)];
        } else {
          effects := effects + [Published(DeadLetter(rd.message, rd.sender, rd.target))];
        }
        return encoding;
      }
      encoding' := EncodeRequest(encoding, rd, codec);
    }
  }

  /** The body of sendEnvelopes' loop for one request on a connected
      stream, over its seven locals (gathered in an Encoding): serialize the
      message, skipping it on failure; intern its type name, target and
      sender; append its envelope. */
  method EncodeRequest(e: Encoding, rd: RemoteDeliver, codec: Codec) returns (e': Encoding)
    ensures e' == EncodeStep(e, rd, codec)
  {
    var serialized := SerializeRequest(rd, codec);
    if serialized.None? {
      return e;
    }
    e' := AppendEnvelope(e, rd, serialized.value);
    EncodeStepParts(e, rd, codec, serialized.value);
  }

  /** The serialization half of the loop body: a RootSerializable message
      is first replaced by its root form, and either step may fail. */
  method SerializeRequest(rd: RemoteDeliver, codec: Codec) returns (r: Option<Serialized>)
    ensures r == SerializeMessage(codec, rd.message)
  {
    var message := rd.message;
    if codec.isRootSerializable(message) {
      var root := codec.rootSerialize(message);
      if root.None? {
        return None;
      }
      message := root.value;
    }
    var serializerID := 0;
    r := codec.serialize(message, serializerID);
  }

  /** The interning half of the loop body: look up or add the type name,
      the target and the sender, and append the envelope. */
  method AppendEnvelope(e: Encoding, rd: RemoteDeliver, s: Serialized) returns (e': Encoding)
    ensures var t := Intern(e.typeNames, e.typeNamesArr, s.typeName, s.typeName);
      var g := Intern(e.targetNames, e.targetNamesArr, PidKey(rd.target), Normalized(rd.target));
      var d := InternSender(e, rd.sender);
      e' == Encoding(t.1, t.2, g.1, g.2, d.1, d.2, e.envelopes + [EnvelopeFor(rd, s, t.0, g.0, d.0)])
  {
    var header: Option<MessageHeader>;
    if rd.header.None? || |rd.header.value| == 0 {
      header := None;
    } else {
      header := Some(rd.header.value);
    }
    var serializerID := 0;
    var bytes, typeName := s.bytes, s.typeName;
    var typeID, typeNames, typeNamesArr := AddToLookup(e.typeNames, typeName, e.typeNamesArr);
    assert (typeID, typeNames, typeNamesArr) == Intern(e.typeNames, e.typeNamesArr, s.typeName, s.typeName);
    var targetID, targetNames, targetNamesArr := AddToTargetLookup(e.targetNames, rd.target, e.targetNamesArr);
    assert (targetID, targetNames, targetNamesArr)
      == Intern(e.targetNames, e.targetNamesArr, PidKey(rd.target), Normalized(rd.target));
    var targetRequestID := rd.target.requestId;

    var senderID, senderNames, senderNamesArr := AddToSenderLookup(e.senderNames, rd.sender, e.senderNamesArr);
    assert (senderID, senderNames, senderNamesArr) == InternSender(e, rd.sender);
    var senderRequestID: uint32 := 0;
    if rd.sender.Some? {
      senderRequestID := rd.sender.value.requestId;
    }

    var envelope := Envelope(header, bytes, senderID, targetID, typeID, serializerID,
      targetRequestID, senderRequestID);
    e' := Encoding(typeNames, typeNamesArr, targetNames, targetNamesArr, senderNames, senderNamesArr,
      e.envelopes + [envelope]);
  }

  lemma RequestsSnoc(items: seq<BatchItem>, i: nat)
    requires i < |items| && forall j :: 0 <= j <= i ==> items[j].Deliver?
    ensures RequestsBefore(items, i + 1) == RequestsBefore(items, i) + [items[i].rd]
  {
  }

  lemma EncodeSnoc(reqs: seq<RemoteDeliver>, rd: RemoteDeliver, codec: Codec)
    ensures Encode(reqs + [rd], codec) == EncodeStep(Encode(reqs, codec), rd, codec)
  {
    assert (reqs + [rd])[..|reqs|] == reqs;
  }

  lemma DeadLettersSnoc(reqs: seq<RemoteDeliver>, rd: RemoteDeliver)
    ensures DeadLetters(reqs + [rd]) == DeadLetters(reqs) + [DeadLetterFor(rd)]
  {
  }

  // ----- what initialize promises -----

  /** One attempt writes one ConnectRequest, never publishes Terminated,
      and publishes Connected once exactly when its handshake succeeds. */
  lemma AttemptCounts(stream: Stream, request: ConnectRequest, address: string, h: Handshake)
    ensures multiset(AttemptEffects(stream, request, address, h))[ConnectRequestSent(stream, request)] == 1
    ensures multiset(AttemptEffects(stream, request, address, h))[Published(EndpointTerminated(EndpointTerminatedEvent(address)))] == 0
    ensures multiset(AttemptEffects(stream, request, address, h))[Published(EndpointConnected(EndpointConnectedEvent(address)))]
      == if Succeeds(h) then 1 else 0
  {
  }

  /** k attempts write k ConnectRequests. */
  lemma {:induction false} AttemptsSendRequests(stream: Stream, request: ConnectRequest, address: string,
                                                dial: nat -> Handshake, k: nat)
    ensures multiset(AttemptsLog(stream, request, address, dial, k))[ConnectRequestSent(stream, request)] == k
    decreases k
  {
    if k > 0 {
      AttemptsSendRequests(stream, request, address, dial, k - 1);
      AttemptCounts(stream, request, address, dial(k - 1));
      var log := AttemptsLog(stream, request, address, dial, k - 1);
      var last := AttemptEffects(stream, request, address, dial(k - 1));
      assert multiset(log + last) == multiset(log) + multiset(last);
    }
  }

  /** Connect attempts never publish Terminated. */
  lemma {:induction false} AttemptsNeverTerminate(stream: Stream, request: ConnectRequest, address: string,
                                                  dial: nat -> Handshake, k: nat)
    ensures multiset(AttemptsLog(stream, request, address, dial, k))[Published(EndpointTerminated(EndpointTerminatedEvent(address)))] == 0
    decreases k
  {
    if k > 0 {
      AttemptsNeverTerminate(stream, request, address, dial, k - 1);
      AttemptCounts(stream, request, address, dial(k - 1));
      var log := AttemptsLog(stream, request, address, dial, k - 1);
      var last := AttemptEffects(stream, request, address, dial(k - 1));
      assert multiset(log + last) == multiset(log) + multiset(last);
    }
  }

  /** When the first k handshakes fail, their attempts publish no
      Connected event at all. */
  lemma {:induction false} FailedAttemptsPublishNothing(stream: Stream, request: ConnectRequest, address: string,
                                                        dial: nat -> Handshake, k: nat)
    requires forall j :: 0 <= j < k ==> !Succeeds(dial(j))
    ensures multiset(AttemptsLog(stream, request, address, dial, k))[Published(EndpointConnected(EndpointConnectedEvent(address)))] == 0
    decreases k
  {
    if k > 0 {
      FailedAttemptsPublishNothing(stream, request, address, dial, k - 1);
      AttemptCounts(stream, request, address, dial(k - 1));
      var log := AttemptsLog(stream, request, address, dial, k - 1);
      var last := AttemptEffects(stream, request, address, dial(k - 1));
      assert multiset(log + last) == multiset(log) + multiset(last);
    }
  }

  /** The effects of initialize, split at the first successful attempt k:
      attempts 0 .. k-1 (all failed), then either attempt k (a success) or
      the Terminated event when attempts ran out. */
  lemma InitializeSplit(stream: Stream, request: ConnectRequest, address: string,
                        dial: nat -> Handshake, n: int)
    ensures var k := FirstSuccess(dial, 0, n);
      var log := AttemptsLog(stream, request, address, dial, k);
      && (forall j :: 0 <= j < k ==> !Succeeds(dial(j)))
      && (k < n ==>
            && Succeeds(dial(k))
            && InitializeEffects(stream, request, address, dial, n) == log + AttemptEffects(stream, request, address, dial(k)))
      && (k >= n ==>
            && (forall j :: 0 <= j < n ==> !Succeeds(dial(j)))
            && k == (if n > 0 then n else 0)
            && InitializeEffects(stream, request, address, dial, n)
               == log + if n > 0 then [Published(EndpointTerminated(EndpointTerminatedEvent(address)))] else [])
  {
  }

  /** The retry bound: initialize never makes more than n attempts (none
      when n <= 0), makes all n when every handshake fails, and stops at
      the first handshake that succeeds. */
  lemma RetryBound(stream: Stream, request: ConnectRequest, address: string, dial: nat -> Handshake, n: int)
    ensures var attempts := multiset(InitializeEffects(stream, request, address, dial, n))[ConnectRequestSent(stream, request)];
      && attempts <= (if n > 0 then n else 0)
      && ((forall j :: 0 <= j < n ==> !Succeeds(dial(j))) ==> attempts == if n > 0 then n else 0)
      && (forall j :: 0 <= j < n && Succeeds(dial(j)) ==> 1 <= attempts <= j + 1 && Succeeds(dial(attempts - 1)))
  {
    var k := FirstSuccess(dial, 0, n);
    var sent := ConnectRequestSent(stream, request);
    var log := AttemptsLog(stream, request, address, dial, k);
    var all := InitializeEffects(stream, request, address, dial, n);
    InitializeSplit(stream, request, address, dial, n);
    AttemptsSendRequests(stream, request, address, dial, k);
    var rest := all[|log|..];
    assert all == log + rest;
    assert multiset(all) == multiset(log) + multiset(rest);
    if k < n {
      AttemptCounts(stream, request, address, dial(k));
      assert multiset(all)[sent] == k + 1;
    } else {
      assert multiset(rest)[sent] == 0;
      assert multiset(all)[sent] == k;
    }
  }

  /** Exactly one Connected event when some attempt below n succeeds, and
      none otherwise. */
  lemma ConnectedIffHandshakeSucceeds(stream: Stream, request: ConnectRequest, address: string,
                                      dial: nat -> Handshake, n: int)
    ensures var c := multiset(InitializeEffects(stream, request, address, dial, n))[Published(EndpointConnected(EndpointConnectedEvent(address)))];
      && c <= 1
      && (c == 1 <==> exists j :: 0 <= j < n && Succeeds(dial(j)))
  {
    var k := FirstSuccess(dial, 0, n);
    var connected := Published(EndpointConnected(EndpointConnectedEvent(address)));
    var log := AttemptsLog(stream, request, address, dial, k);
    var all := InitializeEffects(stream, request, address, dial, n);
    InitializeSplit(stream, request, address, dial, n);
    FailedAttemptsPublishNothing(stream, request, address, dial, k);
    var rest := all[|log|..];
    assert all == log + rest;
    assert multiset(all) == multiset(log) + multiset(rest);
    if k < n {
      AttemptCounts(stream, request, address, dial(k));
      assert multiset(all)[connected] == 1;
      assert 0 <= k < n && Succeeds(dial(k));
    } else {
      assert multiset(rest)[connected] == 0;
    }
  }

  /** Exactly one Terminated event when n > 0 attempts all fail, and none
      otherwise. */
  lemma TerminatedIffAllAttemptsFail(stream: Stream, request: ConnectRequest, address: string,
                                     dial: nat -> Handshake, n: int)
    ensures multiset(InitializeEffects(stream, request, address, dial, n))[Published(EndpointTerminated(EndpointTerminatedEvent(address)))]
      == if n > 0 && forall j :: 0 <= j < n ==> !Succeeds(dial(j)) then 1 else 0
  {
    var k := FirstSuccess(dial, 0, n);
    var terminated := Published(EndpointTerminated(EndpointTerminatedEvent(address)));
    var log := AttemptsLog(stream, request, address, dial, k);
    var all := InitializeEffects(stream, request, address, dial, n);
    InitializeSplit(stream, request, address, dial, n);
    AttemptsNeverTerminate(stream, request, address, dial, k);
    var rest := all[|log|..];
    assert all == log + rest;
    assert multiset(all) == multiset(log) + multiset(rest);
    if k < n {
      AttemptCounts(stream, request, address, dial(k));
      assert multiset(all)[terminated] == 0;
      assert 0 <= k < n && Succeeds(dial(k));
    } else {
      assert multiset(all)[terminated] == if n > 0 then 1 else 0;
    }
  }

  // ----- what sendEnvelopes promises -----

  /** No request is lost while there is no stream: each one yields exactly
      one dead-letter outcome, in order, a response to its sender when it has
      one and a DeadLetter event for its target otherwise. */
  lemma NoLossWhileDisconnected(items: seq<BatchItem>, codec: Codec, sendSucceeds: bool)
    requires forall j :: 0 <= j < |items| ==> items[j].Deliver?
    ensures var fx := SendEnvelopesEffects(items, None, codec, sendSucceeds);
      && |fx| == |items|
      && forall j :: 0 <= j < |items| ==>
        && (fx[j].DeadLetterResponseSent? <==> items[j].rd.sender.Some?)
        && (fx[j].DeadLetterResponseSent? ==> fx[j] == DeadLetterResponseSent(items[j].rd.sender.value, items[j].rd.target))
        && (!fx[j].DeadLetterResponseSent? ==> fx[j] == Published(DeadLetter(items[j].rd.message, None, items[j].rd.target)))
  {
    assert FirstTerminate(items) == |items|;
  }

  /** A terminate event anywhere in the batch stops the writer: nothing is
      sent or stashed, the stop comes last and only once, and at most the
      requests before the event are dead-lettered. */
  lemma TerminateStopsWithoutSending(items: seq<BatchItem>, stream: Option<Stream>, codec: Codec,
                                     sendSucceeds: bool, t: nat)
    requires t < |items| && items[t].Terminate?
    ensures var fx := SendEnvelopesEffects(items, stream, codec, sendSucceeds);
      && 0 < |fx| <= t + 1
      && fx[|fx| - 1] == StopRequested
      && multiset(fx)[StopRequested] == 1
      && forall e :: e in fx ==> !e.BatchSent? && !e.Stashed?
  {
    var n := FirstTerminate(items);
    var dl := DeadLetters(RequestsBefore(items, n));
    assert forall e :: e in dl ==> e.DeadLetterResponseSent? || e.Published?;
    assert StopRequested !in dl;
  }

  /** A batch goes on the stream exactly when there is a stream, the batch
      holds no terminate event and at least one request serializes; it is
      the encoding of the requests, and a failed send stashes the batch and
      stops the writer while a successful one does nothing more. */
  lemma BatchSentIffConnected(items: seq<BatchItem>, stream: Option<Stream>, codec: Codec, sendSucceeds: bool)
    ensures var fx := SendEnvelopesEffects(items, stream, codec, sendSucceeds);
      var sent := stream.Some? && (forall j :: 0 <= j < |items| ==> items[j].Deliver?)
        && |AcceptedOf(RequestsBefore(items, |items|), codec)| > 0;
      && ((exists e :: e in fx && e.BatchSent?) <==> sent)
      && (sent ==> fx[0] == BatchSent(stream.value, BatchOf(Encode(RequestsBefore(items, |items|), codec))))
      && (sent ==> fx[1..] == if sendSucceeds then [] else [Stashed(items), StopRequested])
  {
    var fx := SendEnvelopesEffects(items, stream, codec, sendSucceeds);
    var n := FirstTerminate(items);
    if stream.None? {
      var dl := DeadLetters(RequestsBefore(items, n));
      assert forall e :: e in dl ==> e.DeadLetterResponseSent? || e.Published?;
    } else if n < |items| {
      assert fx == [StopRequested];
      assert items[n].Terminate?;
    } else {
      EncodeDescribes(RequestsBefore(items, n), codec);
      if |Encode(RequestsBefore(items, n), codec).envelopes| > 0 {
        assert fx[0] in fx && fx[0].BatchSent?;
      } else {
        assert fx == [];
      }
    }
  }
}
