# protoactor-go remote: endpoint writer and configuration, in Dafny

This project models two parts of the `remote` package of protoactor-go and
proves properties about them.

- **The endpoint writer** is the actor that owns the outbound stream to one
  remote node.
  - On `Started` it tries to connect, making at most `MaxRetryCount`
    attempts. Each attempt opens a stream, sends a `ConnectRequest`, and
    accepts only a `ConnectResponse` as the reply.
  - On a batch of delivery requests it builds one `MessageBatch`. Type names,
    targets and senders are interned into three tables, and each envelope
    refers to them by index.
  - While it has no stream, it dead-letters requests.
  - A terminate event, or a send that fails, makes it stop.
- **The remote configuration** covers `defaultConfig`, `newConfig`,
  `Configure`, `Config.Address` and the twelve `With*` options.

Files:

- `wrappers.dfy`: `Option`.
- `messages.dfy`: `PID` (with its `uint32` request id), `remoteDeliver` and
  the endpoint events.
- `format.dfy`: decimal rendering and parsing of integers, and the last
  index of a character. `Config.Address` uses them.
- `config.dfy` (module `RemoteConfig`): the configuration in two forms.
  - `Settings` is a value. `DefaultSettings` (`defaultConfig`) and `Address`
    are pure functions over it.
  - The class `Config` has the Go struct's fields. `ApplyOption`,
    `NewConfig` and `Configure` update it in place. The `ConfigOption`
    datatype has one constructor for each of the twelve `With*` functions.
    Each element stands for the closure that function returns. Closures
    written by hand are not modelled; see "Left out".
  - `Applied`, `ApplyAll` and `NewSettings` say what the options do to a
    `Settings` value.
- `interning.dfy` (module `Interning`): the encoder inside `sendEnvelopes`.
  - `AddToLookup`, `AddToTargetLookup` and `AddToSenderLookup` are the three
    lookup helpers.
  - `Encode` describes the seven locals after the loop.
  - The module also has a reference decoder (`Decode`). It reads a batch back
    through its tables, so the batch can be proved to carry every accepted
    request.
- `endpoint_writer.dfy` (module `EndpointWriter`): the class
  `EndpointWriter`.
  - Its fields are `stream` and a trace `effects` of what it does to the
    outside world: events published, dead-letter responses, frames written,
    stash, stop and panic.
  - It has the methods `Receive`, `Initialize`, `InitializeInternal`,
    `SendEnvelopes` and `CloseClientConn`.
  - The reference functions `InitializeEffects` and `SendEnvelopesEffects`
    describe each method's trace. The lemmas below are about those
    functions.

The environment is supplied as parameters:

- `dial(i)` is the outcome of connect attempt `i`;
- `Codec` holds the serializer: `RootSerializable`, `Serialize` and the
  serializer registry;
- `sendSucceeds` says whether the stream accepts the batch.

## Behaviour of the code worth knowing

These points come from reading the code, and the contracts follow the code.

- `initializeInternal` stores the new stream in the writer before the
  handshake (remote/endpoint_writer.go:110-111). A failed attempt therefore
  still leaves `stream` set (`InitializeInternal` ensures
  `stream == Some(...)` on every path). The dead-letter path of
  `sendEnvelopes` is reached only in three cases:
  - `MaxRetryCount <= 0`;
  - a batch that arrives before `Started`;
  - a batch that arrives after `Stopped` or `Restarting`.
- A `MaxRetryCount` of zero or less makes no attempt and publishes nothing,
  not even `EndpointTerminatedEvent` (`RetryBound` and
  `TerminatedIffAllAttemptsFail` with `n <= 0`).
- `Receive` stops the writer on any `*EndpointTerminatedEvent`, whatever its
  `Address` (remote/endpoint_writer.go:338-340).
- At the top level, only the reference form `*EndpointTerminatedEvent` is
  matched. The value form falls to the unknown-message branch, so the model
  counts it as `Unknown`. Inside a batch both forms stop the writer
  (remote/endpoint_writer.go:200), and both are `Terminate` items.
- `serializerID` is never assigned, so every envelope carries serializer 0.
- The interning key of a PID is `Address + "/" + Id`. This key does not
  identify a PID when an address contains '/' (`PidKeyCollision`): two
  distinct targets then share one table entry. The round-trip lemma
  `DecodeRoundTrip` therefore requires '/'-free addresses
  (`PidKeyInjective`).

## Model

| member | source | states |
|---|---|---|
| RemoteConfig.DefaultSettings | remote/config.go:16-72 | the default configuration: empty host and advertised host, batch sizes 1000, queue sizes 1000000, no kinds, 5 retries, scheme "http", server timeouts 1s/5min/5min with 8 KiB headers, client read-idle 15s, no TLS, the default CORS policy |
| RemoteConfig.DefaultCors | remote/config.go:37-70 | the default CORS policy allows every origin and every request header, lists six methods and eleven exposed headers, and caches preflight for 7200 seconds |
| RemoteConfig.Config.Default | remote/config.go:16-72 | a fresh Config object whose fields hold the default configuration |
| RemoteConfig.Address | remote/config.go:82-85 | "host:port" splits at its last ':' back into exactly the host and the port, even when the host holds colons |
| RemoteConfig.ApplyOption | remote/config-opts.go:9-95 | running one option closure on a Config leaves it holding `Applied(old value, option)`: one field overwritten, or the kinds inserted one by one in order by the WithKinds loop |
| RemoteConfig.SetEndpointWriterBatchSize | remote/config-opts.go:11-16 | the option closure overwrites EndpointWriterBatchSize with its argument and leaves every other field as it was |
| RemoteConfig.SetEndpointWriterQueueSize | remote/config-opts.go:18-23 | the option closure overwrites EndpointWriterQueueSize with its argument and leaves every other field as it was |
| RemoteConfig.SetEndpointManagerBatchSize | remote/config-opts.go:25-30 | the option closure overwrites EndpointManagerBatchSize with its argument and leaves every other field as it was |
| RemoteConfig.SetEndpointManagerQueueSize | remote/config-opts.go:32-37 | the option closure overwrites EndpointManagerQueueSize with its argument and leaves every other field as it was |
| RemoteConfig.SetAdvertisedHost | remote/config-opts.go:39-44 | the option closure overwrites AdvertisedHost with its argument and leaves every other field as it was |
| RemoteConfig.SetScheme | remote/config-opts.go:46-51 | the option closure overwrites Scheme with its argument and leaves every other field as it was |
| RemoteConfig.SetServerHTTPOptions | remote/config-opts.go:53-58 | the option closure overwrites ConnectServerHTTPOptions with its argument and leaves every other field as it was |
| RemoteConfig.SetServerTLSConfig | remote/config-opts.go:60-65 | the option closure overwrites ConnectServerTLSConfig with its argument and leaves every other field as it was |
| RemoteConfig.SetClientHTTPOptions | remote/config-opts.go:67-72 | the option closure overwrites ConnectClientHTTPOptions with its argument and leaves every other field as it was |
| RemoteConfig.SetClientTLSConfig | remote/config-opts.go:74-79 | the option closure overwrites ConnectClientTLSConfig with its argument and leaves every other field as it was |
| RemoteConfig.SetCors | remote/config-opts.go:81-86 | the option closure overwrites ConnectCorsOptions with its argument and leaves every other field as it was |
| RemoteConfig.InsertKinds | remote/config-opts.go:88-95 | the WithKinds loop inserts each kind's Props under its name, in order, into the existing Kinds map; every other field is unchanged |
| RemoteConfig.NewConfig | remote/config.go:74-80 | a fresh Config holding the defaults with every option applied in order |
| RemoteConfig.Configure | remote/config.go:87-94 | a fresh Config holding `Configured(host, port, options)` |
| RemoteConfig.Configured | remote/config.go:87-94 | Configure's result has the given host and port, and apart from them it equals newConfig's result for the same options |
| RemoteConfig.OptionsKeepHostPort | remote/config-opts.go:11-95 | no sequence of options changes Host or Port |
| RemoteConfig.NoOptionsGiveDefaults | remote/config.go:74-80 | newConfig with no options yields the default configuration |
| RemoteConfig.ApplyAllConcat | remote/config.go:76-78 | applying s then t equals applying s + t: options compose in order |
| RemoteConfig.EarlierWriteIsDead | remote/config.go:76-78 | last write wins: an option followed later by another option for the same field (other than WithKinds) has no effect |
| RemoteConfig.ApplyIdempotent | remote/config-opts.go:11-95 | applying any option twice, WithKinds included, is the same as applying it once |
| RemoteConfig.AddKindsLastWins | remote/config-opts.go:88-95 | a kind named several times by WithKinds is registered with the Props of its last occurrence |
| RemoteConfig.AddKindsFrame | remote/config-opts.go:88-95 | kinds that WithKinds does not name keep their registration, or stay absent |
| RemoteConfig.AddKindsIsUnion | remote/config-opts.go:88-95 | WithKinds overrides the existing Kinds map with the map its kinds build |
| RemoteConfig.NoKindsChangeNothing | remote/config-opts.go:88-95 | WithKinds with no kinds leaves the configuration unchanged |
| Interning.AddToLookup | remote/endpoint_writer.go:285-294 | a known name returns its index and changes nothing; a new name gets index len(m) and is appended; the map and table stay consistent and the index names the name |
| Interning.AddToTargetLookup | remote/endpoint_writer.go:296-308 | the same, keyed by Address + "/" + Id; a new target is appended with RequestId 0, and the table holds only such copies |
| Interning.AddToSenderLookup | remote/endpoint_writer.go:310-326 | no sender gives 0 and changes nothing; otherwise it gives the target-style index plus one, and index - 1 names the sender's key |
| Interning.StepDescribes | remote/endpoint_writer.go:242-261 | one request that serializes keeps the tables consistent and extends them only at the end |
| Interning.EncodeWellFormed | remote/endpoint_writer.go:177-262 | after the loop, each table agrees with its map and the PID tables hold no request ids |
| Interning.EncodeDescribes | remote/endpoint_writer.go:177-262 | one envelope per request that serializes, in input order; each envelope's indices name that request's type name, target and sender, and it carries the header (nil when empty), the bytes, serializer 0 and both request ids |
| Interning.SkippedMessageAddsNothing | remote/endpoint_writer.go:225-241 | a request whose message fails root or ordinary serialization leaves the tables and envelopes as they were |
| Interning.SameTargetSameIndex | remote/endpoint_writer.go:243 | two envelopes whose targets share an interning key share a target index |
| Interning.TypeNamesFirstSeen | remote/endpoint_writer.go:242 | the type-name table lists the distinct type names in order of first appearance |
| Interning.TargetsFirstSeen | remote/endpoint_writer.go:243 | the target table lists the distinct target keys in order of first appearance |
| Interning.SendersFirstSeen | remote/endpoint_writer.go:246 | the sender table lists the distinct sender keys in order of first appearance; requests without a sender add nothing |
| Interning.PidKeyCollision | remote/endpoint_writer.go:298 | two different PIDs can share an interning key when an address contains '/' |
| Interning.PidKeyInjective | remote/endpoint_writer.go:298 | with '/'-free addresses, the interning key determines address and id |
| Interning.DecodeRoundTrip | remote/endpoint_writer.go:252-277 | reading the sent batch back through its tables yields, in order, every request that serialized, with its target, sender, request ids, type name, bytes and header |
| EndpointWriter.EndpointWriter.constructor | remote/endpoint_writer.go:23-31 | a new writer for an address and configuration has no stream and has done nothing |
| EndpointWriter.EndpointWriter.Receive | remote/endpoint_writer.go:328-351 | Started runs initialize; Stopped and Restarting close the stream; a terminated event stops the writer; restart-after-failure panics; a batch runs sendEnvelopes; system, auto-receive and unknown messages change nothing |
| EndpointWriter.EndpointWriter.Initialize | remote/endpoint_writer.go:44-86 | the trace grows by `InitializeEffects` for the configured retry count; the stream is set if any attempt was made |
| EndpointWriter.EndpointWriter.InitializeInternal | remote/endpoint_writer.go:88-175 | the stream (scheme://address; cleartext allowed iff scheme is "http"; the client TLS and HTTP options) is stored before the handshake; the ConnectRequest is sent; success iff the reply is a ConnectResponse, which publishes Connected; a send, receive or reply-kind failure returns its own error |
| EndpointWriter.EndpointWriter.CloseClientConn | remote/endpoint_writer.go:353-369 | the stream is cleared and nothing else happens |
| EndpointWriter.EndpointWriter.SendEnvelopes | remote/endpoint_writer.go:177-283 | the trace grows by `SendEnvelopesEffects` for the items and the stream |
| EndpointWriter.EndpointWriter.ProcessItems | remote/endpoint_writer.go:198-262 | the loop over a batch stops at the first terminate event, reports it and records one stop; before it, each request is dead-lettered in order when there is no stream (with the locals left empty), and otherwise the locals become the encoding of all the requests |
| EndpointWriter.EndpointWriter.HandleDelivery | remote/endpoint_writer.go:206-261 | one request: without a stream, exactly one dead-letter outcome and no encoding; with one, exactly the encoder's step and no outside effect |
| EndpointWriter.EndpointWriter.SendBatch | remote/endpoint_writer.go:264-283 | no envelopes means nothing is sent; otherwise one batch made of the four tables goes on the stream, followed by stash and stop iff the send fails |
| EndpointWriter.EncodeRequest | remote/endpoint_writer.go:217-261 | one turn of the loop on a connected stream computes exactly the encoder's step for that request |
| EndpointWriter.SerializeRequest | remote/endpoint_writer.go:225-241 | the message is root-serialized first when it is RootSerializable, then serialized with serializer 0; a failure at either step skips the request |
| EndpointWriter.AppendEnvelope | remote/endpoint_writer.go:217-261 | the type name, the target and the sender are interned in that order, each through its own table, and one envelope naming the three indices is appended |
| EndpointWriter.FirstSuccess | remote/endpoint_writer.go:51-62 | the loop stops at the first attempt whose handshake succeeds, having failed at every earlier one, or runs out at the retry count |
| EndpointWriter.FirstTerminate | remote/endpoint_writer.go:198-204 | the first terminate event in a batch; every earlier item is a delivery |
| EndpointWriter.AttemptCounts | remote/endpoint_writer.go:127-146 | one attempt calls Send with a ConnectRequest exactly once (whether or not the send then fails), never publishes Terminated, and publishes Connected once iff its reply is a ConnectResponse |
| EndpointWriter.AttemptsSendRequests | remote/endpoint_writer.go:51-62 | k connect attempts call Send with a ConnectRequest exactly k times |
| EndpointWriter.AttemptsNeverTerminate | remote/endpoint_writer.go:51-62 | connect attempts themselves never publish Terminated; only the give-up path after the loop does |
| EndpointWriter.FailedAttemptsPublishNothing | remote/endpoint_writer.go:127-146 | failed attempts publish no Connected event |
| EndpointWriter.RetryBound | remote/endpoint_writer.go:51-62 | at most MaxRetryCount attempts (none when it is <= 0); all of them when every handshake fails; the last attempt made is the first success |
| EndpointWriter.ConnectedIffHandshakeSucceeds | remote/endpoint_writer.go:138-174 | initialize publishes Connected exactly once iff some attempt within the retry count succeeds, and otherwise never |
| EndpointWriter.TerminatedIffAllAttemptsFail | remote/endpoint_writer.go:64-71 | initialize publishes Terminated exactly once iff the retry count is positive and every attempt fails, and otherwise never |
| EndpointWriter.NoLossWhileDisconnected | remote/endpoint_writer.go:208-215 | without a stream, each request gets exactly one dead-letter outcome, in order: a DeadLetterResponse to its sender if it has one, otherwise a DeadLetterEvent for its target |
| EndpointWriter.TerminateStopsWithoutSending | remote/endpoint_writer.go:198-204 | a terminate event anywhere in a batch stops the writer exactly once, last, with nothing sent or stashed, and dead-letters at most the requests before it |
| EndpointWriter.BatchSentIffConnected | remote/endpoint_writer.go:264-283 | a batch is sent iff there is a stream, no terminate event, and a request that serializes; the batch is the encoding of the requests; a failed send stashes and stops, a successful one does nothing more |

## Left out

- Logging, `time.Now`, and the two-second sleep between connect attempts change no modelled state and are left out.
- The goroutine that `initializeInternal` starts to read from the stream (remote/endpoint_writer.go:148-170) runs concurrently with the actor. It is left out, and so are the Terminated events it publishes when the connection is lost or the remote asks to disconnect.
- The HTTP/2 client, `DialTLS`, `NewRemotingClient` and the connect client options are left out. A stream is described only by its endpoint URL, the cleartext flag, and the client TLS and HTTP options it is built from. Each attempt's outcome is a parameter (`dial`).
- The writer reads `MaxRetryCount` from the remote's configuration and everything else from its own. The model gives the writer one configuration for both.
- `ctx.Stop`, `ctx.Stash`, `panic`, event-stream publication and `Root.Send` are recorded as trace entries. Actor supervision, the mailbox and restarts that follow them are not modelled.
- EndpointWriter.EndpointWriter.SendEnvelopes: the type, target and sender indices are unbounded naturals, so the `int32` wrap-around after 2^31 table entries is not modelled.
- EndpointWriter.EndpointWriter.SendEnvelopes: an item that is neither a terminate event nor a `*remoteDeliver` makes the Go code dereference nil and panic. The model's batch items cannot express it.
- Interning.AddToLookup: Go mutates the caller's map in place. The model returns the new map instead. The map's only holder is a local of `sendEnvelopes`, so no aliasing is lost.
- `Serialize`, `RootSerializable` and the serializer registry are left out as code. They become the `Codec` functions, each of which either returns a result or fails.
- A `*cors.Cors` is described by the options it is built from. `AllowOriginFunc` is a flag saying whether every origin is allowed. `*actor.Props`, `*tls.Config`, `connect.ClientOption` and `connect.HandlerOption` are opaque handles.
- RemoteConfig.ConfigOption: Go's `ConfigOption` is any `func(*Config)`, and `newConfig` runs whatever closure a caller passes. Only the closures built by the twelve `With*` functions are modelled. A hand-written closure could set `MaxRetryCount`, `Host` or `Port`, so `OptionsKeepHostPort`, `EarlierWriteIsDead` and `ApplyIdempotent` are about those twelve only.
- RemoteConfig.InsertKinds: a nil `*Kind` passed to `WithKinds` makes the Go loop dereference nil and panic. A `seq<Kind>` cannot hold nil, so that panic is not modelled.
- EndpointWriter.Effect: `ConnectRequestSent` and `BatchSent` record that Send was called with that message. They are recorded even when the send then fails.
- remote/server.go, remote/messages.go (apart from the message shapes) and the examples are not part of this model.
- `Decode` is a reference definition of a receiver that reads a batch through its tables. The receiving endpoint reader is not part of this model.
