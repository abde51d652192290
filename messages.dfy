/**
 * The value types the remoting layer exchanges: actor identities
 * (actor.PID), the outbound delivery request (remoteDeliver) and the two
 * endpoint events (remote/messages.go).
 */
module Messages {
  import opened Wrappers

  newtype uint32 = x: int | 0 <= x < 0x1_0000_0000

  type byte = bv8

  /** An actor identity: the node that owns it, the actor's id on that node,
      and a request correlation id. */
  datatype PID = PID(address: string, id: string, requestId: uint32)

  /** A user message. The remoting layer never looks inside one; only the
      pluggable serializer does. */
  datatype Payload = Payload(handle: nat)

  /** Message headers as ReadonlyMessageHeader.ToMap() returns them. */
  type MessageHeader = map<string, string>

  /** remoteDeliver: one outbound message, created by the facade and
      consumed once by the endpoint writer. A nil header or sender is None. */
  datatype RemoteDeliver = RemoteDeliver(
    header: Option<MessageHeader>,
    message: Payload,
    target: PID,
    sender: Option<PID>,
    serializerId: int)

  datatype EndpointTerminatedEvent = EndpointTerminatedEvent(address: string)

  datatype EndpointConnectedEvent = EndpointConnectedEvent(address: string)
}
