/**
 * The JSON-RPC messages of the client, once decoded: inbound replies and pushes,
 * outbound requests, and the classification the reader loop applies to every
 * inbound message.
 */
module Messages {
  import opened Wrappers
  import opened Ids

  /**
   * A decoded inbound message, reduced to the keys the reader loop looks at.
   * `None` means the key is absent. `refreshToken` and `expiresIn` live under
   * `result`; `testnet` is a top-level key of Deribit's replies.
   */
  datatype Inbound = Inbound(
    id: Option<int>,
    rpcMethod: Option<string>,
    refreshToken: Option<string>,
    expiresIn: Option<int>,
    testnet: Option<bool>)

  /** The `params` object of an outbound request. */
  datatype Params =
    | ClientCredentials(clientId: string, clientSecret: string)
    | RefreshGrant(refreshToken: string)
    | HeartbeatInterval(seconds: int)
    | Channels(channels: seq<string>)
    | NoParams

  /** An outbound JSON-RPC 2.0 request (the `jsonrpc` member is always "2.0"). */
  datatype Request = Request(id: int, rpcMethod: string, params: Params)

  /** A deferred `ws_operation(operation, ws_channel)` call: what the scheduler queues. */
  datatype Operation = Operation(kind: OpKind, channel: string)

  const HEARTBEAT_INTERVAL: int := 10

  function AuthRequest(clientId: string, clientSecret: string): Request {
    Request(AUTH, "public/auth", ClientCredentials(clientId, clientSecret))
  }

  function RefreshRequest(refreshToken: string): Request {
    Request(AUTH, "public/auth", RefreshGrant(refreshToken))
  }

  function SetHeartbeatRequest(): Request {
    Request(SET_HEARTBEAT, "public/set_heartbeat", HeartbeatInterval(HEARTBEAT_INTERVAL))
  }

  function HeartbeatAck(): Request {
    Request(HEARTBEAT, "public/test", NoParams)
  }

  function OpName(kind: OpKind): string {
    match kind
    case Subscribe => "subscribe"
    case Unsubscribe => "unsubscribe"
  }

  /** The request `ws_operation` sends for one operation under identifier `id`. */
  function OperationRequest(kind: OpKind, id: int, channel: string): Request {
    Request(id, "public/" + OpName(kind), Channels([channel]))
  }

  /** Every class the reader loop sorts an inbound message into. */
  datatype MessageKind =
    | Reply(reply: ReplyKind)   // the message has an `id`
    | HeartbeatPush             // no `id`, method "heartbeat"
    | SubscriptionPush          // no `id`, method "subscription"
    | Unhandled                 // no `id`, any other method or none

  /**
   * The reader loop's dispatch: an `id` decides first, whatever the method,
   * then the method name.
   */
  function Classify(m: Inbound): (r: MessageKind)
    ensures r.Reply? <==> m.id.Some?
    ensures r.Reply? ==> r.reply == ClassifyId(m.id.value)
    ensures r == HeartbeatPush <==> m.id.None? && m.rpcMethod == Some("heartbeat")
    ensures r == SubscriptionPush <==> m.id.None? && m.rpcMethod == Some("subscription")
  {
    match m.id
    case Some(id) => Reply(ClassifyId(id))
    case None =>
      if m.rpcMethod == Some("heartbeat") then HeartbeatPush
      else if m.rpcMethod == Some("subscription") then SubscriptionPush
      else Unhandled
  }

  /**
   * The requests the reader loop sends straight away (without the scheduler)
   * in answer to one inbound message.
   */
  function ImmediateAnswer(m: Inbound): (r: seq<Request>)
    ensures |r| <= 1
    ensures r != [] <==> m.id.None? && m.rpcMethod == Some("heartbeat")
  {
    if Classify(m) == HeartbeatPush then [HeartbeatAck()] else []
  }

  /**
   * A heartbeat push is answered by exactly one request, with the heartbeat
   * identifier, method `public/test` and empty params; a subscription push, and
   * any message carrying an `id` (whatever its method), is answered by nothing.
   */
  lemma HeartbeatPushAnswered(m: Inbound)
    ensures m.id.None? && m.rpcMethod == Some("heartbeat") ==>
      ImmediateAnswer(m) == [Request(10, "public/test", NoParams)]
    ensures m.rpcMethod == Some("subscription") ==> ImmediateAnswer(m) == []
    ensures m.id.Some? ==> ImmediateAnswer(m) == [] && Classify(m) == Reply(ClassifyId(m.id.value))
  {
  }

  /**
   * Round trip at the level of messages (the form of `IssuedIdRoundTrip` the
   * reader loop sees): the reply to an operation request issued from valid
   * counters, carrying the same identifier, is classified as the reply to that
   * operation whatever else the reply carries.
   */
  lemma OperationReplyRoundTrip(op: Operation, c: Counters, reply: Inbound)
    requires c.Valid()
    requires reply.id == Some(OperationRequest(op.kind, Allocate(op.kind, c).0, op.channel).id)
    ensures Classify(reply) == Reply(ReplyKindOf(op.kind))
  {
    IssuedIdRoundTrip(op.kind, c);
  }
}
