/** Control messages, their envelopes and the events a hub reports (src/lib.rs, src/stream.rs). */
module Messages {
  import opened BigEndian
  import opened FrameHeaders

  datatype ErrorCode =
    | InvalidToken
    | DuplicateRopeId
    | UnsupportedCapability
    | UnauthorizedCommand
    | StreamRejected
    | ProtocolVersionMismatch

  datatype Direction = Input | Output | BiDirectional

  datatype AttributeSchema = AttributeSchema(dataType: string, writable: bool, description: string)

  datatype Capability = Capability(
    id: string,
    kind: string,
    direction: Direction,
    formats: seq<string>,
    commands: seq<string>,
    attributes: map<string, AttributeSchema>)

  datatype ControlMessage =
    | Tie(protocolVersion: u32, knotId: string, ropeId: string, nodeId: string, joinToken: string,
          capabilities: seq<Capability>)
    | Welcome(connectionId: string, assignedRopeId: string, sessionMetadata: string)
    | Reject(reason: ErrorCode, details: string)
    | StreamOpen(streamId: string, topic: string, configPayload: string)
    | StreamAccepted(streamId: string)
    | StreamClosed(streamId: string, closeReason: string)
    | Command(commandId: string, targetCapabilityId: string, action: string, payload: string)
    | Ack(correlationId: string, status: string, resultPayload: string)
    | Heartbeat
    | Error(code: ErrorCode, message: string)
    | Goodbye
    | Ping(clientTimestamp: u64)
    | Pong(clientTimestamp: u64, serverTimestamp: u64)
    | Event(variant: string, data: string)

  datatype Envelope = Envelope(
    msgId: string,
    timestamp: u64,
    sourceRopeId: string,
    connectionId: string,
    requiresAck: bool,
    payload: ControlMessage)

  /** What a framed reader hands to a control loop: an envelope, bytes that do not parse, or a read error. */
  datatype Delivery = Parsed(env: Envelope) | Malformed | ReadError

  datatype Recorded = Recorded(header: FrameHeader, payload: seq<byte>)

  /** `RopeConnected` also carries the control sender, which is the hub queue of Session.dfy. */
  datatype HubEvent =
    | RopeConnected(ropeId: string, knotId: string, nodeId: string, capabilities: seq<Capability>)
    | RopeDisconnected(ropeId: string)
    | StreamOpened(ropeId: string, streamId: string, topic: string, configPayload: string)
    | FrameReceived(ropeId: string, streamId: string, frame: Recorded)
    | EventReceived(ropeId: string, variant: string, data: string)

  /** The two clock readings a reader may take while it answers one message. */
  datatype Instants = Instants(sent: u64, server: u64)

  function PongTo(env: Envelope, source: string, connectionId: string, at: Instants): Envelope
    requires env.payload.Ping?
  {
    Envelope("pong-" + env.msgId, at.sent, source, connectionId, false, Pong(env.payload.clientTimestamp, at.server))
  }

  function AcceptOf(env: Envelope, at: Instants): Envelope
    requires env.payload.StreamOpen?
  {
    Envelope("accept-" + env.payload.streamId, at.sent, "host", env.connectionId, false,
             StreamAccepted(env.payload.streamId))
  }

  /** The pong answers this ping: it carries the ping's own timestamp, and its id ends in the ping's. */
  predicate Pongs(pong: Envelope, ping: Envelope, source: string, connectionId: string, at: Instants) {
    && ping.payload.Ping?
    && pong.payload == Pong(ping.payload.clientTimestamp, at.server)
    && |pong.msgId| == 5 + |ping.msgId| && pong.msgId[..5] == "pong-" && pong.msgId[5..] == ping.msgId
    && pong.timestamp == at.sent && pong.sourceRopeId == source && pong.connectionId == connectionId
        && !pong.requiresAck
  }

  /** The acceptance answers this request: it names the same stream, and so does its id. */
  predicate Accepts(accept: Envelope, open: Envelope, at: Instants) {
    && open.payload.StreamOpen?
    && accept.payload == StreamAccepted(open.payload.streamId)
    && |accept.msgId| == 7 + |open.payload.streamId| && accept.msgId[..7] == "accept-"
    && accept.msgId[7..] == open.payload.streamId
    && accept.timestamp == at.sent && accept.sourceRopeId == "host" && accept.connectionId == open.connectionId
    && !accept.requiresAck
  }

  /** What the hub owes a request. */
  predicate Answers(reply: Envelope, request: Envelope, at: Instants) {
    Pongs(reply, request, "host", request.connectionId, at) || Accepts(reply, request, at)
  }

  lemma PongToPongs(pong: Envelope, ping: Envelope, source: string, connectionId: string, at: Instants)
    requires ping.payload.Ping?
    ensures Pongs(pong, ping, source, connectionId, at) <==> pong == PongTo(ping, source, connectionId, at)
  {
    if Pongs(pong, ping, source, connectionId, at) {
      assert pong.msgId == pong.msgId[..5] + pong.msgId[5..];
    }
  }

  lemma HubReplyAnswers(reply: Envelope, request: Envelope, at: Instants)
    requires IsRequest(request)
    ensures Answers(reply, request, at) <==> reply == HubReply(request, at)
  {
    if request.payload.Ping? {
      PongToPongs(reply, request, "host", request.connectionId, at);
    } else if Accepts(reply, request, at) {
      assert reply.msgId == reply.msgId[..7] + reply.msgId[7..];
    }
  }

  predicate IsRequest(env: Envelope) {
    env.payload.Ping? || env.payload.StreamOpen?
  }

  /** The hub reader's answer to a request. */
  function HubReply(env: Envelope, at: Instants): Envelope
    requires IsRequest(env)
  {
    if env.payload.Ping? then PongTo(env, "host", env.connectionId, at) else AcceptOf(env, at)
  }

  predicate IsReported(env: Envelope) {
    env.payload.StreamOpen? || env.payload.Event?
  }

  /** The event the hub reader reports for a message it reports. */
  function HubReport(env: Envelope, ropeId: string): HubEvent
    requires IsReported(env)
  {
    if env.payload.StreamOpen? then
      StreamOpened(ropeId, env.payload.streamId, env.payload.topic, env.payload.configPayload)
    else
      EventReceived(ropeId, env.payload.variant, env.payload.data)
  }

  /** The event reports this message, field for field. */
  predicate Reports(e: HubEvent, env: Envelope, ropeId: string) {
    match env.payload
    case StreamOpen(id, topic, config) => e == StreamOpened(ropeId, id, topic, config)
    case Event(variant, data) => e == EventReceived(ropeId, variant, data)
    case _ => false
  }

  lemma HubReportReports(e: HubEvent, env: Envelope, ropeId: string)
    ensures Reports(e, env, ropeId) <==> IsReported(env) && e == HubReport(env, ropeId)
  {
  }
}
