/** The handshake: the hub's checks on the first frame, and the client that sends it (src/lib.rs). */
module Admission {
  import opened BigEndian
  import opened Messages
  import opened Sequences
  import Identifiers

  const PROTOCOL_VERSION: u32 := 1

  datatype JoinPolicy =
    | ApproveAll
    | TokenRequired(secret: string)
    | Custom(validator: (string, string, seq<Capability>) -> Option<ErrorCode>)

  /** How one hub is configured, and the node id its transport has authenticated for the peer. */
  datatype HubConfig = HubConfig(
    remoteNodeId: string,
    policy: JoinPolicy,
    capValidator: Option<seq<Capability> -> bool>,
    metadata: string)

  /** `Debug` of an error code, for the details of a custom rejection. */
  function CodeName(code: ErrorCode): string {
    match code
    case InvalidToken => "InvalidToken"
    case DuplicateRopeId => "DuplicateRopeId"
    case UnsupportedCapability => "UnsupportedCapability"
    case UnauthorizedCommand => "UnauthorizedCommand"
    case StreamRejected => "StreamRejected"
    case ProtocolVersionMismatch => "ProtocolVersionMismatch"
  }

  /** Which of the hub's checks failed, with what it names in its answer. */
  datatype Rejection =
    | NodeMismatch(announced: string, authenticated: string)
    | VersionMismatch(version: u32)
    | WrongToken
    | RefusedByPolicy(code: ErrorCode)
    | RefusedCapabilities
  {
    function MsgId(): string {
      match this
      case NodeMismatch(_, _) => "reject-node"
      case VersionMismatch(_) => "reject-ver"
      case WrongToken => "reject-tok"
      case RefusedByPolicy(_) => "reject-custom"
      case RefusedCapabilities => "reject-caps"
    }

    function Reason(): ErrorCode {
      match this
      case NodeMismatch(_, _) => InvalidToken
      case VersionMismatch(_) => ProtocolVersionMismatch
      case WrongToken => InvalidToken
      case RefusedByPolicy(code) => code
      case RefusedCapabilities => UnsupportedCapability
    }

    function Details(): string {
      match this
      case NodeMismatch(announced, authenticated) =>
        "Announced node_id " + announced + " does not match authenticated node_id " + authenticated
      case VersionMismatch(version) =>
        "Unsupported version: " + Identifiers.Decimal(version) + ". Only version 1 is supported."
      case WrongToken => "Invalid join token supplied"
      case RefusedByPolicy(InvalidToken) => "Invalid join token validation failed"
      case RefusedByPolicy(UnsupportedCapability) => "Capabilities failed validation check"
      case RefusedByPolicy(code) => "Admission validation failed: " + CodeName(code)
      case RefusedCapabilities => "Capabilities failed validation check"
    }
  }

  function RejectEnvelope(r: Rejection, now: u64): Envelope {
    Envelope(r.MsgId(), now, "host", "pending", false, Reject(r.Reason(), r.Details()))
  }

  function PolicyVerdict(config: HubConfig, token: string, capabilities: seq<Capability>): Option<Rejection> {
    match config.policy
    case ApproveAll => None
    case TokenRequired(secret) => if token != secret then Some(WrongToken) else None
    case Custom(validator) =>
      var verdict := validator(config.remoteNodeId, token, capabilities);
      if verdict.Some? then Some(RefusedByPolicy(verdict.value)) else None
  }

  function CapabilityVerdict(config: HubConfig, capabilities: seq<Capability>): Option<Rejection> {
    if config.capValidator.Some? && !config.capValidator.value(capabilities) then Some(RefusedCapabilities) else None
  }

  /** The first of the four checks that fails, in the hub's order: node id, version, policy, capabilities. */
  function Verdict(config: HubConfig, tie: ControlMessage): Option<Rejection>
    requires tie.Tie?
  {
    if tie.nodeId != config.remoteNodeId then Some(NodeMismatch(tie.nodeId, config.remoteNodeId))
    else if tie.protocolVersion != PROTOCOL_VERSION then Some(VersionMismatch(tie.protocolVersion))
    else
      var policy := PolicyVerdict(config, tie.joinToken, tie.capabilities);
      if policy.Some? then policy else CapabilityVerdict(config, tie.capabilities)
  }

  function WelcomeEnvelope(msgId: string, now: u64, connectionId: string, ropeId: string, metadata: string): Envelope {
    Envelope(msgId, now, "host", connectionId, false, Welcome(connectionId, ropeId, metadata))
  }

  /** What a client asks for when it ties the knot. */
  datatype Request = Request(knotId: string, ropeId: string, token: string, capabilities: seq<Capability>)

  function TieEnvelope(request: Request, localNodeId: string, now: u64): Envelope {
    Envelope("join-req", now, request.ropeId, "pending", false,
             Tie(PROTOCOL_VERSION, request.knotId, request.ropeId, localNodeId, request.token, request.capabilities))
  }

  // ---- what the hub owes a Tie ----

  /** The join policy lets the peer in. */
  predicate PolicyAdmits(config: HubConfig, token: string, capabilities: seq<Capability>) {
    match config.policy
    case ApproveAll => true
    case TokenRequired(secret) => token == secret
    case Custom(validator) => validator(config.remoteNodeId, token, capabilities).None?
  }

  /** All four conditions of admission. */
  predicate MayJoin(config: HubConfig, nodeId: string, version: u32, token: string, capabilities: seq<Capability>) {
    && nodeId == config.remoteNodeId
    && version == 1
    && PolicyAdmits(config, token, capabilities)
    && (config.capValidator.Some? ==> config.capValidator.value(capabilities))
  }

  predicate IsReject(reply: Envelope, msgId: string, reason: ErrorCode, details: string) {
    && reply.msgId == msgId && reply.sourceRopeId == "host" && reply.connectionId == "pending" && !reply.requiresAck
    && reply.payload == Reject(reason, details)
  }

  /** What the hub's application may be told of a custom refusal. */
  predicate SaysWhy(details: string, code: ErrorCode) {
    match code
    case InvalidToken => details == "Invalid join token validation failed"
    case UnsupportedCapability => details == "Capabilities failed validation check"
    case DuplicateRopeId => details == "Admission validation failed: " + "DuplicateRopeId"
    case UnauthorizedCommand => details == "Admission validation failed: " + "UnauthorizedCommand"
    case StreamRejected => details == "Admission validation failed: " + "StreamRejected"
    case ProtocolVersionMismatch => details == "Admission validation failed: " + "ProtocolVersionMismatch"
  }

  predicate RefusesPolicy(config: HubConfig, token: string, capabilities: seq<Capability>, reply: Envelope) {
    match config.policy
    case ApproveAll => false
    case TokenRequired(_) => IsReject(reply, "reject-tok", InvalidToken, "Invalid join token supplied")
    case Custom(validator) =>
      var code := validator(config.remoteNodeId, token, capabilities);
      && code.Some? && reply.payload.Reject? && SaysWhy(reply.payload.details, code.value)
      && IsReject(reply, "reject-custom", code.value, reply.payload.details)
  }

  /** The reply names the first condition that fails. */
  predicate RefusesFor(config: HubConfig, nodeId: string, version: u32, token: string, capabilities: seq<Capability>,
                       reply: Envelope) {
    if nodeId != config.remoteNodeId then
      IsReject(reply, "reject-node", InvalidToken,
               "Announced node_id " + nodeId + " does not match authenticated node_id " + config.remoteNodeId)
    else if version != 1 then
      IsReject(reply, "reject-ver", ProtocolVersionMismatch,
               "Unsupported version: " + Identifiers.Decimal(version) + ". Only version 1 is supported.")
    else if !PolicyAdmits(config, token, capabilities) then RefusesPolicy(config, token, capabilities, reply)
    else IsReject(reply, "reject-caps", UnsupportedCapability, "Capabilities failed validation check")
  }

  /** The hub's verdict is that of the four conditions, and its rejection names the first that fails. */
  lemma VerdictIsOwed(config: HubConfig, tie: ControlMessage, now: u64)
    requires tie.Tie?
    ensures Verdict(config, tie).None? <==>
              MayJoin(config, tie.nodeId, tie.protocolVersion, tie.joinToken, tie.capabilities)
    ensures Verdict(config, tie).Some? ==>
              RefusesFor(config, tie.nodeId, tie.protocolVersion, tie.joinToken, tie.capabilities,
                         RejectEnvelope(Verdict(config, tie).value, now))
  {
    if tie.nodeId == config.remoteNodeId && tie.protocolVersion == 1 {
      PolicyIsOwed(config, tie.joinToken, tie.capabilities, now);
    } else {
      RejectIs(Verdict(config, tie).value, now);
    }
  }

  lemma RejectIs(r: Rejection, now: u64)
    ensures IsReject(RejectEnvelope(r, now), r.MsgId(), r.Reason(), r.Details())
  {
  }

  lemma PolicyIsOwed(config: HubConfig, token: string, capabilities: seq<Capability>, now: u64)
    ensures PolicyVerdict(config, token, capabilities).None? <==> PolicyAdmits(config, token, capabilities)
    ensures var verdict := PolicyVerdict(config, token, capabilities);
            verdict.Some? ==>
              && RefusesPolicy(config, token, capabilities, RejectEnvelope(verdict.value, now))
              && (verdict.value.WrongToken? || verdict.value.RefusedByPolicy?)
  {
    if config.policy.Custom? {
      var code := config.policy.validator(config.remoteNodeId, token, capabilities);
      if code.Some? {
        CustomIs(code.value, now);
      }
    }
  }

  lemma CustomIs(code: ErrorCode, now: u64)
    ensures var reply := RejectEnvelope(RefusedByPolicy(code), now);
            SaysWhy(reply.payload.details, code) && IsReject(reply, "reject-custom", code, reply.payload.details)
  {
  }

  /** A client built by this code is judged by the policy and the capability validator alone. */
  lemma ClientPassesOwnChecks(config: HubConfig, request: Request, now: u64)
    ensures var tie := TieEnvelope(request, config.remoteNodeId, now).payload;
            && (Verdict(config, tie).None? <==>
                  && PolicyAdmits(config, request.token, request.capabilities)
                  && (config.capValidator.Some? ==> config.capValidator.value(request.capabilities)))
            && (Verdict(config, tie).Some? ==>
                  var r := Verdict(config, tie).value;
                  r.WrongToken? || r.RefusedByPolicy? || r.RefusedCapabilities?)
  {
    VerdictIsOwed(config, TieEnvelope(request, config.remoteNodeId, now).payload, now);
  }

  datatype HandshakeEnd =
    | Admitted(connectionId: string, ropeId: string, knotId: string, capabilities: seq<Capability>)
    | Refused(reason: ErrorCode)
    | Abandoned

  /** The hub side of one handshake, sending on its half of the control stream. */
  class HubHandshake {
    var sent: seq<Envelope>
    var closed: bool

    constructor ()
      ensures sent == [] && !closed
    {
      sent, closed := [], false;
    }

    method Refuse(r: Rejection, now: u64)
      modifies this
      ensures sent == old(sent) + [RejectEnvelope(r, now)] && closed
    {
      sent := sent + [RejectEnvelope(r, now)];
      closed := true;
    }

    /** From the first delivery (None when the stream ended first) to the one reply, if any; the clock is read twice. */
    method Run(first: Option<Delivery>, config: HubConfig, connections: Identifiers.AtomicCounter,
               messages: Identifiers.AtomicCounter, issued: u64, now: u64)
      returns (end: HandshakeEnd)
      requires sent == [] && connections != messages
      modifies this, connections, messages
      ensures end.Abandoned? <==> !(first.Some? && first.value.Parsed? && first.value.env.payload.Tie?)
      ensures end.Abandoned? ==> sent == []
      ensures !end.Abandoned? ==>
                var tie := first.value.env.payload;
                && |sent| == 1 && sent[0].timestamp == now
                && (end.Admitted? <==>
                      MayJoin(config, tie.nodeId, tie.protocolVersion, tie.joinToken, tie.capabilities))
                && (end.Refused? ==>
                      && closed && sent[0].payload.Reject? && end.reason == sent[0].payload.reason
                      && RefusesFor(config, tie.nodeId, tie.protocolVersion, tie.joinToken, tie.capabilities, sent[0]))
                && (end.Admitted? ==>
                      && end.connectionId == Identifiers.ConnectionId(old(connections.value))
                      && Identifiers.Joins(end.ropeId, tie.knotId, tie.ropeId)
                      && end.knotId == tie.knotId && end.capabilities == tie.capabilities
                      && sent[0] == Envelope(Identifiers.MsgId(issued, old(messages.value)), now, "host",
                          end.connectionId,
                                             false, Welcome(end.connectionId, end.ropeId, config.metadata)))
      ensures !end.Admitted? ==> unchanged(connections) && unchanged(messages)
      ensures end.Admitted? ==> connections.value == (old(connections.value) + 1) % U64_LIMIT
    {
      if first.None? || !first.value.Parsed? {
        return Abandoned;
      }
      var tie := first.value.env.payload;
      if !tie.Tie? {
        return Abandoned;
      }
      VerdictIsOwed(config, tie, now);
      if tie.nodeId != config.remoteNodeId {
        Refuse(NodeMismatch(tie.nodeId, config.remoteNodeId), now);
        return Refused(InvalidToken);
      }
      if tie.protocolVersion != 1 {
        Refuse(VersionMismatch(tie.protocolVersion), now);
        return Refused(ProtocolVersionMismatch);
      }
      match config.policy {
        case TokenRequired(secret) =>
          if tie.joinToken != secret {
            Refuse(WrongToken, now);
            return Refused(InvalidToken);
          }
        case ApproveAll =>
        case Custom(validator) =>
          var verdict := validator(config.remoteNodeId, tie.joinToken, tie.capabilities);
          if verdict.Some? {
            Refuse(RefusedByPolicy(verdict.value), now);
            return Refused(verdict.value);
          }
      }
      if config.capValidator.Some? {
        if !config.capValidator.value(tie.capabilities) {
          Refuse(RefusedCapabilities, now);
          return Refused(UnsupportedCapability);
        }
      }
      var connectionId := connections.AllotConnectionId();
      var ropeId := Identifiers.AssignedRopeId(tie.knotId, tie.ropeId);
      Identifiers.AssignedRopeIdJoins(tie.knotId, tie.ropeId, ropeId);
      var msgId := messages.GenerateMsgId(issued);
      sent := sent + [WelcomeEnvelope(msgId, now, connectionId, ropeId, config.metadata)];
      return Admitted(connectionId, ropeId, tie.knotId, tie.capabilities);
    }
  }
}
