/**
 * One connection as a transition system: the client tasks of `tie_the_knot` and `create_stream`, the hub
 * tasks of `handle_connection` and `handle_stream`, the two control queues, the FIFO wire in each direction
 * and the data streams. Every label is one atomic action of one task; any order of labels is a run.
 */
module Session {
  import opened BigEndian
  import opened Messages
  import opened Sequences
  import opened Admission
  import Identifiers
  import SanitizedName
  import Transport

  datatype Wire = Wire(frames: seq<Delivery>, open: bool)

  // ---- client ----

  /** The one-shot channel of a `create_stream` call: its sender sits in the pending map while Empty. */
  datatype Slot = Empty | Fulfilled | Dropped

  /** Where a `create_stream` call stands. Sending: the pending entry is in place, the request is not queued yet. */
  datatype CallPc =
    | Sending | Awaiting | Opening | Configuring(stream: nat) | Streaming(stream: nat) | Failed

  datatype Call = Call(streamId: string, topic: string, config: string, pc: CallPc, slot: Slot)

  datatype ClientPhase =
    | Idle
    | AwaitingReply
    | Tied(connectionId: string, ropeId: string, metadata: string)
    | NotTied

  datatype Client = Client(
    phase: ClientPhase,
    queue: seq<Envelope>,          // control_tx
    writing: bool,                 // the writer task is alive
    reading: bool,                 // the reader task is alive
    pending: map<string, nat>,     // pending_streams: stream id to call
    calls: seq<Call>,
    events: seq<Envelope>)         // event_tx

  // ---- hub ----

  datatype MainPc =
    | AwaitingTie
    | Welcoming(knotId: string, capabilities: seq<Capability>)
    | Announcing(knotId: string, capabilities: seq<Capability>)
    | MakingDirectory
    | Accepting
    | MainLeaving                  // the accept loop has ended, the flag is not swapped yet
    | MainReporting                // swapped first, RopeDisconnected not sent yet
    | Finished(directory: bool)

  datatype ReaderPc =
    | NotSpawned
    | Polling
    | Replying(reply: Envelope)    // the event is reported, the reply is not queued yet
    | ReaderLeaving
    | ReaderReporting
    | Stopped

  datatype Allotment = Allotment(connectionId: string, ropeId: string)

  datatype Winner = NoWinner | ReaderWon | MainWon

  datatype Hub = Hub(
    main: MainPc,
    reader: ReaderPc,
    allotted: Option<Allotment>,
    queue: seq<Envelope>,          // control_sender
    writing: bool,
    disconnected: bool,            // the shared flag
    winner: Winner,                // history: who swapped it first
    log: seq<HubEvent>,            // event_tx, this connection's events
    backlog: seq<nat>,             // uni streams opened and not accepted yet
    read: seq<Delivery>,           // history: everything the reader took from the wire
    enqueued: seq<Envelope>,       // history: everything ever put in `queue`
    byReader: seq<bool>,           // history: whether the reader put it there
    sent: seq<Delivery>)           // history: everything ever put on the wire to the client

  // ---- data streams ----

  datatype Item = Config(streamId: string, topic: string) | Data(frame: Recorded)

  datatype TaskPc =
    | Unaccepted
    | AwaitingConfig
    | Reading(streamId: string, file: string)
    | Emitting(streamId: string, file: string, frame: Recorded)  // committed, FrameReceived not sent yet
    | Ended

  datatype Uni = Uni(
    owner: nat,                    // the call that opened it
    items: seq<Item>,              // in transit
    open: bool,                    // the client can still write
    closed: bool,                  // the client has finished it, and nothing of it was cut off
    task: TaskPc,
    written: seq<Recorded>,        // history: what the client wrote
    committed: seq<Recorded>,      // history: what the task stored
    emitted: seq<Recorded>)        // history: what the task reported

  datatype State = State(client: Client, hub: Hub, toHub: Wire, toClient: Wire, unis: seq<Uni>)

  /** What stays fixed over a run; `alnum` is `char::is_alphanumeric`. */
  datatype Setup = Setup(request: Request, config: HubConfig, alnum: char -> bool)

  const Initial: State := State(
    Client(Idle, [], true, false, map[], [], []),
    Hub(AwaitingTie, NotSpawned, None, [], true, false, NoWinner, [], [], [], [], [], []),
    Wire([], true),
    Wire([], true),
    [])

  /** What the two applications may ask for at any time. */
  datatype Input =
    | TieTheKnot(now: u64)
    | StartCall(streamId: string, topic: string, config: string)
    | ClientSend(env: Envelope)
    | WriteFrame(call: nat, frame: Recorded)
    | CloseStream(call: nat)
    | HubSend(env: Envelope)

  /** The client's own tasks on the control stream. */
  datatype ClientStep =
    | ReadReply
    | ReplyMissing
    | SendOpen(call: nat, msgId: string, now: u64)
    | Resume(call: nat)
    | ClientForward
    | ClientRead(at: Instants)
    | ClientReadEnds

  /** The hub's own tasks on the control stream. */
  datatype HubStep =
    | HandleTie(count: nat, now: u64)
    | TieMissing
    | SendWelcome(msgId: string, now: u64)
    | Announce
    | MakeDirectory
    | HubForward
    | HubRead(at: Instants)
    | HubReadEnds
    | QueueReply
    | ReaderSwap
    | ReaderReport
    | MainSwap
    | MainReport

  /** Both sides' steps on the data streams. */
  datatype StreamStep =
    | OpenUni(call: nat)
    | SendConfig(call: nat)
    | AcceptUni
    | TakeConfig(stream: nat)
    | CommitFrame(stream: nat)
    | EmitFrame(stream: nat)
    | TaskEnds(stream: nat)

  datatype Fault =
    | CutToHub(keep: nat)
    | CutToClient(keep: nat)
    | GarbleToHub(position: nat, unreadable: bool)
    | GarbleToClient(position: nat, unreadable: bool)
    | ClientWriterStops
    | HubWriterStops
    | CallFails(call: nat)
    | WelcomeFails
    | DirectoryFails
    | AcceptFails
    | StreamCut(stream: nat, keep: nat)
    | TaskFails(stream: nat)

  datatype Label =
    | App(input: Input)
    | AtClient(client: ClientStep)
    | AtHub(hub: HubStep)
    | OnStream(stream: StreamStep)
    | Wrong(fault: Fault)

  /** Taken by the library's own tasks, neither asked for nor a fault. */
  predicate IsInternal(l: Label) {
    l.AtClient? || l.AtHub? || l.OnStream?
  }

  /** The hub application answers a stream request itself, behind the reader's back. */
  predicate Injects(l: Label) {
    l.App? && l.input.HubSend? && l.input.env.payload.StreamAccepted?
  }

  predicate CallAt(c: Client, i: nat, pc: CallPc) {
    i < |c.calls| && c.calls[i].pc == pc
  }

  /** The call has its stream, and the stream takes frames. */
  predicate Writes(s: State, i: nat) {
    var c := s.client;
    i < |c.calls| && c.calls[i].pc.Streaming? && c.calls[i].pc.stream < |s.unis| && s.unis[c.calls[i].pc.stream].open
  }

  predicate InputEnabled(s: State, l: Input) {
    var c := s.client;
    match l
    case TieTheKnot(_) => c.phase.Idle?
    case StartCall(_, _, _) => c.phase.Tied?
    case ClientSend(_) => c.phase.Tied?
    case WriteFrame(i, _) => Writes(s, i)
    case CloseStream(i) => Writes(s, i)
    case HubSend(_) => s.hub.log != []
  }

  predicate ClientEnabled(s: State, l: ClientStep) {
    var c := s.client;
    match l
    case ReadReply => c.phase.AwaitingReply? && s.toClient.frames != []
    case ReplyMissing => c.phase.AwaitingReply? && s.toClient.frames == [] && !s.toClient.open
    case SendOpen(i, _, _) => CallAt(c, i, Sending)
    case Resume(i) => CallAt(c, i, Awaiting) && !c.calls[i].slot.Empty?
    case ClientForward => c.phase.Tied? && c.writing && c.queue != []
    case ClientRead(_) => c.reading && s.toClient.frames != []
    case ClientReadEnds => c.reading && s.toClient.frames == [] && !s.toClient.open
  }

  predicate HubEnabled(s: State, l: HubStep) {
    var h := s.hub;
    match l
    case HandleTie(_, _) => h.main.AwaitingTie? && s.toHub.frames != []
    case TieMissing => h.main.AwaitingTie? && s.toHub.frames == [] && !s.toHub.open
    case SendWelcome(_, _) => h.main.Welcoming? && h.allotted.Some? && s.toClient.open
    case Announce => h.main.Announcing? && h.allotted.Some?
    case MakeDirectory => h.main.MakingDirectory?
    case HubForward => h.writing && h.queue != []
    case HubRead(_) => h.reader.Polling? && h.allotted.Some? && s.toHub.frames != []
    case HubReadEnds => h.reader.Polling? && s.toHub.frames == [] && !s.toHub.open
    case QueueReply => h.reader.Replying?
    case ReaderSwap => h.reader.ReaderLeaving?
    case ReaderReport => h.reader.ReaderReporting? && h.allotted.Some?
    case MainSwap => h.main.MainLeaving?
    case MainReport => h.main.MainReporting? && h.allotted.Some?
  }

  predicate StreamEnabled(s: State, l: StreamStep) {
    var c, h := s.client, s.hub;
    match l
    case OpenUni(i) => CallAt(c, i, Opening) && |h.backlog| < Transport.CAPACITY
    case SendConfig(i) =>
      i < |c.calls| && c.calls[i].pc.Configuring? && c.calls[i].pc.stream < |s.unis|
          && s.unis[c.calls[i].pc.stream].open
    case AcceptUni => h.main.Accepting? && h.backlog != [] && h.backlog[0] < |s.unis|
    case TakeConfig(u) => u < |s.unis| && s.unis[u].task.AwaitingConfig? && s.unis[u].items != []
    case CommitFrame(u) => u < |s.unis| && s.unis[u].task.Reading? && s.unis[u].items != []
    case EmitFrame(u) => u < |s.unis| && s.unis[u].task.Emitting? && h.allotted.Some?
    case TaskEnds(u) =>
      u < |s.unis| && (s.unis[u].task.AwaitingConfig? || s.unis[u].task.Reading?) && s.unis[u].items == []
          && !s.unis[u].open
  }

  predicate FaultEnabled(s: State, l: Fault) {
    match l
    case CutToHub(keep) => keep <= |s.toHub.frames|
    case CutToClient(keep) => keep <= |s.toClient.frames|
    case GarbleToHub(k, _) => k < |s.toHub.frames|
    case GarbleToClient(k, _) => k < |s.toClient.frames|
    case ClientWriterStops => true
    case HubWriterStops => true
    case CallFails(i) => i < |s.client.calls| && (s.client.calls[i].pc.Opening? || s.client.calls[i].pc.Configuring?)
    case WelcomeFails => s.hub.main.Welcoming?
    case DirectoryFails => s.hub.main.MakingDirectory?
    case AcceptFails => s.hub.main.Accepting?
    case StreamCut(u, keep) => u < |s.unis| && keep <= |s.unis[u].items|
    case TaskFails(u) => u < |s.unis| && (s.unis[u].task.AwaitingConfig? || s.unis[u].task.Reading?)
  }

  predicate Enabled(s: State, l: Label) {
    match l
    case App(i) => InputEnabled(s, i)
    case AtClient(i) => ClientEnabled(s, i)
    case AtHub(i) => HubEnabled(s, i)
    case OnStream(i) => StreamEnabled(s, i)
    case Wrong(i) => FaultEnabled(s, i)
  }

  // ---- effects ----

  /** A send on an unbounded channel: lost when its receiving task has gone. */
  function Push(queue: seq<Envelope>, alive: bool, env: Envelope): seq<Envelope> {
    if alive then queue + [env] else queue
  }

  function SetCall(c: Client, i: nat, pc: CallPc): Client
    requires i < |c.calls|
  {
    c.(calls := c.calls[i := c.calls[i].(pc := pc)])
  }

  function SetSlot(calls: seq<Call>, i: nat, slot: Slot): seq<Call> {
    if i < |calls| then calls[i := calls[i].(slot := slot)] else calls
  }

  /** `pending_streams.insert`: an entry already there loses its sender. */
  function Register(c: Client, streamId: string, topic: string, config: string): Client {
    var calls := if streamId in c.pending then SetSlot(c.calls, c.pending[streamId], Dropped) else c.calls;
    c.(calls := calls + [Call(streamId, topic, config, Sending, Empty)], pending := c.pending[streamId := |calls|])
  }

  function OpenEnvelope(c: Client, call: Call, msgId: string, now: u64): Envelope
    requires c.phase.Tied?
  {
    Envelope(msgId, now, c.phase.ropeId, c.phase.connectionId, true, StreamOpen(call.streamId, call.topic, call.config))
  }

  /** One turn of the client's reader loop. */
  function ClientReads(c: Client, d: Delivery, at: Instants): Client {
    match d
    case ReadError => c.(reading := false)
    case Malformed => c.(reading := false)
    case Parsed(env) =>
      match env.payload
      case StreamAccepted(id) =>
        (if id in c.pending
         then c.(calls := SetSlot(c.calls, c.pending[id], Fulfilled), pending := c.pending - {id})
         else c).(events := c.events + [env])
      case Ping(_) =>
        if c.phase.Tied?
        then c.(queue := Push(c.queue, c.writing, PongTo(env, c.phase.ropeId, c.phase.connectionId, at)))
        else c
      case Pong(_, _) => c
      case _ => c.(events := c.events + [env])
  }

  /** One turn of the hub's reader loop, up to the reply it still has to queue. */
  function HubReads(h: Hub, ropeId: string, d: Delivery, at: Instants): Hub {
    match d
    case ReadError => h.(reader := ReaderLeaving)
    case Malformed => h
    case Parsed(env) =>
      h.(log := if IsReported(env) then h.log + [HubReport(env, ropeId)] else h.log,
         reader := if IsRequest(env) then Replying(HubReply(env, at)) else h.reader)
  }

  function Enqueue(h: Hub, env: Envelope, byReader: bool): Hub {
    if h.writing
    then h.(queue := h.queue + [env], enqueued := h.enqueued + [env], byReader := h.byReader + [byReader])
    else h
  }

  function PutOnWire(s: State, h: Hub, env: Envelope): State {
    if s.toClient.open
    then s.(hub := h.(sent := h.sent + [Parsed(env)]),
        toClient := s.toClient.(frames := s.toClient.frames + [Parsed(env)]))
    else s.(hub := h)
  }

  function HandleFirst(s: State, setup: Setup, d: Delivery, count: nat, now: u64): State {
    var rest := s.(toHub := s.toHub.(frames := if s.toHub.frames == [] then [] else s.toHub.frames[1..]));
    if !d.Parsed? || !d.env.payload.Tie? then rest.(hub := s.hub.(main := Finished(false)))
    else
      var tie := d.env.payload;
      var verdict := Verdict(setup.config, tie);
      if verdict.Some? then PutOnWire(rest, s.hub.(main := Finished(false)), RejectEnvelope(verdict.value, now))
      else
        rest.(hub := s.hub.(
          main := Welcoming(tie.knotId, tie.capabilities),
          allotted := Some(Allotment(Identifiers.ConnectionId(count),
              Identifiers.AssignedRopeId(tie.knotId, tie.ropeId)))))
  }

  function ReceiveReply(s: State): State
    requires s.toClient.frames != []
  {
    var d := s.toClient.frames[0];
    var phase := if d.Parsed? && d.env.payload.Welcome?
                 then Tied(d.env.payload.connectionId, d.env.payload.assignedRopeId, d.env.payload.sessionMetadata)
                 else NotTied;
    s.(client := s.client.(phase := phase, reading := phase.Tied?),
       toClient := s.toClient.(frames := s.toClient.frames[1..]))
  }

  function Swap(h: Hub, who: Winner): Hub {
    h.(disconnected := true, winner := if h.disconnected then h.winner else who)
  }

  /** The recording file of a topic: `sanitized_name` with an extension. */
  function FileOf(setup: Setup, topic: string): string {
    SanitizedName.Name(setup.alnum, topic) + ".redb"
  }

  predicate Live(task: TaskPc) {
    task.Reading? || task.Emitting?
  }

  /** Some stream task has the file open. */
  predicate InUse(unis: seq<Uni>, file: string) {
    exists u :: 0 <= u < |unis| && Live(unis[u].task) && unis[u].task.file == file
  }

  /** The task fails: its end of the stream is dropped, and with it what was in transit. */
  function Refused(u: Uni): Uni {
    u.(task := Ended, items := [], open := false, closed := false)
  }

  /** `handle_stream` takes its first frame as the configuration and opens its file, which can be open once only. */
  function Configured(setup: Setup, unis: seq<Uni>, u: Uni): Uni
    requires u.items != []
  {
    if !u.items[0].Config? then Refused(u)
    else
      var file := FileOf(setup, u.items[0].topic);
      if InUse(unis, file) then Refused(u) else u.(items := u.items[1..], task := Reading(u.items[0].streamId, file))
  }

  /** A configuration in the middle of a stream is no frame header: the task fails. */
  function Committed(u: Uni): Uni
    requires u.items != [] && u.task.Reading?
  {
    if u.items[0].Data?
    then u.(items := u.items[1..],
            task := Emitting(u.task.streamId, u.task.file, u.items[0].frame),
            committed := u.committed + [u.items[0].frame])
    else Refused(u)
  }

  function NextInput(setup: Setup, s: State, l: Input): State
    requires InputEnabled(s, l)
  {
    var c, h := s.client, s.hub;
    match l
    case TieTheKnot(now) =>
      if s.toHub.open
      then s.(client := c.(phase := AwaitingReply),
              toHub := s.toHub.(
                frames := s.toHub.frames + [Parsed(TieEnvelope(setup.request, setup.config.remoteNodeId, now))]))
      else s.(client := c.(phase := NotTied))
    case StartCall(id, topic, config) => s.(client := Register(c, id, topic, config))
    case ClientSend(env) => s.(client := c.(queue := Push(c.queue, c.writing, env)))
    case WriteFrame(i, frame) =>
      var u := c.calls[i].pc.stream;
      s.(unis := s.unis[u := s.unis[u].(
        items := s.unis[u].items + [Data(frame)], written := s.unis[u].written + [frame])])
    case CloseStream(i) =>
      var u := c.calls[i].pc.stream;
      s.(unis := s.unis[u := s.unis[u].(open := false, closed := true)])
    case HubSend(env) => s.(hub := Enqueue(h, env, false))
  }

  function NextClient(s: State, l: ClientStep): State
    requires ClientEnabled(s, l)
  {
    var c, h := s.client, s.hub;
    match l
    case ReadReply => ReceiveReply(s)
    case ReplyMissing => s.(client := c.(phase := NotTied))
    case SendOpen(i, msgId, now) =>
      if c.phase.Tied? && c.writing
      then s.(client := SetCall(c, i, Awaiting).(queue := c.queue + [OpenEnvelope(c, c.calls[i], msgId, now)]))
      else s.(client := SetCall(c, i, Failed))
    case Resume(i) => s.(client := SetCall(c, i, if c.calls[i].slot.Fulfilled? then Opening else Failed))
    case ClientForward =>
      if s.toHub.open
      then s.(client := c.(queue := c.queue[1..]), toHub := s.toHub.(frames := s.toHub.frames + [Parsed(c.queue[0])]))
      else s.(client := c.(queue := c.queue[1..], writing := false))
    case ClientRead(at) =>
      s.(client := ClientReads(c, s.toClient.frames[0], at), toClient := s.toClient.(frames := s.toClient.frames[1..]))
    case ClientReadEnds => s.(client := c.(reading := false))
  }

  function NextHub(setup: Setup, s: State, l: HubStep): State
    requires HubEnabled(s, l)
  {
    var c, h := s.client, s.hub;
    match l
    case HandleTie(count, now) => HandleFirst(s, setup, s.toHub.frames[0], count, now)
    case TieMissing => s.(hub := h.(main := Finished(false)))
    case SendWelcome(msgId, now) =>
      PutOnWire(s, h.(main := Announcing(h.main.knotId, h.main.capabilities)),
                WelcomeEnvelope(msgId, now, h.allotted.value.connectionId, h.allotted.value.ropeId,
                    setup.config.metadata))
    case Announce =>
      s.(hub := h.(main := MakingDirectory,
                   log := h.log + [RopeConnected(h.allotted.value.ropeId, h.main.knotId, setup.config.remoteNodeId,
                       h.main.capabilities)]))
    case MakeDirectory => s.(hub := h.(main := Accepting, reader := Polling))
    case HubForward =>
      if s.toClient.open
      then PutOnWire(s, h.(queue := h.queue[1..]), h.queue[0])
      else s.(hub := h.(queue := h.queue[1..], writing := false))
    case HubRead(at) =>
      s.(hub := HubReads(h, h.allotted.value.ropeId, s.toHub.frames[0], at).(read := h.read + [s.toHub.frames[0]]),
         toHub := s.toHub.(frames := s.toHub.frames[1..]))
    case HubReadEnds => s.(hub := h.(reader := ReaderLeaving))
    case QueueReply => s.(hub := Enqueue(h, h.reader.reply, true).(reader := Polling))
    case ReaderSwap => s.(hub := Swap(h, ReaderWon).(reader := if h.disconnected then Stopped else ReaderReporting))
    case ReaderReport => s.(hub := h.(reader := Stopped, log := h.log + [RopeDisconnected(h.allotted.value.ropeId)]))
    case MainSwap => s.(hub := Swap(h, MainWon).(main := if h.disconnected then Finished(true) else MainReporting))
    case MainReport => s.(hub := h.(main := Finished(true), log := h.log + [RopeDisconnected(h.allotted.value.ropeId)]))
  }

  function NextStream(setup: Setup, s: State, l: StreamStep): State
    requires StreamEnabled(s, l)
  {
    var c, h := s.client, s.hub;
    match l
    case OpenUni(i) =>
      s.(client := SetCall(c, i, Configuring(|s.unis|)),
         hub := h.(backlog := h.backlog + [|s.unis|]),
         unis := s.unis + [Uni(i, [], true, false, Unaccepted, [], [], [])])
    case SendConfig(i) =>
      var u := c.calls[i].pc.stream;
      s.(client := SetCall(c, i, Streaming(u)),
         unis := s.unis[u := s.unis[u].(items := s.unis[u].items + [Config(c.calls[i].streamId, c.calls[i].topic)])])
    case AcceptUni =>
      var u := h.backlog[0];
      s.(hub := h.(backlog := h.backlog[1..]),
         unis := s.unis[u := s.unis[u].(task := if s.unis[u].task.Unaccepted? then AwaitingConfig else s.unis[u].task)])
    case TakeConfig(u) => s.(unis := s.unis[u := Configured(setup, s.unis, s.unis[u])])
    case CommitFrame(u) => s.(unis := s.unis[u := Committed(s.unis[u])])
    case EmitFrame(u) =>
      var t := s.unis[u].task;
      s.(unis := s.unis[u := s.unis[u].(task := Reading(t.streamId, t.file), emitted := s.unis[u].emitted + [t.frame])],
         hub := h.(log := h.log + [FrameReceived(h.allotted.value.ropeId, t.streamId, t.frame)]))
    case TaskEnds(u) => s.(unis := s.unis[u := s.unis[u].(task := Ended)])
  }

  function NextFault(s: State, l: Fault): State
    requires FaultEnabled(s, l)
  {
    var c, h := s.client, s.hub;
    match l
    case CutToHub(keep) => s.(toHub := Wire(s.toHub.frames[..keep], false))
    case CutToClient(keep) => s.(toClient := Wire(s.toClient.frames[..keep], false))
    case GarbleToHub(k, unreadable) =>
      s.(toHub := s.toHub.(frames := s.toHub.frames[k := if unreadable then ReadError else Malformed]))
    case GarbleToClient(k, unreadable) =>
      s.(toClient := s.toClient.(frames := s.toClient.frames[k := if unreadable then ReadError else Malformed]))
    case ClientWriterStops => s.(client := c.(writing := false))
    case HubWriterStops => s.(hub := h.(writing := false))
    case CallFails(i) => s.(client := SetCall(c, i, Failed))
    case WelcomeFails => s.(hub := h.(main := Finished(false)))
    case DirectoryFails => s.(hub := h.(main := Finished(false)))
    case AcceptFails => s.(hub := h.(main := MainLeaving))
    case StreamCut(u, keep) =>
      s.(unis := s.unis[u := s.unis[u].(items := s.unis[u].items[..keep], open := false, closed := false)])
    case TaskFails(u) => s.(unis := s.unis[u := Refused(s.unis[u])])
  }

  function Next(setup: Setup, s: State, l: Label): State
    requires Enabled(s, l)
  {
    match l
    case App(i) => NextInput(setup, s, i)
    case AtClient(i) => NextClient(s, i)
    case AtHub(i) => NextHub(setup, s, i)
    case OnStream(i) => NextStream(setup, s, i)
    case Wrong(i) => NextFault(s, i)
  }

  // ---- runs ----

  /** The labels `run` can be taken one after the other from `s`. */
  ghost predicate Runs(setup: Setup, s: State, run: seq<Label>) {
    run == [] || (Runs(setup, s, run[..|run| - 1]) && Enabled(After(setup, s, run[..|run| - 1]), run[|run| - 1]))
  }

  /** Where they lead; a label that is not enabled leads nowhere. */
  ghost function After(setup: Setup, s: State, run: seq<Label>): State {
    if run == [] then s
    else
      var before := After(setup, s, run[..|run| - 1]);
      if Enabled(before, run[|run| - 1]) then Next(setup, before, run[|run| - 1]) else before
  }
}
