/** Every run of the library's own steps is finite: each step lowers a weight on everything still in flight. */
module SessionQuiescence {
  import opened BigEndian
  import opened Messages
  import opened Sequences
  import opened Session
  import opened Admission

  // A request weighs enough, wherever it is, to pay for its reply; a reply pays only for its own way.

  function AtClientQueue(env: Envelope): nat {
    if IsRequest(env) then 5 else 2
  }

  function OnWireToHub(d: Delivery): nat {
    if d.Parsed? && IsRequest(d.env) then 4 else 1
  }

  function AtHubQueue(env: Envelope): nat {
    if env.payload.Ping? then 4 else 2
  }

  function OnWireToClient(d: Delivery): nat {
    if d.Parsed? && d.env.payload.Ping? then 3 else 1
  }

  function CallWeight(call: Call): nat {
    match call.pc
    case Sending => 14
    case Awaiting => 8
    case Opening => 7
    case Configuring(_) => 3
    case Streaming(_) => 0
    case Failed => 0
  }

  function TaskWeight(task: TaskPc): nat {
    match task
    case Unaccepted => 2
    case AwaitingConfig => 1
    case Reading(_, _) => 1
    case Emitting(_, _, _) => 2
    case Ended => 0
  }

  function UniWeight(u: Uni): nat {
    2 * |u.items| + TaskWeight(u.task)
  }

  function MainWeight(main: MainPc): nat {
    match main
    case AwaitingTie => 11
    case Welcoming(_, _) => 10
    case Announcing(_, _) => 8
    case MakingDirectory => 7
    case Accepting => 3
    case MainLeaving => 2
    case MainReporting => 1
    case Finished(_) => 0
  }

  function ReaderWeight(reader: ReaderPc): nat {
    match reader
    case NotSpawned => 0
    case Polling => 3
    case Replying(reply) => 4 + AtHubQueue(reply)
    case ReaderLeaving => 2
    case ReaderReporting => 1
    case Stopped => 0
  }

  function PhaseWeight(phase: ClientPhase): nat {
    if phase.AwaitingReply? then 1 else 0
  }

  ghost function ClientWeight(c: Client): nat {
    Total(c.queue, AtClientQueue) + Total(c.calls, CallWeight) + PhaseWeight(c.phase)
    + (if c.reading then 1 else 0)
  }

  ghost function HubWeight(h: Hub): nat {
    Total(h.queue, AtHubQueue) + MainWeight(h.main) + ReaderWeight(h.reader)
  }

  ghost function Weight(s: State): nat {
    ClientWeight(s.client) + HubWeight(s.hub) + |s.hub.backlog|
    + Total(s.toHub.frames, OnWireToHub) + Total(s.toClient.frames, OnWireToClient) + Total(s.unis, UniWeight)
  }

  lemma SetCallWeight(c: Client, i: nat, pc: CallPc)
    requires i < |c.calls|
    ensures Total(SetCall(c, i, pc).calls, CallWeight) + CallWeight(c.calls[i]) ==
              Total(c.calls, CallWeight) + CallWeight(c.calls[i].(pc := pc))
  {
    TotalUpdate(c.calls, i, c.calls[i].(pc := pc), CallWeight);
  }

  lemma SetSlotWeight(calls: seq<Call>, i: nat, slot: Slot)
    ensures Total(SetSlot(calls, i, slot), CallWeight) == Total(calls, CallWeight)
  {
    if i < |calls| {
      TotalUpdate(calls, i, calls[i].(slot := slot), CallWeight);
    }
  }

  lemma ClientReadsWeight(c: Client, d: Delivery, at: Instants)
    requires c.reading
    ensures ClientWeight(ClientReads(c, d, at)) < ClientWeight(c) + OnWireToClient(d)
  {
    if d.Parsed? {
      if d.env.payload.StreamAccepted? && d.env.payload.streamId in c.pending {
        SetSlotWeight(c.calls, c.pending[d.env.payload.streamId], Fulfilled);
      } else if d.env.payload.Ping? && c.phase.Tied? {
        TotalPush(c.queue, PongTo(d.env, c.phase.ropeId, c.phase.connectionId, at), AtClientQueue);
      }
    }
  }

  lemma ClientChange(s: State, c: Client)
    ensures Weight(s.(client := c)) + ClientWeight(s.client) == Weight(s) + ClientWeight(c)
  {
  }

  lemma SendOpenWeight(s: State, i: nat, msgId: string, now: u64)
    requires ClientEnabled(s, SendOpen(i, msgId, now))
    ensures ClientWeight(NextClient(s, SendOpen(i, msgId, now)).client) < ClientWeight(s.client)
  {
    var c := s.client;
    if c.phase.Tied? && c.writing {
      SetCallWeight(c, i, Awaiting);
      TotalPush(c.queue, OpenEnvelope(c, c.calls[i], msgId, now), AtClientQueue);
    } else {
      SetCallWeight(c, i, Failed);
    }
  }

  lemma ResumeWeight(s: State, i: nat)
    requires ClientEnabled(s, Resume(i))
    ensures ClientWeight(NextClient(s, Resume(i)).client) < ClientWeight(s.client)
  {
    SetCallWeight(s.client, i, if s.client.calls[i].slot.Fulfilled? then Opening else Failed);
  }

  lemma ForwardWeight(s: State)
    requires ClientEnabled(s, ClientForward)
    ensures Weight(NextClient(s, ClientForward)) < Weight(s)
  {
    var c, t := s.client, NextClient(s, ClientForward);
    TotalPop(c.queue, AtClientQueue);
    assert ClientWeight(t.client) + AtClientQueue(c.queue[0]) == ClientWeight(c);
    if s.toHub.open {
      TotalPush(s.toHub.frames, Parsed(c.queue[0]), OnWireToHub);
    }
  }

  lemma PopToClient(s: State)
    requires s.toClient.frames != []
    ensures Weight(s.(toClient := s.toClient.(frames := s.toClient.frames[1..]))) +
        OnWireToClient(s.toClient.frames[0]) == Weight(s)
  {
    TotalPop(s.toClient.frames, OnWireToClient);
  }

  lemma ClientStepWeight(s: State, l: ClientStep)
    requires ClientEnabled(s, l)
    ensures Weight(NextClient(s, l)) < Weight(s)
  {
    var c, t := s.client, NextClient(s, l);
    match l {
      case ReadReply =>
        PopToClient(s);
        ClientChange(s.(toClient := t.toClient), t.client);
      case ReplyMissing => ClientChange(s, t.client);
      case SendOpen(i, msgId, now) =>
        SendOpenWeight(s, i, msgId, now);
        ClientChange(s, t.client);
      case Resume(i) =>
        ResumeWeight(s, i);
        ClientChange(s, t.client);
      case ClientForward => ForwardWeight(s);
      case ClientRead(at) =>
        PopToClient(s);
        ClientReadsWeight(c, s.toClient.frames[0], at);
        ClientChange(s.(toClient := t.toClient), t.client);
      case ClientReadEnds => ClientChange(s, t.client);
    }
  }

  lemma PutOnWireWeight(s: State, h: Hub, env: Envelope)
    ensures Weight(PutOnWire(s, h, env)) <= Weight(s.(hub := h)) + OnWireToClient(Parsed(env))
  {
    TotalPush(s.toClient.frames, Parsed(env), OnWireToClient);
  }

  lemma HubChange(s: State, h: Hub)
    requires h.backlog == s.hub.backlog
    ensures Weight(s.(hub := h)) + HubWeight(s.hub) == Weight(s) + HubWeight(h)
  {
  }

  lemma PopToHub(s: State)
    requires s.toHub.frames != []
    ensures Weight(s.(toHub := s.toHub.(frames := s.toHub.frames[1..]))) + OnWireToHub(s.toHub.frames[0]) == Weight(s)
  {
    TotalPop(s.toHub.frames, OnWireToHub);
  }

  lemma HandleTieWeight(setup: Setup, s: State, count: nat, now: u64)
    requires s.hub.main.AwaitingTie? && s.toHub.frames != []
    ensures Weight(HandleFirst(s, setup, s.toHub.frames[0], count, now)) < Weight(s)
  {
    var d := s.toHub.frames[0];
    var rest := s.(toHub := s.toHub.(frames := s.toHub.frames[1..]));
    var after := HandleFirst(s, setup, d, count, now);
    PopToHub(s);
    if d.Parsed? && d.env.payload.Tie? && Verdict(setup.config, d.env.payload).Some? {
      var refused := s.hub.(main := Finished(false));
      SendWeight(rest, refused, RejectEnvelope(Verdict(setup.config, d.env.payload).value, now));
    } else {
      assert after == rest.(hub := after.hub);
      HubChange(rest, after.hub);
    }
  }

  lemma SendWeight(s: State, h: Hub, env: Envelope)
    requires h.backlog == s.hub.backlog && HubWeight(h) + OnWireToClient(Parsed(env)) < HubWeight(s.hub)
    ensures Weight(PutOnWire(s, h, env)) < Weight(s)
  {
    HubChange(s, h);
    PutOnWireWeight(s, h, env);
  }

  lemma WelcomeWeight(setup: Setup, s: State, msgId: string, now: u64)
    requires HubEnabled(s, SendWelcome(msgId, now))
    ensures Weight(NextHub(setup, s, SendWelcome(msgId, now))) < Weight(s)
  {
    var h := s.hub.(main := Announcing(s.hub.main.knotId, s.hub.main.capabilities));
    assert HubWeight(h) + 2 == HubWeight(s.hub);
    SendWeight(s, h, WelcomeEnvelope(msgId, now, s.hub.allotted.value.connectionId, s.hub.allotted.value.ropeId,
        setup.config.metadata));
  }

  lemma HubForwardWeight(setup: Setup, s: State)
    requires HubEnabled(s, HubForward)
    ensures Weight(NextHub(setup, s, HubForward)) < Weight(s)
  {
    var h := s.hub.(queue := s.hub.queue[1..]);
    TotalPop(s.hub.queue, AtHubQueue);
    if s.toClient.open {
      SendWeight(s, h, s.hub.queue[0]);
    } else {
      HubChange(s, h.(writing := false));
    }
  }

  lemma HubReadWeight(setup: Setup, s: State, at: Instants)
    requires HubEnabled(s, HubRead(at))
    ensures Weight(NextHub(setup, s, HubRead(at))) < Weight(s)
  {
    var t := NextHub(setup, s, HubRead(at));
    PopToHub(s);
    HubChange(s.(toHub := t.toHub), t.hub);
  }

  lemma HubStepWeight(setup: Setup, s: State, l: HubStep)
    requires HubEnabled(s, l)
    ensures Weight(NextHub(setup, s, l)) < Weight(s)
  {
    match l {
      case HandleTie(count, now) => HandleTieWeight(setup, s, count, now);
      case SendWelcome(msgId, now) => WelcomeWeight(setup, s, msgId, now);
      case HubForward => HubForwardWeight(setup, s);
      case HubRead(at) => HubReadWeight(setup, s, at);
      case QueueReply =>
        TotalPush(s.hub.queue, s.hub.reader.reply, AtHubQueue);
        HubChange(s, NextHub(setup, s, l).hub);
      case _ => HubChange(s, NextHub(setup, s, l).hub);
    }
  }

  lemma UniChange(s: State, u: nat, x: Uni)
    requires u < |s.unis|
    ensures Weight(s.(unis := s.unis[u := x])) + UniWeight(s.unis[u]) == Weight(s) + UniWeight(x)
  {
    TotalUpdate(s.unis, u, x, UniWeight);
  }

  lemma OpenUniWeight(setup: Setup, s: State, i: nat)
    requires StreamEnabled(s, OpenUni(i))
    ensures Weight(NextStream(setup, s, OpenUni(i))) < Weight(s)
  {
    var t := NextStream(setup, s, OpenUni(i));
    SetCallWeight(s.client, i, Configuring(|s.unis|));
    TotalPush(s.unis, t.unis[|s.unis|], UniWeight);
  }

  lemma StreamStepWeight(setup: Setup, s: State, l: StreamStep)
    requires StreamEnabled(s, l)
    ensures Weight(NextStream(setup, s, l)) < Weight(s)
  {
    var t := NextStream(setup, s, l);
    match l {
      case OpenUni(i) => OpenUniWeight(setup, s, i);
      case SendConfig(i) =>
        var u := s.client.calls[i].pc.stream;
        SetCallWeight(s.client, i, Streaming(u));
        ClientChange(s, t.client);
        UniChange(s.(client := t.client), u, t.unis[u]);
      case AcceptUni =>
        var u := s.hub.backlog[0];
        UniChange(s, u, t.unis[u]);
      case TakeConfig(u) => UniChange(s, u, t.unis[u]);
      case CommitFrame(u) => UniChange(s, u, t.unis[u]);
      case TaskEnds(u) => UniChange(s, u, t.unis[u]);
      case EmitFrame(u) =>
        UniChange(s, u, t.unis[u]);
        HubChange(s.(unis := t.unis), t.hub);
    }
  }

  ghost predicate Internal(run: seq<Label>) {
    forall k :: 0 <= k < |run| ==> IsInternal(run[k])
  }

  /** From any state whatever, at most Weight steps can be taken before both sides rest or an application acts. */
  lemma {:induction false} InternalRunsEnd(setup: Setup, s: State, run: seq<Label>)
    requires Runs(setup, s, run) && Internal(run)
    ensures |run| + Weight(After(setup, s, run)) <= Weight(s)
  {
    if run != [] {
      var front, l := run[..|run| - 1], run[|run| - 1];
      InternalRunsEnd(setup, s, front);
      var before := After(setup, s, front);
      match l {
        case AtClient(i) => ClientStepWeight(before, i);
        case AtHub(i) => HubStepWeight(setup, before, i);
        case OnStream(i) => StreamStepWeight(setup, before, i);
      }
    }
  }

  /** Every run of the library's own steps from `s` is over within `n` of them. */
  ghost predicate EndsWithin(setup: Setup, s: State, n: nat) {
    forall run :: Runs(setup, s, run) && Internal(run) ==> |run| <= n
  }

  /** With no new input the two sides fall silent, whatever state they are in and in whatever order they step. */
  lemma {:induction false} EveryRunEnds(setup: Setup, s: State)
    ensures EndsWithin(setup, s, Weight(s))
  {
    forall run | Runs(setup, s, run) && Internal(run) ensures |run| <= Weight(s) {
      InternalRunsEnd(setup, s, run);
    }
  }
}
