/** The handshake in every run: one reply, agreement on what it says, and the order of the hub's wire. */
module SessionHandshake {
  import opened Messages
  import opened Sequences
  import opened Session
  import opened Admission
  import opened SessionLog
  import BigEndian
  import Identifiers
  import SessionGating

  function Wrap(queue: seq<Envelope>): (frames: seq<Delivery>)
    ensures |frames| == |queue| && forall k :: 0 <= k < |queue| ==> frames[k] == Parsed(queue[k])
  {
    seq(|queue|, k requires 0 <= k < |queue| => Parsed(queue[k]))
  }

  predicate Asked(c: Client) {
    c.phase.Idle? || c.phase.AwaitingReply?
  }

  predicate Unanswered(main: MainPc) {
    main.AwaitingTie? || main.Welcoming?
  }

  // ---- what the hub puts on its wire ----

  predicate IsWelcome(setup: Setup, h: Hub, d: Delivery) {
    && d.Parsed? && d.env.payload.Welcome? && h.allotted.Some?
    && d.env.payload == Welcome(h.allotted.value.connectionId, h.allotted.value.ropeId, setup.config.metadata)
    && d.env.sourceRopeId == "host" && d.env.connectionId == h.allotted.value.connectionId && !d.env.requiresAck
  }

  predicate IsRefusal(setup: Setup, d: Delivery) {
    var r := setup.request;
    var policy := PolicyVerdict(setup.config, r.token, r.capabilities);
    var refusal := if policy.Some? then policy else CapabilityVerdict(setup.config, r.capabilities);
    d.Parsed? && refusal.Some? && d.env == RejectEnvelope(refusal.value, d.env.timestamp)
  }

  /** After the one handshake reply the wire carries the control queue, in order, up to what a dead writer lost. */
  ghost predicate WireInOrder(setup: Setup, h: Hub) {
    && (Unanswered(h.main) ==> h.sent == [] && h.enqueued == [] && h.queue == [] && h.log == [])
    && (h.main.AwaitingTie? ==> h.allotted.None?)
    && (h.main.Welcoming? || h.main.Announcing? ==>
          h.allotted.Some? && h.main.knotId == setup.request.knotId
              && h.main.capabilities == setup.request.capabilities)
    && (h.allotted.Some? ==>
          && h.allotted.value.ropeId == Identifiers.AssignedRopeId(setup.request.knotId, setup.request.ropeId)
          && exists count :: h.allotted.value.connectionId == Identifiers.ConnectionId(count))
    && (h.sent == [] ==>
          && h.log == [] && h.enqueued == [] && h.queue == []
          && (Unanswered(h.main) || h.main == Finished(false)))
    && (h.sent != [] ==> if h.log == [] && !h.main.Announcing?
                         then h.main == Finished(false) && h.enqueued == [] && IsRefusal(setup, h.sent[0])
                         else IsWelcome(setup, h, h.sent[0]))
    && (h.sent != [] ==> if h.writing then h.sent[1..] + Wrap(h.queue) == Wrap(h.enqueued)
        else h.sent[1..] <= Wrap(h.enqueued))
  }

  // ---- what is still in transit before each side has read its first frame ----

  ghost predicate IsTie(setup: Setup, env: Envelope) {
    exists now :: env == TieEnvelope(setup.request, setup.config.remoteNodeId, now)
  }

  ghost predicate FirstToHub(setup: Setup, s: State) {
    && (s.client.phase.Idle? ==> s.toHub.frames == [])
    && (s.hub.main.AwaitingTie? && s.toHub.frames != [] && s.toHub.frames[0].Parsed? ==>
        IsTie(setup, s.toHub.frames[0].env))
    && (s.hub.main.AwaitingTie? && s.toHub.frames == [] && s.toHub.open ==> s.client.phase.Idle?)
  }

  predicate FirstToClient(s: State) {
    && (s.client.reading ==> !Asked(s.client))
    && (Asked(s.client) && s.toClient.frames != [] ==>
          s.hub.sent != [] && (!s.toClient.frames[0].Parsed? || s.toClient.frames[0] == s.hub.sent[0]))
    && (Asked(s.client) && s.toClient.frames == [] && s.toClient.open ==> s.hub.sent == [])
  }

  predicate Agreed(setup: Setup, s: State) {
    s.client.phase.Tied? ==>
      && s.hub.sent != []
      && IsWelcome(setup, s.hub, s.hub.sent[0])
      && s.hub.sent[0].env.payload ==
          Welcome(s.client.phase.connectionId, s.client.phase.ropeId, s.client.phase.metadata)
  }

  ghost predicate Shaken(setup: Setup, s: State) {
    TasksAgree(s.hub) && WireInOrder(setup, s.hub) && FirstToHub(setup, s) && FirstToClient(s) && Agreed(setup, s)
  }

  lemma WrapPush(queue: seq<Envelope>, env: Envelope)
    ensures Wrap(queue + [env]) == Wrap(queue) + [Parsed(env)]
  {
  }

  lemma WrapPop(queue: seq<Envelope>)
    requires queue != []
    ensures Wrap(queue) == [Parsed(queue[0])] + Wrap(queue[1..])
  {
  }

  lemma EnqueueInOrder(setup: Setup, h: Hub, env: Envelope, byReader: bool)
    requires WireInOrder(setup, h) && h.log != []
    ensures WireInOrder(setup, Enqueue(h, env, byReader))
  {
    WrapPush(h.queue, env);
    WrapPush(h.enqueued, env);
    if h.writing {
      assert h.sent[1..] + Wrap(h.queue + [env]) == h.sent[1..] + Wrap(h.queue) + [Parsed(env)];
    }
  }

  lemma ForwardedWrap(sent: seq<Delivery>, queue: seq<Envelope>, enqueued: seq<Envelope>)
    requires sent != [] && queue != [] && sent[1..] + Wrap(queue) == Wrap(enqueued)
    ensures (sent + [Parsed(queue[0])])[1..] + Wrap(queue[1..]) == Wrap(enqueued)
    ensures sent[1..] <= Wrap(enqueued)
  {
    var head := [Parsed(queue[0])];
    WrapPop(queue);
    assert (sent + head)[1..] == sent[1..] + head;
    Associative(sent[1..], head, Wrap(queue[1..]));
  }

  lemma ForwardInOrder(setup: Setup, s: State)
    requires HubEnabled(s, HubForward) && WireInOrder(setup, s.hub)
    ensures WireInOrder(setup, NextHub(setup, s, HubForward).hub)
  {
    ForwardedWrap(s.hub.sent, s.hub.queue, s.hub.enqueued);
  }

  lemma TieInOrder(setup: Setup, s: State, count: nat, now: BigEndian.u64)
    requires Shaken(setup, s) && HubEnabled(s, HandleTie(count, now))
    ensures WireInOrder(setup, HandleFirst(s, setup, s.toHub.frames[0], count, now).hub)
  {
    assert Wrap([]) == [];
    assert Identifiers.ConnectionId(count) == Identifiers.ConnectionId(count);
  }

  lemma WelcomeInOrder(setup: Setup, s: State, msgId: string, now: BigEndian.u64)
    requires Shaken(setup, s) && HubEnabled(s, SendWelcome(msgId, now))
    ensures WireInOrder(setup, NextHub(setup, s, SendWelcome(msgId, now)).hub)
  {
    assert Wrap([]) == [];
  }

  /** The steps that neither answer the Tie nor touch the queue. */
  lemma QuietInOrder(setup: Setup, s: State, l: HubStep)
    requires Shaken(setup, s) && HubEnabled(s, l)
    requires !l.HandleTie? && !l.SendWelcome? && !l.HubForward? && !l.QueueReply?
    ensures WireInOrder(setup, NextHub(setup, s, l).hub)
  {
    HubKeepsWire(setup, s, l);
  }

  lemma HubInOrder(setup: Setup, s: State, l: HubStep)
    requires Shaken(setup, s) && HubEnabled(s, l)
    ensures WireInOrder(setup, NextHub(setup, s, l).hub)
  {
    match l {
      case HandleTie(count, now) => TieInOrder(setup, s, count, now);
      case SendWelcome(msgId, now) => WelcomeInOrder(setup, s, msgId, now);
      case HubForward => ForwardInOrder(setup, s);
      case QueueReply => EnqueueInOrder(setup, s.hub, s.hub.reader.reply, true);
      case _ => QuietInOrder(setup, s, l);
    }
  }

  lemma HubFirstToHub(setup: Setup, s: State, l: HubStep)
    requires FirstToHub(setup, s) && TasksAgree(s.hub) && HubEnabled(s, l)
    ensures FirstToHub(setup, NextHub(setup, s, l))
  {
  }

  lemma HubFirstToClient(setup: Setup, s: State, l: HubStep)
    requires Shaken(setup, s) && HubEnabled(s, l)
    ensures FirstToClient(NextHub(setup, s, l)) && Agreed(setup, NextHub(setup, s, l))
  {
    var h := s.hub;
    match l {
      case HandleTie(count, now) => TieFirstToClient(setup, s, count, now);
      case SendWelcome(msgId, now) =>
        SendFirstToClient(setup, s, h.(main := Announcing(h.main.knotId, h.main.capabilities)),
                          WelcomeEnvelope(msgId, now, h.allotted.value.connectionId, h.allotted.value.ropeId,
                                          setup.config.metadata));
      case HubForward => ForwardFirstToClient(setup, s);
      case _ => HubKeepsWire(setup, s, l);
    }
  }

  lemma HubKeepsWire(setup: Setup, s: State, l: HubStep)
    requires HubEnabled(s, l) && !l.HandleTie? && !l.SendWelcome? && !l.HubForward?
    ensures var t := NextHub(setup, s, l);
            && t.client == s.client && t.toClient == s.toClient
            && t.hub.sent == s.hub.sent && t.hub.allotted == s.hub.allotted
  {
  }

  lemma SendFirstToClient(setup: Setup, s: State, h: Hub, env: Envelope)
    requires FirstToClient(s) && Agreed(setup, s) && h.sent == s.hub.sent && h.allotted == s.hub.allotted
    ensures FirstToClient(PutOnWire(s, h, env)) && Agreed(setup, PutOnWire(s, h, env))
  {
  }

  lemma ForwardFirstToClient(setup: Setup, s: State)
    requires FirstToClient(s) && Agreed(setup, s) && HubEnabled(s, HubForward)
    ensures FirstToClient(NextHub(setup, s, HubForward)) && Agreed(setup, NextHub(setup, s, HubForward))
  {
    if s.toClient.open {
      SendFirstToClient(setup, s, s.hub.(queue := s.hub.queue[1..]), s.hub.queue[0]);
    }
  }

  lemma TieFirstToClient(setup: Setup, s: State, count: nat, now: BigEndian.u64)
    requires Shaken(setup, s) && HubEnabled(s, HandleTie(count, now))
    ensures var t := HandleFirst(s, setup, s.toHub.frames[0], count, now); FirstToClient(t) && Agreed(setup, t)
  {
    var d := s.toHub.frames[0];
    var rest := s.(toHub := s.toHub.(frames := s.toHub.frames[1..]));
    assert !s.client.phase.Tied?;
    if d.Parsed? && d.env.payload.Tie? && Verdict(setup.config, d.env.payload).Some? {
      SendFirstToClient(setup, rest, s.hub.(main := Finished(false)),
                        RejectEnvelope(Verdict(setup.config, d.env.payload).value, now));
    }
  }

  lemma HubShaken(setup: Setup, s: State, l: HubStep)
    requires Shaken(setup, s) && HubEnabled(s, l)
    ensures Shaken(setup, NextHub(setup, s, l))
  {
    HubTasksAgree(setup, s, l);
    HubInOrder(setup, s, l);
    HubFirstToHub(setup, s, l);
    HubFirstToClient(setup, s, l);
  }

  lemma ClientFirstToHub(setup: Setup, s: State, l: ClientStep)
    requires Shaken(setup, s) && ClientEnabled(s, l)
    ensures FirstToHub(setup, NextClient(s, l))
  {
  }

  lemma ClientFirstToClient(setup: Setup, s: State, l: ClientStep)
    requires Shaken(setup, s) && ClientEnabled(s, l)
    ensures FirstToClient(NextClient(s, l)) && Agreed(setup, NextClient(s, l))
  {
  }

  lemma ClientShaken(setup: Setup, s: State, l: ClientStep)
    requires Shaken(setup, s) && ClientEnabled(s, l)
    ensures Shaken(setup, NextClient(s, l))
  {
    ClientFirstToHub(setup, s, l);
    ClientFirstToClient(setup, s, l);
    assert NextClient(s, l).hub == s.hub;
  }

  lemma InputShaken(setup: Setup, s: State, l: Input)
    requires Shaken(setup, s) && InputEnabled(s, l)
    ensures Shaken(setup, NextInput(setup, s, l))
  {
    match l {
      case TieTheKnot(now) => assert IsTie(setup, TieEnvelope(setup.request, setup.config.remoteNodeId, now));
      case HubSend(env) => EnqueueInOrder(setup, s.hub, env, false);
      case _ =>
    }
  }

  lemma StreamShaken(setup: Setup, s: State, l: StreamStep)
    requires Shaken(setup, s) && StreamEnabled(s, l) && TasksAfterConnect(s)
    ensures Shaken(setup, NextStream(setup, s, l))
  {
  }

  lemma FaultShaken(setup: Setup, s: State, l: Fault)
    requires Shaken(setup, s) && FaultEnabled(s, l)
    ensures Shaken(setup, NextFault(s, l))
  {
  }

  lemma {:induction false} ShakenRun(setup: Setup, run: seq<Label>)
    requires Runs(setup, Initial, run)
    ensures Shaken(setup, After(setup, Initial, run))
  {
    if run == [] {
      assert Wrap([]) == [];
    } else {
      var front := run[..|run| - 1];
      var before := After(setup, Initial, front);
      ShakenRun(setup, front);
      LogDisciplinedRun(setup, front);
      match run[|run| - 1] {
        case App(i) => InputShaken(setup, before, i);
        case AtClient(i) => ClientShaken(setup, before, i);
        case AtHub(i) => HubShaken(setup, before, i);
        case OnStream(i) => StreamShaken(setup, before, i);
        case Wrong(i) => FaultShaken(setup, before, i);
      }
    }
  }

  // ---- what RopeConnected says ----

  predicate ConnectedAsAsked(setup: Setup, h: Hub) {
    h.log != [] ==>
      && h.allotted.Some?
      && h.log[0] == RopeConnected(h.allotted.value.ropeId, setup.request.knotId, setup.config.remoteNodeId,
          setup.request.capabilities)
  }

  lemma ConnectedStep(setup: Setup, s: State, l: Label)
    requires Enabled(s, l) && Shaken(setup, s) && ConnectedAsAsked(setup, s.hub)
    requires ConnectedFirst(Next(setup, s, l).hub.log)
    ensures ConnectedAsAsked(setup, Next(setup, s, l).hub)
  {
    var t := Next(setup, s, l);
    SessionGating.LogIsNews(setup, s, l);
    if s.hub.log != [] {
      AllottedStays(setup, s, l);
      assert t.hub.log[0] == s.hub.log[0];
    } else if t.hub.log != [] {
      assert t.hub.log[0].RopeConnected?;
      assert t.hub.log[0] == SessionGating.News(setup, s, l)[0];
      OnlyAnnounceConnects(setup, s, l);
    }
  }

  lemma AllottedStays(setup: Setup, s: State, l: Label)
    requires Enabled(s, l) && TasksAgree(s.hub) && s.hub.log != []
    ensures Next(setup, s, l).hub.allotted == s.hub.allotted
  {
  }

  lemma OnlyAnnounceConnects(setup: Setup, s: State, l: Label)
    requires Enabled(s, l) && SessionGating.News(setup, s, l) != [] && SessionGating.News(setup, s, l)[0].RopeConnected?
    ensures l == AtHub(Announce)
  {
  }

  lemma {:induction false} ConnectedRun(setup: Setup, run: seq<Label>)
    requires Runs(setup, Initial, run)
    ensures ConnectedAsAsked(setup, After(setup, Initial, run).hub)
  {
    if run != [] {
      var front := run[..|run| - 1];
      ConnectedRun(setup, front);
      ShakenRun(setup, front);
      EventLogDiscipline(setup, run);
      ConnectedStep(setup, After(setup, Initial, front), run[|run| - 1]);
    }
  }

  /**
   * In every run: a client that is tied holds the connection id and rope id the hub allotted to this connection, made
   * from the names it asked for, and every event names that rope; nothing is reported before the Welcome
   * went out, and first the connection itself, with the knot and capabilities asked for and the authenticated node id.
   */
  lemma {:induction false} HandshakeAgreement(setup: Setup, run: seq<Label>)
    requires Runs(setup, Initial, run)
    ensures var s := After(setup, Initial, run);
            && (s.client.phase.Tied? ==>
                  && s.hub.allotted == Some(Allotment(s.client.phase.connectionId, s.client.phase.ropeId))
                  && Identifiers.Joins(s.client.phase.ropeId, setup.request.knotId, setup.request.ropeId)
                  && (exists count :: s.client.phase.connectionId == Identifiers.ConnectionId(count))
                  && s.client.phase.metadata == setup.config.metadata
                  && OneRope(s.hub.log, s.client.phase.ropeId))
            && (s.hub.log != [] ==>
                  s.hub.sent != [] && IsWelcome(setup, s.hub, s.hub.sent[0]) && ConnectedAsAsked(setup, s.hub))
  {
    ShakenRun(setup, run);
    ConnectedRun(setup, run);
    Identifiers.AssignedRopeIdJoins(setup.request.knotId, setup.request.ropeId,
                                    Identifiers.AssignedRopeId(setup.request.knotId, setup.request.ropeId));
    EventLogDiscipline(setup, run);
  }

  /** In every run the hub's wire is one reply, and after a Welcome the control queue from its head, nothing added. */
  lemma {:induction false} OneReplyThenQueue(setup: Setup, run: seq<Label>)
    requires Runs(setup, Initial, run)
    ensures var h := After(setup, Initial, run).hub;
            && (h.sent != [] ==> IsWelcome(setup, h, h.sent[0]) || (IsRefusal(setup, h.sent[0]) && |h.sent| == 1))
            && (h.sent != [] ==> h.sent[1..] <= Wrap(h.enqueued))
            && (h.sent != [] && h.writing ==> h.sent[1..] + Wrap(h.queue) == Wrap(h.enqueued))
  {
    ShakenRun(setup, run);
  }
}
