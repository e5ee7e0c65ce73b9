/** No lost wakeup: tokens for waiting `create_stream` calls are conserved, and at rest nobody waits. */
module SessionProgress {
  import opened Messages
  import opened Sequences
  import opened Session
  import opened SessionStreams
  import opened SessionHealth
  import Admission
  import BigEndian

  // A token for a stream id is its StreamOpen on the way to the hub or its StreamAccepted on the way back.

  predicate IsOpen(env: Envelope, id: string) {
    env.payload.StreamOpen? && env.payload.streamId == id
  }

  predicate IsAccept(env: Envelope, id: string) {
    env.payload.StreamAccepted? && env.payload.streamId == id
  }

  function OpenFor(id: string): Envelope -> nat {
    (env: Envelope) => if IsOpen(env, id) then 1 else 0
  }

  function OpenOnWire(id: string): Delivery -> nat {
    (d: Delivery) => if d.Parsed? && IsOpen(d.env, id) then 1 else 0
  }

  function AcceptFor(id: string): Envelope -> nat {
    (env: Envelope) => if IsAccept(env, id) then 1 else 0
  }

  function AcceptOnWire(id: string): Delivery -> nat {
    (d: Delivery) => if d.Parsed? && IsAccept(d.env, id) then 1 else 0
  }

  function InReader(id: string, reader: ReaderPc): nat {
    if reader.Replying? then AcceptFor(id)(reader.reply) else 0
  }

  ghost function Tokens(s: State, id: string): nat {
    Total(s.client.queue, OpenFor(id)) + Total(s.toHub.frames, OpenOnWire(id)) + InReader(id, s.hub.reader)
    + Total(s.hub.queue, AcceptFor(id)) + Total(s.toClient.frames, AcceptOnWire(id))
  }

  /** The applications and a call's own request put tokens in. */
  function Made(s: State, l: Label, id: string): nat
    requires Enabled(s, l)
  {
    match l
    case App(ClientSend(env)) => OpenFor(id)(env)
    case App(HubSend(env)) => AcceptFor(id)(env)
    case AtClient(SendOpen(i, _, _)) => if s.client.calls[i].streamId == id then 1 else 0
    case _ => 0
  }

  /** The client's reader takes them out, and so would a handshake that met one. */
  function Spent(s: State, l: Label, id: string): nat
    requires Enabled(s, l)
  {
    match l
    case AtClient(ClientRead(_)) => AcceptOnWire(id)(s.toClient.frames[0])
    case AtClient(ReadReply) => AcceptOnWire(id)(s.toClient.frames[0])
    case AtHub(HandleTie(_, _)) => OpenOnWire(id)(s.toHub.frames[0])
    case _ => 0
  }

  lemma InputTokens(setup: Setup, s: State, l: Input, id: string)
    requires InputEnabled(s, l) && s.client.writing && s.hub.writing
    ensures Tokens(NextInput(setup, s, l), id) == Tokens(s, id) + Made(s, App(l), id)
  {
    match l {
      case TieTheKnot(now) =>
        TotalPush(s.toHub.frames, Parsed(Admission.TieEnvelope(setup.request, setup.config.remoteNodeId, now)),
            OpenOnWire(id));
      case ClientSend(env) => TotalPush(s.client.queue, env, OpenFor(id));
      case HubSend(env) => TotalPush(s.hub.queue, env, AcceptFor(id));
      case _ =>
    }
  }

  lemma ReadsQueue(c: Client, d: Delivery, at: Instants)
    ensures ClientReads(c, d, at).queue ==
              if d.Parsed? && d.env.payload.Ping? && c.phase.Tied? && c.writing
              then c.queue + [PongTo(d.env, c.phase.ropeId, c.phase.connectionId, at)] else c.queue
  {
  }

  lemma ReadsTokens(c: Client, d: Delivery, at: Instants, id: string)
    ensures Total(ClientReads(c, d, at).queue, OpenFor(id)) == Total(c.queue, OpenFor(id))
  {
    ReadsQueue(c, d, at);
    if d.Parsed? && d.env.payload.Ping? && c.phase.Tied? {
      var pong := PongTo(d.env, c.phase.ropeId, c.phase.connectionId, at);
      assert OpenFor(id)(pong) == 0;
      TotalPush(c.queue, pong, OpenFor(id));
    }
  }

  lemma ClientTokens(s: State, l: ClientStep, id: string)
    requires ClientEnabled(s, l) && s.client.writing && s.toHub.open
    requires l.SendOpen? ==> s.client.phase.Tied?
    ensures Tokens(NextClient(s, l), id) + Spent(s, AtClient(l), id) == Tokens(s, id) + Made(s, AtClient(l), id)
  {
    match l {
      case ReadReply => TotalPop(s.toClient.frames, AcceptOnWire(id));
      case SendOpen(i, msgId, now) => TotalPush(s.client.queue, OpenEnvelope(s.client, s.client.calls[i], msgId, now),
          OpenFor(id));
      case ClientForward =>
        TotalPop(s.client.queue, OpenFor(id));
        TotalPush(s.toHub.frames, Parsed(s.client.queue[0]), OpenOnWire(id));
      case ClientRead(at) =>
        TotalPop(s.toClient.frames, AcceptOnWire(id));
        ReadsTokens(s.client, s.toClient.frames[0], at, id);
      case _ =>
    }
  }

  lemma WireTokens(s: State, h: Hub, env: Envelope, id: string)
    requires s.toClient.open
    ensures Tokens(PutOnWire(s, h, env), id) == Tokens(s.(hub := h), id) + AcceptFor(id)(env)
  {
    TotalPush(s.toClient.frames, Parsed(env), AcceptOnWire(id));
  }

  lemma PopTokens(s: State, id: string)
    requires s.toHub.frames != []
    ensures Tokens(s.(toHub := s.toHub.(frames := s.toHub.frames[1..])), id) + OpenOnWire(id)(s.toHub.frames[0]) ==
        Tokens(s, id)
  {
    TotalPop(s.toHub.frames, OpenOnWire(id));
  }

  lemma SameTokens(s: State, h: Hub, id: string)
    requires h.queue == s.hub.queue && h.reader == s.hub.reader
    ensures Tokens(s.(hub := h), id) == Tokens(s, id)
  {
  }

  lemma HandleTieTokens(setup: Setup, s: State, count: nat, now: BigEndian.u64, id: string)
    requires HubEnabled(s, HandleTie(count, now)) && s.toClient.open
    ensures Tokens(HandleFirst(s, setup, s.toHub.frames[0], count, now), id) + OpenOnWire(id)(s.toHub.frames[0]) ==
        Tokens(s, id)
  {
    var d := s.toHub.frames[0];
    var rest := s.(toHub := s.toHub.(frames := s.toHub.frames[1..]));
    var after := HandleFirst(s, setup, d, count, now);
    PopTokens(s, id);
    if d.Parsed? && d.env.payload.Tie? && Admission.Verdict(setup.config, d.env.payload).Some? {
      var refused := s.hub.(main := Finished(false));
      SameTokens(rest, refused, id);
      WireTokens(rest, refused, Admission.RejectEnvelope(Admission.Verdict(setup.config, d.env.payload).value, now),
          id);
    } else {
      assert after == rest.(hub := after.hub);
      SameTokens(rest, after.hub, id);
    }
  }

  /** The steps that neither read, nor queue, nor send. */
  lemma QuietTokens(setup: Setup, s: State, l: HubStep, id: string)
    requires HubEnabled(s, l) && !l.HandleTie? && !l.SendWelcome? && !l.HubForward? && !l.HubRead? && !l.QueueReply?
    requires l.MakeDirectory? ==> s.hub.reader.NotSpawned?
    ensures Tokens(NextHub(setup, s, l), id) == Tokens(s, id) && Spent(s, AtHub(l), id) == 0
  {
  }

  lemma HubTokens(setup: Setup, s: State, l: HubStep, id: string)
    requires HubEnabled(s, l) && s.hub.writing && s.toClient.open
    requires l.HubRead? ==> s.toHub.frames[0].Parsed?
    requires l.MakeDirectory? ==> s.hub.reader.NotSpawned?
    ensures Tokens(NextHub(setup, s, l), id) + Spent(s, AtHub(l), id) == Tokens(s, id)
  {
    var h := s.hub;
    match l {
      case HandleTie(count, now) => HandleTieTokens(setup, s, count, now, id);
      case SendWelcome(msgId, now) =>
        WireTokens(s, h.(main := Announcing(h.main.knotId, h.main.capabilities)),
                   Admission.WelcomeEnvelope(msgId, now, h.allotted.value.connectionId, h.allotted.value.ropeId,
                       setup.config.metadata), id);
      case HubForward =>
        TotalPop(h.queue, AcceptFor(id));
        WireTokens(s, h.(queue := h.queue[1..]), h.queue[0], id);
      case HubRead(_) => TotalPop(s.toHub.frames, OpenOnWire(id));
      case QueueReply => TotalPush(h.queue, h.reader.reply, AcceptFor(id));
      case _ => QuietTokens(setup, s, l, id);
    }
  }

  lemma StreamTokens(setup: Setup, s: State, l: StreamStep, id: string)
    requires StreamEnabled(s, l)
    ensures Tokens(NextStream(setup, s, l), id) == Tokens(s, id)
  {
  }

  /** Tokens are neither lost nor made on the way: what a step does not make or spend, it keeps. */
  lemma TokensConserved(setup: Setup, s: State, l: Label, id: string)
    requires Enabled(s, l) && Healthy(s) && !l.Wrong?
    ensures Tokens(Next(setup, s, l), id) + Spent(s, l, id) == Tokens(s, id) + Made(s, l, id)
  {
    match l {
      case App(i) => InputTokens(setup, s, i, id);
      case AtClient(i) => ClientTokens(s, i, id);
      case AtHub(i) => HubTokens(setup, s, i, id);
      case OnStream(i) => StreamTokens(setup, s, i, id);
    }
  }

  /** A waiting call whose slot is still empty has at least one token under way. */
  ghost predicate NoLostWakeup(s: State) {
    forall i :: 0 <= i < |s.client.calls| && WaitsIn(s, i) ==> Tokens(s, s.client.calls[i].streamId) >= 1
  }

  predicate WaitsIn(s: State, i: nat) {
    i < |s.client.calls| && s.client.calls[i].pc.Awaiting? && s.client.calls[i].slot.Empty?
  }

  lemma StillWaitingClient(s: State, l: ClientStep, i: nat)
    requires ClientEnabled(s, l) && Healthy(s) && WaitsIn(NextClient(s, l), i)
    ensures var id := NextClient(s, l).client.calls[i].streamId;
            && Spent(s, AtClient(l), id) == 0
            && (Made(s, AtClient(l), id) >= 1 || (WaitsIn(s, i) && s.client.calls[i].streamId == id))
  {
  }

  /** A call that waits after a step either waited before it, and its token was not spent, or has just made one. */
  lemma StillWaiting(setup: Setup, s: State, l: Label, i: nat)
    requires Enabled(s, l) && Healthy(s) && !l.Wrong? && WaitsIn(Next(setup, s, l), i)
    ensures var id := Next(setup, s, l).client.calls[i].streamId;
            && Spent(s, l, id) == 0
            && (Made(s, l, id) >= 1 || (WaitsIn(s, i) && s.client.calls[i].streamId == id))
  {
    if l.AtClient? {
      StillWaitingClient(s, l.client, i);
    }
  }

  lemma NoLostWakeupStep(setup: Setup, s: State, l: Label)
    requires Enabled(s, l) && Healthy(s) && !l.Wrong? && NoLostWakeup(s)
    ensures NoLostWakeup(Next(setup, s, l))
  {
    var t := Next(setup, s, l);
    forall i | 0 <= i < |t.client.calls| && WaitsIn(t, i)
      ensures Tokens(t, t.client.calls[i].streamId) >= 1
    {
      StillWaiting(setup, s, l, i);
      TokensConserved(setup, s, l, t.client.calls[i].streamId);
    }
  }

  lemma {:induction false} NoLostWakeupRun(setup: Setup, run: seq<Label>)
    requires Runs(setup, Initial, run) && FaultFree(run)
    ensures NoLostWakeup(After(setup, Initial, run))
  {
    if run != [] {
      var front := run[..|run| - 1];
      NoLostWakeupRun(setup, front);
      HealthyRun(setup, front);
      NoLostWakeupStep(setup, After(setup, Initial, front), run[|run| - 1]);
    }
  }

  /** Nothing is left to do but for the applications to ask for more. */
  ghost predicate AtRest(s: State) {
    forall l :: IsInternal(l) ==> !Enabled(s, l)
  }

  lemma QueuesAtRest(s: State, id: string)
    requires Healthy(s) && AtRest(s) && s.client.phase.Tied?
    ensures s.hub.main.Accepting? && s.hub.backlog == [] && s.hub.allotted.Some?
    ensures Tokens(s, id) == 0
  {
    assert !Enabled(s, AtHub(Announce)) && !Enabled(s, AtHub(MakeDirectory));
    assert !Enabled(s, AtHub(QueueReply)) && !Enabled(s, AtHub(HubForward))
        && !Enabled(s, AtHub(HubRead(Instants(0, 0))));
    assert !Enabled(s, AtClient(ClientForward)) && !Enabled(s, AtClient(ClientRead(Instants(0, 0))));
    assert !Enabled(s, OnStream(AcceptUni));
  }

  lemma CallAtRest(s: State, i: nat)
    requires Healthy(s) && StreamsSafe(s) && NoLostWakeup(s) && AtRest(s)
    requires i < |s.client.calls|
    ensures HasReturned(s.client.calls[i])
  {
    var call := s.client.calls[i];
    QueuesAtRest(s, call.streamId);
    assert CallTold(call) && CallSafe(s.unis, i, call.pc);
    assert !Enabled(s, AtClient(SendOpen(i, "", 0))) && !Enabled(s, AtClient(Resume(i)));
    assert !Enabled(s, OnStream(OpenUni(i))) && !Enabled(s, OnStream(SendConfig(i)));
  }

  lemma UniAtRest(s: State, u: nat)
    requires Healthy(s) && StreamsSafe(s) && AtRest(s)
    requires u < |s.unis|
    ensures IsSettled(s.unis[u])
  {
    QueuesAtRest(s, "");
    var uni := s.unis[u];
    assert UniSafe(uni);
    assert !Enabled(s, OnStream(TakeConfig(u))) && !Enabled(s, OnStream(CommitFrame(u)))
        && !Enabled(s, OnStream(EmitFrame(u)));
    if uni.task.Reading? {
      assert AsData(uni.committed) + uni.items == AsData(uni.committed);
      forall k | 0 <= k < |uni.written| ensures AsData(uni.written)[k] == Data(uni.written[k]) {}
    }
  }

  /** The call has its stream, or failed because a later call took its pending entry. */
  predicate HasReturned(call: Call) {
    call.pc.Streaming? || (call.pc.Failed? && call.slot.Dropped?)
  }

  /** What the client wrote has been stored and reported, or the hub has ended the stream. */
  predicate IsSettled(u: Uni) {
    if Intact(u) then u.emitted == u.committed == u.written else u.task.Ended?
  }

  ghost predicate AllDone(s: State) {
    && (forall i :: 0 <= i < |s.client.calls| ==> HasReturned(s.client.calls[i]))
    && (forall u :: 0 <= u < |s.unis| ==> IsSettled(s.unis[u]))
  }

  /**
   * When a run without faults comes to rest, whatever stream ids were used and whatever the applications sent:
   * every `create_stream` call has returned, with a stream unless a later call had taken its pending entry,
   * and every frame written has been stored and reported, on every stream, finished or not, that was not refused.
   */
  lemma {:induction false} RestMeansDone(setup: Setup, run: seq<Label>)
    requires Runs(setup, Initial, run) && FaultFree(run) && AtRest(After(setup, Initial, run))
    ensures AllDone(After(setup, Initial, run))
  {
    var s := After(setup, Initial, run);
    HealthyRun(setup, run);
    StreamsSafeRun(setup, run);
    NoLostWakeupRun(setup, run);
    forall i | 0 <= i < |s.client.calls| ensures HasReturned(s.client.calls[i]) {
      CallAtRest(s, i);
    }
    forall u | 0 <= u < |s.unis| ensures IsSettled(s.unis[u]) {
      UniAtRest(s, u);
    }
  }

  // ---- exact conservation, when each stream id is used once ----

  /** Stream ids are used once, and neither application speaks the stream protocol behind the library's back. */
  predicate Polite(s: State, l: Label) {
    match l
    case App(StartCall(id, _, _)) => forall i :: 0 <= i < |s.client.calls| ==> s.client.calls[i].streamId != id
    case App(ClientSend(env)) => !env.payload.StreamOpen?
    case App(HubSend(env)) => !env.payload.StreamAccepted?
    case Wrong(_) => false
    case _ => true
  }

  ghost predicate Disciplined(setup: Setup, run: seq<Label>) {
    run == [] || (Disciplined(setup, run[..|run| - 1])
        && Polite(After(setup, Initial, run[..|run| - 1]), run[|run| - 1]))
  }

  function WaitsFor(id: string): Call -> nat {
    (call: Call) => if call.streamId == id && call.pc.Awaiting? && call.slot.Empty? then 1 else 0
  }

  ghost predicate OnceEach(c: Client) {
    && (forall i, j :: 0 <= i < j < |c.calls| ==> c.calls[i].streamId != c.calls[j].streamId)
    && (forall i :: 0 <= i < |c.calls| ==>
          !c.calls[i].slot.Dropped? && (c.calls[i].pc.Sending? ==> c.calls[i].slot.Empty?))
  }

  /** Tokens for an id and calls waiting for it balance exactly. */
  ghost predicate Balanced(s: State, id: string) {
    Tokens(s, id) == Total(s.client.calls, WaitsFor(id))
  }

  lemma NotTiedNoTokens(s: State, id: string)
    requires Healthy(s) && Balanced(s, id) && !s.client.phase.Tied?
    ensures Tokens(s, id) == 0
  {
  }

  /** The head of the wire to the client accepts an id only for a call that waits for it. */
  lemma TokenFindsItsCall(s: State)
    requires Healthy(s) && s.client.reading && s.toClient.frames != []
    requires s.toClient.frames[0].env.payload.StreamAccepted?
    requires Balanced(s, s.toClient.frames[0].env.payload.streamId)
    ensures var id := s.toClient.frames[0].env.payload.streamId;
            id in s.client.pending && WaitsIn(s, s.client.pending[id])
  {
    var id := s.toClient.frames[0].env.payload.streamId;
    TotalAtLeast(s.toClient.frames, 0, AcceptOnWire(id));
    var i := TotalWitness(s.client.calls, WaitsFor(id));
  }

  lemma WaitsStepClient(s: State, l: ClientStep, id: string)
    requires ClientEnabled(s, l) && Healthy(s) && OnceEach(s.client)
    requires forall other :: Balanced(s, other)
    ensures Total(NextClient(s, l).client.calls, WaitsFor(id)) + Spent(s, AtClient(l), id) ==
              Total(s.client.calls, WaitsFor(id)) + Made(s, AtClient(l), id)
  {
    var calls, after := s.client.calls, NextClient(s, l).client.calls;
    match l {
      case ReadReply =>
        NotTiedNoTokens(s, id);
        TotalPop(s.toClient.frames, AcceptOnWire(id));
      case SendOpen(i, _, _) => TotalUpdate(calls, i, after[i], WaitsFor(id));
      case Resume(i) => TotalUpdate(calls, i, after[i], WaitsFor(id));
      case ClientRead(at) => WaitsStepRead(s, at, id);
      case _ =>
    }
  }

  lemma WaitsStepRead(s: State, at: Instants, id: string)
    requires ClientEnabled(s, ClientRead(at)) && Healthy(s)
    requires forall other :: Balanced(s, other)
    ensures Total(ClientReads(s.client, s.toClient.frames[0], at).calls, WaitsFor(id)) +
        AcceptOnWire(id)(s.toClient.frames[0]) ==
              Total(s.client.calls, WaitsFor(id))
  {
    var env := s.toClient.frames[0].env;
    if env.payload.StreamAccepted? {
      TokenFindsItsCall(s);
      var i := s.client.pending[env.payload.streamId];
      TotalUpdate(s.client.calls, i, ClientReads(s.client, s.toClient.frames[0], at).calls[i], WaitsFor(id));
    }
  }

  lemma OnceEachClient(s: State, l: ClientStep)
    requires ClientEnabled(s, l) && Healthy(s) && OnceEach(s.client)
    requires forall other :: Balanced(s, other)
    ensures OnceEach(NextClient(s, l).client)
  {
    if l.ClientRead? && s.toClient.frames[0].env.payload.StreamAccepted? {
      TokenFindsItsCall(s);
    }
  }

  lemma WaitsStepInput(setup: Setup, s: State, l: Input, id: string)
    requires InputEnabled(s, l) && Healthy(s) && OnceEach(s.client) && Polite(s, App(l))
    ensures Total(NextInput(setup, s, l).client.calls, WaitsFor(id)) == Total(s.client.calls, WaitsFor(id))
    ensures Made(s, App(l), id) == 0
    ensures OnceEach(NextInput(setup, s, l).client)
  {
    if l.StartCall? {
      assert l.streamId !in s.client.pending;
      TotalPush(s.client.calls, Call(l.streamId, l.topic, l.config, Sending, Empty), WaitsFor(id));
    }
  }

  lemma WaitsStepStream(setup: Setup, s: State, l: StreamStep, id: string)
    requires StreamEnabled(s, l) && OnceEach(s.client)
    ensures Total(NextStream(setup, s, l).client.calls, WaitsFor(id)) == Total(s.client.calls, WaitsFor(id))
    ensures OnceEach(NextStream(setup, s, l).client)
  {
    if l.OpenUni? || l.SendConfig? {
      TotalUpdate(s.client.calls, l.call, NextStream(setup, s, l).client.calls[l.call], WaitsFor(id));
    }
  }

  lemma WaitsStepHub(setup: Setup, s: State, l: HubStep, id: string)
    requires HubEnabled(s, l) && Healthy(s) && Balanced(s, id)
    ensures NextHub(setup, s, l).client == s.client && Spent(s, AtHub(l), id) == 0
  {
    if l.HandleTie? {
      NotTiedNoTokens(s, id);
      TotalPop(s.toHub.frames, OpenOnWire(id));
    }
  }

  lemma WaitsStep(setup: Setup, s: State, l: Label, id: string)
    requires Enabled(s, l) && Healthy(s) && OnceEach(s.client) && Polite(s, l)
    requires forall other :: Balanced(s, other)
    ensures OnceEach(Next(setup, s, l).client)
    ensures Total(Next(setup, s, l).client.calls, WaitsFor(id)) + Spent(s, l, id) ==
              Total(s.client.calls, WaitsFor(id)) + Made(s, l, id)
  {
    match l {
      case App(i) => WaitsStepInput(setup, s, i, id);
      case AtClient(i) =>
        WaitsStepClient(s, i, id);
        OnceEachClient(s, i);
      case AtHub(i) => WaitsStepHub(setup, s, i, id);
      case OnStream(i) => WaitsStepStream(setup, s, i, id);
    }
  }

  lemma BalancedStep(setup: Setup, s: State, l: Label)
    requires Enabled(s, l) && Healthy(s) && OnceEach(s.client) && Polite(s, l)
    requires forall id :: Balanced(s, id)
    ensures OnceEach(Next(setup, s, l).client)
    ensures forall id :: Balanced(Next(setup, s, l), id)
  {
    var t := Next(setup, s, l);
    WaitsStep(setup, s, l, "");
    forall id ensures Balanced(t, id) {
      assert Balanced(s, id);
      TokensConserved(setup, s, l, id);
      WaitsStep(setup, s, l, id);
    }
  }

  lemma {:induction false} DisciplinedIsFaultFree(setup: Setup, run: seq<Label>)
    requires Disciplined(setup, run)
    ensures FaultFree(run)
  {
    if run != [] {
      DisciplinedIsFaultFree(setup, run[..|run| - 1]);
      assert !run[|run| - 1].Wrong?;
    }
  }

  lemma {:induction false} BalancedRun(setup: Setup, run: seq<Label>)
    requires Runs(setup, Initial, run) && Disciplined(setup, run)
    ensures OnceEach(After(setup, Initial, run).client)
    ensures forall id :: Balanced(After(setup, Initial, run), id)
  {
    if run == [] {
      assert After(setup, Initial, run) == Initial;
    } else {
      var front, l := run[..|run| - 1], run[|run| - 1];
      BalancedRun(setup, front);
      DisciplinedIsFaultFree(setup, front);
      HealthyRun(setup, front);
      var before := After(setup, Initial, front);
      assert Enabled(before, l) && Polite(before, l);
      BalancedStep(setup, before, l);
      assert After(setup, Initial, run) == Next(setup, before, l);
    }
  }

  lemma {:induction false} WaitsAlone(calls: seq<Call>, i: nat)
    requires i < |calls| && calls[i].pc.Awaiting? && calls[i].slot.Empty?
    requires forall j, k :: 0 <= j < k < |calls| ==> calls[j].streamId != calls[k].streamId
    ensures Total(calls, WaitsFor(calls[i].streamId)) == 1
  {
    var front, id := calls[..|calls| - 1], calls[i].streamId;
    if i < |calls| - 1 {
      WaitsAlone(front, i);
    } else {
      TotalZero(front, WaitsFor(id));
    }
  }

  /**
   * With each stream id used once: a waiting call has its pending entry and exactly one token in flight, every token
   * in flight belongs to a waiting call, and a token that reaches the client finds the entry there.
   */
  lemma {:induction false} OneTokenEach(setup: Setup, run: seq<Label>)
    requires Runs(setup, Initial, run) && Disciplined(setup, run)
    ensures var s := After(setup, Initial, run);
            && (forall i :: 0 <= i < |s.client.calls| && WaitsIn(s, i) ==>
                  && Tokens(s, s.client.calls[i].streamId) == 1
                  && s.client.calls[i].streamId in s.client.pending
                  && s.client.pending[s.client.calls[i].streamId] == i)
            && (forall id :: Tokens(s, id) > 0 ==>
                  id in s.client.pending && WaitsIn(s, s.client.pending[id]) && Tokens(s, id) == 1)
  {
    var s := After(setup, Initial, run);
    BalancedRun(setup, run);
    DisciplinedIsFaultFree(setup, run);
    HealthyRun(setup, run);
    forall i | 0 <= i < |s.client.calls| && WaitsIn(s, i) ensures Tokens(s, s.client.calls[i].streamId) == 1 {
      WaitsAlone(s.client.calls, i);
      assert Balanced(s, s.client.calls[i].streamId);
    }
    forall id | Tokens(s, id) > 0
      ensures id in s.client.pending && WaitsIn(s, s.client.pending[id]) && Tokens(s, id) == 1
    {
      assert Balanced(s, id);
      var i := TotalWitness(s.client.calls, WaitsFor(id));
      assert WaitsIn(s, i);
    }
  }

  /** And at rest every call has its stream. */
  lemma {:induction false} EveryCallGetsItsStream(setup: Setup, run: seq<Label>)
    requires Runs(setup, Initial, run) && Disciplined(setup, run) && AtRest(After(setup, Initial, run))
    ensures var calls := After(setup, Initial, run).client.calls;
            forall i :: 0 <= i < |calls| ==> calls[i].pc.Streaming?
  {
    BalancedRun(setup, run);
    DisciplinedIsFaultFree(setup, run);
    RestMeansDone(setup, run);
  }
}
