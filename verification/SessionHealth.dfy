/** The shape of a run without faults: every task that should be alive is, and every one-shot sender has its place. */
module SessionHealth {
  import opened Messages
  import opened Sequences
  import opened Session
  import opened SessionStreams

  ghost predicate AllParsed(frames: seq<Delivery>) {
    forall k :: 0 <= k < |frames| ==> frames[k].Parsed?
  }

  ghost predicate OnlyRejects(frames: seq<Delivery>) {
    forall k :: 0 <= k < |frames| ==> frames[k].Parsed? && frames[k].env.payload.Reject?
  }

  /** An empty one-shot slot is one whose sender sits in the pending map under its own stream id. */
  ghost predicate SlotsOwned(c: Client) {
    && (forall id :: id in c.pending ==>
          && c.pending[id] < |c.calls|
          && c.calls[c.pending[id]].streamId == id
          && c.calls[c.pending[id]].slot.Empty?)
    && (forall i :: 0 <= i < |c.calls| && c.calls[i].slot.Empty? ==>
          c.calls[i].streamId in c.pending && c.pending[c.calls[i].streamId] == i)
  }

  /** A call gets past waiting only by its slot, and fails only when a later call took its entry. */
  predicate CallTold(call: Call) {
    match call.pc
    case Sending => true
    case Awaiting => true
    case Failed => call.slot.Dropped?
    case _ => call.slot.Fulfilled?
  }

  ghost predicate CallsTold(calls: seq<Call>) {
    forall i :: 0 <= i < |calls| ==> CallTold(calls[i])
  }

  ghost predicate ClientHealthy(c: Client) {
    && c.writing
    && (c.phase.Tied? <==> c.reading)
    && (!c.phase.Tied? ==> c.calls == [] && c.queue == [])
    && SlotsOwned(c)
    && CallsTold(c.calls)
  }

  predicate HubHealthy(h: Hub) {
    && h.writing
    && match h.main
       case AwaitingTie => h.reader.NotSpawned? && h.log == [] && h.queue == []
       case Welcoming(_, _) => h.reader.NotSpawned? && h.log == [] && h.queue == [] && h.allotted.Some?
       case Announcing(_, _) => h.reader.NotSpawned? && h.log == [] && h.queue == [] && h.allotted.Some?
       case MakingDirectory => h.reader.NotSpawned? && h.log != [] && h.allotted.Some?
       case Accepting => (h.reader.Polling? || h.reader.Replying?) && h.log != [] && h.allotted.Some?
       case Finished(_) => h.reader.NotSpawned? && h.log == [] && h.queue == []
       case _ => false
  }

  ghost predicate WiresHealthy(s: State) {
    && s.toHub.open && AllParsed(s.toHub.frames)
    && s.toClient.open && AllParsed(s.toClient.frames)
    && match s.hub.main
       case AwaitingTie => s.toClient.frames == [] && !s.client.phase.Tied?
       case Welcoming(_, _) => s.toClient.frames == [] && !s.client.phase.Tied?
       case Finished(_) => OnlyRejects(s.toClient.frames) && !s.client.phase.Tied?
       case _ => true
  }

  ghost predicate BacklogHealthy(s: State) {
    && (s.unis != [] ==> s.client.phase.Tied?)
    && (forall k :: 0 <= k < |s.hub.backlog| ==> s.hub.backlog[k] < |s.unis|)
    && (!s.hub.main.Accepting? ==> forall u :: 0 <= u < |s.unis| ==> s.unis[u].task.Unaccepted?)
    && (forall u :: 0 <= u < |s.unis| ==> Intact(s.unis[u]) || s.unis[u].task.Ended?)
    && (forall u :: 0 <= u < |s.unis| && s.unis[u].task.Unaccepted? ==> u in s.hub.backlog)
  }

  /** Nobody refuses a stream before its configuration is sent. */
  ghost predicate ConfiguringOpen(s: State) {
    forall i :: 0 <= i < |s.client.calls| && s.client.calls[i].pc.Configuring? ==>
      s.client.calls[i].pc.stream < |s.unis| && s.unis[s.client.calls[i].pc.stream].open
  }

  ghost predicate Healthy(s: State) {
    ClientHealthy(s.client) && HubHealthy(s.hub) && WiresHealthy(s) && BacklogHealthy(s) && ConfiguringOpen(s)
  }

  lemma RegisterHealthy(c: Client, streamId: string, topic: string, config: string)
    requires ClientHealthy(c) && c.phase.Tied?
    ensures ClientHealthy(Register(c, streamId, topic, config))
  {
  }

  lemma ReadsHealthy(c: Client, d: Delivery, at: Instants)
    requires ClientHealthy(c) && c.phase.Tied? && d.Parsed?
    ensures ClientHealthy(ClientReads(c, d, at)) && ClientReads(c, d, at).phase == c.phase
  {
  }

  lemma SetCallHealthy(c: Client, i: nat, pc: CallPc)
    requires ClientHealthy(c) && i < |c.calls| && CallTold(c.calls[i].(pc := pc))
    ensures ClientHealthy(SetCall(c, i, pc))
  {
  }

  lemma InputHealthy(setup: Setup, s: State, l: Input)
    requires InputEnabled(s, l) && Healthy(s) && StreamsSafe(s)
    ensures Healthy(NextInput(setup, s, l))
  {
    if l.StartCall? {
      RegisterHealthy(s.client, l.streamId, l.topic, l.config);
    } else if l.CloseStream? {
      CloseHealthy(setup, s, l.call);
    }
  }

  lemma CloseHealthy(setup: Setup, s: State, i: nat)
    requires InputEnabled(s, CloseStream(i)) && Healthy(s) && StreamsSafe(s)
    ensures Healthy(NextInput(setup, s, CloseStream(i)))
  {
    CloseKeepsOpen(setup, s, i);
  }

  /** A call finishes its own stream, and not one that another is about to configure. */
  lemma CloseKeepsOpen(setup: Setup, s: State, i: nat)
    requires InputEnabled(s, CloseStream(i)) && ConfiguringOpen(s) && StreamsSafe(s)
    ensures ConfiguringOpen(NextInput(setup, s, CloseStream(i)))
  {
    assert CallSafe(s.unis, i, s.client.calls[i].pc);
    forall j | 0 <= j < |s.client.calls| && s.client.calls[j].pc.Configuring?
      ensures s.client.calls[j].pc.stream != s.client.calls[i].pc.stream
    {
      assert CallSafe(s.unis, j, s.client.calls[j].pc);
    }
  }

  lemma ClientStepHealthy(s: State, l: ClientStep)
    requires ClientEnabled(s, l) && Healthy(s)
    ensures Healthy(NextClient(s, l))
  {
    ClientStepClient(s, l);
    assert BacklogHealthy(NextClient(s, l)) && WiresHealthy(NextClient(s, l));
  }

  lemma ClientStepClient(s: State, l: ClientStep)
    requires ClientEnabled(s, l) && Healthy(s)
    ensures ClientHealthy(NextClient(s, l).client) && ConfiguringOpen(NextClient(s, l))
    ensures NextClient(s, l).hub == s.hub && NextClient(s, l).unis == s.unis
  {
    match l {
      case SendOpen(i, _, _) => SetCallHealthy(s.client, i, Awaiting);
      case Resume(i) => SetCallHealthy(s.client, i, if s.client.calls[i].slot.Fulfilled? then Opening else Failed);
      case ClientRead(at) => ReadsHealthy(s.client, s.toClient.frames[0], at);
      case _ =>
    }
  }

  lemma HubStepHub(setup: Setup, s: State, l: HubStep)
    requires HubEnabled(s, l) && HubHealthy(s.hub)
    requires AllParsed(s.toHub.frames) && s.toHub.open && s.toClient.open
    ensures HubHealthy(NextHub(setup, s, l).hub)
  {
  }

  lemma HubStepWires(setup: Setup, s: State, l: HubStep)
    requires HubEnabled(s, l) && HubHealthy(s.hub) && WiresHealthy(s)
    ensures WiresHealthy(NextHub(setup, s, l))
  {
  }

  lemma HubStepHealthy(setup: Setup, s: State, l: HubStep)
    requires HubEnabled(s, l) && Healthy(s)
    ensures Healthy(NextHub(setup, s, l))
  {
    HubStepHub(setup, s, l);
    HubStepWires(setup, s, l);
    var t := NextHub(setup, s, l);
    assert t.client == s.client && t.unis == s.unis && t.hub.backlog == s.hub.backlog;
  }

  lemma AcceptHealthy(setup: Setup, s: State)
    requires StreamEnabled(s, AcceptUni) && Healthy(s)
    ensures BacklogHealthy(NextStream(setup, s, AcceptUni))
  {
    var t := NextStream(setup, s, AcceptUni);
    forall u | 0 <= u < |t.unis| && t.unis[u].task.Unaccepted? ensures u in t.hub.backlog {
      assert u in s.hub.backlog && u != s.hub.backlog[0];
    }
  }

  lemma ConfiguringStaysOpen(setup: Setup, s: State, l: StreamStep)
    requires StreamEnabled(s, l) && ConfiguringOpen(s) && StreamsSafe(s)
    ensures ConfiguringOpen(NextStream(setup, s, l))
  {
    if l.TakeConfig? || l.CommitFrame? {
      forall i | 0 <= i < |s.client.calls| && s.client.calls[i].pc.Configuring?
          ensures s.client.calls[i].pc.stream != l.stream {
        assert CallSafe(s.unis, i, s.client.calls[i].pc);
      }
    }
  }

  lemma StreamStepHealthy(setup: Setup, s: State, l: StreamStep)
    requires StreamEnabled(s, l) && Healthy(s) && StreamsSafe(s)
    ensures Healthy(NextStream(setup, s, l))
  {
    ConfiguringStaysOpen(setup, s, l);
    match l {
      case OpenUni(i) => SetCallHealthy(s.client, i, Configuring(|s.unis|));
      case SendConfig(i) => SetCallHealthy(s.client, i, Streaming(s.client.calls[i].pc.stream));
      case AcceptUni => AcceptHealthy(setup, s);
      case _ =>
    }
  }

  ghost predicate FaultFree(run: seq<Label>) {
    forall k :: 0 <= k < |run| ==> !run[k].Wrong?
  }

  lemma {:induction false} HealthyRun(setup: Setup, run: seq<Label>)
    requires Runs(setup, Initial, run) && FaultFree(run)
    ensures Healthy(After(setup, Initial, run))
  {
    if run != [] {
      var before, l := After(setup, Initial, run[..|run| - 1]), run[|run| - 1];
      HealthyRun(setup, run[..|run| - 1]);
      StreamsSafeRun(setup, run[..|run| - 1]);
      match l {
        case App(i) => InputHealthy(setup, before, i);
        case AtClient(i) => ClientStepHealthy(before, i);
        case AtHub(i) => HubStepHealthy(setup, before, i);
        case OnStream(i) => StreamStepHealthy(setup, before, i);
      }
    }
  }
}
