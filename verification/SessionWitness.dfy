/** Runs that show where the guarantees end: each is a concrete schedule from the initial state. */
module SessionWitness {
  import opened Messages
  import opened Sequences
  import opened Session
  import opened Admission
  import SessionGating
  import SessionHealth
  import FrameHeaders
  import Identifiers

  ghost predicate Reached(setup: Setup, run: seq<Label>, s: State) {
    Runs(setup, Initial, run) && After(setup, Initial, run) == s
  }

  lemma Take(setup: Setup, run: seq<Label>, s: State, l: Label, next: State) returns (more: seq<Label>)
    requires Reached(setup, run, s) && Enabled(s, l) && Next(setup, s, l) == next
    ensures more == run + [l] && Reached(setup, more, next)
  {
    more := run + [l];
    assert more[..|run|] == run;
  }

  ghost predicate Admits(setup: Setup) {
    Verdict(setup.config, TieEnvelope(setup.request, setup.config.remoteNodeId, 0).payload).None?
  }

  function Identity(setup: Setup): Allotment {
    Allotment(Identifiers.ConnectionId(0), Identifiers.AssignedRopeId(setup.request.knotId, setup.request.ropeId))
  }

  function Greeting(setup: Setup): Envelope {
    WelcomeEnvelope("0_0", 0, Identity(setup).connectionId, Identity(setup).ropeId, setup.config.metadata)
  }

  function Connected(setup: Setup): HubEvent {
    RopeConnected(Identity(setup).ropeId, setup.request.knotId, setup.config.remoteNodeId, setup.request.capabilities)
  }

  /** The session once the handshake is over and all tasks run. */
  function Established(setup: Setup): State {
    State(
      Client(Tied(Identity(setup).connectionId, Identity(setup).ropeId, setup.config.metadata), [], true, true, map[],
          [], []),
      Hub(Accepting, Polling, Some(Identity(setup)), [], true, false, NoWinner, [Connected(setup)], [], [], [], [],
          [Parsed(Greeting(setup))]),
      Wire([], true),
      Wire([], true),
      [])
  }

  function Asking(setup: Setup): State {
    Initial.(client := Initial.client.(phase := AwaitingReply),
             toHub := Wire([Parsed(TieEnvelope(setup.request, setup.config.remoteNodeId, 0))], true))
  }

  function Approved(setup: Setup): State {
    Initial.(client := Asking(setup).client,
             hub := Initial.hub.(main := Welcoming(setup.request.knotId, setup.request.capabilities),
                 allotted := Some(Identity(setup))))
  }

  function Welcomed(setup: Setup): State {
    var hub := Approved(setup).hub;
    Approved(setup).(
      hub := hub.(main := Announcing(setup.request.knotId, setup.request.capabilities),
          sent := [Parsed(Greeting(setup))]),
      toClient := Wire([Parsed(Greeting(setup))], true))
  }

  lemma AskAndWelcome(setup: Setup) returns (run: seq<Label>)
    requires Admits(setup)
    ensures run == [App(TieTheKnot(0)), AtHub(HandleTie(0, 0)), AtHub(SendWelcome("0_0", 0))]
    ensures Reached(setup, run, Welcomed(setup))
  {
    run := Take(setup, [], Initial, App(TieTheKnot(0)), Asking(setup));
    run := Take(setup, run, Asking(setup), AtHub(HandleTie(0, 0)), Approved(setup));
    run := Take(setup, run, Approved(setup), AtHub(SendWelcome("0_0", 0)), Welcomed(setup));
  }

  lemma HandshakeSucceeds(setup: Setup) returns (run: seq<Label>)
    requires Admits(setup)
    ensures run == [App(TieTheKnot(0)), AtHub(HandleTie(0, 0)), AtHub(SendWelcome("0_0", 0)),
                    AtClient(ReadReply), AtHub(Announce), AtHub(MakeDirectory)]
    ensures Reached(setup, run, Established(setup))
  {
    run := AskAndWelcome(setup);
    var tied := Welcomed(setup).(client := Established(setup).client, toClient := Wire([], true));
    var announced := tied.(hub := tied.hub.(main := MakingDirectory, log := [Connected(setup)]));
    run := Take(setup, run, Welcomed(setup), AtClient(ReadReply), tied);
    run := Take(setup, run, tied, AtHub(Announce), announced);
    run := Take(setup, run, announced, AtHub(MakeDirectory), Established(setup));
  }

  // ---- a frame without a StreamOpened ----

  function Forged(id: string): Envelope {
    Envelope("", 0, "host", "", false, StreamAccepted(id))
  }

  /** The only acceptance the hub's application sends itself is the one for `id` at position `at`. */
  ghost predicate InjectsOnly(run: seq<Label>, at: nat, id: string) {
    at < |run| && run[at] == App(HubSend(Forged(id))) && forall k :: 0 <= k < |run| && Injects(run[k]) ==> k == at
  }

  lemma {:induction false} ForgeQueued(setup: Setup, id: string) returns (run: seq<Label>, s: State)
    requires Admits(setup)
    ensures Reached(setup, run, s) && SessionHealth.FaultFree(run) && InjectsOnly(run, 7, id)
    ensures s == Established(setup).(
                   client := Established(setup).client.(calls := [Call(id, "", "", Sending, Empty)],
                       pending := map[id := 0]),
                   hub := Established(setup).hub.(queue := [Forged(id)], enqueued := [Forged(id)], byReader := [false]))
  {
    var e := Established(setup);
    run := HandshakeSucceeds(setup);
    var called := e.(client := e.client.(calls := [Call(id, "", "", Sending, Empty)], pending := map[id := 0]));
    s := called.(hub := e.hub.(queue := [Forged(id)], enqueued := [Forged(id)], byReader := [false]));
    run := Take(setup, run, e, App(StartCall(id, "", "")), called);
    run := Take(setup, run, called, App(HubSend(Forged(id))), s);
  }

  /** The forged acceptance on its way to the client. */
  function ForgedOnWire(setup: Setup, id: string): State {
    var e := Established(setup);
    e.(client := e.client.(calls := [Call(id, "", "", Sending, Empty)], pending := map[id := 0]),
       hub := e.hub.(enqueued := [Forged(id)], byReader := [false], sent := e.hub.sent + [Parsed(Forged(id))]),
       toClient := Wire([Parsed(Forged(id))], true))
  }

  lemma {:induction false} ForgeSent(setup: Setup, id: string) returns (run: seq<Label>)
    requires Admits(setup)
    ensures Reached(setup, run, ForgedOnWire(setup, id)) && SessionHealth.FaultFree(run) && InjectsOnly(run, 7, id)
  {
    var forged;
    run, forged := ForgeQueued(setup, id);
    assert forged.hub.queue[1..] == [];
    run := Take(setup, run, forged, AtHub(HubForward), ForgedOnWire(setup, id));
  }

  lemma {:induction false} ForgeAccept(setup: Setup, id: string) returns (run: seq<Label>, s: State)
    requires Admits(setup)
    ensures Reached(setup, run, s) && SessionHealth.FaultFree(run) && InjectsOnly(run, 7, id)
    ensures s.client.calls == [Told(id, Sending)] && s.client.phase.Tied? && s.client.writing
    ensures s.hub.log == [Connected(setup)] && s.hub.main.Accepting? && s.hub.backlog == [] && s.hub.allotted.Some?
        && s.unis == []
  {
    var onWire := ForgedOnWire(setup, id);
    run := ForgeSent(setup, id);
    s := onWire.(client := ForgeTold(onWire.client, id), toClient := Wire([], true));
    ForgeRead(onWire.client, id);
    assert onWire.toClient.frames[1..] == [];
    run := Take(setup, run, onWire, AtClient(ClientRead(Instants(0, 0))), s);
  }

  function ForgeTold(c: Client, id: string): Client {
    c.(calls := [Told(id, Sending)], pending := map[], events := c.events + [Forged(id)])
  }

  lemma ForgeRead(c: Client, id: string)
    requires c.calls == [Call(id, "", "", Sending, Empty)] && c.pending == map[id := 0]
    ensures ClientReads(c, Parsed(Forged(id)), Instants(0, 0)) == ForgeTold(c, id)
  {
    assert c.pending - {id} == map[];
  }

  /** A call that has been told, and the stream it opens. */
  function Told(id: string, pc: CallPc): Call {
    Call(id, "", "", pc, Fulfilled)
  }

  function Unwritten(items: seq<Item>, task: TaskPc): Uni {
    Uni(0, items, true, false, task, [], [], [])
  }

  function Recording(setup: Setup, id: string): TaskPc {
    Reading(id, FileOf(setup, ""))
  }

  lemma CallResumes(setup: Setup, run: seq<Label>, s: State, id: string) returns (more: seq<Label>, t: State)
    requires Reached(setup, run, s) && SessionHealth.FaultFree(run)
    requires s.client.calls == [Told(id, Sending)] && s.client.phase.Tied? && s.client.writing
    ensures Reached(setup, more, t) && SessionHealth.FaultFree(more)
    ensures t.client.calls == [Told(id, Opening)] && t.hub == s.hub && t.unis == s.unis
    ensures run <= more && forall k :: |run| <= k < |more| ==> !Injects(more[k])
  {
    var c := s.client;
    var sent := s.(client := SetCall(c, 0, Awaiting).(queue := c.queue + [OpenEnvelope(c, c.calls[0], "", 0)]));
    t := sent.(client := SetCall(sent.client, 0, Opening));
    more := Take(setup, run, s, AtClient(SendOpen(0, "", 0)), sent);
    more := Take(setup, more, sent, AtClient(Resume(0)), t);
  }

  /** From a fulfilled slot the client opens its stream and the hub takes it, whatever the hub has reported. */
  lemma OpensStream(setup: Setup, run: seq<Label>, s: State, id: string) returns (more: seq<Label>, t: State)
    requires Reached(setup, run, s) && SessionHealth.FaultFree(run)
    requires s.client.calls == [Told(id, Opening)]
    requires s.hub.backlog == [] && s.unis == []
    ensures Reached(setup, more, t) && SessionHealth.FaultFree(more)
    ensures t.client.calls == [Told(id, Configuring(0))] && t.unis == [Unwritten([], Unaccepted)]
    ensures t.hub == s.hub.(backlog := [0])
    ensures run <= more && forall k :: |run| <= k < |more| ==> !Injects(more[k])
  {
    t := s.(client := SetCall(s.client, 0, Configuring(0)), hub := s.hub.(backlog := [0]),
        unis := [Unwritten([], Unaccepted)]);
    more := Take(setup, run, s, OnStream(OpenUni(0)), t);
  }

  /** The configuration is sent and the stream accepted. */
  lemma AcceptsStream(setup: Setup, run: seq<Label>, s: State, id: string) returns (more: seq<Label>, t: State)
    requires Reached(setup, run, s) && SessionHealth.FaultFree(run)
    requires s.client.calls == [Told(id, Configuring(0))] && s.unis == [Unwritten([], Unaccepted)]
    requires s.hub.main.Accepting? && s.hub.backlog == [0]
    ensures Reached(setup, more, t) && SessionHealth.FaultFree(more)
    ensures t.client.calls == [Told(id, Streaming(0))]
    ensures t.unis == [Unwritten([Config(id, "")], AwaitingConfig)] && t.hub == s.hub.(backlog := [])
    ensures run <= more && forall k :: |run| <= k < |more| ==> !Injects(more[k])
  {
    var configured := s.(client := SetCall(s.client, 0, Streaming(0)),
        unis := [Unwritten([Config(id, "")], Unaccepted)]);
    t := configured.(hub := s.hub.(backlog := []), unis := [Unwritten([Config(id, "")], AwaitingConfig)]);
    assert [] + [Config(id, "")] == [Config(id, "")];
    more := Take(setup, run, s, OnStream(SendConfig(0)), configured);
    more := Take(setup, more, configured, OnStream(AcceptUni), t);
  }

  lemma ConfiguresStream(setup: Setup, run: seq<Label>, s: State, id: string) returns (more: seq<Label>, t: State)
    requires Reached(setup, run, s) && SessionHealth.FaultFree(run)
    requires s.client.calls == [Told(id, Configuring(0))] && s.unis == [Unwritten([], Unaccepted)]
    requires s.hub.main.Accepting? && s.hub.backlog == [0]
    ensures Reached(setup, more, t) && SessionHealth.FaultFree(more)
    ensures t.client.calls == [Told(id, Streaming(0))] && t.unis == [Unwritten([], Recording(setup, id))]
    ensures t.hub == s.hub.(backlog := [])
    ensures run <= more && forall k :: |run| <= k < |more| ==> !Injects(more[k])
  {
    var accepted: State;
    more, accepted := AcceptsStream(setup, run, s, id);
    t := accepted.(unis := [Unwritten([], Recording(setup, id))]);
    assert Configured(setup, accepted.unis, accepted.unis[0]) == t.unis[0] by {
      assert [Config(id, "")][1..] == [];
    }
    more := Take(setup, more, accepted, OnStream(TakeConfig(0)), t);
  }

  lemma ReportsFrame(setup: Setup, run: seq<Label>, s: State, id: string, frame: Recorded)
      returns (more: seq<Label>, t: State)
    requires Reached(setup, run, s)
    requires s.client.calls == [Told(id, Streaming(0))] && s.unis == [Unwritten([], Recording(setup, id))]
    requires s.hub.allotted.Some?
    ensures Reached(setup, more, t) && (SessionHealth.FaultFree(run) ==> SessionHealth.FaultFree(more))
    ensures t.hub == s.hub.(log := s.hub.log + [FrameReceived(s.hub.allotted.value.ropeId, id, frame)])
    ensures run <= more && forall k :: |run| <= k < |more| ==> !Injects(more[k])
  {
    var written := s.(unis := [Unwritten([Data(frame)], Recording(setup, id)).(written := [frame])]);
    var committed := s.(unis := [
      Unwritten([], Emitting(id, FileOf(setup, ""), frame)).(written := [frame], committed := [frame])]);
    var reported := Unwritten([], Recording(setup, id)).(written := [frame], committed := [frame], emitted := [frame]);
    t := s.(unis := [reported],
            hub := s.hub.(log := s.hub.log + [FrameReceived(s.hub.allotted.value.ropeId, id, frame)]));
    assert [] + [Data(frame)] == [Data(frame)] && [] + [frame] == [frame];
    more := Take(setup, run, s, App(WriteFrame(0, frame)), written);
    assert Committed(written.unis[0]) == committed.unis[0] by {
      assert [Data(frame)][1..] == [];
    }
    more := Take(setup, more, written, OnStream(CommitFrame(0)), committed);
    more := Take(setup, more, committed, OnStream(EmitFrame(0)), t);
  }

  /**
   * One injected StreamAccepted is enough to break the gate of its id, on a connection without faults: the hub itself
   * does not check that a stream it reads was ever accepted.
   */
  lemma {:induction false} InjectionBreaksTheGate(setup: Setup, id: string, frame: Recorded) returns (run: seq<Label>)
    requires Admits(setup)
    ensures Runs(setup, Initial, run) && SessionHealth.FaultFree(run) && InjectsOnly(run, 7, id)
    ensures !SessionGating.Gated(After(setup, Initial, run).hub.log, id)
  {
    var s: State;
    run, s := ForgeAccept(setup, id);
    run, s := CallResumes(setup, run, s, id);
    run, s := OpensStream(setup, run, s, id);
    run, s := ConfiguresStream(setup, run, s, id);
    run, s := ReportsFrame(setup, run, s, id, frame);
    assert s.hub.log[1].FrameReceived? && s.hub.log[1].streamId == id && !s.hub.log[0].StreamOpened?;
  }

  lemma {:induction false} InjectionsAreEarly(setup: Setup, run: seq<Label>, early: iset<string>)
    requires forall k :: 0 <= k < |run| && Injects(run[k]) ==> run[k].input.env.payload.streamId in early
    ensures SessionGating.EarlyOnly(setup, run, early)
  {
    if run != [] {
      InjectionsAreEarly(setup, run[..|run| - 1], early);
    }
  }

  /** The gate of `id` holds in every run in which the hub's application accepts early only ids of `early`. */
  ghost predicate GateHolds(setup: Setup, early: iset<string>, id: string) {
    forall run :: Runs(setup, Initial, run) && SessionGating.EarlyOnly(setup, run, early) ==>
      SessionGating.Gated(After(setup, Initial, run).hub.log, id)
  }

  /** Exactly the ids the hub's application never accepts early are gated. */
  lemma {:induction false} GatedUnlessEarly(setup: Setup, early: iset<string>, id: string)
    requires Admits(setup)
    ensures GateHolds(setup, early, id) <==> id !in early
  {
    if id in early {
      var run := InjectionBreaksTheGate(setup, id, SomeFrame());
      InjectionsAreEarly(setup, run, early);
    } else {
      forall run | Runs(setup, Initial, run) && SessionGating.EarlyOnly(setup, run, early)
        ensures SessionGating.Gated(After(setup, Initial, run).hub.log, id)
      {
        SessionGating.FramesComeAfterStreamOpened(setup, run, early, id);
      }
    }
  }

  function SomeFrame(): Recorded {
    Recorded(FrameHeaders.FrameHeader(FrameHeaders.MAGIC, 1, 0, 0, 0, 0, 0), [])
  }
}
