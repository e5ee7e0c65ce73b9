/** Calls of `create_stream` that nobody will wake: exactly when they wait for ever, and that there are such calls. */
module SessionStranded {
  import opened Messages
  import opened Sequences
  import opened Session
  import opened SessionWitness
  import SessionGating
  import SessionHealth
  import SessionProgress

  // ---- the client's reader has gone ----

  /** The client's reader has ended; call `i` for `id` has asked and not been answered. */
  ghost predicate Abandoned(c: Client, i: nat, id: string) {
    && c.phase.Tied? && !c.reading && SessionGating.PendingNamed(c)
    && i < |c.calls| && c.calls[i].streamId == id
  }

  /** It waits, and its sender sits in the pending map. */
  predicate Holds(c: Client, i: nat, id: string) {
    i < |c.calls| && c.calls[i].pc.Awaiting? && c.calls[i].slot.Empty? && id in c.pending && c.pending[id] == i
  }

  /** Its sender has been dropped: it can only fail. */
  predicate Superseded(c: Client, i: nat, id: string) {
    && i < |c.calls| && (c.calls[i].pc.Awaiting? || c.calls[i].pc.Failed?) && c.calls[i].slot.Dropped?
    && id in c.pending && c.pending[id] != i
  }

  predicate Starts(l: Label, id: string) {
    l.App? && l.input.StartCall? && l.input.streamId == id
  }

  ghost predicate Started(run: seq<Label>, id: string) {
    exists k :: 0 <= k < |run| && Starts(run[k], id)
  }

  lemma RegisterAbandoned(c: Client, i: nat, id: string, streamId: string, topic: string, config: string)
    requires Abandoned(c, i, id) && (Holds(c, i, id) || Superseded(c, i, id))
    ensures Abandoned(Register(c, streamId, topic, config), i, id)
    ensures Holds(Register(c, streamId, topic, config), i, id) <==> Holds(c, i, id) && streamId != id
    ensures Superseded(Register(c, streamId, topic, config), i, id) <==> Superseded(c, i, id) || streamId == id
  {
  }

  lemma AbandonedClient(s: State, l: ClientStep, i: nat, id: string)
    requires ClientEnabled(s, l) && Abandoned(s.client, i, id)
        && (Holds(s.client, i, id) || Superseded(s.client, i, id))
    ensures Abandoned(NextClient(s, l).client, i, id)
    ensures Holds(NextClient(s, l).client, i, id) <==> Holds(s.client, i, id)
    ensures Superseded(NextClient(s, l).client, i, id) <==> Superseded(s.client, i, id)
  {
  }

  lemma AbandonedStream(setup: Setup, s: State, l: StreamStep, i: nat, id: string)
    requires StreamEnabled(s, l) && Abandoned(s.client, i, id)
        && (Holds(s.client, i, id) || Superseded(s.client, i, id))
    ensures Abandoned(NextStream(setup, s, l).client, i, id)
    ensures Holds(NextStream(setup, s, l).client, i, id) <==> Holds(s.client, i, id)
    ensures Superseded(NextStream(setup, s, l).client, i, id) <==> Superseded(s.client, i, id)
  {
  }

  lemma AbandonedFault(s: State, l: Fault, i: nat, id: string)
    requires FaultEnabled(s, l) && Abandoned(s.client, i, id) && (Holds(s.client, i, id) || Superseded(s.client, i, id))
    ensures Abandoned(NextFault(s, l).client, i, id)
    ensures Holds(NextFault(s, l).client, i, id) <==> Holds(s.client, i, id)
    ensures Superseded(NextFault(s, l).client, i, id) <==> Superseded(s.client, i, id)
  {
  }

  lemma AbandonedStep(setup: Setup, s: State, l: Label, i: nat, id: string)
    requires Enabled(s, l) && Abandoned(s.client, i, id) && (Holds(s.client, i, id) || Superseded(s.client, i, id))
    ensures Abandoned(Next(setup, s, l).client, i, id)
    ensures Holds(Next(setup, s, l).client, i, id) <==> Holds(s.client, i, id) && !Starts(l, id)
    ensures Superseded(Next(setup, s, l).client, i, id) <==> Superseded(s.client, i, id) || Starts(l, id)
  {
    match l {
      case App(input) =>
        if input.StartCall? {
          RegisterAbandoned(s.client, i, id, input.streamId, input.topic, input.config);
        }
      case AtClient(step) => AbandonedClient(s, step, i, id);
      case AtHub(step) => assert NextHub(setup, s, step).client == s.client;
      case OnStream(step) => AbandonedStream(setup, s, step, i, id);
      case Wrong(fault) => AbandonedFault(s, fault, i, id);
    }
  }

  /**
   * Once the client's reader has ended, a waiting call waits for ever, in every continuation, exactly as long as no
   * later call starts with its stream id; such a call takes its entry, and then it can only fail.
   */
  lemma {:induction false} WaitsForEver(setup: Setup, s: State, run: seq<Label>, i: nat, id: string)
    requires Abandoned(s.client, i, id) && Holds(s.client, i, id) && Runs(setup, s, run)
    ensures Abandoned(After(setup, s, run).client, i, id)
    ensures Holds(After(setup, s, run).client, i, id) <==> !Started(run, id)
    ensures Superseded(After(setup, s, run).client, i, id) <==> Started(run, id)
  {
    if run != [] {
      var front, l := run[..|run| - 1], run[|run| - 1];
      WaitsForEver(setup, s, front, i, id);
      AbandonedStep(setup, After(setup, s, front), l, i, id);
      StartedLast(run, id);
    }
  }

  /** The request for a stream of the first call. */
  function FirstRequest(setup: Setup, id: string): Envelope {
    Envelope("", 0, Identity(setup).ropeId, Identity(setup).connectionId, true, StreamOpen(id, "", ""))
  }

  lemma {:induction false} CallAsks(setup: Setup, id: string) returns (run: seq<Label>, s: State)
    requires Admits(setup)
    ensures Reached(setup, run, s) && SessionHealth.FaultFree(run) && forall k :: 0 <= k < |run| ==> !Injects(run[k])
    ensures s == Established(setup).(client := Established(setup).client.(
                   calls := [Call(id, "", "", Awaiting, Empty)], pending := map[id := 0],
                       queue := [FirstRequest(setup, id)]))
  {
    var e := Established(setup);
    run := HandshakeSucceeds(setup);
    var called := e.(client := e.client.(calls := [Call(id, "", "", Sending, Empty)], pending := map[id := 0]));
    s := called.(client := SetCall(called.client, 0, Awaiting).(queue := [FirstRequest(setup, id)]));
    run := Take(setup, run, e, App(StartCall(id, "", "")), called);
    run := Take(setup, run, called, AtClient(SendOpen(0, "", 0)), s);
  }

  /** Such a call there is, whatever its id: the wire to the client is cut while it waits. */
  lemma {:induction false} ACallIsAbandoned(setup: Setup, id: string) returns (run: seq<Label>)
    requires Admits(setup)
    ensures Runs(setup, Initial, run)
    ensures var c := After(setup, Initial, run).client; Abandoned(c, 0, id) && Holds(c, 0, id)
  {
    var s: State;
    run, s := CallAsks(setup, id);
    var cut := s.(toClient := Wire([], false));
    run := Take(setup, run, s, Wrong(CutToClient(0)), cut);
    run := Take(setup, run, cut, AtClient(ClientReadEnds), cut.(client := cut.client.(reading := false)));
  }

  lemma StartedLast(run: seq<Label>, id: string)
    requires run != []
    ensures Started(run, id) <==> Started(run[..|run| - 1], id) || Starts(run[|run| - 1], id)
  {
    var front := run[..|run| - 1];
    if Started(front, id) {
      var k :| 0 <= k < |front| && Starts(front[k], id);
      assert run[k] == front[k];
    }
    if Started(run, id) {
      var k :| 0 <= k < |run| && Starts(run[k], id);
      if k < |run| - 1 {
        assert front[k] == run[k];
      }
    }
  }

  // ---- the token is lost, the reader lives ----

  /** No request for the id is under way. */
  ghost predicate RequestsFree(s: State, id: string) {
    && (forall k :: 0 <= k < |s.client.queue| ==> !SessionProgress.IsOpen(s.client.queue[k], id))
    && (forall k :: 0 <= k < |s.toHub.frames| && s.toHub.frames[k].Parsed? ==>
        !SessionProgress.IsOpen(s.toHub.frames[k].env, id))
  }

  /** Nobody has asked for the id and not been heard. */
  ghost predicate NobodySends(c: Client, id: string) {
    forall j :: 0 <= j < |c.calls| && c.calls[j].streamId == id ==> !c.calls[j].pc.Sending?
  }

  /** Call `i` for `id` has asked, and neither its request nor an answer is under way any more. */
  ghost predicate Forgotten(s: State, i: nat, id: string) {
    && s.client.phase.Tied? && SessionGating.PendingNamed(s.client) && NobodySends(s.client, id)
    && SessionProgress.Tokens(s, id) == 0
    && i < |s.client.calls| && s.client.calls[i].streamId == id
  }

  lemma NoTokens(s: State, id: string)
    ensures SessionProgress.Tokens(s, id) == 0 <==> RequestsFree(s, id) && SessionGating.MessagesFree(s, id)
  {
    if RequestsFree(s, id) && SessionGating.MessagesFree(s, id) {
      TotalZero(s.client.queue, SessionProgress.OpenFor(id));
      TotalZero(s.toHub.frames, SessionProgress.OpenOnWire(id));
      TotalZero(s.hub.queue, SessionProgress.AcceptFor(id));
      TotalZero(s.toClient.frames, SessionProgress.AcceptOnWire(id));
    }
    if SessionProgress.Tokens(s, id) == 0 {
      forall k | 0 <= k < |s.client.queue| ensures !SessionProgress.IsOpen(s.client.queue[k], id) {
        TotalAtLeast(s.client.queue, k, SessionProgress.OpenFor(id));
      }
      forall k | 0 <= k < |s.toHub.frames| && s.toHub.frames[k].Parsed?
          ensures !SessionProgress.IsOpen(s.toHub.frames[k].env, id) {
        TotalAtLeast(s.toHub.frames, k, SessionProgress.OpenOnWire(id));
      }
      forall k | 0 <= k < |s.hub.queue| ensures SessionGating.EnvelopeFree(id, s.hub.queue[k]) {
        TotalAtLeast(s.hub.queue, k, SessionProgress.AcceptFor(id));
      }
      forall k | 0 <= k < |s.toClient.frames| ensures SessionGating.DeliveryFree(id, s.toClient.frames[k]) {
        TotalAtLeast(s.toClient.frames, k, SessionProgress.AcceptOnWire(id));
      }
    }
  }

  /** An application speaks the stream protocol for the id behind the library's back. */
  predicate Meddles(l: Label, id: string) {
    && l.App?
    && ((l.input.ClientSend? && SessionProgress.IsOpen(l.input.env, id))
        || (l.input.HubSend? && SessionProgress.IsAccept(l.input.env, id)))
  }

  /** Its sender has been dropped for good. */
  ghost predicate Lost(c: Client, i: nat) {
    && i < |c.calls| && c.calls[i].slot.Dropped? && (c.calls[i].pc.Awaiting? || c.calls[i].pc.Failed?)
    && forall id :: id in c.pending ==> c.pending[id] != i
  }

  /** No request or answer for the id is under way, and no call with it has still to ask. */
  ghost predicate Quiet(s: State, id: string) {
    RequestsFree(s, id) && SessionGating.MessagesFree(s, id) && NobodySends(s.client, id)
  }

  lemma InputQuiet(setup: Setup, s: State, l: Input, id: string)
    requires InputEnabled(s, l) && Quiet(s, id) && s.client.phase.Tied?
    requires !Meddles(App(l), id) && !Starts(App(l), id)
    ensures Quiet(NextInput(setup, s, l), id)
  {
  }

  lemma ClientQuiet(s: State, l: ClientStep, id: string)
    requires ClientEnabled(s, l) && Quiet(s, id) && s.client.phase.Tied?
    ensures Quiet(NextClient(s, l), id)
  {
  }

  lemma HubQuiet(setup: Setup, s: State, l: HubStep, id: string)
    requires HubEnabled(s, l) && Quiet(s, id)
    ensures Quiet(NextHub(setup, s, l), id)
  {
    SessionGating.HubAbsent(setup, s, l, id);
    assert NextHub(setup, s, l).client == s.client;
  }

  lemma StreamQuiet(setup: Setup, s: State, l: StreamStep, id: string)
    requires StreamEnabled(s, l) && Quiet(s, id)
    ensures Quiet(NextStream(setup, s, l), id)
  {
  }

  lemma FaultQuiet(s: State, l: Fault, id: string)
    requires FaultEnabled(s, l) && Quiet(s, id)
    ensures Quiet(NextFault(s, l), id)
  {
  }

  lemma QuietStep(setup: Setup, s: State, l: Label, id: string)
    requires Enabled(s, l) && Quiet(s, id) && s.client.phase.Tied?
    requires !Meddles(l, id) && !Starts(l, id)
    ensures Quiet(Next(setup, s, l), id)
  {
    match l
    case App(i) => InputQuiet(setup, s, i, id);
    case AtClient(i) => ClientQuiet(s, i, id);
    case AtHub(i) => HubQuiet(setup, s, i, id);
    case OnStream(i) => StreamQuiet(setup, s, i, id);
    case Wrong(i) => FaultQuiet(s, i, id);
  }

  lemma ClientHolds(s: State, l: ClientStep, i: nat, id: string)
    requires ClientEnabled(s, l) && SessionGating.PendingNamed(s.client) && SessionGating.MessagesFree(s, id)
    requires Holds(s.client, i, id) && s.client.calls[i].streamId == id
    ensures Holds(NextClient(s, l).client, i, id) && NextClient(s, l).client.calls[i].streamId == id
  {
  }

  lemma OtherHolds(setup: Setup, s: State, l: Label, i: nat, id: string)
    requires Enabled(s, l) && !l.AtClient? && !Starts(l, id) && SessionGating.PendingNamed(s.client)
    requires Holds(s.client, i, id) && s.client.calls[i].streamId == id
    ensures Holds(Next(setup, s, l).client, i, id) && Next(setup, s, l).client.calls[i].streamId == id
  {
    match l
    case App(input) => InputHolds(setup, s, input, i, id);
    case AtHub(h) => assert NextHub(setup, s, h).client == s.client;
    case OnStream(x) => StreamHolds(setup, s, x, i, id);
    case Wrong(f) => assert NextFault(s, f).client.pending == s.client.pending;
  }

  lemma InputHolds(setup: Setup, s: State, l: Input, i: nat, id: string)
    requires InputEnabled(s, l) && !Starts(App(l), id) && SessionGating.PendingNamed(s.client)
    requires Holds(s.client, i, id) && s.client.calls[i].streamId == id
    ensures Holds(NextInput(setup, s, l).client, i, id) && NextInput(setup, s, l).client.calls[i].streamId == id
  {
  }

  lemma StreamHolds(setup: Setup, s: State, l: StreamStep, i: nat, id: string)
    requires StreamEnabled(s, l) && Holds(s.client, i, id) && s.client.calls[i].streamId == id
    ensures Holds(NextStream(setup, s, l).client, i, id) && NextStream(setup, s, l).client.calls[i].streamId == id
  {
  }

  lemma StillTied(setup: Setup, s: State, l: Label)
    requires Enabled(s, l) && s.client.phase.Tied?
    ensures Next(setup, s, l).client.phase == s.client.phase
  {
    match l
    case App(_) =>
    case AtClient(_) =>
    case AtHub(h) => assert NextHub(setup, s, h).client == s.client;
    case OnStream(_) =>
    case Wrong(_) =>
  }

  lemma ForgottenStep(setup: Setup, s: State, l: Label, i: nat, id: string)
    requires Enabled(s, l) && Forgotten(s, i, id) && Holds(s.client, i, id) && !Meddles(l, id) && !Starts(l, id)
    ensures Forgotten(Next(setup, s, l), i, id) && Holds(Next(setup, s, l).client, i, id)
  {
    NoTokens(s, id);
    NoTokens(Next(setup, s, l), id);
    QuietStep(setup, s, l, id);
    StillTied(setup, s, l);
    SessionGating.PendingStaysNamed(setup, s, l);
    if l.AtClient? {
      ClientHolds(s, l.client, i, id);
    } else {
      OtherHolds(setup, s, l, i, id);
    }
  }

  lemma StartLoses(setup: Setup, s: State, l: Label, i: nat, id: string)
    requires Enabled(s, l) && Forgotten(s, i, id) && Holds(s.client, i, id) && Starts(l, id)
    ensures Lost(Next(setup, s, l).client, i)
  {
  }

  lemma ClientLost(s: State, l: ClientStep, i: nat)
    requires ClientEnabled(s, l) && Lost(s.client, i)
    ensures Lost(NextClient(s, l).client, i)
  {
  }

  lemma InputLost(setup: Setup, s: State, l: Input, i: nat)
    requires InputEnabled(s, l) && Lost(s.client, i)
    ensures Lost(NextInput(setup, s, l).client, i)
  {
  }

  lemma StreamLost(setup: Setup, s: State, l: StreamStep, i: nat)
    requires StreamEnabled(s, l) && Lost(s.client, i)
    ensures Lost(NextStream(setup, s, l).client, i)
  {
  }

  lemma LostStep(setup: Setup, s: State, l: Label, i: nat)
    requires Enabled(s, l) && Lost(s.client, i)
    ensures Lost(Next(setup, s, l).client, i)
  {
    match l
    case App(input) => InputLost(setup, s, input, i);
    case AtClient(c) => ClientLost(s, c, i);
    case AtHub(h) => assert NextHub(setup, s, h).client == s.client;
    case OnStream(x) => StreamLost(setup, s, x, i);
    case Wrong(f) => assert NextFault(s, f).client.pending == s.client.pending;
  }

  /**
   * No wakeup without a token: a call whose request and answer are both gone, while every task may be alive, waits for
   * ever, in every continuation, faults included, in which neither application speaks the stream protocol for its id,
   * exactly as long as no later call starts with that id; after such a call it can only fail.
   */
  lemma {:induction false} ForgottenForEver(setup: Setup, s: State, run: seq<Label>, i: nat, id: string)
    requires Forgotten(s, i, id) && Holds(s.client, i, id) && Runs(setup, s, run)
    requires forall k :: 0 <= k < |run| ==> !Meddles(run[k], id)
    ensures var t := After(setup, s, run);
            if Started(run, id) then Lost(t.client, i) else Forgotten(t, i, id) && Holds(t.client, i, id)
  {
    if run != [] {
      var front, l := run[..|run| - 1], run[|run| - 1];
      ForgottenForEver(setup, s, front, i, id);
      StartedLast(run, id);
      var before := After(setup, s, front);
      if Started(front, id) {
        LostStep(setup, before, l, i);
      } else if Starts(l, id) {
        StartLoses(setup, before, l, i, id);
      } else {
        ForgottenStep(setup, before, l, i, id);
      }
    }
  }

  /** Such a call there is, with the client's reader alive: the wire to the hub is cut before its request gets there. */
  lemma {:induction false} ACallIsForgotten(setup: Setup, id: string) returns (run: seq<Label>)
    requires Admits(setup)
    ensures Runs(setup, Initial, run)
    ensures var s := After(setup, Initial, run); Forgotten(s, 0, id) && Holds(s.client, 0, id) && s.client.reading
  {
    var s: State;
    run, s := CallAsks(setup, id);
    var cut := s.(toHub := Wire([], false));
    var gone := cut.(client := cut.client.(queue := [], writing := false));
    assert s.client.queue[1..] == [];
    run := Take(setup, run, s, Wrong(CutToHub(0)), cut);
    run := Take(setup, run, cut, AtClient(ClientForward), gone);
    NoTokens(gone, id);
  }
}
