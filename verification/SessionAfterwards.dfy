/** What may follow RopeDisconnected in the event log, and exactly when the hub's reader is silent behind it. */
module SessionAfterwards {
  import opened Messages
  import opened Sequences
  import opened Session
  import opened SessionLog
  import opened SessionWitness
  import opened SessionStranded
  import SessionGating
  import SessionHealth

  // ---- an event after RopeDisconnected ----

  lemma {:induction false} AcceptLoopEnds(setup: Setup) returns (run: seq<Label>, s: State)
    requires Admits(setup)
    ensures Reached(setup, run, s)
    ensures s == Established(setup).(hub := Established(setup).hub.(
                   main := Finished(true), disconnected := true, winner := MainWon,
                   log := [Connected(setup), RopeDisconnected(Identity(setup).ropeId)]))
  {
    var e := Established(setup);
    run := HandshakeSucceeds(setup);
    var leaving := e.(hub := e.hub.(main := MainLeaving));
    var swapped := e.(hub := e.hub.(main := MainReporting, disconnected := true, winner := MainWon));
    s := e.(hub := swapped.hub.(main := Finished(true),
        log := [Connected(setup), RopeDisconnected(Identity(setup).ropeId)]));
    run := Take(setup, run, e, Wrong(AcceptFails), leaving);
    run := Take(setup, run, leaving, AtHub(MainSwap), swapped);
    run := Take(setup, run, swapped, AtHub(MainReport), s);
  }

  lemma {:induction false} EventOnWire(setup: Setup, env: Envelope) returns (run: seq<Label>, s: State)
    requires Admits(setup)
    ensures Reached(setup, run, s)
    ensures s.toHub == Wire([Parsed(env)], true) && s.hub.reader.Polling? && s.hub.winner.MainWon?
    ensures s.hub.allotted == Some(Identity(setup))
    ensures s.hub.log == [Connected(setup), RopeDisconnected(Identity(setup).ropeId)]
  {
    run, s := AcceptLoopEnds(setup);
    var queued := s.(client := s.client.(queue := [env]));
    var onWire := s.(toHub := Wire([Parsed(env)], true));
    run := Take(setup, run, s, App(ClientSend(env)), queued);
    assert queued.client.queue[1..] == [];
    run := Take(setup, run, queued, AtClient(ClientForward), onWire);
    s := onWire;
  }

  /** When the accept loop ends first, the reader goes on, and its events follow the disconnection. */
  lemma {:induction false} EventsMayFollowDisconnection(setup: Setup, env: Envelope) returns (run: seq<Label>)
    requires Admits(setup) && env.payload.Event?
    ensures Runs(setup, Initial, run)
    ensures var h := After(setup, Initial, run).hub; h.winner.MainWon? && !QuietAfterDisconnect(h.log)
  {
    var s: State;
    run, s := EventOnWire(setup, env);
    var reported := s.(toHub := Wire([], true),
                       hub := s.hub.(read := s.hub.read + [Parsed(env)],
                           log := s.hub.log + [HubReport(env, Identity(setup).ropeId)]));
    assert s.toHub.frames[1..] == [];
    run := Take(setup, run, s, AtHub(HubRead(Instants(0, 0))), reported);
    assert reported.hub.log[1].RopeDisconnected? && FromReader(reported.hub.log[2]);
  }

  // ---- exactly when ----

  /** The accept loop never ends before one of the two loops has swapped the flag, which is then the reader. */
  ghost predicate LoopOutlivesReader(setup: Setup, run: seq<Label>) {
    run == [] ||
    var front, l := run[..|run| - 1], run[|run| - 1];
    LoopOutlivesReader(setup, front) && (l == Wrong(AcceptFails) ==> After(setup, Initial, front).hub.disconnected)
  }

  predicate ReaderFirst(h: Hub) {
    !h.winner.MainWon? && (h.main.MainLeaving? ==> h.disconnected)
  }

  lemma ReaderFirstStep(setup: Setup, s: State, l: Label)
    requires Enabled(s, l) && ReaderFirst(s.hub) && (l == Wrong(AcceptFails) ==> s.hub.disconnected)
    ensures ReaderFirst(Next(setup, s, l).hub)
  {
    match l
    case App(_) =>
    case AtClient(i) => assert NextClient(s, i).hub == s.hub;
    case AtHub(i) => HubReaderFirst(setup, s, i);
    case OnStream(_) =>
    case Wrong(_) =>
  }

  lemma HubReaderFirst(setup: Setup, s: State, l: HubStep)
    requires HubEnabled(s, l) && ReaderFirst(s.hub)
    ensures ReaderFirst(NextHub(setup, s, l).hub)
  {
  }

  lemma {:induction false} ReaderFirstRun(setup: Setup, run: seq<Label>)
    requires Runs(setup, Initial, run) && LoopOutlivesReader(setup, run)
    ensures ReaderFirst(After(setup, Initial, run).hub)
  {
    if run != [] {
      ReaderFirstRun(setup, run[..|run| - 1]);
      ReaderFirstStep(setup, After(setup, Initial, run[..|run| - 1]), run[|run| - 1]);
    }
  }

  lemma {:induction false} QuietIfReaderFirst(setup: Setup, run: seq<Label>)
    requires Runs(setup, Initial, run) && LoopOutlivesReader(setup, run)
    ensures QuietAfterDisconnect(After(setup, Initial, run).hub.log)
  {
    var h := After(setup, Initial, run).hub;
    ReaderFirstRun(setup, run);
    LogDisciplinedRun(setup, run);
    if !h.disconnected {
      NoDisconnectionYet(h.log);
    }
  }

  /**
   * Nothing of the reader's follows RopeDisconnected, in any run in which the accept loop ends first only if it may.
   */
  ghost predicate SilenceHolds(setup: Setup, mayEndFirst: bool) {
    forall run :: Runs(setup, Initial, run) && (mayEndFirst || LoopOutlivesReader(setup, run)) ==>
      QuietAfterDisconnect(After(setup, Initial, run).hub.log)
  }

  /** The reader is silent behind RopeDisconnected, in every run, exactly when the accept loop cannot end before it. */
  lemma {:induction false} SilentUnlessLoopEndsFirst(setup: Setup, mayEndFirst: bool)
    requires Admits(setup)
    ensures SilenceHolds(setup, mayEndFirst) <==> !mayEndFirst
  {
    if mayEndFirst {
      var run := EventsMayFollowDisconnection(setup, Envelope("", 0, "", "", false, Event("", "")));
    } else {
      forall run | Runs(setup, Initial, run) && LoopOutlivesReader(setup, run)
        ensures QuietAfterDisconnect(After(setup, Initial, run).hub.log)
      {
        QuietIfReaderFirst(setup, run);
      }
    }
  }

  // ---- a frame after RopeDisconnected, though the reader won ----

  /** The hub's answer to the request. */
  function Grant(setup: Setup, id: string): Envelope {
    AcceptOf(FirstRequest(setup, id), Instants(0, 0))
  }

  function OpenedEvent(setup: Setup, id: string): HubEvent {
    StreamOpened(Identity(setup).ropeId, id, "", "")
  }

  ghost predicate Plain(run: seq<Label>) {
    SessionHealth.FaultFree(run) && forall k :: 0 <= k < |run| ==> !Injects(run[k])
  }

  /** The request has reached the hub, which has answered. */
  function Answered(setup: Setup, id: string): State {
    var e := Established(setup);
    e.(client := e.client.(calls := [Call(id, "", "", Awaiting, Empty)], pending := map[id := 0]),
       hub := e.hub.(log := [Connected(setup), OpenedEvent(setup, id)], read := [Parsed(FirstRequest(setup, id))],
                     queue := [Grant(setup, id)], enqueued := [Grant(setup, id)], byReader := [true]))
  }

  lemma {:induction false} RequestSent(setup: Setup, id: string) returns (run: seq<Label>, s: State)
    requires Admits(setup)
    ensures Reached(setup, run, s) && Plain(run)
    ensures s == Established(setup).(
                   client := Established(setup).client.(calls := [Call(id, "", "", Awaiting, Empty)],
                       pending := map[id := 0]),
                   toHub := Wire([Parsed(FirstRequest(setup, id))], true))
  {
    var asked: State;
    run, asked := CallAsks(setup, id);
    s := asked.(client := asked.client.(queue := []), toHub := Wire([Parsed(FirstRequest(setup, id))], true));
    assert asked.client.queue[1..] == [];
    run := Take(setup, run, asked, AtClient(ClientForward), s);
  }

  function Taken(setup: Setup, id: string): State {
    var a := Answered(setup, id);
    a.(hub := a.hub.(queue := [], enqueued := [], byReader := [], reader := Replying(Grant(setup, id))))
  }

  lemma {:induction false} RequestTaken(setup: Setup, id: string) returns (run: seq<Label>)
    requires Admits(setup)
    ensures Reached(setup, run, Taken(setup, id)) && Plain(run)
  {
    var s: State;
    run, s := RequestSent(setup, id);
    assert s.toHub.frames[1..] == [];
    run := Take(setup, run, s, AtHub(HubRead(Instants(0, 0))), Taken(setup, id));
  }

  lemma {:induction false} RequestAnswered(setup: Setup, id: string) returns (run: seq<Label>)
    requires Admits(setup)
    ensures Reached(setup, run, Answered(setup, id)) && Plain(run)
  {
    run := RequestTaken(setup, id);
    run := Take(setup, run, Taken(setup, id), AtHub(QueueReply), Answered(setup, id));
  }

  function Granting(setup: Setup, id: string): State {
    var a := Answered(setup, id);
    a.(hub := a.hub.(queue := [], sent := a.hub.sent + [Parsed(Grant(setup, id))]),
        toClient := Wire([Parsed(Grant(setup, id))], true))
  }

  lemma {:induction false} GrantSent(setup: Setup, id: string) returns (run: seq<Label>)
    requires Admits(setup)
    ensures Reached(setup, run, Granting(setup, id)) && Plain(run)
  {
    run := RequestAnswered(setup, id);
    assert Answered(setup, id).hub.queue[1..] == [];
    run := Take(setup, run, Answered(setup, id), AtHub(HubForward), Granting(setup, id));
  }

  /** The answer has reached the client, and woken the call. */
  lemma {:induction false} CallGranted(setup: Setup, id: string) returns (run: seq<Label>, s: State)
    requires Admits(setup)
    ensures Reached(setup, run, s) && Plain(run)
    ensures s.client.calls == [Told(id, Opening)] && s.unis == []
    ensures s.hub == Answered(setup, id).hub.(queue := [], sent := s.hub.sent) && s.toHub == Wire([], true)
  {
    run := GrantSent(setup, id);
    var onWire := Granting(setup, id);
    var told := onWire.(toClient := Wire([], true), client := onWire.client.(
      calls := [Told(id, Awaiting)], pending := map[], events := [Grant(setup, id)]));
    assert onWire.client.pending - {id} == map[] && onWire.toClient.frames[1..] == [];
    run := Take(setup, run, onWire, AtClient(ClientRead(Instants(0, 0))), told);
    s := told.(client := SetCall(told.client, 0, Opening));
    run := Take(setup, run, told, AtClient(Resume(0)), s);
  }

  /** A plain run to a stream at work: no fault, nothing injected. */
  lemma {:induction false} StreamAtWork(setup: Setup, id: string) returns (run: seq<Label>, s: State)
    requires Admits(setup)
    ensures Reached(setup, run, s) && Plain(run)
    ensures s.client.calls == [Told(id, Streaming(0))] && s.unis == [Unwritten([], Recording(setup, id))]
    ensures s.hub == Answered(setup, id).hub.(queue := [], sent := s.hub.sent)
  {
    var granted, waiting: State;
    run, granted := CallGranted(setup, id);
    var more := run;
    more, waiting := OpensStream(setup, run, granted, id);
    var last := more;
    last, s := ConfiguresStream(setup, more, waiting, id);
    PlainMore(run, more);
    PlainMore(more, last);
    run := last;
  }

  lemma PlainMore(run: seq<Label>, more: seq<Label>)
    requires Plain(run) && SessionHealth.FaultFree(more)
    requires run <= more && forall k :: |run| <= k < |more| ==> !Injects(more[k])
    ensures Plain(more)
  {
  }

  /** Without faults or injections every stream id can be opened and a frame reported under it. */
  lemma {:induction false} AFrameIsReported(setup: Setup, id: string, frame: Recorded) returns (run: seq<Label>)
    requires Admits(setup)
    ensures Runs(setup, Initial, run) && Plain(run)
    ensures After(setup, Initial, run).hub.log ==
              [Connected(setup), OpenedEvent(setup, id), FrameReceived(Identity(setup).ropeId, id, frame)]
  {
    var s, t: State;
    run, s := StreamAtWork(setup, id);
    var more;
    more, t := ReportsFrame(setup, run, s, id, frame);
    PlainMore(run, more);
    run := more;
  }

  /** The wire to the hub ends; its reader swaps the flag first and reports. */
  lemma {:induction false} ReaderEnds(setup: Setup, id: string) returns (run: seq<Label>, s: State)
    requires Admits(setup)
    ensures Reached(setup, run, s) && s.hub.winner.ReaderWon? && s.hub.allotted == Some(Identity(setup))
    ensures s.client.calls == [Told(id, Streaming(0))] && s.unis == [Unwritten([], Recording(setup, id))]
    ensures s.hub.log == [Connected(setup), OpenedEvent(setup, id), RopeDisconnected(Identity(setup).ropeId)]
  {
    var w: State;
    run, w := StreamAtWork(setup, id);
    var cut := w.(toHub := Wire([], false));
    var leaving := cut.(hub := w.hub.(reader := ReaderLeaving));
    var swapped := cut.(hub := w.hub.(reader := ReaderReporting, disconnected := true, winner := ReaderWon));
    s := cut.(hub := swapped.hub.(reader := Stopped, log := w.hub.log + [RopeDisconnected(Identity(setup).ropeId)]));
    run := Take(setup, run, w, Wrong(CutToHub(0)), cut);
    run := Take(setup, run, cut, AtHub(HubReadEnds), leaving);
    run := Take(setup, run, leaving, AtHub(ReaderSwap), swapped);
    run := Take(setup, run, swapped, AtHub(ReaderReport), s);
  }

  /** Frames are not the reader's: they may follow RopeDisconnected even when the reader won the swap. */
  lemma {:induction false} FramesMayFollowDisconnection(setup: Setup, id: string, frame: Recorded)
      returns (run: seq<Label>)
    requires Admits(setup)
    ensures Runs(setup, Initial, run) && After(setup, Initial, run).hub.winner.ReaderWon?
    ensures var log := After(setup, Initial, run).hub.log;
            |log| == 4 && log[2].RopeDisconnected? && log[3] == FrameReceived(Identity(setup).ropeId, id, frame)
  {
    var s, t: State;
    run, s := ReaderEnds(setup, id);
    run, t := ReportsFrame(setup, run, s, id, frame);
  }
}
