/** The data streams in every run, faults included: write-ahead recording, and nothing torn, invented or reordered. */
module SessionStreams {
  import opened Messages
  import opened Sequences
  import opened Session
  import SessionGating
  import Transport

  function AsData(frames: seq<Recorded>): (items: seq<Item>)
    ensures |items| == |frames| && forall k :: 0 <= k < |frames| ==> items[k] == Data(frames[k])
  {
    seq(|frames|, k requires 0 <= k < |frames| => Data(frames[k]))
  }

  /** The task has stored exactly what it has reported, but for the one frame it is about to report. */
  predicate WriteAhead(u: Uni) {
    u.committed == u.emitted + (if u.task.Emitting? then [u.task.frame] else [])
  }

  predicate Waits(u: Uni) {
    u.task.Unaccepted? || u.task.AwaitingConfig?
  }

  /** What was stored and what is still in transit, in this order, is a prefix of what the client wrote. */
  predicate InOrder(u: Uni) {
    match u.task
    case Ended => u.committed <= u.written
    case Reading(_, _) => AsData(u.committed) + u.items <= AsData(u.written)
    case Emitting(_, _, _) => AsData(u.committed) + u.items <= AsData(u.written)
    case _ => u.committed == [] && (u.items == [] || (u.items[0].Config? && u.items[1..] <= AsData(u.written)))
  }

  /** On an undamaged stream, finished or not, it is all of it. */
  predicate Complete(u: Uni) {
    match u.task
    case Ended => !u.open && u.committed == u.written
    case Reading(_, _) => AsData(u.committed) + u.items == AsData(u.written)
    case Emitting(_, _, _) => AsData(u.committed) + u.items == AsData(u.written)
    case _ => if u.items == [] then u.written == [] else u.items[1..] == AsData(u.written)
  }

  /** Nothing of the stream has been cut off or refused. */
  predicate Intact(u: Uni) {
    u.open || u.closed
  }

  predicate UniSafe(u: Uni) {
    WriteAhead(u) && InOrder(u) && (Intact(u) ==> Complete(u))
  }

  /** The client writes a stream only as its owner, and only behind its configuration. */
  predicate CallSafe(unis: seq<Uni>, i: nat, pc: CallPc) {
    match pc
    case Configuring(u) => u < |unis| && unis[u].owner == i
        && (Intact(unis[u]) ==> unis[u].open && Waits(unis[u]) && unis[u].items == [])
    case Streaming(u) => u < |unis| && unis[u].owner == i && (Intact(unis[u]) && Waits(unis[u]) ==> unis[u].items != [])
    case _ => true
  }

  ghost predicate UnisSafe(unis: seq<Uni>) {
    forall u :: 0 <= u < |unis| ==> UniSafe(unis[u])
  }

  ghost predicate CallsSafe(calls: seq<Call>, unis: seq<Uni>) {
    forall i :: 0 <= i < |calls| ==> CallSafe(unis, i, calls[i].pc)
  }

  ghost predicate StreamsSafe(s: State) {
    UnisSafe(s.unis) && CallsSafe(s.client.calls, s.unis)
  }

  lemma WriteSafe(u: Uni, frame: Recorded)
    requires UniSafe(u) && u.open && (Waits(u) ==> u.items != [])
    ensures UniSafe(u.(items := u.items + [Data(frame)], written := u.written + [frame]))
  {
    var v := u.(items := u.items + [Data(frame)], written := u.written + [frame]);
    assert AsData(v.written) == AsData(u.written) + [Data(frame)];
    if Waits(u) {
      assert v.items[1..] == u.items[1..] + [Data(frame)];
    } else {
      assert AsData(v.committed) + v.items == AsData(u.committed) + u.items + [Data(frame)];
    }
  }

  lemma ConfigSafe(u: Uni, streamId: string, topic: string)
    requires UniSafe(u) && Waits(u) && u.open && u.items == []
    ensures UniSafe(u.(items := u.items + [Config(streamId, topic)]))
  {
    var v := u.(items := u.items + [Config(streamId, topic)]);
    assert v.items[1..] == [] == AsData(u.written);
  }

  lemma TakeSafe(setup: Setup, unis: seq<Uni>, u: Uni)
    requires UniSafe(u) && u.items != [] && u.task.AwaitingConfig?
    ensures UniSafe(Configured(setup, unis, u))
  {
    assert AsData([]) + u.items[1..] == u.items[1..];
  }

  lemma CommitSafe(u: Uni)
    requires UniSafe(u) && u.items != [] && u.task.Reading?
    ensures UniSafe(Committed(u))
  {
    var all := AsData(u.committed) + u.items;
    assert all[|u.committed|] == u.items[0];
    assert AsData(u.written)[|u.committed|] == u.items[0];
    var v := Committed(u);
    assert AsData(v.committed) == AsData(u.committed) + [u.items[0]];
    assert AsData(v.committed) + v.items == all;
  }

  lemma EmitSafe(u: Uni)
    requires UniSafe(u) && u.task.Emitting?
    ensures UniSafe(u.(task := Reading(u.task.streamId, u.task.file), emitted := u.emitted + [u.task.frame]))
  {
  }

  lemma EndSafe(u: Uni)
    requires UniSafe(u) && (u.task.AwaitingConfig? || u.task.Reading?) && u.items == [] && !u.open
    ensures UniSafe(u.(task := Ended))
  {
    if u.task.Reading? {
      assert AsData(u.committed) + u.items == AsData(u.committed);
      forall k | 0 <= k < |u.committed| ensures u.committed[k] == u.written[k] {
        assert AsData(u.written)[k] == AsData(u.committed)[k];
      }
    }
  }

  lemma CutSafe(u: Uni, keep: nat)
    requires UniSafe(u) && keep <= |u.items|
    ensures UniSafe(u.(items := u.items[..keep], open := false, closed := false))
  {
    var v := u.(items := u.items[..keep], open := false, closed := false);
    if !Waits(u) && !u.task.Ended? {
      assert AsData(u.committed) + v.items <= AsData(u.committed) + u.items;
    } else if keep > 0 {
      assert Waits(u) ==> v.items[1..] <= u.items[1..];
    }
  }

  lemma FailSafe(u: Uni)
    requires UniSafe(u) && (u.task.AwaitingConfig? || u.task.Reading?)
    ensures UniSafe(Refused(u))
  {
    if u.task.Reading? {
      assert forall k :: 0 <= k < |u.committed| ==> AsData(u.written)[k] == (AsData(u.committed) + u.items)[k];
    }
  }

  /** Replacing one stream concerns only the call that owns it. */
  lemma ReplaceUni(calls: seq<Call>, unis: seq<Uni>, u: nat, x: Uni)
    requires u < |unis| && UnisSafe(unis) && CallsSafe(calls, unis)
    requires UniSafe(x) && x.owner == unis[u].owner
    requires x.owner < |calls| ==> CallSafe(unis[u := x], x.owner, calls[x.owner].pc)
    ensures UnisSafe(unis[u := x]) && CallsSafe(calls, unis[u := x])
  {
    forall i | 0 <= i < |calls| ensures CallSafe(unis[u := x], i, calls[i].pc) {
      assert CallSafe(unis, i, calls[i].pc);
    }
  }

  lemma ReplaceCall(calls: seq<Call>, unis: seq<Uni>, i: nat, call: Call)
    requires i < |calls| && CallsSafe(calls, unis) && CallSafe(unis, i, call.pc)
    ensures CallsSafe(calls[i := call], unis)
  {
  }

  lemma ReadsSafe(c: Client, d: Delivery, at: Instants, unis: seq<Uni>)
    requires CallsSafe(c.calls, unis)
    ensures CallsSafe(ClientReads(c, d, at).calls, unis)
  {
    if d.Parsed? && d.env.payload.StreamAccepted? && d.env.payload.streamId in c.pending {
      var i := c.pending[d.env.payload.streamId];
      if i < |c.calls| {
        ReplaceCall(c.calls, unis, i, c.calls[i].(slot := Fulfilled));
      }
    }
  }

  lemma InputSafe(setup: Setup, s: State, l: Input)
    requires InputEnabled(s, l) && StreamsSafe(s)
    ensures StreamsSafe(NextInput(setup, s, l))
  {
    if l.WriteFrame? || l.CloseStream? {
      var u := s.client.calls[l.call].pc.stream;
      assert CallSafe(s.unis, l.call, s.client.calls[l.call].pc);
      if l.WriteFrame? {
        WriteSafe(s.unis[u], l.frame);
      }
      ReplaceUni(s.client.calls, s.unis, u, NextInput(setup, s, l).unis[u]);
    }
  }

  lemma ClientSafe(s: State, l: ClientStep)
    requires ClientEnabled(s, l) && StreamsSafe(s)
    ensures StreamsSafe(NextClient(s, l))
  {
    if l.ClientRead? {
      ReadsSafe(s.client, s.toClient.frames[0], l.at, s.unis);
    }
  }

  lemma OpenSafe(setup: Setup, s: State, i: nat)
    requires StreamEnabled(s, OpenUni(i)) && StreamsSafe(s)
    ensures StreamsSafe(NextStream(setup, s, OpenUni(i)))
  {
    var t := NextStream(setup, s, OpenUni(i));
    forall k | 0 <= k < |t.client.calls| ensures CallSafe(t.unis, k, t.client.calls[k].pc) {
      assert k != i ==> CallSafe(s.unis, k, s.client.calls[k].pc);
    }
  }

  lemma StreamSafe(setup: Setup, s: State, l: StreamStep)
    requires StreamEnabled(s, l) && StreamsSafe(s)
    ensures StreamsSafe(NextStream(setup, s, l))
  {
    var t := NextStream(setup, s, l);
    match l {
      case OpenUni(i) => OpenSafe(setup, s, i);
      case SendConfig(i) =>
        var u := s.client.calls[i].pc.stream;
        assert CallSafe(s.unis, i, s.client.calls[i].pc);
        ConfigSafe(s.unis[u], s.client.calls[i].streamId, s.client.calls[i].topic);
        var between := s.client.calls[i := s.client.calls[i].(pc := Failed)];
        ReplaceCall(s.client.calls, s.unis, i, between[i]);
        ReplaceUni(between, s.unis, u, t.unis[u]);
        ReplaceCall(between, t.unis, i, t.client.calls[i]);
        assert t.client.calls == between[i := t.client.calls[i]];
      case AcceptUni =>
        var u := s.hub.backlog[0];
        KeepsCall(s, u, t.unis[u]);
        ReplaceUni(s.client.calls, s.unis, u, t.unis[u]);
      case TakeConfig(u) =>
        TakeSafe(setup, s.unis, s.unis[u]);
        KeepsCall(s, u, t.unis[u]);
        ReplaceUni(s.client.calls, s.unis, u, t.unis[u]);
      case CommitFrame(u) =>
        CommitSafe(s.unis[u]);
        KeepsCall(s, u, t.unis[u]);
        ReplaceUni(s.client.calls, s.unis, u, t.unis[u]);
      case EmitFrame(u) =>
        EmitSafe(s.unis[u]);
        KeepsCall(s, u, t.unis[u]);
        ReplaceUni(s.client.calls, s.unis, u, t.unis[u]);
      case TaskEnds(u) =>
        EndSafe(s.unis[u]);
        KeepsCall(s, u, t.unis[u]);
        ReplaceUni(s.client.calls, s.unis, u, t.unis[u]);
    }
  }

  /** The hub's side of a stream never takes it out of the state its owner relies on. */
  lemma KeepsCall(s: State, u: nat, x: Uni)
    requires StreamsSafe(s) && u < |s.unis| && x.owner == s.unis[u].owner
    requires x.open == s.unis[u].open || !Intact(x)
    requires Intact(x) ==> Intact(s.unis[u])
    requires Intact(x) && Waits(s.unis[u]) && s.unis[u].items == [] && s.unis[u].open ==> Waits(x) && x.items == []
    requires Intact(x) && Waits(x) ==> x.items == s.unis[u].items && Waits(s.unis[u])
    requires !Waits(s.unis[u]) ==> !Waits(x)
    ensures x.owner < |s.client.calls| ==> CallSafe(s.unis[u := x], x.owner, s.client.calls[x.owner].pc)
  {
    if x.owner < |s.client.calls| {
      assert CallSafe(s.unis, x.owner, s.client.calls[x.owner].pc);
    }
  }

  lemma FaultSafe(s: State, l: Fault)
    requires FaultEnabled(s, l) && StreamsSafe(s)
    ensures StreamsSafe(NextFault(s, l))
  {
    var t := NextFault(s, l);
    match l {
      case StreamCut(u, keep) =>
        CutSafe(s.unis[u], keep);
        KeepsCall(s, u, t.unis[u]);
        ReplaceUni(s.client.calls, s.unis, u, t.unis[u]);
      case TaskFails(u) =>
        FailSafe(s.unis[u]);
        KeepsCall(s, u, t.unis[u]);
        ReplaceUni(s.client.calls, s.unis, u, t.unis[u]);
      case _ =>
    }
  }

  lemma StreamsSafeStep(setup: Setup, s: State, l: Label)
    requires Enabled(s, l) && StreamsSafe(s)
    ensures StreamsSafe(Next(setup, s, l))
  {
    match l
    case App(i) => InputSafe(setup, s, i);
    case AtClient(i) => ClientSafe(s, i);
    case AtHub(i) => assert NextHub(setup, s, i).client == s.client && NextHub(setup, s, i).unis == s.unis;
    case OnStream(i) => StreamSafe(setup, s, i);
    case Wrong(i) => FaultSafe(s, i);
  }

  lemma {:induction false} StreamsSafeRun(setup: Setup, run: seq<Label>)
    requires Runs(setup, Initial, run)
    ensures StreamsSafe(After(setup, Initial, run))
  {
    if run != [] {
      StreamsSafeRun(setup, run[..|run| - 1]);
      StreamsSafeStep(setup, After(setup, Initial, run[..|run| - 1]), run[|run| - 1]);
    }
  }

  /**
   * In every run and on every stream: what was reported was stored first and is at most one frame behind,
   * and both are prefixes of what the client wrote.
   */
  lemma {:induction false} RecordingIsWriteAhead(setup: Setup, run: seq<Label>, u: nat)
    requires Runs(setup, Initial, run)
    requires u < |After(setup, Initial, run).unis|
    ensures var uni := After(setup, Initial, run).unis[u];
            && uni.emitted <= uni.committed <= uni.written
            && |uni.committed| <= |uni.emitted| + 1
  {
    StreamsSafeRun(setup, run);
    var uni := After(setup, Initial, run).unis[u];
    assert UniSafe(uni);
    if !Waits(uni) && !uni.task.Ended? {
      forall k | 0 <= k < |uni.committed| ensures uni.committed[k] == uni.written[k] {
        assert AsData(uni.written)[k] == (AsData(uni.committed) + uni.items)[k];
      }
    }
  }

  function ReportOf(frame: Recorded): HubEvent -> nat {
    (e: HubEvent) => if e.FrameReceived? && e.frame == frame then 1 else 0
  }

  function EmissionsOf(frame: Recorded): Uni -> nat {
    (u: Uni) => multiset(u.emitted)[frame]
  }

  lemma InputEmission(setup: Setup, s: State, l: Input, frame: Recorded)
    requires InputEnabled(s, l)
    ensures Total(NextInput(setup, s, l).unis, EmissionsOf(frame)) == Total(s.unis, EmissionsOf(frame))
  {
    if l.WriteFrame? || l.CloseStream? {
      var u := s.client.calls[l.call].pc.stream;
      SameEmission(s.unis, u, NextInput(setup, s, l).unis[u], frame);
    }
  }

  lemma FaultEmission(s: State, l: Fault, frame: Recorded)
    requires FaultEnabled(s, l)
    ensures Total(NextFault(s, l).unis, EmissionsOf(frame)) == Total(s.unis, EmissionsOf(frame))
  {
    if l.StreamCut? || l.TaskFails? {
      SameEmission(s.unis, l.stream, NextFault(s, l).unis[l.stream], frame);
    }
  }

  predicate Emits(s: State, l: Label, frame: Recorded)
    requires Enabled(s, l)
  {
    l.OnStream? && l.stream.EmitFrame? && s.unis[l.stream.stream].task.frame == frame
  }

  lemma UnisEmission(setup: Setup, s: State, l: Label, frame: Recorded)
    requires Enabled(s, l)
    ensures Total(Next(setup, s, l).unis, EmissionsOf(frame)) ==
              Total(s.unis, EmissionsOf(frame)) + (if Emits(s, l, frame) then 1 else 0)
  {
    match l {
      case App(i) => InputEmission(setup, s, i, frame);
      case AtClient(_) =>
      case AtHub(_) =>
      case OnStream(i) => StreamEmission(setup, s, i, frame);
      case Wrong(i) => FaultEmission(s, i, frame);
    }
  }

  lemma NewsEmission(setup: Setup, s: State, l: Label, frame: Recorded)
    requires Enabled(s, l)
    ensures Total(s.hub.log + SessionGating.News(setup, s, l), ReportOf(frame)) ==
              Total(s.hub.log, ReportOf(frame)) + (if Emits(s, l, frame) then 1 else 0)
  {
    var news := SessionGating.News(setup, s, l);
    if news == [] {
      assert s.hub.log + news == s.hub.log;
    } else {
      assert news == [news[0]];
      TotalPush(s.hub.log, news[0], ReportOf(frame));
    }
  }

  lemma SameEmission(unis: seq<Uni>, u: nat, x: Uni, frame: Recorded)
    requires u < |unis| && x.emitted == unis[u].emitted
    ensures Total(unis[u := x], EmissionsOf(frame)) == Total(unis, EmissionsOf(frame))
  {
    TotalUpdate(unis, u, x, EmissionsOf(frame));
  }

  lemma OneEmission(unis: seq<Uni>, u: nat, x: Uni, emitted: Recorded, frame: Recorded)
    requires u < |unis| && x.emitted == unis[u].emitted + [emitted]
    ensures Total(unis[u := x], EmissionsOf(frame)) == Total(unis, EmissionsOf(frame)) +
        (if emitted == frame then 1 else 0)
  {
    TotalUpdate(unis, u, x, EmissionsOf(frame));
  }

  lemma StreamEmission(setup: Setup, s: State, l: StreamStep, frame: Recorded)
    requires StreamEnabled(s, l)
    ensures Total(NextStream(setup, s, l).unis, EmissionsOf(frame)) ==
              Total(s.unis, EmissionsOf(frame)) +
                  (if l.EmitFrame? && s.unis[l.stream].task.frame == frame then 1 else 0)
  {
    var t := NextStream(setup, s, l);
    match l {
      case OpenUni(_) => TotalPush(s.unis, t.unis[|s.unis|], EmissionsOf(frame));
      case SendConfig(i) =>
        var u := s.client.calls[i].pc.stream;
        SameEmission(s.unis, u, t.unis[u], frame);
      case AcceptUni => SameEmission(s.unis, s.hub.backlog[0], t.unis[s.hub.backlog[0]], frame);
      case TakeConfig(u) => SameEmission(s.unis, u, t.unis[u], frame);
      case CommitFrame(u) => SameEmission(s.unis, u, t.unis[u], frame);
      case TaskEnds(u) => SameEmission(s.unis, u, t.unis[u], frame);
      case EmitFrame(u) => OneEmission(s.unis, u, t.unis[u], s.unis[u].task.frame, frame);
    }
  }

  /** The FrameReceived events of a run are, counted frame by frame, exactly what its stream tasks emitted. */
  lemma {:induction false} ReportsAreEmissions(setup: Setup, run: seq<Label>, frame: Recorded)
    requires Runs(setup, Initial, run)
    ensures var s := After(setup, Initial, run);
            Total(s.hub.log, ReportOf(frame)) == Total(s.unis, EmissionsOf(frame))
  {
    if run != [] {
      ReportsAreEmissions(setup, run[..|run| - 1], frame);
      var before, l := After(setup, Initial, run[..|run| - 1]), run[|run| - 1];
      UnisEmission(setup, before, l, frame);
      SessionGating.LogIsNews(setup, before, l);
      NewsEmission(setup, before, l, frame);
    }
  }

  // ---- opening and accepting ----

  /** The streams not accepted yet are the last ones opened, in the order they were opened, and never too many. */
  predicate AcceptedInOrder(s: State) {
    var n := |s.hub.backlog|;
    && n <= Transport.CAPACITY && n <= |s.unis|
    && (forall k :: 0 <= k < n ==> s.hub.backlog[k] == |s.unis| - n + k)
    && (forall u :: 0 <= u < |s.unis| ==> (s.unis[u].task.Unaccepted? <==> u >= |s.unis| - n))
  }

  lemma InputAccepted(setup: Setup, s: State, l: Input)
    requires InputEnabled(s, l) && AcceptedInOrder(s)
    ensures AcceptedInOrder(NextInput(setup, s, l))
  {
  }

  lemma StepAccepted(setup: Setup, s: State, l: StreamStep)
    requires StreamEnabled(s, l) && AcceptedInOrder(s)
    ensures AcceptedInOrder(NextStream(setup, s, l))
  {
  }

  lemma FaultAccepted(s: State, l: Fault)
    requires FaultEnabled(s, l) && AcceptedInOrder(s)
    ensures AcceptedInOrder(NextFault(s, l))
  {
  }

  /** In every run the hub accepts the streams of a connection in the order the client opens them, leaving none out. */
  lemma {:induction false} AcceptedInOrderRun(setup: Setup, run: seq<Label>)
    requires Runs(setup, Initial, run)
    ensures AcceptedInOrder(After(setup, Initial, run))
  {
    if run != [] {
      var before := After(setup, Initial, run[..|run| - 1]);
      AcceptedInOrderRun(setup, run[..|run| - 1]);
      match run[|run| - 1] {
        case App(i) => InputAccepted(setup, before, i);
        case AtClient(i) => assert NextClient(before, i).hub == before.hub && NextClient(before, i).unis == before.unis;
        case AtHub(i) =>
          assert NextHub(setup, before, i).hub.backlog == before.hub.backlog
              && NextHub(setup, before, i).unis == before.unis;
        case OnStream(i) => StepAccepted(setup, before, i);
        case Wrong(i) => FaultAccepted(before, i);
      }
    }
  }
}
