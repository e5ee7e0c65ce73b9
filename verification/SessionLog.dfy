/** The event log of one connection, in every run: connected first, disconnected once, and what may follow. */
module SessionLog {
  import opened Messages
  import opened Sequences
  import opened Session
  import SessionGating

  function Disconnection(): HubEvent -> nat {
    (e: HubEvent) => if e.RopeDisconnected? then 1 else 0
  }

  /** What only the hub's reader reports. */
  predicate FromReader(e: HubEvent) {
    e.StreamOpened? || e.EventReceived?
  }

  ghost predicate ConnectedFirst(log: seq<HubEvent>) {
    forall k :: 0 <= k < |log| ==> (log[k].RopeConnected? <==> k == 0)
  }

  ghost predicate OneRope(log: seq<HubEvent>, ropeId: string) {
    forall k :: 0 <= k < |log| ==> log[k].ropeId == ropeId
  }

  ghost predicate QuietAfterDisconnect(log: seq<HubEvent>) {
    forall j, k :: 0 <= j < k < |log| && log[j].RopeDisconnected? ==> !FromReader(log[k])
  }

  predicate BeforeConnect(main: MainPc) {
    main.AwaitingTie? || main.Welcoming? || main.Announcing?
  }

  predicate DirectoryMade(main: MainPc) {
    main.Accepting? || main.MainLeaving? || main.MainReporting? || main == Finished(true)
  }

  predicate ReaderDone(reader: ReaderPc) {
    reader.ReaderReporting? || reader.Stopped?
  }

  /** How far the two loops are, against the flag they share. */
  predicate TasksAgree(h: Hub) {
    && (BeforeConnect(h.main) ==> h.log == [])
    && (h.main.MakingDirectory? || DirectoryMade(h.main) ==> h.log != [] && h.allotted.Some?)
    && (h.log != [] ==> h.allotted.Some?)
    && (DirectoryMade(h.main) <==> !h.reader.NotSpawned?)
    && (h.main.MainReporting? || h.main == Finished(true) || ReaderDone(h.reader) ==> h.disconnected)
    && (h.disconnected ==> DirectoryMade(h.main))
    && (h.winner.ReaderWon? ==> ReaderDone(h.reader))
    && (h.disconnected <==> !h.winner.NoWinner?)
  }

  /** Whoever swapped the flag first has reported the disconnection, or is about to; nobody else is. */
  ghost predicate OneDisconnection(h: Hub) {
    Total(h.log, Disconnection()) + (if h.reader.ReaderReporting? then 1 else 0) +
        (if h.main.MainReporting? then 1 else 0)
    == (if h.disconnected then 1 else 0)
  }

  ghost predicate LogOrdered(h: Hub) {
    && ConnectedFirst(h.log)
    && (h.allotted.Some? ==> OneRope(h.log, h.allotted.value.ropeId))
    && (h.winner.ReaderWon? ==> QuietAfterDisconnect(h.log))
    && (!h.disconnected ==> forall k :: 0 <= k < |h.log| ==> !h.log[k].RopeDisconnected?)
  }

  /** No stream task runs before the accept loop does. */
  ghost predicate TasksAfterConnect(s: State) {
    s.hub.log == [] ==> forall u :: 0 <= u < |s.unis| ==> s.unis[u].task.Unaccepted?
  }

  ghost predicate LogDisciplined(s: State) {
    TasksAgree(s.hub) && Ordered(s.hub) && TasksAfterConnect(s)
  }

  lemma AppendOrdered(log: seq<HubEvent>, e: HubEvent, ropeId: string)
    requires ConnectedFirst(log) && OneRope(log, ropeId) && e.ropeId == ropeId
    requires e.RopeConnected? <==> log == []
    ensures ConnectedFirst(log + [e]) && OneRope(log + [e], ropeId)
    ensures QuietAfterDisconnect(log) && !FromReader(e) ==> QuietAfterDisconnect(log + [e])
    ensures Total(log + [e], Disconnection()) == Total(log, Disconnection()) + (if e.RopeDisconnected? then 1 else 0)
  {
    TotalPush(log, e, Disconnection());
  }

  lemma NoDisconnectionYet(log: seq<HubEvent>)
    requires forall k :: 0 <= k < |log| ==> !log[k].RopeDisconnected?
    ensures Total(log, Disconnection()) == 0 && QuietAfterDisconnect(log)
  {
    TotalZero(log, Disconnection());
  }

  lemma HubTasksAgree(setup: Setup, s: State, l: HubStep)
    requires HubEnabled(s, l) && TasksAgree(s.hub)
    ensures TasksAgree(NextHub(setup, s, l).hub)
  {
    if IsMain(l) {
      MainTasksAgree(setup, s, l);
    }
  }

  predicate IsMain(l: HubStep) {
    l.HandleTie? || l.TieMissing? || l.SendWelcome? || l.Announce? || l.MakeDirectory? || l.MainSwap? || l.MainReport?
  }

  lemma MainTasksAgree(setup: Setup, s: State, l: HubStep)
    requires HubEnabled(s, l) && TasksAgree(s.hub) && IsMain(l)
    ensures TasksAgree(NextHub(setup, s, l).hub)
  {
  }

  predicate Reporting(h: Hub) {
    h.reader.ReaderReporting? || h.main.MainReporting?
  }

  ghost predicate Ordered(h: Hub) {
    OneDisconnection(h) && LogOrdered(h)
  }

  lemma SwapOrdered(h: Hub, who: Winner, next: Hub)
    requires TasksAgree(h) && Ordered(h) && !who.NoWinner?
    requires next.log == h.log && next.allotted == h.allotted && next.disconnected
    requires next.winner == if h.disconnected then h.winner else who
    requires if h.disconnected || who.MainWon? then next.reader.ReaderReporting? == h.reader.ReaderReporting?
        else next.reader.ReaderReporting?
    requires if h.disconnected || who.ReaderWon? then next.main.MainReporting? == h.main.MainReporting?
        else next.main.MainReporting?
    requires !h.disconnected && who.ReaderWon? ==> !h.reader.ReaderReporting?
    requires !h.disconnected && who.MainWon? ==> !h.main.MainReporting?
    ensures Ordered(next)
  {
    if !h.disconnected {
      NoDisconnectionYet(h.log);
    }
  }

  /** A report of the disconnection by the task that owes it. */
  lemma ReportOrdered(h: Hub, next: Hub)
    requires TasksAgree(h) && Ordered(h) && Reporting(h) && h.log != []
    requires next.log == h.log + [RopeDisconnected(h.allotted.value.ropeId)]
    requires next.allotted == h.allotted && next.disconnected == h.disconnected && next.winner == h.winner
    requires if h.reader.ReaderReporting? && !next.reader.ReaderReporting?
             then next.main.MainReporting? == h.main.MainReporting?
             else
               && h.main.MainReporting? && !next.main.MainReporting?
               && next.reader.ReaderReporting? == h.reader.ReaderReporting?
    ensures Ordered(next)
  {
    AppendOrdered(h.log, RopeDisconnected(h.allotted.value.ropeId), h.allotted.value.ropeId);
  }

  lemma ReadOrdered(h: Hub, ropeId: string, d: Delivery, at: Instants)
    requires TasksAgree(h) && Ordered(h) && h.reader.Polling?
        && h.allotted == Some(Allotment(h.allotted.value.connectionId, ropeId))
    ensures Ordered(HubReads(h, ropeId, d, at))
  {
    if d.Parsed? && IsReported(d.env) {
      AppendOrdered(h.log, HubReport(d.env, ropeId), ropeId);
      if !h.disconnected {
        NoDisconnectionYet(h.log);
      }
    }
  }

  lemma AnnounceOrdered(h: Hub, next: Hub)
    requires TasksAgree(h) && Ordered(h) && h.log == [] && h.allotted.Some? && !h.disconnected && !Reporting(h)
    requires |next.log| == 1 && next.log[0].RopeConnected? && next.log[0].ropeId == h.allotted.value.ropeId
    requires next.allotted == h.allotted && !next.disconnected && next.winner == h.winner && !Reporting(next)
    ensures Ordered(next)
  {
    NoDisconnectionYet(next.log);
  }

  /** Any other step leaves the log and the flag alone. */
  lemma OtherwiseOrdered(h: Hub, next: Hub)
    requires Ordered(h) && !Reporting(h) == !Reporting(next)
    requires next.log == h.log && (h.log == [] || next.allotted == h.allotted)
    requires next.disconnected == h.disconnected && next.winner == h.winner
    requires next.reader.ReaderReporting? == h.reader.ReaderReporting?
        && next.main.MainReporting? == h.main.MainReporting?
    ensures Ordered(next)
  {
  }

  lemma HubOrdered(setup: Setup, s: State, l: HubStep)
    requires HubEnabled(s, l) && TasksAgree(s.hub) && Ordered(s.hub)
    ensures Ordered(NextHub(setup, s, l).hub)
  {
    var h, next := s.hub, NextHub(setup, s, l).hub;
    match l {
      case ReaderSwap => SwapOrdered(h, ReaderWon, next);
      case MainSwap => SwapOrdered(h, MainWon, next);
      case ReaderReport => ReportOrdered(h, next);
      case MainReport => ReportOrdered(h, next);
      case HubRead(at) => ReadOrdered(h, h.allotted.value.ropeId, s.toHub.frames[0], at);
      case Announce => AnnounceOrdered(h, next);
      case _ => OtherwiseOrdered(h, next);
    }
  }

  lemma StreamDisciplined(setup: Setup, s: State, l: StreamStep)
    requires StreamEnabled(s, l) && LogDisciplined(s)
    ensures LogDisciplined(NextStream(setup, s, l))
  {
    if l.EmitFrame? {
      EmitDisciplined(setup, s, l.stream);
    }
  }

  lemma EmitDisciplined(setup: Setup, s: State, u: nat)
    requires StreamEnabled(s, EmitFrame(u)) && LogDisciplined(s)
    ensures LogDisciplined(NextStream(setup, s, EmitFrame(u)))
  {
    var task := s.unis[u].task;
    var t := NextStream(setup, s, EmitFrame(u));
    assert s.hub.log != [];
    var e := FrameReceived(s.hub.allotted.value.ropeId, task.streamId, task.frame);
    assert t.hub == s.hub.(log := s.hub.log + [e]);
    FrameOrdered(s.hub, e);
  }

  lemma FrameOrdered(h: Hub, e: HubEvent)
    requires TasksAgree(h) && Ordered(h) && h.log != [] && e.FrameReceived? && e.ropeId == h.allotted.value.ropeId
    ensures TasksAgree(h.(log := h.log + [e])) && Ordered(h.(log := h.log + [e]))
  {
    AppendOrdered(h.log, e, h.allotted.value.ropeId);
  }

  lemma HubDisciplined(setup: Setup, s: State, l: HubStep)
    requires HubEnabled(s, l) && LogDisciplined(s)
    ensures LogDisciplined(NextHub(setup, s, l))
  {
    HubTasksAgree(setup, s, l);
    HubOrdered(setup, s, l);
    SessionGating.HubLog(setup, s, l);
    assert NextHub(setup, s, l).unis == s.unis;
  }

  lemma FaultDisciplined(s: State, l: Fault)
    requires FaultEnabled(s, l) && LogDisciplined(s)
    ensures LogDisciplined(NextFault(s, l))
  {
  }

  lemma InputDisciplined(setup: Setup, s: State, l: Input)
    requires InputEnabled(s, l) && LogDisciplined(s)
    ensures LogDisciplined(NextInput(setup, s, l))
  {
  }

  lemma {:induction false} LogDisciplinedRun(setup: Setup, run: seq<Label>)
    requires Runs(setup, Initial, run)
    ensures LogDisciplined(After(setup, Initial, run))
  {
    if run != [] {
      var before := After(setup, Initial, run[..|run| - 1]);
      LogDisciplinedRun(setup, run[..|run| - 1]);
      match run[|run| - 1] {
        case App(i) => InputDisciplined(setup, before, i);
        case AtClient(i) =>
          assert NextClient(before, i).hub == before.hub && NextClient(before, i).unis == before.unis;
        case AtHub(i) => HubDisciplined(setup, before, i);
        case OnStream(i) => StreamDisciplined(setup, before, i);
        case Wrong(i) => FaultDisciplined(before, i);
      }
    }
  }

  /**
   * In every run: RopeConnected comes first and once, every event names the allotted rope, RopeDisconnected comes at
   * most once, and exactly once when the session directory was made and both loops have ended; when the reader
   * swapped the flag first, nothing the reader reports follows it.
   */
  lemma {:induction false} EventLogDiscipline(setup: Setup, run: seq<Label>)
    requires Runs(setup, Initial, run)
    ensures var h := After(setup, Initial, run).hub;
            && ConnectedFirst(h.log)
            && (h.log != [] ==> h.allotted.Some? && OneRope(h.log, h.allotted.value.ropeId))
            && Total(h.log, Disconnection()) <= 1
            && (h.main == Finished(true) && h.reader.Stopped? ==> Total(h.log, Disconnection()) == 1)
            && (!DirectoryMade(h.main) ==> Total(h.log, Disconnection()) == 0)
            && (h.winner.ReaderWon? ==> QuietAfterDisconnect(h.log))
  {
    LogDisciplinedRun(setup, run);
  }
}
