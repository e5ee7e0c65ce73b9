/** No frame before its stream was opened: the causal chain from hub reader to frame task, id by id, in every run. */
module SessionGating {
  import opened Messages
  import opened Sequences
  import opened Session
  import opened Admission
  import BigEndian

  predicate Opens(e: HubEvent, id: string) {
    e.StreamOpened? && e.streamId == id
  }

  /** The hub has reported a stream with this id as opened. */
  ghost predicate Opened(log: seq<HubEvent>, id: string) {
    exists j :: 0 <= j < |log| && Opens(log[j], id)
  }

  /** Every frame reported under an id stands behind a StreamOpened with that id. */
  ghost predicate Gated(log: seq<HubEvent>, id: string) {
    forall k :: 0 <= k < |log| && log[k].FrameReceived? && log[k].streamId == id ==>
      exists j :: 0 <= j < k && Opens(log[j], id)
  }

  // ---- where an id is not ----

  predicate EnvelopeFree(id: string, env: Envelope) {
    !(env.payload.StreamAccepted? && env.payload.streamId == id)
  }

  predicate DeliveryFree(id: string, d: Delivery) {
    d.Parsed? ==> EnvelopeFree(id, d.env)
  }

  predicate CallFree(id: string, call: Call) {
    call.streamId == id ==> !call.slot.Fulfilled? && !call.pc.Opening? && !call.pc.Configuring? && !call.pc.Streaming?
  }

  predicate ItemFree(id: string, item: Item) {
    item.Config? ==> item.streamId != id
  }

  predicate UniFree(id: string, u: Uni) {
    && (forall k :: 0 <= k < |u.items| ==> ItemFree(id, u.items[k]))
    && (Live(u.task) ==> u.task.streamId != id)
  }

  ghost predicate MessagesFree(s: State, id: string) {
    && (s.hub.reader.Replying? ==> EnvelopeFree(id, s.hub.reader.reply))
    && (forall k :: 0 <= k < |s.hub.queue| ==> EnvelopeFree(id, s.hub.queue[k]))
    && (forall k :: 0 <= k < |s.toClient.frames| ==> DeliveryFree(id, s.toClient.frames[k]))
  }

  ghost predicate CallsFree(c: Client, id: string) {
    forall i :: 0 <= i < |c.calls| ==> CallFree(id, c.calls[i])
  }

  ghost predicate UnisFree(unis: seq<Uni>, id: string) {
    forall u :: 0 <= u < |unis| ==> UniFree(id, unis[u])
  }

  /** No acceptance of the id is under way, no call has been told, no stream bears it. */
  ghost predicate Absent(s: State, id: string) {
    MessagesFree(s, id) && CallsFree(s.client, id) && UnisFree(s.unis, id)
  }

  ghost predicate PendingNamed(c: Client) {
    forall id :: id in c.pending ==> c.pending[id] < |c.calls| && c.calls[c.pending[id]].streamId == id
  }

  /** The id of a stream travels only behind its StreamOpened. */
  ghost predicate Causal(s: State, id: string) {
    PendingNamed(s.client) && Gated(s.hub.log, id) && (Opened(s.hub.log, id) || Absent(s, id))
  }

  /** The event a step reports, if it reports one. */
  ghost function HubNews(setup: Setup, s: State, l: HubStep): seq<HubEvent>
    requires HubEnabled(s, l)
  {
    match l
    case HubRead(_) =>
      if s.toHub.frames[0].Parsed? && IsReported(s.toHub.frames[0].env)
      then [HubReport(s.toHub.frames[0].env, s.hub.allotted.value.ropeId)] else []
    case Announce => [RopeConnected(s.hub.allotted.value.ropeId, s.hub.main.knotId, setup.config.remoteNodeId,
        s.hub.main.capabilities)]
    case ReaderReport => [RopeDisconnected(s.hub.allotted.value.ropeId)]
    case MainReport => [RopeDisconnected(s.hub.allotted.value.ropeId)]
    case _ => []
  }

  ghost function StreamNews(s: State, l: StreamStep): seq<HubEvent>
    requires StreamEnabled(s, l)
  {
    match l
    case EmitFrame(u) => [FrameReceived(s.hub.allotted.value.ropeId, s.unis[u].task.streamId, s.unis[u].task.frame)]
    case _ => []
  }

  ghost function News(setup: Setup, s: State, l: Label): (news: seq<HubEvent>)
    requires Enabled(s, l)
    ensures |news| <= 1
  {
    match l
    case AtHub(i) => HubNews(setup, s, i)
    case OnStream(i) => StreamNews(s, i)
    case _ => []
  }

  lemma HubLog(setup: Setup, s: State, l: HubStep)
    requires HubEnabled(s, l)
    ensures NextHub(setup, s, l).hub.log == s.hub.log + HubNews(setup, s, l)
  {
  }

  lemma StreamLog(setup: Setup, s: State, l: StreamStep)
    requires StreamEnabled(s, l)
    ensures NextStream(setup, s, l).hub.log == s.hub.log + StreamNews(s, l)
  {
  }

  lemma LogIsNews(setup: Setup, s: State, l: Label)
    requires Enabled(s, l)
    ensures Next(setup, s, l).hub.log == s.hub.log + News(setup, s, l)
  {
    match l {
      case AtHub(i) => HubLog(setup, s, i);
      case OnStream(i) => StreamLog(setup, s, i);
      case App(_) =>
      case AtClient(_) =>
      case Wrong(_) =>
    }
  }

  lemma NewsGated(log: seq<HubEvent>, news: seq<HubEvent>, id: string)
    requires Gated(log, id) && |news| <= 1
    requires news != [] && news[0].FrameReceived? && news[0].streamId == id ==> Opened(log, id)
    ensures Gated(log + news, id)
    ensures Opened(log + news, id) <==> Opened(log, id) || (news != [] && Opens(news[0], id))
  {
    var more := log + news;
    assert forall k :: 0 <= k < |log| ==> more[k] == log[k];
    if Opened(log, id) {
      var j :| 0 <= j < |log| && Opens(log[j], id);
      assert Opens(more[j], id);
    }
    if news != [] {
      assert more[|log|] == news[0];
    }
    forall k | 0 <= k < |log| && more[k].FrameReceived? && more[k].streamId == id
      ensures exists j :: 0 <= j < k && Opens(more[j], id)
    {
      var j :| 0 <= j < k && Opens(log[j], id);
      assert Opens(more[j], id);
    }
  }

  lemma InputAbsent(setup: Setup, s: State, l: Input, id: string)
    requires InputEnabled(s, l) && Absent(s, id)
    requires Injects(App(l)) ==> l.env.payload.streamId != id
    ensures Absent(NextInput(setup, s, l), id)
  {
  }

  lemma ReadsAbsent(c: Client, d: Delivery, at: Instants, id: string)
    requires PendingNamed(c) && CallsFree(c, id) && DeliveryFree(id, d)
    ensures CallsFree(ClientReads(c, d, at), id)
  {
  }

  lemma ClientAbsent(s: State, l: ClientStep, id: string)
    requires ClientEnabled(s, l) && PendingNamed(s.client) && Absent(s, id)
    ensures Absent(NextClient(s, l), id)
  {
    if l.ClientRead? {
      ReadsAbsent(s.client, s.toClient.frames[0], l.at, id);
    }
  }

  lemma HubAbsent(setup: Setup, s: State, l: HubStep, id: string)
    requires HubEnabled(s, l) && MessagesFree(s, id)
    requires HubNews(setup, s, l) != [] ==> !Opens(HubNews(setup, s, l)[0], id)
    ensures MessagesFree(NextHub(setup, s, l), id)
  {
    if l.HandleTie? {
      TieAbsent(setup, s, l.count, l.now, id);
    }
  }

  lemma TieAbsent(setup: Setup, s: State, count: nat, now: BigEndian.u64, id: string)
    requires HubEnabled(s, HandleTie(count, now)) && MessagesFree(s, id)
    ensures MessagesFree(HandleFirst(s, setup, s.toHub.frames[0], count, now), id)
  {
  }

  lemma StreamAbsent(setup: Setup, s: State, l: StreamStep, id: string)
    requires StreamEnabled(s, l) && Absent(s, id)
    ensures Absent(NextStream(setup, s, l), id)
  {
  }

  lemma FaultAbsent(s: State, l: Fault, id: string)
    requires FaultEnabled(s, l) && Absent(s, id)
    ensures Absent(NextFault(s, l), id)
  {
  }

  /** The hub's application accepts a stream itself, before the hub has reported it as opened. */
  ghost predicate Premature(s: State, l: Label) {
    Injects(l) && !Opened(s.hub.log, l.input.env.payload.streamId)
  }

  /** The ids the hub's application accepts early are among `early`. */
  ghost predicate EarlyOnly(setup: Setup, run: seq<Label>, early: iset<string>) {
    run == [] ||
    var front, l := run[..|run| - 1], run[|run| - 1];
    EarlyOnly(setup, front, early)
        && (Premature(After(setup, Initial, front), l) ==> l.input.env.payload.streamId in early)
  }

  lemma AbsentStep(setup: Setup, s: State, l: Label, id: string)
    requires Enabled(s, l) && PendingNamed(s.client) && Absent(s, id)
    requires Injects(l) ==> l.input.env.payload.streamId != id
    requires News(setup, s, l) != [] ==> !Opens(News(setup, s, l)[0], id)
    ensures Absent(Next(setup, s, l), id)
  {
    match l
    case App(i) => InputAbsent(setup, s, i, id);
    case AtClient(i) => ClientAbsent(s, i, id);
    case AtHub(i) => HubAbsent(setup, s, i, id);
    case OnStream(i) => StreamAbsent(setup, s, i, id);
    case Wrong(i) => FaultAbsent(s, i, id);
  }

  lemma InputNamed(setup: Setup, s: State, l: Input)
    requires InputEnabled(s, l) && PendingNamed(s.client)
    ensures PendingNamed(NextInput(setup, s, l).client)
  {
  }

  lemma ClientNamed(s: State, l: ClientStep)
    requires ClientEnabled(s, l) && PendingNamed(s.client)
    ensures PendingNamed(NextClient(s, l).client)
  {
    if l.ClientRead? {
      ReadsNamed(s.client, s.toClient.frames[0], l.at);
    }
  }

  lemma ReadsNamed(c: Client, d: Delivery, at: Instants)
    requires PendingNamed(c)
    ensures PendingNamed(ClientReads(c, d, at))
  {
  }

  lemma StreamNamed(setup: Setup, s: State, l: StreamStep)
    requires StreamEnabled(s, l) && PendingNamed(s.client)
    ensures PendingNamed(NextStream(setup, s, l).client)
  {
  }

  lemma FaultNamed(s: State, l: Fault)
    requires FaultEnabled(s, l) && PendingNamed(s.client)
    ensures PendingNamed(NextFault(s, l).client)
  {
  }

  lemma PendingStaysNamed(setup: Setup, s: State, l: Label)
    requires Enabled(s, l) && PendingNamed(s.client)
    ensures PendingNamed(Next(setup, s, l).client)
  {
    match l
    case App(i) => InputNamed(setup, s, i);
    case AtClient(i) => ClientNamed(s, i);
    case AtHub(i) => assert NextHub(setup, s, i).client == s.client;
    case OnStream(i) => StreamNamed(setup, s, i);
    case Wrong(i) => FaultNamed(s, i);
  }

  /** A frame is reported under an id only by a task that bears it. */
  lemma NewsJustified(setup: Setup, s: State, l: Label, id: string)
    requires Enabled(s, l) && Absent(s, id)
    ensures var news := News(setup, s, l); news != [] && news[0].FrameReceived? ==> news[0].streamId != id
  {
  }

  lemma CausalStep(setup: Setup, s: State, l: Label, id: string)
    requires Causal(s, id) && Enabled(s, l)
    requires Premature(s, l) ==> l.input.env.payload.streamId != id
    ensures Causal(Next(setup, s, l), id)
  {
    LogIsNews(setup, s, l);
    PendingStaysNamed(setup, s, l);
    if !Opened(s.hub.log, id) {
      NewsJustified(setup, s, l, id);
    }
    NewsGated(s.hub.log, News(setup, s, l), id);
    if !Opened(Next(setup, s, l).hub.log, id) {
      AbsentStep(setup, s, l, id);
    }
  }

  lemma {:induction false} CausalRun(setup: Setup, run: seq<Label>, early: iset<string>, id: string)
    requires Runs(setup, Initial, run) && EarlyOnly(setup, run, early) && id !in early
    ensures Causal(After(setup, Initial, run), id)
  {
    if run != [] {
      CausalRun(setup, run[..|run| - 1], early, id);
      CausalStep(setup, After(setup, Initial, run[..|run| - 1]), run[|run| - 1], id);
    }
  }

  /**
   * Stream gating, id by id: in every run, faults included, whatever other ids the hub's application accepts early,
   * every frame the hub reports under an id it does not accept early stands behind a StreamOpened for that id; and no
   * call holds a stream under that id that the hub has not reported as opened.
   */
  lemma {:induction false} FramesComeAfterStreamOpened(setup: Setup, run: seq<Label>, early: iset<string>, id: string)
    requires Runs(setup, Initial, run) && EarlyOnly(setup, run, early) && id !in early
    ensures var s := After(setup, Initial, run);
            && Gated(s.hub.log, id)
            && (forall i :: 0 <= i < |s.client.calls| && s.client.calls[i].pc.Streaming? ==>
                  s.client.calls[i].streamId == id ==> Opened(s.hub.log, id))
  {
    CausalRun(setup, run, early, id);
  }
}
