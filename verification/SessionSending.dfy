/**
 * The way to the hub, in every run: what its reader takes, and so what it reports and answers, is what the client
 * queued.
 */
module SessionSending {
  import opened Messages
  import opened Sequences
  import opened Session
  import opened Tasks
  import opened SessionHandshake
  import opened SessionReading
  import SessionLog

  // ---- what the client has queued ----

  /**
   * What a step puts into the client's control queue: a message of its application, a request, or an answer to a ping.
   */
  ghost function QueuedBy(s: State, l: Label): (q: seq<Envelope>)
    requires Enabled(s, l)
    ensures !s.client.writing || !s.client.phase.Tied? ==> q == []
  {
    var c := s.client;
    if !c.writing || !c.phase.Tied? then []
    else
      match l
      case App(ClientSend(env)) => [env]
      case AtClient(SendOpen(i, msgId, now)) => [OpenEnvelope(c, c.calls[i], msgId, now)]
      case AtClient(ClientRead(at)) =>
        var d := s.toClient.frames[0];
        if d.Parsed? && d.env.payload.Ping? then [PongTo(d.env, c.phase.ropeId, c.phase.connectionId, at)] else []
      case _ => []
  }

  /** Everything the client has ever queued, in order. */
  ghost function Queued(setup: Setup, run: seq<Label>): seq<Envelope> {
    if run == [] then []
    else
      var front, l := run[..|run| - 1], run[|run| - 1];
      var before := After(setup, Initial, front);
      Queued(setup, front) + (if Enabled(before, l) then QueuedBy(before, l) else [])
  }

  lemma ReadQueues(s: State, at: Instants)
    requires ClientEnabled(s, ClientRead(at)) && s.client.phase.Tied?
    ensures NextClient(s, ClientRead(at)).client.queue == s.client.queue + QueuedBy(s, AtClient(ClientRead(at)))
    ensures NextClient(s, ClientRead(at)).client.writing == s.client.writing
    ensures NextClient(s, ClientRead(at)).client.phase == s.client.phase
  {
  }

  // ---- on the wire ----

  /** What is on a wire, against the messages put there and not read yet. */
  ghost predicate Carries(wire: Wire, rest: seq<Envelope>) {
    && |wire.frames| <= |rest|
    && (wire.open ==> |wire.frames| == |rest|)
    && forall k :: 0 <= k < |wire.frames| && wire.frames[k].Parsed? ==> wire.frames[k].env == rest[k]
  }

  /** The reader has taken the first of the messages queued, but for garbled ones. */
  ghost predicate TakenFrom(read: seq<Delivery>, queued: seq<Envelope>) {
    |read| <= |queued| && forall k :: 0 <= k < |read| && read[k].Parsed? ==> read[k].env == queued[k]
  }

  /** Of the messages `q` the client has queued, `m` have been put on the wire, where the Tie goes before them. */
  ghost predicate OnTheWay(s: State, q: seq<Envelope>, m: nat) {
    var c, h := s.client, s.hub;
    && m <= |q|
    && (!c.phase.Tied? ==> q == [] && c.queue == [])
    && (c.phase.Idle? && !h.main.AwaitingTie? ==> !s.toHub.open)
    && (c.writing ==> q[m..] == c.queue)
    && (if h.main.AwaitingTie?
        then |s.toHub.frames| <= 1 && h.read == []
        else |h.read| <= m && TakenFrom(h.read, q) && Carries(s.toHub, q[|h.read|..m]))
  }

  lemma TiedIsAnswered(setup: Setup, s: State)
    requires Shaken(setup, s) && s.client.phase.Tied?
    ensures !s.hub.main.AwaitingTie?
  {
  }

  lemma QueuedMore(s: State, t: State, q: seq<Envelope>, m: nat, more: seq<Envelope>)
    requires OnTheWay(s, q, m) && t.client.phase == s.client.phase && t.client.writing == s.client.writing
    requires t.client.queue == s.client.queue + more && (s.client.phase.Tied? || more == [])
    requires t.toHub == s.toHub && t.hub.main.AwaitingTie? == s.hub.main.AwaitingTie? && t.hub.read == s.hub.read
    ensures OnTheWay(t, q + more, m)
  {
    assert s.hub.main.AwaitingTie? || (q + more)[|s.hub.read|..m] == q[|s.hub.read|..m];
    assert (q + more)[m..] == q[m..] + more;
  }

  /** The steps that leave the client's queue and the wire to the hub alone. */
  lemma WaySame(s: State, t: State, q: seq<Envelope>, m: nat)
    requires OnTheWay(s, q, m) && t.client.phase == s.client.phase && t.client.queue == s.client.queue
    requires t.client.writing ==> s.client.writing
    requires t.toHub == s.toHub && t.hub.main.AwaitingTie? == s.hub.main.AwaitingTie? && t.hub.read == s.hub.read
    ensures OnTheWay(t, q, m)
  {
  }

  lemma WayInput(setup: Setup, s: State, l: Input, q: seq<Envelope>, m: nat)
    requires InputEnabled(s, l) && OnTheWay(s, q, m) && FirstToHub(setup, s)
    ensures OnTheWay(NextInput(setup, s, l), q + QueuedBy(s, App(l)), m)
  {
    var t := NextInput(setup, s, l);
    if l.TieTheKnot? {
      assert q + [] == q && q[0..0] == [];
    } else {
      QueuedMore(s, t, q, m, QueuedBy(s, App(l)));
    }
  }

  lemma WayForward(s: State, q: seq<Envelope>, m: nat) returns (n: nat)
    requires ClientEnabled(s, ClientForward) && OnTheWay(s, q, m) && !s.hub.main.AwaitingTie?
    ensures OnTheWay(NextClient(s, ClientForward), q, n)
  {
    n := m;
    if s.toHub.open {
      n := m + 1;
      assert q[m..][0] == q[m] && q[m..][1..] == q[m + 1..];
      assert q[|s.hub.read|..m + 1] == q[|s.hub.read|..m] + [q[m]];
    }
  }

  lemma WayClient(setup: Setup, s: State, l: ClientStep, q: seq<Envelope>, m: nat) returns (n: nat)
    requires ClientEnabled(s, l) && OnTheWay(s, q, m) && Shaken(setup, s)
    requires s.client.reading ==> s.client.phase.Tied?
    ensures OnTheWay(NextClient(s, l), q + QueuedBy(s, AtClient(l)), n)
  {
    n := m;
    assert q + [] == q;
    match l {
      case ClientForward =>
        TiedIsAnswered(setup, s);
        n := WayForward(s, q, m);
      case ClientRead(at) =>
        ReadQueues(s, at);
        QueuedMore(s, NextClient(s, l), q, m, QueuedBy(s, AtClient(l)));
      case SendOpen(_, _, _) => QueuedMore(s, NextClient(s, l), q, m, QueuedBy(s, AtClient(l)));
      case ReadReply => WayReply(s, q, m);
      case ReplyMissing => WayReply(s, q, m);
      case _ => WaySame(s, NextClient(s, l), q, m);
    }
  }

  lemma WayReply(s: State, q: seq<Envelope>, m: nat)
    requires OnTheWay(s, q, m) && s.client.phase.AwaitingReply?
    ensures ClientEnabled(s, ReadReply) ==> OnTheWay(NextClient(s, ReadReply), q, m)
    ensures ClientEnabled(s, ReplyMissing) ==> OnTheWay(NextClient(s, ReplyMissing), q, m)
  {
  }

  lemma WayRead(setup: Setup, s: State, at: Instants, q: seq<Envelope>, m: nat)
    requires HubEnabled(s, HubRead(at)) && OnTheWay(s, q, m) && !s.hub.main.AwaitingTie?
    ensures OnTheWay(NextHub(setup, s, HubRead(at)), q, m)
  {
    var n := |s.hub.read|;
    assert q[n..m][0] == q[n] && q[n + 1..m] == q[n..m][1..];
  }

  lemma HubLeavesTheWay(setup: Setup, s: State, l: HubStep)
    requires HubEnabled(s, l) && !l.HandleTie? && !l.TieMissing? && !l.HubRead? && SessionLog.TasksAgree(s.hub)
    ensures var t := NextHub(setup, s, l);
            && t.client == s.client && t.toHub == s.toHub && t.hub.read == s.hub.read
            && t.hub.main.AwaitingTie? == s.hub.main.AwaitingTie?
  {
  }

  lemma WayTie(setup: Setup, s: State, l: HubStep, q: seq<Envelope>, m: nat)
    requires HubEnabled(s, l) && (l.HandleTie? || l.TieMissing?) && OnTheWay(s, q, m) && Shaken(setup, s)
    ensures OnTheWay(NextHub(setup, s, l), q, m)
  {
    assert !s.client.phase.Tied? && q == [] && q[0..0] == [];
    TieHandled(setup, s, l);
  }

  /** The hub takes at most the Tie, and does not wait for one any more. */
  lemma TieHandled(setup: Setup, s: State, l: HubStep)
    requires HubEnabled(s, l) && (l.HandleTie? || l.TieMissing?)
    ensures var t := NextHub(setup, s, l);
            && t.client == s.client && t.hub.read == s.hub.read && !t.hub.main.AwaitingTie?
            && t.toHub == s.toHub.(frames := if l.HandleTie? then s.toHub.frames[1..] else s.toHub.frames)
  {
  }

  lemma WayHub(setup: Setup, s: State, l: HubStep, q: seq<Envelope>, m: nat)
    requires HubEnabled(s, l) && OnTheWay(s, q, m) && Shaken(setup, s)
    ensures OnTheWay(NextHub(setup, s, l), q, m)
  {
    if l.HandleTie? || l.TieMissing? {
      WayTie(setup, s, l, q, m);
    } else if l.HubRead? {
      WayRead(setup, s, l.at, q, m);
    } else {
      HubLeavesTheWay(setup, s, l);
      WaySame(s, NextHub(setup, s, l), q, m);
    }
  }

  lemma WayStream(setup: Setup, s: State, l: StreamStep, q: seq<Envelope>, m: nat)
    requires StreamEnabled(s, l) && OnTheWay(s, q, m)
    ensures OnTheWay(NextStream(setup, s, l), q, m)
  {
    WaySame(s, NextStream(setup, s, l), q, m);
  }

  lemma WayFault(s: State, l: Fault, q: seq<Envelope>, m: nat)
    requires FaultEnabled(s, l) && OnTheWay(s, q, m)
    ensures OnTheWay(NextFault(s, l), q, m)
  {
    if !l.CutToHub? && !l.GarbleToHub? && !l.WelcomeFails? {
      WaySame(s, NextFault(s, l), q, m);
    }
  }

  lemma WayStep(setup: Setup, s: State, l: Label, q: seq<Envelope>, m: nat) returns (n: nat)
    requires Enabled(s, l) && OnTheWay(s, q, m) && Shaken(setup, s)
    requires s.client.reading ==> s.client.phase.Tied?
    ensures OnTheWay(Next(setup, s, l), q + QueuedBy(s, l), n)
  {
    n := m;
    assert q + [] == q;
    match l {
      case App(i) => WayInput(setup, s, i, q, m);
      case AtClient(i) => n := WayClient(setup, s, i, q, m);
      case AtHub(i) => WayHub(setup, s, i, q, m);
      case OnStream(i) => WayStream(setup, s, i, q, m);
      case Wrong(i) => WayFault(s, i, q, m);
    }
  }

  lemma {:induction false} WayRun(setup: Setup, run: seq<Label>) returns (m: nat)
    requires Runs(setup, Initial, run)
    ensures OnTheWay(After(setup, Initial, run), Queued(setup, run), m)
  {
    m := 0;
    if run != [] {
      var front := run[..|run| - 1];
      ShakenRun(setup, front);
      var _ := TransitRun(setup, front);
      m := WayRun(setup, front);
      m := WayStep(setup, After(setup, Initial, front), run[|run| - 1], Queued(setup, front), m);
    }
  }

  // ---- what the hub makes of it ----

  predicate Garbles(l: Label) {
    l.Wrong? && l.fault.GarbleToHub?
  }

  ghost predicate Clean(run: seq<Label>) {
    forall k :: 0 <= k < |run| ==> !Garbles(run[k])
  }

  ghost predicate AllReadable(frames: seq<Delivery>) {
    forall k :: 0 <= k < |frames| ==> frames[k].Parsed?
  }

  ghost predicate Readable(s: State) {
    AllReadable(s.toHub.frames) && AllReadable(s.hub.read)
  }

  lemma ReadableStep(setup: Setup, s: State, l: Label)
    requires Enabled(s, l) && Readable(s) && !Garbles(l)
    ensures Readable(Next(setup, s, l))
  {
    match l
    case App(_) =>
    case AtClient(_) =>
    case AtHub(i) => HubReadable(setup, s, i);
    case OnStream(i) => assert NextStream(setup, s, i).toHub == s.toHub
        && NextStream(setup, s, i).hub.read == s.hub.read;
    case Wrong(_) =>
  }

  lemma HubReadable(setup: Setup, s: State, l: HubStep)
    requires HubEnabled(s, l) && Readable(s)
    ensures Readable(NextHub(setup, s, l))
  {
  }

  lemma {:induction false} ReadableRun(setup: Setup, run: seq<Label>)
    requires Runs(setup, Initial, run) && Clean(run)
    ensures Readable(After(setup, Initial, run))
  {
    if run != [] {
      ReadableRun(setup, run[..|run| - 1]);
      ReadableStep(setup, After(setup, Initial, run[..|run| - 1]), run[|run| - 1]);
    }
  }

  lemma {:induction false} EnvelopesTaken(read: seq<Delivery>, queued: seq<Envelope>)
    requires AllReadable(read) && TakenFrom(read, queued)
    ensures Envelopes(read) == queued[..|read|]
  {
    if read != [] {
      EnvelopesTaken(read[..|read| - 1], queued);
    }
  }

  /** Nothing is left for the hub's reader to take. */
  predicate DrainedToHub(s: State) {
    s.client.writing && s.client.queue == [] && s.toHub.open && s.toHub.frames == [] && !s.hub.main.AwaitingTie?
  }

  /**
   * In every run, faults included: the hub's reader has taken, in order, the first `n` messages the client ever queued,
   * but for garbled ones, and all of them once nothing is left to take. When none was garbled, what the hub reports of
   * its reader is the in-order image of the requests and events among those `n`, and its replies answer the first of
   * the requests among them, one each and in order.
   */
  lemma {:induction false} HubReadsTheQueue(setup: Setup, run: seq<Label>) returns (n: nat)
    requires Runs(setup, Initial, run)
    ensures var s, q := After(setup, Initial, run), Queued(setup, run);
            && n == |s.hub.read| && TakenFrom(s.hub.read, q)
            && (DrainedToHub(s) ==> n == |q|)
            && (Clean(run) ==>
                  && n <= |q| && |s.hub.byReader| == |s.hub.enqueued|
                  && (s.hub.allotted.Some? ==>
                        ReportsInOrder([], Filter(s.hub.log, SessionLog.FromReader), Filter(q[..n], IsReported),
                                       s.hub.allotted.value.ropeId))
                  && AreReplies(Select(s.hub.enqueued, s.hub.byReader, true), Filter(q[..n], IsRequest)))
  {
    var s, q := After(setup, Initial, run), Queued(setup, run);
    n := |s.hub.read|;
    var m := WayRun(setup, run);
    HubAnswersWhatItReads(setup, run);
    if DrainedToHub(s) {
      assert q[m..] == [] && |q[n..m]| == 0;
    }
    if Clean(run) {
      ReadableRun(setup, run);
      EnvelopesTaken(s.hub.read, q);
    }
  }
}
