/**
 * What each side makes of what it reads, in every run: the hub's reports and replies are the in-order image of what its
 * reader took, and the client's application sees, in order, what the hub queued.
 */
module SessionReading {
  import opened Messages
  import opened Sequences
  import opened Session
  import opened Tasks
  import opened SessionHandshake
  import opened Admission
  import BigEndian
  import SessionGating
  import SessionLog

  // ---- the hub's reader ----

  ghost predicate IsReplyTo(reply: Envelope, request: Envelope) {
    exists at :: Answers(reply, request, at)
  }

  /** The replies are those to the first of the requests, one each, in order. */
  ghost predicate AreReplies(replies: seq<Envelope>, requests: seq<Envelope>) {
    |replies| <= |requests| && forall k :: 0 <= k < |replies| ==> IsReplyTo(replies[k], requests[k])
  }

  ghost predicate ReportsRead(h: Hub) {
    && (h.read != [] ==> h.allotted.Some? && h.log != [])
    && (if h.allotted.Some?
        then ReportsInOrder([], Filter(h.log, SessionLog.FromReader), Reported(h.read), h.allotted.value.ropeId)
        else Filter(h.log, SessionLog.FromReader) == [])
  }

  /** A reply under way answers the last request; with a live writer every earlier one has its reply in the queue. */
  ghost predicate RepliesRead(h: Hub) {
    && |h.byReader| == |h.enqueued|
    && var replies, requests := Select(h.enqueued, h.byReader, true), Requests(h.read);
    && AreReplies(replies, requests)
    && (h.reader.Replying? ==> requests != [] && IsReplyTo(h.reader.reply, requests[|requests| - 1]))
    && (h.writing ==> |replies| + (if h.reader.Replying? then 1 else 0) == |requests|)
  }

  /** The reader takes nothing behind a frame it cannot read. */
  ghost predicate StopsAtError(h: Hub) {
    && (forall k :: 0 <= k < |h.read| - 1 ==> !h.read[k].ReadError?)
    && (h.reader.Polling? || h.reader.Replying? ==> forall k :: 0 <= k < |h.read| ==> !h.read[k].ReadError?)
    && (h.reader.NotSpawned? ==> h.read == [])
  }

  ghost predicate ReadInOrder(h: Hub) {
    ReportsRead(h) && RepliesRead(h) && StopsAtError(h)
  }

  lemma FilterNews(log: seq<HubEvent>, news: seq<HubEvent>)
    requires |news| <= 1
    ensures Filter(log + news, SessionLog.FromReader) ==
              Filter(log, SessionLog.FromReader) +
                  (if news != [] && SessionLog.FromReader(news[0]) then [news[0]] else [])
  {
    if news == [] {
      assert log + news == log;
    } else {
      assert news == [news[0]];
      FilterPush(log, news[0], SessionLog.FromReader);
    }
  }

  lemma ReadsNext(read: seq<Delivery>, d: Delivery, keep: Envelope -> bool)
    ensures Filter(Envelopes(read + [d]), keep) ==
              Filter(Envelopes(read), keep) + (if d.Parsed? && keep(d.env) then [d.env] else [])
  {
    EnvelopesNext(read + [d], |read|, keep);
    assert (read + [d])[..|read|] == read && (read + [d])[..|read| + 1] == read + [d];
  }

  lemma ReadReports(h: Hub, d: Delivery, at: Instants)
    requires ReportsRead(h) && h.allotted.Some? && h.log != []
    ensures ReportsRead(HubReads(h, h.allotted.value.ropeId, d, at).(read := h.read + [d]))
  {
    ReadsNext(h.read, d, IsReported);
    if d.Parsed? && IsReported(d.env) {
      var e := HubReport(d.env, h.allotted.value.ropeId);
      FilterNews(h.log, [e]);
      ReportsPush([], Filter(h.log, SessionLog.FromReader), Reported(h.read), d.env, h.allotted.value.ropeId);
    }
  }

  lemma ReadReplies(h: Hub, ropeId: string, d: Delivery, at: Instants)
    requires RepliesRead(h) && h.reader.Polling?
    ensures RepliesRead(HubReads(h, ropeId, d, at).(read := h.read + [d]))
  {
    ReadsNext(h.read, d, IsRequest);
    if d.Parsed? && IsRequest(d.env) {
      HubReplyAnswers(HubReply(d.env, at), d.env, at);
      assert IsReplyTo(HubReply(d.env, at), d.env);
    }
  }

  lemma EnqueueReplies(h: Hub, env: Envelope, byReader: bool)
    requires RepliesRead(h) && (byReader ==> h.reader.Replying? && env == h.reader.reply)
    ensures RepliesRead(if byReader then Enqueue(h, env, true).(reader := Polling) else Enqueue(h, env, false))
  {
    SelectPush(h.enqueued, h.byReader, env, byReader, true);
  }

  /** The other events of a connection are not the reader's. */
  lemma OtherReports(setup: Setup, s: State, l: Label)
    requires Enabled(s, l) && ReadInOrder(s.hub) && SessionLog.LogDisciplined(s) && !(l.AtHub? && l.hub.HubRead?)
    ensures ReportsRead(Next(setup, s, l).hub)
  {
    SessionGating.LogIsNews(setup, s, l);
    FilterNews(s.hub.log, SessionGating.News(setup, s, l));
    NotTheReaders(setup, s, l);
    if l.AtHub? && l.hub.HandleTie? {
      assert s.hub.log == [] && s.hub.read == [] && Next(setup, s, l).hub.log == [];
    } else {
      SameAllotted(setup, s, l);
    }
  }

  lemma NotTheReaders(setup: Setup, s: State, l: Label)
    requires Enabled(s, l) && !(l.AtHub? && l.hub.HubRead?)
    ensures var news := SessionGating.News(setup, s, l); news != [] ==> !SessionLog.FromReader(news[0])
    ensures Next(setup, s, l).hub.read == s.hub.read
  {
  }

  lemma SameAllotted(setup: Setup, s: State, l: Label)
    requires Enabled(s, l) && !(l.AtHub? && l.hub.HandleTie?)
    ensures Next(setup, s, l).hub.allotted == s.hub.allotted
  {
  }

  predicate Queues(l: Label) {
    (l.AtHub? && l.hub.QueueReply?) || (l.App? && l.input.HubSend?)
  }

  predicate SameQueue(h: Hub, t: Hub) {
    && t.enqueued == h.enqueued && t.byReader == h.byReader && t.read == h.read
    && (if h.reader.Replying? then t.reader == h.reader else !t.reader.Replying?)
    && (t.writing ==> h.writing)
  }

  lemma HubSameQueue(setup: Setup, s: State, l: HubStep)
    requires HubEnabled(s, l) && !l.QueueReply? && !l.HubRead? && SessionLog.TasksAgree(s.hub)
    ensures SameQueue(s.hub, NextHub(setup, s, l).hub)
  {
  }

  /** Only the reader's replies and the application's messages enter the control queue. */
  lemma OtherSameQueue(setup: Setup, s: State, l: Label)
    requires Enabled(s, l) && !l.AtHub? && !Queues(l)
    ensures SameQueue(s.hub, Next(setup, s, l).hub)
  {
  }

  lemma RepliesStep(setup: Setup, s: State, l: Label)
    requires Enabled(s, l) && RepliesRead(s.hub) && SessionLog.TasksAgree(s.hub)
    ensures RepliesRead(Next(setup, s, l).hub)
  {
    if l.AtHub? && l.hub.HubRead? {
      ReadReplies(s.hub, s.hub.allotted.value.ropeId, s.toHub.frames[0], l.hub.at);
    } else if l.AtHub? && l.hub.QueueReply? {
      EnqueueReplies(s.hub, s.hub.reader.reply, true);
    } else if l.App? && l.input.HubSend? {
      EnqueueReplies(s.hub, l.input.env, false);
    } else if l.AtHub? {
      HubSameQueue(setup, s, l.hub);
    } else {
      OtherSameQueue(setup, s, l);
    }
  }

  lemma StopStep(setup: Setup, s: State, l: Label)
    requires Enabled(s, l) && StopsAtError(s.hub) && SessionLog.TasksAgree(s.hub)
    ensures StopsAtError(Next(setup, s, l).hub)
  {
    if l.AtHub? {
      HubStops(setup, s, l.hub);
    } else {
      NotTheReaders(setup, s, l);
      assert Next(setup, s, l).hub.reader == s.hub.reader;
    }
  }

  lemma HubStops(setup: Setup, s: State, l: HubStep)
    requires HubEnabled(s, l) && StopsAtError(s.hub) && SessionLog.TasksAgree(s.hub)
    ensures StopsAtError(NextHub(setup, s, l).hub)
  {
  }

  lemma ReadStep(setup: Setup, s: State, l: Label)
    requires Enabled(s, l) && ReadInOrder(s.hub) && SessionLog.LogDisciplined(s)
    ensures ReadInOrder(Next(setup, s, l).hub)
  {
    RepliesStep(setup, s, l);
    StopStep(setup, s, l);
    if l.AtHub? && l.hub.HubRead? {
      ReadReports(s.hub, s.toHub.frames[0], l.hub.at);
    } else {
      OtherReports(setup, s, l);
    }
  }

  lemma {:induction false} ReadRun(setup: Setup, run: seq<Label>)
    requires Runs(setup, Initial, run)
    ensures ReadInOrder(After(setup, Initial, run).hub)
  {
    if run != [] {
      var front := run[..|run| - 1];
      ReadRun(setup, front);
      SessionLog.LogDisciplinedRun(setup, front);
      ReadStep(setup, After(setup, Initial, front), run[|run| - 1]);
    }
  }

  /** What the hub's application has put into the control queue. */
  ghost function Posted(setup: Setup, run: seq<Label>): seq<Envelope> {
    if run == [] then []
    else
      var front, l := run[..|run| - 1], run[|run| - 1];
      Posted(setup, front)
      + (if l.App? && l.input.HubSend? && After(setup, Initial, front).hub.writing then [l.input.env] else [])
  }

  lemma {:induction false} PostedRun(setup: Setup, run: seq<Label>)
    requires Runs(setup, Initial, run)
    ensures var h := After(setup, Initial, run).hub;
            |h.byReader| == |h.enqueued| && Select(h.enqueued, h.byReader, false) == Posted(setup, run)
  {
    if run != [] {
      var front, l := run[..|run| - 1], run[|run| - 1];
      PostedRun(setup, front);
      var before := After(setup, Initial, front);
      var h := before.hub;
      if l.AtHub? && l.hub.QueueReply? {
        SelectPush(h.enqueued, h.byReader, h.reader.reply, true, false);
      } else if l.App? && l.input.HubSend? {
        SelectPush(h.enqueued, h.byReader, l.input.env, false, false);
      } else {
        SameEnqueued(setup, before, l);
      }
    }
  }

  lemma SameEnqueued(setup: Setup, s: State, l: Label)
    requires Enabled(s, l) && !Queues(l)
    ensures Next(setup, s, l).hub.enqueued == s.hub.enqueued && Next(setup, s, l).hub.byReader == s.hub.byReader
  {
    if l.AtHub? {
      HubSameEnqueued(setup, s, l.hub);
    } else {
      OtherSameQueue(setup, s, l);
    }
  }

  lemma HubSameEnqueued(setup: Setup, s: State, l: HubStep)
    requires HubEnabled(s, l) && !l.QueueReply?
    ensures NextHub(setup, s, l).hub.enqueued == s.hub.enqueued && NextHub(setup, s, l).hub.byReader == s.hub.byReader
  {
  }

  /**
   * In every run, faults included: what the hub reports of its reader is the in-order image of the StreamOpen and Event
   * messages it took; its control queue is an interleaving of the application's messages, all of them and in order,
   * with the replies to the first of the requests taken, one each and in order; and with a live writer no reply is
   * missing but one about to be queued.
   */
  lemma {:induction false} HubAnswersWhatItReads(setup: Setup, run: seq<Label>)
    requires Runs(setup, Initial, run)
    ensures var h := After(setup, Initial, run).hub;
            && (h.allotted.Some? ==>
                  ReportsInOrder([], Filter(h.log, SessionLog.FromReader), Reported(h.read), h.allotted.value.ropeId))
            && |h.byReader| == |h.enqueued|
            && Select(h.enqueued, h.byReader, false) == Posted(setup, run)
            && AreReplies(Select(h.enqueued, h.byReader, true), Requests(h.read))
            && (h.writing && !h.reader.Replying? ==> |Select(h.enqueued, h.byReader, true)| == |Requests(h.read)|)
            && (forall k :: 0 <= k < |h.read| - 1 ==> !h.read[k].ReadError?)
  {
    ReadRun(setup, run);
    PostedRun(setup, run);
  }

  // ---- the client's reader ----

  /** What is on a wire, against what was put there and not read yet. */
  ghost predicate Matches(wire: Wire, rest: seq<Delivery>) {
    && |wire.frames| <= |rest|
    && (wire.open ==> |wire.frames| == |rest|)
    && forall k :: 0 <= k < |wire.frames| && wire.frames[k].Parsed? ==> wire.frames[k] == rest[k]
  }

  /** The client has read the first `n` frames that the hub sent. */
  ghost predicate InTransit(s: State, n: nat) {
    var c, sent := s.client, s.hub.sent;
    && n <= |sent|
    && (c.reading ==> c.phase.Tied?)
    && (Asked(c) ==> n == 0)
    && (if c.phase.Tied? then n >= 1 && c.events == Filter(Envelopes(sent[1..n]), ForApplication) else c.events == [])
    && (c.reading || Asked(c) ==> Matches(s.toClient, sent[n..]))
  }

  lemma TransitReply(s: State)
    requires ClientEnabled(s, ReadReply) && InTransit(s, 0)
    ensures InTransit(ReceiveReply(s), 1)
  {
    var t := ReceiveReply(s);
    assert s.hub.sent[0..] == s.hub.sent && s.hub.sent[1..][..0] == [];
    if t.client.phase.Tied? {
      assert s.hub.sent[1..1] == [];
    }
  }

  lemma TransitRead(s: State, at: Instants, n: nat)
    requires ClientEnabled(s, ClientRead(at)) && InTransit(s, n)
    ensures InTransit(NextClient(s, ClientRead(at)), if s.toClient.frames[0].Parsed? then n + 1 else n)
  {
    var d, sent := s.toClient.frames[0], s.hub.sent;
    if d.Parsed? {
      assert d == sent[n..][0] == sent[n];
      assert sent[1..n + 1] == sent[1..n] + [d];
      ReadsNext(sent[1..n], d, ForApplication);
      ReadsEvents(s.client, d.env, at);
      assert sent[n + 1..] == sent[n..][1..];
    }
  }

  lemma ReadsEvents(c: Client, env: Envelope, at: Instants)
    ensures ClientReads(c, Parsed(env), at).events == c.events + (if ForApplication(env) then [env] else [])
    ensures ClientReads(c, Parsed(env), at).phase == c.phase && ClientReads(c, Parsed(env), at).reading == c.reading
  {
  }

  lemma TransitSend(s: State, h: Hub, env: Envelope, n: nat)
    requires InTransit(s, n) && h.sent == s.hub.sent
    ensures InTransit(PutOnWire(s, h, env), n)
  {
    var sent := s.hub.sent;
    if s.toClient.open {
      var more := sent + [Parsed(env)];
      assert more[n..] == sent[n..] + [Parsed(env)];
      if s.client.phase.Tied? {
        assert more[1..n] == sent[1..n];
      }
    }
  }

  /** The steps that neither send to the client nor read there. */
  lemma TransitQuiet(s: State, t: State, n: nat)
    requires InTransit(s, n) && t.hub.sent == s.hub.sent
    requires t.client.phase == s.client.phase && t.client.events == s.client.events
        && (t.client.reading ==> s.client.reading)
    requires t.toClient == s.toClient
    ensures InTransit(t, n)
  {
  }

  lemma TransitInput(setup: Setup, s: State, l: Input, n: nat)
    requires InputEnabled(s, l) && InTransit(s, n)
    ensures InTransit(NextInput(setup, s, l), n)
  {
    if !l.TieTheKnot? {
      TransitQuiet(s, NextInput(setup, s, l), n);
    }
  }

  lemma TransitClient(s: State, l: ClientStep, n: nat) returns (m: nat)
    requires ClientEnabled(s, l) && InTransit(s, n)
    ensures InTransit(NextClient(s, l), m)
  {
    m := n;
    if l.ReadReply? {
      TransitReply(s);
      m := 1;
    } else if l.ClientRead? {
      TransitRead(s, l.at, n);
      m := if s.toClient.frames[0].Parsed? then n + 1 else n;
    } else if !l.ReplyMissing? {
      TransitQuiet(s, NextClient(s, l), n);
    }
  }

  lemma TransitHub(setup: Setup, s: State, l: HubStep, n: nat)
    requires HubEnabled(s, l) && InTransit(s, n)
    ensures InTransit(NextHub(setup, s, l), n)
  {
    var h := s.hub;
    match l {
      case HandleTie(count, now) => TransitTie(setup, s, s.toHub.frames[0], count, now, n);
      case SendWelcome(msgId, now) =>
        TransitSend(s, h.(main := Announcing(h.main.knotId, h.main.capabilities)),
                    WelcomeEnvelope(msgId, now, h.allotted.value.connectionId, h.allotted.value.ropeId,
                        setup.config.metadata), n);
      case HubForward =>
        if s.toClient.open {
          TransitSend(s, h.(queue := h.queue[1..]), h.queue[0], n);
        } else {
          TransitQuiet(s, NextHub(setup, s, l), n);
        }
      case _ => TransitQuiet(s, NextHub(setup, s, l), n);
    }
  }

  lemma TransitTie(setup: Setup, s: State, d: Delivery, count: nat, now: BigEndian.u64, n: nat)
    requires InTransit(s, n)
    ensures InTransit(HandleFirst(s, setup, d, count, now), n)
  {
    var rest := s.(toHub := s.toHub.(frames := if s.toHub.frames == [] then [] else s.toHub.frames[1..]));
    TransitQuiet(s, rest, n);
    if d.Parsed? && d.env.payload.Tie? && Verdict(setup.config, d.env.payload).Some? {
      TransitSend(rest, s.hub.(main := Finished(false)),
          RejectEnvelope(Verdict(setup.config, d.env.payload).value, now), n);
    } else {
      TransitQuiet(rest, HandleFirst(s, setup, d, count, now), n);
    }
  }

  lemma TransitStream(setup: Setup, s: State, l: StreamStep, n: nat)
    requires StreamEnabled(s, l) && InTransit(s, n)
    ensures InTransit(NextStream(setup, s, l), n)
  {
    TransitQuiet(s, NextStream(setup, s, l), n);
  }

  lemma TransitFault(s: State, l: Fault, n: nat)
    requires FaultEnabled(s, l) && InTransit(s, n)
    ensures InTransit(NextFault(s, l), n)
  {
    if !l.CutToClient? && !l.GarbleToClient? {
      TransitQuiet(s, NextFault(s, l), n);
    }
  }

  lemma {:induction false} TransitRun(setup: Setup, run: seq<Label>) returns (n: nat)
    requires Runs(setup, Initial, run)
    ensures InTransit(After(setup, Initial, run), n)
  {
    if run == [] {
      n := 0;
    } else {
      var before := After(setup, Initial, run[..|run| - 1]);
      n := TransitRun(setup, run[..|run| - 1]);
      match run[|run| - 1] {
        case App(i) => TransitInput(setup, before, i, n);
        case AtClient(i) => n := TransitClient(before, i, n);
        case AtHub(i) => TransitHub(setup, before, i, n);
        case OnStream(i) => TransitStream(setup, before, i, n);
        case Wrong(i) => TransitFault(before, i, n);
      }
    }
  }

  lemma {:induction false} EnvelopesOfWrap(queue: seq<Envelope>)
    ensures Envelopes(Wrap(queue)) == queue
  {
    if queue != [] {
      var front := queue[..|queue| - 1];
      EnvelopesOfWrap(front);
      assert Wrap(queue)[..|queue| - 1] == Wrap(front);
    }
  }

  /** Nothing is left for the client to read. */
  predicate Drained(s: State) {
    s.client.reading && s.toClient.open && s.toClient.frames == [] && s.hub.writing && s.hub.queue == []
  }

  /**
   * In every run, faults included, with or without a live writer on either side: the application of a tied client has
   * seen, in order, the first `n` messages the hub ever queued, but for pings and pongs; and all of them once there is
   * nothing left to read.
   */
  lemma {:induction false} ApplicationSeesTheQueue(setup: Setup, run: seq<Label>) returns (n: nat)
    requires Runs(setup, Initial, run)
    ensures var s := After(setup, Initial, run);
            && n <= |s.hub.enqueued|
            && s.client.events == (if s.client.phase.Tied? then Filter(s.hub.enqueued[..n], ForApplication) else [])
            && (Drained(s) ==> n == |s.hub.enqueued|)
  {
    var s := After(setup, Initial, run);
    var m := TransitRun(setup, run);
    OneReplyThenQueue(setup, run);
    n := 0;
    if s.client.phase.Tied? {
      n := m - 1;
      assert s.hub.sent[1..m] == Wrap(s.hub.enqueued)[..n] == Wrap(s.hub.enqueued[..n]) by {
        assert s.hub.sent[1..m] == s.hub.sent[1..][..n];
      }
      EnvelopesOfWrap(s.hub.enqueued[..n]);
      if Drained(s) {
        assert |Wrap([])| == 0;
      }
    }
  }

  /** What is hidden from the application is exactly the pings and pongs. */
  lemma {:induction false} OnlyPingsAndPongsHidden(queue: seq<Envelope>, n: nat)
    requires n <= |queue|
    ensures var seen := Filter(queue[..n], ForApplication);
            && (forall k :: 0 <= k < |seen| ==> seen[k] in queue && !seen[k].payload.Ping? && !seen[k].payload.Pong?)
            && (forall k :: 0 <= k < n ==> queue[k].payload.Ping? || queue[k].payload.Pong? || queue[k] in seen)
  {
    var seen := Filter(queue[..n], ForApplication);
    FilterMembers(queue[..n], ForApplication);
    forall k | 0 <= k < n ensures queue[k] in queue[..n] {
      assert queue[..n][k] == queue[k];
    }
    forall k | 0 <= k < |seen| ensures seen[k] in queue && ForApplication(seen[k]) {
      assert seen[k] in seen;
    }
  }
}
