/** Where the hub's reports come from, field for field and in every run: the calls and the messages of the client. */
module SessionOrigins {
  import opened Messages
  import opened Sequences
  import opened Session
  import opened Tasks
  import opened SessionReading
  import opened SessionSending
  import SessionGating
  import SessionLog

  /** The client's application has started a call with this stream id, topic and configuration. */
  ghost predicate WasStarted(run: seq<Label>, id: string, topic: string, config: string) {
    App(StartCall(id, topic, config)) in run
  }

  /** The client's application has itself put a message with this content into the control queue. */
  ghost predicate WasSent(run: seq<Label>, payload: ControlMessage) {
    exists k :: 0 <= k < |run| && run[k].App? && run[k].input.ClientSend? && run[k].input.env.payload == payload
  }

  ghost predicate CallsStarted(run: seq<Label>, calls: seq<Call>) {
    forall i :: 0 <= i < |calls| ==> WasStarted(run, calls[i].streamId, calls[i].topic, calls[i].config)
  }

  /** A message of the client comes from its application, or is a request of one of its calls, or answers a ping. */
  ghost predicate HasOrigin(run: seq<Label>, env: Envelope) {
    match env.payload
    case StreamOpen(id, topic, config) => WasStarted(run, id, topic, config) || WasSent(run, env.payload)
    case Event(_, _) => WasSent(run, env.payload)
    case _ => true
  }

  lemma OriginGrows(run: seq<Label>, l: Label)
    ensures forall id, topic, config :: WasStarted(run, id, topic, config) ==> WasStarted(run + [l], id, topic, config)
    ensures forall payload :: WasSent(run, payload) ==> WasSent(run + [l], payload)
    ensures forall env :: HasOrigin(run, env) ==> HasOrigin(run + [l], env)
  {
    forall payload | WasSent(run, payload) ensures WasSent(run + [l], payload) {
      var k :| 0 <= k < |run| && run[k].App? && run[k].input.ClientSend? && run[k].input.env.payload == payload;
      assert (run + [l])[k] == run[k];
    }
  }

  /** Calls keep what they were started with. */
  predicate SameNames(before: seq<Call>, after: seq<Call>) {
    && |after| == |before|
    && forall i :: 0 <= i < |before| ==>
         after[i].streamId == before[i].streamId && after[i].topic == before[i].topic
             && after[i].config == before[i].config
  }

  lemma ClientSameNames(s: State, l: ClientStep)
    requires ClientEnabled(s, l)
    ensures SameNames(s.client.calls, NextClient(s, l).client.calls)
  {
  }

  lemma InputSameNames(setup: Setup, s: State, l: Input)
    requires InputEnabled(s, l) && !l.StartCall?
    ensures SameNames(s.client.calls, NextInput(setup, s, l).client.calls)
  {
  }

  lemma OtherSameNames(setup: Setup, s: State, l: Label)
    requires Enabled(s, l) && !l.AtClient? && !(l.App? && l.input.StartCall?)
    ensures SameNames(s.client.calls, Next(setup, s, l).client.calls)
  {
    match l
    case App(i) => InputSameNames(setup, s, i);
    case AtHub(i) => assert NextHub(setup, s, i).client == s.client;
    case OnStream(i) => StreamSameNames(setup, s, i);
    case Wrong(i) => assert |NextFault(s, i).client.calls| == |s.client.calls|;
  }

  lemma StreamSameNames(setup: Setup, s: State, l: StreamStep)
    requires StreamEnabled(s, l)
    ensures SameNames(s.client.calls, NextStream(setup, s, l).client.calls)
  {
  }

  lemma StartNames(setup: Setup, s: State, id: string, topic: string, config: string)
    requires Enabled(s, App(StartCall(id, topic, config)))
    ensures var before, after := s.client.calls, Next(setup, s, App(StartCall(id, topic, config))).client.calls;
            && |after| == |before| + 1 && SameNames(before, after[..|before|])
            && after[|before|].streamId == id && after[|before|].topic == topic && after[|before|].config == config
  {
  }

  lemma StartedStep(setup: Setup, run: seq<Label>, s: State, l: Label)
    requires Enabled(s, l) && CallsStarted(run, s.client.calls)
    ensures CallsStarted(run + [l], Next(setup, s, l).client.calls)
  {
    OriginGrows(run, l);
    if l.AtClient? {
      ClientSameNames(s, l.client);
    } else if l.App? && l.input.StartCall? {
      StartNames(setup, s, l.input.streamId, l.input.topic, l.input.config);
      var before, after := s.client.calls, Next(setup, s, l).client.calls;
      forall i | 0 <= i < |after| ensures WasStarted(run + [l], after[i].streamId, after[i].topic, after[i].config) {
        if i < |before| {
          assert after[..|before|][i] == after[i];
          assert WasStarted(run, before[i].streamId, before[i].topic, before[i].config);
        }
      }
    } else {
      OtherSameNames(setup, s, l);
    }
  }

  lemma {:induction false} StartedRun(setup: Setup, run: seq<Label>)
    requires Runs(setup, Initial, run)
    ensures CallsStarted(run, After(setup, Initial, run).client.calls)
  {
    if run != [] {
      var front, l := run[..|run| - 1], run[|run| - 1];
      StartedRun(setup, front);
      StartedStep(setup, front, After(setup, Initial, front), l);
      assert front + [l] == run;
    }
  }

  lemma QueuedOrigin(run: seq<Label>, s: State, l: Label)
    requires Enabled(s, l) && CallsStarted(run, s.client.calls)
    ensures forall env :: env in QueuedBy(s, l) ==> HasOrigin(run + [l], env)
  {
    OriginGrows(run, l);
    if l.App? && l.input.ClientSend? {
      assert (run + [l])[|run|] == l;
    }
    if l.AtClient? && l.client.SendOpen? {
      var call := s.client.calls[l.client.call];
      assert WasStarted(run, call.streamId, call.topic, call.config);
    }
  }

  /** Everything the client ever queued has its origin. */
  lemma {:induction false} OriginsRun(setup: Setup, run: seq<Label>)
    requires Runs(setup, Initial, run)
    ensures forall env :: env in Queued(setup, run) ==> HasOrigin(run, env)
  {
    if run != [] {
      var front, l := run[..|run| - 1], run[|run| - 1];
      var s := After(setup, Initial, front);
      OriginsRun(setup, front);
      StartedRun(setup, front);
      QueuedOrigin(front, s, l);
      OriginGrows(front, l);
      assert front + [l] == run;
    }
  }

  /**
   * In every run, faults included: a StreamOpened event names the stream id, topic and configuration, each in its
   * place, of a call the client's application started, or of a StreamOpen it sent itself; and an EventReceived event
   * the variant and data of an Event it sent. And all of them name the allotted rope.
   */
  lemma {:induction false} ReportsHaveOrigins(setup: Setup, run: seq<Label>, k: nat)
    requires Runs(setup, Initial, run) && k < |After(setup, Initial, run).hub.log|
    ensures var h := After(setup, Initial, run).hub;
            match h.log[k]
            case StreamOpened(ropeId, id, topic, config) =>
              && h.allotted.Some? && ropeId == h.allotted.value.ropeId
              && (WasStarted(run, id, topic, config) || WasSent(run, StreamOpen(id, topic, config)))
            case EventReceived(ropeId, variant, data) =>
              && h.allotted.Some? && ropeId == h.allotted.value.ropeId
              && WasSent(run, Event(variant, data))
            case _ => true
  {
    var h := After(setup, Initial, run).hub;
    if SessionLog.FromReader(h.log[k]) {
      var env := ReportedMessage(setup, run, k);
      OriginsRun(setup, run);
      assert HasOrigin(run, env);
    }
  }

  /** Every report of the reader is of one of the messages it is the image of. */
  lemma ReportHasMessage(log: seq<HubEvent>, inputs: seq<Envelope>, ropeId: string, k: nat) returns (env: Envelope)
    requires ReportsInOrder([], Filter(log, SessionLog.FromReader), inputs, ropeId)
    requires k < |log| && SessionLog.FromReader(log[k])
    ensures Reports(log[k], env, ropeId) && env in inputs
  {
    var reports := Filter(log, SessionLog.FromReader);
    FilterMembers(log, SessionLog.FromReader);
    assert log[k] in reports;
    var i :| 0 <= i < |reports| && reports[i] == log[k];
    env := inputs[i];
  }

  /** Behind every report of the reader stands a message it took, which the client had queued. */
  lemma {:induction false} ReportedMessage(setup: Setup, run: seq<Label>, k: nat) returns (env: Envelope)
    requires Runs(setup, Initial, run) && k < |After(setup, Initial, run).hub.log|
    requires SessionLog.FromReader(After(setup, Initial, run).hub.log[k])
    ensures var h := After(setup, Initial, run).hub;
            && h.allotted.Some? && Reports(h.log[k], env, h.allotted.value.ropeId)
            && Parsed(env) in h.read && env in Queued(setup, run)
  {
    var h := After(setup, Initial, run).hub;
    HubAnswersWhatItReads(setup, run);
    SessionLog.EventLogDiscipline(setup, run);
    env := ReportHasMessage(h.log, Reported(h.read), h.allotted.value.ropeId, k);
    WhatCounts(h.read, env);
    var _ := HubReadsTheQueue(setup, run);
    TakenWasQueued(h.read, Queued(setup, run), env);
  }

  lemma TakenWasQueued(read: seq<Delivery>, queued: seq<Envelope>, env: Envelope)
    requires TakenFrom(read, queued) && Parsed(env) in read
    ensures env in queued
  {
    var j :| 0 <= j < |read| && read[j] == Parsed(env);
    assert queued[j] == env;
  }

  /** And every message is reported that it is the image of. */
  lemma MessageHasReport(log: seq<HubEvent>, inputs: seq<Envelope>, ropeId: string, env: Envelope)
    requires ReportsInOrder([], Filter(log, SessionLog.FromReader), inputs, ropeId) && env in inputs
    ensures exists e :: e in log && Reports(e, env, ropeId)
  {
    var i :| 0 <= i < |inputs| && inputs[i] == env;
    var e := Filter(log, SessionLog.FromReader)[i];
    FilterMembers(log, SessionLog.FromReader);
    assert e in log && Reports(e, env, ropeId);
  }

  lemma MessageHasReply(enqueued: seq<Envelope>, byReader: seq<bool>, requests: seq<Envelope>, env: Envelope)
    requires |byReader| == |enqueued| && AreReplies(Select(enqueued, byReader, true), requests)
    requires |Select(enqueued, byReader, true)| == |requests| && env in requests
    ensures exists reply, at :: reply in enqueued && Answers(reply, env, at)
  {
    var replies := Select(enqueued, byReader, true);
    var i :| 0 <= i < |requests| && requests[i] == env;
    assert IsReplyTo(replies[i], env);
    var at :| Answers(replies[i], env, at);
    SelectMembers(enqueued, byReader, true);
    assert replies[i] in enqueued;
  }

  /** And nothing it took is missing: every request and event read has been reported, every request answered. */
  lemma {:induction false} NothingReadIsMissing(setup: Setup, run: seq<Label>, env: Envelope)
    requires Runs(setup, Initial, run) && Parsed(env) in After(setup, Initial, run).hub.read
    ensures var h := After(setup, Initial, run).hub;
            && h.allotted.Some?
            && (env.payload.StreamOpen? || env.payload.Event? ==>
                  exists e :: e in h.log && Reports(e, env, h.allotted.value.ropeId))
            && (h.writing && !h.reader.Replying? && (env.payload.Ping? || env.payload.StreamOpen?) ==>
                  exists reply, at :: reply in h.enqueued && Answers(reply, env, at))
  {
    var h := After(setup, Initial, run).hub;
    HubAnswersWhatItReads(setup, run);
    ReadRun(setup, run);
    WhatCounts(h.read, env);
    if env.payload.StreamOpen? || env.payload.Event? {
      MessageHasReport(h.log, Reported(h.read), h.allotted.value.ropeId, env);
    }
    if h.writing && !h.reader.Replying? && (env.payload.Ping? || env.payload.StreamOpen?) {
      MessageHasReply(h.enqueued, h.byReader, Requests(h.read), env);
    }
  }

  lemma {:induction false} SelectMembers<T(!new)>(s: seq<T>, tags: seq<bool>, tag: bool)
    requires |s| == |tags|
    ensures forall x :: x in Select(s, tags, tag) ==> x in s
  {
    if s != [] {
      SelectMembers(s[..|s| - 1], tags[..|s| - 1], tag);
    }
  }
}
