/**
 * The reader loops and `create_stream` as the code runs them, on fields updated in place (src/lib.rs), each proved
 * against what it does to a whole inbound stream and against the steps of Session.dfy.
 */
module Tasks {
  import opened BigEndian
  import opened Messages
  import opened Sequences
  import opened Session

  /** The deliveries a reader gets to see before a read error ends it. */
  function Readable(inbound: seq<Delivery>): seq<Delivery> {
    if inbound == [] || inbound[0].ReadError? then [] else [inbound[0]] + Readable(inbound[1..])
  }

  /** The deliveries the client sees: malformed bytes end its loop too. */
  function WellFormed(inbound: seq<Delivery>): seq<Delivery> {
    if inbound == [] || !inbound[0].Parsed? then [] else [inbound[0]] + WellFormed(inbound[1..])
  }

  /** The envelopes among them, in order; malformed bytes leave no trace. */
  function Envelopes(frames: seq<Delivery>): seq<Envelope> {
    if frames == [] then []
    else Envelopes(frames[..|frames| - 1]) + (if frames[|frames| - 1].Parsed? then [frames[|frames| - 1].env] else [])
  }

  function Requests(frames: seq<Delivery>): seq<Envelope> {
    Filter(Envelopes(frames), IsRequest)
  }

  function Reported(frames: seq<Delivery>): seq<Envelope> {
    Filter(Envelopes(frames), IsReported)
  }

  /** `more` is `before` and behind it the image of `inputs`, one reply each, in order. */
  ghost predicate RepliesInOrder(before: seq<Envelope>, more: seq<Envelope>, inputs: seq<Envelope>,
      clock: nat -> Instants) {
    && (forall k :: 0 <= k < |inputs| ==> IsRequest(inputs[k]))
    && |more| == |before| + |inputs|
    && more[..|before|] == before
    && forall k :: 0 <= k < |inputs| ==> Answers(more[|before| + k], inputs[k], clock(k))
  }

  ghost predicate ReportsInOrder(before: seq<HubEvent>, more: seq<HubEvent>, inputs: seq<Envelope>, ropeId: string) {
    && (forall k :: 0 <= k < |inputs| ==> IsReported(inputs[k]))
    && |more| == |before| + |inputs|
    && more[..|before|] == before
    && forall k :: 0 <= k < |inputs| ==> Reports(more[|before| + k], inputs[k], ropeId)
  }

  lemma {:induction false} ReadablePrefix(inbound: seq<Delivery>, i: nat)
    requires i <= |inbound| && forall k :: 0 <= k < i ==> !inbound[k].ReadError?
    requires i == |inbound| || inbound[i].ReadError?
    ensures Readable(inbound) == inbound[..i]
  {
    if i > 0 {
      ReadablePrefix(inbound[1..], i - 1);
    }
  }

  lemma {:induction false} WellFormedPrefix(inbound: seq<Delivery>, i: nat)
    requires i <= |inbound| && forall k :: 0 <= k < i ==> inbound[k].Parsed?
    requires i == |inbound| || !inbound[i].Parsed?
    ensures WellFormed(inbound) == inbound[..i]
  {
    if i > 0 {
      WellFormedPrefix(inbound[1..], i - 1);
    }
  }

  lemma EnvelopesNext(inbound: seq<Delivery>, i: nat, keep: Envelope -> bool)
    requires i < |inbound|
    ensures Filter(Envelopes(inbound[..i + 1]), keep) ==
              Filter(Envelopes(inbound[..i]), keep)
              + (if inbound[i].Parsed? && keep(inbound[i].env) then [inbound[i].env] else [])
  {
    var front, more := inbound[..i], inbound[..i + 1];
    assert more[..|more| - 1] == front && more[|more| - 1] == inbound[i];
    if inbound[i].Parsed? {
      assert Envelopes(more) == Envelopes(front) + [inbound[i].env];
      FilterPush(Envelopes(front), inbound[i].env, keep);
    } else {
      assert Envelopes(more) == Envelopes(front);
    }
  }

  lemma RepliesPush(before: seq<Envelope>, more: seq<Envelope>, inputs: seq<Envelope>, env: Envelope,
      clock: nat -> Instants)
    requires RepliesInOrder(before, more, inputs, clock) && IsRequest(env)
    ensures RepliesInOrder(before, more + [HubReply(env, clock(|inputs|))], inputs + [env], clock)
  {
  }

  lemma ReportsPush(before: seq<HubEvent>, more: seq<HubEvent>, inputs: seq<Envelope>, env: Envelope, ropeId: string)
    requires ReportsInOrder(before, more, inputs, ropeId) && IsReported(env)
    ensures ReportsInOrder(before, more + [HubReport(env, ropeId)], inputs + [env], ropeId)
  {
  }

  /** What the reader makes of a message is what it owes it. */
  lemma HandledAsOwed(env: Envelope, at: Instants, ropeId: string)
    ensures IsRequest(env) <==> env.payload.Ping? || env.payload.StreamOpen?
    ensures IsReported(env) <==> env.payload.StreamOpen? || env.payload.Event?
    ensures IsRequest(env) ==> Answers(HubReply(env, at), env, at)
    ensures IsReported(env) ==> Reports(HubReport(env, ropeId), env, ropeId)
  {
    if IsRequest(env) {
      HubReplyAnswers(HubReply(env, at), env, at);
    }
  }

  lemma {:induction false} EnvelopesMembers(frames: seq<Delivery>)
    ensures forall env :: env in Envelopes(frames) <==> Parsed(env) in frames
  {
    if frames != [] {
      var front, last := frames[..|frames| - 1], frames[|frames| - 1];
      EnvelopesMembers(front);
      assert forall d :: d in frames <==> d in front || d == last;
    }
  }

  /** Of the frames read, exactly the pings and stream requests count as requests, and these and events are reported. */
  lemma WhatCounts(frames: seq<Delivery>, env: Envelope)
    ensures env in Requests(frames) <==> Parsed(env) in frames && (env.payload.Ping? || env.payload.StreamOpen?)
    ensures env in Reported(frames) <==> Parsed(env) in frames && (env.payload.StreamOpen? || env.payload.Event?)
  {
    EnvelopesMembers(frames);
    FilterMembers(Envelopes(frames), IsRequest);
    FilterMembers(Envelopes(frames), IsReported);
  }

  // ---- the hub's reader ----

  /** What the reader task shares with the rest of `handle_connection`. */
  class HubReader {
    const ropeId: string
    var controlSender: seq<Envelope>
    var events: seq<HubEvent>
    var disconnected: bool

    constructor (ropeId: string)
      ensures this.ropeId == ropeId && controlSender == [] && events == [] && !disconnected
    {
      this.ropeId := ropeId;
      controlSender, events, disconnected := [], [], false;
    }

    /** One well-formed message. */
    method Handle(env: Envelope, at: Instants)
      modifies this
      ensures controlSender == old(controlSender) + (if IsRequest(env) then [HubReply(env, at)] else [])
      ensures events == old(events) + (if IsReported(env) then [HubReport(env, ropeId)] else [])
      ensures env.payload.Ping? || env.payload.StreamOpen? ==>
                |controlSender| == |old(controlSender)| + 1 && Answers(controlSender[|old(controlSender)|], env, at)
      ensures env.payload.StreamOpen? || env.payload.Event? ==>
                |events| == |old(events)| + 1 && Reports(events[|old(events)|], env, ropeId)
      ensures disconnected == old(disconnected)
    {
      HandledAsOwed(env, at, ropeId);
      match env.payload {
        case Ping(_) =>
          controlSender := controlSender + [PongTo(env, "host", env.connectionId, at)];
        case StreamOpen(id, topic, config) =>
          events := events + [StreamOpened(ropeId, id, topic, config)];
          controlSender := controlSender + [AcceptOf(env, at)];
        case Event(variant, data) =>
          events := events + [EventReceived(ropeId, variant, data)];
        case _ =>
      }
    }

    /** `while let Some(res) = framed_read.next()`: until the stream ends or cannot be read. */
    method Loop(inbound: seq<Delivery>, clock: nat -> Instants)
      modifies this
      ensures RepliesInOrder(old(controlSender), controlSender, Requests(Readable(inbound)), clock)
      ensures ReportsInOrder(old(events), events, Reported(Readable(inbound)), ropeId)
      ensures disconnected == old(disconnected)
    {
      var i := 0;
      var answered := 0;
      ghost var requests, reported: seq<Envelope> := [], [];
      while i < |inbound| && !inbound[i].ReadError?
        invariant i <= |inbound| && forall k :: 0 <= k < i ==> !inbound[k].ReadError?
        invariant requests == Requests(inbound[..i]) && reported == Reported(inbound[..i])
        invariant answered == |requests|
        invariant RepliesInOrder(old(controlSender), controlSender, requests, clock)
        invariant ReportsInOrder(old(events), events, reported, ropeId)
        invariant disconnected == old(disconnected)
      {
        EnvelopesNext(inbound, i, IsRequest);
        EnvelopesNext(inbound, i, IsReported);
        if inbound[i].Parsed? {
          answered := HandleNext(inbound[i].env, clock, answered, old(controlSender), requests, old(events), reported);
          requests := requests + (if IsRequest(inbound[i].env) then [inbound[i].env] else []);
          reported := reported + (if IsReported(inbound[i].env) then [inbound[i].env] else []);
        }
        i := i + 1;
      }
      ReadablePrefix(inbound, i);
    }

    /** One turn, with what it adds to the replies and reports of the turns before it. */
    method HandleNext(env: Envelope, clock: nat -> Instants, answered: nat, ghost queued: seq<Envelope>,
        ghost requests: seq<Envelope>,
                      ghost logged: seq<HubEvent>, ghost reported: seq<Envelope>)
      returns (now: nat)
      requires answered == |requests|
      requires RepliesInOrder(queued, controlSender, requests, clock)
          && ReportsInOrder(logged, events, reported, ropeId)
      modifies this
      ensures RepliesInOrder(queued, controlSender, requests + (if IsRequest(env) then [env] else []), clock)
      ensures ReportsInOrder(logged, events, reported + (if IsReported(env) then [env] else []), ropeId)
      ensures now == |requests + (if IsRequest(env) then [env] else [])| && disconnected == old(disconnected)
    {
      if IsRequest(env) {
        RepliesPush(queued, controlSender, requests, env, clock);
      }
      if IsReported(env) {
        ReportsPush(logged, events, reported, env, ropeId);
      }
      Handle(env, clock(answered));
      now := if IsRequest(env) then answered + 1 else answered;
      assert controlSender == old(controlSender) || IsRequest(env);
      assert requests + [] == requests && reported + [] == reported;
    }

    /** The whole task, other tasks standing still: the loop, then the swap of the disconnect flag. */
    method Run(inbound: seq<Delivery>, clock: nat -> Instants)
      modifies this
      ensures RepliesInOrder(old(controlSender), controlSender, Requests(Readable(inbound)), clock)
      ensures disconnected
      ensures exists reported: seq<HubEvent> ::
                && ReportsInOrder(old(events), reported, Reported(Readable(inbound)), ropeId)
                && events == reported + (if old(disconnected) then [] else [RopeDisconnected(ropeId)])
    {
      Loop(inbound, clock);
      ghost var reported := events;
      var was := disconnected;
      disconnected := true;
      if !was {
        events := events + [RopeDisconnected(ropeId)];
      }
      assert events == reported + (if old(disconnected) then [] else [RopeDisconnected(ropeId)]);
    }
  }

  /** In the absence of other steps, a hub step of Session.dfy and the queueing of its reply do what Handle does. */
  lemma HubTurn(s: State, setup: Setup, at: Instants)
    requires HubEnabled(s, HubRead(at)) && s.toHub.frames[0].Parsed? && s.hub.writing
    ensures var env := s.toHub.frames[0].env;
            var read := NextHub(setup, s, HubRead(at));
            var done := if IsRequest(env) then NextHub(setup, read, QueueReply) else read;
            && (IsRequest(env) ==> HubEnabled(read, QueueReply))
            && done.hub.reader.Polling?
            && done.hub.queue == s.hub.queue + (if IsRequest(env) then [HubReply(env, at)] else [])
            && done.hub.log == s.hub.log +
                (if IsReported(env) then [HubReport(env, s.hub.allotted.value.ropeId)] else [])
  {
  }

  // ---- the client ----

  /** What the client's application gets to see; its pings are answered and its pongs dropped. */
  predicate ForApplication(env: Envelope) {
    !env.payload.Ping? && !env.payload.Pong?
  }

  predicate IsPing(env: Envelope) {
    env.payload.Ping?
  }

  predicate IsAccept(env: Envelope) {
    env.payload.StreamAccepted?
  }

  /** The stream ids accepted by a stretch of the wire. */
  function AcceptedIds(frames: seq<Delivery>): set<string> {
    set env | env in Envelopes(frames) && env.payload.StreamAccepted? :: env.payload.streamId
  }

  lemma AcceptedNext(inbound: seq<Delivery>, i: nat)
    requires i < |inbound| && inbound[i].Parsed?
    ensures AcceptedIds(inbound[..i + 1]) ==
              AcceptedIds(inbound[..i]) + (if IsAccept(inbound[i].env) then {inbound[i].env.payload.streamId} else {})
  {
    var front, more := inbound[..i], inbound[..i + 1];
    assert more[..|more| - 1] == front && more[|more| - 1] == inbound[i];
    assert Envelopes(more) == Envelopes(front) + [inbound[i].env];
    assert forall env :: env in Envelopes(more) <==> env in Envelopes(front) || env == inbound[i].env;
  }

  ghost predicate PongsInOrder(before: seq<Envelope>, more: seq<Envelope>, pings: seq<Envelope>, ropeId: string,
                               connectionId: string, clock: nat -> Instants) {
    && (forall k :: 0 <= k < |pings| ==> IsPing(pings[k]))
    && |more| == |before| + |pings|
    && more[..|before|] == before
    && forall k :: 0 <= k < |pings| ==> Pongs(more[|before| + k], pings[k], ropeId, connectionId, clock(k))
  }

  ghost predicate Answered(pending: map<string, nat>, accepted: set<string>, i: nat) {
    exists id :: id in pending && id in accepted && pending[id] == i
  }

  /** Exactly the calls whose entry was accepted have been told; nothing else about them has changed. */
  ghost predicate Told(before: seq<Call>, pending: map<string, nat>, accepted: set<string>, after: seq<Call>) {
    && |after| == |before|
    && forall i :: 0 <= i < |before| ==>
         after[i] == before[i].(slot := if Answered(pending, accepted, i) then Fulfilled else before[i].slot)
  }

  /** A tied client: the pending map, the one-shot slots behind it, and the two channels its tasks feed. */
  class KnotClient {
    const connectionId: string
    const ropeId: string
    const metadata: string
    var controlTx: seq<Envelope>
    var writing: bool
    var reading: bool
    var pendingStreams: map<string, nat>
    var calls: seq<Call>
    var events: seq<Envelope>

    /** The client of Session.dfy. */
    function View(): Client
      reads this
    {
      Client(Tied(connectionId, ropeId, metadata), controlTx, writing, reading, pendingStreams, calls, events)
    }

    constructor (connectionId: string, ropeId: string, metadata: string)
      ensures View() == Client(Tied(connectionId, ropeId, metadata), [], true, true, map[], [], [])
    {
      this.connectionId, this.ropeId, this.metadata := connectionId, ropeId, metadata;
      controlTx, writing, reading, pendingStreams, calls, events := [], true, true, map[], [], [];
    }

    /** `pending_streams.insert`: the sender that was there is dropped. */
    method Insert(streamId: string, topic: string, config: string) returns (call: nat)
      requires streamId in pendingStreams ==> pendingStreams[streamId] < |calls|
      modifies this`pendingStreams, this`calls
      ensures View() == Register(old(View()), streamId, topic, config) && call == |old(calls)|
      ensures call < |calls| && calls[call] == Call(streamId, topic, config, Sending, Empty)
    {
      if streamId in pendingStreams {
        var older := pendingStreams[streamId];
        calls := calls[older := calls[older].(slot := Dropped)];
      }
      call := |calls|;
      calls := calls + [Call(streamId, topic, config, Sending, Empty)];
      pendingStreams := pendingStreams[streamId := call];
    }

    /** `create_stream` up to its `rx.await`: the entry is in the map before the request is in the queue. */
    method BeginCreateStream(streamId: string, topic: string, config: string, msgId: string, now: u64)
        returns (call: nat, ok: bool)
      requires streamId in pendingStreams ==> pendingStreams[streamId] < |calls|
      modifies this`pendingStreams, this`calls, this`controlTx
      ensures call == |old(calls)| && ok == writing
      ensures writing ==>
                |controlTx| == |old(controlTx)| + 1 &&
                controlTx[|old(controlTx)|] ==
                    Envelope(msgId, now, ropeId, connectionId, true, StreamOpen(streamId, topic, config))
      ensures var registered := Register(old(View()), streamId, topic, config);
              && call < |registered.calls|
              && View() == if writing
                           then SetCall(registered, call, Awaiting).(
                                  queue := old(controlTx) +
                                      [OpenEnvelope(registered, registered.calls[call], msgId, now)])
                           else SetCall(registered, call, Failed)
    {
      call := Insert(streamId, topic, config);
      ok := writing;
      if ok {
        controlTx := controlTx +
            [Envelope(msgId, now, ropeId, connectionId, true, StreamOpen(streamId, topic, config))];
        calls := calls[call := calls[call].(pc := Awaiting)];
      } else {
        calls := calls[call := calls[call].(pc := Failed)];
      }
    }

    /** One turn of the reader loop; false when it ends the loop. */
    method ReadOne(d: Delivery, at: Instants) returns (goOn: bool)
      requires forall id :: id in pendingStreams ==> pendingStreams[id] < |calls|
      modifies this`controlTx, this`reading, this`pendingStreams, this`calls, this`events
      ensures View() == ClientReads(old(View()), d, at) && goOn == d.Parsed?
      ensures forall id :: id in pendingStreams ==> pendingStreams[id] < |calls|
      ensures goOn ==> reading == old(reading)
    {
      match d {
        case ReadError =>
          reading := false;
          return false;
        case Malformed =>
          reading := false;
          return false;
        case Parsed(env) =>
          match env.payload {
            case StreamAccepted(id) =>
              if id in pendingStreams {
                var call := pendingStreams[id];
                pendingStreams := pendingStreams - {id};
                calls := calls[call := calls[call].(slot := Fulfilled)];
              }
              events := events + [env];
            case Ping(_) =>
              if writing {
                controlTx := controlTx + [PongTo(env, ropeId, connectionId, at)];
              }
            case Pong(_, _) =>
            case _ => events := events + [env];
          }
          return true;
      }
    }

    /** The turns taken so far, and how many pings they have answered. */
    ghost predicate ReadSoFar(start: Client, frames: seq<Delivery>, clock: nat -> Instants, pinged: nat)
      reads this
    {
      pinged == |Filter(Envelopes(frames), IsPing)| && View() == ReadsAll(start, frames, clock)
    }

    method ReadNext(ghost start: Client, inbound: seq<Delivery>, i: nat, clock: nat -> Instants, pinged: nat)
        returns (now: nat)
      requires i < |inbound| && inbound[i].Parsed? && ReadSoFar(start, inbound[..i], clock, pinged)
      requires forall id :: id in pendingStreams ==> pendingStreams[id] < |calls|
      modifies this`controlTx, this`reading, this`pendingStreams, this`calls, this`events
      ensures ReadSoFar(start, inbound[..i + 1], clock, now)
      ensures forall id :: id in pendingStreams ==> pendingStreams[id] < |calls|
    {
      EnvelopesNext(inbound, i, IsPing);
      ReadsAllNext(start, inbound, i, clock);
      var _ := ReadOne(inbound[i], clock(pinged));
      now := if inbound[i].env.payload.Ping? then pinged + 1 else pinged;
    }

    /** The whole task on a stretch of the wire, its application not sending meanwhile; the writer may have died. */
    method ReadLoop(inbound: seq<Delivery>, clock: nat -> Instants)
      requires forall id :: id in pendingStreams ==> pendingStreams[id] < |calls|
      modifies this`controlTx, this`reading, this`pendingStreams, this`calls, this`events
      ensures View() == ReadsAll(old(View()), WellFormed(inbound), clock).(reading := false)
    {
      var i := 0;
      var pinged := 0;
      ghost var start := View();
      while i < |inbound| && inbound[i].Parsed?
        invariant i <= |inbound| && forall k :: 0 <= k < i ==> inbound[k].Parsed?
        invariant ReadSoFar(start, inbound[..i], clock, pinged)
        invariant forall id :: id in pendingStreams ==> pendingStreams[id] < |calls|
      {
        pinged := ReadNext(start, inbound, i, clock, pinged);
        i := i + 1;
      }
      WellFormedPrefix(inbound, i);
      reading := false;
    }
  }

  /**
   * The turns of the client's reader over well-formed frames; its k-th answer takes the k-th pair of clock readings.
   */
  function ReadsAll(c: Client, frames: seq<Delivery>, clock: nat -> Instants): Client {
    if frames == [] then c
    else
      var front := frames[..|frames| - 1];
      ClientReads(ReadsAll(c, front, clock), frames[|frames| - 1], clock(|Filter(Envelopes(front), IsPing)|))
  }

  lemma ReadsAllNext(c: Client, frames: seq<Delivery>, i: nat, clock: nat -> Instants)
    requires i < |frames|
    ensures ReadsAll(c, frames[..i + 1], clock) ==
              ClientReads(ReadsAll(c, frames[..i], clock), frames[i], clock(|Filter(Envelopes(frames[..i]), IsPing)|))
  {
    assert frames[..i + 1][..i] == frames[..i];
  }

  /**
   * What a stretch of well-formed frames does: the application sees everything but pings and pongs, in order; every
   * ping is answered, in order, by a client whose writer lives; exactly the accepted ids leave the pending map, and
   * exactly the calls behind them are told.
   */
  ghost predicate ReadEffect(before: Client, frames: seq<Delivery>, clock: nat -> Instants, after: Client) {
    && before.phase.Tied?
    && after.events == before.events + Filter(Envelopes(frames), ForApplication)
    && (if before.writing
        then PongsInOrder(before.queue, after.queue, Filter(Envelopes(frames), IsPing), before.phase.ropeId,
                          before.phase.connectionId, clock)
        else after.queue == before.queue)
    && after.pending == before.pending - AcceptedIds(frames)
    && Told(before.calls, before.pending, AcceptedIds(frames), after.calls)
  }

  ghost predicate PendingInRange(c: Client) {
    forall id :: id in c.pending ==> c.pending[id] < |c.calls|
  }

  /** One turn, field by field. */
  lemma TurnFields(c: Client, env: Envelope, at: Instants)
    requires c.phase.Tied?
    ensures var r := ClientReads(c, Parsed(env), at);
            && r.phase == c.phase && r.writing == c.writing
            && r.events == c.events + (if ForApplication(env) then [env] else [])
            && r.queue == c.queue + (if IsPing(env) && c.writing
                then [PongTo(env, c.phase.ropeId, c.phase.connectionId, at)] else [])
            && r.pending == c.pending - (if IsAccept(env) then {env.payload.streamId} else {})
            && r.calls == if IsAccept(env) && env.payload.streamId in c.pending
                          then SetSlot(c.calls, c.pending[env.payload.streamId], Fulfilled) else c.calls
  {
  }

  lemma {:induction false} ReadsAllEvents(c: Client, frames: seq<Delivery>, clock: nat -> Instants)
    requires c.phase.Tied? && forall k :: 0 <= k < |frames| ==> frames[k].Parsed?
    ensures var r := ReadsAll(c, frames, clock);
            && r.phase == c.phase && r.writing == c.writing
            && r.events == c.events + Filter(Envelopes(frames), ForApplication)
  {
    if frames != [] {
      var n := |frames| - 1;
      ReadsAllEvents(c, frames[..n], clock);
      assert frames[..n + 1] == frames;
      EnvelopesNext(frames, n, ForApplication);
      TurnFields(ReadsAll(c, frames[..n], clock), frames[n].env, clock(|Filter(Envelopes(frames[..n]), IsPing)|));
    }
  }

  lemma PongsPush(before: seq<Envelope>, more: seq<Envelope>, pings: seq<Envelope>, ropeId: string,
      connectionId: string, clock: nat -> Instants, env: Envelope)
    requires PongsInOrder(before, more, pings, ropeId, connectionId, clock) && IsPing(env)
    ensures PongsInOrder(before, more + [PongTo(env, ropeId, connectionId, clock(|pings|))], pings + [env], ropeId,
        connectionId, clock)
  {
  }

  lemma {:induction false} ReadsAllPongs(c: Client, frames: seq<Delivery>, clock: nat -> Instants)
    requires c.phase.Tied? && forall k :: 0 <= k < |frames| ==> frames[k].Parsed?
    ensures if c.writing
            then PongsInOrder(c.queue, ReadsAll(c, frames, clock).queue, Filter(Envelopes(frames), IsPing),
                              c.phase.ropeId, c.phase.connectionId, clock)
            else ReadsAll(c, frames, clock).queue == c.queue
  {
    if frames != [] {
      var n := |frames| - 1;
      var mid, pings := ReadsAll(c, frames[..n], clock), Filter(Envelopes(frames[..n]), IsPing);
      ReadsAllPongs(c, frames[..n], clock);
      ReadsAllEvents(c, frames[..n], clock);
      assert frames[..n + 1] == frames;
      EnvelopesNext(frames, n, IsPing);
      TurnFields(mid, frames[n].env, clock(|pings|));
      if IsPing(frames[n].env) && c.writing {
        PongsPush(c.queue, mid.queue, pings, c.phase.ropeId, c.phase.connectionId, clock, frames[n].env);
      } else {
        assert mid.queue + [] == mid.queue && pings + [] == pings;
      }
    }
  }

  /** One turn, for the pending map and the calls behind it. */
  lemma TurnPending(c: Client, mid: Client, accepted: set<string>, env: Envelope, at: Instants)
    requires mid.phase.Tied? && PendingInRange(c)
    requires mid.pending == c.pending - accepted && Told(c.calls, c.pending, accepted, mid.calls)
    ensures var r := ClientReads(mid, Parsed(env), at);
            var more := accepted + (if IsAccept(env) then {env.payload.streamId} else {});
            r.pending == c.pending - more && Told(c.calls, c.pending, more, r.calls)
  {
    TurnFields(mid, env, at);
    if IsAccept(env) {
      ToldNext(c.calls, c.pending, accepted, mid.calls, env.payload.streamId);
    } else {
      assert accepted + {} == accepted;
    }
  }

  lemma {:induction false} ReadsAllPending(c: Client, frames: seq<Delivery>, clock: nat -> Instants)
    requires c.phase.Tied? && PendingInRange(c)
    requires forall k :: 0 <= k < |frames| ==> frames[k].Parsed?
    ensures ReadsAll(c, frames, clock).pending == c.pending - AcceptedIds(frames)
    ensures Told(c.calls, c.pending, AcceptedIds(frames), ReadsAll(c, frames, clock).calls)
  {
    if frames == [] {
      assert AcceptedIds([]) == {};
    } else {
      var n := |frames| - 1;
      var mid := ReadsAll(c, frames[..n], clock);
      ReadsAllPending(c, frames[..n], clock);
      ReadsAllEvents(c, frames[..n], clock);
      assert frames[..n + 1] == frames;
      AcceptedNext(frames, n);
      TurnPending(c, mid, AcceptedIds(frames[..n]), frames[n].env, clock(|Filter(Envelopes(frames[..n]), IsPing)|));
    }
  }

  lemma {:induction false} ReadsAllEffect(c: Client, frames: seq<Delivery>, clock: nat -> Instants)
    requires c.phase.Tied? && PendingInRange(c)
    requires forall k :: 0 <= k < |frames| ==> frames[k].Parsed?
    ensures ReadEffect(c, frames, clock, ReadsAll(c, frames, clock))
  {
    ReadsAllEvents(c, frames, clock);
    ReadsAllPongs(c, frames, clock);
    ReadsAllPending(c, frames, clock);
  }

  lemma ToldNext(before: seq<Call>, pending: map<string, nat>, accepted: set<string>, mid: seq<Call>, id: string)
    requires Told(before, pending, accepted, mid)
    requires forall name :: name in pending ==> pending[name] < |before|
    ensures Told(before, pending, accepted + {id},
                 if id in pending - accepted then SetSlot(mid, pending[id], Fulfilled) else mid)
  {
    var after := if id in pending - accepted then SetSlot(mid, pending[id], Fulfilled) else mid;
    forall i | 0 <= i < |before|
      ensures after[i] == before[i].(slot := if Answered(pending, accepted + {id}, i) then Fulfilled
          else before[i].slot)
    {
      if id in pending && pending[id] == i {
        assert id in accepted + {id};
      } else {
        assert forall name :: name in pending && pending[name] == i ==> (name in accepted + {id} <==> name in accepted);
      }
    }
  }
}
