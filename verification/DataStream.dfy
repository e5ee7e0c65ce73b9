/**
 * The data path: `KnotStream::write_frame` on one side, `handle_stream` on the other, bytes in between (src/lib.rs).
 */
module DataStream {
  import opened BigEndian
  import opened FrameHeaders
  import opened Framing
  import opened Messages
  import opened Sequences
  import Recording

  /**
   * What the sink does while it is flushed: how many bytes it takes before it fails, and whether its own flush
   * succeeds.
   */
  datatype Taking = Taking(bytes: nat, flushes: bool)

  /**
   * One call of `write_frame`: what the caller passes, what the clock says, and what the sink does with the bytes held
   * back, before the frame is encoded and after.
   */
  datatype WriteCall =
    WriteCall(frameType: byte, timestampMs: u64, payload: seq<byte>, elapsedMs: nat, early: Taking, late: Taking)

  /** The framed writer refuses frames over `max`, and encodes no more while it holds back `boundary` bytes or more. */
  datatype Codec = Codec(max: nat, boundary: nat)

  /** The caller's timestamp is ignored; lengths and times are truncated as the casts do. */
  function HeaderOf(call: WriteCall, seqNum: u64): (h: FrameHeader)
    ensures h.Valid()
  {
    FrameHeader(MAGIC, 1, seqNum, call.elapsedMs % U64_LIMIT, call.frameType, 0, |call.payload| % U32_LIMIT)
  }

  function Bytes(frame: Recorded): seq<byte>
    requires frame.header.Valid()
  {
    Layout(frame.header) + frame.payload
  }

  function Number(calls: seq<WriteCall>): u64 {
    |calls| % U64_LIMIT
  }

  /** The frames that have entered the byte stream, and how many of its last bytes the writer still holds back. */
  datatype Line = Line(frames: seq<Recorded>, held: nat)

  function Drain(held: nat, taken: nat): nat {
    if taken < held then held - taken else 0
  }

  /** All bytes are taken, and the sink's own flush succeeds. */
  predicate Flushed(held: nat, taking: Taking) {
    taking.bytes >= held && taking.flushes
  }

  /** A frame of `length` bytes enters the byte stream: what is held back leaves room for it, and it is not too long. */
  predicate FrameEnters(held: nat, length: nat, early: Taking, codec: Codec) {
    (held < codec.boundary || Flushed(held, early)) && length <= codec.max
  }

  /** What is held back when a frame has entered, before the sink is offered it. */
  function HeldWith(held: nat, length: nat, early: Taking, codec: Codec): nat {
    (if held < codec.boundary then held else Drain(held, early.bytes)) + HEAD + length
  }

  function FrameHeld(held: nat, length: nat, early: Taking, late: Taking, codec: Codec): nat {
    if FrameEnters(held, length, early, codec) then Drain(HeldWith(held, length, early, codec), late.bytes)
    else if held < codec.boundary then held else Drain(held, early.bytes)
  }

  /** A send succeeds when its frame has entered, nothing is held back any more, and the sink has flushed it. */
  predicate FrameSent(held: nat, length: nat, early: Taking, late: Taking, codec: Codec) {
    FrameEnters(held, length, early, codec) && Flushed(HeldWith(held, length, early, codec), late)
  }

  function Length(call: WriteCall): nat {
    SIZE + |call.payload|
  }

  predicate Enters(held: nat, call: WriteCall, codec: Codec) {
    FrameEnters(held, Length(call), call.early, codec)
  }

  predicate Succeeds(held: nat, call: WriteCall, codec: Codec) {
    FrameSent(held, Length(call), call.early, call.late, codec)
  }

  function HeldAfter(held: nat, call: WriteCall, codec: Codec): nat {
    FrameHeld(held, Length(call), call.early, call.late, codec)
  }

  /** The number of a frame is that of its call, whether or not the calls before it got a frame in. */
  function LineAfter(calls: seq<WriteCall>, codec: Codec): (line: Line)
    ensures forall k :: 0 <= k < |line.frames| ==> line.frames[k].header.Valid()
  {
    if calls == [] then Line([], 0)
    else
      var front, call := calls[..|calls| - 1], calls[|calls| - 1];
      var line := LineAfter(front, codec);
      var entered := if Enters(line.held, call, codec) then [Recorded(HeaderOf(call, Number(front)), call.payload)]
          else [];
      Line(line.frames + entered, HeldAfter(line.held, call, codec))
  }

  function Sent(calls: seq<WriteCall>, codec: Codec): (frames: seq<Recorded>)
    ensures forall k :: 0 <= k < |frames| ==> frames[k].header.Valid()
  {
    LineAfter(calls, codec).frames
  }

  function Encoded(frames: seq<Recorded>): (r: seq<seq<byte>>)
    requires forall k :: 0 <= k < |frames| ==> frames[k].header.Valid()
    ensures |r| == |frames| && forall k :: 0 <= k < |frames| ==> r[k] == Bytes(frames[k])
  {
    seq(|frames|, k requires 0 <= k < |frames| => Bytes(frames[k]))
  }

  /** A stream open for writing, its configuration already sent. */
  class KnotStream {
    const streamIdNum: u32
    const codec: Codec
    var seqCounter: u64
    var wire: seq<byte>
    var buffer: seq<byte>
    ghost const config: seq<byte>
    ghost var calls: seq<WriteCall>

    /** What is on the wire and what is held back are together the byte stream of all calls so far. */
    ghost predicate Valid()
      reads this
    {
      && streamIdNum == 1
      && seqCounter == Number(calls)
      && wire + buffer == WireOf(config, calls, codec)
      && |buffer| == LineAfter(calls, codec).held
    }

    constructor (config: seq<byte>, codec: Codec)
      ensures Valid() && calls == [] && this.config == config && this.codec == codec
    {
      streamIdNum, this.codec, seqCounter, wire, buffer := 1, codec, 0, Packed(config), [];
      this.config, calls := config, [];
      new;
      assert Encoded(Sent([], codec)) == [] && wire + buffer == wire + [];
    }

    /** The sink takes what it can; what it does not take stays for the next call. */
    method Flush(taking: Taking) returns (ok: bool)
      modifies this`wire, this`buffer
      ensures wire + buffer == old(wire + buffer) && old(wire) <= wire
      ensures |buffer| == Drain(|old(buffer)|, taking.bytes) && (ok <==> Flushed(|old(buffer)|, taking))
    {
      var n := if taking.bytes < |buffer| then taking.bytes else |buffer|;
      wire, buffer := wire + buffer[..n], buffer[n..];
      ok := buffer == [] && taking.flushes;
    }

    method WriteFrame(frameType: byte, timestampMs: u64, payload: seq<byte>, elapsedMs: nat, early: Taking,
        late: Taking)
      returns (ok: bool)
      requires Valid()
      modifies this
      ensures Valid() && old(wire) <= wire
      ensures calls == old(calls) + [WriteCall(frameType, timestampMs, payload, elapsedMs, early, late)]
      ensures ok <==> Succeeds(|old(buffer)|, calls[|old(calls)|], codec)
      ensures ok ==> wire == WireOf(config, calls, codec)
      ensures ok <==>
                && 28 + |payload| <= codec.max
                && (|old(buffer)| >= codec.boundary ==> early.bytes >= |old(buffer)| && early.flushes)
                && late.bytes >= (if |old(buffer)| < codec.boundary then |old(buffer)| else 0) + 4 + 28 + |payload|
                && late.flushes
    {
      ghost var call := WriteCall(frameType, timestampMs, payload, elapsedMs, early, late);
      var header := FrameHeader(MAGIC, streamIdNum, seqCounter, elapsedMs % U64_LIMIT, frameType, 0,
          |payload| % U32_LIMIT);
      assert header == HeaderOf(call, Number(calls));
      seqCounter := if seqCounter == U64_LIMIT - 1 then 0 else seqCounter + 1;
      CounterSteps(|calls|);
      WireGrows(config, calls, call, codec);
      var bytes := Encode(header);
      var frame := bytes[..];
      frame := frame + payload;
      assert |frame| == Length(call) && frame == Layout(HeaderOf(call, Number(calls))) + payload;
      ok := Send(frame, early, late);
      calls := calls + [call];
      assert ok ==> |buffer| == 0;
    }

    /** `SinkExt::send` on the framed writer. */
    method Send(frame: seq<byte>, early: Taking, late: Taking) returns (ok: bool)
      modifies this`wire, this`buffer
      ensures old(wire) <= wire
      ensures wire + buffer == old(wire + buffer) +
                (if FrameEnters(|old(buffer)|, |frame|, early, codec) then Packed(frame) else [])
      ensures |buffer| == FrameHeld(|old(buffer)|, |frame|, early, late, codec)
      ensures ok <==> FrameSent(|old(buffer)|, |frame|, early, late, codec)
    {
      if |buffer| >= codec.boundary {
        ok := Flush(early);
        if !ok {
          return false;
        }
      }
      if |frame| > codec.max {
        return false;
      }
      buffer := buffer + Packed(frame);
      ok := Flush(late);
    }
  }

  lemma CounterSteps(n: nat)
    ensures (n + 1) % U64_LIMIT == if n % U64_LIMIT == U64_LIMIT - 1 then 0 else n % U64_LIMIT + 1
  {
    assert n + 1 == (n / U64_LIMIT) * U64_LIMIT + (n % U64_LIMIT + 1);
  }

  lemma LinePushed(calls: seq<WriteCall>, call: WriteCall, codec: Codec)
    ensures var line := LineAfter(calls, codec);
            && LineAfter(calls + [call], codec).held == HeldAfter(line.held, call, codec)
            && Sent(calls + [call], codec) ==
                 line.frames + (if Enters(line.held, call, codec)
                     then [Recorded(HeaderOf(call, Number(calls)), call.payload)] else [])
  {
    assert (calls + [call])[..|calls|] == calls;
  }

  lemma EncodedPush(frames: seq<Recorded>, frame: Recorded)
    requires frame.header.Valid() && forall k :: 0 <= k < |frames| ==> frames[k].header.Valid()
    ensures Encoded(frames + [frame]) == Encoded(frames) + [Bytes(frame)]
  {
  }

  function WireOf(config: seq<byte>, calls: seq<WriteCall>, codec: Codec): seq<byte> {
    Packed(config) + PackedAll(Encoded(Sent(calls, codec)))
  }

  lemma WireGrows(config: seq<byte>, calls: seq<WriteCall>, call: WriteCall, codec: Codec)
    ensures LineAfter(calls + [call], codec).held == HeldAfter(LineAfter(calls, codec).held, call, codec)
    ensures WireOf(config, calls + [call], codec) ==
              WireOf(config, calls, codec)
              + (if Enters(LineAfter(calls, codec).held, call, codec)
                 then Packed(Layout(HeaderOf(call, Number(calls))) + call.payload) else [])
  {
    var sent := Sent(calls, codec);
    var frame := Recorded(HeaderOf(call, Number(calls)), call.payload);
    LinePushed(calls, call, codec);
    if Enters(LineAfter(calls, codec).held, call, codec) {
      EncodedPush(sent, frame);
      PackedAllPush(Encoded(sent), Bytes(frame));
      Associative(Packed(config), PackedAll(Encoded(sent)), Packed(Bytes(frame)));
    } else {
      assert sent + [] == sent;
      assert WireOf(config, calls, codec) + [] == WireOf(config, calls, codec);
    }
  }

  // ---- numbering ----

  /** The calls whose frames never entered the byte stream. */
  function KeptOut(calls: seq<WriteCall>, codec: Codec): nat {
    if calls == [] then 0
    else
      var front, call := calls[..|calls| - 1], calls[|calls| - 1];
      KeptOut(front, codec) + (if Enters(LineAfter(front, codec).held, call, codec) then 0 else 1)
  }

  lemma {:induction false} SentOrKeptOut(calls: seq<WriteCall>, codec: Codec)
    ensures |Sent(calls, codec)| + KeptOut(calls, codec) == |calls|
  {
    if calls != [] {
      SentOrKeptOut(calls[..|calls| - 1], codec);
    }
  }

  ghost predicate AllSucceed(calls: seq<WriteCall>, codec: Codec) {
    forall k :: 0 <= k < |calls| ==> Succeeds(LineAfter(calls[..k], codec).held, calls[k], codec)
  }

  /** When every call succeeds, all frames are in the byte stream and none of it is held back. */
  lemma {:induction false} AllSucceedAllSent(calls: seq<WriteCall>, codec: Codec)
    requires AllSucceed(calls, codec)
    ensures KeptOut(calls, codec) == 0 && LineAfter(calls, codec).held == 0
  {
    if calls != [] {
      var front := calls[..|calls| - 1];
      forall k | 0 <= k < |front| ensures Succeeds(LineAfter(front[..k], codec).held, front[k], codec) {
        assert front[..k] == calls[..k];
      }
      AllSucceedAllSent(front, codec);
      assert Succeeds(LineAfter(front, codec).held, calls[|front|], codec);
    }
  }

  /** The frame of a call: what the caller passed and what the clock said, but not the caller's timestamp. */
  predicate IsFrameOf(frame: Recorded, call: WriteCall) {
    var h := frame.header;
    && h.magic == [0x4B, 0x50] && h.streamId == 1 && h.flags == 0
    && h.timestampMs == call.elapsedMs % U64_LIMIT
    && h.frameType == call.frameType
    && h.payloadLen == |call.payload| % U32_LIMIT
    && frame.payload == call.payload
  }

  /** Which calls the frames in the byte stream are those of. */
  lemma {:induction false} FramesAreCalls(calls: seq<WriteCall>, codec: Codec) returns (js: seq<nat>)
    ensures |js| == |Sent(calls, codec)|
    ensures forall k :: 0 <= k < |js| ==>
              && js[k] < |calls| && IsFrameOf(Sent(calls, codec)[k], calls[js[k]])
              && Sent(calls, codec)[k].header.seqNum == js[k] % U64_LIMIT
    ensures forall i, k :: 0 <= i < k < |js| ==> js[i] < js[k]
  {
    js := [];
    if calls != [] {
      var front, call := calls[..|calls| - 1], calls[|calls| - 1];
      js := FramesAreCalls(front, codec);
      if Enters(LineAfter(front, codec).held, call, codec) {
        js := js + [|front|];
      }
    }
  }

  /**
   * For up to 2^64 calls the numbers in the byte stream strictly increase, a frame's number is its position plus the
   * calls before it whose frames were kept out, and every payload length is exact, whatever the casts would do to
   * larger values.
   */
  lemma {:induction false} Numbering(calls: seq<WriteCall>, codec: Codec)
    requires IsLimit(codec.max) && |calls| <= U64_LIMIT
    ensures var frames := Sent(calls, codec);
            && (forall i, j :: 0 <= i < j < |frames| ==> frames[i].header.seqNum < frames[j].header.seqNum)
            && (forall k :: 0 <= k < |frames| ==>
                  && k <= frames[k].header.seqNum < |calls|
                  && frames[k].header.seqNum == k + KeptOut(calls[..frames[k].header.seqNum], codec)
                  && frames[k].header.payloadLen == |frames[k].payload|
                  && IsFrameOf(frames[k], calls[frames[k].header.seqNum]))
  {
    if calls != [] {
      var front, call := calls[..|calls| - 1], calls[|calls| - 1];
      Numbering(front, codec);
      SentOrKeptOut(front, codec);
      var before, frames := Sent(front, codec), Sent(calls, codec);
      assert |front| % U64_LIMIT == |front|;
      forall k | 0 <= k < |frames|
        ensures k <= frames[k].header.seqNum < |calls|
        ensures frames[k].header.seqNum == k + KeptOut(calls[..frames[k].header.seqNum], codec)
        ensures frames[k].header.payloadLen == |frames[k].payload|
        ensures IsFrameOf(frames[k], calls[frames[k].header.seqNum])
      {
        if k < |before| {
          assert calls[..frames[k].header.seqNum] == front[..frames[k].header.seqNum];
        } else {
          assert frames[k].header.seqNum == |front|;
        }
      }
    }
  }

  /** A failed call may still be heard: its frame was held back, and goes out with the next. */
  lemma FailedFrameArrives(first: WriteCall, second: WriteCall, codec: Codec)
    requires codec.boundary > HEAD + SIZE + |first.payload| && codec.max >= SIZE + |first.payload|
        && first.late.bytes == 0
    requires codec.max >= SIZE + |second.payload|
        && Flushed(2 * HEAD + 2 * SIZE + |first.payload| + |second.payload|, second.late)
    ensures var line := LineAfter([first], codec);
            !Succeeds(0, first, codec) && Succeeds(line.held, second, codec)
    ensures Sent([first, second], codec) ==
              [Recorded(HeaderOf(first, 0), first.payload), Recorded(HeaderOf(second, 1), second.payload)]
  {
    LinePushed([], first, codec);
    LinePushed([first], second, codec);
    assert [] + [first] == [first] && [first] + [second] == [first, second];
  }

  // ---- the hub's side ----

  datatype StreamError = NoConfig | BadConfig | NoStore | BadHeader(error: HeaderError) | StoreFailed | ReadFailed

  /** What `handle_stream` has reported so far, and what stopped it, if anything has. */
  datatype Progress = Progress(events: seq<Recorded>, stopped: Option<StreamError>)

  /**
   * Short frames are skipped; a bad header or a failed commit is the end. `commits(k)` is the fate of the k-th commit.
   */
  function Handle(p: Progress, frame: seq<byte>, commits: nat -> bool): Progress {
    if p.stopped.Some? || |frame| < SIZE then p
    else
      var decoded := Decode(frame[..SIZE]);
      if decoded.Err? then p.(stopped := Some(BadHeader(decoded.error)))
      else if !commits(|p.events|) then p.(stopped := Some(StoreFailed))
      else p.(events := p.events + [Recorded(decoded.header, frame[SIZE..])])
  }

  function HandleAll(frames: seq<seq<byte>>, commits: nat -> bool): Progress {
    if frames == [] then Progress([], None)
    else Handle(HandleAll(frames[..|frames| - 1], commits), frames[|frames| - 1], commits)
  }

  function Entries(events: seq<Recorded>): (log: seq<Recording.Entry>)
    ensures |log| == |events|
    ensures forall k :: 0 <= k < |log| ==> log[k] == Recording.Entry(events[k].header.timestampMs, events[k].payload)
  {
    seq(|events|, k requires 0 <= k < |events| => Recording.Entry(events[k].header.timestampMs, events[k].payload))
  }

  /** The loop over the frames behind the configuration. */
  method HandleFrames(frames: seq<seq<byte>>, writer: Recording.RecordingWriter, commits: nat -> bool)
    returns (events: seq<Recorded>, error: Option<StreamError>)
    requires writer.Valid()
    modifies writer
    ensures writer.Valid() && writer.log == old(writer.log) + Entries(events)
    ensures HandleAll(frames, commits) == Progress(events, error)
  {
    events := [];
    EmptySteps(frames, commits);
    var i := 0;
    while i < |frames|
      invariant i <= |frames|
      invariant HandleAll(frames[..i], commits) == Progress(events, None)
      invariant writer.Valid() && writer.log == old(writer.log) + Entries(events)
    {
      var frame := frames[i];
      HandleNext(frames, i, commits);
      i := i + 1;
      if |frame| < SIZE {
        continue;
      }
      var decoded := Decode(frame[..SIZE]);
      if decoded.Err? {
        StoppedStays(frames, i, commits);
        return events, Some(BadHeader(decoded.error));
      }
      var payload := frame[SIZE..];
      var ok := writer.WriteFrame(decoded.header.timestampMs, payload, commits(|events|));
      if !ok {
        StoppedStays(frames, i, commits);
        return events, Some(StoreFailed);
      }
      EntriesPush(old(writer.log), events, Recorded(decoded.header, payload));
      events := events + [Recorded(decoded.header, payload)];
    }
    assert frames[..i] == frames;
    return events, None;
  }

  lemma EntriesPush(before: seq<Recording.Entry>, events: seq<Recorded>, frame: Recorded)
    ensures before + Entries(events + [frame]) == before + Entries(events) +
        [Recording.Entry(frame.header.timestampMs, frame.payload)]
  {
    assert Entries(events + [frame]) == Entries(events) + [Recording.Entry(frame.header.timestampMs, frame.payload)];
  }

  /** `opens` is the fate of opening the store, `parse` the configuration parser. */
  method HandleStream<Config>(bytes: seq<byte>, max: nat, parse: seq<byte> -> Option<Config>, opens: bool,
                              writer: Recording.RecordingWriter, commits: nat -> bool)
    returns (events: seq<Recorded>, error: Option<StreamError>)
    requires writer.Valid()
    modifies writer
    ensures writer.Valid() && writer.log == old(writer.log) + Entries(events)
    ensures var u := Unpack(bytes, max);
            if u.frames == [] then events == [] && error == Some(if u.ending.Clean? then NoConfig else ReadFailed)
            else if parse(u.frames[0]).None? then events == [] && error == Some(BadConfig)
            else if !opens then events == [] && error == Some(NoStore)
            else
              var p := HandleAll(u.frames[1..], commits);
              && events == p.events
              && error == if p.stopped.Some? then p.stopped else if u.ending.Clean? then None else Some(ReadFailed)
  {
    events := [];
    var u := Unpack(bytes, max);
    if u.frames == [] {
      return [], Some(if u.ending.Clean? then NoConfig else ReadFailed);
    }
    var config := parse(u.frames[0]);
    if config.None? {
      return [], Some(BadConfig);
    }
    if !opens {
      return [], Some(NoStore);
    }
    events, error := HandleFrames(u.frames[1..], writer, commits);
    if error.None? && !u.ending.Clean? {
      error := Some(ReadFailed);
    }
  }

  lemma EmptySteps(frames: seq<seq<byte>>, commits: nat -> bool)
    ensures HandleAll(frames[..0], commits) == Progress([], None) && Entries([]) == []
  {
  }

  lemma HandleNext(frames: seq<seq<byte>>, n: nat, commits: nat -> bool)
    requires n < |frames|
    ensures HandleAll(frames[..n + 1], commits) == Handle(HandleAll(frames[..n], commits), frames[n], commits)
  {
    assert frames[..n + 1][..n] == frames[..n];
  }

  lemma {:induction false} StoppedStays(frames: seq<seq<byte>>, n: nat, commits: nat -> bool)
    requires n <= |frames| && HandleAll(frames[..n], commits).stopped.Some?
    ensures HandleAll(frames, commits) == HandleAll(frames[..n], commits)
    decreases |frames| - n
  {
    if n < |frames| {
      assert frames[..n + 1][..n] == frames[..n];
      StoppedStays(frames, n + 1, commits);
    } else {
      assert frames[..n] == frames;
    }
  }

  predicate LongEnough(frame: seq<byte>) {
    |frame| >= SIZE
  }

  /** Why the long enough frame at position `k` stopped the stream. */
  ghost predicate Stops(long: seq<seq<byte>>, k: nat, error: StreamError, commits: nat -> bool) {
    && k < |long|
    && match error
       case BadHeader(e) => e.InvalidMagic? && |long[k]| >= SIZE && long[k][0..2] != MAGIC
       case StoreFailed => !commits(k)
       case _ => false
  }

  /**
   * Nothing torn, nothing invented: re-encoding the events gives back, byte for byte, the long enough frames, up to the
   * first whose magic is wrong or whose commit fails.
   */
  lemma {:induction false} EventsAreFrames(frames: seq<seq<byte>>, commits: nat -> bool)
    ensures var p := HandleAll(frames, commits);
            var long := Filter(frames, LongEnough);
            && (forall k :: 0 <= k < |p.events| ==>
                p.events[k].header.Valid() && p.events[k].header.magic == MAGIC && commits(k))
            && Encoded(p.events) <= long
            && (p.stopped.None? ==> Encoded(p.events) == long)
            && (p.stopped.Some? ==> Stops(long, |p.events|, p.stopped.value, commits))
  {
    if frames != [] {
      var front, frame := frames[..|frames| - 1], frames[|frames| - 1];
      EventsAreFrames(front, commits);
      if |frame| >= SIZE && HandleAll(front, commits).stopped.None? {
        HandleLong(HandleAll(front, commits), frame, commits);
      }
    }
  }

  lemma HandleLong(p: Progress, frame: seq<byte>, commits: nat -> bool)
    requires |frame| >= SIZE && p.stopped.None?
    ensures var q := Handle(p, frame, commits);
            if frame[0..2] != MAGIC then q == p.(stopped := Some(BadHeader(InvalidMagic)))
            else if !commits(|p.events|) then q == p.(stopped := Some(StoreFailed))
            else exists r: Recorded :: r.header.Valid() && r.header.magic == MAGIC && Bytes(r) == frame
                                       && q == p.(events := p.events + [r])
  {
    EncodeDecode(frame[..SIZE]);
    assert frame[..SIZE][0..2] == frame[0..2];
    assert frame[..SIZE][..SIZE] == frame[..SIZE];
    var decoded := Decode(frame[..SIZE]);
    if decoded.Ok? {
      var r := Recorded(decoded.header, frame[SIZE..]);
      assert Bytes(r) == frame[..SIZE] + frame[SIZE..] == frame;
    }
  }

  predicate FromClient(frames: seq<Recorded>) {
    forall k :: 0 <= k < |frames| ==> frames[k].header.Valid() && frames[k].header.magic == MAGIC
  }

  lemma BytesInjective(a: Recorded, b: Recorded)
    requires a.header.Valid() && a.header.magic == MAGIC && b.header.Valid() && b.header.magic == MAGIC
    requires Bytes(a) == Bytes(b)
    ensures a == b
  {
    DecodeEncode(a.header, a.payload);
    DecodeEncode(b.header, b.payload);
    assert Bytes(a)[SIZE..] == a.payload && Bytes(b)[SIZE..] == b.payload;
  }

  lemma {:induction false} AllLong(frames: seq<seq<byte>>)
    requires forall k :: 0 <= k < |frames| ==> LongEnough(frames[k])
    ensures Filter(frames, LongEnough) == frames
  {
    if frames != [] {
      AllLong(frames[..|frames| - 1]);
    }
  }

  lemma EventsMatch(p: Progress, frames: seq<Recorded>, commits: nat -> bool)
    requires FromClient(frames) && FromClient(p.events)
    requires Encoded(p.events) <= Encoded(frames)
    requires p.stopped.None? ==> Encoded(p.events) == Encoded(frames)
    requires p.stopped.Some? ==> Stops(Encoded(frames), |p.events|, p.stopped.value, commits)
    ensures p.events <= frames
    ensures p.stopped.Some? ==> |p.events| < |frames| && !commits(|p.events|) && p.stopped == Some(StoreFailed)
    ensures p.stopped.None? ==> p.events == frames
  {
    assert |p.events| == |Encoded(p.events)| && |frames| == |Encoded(frames)|;
    forall k | 0 <= k < |p.events| ensures p.events[k] == frames[k] {
      assert Encoded(p.events)[k] == Encoded(frames)[k];
      BytesInjective(p.events[k], frames[k]);
    }
    forall k | 0 <= k < |frames| ensures Encoded(frames)[k][0..2] == MAGIC {
      assert Bytes(frames[k])[0..2] == frames[k].header.magic;
    }
  }

  /** Frames this client encoded are decoded to themselves, up to the first commit that fails. */
  lemma HandleEncoded(frames: seq<Recorded>, commits: nat -> bool)
    requires FromClient(frames)
    ensures var p := HandleAll(Encoded(frames), commits);
            && p.events <= frames
            && (p.stopped.Some? ==> |p.events| < |frames| && !commits(|p.events|) && p.stopped == Some(StoreFailed))
            && (p.stopped.None? ==> p.events == frames)
  {
    EventsAreFrames(Encoded(frames), commits);
    AllLong(Encoded(frames));
    EventsMatch(HandleAll(Encoded(frames), commits), frames, commits);
  }

  // ---- both sides together ----

  predicate AlwaysCommits(commits: nat -> bool, n: nat) {
    forall k :: 0 <= k < n ==> commits(k)
  }

  lemma {:induction false} SentFits(calls: seq<WriteCall>, codec: Codec)
    ensures forall k :: 0 <= k < |Sent(calls, codec)| ==>
              Sent(calls, codec)[k].header.magic == MAGIC && |Bytes(Sent(calls, codec)[k])| <= codec.max
  {
    if calls != [] {
      var front, call := calls[..|calls| - 1], calls[|calls| - 1];
      SentFits(front, codec);
      var before, frames := Sent(front, codec), Sent(calls, codec);
      forall k | 0 <= k < |frames| ensures frames[k].header.magic == MAGIC && |Bytes(frames[k])| <= codec.max {
        if k < |before| {
          assert frames[k] == before[k];
        }
      }
    }
  }

  /**
   * Whatever was written and wherever the byte stream is cut, the hub gets exactly the frames that lie whole before the
   * cut, with their headers and payloads and in order; a failing store only shortens that further.
   */
  lemma DataPathIsExact(config: seq<byte>, calls: seq<WriteCall>, codec: Codec, cut: nat, commits: nat -> bool)
    requires IsLimit(codec.max) && |config| <= codec.max && cut <= |WireOf(config, calls, codec)|
    ensures var u := Unpack(WireOf(config, calls, codec)[..cut], codec.max);
            var frames := Sent(calls, codec);
            if cut < |Packed(config)| then u.frames == []
            else
              var n := WholeWithin(Encoded(frames), cut - |Packed(config)|);
              && u.frames != [] && u.frames[0] == config
              && HandleAll(u.frames[1..], commits).events <= frames[..n]
              && (AlwaysCommits(commits, n) ==> HandleAll(u.frames[1..], commits) == Progress(frames[..n], None))
  {
    var frames := Sent(calls, codec);
    var encoded := Encoded(frames);
    SentFits(calls, codec);
    CutBehindFirst(config, encoded, codec.max, cut);
    if cut >= |Packed(config)| {
      var n := WholeWithin(encoded, cut - |Packed(config)|);
      assert encoded[..n] == Encoded(frames[..n]);
      HandleEncoded(frames[..n], commits);
    }
  }

  /** The first frame is there once the cut lies behind it, and the rest is cut as if it stood alone. */
  lemma CutBehindFirst(first: seq<byte>, rest: seq<seq<byte>>, max: nat, cut: nat)
    requires IsLimit(max) && |first| <= max && Fits(rest, max) && cut <= |Packed(first) + PackedAll(rest)|
    ensures var u := Unpack((Packed(first) + PackedAll(rest))[..cut], max);
            if cut < |Packed(first)| then u.frames == []
            else u.frames == [first] + rest[..WholeWithin(rest, cut - |Packed(first)|)]
  {
    var all := [first] + rest;
    assert all[1..] == rest;
    CutAnywhere(all, cut, max);
    if cut >= |Packed(first)| {
      var n := WholeWithin(rest, cut - |Packed(first)|);
      assert all[..n + 1] == [first] + rest[..n];
    }
  }

  ghost predicate ClockForward(calls: seq<WriteCall>) {
    && (forall k :: 0 <= k < |calls| ==> calls[k].elapsedMs < U64_LIMIT)
    && (forall i, j :: 0 <= i < j < |calls| ==> calls[i].elapsedMs <= calls[j].elapsedMs)
  }

  lemma {:induction false} SentForward(calls: seq<WriteCall>, codec: Codec)
    requires ClockForward(calls)
    ensures Recording.NonDecreasing(Entries(Sent(calls, codec)))
    ensures forall k :: 0 <= k < |Sent(calls, codec)| && calls != [] ==>
              Sent(calls, codec)[k].header.timestampMs <= calls[|calls| - 1].elapsedMs
  {
    if calls != [] {
      var front, call := calls[..|calls| - 1], calls[|calls| - 1];
      SentForward(front, codec);
      assert call.elapsedMs % U64_LIMIT == call.elapsedMs;
      assert front != [] ==> front[|front| - 1].elapsedMs <= call.elapsedMs;
      assert front == [] ==> Sent(front, codec) == [];
    }
  }

  /** What is recorded and reported of a byte stream whose first frame is a configuration. */
  function Arrived(bytes: seq<byte>, max: nat, commits: nat -> bool): seq<Recorded> {
    var frames := Unpack(bytes, max).frames;
    if frames == [] then [] else HandleAll(frames[1..], commits).events
  }

  /**
   * From the client's calls to the recording: with a clock that does not go back, whatever arrived before a cut and was
   * stored in a new file, up to a commit that failed, plays back, in key order, as the frames sent, the last of each
   * run of equal timestamps.
   */
  lemma RecordingPlaysTheStreamBack(hash: Recording.Payload -> Recording.Hash, config: seq<byte>, calls: seq<WriteCall>,
                                    codec: Codec, cut: nat, commits: nat -> bool, keys: seq<u64>)
    requires IsLimit(codec.max) && |config| <= codec.max && cut <= |WireOf(config, calls, codec)|
    requires ClockForward(calls)
    requires Recording.CollisionFree(hash, Entries(Sent(calls, codec)))
    requires var tables := Recording.Replay(hash,
        Entries(Arrived(WireOf(config, calls, codec)[..cut], codec.max, commits)));
             Recording.Ascending(keys) && forall t :: t in keys <==> t in tables.timeline
    ensures var events := Arrived(WireOf(config, calls, codec)[..cut], codec.max, commits);
            var kept := Recording.LastOfRuns(Entries(events));
            && events <= Sent(calls, codec)
            && |keys| == |kept|
            && forall k :: 0 <= k < |keys| ==>
                 && keys[k] == kept[k].timestampMs
                 && Recording.Lookup(Recording.Replay(hash, Entries(events)), keys[k]) == Some(kept[k].payload)
  {
    var frames := Sent(calls, codec);
    var events := Arrived(WireOf(config, calls, codec)[..cut], codec.max, commits);
    DataPathIsExact(config, calls, codec, cut, commits);
    SentForward(calls, codec);
    PrefixPlays(hash, frames, events);
    Recording.PlaybackIsTheStream(hash, Entries(events), keys);
  }

  /** What playback finds at a timestamp: the payload of the last frame stamped with it, of those that arrived. */
  predicate PlaysLast(calls: seq<WriteCall>, js: seq<nat>, i: nat, t: u64, found: Option<Recording.Payload>) {
    && i < |js| && (forall k :: 0 <= k < |js| ==> js[k] < |calls|)
    && calls[js[i]].elapsedMs == t && found == Some(calls[js[i]].payload)
    && forall k :: i < k < |js| ==> calls[js[k]].elapsedMs > t
  }

  /**
   * The same against the client's clock: there are calls, in order, whose frames arrived and were recorded; the keys
   * are exactly the elapsed times of these calls, and under each key lies the payload of the last of them at that time.
   */
  lemma PlaybackFollowsTheClock(hash: Recording.Payload -> Recording.Hash, config: seq<byte>, calls: seq<WriteCall>,
                                codec: Codec, cut: nat, commits: nat -> bool, keys: seq<u64>) returns (js: seq<nat>)
    requires IsLimit(codec.max) && |config| <= codec.max && cut <= |WireOf(config, calls, codec)|
    requires ClockForward(calls)
    requires Recording.CollisionFree(hash, Entries(Sent(calls, codec)))
    requires var tables := Recording.Replay(hash,
        Entries(Arrived(WireOf(config, calls, codec)[..cut], codec.max, commits)));
             Recording.Ascending(keys) && forall t :: t in keys <==> t in tables.timeline
    ensures PlaysBack(hash, calls, js, Arrived(WireOf(config, calls, codec)[..cut], codec.max, commits), keys)
  {
    ArrivedInOrder(config, calls, codec, cut, commits);
    js := PrefixPlaysBack(hash, calls, codec, Arrived(WireOf(config, calls, codec)[..cut], codec.max, commits), keys);
  }

  lemma ArrivedInOrder(config: seq<byte>, calls: seq<WriteCall>, codec: Codec, cut: nat, commits: nat -> bool)
    requires IsLimit(codec.max) && |config| <= codec.max && cut <= |WireOf(config, calls, codec)|
    ensures Arrived(WireOf(config, calls, codec)[..cut], codec.max, commits) <= Sent(calls, codec)
  {
    DataPathIsExact(config, calls, codec, cut, commits);
  }

  lemma PrefixPlaysBack(hash: Recording.Payload -> Recording.Hash, calls: seq<WriteCall>, codec: Codec,
                        events: seq<Recorded>, keys: seq<u64>) returns (js: seq<nat>)
    requires events <= Sent(calls, codec) && ClockForward(calls)
    requires Recording.CollisionFree(hash, Entries(Sent(calls, codec)))
    requires Recording.Ascending(keys) && forall t :: t in keys <==>
        t in Recording.Replay(hash, Entries(events)).timeline
    ensures PlaysBack(hash, calls, js, events, keys)
  {
    var frames := Sent(calls, codec);
    SentForward(calls, codec);
    PrefixPlays(hash, frames, events);
    Recording.PlaybackIsTheStream(hash, Entries(events), keys);
    var all := FramesAreCalls(calls, codec);
    js := all[..|events|];
    assert forall i :: 0 <= i < |js| ==> events[i] == frames[i];
    KeysPlayBack(hash, calls, js, events, keys);
  }

  /**
   * Each key is the time of a call whose frame was recorded, the last such of that time, whose payload is found there.
   */
  ghost predicate PlaysBack(hash: Recording.Payload -> Recording.Hash, calls: seq<WriteCall>, js: seq<nat>,
                            events: seq<Recorded>, keys: seq<u64>) {
    && FramesOf(calls, js, events)
    && (forall i, k :: 0 <= i < k < |js| ==> js[i] < js[k])
    && (forall i :: 0 <= i < |js| ==> calls[js[i]].elapsedMs in keys)
    && (forall k :: 0 <= k < |keys| ==> KeyPlays(hash, calls, js, events, keys[k]))
  }

  ghost predicate KeyPlays(hash: Recording.Payload -> Recording.Hash, calls: seq<WriteCall>, js: seq<nat>,
                           events: seq<Recorded>, t: u64) {
    exists i: nat :: PlaysLast(calls, js, i, t, Recording.Lookup(Recording.Replay(hash, Entries(events)), t))
  }

  lemma KeysPlayBack(hash: Recording.Payload -> Recording.Hash, calls: seq<WriteCall>, js: seq<nat>,
      events: seq<Recorded>,
                     keys: seq<u64>)
    requires FramesOf(calls, js, events) && Recording.NonDecreasing(Entries(events))
    requires forall i, k :: 0 <= i < k < |js| ==> js[i] < js[k]
    requires forall t :: t in keys <==> t in Recording.Replay(hash, Entries(events)).timeline
    requires var kept := Recording.LastOfRuns(Entries(events));
             && |keys| == |kept|
             && forall k :: 0 <= k < |keys| ==>
                  && keys[k] == kept[k].timestampMs
                  && Recording.Lookup(Recording.Replay(hash, Entries(events)), keys[k]) == Some(kept[k].payload)
    ensures PlaysBack(hash, calls, js, events, keys)
  {
    EveryStampIsAKey(hash, calls, js, events, keys);
    forall k | 0 <= k < |keys| ensures KeyPlays(hash, calls, js, events, keys[k]) {
      var i := KeyPlaysLast(hash, calls, js, events, keys, k);
    }
  }

  /** The frames are those of these calls, whose clock has not wrapped. */
  ghost predicate FramesOf(calls: seq<WriteCall>, js: seq<nat>, events: seq<Recorded>) {
    && ClockForward(calls) && |js| == |events|
    && forall i :: 0 <= i < |js| ==> js[i] < |calls| && IsFrameOf(events[i], calls[js[i]])
  }

  lemma StampsAreTimes(calls: seq<WriteCall>, js: seq<nat>, events: seq<Recorded>, i: nat)
    requires FramesOf(calls, js, events) && i < |js|
    ensures Entries(events)[i] == Recording.Entry(calls[js[i]].elapsedMs, calls[js[i]].payload)
  {
    assert calls[js[i]].elapsedMs % U64_LIMIT == calls[js[i]].elapsedMs;
  }

  lemma EveryStampIsAKey(hash: Recording.Payload -> Recording.Hash, calls: seq<WriteCall>, js: seq<nat>,
      events: seq<Recorded>,
                         keys: seq<u64>)
    requires FramesOf(calls, js, events) && forall t :: t in keys <==>
        t in Recording.Replay(hash, Entries(events)).timeline
    ensures forall i :: 0 <= i < |js| ==> calls[js[i]].elapsedMs in keys
  {
    var log := Entries(events);
    forall i | 0 <= i < |js| ensures calls[js[i]].elapsedMs in keys {
      StampsAreTimes(calls, js, events, i);
      assert log[i] in log;
      Recording.TablesMeanTheLog(hash, log, [], log[i].timestampMs);
      Recording.LastAtFound(log, log[i].timestampMs);
    }
  }

  lemma KeyPlaysLast(hash: Recording.Payload -> Recording.Hash, calls: seq<WriteCall>, js: seq<nat>,
      events: seq<Recorded>,
                     keys: seq<u64>, k: nat) returns (i: nat)
    requires FramesOf(calls, js, events) && Recording.NonDecreasing(Entries(events)) && k < |keys|
    requires |keys| == |Recording.LastOfRuns(Entries(events))|
    requires var e := Recording.LastOfRuns(Entries(events))[k];
             && keys[k] == e.timestampMs
             && Recording.Lookup(Recording.Replay(hash, Entries(events)), keys[k]) == Some(e.payload)
    ensures PlaysLast(calls, js, i, keys[k], Recording.Lookup(Recording.Replay(hash, Entries(events)), keys[k]))
  {
    var log := Entries(events);
    var ends := Recording.RunEnds(log);
    i := ends[k];
    assert Recording.EndsRun(log, i) && Recording.LastOfRuns(log)[k] == log[i];
    RunEndIsLast(log, i);
    StampsAreTimes(calls, js, events, i);
    forall m | i < m < |js| ensures calls[js[m]].elapsedMs > keys[k] {
      StampsAreTimes(calls, js, events, m);
    }
  }

  lemma RunEndIsLast(log: seq<Recording.Entry>, i: nat)
    requires Recording.NonDecreasing(log) && Recording.EndsRun(log, i)
    ensures forall k :: i < k < |log| ==> log[k].timestampMs > log[i].timestampMs
  {
    forall k | i < k < |log| ensures log[k].timestampMs > log[i].timestampMs {
      assert log[i].timestampMs <= log[i + 1].timestampMs;
      assert k > i + 1 ==> log[i + 1].timestampMs <= log[k].timestampMs;
    }
  }

  lemma PrefixPlays(hash: Recording.Payload -> Recording.Hash, frames: seq<Recorded>, events: seq<Recorded>)
    requires events <= frames && Recording.NonDecreasing(Entries(frames))
        && Recording.CollisionFree(hash, Entries(frames))
    ensures Recording.NonDecreasing(Entries(events)) && Recording.CollisionFree(hash, Entries(events))
  {
    var log := Entries(events);
    assert log == Entries(frames)[..|events|];
    assert forall e :: e in log ==> e in Entries(frames);
  }
}
