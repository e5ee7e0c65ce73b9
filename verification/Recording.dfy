/** The deduplicated recording store: two tables kept in step, and the plain log they stand for (src/lib.rs). */
module Recording {
  import opened BigEndian
  import opened Sequences

  type Payload = seq<byte>
  type Hash = seq<byte>

  /** One frame as the store is asked to record it. */
  datatype Entry = Entry(timestampMs: u64, payload: Payload)

  /** FRAMES maps hashes to payloads, TIMELINE timestamps to hashes. */
  datatype Tables = Tables(frames: map<Hash, Payload>, timeline: map<u64, Hash>)

  function Insert(t: Tables, hash: Payload -> Hash, e: Entry): Tables {
    var h := hash(e.payload);
    Tables(if h in t.frames then t.frames else t.frames[h := e.payload], t.timeline[e.timestampMs := h])
  }

  /** The tables after a log of committed frames. */
  function Replay(hash: Payload -> Hash, log: seq<Entry>): Tables {
    if log == [] then Tables(map[], map[]) else Insert(Replay(hash, log[..|log| - 1]), hash, log[|log| - 1])
  }

  /** One recording file. Its two tables survive closing and reopening. */
  class RecordingWriter {
    const hash: Payload -> Hash
    var frames: map<Hash, Payload>
    var timeline: map<u64, Hash>
    ghost var log: seq<Entry>

    ghost predicate Valid()
      reads this
    {
      Tables(frames, timeline) == Replay(hash, log)
    }

    /** Opening a path with no file behind it. */
    constructor (hash: Payload -> Hash)
      ensures Valid() && log == [] && this.hash == hash
    {
      this.hash := hash;
      frames, timeline, log := map[], map[], [];
    }

    /** One transaction: both tables change, or, when it does not commit, neither. */
    method WriteFrame(timestampMs: u64, payload: Payload, commits: bool) returns (ok: bool)
      requires Valid()
      modifies this
      ensures Valid() && ok == commits
      ensures log == if commits then old(log) + [Entry(timestampMs, payload)] else old(log)
    {
      var h := hash(payload);
      var tableFrames, tableTimeline := frames, timeline;
      if h !in tableFrames {
        tableFrames := tableFrames[h := payload];
      }
      tableTimeline := tableTimeline[timestampMs := h];
      if !commits {
        return false;
      }
      frames, timeline := tableFrames, tableTimeline;
      log := log + [Entry(timestampMs, payload)];
      assert log[..|log| - 1] == old(log);
      return true;
    }
  }

  // ---- the plain log ----

  /** The last payload written at a timestamp. */
  function LastAt(log: seq<Entry>, t: u64): Option<Payload> {
    if log == [] then None
    else if log[|log| - 1].timestampMs == t then Some(log[|log| - 1].payload)
    else LastAt(log[..|log| - 1], t)
  }

  /** The first payload written with a hash. */
  function FirstWith(hash: Payload -> Hash, log: seq<Entry>, h: Hash): Option<Payload> {
    if log == [] then None
    else if hash(log[0].payload) == h then Some(log[0].payload)
    else FirstWith(hash, log[1..], h)
  }

  function Payloads(log: seq<Entry>): set<Payload> {
    set e | e in log :: e.payload
  }

  function Stamps(log: seq<Entry>): set<u64> {
    set e | e in log :: e.timestampMs
  }

  /** No two different payloads of the log share a hash. */
  ghost predicate CollisionFree(hash: Payload -> Hash, log: seq<Entry>) {
    forall p, q :: p in Payloads(log) && q in Payloads(log) && hash(p) == hash(q) ==> p == q
  }

  lemma {:induction false} FirstWithPush(hash: Payload -> Hash, log: seq<Entry>, e: Entry, h: Hash)
    ensures FirstWith(hash, log + [e], h) ==
              if FirstWith(hash, log, h).Some? then FirstWith(hash, log, h)
              else if hash(e.payload) == h then Some(e.payload) else None
  {
    var more := log + [e];
    if log == [] {
      assert more[1..] == [];
    } else {
      assert more[1..] == log[1..] + [e];
      FirstWithPush(hash, log[1..], e, h);
    }
  }

  /**
   * For every hash function and every log: FRAMES holds under each hash the first payload written with it, and
   * TIMELINE under each timestamp the hash of the last payload written there; neither holds anything else.
   */
  lemma {:induction false} TablesMeanTheLog(hash: Payload -> Hash, log: seq<Entry>, h: Hash, t: u64)
    ensures var tables := Replay(hash, log);
            && (if h in tables.frames then Some(tables.frames[h]) else None) == FirstWith(hash, log, h)
            && (t in tables.timeline <==> LastAt(log, t).Some?)
            && (t in tables.timeline ==> tables.timeline[t] == hash(LastAt(log, t).value))
  {
    if log != [] {
      var front, e := log[..|log| - 1], log[|log| - 1];
      TablesMeanTheLog(hash, front, h, t);
      FirstWithPush(hash, front, e, h);
      assert front + [e] == log;
    }
  }

  lemma {:induction false} FirstWithFound(hash: Payload -> Hash, log: seq<Entry>, p: Payload)
    requires p in Payloads(log)
    ensures var r := FirstWith(hash, log, hash(p)); r.Some? && hash(r.value) == hash(p) && r.value in Payloads(log)
  {
    if hash(log[0].payload) != hash(p) {
      var e :| e in log && e.payload == p;
      assert e in log[1..];
      FirstWithFound(hash, log[1..], p);
      var r := FirstWith(hash, log[1..], hash(p)).value;
      var f :| f in log[1..] && f.payload == r;
      assert f in log;
    }
  }

  lemma {:induction false} LastAtFound(log: seq<Entry>, t: u64)
    ensures LastAt(log, t).Some? <==> t in Stamps(log)
    ensures LastAt(log, t).Some? ==> Entry(t, LastAt(log, t).value) in log && LastAt(log, t).value in Payloads(log)
  {
    if log != [] {
      var front, e := log[..|log| - 1], log[|log| - 1];
      LastAtFound(front, t);
      assert log == front + [e];
      if e.timestampMs == t {
        assert e in log;
      } else if t in Stamps(log) {
        var f :| f in log && f.timestampMs == t;
        assert f in front;
        assert t in Stamps(front);
      }
    }
  }

  /** What a reader finds for a timestamp by going through both tables. */
  function Lookup(tables: Tables, t: u64): Option<Payload> {
    if t in tables.timeline && tables.timeline[t] in tables.frames then Some(tables.frames[tables.timeline[t]])
        else None
  }

  /**
   * Going through both tables never dangles. It gives the last payload written at a timestamp exactly when no earlier
   * payload took its hash; so without collisions the store is a last-write-wins map from timestamps to payloads.
   */
  lemma LookupIsLastWrite(hash: Payload -> Hash, log: seq<Entry>, t: u64)
    ensures var last := LastAt(log, t);
            && (Lookup(Replay(hash, log), t).Some? <==> t in Stamps(log))
            && (last.Some? ==> (Lookup(Replay(hash, log), t) == last <==>
                FirstWith(hash, log, hash(last.value)) == last))
            && (CollisionFree(hash, log) ==> Lookup(Replay(hash, log), t) == last)
  {
    LastAtFound(log, t);
    var last := LastAt(log, t);
    if last.Some? {
      TablesMeanTheLog(hash, log, hash(last.value), t);
      FirstWithFound(hash, log, last.value);
    } else {
      TablesMeanTheLog(hash, log, [], t);
    }
  }

  lemma SetsPush(log: seq<Entry>, e: Entry)
    ensures Payloads(log + [e]) == Payloads(log) + {e.payload}
    ensures Stamps(log + [e]) == Stamps(log) + {e.timestampMs}
  {
    var more := log + [e];
    assert forall x :: x in more <==> x in log || x == e;
  }

  /**
   * FRAMES has one row for every distinct payload exactly when the payloads do not collide, and never more; TIMELINE
   * has one row for every distinct timestamp.
   */
  lemma {:induction false} TableSizes(hash: Payload -> Hash, log: seq<Entry>)
    ensures var tables := Replay(hash, log);
            && |tables.timeline| == |Stamps(log)|
            && |tables.frames| <= |Payloads(log)|
            && (|tables.frames| == |Payloads(log)| <==> CollisionFree(hash, log))
  {
    if log == [] {
      assert Stamps(log) == {} && Payloads(log) == {};
    } else {
      var front, e := log[..|log| - 1], log[|log| - 1];
      assert log == front + [e];
      TableSizes(hash, front);
      SetsPush(front, e);
      TimelineGrows(hash, front, e);
      FramesGrow(hash, front, e);
    }
  }

  lemma TimelineGrows(hash: Payload -> Hash, front: seq<Entry>, e: Entry)
    requires |Replay(hash, front).timeline| == |Stamps(front)|
    ensures |Insert(Replay(hash, front), hash, e).timeline| == |Stamps(front) + {e.timestampMs}|
  {
    var before := Replay(hash, front).timeline;
    TablesMeanTheLog(hash, front, [], e.timestampMs);
    LastAtFound(front, e.timestampMs);
    assert before[e.timestampMs := hash(e.payload)].Keys == before.Keys + {e.timestampMs};
    if e.timestampMs in Stamps(front) {
      assert Stamps(front) + {e.timestampMs} == Stamps(front);
      assert before.Keys + {e.timestampMs} == before.Keys;
    }
  }

  lemma FramesGrow(hash: Payload -> Hash, front: seq<Entry>, e: Entry)
    requires |Replay(hash, front).frames| <= |Payloads(front)|
    requires |Replay(hash, front).frames| == |Payloads(front)| <==> CollisionFree(hash, front)
    ensures |Insert(Replay(hash, front), hash, e).frames| <= |Payloads(front) + {e.payload}|
    ensures |Insert(Replay(hash, front), hash, e).frames| == |Payloads(front) + {e.payload}| <==>
        CollisionFree(hash, front + [e])
  {
    TablesMeanTheLog(hash, front, hash(e.payload), e.timestampMs);
    CollisionPush(hash, front, e);
    if e.payload in Payloads(front) {
      assert Payloads(front) + {e.payload} == Payloads(front);
    }
  }

  lemma CollisionPush(hash: Payload -> Hash, log: seq<Entry>, e: Entry)
    ensures FirstWith(hash, log, hash(e.payload)).Some? <==>
        exists p :: p in Payloads(log) && hash(p) == hash(e.payload)
    ensures CollisionFree(hash, log + [e]) <==>
              CollisionFree(hash, log) && (FirstWith(hash, log, hash(e.payload)).Some? ==> e.payload in Payloads(log))
  {
    SetsPush(log, e);
    FirstWithSome(hash, log, hash(e.payload));
    if exists p :: p in Payloads(log) && hash(p) == hash(e.payload) {
      var p :| p in Payloads(log) && hash(p) == hash(e.payload);
      FirstWithFound(hash, log, p);
    }
  }

  lemma {:induction false} FirstWithSome(hash: Payload -> Hash, log: seq<Entry>, h: Hash)
    ensures FirstWith(hash, log, h).Some? ==>
        FirstWith(hash, log, h).value in Payloads(log) && hash(FirstWith(hash, log, h).value) == h
  {
    if log != [] {
      if hash(log[0].payload) == h {
        assert log[0] in log;
      } else {
        FirstWithSome(hash, log[1..], h);
        if FirstWith(hash, log, h).Some? {
          var f :| f in log[1..] && f.payload == FirstWith(hash, log, h).value;
          assert f in log;
        }
      }
    }
  }

  /** FRAMES holds payloads that were written and no others, and all of them exactly when they do not collide. */
  lemma FramesHoldThePayloads(hash: Payload -> Hash, log: seq<Entry>)
    ensures Replay(hash, log).frames.Values <= Payloads(log)
    ensures Replay(hash, log).frames.Values == Payloads(log) <==> CollisionFree(hash, log)
  {
    var frames := Replay(hash, log).frames;
    forall h | h in frames ensures frames[h] in Payloads(log) && hash(frames[h]) == h {
      TablesMeanTheLog(hash, log, h, 0);
      FirstWithSome(hash, log, h);
    }
    forall p | p in Payloads(log) ensures hash(p) in frames && hash(frames[hash(p)]) == hash(p) {
      TablesMeanTheLog(hash, log, hash(p), 0);
      FirstWithFound(hash, log, p);
    }
  }

  /** The last position at which a timestamp occurs is the one whose payload counts. */
  lemma {:induction false} LastAtIs(log: seq<Entry>, k: nat)
    requires k < |log| && forall j :: k < j < |log| ==> log[j].timestampMs != log[k].timestampMs
    ensures LastAt(log, log[k].timestampMs) == Some(log[k].payload)
  {
    if k < |log| - 1 {
      LastAtIs(log[..|log| - 1], k);
    }
  }

  /** The first position at which a hash occurs is the one whose payload is kept. */
  lemma {:induction false} FirstWithIs(hash: Payload -> Hash, log: seq<Entry>, k: nat)
    requires k < |log| && forall j :: 0 <= j < k ==> hash(log[j].payload) != hash(log[k].payload)
    ensures FirstWith(hash, log, hash(log[k].payload)) == Some(log[k].payload)
  {
    if k > 0 {
      FirstWithIs(hash, log[1..], k - 1);
    }
  }

  /**
   * What the two tables hold, position by position: a timestamp leads to the payload of the last write there, if no
   * payload before that write's first occurrence took its hash; a hash to the first payload written with it.
   */
  lemma TablesByPosition(hash: Payload -> Hash, log: seq<Entry>, k: nat)
    requires k < |log|
    ensures var t := Replay(hash, log);
            && ((forall j :: k < j < |log| ==> log[j].timestampMs != log[k].timestampMs) ==>
                  && log[k].timestampMs in t.timeline && t.timeline[log[k].timestampMs] == hash(log[k].payload)
                  && (CollisionFree(hash, log) ==> Lookup(t, log[k].timestampMs) == Some(log[k].payload)))
            && ((forall j :: 0 <= j < k ==> hash(log[j].payload) != hash(log[k].payload)) ==>
                  hash(log[k].payload) in t.frames && t.frames[hash(log[k].payload)] == log[k].payload)
  {
    TablesMeanTheLog(hash, log, hash(log[k].payload), log[k].timestampMs);
    if forall j :: k < j < |log| ==> log[j].timestampMs != log[k].timestampMs {
      LastAtIs(log, k);
      LookupIsLastWrite(hash, log, log[k].timestampMs);
    }
    if forall j :: 0 <= j < k ==> hash(log[j].payload) != hash(log[k].payload) {
      FirstWithIs(hash, log, k);
    }
  }

  // ---- reading in key order ----

  ghost predicate NonDecreasing(log: seq<Entry>) {
    forall i, j :: 0 <= i < j < |log| ==> log[i].timestampMs <= log[j].timestampMs
  }

  ghost predicate Ascending(keys: seq<u64>) {
    forall i, j :: 0 <= i < j < |keys| ==> keys[i] < keys[j]
  }

  /** The log with only the last of each run of equal timestamps. */
  function LastOfRuns(log: seq<Entry>): seq<Entry> {
    if log == [] then []
    else if |log| > 1 && log[0].timestampMs == log[1].timestampMs then LastOfRuns(log[1..])
    else [log[0]] + LastOfRuns(log[1..])
  }

  predicate EndsRun(log: seq<Entry>, k: nat) {
    k < |log| && (k == |log| - 1 || log[k + 1].timestampMs != log[k].timestampMs)
  }

  /** These are all the positions where a run ends, in order. */
  ghost predicate AreEnds(log: seq<Entry>, ends: seq<nat>) {
    && (forall i :: 0 <= i < |ends| ==> EndsRun(log, ends[i]))
    && (forall i, j :: 0 <= i < j < |ends| ==> ends[i] < ends[j])
    && forall k: nat :: EndsRun(log, k) ==> k in ends
  }

  ghost predicate KeptAt(log: seq<Entry>, kept: seq<Entry>, ends: seq<nat>) {
    |ends| == |kept| && forall i :: 0 <= i < |ends| ==> ends[i] < |log| && kept[i] == log[ends[i]]
  }

  /** It keeps exactly the entries behind which another timestamp, or nothing, follows. */
  lemma {:induction false} RunEnds(log: seq<Entry>) returns (ends: seq<nat>)
    ensures AreEnds(log, ends) && KeptAt(log, LastOfRuns(log), ends)
  {
    ends := [];
    if log != [] {
      var inner := RunEnds(log[1..]);
      ends := ShiftEnds(log, inner);
    }
  }

  lemma ShiftEnds(log: seq<Entry>, inner: seq<nat>) returns (ends: seq<nat>)
    requires log != [] && AreEnds(log[1..], inner) && KeptAt(log[1..], LastOfRuns(log[1..]), inner)
    ensures AreEnds(log, ends) && KeptAt(log, LastOfRuns(log), ends)
  {
    var shifted := Shifted(log, inner, LastOfRuns(log[1..]));
    if EndsRun(log, 0) {
      ends := [0] + shifted;
      PushEnd(log, LastOfRuns(log[1..]), shifted);
    } else {
      ends := shifted;
      assert forall k: nat :: EndsRun(log, k) ==> k > 0;
    }
  }

  /** All positions but the first where a run ends. */
  ghost predicate AreLaterEnds(log: seq<Entry>, ends: seq<nat>) {
    && (forall i :: 0 <= i < |ends| ==> EndsRun(log, ends[i]) && ends[i] > 0)
    && (forall i, j :: 0 <= i < j < |ends| ==> ends[i] < ends[j])
    && forall k: nat :: k > 0 && EndsRun(log, k) ==> k in ends
  }

  lemma Shifted(log: seq<Entry>, inner: seq<nat>, kept: seq<Entry>) returns (ends: seq<nat>)
    requires log != [] && AreEnds(log[1..], inner) && KeptAt(log[1..], kept, inner)
    ensures AreLaterEnds(log, ends) && KeptAt(log, kept, ends)
  {
    var rest := log[1..];
    ends := AllOneMore(inner);
    forall i | 0 <= i < |ends| ensures EndsRun(log, ends[i]) && kept[i] == log[ends[i]] {
      EndShifts(log, rest, inner[i]);
    }
    forall k: nat | k > 0 && EndsRun(log, k) ensures k in ends {
      EndShifts(log, rest, k - 1);
      var i :| 0 <= i < |inner| && inner[i] == k - 1;
      assert ends[i] == k;
    }
  }

  function AllOneMore(s: seq<nat>): (r: seq<nat>)
    ensures |r| == |s| && forall i :: 0 <= i < |s| ==> r[i] == s[i] + 1
  {
    seq(|s|, i requires 0 <= i < |s| => s[i] + 1)
  }

  lemma EndShifts(log: seq<Entry>, rest: seq<Entry>, k: nat)
    requires log != [] && rest == log[1..]
    ensures EndsRun(log, k + 1) <==> EndsRun(rest, k)
    ensures k < |rest| ==> log[k + 1] == rest[k]
  {
  }

  lemma PushEnd(log: seq<Entry>, kept: seq<Entry>, ends: seq<nat>)
    requires EndsRun(log, 0) && AreLaterEnds(log, ends) && KeptAt(log, kept, ends)
    ensures AreEnds(log, [0] + ends) && KeptAt(log, [log[0]] + kept, [0] + ends)
  {
    var more := [0] + ends;
    forall i | 0 <= i < |more| ensures EndsRun(log, more[i]) && ([log[0]] + kept)[i] == log[more[i]] {
      assert i > 0 ==> more[i] == ends[i - 1];
    }
    forall k: nat | EndsRun(log, k) ensures k in more {
      assert k == 0 || k in ends;
    }
  }

  function StampsInOrder(log: seq<Entry>): (keys: seq<u64>)
    ensures |keys| == |log|
  {
    seq(|log|, k requires 0 <= k < |log| => log[k].timestampMs)
  }

  lemma {:induction false} LastOfRunsBasics(log: seq<Entry>)
    requires NonDecreasing(log)
    ensures var r := LastOfRuns(log);
            && (log != [] ==> r != [] && r[0].timestampMs == log[0].timestampMs)
            && (forall i, j :: 0 <= i < j < |r| ==> r[i].timestampMs < r[j].timestampMs)
            && Stamps(r) == Stamps(log)
  {
    if log != [] {
      var rest := log[1..];
      LastOfRunsBasics(rest);
      var r := LastOfRuns(rest);
      assert log == [log[0]] + rest;
      assert Stamps(log) == {log[0].timestampMs} + Stamps(rest) by {
        assert forall x :: x in log <==> x == log[0] || x in rest;
      }
      if |log| > 1 && log[0].timestampMs == log[1].timestampMs {
        assert log[1] in rest;
        assert log[1].timestampMs in Stamps(rest);
      } else {
        var whole := [log[0]] + r;
        assert Stamps(whole) == {log[0].timestampMs} + Stamps(r) by {
          assert forall x :: x in whole <==> x == log[0] || x in r;
        }
        forall k | 0 <= k < |r| ensures log[0].timestampMs < r[k].timestampMs {
          assert rest[0] == log[1];
        }
      }
    }
  }

  lemma {:induction false} LastAtFront(e: Entry, log: seq<Entry>, t: u64)
    ensures LastAt([e] + log, t) ==
              if LastAt(log, t).Some? then LastAt(log, t) else if e.timestampMs == t then Some(e.payload) else None
  {
    var more := [e] + log;
    if log == [] {
      assert more[..0] == [];
    } else {
      assert more[..|more| - 1] == [e] + log[..|log| - 1];
      LastAtFront(e, log[..|log| - 1], t);
    }
  }

  lemma LaterStamps(log: seq<Entry>)
    requires NonDecreasing(log) && log != []
    ensures log[0].timestampMs in Stamps(log[1..]) <==> |log| > 1 && log[0].timestampMs == log[1].timestampMs
  {
    var rest := log[1..];
    if log[0].timestampMs in Stamps(rest) {
      var f :| f in rest && f.timestampMs == log[0].timestampMs;
      var i :| 0 <= i < |rest| && rest[i] == f;
      assert rest[i] == log[i + 1] && rest[0] == log[1];
    }
    if |log| > 1 {
      assert log[1] in rest;
    }
  }

  lemma {:induction false} LastOfRunsAreLast(log: seq<Entry>, k: nat)
    requires NonDecreasing(log) && k < |LastOfRuns(log)|
    ensures LastAt(log, LastOfRuns(log)[k].timestampMs) == Some(LastOfRuns(log)[k].payload)
  {
    var rest := log[1..];
    var e := LastOfRuns(log)[k];
    assert log == [log[0]] + rest;
    LastAtFront(log[0], rest, e.timestampMs);
    LastAtFound(rest, e.timestampMs);
    LaterStamps(log);
    if log[0].timestampMs in Stamps(rest) {
      LastOfRunsAreLast(rest, k);
    } else if k > 0 {
      LastOfRunsAreLast(rest, k - 1);
    }
  }

  lemma EmptyTogether(a: seq<u64>, b: seq<u64>)
    requires forall x :: x in a <==> x in b
    ensures a == [] <==> b == []
  {
    if a != [] {
      assert a[0] in b;
    }
    if b != [] {
      assert b[0] in a;
    }
  }

  lemma AscendingEnd(a: seq<u64>, b: seq<u64>)
    requires Ascending(a) && Ascending(b) && a != []
    requires forall x :: x in a <==> x in b
    ensures b != [] && a[|a| - 1] == b[|b| - 1]
  {
    assert a[|a| - 1] in b;
    assert b[|b| - 1] in a;
  }

  lemma AscendingFront(a: seq<u64>, x: u64)
    requires Ascending(a) && a != []
    ensures x in a[..|a| - 1] <==> x in a && x != a[|a| - 1]
  {
    if x in a && x != a[|a| - 1] {
      var i :| 0 <= i < |a| && a[i] == x;
      assert a[..|a| - 1][i] == x;
    }
  }

  lemma {:induction false} AscendingUnique(a: seq<u64>, b: seq<u64>)
    requires Ascending(a) && Ascending(b)
    requires forall x :: x in a <==> x in b
    ensures a == b
    decreases |a|
  {
    EmptyTogether(a, b);
    if a != [] {
      var m, n := |a| - 1, |b| - 1;
      AscendingEnd(a, b);
      forall x ensures x in a[..m] <==> x in b[..n] {
        AscendingFront(a, x);
        AscendingFront(b, x);
      }
      AscendingUnique(a[..m], b[..n]);
      assert a == a[..m] + [a[m]] && b == b[..n] + [b[n]];
    }
  }

  /**
   * A stream whose timestamps do not go back, recorded into an empty store without collisions: the keys of TIMELINE in
   * ascending order, each looked up through FRAMES, are the stream itself, the last of each run of equal timestamps.
   */
  lemma {:induction false} PlaybackIsTheStream(hash: Payload -> Hash, log: seq<Entry>, keys: seq<u64>)
    requires NonDecreasing(log) && CollisionFree(hash, log)
    requires Ascending(keys) && (forall t :: t in keys <==> t in Replay(hash, log).timeline)
    ensures |keys| == |LastOfRuns(log)|
    ensures forall k :: 0 <= k < |keys| ==>
              && keys[k] == LastOfRuns(log)[k].timestampMs
              && Lookup(Replay(hash, log), keys[k]) == Some(LastOfRuns(log)[k].payload)
  {
    var r := LastOfRuns(log);
    var stamps := StampsInOrder(r);
    LastOfRunsBasics(log);
    forall t ensures t in keys <==> t in stamps {
      TablesMeanTheLog(hash, log, [], t);
      LastAtFound(log, t);
      if t in Stamps(r) {
        var e :| e in r && e.timestampMs == t;
        var k :| 0 <= k < |r| && r[k] == e;
        assert stamps[k] == t;
      }
      if t in stamps {
        var k :| 0 <= k < |stamps| && stamps[k] == t;
        assert r[k] in r;
      }
    }
    AscendingUnique(keys, stamps);
    forall k | 0 <= k < |keys| ensures Lookup(Replay(hash, log), keys[k]) == Some(r[k].payload) {
      LastOfRunsAreLast(log, k);
      LookupIsLastWrite(hash, log, keys[k]);
    }
  }
}
