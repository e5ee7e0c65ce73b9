/** Whose frames the hub reports under a stream id: in every run, those its owner wrote, in the order it wrote them. */
module SessionReports {
  import opened Messages
  import opened Sequences
  import opened Session
  import SessionGating
  import SessionHealth
  import SessionProgress
  import SessionStreams

  /** A stream belongs to an existing call, and bears its stream id wherever it names one. */
  predicate Owned(u: Uni, calls: seq<Call>) {
    && u.owner < |calls|
    && (forall k :: 0 <= k < |u.items| && u.items[k].Config? ==> u.items[k].streamId == calls[u.owner].streamId)
    && (u.task.Reading? || u.task.Emitting? ==> u.task.streamId == calls[u.owner].streamId)
  }

  /** A call has no stream before it opens one, and opens one only. */
  predicate Unopened(pc: CallPc) {
    pc.Sending? || pc.Awaiting? || pc.Opening?
  }

  ghost predicate AllOwned(unis: seq<Uni>, calls: seq<Call>) {
    forall u :: 0 <= u < |unis| ==> Owned(unis[u], calls) && !Unopened(calls[unis[u].owner].pc)
  }

  ghost predicate OneEach(unis: seq<Uni>) {
    forall u, v :: 0 <= u < v < |unis| ==> unis[u].owner != unis[v].owner
  }

  /** A call that writes to a stream owns it. */
  ghost predicate WritesItsOwn(calls: seq<Call>, unis: seq<Uni>) {
    forall i :: 0 <= i < |calls| && calls[i].pc.Configuring? ==>
      calls[i].pc.stream < |unis| && unis[calls[i].pc.stream].owner == i
  }

  ghost predicate Attributed(s: State) {
    AllOwned(s.unis, s.client.calls) && OneEach(s.unis) && WritesItsOwn(s.client.calls, s.unis)
  }

  /** Calls keep their ids and their streams. */
  predicate Continues(before: seq<Call>, after: seq<Call>) {
    && |before| <= |after|
    && forall i :: 0 <= i < |before| ==>
         && after[i].streamId == before[i].streamId
         && (Unopened(after[i].pc) ==> Unopened(before[i].pc))
         && (after[i].pc.Configuring? ==> after[i].pc == before[i].pc)
  }

  lemma ContinuesAttributed(before: seq<Call>, after: seq<Call>, unis: seq<Uni>)
    requires AllOwned(unis, before) && WritesItsOwn(before, unis) && Continues(before, after)
    requires forall i :: |before| <= i < |after| ==> Unopened(after[i].pc)
    ensures AllOwned(unis, after) && WritesItsOwn(after, unis)
  {
    forall u | 0 <= u < |unis| ensures Owned(unis[u], after) && !Unopened(after[unis[u].owner].pc) {
      assert Owned(unis[u], before);
    }
  }

  lemma InputAttributed(setup: Setup, s: State, l: Input)
    requires InputEnabled(s, l) && Attributed(s)
    ensures Attributed(NextInput(setup, s, l))
  {
    var t := NextInput(setup, s, l);
    if l.StartCall? {
      ContinuesAttributed(s.client.calls, t.client.calls, s.unis);
    } else if l.WriteFrame? || l.CloseStream? {
      var u := s.client.calls[l.call].pc.stream;
      assert Owned(s.unis[u], s.client.calls);
    }
  }

  lemma ClientContinues(s: State, l: ClientStep)
    requires ClientEnabled(s, l)
    ensures Continues(s.client.calls, NextClient(s, l).client.calls)
        && |NextClient(s, l).client.calls| == |s.client.calls|
    ensures NextClient(s, l).unis == s.unis
  {
  }

  lemma OpenAttributed(setup: Setup, s: State, i: nat)
    requires StreamEnabled(s, OpenUni(i)) && Attributed(s)
    ensures Attributed(NextStream(setup, s, OpenUni(i)))
  {
    var t := NextStream(setup, s, OpenUni(i));
    forall u | 0 <= u < |t.unis|
        ensures Owned(t.unis[u], t.client.calls) && !Unopened(t.client.calls[t.unis[u].owner].pc) {
      if u < |s.unis| {
        assert Owned(s.unis[u], s.client.calls);
      }
    }
  }

  lemma StreamAttributed(setup: Setup, s: State, l: StreamStep)
    requires StreamEnabled(s, l) && Attributed(s)
    ensures Attributed(NextStream(setup, s, l))
  {
    match l
    case OpenUni(i) => OpenAttributed(setup, s, i);
    case SendConfig(i) => ConfigAttributed(setup, s, i);
    case AcceptUni => TaskAttributed(s, NextStream(setup, s, l), s.hub.backlog[0]);
    case TakeConfig(u) => TaskAttributed(s, NextStream(setup, s, l), u);
    case CommitFrame(u) => TaskAttributed(s, NextStream(setup, s, l), u);
    case EmitFrame(u) => TaskAttributed(s, NextStream(setup, s, l), u);
    case TaskEnds(u) => TaskAttributed(s, NextStream(setup, s, l), u);
  }

  lemma ConfigAttributed(setup: Setup, s: State, i: nat)
    requires StreamEnabled(s, SendConfig(i)) && Attributed(s)
    ensures Attributed(NextStream(setup, s, SendConfig(i)))
  {
    var u, t := s.client.calls[i].pc.stream, NextStream(setup, s, SendConfig(i));
    forall v | 0 <= v < |t.unis|
        ensures Owned(t.unis[v], t.client.calls) && !Unopened(t.client.calls[t.unis[v].owner].pc) {
      assert Owned(s.unis[v], s.client.calls);
    }
  }

  /** A step of the task of one stream: it hands its items on and names no id that is not theirs. */
  lemma TaskAttributed(s: State, t: State, u: nat)
    requires Attributed(s) && u < |s.unis| && t.client == s.client && |t.unis| == |s.unis|
    requires t.unis == s.unis[u := t.unis[u]] && t.unis[u].owner == s.unis[u].owner
    requires forall k :: 0 <= k < |t.unis[u].items| ==> t.unis[u].items[k] in s.unis[u].items
    requires Live(t.unis[u].task) ==>
               || (Live(s.unis[u].task) && t.unis[u].task.streamId == s.unis[u].task.streamId)
               || exists k :: 0 <= k < |s.unis[u].items| && s.unis[u].items[k].Config?
                   && s.unis[u].items[k].streamId == t.unis[u].task.streamId
    ensures Attributed(t)
  {
    assert Owned(s.unis[u], s.client.calls);
  }

  lemma FaultAttributed(s: State, l: Fault)
    requires FaultEnabled(s, l) && Attributed(s)
    ensures Attributed(NextFault(s, l))
  {
  }

  lemma {:induction false} AttributedRun(setup: Setup, run: seq<Label>)
    requires Runs(setup, Initial, run)
    ensures Attributed(After(setup, Initial, run))
  {
    if run != [] {
      var before := After(setup, Initial, run[..|run| - 1]);
      AttributedRun(setup, run[..|run| - 1]);
      match run[|run| - 1] {
        case App(i) => InputAttributed(setup, before, i);
        case AtClient(i) =>
          ClientContinues(before, i);
          ContinuesAttributed(before.client.calls, NextClient(before, i).client.calls, before.unis);
        case AtHub(i) => assert NextHub(setup, before, i).client == before.client
            && NextHub(setup, before, i).unis == before.unis;
        case OnStream(i) => StreamAttributed(setup, before, i);
        case Wrong(i) => FaultAttributed(before, i);
      }
    }
  }

  // ---- the log, stream by stream ----

  /** The frames reported under a stream id, in the order they were reported. */
  function FramesFor(log: seq<HubEvent>, id: string): seq<Recorded> {
    if log == [] then []
    else
      var e := log[|log| - 1];
      FramesFor(log[..|log| - 1], id) + (if e.FrameReceived? && e.streamId == id then [e.frame] else [])
  }

  /** The stream ids of the calls that opened the streams. */
  function Ids(s: State): (ids: seq<string>)
    ensures |ids| == |s.unis|
    ensures forall u :: 0 <= u < |ids| && s.unis[u].owner < |s.client.calls| ==>
        ids[u] == s.client.calls[s.unis[u].owner].streamId
  {
    seq(|s.unis|, u requires 0 <= u < |s.unis| =>
      if s.unis[u].owner < |s.client.calls| then s.client.calls[s.unis[u].owner].streamId else "")
  }

  function Emitted(unis: seq<Uni>): (emitted: seq<seq<Recorded>>)
    ensures |emitted| == |unis| && forall u :: 0 <= u < |unis| ==> emitted[u] == unis[u].emitted
  {
    seq(|unis|, u requires 0 <= u < |unis| => unis[u].emitted)
  }

  predicate OnlyAt(ids: seq<string>, u: nat, id: string) {
    u < |ids| && ids[u] == id && forall v: nat :: v < |ids| && v != u ==> ids[v] != id
  }

  /** Under an id nobody has opened a stream for nothing is reported; under one stream's id, what its task emitted. */
  ghost predicate Faithful(log: seq<HubEvent>, ids: seq<string>, emitted: seq<seq<Recorded>>, id: string) {
    && |ids| == |emitted|
    && (id !in ids ==> FramesFor(log, id) == [])
    && forall u: nat :: OnlyAt(ids, u, id) ==> FramesFor(log, id) == emitted[u]
  }

  lemma FramesForNews(log: seq<HubEvent>, news: seq<HubEvent>, id: string)
    requires |news| <= 1
    ensures FramesFor(log + news, id) ==
              FramesFor(log, id) + (if news != [] && news[0].FrameReceived? && news[0].streamId == id
                  then [news[0].frame] else [])
  {
    if news == [] {
      assert log + news == log;
    } else {
      assert (log + news)[..|log|] == log;
    }
  }

  lemma OpenFaithful(log: seq<HubEvent>, ids: seq<string>, emitted: seq<seq<Recorded>>, id: string, name: string)
    requires Faithful(log, ids, emitted, id)
    ensures Faithful(log, ids + [name], emitted + [[]], id)
  {
    var more := ids + [name];
    forall u: nat | OnlyAt(more, u, id) ensures FramesFor(log, id) == (emitted + [[]])[u] {
      if u == |ids| {
        forall v: nat | v < |ids| ensures ids[v] != id {
          assert more[v] == ids[v];
        }
      } else {
        forall v: nat | v < |ids| && v != u ensures ids[v] != id {
          assert more[v] == ids[v];
        }
        assert OnlyAt(ids, u, id);
      }
    }
    if id !in more {
      assert forall v: nat :: v < |ids| ==> more[v] == ids[v];
    }
  }

  lemma EmitFaithful(log: seq<HubEvent>, ids: seq<string>, emitted: seq<seq<Recorded>>, id: string, e: HubEvent, w: nat)
    requires Faithful(log, ids, emitted, id)
    requires w < |ids| && e.FrameReceived? && e.streamId == ids[w]
    ensures Faithful(log + [e], ids, emitted[w := emitted[w] + [e.frame]], id)
  {
    FramesForNews(log, [e], id);
  }

  /** What every step but the opening of a stream and a report leaves as it is. */
  predicate Keeps(s: State, t: State) {
    && Continues(s.client.calls, t.client.calls)
    && |t.unis| == |s.unis|
    && forall u :: 0 <= u < |s.unis| ==> t.unis[u].owner == s.unis[u].owner && t.unis[u].emitted == s.unis[u].emitted
  }

  lemma KeepsIds(s: State, t: State)
    requires AllOwned(s.unis, s.client.calls) && Keeps(s, t)
    ensures Ids(t) == Ids(s) && Emitted(t.unis) == Emitted(s.unis)
  {
    forall u | 0 <= u < |s.unis| ensures Ids(t)[u] == Ids(s)[u] {
      assert Owned(s.unis[u], s.client.calls);
    }
  }

  lemma InputKeeps(setup: Setup, s: State, l: Input)
    requires InputEnabled(s, l)
    ensures Keeps(s, NextInput(setup, s, l))
  {
  }

  lemma FaultKeeps(s: State, l: Fault)
    requires FaultEnabled(s, l)
    ensures Keeps(s, NextFault(s, l))
  {
  }

  lemma StreamKeeps(setup: Setup, s: State, l: StreamStep)
    requires StreamEnabled(s, l) && !l.OpenUni? && !l.EmitFrame?
    requires WritesItsOwn(s.client.calls, s.unis)
    ensures Keeps(s, NextStream(setup, s, l))
  {
  }

  lemma QuietStep(setup: Setup, s: State, l: Label)
    requires Enabled(s, l) && Attributed(s)
    requires l.OnStream? ==> !l.stream.OpenUni? && !l.stream.EmitFrame?
    ensures Keeps(s, Next(setup, s, l))
  {
    match l
    case App(i) => InputKeeps(setup, s, i);
    case AtClient(i) => ClientContinues(s, i);
    case AtHub(i) => assert NextHub(setup, s, i).client == s.client && NextHub(setup, s, i).unis == s.unis;
    case OnStream(i) => StreamKeeps(setup, s, i);
    case Wrong(i) => FaultKeeps(s, i);
  }

  lemma OpenStep(setup: Setup, s: State, i: nat)
    requires StreamEnabled(s, OpenUni(i)) && AllOwned(s.unis, s.client.calls)
    ensures var t := NextStream(setup, s, OpenUni(i));
            Ids(t) == Ids(s) + [s.client.calls[i].streamId] && Emitted(t.unis) == Emitted(s.unis) + [[]]
  {
    var t := NextStream(setup, s, OpenUni(i));
    forall u | 0 <= u < |s.unis| ensures Ids(t)[u] == Ids(s)[u] {
      assert Owned(s.unis[u], s.client.calls);
    }
  }

  lemma EmitStep(setup: Setup, s: State, w: nat)
    requires StreamEnabled(s, EmitFrame(w)) && AllOwned(s.unis, s.client.calls)
    ensures var t := NextStream(setup, s, EmitFrame(w));
            && Ids(t) == Ids(s) && s.unis[w].task.streamId == Ids(s)[w]
            && Emitted(t.unis) == Emitted(s.unis)[w := Emitted(s.unis)[w] + [s.unis[w].task.frame]]
  {
    assert Owned(s.unis[w], s.client.calls);
  }

  lemma FaithfulStep(setup: Setup, s: State, l: Label, id: string)
    requires Enabled(s, l) && Attributed(s) && Faithful(s.hub.log, Ids(s), Emitted(s.unis), id)
    ensures var t := Next(setup, s, l); Faithful(t.hub.log, Ids(t), Emitted(t.unis), id)
  {
    SessionGating.LogIsNews(setup, s, l);
    if l.OnStream? && l.stream.OpenUni? {
      OpenStep(setup, s, l.stream.call);
      OpenFaithful(s.hub.log, Ids(s), Emitted(s.unis), id, s.client.calls[l.stream.call].streamId);
    } else if l.OnStream? && l.stream.EmitFrame? {
      EmitStep(setup, s, l.stream.stream);
      EmitFaithful(s.hub.log, Ids(s), Emitted(s.unis), id, SessionGating.News(setup, s, l)[0], l.stream.stream);
    } else {
      QuietStep(setup, s, l);
      KeepsIds(s, Next(setup, s, l));
      QuietNews(setup, s, l);
      FramesForNews(s.hub.log, SessionGating.News(setup, s, l), id);
    }
  }

  lemma QuietNews(setup: Setup, s: State, l: Label)
    requires Enabled(s, l) && (l.OnStream? ==> !l.stream.EmitFrame?)
    ensures var news := SessionGating.News(setup, s, l); news == [] || !news[0].FrameReceived?
  {
  }

  lemma {:induction false} FaithfulRun(setup: Setup, run: seq<Label>, id: string)
    requires Runs(setup, Initial, run)
    ensures var s := After(setup, Initial, run); Faithful(s.hub.log, Ids(s), Emitted(s.unis), id)
  {
    if run != [] {
      var front := run[..|run| - 1];
      FaithfulRun(setup, front, id);
      AttributedRun(setup, front);
      FaithfulStep(setup, After(setup, Initial, front), run[|run| - 1], id);
    }
  }

  /** Stream ids are used once: no two calls of the client bear the same. */
  predicate IdsUsedOnce(s: State) {
    forall i, j :: 0 <= i < j < |s.client.calls| ==> s.client.calls[i].streamId != s.client.calls[j].streamId
  }

  /**
   * In every run, faults and injected acceptances included, in which no stream id is used twice: the frames the hub
   * reports under a stream's id are, in order, a prefix of those its client wrote to that stream; under any other id
   * nothing is reported; and at rest without faults every frame written is there, unless the stream was refused.
   */
  lemma {:induction false} ReportsFollowTheWriter(setup: Setup, run: seq<Label>, id: string)
    requires Runs(setup, Initial, run) && IdsUsedOnce(After(setup, Initial, run))
    ensures var s := After(setup, Initial, run);
            && (forall u :: 0 <= u < |s.unis| && Ids(s)[u] == id ==> FramesFor(s.hub.log, id) <= s.unis[u].written)
            && (id !in Ids(s) ==> FramesFor(s.hub.log, id) == [])
            && (SessionHealth.FaultFree(run) && SessionProgress.AtRest(s) ==>
                  forall u :: 0 <= u < |s.unis| && Ids(s)[u] == id && SessionStreams.Intact(s.unis[u]) ==>
                    FramesFor(s.hub.log, id) == s.unis[u].written)
  {
    var s := After(setup, Initial, run);
    FaithfulRun(setup, run, id);
    AttributedRun(setup, run);
    if SessionHealth.FaultFree(run) && SessionProgress.AtRest(s) {
      SessionProgress.RestMeansDone(setup, run);
    }
    forall u | 0 <= u < |s.unis| && Ids(s)[u] == id
      ensures FramesFor(s.hub.log, id) == s.unis[u].emitted <= s.unis[u].written
    {
      SoleOwner(s, u);
      SessionStreams.RecordingIsWriteAhead(setup, run, u);
    }
  }

  lemma SoleOwner(s: State, u: nat)
    requires Attributed(s) && IdsUsedOnce(s) && u < |s.unis|
    ensures OnlyAt(Ids(s), u, Ids(s)[u])
  {
    assert Owned(s.unis[u], s.client.calls);
    forall v: nat | v < |s.unis| && v != u ensures Ids(s)[v] != Ids(s)[u] {
      assert Owned(s.unis[v], s.client.calls);
      assert s.unis[v].owner != s.unis[u].owner;
    }
  }
}
