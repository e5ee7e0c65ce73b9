/** One recording file per topic name: who writes it, who is refused, and what is recorded in the end. */
module SessionFiles {
  import opened Messages
  import opened Sequences
  import opened Session
  import opened SessionStreams
  import opened SessionHealth
  import opened SessionReports
  import SessionProgress
  import SanitizedName

  /** The topic of the call that opened a stream. */
  function TopicOf(s: State, u: nat): string {
    if u < |s.unis| && s.unis[u].owner < |s.client.calls| then s.client.calls[s.unis[u].owner].topic else ""
  }

  /** A stream carries its own topic, and its task holds the file of that topic. */
  predicate Filed(setup: Setup, s: State, u: nat)
    requires u < |s.unis|
  {
    && (forall k :: 0 <= k < |s.unis[u].items| && s.unis[u].items[k].Config? ==>
        s.unis[u].items[k].topic == TopicOf(s, u))
    && (Live(s.unis[u].task) ==> s.unis[u].task.file == FileOf(setup, TopicOf(s, u)))
  }

  ghost predicate OneWriter(unis: seq<Uni>) {
    forall u, v :: 0 <= u < v < |unis| && Live(unis[u].task) && Live(unis[v].task) ==>
        unis[u].task.file != unis[v].task.file
  }

  ghost predicate AllFiled(setup: Setup, s: State) {
    OneWriter(s.unis) && forall u :: 0 <= u < |s.unis| ==> Filed(setup, s, u)
  }

  /** What a step leaves of the files: the streams keep their topics, and no task gets a file it did not have. */
  predicate KeepsFiles(s: State, t: State) {
    && |t.unis| == |s.unis|
    && (forall u :: 0 <= u < |s.unis| ==> TopicOf(t, u) == TopicOf(s, u))
    && forall u :: 0 <= u < |s.unis| ==>
         && (Live(t.unis[u].task) ==> Live(s.unis[u].task) && t.unis[u].task.file == s.unis[u].task.file)
         && (forall k :: 0 <= k < |t.unis[u].items| && t.unis[u].items[k].Config? ==>
               t.unis[u].items[k] in s.unis[u].items || t.unis[u].items[k].topic == TopicOf(s, u))
  }

  lemma KeepsFiled(setup: Setup, s: State, t: State)
    requires AllFiled(setup, s) && KeepsFiles(s, t)
    ensures AllFiled(setup, t)
  {
    forall u | 0 <= u < |t.unis| ensures Filed(setup, t, u) {
      assert Filed(setup, s, u);
    }
  }

  lemma InputFiles(setup: Setup, s: State, l: Input)
    requires InputEnabled(s, l) && Attributed(s)
    ensures KeepsFiles(s, NextInput(setup, s, l))
  {
    forall u | 0 <= u < |s.unis| ensures s.unis[u].owner < |s.client.calls| {
      assert Owned(s.unis[u], s.client.calls);
    }
  }

  lemma ClientFiles(s: State, l: ClientStep)
    requires ClientEnabled(s, l)
    ensures KeepsFiles(s, NextClient(s, l))
  {
    ClientTopics(s, l);
  }

  lemma ClientTopics(s: State, l: ClientStep)
    requires ClientEnabled(s, l)
    ensures var before, after := s.client.calls, NextClient(s, l).client.calls;
            |after| == |before| && forall i :: 0 <= i < |before| ==> after[i].topic == before[i].topic
    ensures NextClient(s, l).unis == s.unis
  {
  }

  lemma FaultFiles(s: State, l: Fault)
    requires FaultEnabled(s, l)
    ensures KeepsFiles(s, NextFault(s, l))
  {
  }

  lemma QuietFiles(setup: Setup, s: State, l: StreamStep)
    requires StreamEnabled(s, l) && !l.OpenUni? && !l.TakeConfig? && Attributed(s)
    ensures KeepsFiles(s, NextStream(setup, s, l))
  {
    if l.SendConfig? {
      ConfigFiles(setup, s, l.call);
    }
  }

  lemma ConfigFiles(setup: Setup, s: State, i: nat)
    requires StreamEnabled(s, SendConfig(i)) && Attributed(s)
    ensures KeepsFiles(s, NextStream(setup, s, SendConfig(i)))
  {
  }

  lemma OpenFiled(setup: Setup, s: State, i: nat)
    requires StreamEnabled(s, OpenUni(i)) && AllFiled(setup, s)
    ensures AllFiled(setup, NextStream(setup, s, OpenUni(i)))
  {
    var t := NextStream(setup, s, OpenUni(i));
    forall u | 0 <= u < |t.unis| ensures Filed(setup, t, u) {
      if u < |s.unis| {
        assert Filed(setup, s, u);
      }
    }
  }

  lemma TakeFiled(setup: Setup, s: State, w: nat)
    requires StreamEnabled(s, TakeConfig(w)) && AllFiled(setup, s)
    ensures AllFiled(setup, NextStream(setup, s, TakeConfig(w)))
  {
    var t := NextStream(setup, s, TakeConfig(w));
    assert Filed(setup, s, w);
    forall u | 0 <= u < |t.unis| ensures Filed(setup, t, u) {
      assert Filed(setup, s, u);
    }
  }

  lemma FiledStep(setup: Setup, s: State, l: Label)
    requires Enabled(s, l) && Attributed(s) && AllFiled(setup, s)
    ensures AllFiled(setup, Next(setup, s, l))
  {
    var t := Next(setup, s, l);
    match l {
      case App(i) => InputFiles(setup, s, i);
      case AtClient(i) => ClientFiles(s, i);
      case AtHub(i) => assert NextHub(setup, s, i).client == s.client && NextHub(setup, s, i).unis == s.unis;
      case OnStream(i) =>
        if i.OpenUni? {
          OpenFiled(setup, s, i.call);
        } else if i.TakeConfig? {
          TakeFiled(setup, s, i.stream);
        } else {
          QuietFiles(setup, s, i);
        }
      case Wrong(i) => FaultFiles(s, i);
    }
    if !(l.OnStream? && (l.stream.OpenUni? || l.stream.TakeConfig?)) {
      KeepsFiled(setup, s, t);
    }
  }

  /** In every run, faults included, no two stream tasks hold one file, and each holds that of its own topic. */
  lemma {:induction false} FiledRun(setup: Setup, run: seq<Label>)
    requires Runs(setup, Initial, run)
    ensures AllFiled(setup, After(setup, Initial, run))
  {
    if run != [] {
      var front := run[..|run| - 1];
      FiledRun(setup, front);
      AttributedRun(setup, front);
      FiledStep(setup, After(setup, Initial, front), run[|run| - 1]);
    }
  }

  // ---- who is refused ----

  /** Two streams' topics have the same words: the same alphanumeric runs, lowercased, in the same order. */
  predicate SameWords(setup: Setup, s: State, u: nat, v: nat) {
    && u < |s.unis| && v < |s.unis|
    && SanitizedName.TopicWords(setup.alnum, TopicOf(s, u)) == SanitizedName.TopicWords(setup.alnum, TopicOf(s, v))
  }

  /** Another task is at work on a topic of the same words. */
  predicate FileTaken(setup: Setup, s: State, u: nat) {
    exists v: nat :: v < |s.unis| && v != u && Live(s.unis[v].task) && SameWords(setup, s, u, v)
  }

  /** A file name is the words of its topic, spelled in one way. */
  ghost predicate NamesTopic(setup: Setup, file: string, topic: string) {
    && |file| >= 5 && file[|file| - 5..] == ".redb"
    && SanitizedName.IsClean(setup.alnum, file[..|file| - 5])
    && SanitizedName.Words(file[..|file| - 5]) == SanitizedName.TopicWords(setup.alnum, topic)
  }

  lemma FileNamesTopic(setup: Setup, topic: string)
    requires SanitizedName.IsAlphanumeric(setup.alnum)
    ensures NamesTopic(setup, FileOf(setup, topic), topic)
  {
    var name, words := SanitizedName.Name(setup.alnum, topic), SanitizedName.TopicWords(setup.alnum, topic);
    SanitizedName.NamesAreTheCleanTopics(setup.alnum, topic);
    SanitizedName.TopicWordsAreWords(setup.alnum, topic);
    SanitizedName.SplitJoin(setup.alnum, words);
    assert FileOf(setup, topic)[..|name|] == name && FileOf(setup, topic)[|name|..] == ".redb";
  }

  /** Two topics lead to one file exactly when they have the same words. */
  lemma OneFileOneName(setup: Setup, a: string, b: string)
    requires SanitizedName.IsAlphanumeric(setup.alnum)
    ensures FileOf(setup, a) == FileOf(setup, b) <==>
              SanitizedName.TopicWords(setup.alnum, a) == SanitizedName.TopicWords(setup.alnum, b)
  {
    FileNamesTopic(setup, a);
    FileNamesTopic(setup, b);
    SanitizedName.SameNameSameWords(setup.alnum, a, b);
  }

  lemma TakenIsInUse(setup: Setup, s: State, u: nat)
    requires SanitizedName.IsAlphanumeric(setup.alnum) && AllFiled(setup, s) && u < |s.unis| && !Live(s.unis[u].task)
    ensures FileTaken(setup, s, u) <==> InUse(s.unis, FileOf(setup, TopicOf(s, u)))
  {
    var file := FileOf(setup, TopicOf(s, u));
    if InUse(s.unis, file) {
      var v: nat :| v < |s.unis| && Live(s.unis[v].task) && s.unis[v].task.file == file;
      assert Filed(setup, s, v);
      OneFileOneName(setup, TopicOf(s, u), TopicOf(s, v));
      assert SameWords(setup, s, u, v);
    }
    if FileTaken(setup, s, u) {
      var v: nat :| v < |s.unis| && v != u && Live(s.unis[v].task) && SameWords(setup, s, u, v);
      assert Filed(setup, s, v);
      OneFileOneName(setup, TopicOf(s, u), TopicOf(s, v));
    }
  }

  /**
   * In every run, faults included, a task that takes its configuration is refused if and only if another task is at
   * work on a topic of the same words at that moment; otherwise it holds a file that says the words of its own topic.
   */
  lemma {:induction false} RefusedIffTaken(setup: Setup, run: seq<Label>, u: nat)
    requires SanitizedName.IsAlphanumeric(setup.alnum)
    requires Runs(setup, Initial, run) && Enabled(After(setup, Initial, run), OnStream(TakeConfig(u)))
    ensures var s := After(setup, Initial, run);
            var uni := NextStream(setup, s, TakeConfig(u)).unis[u];
            if FileTaken(setup, s, u) then uni == Refused(s.unis[u])
            else Live(uni.task) && NamesTopic(setup, uni.task.file, TopicOf(s, u))
  {
    var s := After(setup, Initial, run);
    FiledRun(setup, run);
    StreamsSafeRun(setup, run);
    assert UniSafe(s.unis[u]) && Filed(setup, s, u);
    TakenIsInUse(setup, s, u);
    FileNamesTopic(setup, TopicOf(s, u));
  }

  /**
   * In every run, faults included, the file a task holds says the words of its stream's topic, and no two tasks at work
   * have topics of the same words.
   */
  lemma {:induction false} OneTaskPerName(setup: Setup, run: seq<Label>)
    requires SanitizedName.IsAlphanumeric(setup.alnum) && Runs(setup, Initial, run)
    ensures var s := After(setup, Initial, run);
            && (forall u :: 0 <= u < |s.unis| && Live(s.unis[u].task) ==>
                NamesTopic(setup, s.unis[u].task.file, TopicOf(s, u)))
            && (forall u: nat, v: nat :: SameWords(setup, s, u, v) && Live(s.unis[u].task) && Live(s.unis[v].task) ==>
                u == v)
  {
    var s := After(setup, Initial, run);
    FiledRun(setup, run);
    forall u | 0 <= u < |s.unis| && Live(s.unis[u].task) ensures NamesTopic(setup, s.unis[u].task.file, TopicOf(s, u)) {
      assert Filed(setup, s, u);
      FileNamesTopic(setup, TopicOf(s, u));
    }
    forall u: nat, v: nat | SameWords(setup, s, u, v) && Live(s.unis[u].task) && Live(s.unis[v].task) ensures u == v {
      assert Filed(setup, s, u) && Filed(setup, s, v);
      OneFileOneName(setup, TopicOf(s, u), TopicOf(s, v));
    }
  }

  // ---- without faults ----

  /** The task of a stream got its file: it is at work, or it has come to the end of a finished stream. */
  predicate Started(u: Uni) {
    Live(u.task) || (u.task.Ended? && u.closed)
  }

  predicate IsRefused(u: Uni) {
    u.task.Ended? && !u.closed
  }

  /** A refused stream has recorded nothing, and another stream had got the file of its topic. */
  ghost predicate Turned(setup: Setup, s: State, u: nat)
    requires u < |s.unis|
  {
    IsRefused(s.unis[u]) ==> s.unis[u].emitted == [] && Rival(setup, s, u)
  }

  ghost predicate Rival(setup: Setup, s: State, u: nat) {
    exists v: nat :: SameWords(setup, s, u, v) && v != u && Started(s.unis[v])
  }

  /** Its owner has it. */
  predicate Kept(s: State, u: nat)
    requires u < |s.unis|
  {
    CallAt(s.client, s.unis[u].owner, Configuring(u)) || CallAt(s.client, s.unis[u].owner, Streaming(u))
  }

  ghost predicate AllKept(setup: Setup, s: State) {
    forall u :: 0 <= u < |s.unis| ==> Turned(setup, s, u) && Kept(s, u)
  }

  /** Streams keep their topics; what has started is not undone, and what was refused stays refused. */
  predicate Goes(s: State, t: State, u: nat)
    requires u < |s.unis| && |s.unis| <= |t.unis|
  {
    && TopicOf(t, u) == TopicOf(s, u)
    && (Started(s.unis[u]) ==> Started(t.unis[u]))
    && (IsRefused(s.unis[u]) ==> IsRefused(t.unis[u]) && t.unis[u].emitted == s.unis[u].emitted)
    && (Kept(s, u) ==> Kept(t, u))
  }

  ghost predicate AllGo(s: State, t: State) {
    |s.unis| <= |t.unis| && forall u :: 0 <= u < |s.unis| ==> Goes(s, t, u)
  }

  lemma RivalStays(setup: Setup, s: State, t: State, u: nat)
    requires AllGo(s, t) && u < |s.unis| && Rival(setup, s, u)
    ensures Rival(setup, t, u)
  {
    var v: nat :| SameWords(setup, s, u, v) && v != u && Started(s.unis[v]);
    assert Goes(s, t, u) && Goes(s, t, v);
    assert SameWords(setup, t, u, v);
  }

  lemma CommitLive(s: State, w: nat)
    requires StreamEnabled(s, CommitFrame(w)) && StreamsSafe(s) && Intact(s.unis[w])
    ensures Live(Committed(s.unis[w]).task) && Committed(s.unis[w]).task.file == s.unis[w].task.file
  {
    var u := s.unis[w];
    assert UniSafe(u);
    assert (AsData(u.committed) + u.items)[|u.committed|] == AsData(u.written)[|u.committed|];
  }

  lemma StreamGoes(setup: Setup, s: State, l: StreamStep, u: nat)
    requires StreamEnabled(s, l) && u < |s.unis| && StreamsSafe(s) && Healthy(s) && AllOwned(s.unis, s.client.calls)
    ensures Goes(s, NextStream(setup, s, l), u)
  {
    assert Owned(s.unis[u], s.client.calls) && UniSafe(s.unis[u]);
    assert Intact(s.unis[u]) || s.unis[u].task.Ended?;
    if l.CommitFrame? {
      CommitLive(s, l.stream);
    }
    StreamKept(setup, s, l, u);
  }

  /** A stream step leaves every stream with its owner. */
  lemma StreamKept(setup: Setup, s: State, l: StreamStep, u: nat)
    requires StreamEnabled(s, l) && u < |s.unis| && Owned(s.unis[u], s.client.calls)
        && CallsSafe(s.client.calls, s.unis)
    ensures Kept(s, u) ==> Kept(NextStream(setup, s, l), u)
    ensures TopicOf(NextStream(setup, s, l), u) == TopicOf(s, u)
  {
  }

  lemma InputGoes(setup: Setup, s: State, l: Input, u: nat)
    requires InputEnabled(s, l) && u < |s.unis| && AllOwned(s.unis, s.client.calls) && UnisSafe(s.unis)
    ensures Goes(s, NextInput(setup, s, l), u)
  {
    assert Owned(s.unis[u], s.client.calls) && UniSafe(s.unis[u]);
  }

  lemma ClientGoes(s: State, l: ClientStep, u: nat)
    requires ClientEnabled(s, l) && u < |s.unis|
    ensures Goes(s, NextClient(s, l), u)
  {
    ClientTopics(s, l);
  }

  lemma GoStep(setup: Setup, s: State, l: Label)
    requires Enabled(s, l) && !l.Wrong? && StreamsSafe(s) && Healthy(s) && Attributed(s)
    ensures AllGo(s, Next(setup, s, l))
  {
    var t := Next(setup, s, l);
    forall u | 0 <= u < |s.unis| ensures |s.unis| <= |t.unis| && Goes(s, t, u) {
      match l {
        case App(i) => InputGoes(setup, s, i, u);
        case AtClient(i) => ClientGoes(s, i, u);
        case AtHub(i) => assert t.client == s.client && t.unis == s.unis;
        case OnStream(i) => StreamGoes(setup, s, i, u);
      }
    }
  }

  /** Without faults a task is refused only when it takes its configuration and finds its file taken. */
  lemma RefusedStep(setup: Setup, s: State, l: Label, u: nat)
    requires Enabled(s, l) && !l.Wrong? && StreamsSafe(s) && Healthy(s) && AllFiled(setup, s)
    requires SanitizedName.IsAlphanumeric(setup.alnum)
    requires u < |s.unis| && !IsRefused(s.unis[u]) && IsRefused(Next(setup, s, l).unis[u])
    ensures l == OnStream(TakeConfig(u)) && FileTaken(setup, s, u) && Next(setup, s, l).unis[u].emitted == []
  {
    HubLeavesStreams(setup, s, l);
    match l {
      case App(_) =>
      case AtClient(_) =>
      case AtHub(_) =>
      case OnStream(i) =>
        if i.CommitFrame? {
          CommitLive(s, i.stream);
        }
        assert UniSafe(s.unis[u]) && Filed(setup, s, u);
        assert i == TakeConfig(u);
        TakenIsInUse(setup, s, u);
    }
  }

  lemma KeptStep(setup: Setup, s: State, l: Label)
    requires Enabled(s, l) && !l.Wrong? && StreamsSafe(s) && Healthy(s) && Attributed(s) && AllFiled(setup, s)
        && AllKept(setup, s)
    requires SanitizedName.IsAlphanumeric(setup.alnum)
    ensures AllKept(setup, Next(setup, s, l))
  {
    var t := Next(setup, s, l);
    GoStep(setup, s, l);
    forall u | 0 <= u < |t.unis| ensures Turned(setup, t, u) && Kept(t, u) {
      if u < |s.unis| {
        assert Goes(s, t, u) && Kept(s, u) && Turned(setup, s, u);
        if IsRefused(t.unis[u]) {
          if !IsRefused(s.unis[u]) {
            RefusedStep(setup, s, l, u);
            TakenHasRival(setup, s, u);
          }
          RivalStays(setup, s, t, u);
        }
      } else {
        OnlyOpens(setup, s, l);
      }
    }
  }

  lemma TakenHasRival(setup: Setup, s: State, u: nat)
    requires FileTaken(setup, s, u)
    ensures Rival(setup, s, u)
  {
    var v: nat :| v < |s.unis| && v != u && Live(s.unis[v].task) && SameWords(setup, s, u, v);
    assert Started(s.unis[v]);
  }

  lemma OnlyOpens(setup: Setup, s: State, l: Label)
    requires Enabled(s, l) && |Next(setup, s, l).unis| > |s.unis|
    ensures l.OnStream? && l.stream.OpenUni? && |Next(setup, s, l).unis| == |s.unis| + 1
    ensures !Next(setup, s, l).unis[|s.unis|].task.Ended? && Kept(Next(setup, s, l), |s.unis|)
  {
    HubLeavesStreams(setup, s, l);
    match l
    case App(_) =>
    case AtClient(_) =>
    case AtHub(_) =>
    case OnStream(_) =>
    case Wrong(_) =>
  }

  lemma HubLeavesStreams(setup: Setup, s: State, l: Label)
    requires Enabled(s, l)
    ensures l.AtHub? ==> Next(setup, s, l).unis == s.unis
  {
  }

  /** What holds of every reachable state of a run without faults. */
  ghost predicate Orderly(setup: Setup, s: State) {
    Healthy(s) && StreamsSafe(s) && Attributed(s) && AllFiled(setup, s)
  }

  lemma OrderlyRun(setup: Setup, run: seq<Label>)
    requires Runs(setup, Initial, run) && FaultFree(run)
    ensures Orderly(setup, After(setup, Initial, run))
  {
    AttributedRun(setup, run);
    FiledRun(setup, run);
    HealthyRun(setup, run);
    StreamsSafeRun(setup, run);
  }

  lemma {:induction false} KeptRun(setup: Setup, run: seq<Label>)
    requires Runs(setup, Initial, run) && FaultFree(run)
    requires SanitizedName.IsAlphanumeric(setup.alnum)
    ensures AllKept(setup, After(setup, Initial, run))
  {
    if run != [] {
      var front := run[..|run| - 1];
      KeptRun(setup, front);
      OrderlyRun(setup, front);
      KeptStep(setup, After(setup, Initial, front), run[|run| - 1]);
    }
  }

  // ---- at rest ----

  /**
   * A stream is recorded whole: its task got its file, and everything the client wrote has been stored and reported.
   */
  predicate IsRecorded(u: Uni) {
    Started(u) && u.emitted == u.committed == u.written
  }

  ghost predicate DifferentWords(setup: Setup, s: State) {
    forall u, v :: 0 <= u < v < |s.unis| ==>
      SanitizedName.TopicWords(setup.alnum, TopicOf(s, u)) != SanitizedName.TopicWords(setup.alnum, TopicOf(s, v))
  }

  /** At rest no task waits for its configuration any more. */
  lemma NobodyWaits(s: State, u: nat)
    requires Healthy(s) && StreamsSafe(s) && SessionProgress.NoLostWakeup(s) && SessionProgress.AtRest(s)
    requires u < |s.unis| && Kept(s, u)
    ensures Started(s.unis[u]) || IsRefused(s.unis[u])
  {
    var i := s.unis[u].owner;
    SessionProgress.CallAtRest(s, i);
    SessionProgress.QueuesAtRest(s, "");
    assert CallSafe(s.unis, i, s.client.calls[i].pc);
    assert !Enabled(s, OnStream(TakeConfig(u)));
  }

  lemma RecordedOrRefused(setup: Setup, s: State, u: nat)
    requires Orderly(setup, s) && SessionProgress.NoLostWakeup(s) && SessionProgress.AtRest(s)
    requires AllKept(setup, s) && u < |s.unis|
    ensures if IsRefused(s.unis[u]) then s.unis[u].emitted == [] else IsRecorded(s.unis[u])
    ensures IsRefused(s.unis[u]) ==> exists v: nat :: SameWords(setup, s, u, v) && v != u && IsRecorded(s.unis[v])
  {
    assert Kept(s, u) && Turned(setup, s, u);
    NobodyWaits(s, u);
    SessionProgress.UniAtRest(s, u);
    if IsRefused(s.unis[u]) {
      var v: nat :| SameWords(setup, s, u, v) && v != u && Started(s.unis[v]);
      SessionProgress.UniAtRest(s, v);
      assert IsRecorded(s.unis[v]);
    }
  }

  ghost predicate RecordedRival(setup: Setup, s: State, u: nat) {
    exists v: nat :: SameWords(setup, s, u, v) && v != u && IsRecorded(s.unis[v])
  }

  /** Recorded whole, or refused without a trace while another stream whose topic has its words is recorded whole. */
  ghost predicate Accounted(setup: Setup, s: State, u: nat)
    requires u < |s.unis|
  {
    IsRecorded(s.unis[u]) || (IsRefused(s.unis[u]) && s.unis[u].emitted == [] && RecordedRival(setup, s, u))
  }

  /** The files of a connection at rest. */
  ghost predicate FilesInOrder(setup: Setup, s: State) {
    && (forall u :: 0 <= u < |s.unis| ==> Accounted(setup, s, u))
    && (forall u: nat, v: nat :: SameWords(setup, s, u, v) && s.unis[u].open && s.unis[v].open ==> u == v)
    && (DifferentWords(setup, s) ==> forall u :: 0 <= u < |s.unis| ==> IsRecorded(s.unis[u]))
  }

  lemma FilesAtRest(setup: Setup, s: State)
    requires Orderly(setup, s) && AllKept(setup, s) && SessionProgress.NoLostWakeup(s) && SessionProgress.AtRest(s)
    requires SanitizedName.IsAlphanumeric(setup.alnum)
    ensures FilesInOrder(setup, s)
  {
    forall u | 0 <= u < |s.unis|
      ensures Accounted(setup, s, u) && (DifferentWords(setup, s) ==> IsRecorded(s.unis[u]))
    {
      RecordedOrRefused(setup, s, u);
      if IsRefused(s.unis[u]) {
        var v: nat :| SameWords(setup, s, u, v) && v != u && IsRecorded(s.unis[v]);
        assert !DifferentWords(setup, s);
      }
    }
    forall u: nat, v: nat | SameWords(setup, s, u, v) && s.unis[u].open && s.unis[v].open ensures u == v {
      OneHolder(setup, s, u, v);
    }
  }

  /**
   * When a run without faults comes to rest, every stream, finished or not, either is recorded whole or was refused,
   * left no trace, and another stream whose topic has its words is recorded whole; of those still open with the same
   * words at most one is; and if the topics of any two streams have different words, all of them are recorded whole.
   */
  lemma {:induction false} RestIsRecorded(setup: Setup, run: seq<Label>)
    requires Runs(setup, Initial, run) && FaultFree(run) && SessionProgress.AtRest(After(setup, Initial, run))
    requires SanitizedName.IsAlphanumeric(setup.alnum)
    ensures FilesInOrder(setup, After(setup, Initial, run))
  {
    KeptRun(setup, run);
    OrderlyRun(setup, run);
    SessionProgress.NoLostWakeupRun(setup, run);
    FilesAtRest(setup, After(setup, Initial, run));
  }

  lemma OneHolder(setup: Setup, s: State, v: nat, w: nat)
    requires Orderly(setup, s) && AllKept(setup, s) && SessionProgress.NoLostWakeup(s) && SessionProgress.AtRest(s)
    requires SameWords(setup, s, v, w) && s.unis[v].open && s.unis[w].open
    requires SanitizedName.IsAlphanumeric(setup.alnum)
    ensures v == w
  {
    OpenIsLive(setup, s, v);
    OpenIsLive(setup, s, w);
    OneFileOneName(setup, TopicOf(s, v), TopicOf(s, w));
    assert s.unis[v].task.file == s.unis[w].task.file;
  }

  lemma OpenIsLive(setup: Setup, s: State, u: nat)
    requires Orderly(setup, s) && AllKept(setup, s) && SessionProgress.NoLostWakeup(s) && SessionProgress.AtRest(s)
    requires u < |s.unis| && s.unis[u].open
    ensures Live(s.unis[u].task) && s.unis[u].task.file == FileOf(setup, TopicOf(s, u))
  {
    assert Kept(s, u) && Filed(setup, s, u) && UniSafe(s.unis[u]);
    NobodyWaits(s, u);
  }

  // ---- the exact condition ----

  /** What became of a stream when it took its configuration is what it stays. */
  lemma {:induction false} FateStays(setup: Setup, run: seq<Label>, k: nat, u: nat)
    requires Runs(setup, Initial, run) && FaultFree(run) && k <= |run|
    requires u < |After(setup, Initial, run[..k]).unis|
    ensures Runs(setup, Initial, run[..k]) && u < |After(setup, Initial, run).unis|
    ensures Started(After(setup, Initial, run[..k]).unis[u]) ==> Started(After(setup, Initial, run).unis[u])
    ensures IsRefused(After(setup, Initial, run[..k]).unis[u]) ==> IsRefused(After(setup, Initial, run).unis[u])
    decreases |run|
  {
    if k == |run| {
      assert run[..k] == run;
    } else {
      var front := run[..|run| - 1];
      assert front[..k] == run[..k];
      FateStays(setup, front, k, u);
      OrderlyRun(setup, front);
      GoStep(setup, After(setup, Initial, front), run[|run| - 1]);
      assert Goes(After(setup, Initial, front), After(setup, Initial, run), u);
    }
  }

  /**
   * The exact condition: at rest without faults a stream is recorded whole if and only if no other task held the file
   * of its topic when its own task took its configuration.
   */
  lemma {:induction false} RecordedIffFileFree(setup: Setup, run: seq<Label>, k: nat, u: nat)
    requires Runs(setup, Initial, run) && FaultFree(run) && SessionProgress.AtRest(After(setup, Initial, run))
    requires k < |run| && run[k] == OnStream(TakeConfig(u))
    requires SanitizedName.IsAlphanumeric(setup.alnum)
    ensures u < |After(setup, Initial, run).unis|
    ensures IsRecorded(After(setup, Initial, run).unis[u]) <==> !FileTaken(setup, After(setup, Initial, run[..k]), u)
  {
    var s := After(setup, Initial, run);
    StepOf(setup, run, k);
    var before := After(setup, Initial, run[..k]);
    RefusedIffTaken(setup, run[..k], u);
    FateStays(setup, run, k + 1, u);
    OrderlyRun(setup, run);
    KeptRun(setup, run);
    SessionProgress.NoLostWakeupRun(setup, run);
    RecordedOrRefused(setup, s, u);
  }

  lemma {:induction false} StepOf(setup: Setup, run: seq<Label>, k: nat)
    requires Runs(setup, Initial, run) && k < |run|
    ensures Runs(setup, Initial, run[..k]) && Enabled(After(setup, Initial, run[..k]), run[k])
    ensures After(setup, Initial, run[..k + 1]) == Next(setup, After(setup, Initial, run[..k]), run[k])
  {
    assert run[..k + 1][..k] == run[..k];
    if k == |run| - 1 {
      assert run[..k + 1] == run;
    } else {
      assert run[..|run| - 1][..k] == run[..k] && run[..|run| - 1][..k + 1] == run[..k + 1];
      StepOf(setup, run[..|run| - 1], k);
    }
  }
}
