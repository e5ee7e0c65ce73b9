/** Who is let in, in every run, and what everybody else is told. */
module SessionAdmission {
  import opened BigEndian
  import opened Messages
  import opened Sequences
  import opened Session
  import opened Admission
  import opened SessionHandshake
  import SessionWitness

  /** The Tie of this client, as its hub sees it. */
  predicate IsOurTie(setup: Setup, env: Envelope) {
    var r := setup.request;
    && env.msgId == "join-req" && env.sourceRopeId == r.ropeId && env.connectionId == "pending" && !env.requiresAck
    && env.payload == Tie(1, r.knotId, r.ropeId, setup.config.remoteNodeId, r.token, r.capabilities)
  }

  /** The policy and the capability validator let this client in. */
  predicate IsWanted(setup: Setup) {
    && PolicyAdmits(setup.config, setup.request.token, setup.request.capabilities)
    && (setup.config.capValidator.Some? ==> setup.config.capValidator.value(setup.request.capabilities))
  }

  ghost predicate OnlyWanted(setup: Setup, s: State) {
    s.hub.allotted.Some? ==> IsWanted(setup)
  }

  lemma WantedStep(setup: Setup, s: State, l: Label)
    requires Enabled(s, l) && Shaken(setup, s) && OnlyWanted(setup, s)
    ensures OnlyWanted(setup, Next(setup, s, l))
  {
    if l.AtHub? && l.hub.HandleTie? {
      HandledIfWanted(setup, s, l.hub.count, l.hub.now);
    } else {
      SameAllotment(setup, s, l);
    }
  }

  lemma SameAllotment(setup: Setup, s: State, l: Label)
    requires Enabled(s, l) && !(l.AtHub? && l.hub.HandleTie?)
    ensures Next(setup, s, l).hub.allotted == s.hub.allotted
  {
    match l
    case App(_) =>
    case AtClient(i) => assert NextClient(s, i).hub == s.hub;
    case AtHub(i) => HubSameAllotment(setup, s, i);
    case OnStream(_) =>
    case Wrong(_) =>
  }

  lemma HubSameAllotment(setup: Setup, s: State, l: HubStep)
    requires HubEnabled(s, l) && !l.HandleTie?
    ensures NextHub(setup, s, l).hub.allotted == s.hub.allotted
  {
  }

  lemma HandledIfWanted(setup: Setup, s: State, count: nat, now: u64)
    requires HubEnabled(s, HandleTie(count, now)) && Shaken(setup, s)
    ensures NextHub(setup, s, HandleTie(count, now)).hub.allotted.Some? ==> IsWanted(setup)
  {
    var d := s.toHub.frames[0];
    if d.Parsed? {
      var at :| d.env == TieEnvelope(setup.request, setup.config.remoteNodeId, at);
      ClientPassesOwnChecks(setup.config, setup.request, at);
    }
  }

  lemma {:induction false} WantedRun(setup: Setup, run: seq<Label>)
    requires Runs(setup, Initial, run)
    ensures OnlyWanted(setup, After(setup, Initial, run))
  {
    if run != [] {
      var front := run[..|run| - 1];
      WantedRun(setup, front);
      ShakenRun(setup, front);
      WantedStep(setup, After(setup, Initial, front), run[|run| - 1]);
    }
  }

  lemma RefusalIsOwed(setup: Setup, d: Delivery)
    requires IsRefusal(setup, d)
    ensures !IsWanted(setup)
    ensures RefusesFor(setup.config, setup.config.remoteNodeId, 1, setup.request.token, setup.request.capabilities,
        d.env)
  {
    var tie := TieEnvelope(setup.request, setup.config.remoteNodeId, 0).payload;
    VerdictIsOwed(setup.config, tie, d.env.timestamp);
    ClientPassesOwnChecks(setup.config, setup.request, 0);
  }

  /**
   * In every run: the first frame a waiting hub finds, unless it was garbled, is the Tie of what the client asked for;
   * the one reply is a Welcome if and only if policy and validator let this client in, and otherwise a Reject that
   * names the first condition that fails.
   */
  lemma {:induction false} RepliesAsOwed(setup: Setup, run: seq<Label>)
    requires Runs(setup, Initial, run)
    ensures var s := After(setup, Initial, run);
            && (s.hub.main.AwaitingTie? && s.toHub.frames != [] && s.toHub.frames[0].Parsed? ==>
                  IsOurTie(setup, s.toHub.frames[0].env))
            && (s.hub.sent != [] ==>
                  if IsWanted(setup) then IsWelcome(setup, s.hub, s.hub.sent[0])
                  else
                    && |s.hub.sent| == 1 && s.hub.sent[0].Parsed? && s.hub.log == []
                    && RefusesFor(setup.config, setup.config.remoteNodeId, 1, setup.request.token,
                                  setup.request.capabilities, s.hub.sent[0].env))
  {
    var s := After(setup, Initial, run);
    ShakenRun(setup, run);
    WantedRun(setup, run);
    if s.hub.main.AwaitingTie? && s.toHub.frames != [] && s.toHub.frames[0].Parsed? {
      var at :| s.toHub.frames[0].env == TieEnvelope(setup.request, setup.config.remoteNodeId, at);
    }
    if s.hub.sent != [] && !IsWelcome(setup, s.hub, s.hub.sent[0]) {
      OneReplyThenQueue(setup, run);
      RefusalIsOwed(setup, s.hub.sent[0]);
    }
  }

  ghost predicate CanTie(setup: Setup) {
    exists run :: Runs(setup, Initial, run) && After(setup, Initial, run).client.phase.Tied?
  }

  lemma {:induction false} TiedIsWanted(setup: Setup, run: seq<Label>)
    requires Runs(setup, Initial, run) && After(setup, Initial, run).client.phase.Tied?
    ensures IsWanted(setup)
  {
    HandshakeAgreement(setup, run);
    WantedRun(setup, run);
  }

  lemma {:induction false} WantedCanTie(setup: Setup)
    requires IsWanted(setup)
    ensures CanTie(setup)
  {
    ClientPassesOwnChecks(setup.config, setup.request, 0);
    var run := SessionWitness.HandshakeSucceeds(setup);
    assert Runs(setup, Initial, run) && After(setup, Initial, run).client.phase.Tied?;
  }

  /** Exactly the clients that policy and capability validator let in can tie the knot. */
  lemma {:induction false} CanTieIffWanted(setup: Setup)
    ensures CanTie(setup) <==>
              && (match setup.config.policy
                  case ApproveAll => true
                  case TokenRequired(secret) => setup.request.token == secret
                  case Custom(validator) =>
                    validator(setup.config.remoteNodeId, setup.request.token, setup.request.capabilities).None?)
              && (setup.config.capValidator.None? || setup.config.capValidator.value(setup.request.capabilities))
  {
    if CanTie(setup) {
      var run :| Runs(setup, Initial, run) && After(setup, Initial, run).client.phase.Tied?;
      TiedIsWanted(setup, run);
    }
    if IsWanted(setup) {
      WantedCanTie(setup);
    }
  }
}
