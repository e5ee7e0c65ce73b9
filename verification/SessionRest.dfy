/** Every connection can come to rest, must when nobody asks for more, and has then done what it was asked. */
module SessionRest {
  import opened Session
  import opened SessionHealth
  import opened SessionProgress
  import opened SessionQuiescence

  /** Steps of the library's own that can follow a run. */
  ghost predicate CanFollow(setup: Setup, run: seq<Label>, more: seq<Label>) {
    Internal(more) && Runs(setup, Initial, run + more)
  }

  lemma {:induction false} RunsConcat(setup: Setup, s: State, a: seq<Label>, b: seq<Label>)
    requires Runs(setup, s, a)
    ensures Runs(setup, s, a + b) <==> Runs(setup, After(setup, s, a), b)
    ensures After(setup, s, a + b) == After(setup, After(setup, s, a), b)
  {
    if b == [] {
      assert a + b == a;
    } else {
      var front := b[..|b| - 1];
      assert (a + b)[..|a + b| - 1] == a + front && (a + b)[|a + b| - 1] == b[|b| - 1];
      RunsConcat(setup, s, a, front);
    }
  }

  lemma {:induction false} OneStep(setup: Setup, s: State, l: Label)
    requires Enabled(s, l)
    ensures Runs(setup, s, [l]) && After(setup, s, [l]) == Next(setup, s, l)
  {
    assert [l][..0] == [];
    assert Runs(setup, s, []) && After(setup, s, []) == s;
  }

  lemma InternalStepWeight(setup: Setup, s: State, l: Label)
    requires Enabled(s, l) && IsInternal(l)
    ensures Weight(Next(setup, s, l)) < Weight(s)
  {
    match l
    case AtClient(i) => ClientStepWeight(s, i);
    case AtHub(i) => HubStepWeight(setup, s, i);
    case OnStream(i) => StreamStepWeight(setup, s, i);
  }

  /** Whatever the state, taking steps for as long as there are any leads to rest. */
  lemma {:induction false} Settle(setup: Setup, s: State) returns (more: seq<Label>)
    ensures Internal(more) && Runs(setup, s, more) && AtRest(After(setup, s, more))
    decreases Weight(s)
  {
    more := [];
    if !AtRest(s) {
      var l :| IsInternal(l) && Enabled(s, l);
      OneStep(setup, s, l);
      InternalStepWeight(setup, s, l);
      var rest := Settle(setup, Next(setup, s, l));
      RunsConcat(setup, s, [l], rest);
      more := [l] + rest;
    }
  }

  lemma FollowedFree(run: seq<Label>, more: seq<Label>)
    requires FaultFree(run) && Internal(more)
    ensures FaultFree(run + more)
  {
    forall k | 0 <= k < |run + more| ensures !(run + more)[k].Wrong? {
      assert k >= |run| ==> (run + more)[k] == more[k - |run|] && IsInternal(more[k - |run|]);
    }
  }

  /**
   * Every run without faults can be continued, by the library's own steps alone, until it rests; no such continuation
   * is longer than the weight of the state it starts from; and one that can go no further has everything done: every
   * `create_stream` call has returned, and every frame written is stored and reported unless its stream was refused.
   */
  lemma {:induction false} EveryRunSettles(setup: Setup, run: seq<Label>)
    requires Runs(setup, Initial, run) && FaultFree(run)
    ensures exists more :: CanFollow(setup, run, more) && AtRest(After(setup, Initial, run + more))
    ensures forall more :: CanFollow(setup, run, more) ==> |more| <= Weight(After(setup, Initial, run))
    ensures forall more :: CanFollow(setup, run, more) && AtRest(After(setup, Initial, run + more)) ==>
              AllDone(After(setup, Initial, run + more))
  {
    var s := After(setup, Initial, run);
    var rest := Settle(setup, s);
    RunsConcat(setup, Initial, run, rest);
    assert CanFollow(setup, run, rest);
    forall more | CanFollow(setup, run, more)
      ensures |more| <= Weight(s)
      ensures AtRest(After(setup, Initial, run + more)) ==> AllDone(After(setup, Initial, run + more))
    {
      RunsConcat(setup, Initial, run, more);
      InternalRunsEnd(setup, s, more);
      FollowedFree(run, more);
      if AtRest(After(setup, Initial, run + more)) {
        RestMeansDone(setup, run + more);
      }
    }
  }
}
