/** Sums and filters over sequences, shared by the queues, tasks and tables below. */
module Sequences {

  datatype Option<+T> = None | Some(value: T)

  /** The sum of `weight` over `s`, taken from the right so that it follows queues as they grow. */
  ghost function Total<T>(s: seq<T>, weight: T -> nat): nat {
    if s == [] then 0 else Total(s[..|s| - 1], weight) + weight(s[|s| - 1])
  }

  lemma {:induction false} TotalPush<T>(s: seq<T>, x: T, weight: T -> nat)
    ensures Total(s + [x], weight) == Total(s, weight) + weight(x)
  {
    assert (s + [x])[..|s|] == s;
  }

  lemma {:induction false} TotalConcat<T>(a: seq<T>, b: seq<T>, weight: T -> nat)
    ensures Total(a + b, weight) == Total(a, weight) + Total(b, weight)
  {
    if b == [] {
      assert a + b == a;
    } else {
      var front, x := b[..|b| - 1], b[|b| - 1];
      assert a + b == (a + front) + [x];
      TotalConcat(a, front, weight);
      TotalPush(a + front, x, weight);
    }
  }

  lemma {:induction false} TotalPop<T>(s: seq<T>, weight: T -> nat)
    requires s != []
    ensures Total(s, weight) == weight(s[0]) + Total(s[1..], weight)
  {
    assert s == [s[0]] + s[1..];
    TotalConcat([s[0]], s[1..], weight);
    assert [s[0]] == [] + [s[0]];
    TotalPush([], s[0], weight);
  }

  lemma {:induction false} TotalUpdate<T>(s: seq<T>, i: nat, x: T, weight: T -> nat)
    requires i < |s|
    ensures Total(s[i := x], weight) + weight(s[i]) == Total(s, weight) + weight(x)
  {
    var front := s[..|s| - 1];
    if i == |s| - 1 {
      assert s[i := x][..|s| - 1] == front;
    } else {
      assert s[i := x][..|s| - 1] == front[i := x];
      TotalUpdate(front, i, x, weight);
    }
  }

  lemma {:induction false} TotalAtLeast<T>(s: seq<T>, i: nat, weight: T -> nat)
    requires i < |s|
    ensures Total(s, weight) >= weight(s[i])
  {
    if i < |s| - 1 {
      TotalAtLeast(s[..|s| - 1], i, weight);
    }
  }

  lemma {:induction false} TotalWitness<T>(s: seq<T>, weight: T -> nat) returns (i: nat)
    requires Total(s, weight) > 0
    ensures i < |s| && weight(s[i]) > 0
  {
    if weight(s[|s| - 1]) > 0 {
      i := |s| - 1;
    } else {
      i := TotalWitness(s[..|s| - 1], weight);
    }
  }

  lemma {:induction false} TotalZero<T>(s: seq<T>, weight: T -> nat)
    requires forall i :: 0 <= i < |s| ==> weight(s[i]) == 0
    ensures Total(s, weight) == 0
  {
    if s != [] {
      TotalZero(s[..|s| - 1], weight);
    }
  }

  /** The elements of `s` that satisfy `keep`, in order. */
  function Filter<T>(s: seq<T>, keep: T -> bool): (r: seq<T>) {
    if s == [] then []
    else Filter(s[..|s| - 1], keep) + (if keep(s[|s| - 1]) then [s[|s| - 1]] else [])
  }

  lemma {:induction false} FilterPush<T>(s: seq<T>, x: T, keep: T -> bool)
    ensures Filter(s + [x], keep) == Filter(s, keep) + (if keep(x) then [x] else [])
  {
    assert (s + [x])[..|s|] == s;
  }

  lemma {:induction false} FilterMembers<T(!new)>(s: seq<T>, keep: T -> bool)
    ensures forall x :: x in Filter(s, keep) <==> x in s && keep(x)
  {
    if s != [] {
      var front, last := s[..|s| - 1], s[|s| - 1];
      FilterMembers(front, keep);
      assert forall x :: x in s <==> x in front || x == last;
    }
  }

  /** The elements of `s` tagged with `tag`, in order. */
  function Select<T>(s: seq<T>, tags: seq<bool>, tag: bool): (r: seq<T>)
    requires |s| == |tags|
  {
    if s == [] then []
    else Select(s[..|s| - 1], tags[..|s| - 1], tag) + (if tags[|s| - 1] == tag then [s[|s| - 1]] else [])
  }

  lemma {:induction false} SelectPush<T>(s: seq<T>, tags: seq<bool>, x: T, t: bool, tag: bool)
    requires |s| == |tags|
    ensures Select(s + [x], tags + [t], tag) == Select(s, tags, tag) + (if t == tag then [x] else [])
  {
    assert (s + [x])[..|s|] == s && (tags + [t])[..|s|] == tags;
  }

  lemma Associative<T>(a: seq<T>, b: seq<T>, c: seq<T>)
    ensures a + (b + c) == a + b + c
  {
  }
}
