/** Message ids, connection ids and assigned rope ids (src/lib.rs), and when two of them can coincide. */
module Identifiers {
  import opened BigEndian

  function Digit(d: nat): char
    requires d < 10
  {
    "0123456789"[d]
  }

  /** `{}` applied to an unsigned integer. */
  function Decimal(n: nat): (s: string)
    ensures s != [] && forall k :: 0 <= k < |s| ==> '0' <= s[k] <= '9'
  {
    if n < 10 then [Digit(n)] else Decimal(n / 10) + [Digit(n % 10)]
  }

  predicate AllDigits(s: string) {
    forall k :: 0 <= k < |s| ==> '0' <= s[k] <= '9'
  }

  /** What a text of decimal digits says. */
  function ReadDecimal(s: string): nat
    requires AllDigits(s)
  {
    if s == [] then 0 else 10 * ReadDecimal(s[..|s| - 1]) + (s[|s| - 1] as int - '0' as int)
  }

  /** A number is printed in decimal digits that read back as the number, with no leading zero but in "0" itself. */
  lemma {:induction false} DecimalReads(n: nat)
    ensures AllDigits(Decimal(n)) && ReadDecimal(Decimal(n)) == n
    ensures Decimal(n)[0] == '0' <==> n == 0
    ensures n == 0 ==> Decimal(n) == "0"
  {
    var s := Decimal(n);
    if n < 10 {
      assert s[..|s| - 1] == [];
    } else {
      DecimalReads(n / 10);
      assert s[..|s| - 1] == Decimal(n / 10);
    }
  }

  lemma DecimalInjective(m: nat, n: nat)
    requires Decimal(m) == Decimal(n)
    ensures m == n
  {
    DecimalReads(m);
    DecimalReads(n);
  }

  lemma FirstSeparator(a: string, b: string, separator: char)
    requires separator !in a
    ensures var s := a + [separator] + b;
            s[|a|] == separator && forall i :: 0 <= i < |a| ==> s[i] != separator
  {
    forall i | 0 <= i < |a| ensures (a + [separator] + b)[i] != separator {
      assert (a + [separator] + b)[i] == a[i];
    }
  }

  /** Two texts around a separator that does not occur in the left ones split in only one way. */
  lemma SplitUnique(a: string, b: string, c: string, d: string, separator: char)
    requires separator !in a && separator !in c
    requires a + [separator] + b == c + [separator] + d
    ensures a == c && b == d
  {
    var s, t := a + [separator] + b, c + [separator] + d;
    FirstSeparator(a, b, separator);
    FirstSeparator(c, d, separator);
    assert s[..|a|] == a && t[..|c|] == c;
    assert s[|a| + 1..] == b && t[|c| + 1..] == d;
  }

  function ConnectionId(count: nat): string {
    "conn_" + Decimal(count)
  }

  function MsgId(now: nat, count: nat): string {
    Decimal(now) + "_" + Decimal(count)
  }

  function AssignedRopeId(knotId: string, ropeId: string): string {
    knotId + "_" + ropeId
  }

  /** A connection id says its number behind a fixed prefix. */
  lemma ConnectionIdReads(count: nat)
    ensures var id := ConnectionId(count);
            |id| > 5 && id[..5] == "conn_" && AllDigits(id[5..]) && ReadDecimal(id[5..]) == count
  {
    DecimalReads(count);
    assert ConnectionId(count)[5..] == Decimal(count);
  }

  /** Up to its only underscore a message id reads as the clock, and behind it as the count. */
  lemma MsgIdReads(now: nat, count: nat) returns (i: nat)
    ensures var id := MsgId(now, count);
            && i < |id| && id[i] == '_' && (forall k :: 0 <= k < |id| && k != i ==> id[k] != '_')
            && AllDigits(id[..i]) && ReadDecimal(id[..i]) == now
            && AllDigits(id[i + 1..]) && ReadDecimal(id[i + 1..]) == count
  {
    DecimalReads(now);
    DecimalReads(count);
    i := |Decimal(now)|;
    var id := MsgId(now, count);
    assert id[..i] == Decimal(now) && id[i + 1..] == Decimal(count);
    forall k | 0 <= k < |id| && k != i ensures id[k] != '_' {
      assert id[k] == if k < i then Decimal(now)[k] else Decimal(count)[k - i - 1];
    }
  }

  /** An assigned rope id is the knot id, an underscore and the rope id, in this order. */
  predicate Joins(id: string, knotId: string, ropeId: string) {
    |id| == |knotId| + 1 + |ropeId| && id[..|knotId|] == knotId && id[|knotId|] == '_' && id[|knotId| + 1..] == ropeId
  }

  lemma AssignedRopeIdJoins(knotId: string, ropeId: string, id: string)
    ensures Joins(id, knotId, ropeId) <==> id == AssignedRopeId(knotId, ropeId)
  {
    if Joins(id, knotId, ropeId) {
      assert id == id[..|knotId|] + [id[|knotId|]] + id[|knotId| + 1..];
    }
  }

  lemma ConnectionIdInjective(m: nat, n: nat)
    ensures ConnectionId(m) == ConnectionId(n) <==> m == n
  {
    if ConnectionId(m) == ConnectionId(n) {
      assert ConnectionId(m)[5..] == Decimal(m) && ConnectionId(n)[5..] == Decimal(n);
      DecimalInjective(m, n);
    }
  }

  lemma MsgIdInjective(now1: nat, count1: nat, now2: nat, count2: nat)
    ensures MsgId(now1, count1) == MsgId(now2, count2) <==> now1 == now2 && count1 == count2
  {
    if MsgId(now1, count1) == MsgId(now2, count2) {
      SplitUnique(Decimal(now1), Decimal(count1), Decimal(now2), Decimal(count2), '_');
      DecimalInjective(now1, now2);
      DecimalInjective(count1, count2);
    }
  }

  /**
   * An assigned rope id can be read as one (knot, rope) pair only, exactly when neither name contains an underscore.
   */
  lemma AssignedRopeIdAmbiguous(knotId: string, ropeId: string)
    ensures Joins(AssignedRopeId(knotId, ropeId), knotId, ropeId)
    ensures (exists k: string, r: string :: (k, r) != (knotId, ropeId) && Joins(AssignedRopeId(knotId, ropeId), k, r))
            <==> '_' in knotId || '_' in ropeId
  {
    var id := AssignedRopeId(knotId, ropeId);
    AssignedRopeIdJoins(knotId, ropeId, id);
    if '_' in knotId {
      var i :| 0 <= i < |knotId| && knotId[i] == '_';
      var k, r := knotId[..i], knotId[i + 1..] + "_" + ropeId;
      AssignedRopeIdJoins(k, r, id);
      assert AssignedRopeId(k, r) == id;
      assert (k, r) != (knotId, ropeId);
    } else if '_' in ropeId {
      var i :| 0 <= i < |ropeId| && ropeId[i] == '_';
      var k, r := knotId + "_" + ropeId[..i], ropeId[i + 1..];
      AssignedRopeIdJoins(k, r, id);
      assert AssignedRopeId(k, r) == id;
      assert (k, r) != (knotId, ropeId);
    } else {
      forall i | 0 <= i < |id| && i != |knotId|
        ensures id[i] != '_'
      {
        if i < |knotId| {
          assert id[i] == knotId[i];
        } else {
          assert id[i] == ropeId[i - |knotId| - 1];
        }
      }
      forall k: string, r: string | Joins(id, k, r)
        ensures (k, r) == (knotId, ropeId)
      {
        assert id[|k|] == '_';
        assert id[..|k|] == k && id[..|k|] == knotId;
        assert id[|k| + 1..] == r && id[|k| + 1..] == ropeId;
      }
    }
  }

  /** A process-wide atomic counter: `fetch_add` on a 64-bit word, which wraps. */
  class AtomicCounter {
    var value: u64

    constructor ()
      ensures value == 0
    {
      value := 0;
    }

    method FetchAdd() returns (before: u64)
      modifies this
      ensures before == old(value) && value == (old(value) + 1) % U64_LIMIT
    {
      before := value;
      value := if value == U64_LIMIT - 1 then 0 else value + 1;
    }

    /** `generate_msg_id`: the clock is read after the ticket is drawn and may say anything. */
    method GenerateMsgId(now: u64) returns (id: string)
      modifies this
      ensures id == MsgId(now, old(value)) && value == (old(value) + 1) % U64_LIMIT
    {
      var count := FetchAdd();
      id := MsgId(now, count);
    }

    method AllotConnectionId() returns (id: string)
      modifies this
      ensures id == ConnectionId(old(value)) && value == (old(value) + 1) % U64_LIMIT
    {
      var count := FetchAdd();
      id := ConnectionId(count);
    }
  }

  /**
   * Any number of tasks drawing from one counter: each first draws a ticket, and prints it with a clock reading later.
   */
  datatype Task = Drawn(ticket: nat) | Printed(ticket: nat, now: nat)
  datatype Tasks = Tasks(counter: nat, tasks: seq<Task>)
  datatype Action = Draw | Print(task: nat, now: nat)

  /** A print without a ticket to print cannot be taken and changes nothing. */
  function Act(s: Tasks, a: Action): Tasks {
    match a
    case Draw => Tasks((s.counter + 1) % U64_LIMIT, s.tasks + [Drawn(s.counter)])
    case Print(i, now) =>
      if i < |s.tasks| && s.tasks[i].Drawn? then s.(tasks := s.tasks[i := Printed(s.tasks[i].ticket, now)]) else s
  }

  ghost function Outcome(actions: seq<Action>): Tasks {
    if actions == [] then Tasks(0, []) else Act(Outcome(actions[..|actions| - 1]), actions[|actions| - 1])
  }

  lemma {:induction false} TicketsCount(actions: seq<Action>)
    ensures var s := Outcome(actions);
            && s.counter == |s.tasks| % U64_LIMIT
            && forall i :: 0 <= i < |s.tasks| ==> s.tasks[i].ticket == i % U64_LIMIT
  {
    if actions != [] {
      TicketsCount(actions[..|actions| - 1]);
      WrapStep(|Outcome(actions[..|actions| - 1]).tasks|);
    }
  }

  lemma WrapStep(n: nat)
    ensures (n % U64_LIMIT + 1) % U64_LIMIT == (n + 1) % U64_LIMIT
  {
    assert n + 1 == (n / U64_LIMIT) * U64_LIMIT + (n % U64_LIMIT + 1);
  }

  /**
   * In every interleaving, two printed message ids coincide exactly when both the clock reading and the
   * draw number modulo 2^64 do, and two connection ids exactly when the draw numbers modulo 2^64 do.
   */
  lemma IdsCoincide(actions: seq<Action>, i: nat, j: nat)
    requires i < |Outcome(actions).tasks| && j < |Outcome(actions).tasks|
    ensures var t := Outcome(actions).tasks;
            && (ConnectionId(t[i].ticket) == ConnectionId(t[j].ticket) <==> i % U64_LIMIT == j % U64_LIMIT)
            && (t[i].Printed? && t[j].Printed? ==>
                  (MsgId(t[i].now, t[i].ticket) == MsgId(t[j].now, t[j].ticket) <==>
                   t[i].now == t[j].now && i % U64_LIMIT == j % U64_LIMIT))
  {
    TicketsCount(actions);
    var t := Outcome(actions).tasks;
    ConnectionIdInjective(t[i].ticket, t[j].ticket);
    if t[i].Printed? && t[j].Printed? {
      MsgIdInjective(t[i].now, t[i].ticket, t[j].now, t[j].ticket);
    }
  }

  /** Up to 2^64 draws, in every interleaving and whatever the clock does, no id repeats and no number is skipped. */
  lemma IdsUniqueAndGapless(actions: seq<Action>)
    requires |Outcome(actions).tasks| <= U64_LIMIT
    ensures var t := Outcome(actions).tasks;
            && (forall i :: 0 <= i < |t| ==> ConnectionId(t[i].ticket) == ConnectionId(i))
            && (forall i, j :: 0 <= i < j < |t| ==> ConnectionId(t[i].ticket) != ConnectionId(t[j].ticket))
            && (forall i, j :: 0 <= i < j < |t| && t[i].Printed? && t[j].Printed? ==>
                  MsgId(t[i].now, t[i].ticket) != MsgId(t[j].now, t[j].ticket))
  {
    TicketsCount(actions);
    var t := Outcome(actions).tasks;
    forall i | 0 <= i < |t| ensures t[i].ticket == i {
      assert i % U64_LIMIT == i;
    }
    forall i, j | 0 <= i < j < |t|
      ensures ConnectionId(t[i].ticket) != ConnectionId(t[j].ticket)
      ensures t[i].Printed? && t[j].Printed? ==> MsgId(t[i].now, t[i].ticket) != MsgId(t[j].now, t[j].ticket)
    {
      ConnectionIdInjective(i, j);
      if t[i].Printed? && t[j].Printed? {
        MsgIdInjective(t[i].now, i, t[j].now, j);
      }
    }
  }
}
