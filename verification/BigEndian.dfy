/** Fixed-width big-endian integers, as `to_be_bytes` and `from_be_bytes` lay them out. */
module BigEndian {

  type byte = b: int | 0 <= b < 256

  const U32_LIMIT: nat := 0x1_0000_0000
  const U64_LIMIT: nat := 0x1_0000_0000_0000_0000

  type u32 = v: int | 0 <= v < U32_LIMIT
  type u64 = v: int | 0 <= v < U64_LIMIT

  function Pow256(width: nat): (p: nat)
    ensures p > 0
  {
    if width == 0 then 1 else 256 * Pow256(width - 1)
  }

  function ToBytes(v: nat, width: nat): (r: seq<byte>)
    ensures |r| == width
  {
    if width == 0 then [] else ToBytes(v / 256, width - 1) + [v % 256]
  }

  function FromBytes(s: seq<byte>): (v: nat)
    ensures v < Pow256(|s|)
  {
    if s == [] then 0 else 256 * FromBytes(s[..|s| - 1]) + s[|s| - 1]
  }

  lemma WordSizes()
    ensures Pow256(4) == U32_LIMIT
    ensures Pow256(8) == U64_LIMIT
  {
    assert Pow256(4) == 256 * (256 * Pow256(2));
    assert Pow256(8) == 256 * (256 * (256 * (256 * Pow256(4))));
  }

  lemma Shifted(high: nat, low: byte)
    ensures (256 * high + low) / 256 == high && (256 * high + low) % 256 == low
  {
  }

  lemma Unshifted(v: nat, bound: nat)
    requires v < 256 * bound
    ensures v == 256 * (v / 256) + v % 256 && v / 256 < bound
  {
  }

  lemma ShiftedLess(x: nat, c: byte, y: nat, d: byte)
    ensures 256 * x + c < 256 * y + d <==> x < y || (x == y && c < d)
  {
  }

  lemma {:induction false} FromTo(v: nat, width: nat)
    requires v < Pow256(width)
    ensures FromBytes(ToBytes(v, width)) == v
  {
    if width > 0 {
      var r := ToBytes(v, width);
      Unshifted(v, Pow256(width - 1));
      FromTo(v / 256, width - 1);
      assert r[..|r| - 1] == ToBytes(v / 256, width - 1);
      assert FromBytes(r) == 256 * (v / 256) + v % 256;
    }
  }

  lemma {:induction false} ToFrom(s: seq<byte>)
    ensures ToBytes(FromBytes(s), |s|) == s
  {
    if s != [] {
      var front, last := s[..|s| - 1], s[|s| - 1];
      ToFrom(front);
      Shifted(FromBytes(front), last);
      assert s == front + [last];
    }
  }

  /** Byte-wise lexicographic order on strings of one length: the order a key-value store sorts by. */
  ghost predicate LexLess(a: seq<byte>, b: seq<byte>)
    requires |a| == |b|
  {
    exists k :: 0 <= k < |a| && a[..k] == b[..k] && a[k] < b[k]
  }

  lemma LexByLastByte(a: seq<byte>, b: seq<byte>)
    requires |a| == |b| > 0
    ensures var n := |a| - 1;
            LexLess(a, b) <==> LexLess(a[..n], b[..n]) || (a[..n] == b[..n] && a[n] < b[n])
  {
    var n := |a| - 1;
    var x, y := a[..n], b[..n];
    if LexLess(a, b) {
      var k :| 0 <= k < |a| && a[..k] == b[..k] && a[k] < b[k];
      if k < n {
        assert x[..k] == a[..k] && y[..k] == b[..k] && x[k] < y[k];
      }
    }
    if LexLess(x, y) {
      var k :| 0 <= k < n && x[..k] == y[..k] && x[k] < y[k];
      assert a[..k] == x[..k] && b[..k] == y[..k] && a[k] < b[k];
    }
  }

  lemma {:induction false} LexIsNumeric(a: seq<byte>, b: seq<byte>)
    requires |a| == |b|
    ensures LexLess(a, b) <==> FromBytes(a) < FromBytes(b)
  {
    if a != [] {
      var n := |a| - 1;
      LexByLastByte(a, b);
      LexIsNumeric(a[..n], b[..n]);
      ShiftedLess(FromBytes(a[..n]), a[n], FromBytes(b[..n]), b[n]);
      ToFrom(a[..n]);
      ToFrom(b[..n]);
    }
  }
}
