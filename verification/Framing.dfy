/** Length-delimited framing: a 4-byte big-endian length before every frame (docs/WIRE.md, section 1). */
module Framing {
  import opened BigEndian
  import opened Sequences

  const HEAD: nat := 4

  /** The codec's limit on a frame; the code relies on it being smaller than 2^32. */
  predicate IsLimit(max: nat) {
    max < U32_LIMIT
  }

  function Packed(frame: seq<byte>): (bytes: seq<byte>)
    ensures |bytes| == HEAD + |frame|
  {
    ToBytes(|frame|, HEAD) + frame
  }

  function PackedAll(frames: seq<seq<byte>>): seq<byte> {
    if frames == [] then [] else Packed(frames[0]) + PackedAll(frames[1..])
  }

  /**
   * How a byte stream ends: with nothing left over, in the middle of something, or at a length the codec refuses. The
   * codec has already taken the length of a frame when it waits for the frame, so an end right behind a length leaves
   * nothing over.
   */
  datatype Ending = Clean | Torn | Oversized

  datatype Unpacked = Unpacked(frames: seq<seq<byte>>, ending: Ending)

  /** The frames a reader gets out of a byte stream, one after the other. */
  function Unpack(bytes: seq<byte>, max: nat): (u: Unpacked)
    ensures forall k :: 0 <= k < |u.frames| ==> |u.frames[k]| <= max
    decreases |bytes|
  {
    if bytes == [] then Unpacked([], Clean)
    else if |bytes| < HEAD then Unpacked([], Torn)
    else
      var n := FromBytes(bytes[..HEAD]);
      if n > max then Unpacked([], Oversized)
      else if |bytes| < HEAD + n then Unpacked([], if |bytes| == HEAD then Clean else Torn)
      else
        var rest := Unpack(bytes[HEAD + n..], max);
        Unpacked([bytes[HEAD..HEAD + n]] + rest.frames, rest.ending)
  }

  /** On the wire a frame is its length, four bytes with the most significant first, and then the frame. */
  lemma PackedSays(frame: seq<byte>)
    requires |frame| < U32_LIMIT
    ensures |Packed(frame)| == 4 + |frame| && Packed(frame)[4..] == frame
    ensures var b := Packed(frame);
            0x100_0000 * (b[0] as int) + 0x1_0000 * (b[1] as int) + 0x100 * (b[2] as int) + (b[3] as int) == |frame|
  {
    var b := ToBytes(|frame|, 4);
    WordSizes();
    FromTo(|frame|, 4);
    assert b[..3][..2][..1] == [b[0]] && b[..3][..2] == [b[0], b[1]] && b[..3] == [b[0], b[1], b[2]];
    assert FromBytes([b[0]]) == 256 * FromBytes([b[0]][..0]) + b[0];
    assert FromBytes(b[..3][..2]) == 256 * FromBytes(b[..3][..2][..1]) + b[1];
    assert FromBytes(b[..3]) == 256 * FromBytes(b[..3][..2]) + b[2];
  }

  /** A length over the limit ends the reading, whatever follows. */
  lemma OversizedEnds(bytes: seq<byte>, max: nat)
    requires |bytes| >= 4 && FromBytes(bytes[..4]) > max
    ensures Unpack(bytes, max) == Unpacked([], Oversized)
  {
  }

  predicate Fits(frames: seq<seq<byte>>, max: nat) {
    forall k :: 0 <= k < |frames| ==> |frames[k]| <= max
  }

  lemma UnpackOne(frame: seq<byte>, rest: seq<byte>, max: nat)
    requires IsLimit(max) && |frame| <= max
    ensures Unpack(Packed(frame) + rest, max) == Unpacked([frame] + Unpack(rest, max).frames, Unpack(rest, max).ending)
  {
    var bytes := Packed(frame) + rest;
    WordSizes();
    FromTo(|frame|, HEAD);
    assert bytes[..HEAD] == ToBytes(|frame|, HEAD);
    assert bytes[HEAD..HEAD + |frame|] == frame;
    assert bytes[HEAD + |frame|..] == rest;
  }

  /** How many whole frames lie within the first `cut` bytes. */
  function WholeWithin(frames: seq<seq<byte>>, cut: nat): (n: nat)
    ensures n <= |frames|
  {
    if frames == [] || cut < HEAD + |frames[0]| then 0
    else 1 + WholeWithin(frames[1..], cut - HEAD - |frames[0]|)
  }

  lemma {:induction false} PackedAllPush(frames: seq<seq<byte>>, frame: seq<byte>)
    ensures PackedAll(frames + [frame]) == PackedAll(frames) + Packed(frame)
  {
    if frames == [] {
      assert [frame] == [frame] + [];
      assert PackedAll([frame]) == Packed(frame) + PackedAll([]);
    } else {
      assert (frames + [frame])[1..] == frames[1..] + [frame];
      PackedAllPush(frames[1..], frame);
      assert Packed(frames[0]) + PackedAll(frames[1..]) + Packed(frame) == Packed(frames[0]) +
          (PackedAll(frames[1..]) + Packed(frame));
    }
  }

  /** That count is the right one: so many fit, and one more would not. */
  lemma {:induction false} WholeWithinMeaning(frames: seq<seq<byte>>, cut: nat)
    ensures var n := WholeWithin(frames, cut);
            && |PackedAll(frames[..n])| <= cut
            && (n < |frames| ==> cut < |PackedAll(frames[..n + 1])|)
  {
    var n := WholeWithin(frames, cut);
    if frames != [] && cut >= HEAD + |frames[0]| {
      WholeWithinMeaning(frames[1..], cut - HEAD - |frames[0]|);
      assert frames[..n][1..] == frames[1..][..n - 1];
      if n < |frames| {
        assert frames[..n + 1][1..] == frames[1..][..n];
      }
    } else if frames != [] {
      assert frames[..1][1..] == [];
    }
  }

  lemma CutInFirst(frame: seq<byte>, cut: nat, max: nat)
    requires IsLimit(max) && |frame| <= max && cut < HEAD + |frame|
    ensures Unpack(Packed(frame)[..cut], max) == Unpacked([], if cut == 0 || cut == HEAD then Clean else Torn)
  {
    WordSizes();
    FromTo(|frame|, HEAD);
    if cut >= HEAD {
      assert Packed(frame)[..cut][..HEAD] == ToBytes(|frame|, HEAD);
    }
  }

  /** A cut behind a frame leaves the frame as it is. */
  lemma CutBehind(frame: seq<byte>, rest: seq<byte>, inner: nat, max: nat)
    requires IsLimit(max) && |frame| <= max && inner <= |rest|
    ensures var u := Unpack(rest[..inner], max);
            Unpack((Packed(frame) + rest)[..HEAD + |frame| + inner], max) == Unpacked([frame] + u.frames, u.ending)
  {
    assert (Packed(frame) + rest)[..HEAD + |frame| + inner] == Packed(frame) + rest[..inner];
    UnpackOne(frame, rest[..inner], max);
  }

  /** How a stream of frames ends that is cut after `cut` bytes. */
  function CutEnding(frames: seq<seq<byte>>, cut: nat): Ending {
    var whole := |PackedAll(frames[..WholeWithin(frames, cut)])|;
    if cut == whole || cut == whole + HEAD then Clean else Torn
  }

  lemma CutEndingNext(frames: seq<seq<byte>>, inner: nat)
    requires frames != []
    ensures var n := WholeWithin(frames[1..], inner);
            && WholeWithin(frames, HEAD + |frames[0]| + inner) == n + 1
            && frames[..n + 1] == [frames[0]] + frames[1..][..n]
            && CutEnding(frames, HEAD + |frames[0]| + inner) == CutEnding(frames[1..], inner)
  {
    var n := WholeWithin(frames[1..], inner);
    assert frames[..n + 1][1..] == frames[1..][..n];
    assert PackedAll(frames[..n + 1]) == Packed(frames[0]) + PackedAll(frames[1..][..n]);
  }

  /**
   * Cut the stream at any byte: the reader gets exactly the whole frames before the cut, unchanged and in order, and
   * it sees a clean end exactly when the cut lies between two frames or right behind the length of one.
   */
  lemma {:induction false} CutAnywhere(frames: seq<seq<byte>>, cut: nat, max: nat)
    requires IsLimit(max) && Fits(frames, max) && cut <= |PackedAll(frames)|
    ensures Unpack(PackedAll(frames)[..cut], max) ==
        Unpacked(frames[..WholeWithin(frames, cut)], CutEnding(frames, cut))
    decreases |frames|
  {
    var bytes := PackedAll(frames);
    if frames == [] {
      assert bytes[..cut] == [];
    } else if cut < HEAD + |frames[0]| {
      assert bytes[..cut] == Packed(frames[0])[..cut];
      CutInFirst(frames[0], cut, max);
      assert WholeWithin(frames, cut) == 0 && frames[..0] == [] && CutEnding(frames, cut) == if cut == 0 || cut == HEAD
          then Clean else Torn;
    } else {
      var inner := cut - HEAD - |frames[0]|;
      var rest := PackedAll(frames[1..]);
      assert bytes == Packed(frames[0]) + rest && inner <= |rest|;
      CutAnywhere(frames[1..], inner, max);
      CutBehind(frames[0], rest, inner, max);
      CutEndingNext(frames, inner);
    }
  }

  /** Uncut, everything arrives. */
  lemma UnpackAll(frames: seq<seq<byte>>, max: nat)
    requires IsLimit(max) && Fits(frames, max)
    ensures Unpack(PackedAll(frames), max) == Unpacked(frames, Clean)
  {
    var bytes := PackedAll(frames);
    assert bytes[..|bytes|] == bytes;
    CutAnywhere(frames, |bytes|, max);
    WholeWithinMeaning(frames, |bytes|);
    var n := WholeWithin(frames, |bytes|);
    if n < |frames| {
      PackedPrefix(frames, n + 1);
    }
    assert frames[..n] == frames;
  }

  lemma {:induction false} PackedPrefix(frames: seq<seq<byte>>, n: nat)
    requires n <= |frames|
    ensures |PackedAll(frames[..n])| <= |PackedAll(frames)|
  {
    if n > 0 {
      assert frames[..n][1..] == frames[1..][..n - 1];
      PackedPrefix(frames[1..], n - 1);
    }
  }

  lemma FirstPacked(bytes: seq<byte>, max: nat)
    requires |bytes| >= HEAD && FromBytes(bytes[..HEAD]) <= max && |bytes| >= HEAD + FromBytes(bytes[..HEAD])
    ensures var n := FromBytes(bytes[..HEAD]);
            PackedAll(Unpack(bytes, max).frames) == bytes[..HEAD + n] + PackedAll(Unpack(bytes[HEAD + n..], max).frames)
  {
    var n := FromBytes(bytes[..HEAD]);
    ToFrom(bytes[..HEAD]);
    assert Packed(bytes[HEAD..HEAD + n]) == bytes[..HEAD + n];
    assert Unpack(bytes, max).frames[1..] == Unpack(bytes[HEAD + n..], max).frames;
  }

  lemma PrependKeeps(first: seq<byte>, rest: seq<byte>, packed: seq<byte>)
    requires |packed| <= |rest|
    ensures (first + rest)[|first + packed|..] == rest[|packed|..]
    ensures rest[..|packed|] == packed ==> (first + rest)[..|first + packed|] == first + packed
  {
  }

  /** A stream that ends cleanly is its frames packed, or that and the length of a frame that never came. */
  lemma {:induction false} UnpackInverse(bytes: seq<byte>, max: nat)
    requires Unpack(bytes, max).ending.Clean?
    ensures var packed := PackedAll(Unpack(bytes, max).frames);
            bytes == packed || (|bytes| == |packed| + HEAD && bytes[..|packed|] == packed
                && 0 < FromBytes(bytes[|packed|..]) <= max)
    decreases |bytes|
  {
    if bytes != [] {
      var n := FromBytes(bytes[..HEAD]);
      ToFrom(bytes[..HEAD]);
      if |bytes| < HEAD + n {
        assert bytes[..HEAD] == bytes && bytes[0..] == bytes;
      } else {
        var rest := bytes[HEAD + n..];
        UnpackInverse(rest, max);
        FirstPacked(bytes, max);
        PrependKeeps(bytes[..HEAD + n], rest, PackedAll(Unpack(rest, max).frames));
        assert bytes == bytes[..HEAD + n] + rest;
      }
    }
  }
}
