/** The 28-byte header in front of every data frame (src/stream.rs). */
module FrameHeaders {
  import opened BigEndian
  import opened Sequences

  const SIZE: nat := 28
  const MAGIC: seq<byte> := [0x4B, 0x50]

  datatype FrameHeader = FrameHeader(
    magic: seq<byte>,
    streamId: u32,
    seqNum: u64,
    timestampMs: u64,
    frameType: byte,
    flags: byte,
    payloadLen: u32)
  {
    /** `magic` is a two-byte array in the source. */
    predicate Valid() { |magic| == 2 }
  }

  datatype HeaderError = TooShort | InvalidMagic
  datatype Decoded = Ok(header: FrameHeader) | Err(error: HeaderError)

  /** The fields up to the timestamp. */
  function Numbers(h: FrameHeader): (bytes: seq<byte>)
    requires h.Valid()
    ensures |bytes| == 22
  {
    h.magic + ToBytes(h.streamId, 4) + ToBytes(h.seqNum, 8) + ToBytes(h.timestampMs, 8)
  }

  /** The layout `encode` fills in, field after field. */
  function Layout(h: FrameHeader): (bytes: seq<byte>)
    requires h.Valid()
    ensures |bytes| == SIZE
  {
    Numbers(h) + [h.frameType, h.flags] + ToBytes(h.payloadLen, 4)
  }

  /** `dst[lo..lo + |src|].copy_from_slice(src)`. */
  method CopyFromSlice(dst: array<byte>, lo: nat, src: seq<byte>)
    requires lo + |src| <= dst.Length
    modifies dst
    ensures dst[..lo + |src|] == old(dst[..lo]) + src
    ensures dst[lo + |src|..] == old(dst[lo + |src|..])
  {
    for i := 0 to |src|
      invariant forall k :: 0 <= k < lo || lo + i <= k < dst.Length ==> dst[k] == old(dst[k])
      invariant forall k :: 0 <= k < i ==> dst[lo + k] == src[k]
    {
      dst[lo + i] := src[i];
    }
  }

  method Encode(h: FrameHeader) returns (bytes: array<byte>)
    requires h.Valid()
    ensures fresh(bytes) && bytes[..] == Layout(h)
  {
    bytes := new byte[SIZE](_ => 0);
    CopyFromSlice(bytes, 0, h.magic);
    CopyFromSlice(bytes, 2, ToBytes(h.streamId, 4));
    CopyFromSlice(bytes, 6, ToBytes(h.seqNum, 8));
    CopyFromSlice(bytes, 14, ToBytes(h.timestampMs, 8));
    assert bytes[..22] == Numbers(h);
    bytes[22] := h.frameType;
    bytes[23] := h.flags;
    assert bytes[..24] == Numbers(h) + [h.frameType, h.flags];
    CopyFromSlice(bytes, 24, ToBytes(h.payloadLen, 4));
    assert bytes[..] == bytes[..SIZE];
  }

  function Decode(bytes: seq<byte>): (r: Decoded)
    ensures r.Ok? ==> r.header.Valid()
  {
    if |bytes| < SIZE then Err(TooShort)
    else if bytes[0..2] != MAGIC then Err(InvalidMagic)
    else
      WordSizes();
      Ok(FrameHeader(
        bytes[0..2],
        FromBytes(bytes[2..6]),
        FromBytes(bytes[6..14]),
        FromBytes(bytes[14..22]),
        bytes[22],
        bytes[23],
        FromBytes(bytes[24..28])))
  }

  /** Where each field lies, whatever follows the header. */
  lemma LayoutSlices(h: FrameHeader, rest: seq<byte>)
    requires h.Valid()
    ensures var b := Layout(h) + rest;
            && b[0..2] == h.magic && b[2..6] == ToBytes(h.streamId, 4)
            && b[6..14] == ToBytes(h.seqNum, 8) && b[14..22] == ToBytes(h.timestampMs, 8)
            && b[22] == h.frameType && b[23] == h.flags && b[24..28] == ToBytes(h.payloadLen, 4)
  {
  }

  /** Decoding what was encoded gives the header back, with any payload behind it, exactly when the magic is right. */
  lemma DecodeEncode(h: FrameHeader, payload: seq<byte>)
    requires h.Valid()
    ensures Decode(Layout(h) + payload) == if h.magic == MAGIC then Ok(h) else Err(InvalidMagic)
  {
    LayoutSlices(h, payload);
    WordSizes();
    FromTo(h.streamId, 4);
    FromTo(h.seqNum, 8);
    FromTo(h.timestampMs, 8);
    FromTo(h.payloadLen, 4);
  }

  /** Encoding what was decoded gives back the 28 bytes it came from, and nothing behind them mattered. */
  lemma EncodeDecode(bytes: seq<byte>)
    ensures Decode(bytes).Ok? <==> |bytes| >= 28 && bytes[0] == 0x4B && bytes[1] == 0x50
    ensures Decode(bytes) == Err(TooShort) <==> |bytes| < 28
    ensures Decode(bytes).Ok? ==>
              Layout(Decode(bytes).header) == bytes[..SIZE] && Decode(bytes[..SIZE]) == Decode(bytes)
  {
    if |bytes| >= SIZE {
      assert bytes[0..2] == [bytes[0], bytes[1]];
      if bytes[0..2] == MAGIC {
        ToFrom(bytes[2..6]);
        ToFrom(bytes[6..14]);
        ToFrom(bytes[14..22]);
        ToFrom(bytes[24..28]);
        assert bytes[..SIZE] == bytes[0..2] + bytes[2..6] + bytes[6..14] + bytes[14..22]
                                + [bytes[22], bytes[23]] + bytes[24..28];
        var b := bytes[..SIZE];
        assert b[0..2] == bytes[0..2] && b[2..6] == bytes[2..6] && b[6..14] == bytes[6..14];
        assert b[14..22] == bytes[14..22] && b[24..28] == bytes[24..28];
      }
    }
  }

  /** Sorting encoded headers by the bytes of the sequence field sorts the frames by number. */
  lemma SequenceOrder(a: FrameHeader, b: FrameHeader)
    requires a.Valid() && b.Valid()
    ensures LexLess(Layout(a)[6..14], Layout(b)[6..14]) <==> a.seqNum < b.seqNum
  {
    LayoutSlices(a, []);
    LayoutSlices(b, []);
    assert Layout(a) + [] == Layout(a) && Layout(b) + [] == Layout(b);
    WordSizes();
    FromTo(a.seqNum, 8);
    FromTo(b.seqNum, 8);
    LexIsNumeric(ToBytes(a.seqNum, 8), ToBytes(b.seqNum, 8));
  }
}
