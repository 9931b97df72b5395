/** The SocketCAN wire layout of a classic CAN frame: the 16-byte `struct can_frame`
    (section 4 of the Linux kernel's Documentation/networking/can.txt) as the protocol
    module packs and unpacks it on a little-endian host. */
module CanFrame {
  import opened Bits

  type Byte = b: nat | b < 256

  /** What a sender is given and a receiver gets: identifier, payload, extended flag. */
  datatype Frame = Frame(id: nat, data: seq<Byte>, extended: bool)

  const CAN_EFF_FLAG: nat := 0x8000_0000
  const CAN_EXTENSION_MASK: nat := 0x07FF_F800
  const CAN_ID_MASK: nat := 0x1FFF_FFFF
  const CAN_SPARE_BITS: nat := 0x6000_0000  // neither identifier nor flag
  const FRAME_SIZE: nat := 16

  /** The outcome of `struct.pack`: some bytes, or `struct.error`. */
  datatype Packed = Bytes(bytes: seq<Byte>) | StructError

  function LowByte(w: nat): Byte {
    w % 0x100
  }

  function PackWord(w: nat): (b: seq<Byte>)
    requires w < 0x1_0000_0000
    ensures |b| == 4
  {
    [LowByte(w), LowByte(w / 0x100), LowByte(w / 0x1_0000), LowByte(w / 0x100_0000)]
  }

  function UnpackWord(b: seq<Byte>): (w: nat)
    requires |b| >= 4
    ensures w < 0x1_0000_0000
  {
    var b0: nat, b1: nat, b2: nat, b3: nat := b[0], b[1], b[2], b[3];
    b0 + 0x100 * b1 + 0x1_0000 * b2 + 0x100_0000 * b3
  }

  /** Whether the header carries the extended flag: asked for, or implied by the identifier. */
  predicate Flagged(id: nat, extended: bool) {
    extended || And(id, CAN_EXTENSION_MASK) > 0
  }

  function HeaderWord(id: nat, extended: bool): nat {
    if Flagged(id, extended) then Or(id, CAN_EFF_FLAG) else id
  }

  /** `build_tx_header`, packing "=IBB2x". */
  function BuildTxHeader(id: nat, dlc: nat, extended: bool): (h: Packed)
    ensures h.Bytes? ==> |h.bytes| == 8
  {
    var word := HeaderWord(id, extended);
    if word >= 0x1_0000_0000 || dlc > 255 then StructError
    else Bytes(PackWord(word) + [dlc, 0, 0, 0])
  }

  /** `data.ljust(8, b"\0")`. */
  function LeftJustified(data: seq<Byte>): (p: seq<Byte>)
    ensures |p| == if |data| < 8 then 8 else |data|
  {
    if |data| < 8 then data + seq(8 - |data|, _ => 0) else data
  }

  /** The payload a sender writes for one frame. */
  function Encode(f: Frame): (p: Packed)
    ensures p.Bytes? && |f.data| <= 8 ==> |p.bytes| == FRAME_SIZE
  {
    var h := BuildTxHeader(f.id, |f.data|, f.extended);
    if h.StructError? then StructError else Bytes(h.bytes + LeftJustified(f.data))
  }

  /** What a receiver makes of 16 bytes; the payload slice stops at the end of the frame. */
  function Decode(cf: seq<Byte>): (f: Frame)
    requires |cf| == FRAME_SIZE
    ensures |f.data| <= 8
  {
    var word, dlc := UnpackWord(cf), cf[4];
    Frame(And(word, CAN_ID_MASK), cf[8..(if 8 + dlc <= FRAME_SIZE then 8 + dlc else FRAME_SIZE)],
          And(word, CAN_EFF_FLAG) != 0)
  }

  // ---------------------------------------------------------------- the identifier word

  lemma SplitByte(w: nat)
    ensures w == 0x100 * (w / 0x100) + LowByte(w)
  {
  }

  lemma NextByte(w: nat)
    ensures w / 0x1_0000 == (w / 0x100) / 0x100
  {
  }

  lemma LastByte(w: nat)
    ensures w / 0x100_0000 == (w / 0x1_0000) / 0x100
    ensures w < 0x1_0000_0000 ==> LowByte(w / 0x100_0000) == w / 0x100_0000
  {
  }

  lemma PackUnpack(w: nat)
    requires w < 0x1_0000_0000
    ensures UnpackWord(PackWord(w)) == w
  {
    SplitByte(w);
    SplitByte(w / 0x100);
    SplitByte(w / 0x1_0000);
    NextByte(w);
    LastByte(w);
  }

  /** The flag is bit 31 and nothing else. */
  lemma FlagBit(i: nat)
    ensures Bit(CAN_EFF_FLAG, i) <==> i == 31
  {
    Pow2Values();
    ShiftLeftPow2(1, 31);
    ShiftLeftBit(1, 31, i);
    if i > 31 { HighBitsClear(1, 1, i - 31); }
  }

  /** The identifier mask keeps bits 0 to 28. */
  lemma IdMaskBit(i: nat)
    ensures Bit(CAN_ID_MASK, i) <==> i < 29
  {
    Pow2Values();
    OnesBit(29, i);
  }

  /** The extension mask covers bits 11 to 26. */
  lemma ExtensionMaskBit(i: nat)
    ensures Bit(CAN_EXTENSION_MASK, i) <==> 11 <= i < 27
  {
    Pow2Values();
    ShiftLeftPow2(Pow2(16) - 1, 11);
    ShiftLeftBit(Pow2(16) - 1, 11, i);
    if i >= 11 { OnesBit(16, i - 11); }
  }

  /** Testing the flag is testing bit 31. */
  lemma HasFlag(w: nat, i: nat)
    requires i == 31
    ensures And(w, CAN_EFF_FLAG) != 0 <==> Bit(w, i)
  {
    DisjointBits(w, CAN_EFF_FLAG);
    FlagBit(i);
    if And(w, CAN_EFF_FLAG) > 0 {
      var j: nat :| Bit(w, j) && Bit(CAN_EFF_FLAG, j);
      FlagBit(j);
    }
  }

  /** Identifier bits 29 and 30, which no receiver keeps. */
  lemma HasSpare(w: nat, i: nat)
    requires i == 29
    ensures And(w, CAN_SPARE_BITS) != 0 <==> Bit(w, i) || Bit(w, i + 1)
  {
    DisjointBits(w, CAN_SPARE_BITS);
    SpareBit(i);
    SpareBit(i + 1);
    if And(w, CAN_SPARE_BITS) > 0 {
      var j: nat :| Bit(w, j) && Bit(CAN_SPARE_BITS, j);
      SpareBit(j);
    }
  }

  lemma SpareBit(i: nat)
    ensures Bit(CAN_SPARE_BITS, i) <==> i == 29 || i == 30
  {
    Pow2Values();
    ShiftLeftPow2(3, 29);
    ShiftLeftBit(3, 29, i);
    if i > 30 { HighBitsClear(3, 2, i - 29); }
  }

  lemma HeaderWordBits(id: nat, extended: bool, i: nat)
    ensures Bit(HeaderWord(id, extended), i) <==> Bit(id, i) || (i == 31 && Flagged(id, extended))
  {
    OrBit(id, CAN_EFF_FLAG, i);
    FlagBit(i);
  }

  /** Packing the header never touches the 29 identifier bits. */
  lemma HeaderWordId(id: nat, extended: bool)
    ensures And(HeaderWord(id, extended), CAN_ID_MASK) == And(id, CAN_ID_MASK)
  {
    var w := HeaderWord(id, extended);
    forall i: nat
      ensures Bit(And(w, CAN_ID_MASK), i) <==> Bit(And(id, CAN_ID_MASK), i)
    {
      AndBit(w, CAN_ID_MASK, i);
      AndBit(id, CAN_ID_MASK, i);
      IdMaskBit(i);
      HeaderWordBits(id, extended, i);
    }
    SameBits(And(w, CAN_ID_MASK), And(id, CAN_ID_MASK));
  }

  lemma HeaderWordFits(id: nat, extended: bool)
    ensures HeaderWord(id, extended) < 0x1_0000_0000 <==> id < 0x1_0000_0000
  {
    var w := HeaderWord(id, extended);
    Pow2Values();
    if id < Pow2(32) {
      forall i: nat | i >= 32
        ensures !Bit(w, i)
      {
        HighBitsClear(id, 32, i);
        HeaderWordBits(id, extended, i);
      }
      BoundFromBits(w, 32);
    }
    if w < Pow2(32) {
      forall i: nat | i >= 32
        ensures !Bit(id, i)
      {
        HighBitsClear(w, 32, i);
        HeaderWordBits(id, extended, i);
      }
      BoundFromBits(id, 32);
    }
  }

  lemma IdMasked(id: nat)
    ensures And(id, CAN_ID_MASK) == id % 0x2000_0000
  {
    Pow2Values();
    AndOnes(id, 29);
  }

  lemma SmallIdKept(id: nat)
    requires id < 0x2000_0000
    ensures And(id, CAN_ID_MASK) == id
  {
    Pow2Values();
    KeptByOnes(id, 29);
  }

  /** The implied flag only looks at identifier bits 11 to 26, so masking off bits 29 and up keeps it. */
  lemma FlaggedMasked(id: nat, extended: bool)
    ensures Flagged(And(id, CAN_ID_MASK), extended) == Flagged(id, extended)
  {
    var masked := And(id, CAN_ID_MASK);
    DisjointBits(id, CAN_EXTENSION_MASK);
    DisjointBits(masked, CAN_EXTENSION_MASK);
    if And(id, CAN_EXTENSION_MASK) > 0 {
      var i: nat :| Bit(id, i) && Bit(CAN_EXTENSION_MASK, i);
      ExtensionMaskBit(i);
      IdMaskBit(i);
      AndBit(id, CAN_ID_MASK, i);
    }
    if And(masked, CAN_EXTENSION_MASK) > 0 {
      var i: nat :| Bit(masked, i) && Bit(CAN_EXTENSION_MASK, i);
      AndBit(id, CAN_ID_MASK, i);
    }
  }

  ghost predicate SomeBit(x: nat, lo: nat, hi: nat) {
    exists i: nat :: lo <= i < hi && Bit(x, i)
  }

  /** An unflagged identifier is sent as extended exactly when one of its bits 11 to 26 is set;
      bits 27 and 28, though part of a 29-bit identifier, do not imply the flag. */
  lemma ImpliedFlag(id: nat)
    ensures Flagged(id, false) <==> SomeBit(id, 11, 27)
  {
    DisjointBits(id, CAN_EXTENSION_MASK);
    if Flagged(id, false) {
      var i: nat :| Bit(id, i) && Bit(CAN_EXTENSION_MASK, i);
      ExtensionMaskBit(i);
    } else if SomeBit(id, 11, 27) {
      var i: nat :| 11 <= i < 27 && Bit(id, i);
      ExtensionMaskBit(i);
    }
  }

  // ---------------------------------------------------------------- round trips

  /** A frame a receiver can produce, and every sender can pack. */
  predicate Sendable(f: Frame) {
    f.id < 0x1_0000_0000 && |f.data| <= 8
  }

  lemma EncodeSucceeds(f: Frame)
    requires |f.data| <= 8
    ensures Encode(f).Bytes? <==> f.id < 0x1_0000_0000
  {
    HeaderWordFits(f.id, f.extended);
  }

  /** Where the pieces of a frame are. */
  lemma EncodePieces(f: Frame)
    requires Sendable(f)
    ensures Encode(f).Bytes?
    ensures var p := Encode(f).bytes;
            |p| == FRAME_SIZE && p[..4] == PackWord(HeaderWord(f.id, f.extended))
            && UnpackWord(p) == HeaderWord(f.id, f.extended) && p[4] == |f.data| && p[5..8] == [0, 0, 0]
            && p[8..8 + |f.data|] == f.data && forall i :: 8 + |f.data| <= i < FRAME_SIZE ==> p[i] == 0
  {
    var word := HeaderWord(f.id, f.extended);
    HeaderWordFits(f.id, f.extended);
    var p := Encode(f).bytes;
    assert p[..4] == PackWord(word);
    PackUnpack(word);
  }

  /** The flag stands in bit 31, above an identifier of any 31 bits. */
  lemma OrFlag(id: nat)
    requires id < 0x1_0000_0000
    ensures Or(id, CAN_EFF_FLAG) == if id >= 0x8000_0000 then id else id + 0x8000_0000
  {
    Pow2Values();
    OrTop(id, 31);
  }

  /** Identifier bits 11 to 26, as a number. */
  lemma ExtensionBits(id: nat)
    ensures Flagged(id, false) <==> id / 0x800 % 0x1_0000 != 0
  {
    var x := id / 0x800;
    Pow2Values();
    ShiftRightDiv(id, 11);
    AndOnes(x, 16);
    DisjointBits(x, Pow2(16) - 1);
    ImpliedFlag(id);
    if SomeBit(id, 11, 27) {
      var i: nat :| 11 <= i < 27 && Bit(id, i);
      ShiftRightBit(id, 11, i - 11);
      OnesBit(16, i - 11);
    }
    if And(x, Pow2(16) - 1) != 0 {
      var i: nat :| Bit(x, i) && Bit(Pow2(16) - 1, i);
      ShiftRightBit(id, 11, i);
      OnesBit(16, i);
    }
  }

  /** The bytes of a word that is the identifier with or without bit 31. */
  lemma WordBytes(id: nat, w: nat)
    requires w < 0x1_0000_0000 && (w == id || w == id + 0x8000_0000)
    ensures var p := PackWord(w);
            && p[0] == LowByte(id) && p[1] == LowByte(id / 0x100) && p[2] == LowByte(id / 0x1_0000)
            && p[3] % 0x80 == id / 0x100_0000 % 0x80 && (p[3] >= 0x80 <==> w >= 0x8000_0000)
  {
    LastByte(w);
    TopByte(id, w);
    if w != id {
      DivUnique(w, 0x100, id / 0x100 + 0x100 * 0x8000, id % 0x100);
      DivUnique(w, 0x1_0000, id / 0x1_0000 + 0x100 * 0x80, id % 0x1_0000);
      SameLowByte(id / 0x100, 0x8000);
      SameLowByte(id / 0x1_0000, 0x80);
    }
  }

  lemma TopByte(id: nat, w: nat)
    requires w < 0x1_0000_0000 && (w == id || w == id + 0x8000_0000)
    ensures w / 0x100_0000 % 0x80 == id / 0x100_0000 % 0x80 && (w / 0x100_0000 >= 0x80 <==> w >= 0x8000_0000)
  {
    if w != id {
      DivUnique(w, 0x100_0000, id / 0x100_0000 + 0x80, id % 0x100_0000);
      DivUnique(id / 0x100_0000 + 0x80, 0x80, 1, id / 0x100_0000);
    }
  }

  lemma SameLowByte(x: nat, m: nat)
    ensures LowByte(x + 0x100 * m) == LowByte(x)
  {
    DivUnique(x + 0x100 * m, 0x100, x / 0x100 + m, x % 0x100);
  }

  /** The bytes on the wire: the identifier from its low byte up, with the extended flag in the top
      bit, asked for or implied by identifier bits 11 to 26; the length; three zeros; the data, and
      zeros up to the end. */
  lemma EncodeLayout(f: Frame)
    requires Sendable(f)
    ensures Encode(f).Bytes?
    ensures var p := Encode(f).bytes;
            && |p| == 16
            && p[0] == f.id % 0x100 && p[1] == f.id / 0x100 % 0x100 && p[2] == f.id / 0x1_0000 % 0x100
            && p[3] % 0x80 == f.id / 0x100_0000 % 0x80
            && (p[3] >= 0x80 <==> f.extended || f.id / 0x800 % 0x1_0000 != 0 || f.id >= 0x8000_0000)
            && p[4] == |f.data| && p[5..8] == [0, 0, 0]
            && p[8..8 + |f.data|] == f.data && forall i :: 8 + |f.data| <= i < 16 ==> p[i] == 0
  {
    EncodePieces(f);
    var p, word := Encode(f).bytes, HeaderWord(f.id, f.extended);
    ExtensionBits(f.id);
    OrFlag(f.id);
    WordBytes(f.id, word);
    assert p[..4][0] == p[0] && p[..4][1] == p[1] && p[..4][2] == p[2] && p[..4][3] == p[3];
  }

  /** And what is read from any 16 bytes. */
  lemma DecodeLayout(cf: seq<Byte>)
    requires |cf| == 16
    ensures var b0: nat, b1: nat, b2: nat, b3: nat := cf[0], cf[1], cf[2], cf[3];
            && Decode(cf).id == b0 + 0x100 * b1 + 0x1_0000 * b2 + 0x100_0000 * (b3 % 0x20)
            && (Decode(cf).extended <==> b3 >= 0x80)
    ensures Decode(cf).data == cf[8..if cf[4] <= 8 then 8 + cf[4] else 16]
  {
    var word := UnpackWord(cf);
    IdMasked(word);
    WordRead(cf[0], cf[1], cf[2], cf[3], word);
    Pow2Values();
    HasFlag(word, 31);
    BitIsDigit(word, 31);
  }

  lemma WordRead(b0: nat, b1: nat, b2: nat, b3: nat, w: nat)
    requires b0 < 0x100 && b1 < 0x100 && b2 < 0x100 && b3 < 0x100
    requires w == b0 + 0x100 * b1 + 0x1_0000 * b2 + 0x100_0000 * b3
    ensures w % 0x2000_0000 == b0 + 0x100 * b1 + 0x1_0000 * b2 + 0x100_0000 * (b3 % 0x20)
    ensures w / 0x8000_0000 % 2 == 1 <==> b3 >= 0x80
  {
    DivUnique(w, 0x2000_0000, b3 / 0x20, b0 + 0x100 * b1 + 0x1_0000 * b2 + 0x100_0000 * (b3 % 0x20));
  }

  /** What arrives when `f` is sent: the low 29 identifier bits, the data, and the flag if it was
      asked for, implied, or already in bit 31 of the identifier. */
  lemma DecodeEncode(f: Frame)
    requires Sendable(f)
    ensures Encode(f).Bytes?
    ensures Decode(Encode(f).bytes) == Received(f)
  {
    EncodePieces(f);
    HeaderWordId(f.id, f.extended);
    HeaderWordFlag(f.id, f.extended, 31);
  }

  lemma HeaderWordFlag(id: nat, extended: bool, i: nat)
    requires i == 31
    ensures And(HeaderWord(id, extended), CAN_EFF_FLAG) != 0
       <==> Flagged(id, extended) || And(id, CAN_EFF_FLAG) != 0
  {
    HasFlag(HeaderWord(id, extended), i);
    HasFlag(id, i);
    HeaderWordBits(id, extended, i);
  }

  function Received(f: Frame): (r: Frame)
    ensures r.id < 0x2000_0000 && r.data == f.data
  {
    IdMasked(f.id);
    Frame(And(f.id, CAN_ID_MASK), f.data, Flagged(f.id, f.extended) || And(f.id, CAN_EFF_FLAG) != 0)
  }

  /** The frame that comes out of a relay hop for a frame with a 29-bit identifier. */
  function Canonical(f: Frame): Frame {
    f.(extended := Flagged(f.id, f.extended))
  }

  /** For 29-bit identifiers nothing but the implied flag changes on the way. */
  lemma ReceivedIsCanonical(f: Frame)
    requires f.id < 0x2000_0000
    ensures Received(f) == Canonical(f)
  {
    SmallIdKept(f.id);
    SmallId(f.id, 31);
  }

  /** Identifiers below 2^29, up to 8 data bytes and the (possibly implied) flag all come back. */
  lemma RoundTrip(f: Frame)
    requires f.id < 0x2000_0000 && |f.data| <= 8
    ensures Encode(f).Bytes? && Decode(Encode(f).bytes) == Canonical(f)
  {
    DecodeEncode(f);
    ReceivedIsCanonical(f);
  }

  lemma SmallId(id: nat, i: nat)
    requires id < 0x2000_0000 && i == 31
    ensures And(id, CAN_EFF_FLAG) == 0
  {
    Pow2Values();
    HighBitsClear(id, 29, i);
    HasFlag(id, i);
  }

  /** Any 16 bytes decode to a frame whose identifier has 29 bits. */
  lemma DecodedFits(cf: seq<Byte>)
    requires |cf| == FRAME_SIZE
    ensures Decode(cf).id < 0x2000_0000 && |Decode(cf).data| <= 8
  {
    IdMasked(UnpackWord(cf));
  }

  lemma CanonicalEncoding(f: Frame)
    requires f.id < 0x2000_0000
    ensures Encode(Canonical(f)) == Encode(f)
  {
  }

  /** One relay hop: receive 16 bytes, send the frame they spell. */
  function Hop(cf: seq<Byte>): (r: seq<Byte>)
    requires |cf| == FRAME_SIZE
    ensures |r| == FRAME_SIZE
  {
    DecodedFits(cf);
    EncodeSucceeds(Decode(cf));
    Encode(Decode(cf)).bytes
  }

  function Hops(cf: seq<Byte>, n: nat): (r: seq<Byte>)
    requires |cf| == FRAME_SIZE
    ensures |r| == FRAME_SIZE
  {
    if n == 0 then cf else Hop(Hops(cf, n - 1))
  }

  /** The relay normalises: on any 16 bytes, a second hop changes nothing. */
  lemma HopIdempotent(cf: seq<Byte>)
    requires |cf| == FRAME_SIZE
    ensures Hop(Hop(cf)) == Hop(cf)
    ensures Decode(Hop(cf)) == Canonical(Decode(cf))
  {
    DecodedFits(cf);
    RoundTrip(Decode(cf));
    CanonicalEncoding(Decode(cf));
  }

  /** However many relays a frame crosses, its bytes are those after the first. */
  lemma {:induction false} ManyHops(cf: seq<Byte>, n: nat)
    requires |cf| == FRAME_SIZE && n >= 1
    ensures Hops(cf, n) == Hop(cf)
  {
    if n > 1 {
      ManyHops(cf, n - 1);
      HopIdempotent(cf);
    } else {
      assert Hops(cf, 0) == cf;
    }
  }

  /** A hop leaves what a sender wrote byte-identical if and only if identifier bits 29 and 30
      are clear: those the receiver masks off and cannot send again. */
  lemma HopKeepsEncoding(f: Frame)
    requires Sendable(f)
    ensures Encode(f).Bytes?
    ensures Hop(Encode(f).bytes) == Encode(f).bytes <==> And(f.id, CAN_SPARE_BITS) == 0
  {
    DecodeEncode(f);
    var d := Received(f);
    SamePayload(f, d);
    SameHeaderWord(f, 29);
    EncodeSucceeds(d);
    assert Hop(Encode(f).bytes) == Encode(d).bytes;
  }

  /** Two frames with the same data are packed alike exactly when their identifier words agree. */
  lemma SamePayload(f: Frame, d: Frame)
    requires Sendable(f) && d.id < 0x2000_0000 && d.data == f.data
    ensures Encode(f) == Encode(d) <==> HeaderWord(f.id, f.extended) == HeaderWord(d.id, d.extended)
  {
    var word, word' := HeaderWord(f.id, f.extended), HeaderWord(d.id, d.extended);
    HeaderWordFits(f.id, f.extended);
    HeaderWordFits(d.id, d.extended);
    PackUnpack(word);
    PackUnpack(word');
    assert Encode(f).bytes[..4] == PackWord(word) && Encode(d).bytes[..4] == PackWord(word');
  }

  lemma SameHeaderWord(f: Frame, i: nat)
    requires Sendable(f) && i == 29
    ensures var d := Received(f);
            HeaderWord(f.id, f.extended) == HeaderWord(d.id, d.extended) <==> And(f.id, CAN_SPARE_BITS) == 0
  {
    var d := Received(f);
    var word, word' := HeaderWord(f.id, f.extended), HeaderWord(d.id, d.extended);
    HasSpare(f.id, i);
    HopWordBits(f, i);
    HopWordBits(f, i + 1);
    HeaderWordBits(f.id, f.extended, i);
    HeaderWordBits(f.id, f.extended, i + 1);
    if And(f.id, CAN_SPARE_BITS) == 0 {
      forall j: nat
        ensures Bit(word', j) <==> Bit(word, j)
      {
        HopWordBits(f, j);
        HeaderWordBits(f.id, f.extended, j);
      }
      SameBits(word, word');
    }
  }

  lemma HopWordBits(f: Frame, i: nat)
    requires Sendable(f)
    ensures var d := Received(f);
            Bit(HeaderWord(d.id, d.extended), i)
            <==> Bit(HeaderWord(f.id, f.extended), i) && i != 29 && i != 30
  {
    var d := Received(f);
    HeaderWordBits(d.id, d.extended, i);
    HeaderWordBits(f.id, f.extended, i);
    AndBit(f.id, CAN_ID_MASK, i);
    IdMaskBit(i);
    FlaggedMasked(f.id, d.extended);
    FlaggedMasked(f.id, false);
    if i == 31 { HasFlag(f.id, i); }
    if i >= 32 {
      Pow2Values();
      HighBitsClear(f.id, 32, i);
    }
  }
}
