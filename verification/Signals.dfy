/** Signals of a CAN message and how they share its payload: an integer in which every signal
    occupies the bits of its mask. */
module Signals {
  import opened Wrappers
  import opened Bits

  /** A signal as the message database describes it. */
  datatype Signal = Signal(
    name: string,
    start: nat,
    length: nat,
    scale: real,
    offset: Option<real>,
    choices: bool,                 // has named values
    isMultiplexer: bool,
    muxIds: Option<set<nat>>)      // the selector values it is active under

  datatype SignalProperties = SignalProperties(
    name: string, mask: nat, bitOffset: nat, scale: real, offset: real, choices: bool)

  /** `build_signal_properties`. */
  function BuildSignalProperties(sig: Signal): SignalProperties {
    var ones := ShiftLeft(1, sig.length) - 1;
    SignalProperties(sig.name, ShiftLeft(ones, sig.start), sig.start, sig.scale,
                     if sig.offset.Some? then sig.offset.value else 0.0, sig.choices)
  }

  predicate Active(sig: Signal, selector: Option<nat>) {
    selector.None? || sig.muxIds.None? || selector.value in sig.muxIds.value
  }

  /** `extract_signal_properties`. */
  function ExtractSignalProperties(signals: seq<Signal>, selector: Option<nat>): (props: seq<SignalProperties>)
    ensures |props| <= |signals|
  {
    if signals == [] then []
    else
      var last := signals[|signals| - 1];
      ExtractSignalProperties(signals[..|signals| - 1], selector)
      + (if Active(last, selector) then [BuildSignalProperties(last)] else [])
  }

  /** The properties of exactly the active signals. */
  lemma {:induction false} ExtractedAreActive(signals: seq<Signal>, selector: Option<nat>, p: SignalProperties)
    ensures p in ExtractSignalProperties(signals, selector)
       <==> exists k ::
              && 0 <= k < |signals| && p == BuildSignalProperties(signals[k])
              && (selector == None || signals[k].muxIds == None || selector.value in signals[k].muxIds.value)
  {
    if signals != [] {
      var front, last := signals[..|signals| - 1], signals[|signals| - 1];
      ExtractedAreActive(front, selector, p);
      if p in ExtractSignalProperties(front, selector) {
        var k :| 0 <= k < |front| && Active(front[k], selector) && p == BuildSignalProperties(front[k]);
        assert signals[k] == front[k];
      }
      if k :| 0 <= k < |signals| && Active(signals[k], selector) && p == BuildSignalProperties(signals[k]) {
        assert k < |front| ==> front[k] == signals[k];
      }
    }
  }

  // ---------------------------------------------------------------- masks

  /** The `n` bits from bit `offset` up. */
  function Field(n: nat, offset: nat): nat {
    ShiftLeft(Pow2(n) - 1, offset)
  }

  lemma FieldBit(n: nat, offset: nat, i: nat)
    ensures Bit(Field(n, offset), i) <==> offset <= i < offset + n
  {
    ShiftLeftBit(Pow2(n) - 1, offset, i);
    if i >= offset { OnesBit(n, i - offset); }
  }

  /** The mask is the run of `length` bits from `start`, and its bit count is the length. */
  lemma MaskIsField(sig: Signal)
    ensures BuildSignalProperties(sig).mask == Field(sig.length, sig.start)
    ensures BitCount(BuildSignalProperties(sig).mask) == sig.length
  {
    ShiftLeftPow2(1, sig.length);
    BitCountOnes(sig.length);
    BitCountShift(Pow2(sig.length) - 1, sig.start);
  }

  /** What is taken over from the message database as it is. */
  lemma BuiltAs(sig: Signal, i: nat)
    ensures var p := BuildSignalProperties(sig);
            && p.name == sig.name && p.bitOffset == sig.start && p.scale == sig.scale && p.choices == sig.choices
            && p.offset == (if sig.offset == None then 0.0 else sig.offset.value)
            && (Bit(p.mask, i) <==> sig.start <= i < sig.start + sig.length)
  {
    MaskIsField(sig);
    FieldBit(sig.length, sig.start, i);
  }

  /** What the encoder and decoder get out of a message database: the mask is one run of bits,
      starting at the offset. */
  predicate Contiguous(p: SignalProperties) {
    p.mask == Field(BitCount(p.mask), p.bitOffset)
  }

  lemma BuiltIsContiguous(sig: Signal)
    ensures Contiguous(BuildSignalProperties(sig))
  {
    MaskIsField(sig);
  }

  ghost predicate Disjoint(p: SignalProperties, q: SignalProperties) {
    NoSharedBit(p.mask, q.mask)
  }

  // ---------------------------------------------------------------- packing

  /** A raw value that fits the signal's length. */
  predicate Fits(p: SignalProperties, raw: nat) {
    raw < Pow2(BitCount(p.mask))
  }

  predicate AllFit(props: seq<SignalProperties>, raws: seq<Option<nat>>) {
    |raws| == |props| && forall k :: 0 <= k < |props| && raws[k].Some? ==> Fits(props[k], raws[k].value)
  }

  /** One signal's share of the payload. */
  function Share(p: SignalProperties, raw: Option<nat>): nat {
    if raw.None? then 0 else And(ShiftLeft(raw.value, p.bitOffset), p.mask)
  }

  /** The payload that carries the given raw values, absent ones left out. */
  function Pack(props: seq<SignalProperties>, raws: seq<Option<nat>>): nat
    requires |raws| == |props|
  {
    if props == [] then 0
    else
      var n := |props| - 1;
      Or(Pack(props[..n], raws[..n]), Share(props[n], raws[n]))
  }

  /** What the decoder reads at a signal's place. */
  function Extract(x: nat, p: SignalProperties): nat {
    ShiftRight(And(x, p.mask), p.bitOffset)
  }

  lemma ShareBit(p: SignalProperties, raw: Option<nat>, i: nat)
    ensures Bit(Share(p, raw), i)
       <==> raw.Some? && i >= p.bitOffset && Bit(raw.value, i - p.bitOffset) && Bit(p.mask, i)
  {
    if raw.None? {
      ZeroBit(i);
    } else {
      AndBit(ShiftLeft(raw.value, p.bitOffset), p.mask, i);
      ShiftLeftBit(raw.value, p.bitOffset, i);
    }
  }

  /** A bit of the payload is set exactly if some signal's share sets it. */
  lemma {:induction false} PackBit(props: seq<SignalProperties>, raws: seq<Option<nat>>, i: nat)
    requires |raws| == |props|
    ensures Bit(Pack(props, raws), i) <==> exists k :: 0 <= k < |props| && Bit(Share(props[k], raws[k]), i)
  {
    if props == [] {
      ZeroBit(i);
    } else {
      var n := |props| - 1;
      PackBit(props[..n], raws[..n], i);
      OrBit(Pack(props[..n], raws[..n]), Share(props[n], raws[n]), i);
      if k :| 0 <= k < |props| && Bit(Share(props[k], raws[k]), i) {
        assert k < n ==> props[..n][k] == props[k] && raws[..n][k] == raws[k];
      }
    }
  }

  lemma ExtractBit(x: nat, p: SignalProperties, i: nat)
    ensures Bit(Extract(x, p), i) <==> Bit(x, i + p.bitOffset) && Bit(p.mask, i + p.bitOffset)
  {
    ShiftRightBit(And(x, p.mask), p.bitOffset, i);
    AndBit(x, p.mask, i + p.bitOffset);
  }

  /** Signal `k` shares no bit with any other signal that is present. */
  ghost predicate Alone(props: seq<SignalProperties>, raws: seq<Option<nat>>, k: nat)
    requires k < |props| == |raws|
  {
    forall j :: 0 <= j < |props| && j != k && raws[j].Some? ==> Disjoint(props[j], props[k])
  }

  lemma {:induction false} OnlyOwnShare(props: seq<SignalProperties>, raws: seq<Option<nat>>, k: nat, i: nat)
    requires k < |props| == |raws| && Alone(props, raws, k) && Bit(props[k].mask, i)
    ensures Bit(Pack(props, raws), i) <==> Bit(Share(props[k], raws[k]), i)
  {
    PackBit(props, raws, i);
    forall j | 0 <= j < |props| && Bit(Share(props[j], raws[j]), i)
      ensures j == k
    {
      ShareBit(props[j], raws[j], i);
    }
  }

  lemma FitBit(p: SignalProperties, raw: nat, i: nat)
    requires Contiguous(p) && Fits(p, raw)
    ensures Bit(raw, i) ==> Bit(p.mask, i + p.bitOffset)
  {
    FieldBit(BitCount(p.mask), p.bitOffset, i + p.bitOffset);
    if i >= BitCount(p.mask) { HighBitsClear(raw, BitCount(p.mask), i); }
  }

  /** A signal reads back exactly what was packed at its place, and 0 if it was absent. */
  lemma {:induction false} ReadBack(props: seq<SignalProperties>, raws: seq<Option<nat>>, k: nat)
    requires k < |props| == |raws| && Alone(props, raws, k)
    requires Contiguous(props[k]) && (raws[k].Some? ==> Fits(props[k], raws[k].value))
    ensures Extract(Pack(props, raws), props[k]) == if raws[k].Some? then raws[k].value else 0
  {
    var p, x := props[k], Pack(props, raws);
    var raw := if raws[k].Some? then raws[k].value else 0;
    forall i: nat
      ensures Bit(Extract(x, p), i) <==> Bit(raw, i)
    {
      ExtractBit(x, p, i);
      ZeroBit(i);
      if Bit(p.mask, i + p.bitOffset) {
        OnlyOwnShare(props, raws, k, i + p.bitOffset);
        ShareBit(p, raws[k], i + p.bitOffset);
      } else if raws[k].Some? {
        FitBit(p, raw, i);
      }
    }
    SameBits(Extract(x, p), raw);
  }

  ghost predicate AllDisjoint(props: seq<SignalProperties>) {
    forall j, k :: 0 <= j < k < |props| ==> Disjoint(props[j], props[k])
  }

  predicate AllContiguous(props: seq<SignalProperties>) {
    forall k :: 0 <= k < |props| ==> Contiguous(props[k])
  }

  /** Every signal reads back what was packed, 0 for an absent one. */
  ghost predicate ReadsBack(props: seq<SignalProperties>, raws: seq<Option<nat>>)
    requires |raws| == |props|
  {
    forall k :: 0 <= k < |props| ==>
      Extract(Pack(props, raws), props[k]) == if raws[k].Some? then raws[k].value else 0
  }

  /** No signal disturbs another, whatever is packed, if and only if no two masks overlap. */
  lemma {:induction false} RoundTripIffDisjoint(props: seq<SignalProperties>)
    requires AllContiguous(props)
    ensures (forall raws: seq<Option<nat>> :: AllFit(props, raws) ==> ReadsBack(props, raws)) <==> AllDisjoint(props)
  {
    if AllDisjoint(props) {
      forall raws: seq<Option<nat>>, k | AllFit(props, raws) && 0 <= k < |props|
        ensures Extract(Pack(props, raws), props[k]) == if raws[k].Some? then raws[k].value else 0
      {
        ReadBack(props, raws, k);
      }
    } else {
      var j, k :| 0 <= j < k < |props| && !Disjoint(props[j], props[k]);
      var raws := OnlyFull(props, j);
      OverlapDisturbs(props, j, k);
      assert AllFit(props, raws) && !ReadsBack(props, raws);
    }
  }

  /** Signal `j` at its largest value, and nothing else. */
  function OnlyFull(props: seq<SignalProperties>, j: nat): (raws: seq<Option<nat>>)
    requires j < |props|
    ensures AllFit(props, raws) && raws[j] == Some(Pow2(BitCount(props[j].mask)) - 1)
    ensures forall k :: 0 <= k < |raws| && k != j ==> raws[k].None?
  {
    seq(|props|, i requires 0 <= i < |props| => if i == j then Some(Pow2(BitCount(props[j].mask)) - 1) else None)
  }

  lemma {:induction false} OverlapDisturbs(props: seq<SignalProperties>, j: nat, k: nat)
    requires j < |props| && k < |props| && j != k && AllContiguous(props) && !Disjoint(props[j], props[k])
    ensures Extract(Pack(props, OnlyFull(props, j)), props[k]) != 0
  {
    var raws := OnlyFull(props, j);
    var i: nat :| Bit(props[j].mask, i) && Bit(props[k].mask, i);
    var n := BitCount(props[j].mask);
    FieldBit(n, props[j].bitOffset, i);
    FieldBit(BitCount(props[k].mask), props[k].bitOffset, i);
    OnesBit(n, i - props[j].bitOffset);
    ShareBit(props[j], raws[j], i);
    PackBit(props, raws, i);
    ExtractBit(Pack(props, raws), props[k], i - props[k].bitOffset);
    ZeroBit(i - props[k].bitOffset);
  }

  // ---------------------------------------------------------------- size

  /** Masks within the first `n` bits keep the payload below `2^n`. */
  lemma {:induction false} PackFits(props: seq<SignalProperties>, raws: seq<Option<nat>>, n: nat)
    requires |raws| == |props| && forall k :: 0 <= k < |props| && raws[k].Some? ==> props[k].mask < Pow2(n)
    ensures Pack(props, raws) < Pow2(n)
  {
    forall i: nat | i >= n
      ensures !Bit(Pack(props, raws), i)
    {
      PackBit(props, raws, i);
      forall k | 0 <= k < |props|
        ensures !Bit(Share(props[k], raws[k]), i)
      {
        ShareBit(props[k], raws[k], i);
        if raws[k].Some? { HighBitsClear(props[k].mask, n, i); }
      }
    }
    BoundFromBits(Pack(props, raws), n);
  }

  /** An extracted value always fits the signal it was extracted for. */
  lemma ExtractFits(x: nat, p: SignalProperties)
    requires Contiguous(p)
    ensures Fits(p, Extract(x, p))
  {
    forall i: nat | i >= BitCount(p.mask)
      ensures !Bit(Extract(x, p), i)
    {
      ExtractBit(x, p, i);
      FieldBit(BitCount(p.mask), p.bitOffset, i + p.bitOffset);
    }
    BoundFromBits(Extract(x, p), BitCount(p.mask));
  }

  // ---------------------------------------------------------------- bytes

  /** `int.to_bytes(n, "little")`, for a number that fits. */
  function ToBytes(x: nat, n: nat): (bytes: seq<nat>)
    ensures |bytes| == n && forall k :: 0 <= k < n ==> bytes[k] < 256
  {
    if n == 0 then [] else [x % 256] + ToBytes(x / 256, n - 1)
  }

  /** `int.from_bytes(bytes, "little")`. */
  function FromBytes(bytes: seq<nat>): nat {
    if bytes == [] then 0 else bytes[0] + 256 * FromBytes(bytes[1..])
  }

  lemma {:induction false} ShiftedByte(x: nat, n: nat, k: nat)
    requires k < n
    ensures ToBytes(x, n)[k] == ShiftRight(x, 8 * k) % 256
    decreases k
  {
    if k > 0 {
      ShiftedByte(x / 256, n - 1, k - 1);
      ShiftRightTwice(x, 8, 8 * (k - 1));
      Pow2Values();
      ShiftRightDiv(x, 8);
    }
  }

  /** Byte `k` of a number has weight `256^k`. */
  lemma ByteAt(x: nat, n: nat, k: nat)
    requires k < n
    ensures ToBytes(x, n)[k] == x / Pow2(8 * k) % 256
  {
    ShiftedByte(x, n, k);
    ShiftRightDiv(x, 8 * k);
  }

  /** Bit `i` of the number some bytes stand for is bit `i % 8` of byte `i / 8`. */
  lemma {:induction false} BitOfBytes(bytes: seq<nat>, i: nat)
    requires forall k :: 0 <= k < |bytes| ==> bytes[k] < 256
    ensures Bit(FromBytes(bytes), i) <==> i / 8 < |bytes| && Bit(bytes[i / 8], i % 8)
    decreases |bytes|
  {
    Pow2Values();
    if bytes == [] {
      ZeroBit(i);
    } else {
      BitAppend(bytes[0], FromBytes(bytes[1..]), 8, i);
      if i >= 8 { BitOfBytes(bytes[1..], i - 8); }
    }
  }

  /** So a signal is read from its own bits of the payload, the lowest first. */
  lemma ReadFrom(bytes: seq<nat>, sig: Signal, i: nat)
    requires forall k :: 0 <= k < |bytes| ==> bytes[k] < 256
    ensures Bit(Extract(FromBytes(bytes), BuildSignalProperties(sig)), i) <==>
      var j := sig.start + i; i < sig.length && j / 8 < |bytes| && Bit(bytes[j / 8], j % 8)
  {
    var p := BuildSignalProperties(sig);
    ExtractBit(FromBytes(bytes), p, i);
    BuiltAs(sig, i + p.bitOffset);
    BitOfBytes(bytes, sig.start + i);
  }

  lemma {:induction false} BytesRoundTrip(x: nat, n: nat)
    requires x < Pow2(8 * n)
    ensures FromBytes(ToBytes(x, n)) == x
    decreases n
  {
    if n > 0 {
      assert Pow2(8) == 256 by { Pow2Values(); }
      Pow2Add(8, 8 * (n - 1));
      assert x / 256 < Pow2(8 * (n - 1));
      BytesRoundTrip(x / 256, n - 1);
      assert ToBytes(x, n)[1..] == ToBytes(x / 256, n - 1);
    }
  }
}
