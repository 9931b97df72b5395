/** Packing a dictionary of signal values into the payload of a frame. */
module Encoder {
  import opened Wrappers
  import opened Bits
  import opened Signals
  import opened Scaling

  datatype SignalValue = Number(x: real) | Text(s: string)

  datatype Error = AssertionError | ZeroDivisionError | OverflowError | KeyError

  datatype Result<T> = Ok(value: T) | Err(error: Error)

  /** The raw value `encode` packs for one signal, or the exception it raises. A named value is
      looked up only for a signal without named values, which an assertion then rejects. */
  function RawOf(p: SignalProperties, v: SignalValue, namedValues: Option<bool>): Result<nat> {
    var isNamed := !p.choices && (if namedValues.Some? then namedValues.value else v.Text?);
    if isNamed || v.Text? then Err(AssertionError)
    else if p.scale == 0.0 then Err(ZeroDivisionError)
    else
      var raw := ToRaw(v.x, p.scale, p.offset);
      if 0 <= raw < Pow2(BitCount(p.mask)) then Ok(raw) else Err(OverflowError)
  }

  /** Which value gets which raw value, and which error: a text or a number that is to be looked up
      fails an assertion, a scale of zero is a division by it, and the rest is the number without
      its offset over the scale, rounded toward zero, which must fit. */
  lemma RawOfMeans(p: SignalProperties, v: SignalValue, namedValues: Option<bool>)
    ensures v.Text? ==> RawOf(p, v, namedValues) == Err(AssertionError)
    ensures v.Number? && !p.choices && namedValues == Some(true) ==> RawOf(p, v, namedValues) == Err(AssertionError)
    ensures v.Number? && (p.choices || namedValues != Some(true)) && p.scale == 0.0 ==>
      RawOf(p, v, namedValues) == Err(ZeroDivisionError)
    ensures v.Number? && (p.choices || namedValues != Some(true)) && p.scale != 0.0 ==>
      var raw := Trunc((v.x - p.offset) / p.scale);
      RawOf(p, v, namedValues) == if 0 <= raw < Pow2(BitCount(p.mask)) then Ok(raw) else Err(OverflowError)
  {
  }

  /** The same for a signal that may be missing from the dictionary. */
  function RawAt(p: SignalProperties, payload: map<string, SignalValue>, namedValues: Option<bool>): Result<Option<nat>> {
    if p.name !in payload then Ok(None)
    else match RawOf(p, payload[p.name], namedValues)
         case Ok(raw) => Ok(Some(raw))
         case Err(e) => Err(e)
  }

  predicate Accepted(props: seq<SignalProperties>, payload: map<string, SignalValue>, namedValues: Option<bool>) {
    forall k :: 0 <= k < |props| ==> RawAt(props[k], payload, namedValues).Ok?
  }

  /** The raw values of a dictionary the encoder accepts. */
  function Raws(props: seq<SignalProperties>, payload: map<string, SignalValue>, namedValues: Option<bool>): (raws: seq<Option<nat>>)
    ensures |raws| == |props|
    ensures forall k :: 0 <= k < |props| ==>
      raws[k] == var r := RawAt(props[k], payload, namedValues); if r.Ok? then r.value else None
  {
    seq(|props|, k requires 0 <= k < |props| =>
      var r := RawAt(props[k], payload, namedValues); if r.Ok? then r.value else None)
  }

  lemma {:induction false} RawsFit(props: seq<SignalProperties>, payload: map<string, SignalValue>, namedValues: Option<bool>)
    ensures AllFit(props, Raws(props, payload, namedValues))
  {
    forall k | 0 <= k < |props| && Raws(props, payload, namedValues)[k].Some?
      ensures Fits(props[k], Raws(props, payload, namedValues)[k].value)
    {
      assert RawAt(props[k], payload, namedValues).Ok?;
    }
  }

  /** Signal `k` is the first one the encoder cannot take, and `e` is what it raises. */
  predicate FirstError(props: seq<SignalProperties>, payload: map<string, SignalValue>, namedValues: Option<bool>, k: nat, e: Error) {
    k < |props| && RawAt(props[k], payload, namedValues) == Err(e) && Accepted(props[..k], payload, namedValues)
  }

  /** What the encoder's bytes are, when it accepts the dictionary. */
  predicate Encodes(props: seq<SignalProperties>, payload: map<string, SignalValue>, namedValues: Option<bool>, bytes: seq<nat>) {
    && Accepted(props, payload, namedValues)
    && FromBytes(bytes) == Pack(props, Raws(props, payload, namedValues))
  }

  /** One signal's turn: the raw value to pack. */
  method Convert(p: SignalProperties, v: SignalValue, namedValues: Option<bool>) returns (r: Result<nat>)
    ensures r == RawOf(p, v, namedValues)
  {
    var isNamed := if p.choices then false else if namedValues.Some? then namedValues.value else v.Text?;
    var value;
    if isNamed {
      // The signal has no named values here, so there is nothing to look the name up in.
      return Err(AssertionError);
    } else {
      if v.Text? {
        return Err(AssertionError);
      }
      if p.scale == 0.0 {
        return Err(ZeroDivisionError);
      }
      value := Trunc((v.x - p.offset) / p.scale);
    }
    var signalLength := BitCount(p.mask);
    var maxValue := Pow2(signalLength) - 1;
    if value < 0 || value > maxValue {
      return Err(OverflowError);
    }
    return Ok(value);
  }

  /** One signal's turn of the loop: its share joins the accumulator. */
  method EncodeNext(p: SignalProperties, payload: map<string, SignalValue>, namedValues: Option<bool>, encodedMessage: nat)
    returns (r: Result<nat>)
    ensures var raw := RawAt(p, payload, namedValues);
            if raw.Err? then r == Err(raw.error) else r == Ok(Or(encodedMessage, Share(p, raw.value)))
  {
    if p.name !in payload {
      OrZero(encodedMessage);
      return Ok(encodedMessage);
    }
    var converted := Convert(p, payload[p.name], namedValues);
    if converted.Err? {
      return Err(converted.error);
    }
    return Ok(Or(encodedMessage, And(ShiftLeft(converted.value, p.bitOffset), p.mask)));
  }

  /** The loop of `encode`; `bad` is the signal it stops at, if any. */
  method PackAll(payload: map<string, SignalValue>, props: seq<SignalProperties>, namedValues: Option<bool>)
    returns (r: Result<nat>, ghost bad: nat)
    ensures r.Ok? ==> Accepted(props, payload, namedValues) && r.value == Pack(props, Raws(props, payload, namedValues))
    ensures r.Err? ==> FirstError(props, payload, namedValues, bad, r.error)
  {
    var encodedMessage := 0;
    bad := 0;
    ghost var raws := Raws(props, payload, namedValues);
    for i := 0 to |props|
      invariant forall k :: 0 <= k < i ==> RawAt(props[k], payload, namedValues).Ok?
      invariant encodedMessage == Pack(props[..i], raws[..i])
    {
      PackNext(props, raws, i);
      var next := EncodeNext(props[i], payload, namedValues, encodedMessage);
      if next.Err? {
        return Err(next.error), i;
      }
      encodedMessage := next.value;
    }
    assert props[..|props|] == props && raws[..|props|] == raws;
    r := Ok(encodedMessage);
  }

  lemma {:induction false} FirstErrorRejects(props: seq<SignalProperties>, payload: map<string, SignalValue>, namedValues: Option<bool>, k: nat, e: Error)
    requires FirstError(props, payload, namedValues, k, e)
    ensures !Accepted(props, payload, namedValues)
  {
    assert RawAt(props[k], payload, namedValues).Err?;
  }

  /** `encode`: succeeds exactly when every named signal has a raw value and the whole fits the
      length, and then its bytes are the packed raw values. */
  method Encode(payload: map<string, SignalValue>, props: seq<SignalProperties>, dlc: nat, namedValues: Option<bool>)
    returns (r: Result<seq<nat>>)
    ensures r.Ok? <==> Accepted(props, payload, namedValues) && Pack(props, Raws(props, payload, namedValues)) < Pow2(8 * dlc)
    ensures r.Ok? ==> |r.value| == dlc && Encodes(props, payload, namedValues, r.value)
    ensures r.Ok? ==> forall k :: 0 <= k < dlc ==> r.value[k] < 256
    ensures r.Err? && !Accepted(props, payload, namedValues) ==> exists k :: FirstError(props, payload, namedValues, k, r.error)
    ensures r.Err? && Accepted(props, payload, namedValues) ==> r.error.OverflowError?
  {
    ghost var bad;
    var packed;
    packed, bad := PackAll(payload, props, namedValues);
    if packed.Err? {
      FirstErrorRejects(props, payload, namedValues, bad, packed.error);
      return Err(packed.error);
    }
    if packed.value >= Pow2(8 * dlc) {
      return Err(OverflowError);
    }
    BytesRoundTrip(packed.value, dlc);
    return Ok(ToBytes(packed.value, dlc));
  }

  lemma {:induction false} PackNext(props: seq<SignalProperties>, raws: seq<Option<nat>>, i: nat)
    requires i < |props| == |raws|
    ensures Pack(props[..i + 1], raws[..i + 1]) == Or(Pack(props[..i], raws[..i]), Share(props[i], raws[i]))
  {
    assert props[..i + 1][..i] == props[..i] && raws[..i + 1][..i] == raws[..i];
  }

  lemma OrZero(x: nat)
    ensures Or(x, 0) == x
  {
  }

  // ---------------------------------------------------------------- what is accepted

  /** No text value is ever encoded, whatever the signal and the flag. */
  lemma {:induction false} TextIsNeverEncoded(props: seq<SignalProperties>, payload: map<string, SignalValue>, namedValues: Option<bool>, k: nat)
    requires k < |props| && props[k].name in payload && payload[props[k].name].Text?
    ensures !Accepted(props, payload, namedValues)
  {
    assert RawAt(props[k], payload, namedValues).Err?;
  }

  lemma TruncInRange(q: real, n: nat)
    requires n >= 1
    ensures 0 <= Trunc(q) < n <==> -1.0 < q < n as real
  {
    TruncError(q);
  }

  /** A number is accepted if and only if its unrounded raw value lies strictly between -1 and
      the signal's range: out-of-range fractions below zero are rounded into it. */
  lemma AcceptedIff(p: SignalProperties, x: real, namedValues: Option<bool>)
    requires p.choices || namedValues != Some(true)
    ensures RawOf(p, Number(x), namedValues).Ok?
       <==> p.scale != 0.0 && -1.0 < (x - p.offset) / p.scale < Pow2(BitCount(p.mask)) as real
  {
    if p.scale != 0.0 {
      TruncInRange((x - p.offset) / p.scale, Pow2(BitCount(p.mask)));
    }
  }

  /** The last step cannot fail if the signals lie within the message. */
  lemma {:induction false} FitsTheMessage(props: seq<SignalProperties>, payload: map<string, SignalValue>, namedValues: Option<bool>, dlc: nat)
    requires forall k :: 0 <= k < |props| ==> props[k].mask < Pow2(8 * dlc)
    ensures Pack(props, Raws(props, payload, namedValues)) < Pow2(8 * dlc)
  {
    PackFits(props, Raws(props, payload, namedValues), 8 * dlc);
  }
}
