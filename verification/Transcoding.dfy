/** What a built encoder packs, a built decoder for the same message reads back. */
module Transcoding {
  import opened Wrappers
  import opened Bits
  import opened Signals
  import opened Scaling
  import opened Encoder
  import opened Decoder

  predicate DistinctNames(signals: seq<Signal>) {
    forall j, k :: 0 <= j < k < |signals| ==> signals[j].name != signals[k].name
  }

  /** Signals that can be active together do not overlap; others may. */
  ghost predicate ActiveDisjoint(signals: seq<Signal>, selector: Option<nat>) {
    forall j, k :: 0 <= j < |signals| && 0 <= k < |signals| && j != k
                   && Active(signals[j], selector) && Active(signals[k], selector) ==>
      Disjoint(BuildSignalProperties(signals[j]), BuildSignalProperties(signals[k]))
  }

  /** The dictionary names only signals active under the selector. */
  predicate OnlyActive(signals: seq<Signal>, payload: map<string, SignalValue>, selector: Option<nat>) {
    forall k :: 0 <= k < |signals| && signals[k].name in payload ==> Active(signals[k], selector)
  }

  lemma {:induction false} ExtractAll(signals: seq<Signal>)
    ensures var props := ExtractSignalProperties(signals, None);
            |props| == |signals| && forall k :: 0 <= k < |signals| ==> props[k] == BuildSignalProperties(signals[k])
  {
    if signals != [] { ExtractAll(signals[..|signals| - 1]); }
  }

  /** The raw value of signal `k` in the dictionary, or 0. */
  function RawOrZero(signals: seq<Signal>, payload: map<string, SignalValue>, k: nat): nat
    requires k < |signals|
  {
    var p := BuildSignalProperties(signals[k]);
    var r := if p.name in payload then RawOf(p, payload[p.name], None) else Ok(0);
    if r.Ok? then r.value else 0
  }

  lemma {:induction false} RawsAre(signals: seq<Signal>, payload: map<string, SignalValue>, k: nat)
    requires Accepted(ExtractSignalProperties(signals, None), payload, None) && k < |signals|
    ensures var raws := Raws(ExtractSignalProperties(signals, None), payload, None);
            && |raws| == |signals|
            && (raws[k].Some? <==> signals[k].name in payload)
            && RawOrZero(signals, payload, k) == (if raws[k].Some? then raws[k].value else 0)
  {
    ExtractAll(signals);
    assert RawAt(ExtractSignalProperties(signals, None)[k], payload, None).Ok?;
  }

  lemma {:induction false} ActiveIsAlone(signals: seq<Signal>, selector: Option<nat>, payload: map<string, SignalValue>, k: nat)
    requires ActiveDisjoint(signals, selector) && OnlyActive(signals, payload, selector)
    requires Accepted(ExtractSignalProperties(signals, None), payload, None)
    requires k < |signals| && Active(signals[k], selector)
    ensures var props := ExtractSignalProperties(signals, None);
            |props| == |signals| && Alone(props, Raws(props, payload, None), k)
  {
    var props := ExtractSignalProperties(signals, None);
    ExtractAll(signals);
    forall j | 0 <= j < |props| && j != k && Raws(props, payload, None)[j].Some?
      ensures Disjoint(props[j], props[k])
    {
      RawsAre(signals, payload, j);
    }
  }

  /** Whatever the selector is, an active signal's place in the encoder's bytes holds its raw
      value, although the encoder packs all groups into the same payload. */
  lemma {:induction false} RawRoundTrip(signals: seq<Signal>, selector: Option<nat>, payload: map<string, SignalValue>, bytes: seq<nat>, k: nat)
    requires ActiveDisjoint(signals, selector) && OnlyActive(signals, payload, selector)
    requires Encodes(ExtractSignalProperties(signals, None), payload, None, bytes)
    requires k < |signals| && Active(signals[k], selector)
    ensures Extract(FromBytes(bytes), BuildSignalProperties(signals[k])) == RawOrZero(signals, payload, k)
  {
    var props := ExtractSignalProperties(signals, None);
    ExtractAll(signals);
    BuiltIsContiguous(signals[k]);
    RawsFit(props, payload, None);
    RawsAre(signals, payload, k);
    ActiveIsAlone(signals, selector, payload, k);
    ReadBack(props, Raws(props, payload, None), k);
  }

  /** A signal without an offset has offset 0. */
  function OffsetOf(sig: Signal): real {
    if sig.offset == None then 0.0 else sig.offset.value
  }

  /** The raw value a dictionary gives a signal: the number without its offset over the scale, rounded
      toward zero; 0 for a signal it does not name. */
  ghost predicate IsRaw(sig: Signal, payload: map<string, SignalValue>, raw: int) {
    if sig.name !in payload then raw == 0
    else payload[sig.name].Number? && sig.scale != 0.0 && raw == ToRaw(payload[sig.name].x, sig.scale, OffsetOf(sig))
  }

  lemma {:induction false} RawIs(signals: seq<Signal>, payload: map<string, SignalValue>, k: nat)
    requires Accepted(ExtractSignalProperties(signals, None), payload, None) && k < |signals|
    ensures IsRaw(signals[k], payload, RawOrZero(signals, payload, k))
    ensures RawOrZero(signals, payload, k) < Pow2(signals[k].length)
  {
    ExtractAll(signals);
    assert RawAt(ExtractSignalProperties(signals, None)[k], payload, None).Ok?;
    RawOne(signals[k], payload);
  }

  lemma RawOne(sig: Signal, payload: map<string, SignalValue>)
    requires RawAt(BuildSignalProperties(sig), payload, None).Ok?
    ensures var p := BuildSignalProperties(sig);
            var r := if p.name in payload then RawOf(p, payload[p.name], None) else Ok(0);
            r.Ok? && IsRaw(sig, payload, r.value) && r.value < Pow2(sig.length)
  {
    BuiltAs(sig, 0);
    MaskIsField(sig);
  }

  /** What the encoder puts into the bytes for a number: the raw value that represents it, at the
      signal's own bits, lowest first. */
  lemma {:induction false} EncodedNumber(signals: seq<Signal>, selector: Option<nat>, payload: map<string, SignalValue>,
                                         bytes: seq<nat>, k: nat) returns (raw: nat)
    requires ActiveDisjoint(signals, selector) && OnlyActive(signals, payload, selector)
    requires Encodes(ExtractSignalProperties(signals, None), payload, None, bytes)
    requires forall j :: 0 <= j < |bytes| ==> bytes[j] < 256
    requires k < |signals| && Active(signals[k], selector) && signals[k].name in payload
    ensures payload[signals[k].name].Number? && signals[k].scale != 0.0 && raw < Pow2(signals[k].length)
    ensures Represents(raw, payload[signals[k].name].x, signals[k].scale, OffsetOf(signals[k]))
    ensures SpelledBy(raw, bytes, signals[k])
  {
    var sig := signals[k];
    raw := RawOrZero(signals, payload, k);
    RawRoundTrip(signals, selector, payload, bytes, k);
    RawIs(signals, payload, k);
    StandsFor(payload[sig.name].x, sig.scale, OffsetOf(sig));
    ReadAll(bytes, sig, raw);
  }

  /** The raw value is the number without its offset over the scale, rounded toward zero, and stands
      for it to within less than one step of the scale. */
  ghost predicate Represents(raw: int, x: real, scale: real, offset: real)
    requires scale != 0.0
  {
    raw == Trunc((x - offset) / scale) && Abs(scale * raw as real + offset - x) < Abs(scale)
  }

  lemma StandsFor(x: real, scale: real, offset: real)
    requires scale != 0.0
    ensures Represents(ToRaw(x, scale, offset), x, scale, offset)
  {
    EncodingError(x, scale, offset);
  }

  /** The bits of `raw` are those of the payload from the signal's start on, bit `j` of the payload
      being bit `j % 8` of byte `j / 8`. */
  ghost predicate SpelledBy(raw: nat, bytes: seq<nat>, sig: Signal) {
    forall i: nat {:trigger Bit(raw, i)} ::
      var j := sig.start + i;
      Bit(raw, i) <==> i < sig.length && j / 8 < |bytes| && Bit(bytes[j / 8], j % 8)
  }

  lemma ReadAll(bytes: seq<nat>, sig: Signal, raw: nat)
    requires (forall j :: 0 <= j < |bytes| ==> bytes[j] < 256) && raw == Extract(FromBytes(bytes), BuildSignalProperties(sig))
    ensures SpelledBy(raw, bytes, sig)
  {
    forall i: nat
      ensures var j := sig.start + i; Bit(raw, i) <==> i < sig.length && j / 8 < |bytes| && Bit(bytes[j / 8], j % 8)
    {
      ReadFrom(bytes, sig, i);
    }
  }

  /** What the decoder returns for a signal: its bits of the payload as a number, brought to
      physical scale, rounded toward zero, and divided back. */
  lemma {:induction false} DecodedNumber(signals: seq<Signal>, selector: Option<nat>, bytes: seq<nat>,
                                         decoded: map<string, real>, k: nat) returns (raw: nat)
    requires DistinctNames(signals) && Decodes(ExtractSignalProperties(signals, selector), FromBytes(bytes), decoded)
    requires forall j :: 0 <= j < |bytes| ==> bytes[j] < 256
    requires k < |signals| && Active(signals[k], selector)
    ensures var sig := signals[k];
            && sig.scale != 0.0 && sig.name in decoded
            && decoded[sig.name] == FromRaw(raw, sig.scale, OffsetOf(sig))
    ensures SpelledBy(raw, bytes, signals[k])
  {
    var sig := signals[k];
    raw := Extract(FromBytes(bytes), BuildSignalProperties(sig));
    Lookup(signals, selector, FromBytes(bytes), decoded, k);
    ValueIs(sig, FromBytes(bytes));
    ReadAll(bytes, sig, raw);
  }

  lemma ValueIs(sig: Signal, x: nat)
    ensures var p := BuildSignalProperties(sig);
            ValueOf(p, x) == if sig.scale == 0.0 then Err(ZeroDivisionError)
                             else Ok(FromRaw(Extract(x, p), sig.scale, OffsetOf(sig)))
  {
    BuiltAs(sig, 0);
  }

  lemma {:induction false} SameNameSameSignal(signals: seq<Signal>, selector: Option<nat>, p: SignalProperties, q: SignalProperties)
    requires DistinctNames(signals) && p.name == q.name
    requires p in ExtractSignalProperties(signals, selector) && q in ExtractSignalProperties(signals, selector)
    ensures p == q
  {
    ExtractedAreActive(signals, selector, p);
    ExtractedAreActive(signals, selector, q);
    var j :| 0 <= j < |signals| && Active(signals[j], selector) && p == BuildSignalProperties(signals[j]);
    var k :| 0 <= k < |signals| && Active(signals[k], selector) && q == BuildSignalProperties(signals[k]);
    assert signals[j].name == p.name && signals[k].name == q.name;
  }

  /** A decoded dictionary has an entry for every active signal. */
  lemma {:induction false} Lookup(signals: seq<Signal>, selector: Option<nat>, x: nat, decoded: map<string, real>, k: nat)
    requires DistinctNames(signals) && Decodes(ExtractSignalProperties(signals, selector), x, decoded)
    requires k < |signals| && Active(signals[k], selector)
    ensures signals[k].name in decoded && ValueOf(BuildSignalProperties(signals[k]), x) == Ok(decoded[signals[k].name])
  {
    var props, p := ExtractSignalProperties(signals, selector), BuildSignalProperties(signals[k]);
    ExtractedAreActive(signals, selector, p);
    var i :| 0 <= i < |props| && props[i] == p;
    forall j | i < j < |props| && props[j].name == props[i].name
      ensures props[j] == props[i]
    {
      SameNameSameSignal(signals, selector, props[j], props[i]);
    }
    assert NamedOnce(props, i);
  }

  /** And for nothing else. */
  lemma {:induction false} OnlyLookups(signals: seq<Signal>, selector: Option<nat>, x: nat, decoded: map<string, real>, name: string)
    requires Decodes(ExtractSignalProperties(signals, selector), x, decoded) && name in decoded
    ensures exists k :: 0 <= k < |signals| && Active(signals[k], selector) && signals[k].name == name
  {
    var props := ExtractSignalProperties(signals, selector);
    var i :| 0 <= i < |props| && props[i].name == name;
    ExtractedAreActive(signals, selector, props[i]);
  }

  /** `decoded` has exactly the signals active under the selector, each with what the decoder's
      arithmetic makes of the number that was given, rounded to a raw value, or of raw value 0 if
      none was. */
  ghost predicate Recovers(signals: seq<Signal>, selector: Option<nat>, payload: map<string, SignalValue>, decoded: map<string, real>) {
    && (forall name :: name in decoded <==>
          exists k ::
            && 0 <= k < |signals| && signals[k].name == name
            && (selector == None || signals[k].muxIds == None || selector.value in signals[k].muxIds.value))
    && (forall k :: 0 <= k < |signals|
                    && (selector == None || signals[k].muxIds == None || selector.value in signals[k].muxIds.value) ==>
          RecoversOne(signals[k], payload, decoded))
  }

  ghost predicate RecoversOne(sig: Signal, payload: map<string, SignalValue>, decoded: map<string, real>) {
    && sig.scale != 0.0 && sig.name in decoded
    && (sig.name !in payload ==> decoded[sig.name] == FromRaw(0, sig.scale, OffsetOf(sig)))
    && (sig.name in payload ==>
          && payload[sig.name].Number?
          && decoded[sig.name] == FromRaw(ToRaw(payload[sig.name].x, sig.scale, OffsetOf(sig)), sig.scale, OffsetOf(sig)))
  }

  lemma {:induction false} GroupMember(signals: seq<Signal>, selector: Option<nat>, payload: map<string, SignalValue>,
                                       bytes: seq<nat>, decoded: map<string, real>, k: nat)
    requires DistinctNames(signals)
    requires ActiveDisjoint(signals, selector) && OnlyActive(signals, payload, selector)
    requires Encodes(ExtractSignalProperties(signals, None), payload, None, bytes)
    requires Decodes(ExtractSignalProperties(signals, selector), FromBytes(bytes), decoded)
    requires k < |signals| && Active(signals[k], selector)
    ensures RecoversOne(signals[k], payload, decoded)
  {
    RawRoundTrip(signals, selector, payload, bytes, k);
    RawIs(signals, payload, k);
    Lookup(signals, selector, FromBytes(bytes), decoded, k);
    ValueIs(signals[k], FromBytes(bytes));
  }

  lemma {:induction false} GroupRoundTrip(signals: seq<Signal>, selector: Option<nat>, payload: map<string, SignalValue>, bytes: seq<nat>, decoded: map<string, real>)
    requires DistinctNames(signals)
    requires ActiveDisjoint(signals, selector) && OnlyActive(signals, payload, selector)
    requires Encodes(ExtractSignalProperties(signals, None), payload, None, bytes)
    requires Decodes(ExtractSignalProperties(signals, selector), FromBytes(bytes), decoded)
    ensures Recovers(signals, selector, payload, decoded)
  {
    forall k | 0 <= k < |signals| && Active(signals[k], selector)
      ensures RecoversOne(signals[k], payload, decoded)
    {
      GroupMember(signals, selector, payload, bytes, decoded, k);
    }
    forall name | name in decoded
      ensures exists k :: 0 <= k < |signals| && Active(signals[k], selector) && signals[k].name == name
    {
      OnlyLookups(signals, selector, FromBytes(bytes), decoded, name);
    }
  }

  /** Encoding and decoding a message without multiplexing. */
  lemma {:induction false} PlainRoundTrip(signals: seq<Signal>, payload: map<string, SignalValue>, bytes: seq<nat>, d: Decoding, decoded: map<string, real>)
    requires Unmultiplexed(signals) && DistinctNames(signals) && ActiveDisjoint(signals, None)
    requires Encodes(ExtractSignalProperties(signals, None), payload, None, bytes)
    requires DecoderFor(signals, d) && Decodes(d.props, FromBytes(bytes), decoded)
    ensures Recovers(signals, None, payload, decoded)
  {
    GroupRoundTrip(signals, None, payload, bytes, decoded);
  }

  /** The decoder reads the selector's raw value back. */
  lemma {:induction false} SelectorRoundTrip(signals: seq<Signal>, s: nat, m: nat, payload: map<string, SignalValue>, bytes: seq<nat>, d: Decoding)
    requires OnlySelector(signals, s) && Active(signals[s], Some(m))
    requires ActiveDisjoint(signals, Some(m)) && OnlyActive(signals, payload, Some(m))
    requires RawOrZero(signals, payload, s) == m
    requires Encodes(ExtractSignalProperties(signals, None), payload, None, bytes) && DecoderFor(signals, d)
    ensures d.Multiplexed? && Extract(FromBytes(bytes), d.selector) == m
    ensures m in d.groups ==> d.groups[m] == ExtractSignalProperties(signals, Some(m))
    ensures m in d.groups <==> m in AllMuxIds(signals)
  {
    assert signals[s].isMultiplexer;
    RawRoundTrip(signals, Some(m), payload, bytes, s);
  }

  /** A dictionary that sets the selector `s` to `m` and otherwise names only signals active
      under `m`: the decoder finds `m` again, fails exactly if no signal is tied to `m`, and
      otherwise returns group `m` and nothing else, with the encoded raw values. Signals of
      different groups may overlap. */
  lemma {:induction false} MultiplexedRoundTrip(signals: seq<Signal>, s: nat, m: nat, payload: map<string, SignalValue>, bytes: seq<nat>, d: Decoding)
    requires OnlySelector(signals, s) && Active(signals[s], Some(m)) && DistinctNames(signals)
    requires ActiveDisjoint(signals, Some(m)) && OnlyActive(signals, payload, Some(m))
    requires RawOrZero(signals, payload, s) == m
    requires Encodes(ExtractSignalProperties(signals, None), payload, None, bytes) && DecoderFor(signals, d)
    ensures d.Multiplexed? && Extract(FromBytes(bytes), d.selector) == m
    ensures m in d.groups <==> exists k :: 0 <= k < |signals| && signals[k].muxIds.Some? && m in signals[k].muxIds.value
    ensures m in d.groups ==> forall decoded ::
      Decodes(d.groups[m], FromBytes(bytes), decoded) ==> Recovers(signals, Some(m), payload, decoded)
  {
    SelectorRoundTrip(signals, s, m, payload, bytes, d);
    if m in d.groups {
      forall decoded | Decodes(d.groups[m], FromBytes(bytes), decoded)
        ensures Recovers(signals, Some(m), payload, decoded)
      {
        GroupRoundTrip(signals, Some(m), payload, bytes, decoded);
      }
    }
  }
}
