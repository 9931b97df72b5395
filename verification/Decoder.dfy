/** Reading a frame's payload back into signal values, with and without multiplexing. */
module Decoder {
  import opened Wrappers
  import opened Bits
  import opened Signals
  import opened Scaling
  import opened Encoder

  /** One decoded signal, choices left alone. */
  function ValueOf(p: SignalProperties, x: nat): Result<real> {
    if p.scale == 0.0 then Err(ZeroDivisionError) else Ok(FromRaw(Extract(x, p), p.scale, p.offset))
  }

  /** Later entries of the same name, if any, are the same signal. */
  predicate NamedOnce(props: seq<SignalProperties>, k: nat)
    requires k < |props|
  {
    forall j :: k < j < |props| && props[j].name == props[k].name ==> props[j] == props[k]
  }

  /** `decoded` holds what the payload says of every signal, and nothing else. */
  ghost predicate Decodes(props: seq<SignalProperties>, x: nat, decoded: map<string, real>) {
    && (forall name :: name in decoded <==> exists k :: 0 <= k < |props| && props[k].name == name)
    && (forall k :: 0 <= k < |props| && NamedOnce(props, k) ==> ValueOf(props[k], x) == Ok(decoded[props[k].name]))
  }

  predicate AllScaled(props: seq<SignalProperties>) {
    forall k :: 0 <= k < |props| ==> props[k].scale != 0.0
  }

  /** One signal's turn. */
  method DecodeSignal(p: SignalProperties, payloadI64: nat) returns (r: Result<real>)
    ensures r == ValueOf(p, payloadI64)
  {
    var rawValue := ShiftRight(And(payloadI64, p.mask), p.bitOffset);
    var value := Trunc(Physical(rawValue, p.scale, p.offset));
    if p.scale == 0.0 {
      return Err(ZeroDivisionError);
    }
    return Ok((value as real - p.offset) / p.scale);
  }

  /** `decode` on a list of signals. */
  method Decode(payload: seq<nat>, props: seq<SignalProperties>) returns (r: Result<map<string, real>>)
    ensures r.Ok? <==> AllScaled(props)
    ensures r.Ok? ==> Decodes(props, FromBytes(payload), r.value)
    ensures r.Err? ==> r.error.ZeroDivisionError?
  {
    var payloadI64 := FromBytes(payload);
    var decoded: map<string, real> := map[];
    for i := 0 to |props|
      invariant AllScaled(props[..i])
      invariant Decodes(props[..i], payloadI64, decoded)
    {
      var p := props[i];
      var value := DecodeSignal(p, payloadI64);
      if value.Err? {
        return Err(value.error);
      }
      DecodesNext(props[..i], p, payloadI64, decoded, value.value);
      assert props[..i] + [p] == props[..i + 1];
      decoded := decoded[p.name := value.value];
    }
    assert props[..|props|] == props;
    return Ok(decoded);
  }

  lemma {:induction false} DecodesNext(props: seq<SignalProperties>, p: SignalProperties, x: nat, decoded: map<string, real>, v: real)
    requires Decodes(props, x, decoded) && ValueOf(p, x) == Ok(v)
    ensures Decodes(props + [p], x, decoded[p.name := v])
  {
    var all, decoded' := props + [p], decoded[p.name := v];
    forall name
      ensures name in decoded' <==> exists k :: 0 <= k < |all| && all[k].name == name
    {
      if k :| 0 <= k < |props| && props[k].name == name { assert all[k].name == name; }
      assert all[|props|] == p;
    }
    forall k | 0 <= k < |all| && NamedOnce(all, k)
      ensures ValueOf(all[k], x) == Ok(decoded'[all[k].name])
    {
      if k < |props| {
        if all[k].name == p.name {
          assert all[|props|] == p;
        } else {
          assert forall j :: k < j < |props| && props[j].name == props[k].name ==> all[j] == all[k];
          assert NamedOnce(props, k);
        }
      }
    }
  }

  // ---------------------------------------------------------------- multiplexing

  datatype Decoding =
    | Plain(props: seq<SignalProperties>)
    | Multiplexed(groups: map<nat, seq<SignalProperties>>, selector: SignalProperties)

  /** Running a built decoder on a payload. */
  method RunDecoder(d: Decoding, payload: seq<nat>) returns (r: Result<map<string, real>>)
    ensures r.Err? && r.error.KeyError? <==> d.Multiplexed? && Extract(FromBytes(payload), d.selector) !in d.groups
    ensures r.Ok? && d.Plain? ==> Decodes(d.props, FromBytes(payload), r.value)
    ensures r.Ok? && d.Multiplexed? ==>
      Decodes(d.groups[Extract(FromBytes(payload), d.selector)], FromBytes(payload), r.value)
    ensures r.Err? ==> r.error.KeyError? || r.error.ZeroDivisionError?
    ensures r.Err? && r.error.ZeroDivisionError? ==>
      !AllScaled(if d.Plain? then d.props else d.groups[Extract(FromBytes(payload), d.selector)])
  {
    match d
    case Plain(props) =>
      r := Decode(payload, props);
    case Multiplexed(groups, selector) =>
      var muxId := ShiftRight(And(FromBytes(payload), selector.mask), selector.bitOffset);
      if muxId !in groups {
        return Err(KeyError);
      }
      r := Decode(payload, groups[muxId]);
  }

  /** Every selector value some signal is active under. */
  function AllMuxIds(signals: seq<Signal>): (ids: set<nat>)
    ensures forall m :: m in ids <==>
      exists k :: 0 <= k < |signals| && signals[k].muxIds.Some? && m in signals[k].muxIds.value
  {
    if signals == [] then {}
    else
      var last := signals[|signals| - 1];
      AllMuxIds(signals[..|signals| - 1]) + (if last.muxIds.Some? then last.muxIds.value else {})
  }

  /** The one signal `build_decoder` accepts as the selector. */
  predicate OnlySelector(signals: seq<Signal>, s: nat) {
    s < |signals| && forall k :: 0 <= k < |signals| ==> (signals[k].isMultiplexer <==> k == s)
  }

  predicate Unmultiplexed(signals: seq<Signal>) {
    forall k :: 0 <= k < |signals| ==> !signals[k].isMultiplexer
  }

  /** The groups of the active signals, one for each selector value. */
  predicate Grouped(signals: seq<Signal>, groups: map<nat, seq<SignalProperties>>, ids: set<nat>) {
    groups.Keys == ids && forall m :: m in ids ==> groups[m] == ExtractSignalProperties(signals, Some(m))
  }

  /** What a decoder for the message must be. */
  ghost predicate DecoderFor(signals: seq<Signal>, d: Decoding) {
    if Unmultiplexed(signals) then d == Plain(ExtractSignalProperties(signals, None))
    else
      d.Multiplexed? && Grouped(signals, d.groups, AllMuxIds(signals))
      && exists s: nat :: OnlySelector(signals, s) && d.selector == BuildSignalProperties(signals[s])
  }

  /** `build_decoder`: there must be at most one multiplexer signal. */
  method BuildDecoder(signals: seq<Signal>) returns (r: Result<Decoding>)
    ensures r.Ok? <==> Unmultiplexed(signals) || exists s: nat :: OnlySelector(signals, s)
    ensures r.Ok? ==> DecoderFor(signals, r.value)
    ensures r.Err? ==> r.error.AssertionError?
  {
    var multiplexed := IsMultiplexed(signals);
    if !multiplexed {
      return Ok(Plain(ExtractSignalProperties(signals, None)));
    }
    var selectors, allMuxIds := CollectMultiplexing(signals);
    var muxMapping := BuildGroups(signals, allMuxIds);
    if |selectors| != 1 {
      NotOne(signals, selectors);
      return Err(AssertionError);
    }
    assert OnlySelector(signals, selectors[0]);
    return Ok(Multiplexed(muxMapping, BuildSignalProperties(signals[selectors[0]])));
  }

  method IsMultiplexed(signals: seq<Signal>) returns (b: bool)
    ensures b <==> !Unmultiplexed(signals)
  {
    for i := 0 to |signals|
      invariant forall k :: 0 <= k < i ==> !signals[k].isMultiplexer
    {
      if signals[i].isMultiplexer {
        return true;
      }
    }
    return false;
  }

  ghost predicate SelectorsOf(signals: seq<Signal>, selectors: seq<nat>) {
    && (forall j :: 0 <= j < |selectors| ==> selectors[j] < |signals| && signals[selectors[j]].isMultiplexer)
    && (forall i, j :: 0 <= i < j < |selectors| ==> selectors[i] < selectors[j])
    && (forall k :: 0 <= k < |signals| && signals[k].isMultiplexer ==> k in selectors)
  }

  /** The loop over the message's signals; selectors are kept by position. */
  method CollectMultiplexing(signals: seq<Signal>) returns (selectors: seq<nat>, allMuxIds: set<nat>)
    ensures SelectorsOf(signals, selectors) && allMuxIds == AllMuxIds(signals)
  {
    selectors, allMuxIds := [], {};
    for i := 0 to |signals|
      invariant SelectorsOf(signals[..i], selectors) && allMuxIds == AllMuxIds(signals[..i])
    {
      var sig := signals[i];
      assert signals[..i + 1][..i] == signals[..i];
      if sig.isMultiplexer {
        selectors := selectors + [i];
      }
      if sig.muxIds.Some? {
        allMuxIds := allMuxIds + sig.muxIds.value;
      }
    }
    assert signals[..|signals|] == signals;
  }

  lemma {:induction false} NotOne(signals: seq<Signal>, selectors: seq<nat>)
    requires SelectorsOf(signals, selectors) && |selectors| != 1 && !Unmultiplexed(signals)
    ensures forall s: nat :: !OnlySelector(signals, s)
  {
    if selectors != [] {
      assert signals[selectors[0]].isMultiplexer && signals[selectors[1]].isMultiplexer;
    }
  }

  /** The loop over the selector values. */
  method BuildGroups(signals: seq<Signal>, ids: set<nat>) returns (groups: map<nat, seq<SignalProperties>>)
    ensures Grouped(signals, groups, ids)
  {
    groups := map[];
    var left := ids;
    while left != {}
      invariant left <= ids && Grouped(signals, groups, ids - left)
      decreases left
    {
      var muxId :| muxId in left;
      groups := groups[muxId := ExtractSignalProperties(signals, Some(muxId))];
      left := left - {muxId};
    }
  }
}
