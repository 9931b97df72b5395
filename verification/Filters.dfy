/** The three places a frame is filtered: the real bus (the union of all subscriptions), the
    server's fan-out, and the client's `recv`. */
module Filters {
  import opened Wrappers
  import opened Bits
  import opened CanFrame

  datatype CanFilter = CanFilter(canId: nat, canMask: nat, extended: Option<bool>)

  /** A filter list as python-can and the server pass it around; `None` and `[]` both mean no filtering. */
  type FilterList = Option<seq<CanFilter>>

  /** What one filter asks of a frame: the identifier bits under the mask, and the kind if it says so. */
  predicate Passes(c: CanFilter, f: Frame) {
    And(f.id, c.canMask) == And(c.canId, c.canMask) && (c.extended.None? || c.extended.value == f.extended)
  }

  /** A consumer without filters takes every frame, any other one those that pass some filter. */
  predicate Accepts(filters: FilterList, f: Frame) {
    filters.None? || filters.value == [] || exists i :: 0 <= i < |filters.value| && Passes(filters.value[i], f)
  }

  /** Identifier and filter agree on every bit of the mask. */
  ghost predicate AgreeOn(mask: nat, x: nat, y: nat) {
    forall i: nat :: Bit(mask, i) ==> (Bit(x, i) <==> Bit(y, i))
  }

  /** A filter passes a frame exactly if the identifiers agree on every bit of its mask, and the
      frame is of the kind it names, if it names one. */
  lemma PassesIff(c: CanFilter, f: Frame)
    ensures Passes(c, f) <==> AgreeOn(c.canMask, f.id, c.canId) && (c.extended == None || c.extended == Some(f.extended))
  {
    var x, y := And(f.id, c.canMask), And(c.canId, c.canMask);
    if AgreeOn(c.canMask, f.id, c.canId) {
      forall i: nat
        ensures Bit(x, i) <==> Bit(y, i)
      {
        AndBit(f.id, c.canMask, i);
        AndBit(c.canId, c.canMask, i);
      }
      SameBits(x, y);
    }
    if x == y {
      forall i: nat | Bit(c.canMask, i)
        ensures Bit(f.id, i) <==> Bit(c.canId, i)
      {
        AndBit(f.id, c.canMask, i);
        AndBit(c.canId, c.canMask, i);
      }
    }
  }

  /** So that is what a list of filters accepts, unless it is missing or empty. */
  lemma AcceptsIff(filters: FilterList, f: Frame)
    ensures Accepts(filters, f) <==>
      filters == None || filters == Some([]) || exists i ::
        && 0 <= i < |filters.value|
        && AgreeOn(filters.value[i].canMask, f.id, filters.value[i].canId)
        && (filters.value[i].extended == None || filters.value[i].extended == Some(f.extended))
  {
    if filters.Some? {
      forall i | 0 <= i < |filters.value|
        ensures Passes(filters.value[i], f) <==>
          && AgreeOn(filters.value[i].canMask, f.id, filters.value[i].canId)
          && (filters.value[i].extended == None || filters.value[i].extended == Some(f.extended))
      {
        PassesIff(filters.value[i], f);
      }
    }
  }

  /** One full mask selects one identifier of the kind it names. */
  lemma OneFilter(id: nat, kind: bool, f: Frame)
    requires id < 0x2000_0000 && f.id < 0x2000_0000
    ensures Accepts(Some([CanFilter(id, CAN_ID_MASK, Some(kind))]), f) <==> f.id == id && f.extended == kind
  {
    SmallIdKept(id);
    SmallIdKept(f.id);
    assert Passes([CanFilter(id, CAN_ID_MASK, Some(kind))][0], f) <==> f.id == id && f.extended == kind;
  }

  /** `_frame_matches`. */
  method FrameMatches(filters: FilterList, f: Frame) returns (matches: bool)
    ensures matches <==> Accepts(filters, f)
    ensures matches <==>
      filters == None || filters == Some([]) || exists i ::
        && 0 <= i < |filters.value|
        && And(f.id, filters.value[i].canMask) == And(filters.value[i].canId, filters.value[i].canMask)
        && (filters.value[i].extended == None || filters.value[i].extended == Some(f.extended))
  {
    if filters.None? || filters.value == [] {
      return true;
    }
    for i := 0 to |filters.value|
      invariant forall j :: 0 <= j < i ==> !Passes(filters.value[j], f)
    {
      var c := filters.value[i];
      var idMatches := And(f.id, c.canMask) == And(c.canId, c.canMask);
      var extendedMatches := c.extended.None? || f.extended == c.extended.value;
      if idMatches && extendedMatches {
        return true;
      }
    }
    return false;
  }

  // ---------------------------------------------------------------- normalisation

  /** What a caller may subscribe with. */
  datatype Subscription =
    | NoFilters
    | Ids(ids: seq<nat>)                  // a set of identifiers, in its iteration order
    | FilterSpecs(specs: seq<CanFilter>)

  /** `_normalize_filters`. */
  function Normalize(sub: Subscription): FilterList {
    match sub
    case NoFilters => None
    case FilterSpecs(specs) => Some(specs)
    case Ids(ids) => Some(seq(|ids|, i requires 0 <= i < |ids| => CanFilter(ids[i], CAN_ID_MASK, None)))
  }

  /** No subscription filter accepts everything, and a list of them is taken as it is. */
  lemma SpecsSelect(specs: seq<CanFilter>, f: Frame)
    ensures Accepts(Normalize(NoFilters), f)
    ensures Accepts(Normalize(FilterSpecs(specs)), f) <==> specs == [] || exists i ::
      && 0 <= i < |specs|
      && AgreeOn(specs[i].canMask, f.id, specs[i].canId)
      && (specs[i].extended == None || specs[i].extended == Some(f.extended))
  {
    AcceptsIff(Some(specs), f);
  }

  /** Subscribing with a set of 29-bit identifiers selects exactly those identifiers, of either
      kind - except that an empty set selects everything. */
  lemma IdsSelectThemselves(ids: seq<nat>, f: Frame)
    requires f.id < 0x2000_0000 && forall i :: 0 <= i < |ids| ==> ids[i] < 0x2000_0000
    ensures Accepts(Normalize(Ids(ids)), f) <==> ids == [] || f.id in ids
  {
    var filters := Normalize(Ids(ids)).value;
    forall i | 0 <= i < |ids|
      ensures Passes(filters[i], f) <==> f.id == ids[i]
    {
      IdPasses(ids[i], f);
    }
  }

  lemma IdPasses(id: nat, f: Frame)
    requires f.id < 0x2000_0000 && id < 0x2000_0000
    ensures Passes(CanFilter(id, CAN_ID_MASK, None), f) <==> f.id == id
  {
    SmallIdKept(f.id);
    SmallIdKept(id);
  }

  // ---------------------------------------------------------------- aggregation

  /** What the bus is told to filter by, given every consumer's filters. */
  function Union(consumers: seq<FilterList>): FilterList {
    if consumers == [] then Some([])
    else
      var front, last := Union(consumers[..|consumers| - 1]), consumers[|consumers| - 1];
      if front.None? || last.None? || last.value == [] then None else Some(front.value + last.value)
  }

  /** `_aggregate_filters`. */
  method AggregateFilters(consumers: seq<FilterList>) returns (filters: FilterList)
    ensures filters == Union(consumers)
  {
    var aggregated: seq<CanFilter> := [];
    for i := 0 to |consumers|
      invariant Union(consumers[..i]) == Some(aggregated)
    {
      assert consumers[..i + 1][..i] == consumers[..i];
      if consumers[i].None? || consumers[i].value == [] {
        UnionNone(consumers, i);
        return None;
      }
      aggregated := aggregated + consumers[i].value;
    }
    assert consumers[..|consumers|] == consumers;
    return Some(aggregated);
  }

  lemma {:induction false} UnionNone(consumers: seq<FilterList>, k: nat)
    requires k < |consumers| && (consumers[k].None? || consumers[k].value == [])
    ensures Union(consumers).None?
    decreases |consumers|
  {
    if k < |consumers| - 1 {
      UnionNone(consumers[..|consumers| - 1], k);
    }
  }

  predicate SomeoneAccepts(consumers: seq<FilterList>, f: Frame) {
    exists i :: 0 <= i < |consumers| && Accepts(consumers[i], f)
  }

  lemma {:induction false} UnionShape(consumers: seq<FilterList>)
    ensures Union(consumers).Some? ==> (Union(consumers).value == [] <==> consumers == [])
  {
    if consumers != [] { UnionShape(consumers[..|consumers| - 1]); }
  }

  predicate SomePasses(specs: seq<CanFilter>, f: Frame) {
    exists i :: 0 <= i < |specs| && Passes(specs[i], f)
  }

  lemma SomePassesConcat(a: seq<CanFilter>, b: seq<CanFilter>, f: Frame)
    ensures SomePasses(a + b, f) <==> SomePasses(a, f) || SomePasses(b, f)
  {
    if SomePasses(a, f) {
      var i :| 0 <= i < |a| && Passes(a[i], f);
      assert Passes((a + b)[i], f);
    }
    if SomePasses(b, f) {
      var i :| 0 <= i < |b| && Passes(b[i], f);
      assert Passes((a + b)[|a| + i], f);
    }
  }

  lemma {:induction false} UnionPasses(consumers: seq<FilterList>, f: Frame)
    requires Union(consumers).Some?
    ensures SomePasses(Union(consumers).value, f) <==> SomeoneAccepts(consumers, f)
  {
    if consumers != [] {
      var front, last := consumers[..|consumers| - 1], consumers[|consumers| - 1];
      UnionPasses(front, f);
      SomePassesConcat(Union(front).value, last.value, f);
      assert Accepts(last, f) <==> SomePasses(last.value, f);
      assert SomeoneAccepts(consumers, f) <==> SomeoneAccepts(front, f) || Accepts(last, f) by {
        if SomeoneAccepts(front, f) {
          var i :| 0 <= i < |front| && Accepts(front[i], f);
          assert consumers[i] == front[i];
        }
        if Accepts(last, f) { assert consumers[|consumers| - 1] == last; }
      }
    }
  }

  lemma {:induction false} NoneFromUnfiltered(consumers: seq<FilterList>) returns (k: nat)
    requires Union(consumers).None?
    ensures k < |consumers| && (consumers[k].None? || consumers[k].value == [])
    decreases |consumers|
  {
    var front := consumers[..|consumers| - 1];
    if Union(front).None? {
      k := NoneFromUnfiltered(front);
    } else {
      k := |consumers| - 1;
    }
  }

  /** The bus lets a frame through exactly when some consumer wants it - unless there is no
      consumer at all: then the aggregate is the empty list, which filters nothing. */
  lemma UnionIsWhatAnyoneWants(consumers: seq<FilterList>, f: Frame)
    ensures Accepts(Union(consumers), f) <==> consumers == [] || SomeoneAccepts(consumers, f)
  {
    UnionShape(consumers);
    if Union(consumers).None? {
      var k := NoneFromUnfiltered(consumers);
      assert Accepts(consumers[k], f);
    } else {
      UnionPasses(consumers, f);
      assert Accepts(Union(consumers), f) <==> Union(consumers).value == [] || SomePasses(Union(consumers).value, f);
    }
  }

  // ---------------------------------------------------------------- the pipeline

  /** The frames of a stream a filter list lets through. */
  function Through(filters: FilterList, stream: seq<Frame>): seq<Frame> {
    if stream == [] then []
    else
      var last := stream[|stream| - 1];
      Through(filters, stream[..|stream| - 1]) + (if Accepts(filters, last) then [last] else [])
  }

  /** It is a filter: of the frames that come, in their order, exactly those accepted. */
  lemma {:induction false} ThroughMeans(filters: FilterList, stream: seq<Frame>, f: Frame)
    ensures Through(filters, []) == []
    ensures Through(filters, stream + [f]) == if Accepts(filters, f) then Through(filters, stream) + [f] else Through(filters, stream)
  {
    assert (stream + [f])[..|stream|] == stream;
  }

  /** Bus, then server, then client. */
  function Pipeline(consumers: seq<FilterList>, c: nat, client: FilterList, stream: seq<Frame>): seq<Frame>
    requires c < |consumers|
  {
    Through(client, Through(consumers[c], Through(Union(consumers), stream)))
  }

  lemma {:induction false} ThroughBoth(a: FilterList, b: FilterList, stream: seq<Frame>)
    requires forall i :: 0 <= i < |stream| && Accepts(b, stream[i]) ==> Accepts(a, stream[i])
    ensures Through(b, Through(a, stream)) == Through(b, stream)
  {
    if stream != [] {
      var front, last := stream[..|stream| - 1], stream[|stream| - 1];
      ThroughBoth(a, b, front);
      var passed := Through(a, front);
      if Accepts(a, last) {
        assert (passed + [last])[..|passed|] == passed;
      } else {
        assert passed + [] == passed;
      }
    }
  }

  /** The bus filter never costs a consumer a frame. */
  lemma BusFilterIsInvisible(consumers: seq<FilterList>, c: nat, stream: seq<Frame>)
    requires c < |consumers|
    ensures Through(consumers[c], Through(Union(consumers), stream)) == Through(consumers[c], stream)
  {
    forall i | 0 <= i < |stream| && Accepts(consumers[c], stream[i])
      ensures Accepts(Union(consumers), stream[i])
    {
      UnionIsWhatAnyoneWants(consumers, stream[i]);
    }
    ThroughBoth(Union(consumers), consumers[c], stream);
  }

  /** The three filters together give the client the bus stream filtered by its own current
      filters, on every stream, if and only if those accept nothing its subscription rejects.
      So the subscription is more than a traffic reducer: filters widened later by `set_filters`
      do not bring back what the server already drops. */
  lemma PipelineIffSubscribed(consumers: seq<FilterList>, c: nat, client: FilterList)
    requires c < |consumers|
    ensures (forall stream :: Pipeline(consumers, c, client, stream) == Through(client, stream))
       <==> (forall f :: Accepts(client, f) ==> Accepts(consumers[c], f))
  {
    if forall f :: Accepts(client, f) ==> Accepts(consumers[c], f) {
      forall stream
        ensures Pipeline(consumers, c, client, stream) == Through(client, stream)
      {
        BusFilterIsInvisible(consumers, c, stream);
        ThroughBoth(consumers[c], client, stream);
      }
    }
    if forall stream :: Pipeline(consumers, c, client, stream) == Through(client, stream) {
      forall f | Accepts(client, f)
        ensures Accepts(consumers[c], f)
      {
        SingleFrame(client, f);
        SingleFrame(consumers[c], f);
        BusFilterIsInvisible(consumers, c, [f]);
        assert Pipeline(consumers, c, client, [f]) == Through(client, [f]);
        assert Through(client, []) == [];
      }
    }
  }

  lemma SingleFrame(filters: FilterList, f: Frame)
    ensures Through(filters, [f]) == if Accepts(filters, f) then [f] else []
  {
    assert [f][..0] == [];
    assert Through(filters, []) == [];
  }

  // ---------------------------------------------------------------- the client

  /** The client's bus: `inbox` is what its base receive function will return, in order. */
  class UserspaceBus {
    var canFilters: seq<CanFilter>
    var inbox: seq<Frame>

    constructor (filters: FilterList, inbox: seq<Frame>)
      ensures canFilters == (if filters.None? then [] else filters.value) && this.inbox == inbox
    {
      canFilters := if filters.None? then [] else filters.value;
      this.inbox := inbox;
    }

    /** `set_filters`: only the stored list changes, nothing in flight is disturbed. */
    method SetFilters(filters: FilterList)
      modifies this`canFilters
      ensures forall f :: Accepts(Some(canFilters), f) <==> Accepts(filters, f)
      ensures inbox == old(inbox)
    {
      canFilters := if filters.None? then [] else filters.value;
    }

    /** `_recv`: the first frame the current filters accept, dropping those before it; `None`
        stands for a receive that would still be waiting. */
    method Recv() returns (r: Option<Frame>, ghost skipped: seq<Frame>)
      modifies this`inbox
      ensures old(inbox) == skipped + (if r.Some? then [r.value] else []) + inbox
      ensures Through(Some(canFilters), skipped) == []
      ensures if r.Some? then Accepts(Some(canFilters), r.value) else inbox == []
    {
      skipped := [];
      while inbox != []
        invariant old(inbox) == skipped + inbox
        invariant Through(Some(canFilters), skipped) == []
        decreases |inbox|
      {
        var msg := inbox[0];
        inbox := inbox[1..];
        var matches := FrameMatches(Some(canFilters), msg);
        if matches {
          return Some(msg), skipped;
        }
        assert (skipped + [msg])[..|skipped|] == skipped;
        skipped := skipped + [msg];
      }
      return None, skipped;
    }

    /** Receiving until nothing is left yields the inbox filtered by the filters in force. */
    method RecvAll() returns (frames: seq<Frame>)
      modifies this`inbox
      ensures frames == Through(Some(canFilters), old(inbox)) && inbox == []
    {
      frames := [];
      ghost var filters: FilterList, all, seen := Some(canFilters), inbox, [];
      var more := true;
      while more
        invariant all == seen + inbox && filters == Some(canFilters)
        invariant frames == Through(filters, seen)
        invariant !more ==> inbox == []
        decreases more, |inbox|
      {
        ghost var before := inbox;
        var r;
        ghost var skipped;
        r, skipped := Recv();
        var got := if r.Some? then [r.value] else [];
        if r.Some? { SingleFrame(filters, r.value); }
        ReceivedNext(filters, all, seen, before, skipped, got, inbox);
        seen := seen + skipped + got;
        frames := frames + got;
        more := r.Some?;
      }
      assert seen + [] == seen;
    }
  }

  /** Where a receive leaves the reader: `got` is what it returned, if anything. */
  lemma ReceivedNext(filters: FilterList, all: seq<Frame>, seen: seq<Frame>, before: seq<Frame>,
                     skipped: seq<Frame>, got: seq<Frame>, after: seq<Frame>)
    requires all == seen + before && before == skipped + got + after
    requires Through(filters, skipped) == [] && Through(filters, got) == got
    ensures all == seen + skipped + got + after
    ensures Through(filters, seen + skipped + got) == Through(filters, seen) + got
    ensures got != [] ==> |after| < |before|
  {
    Regroup(seen, skipped, got, after);
    ThroughConcat(filters, seen, skipped);
    ThroughConcat(filters, seen + skipped, got);
  }

  lemma Regroup<T>(a: seq<T>, b: seq<T>, c: seq<T>, d: seq<T>)
    ensures a + (b + c + d) == a + b + c + d
    ensures |b + c + d| == |b| + |c| + |d|
  {
  }

  lemma {:induction false} ThroughConcat(filters: FilterList, a: seq<Frame>, b: seq<Frame>)
    ensures Through(filters, a + b) == Through(filters, a) + Through(filters, b)
    decreases |b|
  {
    if b == [] {
      assert a + b == a;
    } else {
      var front := b[..|b| - 1];
      ThroughConcat(filters, a, front);
      assert (a + b)[..|a + b| - 1] == a + front;
    }
  }
}
