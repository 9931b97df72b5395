/** The server of a real bus: the RX thread forwards what the bus lets through to every listed
    consumer and takes out those that are gone; between any two of its turns the TX thread echoes
    frames, drains, and unregisters, and new consumers join. The specification is one equation:
    the bus frames a consumer accepts are the bus's own stream from its subscription to its
    removal, through its filters - whatever the bus is told to filter by on the way. */
module RealBus {
  import opened CanFrame
  import opened Stream
  import opened Relay
  import opened RelayInvariants
  import opened ConsumerIo
  import opened Wrappers
  import RelayTheorems
  import Filters
  import VirtualBus

  type Consumer = VirtualBus.Consumer

  // ---------------------------------------------------------------- one consumer

  /** What is on record about a consumer: a read from it failed, RX reported it closed, it was
      taken off the list. */
  datatype Note = Note(broke: bool, shut: bool, out: bool)

  /** The consumer between two turns: consistent, and accepted nothing from the bus but a prefix
      of `heard`. One with a good schedule of writes loses nothing, tears nothing, and stays until a
      read fails. */
  ghost predicate Fed(io: ConsumerIO, heard: seq<Frame>, note: Note)
    reads io, io.sock
  {
    && io.Valid() && io.Wired() && io.Kept() && io.HandsFree() && io.s.drain.Idle?
    && RelayTheorems.FramesFrom(Rx, io.s.log) <= heard && io.closed == note.shut
    && (note.broke ==> !io.registered) && (note.out ==> io.closed || !io.registered)
    && (GoodWrites(io.sock.plan) ==> Well(io, note))
  }

  ghost predicate Well(io: ConsumerIO, note: Note)
    reads io, io.sock
  {
    && io.s.lost == [] && io.Stray() == 0 && !note.shut && (io.registered || note.broke)
    && (io.registered ==> io.rxAlive && io.txAlive)
  }

  /** Nothing of `heard` is missing while RX runs, and neither thread runs that serving this
      consumer has ended. */
  ghost predicate UpToDate(io: ConsumerIO, heard: seq<Frame>, note: Note, rx: bool, tx: bool)
    reads io, io.sock
  {
    && Fed(io, heard, note) && (tx ==> io.txAlive)
    && (rx ==> io.rxAlive && RelayTheorems.FramesFrom(Rx, io.s.log) == heard)
  }

  /** Registered, with nothing queued or sent. */
  ghost predicate Pristine(io: ConsumerIO)
    reads io, io.sock
  {
    io.registered && io.outbound == [] && io.sock.calls == 0
  }

  /** RX's turn for a frame this consumer accepts. */
  method FeedRx(io: ConsumerIO, f: Frame, ghost heard: seq<Frame>, ghost note: Note, ghost tx: bool)
    requires UpToDate(io, heard, note, true, tx) && !note.shut && Sendable(f)
    modifies io, io.sock
    ensures UpToDate(io, heard + [f], note.(shut := io.closed), io.rxAlive, tx)
    ensures (io.rxAlive <==> !old(io.EndsForward())) && io.txAlive == old(io.txAlive)
    ensures io.Line() == old(io.LineAfter(Rx, f))
  {
    RelayTheorems.FramesFromNext(Rx, io.s.log, Item(Rx, |io.s.rxOffers|, f));
    io.RxTurn(f);
  }

  /** TX forwards it a frame of another consumer. */
  method EchoTo(io: ConsumerIO, f: Frame, ghost heard: seq<Frame>, ghost note: Note, ghost rx: bool)
    requires UpToDate(io, heard, note, rx, true) && Sendable(f)
    modifies io, io.sock
    ensures UpToDate(io, heard, note, rx, io.txAlive)
    ensures (io.txAlive <==> !old(io.EndsForward())) && io.rxAlive == old(io.rxAlive)
    ensures io.s.log == old(io.s.log) + [Item(Tx, |old(io.s.txOffers)|, f)] && io.Line() == old(io.LineAfter(Tx, f))
  {
    RelayTheorems.FramesFromNext(Rx, io.s.log, Item(Tx, |io.s.txOffers|, f));
    io.LoopbackTurn(f);
  }

  method DrainOf(io: ConsumerIO, ghost heard: seq<Frame>, ghost note: Note, ghost rx: bool, ghost p: VirtualBus.Prospect)
    requires UpToDate(io, heard, note, rx, true) && io.registered && io.interest.ReadWrite?
    requires p == VirtualBus.DrainProspect(io)
    modifies io, io.sock
    ensures UpToDate(io, heard, note, rx, io.txAlive) && io.rxAlive == old(io.rxAlive) && VirtualBus.DrainedTo(io, p)
  {
    ghost var o := io.DrainBacklog([]);
  }

  method ReadFailedOn(io: ConsumerIO, ghost heard: seq<Frame>, ghost note: Note, ghost rx: bool)
    requires UpToDate(io, heard, note, rx, true) && io.registered
    modifies io
    ensures UpToDate(io, heard, note.(broke := true), rx, true) && io.rxAlive == old(io.rxAlive)
    ensures io.Line() == old(io.Line()).(registered := false)
  {
    io.ReadFailed();
  }

  // ---------------------------------------------------------------- everyone

  ghost predicate UpToDateAt(cs: seq<Consumer>, i: nat, b: Book, rx: bool, tx: bool)
    requires i < |cs| && b.Fits(|cs|)
    reads cs[i].io, cs[i].io.sock
  {
    UpToDate(cs[i].io, b.heard[i], b.notes[i], rx, tx)
  }

  /** What the book has of the others does not matter to a consumer. */
  lemma SameFor(cs: seq<Consumer>, i: nat, b: Book, b': Book, rx: bool, tx: bool)
    requires i < |cs| && b.Fits(|cs|) && b'.Fits(|cs|) && b'.heard[i] == b.heard[i] && b'.notes[i] == b.notes[i]
    requires UpToDateAt(cs, i, b, true, tx)
    ensures UpToDateAt(cs, i, b', rx, tx)
  {
  }

  /** Every consumer has a good schedule, and no read has failed. */
  ghost predicate AllGood(cs: seq<Consumer>, b: Book) {
    b.Fits(|cs|) && forall i :: 0 <= i < |cs| ==> GoodWrites(cs[i].io.sock.plan) && !b.notes[i].broke
  }

  /** The filters of those on the list. */
  function Wants(cs: seq<Consumer>, listed: seq<bool>): seq<Filters.FilterList>
    requires |cs| == |listed|
  {
    if cs == [] then []
    else
      var n := |cs| - 1;
      Wants(cs[..n], listed[..n]) + (if listed[n] then [cs[n].filters] else [])
  }

  lemma {:induction false} WantsHas(cs: seq<Consumer>, listed: seq<bool>, i: nat) returns (k: nat)
    requires |cs| == |listed| && i < |cs| && listed[i]
    ensures k < |Wants(cs, listed)| && Wants(cs, listed)[k] == cs[i].filters
    decreases |cs|
  {
    var n := |cs| - 1;
    if i == n {
      k := |Wants(cs[..n], listed[..n])|;
    } else {
      k := WantsHas(cs[..n], listed[..n], i);
    }
  }

  lemma {:induction false} WantsOnly(cs: seq<Consumer>, listed: seq<bool>, k: nat) returns (i: nat)
    requires |cs| == |listed| && k < |Wants(cs, listed)|
    ensures i < |cs| && listed[i] && Wants(cs, listed)[k] == cs[i].filters
    decreases |cs|
  {
    var n := |cs| - 1;
    if k < |Wants(cs[..n], listed[..n])| {
      i := WantsOnly(cs[..n], listed[..n], k);
    } else {
      i := n;
    }
  }

  /** The bus lets through what somebody on the list accepts, and everything if nobody is on it. */
  lemma WantedByOne(cs: seq<Consumer>, listed: seq<bool>, f: Frame)
    requires |cs| == |listed|
    ensures Filters.Accepts(Filters.Union(Wants(cs, listed)), f) <==>
      || (forall i :: 0 <= i < |cs| ==> !listed[i])
      || (exists i :: 0 <= i < |cs| && listed[i] && Filters.Accepts(cs[i].filters, f))
  {
    var wants := Wants(cs, listed);
    Filters.UnionIsWhatAnyoneWants(wants, f);
    if wants != [] {
      var i := WantsOnly(cs, listed, 0);
    }
    forall i | 0 <= i < |cs| && listed[i]
      ensures wants != [] && (Filters.Accepts(cs[i].filters, f) ==> Filters.SomeoneAccepts(wants, f))
    {
      var k := WantsHas(cs, listed, i);
      assert wants[k] == cs[i].filters;
    }
    if Filters.SomeoneAccepts(wants, f) {
      var k :| 0 <= k < |wants| && Filters.Accepts(wants[k], f);
      var i := WantsOnly(cs, listed, k);
    }
  }

  /** So what the bus filter drops, nobody on the list accepts. */
  lemma DroppedByAll(cs: seq<Consumer>, listed: seq<bool>, f: Frame)
    requires |cs| == |listed| && !Filters.Accepts(Filters.Union(Wants(cs, listed)), f)
    ensures forall i :: 0 <= i < |cs| && listed[i] ==> !Filters.Accepts(cs[i].filters, f)
  {
    WantedByOne(cs, listed, f);
  }

  /** What happens between two turns of the RX thread. */
  datatype Act =
    | Join(plan: nat -> Reply, sub: Filters.Subscription)   // the HTTP thread subscribes a consumer
    | Loopback(k: nat, frame: Frame)                        // TX forwards another's frame to consumer k
    | Writable(k: nat)                                      // TX finds consumer k writable
    | Broken(k: nat)                                        // TX's read from consumer k raises

  datatype Event =
    | Bus(frame: Frame, bursts: seq<seq<Act>>)   // a frame on the bus, and what happens during its fan-out
    | Meanwhile(act: Act)

  predicate SoundAct(a: Act) {
    a.Loopback? ==> Sendable(a.frame)
  }

  /** It brings in no consumer with a bad schedule, and is no failed read. */
  ghost predicate Smooth(a: Act) {
    !a.Broken? && (a.Join? ==> GoodWrites(a.plan))
  }

  ghost predicate SmoothEvent(e: Event) {
    match e
    case Bus(_, bursts) => forall i, j :: 0 <= i < |bursts| && 0 <= j < |bursts[i]| ==> Smooth(bursts[i][j])
    case Meanwhile(a) => Smooth(a)
  }

  predicate SoundEvent(e: Event) {
    match e
    case Bus(f, bursts) => Sendable(f) && forall i, j :: 0 <= i < |bursts| && 0 <= j < |bursts[i]| ==> SoundAct(bursts[i][j])
    case Meanwhile(a) => SoundAct(a)
  }

  /** What the events put on the bus. */
  function OnTheBus(events: seq<Event>): seq<Frame> {
    if events == [] then []
    else
      var last := events[|events| - 1];
      OnTheBus(events[..|events| - 1]) + (if last.Bus? then [last.frame] else [])
  }

  /** The turn of consumer `i` in the fan-out of `f` ends the RX thread. */
  ghost predicate EndsRx(cs: seq<Consumer>, listed: seq<bool>, i: nat, f: Frame)
    requires i < |cs| == |listed|
    reads cs[i].io, cs[i].io.sock
  {
    Share(cs[i], listed[i], f) != [] && cs[i].io.EndsForward()
  }

  /** What the turn of consumer `i` is to do. */
  ghost function ProspectAt(cs: seq<Consumer>, listed: seq<bool>, i: nat, f: Frame): VirtualBus.Prospect
    requires i < |cs| == |listed|
    reads cs[i].io, cs[i].io.sock
  {
    VirtualBus.ProspectOf(cs[i].io, Rx, Share(cs[i], listed[i], f))
  }

  /** `ps`, as far as it goes, says what each turn is to do. */
  ghost predicate Foreseen(cs: seq<Consumer>, listed: seq<bool>, i: nat, f: Frame, ps: seq<VirtualBus.Prospect>)
    requires i < |cs| == |listed|
    reads cs[i].io, cs[i].io.sock
  {
    i < |ps| ==> ps[i] == ProspectAt(cs, listed, i, f)
  }

  /** The turn of consumer `i` has done it. */
  ghost predicate Met(cs: seq<Consumer>, i: nat, ps: seq<VirtualBus.Prospect>)
    requires i < |cs|
    reads cs[i].io, cs[i].io.sock
  {
    i < |ps| ==> cs[i].io.Line() == ps[i].after
  }

  // ---------------------------------------------------------------- what everyone is to hear

  /** The stream so far, who joined and when in it, how much of it was there when each left the
      list, or is by now, and what each is to have accepted of it. */
  datatype Book = Book(stream: seq<Frame>, entries: seq<VirtualBus.Entry>, until: seq<nat>,
                       heard: seq<seq<Frame>>, notes: seq<Note>)
  {
    ghost predicate Fits(n: nat) {
      |entries| == |until| == |heard| == |notes| == n
    }

    /** Nothing but the notes is different. */
    ghost predicate Noted(b: Book) {
      b == Book(stream, entries, until, heard, b.notes)
    }

    /** After a subscription. */
    function Joined(c: Consumer): Book {
      Book(stream, entries + [VirtualBus.Entry(c.io.sock.plan, c.filters, |stream|)], until + [|stream|], heard + [[]],
           notes + [Note(false, false, false)])
    }
  }

  /** Who joins by these acts after `n` frames. */
  function EntriesIn(acts: seq<Act>, n: nat): seq<VirtualBus.Entry> {
    if acts == [] then []
    else
      var last := acts[|acts| - 1];
      EntriesIn(acts[..|acts| - 1], n)
      + (if last.Join? then [VirtualBus.Entry(last.plan, Filters.Normalize(last.sub), n)] else [])
  }

  lemma EntriesSoFar(acts: seq<Act>, k: nat, n: nat)
    requires k < |acts|
    ensures EntriesIn(acts[..k + 1], n) == EntriesIn(acts[..k], n) + EntriesIn([acts[k]], n)
  {
    assert acts[..k + 1][..k] == acts[..k];
    OneAct(acts[k], n);
  }

  lemma OneAct(a: Act, n: nat)
    ensures EntriesIn([a], n) == if a.Join? then [VirtualBus.Entry(a.plan, Filters.Normalize(a.sub), n)] else []
  {
    assert [a][..0] == [] && EntriesIn([], n) == [];
  }

  /** Between two frames: all there is to see is subscriptions, of now. */
  ghost predicate Grown(p: Book, q: Book) {
    && p.Fits(|p.entries|) && q.Fits(|q.entries|) && p.entries <= q.entries && q.stream == p.stream && p.until <= q.until
    && (forall j :: 0 <= j < |p.notes| ==> q.notes[j].out == p.notes[j].out)
    && (forall j :: |p.notes| <= j < |q.notes| ==> !q.notes[j].out && q.entries[j].since == q.until[j] == |p.stream|)
  }

  lemma {:induction false} GrownOn(p: Book, q: Book, r: Book)
    requires Grown(p, q) && Grown(q, r)
    ensures Grown(p, r)
  {
  }

  lemma {:induction false} GivenIsGrown(p: Book, b: Book, i: nat, share: seq<Frame>, shut: bool)
    requires Grown(p, b) && i < |b.entries|
    ensures Grown(p, Given(b, i, share, shut))
  {
  }

  /** Nobody left. */
  ghost predicate NobodyLeft(p: Book, q: Book) {
    && |p.notes| <= |q.notes| && (forall j :: 0 <= j < |p.notes| ==> q.notes[j].out == p.notes[j].out)
    && (forall j :: |p.notes| <= j < |q.notes| ==> !q.notes[j].out)
  }

  /** What a burst of acts comes to. */
  ghost predicate Burst(p: Book, q: Book, acts: seq<Act>) {
    Grown(p, q) && q.entries == p.entries + EntriesIn(acts, |p.stream|)
  }

  lemma {:induction false} BurstOn(p: Book, q: Book, r: Book, acts: seq<Act>, k: nat)
    requires k < |acts| && Burst(p, q, acts[..k]) && Burst(q, r, [acts[k]])
    ensures Burst(p, r, acts[..k + 1])
  {
    EntriesSoFar(acts, k, |p.stream|);
    GrownOn(p, q, r);
  }

  lemma {:induction false} NotesAreBurst(p: Book, q: Book, cs: seq<Consumer>, a: Act)
    requires p.Fits(|cs|) && p.Noted(q) && Changed(p.notes, q.notes, a) && !a.Join?
    ensures Burst(p, q, [a]) && (AllGood(cs, p) && Smooth(a) ==> AllGood(cs, q))
  {
    OneAct(a, |p.stream|);
  }

  /** One event on: everyone keeps the point it joined at, newcomers have that of the stream before,
      and who is off the list stays off, with the point it left at: that of the stream by then. */
  ghost predicate Moved(p: Book, q: Book) {
    && p.Fits(|p.entries|) && q.Fits(|q.entries|) && p.entries <= q.entries && p.stream <= q.stream
    && (forall j :: |p.entries| <= j < |q.entries| ==> q.entries[j].since == |p.stream|)
    && (forall j :: 0 <= j < |p.notes| && p.notes[j].out ==> q.notes[j].out && q.until[j] == p.until[j])
    && (forall j :: 0 <= j < |q.notes| && q.notes[j].out && (j < |p.notes| ==> !p.notes[j].out) ==> q.until[j] == |q.stream|)
  }

  /** A frame after some growth is such a move. */
  lemma {:induction false} FrameMoves(p: Book, q: Book, cs: seq<Consumer>, listed: seq<bool>, i: nat, f: Frame)
    requires Grown(p, q) && |cs| == |listed| == |q.entries|
    requires forall j :: 0 <= j < |listed| ==> listed[j] == !q.notes[j].out
    ensures Moved(p, AllGiven(cs, listed, q, i, f)) && NobodyLeft(p, q)
  {
  }

  /** And still is one after some have left, whose point was that of the stream. */
  lemma {:induction false} LeavingMoves(p: Book, q: Book, r: Book)
    requires Moved(p, q) && q.Noted(r) && |r.notes| == |q.notes|
    requires forall j :: 0 <= j < |q.notes| ==> if q.notes[j].out then r.notes[j].out else q.until[j] == |q.stream|
    ensures Moved(p, r)
  {
  }

  lemma {:induction false} GrownMoves(p: Book, q: Book)
    requires Grown(p, q)
    ensures Moved(p, q)
  {
  }

  /** What `f` adds to what a consumer is to hear. */
  function Share(c: Consumer, listed: bool, f: Frame): seq<Frame> {
    if listed && Filters.Accepts(c.filters, f) then [f] else []
  }

  ghost predicate PlaceAt(cs: seq<Consumer>, listed: seq<bool>, b: Book, j: nat)
    requires |cs| == |listed| && b.Fits(|cs|) && j < |cs|
  {
    && b.entries[j].since <= b.until[j] <= |b.stream| && (listed[j] ==> b.until[j] == |b.stream|)
    && listed[j] == !b.notes[j].out && b.entries[j].plan == cs[j].io.sock.plan && b.entries[j].filters == cs[j].filters
  }

  /** What consumer `j` is to have accepted is its part of the stream, through its filters. */
  ghost predicate ToldAt(cs: seq<Consumer>, listed: seq<bool>, b: Book, j: nat)
    requires |cs| == |listed| && b.Fits(|cs|) && j < |cs|
  {
    PlaceAt(cs, listed, b, j) && b.heard[j] == Filters.Through(cs[j].filters, b.stream[b.entries[j].since..b.until[j]])
  }

  /** The same, with its share of `f` already. */
  ghost predicate GivenAt(cs: seq<Consumer>, listed: seq<bool>, b: Book, j: nat, f: Frame)
    requires |cs| == |listed| && b.Fits(|cs|) && j < |cs|
  {
    && PlaceAt(cs, listed, b, j)
    && b.heard[j] == Filters.Through(cs[j].filters, b.stream[b.entries[j].since..b.until[j]]) + Share(cs[j], listed[j], f)
  }

  ghost predicate OpenAt(listed: seq<bool>, b: Book, j: nat)
    requires b.Fits(|listed|) && j < |listed|
  {
    listed[j] ==> !b.notes[j].shut
  }

  ghost predicate Told(cs: seq<Consumer>, listed: seq<bool>, b: Book) {
    |cs| == |listed| && b.Fits(|cs|) && forall j :: 0 <= j < |cs| ==> ToldAt(cs, listed, b, j)
  }

  /** The first `i` consumers have had their share of `f`; those still to come are not closed while
      RX runs. */
  ghost predicate Reached(cs: seq<Consumer>, listed: seq<bool>, b: Book, i: nat, f: Frame, rx: bool) {
    && |cs| == |listed| && b.Fits(|cs|) && i <= |cs|
    && (forall j :: 0 <= j < i ==> GivenAt(cs, listed, b, j, f))
    && (forall j :: i <= j < |cs| ==> ToldAt(cs, listed, b, j))
    && (rx ==> forall j :: i <= j < |cs| ==> OpenAt(listed, b, j))
  }

  lemma {:induction false} JoinKeeps(cs: seq<Consumer>, listed: seq<bool>, b: Book, i: nat, f: Frame, rx: bool, c: Consumer)
    requires Reached(cs, listed, b, i, f, rx)
    ensures Reached(cs + [c], listed + [true], b.Joined(c), i, f, rx)
  {
    var cs', listed', b' := cs + [c], listed + [true], b.Joined(c);
    forall j | 0 <= j < i
      ensures GivenAt(cs', listed', b', j, f)
    {
      assert GivenAt(cs, listed, b, j, f);
    }
    forall j | i <= j < |cs'|
      ensures ToldAt(cs', listed', b', j) && (rx ==> OpenAt(listed', b', j))
    {
      if j < |cs| { assert ToldAt(cs, listed, b, j) && (rx ==> OpenAt(listed, b, j)); }
    }
  }

  lemma {:induction false} BreakKeeps(cs: seq<Consumer>, listed: seq<bool>, b: Book, i: nat, f: Frame, rx: bool, k: nat)
    requires Reached(cs, listed, b, i, f, rx) && k < |cs|
    ensures Reached(cs, listed, Broke(b, k), i, f, rx)
  {
    var b' := Broke(b, k);
    forall j | 0 <= j < i
      ensures GivenAt(cs, listed, b', j, f)
    {
      assert GivenAt(cs, listed, b, j, f);
    }
    forall j | i <= j < |cs|
      ensures ToldAt(cs, listed, b', j) && (rx ==> OpenAt(listed, b', j))
    {
      assert ToldAt(cs, listed, b, j) && (rx ==> OpenAt(listed, b, j));
    }
  }

  /** Consumer `i` has had its share. */
  lemma {:induction false} GiveNext(cs: seq<Consumer>, listed: seq<bool>, b: Book, i: nat, f: Frame, shut: bool)
    requires Reached(cs, listed, b, i, f, true) && i < |cs|
    ensures Reached(cs, listed, Given(b, i, Share(cs[i], listed[i], f), shut), i + 1, f, true)
  {
    var b' := Given(b, i, Share(cs[i], listed[i], f), shut);
    forall j | 0 <= j <= i
      ensures GivenAt(cs, listed, b', j, f)
    {
      if j < i {
        assert GivenAt(cs, listed, b, j, f);
      } else {
        assert ToldAt(cs, listed, b, i);
      }
    }
    forall j | i < j < |cs|
      ensures ToldAt(cs, listed, b', j) && OpenAt(listed, b', j)
    {
      assert ToldAt(cs, listed, b, j) && OpenAt(listed, b, j);
    }
  }

  function Given(b: Book, i: nat, share: seq<Frame>, shut: bool): Book
    requires i < |b.heard| && i < |b.notes|
  {
    b.(heard := b.heard[i := b.heard[i] + share], notes := b.notes[i := b.notes[i].(shut := shut)])
  }

  lemma GivenNothing(b: Book, i: nat)
    requires i < |b.heard| && i < |b.notes|
    ensures Given(b, i, [], b.notes[i].shut) == b
  {
    assert b.heard[i] + [] == b.heard[i];
    assert b.notes[i].(shut := b.notes[i].shut) == b.notes[i];
    assert b.heard[i := b.heard[i]] == b.heard && b.notes[i := b.notes[i]] == b.notes;
  }

  /** A read from consumer `k` has failed. */
  function Broke(b: Book, k: nat): Book
    requires k < |b.notes|
  {
    b.(notes := b.notes[k := b.notes[k].(broke := true)])
  }

  /** Consumer `k` is off the list. */
  function Removed(b: Book, k: nat): Book
    requires k < |b.notes|
  {
    b.(notes := b.notes[k := b.notes[k].(out := true)])
  }

  lemma {:induction false} RemoveKeeps(cs: seq<Consumer>, listed: seq<bool>, b: Book, k: nat)
    requires Told(cs, listed, b) && k < |cs|
    ensures Told(cs, listed[k := false], Removed(b, k))
  {
    var listed', b' := listed[k := false], Removed(b, k);
    forall j | 0 <= j < |cs|
      ensures ToldAt(cs, listed', b', j)
    {
      assert ToldAt(cs, listed, b, j);
    }
  }

  /** A frame nobody accepts has reached everyone. */
  lemma {:induction false} NobodysShare(cs: seq<Consumer>, listed: seq<bool>, b: Book, f: Frame)
    requires Told(cs, listed, b) && forall j :: 0 <= j < |cs| && listed[j] ==> !Filters.Accepts(cs[j].filters, f)
    ensures Reached(cs, listed, b, |cs|, f, true)
  {
    forall j | 0 <= j < |cs|
      ensures GivenAt(cs, listed, b, j, f)
    {
      assert ToldAt(cs, listed, b, j) && b.heard[j] + [] == b.heard[j];
    }
  }

  /** The book once the frame's fan-out is over, or was cut short in the turn of consumer `i - 1`. */
  ghost function AllGiven(cs: seq<Consumer>, listed: seq<bool>, b: Book, i: nat, f: Frame): (r: Book)
    requires |cs| == |listed| && b.Fits(|cs|)
    ensures r.Fits(|cs|) && r.stream == b.stream + [f] && r.entries == b.entries && r.notes == b.notes
    ensures forall j :: 0 <= j < |cs| ==> r.heard[j] == if j < i then b.heard[j] else b.heard[j] + Share(cs[j], listed[j], f)
    ensures forall j :: 0 <= j < |cs| ==> r.until[j] == if listed[j] then b.until[j] + 1 else b.until[j]
  {
    Book(b.stream + [f], b.entries,
         seq(|cs|, j requires 0 <= j < |cs| => if listed[j] then b.until[j] + 1 else b.until[j]),
         seq(|cs|, j requires 0 <= j < |cs| => if j < i then b.heard[j] else b.heard[j] + Share(cs[j], listed[j], f)),
         b.notes)
  }

  lemma {:induction false} AllGivenTells(cs: seq<Consumer>, listed: seq<bool>, b: Book, i: nat, f: Frame)
    requires Reached(cs, listed, b, i, f, false)
    ensures Told(cs, listed, AllGiven(cs, listed, b, i, f))
  {
    var r := AllGiven(cs, listed, b, i, f);
    forall j | 0 <= j < |cs|
      ensures ToldAt(cs, listed, r, j)
    {
      if j < i { assert GivenAt(cs, listed, b, j, f); } else { assert ToldAt(cs, listed, b, j); }
      ShareNext(cs[j], listed[j], f, b.stream, b.entries[j].since, b.until[j]);
    }
  }

  lemma ShareNext(c: Consumer, listed: bool, f: Frame, stream: seq<Frame>, since: nat, until: nat)
    requires since <= until <= |stream| && (listed ==> until == |stream|)
    ensures Filters.Through(c.filters, (stream + [f])[since..if listed then until + 1 else until])
         == Filters.Through(c.filters, stream[since..until]) + Share(c, listed, f)
  {
    var before := stream[since..until];
    if listed {
      assert (stream + [f])[since..until + 1] == before + [f] && (before + [f])[..|before|] == before;
      if !Filters.Accepts(c.filters, f) { assert Filters.Through(c.filters, before) + [] == Filters.Through(c.filters, before); }
    } else {
      assert (stream + [f])[since..until] == before;
    }
  }

  // ---------------------------------------------------------------- the server

  class Server {
    const cap: nat
    const useStream: bool
    var all: seq<Consumer>             // everyone who ever subscribed, in order
    var listed: seq<bool>              // who of them is in `_consumers`
    var busFilters: Filters.FilterList // what the bus was last told
    var rxRunning: bool
    var txRunning: bool
    ghost var book: Book
    ghost var rxEnd: nat               // whom RX was serving when it died
    ghost var txEnd: nat
    ghost var repr: set<object>

    ghost predicate Apart()
      reads this`all, this`repr
    {
      && this !in repr && cap >= 1 && VirtualBus.ApartIn(all, repr)
      && forall i :: 0 <= i < |all| ==> all[i].io.cap == cap && all[i].io.isStream == useStream
    }

    /** Every consumer has accepted what it is to, exactly so while RX runs; and each thread runs
        until it dies serving one of them. */
    ghost predicate Served()
      reads this`all, this`listed, this`rxRunning, this`txRunning, this`book, this`rxEnd, this`txEnd, this`repr, repr
    {
      && Apart() && |listed| == |all| && book.Fits(|all|)
      && (forall i :: 0 <= i < |all| ==> UpToDateAt(all, i, book, rxRunning, txRunning))
      && (!rxRunning ==> rxEnd < |all| && !all[rxEnd].io.rxAlive)
      && (!txRunning ==> txEnd < |all| && !all[txEnd].io.txAlive)
    }

    /** The bus was told what those on the list want. */
    ghost predicate Tuned()
      reads this`all, this`listed, this`busFilters
    {
      |listed| == |all| && busFilters == Filters.Union(Wants(all, listed))
    }

    /** RX waits for the bus, or is gone. */
    ghost predicate Valid()
      reads this, repr
    {
      && Served() && Tuned() && Told(all, listed, book)
      && (rxRunning ==> forall j :: 0 <= j < |all| ==> OpenAt(listed, book, j))
    }

    constructor (cap: nat, useStream: bool)
      requires cap >= 1
      ensures Valid() && rxRunning && txRunning && all == [] && book.stream == []
      ensures this.cap == cap && this.useStream == useStream && fresh(repr)
    {
      this.cap, this.useStream := cap, useStream;
      all, listed, busFilters, rxRunning, txRunning := [], [], Some([]), true, true;
      book, rxEnd, txEnd, repr := Book([], [], [], [], []), 0, 0, {};
    }

    // -------------------------------------------------------------- between the turns of RX

    /** What TX does to consumer `k` leaves the others as they are. */
    method EchoAt(k: nat, frame: Frame)
      requires Served() && txRunning && k < |all| && Sendable(frame)
      modifies all[k].io, all[k].io.sock
      ensures Apart() && forall i :: 0 <= i < |all| ==> UpToDateAt(all, i, book, rxRunning, all[k].io.txAlive)
      ensures (all[k].io.txAlive <==> !old(all[k].io.EndsForward())) && (!rxRunning ==> !all[rxEnd].io.rxAlive)
      ensures all[k].io.s.log == old(all[k].io.s.log) + [Item(Tx, |old(all[k].io.s.txOffers)|, frame)]
      ensures all[k].io.Line() == old(all[k].io.LineAfter(Tx, frame))
    {
      assert UpToDateAt(all, k, book, rxRunning, true);
      EchoTo(all[k].io, frame, book.heard[k], book.notes[k], rxRunning);
      forall i | 0 <= i < |all|
        ensures UpToDateAt(all, i, book, rxRunning, all[k].io.txAlive)
      {
        if i != k { assert old(UpToDateAt(all, i, book, rxRunning, true)); }
      }
    }

    method LoopbackTo(k: nat, frame: Frame)
      requires Served() && txRunning && k < |all| && Sendable(frame)
      modifies this`txRunning, this`txEnd, all[k].io, all[k].io.sock
      ensures Served() && (txRunning <==> !old(all[k].io.EndsForward()))
      ensures all[k].io.s.log == old(all[k].io.s.log) + [Item(Tx, |old(all[k].io.s.txOffers)|, frame)]
      ensures all[k].io.Line() == old(all[k].io.LineAfter(Tx, frame))
    {
      EchoAt(k, frame);
      if !all[k].io.txAlive {
        txRunning, txEnd := false, k;
      }
    }

    method DrainAt(k: nat, ghost p: VirtualBus.Prospect)
      requires Served() && txRunning && k < |all| && all[k].io.registered && all[k].io.interest.ReadWrite?
      requires p == VirtualBus.DrainProspect(all[k].io)
      modifies all[k].io, all[k].io.sock
      ensures Apart() && forall i :: 0 <= i < |all| ==> UpToDateAt(all, i, book, rxRunning, all[k].io.txAlive)
      ensures (!rxRunning ==> !all[rxEnd].io.rxAlive) && VirtualBus.DrainedTo(all[k].io, p)
    {
      assert UpToDateAt(all, k, book, rxRunning, true);
      DrainOf(all[k].io, book.heard[k], book.notes[k], rxRunning, p);
      forall i | 0 <= i < |all|
        ensures UpToDateAt(all, i, book, rxRunning, all[k].io.txAlive)
      {
        if i != k { assert old(UpToDateAt(all, i, book, rxRunning, true)); }
      }
    }

    method DrainOne(k: nat, ghost p: VirtualBus.Prospect)
      requires Served() && txRunning && k < |all| && all[k].io.registered && all[k].io.interest.ReadWrite?
      requires p == VirtualBus.DrainProspect(all[k].io)
      modifies this`txRunning, this`txEnd, all[k].io, all[k].io.sock
      ensures Served() && (txRunning <==> !p.ends) && VirtualBus.DrainedTo(all[k].io, p)
    {
      DrainAt(k, p);
      if !all[k].io.txAlive {
        txRunning, txEnd := false, k;
      }
    }

    /** A read from consumer `k` fails. */
    method BreakAt(k: nat)
      requires Served() && txRunning && k < |all| && all[k].io.registered
      modifies all[k].io
      ensures Apart() && (!rxRunning ==> !all[rxEnd].io.rxAlive)
      ensures all[k].io.Line() == old(all[k].io.Line()).(registered := false)
      ensures forall i :: 0 <= i < |all| ==> UpToDateAt(all, i, Broke(book, k), rxRunning, true)
    {
      assert UpToDateAt(all, k, book, rxRunning, true);
      ReadFailedOn(all[k].io, book.heard[k], book.notes[k], rxRunning);
      forall i | 0 <= i < |all|
        ensures UpToDateAt(all, i, Broke(book, k), rxRunning, true)
      {
        if i != k { assert old(UpToDateAt(all, i, book, rxRunning, true)); }
      }
    }

    method Break(k: nat)
      requires Served() && txRunning && k < |all| && all[k].io.registered
      modifies this`book, all[k].io
      ensures Served() && book == Broke(old(book), k)
      ensures all[k].io.Line() == old(all[k].io.Line()).(registered := false)
    {
      BreakAt(k);
      book := Broke(book, k);
    }

    /** `_refresh_bus_filters`. */
    method RefreshBusFilters()
      requires |listed| == |all|
      modifies this`busFilters
      ensures Tuned()
    {
      busFilters := Filters.AggregateFilters(Wants(all, listed));
    }

    method NewConsumer(plan: nat -> Reply, sub: Filters.Subscription) returns (c: Consumer)
      requires cap >= 1
      ensures fresh(c.io) && fresh(c.io.sock) && c.io.cap == cap && c.io.isStream == useStream
      ensures c.io.sock.plan == plan && c.filters == Filters.Normalize(sub)
      ensures UpToDate(c.io, [], Note(false, false, false), true, true) && Pristine(c.io)
    {
      var sock := new SendSocket(plan);
      var io := new ConsumerIO(cap, useStream, sock);
      c := VirtualBus.Consumer(io, Filters.Normalize(sub));
    }

    method Enlist(c: Consumer)
      requires Served() && c.io.cap == cap && c.io.isStream == useStream && c.io !in repr && c.io.sock !in repr
      requires UpToDate(c.io, [], Note(false, false, false), true, true)
      modifies this`all, this`listed, this`book, this`repr
      ensures Served() && all == old(all) + [c] && listed == old(listed) + [true] && repr == old(repr) + {c.io, c.io.sock}
      ensures book == old(book).Joined(c)
    {
      VirtualBus.ApartNext(all, repr, c);
      JoinedServes(c);
      all, listed, book, repr := all + [c], listed + [true], book.Joined(c), repr + {c.io, c.io.sock};
    }

    lemma JoinedServes(c: Consumer)
      requires Served() && UpToDate(c.io, [], Note(false, false, false), true, true)
      ensures forall i :: 0 <= i <= |all| ==> UpToDateAt(all + [c], i, book.Joined(c), rxRunning, txRunning)
    {
      var cs, b := all + [c], book.Joined(c);
      forall i | 0 <= i <= |all|
        ensures UpToDateAt(cs, i, b, rxRunning, txRunning)
      {
        if i < |all| { assert UpToDateAt(all, i, book, rxRunning, txRunning); }
      }
    }

    /** `listen_to`. */
    method Subscribe(plan: nat -> Reply, sub: Filters.Subscription)
      requires Served()
      modifies this`all, this`listed, this`busFilters, this`book, this`repr
      ensures Served() && Tuned() && fresh(repr - old(repr)) && old(repr) <= repr && listed == old(listed) + [true]
      ensures |all| == |old(all)| + 1 && all == old(all) + [all[|old(all)|]] && book == old(book).Joined(all[|old(all)|])
      ensures all[|old(all)|].io.sock.plan == plan && all[|old(all)|].filters == Filters.Normalize(sub)
      ensures Pristine(all[|old(all)|].io)
    {
      var c := NewConsumer(plan, sub);
      Enlist(c);
      RefreshBusFilters();
    }

    /** Wherever a fan-out is, a subscription leaves what everyone is to hear as it was. */
    method Admit(plan: nat -> Reply, sub: Filters.Subscription, ghost i: nat, ghost f: Frame)
      requires Served() && Reached(all, listed, book, i, f, rxRunning)
      modifies this`all, this`listed, this`busFilters, this`book, this`repr
      ensures Served() && Tuned() && Reached(all, listed, book, i, f, rxRunning) && fresh(repr - old(repr)) && old(repr) <= repr
      ensures |all| == |old(all)| + 1 && listed == old(listed) + [true] && old(all) <= all
      ensures book == old(book).Joined(all[|old(all)|]) && Burst(old(book), book, [Join(plan, sub)])
      ensures rxRunning == old(rxRunning) && TxIdles()
      ensures var c := all[|old(all)|]; c.io.sock.plan == plan && c.filters == Filters.Normalize(sub) && Pristine(c.io)
      ensures AllGood(old(all), old(book)) && GoodWrites(plan) ==> AllGood(all, book)
    {
      OneAct(Join(plan, sub), |book.stream|);
      Subscribe(plan, sub);
      JoinKeeps(old(all), old(listed), old(book), i, f, rxRunning, all[|old(all)|]);
    }

    /** What an act changes, besides the book: the line of one consumer, or of nobody, and perhaps
        TX. */
    twostate predicate Did(a: Act)
      requires old(Apart()) && Apart() && old(repr) <= repr
      reads this, repr
    {
      && rxRunning == old(rxRunning) && listed == old(listed) + (if a.Join? then [true] else []) && (a.Join? || all == old(all))
      && match a
         case Join(_, _) => TxIdles()
         case Loopback(k, frame) =>
           if old(txRunning && k < |all| == |listed| && listed[k] && Filters.Accepts(all[k].filters, frame)) then Echoed(k, frame)
           else TxIdles()
         case Writable(k) =>
           if old(txRunning && k < |all| && all[k].io.registered && all[k].io.interest.ReadWrite?) then Emptied(k)
           else TxIdles()
         case Broken(k) => if old(txRunning && k < |all| && all[k].io.registered) then Lost(k) else TxIdles()
    }

    twostate predicate TxIdles()
      requires old(repr) <= repr
      reads this, repr
    {
      txRunning == old(txRunning) && unchanged(old(repr))
    }

    /** Nobody but consumer `k` is touched. */
    twostate predicate Only(k: nat)
      requires k < |old(all)| && old(repr) <= repr
      reads this, repr
    {
      unchanged(old(repr) - {old(all)[k].io, old(all)[k].io.sock})
    }

    twostate predicate Echoed(k: nat, frame: Frame)
      requires k < |old(all)| && all == old(all) && old(repr) <= repr
      reads this, repr, all[k].io, all[k].io.sock
    {
      && Only(k) && (txRunning <==> !old(all[k].io.EndsForward())) && all[k].io.Line() == old(all[k].io.LineAfter(Tx, frame))
      && all[k].io.s.log == old(all[k].io.s.log) + [Item(Tx, |old(all[k].io.s.txOffers)|, frame)]
    }

    twostate predicate Emptied(k: nat)
      requires k < |old(all)| && all == old(all) && old(repr) <= repr
      reads this, repr, all[k].io, all[k].io.sock
    {
      && Only(k) && (txRunning <==> !old(all[k].io.EndsDrain()))
      && VirtualBus.DrainedTo(all[k].io, old(VirtualBus.DrainProspect(all[k].io)))
    }

    twostate predicate Lost(k: nat)
      requires k < |old(all)| && all == old(all) && old(repr) <= repr
      reads this, repr, all[k].io, all[k].io.sock
    {
      && Only(k) && txRunning && all[k].io.Line() == old(all[k].io.Line()).(registered := false)
      && k < |book.notes| && book.notes[k].broke
    }

    method LoopbackAct(k: nat, frame: Frame)
      requires Served() && Sendable(frame)
      modifies this`txRunning, this`txEnd, repr
      ensures Served() && Did(Loopback(k, frame))
    {
      if txRunning && k < |all| && listed[k] {
        var matches := Filters.FrameMatches(all[k].filters, frame);
        if matches { LoopbackTo(k, frame); }
      }
    }

    method WritableAct(k: nat)
      requires Served()
      modifies this`txRunning, this`txEnd, repr
      ensures Served() && Did(Writable(k))
    {
      if txRunning && k < |all| && all[k].io.registered && all[k].io.interest.ReadWrite? {
        DrainOne(k, VirtualBus.DrainProspect(all[k].io));
      }
    }

    method BrokenAct(k: nat, ghost i: nat, ghost f: Frame)
      requires Served() && Reached(all, listed, book, i, f, rxRunning)
      modifies this`book, repr
      ensures Served() && Reached(all, listed, book, i, f, rxRunning) && Did(Broken(k))
      ensures old(book).Noted(book) && Changed(old(book).notes, book.notes, Broken(k))
    {
      if txRunning && k < |all| && all[k].io.registered {
        BreakKeeps(all, listed, book, i, f, rxRunning, k);
        Break(k);
      }
    }

    /** One act of another thread, if it can take it: TX looks at `_consumer_io`, and at what its
        selector watches. Wherever a fan-out is, what everyone is to hear stays as it was. */
    method Do(a: Act, ghost i: nat, ghost f: Frame)
      requires Served() && Tuned() && Reached(all, listed, book, i, f, rxRunning) && SoundAct(a)
      modifies this`all, this`listed, this`busFilters, this`txRunning, this`txEnd, this`book, this`repr, repr
      ensures Served() && Tuned() && Reached(all, listed, book, i, f, rxRunning) && fresh(repr - old(repr)) && old(all) <= all
      ensures Burst(old(book), book, [a]) && old(repr) <= repr
      ensures Changed(old(book).notes, book.notes, a) && Did(a)
      ensures a.Writable? && old(txRunning && a.k < |all| && all[a.k].io.registered && all[a.k].io.interest.ReadWrite?) ==>
        all[a.k].io.Line() == old(all[a.k].io.LineDrained())
      ensures a.Broken? && old(txRunning && a.k < |all| && all[a.k].io.registered) ==>
        !all[a.k].io.registered && book.notes[a.k].broke
      ensures a.Loopback? && old(txRunning && a.k < |all| && listed[a.k] && Filters.Accepts(all[a.k].filters, a.frame)) ==>
        all[a.k].io.s.log == old(all[a.k].io.s.log) + [Item(Tx, |old(all[a.k].io.s.txOffers)|, a.frame)]
      ensures AllGood(old(all), old(book)) && Smooth(a) ==> AllGood(all, book)
    {
      match a {
        case Join(plan, sub) => Admit(plan, sub, i, f);
        case _ => TxAct(a, i, f);
      }
    }

    /** One act of TX. */
    method TxAct(a: Act, ghost i: nat, ghost f: Frame)
      requires Served() && Reached(all, listed, book, i, f, rxRunning) && SoundAct(a) && !a.Join?
      modifies this`txRunning, this`txEnd, this`book, repr
      ensures Served() && Reached(all, listed, book, i, f, rxRunning) && Did(a)
      ensures Burst(old(book), book, [a]) && Changed(old(book).notes, book.notes, a)
      ensures AllGood(all, old(book)) && Smooth(a) ==> AllGood(all, book)
    {
      ghost var before := book;
      match a {
        case Loopback(k, frame) => LoopbackAct(k, frame);
        case Writable(k) => WritableAct(k);
        case Broken(k) => BrokenAct(k, i, f);
      }
      NotesAreBurst(before, book, all, a);
    }

    /** Between two turns the other threads get a burst of their own. */
    method Interfere(bursts: seq<seq<Act>>, ghost i: nat, ghost f: Frame) returns (left: seq<seq<Act>>)
      requires Served() && Tuned() && Reached(all, listed, book, i, f, rxRunning)
      requires SoundEvent(Bus(f, bursts))
      modifies this`all, this`listed, this`busFilters, this`txRunning, this`txEnd, this`book, this`repr, repr
      ensures Served() && Tuned() && Reached(all, listed, book, i, f, rxRunning) && fresh(repr - old(repr)) && old(all) <= all
      ensures left == (if bursts == [] then [] else bursts[1..])
      ensures if bursts == [] then unchanged(this) && unchanged(repr) else Burst(old(book), book, bursts[0])
      ensures AllGood(old(all), old(book)) && SmoothEvent(Bus(f, bursts)) ==> AllGood(all, book)
    {
      if bursts == [] {
        return [];
      }
      ghost var good := AllGood(all, book) && SmoothEvent(Bus(f, bursts));
      TakeBurst(bursts[0], i, f, good);
      return bursts[1..];
    }

    method TakeBurst(acts: seq<Act>, ghost i: nat, ghost f: Frame, ghost good: bool)
      requires Served() && Tuned() && Reached(all, listed, book, i, f, rxRunning)
      requires forall n :: 0 <= n < |acts| ==> SoundAct(acts[n]) && (good ==> Smooth(acts[n]))
      requires good ==> AllGood(all, book)
      modifies this`all, this`listed, this`busFilters, this`txRunning, this`txEnd, this`book, this`repr, repr
      ensures Served() && Tuned() && Reached(all, listed, book, i, f, rxRunning) && fresh(repr - old(repr)) && old(all) <= all
      ensures Burst(old(book), book, acts) && (good ==> AllGood(all, book))
    {
      ghost var start := book;
      for n := 0 to |acts|
        invariant Served() && Tuned() && Reached(all, listed, book, i, f, rxRunning) && fresh(repr - old(repr))
        invariant old(all) <= all && Burst(start, book, acts[..n]) && (good ==> AllGood(all, book))
      {
        ghost var before := book;
        Do(acts[n], i, f);
        BurstOn(start, before, book, acts, n);
      }
      assert acts[..|acts|] == acts;
    }

    // -------------------------------------------------------------- a turn of RX

    method FeedAt(i: nat, f: Frame)
      requires Served() && rxRunning && i < |all| && !book.notes[i].shut && Sendable(f)
      modifies all[i].io, all[i].io.sock
      ensures Apart() && forall j :: 0 <= j < |all| && j != i ==> UpToDateAt(all, j, book, true, txRunning)
      ensures var io := all[i].io; UpToDate(io, book.heard[i] + [f], book.notes[i].(shut := io.closed), io.rxAlive, txRunning)
      ensures (all[i].io.rxAlive <==> !old(all[i].io.EndsForward())) && (!txRunning ==> !all[txEnd].io.txAlive)
      ensures all[i].io.Line() == old(all[i].io.LineAfter(Rx, f))
    {
      assert UpToDateAt(all, i, book, true, txRunning);
      FeedRx(all[i].io, f, book.heard[i], book.notes[i], txRunning);
    }

    method FeedGiven(i: nat, f: Frame)
      requires Served() && rxRunning && i < |all| && !book.notes[i].shut && Sendable(f)
      modifies all[i].io, all[i].io.sock
      ensures Apart() && forall j :: 0 <= j < |all| ==>
        UpToDateAt(all, j, Given(book, i, [f], all[i].io.closed), all[i].io.rxAlive, txRunning)
      ensures (all[i].io.rxAlive <==> !old(all[i].io.EndsForward())) && (!txRunning ==> !all[txEnd].io.txAlive)
      ensures all[i].io.Line() == old(all[i].io.LineAfter(Rx, f))
    {
      FeedAt(i, f);
      GivenServes(i, f);
    }

    method Feed(i: nat, f: Frame)
      requires Served() && rxRunning && i < |all| && !book.notes[i].shut && Sendable(f)
      modifies this`rxRunning, this`rxEnd, this`book, all[i].io, all[i].io.sock
      ensures Served() && (rxRunning <==> !old(all[i].io.EndsForward())) && book == Given(old(book), i, [f], all[i].io.closed)
      ensures all[i].io.Line() == old(all[i].io.LineAfter(Rx, f))
    {
      FeedGiven(i, f);
      book := Given(book, i, [f], all[i].io.closed);
      if !all[i].io.rxAlive {
        rxRunning, rxEnd := false, i;
      }
    }

    lemma GivenServes(i: nat, f: Frame)
      requires Apart() && book.Fits(|all|) && i < |all|
      requires forall j :: 0 <= j < |all| && j != i ==> UpToDateAt(all, j, book, true, txRunning)
      requires var io := all[i].io; UpToDate(io, book.heard[i] + [f], book.notes[i].(shut := io.closed), io.rxAlive, txRunning)
      ensures forall j :: 0 <= j < |all| ==>
        UpToDateAt(all, j, Given(book, i, [f], all[i].io.closed), all[i].io.rxAlive, txRunning)
    {
      var b := Given(book, i, [f], all[i].io.closed);
      forall j | 0 <= j < |all|
        ensures UpToDateAt(all, j, b, all[i].io.rxAlive, txRunning)
      {
        if j != i { SameFor(all, j, book, b, all[i].io.rxAlive, txRunning); }
      }
    }

    /** One consumer's turn in the fan-out of `f`: its share of the frame is forwarded, and nothing
        else changes. */
    method Visit(i: nat, f: Frame)
      requires Served() && rxRunning && i < |all| && Reached(all, listed, book, i, f, true) && Sendable(f)
      modifies this`rxRunning, this`rxEnd, this`book, all[i].io, all[i].io.sock
      ensures Served() && Reached(all, listed, book, i + 1, f, true)
      ensures book == Given(old(book), i, Share(all[i], listed[i], f), book.notes[i].shut)
      ensures rxRunning <==> !old(EndsRx(all, listed, i, f))
      ensures all[i].io.Line() == old(ProspectAt(all, listed, i, f)).after
      ensures Share(all[i], listed[i], f) == [] ==> unchanged(all[i].io, all[i].io.sock)
    {
      var matches := Filters.FrameMatches(all[i].filters, f);
      if listed[i] && matches {
        assert OpenAt(listed, book, i);
        Feed(i, f);
        GiveNext(all, listed, old(book), i, f, all[i].io.closed);
      } else {
        GiveNext(all, listed, book, i, f, book.notes[i].shut);
        GivenNothing(book, i);
      }
    }

    /** The fan-out is over: the frame counts as seen by everyone on the list. */
    ghost method Conclude(i: nat, f: Frame)
      requires Served() && Reached(all, listed, book, i, f, rxRunning) && (rxRunning ==> i == |all|)
      modifies this`book
      ensures Served() && Told(all, listed, book) && book == AllGiven(all, listed, old(book), i, f)
    {
      AllGivenTells(all, listed, book, i, f);
      book := AllGiven(all, listed, book, i, f);
      forall j | 0 <= j < |all|
        ensures UpToDateAt(all, j, book, rxRunning, txRunning)
      {
        assert old(UpToDateAt(all, j, book, rxRunning, txRunning));
      }
    }

    /** Some consumer's turn ends RX, if nobody else acts in the meantime. */
    ghost predicate SomeoneEnds(f: Frame)
      requires Apart() && |listed| == |all|
      reads this`all, this`listed, this`repr, repr
    {
      exists i :: 0 <= i < |all| && EndsRx(all, listed, i, f)
    }

    /** `ps` says what each turn is to do, if nobody else acts in the meantime. */
    ghost predicate Foretells(f: Frame, ps: seq<VirtualBus.Prospect>)
      requires Apart() && |listed| == |all|
      reads this`all, this`listed, this`repr, repr
    {
      |ps| == |all| && forall i :: 0 <= i < |all| ==> Foreseen(all, listed, i, f, ps)
    }

    lemma {:induction false} Foretell(f: Frame, n: nat) returns (ps: seq<VirtualBus.Prospect>)
      requires Apart() && |listed| == |all| && n <= |all|
      ensures |ps| == n && forall i :: 0 <= i < |all| ==> Foreseen(all, listed, i, f, ps)
    {
      if n == 0 {
        return [];
      }
      var front := Foretell(f, n - 1);
      ps := front + [ProspectAt(all, listed, n - 1, f)];
      forall i | 0 <= i < |all|
        ensures Foreseen(all, listed, i, f, ps)
      {
        assert Foreseen(all, listed, i, f, front);
      }
    }

    lemma ForetellsTheEnd(f: Frame, ps: seq<VirtualBus.Prospect>)
      requires Apart() && |listed| == |all| && Foretells(f, ps)
      ensures VirtualBus.EndsSome(ps) <==> SomeoneEnds(f)
    {
      forall i | 0 <= i < |all|
        ensures ps[i].ends <==> EndsRx(all, listed, i, f)
      {
        assert Foreseen(all, listed, i, f, ps);
      }
    }

    /** `n` turns have come, each doing what it was to. */
    ghost predicate AllLined(ps: seq<VirtualBus.Prospect>, n: nat)
      reads this`all, this`repr, repr
    {
      Apart() && |ps| == |all| && forall i :: 0 <= i < |all| ==> VirtualBus.LinedAt(all, i, ps, n)
    }

    /** RX is about to serve consumer `i`; with nobody cutting in, `ps` says what the turns are to do,
        and `good` that everyone is good and stays so. */
    ghost predicate Spreading(i: nat, f: Frame, bursts: seq<seq<Act>>, ps: seq<VirtualBus.Prospect>, good: bool)
      reads this, repr
    {
      && Served() && Tuned() && rxRunning && Reached(all, listed, book, i, f, true) && SoundEvent(Bus(f, bursts))
      && (bursts != [] ==> ps == []) && (good ==> AllGood(all, book) && SmoothEvent(Bus(f, bursts)))
      && (forall j :: i <= j < |all| ==> Foreseen(all, listed, j, f, ps))
      && (forall j :: 0 <= j < i ==> Met(all, j, ps))
      && (forall j :: 0 <= j < i && j < |ps| ==> !ps[j].ends)
    }

    /** RX died in the turn before consumer `i`'s. */
    ghost predicate Over(i: nat, f: Frame, ps: seq<VirtualBus.Prospect>, good: bool)
      reads this, repr
    {
      && Served() && Tuned() && !rxRunning && Reached(all, listed, book, i, f, false) && i > 0
      && (good ==> AllGood(all, book))
      && (forall j :: i <= j < |all| ==> Foreseen(all, listed, j, f, ps))
      && (forall j :: 0 <= j < i ==> Met(all, j, ps))
      && (forall j :: 0 <= j < i && j < |ps| ==> (ps[j].ends <==> j == i - 1))
    }

    /** One turn of the fan-out. */
    method Serve(i: nat, f: Frame, ghost bursts: seq<seq<Act>>, ghost ps: seq<VirtualBus.Prospect>, ghost good: bool,
                 ghost start: Book)
      requires Spreading(i, f, bursts, ps, good) && i < |all| && Grown(start, book)
      modifies this`rxRunning, this`rxEnd, this`book, all[i].io, all[i].io.sock
      ensures if rxRunning then Spreading(i + 1, f, bursts, ps, good) else Over(i + 1, f, ps, good)
      ensures Grown(start, book)
    {
      ghost var before := book;
      VisitNext(i, f, ps);
      GivenIsGrown(start, before, i, Share(all[i], listed[i], f), book.notes[i].shut);
    }

    /** A turn, with what the others' were and are to do. */
    method VisitNext(i: nat, f: Frame, ghost ps: seq<VirtualBus.Prospect>)
      requires Served() && rxRunning && i < |all| && Reached(all, listed, book, i, f, true) && Sendable(f)
      requires forall j :: i <= j < |all| ==> Foreseen(all, listed, j, f, ps)
      requires forall j :: 0 <= j < i ==> Met(all, j, ps)
      modifies this`rxRunning, this`rxEnd, this`book, all[i].io, all[i].io.sock
      ensures Served() && Reached(all, listed, book, i + 1, f, true)
      ensures book == Given(old(book), i, Share(all[i], listed[i], f), book.notes[i].shut)
      ensures i < |ps| ==> (rxRunning <==> !ps[i].ends)
      ensures forall j :: i < j < |all| ==> Foreseen(all, listed, j, f, ps)
      ensures forall j :: 0 <= j <= i ==> Met(all, j, ps)
    {
      assert Foreseen(all, listed, i, f, ps);
      Visit(i, f);
      forall j | i < j < |all|
        ensures Foreseen(all, listed, j, f, ps)
      {
        assert old(Foreseen(all, listed, j, f, ps));
      }
      forall j | 0 <= j <= i
        ensures Met(all, j, ps)
      {
        if j < i { assert old(Met(all, j, ps)); }
      }
    }

    /** What the others do after a turn. */
    method CutIn(i: nat, f: Frame, bursts: seq<seq<Act>>, ghost ps: seq<VirtualBus.Prospect>, ghost good: bool, ghost start: Book)
      returns (left: seq<seq<Act>>)
      requires Spreading(i, f, bursts, ps, good) && Grown(start, book)
      modifies this`all, this`listed, this`busFilters, this`txRunning, this`txEnd, this`book, this`repr, repr
      ensures Spreading(i, f, left, ps, good) && Grown(start, book)
      ensures fresh(repr - old(repr)) && old(all) <= all
      ensures if bursts == [] then left == [] && all == old(all) else |left| < |bursts|
    {
      ghost var before := book;
      left := Interfere(bursts, i, f);
      if bursts != [] { GrownOn(start, before, book); }
    }

    method Turn(i: nat, f: Frame, bursts: seq<seq<Act>>, ghost ps: seq<VirtualBus.Prospect>, ghost good: bool, ghost start: Book)
      returns (left: seq<seq<Act>>)
      requires Spreading(i, f, bursts, ps, good) && i < |all| && Grown(start, book)
      modifies this, repr
      ensures if rxRunning then Spreading(i + 1, f, left, ps, good) else Over(i + 1, f, ps, good)
      ensures fresh(repr - old(repr)) && old(all) <= all && Grown(start, book)
      ensures if bursts == [] then left == [] && all == old(all) else rxRunning ==> |left| < |bursts|
    {
      left := bursts;
      Serve(i, f, bursts, ps, good, start);
      if rxRunning {
        left := CutIn(i + 1, f, bursts, ps, good, start);
      }
    }

    lemma Foresee(f: Frame, bursts: seq<seq<Act>>) returns (ps: seq<VirtualBus.Prospect>)
      requires Valid() && rxRunning && SoundEvent(Bus(f, bursts))
      ensures Spreading(0, f, bursts, ps, AllGood(all, book) && SmoothEvent(Bus(f, bursts)))
      ensures bursts == [] ==> Foretells(f, ps) && (SomeoneEnds(f) <==> VirtualBus.EndsSome(ps))
    {
      ps := Foretell(f, if bursts == [] then |all| else 0);
      if bursts == [] { ForetellsTheEnd(f, ps); }
    }

    /** The loop over `_consumers`, which subscriptions may extend meanwhile. */
    method Spread(f: Frame, bursts: seq<seq<Act>>, ghost ps: seq<VirtualBus.Prospect>, ghost good: bool) returns (ghost i: nat)
      requires Spreading(0, f, bursts, ps, good)
      modifies this, repr
      ensures if rxRunning then Spreading(i, f, [], ps, good) && i == |all| else Over(i, f, ps, good)
      ensures fresh(repr - old(repr)) && old(all) <= all && Grown(old(book), book)
      ensures bursts == [] ==> all == old(all)
    {
      var k, left := 0, bursts;
      i := 0;
      ghost var start := book;
      while k < |all|
        invariant Spreading(k, f, left, ps, good) && i == k && Grown(start, book)
        invariant fresh(repr - old(repr)) && old(all) <= all
        invariant bursts == [] ==> left == [] && all == old(all)
        decreases |left|, |all| - k
      {
        left := Turn(k, f, left, ps, good, start);
        k := k + 1;
        i := k;
        if !rxRunning {
          return;
        }
      }
    }

    /** The lines when nobody cut in. */
    lemma Lines(i: nat, f: Frame, ps: seq<VirtualBus.Prospect>, good: bool)
      requires |ps| == |all|
      requires if rxRunning then Spreading(i, f, [], ps, good) && i == |all| else Over(i, f, ps, good)
      ensures AllLined(ps, VirtualBus.TurnsFrom(ps, 0)) && (rxRunning <==> !VirtualBus.EndsSome(ps))
    {
      VirtualBus.TurnsCome(ps, 0, i);
      forall j | 0 <= j < |all|
        ensures VirtualBus.LinedAt(all, j, ps, i)
      {
        if j < i { assert Met(all, j, ps); } else { assert Foreseen(all, listed, j, f, ps); }
      }
    }

    /** What a frame does when nobody cuts in: RX survives if and only if no consumer's turn ends it,
        and the turns that come change the lines of those that accept it, and of nobody else. */
    twostate predicate Passed(f: Frame)
      requires old(Apart()) && |old(listed)| == |old(all)|
      reads this, repr
    {
      && all == old(all) && (rxRunning <==> !old(SomeoneEnds(f)))
      && exists ps :: old(Foretells(f, ps)) && AllLined(ps, VirtualBus.TurnsFrom(ps, 0))
    }

    /** A received frame's fan-out. */
    method FanOut(f: Frame, bursts: seq<seq<Act>>)
      requires Valid() && rxRunning && SoundEvent(Bus(f, bursts))
      modifies this, repr
      ensures Served() && Tuned() && Told(all, listed, book) && fresh(repr - old(repr)) && old(all) <= all
      ensures book.stream == old(book).stream + [f] && Moved(old(book), book) && NobodyLeft(old(book), book)
      ensures AllGood(old(all), old(book)) && SmoothEvent(Bus(f, bursts)) ==> AllGood(all, book)
      ensures bursts == [] ==> Passed(f)
    {
      ghost var ps := Foresee(f, bursts);
      ghost var good := AllGood(all, book) && SmoothEvent(Bus(f, bursts));
      ghost var start := book;
      ghost var i := Spread(f, bursts, ps, good);
      Close(i, f, bursts, ps, good, start);
    }

    lemma OutIsOff()
      requires Told(all, listed, book)
      ensures forall j :: 0 <= j < |all| ==> listed[j] == !book.notes[j].out
      ensures forall j :: 0 <= j < |all| && listed[j] ==> book.until[j] == |book.stream|
    {
      forall j | 0 <= j < |all|
        ensures listed[j] == !book.notes[j].out && (listed[j] ==> book.until[j] == |book.stream|)
      {
        assert ToldAt(all, listed, book, j);
      }
    }

    lemma ReachedIsOff(i: nat, f: Frame)
      requires Reached(all, listed, book, i, f, false)
      ensures forall j :: 0 <= j < |all| ==> listed[j] == !book.notes[j].out
    {
      forall j | 0 <= j < |all|
        ensures listed[j] == !book.notes[j].out
      {
        assert j < i ==> GivenAt(all, listed, book, j, f);
        assert j >= i ==> ToldAt(all, listed, book, j);
      }
    }

    /** The end of a fan-out, and what it comes to. */
    ghost method Close(i: nat, f: Frame, bursts: seq<seq<Act>>, ps: seq<VirtualBus.Prospect>, good: bool, start: Book)
      requires if rxRunning then Spreading(i, f, [], ps, good) && i == |all| else Over(i, f, ps, good)
      requires Grown(start, book) && (bursts == [] ==> |ps| == |all|)
      modifies this`book
      ensures Served() && Tuned() && Told(all, listed, book) && Moved(start, book) && NobodyLeft(start, book)
      ensures book.stream == old(book).stream + [f] && (good ==> AllGood(all, book))
      ensures bursts == [] ==> AllLined(ps, VirtualBus.TurnsFrom(ps, 0)) && (rxRunning <==> !VirtualBus.EndsSome(ps))
    {
      if bursts == [] { Lines(i, f, ps, good); }
      CloseBook(i, f, start);
    }

    ghost method CloseBook(i: nat, f: Frame, start: Book)
      requires Served() && Reached(all, listed, book, i, f, rxRunning) && (rxRunning ==> i == |all|) && Grown(start, book)
      modifies this`book
      ensures Served() && Told(all, listed, book) && Moved(start, book) && NobodyLeft(start, book)
      ensures book == AllGiven(all, listed, old(book), i, f)
    {
      ghost var last := book;
      ReachedIsOff(i, f);
      Conclude(i, f);
      FrameMoves(start, last, all, listed, i, f);
    }

    /** Consumer `i` was found closed, or TX has reported it: `consumers.remove` and the entry in `_consumer_io`. */
    method Remove(i: nat)
      requires Served() && Told(all, listed, book) && i < |all| && (all[i].io.closed || !all[i].io.registered)
      modifies this`listed, this`book
      ensures Served() && Told(all, listed, book) && listed == old(listed)[i := false] && book == Removed(old(book), i)
    {
      RemoveKeeps(all, listed, book, i);
      listed, book := listed[i := false], Removed(book, i);
      forall j | 0 <= j < |all|
        ensures UpToDateAt(all, j, book, rxRunning, txRunning)
      {
        assert old(UpToDateAt(all, j, book, rxRunning, txRunning));
      }
    }

    /** Off the list goes who was found closed or is reported by TX, and nobody else. */
    method RemoveGone() returns (changed: bool)
      requires Served() && Told(all, listed, book)
      modifies this`listed, this`book
      ensures Served() && Told(all, listed, book) && old(book).Noted(book)
      ensures forall j :: 0 <= j < |all| ==> (listed[j] <==> old(listed)[j] && !all[j].io.closed && all[j].io.registered)
      ensures !changed ==> listed == old(listed)
      ensures AllGood(all, old(book)) ==> AllGood(all, book)
    {
      changed := false;
      for i := 0 to |all|
        invariant Served() && Told(all, listed, book) && old(book).Noted(book)
        invariant forall j :: 0 <= j < i ==> (listed[j] <==> old(listed)[j] && !all[j].io.closed && all[j].io.registered)
        invariant forall j :: i <= j < |all| ==> listed[j] == old(listed)[j]
        invariant !changed ==> listed == old(listed)
        invariant AllGood(all, old(book)) ==> AllGood(all, book)
      {
        if listed[i] && (all[i].io.closed || !all[i].io.registered) {
          Remove(i);
          changed := true;
        }
      }
    }

    /** The head of the RX loop: the bus is told if anybody went. Who leaves keeps its point, and
        nobody else's changes. */
    method Cleanup()
      requires Served() && Tuned() && Told(all, listed, book)
      modifies this`listed, this`busFilters, this`book
      ensures Valid() && old(book).Noted(book)
      ensures forall j :: 0 <= j < |all| ==> (listed[j] <==> old(listed)[j] && !all[j].io.closed && all[j].io.registered)
      ensures AllGood(all, old(book)) ==> AllGood(all, book)
    {
      var changed := RemoveGone();
      if changed {
        RefreshBusFilters();
      }
      forall j | 0 <= j < |all|
        ensures OpenAt(listed, book, j)
      {
        assert UpToDateAt(all, j, book, rxRunning, txRunning);
      }
    }

    /** A frame the bus filter drops concerns nobody. */
    ghost method Skip(f: Frame)
      requires Valid() && rxRunning && !Filters.Accepts(busFilters, f)
      modifies this`book
      ensures Valid() && book == AllGiven(all, listed, old(book), |all|, f)
    {
      DroppedByAll(all, listed, f);
      NobodysShare(all, listed, book, f);
      Conclude(|all|, f);
      forall j | 0 <= j < |all|
        ensures OpenAt(listed, book, j)
      {
        assert old(OpenAt(listed, book, j));
      }
    }

    /** A frame on the bus that the filter drops. */
    ghost method PassOver(f: Frame)
      requires Valid() && rxRunning && !Filters.Accepts(busFilters, f)
      modifies this`book
      ensures Valid() && book.stream == old(book).stream + [f] && book.notes == old(book).notes
      ensures Moved(old(book), book) && Passed(f)
    {
      ghost var start := book;
      OutIsOff();
      ghost var ps := Foretell(f, |all|);
      DroppedByAll(all, listed, f);
      ForetellsTheEnd(f, ps);
      Skip(f);
      FrameMoves(start, start, all, listed, |all|, f);
      var n := VirtualBus.TurnsFrom(ps, 0);
      forall i | 0 <= i < |all|
        ensures VirtualBus.LinedAt(all, i, ps, n)
      {
        assert Foreseen(all, listed, i, f, ps);
      }
      assert AllLined(ps, n);
    }

    /** The fan-out and the cleanup that follows it. */
    method Receive(f: Frame, bursts: seq<seq<Act>>)
      requires Valid() && rxRunning && SoundEvent(Bus(f, bursts))
      modifies this, repr
      ensures Valid() && fresh(repr - old(repr)) && old(all) <= all
      ensures book.stream == old(book).stream + [f] && Moved(old(book), book)
      ensures forall j :: 0 <= j < |all| ==> (listed[j] <==> (j < |old(all)| ==> old(listed)[j]) && (rxRunning ==> !all[j].io.closed && all[j].io.registered))
      ensures AllGood(old(all), old(book)) && SmoothEvent(Bus(f, bursts)) ==> AllGood(all, book)
      ensures bursts == [] ==> Passed(f)
    {
      ghost var start := book;
      OutIsOff();
      FanOut(f, bursts);
      OutIsOff();
      if rxRunning {
        CleanupAfter(start);
      }
    }

    method CleanupAfter(ghost start: Book)
      requires Served() && Tuned() && Told(all, listed, book) && Moved(start, book)
      modifies this`listed, this`busFilters, this`book
      ensures Valid() && old(book).Noted(book) && Moved(start, book)
      ensures forall j :: 0 <= j < |all| ==> (listed[j] <==> old(listed)[j] && !all[j].io.closed && all[j].io.registered)
      ensures AllGood(all, old(book)) ==> AllGood(all, book)
    {
      ghost var last := book;
      OutIsOff();
      Cleanup();
      OutIsOff();
      LeavingMoves(start, last, book);
    }

    /** A frame on the bus: `recv` returns it if the bus filter lets it through. Off the list goes,
        if RX survives, exactly who is closed or unregistered by then. */
    method OnBus(f: Frame, bursts: seq<seq<Act>>)
      requires Valid() && rxRunning && SoundEvent(Bus(f, bursts))
      modifies this, repr
      ensures Valid() && fresh(repr - old(repr)) && old(all) <= all
      ensures book.stream == old(book).stream + [f] && Moved(old(book), book)
      ensures forall j :: 0 <= j < |all| ==>
        (listed[j] <==> (j < |old(all)| ==> old(listed)[j]) && (rxRunning && old(Filters.Accepts(busFilters, f)) ==> !all[j].io.closed && all[j].io.registered))
      ensures AllGood(old(all), old(book)) && SmoothEvent(Bus(f, bursts)) ==> AllGood(all, book)
      ensures bursts == [] ==> Passed(f)
    {
      var passes := Filters.FrameMatches(busFilters, f);
      if passes {
        Receive(f, bursts);
      } else {
        PassOver(f);
      }
    }

    method Handle(e: Event)
      requires Valid() && SoundEvent(e) && (e.Bus? ==> rxRunning)
      modifies this, repr
      ensures Valid() && fresh(repr - old(repr)) && old(all) <= all && (e.Meanwhile? ==> old(repr) <= repr)
      ensures Turned(old(book), book, e)
      ensures match e
              case Bus(f, bursts) => bursts == [] ==> Passed(f)
              case Meanwhile(a) => Did(a)
      ensures AllGood(old(all), old(book)) && SmoothEvent(e) ==> AllGood(all, book)
    {
      match e {
        case Bus(f, bursts) => OnBus(f, bursts);
        case Meanwhile(a) =>
          ghost var start := book;
          Do(a, 0, Frame(0, [], false));
          GrownMoves(start, book);
      }
    }

    /** The next event of a run. */
    method HandleNext(events: seq<Event>, ghost trail: seq<Book>, i: nat, ghost start: Book) returns (ghost trail': seq<Book>)
      requires Valid() && |trail| == i + 1 <= |events| && SoundEvent(events[i]) && (events[i].Bus? ==> rxRunning)
      requires Follows(trail, events, start, book)
      modifies this, repr
      ensures Valid() && fresh(repr - old(repr)) && old(all) <= all
      ensures |trail'| == i + 2 && Follows(trail', events, start, book)
      ensures AllGood(old(all), old(book)) && SmoothEvent(events[i]) ==> AllGood(all, book)
    {
      ghost var before := book;
      Handle(events[i]);
      FollowsNext(trail, events, start, before, book);
      trail' := trail + [book];
    }

    /** Any run: frames on the bus, and what the other threads do while RX waits for the next or
        is forwarding one - until RX dies or all is done. `trail` is the book after each event. */
    method Run(events: seq<Event>) returns (ghost trail: seq<Book>)
      requires Valid() && forall i :: 0 <= i < |events| ==> SoundEvent(events[i])
      modifies this, repr
      ensures Valid() && old(all) <= all && Follows(trail, events, old(book), book)
      ensures rxRunning ==> |trail| == |events| + 1
      ensures AllGood(old(all), old(book)) && (forall i :: 0 <= i < |events| ==> SmoothEvent(events[i])) ==>
        rxRunning && txRunning && AllGood(all, book)
    {
      ghost var start := book;
      trail := [start];
      for i := 0 to |events|
        invariant Valid() && fresh(repr - old(repr)) && old(all) <= all
        invariant |trail| == i + 1 && Follows(trail, events, start, book)
        invariant AllGood(old(all), old(book)) && (forall j :: 0 <= j < i ==> SmoothEvent(events[j])) ==> AllGood(all, book)
      {
        if events[i].Bus? && !rxRunning {
          break;
        }
        trail := HandleNext(events, trail, i, start);
      }
      if AllGood(all, book) { GoodSocketsKeepBothRunning(); }
    }

    // -------------------------------------------------------------- what everyone hears

    /** The bus frames a consumer has accepted are the stream from its subscription to its removal,
        or to now, through its filters: in order, each once, and none missing while RX runs. */
    lemma AcceptsTheStream(k: nat)
      requires Valid() && k < |all|
      ensures book.entries[k].since <= book.until[k] <= |book.stream| && book.notes[k].out == !listed[k]
      ensures listed[k] ==> book.until[k] == |book.stream|
      ensures book.entries[k] == VirtualBus.Entry(all[k].io.sock.plan, all[k].filters, book.entries[k].since)
      ensures var due := Filters.Through(all[k].filters, book.stream[book.entries[k].since..book.until[k]]);
              var mine := RelayTheorems.FramesFrom(Rx, all[k].io.s.log);
              mine <= due && (rxRunning ==> mine == due)
    {
      assert ToldAt(all, listed, book, k) && UpToDateAt(all, k, book, rxRunning, txRunning);
    }

    /** So, with nothing evicted or failed, are the bus frames it was sent, followed by those that
        are queued for it, whatever the TX thread sent it in between. */
    lemma HearsTheBus(k: nat)
      requires Valid() && k < |all| && all[k].io.s.evicted == [] && all[k].io.s.lost == []
      ensures book.entries[k].since <= book.until[k] <= |book.stream| && (listed[k] ==> book.until[k] == |book.stream|)
      ensures var s := all[k].io.s;
              && Below(s.delivered, |s.log|) && Below(s.delivered + s.outbound, |s.log|)
              && FramesAt(s.log, s.delivered + s.outbound) == FramesAt(s.log, s.delivered) + all[k].io.outbound
      ensures var s := all[k].io.s;
              var due := Filters.Through(all[k].filters, book.stream[book.entries[k].since..book.until[k]]);
              var mine := RelayTheorems.Chosen(Rx, s.log, s.delivered + s.outbound);
              mine <= due && (rxRunning ==> mine == due)
    {
      AcceptsTheStream(k);
      assert UpToDateAt(all, k, book, rxRunning, txRunning);
      var s := all[k].io.s;
      all[k].io.RunOf();
      RelayTheorems.EachSource(s, Rx);
      assert FramesAt(s.log, s.delivered + s.outbound) == FramesAt(s.log, s.delivered) + FramesAt(s.log, s.outbound);
    }

    /** With everyone's schedule good and no failed read, that is what everyone hears whose log a
        backlog could hold, and it has the delivered part whole on its wire. */
    lemma GoodSocketsHearTheBus(k: nat)
      requires Valid() && AllGood(all, book) && k < |all| && |all[k].io.s.log| <= cap
      ensures book.entries[k].since <= book.until[k] == |book.stream|
      ensures var s := all[k].io.s;
              && Below(s.delivered, |s.log|) && Below(s.delivered + s.outbound, |s.log|)
              && RelayTheorems.Chosen(Rx, s.log, s.delivered + s.outbound)
                 == Filters.Through(all[k].filters, book.stream[book.entries[k].since..])
              && WholeOnWire(all[k].io.sock.wire, FramesAt(s.log, s.delivered))
    {
      GoodSocketsKeepBothRunning();
      NothingIsLost(k);
      SocketsHoldWholeFrames(k);
      HearsTheBus(k);
      assert book.stream[book.entries[k].since..] == book.stream[book.entries[k].since..book.until[k]];
    }

    /** The wire of a good socket is the whole encodings of what was delivered; and so is that of any
        consumer still connected, if and only if no loopback frame broke off on it. */
    lemma SocketsHoldWholeFrames(k: nat)
      requires Valid() && k < |all|
      ensures Below(all[k].io.s.delivered, |all[k].io.s.log|)
      ensures var io := all[k].io;
              var whole := WholeOnWire(io.sock.wire, FramesAt(io.s.log, io.s.delivered));
              (GoodWrites(io.sock.plan) ==> whole) && (io.registered && !io.closed ==> (whole <==> io.torn == 0))
    {
      assert UpToDateAt(all, k, book, rxRunning, txRunning);
      var io := all[k].io;
      WholeIffNoStrayBytes(io.s, io.sock.wire, io.outbound);
      if io.registered && !io.closed { io.LiveStreamIsWholeIff(); }
    }

    lemma NothingIsLost(k: nat)
      requires Valid() && AllGood(all, book) && k < |all| && |all[k].io.s.log| <= cap
      ensures all[k].io.s.evicted == [] && all[k].io.s.lost == []
    {
      assert UpToDateAt(all, k, book, rxRunning, txRunning);
      all[k].io.RunOf();
      RelayTheorems.FirstEviction(all[k].io.s);
    }

    /** With good schedules, only a failed read can lead to the end of a thread, or to a removal. */
    lemma GoodSocketsKeepBothRunning()
      requires Valid() && AllGood(all, book)
      ensures rxRunning && txRunning && forall i :: 0 <= i < |all| ==> listed[i] && all[i].io.registered
    {
      forall i | 0 <= i < |all|
        ensures listed[i] && all[i].io.registered && all[i].io.rxAlive && all[i].io.txAlive
      {
        assert UpToDateAt(all, i, book, rxRunning, txRunning) && ToldAt(all, listed, book, i);
      }
    }
  }

  /** What an event does to the book: a frame adds to the stream, an act only its subscription. */
  ghost predicate Turned(p: Book, q: Book, e: Event) {
    && Moved(p, q) && q.stream == p.stream + (if e.Bus? then [e.frame] else [])
    && (e.Meanwhile? ==> Burst(p, q, [e.act]))
  }

  ghost predicate TurnedAt(trail: seq<Book>, events: seq<Event>, i: nat)
    requires i < |events| && i + 1 < |trail|
  {
    Turned(trail[i], trail[i + 1], events[i])
  }

  /** From `start` to `now`, event by event. */
  ghost predicate Follows(trail: seq<Book>, events: seq<Event>, start: Book, now: Book) {
    && 0 < |trail| <= |events| + 1 && trail[0] == start && trail[|trail| - 1] == now
    && forall i :: 0 <= i < |trail| - 1 ==> TurnedAt(trail, events, i)
  }

  lemma {:induction false} FollowsNext(trail: seq<Book>, events: seq<Event>, start: Book, now: Book, next: Book)
    requires Follows(trail, events, start, now) && |trail| <= |events| && Turned(now, next, events[|trail| - 1])
    ensures Follows(trail + [next], events, start, next)
  {
    var trail' := trail + [next];
    forall i | 0 <= i < |trail'| - 1
      ensures TurnedAt(trail', events, i)
    {
      if i < |trail| - 1 { assert TurnedAt(trail, events, i); }
    }
  }

  /** So over a run everyone keeps the point it joined at and, once off the list, the one it left
      at; and the stream is what the events put on the bus. */
  lemma {:induction false} PointsStay(trail: seq<Book>, events: seq<Event>, start: Book, now: Book, i: nat, k: nat)
    requires Follows(trail, events, start, now) && i <= k < |trail| && start.Fits(|start.entries|)
    ensures trail[i].Fits(|trail[i].entries|) && trail[k].Fits(|trail[k].entries|) && trail[i].entries <= trail[k].entries
    ensures trail[k].stream == trail[i].stream + OnTheBus(events[i..k])
    ensures forall j :: 0 <= j < |trail[i].notes| && trail[i].notes[j].out ==>
      trail[k].notes[j].out && trail[k].until[j] == trail[i].until[j]
    decreases k
  {
    if i < k {
      PointsStay(trail, events, start, now, i, k - 1);
      assert TurnedAt(trail, events, k - 1);
      assert events[i..k][..k - i - 1] == events[i..k - 1];
    } else if i > 0 {
      assert TurnedAt(trail, events, i - 1);
    }
  }

  /** Only a failed read is put on record by what the other threads do. */
  predicate Changed(before: seq<Note>, after: seq<Note>, a: Act) {
    if a.Join? then after == before + [Note(false, false, false)]
    else
      && |after| == |before|
      && forall j :: 0 <= j < |before| ==> after[j] == before[j] || (a == Broken(j) && after[j] == before[j].(broke := true))
  }

  // ---------------------------------------------------------------- one failed read ends RX

  /** One consumer with a good schedule. */
  method OneConsumer(cap: nat, useStream: bool) returns (server: Server)
    requires cap >= 1
    ensures fresh(server) && fresh(server.repr) && server.Valid() && server.rxRunning && server.txRunning
    ensures server.book.stream == [] && |server.all| == 1 && server.listed == [true] && server.useStream == useStream
    ensures var c := server.all[0]; c.filters.None? && c.io.sock.plan == VirtualBus.RefuseOnce() && Pristine(c.io)
  {
    server := new Server(cap, useStream);
    server.Admit(VirtualBus.RefuseOnce(), Filters.NoFilters, 0, Frame(0, [], false));
  }

  /** TX's read from it fails. */
  method LoseOne(cap: nat, useStream: bool) returns (server: Server)
    requires cap >= 1
    ensures fresh(server) && fresh(server.repr) && server.Valid() && server.rxRunning && server.book.stream == []
    ensures |server.all| == 1 && server.listed == [true] && server.all[0].filters.None?
    ensures GoodWrites(server.all[0].io.sock.plan) && server.all[0].io.EndsForward()
  {
    VirtualBus.RefuseOnceIsGood();
    FrameEndingIsProper(useStream, VirtualBus.RefuseOnce(), 0);
    server := OneConsumer(cap, useStream);
    server.Do(Broken(0), 0, Frame(0, [], false));
  }

  /** TX has unregistered it and reported it, but RX looks at the reports only before it waits for
      the bus. The next frame ends RX: its direct send is refused for a moment, and
      `selector.modify` finds no such consumer. */
  method FailedReadEndsRx(cap: nat, useStream: bool, f: Frame) returns (server: Server)
    requires cap >= 1 && Sendable(f)
    ensures fresh(server) && server.Valid() && !server.rxRunning && server.book.stream == [f]
    ensures |server.all| == 1 && GoodWrites(server.all[0].io.sock.plan)
  {
    server := LoseOne(cap, useStream);
    assert EndsRx(server.all, server.listed, 0, f);
    server.OnBus(f, []);
  }
}
