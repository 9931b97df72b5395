/** The server of a virtual bus: only the TX thread runs, and its selection loop broadcasts every
    frame it reads from one consumer to the others. The specification is one equation: what a
    consumer is offered is what the others sent since it subscribed, through its filters. */
module VirtualBus {
  import opened CanFrame
  import opened Stream
  import opened Relay
  import opened RelayInvariants
  import RelayTheorems
  import RelayRaces
  import opened ConsumerIo
  import Filters

  // ---------------------------------------------------------------- the specification

  /** A frame the loop read, and the consumer it came from. */
  datatype Arrival = Arrival(src: nat, frame: Frame)

  /** The frames read from anyone but `c`. */
  function FromOthers(arrivals: seq<Arrival>, c: nat): seq<Frame> {
    if arrivals == [] then []
    else
      var last := arrivals[|arrivals| - 1];
      FromOthers(arrivals[..|arrivals| - 1], c) + (if last.src == c then [] else [last.frame])
  }

  /** What consumer `c`, subscribed after `since` arrivals, is to hear. */
  function Heard(arrivals: seq<Arrival>, since: nat, c: nat, filters: Filters.FilterList): seq<Frame>
    requires since <= |arrivals|
  {
    Filters.Through(filters, FromOthers(arrivals[since..], c))
  }

  lemma HeardNext(arrivals: seq<Arrival>, since: nat, c: nat, filters: Filters.FilterList, r: Arrival)
    requires since <= |arrivals|
    ensures Heard(arrivals + [r], since, c, filters)
            == Heard(arrivals, since, c, filters)
               + (if r.src != c && Filters.Accepts(filters, r.frame) then [r.frame] else [])
  {
    var before, after := arrivals[since..], (arrivals + [r])[since..];
    assert after == before + [r] && after[..|before|] == before;
    var heard := FromOthers(before, c);
    if r.src == c {
      assert heard + [] == heard;
    } else {
      assert (heard + [r.frame])[..|heard|] == heard;
    }
  }

  lemma HeardNothing(arrivals: seq<Arrival>, c: nat, filters: Filters.FilterList)
    ensures Heard(arrivals, |arrivals|, c, filters) == []
  {
  }

  // ---------------------------------------------------------------- one consumer

  function LogFrames(log: seq<Item>): (fs: seq<Frame>)
    ensures |fs| == |log| && forall i :: 0 <= i < |log| ==> fs[i] == log[i].frame
  {
    seq(|log|, i requires 0 <= i < |log| => log[i].frame)
  }

  ghost predicate AllFromTx(log: seq<Item>) {
    forall k :: 0 <= k < |log| ==> log[k].src == Tx
  }

  /** What is on record about a consumer: the loop found it unregistered, a read from it failed. */
  datatype Mark = Mark(gone: bool, broke: bool)

  /** The consumer between two events: consistent, accepted nothing but a prefix of `heard`, and is
      unregistered if it is on record as gone. */
  ghost predicate Sound(io: ConsumerIO, heard: seq<Frame>, mark: Mark)
    reads io, io.sock
  {
    && io.Valid() && io.Wired() && io.Kept() && io.HandsFree() && io.s.drain.Idle?
    && AllFromTx(io.s.log) && LogFrames(io.s.log) <= heard
    && !io.closed && Clean(io, mark.broke) && (mark.gone || mark.broke ==> !io.registered)
  }

  /** A socket with a good schedule of writes has lost nothing and torn nothing; it is registered
      until a read from it fails, and has not ended the thread before that. */
  ghost predicate Clean(io: ConsumerIO, broke: bool)
    reads io, io.sock
  {
    GoodWrites(io.sock.plan) ==>
      io.s.lost == [] && io.Stray() == 0 && (io.registered || broke) && (io.registered ==> io.txAlive)
  }

  /** Nothing of `heard` is missing either, and the thread goes on. */
  ghost predicate Exact(io: ConsumerIO, heard: seq<Frame>, mark: Mark)
    reads io, io.sock
  {
    Sound(io, heard, mark) && io.txAlive && LogFrames(io.s.log) == heard
  }

  lemma LogFramesNext(log: seq<Item>, item: Item)
    requires AllFromTx(log) && item.src.Tx?
    ensures AllFromTx(log + [item]) && LogFrames(log + [item]) == LogFrames(log) + [item.frame]
  {
  }

  lemma Widen(io: ConsumerIO, before: seq<Frame>, after: seq<Frame>, mark: Mark)
    requires Exact(io, before, mark) && before <= after
    ensures Sound(io, after, mark)
  {
  }

  lemma TicketsToFrames(log: seq<Item>, d: seq<nat>, q: seq<nat>)
    requires Below(d, |log|) && Below(q, |log|) && |d| + |q| == |log|
    requires forall i :: 0 <= i < |log| ==> (d + q)[i] == i
    ensures FramesAt(log, d) + FramesAt(log, q) == LogFrames(log)
  {
    forall i | 0 <= i < |log|
      ensures (FramesAt(log, d) + FramesAt(log, q))[i] == LogFrames(log)[i]
    {
      assert (d + q)[i] == i;
    }
  }

  /** With nothing evicted and no send failed, delivery followed by the backlog is all of it. */
  lemma DeliveredThenQueued(io: ConsumerIO, heard: seq<Frame>, mark: Mark)
    requires Sound(io, heard, mark) && io.s.evicted == [] && io.s.lost == []
    ensures FramesAt(io.s.log, io.s.delivered) + io.outbound == LogFrames(io.s.log)
  {
    io.RunOf();
    RelayTheorems.OneSource(io.s, Tx);
    TicketsToFrames(io.s.log, io.s.delivered, io.s.outbound);
  }

  /** The RX thread never came near this consumer. */
  lemma NothingFromRx(io: ConsumerIO, heard: seq<Frame>, mark: Mark)
    requires Sound(io, heard, mark)
    ensures io.s.rxOffers == []
  {
    io.RunOf();
    if |io.s.log| > 0 { IndexAtLeast(io.s, |io.s.log| - 1); }
  }

  lemma {:induction false} IndexAtLeast(s: State, k: nat)
    requires History(s) && AllFromTx(s.log) && k < |s.log|
    ensures k <= s.log[k].idx < |s.txOffers|
  {
    if k > 0 { IndexAtLeast(s, k - 1); }
  }

  /** So its backlog is always watched for draining, and its counter exact. */
  lemma NeverStranded(io: ConsumerIO, heard: seq<Frame>, mark: Mark)
    requires Sound(io, heard, mark)
    ensures io.registered ==> (io.outbound != [] ==> io.interest.ReadWrite?) && (io.interest.ReadOnly? ==> io.dropped == 0)
    ensures io.s.reported + io.dropped == |RelayTheorems.Missing(io.s)|
  {
    io.RunOf();
    NothingFromRx(io, heard, mark);
    RelayRaces.AloneNothingIsStale(io.cap, io.isStream, io.history);
    RelayTheorems.MissingFramesAreEvictions(io.s);
  }

  datatype Consumer = Consumer(io: ConsumerIO, filters: Filters.FilterList)

  /** What the selector found on a consumer's socket. */
  datatype Input = Nothing | Broken | Block(cf: seq<Byte>)

  datatype Event =
    | Subscribe(plan: nat -> Reply, sub: Filters.Subscription)
    | Ready(k: nat, input: Input, writable: bool)

  predicate WellFormed(event: Event) {
    event.Ready? && event.input.Block? ==> |event.input.cf| == FRAME_SIZE
  }

  /** The frame in what a read gives. */
  function FramesOf(input: Input): seq<Frame>
    requires input.Block? ==> |input.cf| == FRAME_SIZE
  {
    if input.Block? then [Decode(input.cf)] else []
  }

  /** What an event the selector reports brings in. */
  function Brings(event: Event): seq<Arrival>
    requires WellFormed(event)
  {
    if event.Ready? && event.input.Block? then [Arrival(event.k, Decode(event.input.cf))] else []
  }

  /** What the first `|taken|` events bring in, those passed over left out. */
  function ArrivalsOf(events: seq<Event>, taken: seq<bool>): seq<Arrival>
    requires |taken| <= |events| && forall i :: 0 <= i < |events| ==> WellFormed(events[i])
  {
    if taken == [] then []
    else
      var n := |taken| - 1;
      ArrivalsOf(events, taken[..n]) + (if taken[n] then Brings(events[n]) else [])
  }

  /** Subscriptions among the first `n` events. */
  function Joined(events: seq<Event>, n: nat): nat
    requires n <= |events|
  {
    if n == 0 then 0 else Joined(events, n - 1) + (if events[n - 1].Subscribe? then 1 else 0)
  }

  /** A consumer as it joined: its socket's schedule, its filters, and how many arrivals there were. */
  datatype Entry = Entry(plan: nat -> Reply, filters: Filters.FilterList, since: nat)

  function EntriesOf(cs: seq<Consumer>, since: seq<nat>): (es: seq<Entry>)
    requires |since| == |cs|
    ensures |es| == |cs| && forall i :: 0 <= i < |cs| ==> es[i] == Entry(cs[i].io.sock.plan, cs[i].filters, since[i])
  {
    seq(|cs|, i requires 0 <= i < |cs| => Entry(cs[i].io.sock.plan, cs[i].filters, since[i]))
  }

  lemma {:induction false} EntriesNext(cs: seq<Consumer>, since: seq<nat>, c: Consumer, n: nat)
    requires |since| == |cs|
    ensures EntriesOf(cs + [c], since + [n]) == EntriesOf(cs, since) + [Entry(c.io.sock.plan, c.filters, n)]
  {
  }

  /** Who joins by an event after `n` arrivals. */
  function Enters(event: Event, n: nat): seq<Entry> {
    if event.Subscribe? then [Entry(event.plan, Filters.Normalize(event.sub), n)] else []
  }

  /** Who joins by the first events of a run that had `n` arrivals when it began. */
  function EntriesIn(events: seq<Event>, taken: seq<bool>, n: nat): seq<Entry>
    requires |taken| <= |events| && forall i :: 0 <= i < |events| ==> WellFormed(events[i])
  {
    if taken == [] then []
    else
      var last := |taken| - 1;
      EntriesIn(events, taken[..last], n) + Enters(events[last], n + |ArrivalsOf(events, taken[..last])|)
  }

  /** Event `i` is about a consumer that had not joined, or that is on record as gone. */
  predicate PassedOver(events: seq<Event>, i: nat, first: nat, marks: seq<Mark>)
    requires i < |events|
  {
    events[i].Ready? && (events[i].k >= first + Joined(events, i) || (events[i].k < |marks| && marks[events[i].k].gone))
  }

  /** Where a run stands: what has arrived, who has joined, and what is on record about them. */
  datatype Progress = Progress(arrivals: seq<Arrival>, entries: seq<Entry>, marks: seq<Mark>)

  /** What the first events of a run lead to from `start`. */
  ghost predicate Leads(events: seq<Event>, taken: seq<bool>, start: Progress, now: Progress)
    requires |taken| <= |events| && forall i :: 0 <= i < |events| ==> WellFormed(events[i])
  {
    && now.arrivals == start.arrivals + ArrivalsOf(events, taken)
    && now.entries == start.entries + EntriesIn(events, taken, |start.arrivals|)
    && |now.entries| == |start.entries| + Joined(events, |taken|)
    && forall i :: 0 <= i < |taken| && !taken[i] ==> PassedOver(events, i, |start.entries|, now.marks)
  }

  /** What an event puts on record: a failed read of its consumer, whatever else it finds. */
  predicate Marked(before: seq<Mark>, after: seq<Mark>, event: Event, taken: bool) {
    && |before| <= |after|
    && (forall j :: |before| <= j < |after| ==> after[j] == Mark(false, false))
    && (forall j :: 0 <= j < |before| ==>
          && (before[j].gone ==> after[j].gone)
          && (after[j].broke <==> before[j].broke || (taken && event.Ready? && event.k == j && event.input.Broken?)))
  }

  lemma {:induction false} LeadsNext(events: seq<Event>, taken: seq<bool>, start: Progress, now: Progress,
                                     b: bool, next: Progress)
    requires |taken| < |events| && forall i :: 0 <= i < |events| ==> WellFormed(events[i])
    requires Leads(events, taken, start, now)
    requires var event := events[|taken|];
             && next.arrivals == now.arrivals + (if b then Brings(event) else [])
             && next.entries == now.entries + Enters(event, |now.arrivals|)
             && (!b ==> event.Ready? && (event.k >= |next.entries| || (event.k < |next.marks| && next.marks[event.k].gone)))
             && Marked(now.marks, next.marks, event, b)
    ensures Leads(events, taken + [b], start, next)
  {
    var taken' := taken + [b];
    assert taken'[..|taken|] == taken;
    assert next.arrivals == start.arrivals + ArrivalsOf(events, taken');
    assert next.entries == start.entries + EntriesIn(events, taken', |start.arrivals|);
    forall i | 0 <= i < |taken'| && !taken'[i]
      ensures PassedOver(events, i, |start.entries|, next.marks)
    {
      if i < |taken| { assert PassedOver(events, i, |start.entries|, now.marks); }
    }
  }

  /** The event brings in no consumer with a bad schedule, and no failed read. */
  ghost predicate Smooth(event: Event) {
    match event
    case Subscribe(plan, _) => GoodWrites(plan)
    case Ready(_, input, _) => !input.Broken?
  }

  // ---------------------------------------------------------------- catching up

  /** The event brings consumer `k` nothing new: no frame of another consumer, and no failed read. */
  predicate NoNews(event: Event, k: nat) {
    event.Ready? ==> if event.k == k then !event.input.Broken? else !event.input.Block?
  }

  /** It finds consumer `k` writable. */
  predicate Chance(event: Event, k: nat) {
    event.Ready? && event.k == k && event.writable
  }

  function Chances(events: seq<Event>, n: nat, k: nat): nat
    requires n <= |events|
  {
    if n == 0 then 0 else Chances(events, n - 1, k) + (if Chance(events[n - 1], k) then 1 else 0)
  }

  /** Such an event leaves the line of consumer `k` as it is, but drains it if it can. */
  twostate predicate Idled(cs: seq<Consumer>, k: nat, new event: Event)
    requires k < |cs|
    reads cs[k].io, cs[k].io.sock
  {
    cs[k].io.Line() == if old(cs[k].io.registered) && Chance(event, k) then old(cs[k].io.LineDrained()) else old(cs[k].io.Line())
  }

  ghost predicate NoNewsIn(events: seq<Event>, n: nat, k: nat)
    requires n <= |events|
  {
    forall i :: 0 <= i < n ==> NoNews(events[i], k)
  }

  /** A line that was `was`, after `n` drains and nothing else: each has paid off some of its debt. */
  ghost predicate PaidOff(plan: nat -> Reply, was: Line, now: Line, n: nat) {
    && now.registered && now.torn == was.torn
    && (now.outbound == [] || Debt(plan, now.calls, |now.outbound|) + n <= Debt(plan, was.calls, |was.outbound|))
  }

  lemma PaidOffNext(stream: bool, plan: nat -> Reply, was: Line, now: Line, n: nat, next: Line)
    requires GoodWrites(plan) && PaidOff(plan, was, now, n)
    requires var d := DrainEnding(stream, plan, now.calls, |now.outbound|);
             && next.outbound == now.outbound[d.sent..] && next.calls == d.calls && next.torn == now.torn
             && next.registered == (d.r.Sent? || d.r.WouldBlock? || (!stream && d.r == Failed(OtherOsError)))
    ensures PaidOff(plan, was, next, n + 1)
  {
    DrainPays(stream, plan, now.calls, |now.outbound|);
  }

  /** Five drains for each frame are enough. */
  lemma PaidOffInTime(plan: nat -> Reply, was: Line, now: Line, n: nat)
    requires GoodWrites(plan) && PaidOff(plan, was, now, n) && n >= STREAM_SEND_ATTEMPTS * |was.outbound|
    ensures now.outbound == []
  {
    RefusedOnce(plan, was.calls);
  }

  // ---------------------------------------------------------------- a turn

  /** What a frame from consumer `src` is to consumer `i`: something to forward, or nothing. */
  function Part(c: Consumer, i: nat, src: nat, f: Frame): seq<Frame> {
    if i != src && Filters.Accepts(c.filters, f) then [f] else []
  }

  /** What it adds to what that consumer is to hear. */
  ghost predicate Adds(c: Consumer, i: nat, src: nat, f: Frame, before: seq<Frame>, after: seq<Frame>) {
    after == before + Part(c, i, src, f)
  }

  /** What a consumer's turn is to do: end the thread or not, and change its line. */
  datatype Prospect = Prospect(ends: bool, before: Line, after: Line)

  /** The turn in which `t` forwards it `fs`, which is one frame or none. */
  ghost function ProspectOf(io: ConsumerIO, t: Thread, fs: seq<Frame>): Prospect
    reads io, io.sock
  {
    Prospect(fs != [] && io.EndsForward(), io.Line(), if fs != [] then io.LineAfter(t, fs[0]) else io.Line())
  }

  /** How many turns come, counted from the first, if turn `i` does. */
  function TurnsFrom(ps: seq<Prospect>, i: nat): nat
    decreases |ps| - i
  {
    if i >= |ps| then |ps| else if ps[i].ends then i + 1 else TurnsFrom(ps, i + 1)
  }

  /** If turns before the `n`-th do not end the thread, and that one does or is the last, `n` come. */
  lemma {:induction false} TurnsCome(ps: seq<Prospect>, i: nat, n: nat)
    requires i <= n <= |ps| && (n == |ps| || (n > i && ps[n - 1].ends)) && forall j :: i <= j < n - 1 ==> !ps[j].ends
    ensures TurnsFrom(ps, i) == n
    decreases n - i
  {
    if i < n && !ps[i].ends { TurnsCome(ps, i + 1, n); }
  }

  ghost predicate EndsSome(ps: seq<Prospect>) {
    exists i :: 0 <= i < |ps| && ps[i].ends
  }

  /** The turn of consumer `i` in the loop that forwards a frame to the others. */
  method PassOn(c: Consumer, i: nat, src: nat, f: Frame, ghost before: seq<Frame>, ghost after: seq<Frame>, ghost mark: Mark)
    requires Exact(c.io, before, mark) && Sendable(f) && Adds(c, i, src, f, before, after)
    modifies c.io, c.io.sock
    ensures Sound(c.io, after, mark) && (c.io.txAlive ==> Exact(c.io, after, mark))
    ensures var p := old(ProspectOf(c.io, Tx, Part(c, i, src, f))); (c.io.txAlive <==> !p.ends) && c.io.Line() == p.after
    ensures i == src ==> unchanged(c.io, c.io.sock)
  {
    if i == src {
      return;
    }
    var matches := Filters.FrameMatches(c.filters, f);
    if !matches {
      return;
    }
    LogFramesNext(c.io.s.log, Item(Tx, |c.io.s.txOffers|, f));
    c.io.LoopbackTurn(f);
  }

  /** What a drain is to do: the schedule and the length of the backlog say. */
  ghost function DrainProspect(io: ConsumerIO): Prospect
    reads io, io.sock
  {
    Prospect(io.EndsDrain(), io.Line(), io.LineDrained())
  }

  /** A drain has done it. A consumer it leaves registered, with the thread alive, is watched for
      writing just if it has a backlog still. */
  ghost predicate DrainedTo(io: ConsumerIO, p: Prospect)
    reads io, io.sock
  {
    && io.Line() == p.after && (io.txAlive <==> !p.ends)
    && (io.registered && io.txAlive ==>
          if io.outbound == [] then io.interest.ReadOnly? && io.dropped == 0 else io.interest.ReadWrite?)
  }

  /** The drain of a writable consumer: nobody else touches its backlog meanwhile. */
  method DrainOf(io: ConsumerIO, ghost heard: seq<Frame>, ghost mark: Mark, ghost p: Prospect)
    requires Exact(io, heard, mark) && io.registered && io.interest.ReadWrite? && p == DrainProspect(io)
    modifies io, io.sock
    ensures Sound(io, heard, mark) && (io.txAlive ==> Exact(io, heard, mark))
    ensures DrainedTo(io, p)
  {
    ghost var o := io.DrainBacklog([]);
  }

  method ReadFailedOn(io: ConsumerIO, ghost heard: seq<Frame>, ghost mark: Mark)
    requires Exact(io, heard, mark) && io.registered
    modifies io
    ensures Exact(io, heard, mark.(broke := true)) && io.Line() == old(io.Line()).(registered := false)
  {
    io.ReadFailed();
  }

  ghost predicate ApartIn(cs: seq<Consumer>, repr: set<object>) {
    && (forall i :: 0 <= i < |cs| ==> cs[i].io in repr && cs[i].io.sock in repr)
    && (forall i, j :: 0 <= i < j < |cs| ==> cs[i].io != cs[j].io && cs[i].io.sock != cs[j].io.sock)
  }

  lemma {:induction false} ApartNext(cs: seq<Consumer>, repr: set<object>, c: Consumer)
    requires ApartIn(cs, repr) && c.io !in repr && c.io.sock !in repr
    ensures ApartIn(cs + [c], repr + {c.io, c.io.sock})
  {
  }

  /** The forwarding of one frame: what everyone was and is to hear, and what their turns are to do. */
  datatype Round = Round(src: nat, frame: Frame, before: seq<seq<Frame>>, after: seq<seq<Frame>>, prospects: seq<Prospect>)
  {
    ghost predicate Fits(n: nat) {
      |before| == |after| == |prospects| == n && forall j :: 0 <= j < n ==> before[j] <= after[j]
    }
  }

  /** Consumer `i` is as it is to be if `hs` is what everyone is to hear. */
  ghost predicate SoundAt(cs: seq<Consumer>, i: nat, marks: seq<Mark>, hs: seq<seq<Frame>>)
    requires i < |cs| && i < |marks| && i < |hs|
    reads cs[i].io, cs[i].io.sock
  {
    Sound(cs[i].io, hs[i], marks[i])
  }

  ghost predicate ExactAt(cs: seq<Consumer>, i: nat, marks: seq<Mark>, hs: seq<seq<Frame>>)
    requires i < |cs| && i < |marks| && i < |hs|
    reads cs[i].io, cs[i].io.sock
  {
    Exact(cs[i].io, hs[i], marks[i])
  }

  /** The turn of consumer `i` is still to come. */
  ghost predicate AwaitsAt(cs: seq<Consumer>, i: nat, marks: seq<Mark>, round: Round)
    requires i < |cs| && i < |marks| && i < |round.before| && i < |round.prospects|
    reads cs[i].io, cs[i].io.sock
  {
    Exact(cs[i].io, round.before[i], marks[i]) && ForetoldAt(cs, i, round.src, [round.frame], round.prospects)
  }

  /** It is over. */
  ghost predicate DoneAt(cs: seq<Consumer>, i: nat, marks: seq<Mark>, round: Round)
    requires i < |cs| && i < |marks| && i < |round.after| && i < |round.prospects|
    reads cs[i].io, cs[i].io.sock
  {
    Exact(cs[i].io, round.after[i], marks[i]) && cs[i].io.Line() == round.prospects[i].after
  }

  /** The thread died after `n` turns. */
  ghost predicate CutAt(cs: seq<Consumer>, i: nat, marks: seq<Mark>, round: Round, n: nat)
    requires i < |cs| && i < |marks| && i < |round.after| && i < |round.prospects|
    reads cs[i].io, cs[i].io.sock
  {
    Sound(cs[i].io, round.after[i], marks[i]) && LinedAt(cs, i, round.prospects, n)
  }

  /** `n` turns have come, each doing what it was to. */
  ghost predicate LinedAt(cs: seq<Consumer>, i: nat, ps: seq<Prospect>, n: nat)
    requires i < |cs| && i < |ps|
    reads cs[i].io, cs[i].io.sock
  {
    cs[i].io.Line() == if i < n then ps[i].after else ps[i].before
  }

  /** `ps` says what forwarding `fs`, one frame from consumer `src` or none, is to do to consumer `i`. */
  ghost predicate ForetoldAt(cs: seq<Consumer>, i: nat, src: nat, fs: seq<Frame>, ps: seq<Prospect>)
    requires i < |cs| && i < |ps|
    reads cs[i].io, cs[i].io.sock
  {
    ps[i] == ProspectOf(cs[i].io, Tx, if fs == [] then [] else Part(cs[i], i, src, fs[0]))
  }

  /** The turn of consumer `i` in forwarding `f` ends the thread. */
  ghost predicate EndsAt(cs: seq<Consumer>, i: nat, src: nat, f: Frame)
    requires i < |cs|
    reads cs[i].io, cs[i].io.sock
  {
    Part(cs[i], i, src, f) != [] && cs[i].io.EndsForward()
  }

  /** If there was no news for consumer `k` among the first `n` events, only drains have changed its
      line since it was `was[k]`, as many as there were chances. */
  ghost predicate PaidAt(cs: seq<Consumer>, k: nat, was: seq<Line>, events: seq<Event>, n: nat)
    requires k < |cs| && k < |was| && n <= |events|
    reads cs[k].io, cs[k].io.sock
  {
    GoodWrites(cs[k].io.sock.plan) && was[k].registered && NoNewsIn(events, n, k) ==>
      PaidOff(cs[k].io.sock.plan, was[k], cs[k].io.Line(), Chances(events, n, k))
  }

  twostate lemma PaidNext(cs: seq<Consumer>, new k: nat, new was: seq<Line>, new events: seq<Event>, new i: nat)
    requires k < |cs| && k < |was| && i < |events| && old(PaidAt(cs, k, was, events, i))
    requires NoNews(events[i], k) ==> Idled(cs, k, events[i])
    ensures PaidAt(cs, k, was, events, i + 1)
  {
    var plan := cs[k].io.sock.plan;
    if GoodWrites(plan) && was[k].registered && NoNewsIn(events, i + 1, k) {
      assert NoNews(events[i], k) && NoNewsIn(events, i, k);
      if Chance(events[i], k) {
        PaidOffNext(cs[k].io.isStream, plan, was[k], old(cs[k].io.Line()), Chances(events, i, k), cs[k].io.Line());
      }
    }
  }

  ghost predicate WatchedForAt(cs: seq<Consumer>, i: nat)
    requires i < |cs|
    reads cs[i].io
  {
    cs[i].io.registered && cs[i].io.outbound != [] ==> cs[i].io.interest.ReadWrite?
  }

  ghost predicate AddsAt(cs: seq<Consumer>, i: nat, round: Round)
    requires i < |cs| && i < |round.before| && i < |round.after|
  {
    Adds(cs[i], i, round.src, round.frame, round.before[i], round.after[i])
  }

  // ---------------------------------------------------------------- the server

  class Server {
    const cap: nat
    const useStream: bool
    var consumers: seq<Consumer>
    var running: bool
    ghost var arrivals: seq<Arrival>
    ghost var since: seq<nat>            // arrivals before each consumer subscribed
    ghost var heard: seq<seq<Frame>>     // what each consumer is to hear by now
    ghost var marks: seq<Mark>           // what is on record about each
    ghost var repr: set<object>

    /** No two consumers share an object or a socket, and they are all of the server's kind. */
    ghost predicate Apart()
      reads this`consumers, this`repr
    {
      && this !in repr && cap >= 1 && ApartIn(consumers, repr)
      && (forall i :: 0 <= i < |consumers| ==> consumers[i].io.cap == cap && consumers[i].io.isStream == useStream)
    }

    /** Every consumer's history agrees with what it is to hear; exactly so while the thread runs,
        and it runs until it dies serving one of them. */
    ghost predicate Served()
      reads this`consumers, this`running, this`since, this`heard, this`marks, this`repr, repr
    {
      && Apart() && |since| == |heard| == |marks| == |consumers|
      && (forall i :: 0 <= i < |consumers| ==> SoundAt(consumers, i, marks, heard))
      && (running ==> forall i :: 0 <= i < |consumers| ==> ExactAt(consumers, i, marks, heard))
      && (!running ==> SomeDead())
    }

    /** What was raised while serving some consumer has ended the thread. */
    ghost predicate SomeDead()
      requires Apart()
      reads this`consumers, this`repr, repr
    {
      exists i :: 0 <= i < |consumers| && !consumers[i].io.txAlive
    }

    /** What the consumers are to hear is the broadcast of what arrived. */
    ghost predicate Broadcast()
      reads this
    {
      && |since| == |heard| == |marks| == |consumers|
      && (forall i :: 0 <= i < |since| ==> since[i] <= |arrivals|)
      && (forall i :: 0 <= i < |heard| ==> heard[i] == Heard(arrivals, since[i], i, consumers[i].filters))
    }

    ghost predicate Valid()
      reads this, repr
    {
      Served() && Broadcast()
    }

    constructor (cap: nat, useStream: bool)
      requires cap >= 1
      ensures Valid() && running && consumers == [] && arrivals == []
      ensures this.cap == cap && this.useStream == useStream && fresh(repr)
    {
      this.cap, this.useStream := cap, useStream;
      consumers, running, arrivals, since, heard, marks, repr := [], true, [], [], [], [], {};
    }

    /** The state of a consumer that is about to join. */
    method NewConsumerIO(plan: nat -> Reply) returns (io: ConsumerIO)
      requires cap >= 1
      ensures fresh(io) && fresh(io.sock) && Exact(io, [], Mark(false, false))
      ensures io.registered && io.outbound == [] && io.sock.calls == 0
      ensures io.cap == cap && io.isStream == useStream && io.sock.plan == plan
    {
      var sock := new SendSocket(plan);
      io := new ConsumerIO(cap, useStream, sock);
    }

    method Join(c: Consumer)
      requires Served() && running && Exact(c.io, [], Mark(false, false)) && c.io.cap == cap && c.io.isStream == useStream
      requires c.io !in repr && c.io.sock !in repr
      modifies this`consumers, this`since, this`heard, this`marks, this`repr
      ensures Served() && consumers == old(consumers) + [c] && since == old(since) + [|arrivals|]
      ensures heard == old(heard) + [[]] && marks == old(marks) + [Mark(false, false)] && repr == old(repr) + {c.io, c.io.sock}
    {
      ApartNext(consumers, repr, c);
      consumers := consumers + [c];
      since := since + [|arrivals|];
      heard := heard + [[]];
      marks := marks + [Mark(false, false)];
      repr := repr + {c.io, c.io.sock};
      forall i | 0 <= i < |consumers|
        ensures ExactAt(consumers, i, marks, heard)
      {
        if i < |consumers| - 1 {
          assert old(ExactAt(consumers, i, marks, heard));
        }
      }
      ServesAll();
    }

    /** `listen_to`, by another thread between two events. */
    method ListenTo(plan: nat -> Reply, sub: Filters.Subscription)
      requires Valid() && running
      modifies this`consumers, this`since, this`heard, this`marks, this`repr
      ensures Valid() && running && arrivals == old(arrivals) && fresh(repr - old(repr)) && old(repr) <= repr
      ensures |consumers| == |old(consumers)| + 1 && consumers[..|old(consumers)|] == old(consumers)
      ensures consumers[|old(consumers)|].filters == Filters.Normalize(sub)
      ensures var io := consumers[|old(consumers)|].io;
              fresh(io) && fresh(io.sock) && io.sock.plan == plan && io.registered && io.outbound == [] && io.sock.calls == 0
      ensures since == old(since) + [|arrivals|] && marks == old(marks) + [Mark(false, false)]
    {
      var io := NewConsumerIO(plan);
      HeardNothing(arrivals, |consumers|, Filters.Normalize(sub));
      Join(Consumer(io, Filters.Normalize(sub)));
    }

    /** The first `i` consumers have had their turn. */
    ghost predicate Reached(i: nat, round: Round)
      requires round.Fits(|marks|) && |marks| == |consumers|
      reads this`consumers, this`marks, this`repr, repr
    {
      && Apart()
      && (forall j :: 0 <= j < i && j < |consumers| ==> DoneAt(consumers, j, marks, round))
      && (forall j :: i <= j < |consumers| ==> AwaitsAt(consumers, j, marks, round))
    }

    /** `n` turns have come, and the thread died then. */
    ghost predicate AllCut(round: Round, n: nat)
      requires round.Fits(|marks|) && |marks| == |consumers|
      reads this`consumers, this`marks, this`repr, repr
    {
      Apart() && forall j :: 0 <= j < |consumers| ==> CutAt(consumers, j, marks, round, n)
    }

    /** `n` turns have come, each doing what it was to. */
    ghost predicate AllLined(ps: seq<Prospect>, n: nat)
      reads this`consumers, this`repr, repr
    {
      Apart() && |ps| == |consumers| && forall j :: 0 <= j < |consumers| ==> LinedAt(consumers, j, ps, n)
    }

    /** If the thread dies in that turn, some have the frame and the rest do not. */
    lemma CutShort(i: nat, before: seq<seq<Frame>>, after: seq<seq<Frame>>)
      requires |before| == |after| == |marks| == |consumers| && i < |consumers| && SoundAt(consumers, i, marks, after)
      requires forall j :: 0 <= j < |after| ==> before[j] <= after[j]
      requires forall j :: 0 <= j < i ==> ExactAt(consumers, j, marks, after)
      requires forall j :: i < j < |consumers| ==> ExactAt(consumers, j, marks, before)
      ensures forall j :: 0 <= j < |consumers| ==> SoundAt(consumers, j, marks, after)
    {
      forall j | 0 <= j < |consumers|
        ensures SoundAt(consumers, j, marks, after)
      {
        if j < i {
          assert ExactAt(consumers, j, marks, after);
        } else if i < j {
          assert ExactAt(consumers, j, marks, before);
          Widen(consumers[j].io, before[j], after[j], marks[j]);
        }
      }
    }

    lemma RoundCutShort(i: nat, round: Round)
      requires Apart() && |marks| == |consumers| && i < |consumers| && round.Fits(|marks|)
      requires CutAt(consumers, i, marks, round, i + 1)
      requires forall j :: 0 <= j < i ==> DoneAt(consumers, j, marks, round)
      requires forall j :: i < j < |consumers| ==> AwaitsAt(consumers, j, marks, round)
      ensures AllCut(round, i + 1)
    {
      var n := i + 1;
      forall j | 0 <= j < |consumers|
        ensures CutAt(consumers, j, marks, round, n)
      {
        if j < i {
          assert DoneAt(consumers, j, marks, round);
        } else if i < j {
          assert AwaitsAt(consumers, j, marks, round);
          Widen(consumers[j].io, round.before[j], round.after[j], marks[j]);
        }
      }
    }

    /** Before anyone's turn, and after everyone's. */
    lemma Begins(round: Round)
      requires Served() && running && Planned(round)
      ensures Reached(0, round)
    {
      forall i | 0 <= i < |consumers|
        ensures AwaitsAt(consumers, i, marks, round)
      {
        assert ExactAt(consumers, i, marks, heard) && ForetoldAt(consumers, i, round.src, [round.frame], round.prospects);
      }
    }

    lemma Completes(round: Round)
      requires |since| == |heard| == |marks| == |consumers| && round.Fits(|marks|)
      requires Reached(|consumers|, round) && running && heard == round.after
      ensures Served() && AllLined(round.prospects, |consumers|)
    {
      var n := |consumers|;
      forall i | 0 <= i < n
        ensures SoundAt(consumers, i, marks, heard) && ExactAt(consumers, i, marks, heard)
        ensures LinedAt(consumers, i, round.prospects, n)
      {
        assert DoneAt(consumers, i, marks, round);
      }
    }

    /** The turn of consumer `i` leaves the others alone. */
    method PassToOne(i: nat, src: nat, f: Frame, ghost round: Round)
      requires |marks| == |consumers| && i < |consumers| && round.Fits(|marks|) && Reached(i, round)
      requires round.src == src < |consumers| && round.frame == f && Sendable(f) && AddsAt(consumers, i, round)
      modifies consumers[i].io, consumers[i].io.sock
      ensures Apart() && CutAt(consumers, i, marks, round, i + 1)
      ensures consumers[i].io.txAlive ==> DoneAt(consumers, i, marks, round)
      ensures consumers[i].io.txAlive <==> !round.prospects[i].ends
      ensures forall j :: 0 <= j < i ==> DoneAt(consumers, j, marks, round)
      ensures forall j :: i < j < |consumers| ==> AwaitsAt(consumers, j, marks, round)
      ensures unchanged(consumers[src].io, consumers[src].io.sock)
    {
      assert AwaitsAt(consumers, i, marks, round);
      PassOn(consumers[i], i, src, f, round.before[i], round.after[i], marks[i]);
    }

    method TakeTurn(i: nat, src: nat, f: Frame, ghost round: Round)
      requires |marks| == |consumers| && i < |consumers| && round.Fits(|marks|) && Reached(i, round)
      requires round.src == src < |consumers| && round.frame == f && Sendable(f) && AddsAt(consumers, i, round)
      modifies consumers[i].io, consumers[i].io.sock
      ensures Apart() && (consumers[i].io.txAlive <==> !round.prospects[i].ends)
      ensures if consumers[i].io.txAlive then Reached(i + 1, round)
              else AllCut(round, i + 1)
      ensures unchanged(consumers[src].io, consumers[src].io.sock)
    {
      PassToOne(i, src, f, round);
      RoundCutShort(i, round);
    }

    /** An exception nobody catches ends the thread. */
    method Stop()
      requires Apart() && |since| == |heard| == |marks| == |consumers| && SomeDead()
      requires forall i :: 0 <= i < |consumers| ==> SoundAt(consumers, i, marks, heard)
      modifies this`running
      ensures Served() && !running
    {
      running := false;
    }

    method TurnOrStop(i: nat, src: nat, f: Frame, ghost round: Round)
      requires |since| == |heard| == |marks| == |consumers| && i < |consumers| && round.Fits(|marks|) && Reached(i, round)
      requires round.src == src < |consumers| && round.frame == f && Sendable(f) && running && heard == round.after
      requires AddsAt(consumers, i, round)
      modifies this`running, consumers[i].io, consumers[i].io.sock
      ensures Apart() && running == !round.prospects[i].ends && unchanged(consumers[src].io, consumers[src].io.sock)
      ensures if running then Reached(i + 1, round)
              else Served() && AllLined(round.prospects, i + 1)
    {
      TakeTurn(i, src, f, round);
      if !consumers[i].io.txAlive {
        CutMeans(i + 1, round);
        Stop();
      }
    }

    lemma CutMeans(n: nat, round: Round)
      requires |marks| == |consumers| && round.Fits(|marks|)
      requires AllCut(round, n)
      ensures AllLined(round.prospects, n) && forall j :: 0 <= j < |consumers| ==> SoundAt(consumers, j, marks, round.after)
    {
      forall j | 0 <= j < |consumers|
        ensures SoundAt(consumers, j, marks, round.after) && LinedAt(consumers, j, round.prospects, n)
      {
        assert CutAt(consumers, j, marks, round, n);
      }
    }

    /** Some consumer's turn in forwarding `f` will end the thread. */
    ghost predicate SomeoneEnds(src: nat, f: Frame)
      requires Apart()
      reads this`consumers, this`repr, repr
    {
      exists i :: 0 <= i < |consumers| && EndsAt(consumers, i, src, f)
    }

    /** The loop over all consumers that forwards a frame read from consumer `src`. */
    method ForwardToOthers(src: nat, f: Frame, ghost round: Round)
      requires Served() && running && round.src == src < |consumers| && round.frame == f && Sendable(f)
      requires Planned(round)
      modifies this`running, this`heard, repr
      ensures Served() && heard == round.after && unchanged(consumers[src].io, consumers[src].io.sock)
      ensures running <==> !EndsSome(round.prospects)
      ensures AllLined(round.prospects, TurnsFrom(round.prospects, 0))
    {
      Begins(round);
      heard := round.after;
      for i := 0 to |consumers|
        invariant |heard| == |since| == |marks| == |consumers| && heard == round.after && running
        invariant Reached(i, round) && unchanged(consumers[src].io, consumers[src].io.sock)
        invariant TurnsFrom(round.prospects, 0) == TurnsFrom(round.prospects, i)
        invariant forall j :: 0 <= j < i ==> !round.prospects[j].ends
      {
        assert AddsAt(consumers, i, round);
        TurnOrStop(i, src, f, round);
        if !running {
          return;
        }
      }
      Completes(round);
    }

    /** A frame read from consumer `src` goes to every other one whose filters it passes, and to
        nobody else. `ps` is what each turn was to do beforehand: the thread survives if and only if
        none was to end it, and else the turns after the first such one do not come. */
    method Loopback(src: nat, f: Frame) returns (ghost ps: seq<Prospect>)
      requires Valid() && running && src < |consumers| && Sendable(f)
      modifies this`running, this`arrivals, this`heard, repr
      ensures Valid() && arrivals == old(arrivals) + [Arrival(src, f)] && unchanged(consumers[src].io, consumers[src].io.sock)
      ensures old(Foretells(src, [f], ps)) && AllLined(ps, TurnsFrom(ps, 0)) && (running <==> !old(SomeoneEnds(src, f)))
    {
      ghost var round := Arrive(src, f);
      ps := round.prospects;
      ForwardToOthers(src, f, round);
    }

    /** The arrival of `f`, and the round it is to be. */
    ghost method Arrive(src: nat, f: Frame) returns (round: Round)
      requires Valid() && running
      modifies this`arrivals
      ensures Served() && Planned(round) && Tells(round, arrivals) && arrivals == old(arrivals) + [Arrival(src, f)]
      ensures round.src == src && round.frame == f && old(Foretells(src, [f], round.prospects))
      ensures EndsSome(round.prospects) <==> old(SomeoneEnds(src, f))
    {
      round := Plan(src, f);
      ForetellsTheEnd(src, f, round.prospects);
      arrivals := arrivals + [Arrival(src, f)];
    }

    /** `round` says who is to hear its frame, and whose turn ends the thread. */
    ghost predicate Planned(round: Round)
      requires Apart()
      reads this`consumers, this`heard, this`repr, repr
    {
      && round.Fits(|consumers|) && round.before == heard
      && Foretells(round.src, [round.frame], round.prospects)
      && (forall i :: 0 <= i < |consumers| ==> AddsAt(consumers, i, round))
    }

    /** What everyone is to hear after the round, with `all` arrived. */
    ghost predicate Tells(round: Round, all: seq<Arrival>)
      reads this`consumers, this`since
    {
      && |since| == |consumers| == |round.after|
      && (forall i :: 0 <= i < |consumers| ==> since[i] <= |all|)
      && forall i :: 0 <= i < |consumers| ==> round.after[i] == Heard(all, since[i], i, consumers[i].filters)
    }

    /** The round `f` from `src` is to be. */
    lemma Plan(src: nat, f: Frame) returns (round: Round)
      requires Valid()
      ensures round.src == src && round.frame == f && Planned(round)
      ensures Tells(round, arrivals + [Arrival(src, f)])
    {
      var all, at, cs := arrivals + [Arrival(src, f)], since, consumers;
      var after := seq(|cs|, i requires 0 <= i < |cs| => Heard(all, at[i], i, cs[i].filters));
      var ps := Foretell(src, [f], |consumers|);
      round := Round(src, f, heard, after, ps);
      forall i | 0 <= i < |cs|
        ensures AddsAt(cs, i, round) && heard[i] <= after[i]
      {
        HeardNext(arrivals, at[i], i, cs[i].filters, Arrival(src, f));
      }
    }

    /** `ps` says what forwarding `fs`, one frame from consumer `src` or none, is to do to everyone. */
    ghost predicate Foretells(src: nat, fs: seq<Frame>, ps: seq<Prospect>)
      requires Apart()
      reads this`consumers, this`repr, repr
    {
      |ps| == |consumers| && forall i :: 0 <= i < |consumers| ==> ForetoldAt(consumers, i, src, fs, ps)
    }

    /** There is such a prediction. */
    lemma {:induction false} Foretell(src: nat, fs: seq<Frame>, n: nat) returns (ps: seq<Prospect>)
      requires Apart() && n <= |consumers|
      ensures |ps| == n && forall i :: 0 <= i < n ==> ForetoldAt(consumers, i, src, fs, ps)
    {
      if n == 0 {
        return [];
      }
      var front := Foretell(src, fs, n - 1);
      var c := consumers[n - 1];
      ps := front + [ProspectOf(c.io, Tx, if fs == [] then [] else Part(c, n - 1, src, fs[0]))];
      forall i | 0 <= i < n
        ensures ForetoldAt(consumers, i, src, fs, ps)
      {
        if i < n - 1 { assert ForetoldAt(consumers, i, src, fs, front); }
      }
    }

    /** It tells beforehand whether the thread survives. */
    lemma ForetellsTheEnd(src: nat, f: Frame, ps: seq<Prospect>)
      requires Apart() && Foretells(src, [f], ps)
      ensures EndsSome(ps) <==> SomeoneEnds(src, f)
    {
      forall i | 0 <= i < |consumers|
        ensures ps[i].ends <==> EndsAt(consumers, i, src, f)
      {
        assert ForetoldAt(consumers, i, src, [f], ps);
      }
    }

    /** Every consumer whose turn does not come keeps its place. */
    method DrainAt(k: nat, ghost ps: seq<Prospect>, ghost n: nat, ghost p: Prospect)
      requires Served() && running && k < |consumers| && OthersLined(k, ps, n) && p == DrainProspect(consumers[k].io)
      requires consumers[k].io.registered && consumers[k].io.interest.ReadWrite?
      modifies consumers[k].io, consumers[k].io.sock
      ensures Apart() && SoundAt(consumers, k, marks, heard)
      ensures consumers[k].io.txAlive ==> ExactAt(consumers, k, marks, heard)
      ensures forall j :: 0 <= j < |consumers| && j != k ==> ExactAt(consumers, j, marks, heard)
      ensures OthersLined(k, ps, n) && DrainedTo(consumers[k].io, p)
    {
      assert ExactAt(consumers, k, marks, heard);
      DrainOf(consumers[k].io, heard[k], marks[k], p);
    }

    method HandleDrain(k: nat, ghost ps: seq<Prospect>, ghost n: nat, ghost p: Prospect)
      requires Served() && running && k < |consumers| && OthersLined(k, ps, n) && p == DrainProspect(consumers[k].io)
      requires consumers[k].io.registered && consumers[k].io.interest.ReadWrite?
      modifies this`running, consumers[k].io, consumers[k].io.sock
      ensures Served() && OthersLined(k, ps, n) && DrainedTo(consumers[k].io, p) && (running <==> !p.ends)
    {
      DrainAt(k, ps, n, p);
      CutShort(k, heard, heard);
      if !consumers[k].io.txAlive {
        Stop();
      }
    }

    method BrokenAt(k: nat, ghost ps: seq<Prospect>, ghost n: nat)
      requires Served() && running && k < |consumers| && consumers[k].io.registered && OthersLined(k, ps, n)
      modifies consumers[k].io
      ensures OthersLined(k, ps, n) && consumers[k].io.Line() == old(consumers[k].io.Line()).(registered := false)
      ensures var known := marks[k := marks[k].(broke := true)];
              forall i :: 0 <= i < |consumers| ==> ExactAt(consumers, i, known, heard)
    {
      assert ExactAt(consumers, k, marks, heard);
      ReadFailedOn(consumers[k].io, heard[k], marks[k]);
      ghost var known := marks[k := marks[k].(broke := true)];
      forall i | 0 <= i < |consumers|
        ensures ExactAt(consumers, i, known, heard)
      {
        if i != k { assert old(ExactAt(consumers, i, marks, heard)); }
      }
    }

    method HandleBroken(k: nat, ghost ps: seq<Prospect>, ghost n: nat)
      requires Served() && running && k < |consumers| && consumers[k].io.registered && OthersLined(k, ps, n)
      modifies this`marks, consumers[k].io
      ensures Served() && running && OthersLined(k, ps, n)
      ensures consumers[k].io.Line() == old(consumers[k].io.Line()).(registered := false)
      ensures marks == old(marks)[k := old(marks)[k].(broke := true)]
    {
      BrokenAt(k, ps, n);
      marks := marks[k := marks[k].(broke := true)];
      ServesAll();
    }

    /** A thread that runs serves those it has left nothing missing of. */
    lemma ServesAll()
      requires Apart() && |since| == |heard| == |marks| == |consumers| && running
      requires forall i :: 0 <= i < |consumers| ==> ExactAt(consumers, i, marks, heard)
      ensures Served()
    {
      forall i | 0 <= i < |consumers|
        ensures SoundAt(consumers, i, marks, heard)
      {
        assert ExactAt(consumers, i, marks, heard);
      }
    }

    /** What the selector found on consumer `k` ends the thread. */
    ghost predicate Fails(k: nat, input: Input, writable: bool)
      requires Apart() && k < |consumers| && WellFormed(Ready(k, input, writable))
      reads this`consumers, this`repr, repr
    {
      || (input.Block? && SomeoneEnds(k, Decode(input.cf)))
      || (!input.Broken? && writable && consumers[k].io.EndsDrain())
    }

    /** What the input from consumer `k` does to the others: a frame changes the lines of those it
        is for, anything else nothing. */
    twostate predicate Spread(k: nat, input: Input)
      requires old(Apart()) && Apart() && WellFormed(Ready(k, input, false))
      reads this`consumers, this`repr, repr
    {
      exists ps :: old(Foretells(k, FramesOf(input), ps)) && OthersLined(k, ps, TurnsFrom(ps, 0))
    }

    /** The lines of everyone but consumer `k` are as `n` turns leave them. */
    ghost predicate OthersLined(k: nat, ps: seq<Prospect>, n: nat)
      reads this`consumers, this`repr, repr
    {
      Apart() && |ps| == |consumers| && forall j :: 0 <= j < |consumers| && j != k ==> LinedAt(consumers, j, ps, n)
    }

    /** What it does to consumer `k` itself. */
    twostate predicate Reads(k: nat, input: Input)
      requires consumers == old(consumers) && k < |consumers|
      reads this`consumers, consumers[k].io, consumers[k].io.sock
    {
      if input.Broken? then consumers[k].io.Line() == old(consumers[k].io.Line()).(registered := false)
      else unchanged(old(consumers)[k].io, old(consumers)[k].io.sock)
    }

    /** What an entry of the selector's does besides the arrival it brings in: it ends the thread or
        not, puts a failed read on record, drains a writable consumer, and changes the others only by
        the frame it forwards. */
    twostate predicate Reacted(k: nat, input: Input, writable: bool)
      requires old(Apart()) && Apart() && consumers == old(consumers) && WellFormed(Ready(k, input, writable))
      requires k < |consumers| == |old(marks)|
      reads this, repr
    {
      && (running <==> !old(Fails(k, input, writable)))
      && marks == (if input.Broken? then old(marks)[k := old(marks)[k].(broke := true)] else old(marks))
      && Spread(k, input)
      && if writable && !input.Broken? && !(input.Block? && old(SomeoneEnds(k, Decode(input.cf))))
         then DrainedTo(consumers[k].io, old(DrainProspect(consumers[k].io)))
         else Reads(k, input)
    }

    /** One entry of what the selector returned for a registered consumer. */
    method HandleReady(k: nat, input: Input, writable: bool)
      requires Valid() && running && k < |consumers| && WellFormed(Ready(k, input, writable))
      requires consumers[k].io.registered && (writable ==> consumers[k].io.interest.ReadWrite?)
      modifies this`running, this`arrivals, this`heard, this`marks, repr
      ensures Valid() && Reacted(k, input, writable)
      ensures arrivals == old(arrivals) + (if input.Block? then [Arrival(k, Decode(input.cf))] else [])
    {
      ghost var p := DrainProspect(consumers[k].io);
      ghost var ps := HandleInput(k, input);
      if running && writable && !input.Broken? {
        HandleDrain(k, ps, TurnsFrom(ps, 0), p);
      }
    }

    /** With nothing to forward, every turn is to do nothing. */
    lemma Idle(k: nat) returns (ps: seq<Prospect>)
      requires Apart()
      ensures Foretells(k, [], ps) && OthersLined(k, ps, TurnsFrom(ps, 0))
    {
      ps := Foretell(k, [], |consumers|);
      var n := TurnsFrom(ps, 0);
      forall j | 0 <= j < |consumers|
        ensures LinedAt(consumers, j, ps, n)
      {
        assert ForetoldAt(consumers, j, k, [], ps);
      }
    }

    /** The socket is read, if it is readable, and what it gives handled. */
    method HandleInput(k: nat, input: Input) returns (ghost ps: seq<Prospect>)
      requires Valid() && running && k < |consumers| && WellFormed(Ready(k, input, false)) && consumers[k].io.registered
      modifies this`running, this`arrivals, this`heard, this`marks, repr
      ensures Valid() && (running <==> !(input.Block? && old(SomeoneEnds(k, Decode(input.cf)))))
      ensures marks == if input.Broken? then old(marks)[k := old(marks)[k].(broke := true)] else old(marks)
      ensures old(Foretells(k, FramesOf(input), ps)) && OthersLined(k, ps, TurnsFrom(ps, 0))
      ensures Reads(k, input) && consumers[k].io.torn == old(consumers[k].io.torn)
      ensures arrivals == old(arrivals) + (if input.Block? then [Arrival(k, Decode(input.cf))] else [])
    {
      if !input.Block? { ps := Idle(k); }
      match input {
        case Nothing =>
        case Broken => HandleBroken(k, ps, TurnsFrom(ps, 0));
        case Block(cf) =>
          DecodedFits(cf);
          ps := Loopback(k, Decode(cf));
      }
    }

    /** One event of a run; `taken` tells whether the selector could report it. If not, its consumer
        has not joined or is found unregistered, and that is for good. */
    method Handle(event: Event) returns (taken: bool)
      requires Valid() && running && WellFormed(event)
      modifies this, repr
      ensures Valid() && fresh(repr - old(repr)) && old(repr) <= repr && old(consumers) <= consumers
      ensures taken <==> event.Subscribe? || old(event.k < |consumers| && consumers[event.k].io.registered)
      ensures Now().entries == old(Now()).entries + Enters(event, |old(arrivals)|)
      ensures arrivals == old(arrivals) + (if taken then Brings(event) else [])
      ensures !taken ==> event.k >= |consumers| || marks[event.k].gone
      ensures Marked(old(marks), marks, event, taken) && (old(AllGood()) && Smooth(event) ==> AllGood())
      ensures if event.Subscribe? then running && unchanged(old(repr)) else consumers == old(consumers)
      ensures if taken && event.Ready?
              then Reacted(event.k, event.input, event.writable && old(consumers[event.k].io.interest.ReadWrite?))
              else running && unchanged(old(repr))
      ensures running || (event.Ready? && event.input.Nothing?) ==> AllIdled(event)
    {
      match event
      case Subscribe(plan, sub) =>
        Admit(plan, sub);
        taken := true;
      case Ready(k, input, writable) =>
        taken := HandleReported(k, input, writable);
    }

    /** Every consumer with a backlog that is registered is watched for writing. */
    ghost predicate WatchedFor()
      reads this`consumers, this`repr, repr
    {
      Apart() && forall k :: 0 <= k < |consumers| ==> WatchedForAt(consumers, k)
    }

    lemma NobodyStranded()
      requires Valid()
      ensures WatchedFor()
    {
      forall k | 0 <= k < |consumers|
        ensures WatchedForAt(consumers, k)
      {
        NobodyIsStranded(k);
      }
    }

    /** A subscription, for the record of the run. */
    method Admit(plan: nat -> Reply, sub: Filters.Subscription)
      requires Valid() && running
      modifies this`consumers, this`since, this`heard, this`marks, this`repr
      ensures Valid() && running && fresh(repr - old(repr)) && old(repr) <= repr && old(consumers) <= consumers
      ensures Now().entries == old(Now()).entries + [Entry(plan, Filters.Normalize(sub), |arrivals|)]
      ensures marks == old(marks) + [Mark(false, false)] && (old(AllGood()) && GoodWrites(plan) ==> AllGood())
    {
      ListenTo(plan, sub);
      EntriesNext(old(consumers), old(since), consumers[|old(consumers)|], |arrivals|);
    }

    /** What the selector would report about consumer `k`, if it watches it. */
    method HandleReported(k: nat, input: Input, writable: bool) returns (taken: bool)
      requires Valid() && running && WellFormed(Ready(k, input, writable))
      modifies this`running, this`arrivals, this`heard, this`marks, repr
      ensures Valid() && (taken <==> old(k < |consumers| && consumers[k].io.registered))
      ensures arrivals == old(arrivals) + (if taken && input.Block? then [Arrival(k, Decode(input.cf))] else [])
      ensures !taken ==> k >= |consumers| || marks[k].gone
      ensures Marked(old(marks), marks, Ready(k, input, writable), taken)
      ensures old(AllGood()) && !input.Broken? ==> AllGood()
      ensures if taken then Reacted(k, input, writable && old(consumers[k].io.interest.ReadWrite?))
              else running && unchanged(repr)
      ensures running || input.Nothing? ==> AllIdled(Ready(k, input, writable))
    {
      NobodyStranded();
      taken := k < |consumers| && consumers[k].io.registered;
      if taken {
        HandleReady(k, input, writable && consumers[k].io.interest.ReadWrite?);
      } else if k < |consumers| {
        Miss(k);
      }
      AllIdle(Ready(k, input, writable), taken);
    }

    /** Only an entry for a registered consumer does anything to those who are there. */
    twostate predicate Took(new event: Event, taken: bool)
      requires old(Valid()) && Valid() && old(consumers) <= consumers && old(repr) <= repr && WellFormed(event)
      reads this, repr
    {
      && (taken <==> event.Subscribe? || old(event.k < |consumers| && consumers[event.k].io.registered))
      && (event.Ready? ==> consumers == old(consumers))
      && if taken && event.Ready?
         then Reacted(event.k, event.input, event.writable && old(consumers[event.k].io.interest.ReadWrite?))
         else unchanged(old(repr))
    }

    /** Whoever there is no news for has its line left as it is, or drained. */
    twostate predicate AllIdled(new event: Event)
      requires old(Apart()) && Apart() && old(consumers) <= consumers
      reads this, repr
    {
      forall k :: 0 <= k < |old(consumers)| && NoNews(event, k) ==> Idled(old(consumers), k, event)
    }

    twostate lemma AllIdle(new event: Event, new taken: bool)
      requires old(Valid()) && Valid() && old(consumers) <= consumers && old(repr) <= repr && WellFormed(event)
      requires Took(event, taken)
      requires old(WatchedFor())
      ensures running || (event.Ready? && event.input.Nothing?) ==> AllIdled(event)
    {
      if running || (event.Ready? && event.input.Nothing?) {
        forall k | 0 <= k < |old(consumers)| && NoNews(event, k)
          ensures Idled(old(consumers), k, event)
        {
          Idles(k, event, taken);
        }
      }
    }

    /** An event that is quiet for consumer `k`, unless it ends the thread. */
    twostate lemma Idles(new k: nat, new event: Event, new taken: bool)
      requires old(Valid()) && Valid() && old(consumers) <= consumers && old(repr) <= repr && k < |old(consumers)|
      requires WellFormed(event) && NoNews(event, k) && (running || (event.Ready? && event.input.Nothing?))
      requires Took(event, taken)
      requires old(WatchedForAt(consumers, k))
      ensures Idled(old(consumers), k, event)
    {
      if taken && event.Ready? {
        var fs := FramesOf(event.input);
        var ps :| old(Foretells(event.k, fs, ps)) && OthersLined(event.k, ps, TurnsFrom(ps, 0));
        if event.k != k {
          assert old(ForetoldAt(consumers, k, event.k, fs, ps)) && LinedAt(consumers, k, ps, TurnsFrom(ps, 0));
        }
      }
    }

    /** Every consumer has a good schedule, and no read has failed. */
    ghost predicate AllGood()
      reads this`consumers, this`marks
    {
      |marks| == |consumers| && forall i :: 0 <= i < |consumers| ==> GoodWrites(consumers[i].io.sock.plan) && !marks[i].broke
    }

    /** Every consumer has a good schedule, and only a read from the first has failed. */
    ghost predicate AllButFirstGood()
      reads this`consumers, this`marks
    {
      && |marks| == |consumers|
      && forall i :: 0 <= i < |consumers| ==> GoodWrites(consumers[i].io.sock.plan) && (marks[i].broke <==> i == 0)
    }

    ghost method Miss(k: nat)
      requires Valid() && running && k < |consumers| && !consumers[k].io.registered
      modifies this`marks
      ensures Valid() && running && marks == old(marks)[k := old(marks)[k].(gone := true)]
    {
      marks := marks[k := marks[k].(gone := true)];
      forall i | 0 <= i < |consumers|
        ensures ExactAt(consumers, i, marks, heard)
      {
        assert old(ExactAt(consumers, i, marks, heard));
      }
      ServesAll();
    }

    ghost function Now(): Progress
      requires |since| == |consumers|
      reads this`arrivals, this`consumers, this`since, this`marks
    {
      Progress(arrivals, EntriesOf(consumers, since), marks)
    }

    /** The lines of those who were there when they were `was`. */
    ghost predicate AllPaid(was: seq<Line>, events: seq<Event>, n: nat)
      reads this`consumers, this`repr, repr
    {
      && Apart() && |was| <= |consumers| && n <= |events|
      && forall k :: 0 <= k < |was| ==> PaidAt(consumers, k, was, events, n)
    }

    twostate lemma AllPaidNext(new was: seq<Line>, new events: seq<Event>, new i: nat)
      requires i < |events| && old(AllPaid(was, events, i)) && old(Apart()) && Apart() && old(consumers) <= consumers
      requires AllIdled(events[i])
      ensures AllPaid(was, events, i + 1)
    {
      var n := i + 1;
      forall k | 0 <= k < |was|
        ensures PaidAt(consumers, k, was, events, n)
      {
        assert NoNews(events[i], k) ==> Idled(old(consumers), k, events[i]);
        PaidNext(old(consumers), k, was, events, i);
      }
    }

    /** Everyone's line. */
    ghost function Lines(): (ls: seq<Line>)
      requires Apart()
      reads this, repr
      ensures |ls| == |consumers| && forall k :: 0 <= k < |consumers| ==> ls[k] == consumers[k].io.Line()
    {
      seq(|consumers|, k requires Apart() && 0 <= k < |consumers| reads this, repr => consumers[k].io.Line())
    }

    /** A consumer with a good schedule that had the line `was`, was registered, and was found
        writable five times for every frame in its backlog, while there was no news for it: its
        backlog is empty, and unless it was to hear more than a backlog holds, all it is to hear is
        whole on its wire, and nothing else. */
    ghost predicate CaughtUp(k: nat, was: Line, events: seq<Event>)
      requires Valid() && k < |consumers|
      reads this, repr
    {
      var io, all := consumers[k].io, Heard(arrivals, since[k], k, consumers[k].filters);
      && GoodWrites(io.sock.plan) && was.registered && NoNewsIn(events, |events|, k)
      && Chances(events, |events|, k) >= STREAM_SEND_ATTEMPTS * |was.outbound|
      ==>
      io.registered && io.outbound == [] && (|all| <= cap ==> WholeOnWire(io.sock.wire, all))
    }

    /** With an empty backlog there is nothing but the wire for it to be in. */
    lemma NothingLeft(k: nat)
      requires Valid() && running && k < |consumers| && GoodWrites(consumers[k].io.sock.plan)
      requires |Heard(arrivals, since[k], k, consumers[k].filters)| <= cap && consumers[k].io.outbound == []
      ensures WholeOnWire(consumers[k].io.sock.wire, Heard(arrivals, since[k], k, consumers[k].filters))
    {
      GoodSocketsHearEverything(k);
      var sent := FramesAt(consumers[k].io.s.log, consumers[k].io.s.delivered);
      assert sent + [] == sent;
    }

    lemma CatchesUp(k: nat, was: seq<Line>, events: seq<Event>)
      requires Valid() && running && AllPaid(was, events, |events|) && k < |was|
      ensures CaughtUp(k, was[k], events)
    {
      var io := consumers[k].io;
      assert PaidAt(consumers, k, was, events, |events|);
      if GoodWrites(io.sock.plan) && was[k].registered && NoNewsIn(events, |events|, k)
         && Chances(events, |events|, k) >= STREAM_SEND_ATTEMPTS * |was[k].outbound| {
        PaidOffInTime(io.sock.plan, was[k], io.Line(), Chances(events, |events|, k));
        if |Heard(arrivals, since[k], k, consumers[k].filters)| <= cap {
          NothingLeft(k);
        }
      }
    }

    lemma AllCatchUp(was: seq<Line>, events: seq<Event>)
      requires Valid() && running && AllPaid(was, events, |events|)
      ensures forall k :: 0 <= k < |was| ==> CaughtUp(k, was[k], events)
    {
      forall k | 0 <= k < |was|
        ensures CaughtUp(k, was[k], events)
      {
        CatchesUp(k, was, events);
      }
    }

    /** The next event of a run. */
    method HandleNext(events: seq<Event>, ghost taken: seq<bool>, i: nat, ghost start: Progress, ghost was: seq<Line>)
      returns (ghost taken': seq<bool>)
      requires Valid() && running && forall j :: 0 <= j < |events| ==> WellFormed(events[j])
      requires |taken| == i < |events| && Leads(events, taken, start, Now()) && AllPaid(was, events, i)
      modifies this, repr
      ensures Valid() && fresh(repr - old(repr)) && old(consumers) <= consumers
      ensures |taken'| == i + 1 && Leads(events, taken', start, Now()) && (running ==> AllPaid(was, events, i + 1))
      ensures old(AllGood()) && Smooth(events[i]) ==> AllGood()
    {
      ghost var before := Now();
      var b := Handle(events[i]);
      taken' := taken + [b];
      LeadsNext(events, taken, start, before, b, Now());
      if running { AllPaidNext(was, events, i); }
    }

    /** Any run of the server: subscriptions and selected events in any order, until the thread
        dies or they are all handled. Everyone who was there keeps the point it joined at, and who
        joins does so at the arrivals of that moment. An event is passed over only if it is about
        no consumer, or one that is unregistered for good. With good schedules and no failed read
        the thread lives to the end; and those for whom there is no news catch up. */
    method Run(events: seq<Event>) returns (ghost taken: seq<bool>)
      requires Valid() && running && forall i :: 0 <= i < |events| ==> WellFormed(events[i])
      modifies this, repr
      ensures Valid() && old(consumers) <= consumers
      ensures |taken| <= |events| && Leads(events, taken, old(Now()), Now()) && (running ==> |taken| == |events|)
      ensures old(AllGood()) && (forall i :: 0 <= i < |events| ==> Smooth(events[i])) ==> AllGood() && running
      ensures running ==> forall k :: 0 <= k < |old(consumers)| ==> CaughtUp(k, old(Lines())[k], events)
    {
      taken := [];
      ghost var start, was := Now(), Lines();
      for i := 0 to |events|
        invariant Valid() && fresh(repr - old(repr)) && old(consumers) <= consumers
        invariant |taken| == i && Leads(events, taken, start, Now()) && (running ==> AllPaid(was, events, i))
        invariant old(AllGood()) && (forall j :: 0 <= j < i ==> Smooth(events[j])) ==> AllGood()
      {
        if !running {
          if AllGood() { GoodSocketsKeepItRunning(); }
          return;
        }
        taken := HandleNext(events, taken, i, start, was);
      }
      if AllGood() { GoodSocketsKeepItRunning(); }
      if running { AllCatchUp(was, events); }
    }

    // -------------------------------------------------------------- what keeps it running

    /** The thread runs if and only if no step in the history of any of its consumers raised. */
    lemma RunningIff()
      requires Valid()
      ensures running <==> forall i :: 0 <= i < |consumers| ==>
        !RelayTheorems.KilledIn(Init(cap, useStream), consumers[i].io.history)
    {
      forall i | 0 <= i < |consumers|
        ensures consumers[i].io.txAlive <==> !RelayTheorems.KilledIn(Init(cap, useStream), consumers[i].io.history)
        ensures running ==> consumers[i].io.txAlive
      {
        assert SoundAt(consumers, i, marks, heard) && (running ==> ExactAt(consumers, i, marks, heard));
        consumers[i].io.RunOf();
        RelayTheorems.DiesOnRunIff(Init(cap, useStream), consumers[i].io.history);
      }
    }

    /** On a stream server only an unregistered consumer can end the thread. */
    lemma StreamServerKeepsRunning()
      requires Valid() && useStream && forall i :: 0 <= i < |consumers| ==> consumers[i].io.registered
      ensures running
    {
      forall i | 0 <= i < |consumers|
        ensures consumers[i].io.txAlive
      {
        assert SoundAt(consumers, i, marks, heard);
        consumers[i].io.RunOf();
        RelayTheorems.StreamLives(Init(cap, useStream), consumers[i].io.history);
      }
    }

    /** With good schedules, on either kind of server, only a failed read can lead to its end. */
    lemma GoodSocketsKeepItRunning()
      requires Valid() && AllGood()
      ensures running && forall i :: 0 <= i < |consumers| ==> consumers[i].io.registered
    {
      forall i | 0 <= i < |consumers|
        ensures consumers[i].io.registered && consumers[i].io.txAlive
      {
        assert SoundAt(consumers, i, marks, heard);
      }
    }

    /** The virtual bus refines ordered broadcast. What a consumer was sent, followed by what is
        queued for it, is what the others sent since it subscribed, in order, through its filters,
        once each and never its own - as long as none of its frames was evicted or failed to be
        sent; and a thread that died leaves a prefix of it. The socket of a registered consumer
        holds those frames whole, if and only if no loopback send broke off. */
    lemma RefinesBroadcast(k: nat)
      requires Valid() && k < |consumers|
      requires consumers[k].io.s.evicted == [] && consumers[k].io.s.lost == []
      ensures SoundAt(consumers, k, marks, heard)
      ensures var c, io := consumers[k], consumers[k].io;
              var all := Heard(arrivals, since[k], k, c.filters);
              && FramesAt(io.s.log, io.s.delivered) + io.outbound <= all
              && (running ==> FramesAt(io.s.log, io.s.delivered) + io.outbound == all)
      ensures var io := consumers[k].io;
              io.registered ==>
                (WholeOnWire(io.sock.wire, FramesAt(io.s.log, io.s.delivered)) <==> io.torn == 0)
    {
      var io := consumers[k].io;
      assert SoundAt(consumers, k, marks, heard) && (running ==> ExactAt(consumers, k, marks, heard));
      DeliveredThenQueued(io, heard[k], marks[k]);
      if io.registered { io.LiveStreamIsWholeIff(); }
    }

    /** No eviction happens before a consumer has been meant to hear more than a backlog holds. */
    lemma EvictsOnlyBeyondBacklog(k: nat)
      requires Valid() && k < |consumers| && |Heard(arrivals, since[k], k, consumers[k].filters)| <= cap
      ensures consumers[k].io.s.evicted == []
    {
      assert SoundAt(consumers, k, marks, heard);
      consumers[k].io.RunOf();
      RelayTheorems.FirstEviction(consumers[k].io.s);
    }

    /** So a consumer whose socket never fails and never stalls inside a frame, and that is to hear
        no more than a backlog holds, has on its wire the whole encodings of the first frames of
        the broadcast, and the rest in its backlog - all of it, while the thread runs, and so if
        everyone's socket is as good and no read has failed. */
    lemma GoodSocketsHearEverything(k: nat)
      requires Valid() && k < |consumers| && GoodWrites(consumers[k].io.sock.plan)
      requires |Heard(arrivals, since[k], k, consumers[k].filters)| <= cap
      ensures SoundAt(consumers, k, marks, heard)
      ensures var c, io := consumers[k], consumers[k].io;
              var all := Heard(arrivals, since[k], k, c.filters);
              var sent := FramesAt(io.s.log, io.s.delivered);
              && sent + io.outbound <= all && (running || AllGood() ==> sent + io.outbound == all)
              && WholeOnWire(io.sock.wire, sent)
    {
      assert SoundAt(consumers, k, marks, heard);
      if AllGood() { GoodSocketsKeepItRunning(); }
      var io := consumers[k].io;
      EvictsOnlyBeyondBacklog(k);
      RefinesBroadcast(k);
      WholeIffNoStrayBytes(io.s, io.sock.wire, io.outbound);
    }

    /** No consumer with a backlog is left unwatched, and what its counter and log say was dropped
        is exactly what it will never get. */
    lemma NobodyIsStranded(k: nat)
      requires Valid() && k < |consumers|
      ensures var io := consumers[k].io;
              && (io.registered ==> (io.outbound != [] ==> io.interest.ReadWrite?) && (io.interest.ReadOnly? ==> io.dropped == 0))
              && io.s.reported + io.dropped == |RelayTheorems.Missing(io.s)|
    {
      assert SoundAt(consumers, k, marks, heard);
      NeverStranded(consumers[k].io, heard[k], marks[k]);
    }
  }

  // ---------------------------------------------------------------- one failed read ends the server

  /** The first send is refused, and every later one goes through. */
  function RefuseOnce(): nat -> Reply {
    c => if c == 0 then Refuse else Accept(FRAME_SIZE)
  }

  lemma RefuseOnceIsGood()
    ensures GoodWrites(RefuseOnce())
  {
    forall c: nat
      ensures GoodCall(RefuseOnce(), c)
    {
      assert !Stalls(RefuseOnce(), c + 1);
    }
  }

  /** Two consumers with good schedules. */
  method TwoConsumers(cap: nat, useStream: bool) returns (server: Server)
    requires cap >= 1
    ensures fresh(server) && fresh(server.repr) && server.Valid() && server.running && server.arrivals == []
    ensures |server.consumers| == 2 && server.marks == [Mark(false, false), Mark(false, false)]
    ensures server.useStream == useStream && server.consumers[0].filters.None?
    ensures forall i :: 0 <= i < 2 ==>
      var io := server.consumers[i].io; io.registered && io.outbound == [] && io.sock.calls == 0 && io.sock.plan == RefuseOnce()
  {
    server := new Server(cap, useStream);
    server.ListenTo(RefuseOnce(), Filters.NoFilters);
    server.ListenTo(RefuseOnce(), Filters.NoFilters);
  }

  /** A read from the first fails, so it is unregistered. */
  method LoseFirst(cap: nat, useStream: bool) returns (server: Server)
    requires cap >= 1
    ensures fresh(server) && fresh(server.repr) && server.Valid() && server.running && server.AllButFirstGood()
    ensures |server.consumers| == 2 && server.consumers[0].filters.None? && server.consumers[1].io.registered
    ensures !server.consumers[0].io.registered && server.consumers[0].io.EndsForward() && server.arrivals == []
  {
    RefuseOnceIsGood();
    FrameEndingIsProper(useStream, RefuseOnce(), 0);
    server := TwoConsumers(cap, useStream);
    server.HandleReady(0, Broken, false);
    assert SoundAt(server.consumers, 1, server.marks, server.heard);
  }

  /** The next frame of the second one ends the thread: its direct send to the first is refused
      for a moment, and `selector.modify` finds no such consumer. */
  method FailedReadEndsServer(cap: nat, useStream: bool, cf: seq<Byte>) returns (server: Server)
    requires cap >= 1 && |cf| == FRAME_SIZE
    ensures fresh(server) && server.Valid() && !server.running && server.AllButFirstGood()
    ensures |server.consumers| == 2 && server.arrivals == [Arrival(1, Decode(cf))]
  {
    server := LoseFirst(cap, useStream);
    assert EndsAt(server.consumers, 0, 1, Decode(cf));
    server.HandleReady(1, Block(cf), false);
  }
}
