/** The relay's per-consumer object as the two threads run it: forwarding a frame from either
    thread, and draining the backlog while the RX thread keeps interfering. Whatever touches the
    shared state advances the machine in module Relay, so what holds on every run of that machine
    holds of this object at all times. */
module ConsumerIo {
  import opened CanFrame
  import opened Stream
  import opened Relay
  import opened RelayInvariants

  // ---------------------------------------------------------------- the object and the machine

  /** The frames the tickets in `q` stand for. */
  function FramesAt(log: seq<Item>, q: seq<nat>): (fs: seq<Frame>)
    requires Below(q, |log|)
    ensures |fs| == |q| && forall i :: 0 <= i < |q| ==> fs[i] == log[q[i]].frame
  {
    seq(|q|, i requires 0 <= i < |q| => log[q[i]].frame)
  }

  /** What the threads see of one consumer. */
  datatype Io = Io(outbound: seq<Frame>, dropped: nat, interest: Interest, registered: bool,
                   closed: bool, rxAlive: bool, txAlive: bool)

  /** The machine's state `s` is what the fields in `io` hold. */
  ghost predicate Shows(s: State, io: Io) {
    && s.cap >= 1 && |s.outbound| <= s.cap && Below(s.outbound, |s.log|)
    && io == Io(FramesAt(s.log, s.outbound), s.dropped, s.interest, s.registered, s.closed, s.rxAlive, s.txAlive)
  }

  lemma OfferShows(s: State, io: Io, t: Thread, f: Frame)
    requires Shows(s, io)
    ensures Shows(DoOffer(s, t, f), io)
  {
    if t.Rx? {}
  }

  lemma LookShows(s: State, io: Io, t: Thread)
    requires Shows(s, io) && s.HandOf(t).Behind?
    ensures Shows(DoLook(s, t), io.(dropped := if |io.outbound| == s.cap then io.dropped + 1 else io.dropped))
  {
  }

  /** `deque(maxlen=cap).append` on frames. */
  function Enqueued(q: seq<Frame>, cap: nat, f: Frame): seq<Frame> {
    (if |q| >= cap && q != [] then q[1..] else q) + [f]
  }

  lemma AppendShows(s: State, io: Io, t: Thread)
    requires Shows(s, io) && s.HandOf(t).Looked?
    ensures var promote := s.HandOf(t).promote;
            Shows(DoAppend(s, t),
                  io.(outbound := Enqueued(io.outbound, s.cap, s.HandOf(t).item.frame),
                      interest := if promote && io.registered then ReadWrite else io.interest,
                      rxAlive := io.rxAlive && !(promote && !io.registered && t.Rx?),
                      txAlive := io.txAlive && !(promote && !io.registered && t.Tx?)))
  {
    var item := s.HandOf(t).item;
    assert FramesAt(s.log + [item], Pushed(s.outbound, s.cap, |s.log|)) == Enqueued(io.outbound, s.cap, item.frame);
  }

  lemma SendShows(s: State, io: Io, t: Thread, o: Outcome)
    requires Shows(s, io) && s.HandOf(t).Direct?
    ensures var raised := o.OtherError? && !s.stream;
            Shows(DoSend(s, t, o),
                  io.(closed := io.closed || (t.Rx? && Fatal(s.stream, o)),
                      rxAlive := io.rxAlive && !(raised && t.Rx?), txAlive := io.txAlive && !(raised && t.Tx?)))
  {
    if o.WouldBlock? {
    } else if o.Took? {
    } else {
    }
  }

  lemma SendHeadShows(s: State, io: Io, o: Outcome)
    requires Shows(s, io) && s.drain.Peeked?
    ensures var fatal := Fatal(s.stream, o);
            Shows(DoSendHead(s, o),
                  io.(registered := io.registered && !fatal,
                      txAlive := io.txAlive && !(o.OtherError? && !s.stream)))
  {
    if o.Took? {
    } else if o.WouldBlock? {
    } else if Fatal(s.stream, o) {
    } else if o.Unreachable? {
    }
  }

  lemma SendHeadDrain(s: State, o: Outcome)
    requires s.drain.Peeked?
    ensures var r := DoSendHead(s, o);
            && r.log == s.log && r.rx == s.rx && r.tx == s.tx
            && (if o.Took? || (o.Unreachable? && !s.stream) then r.drain.Popping?
                else if o.WouldBlock? then r.drain.Leaving? else r.drain.Idle?)
  {
    if o.Took? {
    } else if o.WouldBlock? {
    } else if Fatal(s.stream, o) {
    } else if o.Unreachable? {
    }
  }

  lemma PopShows(s: State, io: Io)
    requires Shows(s, io) && s.drain.Popping? && s.outbound != []
    ensures io.outbound != [] && Shows(DoPop(s), io.(outbound := io.outbound[1..]))
  {
    assert FramesAt(s.log, s.outbound[1..]) == FramesAt(s.log, s.outbound)[1..];
  }

  lemma DemoteShows(s: State, io: Io)
    requires Shows(s, io)
    ensures Shows(DoDemote(s), if io.outbound == [] then io.(interest := ReadOnly, dropped := 0) else io)
  {
    if s.outbound == [] {}
  }

  lemma DemoteKeeps(s: State)
    ensures var r := DoDemote(s);
            r.log == s.log && r.delivered == s.delivered && r.lost == s.lost && r.rx == s.rx && r.tx == s.tx && r.drain.Idle?
  {
    if s.outbound == [] {}
  }

  /** How a send that did not go through looks to the relay. */
  function OutcomeOf(r: SendResult): Outcome {
    match r
    case Sent => Took
    case WouldBlock => Outcome.WouldBlock
    case Failed(ResetError) => Reset
    case Failed(UnreachableError) => Unreachable
    case Failed(OtherOsError) => OtherError
    case Desync => OtherError
  }

  /** How the consumer's socket answers a frame sent from call `first` on. */
  function FrameEnding(stream: bool, plan: nat -> Reply, first: nat): Ending {
    if stream then StreamEnding(plan, first) else DatagramEnding(plan, first)
  }

  /** What every answer amounts to; a datagram never breaks off. */
  ghost predicate Proper(stream: bool, e: Ending, plan: nat -> Reply, first: nat) {
    && e.n <= FRAME_SIZE && (e.r.Sent? <==> e.n == FRAME_SIZE) && (e.r.WouldBlock? || !stream ==> e.n == 0 || e.r.Sent?)
    && (e.r.WouldBlock? <==> plan(first).Refuse?) && first < e.calls
    && (GoodWrites(plan) ==> e.r.Sent? || e.r.WouldBlock?)
  }

  lemma FrameEndingIsProper(stream: bool, plan: nat -> Reply, first: nat)
    ensures Proper(stream, FrameEnding(stream, plan, first), plan, first)
  {
    if stream {
      StreamEndingMeans(plan, first);
    } else if GoodWrites(plan) {
      assert GoodCall(plan, first);
    }
  }

  /** How a frame sent from call `first` on looks to the relay. */
  function OutcomeAt(stream: bool, plan: nat -> Reply, first: nat): Outcome {
    OutcomeOf(FrameEnding(stream, plan, first).r)
  }

  /** An error nobody catches: it ends the thread. */
  predicate Raises(stream: bool, o: Outcome) {
    o.OtherError? && !stream
  }

  /** The drain's send is followed by `popleft` and another turn of the loop. */
  predicate GoesOn(stream: bool, o: Outcome) {
    o.Took? || (o.Unreachable? && !stream)
  }

  /** How a drain that nobody interferes with comes out: `Sent` if it empties the backlog, else what
      stopped it; how many frames it took off the backlog; and the socket's next call. */
  datatype Drainage = Drainage(r: SendResult, sent: nat, calls: nat)

  /** The drain of `n` frames: each is sent in turn; a datagram nobody listens for is passed over. */
  function DrainEnding(stream: bool, plan: nat -> Reply, first: nat, n: nat): (d: Drainage)
    ensures d.sent <= n && (d.r.Sent? <==> d.sent == n)
    ensures !stream ==> !d.r.Desync? && d.r != Failed(UnreachableError)
    decreases n
  {
    if n == 0 then Drainage(Sent, 0, first)
    else
      var e := FrameEnding(stream, plan, first);
      if e.r.Sent? || (!stream && e.r == Failed(UnreachableError)) then
        var d := DrainEnding(stream, plan, e.calls, n - 1);
        Drainage(d.r, d.sent + 1, d.calls)
      else Drainage(e.r, 0, e.calls)
  }

  /** How many calls in a row, of `most` from call `first` on, are refused. */
  function Refusals(plan: nat -> Reply, first: nat, most: nat): (n: nat)
    ensures n <= most && (forall j :: first <= j < first + n ==> plan(j).Refuse?)
    ensures n < most ==> !plan(first + n).Refuse?
    decreases most
  {
    if most == 0 || !plan(first).Refuse? then 0 else 1 + Refusals(plan, first + 1, most - 1)
  }

  /** Drains that a backlog of `n` frames may need yet, on a schedule that does not refuse five
      calls in a row. */
  function Debt(plan: nat -> Reply, first: nat, n: nat): nat {
    if n == 0 then 0 else STREAM_SEND_ATTEMPTS * (n - 1) + 1 + Refusals(plan, first, STREAM_SEND_ATTEMPTS)
  }

  lemma FewRefusals(plan: nat -> Reply, first: nat, most: nat)
    requires ProgressIn(plan, first, most)
    ensures Refusals(plan, first, most) < most
  {
    var d :| first <= d < first + most && !Stalls(plan, d);
    assert !plan(d).Refuse?;
  }

  lemma OneRefused(plan: nat -> Reply, first: nat, most: nat)
    requires plan(first).Refuse? && Refusals(plan, first, most) < most && Refusals(plan, first + 1, most) < most
    ensures Refusals(plan, first, most) == 1 + Refusals(plan, first + 1, most)
  {
    var n, m := Refusals(plan, first, most) - 1, Refusals(plan, first + 1, most);
    assert !plan(first + 1 + n).Refuse? && !plan(first + 1 + m).Refuse?;
  }

  lemma RefusedOnce(plan: nat -> Reply, first: nat)
    requires GoodWrites(plan)
    ensures Refusals(plan, first, STREAM_SEND_ATTEMPTS) < STREAM_SEND_ATTEMPTS
    ensures plan(first).Refuse? ==>
      Refusals(plan, first, STREAM_SEND_ATTEMPTS) == 1 + Refusals(plan, first + 1, STREAM_SEND_ATTEMPTS)
  {
    assert GoodCall(plan, first) && GoodCall(plan, first + 1);
    FewRefusals(plan, first, STREAM_SEND_ATTEMPTS);
    FewRefusals(plan, first + 1, STREAM_SEND_ATTEMPTS);
    if plan(first).Refuse? { OneRefused(plan, first, STREAM_SEND_ATTEMPTS); }
  }

  lemma DebtFalls(plan: nat -> Reply, first: nat, n: nat, sent: nat, end: nat)
    requires GoodWrites(plan) && 0 < n && sent <= n
    requires if plan(first).Refuse? then sent == 0 && end == first + 1 else sent > 0
    ensures Debt(plan, end, n - sent) < Debt(plan, first, n)
  {
    RefusedOnce(plan, first);
    RefusedOnce(plan, end);
  }

  lemma {:induction false} DrainHolds(stream: bool, plan: nat -> Reply, first: nat, n: nat)
    requires GoodWrites(plan)
    ensures var d := DrainEnding(stream, plan, first, n); d.r.Sent? || d.r.WouldBlock?
    ensures var d := DrainEnding(stream, plan, first, n);
            n > 0 ==> if plan(first).Refuse? then d.sent == 0 && d.calls == first + 1 else d.sent > 0
    decreases n
  {
    if n > 0 {
      var e := FrameEnding(stream, plan, first);
      FrameEndingIsProper(stream, plan, first);
      if e.r.Sent? { DrainHolds(stream, plan, e.calls, n - 1); }
    }
  }

  /** Every drain pays some of it off, and loses nothing. */
  lemma DrainPays(stream: bool, plan: nat -> Reply, first: nat, n: nat)
    requires GoodWrites(plan)
    ensures var d := DrainEnding(stream, plan, first, n);
            (d.r.Sent? || d.r.WouldBlock?) && (n > 0 ==> Debt(plan, d.calls, n - d.sent) < Debt(plan, first, n))
  {
    DrainHolds(stream, plan, first, n);
    var d := DrainEnding(stream, plan, first, n);
    if n > 0 { DebtFalls(plan, first, n, d.sent, d.calls); }
  }

  /** The first answer of the socket, when that is all there is to a send. */
  lemma AnswerMeans(stream: bool, plan: nat -> Reply, first: nat)
    ensures var o, reply := OutcomeAt(stream, plan, first), plan(first);
            && (reply.Refuse? ==> o.WouldBlock?)
            && (reply == Fail(ResetError) || (stream && reply.Fail?) ==> Fatal(stream, o) && !Raises(stream, o))
            && (!stream && (reply.Accept? || reply == Fail(UnreachableError)) ==> GoesOn(stream, o))
            && (!stream && reply == Fail(OtherOsError) ==> Raises(stream, o) && !Fatal(stream, o))
  {
  }

  /** What stopped it, in terms of the schedule, and how it looks to the relay. */
  lemma StoppedBy(stream: bool, d: Drainage)
    requires !stream ==> !d.r.Desync? && d.r != Failed(UnreachableError)
    ensures var o := OutcomeOf(d.r);
            && (o.Took? <==> d.r.Sent?) && (o.WouldBlock? <==> d.r.WouldBlock?)
            && (Raises(stream, o) <==> !stream && d.r == Failed(OtherOsError))
            && (Fatal(stream, o) <==> !d.r.Sent? && !d.r.WouldBlock? && (stream || d.r != Failed(OtherOsError)))
  {
  }

  /** On datagrams, call by call: the first `k` calls go through or find nobody listening, and the
      next is the end of it. */
  lemma {:induction false} DatagramDrain(plan: nat -> Reply, first: nat, n: nat, k: nat)
    requires k <= n && forall j :: first <= j < first + k ==> plan(j).Accept? || plan(j) == Fail(UnreachableError)
    ensures k == n ==> DrainEnding(false, plan, first, n) == Drainage(Sent, n, first + n)
    ensures k < n && plan(first + k).Refuse? ==> DrainEnding(false, plan, first, n) == Drainage(SendResult.WouldBlock, k, first + k + 1)
    ensures k < n && plan(first + k) == Fail(ResetError) ==>
      DrainEnding(false, plan, first, n) == Drainage(Failed(ResetError), k, first + k + 1)
    ensures k < n && plan(first + k) == Fail(OtherOsError) ==>
      DrainEnding(false, plan, first, n) == Drainage(Failed(OtherOsError), k, first + k + 1)
    decreases n
  {
    if k > 0 {
      assert plan(first).Accept? || plan(first) == Fail(UnreachableError);
      DatagramDrain(plan, first + 1, n - 1, k - 1);
    }
  }

  // ---------------------------------------------------------------- the wire

  /** `wire` is the concatenation of the whole encodings of `fs`. */
  predicate WholeOnWire(wire: seq<Byte>, fs: seq<Frame>) {
    AllSendable(fs) && wire == EncodeAll(fs)
  }

  lemma WholeOnWireNext(wire: seq<Byte>, fs: seq<Frame>, f: Frame)
    requires WholeOnWire(wire, fs) && Sendable(f)
    ensures WholeOnWire(wire + EncodingOf(f), fs + [f])
  {
    assert Encodings(fs + [f])[..|fs|] == Encodings(fs);
  }

  lemma WholeLength(wire: seq<Byte>, fs: seq<Frame>)
    requires WholeOnWire(wire, fs)
    ensures |wire| == FRAME_SIZE * |fs|
  {
    JoinLength(Encodings(fs));
  }

  /** A frame broken off at the end is never a whole number of frames. */
  lemma BrokenIsNotWhole(wire: seq<Byte>, fs: seq<Frame>, more: seq<Byte>, gs: seq<Frame>)
    requires WholeOnWire(wire, fs) && 0 < |more| < FRAME_SIZE
    ensures !WholeOnWire(wire + more, gs)
  {
    WholeLength(wire, fs);
    if WholeOnWire(wire + more, gs) { WholeLength(wire + more, gs); }
  }

  /** The wire holds every delivered frame, and is just those, whole and in order, unless bytes of
      frames that broke off are among them; and everything queued can be encoded. */
  ghost predicate Framed(s: State, wire: seq<Byte>, queue: seq<Frame>) {
    && Below(s.delivered, |s.log|)
    && FRAME_SIZE * |s.delivered| <= |wire|
    && (|wire| == FRAME_SIZE * |s.delivered| ==> WholeOnWire(wire, FramesAt(s.log, s.delivered)))
    && AllSendable(queue)
  }

  /** So counting bytes tells whether the stream is whole. */
  lemma WholeIffNoStrayBytes(s: State, wire: seq<Byte>, queue: seq<Frame>)
    requires Framed(s, wire, queue)
    ensures WholeOnWire(wire, FramesAt(s.log, s.delivered)) <==> |wire| == FRAME_SIZE * |s.delivered|
  {
    if WholeOnWire(wire, FramesAt(s.log, s.delivered)) { WholeLength(wire, FramesAt(s.log, s.delivered)); }
  }

  lemma FramedKept(s: State, r: State, wire: seq<Byte>, queue: seq<Frame>, queue': seq<Frame>)
    requires Framed(s, wire, queue) && AllSendable(queue')
    requires r.delivered == s.delivered && |s.log| <= |r.log| && r.log[..|s.log|] == s.log
    ensures Framed(r, wire, queue')
  {
    assert FramesAt(r.log, s.delivered) == FramesAt(s.log, s.delivered);
  }

  /** A send that takes the first `n` bytes of `f`, which is delivered as ticket `k` if that is all. */
  lemma FramedNext(s: State, r: State, wire: seq<Byte>, queue: seq<Frame>, f: Frame, n: nat, k: nat)
    requires Framed(s, wire, queue) && Sendable(f) && n <= FRAME_SIZE
    requires r.delivered == s.delivered + (if n == FRAME_SIZE then [k] else [])
    requires |s.log| <= |r.log| && r.log[..|s.log|] == s.log
    requires n == FRAME_SIZE ==> k < |r.log| && r.log[k].frame == f
    ensures Framed(r, wire + EncodingOf(f)[..n], queue)
  {
    if n == FRAME_SIZE {
      assert EncodingOf(f)[..n] == EncodingOf(f);
      assert FramesAt(r.log, s.delivered + [k]) == FramesAt(s.log, s.delivered) + [f];
      if |wire| == FRAME_SIZE * |s.delivered| { WholeOnWireNext(wire, FramesAt(s.log, s.delivered), f); }
    } else {
      assert n == 0 ==> wire + EncodingOf(f)[..n] == wire;
      FramedKept(s, r, wire, queue, queue);
    }
  }

  /** The history after the frame in `t`'s offer is accepted, and what is left alone. */
  ghost predicate Accepts(s: State, r: State, t: Thread, f: Frame, fate: Fate) {
    && r.cap == s.cap && r.stream == s.stream
    && r.log == s.log + [Item(t, |s.OffersOf(t)|, f)]
    && r.delivered == s.delivered + (if fate.Delivered? then [|s.log|] else [])
    && r.lost == s.lost + (if fate.Lost? then [|s.log|] else [])
    && r.drain == s.drain
    && r.rx == (if t.Rx? then Resting else s.rx) && r.tx == (if t.Tx? then Resting else s.tx)
  }

  lemma EnqueueAccepts(s: State, t: Thread, f: Frame)
    requires s.outbound != []
    ensures var s1 := DoOffer(s, t, f);
            s1.HandOf(t) == Behind(Item(t, |s.OffersOf(t)|, f), false)
    ensures var s2 := DoLook(DoOffer(s, t, f), t);
            s2.HandOf(t).Looked? && s2.HandOf(t).item == Item(t, |s.OffersOf(t)|, f) && !s2.HandOf(t).promote
    ensures Accepts(s, DoAppend(DoLook(DoOffer(s, t, f), t), t), t, f, Queued)
  {
    if t.Rx? {} else {}
  }

  lemma OfferDirect(s: State, t: Thread, f: Frame)
    requires s.outbound == []
    ensures DoOffer(s, t, f).HandOf(t) == Direct(Item(t, |s.OffersOf(t)|, f))
  {
  }

  lemma SendAccepts(s: State, t: Thread, f: Frame, o: Outcome)
    requires !o.WouldBlock? && DoOffer(s, t, f).HandOf(t).Direct?
    ensures Accepts(s, DoSend(DoOffer(s, t, f), t, o), t, f, if o.Took? then Delivered else Lost)
  {
    if t.Rx? {
      if o.Took? {} else {}
    } else {
      if o.Took? {} else {}
    }
  }

  lemma HoldAccepts(s: State, t: Thread, f: Frame)
    requires DoOffer(s, t, f).HandOf(t).Direct?
    ensures var s2 := DoSend(DoOffer(s, t, f), t, Outcome.WouldBlock);
            s2.HandOf(t) == Behind(Item(t, |s.OffersOf(t)|, f), true)
    ensures var s3 := DoLook(DoSend(DoOffer(s, t, f), t, Outcome.WouldBlock), t);
            s3.HandOf(t).Looked? && Accepts(s, DoAppend(s3, t), t, f, Held)
  {
    if t.Rx? {} else {}
  }

  /** `r` is `s` after `t` offered `f` to an empty backlog and its direct send ended with `o`. */
  ghost predicate Tried(s: State, r: State, t: Thread, f: Frame, o: Outcome) {
    DoOffer(s, t, f).HandOf(t).Direct? && r == DoSend(DoOffer(s, t, f), t, o)
  }

  lemma TriedSettles(s: State, r: State, t: Thread, f: Frame, o: Outcome, queue: seq<Frame>, wire: seq<Byte>, n: nat)
    requires Tried(s, r, t, f, o) && !o.WouldBlock?
    requires Framed(s, wire, queue) && Sendable(f) && n <= FRAME_SIZE && (o.Took? <==> n == FRAME_SIZE)
    ensures Accepts(s, r, t, f, if o.Took? then Delivered else Lost)
    ensures Framed(r, wire + EncodingOf(f)[..n], queue)
  {
    SendAccepts(s, t, f, o);
    FramedNext(s, r, wire, queue, f, n, |s.log|);
  }

  /** What became of a frame offered to a consumer. */
  datatype Fate =
    | Queued      // behind an existing backlog
    | Delivered
    | Held        // the send was refused, so it was queued
    | Lost        // the send failed

  /** The socket refused a send after its first `first` calls. */
  ghost predicate RefusedSince(sock: SendSocket, first: nat)
    reads sock
  {
    exists c :: first <= c < sock.calls && sock.plan(c).Refuse?
  }

  /** The socket's part in sending `f`, from `wire` and `calls` on: its schedule's answer. */
  ghost predicate Answers(sock: SendSocket, stream: bool, f: Frame, e: Ending, wire: seq<Byte>, calls: nat)
    requires Sendable(f)
    reads sock
  {
    && e == FrameEnding(stream, sock.plan, calls) && Proper(stream, e, sock.plan, calls)
    && sock.calls == e.calls && sock.wire == wire + EncodingOf(f)[..e.n]
  }

  function FateOf(r: SendResult): Fate {
    if r.Sent? then Delivered else if r.WouldBlock? then Held else Lost
  }

  /** The socket's part in forwarding `f`: none for a frame that joined a backlog, else the one
      send, whose answer decides the fate. */
  ghost predicate Answered(sock: SendSocket, stream: bool, f: Frame, fate: Fate, e: Ending, wire: seq<Byte>, calls: nat)
    requires Sendable(f)
    reads sock
  {
    if fate.Queued? then sock.wire == wire && sock.calls == calls
    else Answers(sock, stream, f, e, wire, calls) && fate == FateOf(e.r)
  }

  /** Stray bytes come from frames that broke off, and from nothing else. */
  lemma AnsweredStray(sock: SendSocket, stream: bool, f: Frame, fate: Fate, e: Ending, wire: seq<Byte>, calls: nat, d: nat)
    requires Sendable(f) && Answered(sock, stream, f, fate, e, wire, calls)
    ensures |sock.wire| - FRAME_SIZE * (d + if fate.Delivered? then 1 else 0)
         == |wire| - FRAME_SIZE * d + (if fate.Lost? then e.n else 0)
  {
  }

  /** What the fate of a frame says of the socket's answer. */
  lemma Fated(fate: Fate, backedUp: bool, stream: bool, plan: nat -> Reply, first: nat)
    requires fate == if backedUp then Queued else FateOf(FrameEnding(stream, plan, first).r)
    ensures fate.Held? <==> !backedUp && plan(first).Refuse?
    ensures var r := FrameEnding(stream, plan, first).r;
            && (fate.Lost? <==> !backedUp && (r.Failed? || r.Desync?))
            && (!stream ==> !r.Desync? && (r.Failed? <==> plan(first).Fail?) && (r.Failed? ==> r.kind == plan(first).kind))
  {
    FrameEndingIsProper(stream, plan, first);
  }

  /** What a consumer has queued, how many calls its socket has had, how many bytes of loopback
      frames have broken off in it, and whether the selector knows it. */
  datatype Line = Lined(outbound: seq<Frame>, calls: nat, torn: nat, registered: bool)

  /** The line after `t` has forwarded `f`: it joins the backlog, or its one send is made, and it
      starts one if that is refused. */
  function NextLine(l: Line, t: Thread, cap: nat, stream: bool, plan: nat -> Reply, f: Frame): Line {
    if l.outbound != [] then l.(outbound := Enqueued(l.outbound, cap, f))
    else
      var e := FrameEnding(stream, plan, l.calls);
      Lined(if e.r.WouldBlock? then [f] else [], e.calls,
            if FateOf(e.r).Lost? && t.Tx? then l.torn + e.n else l.torn, l.registered)
  }

  lemma FatedLine(l: Line, t: Thread, cap: nat, stream: bool, plan: nat -> Reply, f: Frame, fate: Fate)
    requires fate == if l.outbound != [] then Queued else FateOf(FrameEnding(stream, plan, l.calls).r)
    ensures var e := FrameEnding(stream, plan, l.calls);
            NextLine(l, t, cap, stream, plan, f)
            == Lined(if fate.Queued? || fate.Held? then Enqueued(l.outbound, cap, f) else l.outbound,
                     if fate.Queued? then l.calls else e.calls,
                     if fate.Lost? && t.Tx? then l.torn + e.n else l.torn, l.registered)
  {
    assert l.outbound == [] ==> Enqueued(l.outbound, cap, f) == [f];
  }

  /** What a failed send would change of a consumer. */
  datatype Standing = AsOf(lost: seq<nat>, stray: int, closed: bool, registered: bool, txAlive: bool)

  /** A consumer as its drain's loop finds it, whether the drain is alone, and how it comes out then. */
  datatype Start = Start(calls: nat, log: seq<Item>, standing: Standing, torn: nat, interest: Interest,
                         rxAlive: bool, history: seq<Step>, alone: bool, queue: seq<Frame>, ending: Drainage)

  /** The drain has taken some frames off the backlog, and what is left comes out as foreseen. */
  ghost predicate OnCourse(start: Start, queue: seq<Frame>, calls: nat, stream: bool, plan: nat -> Reply) {
    && |queue| <= |start.queue| && queue == start.queue[|start.queue| - |queue|..]
    && var d := DrainEnding(stream, plan, calls, |queue|);
       start.ending == Drainage(d.r, d.sent + |start.queue| - |queue|, d.calls)
  }

  lemma CourseIsRun(start: Start, queue: seq<Frame>, calls: nat, stream: bool, plan: nat -> Reply)
    requires OnCourse(start, queue, calls, stream, plan) && queue == []
    ensures start.ending == Drainage(Sent, |start.queue|, calls)
  {
  }

  /** It has come out as foreseen. */
  ghost predicate OffCourse(start: Start, queue: seq<Frame>, calls: nat, o: Outcome) {
    && |queue| <= |start.queue| && queue == start.queue[|start.queue| - |queue|..]
    && start.ending.sent == |start.queue| - |queue| && calls == start.ending.calls && o == OutcomeOf(start.ending.r)
  }

  lemma NextOnCourse(start: Start, queue: seq<Frame>, calls: nat, stream: bool, plan: nat -> Reply,
                     o: Outcome, queue': seq<Frame>, calls': nat)
    requires OnCourse(start, queue, calls, stream, plan) && queue != []
    requires var e := FrameEnding(stream, plan, calls); o == OutcomeOf(e.r) && calls' == e.calls
    requires queue' == if GoesOn(stream, o) then queue[1..] else queue
    ensures if GoesOn(stream, o) then OnCourse(start, queue', calls', stream, plan) else OffCourse(start, queue', calls', o)
  {
    FrameEndingIsProper(stream, plan, calls);
  }

  // ---------------------------------------------------------------- the class

  class ConsumerIO {
    const cap: nat           // CONSUMER_BACKLOG_SIZE
    const isStream: bool     // the server's mode, and the kind of this consumer's socket
    const sock: SendSocket   // behind `sender`
    var outbound: seq<Frame>
    var dropped: nat
    var interest: Interest   // what the selector watches the fd for
    var registered: bool
    var closed: bool         // reported in closed_connections
    var rxAlive: bool
    var txAlive: bool
    ghost var s: State
    ghost var history: seq<Step>
    ghost var states: seq<State>
    ghost var torn: nat      // bytes of loopback frames that broke off

    ghost function View(): Io
      reads this
    {
      Io(outbound, dropped, interest, registered, closed, rxAlive, txAlive)
    }

    /** `s` is where the run `history` leads. */
    ghost predicate OnRun()
      reads this`s, this`history, this`states
    {
      Trace(Init(cap, isStream), states, history, s)
    }

    /** The fields are those of the machine after the run `history`. */
    ghost predicate Valid()
      reads this
    {
      cap >= 1 && s.cap == cap && s.stream == isStream && OnRun() && Shows(s, View())
    }

    /** So every theorem about the machine's runs is one about this object. */
    lemma RunOf()
      requires Valid()
      ensures Legal(Init(cap, isStream), history) && s == Run(Init(cap, isStream), history)
      ensures Inv(s)
    {
      TraceRuns(Init(cap, isStream), states, history, s);
      InitInv(cap, isStream);
      RunInv(Init(cap, isStream), history);
    }

    /** What the socket took is whole delivered frames, unless a send broke off inside one. */
    ghost predicate Wired()
      reads this`s, this`outbound, sock
    {
      Framed(s, sock.wire, outbound)
    }

    /** Bytes of broken-off frames on the wire. */
    ghost function Stray(): int
      reads this`s, sock
    {
      |sock.wire| - FRAME_SIZE * |s.delivered|
    }

    /** A consumer that is still registered and not reported closed has no bytes of broken-off
        frames on its wire but those of loopback frames, and one on a datagram socket has none. */
    ghost predicate Kept()
      reads this`s, this`torn, this`registered, this`closed, sock
    {
      && torn <= Stray()
      && (registered && !closed ==> Stray() == torn)
      && (!isStream ==> Stray() == 0)
    }

    /** Such a consumer's stream is whole delivered frames if and only if no loopback send ever
        broke off inside a frame. */
    lemma LiveStreamIsWholeIff()
      requires Wired() && Kept() && registered && !closed
      ensures WholeOnWire(sock.wire, FramesAt(s.log, s.delivered)) <==> torn == 0
    {
      WholeIffNoStrayBytes(s, sock.wire, outbound);
    }

    constructor (cap: nat, isStream: bool, sock: SendSocket)
      requires cap >= 1 && sock.wire == []
      ensures Valid() && Wired() && Kept() && this.cap == cap && this.isStream == isStream
      ensures this.sock == sock
      ensures View() == Io([], 0, ReadOnly, true, false, true, true) && history == [] && torn == 0
    {
      this.cap, this.isStream, this.sock := cap, isStream, sock;
      outbound, dropped, interest, registered := [], 0, ReadOnly, true;
      closed, rxAlive, txAlive := false, true, true;
      s, history, states, torn := Init(cap, isStream), [], [Init(cap, isStream)], 0;
    }

    /** One step of one thread, on the ghost side. */
    ghost method Advance(step: Step)
      requires OnRun() && Enabled(s, step)
      modifies this`s, this`history, this`states
      ensures history == old(history) + [step] && s == Next(old(s), step) && OnRun()
      ensures s.cap == old(s.cap) && s.stream == old(s.stream)
      ensures states == old(states) + [s] && |states| == |history| + 1
    {
      TraceNext(Init(cap, isStream), states, history, s, step);
      s, history, states := Next(s, step), history + [step], states + [Next(s, step)];
    }

    /** `if outbound:`, on the ghost side. */
    ghost method BeginOffer(t: Thread, f: Frame)
      requires Valid() && Enabled(s, Offer(t, f))
      modifies this`s, this`history, this`states
      ensures Valid() && history == old(history) + [Offer(t, f)] && s == DoOffer(old(s), t, f)
      ensures states == old(states) + [s] && |states| == |history| + 1 && old(s) == old(states)[|old(history)|]
    {
      OfferShows(s, View(), t, f);
      Advance(Offer(t, f));
    }

    /** `_note_dropped_frame`. */
    method NoteDroppedFrame()
      modifies this`dropped
      ensures dropped == old(dropped) + 1
    {
      dropped := dropped + 1;
    }

    /** `if len(outbound) == backlog_size: note_dropped_frame(io_state)`. */
    method CountIfFull(ghost t: Thread)
      requires Valid() && Enabled(s, Look(t))
      modifies this`dropped, this`s, this`history, this`states
      ensures Valid() && history == old(history) + [Look(t)] && s == DoLook(old(s), t)
      ensures dropped == old(dropped) + (if |outbound| == cap then 1 else 0)
    {
      LookShows(s, View(), t);
      if |outbound| == cap {
        NoteDroppedFrame();
      }
      Advance(Look(t));
    }

    /** `selector.modify(fd, EVENT_READ | EVENT_WRITE, io_state)`: raises, which ends the thread,
        for an fd that is no longer registered. */
    method WatchForWriting(t: Thread)
      modifies this`interest, this`rxAlive, this`txAlive
      ensures View() == old(View()).(interest := if registered then ReadWrite else old(interest),
                                     rxAlive := old(rxAlive) && (registered || t.Tx?),
                                     txAlive := old(txAlive) && (registered || t.Rx?))
    {
      if registered {
        interest := ReadWrite;
      } else if t.Rx? {
        rxAlive := false;
      } else {
        txAlive := false;
      }
    }

    /** `outbound.append(frame)` on the bounded deque and, after a refused send, under the
        selector lock, the promotion to write interest. */
    method AppendFrame(t: Thread, f: Frame, promote: bool)
      requires Valid() && Enabled(s, Append(t)) && s.HandOf(t).promote == promote && s.HandOf(t).item.frame == f
      modifies this`outbound, this`interest, this`rxAlive, this`txAlive, this`s, this`history, this`states
      ensures Valid() && history == old(history) + [Append(t)] && s == DoAppend(old(s), t)
      ensures outbound == Enqueued(old(outbound), cap, f)
      ensures interest == if promote && registered then ReadWrite else old(interest)
      ensures rxAlive == (old(rxAlive) && (!promote || registered || t.Tx?))
      ensures txAlive == (old(txAlive) && (!promote || registered || t.Rx?))
    {
      AppendShows(s, View(), t);
      Advance(Append(t));
      outbound := (if |outbound| >= cap && outbound != [] then outbound[1..] else outbound) + [f];
      if promote {
        WatchForWriting(t);
      }
    }

    /** `_queue_frame`. */
    method QueueFrame(t: Thread, f: Frame)
      requires Valid() && Enabled(s, Look(t)) && s.HandOf(t).promote && s.HandOf(t).item.frame == f
      modifies this`outbound, this`dropped, this`interest, this`rxAlive, this`txAlive, this`s, this`history, this`states
      ensures Valid() && history == old(history) + [Look(t), Append(t)]
      ensures s == DoAppend(DoLook(old(s), t), t)
      ensures outbound == Enqueued(old(outbound), cap, f)
      ensures interest == if registered then ReadWrite else old(interest)
      ensures rxAlive == (old(rxAlive) && (registered || t.Tx?)) && txAlive == (old(txAlive) && (registered || t.Rx?))
    {
      CountIfFull(t);
      AppendFrame(t, f, true);
    }

    /** The consumer's `sender`: the frame is written whole, or refused with nothing written, or
        the connection fails, as the socket's schedule has it. */
    method SendFrame(f: Frame) returns (r: SendResult, ghost e: Ending)
      requires Sendable(f)
      modifies sock
      ensures Answers(sock, isStream, f, e, old(sock.wire), old(sock.calls)) && r == e.r
    {
      FrameEndingIsProper(isStream, sock.plan, sock.calls);
      ghost var n: nat;
      if isStream {
        r, n := SendPayload(sock, EncodingOf(f));
      } else {
        r, n := SendDatagram(sock, EncodingOf(f));
      }
      e := Ending(r, n, sock.calls);
    }

    /** What forwarding `f` does to the consumer besides the fields of its thread. */
    twostate predicate Forwarded(t: Thread, f: Frame, fate: Fate)
      reads this`s, this`history, this`outbound, this`interest, this`registered
    {
      && Accepts(old(s), s, t, f, fate)
      && (fate.Queued? <==> old(outbound) != [])
      && old(history) <= history
      && outbound == (if fate.Queued? || fate.Held? then Enqueued(old(outbound), cap, f) else old(outbound))
      && interest == (if fate.Held? && registered then ReadWrite else old(interest))
      && registered == old(registered)
    }

    /** The frame joins the backlog it found. */
    method Enqueue(t: Thread, f: Frame)
      requires Valid() && Wired() && Sendable(f) && Enabled(s, Offer(t, f)) && outbound != []
      modifies this`outbound, this`dropped, this`interest, this`rxAlive, this`txAlive, this`s, this`history, this`states
      ensures Valid() && Wired() && Forwarded(t, f, Queued)
      ensures rxAlive == old(rxAlive) && txAlive == old(txAlive)
    {
      ghost var before, queue := s, outbound;
      EnqueueAccepts(s, t, f);
      BeginOffer(t, f);
      CountIfFull(t);
      AppendFrame(t, f, false);
      FramedKept(before, s, sock.wire, queue, outbound);
    }

    /** What a failed send does to the thread that made it: the RX thread reports the connection
        closed, and an unexpected error on a datagram socket ends either thread. */
    ghost function AfterError(t: Thread, o: Outcome): Io
      reads this
    {
      var raised := Raises(isStream, o);
      View().(closed := closed || (t.Rx? && Fatal(isStream, o)),
              rxAlive := rxAlive && !(raised && t.Rx?), txAlive := txAlive && !(raised && t.Tx?))
    }

    /** The last two steps were `t` offering `f` in state `before` and a direct send of it. */
    ghost predicate JustTried(before: State, t: Thread, f: Frame, o: Outcome)
      reads this`history, this`states
    {
      var n := |history|;
      && n >= 2 && |states| == n + 1 && states[n - 2] == before
      && history[n - 2] == Offer(t, f) && history[n - 1] == Send(t, o)
    }

    lemma JustTriedMeans(before: State, t: Thread, f: Frame, o: Outcome)
      requires OnRun() && JustTried(before, t, f, o)
      ensures Enabled(before, Offer(t, f)) && Tried(before, s, t, f, o)
    {
      var n := |history|;
      assert Moves(states, history, n - 2) && Moves(states, history, n - 1);
    }

    /** The direct send that follows an offer made in state `before`, on the ghost side. */
    ghost method EndDirect(t: Thread, f: Frame, o: Outcome, before: State)
      requires Valid() && Enabled(s, Send(t, o)) && |history| > 0 && history[|history| - 1] == Offer(t, f)
      requires |states| == |history| + 1 && states[|history| - 1] == before
      modifies this`s, this`history, this`states
      ensures OnRun() && old(history) <= history && JustTried(before, t, f, o)
      ensures s.cap == cap && s.stream == isStream && Shows(s, AfterError(t, o))
    {
      SendShows(s, View(), t, o);
      Advance(Send(t, o));
    }

    /** `sender(...)` on an empty backlog. What an error does to the thread's own fields is left
        to the caller. */
    method TrySend(t: Thread, f: Frame) returns (o: Outcome, ghost e: Ending)
      requires Valid() && Sendable(f) && Enabled(s, Offer(t, f)) && outbound == []
      modifies sock, this`s, this`history, this`states
      ensures OnRun() && old(history) <= history && JustTried(old(s), t, f, o)
      ensures s.cap == cap && s.stream == isStream && Shows(s, AfterError(t, o))
      ensures Answers(sock, isStream, f, e, old(sock.wire), old(sock.calls)) && o == OutcomeOf(e.r)
    {
      OfferDirect(s, t, f);
      BeginOffer(t, f);
      var r;
      r, e := SendFrame(f);
      o := OutcomeOf(r);
      EndDirect(t, f, o, old(s));
    }

    /** The bookkeeping of a direct send that is over. */
    lemma Settle(before: State, t: Thread, f: Frame, o: Outcome, wire: seq<Byte>, n: nat)
      requires OnRun() && JustTried(before, t, f, o) && !o.WouldBlock?
      requires Framed(before, wire, outbound) && Sendable(f)
      requires n <= FRAME_SIZE && (o.Took? <==> n == FRAME_SIZE) && sock.wire == wire + EncodingOf(f)[..n]
      ensures Wired() && Accepts(before, s, t, f, if o.Took? then Delivered else Lost)
    {
      JustTriedMeans(before, t, f, o);
      TriedSettles(before, s, t, f, o, outbound, wire, n);
    }

    /** A direct send with its bookkeeping, but for the queueing that follows a refused one. */
    method TryDirect(t: Thread, f: Frame) returns (o: Outcome, ghost e: Ending)
      requires Valid() && Wired() && Sendable(f) && Enabled(s, Offer(t, f)) && outbound == []
      modifies sock, this`s, this`history, this`states
      ensures OnRun() && old(history) <= history && JustTried(old(s), t, f, o)
      ensures s.cap == cap && s.stream == isStream && Shows(s, if o.Took? || o.WouldBlock? then View() else AfterError(t, o))
      ensures Answers(sock, isStream, f, e, old(sock.wire), old(sock.calls)) && o == OutcomeOf(e.r)
      ensures (o.Took? ==> FateOf(e.r) == Delivered) && (o.WouldBlock? <==> FateOf(e.r) == Held)
      ensures if o.WouldBlock? then sock.wire == old(sock.wire)
              else Wired() && Forwarded(t, f, if o.Took? then Delivered else Lost)
    {
      o, e := TrySend(t, f);
      if !o.WouldBlock? {
        Settle(old(s), t, f, o, old(sock.wire), e.n);
      }
    }

    /** After a refused send: the frame is queued and the TX thread's selector asked to drain it. */
    method Hold(t: Thread, f: Frame, ghost before: State)
      requires Valid() && outbound == [] && JustTried(before, t, f, Outcome.WouldBlock)
      requires Framed(before, sock.wire, []) && Sendable(f)
      modifies this`outbound, this`dropped, this`interest, this`rxAlive, this`txAlive, this`s, this`history, this`states
      ensures Valid() && Wired() && old(history) <= history && Accepts(before, s, t, f, Held)
      ensures outbound == [f] && interest == (if registered then ReadWrite else old(interest))
      ensures rxAlive == (old(rxAlive) && (registered || t.Tx?)) && txAlive == (old(txAlive) && (registered || t.Rx?))
    {
      JustTriedMeans(before, t, f, Outcome.WouldBlock);
      HoldAccepts(before, t, f);
      QueueFrame(t, f);
      FramedKept(before, s, sock.wire, [], outbound);
    }

    /** A direct send, with the queueing that follows a refused one. */
    method SendOrHold(t: Thread, f: Frame) returns (fate: Fate, o: Outcome, ghost e: Ending)
      requires Valid() && Wired() && Sendable(f) && Enabled(s, Offer(t, f)) && outbound == []
      modifies this`outbound, this`dropped, this`interest, this`rxAlive, this`txAlive,
               this`s, this`history, this`states, sock
      ensures OnRun() && s.cap == cap && s.stream == isStream
      ensures Shows(s, if fate.Lost? then AfterError(t, o) else View())
      ensures Wired() && Forwarded(t, f, fate)
      ensures rxAlive == (old(rxAlive) && (!fate.Held? || registered || t.Tx?))
      ensures txAlive == (old(txAlive) && (!fate.Held? || registered || t.Rx?))
      ensures Answered(sock, isStream, f, fate, e, old(sock.wire), old(sock.calls))
      ensures fate.Lost? ==> o == OutcomeOf(e.r) && (o.Reset? || o.Unreachable? || o.OtherError?)
    {
      ghost var before := s;
      o, e := TryDirect(t, f);
      if o.WouldBlock? {
        Hold(t, f, before);
        fate := Held;
      } else {
        fate := if o.Took? then Delivered else Lost;
      }
    }

    /** The RX thread's reaction to a failed send. */
    method RxError(o: Outcome)
      requires o.Reset? || o.Unreachable? || o.OtherError?
      modifies this`closed, this`rxAlive
      ensures View() == old(AfterError(Rx, o))
    {
      if o.Reset? {
        closed := true;
      } else if isStream {
        closed := true;
      } else if !o.Unreachable? {
        rxAlive := false;
      }
    }

    /** The TX thread's reaction to a failed loopback send: it only logs it, or ends. */
    method LoopbackError(o: Outcome)
      requires o.Reset? || o.Unreachable? || o.OtherError?
      modifies this`txAlive
      ensures View() == old(AfterError(Tx, o))
    {
      if !o.Reset? && !isStream && !o.Unreachable? {
        txAlive := false;
      }
    }

    /** What both threads do with a frame that passed this consumer's filters, up to their
        reaction to a failed send. */
    method ForwardTo(t: Thread, f: Frame) returns (fate: Fate, o: Outcome, ghost e: Ending)
      requires Valid() && Wired() && Sendable(f) && Enabled(s, Offer(t, f))
      modifies this`outbound, this`dropped, this`interest, this`rxAlive, this`txAlive,
               this`s, this`history, this`states, sock
      ensures OnRun() && s.cap == cap && s.stream == isStream
      ensures Shows(s, if fate.Lost? then AfterError(t, o) else View())
      ensures Wired() && Forwarded(t, f, fate)
      ensures rxAlive == (old(rxAlive) && (!fate.Held? || registered || t.Tx?))
      ensures txAlive == (old(txAlive) && (!fate.Held? || registered || t.Rx?))
      ensures Answered(sock, isStream, f, fate, e, old(sock.wire), old(sock.calls))
      ensures fate.Lost? ==> o == OutcomeOf(e.r) && (o.Reset? || o.Unreachable? || o.OtherError?)
      ensures Stray() == old(Stray()) + (if fate.Lost? then e.n else 0) && (fate.Lost? && !isStream ==> e.n == 0)
      ensures var l := old(LineAfter(t, f));
              outbound == l.outbound && sock.calls == l.calls && l.torn == old(torn) + (if fate.Lost? && t.Tx? then e.n else 0)
    {
      if outbound != [] {
        Enqueue(t, f);
        fate, o, e := Queued, Took, Ending(Sent, 0, sock.calls);
      } else {
        fate, o, e := SendOrHold(t, f);
      }
      AnsweredStray(sock, isStream, f, fate, e, old(sock.wire), old(sock.calls), |old(s.delivered)|);
      FatedLine(old(Line()), t, cap, isStream, sock.plan, f, fate);
    }

    /** The RX thread's handling of a bus frame that passed this consumer's filters. */
    method RxForward(f: Frame) returns (fate: Fate, ghost e: Ending)
      requires Valid() && Wired() && Kept() && Sendable(f) && Enabled(s, Offer(Rx, f))
      modifies this, sock
      ensures Valid() && Wired() && Kept() && Forwarded(Rx, f, fate) && torn == old(torn)
      ensures Answered(sock, isStream, f, fate, e, old(sock.wire), old(sock.calls))
      ensures closed == (old(closed) || (fate.Lost? && (isStream || e.r == Failed(ResetError))))
      ensures rxAlive == (old(rxAlive) && !(fate.Held? && !registered)
                          && (fate.Lost? ==> isStream || e.r == Failed(ResetError) || e.r == Failed(UnreachableError)))
      ensures txAlive == old(txAlive)
      ensures var l := old(LineAfter(Rx, f)); outbound == l.outbound && sock.calls == l.calls && torn == l.torn
    {
      var o;
      fate, o, e := ForwardTo(Rx, f);
      if fate.Lost? {
        RxError(o);
      }
    }

    /** The TX thread's handling of another consumer's frame that passed this one's filters. */
    method LoopbackForward(f: Frame) returns (fate: Fate, ghost e: Ending)
      requires Valid() && Wired() && Kept() && Sendable(f) && Enabled(s, Offer(Tx, f))
      modifies this, sock
      ensures Valid() && Wired() && Kept() && Forwarded(Tx, f, fate)
      ensures Answered(sock, isStream, f, fate, e, old(sock.wire), old(sock.calls))
      ensures torn == old(torn) + (if fate.Lost? then e.n else 0)
      ensures txAlive == (old(txAlive) && !(fate.Held? && !registered)
                          && (fate.Lost? ==> isStream || e.r == Failed(ResetError) || e.r == Failed(UnreachableError)))
      ensures closed == old(closed) && rxAlive == old(rxAlive)
      ensures var l := old(LineAfter(Tx, f)); outbound == l.outbound && sock.calls == l.calls && torn == l.torn
    {
      var o;
      fate, o, e := ForwardTo(Tx, f);
      if fate.Lost? {
        EndLoopback(o, e.n);
      }
    }

    /** A failed loopback send, of which the socket took `n` bytes. */
    method EndLoopback(o: Outcome, ghost n: nat)
      requires OnRun() && cap >= 1 && s.cap == cap && s.stream == isStream && Shows(s, AfterError(Tx, o))
      requires o.Reset? || o.Unreachable? || o.OtherError?
      requires torn + n <= Stray() && (registered && !closed ==> Stray() == torn + n) && (!isStream ==> Stray() == 0)
      modifies this`txAlive, this`torn
      ensures Valid() && Kept() && torn == old(torn) + n && txAlive == (old(txAlive) && !Raises(isStream, o))
    {
      LoopbackError(o);
      torn := torn + n;
    }

    /** A frame forwarded now ends the thread that does it: its direct send is refused although the
        consumer is no longer registered, or fails in a way nobody catches. */
    ghost predicate EndsForward()
      reads this, sock
    {
      && outbound == []
      && ((sock.plan(sock.calls).Refuse? && !registered) || (!isStream && sock.plan(sock.calls) == Fail(OtherOsError)))
    }

    ghost function Line(): Line
      reads this`outbound, this`torn, this`registered, sock
    {
      Lined(outbound, sock.calls, torn, registered)
    }

    /** What forwarding `f` makes of the line. */
    ghost function LineAfter(t: Thread, f: Frame): Line
      reads this`outbound, this`torn, this`registered, sock
    {
      NextLine(Line(), t, cap, isStream, sock.plan, f)
    }

    /** A frame sent now ends the connection: on a datagram the peer is gone; on a stream the send
        fails, at once or inside the frame, with any error or for lack of progress. */
    ghost predicate LosesConnection()
      reads sock
    {
      if isStream then var r := StreamEnding(sock.plan, sock.calls).r; r.Failed? || r.Desync?
      else sock.plan(sock.calls) == Fail(ResetError)
    }

    /** The line after a drain nobody interferes with: what it sent is off the backlog, and an error
        that ends the connection has it unregistered. */
    ghost function LineDrained(): Line
      reads this`outbound, this`torn, this`registered, sock
    {
      var d := DrainEnding(isStream, sock.plan, sock.calls, |outbound|);
      Lined(outbound[d.sent..], d.calls, torn,
            registered && (d.r.Sent? || d.r.WouldBlock? || (!isStream && d.r == Failed(OtherOsError))))
    }

    /** That drain ends the thread: an error nobody catches stops it. */
    ghost predicate EndsDrain()
      reads this`outbound, sock
    {
      !isStream && DrainEnding(isStream, sock.plan, sock.calls, |outbound|).r == Failed(OtherOsError)
    }

    /** A loopback frame while the RX thread keeps away from this consumer: it is accepted, the
        backlog, the socket and the bytes that broke off are what the schedule makes of it, and the
        thread dies if and only if the schedule and the registration say so beforehand. */
    method LoopbackTurn(f: Frame)
      requires Valid() && Wired() && Kept() && HandsFree() && Sendable(f) && Enabled(s, Offer(Tx, f))
      modifies this, sock
      ensures Valid() && Wired() && Kept() && HandsFree() && s.drain == old(s.drain)
      ensures s.log == old(s.log) + [Item(Tx, |old(s.txOffers)|, f)]
      ensures txAlive == (old(txAlive) && !old(EndsForward()))
      ensures registered == old(registered) && closed == old(closed) && rxAlive == old(rxAlive)
      ensures Line() == old(LineAfter(Tx, f))
      ensures GoodWrites(sock.plan) ==>
        s.lost == old(s.lost) && Stray() == old(Stray()) && (registered ==> txAlive == old(txAlive))
    {
      var fate, e := LoopbackForward(f);
      Fated(fate, old(outbound) != [], isStream, sock.plan, old(sock.calls));
    }

    /** The same for a bus frame; but an error that ends the connection has it reported closed. */
    method RxTurn(f: Frame)
      requires Valid() && Wired() && Kept() && HandsFree() && Sendable(f) && Enabled(s, Offer(Rx, f))
      modifies this, sock
      ensures Valid() && Wired() && Kept() && HandsFree() && s.drain == old(s.drain)
      ensures s.log == old(s.log) + [Item(Rx, |old(s.rxOffers)|, f)]
      ensures rxAlive == (old(rxAlive) && !old(EndsForward()))
      ensures closed <==> old(closed) || old(outbound == [] && LosesConnection())
      ensures registered == old(registered) && txAlive == old(txAlive)
      ensures Line() == old(LineAfter(Rx, f))
      ensures GoodWrites(sock.plan) ==>
        && s.lost == old(s.lost) && Stray() == old(Stray()) && closed == old(closed)
        && (registered ==> rxAlive == old(rxAlive))
    {
      var fate, e := RxForward(f);
      Fated(fate, old(outbound) != [], isStream, sock.plan, old(sock.calls));
    }

    // -------------------------------------------------------------- the drain

    /** Neither thread has a frame in hand. */
    ghost predicate HandsFree()
      reads this`s
    {
      s.rx.Resting? && s.tx.Resting?
    }

    /** What a failed send would change. */
    ghost function Standing(): Standing
      reads this, sock
    {
      AsOf(s.lost, Stray(), closed, registered, txAlive)
    }

    /** No loopback frame is torn, and under a good schedule of writes nothing is lost, closed or
        unregistered, and the TX thread lives on. */
    twostate predicate Unharmed()
      reads this, sock
    {
      torn == old(torn) && (GoodWrites(sock.plan) ==> Standing() == old(Standing()))
    }

    /** The RX thread kept out. */
    twostate predicate Undisturbed()
      reads this
    {
      s.log == old(s.log) && closed == old(closed) && rxAlive == old(rxAlive)
    }

    /** The RX thread forwards some frames while the TX thread is wherever it is. A backlog it
        starts has had a refused send, after which it asked for write interest. */
    method Interfere(burst: seq<Frame>)
      requires Valid() && Wired() && Kept() && HandsFree() && AllSendable(burst)
      modifies this, sock
      ensures Valid() && Wired() && Kept() && HandsFree() && Unharmed() && old(history) <= history
      ensures s.drain == old(s.drain) && old(s.log) <= s.log && old(sock.calls) <= sock.calls
      ensures registered == old(registered) && txAlive == old(txAlive)
      ensures interest == old(interest) || interest.ReadWrite?
      ensures old(outbound) != [] ==> outbound != []
      ensures old(outbound) == [] && outbound != [] ==> Waiting(old(sock.calls))
      ensures burst == [] ==> outbound == old(outbound)
      ensures rxAlive && !closed ==> |s.log| == |old(s.log)| + |burst|
    {
      for i := 0 to |burst|
        invariant Valid() && Wired() && Kept() && HandsFree() && Unharmed() && old(history) <= history
        invariant s.drain == old(s.drain) && old(s.log) <= s.log && old(sock.calls) <= sock.calls
        invariant registered == old(registered) && txAlive == old(txAlive)
        invariant interest == old(interest) || interest.ReadWrite?
        invariant old(outbound) != [] ==> outbound != []
        invariant old(outbound) == [] && outbound != [] ==> Waiting(old(sock.calls))
        invariant i == 0 ==> outbound == old(outbound)
        invariant rxAlive && !closed ==> |s.log| == |old(s.log)| + i
      {
        if rxAlive && !closed {
          ForwardBurst(burst[i]);
        }
      }
    }

    /** A send was refused, and a registered consumer is watched for writing. */
    ghost predicate Waiting(first: nat)
      reads this, sock
    {
      RefusedSince(sock, first) && (registered ==> interest.ReadWrite?)
    }

    /** One frame of a burst. */
    method ForwardBurst(f: Frame)
      requires Valid() && Wired() && Kept() && HandsFree() && Sendable(f) && rxAlive && !closed
      modifies this, sock
      ensures Valid() && Wired() && Kept() && HandsFree() && Unharmed() && old(history) <= history
      ensures s.drain == old(s.drain) && old(s.log) <= s.log && |s.log| == |old(s.log)| + 1
      ensures old(sock.calls) <= sock.calls
      ensures registered == old(registered) && txAlive == old(txAlive)
      ensures interest == old(interest) || interest.ReadWrite?
      ensures old(outbound) != [] ==> outbound != []
      ensures old(outbound) == [] && outbound != [] ==> Waiting(old(sock.calls))
    {
      var fate, _ := RxForward(f);
      assert !fate.Lost? ==> s.lost == old(s.lost);
    }

    /** One point at which the RX thread may cut in: it takes the next burst, if there is one. */
    method Window(bursts: seq<seq<Frame>>) returns (left: seq<seq<Frame>>)
      requires Valid() && Wired() && Kept() && HandsFree() && forall i :: 0 <= i < |bursts| ==> AllSendable(bursts[i])
      modifies this, sock
      ensures Valid() && Wired() && Kept() && HandsFree() && Unharmed() && old(history) <= history
      ensures s.drain == old(s.drain) && old(s.log) <= s.log && old(sock.calls) <= sock.calls
      ensures registered == old(registered) && txAlive == old(txAlive)
      ensures interest == old(interest) || interest.ReadWrite?
      ensures old(outbound) != [] ==> outbound != []
      ensures old(outbound) == [] && outbound != [] ==> Waiting(old(sock.calls))
      ensures left == (if bursts == [] then [] else bursts[1..])
      ensures bursts == [] ==> outbound == old(outbound) && s == old(s) && Undisturbed() && sock.calls == old(sock.calls)
    {
      if bursts == [] {
        return [];
      }
      Interfere(bursts[0]);
      left := bursts[1..];
    }

    /** `while outbound` found something. */
    ghost method EnterLoop()
      requires Valid() && Wired() && Kept() && s.drain.Looping? && txAlive && outbound != []
      modifies this`s, this`history, this`states
      ensures Valid() && Wired() && Kept() && Unharmed() && old(history) <= history && s == old(s).(drain := Entered)
    {
      Advance(Enter);
    }

    /** `outbound[0]`. */
    method PeekHead() returns (f: Frame)
      requires Valid() && Wired() && Kept() && s.drain.Entered? && txAlive && outbound != []
      modifies this`s, this`history, this`states
      ensures Valid() && Wired() && Kept() && Unharmed() && old(history) <= history
      ensures s.drain.Peeked? && s == old(s).(drain := Peeked(s.drain.head))
      ensures s.drain.head < |s.log| && s.log[s.drain.head].frame == f && Sendable(f)
    {
      f := outbound[0];
      Advance(Peek);
    }

    /** The drain's send of the head it has read; what an error does to the fields is left to the
        caller. */
    method TrySendHead(f: Frame) returns (o: Outcome)
      requires Valid() && Wired() && s.drain.Peeked? && txAlive && Sendable(f)
      requires s.drain.head < |s.log| && s.log[s.drain.head].frame == f
      modifies sock, this`s, this`history, this`states
      ensures OnRun() && Wired() && old(history) <= history && s == old(DoSendHead(s, o))
      ensures s.cap == cap && s.stream == isStream && Shows(s, AfterHeadError(o))
      ensures SentAt(old(sock.calls), o) && sock.calls == FrameEnding(isStream, sock.plan, old(sock.calls)).calls
      ensures Stray() >= old(Stray()) && (Stray() == old(Stray()) || (Fatal(isStream, o) && isStream))
      ensures o.Took? || o.WouldBlock? ==> s.lost == old(s.lost) && Stray() == old(Stray())
      ensures s.log == old(s.log) && s.rx == old(s.rx) && s.tx == old(s.tx) && Phase(o)
    {
      var r;
      ghost var e;
      r, e := SendFrame(f);
      o := OutcomeOf(r);
      EndHeadSend(f, o, old(sock.wire), e.n);
    }

    /** The send of the head, of which the socket took `n` bytes, on the ghost side. */
    ghost method EndHeadSend(f: Frame, o: Outcome, wire: seq<Byte>, n: nat)
      requires Valid() && s.drain.Peeked? && txAlive && Sendable(f)
      requires s.drain.head < |s.log| && s.log[s.drain.head].frame == f && Framed(s, wire, outbound)
      requires n <= FRAME_SIZE && (o.Took? <==> n == FRAME_SIZE) && sock.wire == wire + EncodingOf(f)[..n]
      modifies this`s, this`history, this`states
      ensures OnRun() && old(history) <= history && s == old(DoSendHead(s, o))
      ensures s.cap == cap && s.stream == isStream && Shows(s, AfterHeadError(o))
      ensures Wired() && Stray() == |wire| - FRAME_SIZE * |old(s.delivered)| + (if o.Took? then 0 else n)
      ensures o.Took? || o.WouldBlock? ==> s.lost == old(s.lost)
      ensures s.log == old(s.log) && s.rx == old(s.rx) && s.tx == old(s.tx) && Phase(o)
    {
      HeadFramed(s, f, o, wire, n);
      SendHeadParts(s, o);
      SendHeadDrain(s, o);
      SendHeadShows(s, View(), o);
      Advance(SendHead(o));
    }

    /** A fatal error unregisters the consumer, an unexpected one on a datagram socket ends the
        TX thread. */
    ghost function AfterHeadError(o: Outcome): Io
      reads this
    {
      View().(registered := registered && !Fatal(isStream, o), txAlive := txAlive && !Raises(isStream, o))
    }

    method HeadError(o: Outcome)
      modifies this`registered, this`txAlive
      ensures View() == old(AfterHeadError(o))
    {
      if o.Reset? {
        registered := false;
      } else if o.Unreachable? || o.OtherError? {
        if isStream {
          registered := false;
        } else if !o.Unreachable? {
          txAlive := false;
        }
      }
    }

    /** The send that started with call `at` ended with `o`, and is the socket's last if the drain
        ends there. */
    ghost predicate SentAt(at: nat, o: Outcome)
      reads sock
    {
      var e := FrameEnding(isStream, sock.plan, at);
      && o == OutcomeOf(e.r) && at < e.calls <= sock.calls && (GoesOn(isStream, o) || e.calls == sock.calls)
      && (o.WouldBlock? ==> sock.plan(at).Refuse?) && (GoodWrites(sock.plan) ==> o.Took? || o.WouldBlock?)
    }

    /** Where the drain is after a send that ended with `o`. */
    ghost predicate Phase(o: Outcome)
      reads this`s
    {
      if GoesOn(isStream, o) then s.drain.Popping? else if o.WouldBlock? then s.drain.Leaving? else s.drain.Idle?
    }

    /** What an error that ended with `o` did to the consumer and the thread. */
    twostate predicate Suffered(o: Outcome)
      reads this
    {
      registered == (old(registered) && !Fatal(isStream, o)) && txAlive == (old(txAlive) && !Raises(isStream, o))
    }

    /** A failed send followed the start, and it was the socket's last. */
    ghost predicate FailedSince(start: nat, o: Outcome)
      reads sock
    {
      !GoesOn(isStream, o) && !o.WouldBlock? && exists at :: start <= at && SentAt(at, o)
    }

    lemma SinceEarlier(start: nat, later: nat, o: Outcome)
      requires start <= later
      ensures FailedSince(later, o) ==> FailedSince(start, o)
      ensures RefusedSince(sock, later) ==> RefusedSince(sock, start)
    {
    }

    method SendPeeked(f: Frame) returns (o: Outcome)
      requires Valid() && Wired() && Kept() && s.drain.Peeked? && txAlive && Sendable(f)
      requires s.drain.head < |s.log| && s.log[s.drain.head].frame == f
      modifies sock, this`registered, this`txAlive, this`s, this`history, this`states
      ensures Valid() && Wired() && Kept() && Unharmed() && old(history) <= history
      ensures s.log == old(s.log) && s.rx == old(s.rx) && s.tx == old(s.tx) && Phase(o) && Suffered(o)
      ensures SentAt(old(sock.calls), o) && sock.calls == FrameEnding(isStream, sock.plan, old(sock.calls)).calls
      ensures var reply := sock.plan(old(sock.calls));
              && (reply.Refuse? ==> s.drain.Leaving? && registered == old(registered) && txAlive)
              && (reply == Fail(ResetError) || (isStream && reply.Fail?) ==> s.drain.Idle? && !registered && txAlive)
              && (!isStream && (reply.Accept? || reply == Fail(UnreachableError)) ==>
                    s.drain.Popping? && registered == old(registered) && txAlive)
              && (!isStream && reply == Fail(OtherOsError) ==> s.drain.Idle? && registered == old(registered) && !txAlive)
    {
      AnswerMeans(isStream, sock.plan, sock.calls);
      o := TrySendHead(f);
      HeadError(o);
    }

    lemma HeadFramed(before: State, f: Frame, o: Outcome, wire: seq<Byte>, n: nat)
      requires before.drain.Peeked? && Sendable(f)
      requires before.drain.head < |before.log| && before.log[before.drain.head].frame == f
      requires Framed(before, wire, outbound)
      requires n <= FRAME_SIZE && (o.Took? <==> n == FRAME_SIZE) && sock.wire == wire + EncodingOf(f)[..n]
      ensures Framed(DoSendHead(before, o), sock.wire, outbound)
    {
      SendHeadParts(before, o);
      FramedNext(before, DoSendHead(before, o), wire, outbound, f, n, before.drain.head);
    }

    /** `outbound.popleft()`. */
    method PopLeft()
      requires Valid() && Wired() && Kept() && s.drain.Popping? && txAlive && outbound != []
      modifies this`outbound, this`s, this`history, this`states
      ensures Valid() && Wired() && Kept() && Unharmed() && old(history) <= history
      ensures s.drain.Looping? && s.log == old(s.log) && s.rx == old(s.rx) && s.tx == old(s.tx)
      ensures s.delivered == old(s.delivered) && s.lost == old(s.lost)
      ensures outbound == old(outbound)[1..]
    {
      ghost var before, queue := s, outbound;
      PopShows(s, View());
      outbound := outbound[1..];
      Advance(Pop);
      FramedKept(before, s, sock.wire, queue, outbound);
    }

    /** The peek, with the RX thread free to cut in before and after it. */
    method PeekNext(bursts: seq<seq<Frame>>) returns (f: Frame, left: seq<seq<Frame>>)
      requires Valid() && Wired() && Kept() && HandsFree() && s.drain.Looping? && txAlive && outbound != []
      requires forall i :: 0 <= i < |bursts| ==> AllSendable(bursts[i])
      modifies this, sock
      ensures Valid() && Wired() && Kept() && HandsFree() && Unharmed() && old(history) <= history && outbound != []
      ensures s.drain.Peeked? && s.drain.head < |s.log| && s.log[s.drain.head].frame == f && Sendable(f)
      ensures registered == old(registered) && txAlive
      ensures interest == old(interest) || interest.ReadWrite?
      ensures |left| <= |bursts| && (bursts != [] ==> |left| < |bursts|) && forall i :: 0 <= i < |left| ==> AllSendable(left[i])
      ensures bursts == [] ==>
        left == [] && outbound == old(outbound) && Undisturbed() && sock.calls == old(sock.calls)
      ensures old(sock.calls) <= sock.calls
    {
      EnterLoop();
      left := Window(bursts);
      f := PeekHead();
      left := Window(left);
    }

    /** Peek and send, with the RX thread free to cut in before and after the peek. */
    method SendNext(bursts: seq<seq<Frame>>) returns (o: Outcome, left: seq<seq<Frame>>, ghost at: nat)
      requires Valid() && Wired() && Kept() && HandsFree() && s.drain.Looping? && txAlive && outbound != []
      requires forall i :: 0 <= i < |bursts| ==> AllSendable(bursts[i])
      modifies this, sock
      ensures Valid() && Wired() && Kept() && HandsFree() && Unharmed() && old(history) <= history && outbound != []
      ensures Phase(o) && Suffered(o) && old(sock.calls) <= at && SentAt(at, o)
      ensures interest == old(interest) || interest.ReadWrite?
      ensures |left| <= |bursts| && (bursts != [] ==> |left| < |bursts|) && forall i :: 0 <= i < |left| ==> AllSendable(left[i])
      ensures bursts == [] ==> left == [] && outbound == old(outbound) && Undisturbed() && at == old(sock.calls)
      ensures bursts == [] ==> sock.calls == FrameEnding(isStream, sock.plan, at).calls
    {
      var f;
      f, left := PeekNext(bursts);
      at := sock.calls;
      o := SendPeeked(f);
    }

    /** The popleft that follows a completed send, with the RX thread free to cut in before and
        after it. */
    method PopNext(bursts: seq<seq<Frame>>) returns (left: seq<seq<Frame>>)
      requires Valid() && Wired() && Kept() && HandsFree() && s.drain.Popping? && txAlive && outbound != []
      requires forall i :: 0 <= i < |bursts| ==> AllSendable(bursts[i])
      modifies this, sock
      ensures Valid() && Wired() && Kept() && HandsFree() && Unharmed() && old(history) <= history && s.drain.Looping?
      ensures registered == old(registered) && txAlive
      ensures interest == old(interest) || interest.ReadWrite?
      ensures |left| <= |bursts| && forall i :: 0 <= i < |left| ==> AllSendable(left[i])
      ensures bursts == [] ==>
        left == [] && outbound == old(outbound)[1..] && Undisturbed() && sock.calls == old(sock.calls)
      ensures old(sock.calls) <= sock.calls
    {
      left := Window(bursts);
      PopLeft();
      left := Window(left);
    }

    /** One turn of the drain's loop. */
    method DrainOne(bursts: seq<seq<Frame>>) returns (o: Outcome, left: seq<seq<Frame>>, ghost at: nat)
      requires Valid() && Wired() && Kept() && HandsFree() && s.drain.Looping? && txAlive && outbound != []
      requires forall i :: 0 <= i < |bursts| ==> AllSendable(bursts[i])
      modifies this, sock
      ensures Valid() && Wired() && Kept() && HandsFree() && Unharmed() && old(history) <= history
      ensures Suffered(o) && old(sock.calls) <= at && SentAt(at, o)
      ensures if GoesOn(isStream, o) then s.drain.Looping?
              else if o.WouldBlock? then s.drain.Leaving? && outbound != []
              else s.drain.Idle?
      ensures interest == old(interest) || interest.ReadWrite?
      ensures |left| <= |bursts| && forall i :: 0 <= i < |left| ==> AllSendable(left[i])
      ensures bursts != [] ==> |left| < |bursts|
      ensures bursts == [] ==> left == [] && Undisturbed() && at == old(sock.calls)
      ensures bursts == [] ==>
        && sock.calls == FrameEnding(isStream, sock.plan, at).calls
        && outbound == if GoesOn(isStream, o) then old(outbound)[1..] else old(outbound)
    {
      o, left, at := SendNext(bursts);
      if GoesOn(isStream, o) {
        left := PopNext(left);
      }
    }

    /** `while outbound`, up to its end, where `o` is `Took`, or a send that does not go on. */
    method DrainLoop(bursts: seq<seq<Frame>>) returns (o: Outcome, left: seq<seq<Frame>>)
      requires Valid() && Wired() && Kept() && HandsFree() && s.drain.Looping? && txAlive
      requires forall i :: 0 <= i < |bursts| ==> AllSendable(bursts[i])
      modifies this, sock
      ensures Valid() && Wired() && Kept() && HandsFree() && Unharmed() && old(history) <= history
      ensures Suffered(o) && (GoesOn(isStream, o) ==> o.Took?)
      ensures if o.Took? then s.drain.Looping? && outbound == []
              else if o.WouldBlock? then s.drain.Leaving? && outbound != [] && RefusedSince(sock, old(sock.calls))
              else s.drain.Idle? && FailedSince(old(sock.calls), o)
      ensures interest == old(interest) || interest.ReadWrite?
      ensures forall i :: 0 <= i < |left| ==> AllSendable(left[i])
      ensures bursts == [] ==> left == [] && Undisturbed()
      ensures bursts == [] ==>
        var d := DrainEnding(isStream, sock.plan, old(sock.calls), |old(outbound)|);
        o == OutcomeOf(d.r) && outbound == old(outbound)[d.sent..] && sock.calls == d.calls
      ensures old(sock.calls) <= sock.calls && torn == old(torn)
    {
      ghost var ending := DrainEnding(isStream, sock.plan, sock.calls, |outbound|);
      ghost var start := Start(sock.calls, s.log, Standing(), torn, interest, rxAlive, history, bursts == [], outbound, ending);
      o, left := DrainTurns(start, bursts);
      if start.alone && o.Took? { CourseIsRun(start, outbound, sock.calls, isStream, sock.plan); }
    }

    method DrainTurns(ghost start: Start, bursts: seq<seq<Frame>>) returns (o: Outcome, left: seq<seq<Frame>>)
      requires Underway(start, bursts)
      modifies this, sock
      ensures GoesOn(isStream, o) ==> o.Took?
      ensures if o.Took? then Underway(start, left) && outbound == [] else Ended(start, left, o)
    {
      o, left := Took, bursts;
      while outbound != []
        invariant Underway(start, left) && o == Took
        decreases |left|, |outbound|
      {
        var last;
        last, left := DrainTurn(start, left);
        if !GoesOn(isStream, last) {
          return last, left;
        }
      }
    }

    /** Between two turns of the loop: nothing has gone wrong since `start`. */
    ghost predicate Underway(start: Start, left: seq<seq<Frame>>)
      reads this, sock
    {
      && Going(start, left)
      && (start.alone ==>
            && left == [] && s.log == start.log && closed == start.standing.closed && rxAlive == start.rxAlive
            && OnCourse(start, outbound, sock.calls, isStream, sock.plan))
    }

    ghost predicate Going(start: Start, left: seq<seq<Frame>>)
      reads this, sock
    {
      && Valid() && Wired() && Kept() && HandsFree() && start.history <= history && s.drain.Looping? && txAlive
      && torn == start.torn && (GoodWrites(sock.plan) ==> Standing() == start.standing)
      && (forall i :: 0 <= i < |left| ==> AllSendable(left[i]))
      && registered == start.standing.registered && (interest == start.interest || interest.ReadWrite?)
      && start.calls <= sock.calls
    }

    /** One turn, with what it means for the loop. */
    method DrainTurn(ghost start: Start, bursts: seq<seq<Frame>>) returns (o: Outcome, left: seq<seq<Frame>>)
      requires Underway(start, bursts) && outbound != []
      modifies this, sock
      ensures if GoesOn(isStream, o) then
                Underway(start, left) && (|left| < |bursts| || (bursts == left == [] && |outbound| < |old(outbound)|))
              else Ended(start, left, o)
    {
      ghost var queue, calls := outbound, sock.calls;
      o, left := GoOn(start, bursts);
      if start.alone { NextOnCourse(start, queue, calls, isStream, sock.plan, o, outbound, sock.calls); }
    }

    /** The same but for where a drain that is alone is going. */
    method GoOn(ghost start: Start, bursts: seq<seq<Frame>>) returns (o: Outcome, left: seq<seq<Frame>>)
      requires Going(start, bursts) && outbound != []
      modifies this, sock
      ensures if GoesOn(isStream, o) then
                Going(start, left) && (|left| < |bursts| || (bursts == left == [] && |outbound| < |old(outbound)|))
              else Stopped(start, left, o)
      ensures bursts == [] ==>
        var e := FrameEnding(isStream, sock.plan, old(sock.calls));
        && left == [] && Undisturbed() && o == OutcomeOf(e.r) && sock.calls == e.calls
        && outbound == if GoesOn(isStream, o) then old(outbound)[1..] else old(outbound)
    {
      ghost var at;
      o, left, at := DrainOne(bursts);
    }

    /** Out of the loop after a send that ended with `o`. */
    ghost predicate Ended(start: Start, left: seq<seq<Frame>>, o: Outcome)
      reads this, sock
    {
      && Stopped(start, left, o)
      && (start.alone ==>
            && left == [] && s.log == start.log && closed == start.standing.closed && rxAlive == start.rxAlive
            && OffCourse(start, outbound, sock.calls, o))
    }

    ghost predicate Stopped(start: Start, left: seq<seq<Frame>>, o: Outcome)
      reads this, sock
    {
      && Valid() && Wired() && Kept() && HandsFree() && start.history <= history
      && torn == start.torn && (GoodWrites(sock.plan) ==> Standing() == start.standing)
      && (forall i :: 0 <= i < |left| ==> AllSendable(left[i]))
      && registered == (start.standing.registered && !Fatal(isStream, o)) && txAlive == !Raises(isStream, o)
      && (interest == start.interest || interest.ReadWrite?) && start.calls <= sock.calls
      && (if o.WouldBlock? then s.drain.Leaving? && outbound != [] && RefusedSince(sock, start.calls)
          else s.drain.Idle? && FailedSince(start.calls, o))
    }

    /** From the end of the loop to that of the drain, with the RX thread free to cut in just before
        the selector lock is taken. */
    method LeaveDrain(emptied: bool, bursts: seq<seq<Frame>>, ghost first: nat)
      requires Valid() && Wired() && Kept() && HandsFree() && txAlive && registered && interest.ReadWrite?
      requires if emptied then s.drain.Looping? && outbound == [] else s.drain.Leaving? && outbound != []
      requires first <= sock.calls && (emptied || RefusedSince(sock, first))
      requires forall i :: 0 <= i < |bursts| ==> AllSendable(bursts[i])
      modifies this, sock
      ensures Valid() && Wired() && Kept() && HandsFree() && Unharmed() && s.drain.Idle? && old(history) <= history
      ensures registered && txAlive
      ensures if outbound == [] then interest.ReadOnly? && dropped == 0
              else interest.ReadWrite? && RefusedSince(sock, first)
      ensures bursts == [] ==> Undisturbed() && outbound == old(outbound) && sock.calls == old(sock.calls)
    {
      if emptied {
        EndDrainLoop();
      }
      ghost var calls := sock.calls;
      var left := Window(bursts);
      SinceEarlier(first, calls, Took);
      GiveUpInterest();
    }

    /** The drain of a consumer the selector reports writable, while the RX thread forwards one
        burst of frames at each point where it may cut in, the last just before the selector lock
        is taken. `o` is what ended its loop: `Took` if that found nothing more to send. It ends
        with an empty backlog and the write interest given up, or with a refused send and the
        interest kept, or - only if a send failed, and as its error has it - with the consumer
        unregistered or the TX thread gone. What ends it when RX keeps out is a function of the
        socket's schedule and the length of the backlog. */
    method DrainBacklog(bursts: seq<seq<Frame>>) returns (ghost o: Outcome)
      requires Valid() && Wired() && Kept() && HandsFree() && Enabled(s, StartDrain)
      requires forall i :: 0 <= i < |bursts| ==> AllSendable(bursts[i])
      modifies this, sock
      ensures Valid() && Wired() && Kept() && HandsFree() && Unharmed() && s.drain.Idle? && old(history) <= history
      ensures Suffered(o)
      ensures if o.Took? || o.WouldBlock? then
                if outbound == [] then interest.ReadOnly? && dropped == 0
                else interest.ReadWrite? && RefusedSince(sock, old(sock.calls))
              else FailedSince(old(sock.calls), o)
      ensures bursts == [] ==> Undisturbed()
      ensures bursts == [] ==> Line() == old(LineDrained()) && (txAlive <==> !old(EndsDrain()))
      ensures bursts == [] && (o.Took? || o.WouldBlock?) ==> (outbound == [] <==> o.Took?)
    {
      var left := OpenDrain(bursts);
      ghost var start := sock.calls;
      var last;
      last, left := DrainLoop(left);
      o := last;
      SinceEarlier(old(sock.calls), start, last);
      if bursts == [] { StoppedBy(isStream, DrainEnding(isStream, sock.plan, old(sock.calls), |old(outbound)|)); }
      CloseDrain(last, left, old(sock.calls));
    }

    /** After the loop, which ended with `o`: the rest of the drain, unless an error cut it short. */
    method CloseDrain(o: Outcome, bursts: seq<seq<Frame>>, ghost first: nat)
      requires Valid() && Wired() && Kept() && HandsFree() && first <= sock.calls
      requires if o.Took? then s.drain.Looping? && outbound == []
               else if o.WouldBlock? then s.drain.Leaving? && outbound != [] && RefusedSince(sock, first)
               else s.drain.Idle? && FailedSince(first, o)
      requires o.Took? || o.WouldBlock? ==> txAlive && registered && interest.ReadWrite?
      requires forall i :: 0 <= i < |bursts| ==> AllSendable(bursts[i])
      modifies this, sock
      ensures Valid() && Wired() && Kept() && HandsFree() && Unharmed() && s.drain.Idle? && old(history) <= history
      ensures registered == old(registered) && txAlive == old(txAlive)
      ensures if o.Took? || o.WouldBlock? then
                if outbound == [] then interest.ReadOnly? && dropped == 0
                else interest.ReadWrite? && RefusedSince(sock, first)
              else FailedSince(first, o)
      ensures bursts == [] ==> Undisturbed() && outbound == old(outbound) && sock.calls == old(sock.calls)
    {
      if o.Took? || o.WouldBlock? {
        LeaveDrain(o.Took?, bursts, first);
      }
    }

    method OpenDrain(bursts: seq<seq<Frame>>) returns (left: seq<seq<Frame>>)
      requires Valid() && Wired() && Kept() && HandsFree() && Enabled(s, StartDrain)
      requires forall i :: 0 <= i < |bursts| ==> AllSendable(bursts[i])
      modifies this, sock
      ensures Valid() && Wired() && Kept() && Unharmed() && HandsFree() && s.drain.Looping? && old(history) <= history
      ensures registered && txAlive && interest.ReadWrite? && registered == old(registered) && txAlive == old(txAlive)
      ensures old(sock.calls) <= sock.calls && forall i :: 0 <= i < |left| ==> AllSendable(left[i])
      ensures bursts == [] ==>
        left == [] && outbound == old(outbound) && Undisturbed() && sock.calls == old(sock.calls)
    {
      BeginDrain();
      left := Window(bursts);
    }

    ghost method BeginDrain()
      requires Valid() && Wired() && Kept() && HandsFree() && Enabled(s, StartDrain)
      modifies this`s, this`history, this`states
      ensures Valid() && Wired() && Kept() && Unharmed() && HandsFree() && s.drain.Looping? && old(history) <= history
      ensures registered && txAlive && interest.ReadWrite? && s == old(s).(drain := Looping)
    {
      Advance(StartDrain);
    }

    ghost method EndDrainLoop()
      requires Valid() && Wired() && Kept() && HandsFree() && s.drain.Looping? && txAlive && outbound == []
      modifies this`s, this`history, this`states
      ensures Valid() && Wired() && Kept() && Unharmed() && HandsFree() && s.drain.Leaving? && old(history) <= history
      ensures s == old(s).(drain := Leaving)
    {
      Advance(EndLoop);
    }

    /** Under the selector lock: with nothing left to write, stop watching for it. */
    method GiveUpInterest()
      requires Valid() && Wired() && Kept() && HandsFree() && s.drain.Leaving? && txAlive
      modifies this`interest, this`dropped, this`s, this`history, this`states
      ensures Valid() && Wired() && Kept() && Unharmed() && HandsFree() && s.drain.Idle? && old(history) <= history
      ensures s.log == old(s.log) && s.delivered == old(s.delivered) && s.lost == old(s.lost)
      ensures if outbound == [] then interest.ReadOnly? && dropped == 0
              else interest == old(interest) && dropped == old(dropped)
    {
      EndDrain();
      if outbound == [] {
        interest := ReadOnly;
        if dropped != 0 {
          dropped := 0;
        }
      }
    }

    /** The end of the drain, on the ghost side. */
    ghost method EndDrain()
      requires Valid() && Wired() && Kept() && HandsFree() && s.drain.Leaving? && txAlive
      modifies this`s, this`history, this`states
      ensures OnRun() && s.cap == cap && s.stream == isStream && Shows(s, AfterDemotion())
      ensures Wired() && Kept() && Unharmed() && HandsFree() && s.drain.Idle? && old(history) <= history
      ensures s.log == old(s.log) && s.delivered == old(s.delivered) && s.lost == old(s.lost)
    {
      ghost var before := s;
      DemoteShows(s, View());
      DemoteKeeps(s);
      Advance(Demote);
      FramedKept(before, s, sock.wire, outbound, outbound);
    }

    ghost function AfterDemotion(): Io
      reads this
    {
      if outbound == [] then View().(interest := ReadOnly, dropped := 0) else View()
    }

    /** `recv_fn` raised: the TX thread unregisters the consumer. */
    method ReadFailed()
      requires Valid() && Wired() && Kept() && HandsFree() && Enabled(s, ReadFails)
      modifies this`registered, this`s, this`history, this`states
      ensures Valid() && Wired() && Kept() && HandsFree() && !registered && old(history) <= history
      ensures s == old(s).(registered := false)
    {
      ghost var before := s;
      registered := false;
      Advance(ReadFails);
      FramedKept(before, s, sock.wire, outbound, outbound);
    }
  }

  // ---------------------------------------------------------------- a torn stream

  /** Three bytes are taken, then nothing for five calls, then everything. */
  function TearingPlan(): nat -> Reply {
    c => if c == 0 then Accept(3) else if c <= STREAM_SEND_ATTEMPTS then Refuse else Accept(FRAME_SIZE)
  }

  lemma TearingPlanTears()
    ensures StreamEnding(TearingPlan(), 0) == Ending(Desync, 3, 6)
    ensures StreamEnding(TearingPlan(), 6) == Ending(Sent, FRAME_SIZE, 7)
  {
    StalledOut(TearingPlan(), 1, FRAME_SIZE, 3, STREAM_SEND_ATTEMPTS, STREAM_SEND_ATTEMPTS);
  }

  lemma OffTheGrid(f: Frame, g: Frame, fs: seq<Frame>)
    requires Sendable(f) && Sendable(g)
    ensures !WholeOnWire(EncodingOf(f)[..3] + EncodingOf(g), fs)
  {
    if WholeOnWire(EncodingOf(f)[..3] + EncodingOf(g), fs) {
      WholeLength(EncodingOf(f)[..3] + EncodingOf(g), fs);
    }
  }

  /** The first loopback frame of such a connection breaks off. */
  method TearFirst(f: Frame) returns (io: ConsumerIO)
    requires Sendable(f)
    ensures fresh(io) && fresh(io.sock) && io.sock.plan == TearingPlan() && io.sock.calls == 6
    ensures io.Valid() && io.Wired() && io.Kept() && Enabled(io.s, Offer(Tx, f)) && io.outbound == []
    ensures io.isStream && io.registered && !io.closed && io.txAlive && io.torn == 3
    ensures io.sock.wire == EncodingOf(f)[..3] && |io.s.log| == 1 && io.s.delivered == []
    ensures forall fs :: !WholeOnWire(io.sock.wire, fs)
  {
    TearingPlanTears();
    var sock := new SendSocket(TearingPlan());
    io := new ConsumerIO(1, true, sock);
    var fate, e := io.LoopbackForward(f);
    forall fs
      ensures !WholeOnWire(io.sock.wire, fs)
    {
      BrokenIsNotWhole([], [], EncodingOf(f)[..3], fs);
    }
  }

  /** The next one goes out whole. */
  method SendNextWhole(io: ConsumerIO, g: Frame)
    requires io.Valid() && io.Wired() && io.Kept() && Sendable(g) && Enabled(io.s, Offer(Tx, g)) && io.outbound == []
    requires io.isStream && StreamEnding(io.sock.plan, io.sock.calls).r.Sent?
    modifies io, io.sock
    ensures io.Valid() && io.Wired() && io.Kept() && io.torn == old(io.torn)
    ensures io.sock.wire == old(io.sock.wire) + EncodingOf(g)
    ensures io.s.log == old(io.s.log) + [Item(Tx, |old(io.s.txOffers)|, g)]
    ensures io.s.delivered == old(io.s.delivered) + [|old(io.s.log)|]
    ensures io.registered == old(io.registered) && io.closed == old(io.closed) && io.txAlive == old(io.txAlive)
  {
    var fate, e := io.LoopbackForward(g);
    assert EncodingOf(g)[..FRAME_SIZE] == EncodingOf(g);
  }

  /** A loopback frame that breaks off after three bytes is only logged: the consumer stays
      connected, and the next frame follows three bytes into the one before. No sequence of
      frames spells what is on the wire from then on. */
  method LoopbackTears(f: Frame, g: Frame) returns (io: ConsumerIO)
    requires Sendable(f) && Sendable(g)
    ensures fresh(io) && io.Valid() && io.isStream && io.registered && !io.closed && io.txAlive && io.torn == 3
    ensures io.sock.wire == EncodingOf(f)[..3] + EncodingOf(g)
    ensures |io.s.log| == 2 && io.s.delivered == [1] && io.s.log[1].frame == g
    ensures forall fs :: !WholeOnWire(io.sock.wire, fs)
  {
    io := TearFirst(f);
    TearingPlanTears();
    SendNextWhole(io, g);
    forall fs
      ensures !WholeOnWire(io.sock.wire, fs)
    {
      OffTheGrid(f, g, fs);
    }
  }
}
