/** What every step of either thread keeps, whatever the interleaving. */
module RelayInvariants {
  import opened CanFrame
  import opened Relay

  // ---------------------------------------------------------------- the parts

  ghost predicate Increasing(q: seq<nat>) {
    forall i, j :: 0 <= i < j < |q| ==> q[i] < q[j]
  }

  ghost predicate Below(q: seq<nat>, n: nat) {
    forall i :: 0 <= i < |q| ==> q[i] < n
  }

  /** The head the drain has read but not popped yet. */
  predicate Holds(d: Drain) {
    d.Peeked? || d.Popping?
  }

  /** The backlog is a queue of distinct tickets in acceptance order, never longer than its
      bound, and never empty while the drain relies on it. An in-flight head that is no
      longer at the front was evicted, so the backlog has stayed full since. */
  ghost predicate Backlog(cap: nat, outbound: seq<nat>, d: Drain) {
    && |outbound| <= cap
    && Increasing(outbound)
    && (d.Entered? ==> outbound != [])
    && (Holds(d) ==> outbound != [] && d.head <= outbound[0] && (outbound[0] == d.head || |outbound| == cap))
  }

  /** The item in a thread's hand is that thread's last offer, and is not in the log yet. */
  ghost predicate HandFits(t: Thread, h: Hand, offers: seq<Frame>, log: seq<Item>) {
    !h.Resting? ==>
      && h.item.src == t
      && h.item.idx + 1 == |offers| && offers[h.item.idx] == h.item.frame
      && forall k :: 0 <= k < |log| && log[k].src == t ==> log[k].idx < h.item.idx
  }

  /** A thread's frames in the log are among its offers, in the order it offered them. */
  ghost predicate LogFits(t: Thread, offers: seq<Frame>, log: seq<Item>) {
    && (forall k :: 0 <= k < |log| && log[k].src == t ==>
          log[k].idx < |offers| && offers[log[k].idx] == log[k].frame)
    && (forall k, l :: 0 <= k < l < |log| && log[k].src == t && log[l].src == t ==> log[k].idx < log[l].idx)
  }

  function InFlight(h: Hand): nat {
    if h.Resting? then 0 else 1
  }

  /** Every offer is accepted or in a thread's hand, and every accepted frame is delivered,
      queued, evicted or lost to an error - counted once too often only between the end of a
      drain send and its popleft. */
  ghost predicate Accounted(s: State) {
    && |s.rxOffers| + |s.txOffers| == |s.log| + InFlight(s.rx) + InFlight(s.tx)
    && |s.log| + (if s.drain.Popping? then 1 else 0)
       == |s.delivered| + |s.outbound| + |s.evicted| + |s.lost|
  }

  /** A thread in a direct send has nothing of its own queued or in the drain. */
  ghost predicate DirectAlone(t: Thread, h: Hand, log: seq<Item>, outbound: seq<nat>, d: Drain)
    requires Below(outbound, |log|) && (Holds(d) ==> d.head < |log|)
  {
    h.Direct? ==>
      && (forall i :: 0 <= i < |outbound| ==> log[outbound[i]].src != t)
      && (Holds(d) ==> log[d.head].src != t)
  }

  /** Each thread's frames are delivered in order. */
  ghost predicate InOrder(log: seq<Item>, delivered: seq<nat>)
    requires Below(delivered, |log|)
  {
    forall i, j :: 0 <= i < j < |delivered| && log[delivered[i]].src == log[delivered[j]].src ==>
      delivered[i] < delivered[j]
  }

  /** Whatever of a thread's frames is delivered comes before its frame `x`. */
  ghost predicate AllBefore(log: seq<Item>, delivered: seq<nat>, x: nat)
    requires Below(delivered, |log|) && x < |log|
  {
    forall i :: 0 <= i < |delivered| && log[delivered[i]].src == log[x].src ==> delivered[i] < x
  }

  /** What is queued comes after what was delivered, but for a head that is yet to be popped. */
  ghost predicate QueueAfter(log: seq<Item>, delivered: seq<nat>, outbound: seq<nat>, d: Drain)
    requires Below(delivered, |log|) && Below(outbound, |log|) && (Holds(d) ==> d.head < |log|)
  {
    && (forall j :: 0 <= j < |outbound| && d != Popping(outbound[j], true) ==> AllBefore(log, delivered, outbound[j]))
    && (d.Peeked? ==> AllBefore(log, delivered, d.head))
  }

  /** What becomes of each accepted frame. */
  ghost predicate Fates(n: nat, delivered: seq<nat>, outbound: seq<nat>, lost: seq<nat>, evicted: seq<nat>, raced: seq<nat>) {
    forall k :: 0 <= k < n ==> k in delivered || k in outbound || k in lost || k in evicted || k in raced
  }

  /** Each of these has at least `newer` newer frames among the `n` accepted. */
  ghost predicate Old(q: seq<nat>, n: nat, newer: int) {
    forall i :: 0 <= i < |q| ==> n - 1 - q[i] >= newer
  }

  ghost predicate Distinct(q: seq<nat>) {
    forall i, j :: 0 <= i < j < |q| ==> q[i] != q[j]
  }

  /** A frame whose send failed for good was never delivered and is not queued. */
  ghost predicate LostApart(delivered: seq<nat>, outbound: seq<nat>, lost: seq<nat>, d: Drain) {
    && Distinct(lost)
    && (forall k :: k in lost ==> k !in delivered)
    && (forall k :: k in lost && k in outbound ==> d == Popping(k, false))
    && (d.Peeked? ==> d.head !in lost)
    && (d.Popping? ==> d.head in (if d.sent then delivered else lost))
  }

  // ---------------------------------------------------------------- the whole

  ghost predicate Tickets(s: State) {
    && Below(s.outbound, |s.log|) && Below(s.delivered, |s.log|) && Below(s.lost, |s.log|)
    && Below(s.evicted, |s.log|) && Below(s.raced, |s.log|)
    && (Holds(s.drain) ==> s.drain.head < |s.log|)
  }

  ghost predicate Shape(s: State) {
    && s.cap >= 1 && !s.fault
    && Tickets(s)
    && Backlog(s.cap, s.outbound, s.drain)
    && (s.drain.Idle? || s.tx.Resting?)
    && Accounted(s)
  }

  ghost predicate History(s: State) {
    && HandFits(Rx, s.rx, s.rxOffers, s.log) && HandFits(Tx, s.tx, s.txOffers, s.log)
    && LogFits(Rx, s.rxOffers, s.log) && LogFits(Tx, s.txOffers, s.log)
  }

  ghost predicate Ordered(s: State)
    requires Tickets(s)
  {
    && DirectAlone(Rx, s.rx, s.log, s.outbound, s.drain)
    && DirectAlone(Tx, s.tx, s.log, s.outbound, s.drain)
    && InOrder(s.log, s.delivered)
    && QueueAfter(s.log, s.delivered, s.outbound, s.drain)
  }

  ghost predicate Settled(s: State) {
    && Fates(|s.log|, s.delivered, s.outbound, s.lost, s.evicted, s.raced)
    && Old(s.evicted, |s.log|, s.cap)
    && Old(s.raced, |s.log|, s.cap - 1)
    && LostApart(s.delivered, s.outbound, s.lost, s.drain)
  }

  ghost predicate Inv(s: State) {
    Shape(s) && History(s) && Ordered(s) && Settled(s)
  }

  lemma InitInv(cap: nat, stream: bool)
    requires cap >= 1
    ensures Inv(Init(cap, stream))
  {
  }

  // ---------------------------------------------------------------- one step

  lemma OfferInv(s: State, t: Thread, frame: Frame)
    requires Inv(s) && Enabled(s, Offer(t, frame))
    ensures Inv(DoOffer(s, t, frame))
  {
  }

  lemma GrowHand(t: Thread, h: Hand, offers: seq<Frame>, log: seq<Item>, item: Item)
    requires HandFits(t, h, offers, log) && LogFits(t, offers, log)
    requires item.src != t || h == Behind(item, false)
    ensures item.src != t ==> HandFits(t, h, offers, log + [item])
    ensures LogFits(t, offers, log + [item])
  {
  }

  lemma GrowHistory(s: State, t: Thread, r: State)
    requires Inv(s) && !s.HandOf(t).Resting?
    requires r.log == s.log + [s.HandOf(t).item]
    requires r.rxOffers == s.rxOffers && r.txOffers == s.txOffers
    requires r.rx == (if t.Rx? then Resting else s.rx) && r.tx == (if t.Tx? then Resting else s.tx)
    ensures History(r)
  {
    var item := s.HandOf(t).item;
    GrowHand(Rx, if t.Rx? then Behind(item, false) else s.rx, s.rxOffers, s.log, item);
    GrowHand(Tx, if t.Tx? then Behind(item, false) else s.tx, s.txOffers, s.log, item);
  }

  lemma GrowQueue(s: State, item: Item)
    requires Inv(s)
    ensures InOrder(s.log + [item], s.delivered)
    ensures QueueAfter(s.log + [item], s.delivered, s.outbound, s.drain)
  {
    var log := s.log + [item];
    forall x: nat | x < |s.log| && AllBefore(s.log, s.delivered, x)
      ensures AllBefore(log, s.delivered, x)
    {
    }
  }

  lemma GrowSettled(s: State)
    requires Inv(s)
    ensures Old(s.evicted, |s.log| + 1, s.cap) && Old(s.raced, |s.log| + 1, s.cap - 1)
  {
  }

  /** The frame leaves `t`'s hand for the log, and the queues stay. */
  ghost predicate Handed(s: State, t: Thread, r: State) {
    && !s.HandOf(t).Resting?
    && r.cap == s.cap && r.fault == s.fault && r.drain == s.drain && r.outbound == s.outbound
    && r.evicted == s.evicted && r.raced == s.raced
    && r.rxOffers == s.rxOffers && r.txOffers == s.txOffers
    && r.rx == (if t.Rx? then Resting else s.rx) && r.tx == (if t.Tx? then Resting else s.tx)
    && r.log == s.log + [s.HandOf(t).item]
  }

  lemma SendParts(s: State, t: Thread, o: Outcome)
    requires s.HandOf(t).Direct? && !o.WouldBlock?
    ensures Handed(s, t, DoSend(s, t, o))
    ensures DoSend(s, t, o).delivered == (if o.Took? then s.delivered + [|s.log|] else s.delivered)
    ensures DoSend(s, t, o).lost == (if o.Took? then s.lost else s.lost + [|s.log|])
  {
    if o.Took? {
    } else {
    }
  }

  lemma TookAfter(log: seq<Item>, delivered: seq<nat>, item: Item, x: nat)
    requires Below(delivered, |log|) && x < |log| && AllBefore(log, delivered, x) && log[x].src != item.src
    ensures Below(delivered + [|log|], |log| + 1)
    ensures AllBefore(log + [item], delivered + [|log|], x)
  {
  }

  lemma TookInOrder(log: seq<Item>, delivered: seq<nat>, item: Item)
    requires Below(delivered, |log|) && InOrder(log, delivered)
    ensures Below(delivered + [|log|], |log| + 1)
    ensures InOrder(log + [item], delivered + [|log|])
  {
  }

  lemma TookOrdered(s: State, t: Thread, r: State)
    requires Inv(s) && s.HandOf(t).Direct? && Handed(s, t, r)
    requires r.delivered == s.delivered + [|s.log|] && Tickets(r)
    ensures Ordered(r)
  {
    var item := s.HandOf(t).item;
    TookInOrder(s.log, s.delivered, item);
    forall j | 0 <= j < |r.outbound| && r.drain != Popping(r.outbound[j], true)
      ensures AllBefore(r.log, r.delivered, r.outbound[j])
    {
      TookAfter(s.log, s.delivered, item, s.outbound[j]);
    }
    if s.drain.Peeked? {
      TookAfter(s.log, s.delivered, item, s.drain.head);
    }
  }

  lemma TookInv(s: State, t: Thread, r: State)
    requires Inv(s) && s.HandOf(t).Direct? && Handed(s, t, r)
    requires r.delivered == s.delivered + [|s.log|] && r.lost == s.lost
    ensures Inv(r)
  {
    GrowHistory(s, t, r);
    TookOrdered(s, t, r);
    GrowSettled(s);
    assert forall k :: k in r.delivered <==> k in s.delivered || k == |s.log|;
  }

  lemma LostInv(s: State, t: Thread, r: State)
    requires Inv(s) && s.HandOf(t).Direct? && Handed(s, t, r)
    requires r.delivered == s.delivered && r.lost == s.lost + [|s.log|]
    ensures Inv(r)
  {
    GrowHistory(s, t, r);
    GrowQueue(s, s.HandOf(t).item);
    GrowSettled(s);
    assert forall k :: k in r.lost <==> k in s.lost || k == |s.log|;
    assert LostApart(r.delivered, r.outbound, r.lost, r.drain);
  }

  lemma SendInv(s: State, t: Thread, o: Outcome)
    requires Inv(s) && Enabled(s, Send(t, o)) && !o.WouldBlock?
    ensures Inv(DoSend(s, t, o))
  {
    SendParts(s, t, o);
    if o.Took? { TookInv(s, t, DoSend(s, t, o)); } else { LostInv(s, t, DoSend(s, t, o)); }
  }

  lemma RefusedInv(s: State, t: Thread)
    requires Inv(s) && Enabled(s, Send(t, WouldBlock))
    ensures Inv(DoSend(s, t, WouldBlock))
  {
  }

  lemma LookInv(s: State, t: Thread)
    requires Inv(s) && Enabled(s, Look(t))
    ensures Inv(DoLook(s, t))
  {
  }

  lemma {:induction false} Spread(q: seq<nat>, i: nat)
    requires Increasing(q) && i < |q|
    ensures q[i] >= q[0] + i
  {
    if i > 0 { Spread(q, i - 1); }
  }

  /** Appending to the deque keeps it a bounded queue, and keeps an in-flight head accounted for. */
  lemma PushBacklog(cap: nat, q: seq<nat>, d: Drain, n: nat)
    requires cap >= 1 && Backlog(cap, q, d) && Below(q, n) && (Holds(d) ==> d.head < n)
    ensures Backlog(cap, Pushed(q, cap, n), d)
    ensures Below(Pushed(q, cap, n), n + 1)
  {
  }

  /** The appended ticket is the only new one, and only the oldest can have gone. */
  lemma PushMembers(cap: nat, q: seq<nat>, n: nat)
    requires cap >= 1 && |q| <= cap && Increasing(q)
    ensures forall i :: 0 <= i < |Pushed(q, cap, n)| ==> Pushed(q, cap, n)[i] == n || Pushed(q, cap, n)[i] in q
    ensures forall k :: k in Pushed(q, cap, n) ==> k == n || k in q
    ensures n in Pushed(q, cap, n)
    ensures forall k :: k in q && (|q| < cap || k != q[0]) ==> k in Pushed(q, cap, n)
  {
    var p := Pushed(q, cap, n);
    assert p[|p| - 1] == n;
    forall k | k in q && (|q| < cap || k != q[0])
      ensures k in p
    {
      var i :| 0 <= i < |q| && q[i] == k;
      assert p[if |q| < cap then i else i - 1] == k;
    }
  }

  /** The fields an append by `t` touches, and the ones it leaves alone. */
  ghost predicate Appended(s: State, t: Thread, r: State) {
    && s.HandOf(t).Looked?
    && r.cap == s.cap && r.drain == s.drain && r.fault == s.fault
    && r.rxOffers == s.rxOffers && r.txOffers == s.txOffers
    && r.delivered == s.delivered && r.lost == s.lost && r.raced == s.raced
    && r.rx == (if t.Rx? then Resting else s.rx) && r.tx == (if t.Tx? then Resting else s.tx)
    && r.log == s.log + [s.HandOf(t).item]
    && r.outbound == Pushed(s.outbound, s.cap, |s.log|)
    && r.evicted == (if |s.outbound| >= s.cap && s.outbound != [] then s.evicted + [s.outbound[0]] else s.evicted)
  }

  lemma AppendShape(s: State, t: Thread, r: State)
    requires Inv(s) && Appended(s, t, r)
    ensures Shape(r)
  {
    PushBacklog(s.cap, s.outbound, s.drain, |s.log|);
  }

  lemma AppendOrdered(s: State, t: Thread, r: State)
    requires Inv(s) && Appended(s, t, r) && Tickets(r)
    ensures Ordered(r)
  {
    var item := s.HandOf(t).item;
    GrowQueue(s, item);
    PushAlone(Rx, s.rx, s.log, s.outbound, s.drain, s.cap, item);
    PushAlone(Tx, s.tx, s.log, s.outbound, s.drain, s.cap, item);
    PushAfter(s, item);
  }

  lemma PushAfter(s: State, item: Item)
    requires Inv(s)
    ensures Below(Pushed(s.outbound, s.cap, |s.log|), |s.log| + 1)
    ensures QueueAfter(s.log + [item], s.delivered, Pushed(s.outbound, s.cap, |s.log|), s.drain)
  {
    var log, p := s.log + [item], Pushed(s.outbound, s.cap, |s.log|);
    GrowQueue(s, item);
    PushMembers(s.cap, s.outbound, |s.log|);
    forall j | 0 <= j < |p| && s.drain != Popping(p[j], true)
      ensures AllBefore(log, s.delivered, p[j])
    {
      if p[j] in s.outbound {
        var i :| 0 <= i < |s.outbound| && s.outbound[i] == p[j];
      }
    }
  }

  lemma PushAlone(t: Thread, h: Hand, log: seq<Item>, q: seq<nat>, d: Drain, cap: nat, item: Item)
    requires cap >= 1 && |q| <= cap && Increasing(q)
    requires Below(q, |log|) && (Holds(d) ==> d.head < |log|)
    requires DirectAlone(t, h, log, q, d) && (h.Direct? ==> item.src != t)
    ensures Below(Pushed(q, cap, |log|), |log| + 1)
    ensures DirectAlone(t, h, log + [item], Pushed(q, cap, |log|), d)
  {
    PushMembers(cap, q, |log|);
  }

  lemma PushFates(s: State, t: Thread, r: State)
    requires Inv(s) && Appended(s, t, r)
    ensures Fates(|r.log|, r.delivered, r.outbound, r.lost, r.evicted, r.raced)
  {
    PushMembers(s.cap, s.outbound, |s.log|);
    forall k | 0 <= k < |r.log|
      ensures k in r.delivered || k in r.outbound || k in r.lost || k in r.evicted || k in r.raced
    {
      if k in s.outbound && k !in r.outbound {
        assert r.evicted[|s.evicted|] == k;
      }
    }
  }

  /** The frame pushed out of a full backlog has a whole backlog of newer ones behind it. */
  lemma PushOld(s: State, t: Thread, r: State)
    requires Inv(s) && Appended(s, t, r)
    ensures Old(r.evicted, |r.log|, r.cap) && Old(r.raced, |r.log|, r.cap - 1)
  {
    GrowSettled(s);
    if |s.outbound| == s.cap {
      Spread(s.outbound, s.cap - 1);
    }
  }

  lemma PushApart(s: State, t: Thread, r: State)
    requires Inv(s) && Appended(s, t, r)
    ensures LostApart(r.delivered, r.outbound, r.lost, r.drain)
  {
    PushMembers(s.cap, s.outbound, |s.log|);
  }

  lemma AppendParts(s: State, t: Thread)
    requires s.HandOf(t).Looked?
    ensures Appended(s, t, DoAppend(s, t))
  {
  }

  lemma AppendedInv(s: State, t: Thread, r: State)
    requires Inv(s) && Appended(s, t, r)
    ensures Inv(r)
  {
    AppendShape(s, t, r);
    GrowHistory(s, t, r);
    AppendOrdered(s, t, r);
    PushFates(s, t, r);
    PushOld(s, t, r);
    PushApart(s, t, r);
  }

  lemma AppendInv(s: State, t: Thread)
    requires Inv(s) && Enabled(s, Append(t))
    ensures Inv(DoAppend(s, t))
  {
    AppendParts(s, t);
    AppendedInv(s, t, DoAppend(s, t));
  }

  /** Everything but the drain's position, the selector and the counters. */
  ghost predicate SameQueues(s: State, r: State) {
    && r.cap == s.cap && r.fault == s.fault && r.outbound == s.outbound && r.rx == s.rx && r.tx == s.tx
    && r.rxOffers == s.rxOffers && r.txOffers == s.txOffers && r.log == s.log
    && r.evicted == s.evicted && r.raced == s.raced
  }

  /** The drain moving on without reading, sending or popping anything. */
  lemma DrainMovesInv(s: State, r: State)
    requires Inv(s) && SameQueues(s, r) && r.delivered == s.delivered && r.lost == s.lost
    requires !s.drain.Popping? && !Holds(r.drain)
    requires r.drain.Idle? || s.tx.Resting?
    requires r.drain.Entered? ==> s.outbound != []
    ensures Inv(r)
  {
  }

  lemma PeekInv(s: State, r: State)
    requires Inv(s) && SameQueues(s, r) && r.delivered == s.delivered && r.lost == s.lost
    requires s.drain.Entered? && r.drain == Peeked(s.outbound[0])
    ensures Inv(r)
  {
  }

  lemma HeadSentInv(s: State, r: State)
    requires Inv(s) && SameQueues(s, r) && s.drain.Peeked?
    requires r.delivered == s.delivered + [s.drain.head] && r.lost == s.lost
    requires r.drain == Popping(s.drain.head, true)
    ensures Inv(r)
  {
    assert forall k :: k in r.delivered <==> k in s.delivered || k == s.drain.head;
  }

  lemma HeadLostInv(s: State, r: State)
    requires Inv(s) && SameQueues(s, r) && s.drain.Peeked?
    requires r.lost == s.lost + [s.drain.head] && r.delivered == s.delivered
    requires r.drain == Popping(s.drain.head, false)
    ensures Inv(r)
  {
    assert forall k :: k in r.lost <==> k in s.lost || k == s.drain.head;
  }

  lemma SendHeadParts(s: State, o: Outcome)
    requires s.drain.Peeked?
    ensures var r, h := DoSendHead(s, o), s.drain.head;
            && SameQueues(s, r)
            && r.delivered == (if o.Took? then s.delivered + [h] else s.delivered)
            && r.lost == (if o.Unreachable? && !s.stream then s.lost + [h] else s.lost)
            && (if o.Took? then r.drain == Popping(h, true)
                else if o.Unreachable? && !s.stream then r.drain == Popping(h, false)
                else r.drain.Idle? || r.drain.Leaving?)
  {
    if o.Took? {
    } else if o.WouldBlock? {
    } else if Fatal(s.stream, o) {
    } else if o.Unreachable? {
    }
  }

  lemma SendHeadInv(s: State, o: Outcome)
    requires Inv(s) && Enabled(s, SendHead(o))
    ensures Inv(DoSendHead(s, o))
  {
    var r := DoSendHead(s, o);
    SendHeadParts(s, o);
    if o.Took? {
      HeadSentInv(s, r);
    } else if o.Unreachable? && !s.stream {
      HeadLostInv(s, r);
    } else {
      DrainMovesInv(s, r);
    }
  }

  lemma PopShape(s: State)
    requires Inv(s) && Enabled(s, Pop)
    ensures Shape(DoPop(s))
  {
  }

  lemma PopOrdered(s: State)
    requires Inv(s) && Enabled(s, Pop)
    ensures Tickets(DoPop(s)) && Ordered(DoPop(s))
  {
    var r := DoPop(s);
    assert forall j :: 0 <= j < |r.outbound| ==> r.outbound[j] == s.outbound[j + 1];
  }

  /** If the head was evicted while in flight, the backlog is still full, so the frame
      popped in its place has all but one of a whole backlog of newer frames behind it. */
  lemma PopSettled(s: State)
    requires Inv(s) && Enabled(s, Pop)
    ensures Settled(DoPop(s))
  {
    var r := DoPop(s);
    Spread(s.outbound, |s.outbound| - 1);
    assert forall k :: k in s.outbound ==> k == s.outbound[0] || k in r.outbound;
    assert forall k :: k in r.outbound ==> k in s.outbound && k != s.outbound[0];
    assert Old(r.raced, |r.log|, r.cap - 1);
    assert Fates(|r.log|, r.delivered, r.outbound, r.lost, r.evicted, r.raced);
  }

  lemma PopInv(s: State)
    requires Inv(s) && Enabled(s, Pop)
    ensures Inv(DoPop(s))
  {
    PopShape(s);
    PopOrdered(s);
    PopSettled(s);
  }

  predicate Quiet(step: Step) {
    step.StartDrain? || step.Enter? || step.Peek? || step.EndLoop? || step.Demote? || step.ReadFails?
  }

  lemma QuietParts(s: State, step: Step)
    requires Enabled(s, step) && Quiet(step) && (step.Peek? ==> s.outbound != [])
    ensures var r := Next(s, step);
            && SameQueues(s, r) && r.delivered == s.delivered && r.lost == s.lost
            && r.drain == (match step
                           case StartDrain => Looping
                           case Enter => Entered
                           case Peek => Peeked(s.outbound[0])
                           case EndLoop => Leaving
                           case _ => Idle)
  {
    match step
    case Demote => if s.outbound == [] {}
    case _ =>
  }

  lemma QuietInv(s: State, step: Step)
    requires Inv(s) && Enabled(s, step) && Quiet(step)
    ensures Inv(Next(s, step))
  {
    QuietParts(s, step);
    if step.Peek? { PeekInv(s, Next(s, step)); } else { DrainMovesInv(s, Next(s, step)); }
  }

  lemma NextInv(s: State, step: Step)
    requires Inv(s)
    ensures Inv(Next(s, step))
  {
    if Enabled(s, step) {
      match step
      case Offer(t, frame) => OfferInv(s, t, frame);
      case Send(t, o) => if o.WouldBlock? { RefusedInv(s, t); } else { SendInv(s, t, o); }
      case Look(t) => LookInv(s, t);
      case Append(t) => AppendInv(s, t);
      case SendHead(o) => SendHeadInv(s, o);
      case Pop => PopInv(s);
      case _ => QuietInv(s, step);
    }
  }

  lemma {:induction false} RunInv(s: State, steps: seq<Step>)
    requires Inv(s)
    ensures Inv(Run(s, steps))
  {
    if steps != [] {
      RunInv(s, steps[..|steps| - 1]);
      NextInv(Run(s, steps[..|steps| - 1]), steps[|steps| - 1]);
    }
  }
}
