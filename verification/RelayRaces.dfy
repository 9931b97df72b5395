/** The checks the two threads make outside the selector lock: exactly when a check that has
    gone stale by the time its append lands breaks the counter or strands the backlog. */
module RelayRaces {
  import opened CanFrame
  import opened Relay
  import opened RelayInvariants
  import opened RelayTheorems

  // ---------------------------------------------------------------- the drop counter

  /** A drop already counted whose append has not happened yet. */
  function Noted(h: Hand): nat {
    if h.Looked? && h.full then 1 else 0
  }

  /** What was logged plus what is being counted is what was evicted. */
  predicate CounterExact(s: State) {
    s.reported + s.dropped == |s.evicted| + Noted(s.rx) + Noted(s.tx)
  }

  /** An append that finds the backlog full where its thread's check did not, or the reverse. */
  predicate Miscounts(s: State, step: Step) {
    step.Append? && Enabled(s, step) && s.HandOf(step.t).full != (|s.outbound| == s.cap)
  }

  lemma CounterAppend(s: State, t: Thread)
    requires Inv(s) && CounterExact(s) && Enabled(s, Append(t))
    ensures CounterExact(DoAppend(s, t)) <==> !Miscounts(s, Append(t))
  {
    AppendParts(s, t);
  }

  lemma CounterSend(s: State, t: Thread, o: Outcome)
    requires CounterExact(s) && Enabled(s, Send(t, o))
    ensures CounterExact(DoSend(s, t, o))
  {
    if o.WouldBlock? {
    } else if o.Took? {
    }
  }

  lemma CounterSendHead(s: State, o: Outcome)
    requires CounterExact(s) && Enabled(s, SendHead(o))
    ensures CounterExact(DoSendHead(s, o))
  {
    if o.Took? {
    } else if o.WouldBlock? {
    } else if Fatal(s.stream, o) {
    } else if o.Unreachable? {
    }
  }

  lemma CounterStep(s: State, step: Step)
    requires Inv(s) && CounterExact(s)
    ensures CounterExact(Next(s, step)) <==> !Miscounts(s, step)
  {
    if Enabled(s, step) {
      match step
      case Offer(t, frame) =>
      case Send(t, o) => CounterSend(s, t, o);
      case Look(t) =>
      case Append(t) => CounterAppend(s, t);
      case SendHead(o) => CounterSendHead(s, o);
      case Pop =>
      case Demote => if s.outbound == [] {}
      case _ =>
    }
  }

  /** Along a run the `dropped` counter (with what it has already logged) equals the number of
      evictions at every point if and only if no append ever finds the backlog's fullness
      other than its thread's earlier check left it. */
  lemma CounterExactIff(cap: nat, stream: bool, steps: seq<Step>)
    requires cap >= 1
    ensures (forall k :: 0 <= k <= |steps| ==> CounterExact(After(Init(cap, stream), steps, k)))
       <==> (forall k :: 0 <= k < |steps| ==> !Miscounts(After(Init(cap, stream), steps, k), steps[k]))
  {
    var s := Init(cap, stream);
    if forall k :: 0 <= k <= |steps| ==> CounterExact(After(s, steps, k)) {
      forall k | 0 <= k < |steps|
        ensures !Miscounts(After(s, steps, k), steps[k])
      {
        ReachInv(cap, stream, steps[..k]);
        AfterNext(s, steps, k);
        assert CounterExact(After(s, steps, k + 1));
        CounterStep(After(s, steps, k), steps[k]);
      }
    }
    if forall k :: 0 <= k < |steps| ==> !Miscounts(After(s, steps, k), steps[k]) {
      forall k | 0 <= k <= |steps|
        ensures CounterExact(After(s, steps, k))
      {
        CounterUpTo(cap, stream, steps, k);
      }
    }
  }

  lemma {:induction false} CounterUpTo(cap: nat, stream: bool, steps: seq<Step>, k: nat)
    requires cap >= 1 && k <= |steps|
    requires forall j :: 0 <= j < |steps| ==> !Miscounts(After(Init(cap, stream), steps, j), steps[j])
    ensures CounterExact(After(Init(cap, stream), steps, k))
    decreases k
  {
    if k > 0 {
      CounterUpTo(cap, stream, steps, k - 1);
      ReachInv(cap, stream, steps[..k - 1]);
      AfterNext(Init(cap, stream), steps, k - 1);
      CounterStep(After(Init(cap, stream), steps, k - 1), steps[k - 1]);
    }
  }

  /** When the counter is exact and both threads rest, it is the number of accepted frames the
      consumer will never see, send failures aside. */
  lemma {:induction false} DroppedIsMissing(cap: nat, stream: bool, steps: seq<Step>)
    requires cap >= 1
    requires forall k :: 0 <= k < |steps| ==> !Miscounts(After(Init(cap, stream), steps, k), steps[k])
    requires var s := Run(Init(cap, stream), steps); s.rx.Resting? && s.tx.Resting? && !s.drain.Popping?
    ensures var s := Run(Init(cap, stream), steps); s.reported + s.dropped == |Missing(s)|
  {
    CounterUpTo(cap, stream, steps, |steps|);
    assert steps[..|steps|] == steps;
    ReachInv(cap, stream, steps);
    MissingFramesAreEvictions(Run(Init(cap, stream), steps));
  }

  // ---------------------------------------------------------------- stranded backlogs

  /** What the selector lock is for: a registered consumer with a backlog is watched for
      write-readiness, and one watched for reading only has nothing queued and nothing dropped. */
  predicate NoStrand(s: State) {
    s.registered ==>
      (s.outbound != [] ==> s.interest.ReadWrite?) && (s.interest.ReadOnly? ==> s.dropped == 0)
  }

  /** An append decided on when there was a backlog, landing after the drain emptied it and
      gave up the write interest. */
  predicate Late(s: State, step: Step) {
    step.Append? && Enabled(s, step) && !s.HandOf(step.t).promote
    && s.outbound == [] && s.registered && s.interest.ReadOnly?
  }

  lemma StrandAppend(s: State, t: Thread)
    requires Inv(s) && NoStrand(s) && Enabled(s, Append(t))
    ensures NoStrand(DoAppend(s, t)) <==> !Late(s, Append(t))
  {
    assert DoAppend(s, t).outbound == Pushed(s.outbound, s.cap, |s.log|);
    if s.HandOf(t).promote && s.registered {
    } else {
      assert DoAppend(s, t).interest == s.interest;
    }
  }

  lemma StrandStep(s: State, step: Step)
    requires Inv(s) && NoStrand(s)
    ensures NoStrand(Next(s, step)) <==> !Late(s, step)
  {
    if Enabled(s, step) {
      match step
      case Offer(t, frame) =>
      case Send(t, o) => if o.WouldBlock? {} else if o.Took? {}
      case Append(t) => StrandAppend(s, t);
      case SendHead(o) => if o.Took? {} else if o.WouldBlock? {} else if Fatal(s.stream, o) {} else if o.Unreachable? {}
      case Demote => if s.outbound == [] {}
      case _ =>
    }
  }

  /** A backlog is never stranded along a run if and only if no append in it is late. */
  lemma NoStrandIff(cap: nat, stream: bool, steps: seq<Step>)
    requires cap >= 1
    ensures (forall k :: 0 <= k <= |steps| ==> NoStrand(After(Init(cap, stream), steps, k)))
       <==> (forall k :: 0 <= k < |steps| ==> !Late(After(Init(cap, stream), steps, k), steps[k]))
  {
    var s := Init(cap, stream);
    if forall k :: 0 <= k <= |steps| ==> NoStrand(After(s, steps, k)) {
      forall k | 0 <= k < |steps|
        ensures !Late(After(s, steps, k), steps[k])
      {
        ReachInv(cap, stream, steps[..k]);
        AfterNext(s, steps, k);
        assert NoStrand(After(s, steps, k + 1));
        StrandStep(After(s, steps, k), steps[k]);
      }
    }
    if forall k :: 0 <= k < |steps| ==> !Late(After(s, steps, k), steps[k]) {
      forall k | 0 <= k <= |steps|
        ensures NoStrand(After(s, steps, k))
      {
        NoStrandUpTo(cap, stream, steps, k);
      }
    }
  }

  lemma {:induction false} NoStrandUpTo(cap: nat, stream: bool, steps: seq<Step>, k: nat)
    requires cap >= 1 && k <= |steps|
    requires forall j :: 0 <= j < |steps| ==> !Late(After(Init(cap, stream), steps, j), steps[j])
    ensures NoStrand(After(Init(cap, stream), steps, k))
    decreases k
  {
    if k > 0 {
      NoStrandUpTo(cap, stream, steps, k - 1);
      ReachInv(cap, stream, steps[..k - 1]);
      AfterNext(Init(cap, stream), steps, k - 1);
      StrandStep(After(Init(cap, stream), steps, k - 1), steps[k - 1]);
    }
  }

  // ---------------------------------------------------------------- atomic check and append

  /** Each thread's fullness check is immediately followed by its append, and a backlog found
      non-empty immediately by the fullness check: nothing of this consumer happens in between. */
  ghost predicate Atomic(s: State, steps: seq<Step>) {
    forall k :: 0 <= k < |steps| && Enabled(After(s, steps, k), steps[k]) ==>
      match steps[k]
      case Append(t) => k > 0 && steps[k - 1] == Look(t)
      case Look(t) => After(s, steps, k).HandOf(t).promote || (k > 0 && steps[k - 1].Offer? && steps[k - 1].t == t)
      case _ => true
  }

  lemma AppendAtOnce(looking: State, t: Thread)
    requires Enabled(looking, Look(t))
    ensures var s := DoLook(looking, t);
            && !Miscounts(s, Append(t)) && s.outbound == looking.outbound
            && s.HandOf(t).Looked? && s.HandOf(t).promote == looking.HandOf(t).promote
  {
  }

  lemma LookAtOnce(offering: State, t: Thread, f: Frame)
    requires DoOffer(offering, t, f).HandOf(t).Behind?
    ensures DoOffer(offering, t, f).outbound != []
  {
  }

  /** The append at step `k` follows the state in which its thread looks at the length. */
  lemma {:induction false} JustLooked(cap: nat, stream: bool, steps: seq<Step>, k: nat)
    requires k < |steps| && Legal(Init(cap, stream), steps) && Atomic(Init(cap, stream), steps)
    requires steps[k].Append? && Enabled(After(Init(cap, stream), steps, k), steps[k])
    ensures k > 0 && steps[k - 1] == Look(steps[k].t)
    ensures var looking := After(Init(cap, stream), steps, k - 1);
            && Enabled(looking, Look(steps[k].t)) && After(Init(cap, stream), steps, k) == DoLook(looking, steps[k].t)
            && (!looking.HandOf(steps[k].t).promote ==> looking.outbound != [])
  {
    var s, t := Init(cap, stream), steps[k].t;
    LegalPrefix(s, steps, k);
    AfterNext(s, steps, k - 1);
    var looking := After(s, steps, k - 1);
    if !looking.HandOf(t).promote { JustOffered(cap, stream, steps, k - 1, t); }
  }

  /** A look at the length that no refused send led to follows the backlog check. */
  lemma {:induction false} JustOffered(cap: nat, stream: bool, steps: seq<Step>, k: nat, t: Thread)
    requires k < |steps| && Legal(Init(cap, stream), steps) && Atomic(Init(cap, stream), steps)
    requires steps[k] == Look(t) && Enabled(After(Init(cap, stream), steps, k), steps[k])
    requires !After(Init(cap, stream), steps, k).HandOf(t).promote
    ensures After(Init(cap, stream), steps, k).outbound != []
  {
    var s := Init(cap, stream);
    LegalPrefix(s, steps, k);
    AfterNext(s, steps, k - 1);
    LookAtOnce(After(s, steps, k - 1), t, steps[k - 1].frame);
  }

  /** With the checks atomic no append is stale, so the counter is exact and nothing strands. */
  lemma {:induction false} AtomicChecksSuffice(cap: nat, stream: bool, steps: seq<Step>, k: nat)
    requires cap >= 1 && k < |steps|
    requires Legal(Init(cap, stream), steps) && Atomic(Init(cap, stream), steps)
    ensures !Miscounts(After(Init(cap, stream), steps, k), steps[k])
    ensures !Late(After(Init(cap, stream), steps, k), steps[k])
  {
    if steps[k].Append? && Enabled(After(Init(cap, stream), steps, k), steps[k]) {
      JustLooked(cap, stream, steps, k);
      AppendAtOnce(After(Init(cap, stream), steps, k - 1), steps[k].t);
    }
  }

  // ---------------------------------------------------------------- one thread alone

  /** What a thread that acts alone has seen still holds. */
  predicate Fresh(s: State) {
    && s.rx.Resting?
    && (s.tx.Behind? && !s.tx.promote ==> s.outbound != [])
    && (s.tx.Looked? ==> s.tx.full == (|s.outbound| == s.cap) && (!s.tx.promote ==> s.outbound != []))
  }

  lemma FreshStep(s: State, step: Step)
    requires Inv(s) && Fresh(s) && Enabled(s, step) && Next(s, step).rxOffers == []
    ensures Fresh(Next(s, step)) && !Late(s, step) && !Miscounts(s, step)
  {
    match step
    case Offer(_, _) =>
    case Send(t, o) => if o.WouldBlock? {} else if o.Took? {}
    case Look(_) =>
    case Append(_) =>
    case SendHead(o) => SendHeadParts(s, o);
    case Pop =>
    case Demote => if s.outbound == [] {}
    case _ =>
  }

  /** Where only the TX thread runs, as on a virtual bus, no check is ever stale: the counter is
      exact and no backlog is stranded. */
  lemma {:induction false} AloneNothingIsStale(cap: nat, stream: bool, steps: seq<Step>)
    requires cap >= 1 && Legal(Init(cap, stream), steps) && Run(Init(cap, stream), steps).rxOffers == []
    ensures var s := Run(Init(cap, stream), steps); Fresh(s) && CounterExact(s) && NoStrand(s)
  {
    if steps != [] {
      var front, step := steps[..|steps| - 1], steps[|steps| - 1];
      var mid := Run(Init(cap, stream), front);
      NextOffers(mid, step, Rx);
      AloneNothingIsStale(cap, stream, front);
      ReachInv(cap, stream, front);
      FreshStep(mid, step);
      CounterStep(mid, step);
      StrandStep(mid, step);
    }
  }

  // ---------------------------------------------------------------- stranded for good

  predicate Promoting(h: Hand) {
    h.Direct? || ((h.Behind? || h.Looked?) && h.promote)
  }

  /** Queued frames that nothing will ever drain: no write interest, and no thread on its way
      to ask for it. */
  predicate Stranded(s: State) {
    && s.cap >= 1 && s.outbound != [] && s.drain.Idle?
    && (s.registered ==> s.interest.ReadOnly?)
    && !Promoting(s.rx) && !Promoting(s.tx)
  }

  lemma StrandedStep(s: State, step: Step)
    requires Stranded(s)
    ensures Stranded(Next(s, step)) && Next(s, step).delivered == s.delivered && Next(s, step).lost == s.lost
  {
    if Enabled(s, step) {
      match step
      case Offer(t, frame) =>
      case Look(t) =>
      case Append(t) => assert DoAppend(s, t).outbound != [];
      case _ =>
    }
  }

  /** Once stranded, a consumer gets nothing any more, whatever either thread does: every
      later frame queues behind the stranded ones. */
  lemma {:induction false} StrandedForever(s: State, steps: seq<Step>)
    requires Stranded(s)
    ensures Stranded(Run(s, steps)) && Run(s, steps).delivered == s.delivered && Run(s, steps).lost == s.lost
  {
    if steps != [] {
      StrandedForever(s, steps[..|steps| - 1]);
      StrandedStep(Run(s, steps[..|steps| - 1]), steps[|steps| - 1]);
    }
  }

  /** A late append strands the backlog for good, unless the other thread happens to be in a
      direct send or on its way from a refused one. */
  lemma {:induction false} LateIsForGood(cap: nat, stream: bool, steps: seq<Step>, t: Thread, more: seq<Step>)
    requires cap >= 1
    requires var s := Run(Init(cap, stream), steps);
             Late(s, Append(t)) && !Promoting(if t.Rx? then s.tx else s.rx)
    ensures var s := Run(Init(cap, stream), steps);
            Run(Next(s, Append(t)), more).delivered == s.delivered && Stranded(Run(Next(s, Append(t)), more))
  {
    var s := Run(Init(cap, stream), steps);
    IdleRun(Init(cap, stream), steps);
    assert Stranded(DoAppend(s, t)) && DoAppend(s, t).delivered == s.delivered;
    StrandedForever(DoAppend(s, t), more);
  }

  // ---------------------------------------------------------------- the races happen

  /** Some legal run of the two threads leads from `s` to `r`. */
  ghost predicate Reaches(s: State, r: State) {
    exists steps :: Legal(s, steps) && Run(s, steps) == r
  }

  lemma ReachesSelf(s: State)
    ensures Reaches(s, s)
  {
    assert Legal(s, []) && Run(s, []) == s;
  }

  lemma Reach(s: State, r: State, step: Step)
    requires Reaches(s, r) && Enabled(r, step)
    ensures Reaches(s, Next(r, step))
  {
    var steps :| Legal(s, steps) && Run(s, steps) == r;
    var more := steps + [step];
    assert more[..|more| - 1] == steps;
    assert Legal(s, more) && Run(s, more) == Next(r, step);
  }

  lemma ReachableInv(cap: nat, stream: bool, s: State)
    requires cap >= 1 && Reaches(Init(cap, stream), s)
    ensures Inv(s)
  {
    var steps :| Legal(Init(cap, stream), steps) && Run(Init(cap, stream), steps) == s;
    ReachInv(cap, stream, steps);
  }

  function FirstQueued(cap: nat, stream: bool, f: Frame): State {
    Init(cap, stream).(outbound := [0], interest := ReadWrite,
                       past := Init(cap, stream).past.(rxOffers := [f], log := [Item(Rx, 0, f)]))
  }

  /** The RX thread's direct send of `f` is refused, so it queues it and asks for write interest. */
  lemma QueueFirst(cap: nat, stream: bool, f: Frame)
    requires cap >= 1
    ensures Reaches(Init(cap, stream), FirstQueued(cap, stream, f))
  {
    var s0 := Init(cap, stream);
    var item := Item(Rx, 0, f);
    var past := s0.past.(rxOffers := [f]);
    var s1 := s0.(rx := Direct(item), past := past);
    var s2 := s0.(rx := Behind(item, true), past := past);
    var s3 := s0.(rx := Looked(item, true, false), past := past);
    ReachesSelf(s0);
    Reach(s0, s0, Offer(Rx, f));
    Reach(s0, s1, Send(Rx, WouldBlock));
    Reach(s0, s2, Look(Rx));
    Reach(s0, s3, Append(Rx));
  }

  lemma PeekHead(s0: State, s: State)
    requires Reaches(s0, s) && Enabled(s, StartDrain) && s.outbound != []
    ensures Reaches(s0, s.(drain := Peeked(s.outbound[0])))
  {
    Reach(s0, s, StartDrain);
    Reach(s0, s.(drain := Looping), Enter);
    Reach(s0, s.(drain := Entered), Peek);
  }

  /** The drain delivers the one queued frame. */
  lemma DeliverHead(s0: State, s: State)
    requires Reaches(s0, s) && Enabled(s, StartDrain) && |s.outbound| == 1
    ensures Reaches(s0, s.(outbound := [], drain := Looping, past := s.past.(delivered := s.delivered + s.outbound)))
  {
    var h := s.outbound[0];
    assert s.outbound == [h];
    PeekHead(s0, s);
    Reach(s0, s.(drain := Peeked(h)), SendHead(Took));
    Reach(s0, s.(drain := Popping(h, true), past := s.past.(delivered := s.delivered + [h])), Pop);
  }

  /** With `f` queued, the RX thread finds the backlog non-empty for `g`. */
  function NextBehind(cap: nat, stream: bool, f: Frame, g: Frame): State {
    var s := FirstQueued(cap, stream, f);
    s.(rx := Behind(Item(Rx, 1, g), false), past := s.past.(rxOffers := [f, g]))
  }

  lemma OfferNext(cap: nat, stream: bool, f: Frame, g: Frame)
    requires cap >= 1
    ensures Reaches(Init(cap, stream), NextBehind(cap, stream, f, g))
  {
    var s := FirstQueued(cap, stream, f);
    QueueFirst(cap, stream, f);
    Reach(Init(cap, stream), s, Offer(Rx, g));
    assert s.past.(rxOffers := s.rxOffers + [g]) == s.past.(rxOffers := [f, g]);
  }

  /** Before `g` is appended the TX thread delivers `f` and gives up the write interest. */
  function DrainedBehind(cap: nat, stream: bool, f: Frame, g: Frame): State {
    var s := NextBehind(cap, stream, f, g);
    s.(outbound := [], interest := ReadOnly, past := s.past.(delivered := [0]))
  }

  lemma DrainBeforeAppend(cap: nat, stream: bool, f: Frame, g: Frame)
    requires cap >= 1
    ensures Reaches(Init(cap, stream), DrainedBehind(cap, stream, f, g))
  {
    var start, s := Init(cap, stream), NextBehind(cap, stream, f, g);
    OfferNext(cap, stream, f, g);
    DeliverHead(start, s);
    var s1 := s.(outbound := [], drain := Looping, past := s.past.(delivered := s.delivered + s.outbound));
    assert s.delivered + s.outbound == [0];
    Reach(start, s1, EndLoop);
    Reach(start, s1.(drain := Leaving), Demote);
  }

  /** At every backlog size, the lock does not prevent that backlog from being stranded. */
  lemma StrandingHappens(cap: nat, stream: bool, f: Frame, g: Frame)
    requires cap >= 1
    ensures exists s :: Reaches(Init(cap, stream), s)
                        && Stranded(s) && s.registered && s.delivered == [0] && s.outbound == [1]
                        && s.rxOffers == [f, g]
  {
    var start, s := Init(cap, stream), DrainedBehind(cap, stream, f, g);
    var item := Item(Rx, 1, g);
    DrainBeforeAppend(cap, stream, f, g);
    Reach(start, s, Look(Rx));
    var looked := s.(rx := Looked(item, false, false));
    Reach(start, looked, Append(Rx));
    var r := Next(looked, Append(Rx));
    assert r.outbound == [1];
    assert Reaches(start, r) && Stranded(r);
  }

  /** A full backlog is counted, drained by one, and then appended to without an eviction. */
  lemma OvercountingHappens(stream: bool, f: Frame, g: Frame)
    ensures exists s :: Reaches(Init(1, stream), s) && s.rx.Resting? && s.tx.Resting?
                        && s.dropped == 1 && s.reported == 0 && Missing(s) == {}
  {
    var start, s := Init(1, stream), NextBehind(1, stream, f, g);
    OfferNext(1, stream, f, g);
    Reach(start, s, Look(Rx));
    var looked := s.(rx := Looked(Item(Rx, 1, g), false, true), dropped := 1);
    DeliverHead(start, looked);
    var drained := looked.(outbound := [], drain := Looping,
                           past := looked.past.(delivered := looked.delivered + looked.outbound));
    Reach(start, drained, Append(Rx));
    AppendedWithoutLoss(start, drained, Next(drained, Append(Rx)));
  }

  lemma AppendedWithoutLoss(start: State, s: State, r: State)
    requires start == Init(1, s.stream) && Reaches(start, r)
    requires s.outbound == [] && s.evicted == [] && !s.drain.Popping?
    requires Enabled(s, Append(Rx)) && r == DoAppend(s, Rx)
    ensures Missing(r) == {}
  {
    ReachableInv(1, s.stream, r);
    MissingFramesAreEvictions(r);
  }

  /** Both threads find room for one more, and the TX thread's append fills the backlog. */
  function FilledBehind(stream: bool, f: Frame, g: Frame, h: Frame): State {
    var s := NextBehind(2, stream, f, g);
    s.(rx := Looked(Item(Rx, 1, g), false, false), outbound := [0, 1],
       past := s.past.(txOffers := [h], log := [Item(Rx, 0, f), Item(Tx, 0, h)]))
  }

  lemma FillBeforeAppend(stream: bool, f: Frame, g: Frame, h: Frame)
    ensures Reaches(Init(2, stream), FilledBehind(stream, f, g, h))
  {
    var start, s := Init(2, stream), NextBehind(2, stream, f, g);
    OfferNext(2, stream, f, g);
    Reach(start, s, Look(Rx));
    LoopbackFills(start, s.(rx := Looked(Item(Rx, 1, g), false, false)), h);
  }

  lemma LoopbackLooks(start: State, s: State, h: Frame)
    requires Reaches(start, s) && |s.outbound| == 1 && s.cap == 2 && s.txOffers == []
    requires s.txAlive && s.tx.Resting? && s.drain.Idle?
    ensures Reaches(start, s.(tx := Looked(Item(Tx, 0, h), false, false), past := s.past.(txOffers := [h])))
  {
    Reach(start, s, Offer(Tx, h));
    assert s.txOffers + [h] == [h];
    Reach(start, s.(tx := Behind(Item(Tx, 0, h), false), past := s.past.(txOffers := [h])), Look(Tx));
  }

  lemma LoopbackFills(start: State, s: State, h: Frame)
    requires Reaches(start, s) && |s.outbound| == 1 && s.cap == 2 && s.txOffers == []
    requires s.txAlive && s.tx.Resting? && s.drain.Idle?
    ensures Reaches(start, s.(outbound := s.outbound + [|s.log|],
                              past := s.past.(txOffers := [h], log := s.log + [Item(Tx, 0, h)])))
  {
    LoopbackLooks(start, s, h);
    Reach(start, s.(tx := Looked(Item(Tx, 0, h), false, false), past := s.past.(txOffers := [h])), Append(Tx));
  }

  /** The RX thread's append then evicts a frame that nobody counted. */
  lemma UndercountingHappens(stream: bool, f: Frame, g: Frame, h: Frame)
    ensures exists s :: Reaches(Init(2, stream), s) && s.rx.Resting? && s.tx.Resting?
                        && s.dropped == 0 && s.reported == 0 && |Missing(s)| == 1
  {
    var start, s := Init(2, stream), FilledBehind(stream, f, g, h);
    FillBeforeAppend(stream, f, g, h);
    Reach(start, s, Append(Rx));
    var r := Next(s, Append(Rx));
    assert r.evicted == [0];
    ReachableInv(2, stream, r);
    MissingFramesAreEvictions(r);
  }
}
