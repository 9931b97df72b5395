/** What holds of one consumer on every run of the two threads. */
module RelayTheorems {
  import opened CanFrame
  import opened Relay
  import opened RelayInvariants

  /** The state after the first `k` steps. */
  function After(s: State, steps: seq<Step>, k: nat): State
    requires k <= |steps|
  {
    Run(s, steps[..k])
  }

  lemma AfterNext(s: State, steps: seq<Step>, k: nat)
    requires k < |steps|
    ensures After(s, steps, k + 1) == Next(After(s, steps, k), steps[k])
    ensures Legal(s, steps[..k + 1]) <==> Legal(s, steps[..k]) && Enabled(After(s, steps, k), steps[k])
  {
    assert steps[..k + 1][..k] == steps[..k];
  }

  lemma {:induction false} LegalPrefix(s: State, steps: seq<Step>, k: nat)
    requires Legal(s, steps) && k <= |steps|
    ensures Legal(s, steps[..k])
    decreases |steps|
  {
    if k == |steps| {
      assert steps[..k] == steps;
    } else {
      LegalPrefix(s, steps[..|steps| - 1], k);
      assert steps[..|steps| - 1][..k] == steps[..k];
    }
  }

  lemma ReachInv(cap: nat, stream: bool, steps: seq<Step>)
    requires cap >= 1
    ensures Inv(Run(Init(cap, stream), steps))
  {
    InitInv(cap, stream);
    RunInv(Init(cap, stream), steps);
  }

  // ---------------------------------------------------------------- the drain

  /** The bound holds, and neither `outbound[0]` nor `popleft` ever meets an empty deque. */
  lemma DrainIsSafe(cap: nat, stream: bool, steps: seq<Step>)
    requires cap >= 1
    ensures var s := Run(Init(cap, stream), steps);
            |s.outbound| <= cap && !s.fault && (s.drain.Entered? || s.drain.Popping? ==> s.outbound != [])
  {
    ReachInv(cap, stream, steps);
  }

  predicate DrainStep(step: Step) {
    step.Enter? || step.Peek? || step.SendHead? || step.Pop? || step.EndLoop? || step.Demote?
  }

  function DrainSteps(steps: seq<Step>): nat {
    if steps == [] then 0
    else DrainSteps(steps[..|steps| - 1]) + (if DrainStep(steps[|steps| - 1]) then 1 else 0)
  }

  function Appends(steps: seq<Step>): nat {
    if steps == [] then 0
    else Appends(steps[..|steps| - 1]) + (if steps[|steps| - 1].Append? then 1 else 0)
  }

  /** Steps the drain still has to take if nothing more is queued. */
  function Remaining(s: State): nat {
    match s.drain
    case Idle => 0
    case Leaving => 1
    case Looping => 4 * |s.outbound| + 2
    case Entered => 4 * |s.outbound| + 1
    case Peeked(_) => 4 * |s.outbound|
    case Popping(_, _) => if s.outbound == [] then 0 else 4 * |s.outbound| - 1
  }

  lemma SendHeadProgress(s: State, o: Outcome)
    requires s.drain.Peeked? && s.outbound != []
    ensures Remaining(DoSendHead(s, o)) + 1 <= Remaining(s)
  {
    if o.Took? {
    } else if o.WouldBlock? {
    } else if Fatal(s.stream, o) {
    } else if o.Unreachable? {
    }
  }

  lemma DrainStepProgress(s: State, step: Step)
    requires Backlog(s.cap, s.outbound, s.drain) && Enabled(s, step) && DrainStep(step)
    ensures Remaining(Next(s, step)) + 1 <= Remaining(s)
  {
    match step
    case SendHead(o) => SendHeadProgress(s, o);
    case Pop => assert |DoPop(s).outbound| == |s.outbound| - 1;
    case _ =>
  }

  lemma SendLeavesDrain(s: State, t: Thread, o: Outcome)
    requires s.HandOf(t).Direct?
    ensures DoSend(s, t, o).drain == s.drain && DoSend(s, t, o).outbound == s.outbound
  {
    if o.WouldBlock? {
    } else if o.Took? {
    }
  }

  /** Only an append can put the end of the drain further off. */
  lemma DrainProgress(s: State, step: Step)
    requires Backlog(s.cap, s.outbound, s.drain) && Enabled(s, step) && !step.StartDrain? && !DrainStep(step)
    ensures Next(s, step).drain == s.drain
    ensures |Next(s, step).outbound| <= |s.outbound| + (if step.Append? then 1 else 0)
    ensures s.outbound != [] ==> Next(s, step).outbound != []
  {
    match step
    case Offer(_, _) =>
    case Send(t, o) => SendLeavesDrain(s, t, o);
    case Look(_) =>
    case Append(_) =>
    case ReadFails =>
  }

  /** One drain ends: however the RX thread interferes, it takes at most four steps for every
      frame that was queued when it began or has been appended since. */
  lemma {:induction false} DrainTerminates(s: State, steps: seq<Step>)
    requires Inv(s) && Legal(s, steps) && forall i :: 0 <= i < |steps| ==> !steps[i].StartDrain?
    ensures Remaining(Run(s, steps)) + DrainSteps(steps) <= Remaining(s) + 4 * Appends(steps)
  {
    if steps != [] {
      var front := steps[..|steps| - 1];
      DrainTerminates(s, front);
      RunInv(s, front);
      var mid, step := Run(s, front), steps[|steps| - 1];
      if DrainStep(step) { DrainStepProgress(mid, step); } else { DrainProgress(mid, step); }
    }
  }

  /** The drain's own next step; `o` is how the socket answers, should it be a send. */
  function NextOfDrain(s: State, o: Outcome): Step
    requires !s.drain.Idle?
  {
    match s.drain
    case Looping => if s.outbound == [] then EndLoop else Enter
    case Entered => Peek
    case Peeked(_) => SendHead(o)
    case Popping(_, _) => Pop
    case Leaving => Demote
  }

  lemma NextOfDrainIsEnabled(s: State, o: Outcome)
    requires !s.drain.Idle? && s.txAlive
    ensures Enabled(s, NextOfDrain(s, o)) && DrainStep(NextOfDrain(s, o))
  {
  }

  lemma DeadIsIdle(s: State, o: Outcome)
    requires !s.drain.Idle? && s.txAlive && !Next(s, NextOfDrain(s, o)).txAlive
    ensures Next(s, NextOfDrain(s, o)).drain.Idle?
  {
    if s.drain.Peeked? { SendHeadDies(s, o); }
  }

  lemma SendHeadDies(s: State, o: Outcome)
    requires s.drain.Peeked? && s.txAlive && !DoSendHead(s, o).txAlive
    ensures DoSendHead(s, o).drain.Idle?
  {
    if o.Took? {
    } else if o.WouldBlock? {
    } else if Fatal(s.stream, o) {
    } else if o.Unreachable? {
    }
  }

  lemma OneDrainStep(s: State, o: Outcome)
    requires Inv(s) && s.txAlive && !s.drain.Idle?
    ensures var step := NextOfDrain(s, o);
            var r := Next(s, step);
            && DrainStep(step) && Legal(s, [step]) && Run(s, [step]) == r
            && Inv(r) && Remaining(r) + 1 <= Remaining(s) && (r.txAlive || r.drain.Idle?)
  {
    var step := NextOfDrain(s, o);
    NextOfDrainIsEnabled(s, o);
    DrainStepProgress(s, step);
    NextInv(s, step);
    if !Next(s, step).txAlive { DeadIsIdle(s, o); }
    assert [step][..0] == [] && Run(s, []) == s && Legal(s, []);
  }

  /** Drain steps whose sends are answered by `outcomes`, from its `first` on. */
  predicate Answers(steps: seq<Step>, outcomes: nat -> Outcome, first: nat) {
    forall i: nat :: i < |steps| ==> DrainStep(steps[i]) && (steps[i].SendHead? ==> steps[i].outcome == outcomes(first + i))
  }

  /** Left to itself a drain always comes to its end, however the socket answers: from any
      reachable point its own steps lead to idleness, in at most four for every queued frame. */
  lemma {:induction false} DrainFinishes(s: State, outcomes: nat -> Outcome, first: nat) returns (steps: seq<Step>)
    requires Inv(s) && s.txAlive
    ensures Legal(s, steps) && Run(s, steps).drain.Idle? && |steps| <= Remaining(s)
    ensures Answers(steps, outcomes, first)
    decreases Remaining(s)
  {
    NoSteps(s, outcomes, first);
    if s.drain.Idle? {
      return [];
    }
    var step := NextOfDrain(s, outcomes(first));
    var r := Next(s, step);
    OneDrainStep(s, outcomes(first));
    NoSteps(r, outcomes, first + 1);
    var rest := [];
    if r.txAlive {
      rest := DrainFinishes(r, outcomes, first + 1);
    }
    Prepend(s, step, rest, outcomes, first);
    steps := [step] + rest;
  }

  lemma NoSteps(s: State, outcomes: nat -> Outcome, first: nat)
    ensures Legal(s, []) && Run(s, []) == s && Answers([], outcomes, first)
  {
  }

  lemma Prepend(s: State, step: Step, rest: seq<Step>, outcomes: nat -> Outcome, first: nat)
    requires Legal(s, [step]) && Run(s, [step]) == Next(s, step) && Legal(Next(s, step), rest)
    requires DrainStep(step) && (step.SendHead? ==> step.outcome == outcomes(first)) && Answers(rest, outcomes, first + 1)
    ensures Legal(s, [step] + rest) && Run(s, [step] + rest) == Run(Next(s, step), rest)
    ensures Answers([step] + rest, outcomes, first)
  {
    RunConcat(s, [step], rest);
    AnswersNext(step, rest, outcomes, first);
  }

  lemma AnswersNext(step: Step, rest: seq<Step>, outcomes: nat -> Outcome, first: nat)
    requires DrainStep(step) && (step.SendHead? ==> step.outcome == outcomes(first)) && Answers(rest, outcomes, first + 1)
    ensures Answers([step] + rest, outcomes, first)
  {
    var steps := [step] + rest;
    forall i: nat | i < |steps|
      ensures DrainStep(steps[i]) && (steps[i].SendHead? ==> steps[i].outcome == outcomes(first + i))
    {
      if i > 0 { assert steps[i] == rest[i - 1]; }
    }
  }

  predicate IdleWhenReadOnly(s: State) {
    s.interest.ReadOnly? ==> s.drain.Idle?
  }

  lemma IdleStep(s: State, step: Step)
    requires IdleWhenReadOnly(s)
    ensures IdleWhenReadOnly(Next(s, step))
  {
    if Enabled(s, step) {
      match step
      case Offer(_, _) =>
      case Send(t, o) => if o.WouldBlock? {} else if o.Took? {}
      case Look(_) =>
      case Append(t) =>
      case SendHead(o) => if o.Took? {} else if o.WouldBlock? {} else if Fatal(s.stream, o) {} else if o.Unreachable? {}
      case _ =>
    }
  }

  lemma {:induction false} IdleRun(s: State, steps: seq<Step>)
    requires IdleWhenReadOnly(s)
    ensures IdleWhenReadOnly(Run(s, steps))
  {
    if steps != [] {
      IdleRun(s, steps[..|steps| - 1]);
      IdleStep(Run(s, steps[..|steps| - 1]), steps[|steps| - 1]);
    }
  }

  /** On every run, a drain goes quiet only with an empty backlog watched for reading, with a
      backlog still watched for writing, or with the consumer or the TX thread gone. */
  lemma DrainEnds(cap: nat, stream: bool, steps: seq<Step>, step: Step)
    requires var s := Run(Init(cap, stream), steps);
             s.drain != Idle && DrainStep(step) && Enabled(s, step) && Next(s, step).drain.Idle?
    ensures var r := Next(Run(Init(cap, stream), steps), step);
            || (r.outbound == [] && r.interest.ReadOnly? && r.dropped == 0)
            || (r.outbound != [] && r.interest.ReadWrite?)
            || !r.registered || !r.txAlive
  {
    IdleRun(Init(cap, stream), steps);
    QuietDrain(Run(Init(cap, stream), steps), step);
  }

  lemma QuietDrain(s: State, step: Step)
    requires s.drain != Idle && IdleWhenReadOnly(s) && DrainStep(step) && Enabled(s, step) && Next(s, step).drain.Idle?
    ensures var r := Next(s, step);
            || (r.outbound == [] && r.interest.ReadOnly? && r.dropped == 0)
            || (r.outbound != [] && r.interest.ReadWrite?)
            || !r.registered || !r.txAlive
  {
    match step
    case Demote => if s.outbound == [] {}
    case SendHead(o) => if o.Took? {} else if o.WouldBlock? {} else if Fatal(s.stream, o) {} else if o.Unreachable? {}
    case _ =>
  }

  // ---------------------------------------------------------------- order

  /** On every interleaving, and for each of the two threads, the frames delivered are frames
      the thread offered, in the order it offered them; and no frame is delivered twice. */
  lemma {:induction false} DeliveredInOfferOrder(cap: nat, stream: bool, steps: seq<Step>)
    requires cap >= 1
    ensures var s := Run(Init(cap, stream), steps);
            && Below(s.delivered, |s.log|) && Distinct(s.delivered)
            && (forall i :: 0 <= i < |s.delivered| ==>
                  var item := s.log[s.delivered[i]];
                  item.idx < |s.OffersOf(item.src)| && s.OffersOf(item.src)[item.idx] == item.frame)
            && (forall i, j :: 0 <= i < j < |s.delivered| && s.log[s.delivered[i]].src == s.log[s.delivered[j]].src ==>
                  s.log[s.delivered[i]].idx < s.log[s.delivered[j]].idx)
  {
    ReachInv(cap, stream, steps);
    var s := Run(Init(cap, stream), steps);
    forall i, j | 0 <= i < j < |s.delivered| && s.log[s.delivered[i]].src == s.log[s.delivered[j]].src
      ensures s.log[s.delivered[i]].idx < s.log[s.delivered[j]].idx
    {
      assert LogFits(s.log[s.delivered[i]].src, s.OffersOf(s.log[s.delivered[i]].src), s.log);
    }
  }

  /** The frames `t` offers during the run, as the steps of the run spell them out. */
  function Offered(t: Thread, steps: seq<Step>): seq<Frame> {
    if steps == [] then []
    else
      var last := steps[|steps| - 1];
      Offered(t, steps[..|steps| - 1]) + (if last.Offer? && last.t == t then [last.frame] else [])
  }

  lemma SendOffers(s: State, t: Thread, o: Outcome)
    requires s.HandOf(t).Direct?
    ensures DoSend(s, t, o).rxOffers == s.rxOffers && DoSend(s, t, o).txOffers == s.txOffers
  {
    if o.WouldBlock? {
    } else if o.Took? {
    }
  }

  lemma SendHeadOffers(s: State, o: Outcome)
    requires s.drain.Peeked?
    ensures DoSendHead(s, o).rxOffers == s.rxOffers && DoSendHead(s, o).txOffers == s.txOffers
  {
    if o.Took? {
    } else if o.WouldBlock? {
    } else if Fatal(s.stream, o) {
    } else if o.Unreachable? {
    }
  }

  lemma OtherOffers(s: State, step: Step)
    requires !step.Offer? && !step.Send? && !step.SendHead?
    ensures Next(s, step).rxOffers == s.rxOffers && Next(s, step).txOffers == s.txOffers
  {
    if Enabled(s, step) {
      match step
      case Look(_) =>
      case Append(_) =>
      case Pop =>
      case Demote =>
      case _ =>
    }
  }

  lemma NextOffers(s: State, step: Step, t: Thread)
    requires Enabled(s, step)
    ensures Next(s, step).OffersOf(t)
            == s.OffersOf(t) + (if step.Offer? && step.t == t then [step.frame] else [])
  {
    match step
    case Offer(_, _) =>
    case Send(u, o) => SendOffers(s, u, o);
    case SendHead(o) => SendHeadOffers(s, o);
    case _ => OtherOffers(s, step);
  }

  lemma {:induction false} OffersAreTheInput(s: State, steps: seq<Step>, t: Thread)
    requires Legal(s, steps)
    ensures Run(s, steps).OffersOf(t) == s.OffersOf(t) + Offered(t, steps)
  {
    if steps != [] {
      OffersAreTheInput(s, steps[..|steps| - 1], t);
      NextOffers(Run(s, steps[..|steps| - 1]), steps[|steps| - 1], t);
    }
  }

  // ---------------------------------------------------------------- loss

  /** Every frame offered is in a thread's hand or accepted, and every accepted frame is
      delivered, queued, evicted or lost to a send error; the sum is one too high exactly
      between the end of a drain send and its popleft, and at no other time, even when the
      head was evicted while the drain was sending it. */
  lemma {:induction false} LossAccounting(cap: nat, stream: bool, steps: seq<Step>)
    requires cap >= 1 && Legal(Init(cap, stream), steps)
    ensures var s := Run(Init(cap, stream), steps);
            && |Offered(Rx, steps)| + |Offered(Tx, steps)| == |s.log| + InFlight(s.rx) + InFlight(s.tx)
            && |s.delivered| + |s.outbound| + |s.evicted| + |s.lost|
               == |s.log| + (if s.drain.Popping? then 1 else 0)
  {
    ReachInv(cap, stream, steps);
    OffersAreTheInput(Init(cap, stream), steps, Rx);
    OffersAreTheInput(Init(cap, stream), steps, Tx);
  }

  /** With a backlog of `cap` frames, each of the newest `cap - 1` accepted frames is
      delivered, still queued, or failed to be sent. What was evicted has at least `cap` newer
      frames, what the peek/popleft race discarded at least `cap - 1`. */
  lemma NewestFramesSurvive(cap: nat, stream: bool, steps: seq<Step>, k: nat)
    requires cap >= 1
    requires var n := |Run(Init(cap, stream), steps).log|; k < n && n - k <= cap - 1
    ensures var s := Run(Init(cap, stream), steps);
            (k in s.delivered || k in s.outbound || k in s.lost) && k !in s.evicted && k !in s.raced
  {
    ReachInv(cap, stream, steps);
  }

  function UpTo(n: nat): set<nat> {
    if n == 0 then {} else UpTo(n - 1) + {n - 1}
  }

  lemma {:induction false} UpToHas(n: nat)
    ensures forall k: nat :: k in UpTo(n) <==> k < n
    ensures |UpTo(n)| == n
  {
    if n > 0 { UpToHas(n - 1); }
  }

  function Elements(q: seq<nat>): set<nat> {
    if q == [] then {} else Elements(q[..|q| - 1]) + {q[|q| - 1]}
  }

  lemma {:induction false} ElementsHas(q: seq<nat>)
    ensures forall k :: k in Elements(q) <==> k in q
    ensures Distinct(q) ==> |Elements(q)| == |q|
  {
    if q != [] { ElementsHas(q[..|q| - 1]); }
  }

  /** The accepted frames the consumer neither got nor can still get, send failures aside. */
  function Missing(s: State): set<nat> {
    UpTo(|s.log|) - Elements(s.delivered) - Elements(s.outbound) - Elements(s.lost)
  }

  lemma QueueApart(s: State)
    requires Inv(s) && !s.drain.Popping?
    ensures Distinct(s.delivered)
    ensures forall k :: k in s.outbound ==> k !in s.delivered && k !in s.lost
  {
    forall k | k in s.outbound
      ensures k !in s.delivered
    {
      var j :| 0 <= j < |s.outbound| && s.outbound[j] == k;
      assert AllBefore(s.log, s.delivered, s.outbound[j]);
    }
  }

  lemma CountThreeParts(all: set<nat>, a: set<nat>, b: set<nat>, c: set<nat>)
    requires a <= all && b <= all && c <= all && a !! b && a !! c && b !! c
    ensures |all - a - b - c| == |all| - |a| - |b| - |c|
  {
    assert all - a - b - c == all - (a + b + c);
    assert |a + b + c| == |a| + |b| + |c|;
  }

  /** Evictions count the missing frames exactly: a head evicted after the drain had read it
      is delivered anyway, but then the popleft discards another frame in its place. */
  lemma MissingFramesAreEvictions(s: State)
    requires Inv(s) && !s.drain.Popping?
    ensures |Missing(s)| == |s.evicted|
  {
    QueueApart(s);
    UpToHas(|s.log|);
    ElementsHas(s.delivered);
    ElementsHas(s.outbound);
    ElementsHas(s.lost);
    CountThreeParts(UpTo(|s.log|), Elements(s.delivered), Elements(s.outbound), Elements(s.lost));
  }

  /** So on every run, between two drain sends: what is missing is what was evicted. */
  lemma {:induction false} MissingOnRuns(cap: nat, stream: bool, steps: seq<Step>)
    requires cap >= 1 && !Run(Init(cap, stream), steps).drain.Popping?
    ensures var s := Run(Init(cap, stream), steps); |Missing(s)| == |s.evicted|
  {
    ReachInv(cap, stream, steps);
    MissingFramesAreEvictions(Run(Init(cap, stream), steps));
  }

  // ---------------------------------------------------------------- one source

  lemma {:induction false} FullAndIncreasing(q: seq<nat>, i: nat)
    requires Increasing(q) && Below(q, |q|) && i < |q|
    ensures q[i] == i
  {
    Spread(q, i);
    SpreadDown(q, |q| - 1 - i);
  }

  lemma {:induction false} SpreadDown(q: seq<nat>, i: nat)
    requires Increasing(q) && i < |q|
    ensures q[|q| - 1 - i] + i <= q[|q| - 1]
  {
    if i > 0 { SpreadDown(q, i - 1); }
  }

  /** With one thread feeding the consumer, and nothing evicted or lost to an error, delivery
      followed by the backlog is everything accepted, once each and in order. */
  lemma OneSource(s: State, t: Thread)
    requires Inv(s) && !s.drain.Popping? && s.evicted == [] && s.lost == []
    requires forall k :: 0 <= k < |s.log| ==> s.log[k].src == t
    ensures |s.delivered| + |s.outbound| == |s.log|
    ensures forall i :: 0 <= i < |s.log| ==> (s.delivered + s.outbound)[i] == i
  {
    var q := s.delivered + s.outbound;
    forall i, j | 0 <= i < j < |q|
      ensures q[i] < q[j]
    {
      if i < |s.delivered| <= j {
        assert AllBefore(s.log, s.delivered, s.outbound[j - |s.delivered|]);
      }
    }
    forall i | 0 <= i < |q|
      ensures q[i] == i
    {
      FullAndIncreasing(q, i);
    }
  }

  // ---------------------------------------------------------------- either source

  /** The frames of `t` that were accepted, in order. */
  function FramesFrom(t: Thread, log: seq<Item>): seq<Frame> {
    if log == [] then []
    else
      var last := log[|log| - 1];
      FramesFrom(t, log[..|log| - 1]) + (if last.src == t then [last.frame] else [])
  }

  lemma FramesFromNext(t: Thread, log: seq<Item>, item: Item)
    ensures FramesFrom(t, log + [item]) == FramesFrom(t, log) + (if item.src == t then [item.frame] else [])
  {
    assert (log + [item])[..|log|] == log;
  }

  /** The frames of `t` among the tickets `q`, in the order of `q`. */
  function Chosen(t: Thread, log: seq<Item>, q: seq<nat>): seq<Frame>
    requires Below(q, |log|)
  {
    if q == [] then []
    else
      var last := log[q[|q| - 1]];
      Chosen(t, log, q[..|q| - 1]) + (if last.src == t then [last.frame] else [])
  }

  lemma {:induction false} NoneBetween(t: Thread, log: seq<Item>, a: nat, b: nat)
    requires a <= b <= |log| && forall k :: a <= k < b ==> log[k].src != t
    ensures FramesFrom(t, log[..b]) == FramesFrom(t, log[..a])
    decreases b
  {
    if a < b {
      NoneBetween(t, log, a, b - 1);
      assert log[..b][..b - 1] == log[..b - 1];
    }
  }

  /** `q` has every ticket of `t`, in order. */
  ghost predicate Complete(t: Thread, log: seq<Item>, q: seq<nat>) {
    && Below(q, |log|)
    && (forall i, j :: 0 <= i < j < |q| && log[q[i]].src == t && log[q[j]].src == t ==> q[i] < q[j])
    && (forall k :: 0 <= k < |log| && log[k].src == t ==> k in q)
  }

  /** The first `n` tickets choose the frames of `t` before position `b` of the log; the others of
      `t` come later. */
  lemma {:induction false} ChosenSoFar(t: Thread, log: seq<Item>, q: seq<nat>, n: nat) returns (b: nat)
    requires Complete(t, log, q) && n <= |q|
    ensures b <= |log| && Chosen(t, log, q[..n]) == FramesFrom(t, log[..b])
    ensures forall i :: 0 <= i < |q| && log[q[i]].src == t ==> (i < n <==> q[i] < b)
  {
    if n == 0 {
      return 0;
    }
    b := ChosenSoFar(t, log, q, n - 1);
    assert q[..n][..n - 1] == q[..n - 1];
    var x := q[n - 1];
    if log[x].src == t {
      forall k | b <= k < x
        ensures log[k].src != t
      {
        assert log[k].src == t ==> k in q;
      }
      NoneBetween(t, log, b, x);
      assert log[..x + 1][..x] == log[..x];
      b := x + 1;
    }
  }

  lemma {:induction false} ChosenIsAll(t: Thread, log: seq<Item>, q: seq<nat>)
    requires Complete(t, log, q)
    ensures Chosen(t, log, q) == FramesFrom(t, log)
  {
    var b := ChosenSoFar(t, log, q, |q|);
    assert q[..|q|] == q && log[..|log|] == log;
    NoneBetween(t, log, b, |log|);
  }

  lemma NoneMissing(s: State)
    requires Inv(s) && !s.drain.Popping? && s.evicted == [] && s.lost == []
    ensures forall k: nat :: k < |s.log| ==> k in s.delivered + s.outbound
  {
    MissingFramesAreEvictions(s);
    UpToHas(|s.log|);
    ElementsHas(s.delivered);
    ElementsHas(s.outbound);
    forall k: nat | k < |s.log|
      ensures k in s.delivered + s.outbound
    {
      assert k !in Missing(s);
    }
  }

  /** With two threads feeding the consumer, and nothing evicted or lost to an error, delivery
      followed by the backlog is all that either of them had accepted, once each and in order. */
  lemma EachSource(s: State, t: Thread)
    requires Inv(s) && !s.drain.Popping? && s.evicted == [] && s.lost == []
    ensures Below(s.delivered + s.outbound, |s.log|)
    ensures Chosen(t, s.log, s.delivered + s.outbound) == FramesFrom(t, s.log)
  {
    var q := s.delivered + s.outbound;
    NoneMissing(s);
    forall i, j | 0 <= i < j < |q| && s.log[q[i]].src == t && s.log[q[j]].src == t
      ensures q[i] < q[j]
    {
      if i < |s.delivered| <= j {
        assert AllBefore(s.log, s.delivered, s.outbound[j - |s.delivered|]);
      }
    }
    ChosenIsAll(t, s.log, q);
  }

  // ---------------------------------------------------------------- the first loss

  /** Nothing is evicted before more frames than the backlog holds have been accepted. */
  lemma FirstEviction(s: State)
    requires Inv(s)
    ensures s.evicted != [] ==> |s.log| > s.cap
  {
    if s.evicted != [] { assert |s.log| - 1 - s.evicted[0] >= s.cap; }
  }

  // ---------------------------------------------------------------- the end of the TX thread

  /** The step raises what the TX thread does not catch: promoting an fd that is no longer
      registered, or, on a datagram server, an unexpected error of a send. */
  predicate Kills(s: State, step: Step) {
    && Enabled(s, step)
    && match step
       case Append(t) => t.Tx? && s.tx.promote && !s.registered
       case Send(t, o) => t.Tx? && o.OtherError? && !s.stream
       case SendHead(o) => o.OtherError? && !s.stream
       case _ => false
  }

  lemma SendKills(s: State, t: Thread, o: Outcome)
    requires s.HandOf(t).Direct?
    ensures DoSend(s, t, o).txAlive <==> s.txAlive && !(t.Tx? && o.OtherError? && !s.stream)
    ensures DoSend(s, t, o).registered == s.registered
  {
    if o.WouldBlock? {
    } else if o.Took? {
    }
  }

  lemma SendHeadKills(s: State, o: Outcome)
    requires s.drain.Peeked?
    ensures DoSendHead(s, o).txAlive <==> s.txAlive && !(o.OtherError? && !s.stream)
    ensures DoSendHead(s, o).registered <==> s.registered && !Fatal(s.stream, o)
  {
    if o.Took? {
    } else if o.WouldBlock? {
    } else if Fatal(s.stream, o) {
    } else if o.Unreachable? {
    }
  }

  /** A step ends the TX thread if and only if it is one of these; and none brings a consumer back. */
  lemma DiesIff(s: State, step: Step)
    ensures Next(s, step).txAlive <==> s.txAlive && !Kills(s, step)
    ensures Next(s, step).registered ==> s.registered
  {
    if Enabled(s, step) {
      match step
      case Send(t, o) => SendKills(s, t, o);
      case SendHead(o) => SendHeadKills(s, o);
      case Append(t) =>
      case Demote => DemoteLives(s);
      case Pop => PopLives(s);
      case _ =>
    }
  }

  lemma DemoteLives(s: State)
    ensures DoDemote(s).txAlive == s.txAlive && DoDemote(s).registered == s.registered
  {
    if s.outbound == [] {}
  }

  lemma PopLives(s: State)
    requires s.drain.Popping?
    ensures DoPop(s).txAlive == s.txAlive && DoPop(s).registered == s.registered
  {
    if s.outbound == [] {}
  }

  ghost predicate KilledIn(s: State, steps: seq<Step>) {
    exists i :: 0 <= i < |steps| && Kills(After(s, steps, i), steps[i])
  }

  /** On every run the TX thread is gone if and only if one of its steps raised. */
  lemma {:induction false} DiesOnRunIff(s: State, steps: seq<Step>)
    requires s.txAlive
    ensures Run(s, steps).txAlive <==> !KilledIn(s, steps)
    decreases |steps|
  {
    if steps != [] {
      var front, n := steps[..|steps| - 1], |steps| - 1;
      DiesOnRunIff(s, front);
      DiesIff(Run(s, front), steps[n]);
      assert forall i {:trigger front[i]} {:trigger After(s, steps, i)} :: 0 <= i < n ==> steps[..i] == front[..i];
      if KilledIn(s, front) {
        var i :| 0 <= i < n && Kills(After(s, front, i), front[i]);
        assert Kills(After(s, steps, i), steps[i]);
      }
      if KilledIn(s, steps) {
        var i :| 0 <= i <= n && Kills(After(s, steps, i), steps[i]);
        if i < n { assert Kills(After(s, front, i), front[i]); }
      } else {
        assert After(s, steps, n) == Run(s, front);
      }
    }
  }

  /** On a stream server only the promotion of an unregistered consumer does that: while it is
      registered, no step of the relay for it ends the thread. */
  lemma {:induction false} StreamLives(s: State, steps: seq<Step>)
    requires s.stream && s.txAlive
    ensures Run(s, steps).registered ==> Run(s, steps).txAlive
    decreases |steps|
  {
    if steps != [] {
      var mid := Run(s, steps[..|steps| - 1]);
      StreamLives(s, steps[..|steps| - 1]);
      DiesIff(mid, steps[|steps| - 1]);
    }
  }
}
