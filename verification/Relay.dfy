/** One consumer of the relay as the two server threads see it: its bounded backlog, its
    `dropped` counter and the selector's interest in its socket, shared by the RX thread
    (bus frames) and the TX thread (loopback frames and the drain).

    Where one thread's statements rely on what it saw earlier, they are steps of their own, so
    every interleaving of the two threads at those points is a run of this machine: the backlog
    check, the fullness check and the append are three steps, as are the drain's peek, send and
    popleft. Three groups of statements are taken as one step each: the fullness check with
    `dropped += 1`, the append after a refused send with `selector.modify` (both under the
    selector lock), and the drain's last check with the demotion and the report (under the lock
    too, which a plain append does not take). The deque holds tickets: positions in the log of
    the frames accepted for the consumer. */
module Relay {
  import opened CanFrame

  datatype Thread = Rx | Tx

  /** A frame offered to the consumer: by which thread, and its place among that thread's offers. */
  datatype Item = Item(src: Thread, idx: nat, frame: Frame)

  /** How one call of the consumer's sender ends. */
  datatype Outcome =
    | Took         // the whole frame was accepted
    | WouldBlock   // TimeoutError or BlockingIOError
    | Reset        // broken pipe, connection reset or aborted
    | Unreachable  // ENOTCONN or ECONNREFUSED
    | OtherError   // any other OSError

  datatype Interest = ReadOnly | ReadWrite

  /** What a thread is doing with the frame it is forwarding to this consumer. */
  datatype Hand =
    | Resting
    | Direct(item: Item)                               // saw an empty backlog, calls the sender
    | Behind(item: Item, promote: bool)                // will append, has not looked at the length yet
    | Looked(item: Item, promote: bool, full: bool)    // has looked (and counted a drop if full)

  /** Where the TX thread is in the drain of this consumer. */
  datatype Drain =
    | Idle
    | Looping                          // at the head of `while outbound`
    | Entered                          // saw a non-empty backlog, will read `outbound[0]`
    | Peeked(head: nat)                // holds the head, calls the sender
    | Popping(head: nat, sent: bool)   // the send is over, `popleft` is next
    | Leaving                          // out of the loop, about to take the selector lock

  /** What the threads have done to the consumer's frames so far; no step depends on it. */
  datatype Past = Past(
    rxOffers: seq<Frame>,
    txOffers: seq<Frame>,
    log: seq<Item>,        // accepted frames, in acceptance order
    delivered: seq<nat>,
    lost: seq<nat>,        // the send failed for good
    evicted: seq<nat>,     // pushed out of a full deque
    raced: seq<nat>,       // popped in place of an evicted head
    reported: nat)         // sum of the `dropped` values logged on catching up

  datatype State = State(
    cap: nat,              // CONSUMER_BACKLOG_SIZE
    stream: bool,          // is_stream
    outbound: seq<nat>,
    dropped: nat,
    interest: Interest,
    registered: bool,
    closed: bool,          // in RX's closed_connections
    rx: Hand,
    tx: Hand,
    drain: Drain,
    rxAlive: bool,
    txAlive: bool,
    fault: bool,           // outbound[0] or popleft hit an empty deque
    past: Past)
  {
    const rxOffers := past.rxOffers
    const txOffers := past.txOffers
    const log := past.log
    const delivered := past.delivered
    const lost := past.lost
    const evicted := past.evicted
    const raced := past.raced
    const reported := past.reported

    function HandOf(t: Thread): Hand {
      if t.Rx? then rx else tx
    }

    function OffersOf(t: Thread): seq<Frame> {
      if t.Rx? then rxOffers else txOffers
    }

    function Alive(t: Thread): bool {
      if t.Rx? then rxAlive else txAlive
    }

    /** The RX thread's hand once `t` holds `h`. */
    function RxHand(t: Thread, h: Hand): Hand {
      if t.Rx? then h else rx
    }

    /** The TX thread's hand once `t` holds `h`. */
    function TxHand(t: Thread, h: Hand): Hand {
      if t.Tx? then h else tx
    }
  }

  function Init(cap: nat, stream: bool): State {
    State(cap, stream, [], 0, ReadOnly, true, false, Resting, Resting, Idle, true, true, false,
          Past([], [], [], [], [], [], [], 0))
  }

  datatype Step =
    | Offer(t: Thread, frame: Frame)   // `if outbound:`
    | Send(t: Thread, outcome: Outcome)
    | Look(t: Thread)                  // `if len(outbound) == backlog_size: note_dropped_frame`
    | Append(t: Thread)                // `outbound.append`, with `selector.modify` after a refused send
    | StartDrain
    | Enter                            // `while outbound` holds
    | Peek
    | SendHead(outcome: Outcome)
    | Pop
    | EndLoop                          // `while outbound` fails
    | Demote
    | ReadFails                        // recv raises, TX unregisters the consumer

  /** An error the sender's caller treats as the end of the connection. */
  predicate Fatal(stream: bool, o: Outcome) {
    o.Reset? || (stream && (o.Unreachable? || o.OtherError?))
  }

  predicate Enabled(s: State, step: Step) {
    match step
    case Offer(t, _) =>
      s.Alive(t) && s.HandOf(t).Resting? && (if t.Rx? then !s.closed else s.drain.Idle?)
    case Send(t, _) => s.Alive(t) && s.HandOf(t).Direct?
    case Look(t) => s.Alive(t) && s.HandOf(t).Behind?
    case Append(t) => s.Alive(t) && s.HandOf(t).Looked?
    case StartDrain =>
      s.txAlive && s.tx.Resting? && s.drain.Idle? && s.registered && s.interest.ReadWrite?
    case Enter => s.txAlive && s.drain.Looping? && s.outbound != []
    case Peek => s.txAlive && s.drain.Entered?
    case SendHead(_) => s.txAlive && s.drain.Peeked?
    case Pop => s.txAlive && s.drain.Popping?
    case EndLoop => s.txAlive && s.drain.Looping? && s.outbound == []
    case Demote => s.txAlive && s.drain.Leaving?
    case ReadFails => s.txAlive && s.tx.Resting? && s.drain.Idle? && s.registered
  }

  function DoOffer(s: State, t: Thread, frame: Frame): (r: State)
    ensures r.cap == s.cap && r.stream == s.stream
  {
    var item := Item(t, |s.OffersOf(t)|, frame);
    var h := if s.outbound == [] then Direct(item) else Behind(item, false);
    s.(rx := s.RxHand(t, h), tx := s.TxHand(t, h),
       past := if t.Rx? then s.past.(rxOffers := s.rxOffers + [frame])
               else s.past.(txOffers := s.txOffers + [frame]))
  }

  function DoSend(s: State, t: Thread, o: Outcome): (r: State)
    requires s.HandOf(t).Direct?
    ensures r.cap == s.cap && r.stream == s.stream
  {
    var item := s.HandOf(t).item;
    if o.WouldBlock? then
      var h := Behind(item, true);
      s.(rx := s.RxHand(t, h), tx := s.TxHand(t, h))
    else if o.Took? then
      s.(rx := s.RxHand(t, Resting), tx := s.TxHand(t, Resting),
         past := s.past.(log := s.log + [item], delivered := s.delivered + [|s.log|]))
    else
      var raised := o.OtherError? && !s.stream;
      s.(rx := s.RxHand(t, Resting), tx := s.TxHand(t, Resting),
         past := s.past.(log := s.log + [item], lost := s.lost + [|s.log|]),
         closed := s.closed || (t.Rx? && Fatal(s.stream, o)),
         rxAlive := s.rxAlive && !(raised && t.Rx?),
         txAlive := s.txAlive && !(raised && t.Tx?))
  }

  function DoLook(s: State, t: Thread): (r: State)
    requires s.HandOf(t).Behind?
    ensures r.cap == s.cap && r.stream == s.stream
  {
    var full := |s.outbound| == s.cap;
    var h := Looked(s.HandOf(t).item, s.HandOf(t).promote, full);
    s.(rx := s.RxHand(t, h), tx := s.TxHand(t, h), dropped := if full then s.dropped + 1 else s.dropped)
  }

  /** `deque(maxlen=cap).append`: a full deque drops its oldest element. */
  function Pushed(outbound: seq<nat>, cap: nat, x: nat): seq<nat> {
    if |outbound| >= cap && outbound != [] then outbound[1..] + [x] else outbound + [x]
  }

  function DoAppend(s: State, t: Thread): (r: State)
    requires s.HandOf(t).Looked?
    ensures r.cap == s.cap && r.stream == s.stream
  {
    var promote := s.HandOf(t).promote;
    var raised := promote && !s.registered;  // `selector.modify` raises KeyError
    s.(rx := s.RxHand(t, Resting), tx := s.TxHand(t, Resting),
       outbound := Pushed(s.outbound, s.cap, |s.log|),
       past := s.past.(
         log := s.log + [s.HandOf(t).item],
         evicted := if |s.outbound| >= s.cap && s.outbound != [] then s.evicted + [s.outbound[0]] else s.evicted),
       interest := if promote && s.registered then ReadWrite else s.interest,
       rxAlive := s.rxAlive && !(raised && t.Rx?),
       txAlive := s.txAlive && !(raised && t.Tx?))
  }

  function DoSendHead(s: State, o: Outcome): (r: State)
    requires s.drain.Peeked?
    ensures r.cap == s.cap && r.stream == s.stream
  {
    var h := s.drain.head;
    if o.Took? then s.(past := s.past.(delivered := s.delivered + [h]), drain := Popping(h, true))
    else if o.WouldBlock? then s.(drain := Leaving)
    else if Fatal(s.stream, o) then s.(registered := false, drain := Idle)
    else if o.Unreachable? then s.(past := s.past.(lost := s.lost + [h]), drain := Popping(h, false))
    else s.(txAlive := false, drain := Idle)
  }

  function DoPop(s: State): (r: State)
    requires s.drain.Popping?
    ensures r.cap == s.cap && r.stream == s.stream
  {
    if s.outbound == [] then s.(fault := true)
    else s.(outbound := s.outbound[1..], drain := Looping,
            past := if s.outbound[0] == s.drain.head then s.past
                    else s.past.(raced := s.raced + [s.outbound[0]]))
  }

  function DoDemote(s: State): (r: State)
    ensures r.cap == s.cap && r.stream == s.stream
  {
    if s.outbound == []
    then s.(drain := Idle, interest := ReadOnly, dropped := 0, past := s.past.(reported := s.reported + s.dropped))
    else s.(drain := Idle)
  }

  /** The state after `step`; a step that is not enabled changes nothing. */
  function Next(s: State, step: Step): (r: State)
    ensures r.cap == s.cap && r.stream == s.stream
  {
    if !Enabled(s, step) then s
    else match step
      case Offer(t, frame) => DoOffer(s, t, frame)
      case Send(t, o) => DoSend(s, t, o)
      case Look(t) => DoLook(s, t)
      case Append(t) => DoAppend(s, t)
      case StartDrain => s.(drain := Looping)
      case Enter => s.(drain := Entered)
      case Peek => if s.outbound == [] then s.(fault := true) else s.(drain := Peeked(s.outbound[0]))
      case SendHead(o) => DoSendHead(s, o)
      case Pop => DoPop(s)
      case EndLoop => s.(drain := Leaving)
      case Demote => DoDemote(s)
      case ReadFails => s.(registered := false)
  }

  /** The state a run ends in. */
  function Run(s: State, steps: seq<Step>): (r: State)
    ensures r.cap == s.cap && r.stream == s.stream
  {
    if steps == [] then s else Next(Run(s, steps[..|steps| - 1]), steps[|steps| - 1])
  }

  /** Every step of the run is one the threads can take where it stands. */
  predicate Legal(s: State, steps: seq<Step>) {
    steps == [] ||
    (Legal(s, steps[..|steps| - 1]) && Enabled(Run(s, steps[..|steps| - 1]), steps[|steps| - 1]))
  }

  lemma {:induction false} RunConcat(s: State, a: seq<Step>, b: seq<Step>)
    ensures Run(s, a + b) == Run(Run(s, a), b)
    ensures Legal(s, a + b) <==> Legal(s, a) && Legal(Run(s, a), b)
    decreases |b|
  {
    if b == [] {
      assert a + b == a;
    } else {
      var b' := b[..|b| - 1];
      RunConcat(s, a, b');
      assert (a + b)[..|a + b| - 1] == a + b';
    }
  }

  // ---------------------------------------------------------------- runs, state by state

  ghost predicate Moves(states: seq<State>, steps: seq<Step>, k: nat) {
    k < |steps| && k + 1 < |states| && Enabled(states[k], steps[k]) && states[k + 1] == Next(states[k], steps[k])
  }

  /** `states` are the states a legal run from `s0` passes through, ending in `r`. */
  ghost predicate Trace(s0: State, states: seq<State>, steps: seq<Step>, r: State) {
    && |states| == |steps| + 1 && states[0] == s0 && states[|steps|] == r
    && forall k {:trigger Moves(states, steps, k)} :: 0 <= k < |steps| ==> Moves(states, steps, k)
  }

  lemma TraceNext(s0: State, states: seq<State>, steps: seq<Step>, r: State, step: Step)
    requires Trace(s0, states, steps, r) && Enabled(r, step)
    ensures Trace(s0, states + [Next(r, step)], steps + [step], Next(r, step))
  {
    var states', steps' := states + [Next(r, step)], steps + [step];
    forall k | 0 <= k < |steps'|
      ensures Moves(states', steps', k)
    {
      if k < |steps| { assert Moves(states, steps, k); }
    }
  }

  lemma {:induction false} TraceRuns(s0: State, states: seq<State>, steps: seq<Step>, r: State)
    requires Trace(s0, states, steps, r)
    ensures Legal(s0, steps) && Run(s0, steps) == r
    decreases |steps|
  {
    if steps != [] {
      var front := steps[..|steps| - 1];
      assert Moves(states, steps, |front|);
      forall k | 0 <= k < |front|
        ensures Moves(states[..|steps|], front, k)
      {
        assert Moves(states, steps, k);
      }
      TraceRuns(s0, states[..|steps|], front, states[|front|]);
    }
  }
}
