/** 16-byte frames over a byte stream that may take, refuse or hand back any part of what it
    is asked for: the senders and receivers of the protocol module, and the sockets they meet. */
module Stream {
  import opened CanFrame

  datatype ErrorKind = ResetError | UnreachableError | OtherOsError

  /** What one call of a socket's `send` may do. */
  datatype Reply =
    | Accept(n: nat)           // takes at most n bytes
    | Refuse                   // TimeoutError or BlockingIOError, nothing taken
    | Fail(kind: ErrorKind)    // any other OSError, nothing taken

  /** A connected socket: `plan` is the schedule of its replies, `wire` what it has taken. */
  class SendSocket {
    const plan: nat -> Reply
    var calls: nat
    var wire: seq<Byte>

    constructor (plan: nat -> Reply)
      ensures this.plan == plan && calls == 0 && wire == []
    {
      this.plan := plan;
      calls := 0;
      wire := [];
    }

    /** `send` on a stream. */
    method Send(data: seq<Byte>) returns (r: Reply)
      modifies this
      ensures calls == old(calls) + 1
      ensures match plan(old(calls))
              case Accept(n) => r == Accept(if n < |data| then n else |data|)
              case other => r == other
      ensures wire == old(wire) + (if r.Accept? then data[..r.n] else [])
    {
      r := plan(calls);
      calls := calls + 1;
      if r.Accept? {
        r := Accept(if r.n < |data| then r.n else |data|);
        wire := wire + data[..r.n];
      }
    }

    /** `send` on a datagram socket: the whole message or nothing. */
    method SendWhole(data: seq<Byte>) returns (r: Reply)
      modifies this
      ensures calls == old(calls) + 1
      ensures r == plan(old(calls))
      ensures wire == old(wire) + (if r.Accept? then data else [])
    {
      r := plan(calls);
      calls := calls + 1;
      if r.Accept? {
        wire := wire + data;
      }
    }
  }

  // ---------------------------------------------------------------- sending

  /** How a frame sender ends: it returns, or raises. */
  datatype SendResult =
    | Sent
    | WouldBlock
    | Failed(kind: ErrorKind)
    | Desync                   // the sender's own OSError: stopped accepting data mid-frame

  const STREAM_SEND_ATTEMPTS: nat := 5

  /** The socket makes no progress on this call. */
  predicate Stalls(plan: nat -> Reply, call: nat) {
    plan(call).Refuse? || plan(call) == Accept(0)
  }

  /** Every `budget` consecutive calls in this range see some progress. */
  ghost predicate NeverStuck(plan: nat -> Reply, first: nat, end: nat, budget: nat) {
    forall c: nat :: first <= c && c + budget <= end ==> ProgressIn(plan, c, budget)
  }

  ghost predicate ProgressIn(plan: nat -> Reply, c: nat, budget: nat) {
    exists d: nat :: c <= d < c + budget && !Stalls(plan, d)
  }

  /** A schedule under which no frame is ever broken off: no call fails, and every five
      consecutive calls see some progress. */
  ghost predicate GoodWrites(plan: nat -> Reply) {
    forall c: nat :: GoodCall(plan, c)
  }

  ghost predicate GoodCall(plan: nat -> Reply, c: nat) {
    !plan(c).Fail? && ProgressIn(plan, c, STREAM_SEND_ATTEMPTS)
  }

  /** The socket does not refuse from some call on for ever. */
  ghost predicate TakesAgain(plan: nat -> Reply) {
    forall c: nat :: TakesFrom(plan, c)
  }

  ghost predicate TakesFrom(plan: nat -> Reply, c: nat) {
    exists d: nat :: c <= d && !plan(d).Refuse?
  }

  /** Why a send made with the calls from `first` up to `end` ended the way it did. */
  ghost predicate Explained(plan: nat -> Reply, r: SendResult, first: nat, end: nat) {
    && first < end
    && match r
       case Sent => NeverStuck(plan, first + 1, end, STREAM_SEND_ATTEMPTS) && forall c :: first <= c < end ==> !plan(c).Fail?
       case WouldBlock => end == first + 1 && plan(first).Refuse?
       case Failed(kind) => plan(end - 1) == Fail(kind)
       case Desync => end - first > STREAM_SEND_ATTEMPTS && StalledUpTo(plan, end)
  }

  /** The last five calls made no progress. */
  predicate StalledUpTo(plan: nat -> Reply, end: nat) {
    end >= STREAM_SEND_ATTEMPTS && forall c :: end - STREAM_SEND_ATTEMPTS <= c < end ==> Stalls(plan, c)
  }

  lemma GoodWritesGoThrough(plan: nat -> Reply, r: SendResult, first: nat, end: nat)
    requires GoodWrites(plan) && Explained(plan, r, first, end)
    ensures r.Sent? || r.WouldBlock?
  {
    assert GoodCall(plan, end - 1);
    if end >= STREAM_SEND_ATTEMPTS {
      assert GoodCall(plan, end - STREAM_SEND_ATTEMPTS);
    }
  }

  lemma GoodWritesTakeAgain(plan: nat -> Reply)
    requires GoodWrites(plan)
    ensures TakesAgain(plan)
  {
    forall c: nat
      ensures TakesFrom(plan, c)
    {
      assert GoodCall(plan, c);
      var d: nat :| c <= d < c + STREAM_SEND_ATTEMPTS && !Stalls(plan, d);
      assert !plan(d).Refuse?;
    }
  }

  function Budget(attempts: nat): nat {
    if attempts == 0 then 1 else attempts
  }

  /** How a frame send comes out: its result, the bytes taken, and the next call's number. */
  datatype Ending = Ending(r: SendResult, n: nat, calls: nat)

  /** Bytes a call takes of `room` offered. */
  function TakenBy(reply: Reply, room: nat): nat {
    if !reply.Accept? then 0 else if reply.n < room then reply.n else room
  }

  /** What a schedule makes of a frame `done` bytes of which are taken already. */
  function Completed(plan: nat -> Reply, call: nat, size: nat, done: nat, attempts: nat, remaining: int): Ending
    requires done <= size
    decreases size - done, remaining
  {
    if done == size then Ending(Sent, done, call)
    else if plan(call).Fail? then Ending(Failed(plan(call).kind), done, call + 1)
    else
      var k := TakenBy(plan(call), size - done);
      if k > 0 then Completed(plan, call + 1, size, done + k, attempts, attempts)
      else if remaining <= 1 then Ending(Desync, done, call + 1)
      else Completed(plan, call + 1, size, done, attempts, remaining - 1)
  }

  /** As many calls without progress as are left: the sender gives up where it is. */
  lemma {:induction false} StalledOut(plan: nat -> Reply, call: nat, size: nat, done: nat, attempts: nat, remaining: nat)
    requires done < size && remaining >= 1
    requires forall c :: call <= c < call + remaining ==> Stalls(plan, c)
    ensures Completed(plan, call, size, done, attempts, remaining) == Ending(Desync, done, call + remaining)
    decreases remaining
  {
    assert Stalls(plan, call);
    if remaining > 1 { StalledOut(plan, call + 1, size, done, attempts, remaining - 1); }
  }

  /** What a schedule makes of a frame sent on a stream, starting with call `first`. */
  function StreamEnding(plan: nat -> Reply, first: nat): Ending {
    match plan(first)
    case Refuse => Ending(WouldBlock, 0, first + 1)
    case Fail(kind) => Ending(Failed(kind), 0, first + 1)
    case Accept(_) =>
      Completed(plan, first + 1, FRAME_SIZE, TakenBy(plan(first), FRAME_SIZE), STREAM_SEND_ATTEMPTS, STREAM_SEND_ATTEMPTS)
  }

  /** The same for a datagram. */
  function DatagramEnding(plan: nat -> Reply, first: nat): Ending {
    match plan(first)
    case Refuse => Ending(WouldBlock, 0, first + 1)
    case Fail(kind) => Ending(Failed(kind), 0, first + 1)
    case Accept(_) => Ending(Sent, FRAME_SIZE, first + 1)
  }

  /** Calls without progress that are left. */
  function Left(remaining: int): nat {
    if remaining <= 1 then 1 else remaining
  }

  lemma {:induction false} CompletedResult(plan: nat -> Reply, call: nat, size: nat, done: nat, attempts: nat, remaining: int)
    requires done <= size
    ensures var e := Completed(plan, call, size, done, attempts, remaining);
            && done <= e.n <= size && call <= e.calls
            && !e.r.WouldBlock? && (e.r.Sent? <==> e.n == size)
            && (e.r.Failed? ==> e.calls > call && plan(e.calls - 1) == Fail(e.r.kind))
            && (e.r.Sent? ==> forall c :: call <= c < e.calls ==> !plan(c).Fail?)
    decreases size - done, remaining
  {
    if done < size && !plan(call).Fail? {
      var k := TakenBy(plan(call), size - done);
      if k > 0 {
        CompletedResult(plan, call + 1, size, done + k, attempts, attempts);
      } else if remaining > 1 {
        CompletedResult(plan, call + 1, size, done, attempts, remaining - 1);
      }
    }
  }

  lemma Room(b: nat, room: nat, k: nat)
    requires 1 <= k <= room
    ensures b * (room - k) <= b * (room - 1)
    ensures b * room == b * (room - 1) + b
  {
    assert b * (room - 1) == b * (room - k) + b * (k - 1);
  }

  /** At most `attempts` calls for every byte that is left. */
  lemma {:induction false} CompletedIsBounded(plan: nat -> Reply, call: nat, size: nat, done: nat, attempts: nat, remaining: int)
    requires done <= size && Left(remaining) <= Budget(attempts)
    ensures var e := Completed(plan, call, size, done, attempts, remaining);
            done < size ==> e.calls - call <= Budget(attempts) * (size - done - 1) + Left(remaining)
    ensures var e := Completed(plan, call, size, done, attempts, remaining);
            e.calls - call <= Budget(attempts) * (size - done)
    decreases size - done, remaining
  {
    if done < size {
      var b, k := Budget(attempts), TakenBy(plan(call), size - done);
      Room(b, size - done, 1);
      if !plan(call).Fail? {
        if k > 0 {
          CompletedIsBounded(plan, call + 1, size, done + k, attempts, attempts);
          Room(b, size - done, k);
        } else if remaining > 1 {
          CompletedIsBounded(plan, call + 1, size, done, attempts, remaining - 1);
        }
      }
    }
  }

  /** The calls since `start` never stalled as often as it takes to give up, and the last of them
      stalled as often as is no longer left. */
  ghost predicate Trying(plan: nat -> Reply, start: nat, call: nat, attempts: nat, remaining: int) {
    var b, since := Budget(attempts), call - (Budget(attempts) - Left(remaining));
    && Left(remaining) <= b && start <= since
    && (forall c :: since <= c < call ==> Stalls(plan, c))
    && (since > start ==> !Stalls(plan, since - 1))
    && NeverStuck(plan, start, call, b)
  }

  lemma TryingOn(plan: nat -> Reply, start: nat, call: nat, attempts: nat, remaining: int)
    requires Trying(plan, start, call, attempts, remaining)
    requires if Stalls(plan, call) then remaining > 1 else true
    ensures Trying(plan, start, call + 1, attempts, if Stalls(plan, call) then remaining - 1 else attempts)
  {
    var b := Budget(attempts);
    forall c: nat | start <= c && c + b <= call + 1
      ensures ProgressIn(plan, c, b)
    {
      if c + b == call + 1 {
        if Stalls(plan, call) {
          assert !Stalls(plan, call - (b - Left(remaining)) - 1);
        } else {
          assert c <= call < c + b;
        }
      }
    }
  }

  /** It gives up only after `attempts` consecutive calls without progress, and otherwise never
      saw as many. */
  lemma {:induction false} CompletedTries(plan: nat -> Reply, start: nat, call: nat, size: nat, done: nat, attempts: nat, remaining: int)
    requires done <= size && Trying(plan, start, call, attempts, remaining) && (done == size ==> remaining == attempts)
    ensures var e := Completed(plan, call, size, done, attempts, remaining);
            && (e.r.Sent? ==> NeverStuck(plan, start, e.calls, Budget(attempts)))
            && (e.r.Desync? ==>
                  e.calls - start >= Budget(attempts)
                  && forall c :: e.calls - Budget(attempts) <= c < e.calls ==> Stalls(plan, c))
    decreases size - done, remaining
  {
    if done < size && !plan(call).Fail? {
      var k := TakenBy(plan(call), size - done);
      if k > 0 {
        TryingOn(plan, start, call, attempts, remaining);
        CompletedTries(plan, start, call + 1, size, done + k, attempts, attempts);
      } else if remaining > 1 {
        TryingOn(plan, start, call, attempts, remaining);
        CompletedTries(plan, start, call + 1, size, done, attempts, remaining - 1);
      }
    }
  }

  /** `_complete_send`: finishes a frame the socket took `sent` bytes of. It never reports
      WOULD_BLOCK, makes at most `attempts` calls for every byte that was left, and gives up
      on its own only after `attempts` consecutive calls without progress. */
  method CompleteSend(sock: SendSocket, payload: seq<Byte>, sent: nat, attempts: nat)
    returns (r: SendResult, ghost reached: nat)
    requires sent <= |payload|
    modifies sock
    ensures Ending(r, reached, sock.calls) == Completed(sock.plan, old(sock.calls), |payload|, sent, attempts, attempts)
    ensures sent <= reached <= |payload|
    ensures sock.wire == old(sock.wire) + payload[sent..reached]
    ensures !r.WouldBlock? && (r.Sent? <==> reached == |payload|)
    ensures sock.calls >= old(sock.calls)
    ensures sock.calls - old(sock.calls) <= Budget(attempts) * (|payload| - sent)
    ensures r.Sent? ==>
              (forall c :: old(sock.calls) <= c < sock.calls ==> !sock.plan(c).Fail?)
              && NeverStuck(sock.plan, old(sock.calls), sock.calls, Budget(attempts))
    ensures r.Failed? ==> sock.calls > old(sock.calls) && sock.plan(sock.calls - 1) == Fail(r.kind)
    ensures r.Desync? ==>
              sock.calls - old(sock.calls) >= Budget(attempts)
              && forall c :: sock.calls - Budget(attempts) <= c < sock.calls ==> Stalls(sock.plan, c)
  {
    CompletedResult(sock.plan, sock.calls, |payload|, sent, attempts, attempts);
    CompletedIsBounded(sock.plan, sock.calls, |payload|, sent, attempts, attempts);
    CompletedTries(sock.plan, sock.calls, sock.calls, |payload|, sent, attempts, attempts);
    r, reached := FinishSend(sock, payload, sent, attempts);
  }

  /** The loop of `_complete_send`. */
  method FinishSend(sock: SendSocket, payload: seq<Byte>, sent: nat, attempts: nat)
    returns (r: SendResult, ghost reached: nat)
    requires sent <= |payload|
    modifies sock
    ensures Ending(r, reached, sock.calls) == Completed(sock.plan, old(sock.calls), |payload|, sent, attempts, attempts)
    ensures sent <= reached <= |payload| && sock.wire == old(sock.wire) + payload[sent..reached]
  {
    ghost var start := sock.calls;
    var done := sent;
    var remaining: int := attempts;
    while done < |payload|
      invariant sent <= done <= |payload|
      invariant sock.wire == old(sock.wire) + payload[sent..done]
      invariant Completed(sock.plan, start, |payload|, sent, attempts, attempts)
             == Completed(sock.plan, sock.calls, |payload|, done, attempts, remaining)
      decreases |payload| - done, remaining
    {
      var reply := sock.Send(payload[done..]);
      if reply.Fail? {
        return Failed(reply.kind), done;
      }
      var written := if reply.Accept? then reply.n else 0;
      if written > 0 {
        assert payload[sent..done + written] == payload[sent..done] + payload[done..][..written];
        done, remaining := done + written, attempts;
        continue;
      }
      remaining := remaining - 1;
      if remaining <= 0 {
        return Desync, done;
      }
    }
    return Sent, done;
  }

  lemma CompletedExplains(plan: nat -> Reply, first: nat, size: nat, k: nat, attempts: nat)
    requires k <= size && attempts == STREAM_SEND_ATTEMPTS && plan(first).Accept?
    ensures var e := Completed(plan, first + 1, size, k, attempts, attempts);
            && e.n <= size && (e.r.Sent? <==> e.n == size) && !e.r.WouldBlock?
            && first < e.calls && Explained(plan, e.r, first, e.calls)
  {
    CompletedResult(plan, first + 1, size, k, attempts, attempts);
    CompletedTries(plan, first + 1, first + 1, size, k, attempts, attempts);
  }

  /** All 16 bytes are taken, or the first call was refused and none were, or the send failed,
      and then the calls it made say why; and a good schedule never makes it fail. */
  lemma StreamEndingMeans(plan: nat -> Reply, first: nat)
    ensures var e := StreamEnding(plan, first);
            && e.n <= FRAME_SIZE && (e.r.Sent? <==> e.n == FRAME_SIZE)
            && (e.r.WouldBlock? <==> plan(first).Refuse?) && (e.r.WouldBlock? ==> e.n == 0)
            && first < e.calls && Explained(plan, e.r, first, e.calls)
            && (GoodWrites(plan) ==> e.r.Sent? || e.r.WouldBlock?)
  {
    var e := StreamEnding(plan, first);
    if plan(first).Accept? {
      CompletedExplains(plan, first, FRAME_SIZE, TakenBy(plan(first), FRAME_SIZE), STREAM_SEND_ATTEMPTS);
    }
    if GoodWrites(plan) { GoodWritesGoThrough(plan, e.r, first, e.calls); }
  }

  lemma StreamEndingIsBounded(plan: nat -> Reply, first: nat)
    ensures StreamEnding(plan, first).calls <= first + 1 + STREAM_SEND_ATTEMPTS * FRAME_SIZE
  {
    if plan(first).Accept? {
      BoundedCalls(plan, first + 1, FRAME_SIZE, TakenBy(plan(first), FRAME_SIZE), STREAM_SEND_ATTEMPTS);
    }
  }

  lemma BoundedCalls(plan: nat -> Reply, call: nat, size: nat, k: nat, attempts: nat)
    requires k <= size && attempts > 0
    ensures Completed(plan, call, size, k, attempts, attempts).calls <= call + attempts * size
  {
    CompletedIsBounded(plan, call, size, k, attempts, attempts);
    assert attempts * size == attempts * (size - k) + attempts * k;
  }

  /** One framed payload: the socket's first answer, completed if it was a partial one. */
  method SendPayload(sock: SendSocket, payload: seq<Byte>) returns (r: SendResult, ghost n: nat)
    requires |payload| == FRAME_SIZE
    modifies sock
    ensures Ending(r, n, sock.calls) == StreamEnding(sock.plan, old(sock.calls))
    ensures n <= FRAME_SIZE && sock.wire == old(sock.wire) + payload[..n]
  {
    var reply := sock.Send(payload);
    match reply {
      case Refuse => return WouldBlock, 0;
      case Fail(kind) => return Failed(kind), 0;
      case Accept(sent) =>
        if sent < FRAME_SIZE {
          r, n := CompleteSend(sock, payload, sent, STREAM_SEND_ATTEMPTS);
          assert payload[..n] == payload[..sent] + payload[sent..n];
        } else {
          r, n := Sent, FRAME_SIZE;
        }
    }
  }

  /** `_socketcan_send_stream`: all 16 bytes are written, or the send was refused outright with
      none written, or it failed - by an error, or by five calls without progress inside the
      frame, and for no other reason. */
  method SendStream(sock: SendSocket, f: Frame) returns (r: SendResult, ghost n: nat)
    requires Sendable(f)
    modifies sock
    ensures Ending(r, n, sock.calls) == StreamEnding(sock.plan, old(sock.calls))
    ensures n <= FRAME_SIZE && sock.wire == old(sock.wire) + EncodingOf(f)[..n]
    ensures r.Sent? <==> n == FRAME_SIZE
    ensures r.WouldBlock? <==> sock.plan(old(sock.calls)).Refuse?
    ensures r.WouldBlock? ==> n == 0
    ensures old(sock.calls) < sock.calls <= old(sock.calls) + 1 + STREAM_SEND_ATTEMPTS * FRAME_SIZE
    ensures Explained(sock.plan, r, old(sock.calls), sock.calls)
    ensures GoodWrites(sock.plan) ==> r.Sent? || r.WouldBlock?
  {
    StreamEndingMeans(sock.plan, sock.calls);
    StreamEndingIsBounded(sock.plan, sock.calls);
    r, n := SendPayload(sock, EncodingOf(f));
  }

  /** `_socketcan_send`, on a datagram socket: the payload goes out whole or not at all. */
  method SendDatagram(sock: SendSocket, payload: seq<Byte>) returns (r: SendResult, ghost n: nat)
    requires |payload| == FRAME_SIZE
    modifies sock
    ensures Ending(r, n, sock.calls) == DatagramEnding(sock.plan, old(sock.calls))
    ensures !r.Desync? && n == (if r.Sent? then FRAME_SIZE else 0)
    ensures sock.wire == old(sock.wire) + payload[..n]
    ensures sock.calls == old(sock.calls) + 1 && Explained(sock.plan, r, old(sock.calls), sock.calls)
    ensures r.WouldBlock? <==> sock.plan(old(sock.calls)).Refuse?
  {
    var reply := sock.SendWhole(payload);
    match reply {
      case Refuse => r, n := WouldBlock, 0;
      case Fail(kind) => r, n := Failed(kind), 0;
      case Accept(_) =>
        r, n := Sent, FRAME_SIZE;
        assert payload[..n] == payload;
    }
  }

  predicate AllSendable(fs: seq<Frame>) {
    forall i :: 0 <= i < |fs| ==> Sendable(fs[i])
  }

  /** `b"".join(chunks)`. */
  function Join(chunks: seq<seq<Byte>>): seq<Byte> {
    if chunks == [] then [] else Join(chunks[..|chunks| - 1]) + chunks[|chunks| - 1]
  }

  predicate WholeFrames(blocks: seq<seq<Byte>>) {
    forall i :: 0 <= i < |blocks| ==> |blocks[i]| == FRAME_SIZE
  }

  function Encodings(fs: seq<Frame>): (blocks: seq<seq<Byte>>)
    requires AllSendable(fs)
    ensures |blocks| == |fs| && WholeFrames(blocks)
  {
    seq(|fs|, i requires 0 <= i < |fs| => EncodingOf(fs[i]))
  }

  function EncodingOf(f: Frame): (cf: seq<Byte>)
    requires Sendable(f)
    ensures Encode(f) == Bytes(cf) && |cf| == FRAME_SIZE
  {
    EncodeSucceeds(f);
    Encode(f).bytes
  }

  /** What a run of whole frames looks like on the wire. */
  function EncodeAll(fs: seq<Frame>): seq<Byte>
    requires AllSendable(fs)
  {
    Join(Encodings(fs))
  }

  lemma JoinNext(blocks: seq<seq<Byte>>, k: nat)
    requires k < |blocks|
    ensures Join(blocks[..k + 1]) == Join(blocks[..k]) + blocks[k]
  {
    assert blocks[..k + 1][..k] == blocks[..k];
  }

  lemma EncodingsPrefix(fs: seq<Frame>, k: nat)
    requires AllSendable(fs) && k <= |fs|
    ensures Join(Encodings(fs)[..k]) == EncodeAll(fs[..k])
  {
    assert Encodings(fs)[..k] == Encodings(fs[..k]);
  }

  lemma {:induction false} JoinLength(blocks: seq<seq<Byte>>)
    requires WholeFrames(blocks)
    ensures |Join(blocks)| == FRAME_SIZE * |blocks|
  {
    if blocks != [] { JoinLength(blocks[..|blocks| - 1]); }
  }

  /** Sends every payload, offering one again exactly when it was refused outright. */
  method SendBlocks(sock: SendSocket, blocks: seq<seq<Byte>>)
    returns (r: SendResult, sent: nat, ghost partial: seq<Byte>, ghost last: nat)
    requires WholeFrames(blocks) && TakesAgain(sock.plan)
    modifies sock
    ensures sent <= |blocks| && |partial| < FRAME_SIZE
    ensures sock.wire == old(sock.wire) + Join(blocks[..sent]) + partial
    ensures !r.WouldBlock? && (r.Sent? <==> sent == |blocks|) && (r.Sent? ==> partial == [])
    ensures !r.Sent? ==> old(sock.calls) <= last && Explained(sock.plan, r, last, sock.calls)
    ensures GoodWrites(sock.plan) ==> r.Sent?
  {
    sent := 0;
    partial, last := [], sock.calls;
    assert TakesFrom(sock.plan, sock.calls);
    ghost var taken: nat :| sock.calls <= taken && !sock.plan(taken).Refuse?;
    while sent < |blocks|
      invariant sent <= |blocks| && old(sock.calls) <= sock.calls
      invariant sock.wire == old(sock.wire) + Join(blocks[..sent])
      invariant sock.calls <= taken && !sock.plan(taken).Refuse?
      decreases |blocks| - sent, taken - sock.calls
    {
      ghost var n: nat;
      last := sock.calls;
      StreamEndingMeans(sock.plan, sock.calls);
      r, n := SendPayload(sock, blocks[sent]);
      if r.WouldBlock? {
        continue;
      }
      if !r.Sent? {
        partial := blocks[sent][..n];
        return;
      }
      JoinNext(blocks, sent);
      sent := sent + 1;
      assert TakesFrom(sock.plan, sock.calls);
      taken :| sock.calls <= taken && !sock.plan(taken).Refuse?;
    }
    r := Sent;
  }

  /** Sends every frame in turn. However the socket splits, stalls and refuses, what is on the
      wire is whole frames in order, but for the beginning of the one the connection died in;
      and it only dies of a failing call or of five calls without progress inside a frame. */
  method SendAll(sock: SendSocket, frames: seq<Frame>)
    returns (r: SendResult, sent: nat, ghost partial: seq<Byte>, ghost last: nat)
    requires AllSendable(frames) && TakesAgain(sock.plan)
    modifies sock
    ensures sent <= |frames| && |partial| < FRAME_SIZE
    ensures sock.wire == old(sock.wire) + EncodeAll(frames[..sent]) + partial
    ensures !r.WouldBlock? && (r.Sent? <==> sent == |frames|) && (r.Sent? ==> partial == [])
    ensures !r.Sent? ==> old(sock.calls) <= last && Explained(sock.plan, r, last, sock.calls)
    ensures GoodWrites(sock.plan) ==> r.Sent?
  {
    r, sent, partial, last := SendBlocks(sock, Encodings(frames));
    EncodingsPrefix(frames, sent);
  }

  // ---------------------------------------------------------------- receiving

  datatype ReadReply = Give(n: nat) | ReadFail

  /** The reading end of a connection that carries `wire` and is then closed. */
  class RecvSocket {
    const wire: seq<Byte>
    const plan: nat -> ReadReply
    var calls: nat
    var pos: nat

    constructor (wire: seq<Byte>, plan: nat -> ReadReply)
      ensures this.wire == wire && this.plan == plan && calls == 0 && pos == 0
    {
      this.wire := wire;
      this.plan := plan;
      calls, pos := 0, 0;
    }

    /** `recv(size)`: some of the bytes that follow, none only at the end of the stream. */
    method Recv(size: nat) returns (ok: bool, chunk: seq<Byte>)
      requires size > 0 && pos <= |wire|
      modifies this
      ensures calls == old(calls) + 1
      ensures ok <==> !plan(old(calls)).ReadFail?
      ensures old(pos) <= pos <= |wire| && chunk == wire[old(pos)..pos] && |chunk| <= size
      ensures !ok ==> chunk == []
      ensures ok ==> (chunk == [] <==> old(pos) == |wire|)
    {
      var reply := plan(calls);
      calls := calls + 1;
      if reply.ReadFail? {
        return false, [];
      }
      var most := if size < |wire| - pos then size else |wire| - pos;
      var k := if reply.n > most then most else if reply.n == 0 && most > 0 then 1 else reply.n;
      ok, chunk := true, wire[pos..pos + k];
      pos := pos + k;
    }
  }

  /** A schedule of reads without an error. */
  ghost predicate GoodReads(plan: nat -> ReadReply) {
    forall c: nat :: !plan(c).ReadFail?
  }

  datatype RecvResult =
    | Got(frame: Frame)
    | Closed       // the peer closed between two frames
    | CutOff       // the peer closed inside a frame
    | ReadError

  /** `_complete_frame`: reads on until `size` bytes are together, or the stream ends or fails. */
  method CompleteFrame(sock: RecvSocket, first: seq<Byte>, size: nat)
    returns (ok: bool, cf: seq<Byte>, failed: bool)
    requires |first| <= size && sock.pos <= |sock.wire|
    modifies sock
    ensures old(sock.pos) <= sock.pos <= |sock.wire| && old(sock.calls) <= sock.calls
    ensures ok ==> |cf| == size && cf == first + sock.wire[old(sock.pos)..sock.pos]
    ensures !ok && failed ==> sock.calls > old(sock.calls) && sock.plan(sock.calls - 1).ReadFail?
    ensures !ok && !failed ==> |first| + |sock.wire| - old(sock.pos) < size && sock.pos == |sock.wire|
  {
    var chunks := [first];
    var received := |first|;
    assert Join(chunks[..0]) == [];
    while received < size
      invariant old(sock.pos) <= sock.pos <= |sock.wire| && old(sock.calls) <= sock.calls
      invariant |first| <= received <= size && received == |first| + sock.pos - old(sock.pos)
      invariant Join(chunks) == first + sock.wire[old(sock.pos)..sock.pos]
      decreases size - received
    {
      ghost var before := sock.pos;
      var good, chunk := sock.Recv(size - received);
      if !good {
        return false, [], true;
      }
      if chunk == [] {
        return false, [], false;
      }
      assert (chunks + [chunk])[..|chunks|] == chunks;
      assert sock.wire[old(sock.pos)..sock.pos] == sock.wire[old(sock.pos)..before] + chunk;
      chunks := chunks + [chunk];
      received := received + |chunk|;
    }
    return true, Join(chunks), false;
  }

  /** `_socketcan_recv_stream`: one frame, taken from exactly the next 16 bytes. */
  method RecvStream(sock: RecvSocket) returns (r: RecvResult)
    requires sock.pos <= |sock.wire|
    modifies sock
    ensures old(sock.pos) <= sock.pos <= |sock.wire| && old(sock.calls) <= sock.calls
    ensures r.Got? ==> sock.pos == old(sock.pos) + FRAME_SIZE
                       && r.frame == Decode(sock.wire[old(sock.pos)..sock.pos])
    ensures r.Closed? ==> old(sock.pos) == |sock.wire|
    ensures r.CutOff? ==> 0 < |sock.wire| - old(sock.pos) < FRAME_SIZE
    ensures r.ReadError? ==> sock.calls > old(sock.calls) && sock.plan(sock.calls - 1).ReadFail?
  {
    var good, cf := sock.Recv(FRAME_SIZE);
    if !good {
      return ReadError;
    }
    if cf == [] {
      return Closed;
    }
    if |cf| < FRAME_SIZE {
      ghost var mid := sock.pos;
      var ok, whole, failed := CompleteFrame(sock, cf, FRAME_SIZE);
      if !ok {
        return if failed then ReadError else CutOff;
      }
      assert whole == sock.wire[old(sock.pos)..sock.pos];
      cf := whole;
    }
    return Got(Decode(cf));
  }

  /** The frames a byte stream spells, ignoring an unfinished one at the end. */
  function DecodeAll(w: seq<Byte>): seq<Frame> {
    if |w| < FRAME_SIZE then [] else [Decode(w[..FRAME_SIZE])] + DecodeAll(w[FRAME_SIZE..])
  }

  lemma GotNext(wire: seq<Byte>, before: nat, pos: nat, frames: seq<Frame>, f: Frame)
    requires pos == before + FRAME_SIZE <= |wire| && f == Decode(wire[before..pos])
    ensures frames + DecodeAll(wire[before..]) == (frames + [f]) + DecodeAll(wire[pos..])
  {
    var rest := wire[before..];
    assert rest[..FRAME_SIZE] == wire[before..pos] && rest[FRAME_SIZE..] == wire[pos..];
  }

  /** Receives until the stream ends or fails. The read position is a whole number of frames
      on after every frame, so what is received is what the stream spells. */
  method RecvAll(sock: RecvSocket) returns (frames: seq<Frame>, last: RecvResult)
    requires sock.pos <= |sock.wire|
    modifies sock
    ensures !last.Got?
    ensures old(sock.pos) + FRAME_SIZE * |frames| <= sock.pos <= |sock.wire|
    ensures frames + DecodeAll(sock.wire[old(sock.pos) + FRAME_SIZE * |frames|..])
            == DecodeAll(sock.wire[old(sock.pos)..])
    ensures !last.ReadError? ==> frames == DecodeAll(sock.wire[old(sock.pos)..])
    ensures last.ReadError? ==> sock.calls > old(sock.calls) && sock.plan(sock.calls - 1).ReadFail?
  {
    frames := [];
    ghost var all := DecodeAll(sock.wire[sock.pos..]);
    while true
      invariant sock.pos == old(sock.pos) + FRAME_SIZE * |frames| && sock.pos <= |sock.wire|
      invariant frames + DecodeAll(sock.wire[sock.pos..]) == all
      invariant old(sock.calls) <= sock.calls
      decreases |sock.wire| - sock.pos
    {
      ghost var before := sock.pos;
      last := RecvStream(sock);
      if !last.Got? {
        return;
      }
      GotNext(sock.wire, before, sock.pos, frames, last.frame);
      frames := frames + [last.frame];
    }
  }

  // ---------------------------------------------------------------- end to end

  /** What the receiver makes of each frame. */
  function ReceivedAll(fs: seq<Frame>): (r: seq<Frame>)
    ensures |r| == |fs| && forall i :: 0 <= i < |fs| ==> r[i] == Received(fs[i])
  {
    seq(|fs|, i requires 0 <= i < |fs| => Received(fs[i]))
  }

  lemma {:induction false} DecodeAppend(w: seq<Byte>, cf: seq<Byte>, tail: seq<Byte>)
    requires |w| % FRAME_SIZE == 0 && |cf| == FRAME_SIZE && |tail| < FRAME_SIZE
    ensures DecodeAll(w + cf + tail) == DecodeAll(w) + [Decode(cf)]
    decreases |w|
  {
    var all := w + cf + tail;
    if w == [] {
      assert all[..FRAME_SIZE] == cf && all[FRAME_SIZE..] == tail;
    } else {
      DecodeAppend(w[FRAME_SIZE..], cf, tail);
      assert all[..FRAME_SIZE] == w[..FRAME_SIZE];
      assert all[FRAME_SIZE..] == w[FRAME_SIZE..] + cf + tail;
    }
  }

  function Decodings(blocks: seq<seq<Byte>>): seq<Frame>
    requires WholeFrames(blocks)
  {
    seq(|blocks|, i requires 0 <= i < |blocks| => Decode(blocks[i]))
  }

  lemma {:induction false} DecodeJoin(blocks: seq<seq<Byte>>, tail: seq<Byte>)
    requires WholeFrames(blocks) && |tail| < FRAME_SIZE
    ensures DecodeAll(Join(blocks) + tail) == Decodings(blocks)
    decreases |blocks|
  {
    if blocks == [] {
      assert Join(blocks) + tail == tail;
    } else {
      var front, last := blocks[..|blocks| - 1], blocks[|blocks| - 1];
      DecodeJoin(front, []);
      JoinLength(front);
      assert Join(front) + [] == Join(front);
      DecodeAppend(Join(front), last, tail);
      assert Decodings(blocks) == Decodings(front) + [Decode(last)];
    }
  }

  /** Decoding undoes encoding, frame by frame, whatever unfinished frame follows. */
  lemma {:induction false} DecodeEncodeAll(fs: seq<Frame>, tail: seq<Byte>)
    requires AllSendable(fs) && |tail| < FRAME_SIZE
    ensures DecodeAll(EncodeAll(fs) + tail) == ReceivedAll(fs)
  {
    var blocks := Encodings(fs);
    DecodeJoin(blocks, tail);
    forall i | 0 <= i < |fs|
      ensures Decode(blocks[i]) == Received(fs[i])
    {
      DecodeEncode(fs[i]);
    }
    assert Decodings(blocks) == ReceivedAll(fs);
  }

  /** Whatever a receiver makes of a stream, those are the frames that were sent, in order. */
  lemma ReceivedIsSent(fs: seq<Frame>, partial: seq<Byte>, wire: seq<Byte>, got: seq<Frame>)
    requires AllSendable(fs) && |partial| < FRAME_SIZE && wire == EncodeAll(fs) + partial
    requires FRAME_SIZE * |got| <= |wire|
    requires got + DecodeAll(wire[FRAME_SIZE * |got|..]) == DecodeAll(wire)
    ensures DecodeAll(wire) == ReceivedAll(fs)
    ensures |got| <= |fs| && got == ReceivedAll(fs[..|got|])
  {
    DecodeEncodeAll(fs, partial);
    var all := got + DecodeAll(wire[FRAME_SIZE * |got|..]);
    assert |all| == |fs|;
    forall i | 0 <= i < |got|
      ensures got[i] == Received(fs[i])
    {
      assert all[i] == got[i];
    }
  }

  /** The receiving end of a connection that carried `fs` and was then cut inside `partial`. */
  method Receive(wire: seq<Byte>, readPlan: nat -> ReadReply, ghost fs: seq<Frame>, ghost partial: seq<Byte>)
    returns (received: seq<Frame>, end: RecvResult, ghost calls: nat)
    requires AllSendable(fs) && |partial| < FRAME_SIZE && wire == EncodeAll(fs) + partial
    ensures !end.Got? && (!end.ReadError? ==> received == ReceivedAll(fs))
    ensures |received| <= |fs| && received == ReceivedAll(fs[..|received|])
    ensures end.ReadError? ==> calls > 0 && readPlan(calls - 1).ReadFail?
    ensures GoodReads(readPlan) ==> !end.ReadError?
  {
    var receiver := new RecvSocket(wire, readPlan);
    received, end := RecvAll(receiver);
    calls := receiver.calls;
    assert GoodReads(readPlan) && calls > 0 ==> !readPlan(calls - 1).ReadFail?;
    assert wire[0..] == wire;
    ReceivedIsSent(fs, partial, wire, received);
  }

  /** From one end to the other: for every schedule of partial, stalled and refused writes and of
      partial reads, the receiver gets exactly the frames that were sent whole, in order; and
      that is all of them unless a call failed or a frame saw five calls without progress. */
  method Transfer(frames: seq<Frame>, sendPlan: nat -> Reply, readPlan: nat -> ReadReply)
    returns (received: seq<Frame>, sent: nat, outcome: SendResult, end: RecvResult,
             ghost first: nat, ghost writes: nat, ghost readings: nat)
    requires AllSendable(frames) && TakesAgain(sendPlan)
    ensures sent <= |frames| && (outcome.Sent? <==> sent == |frames|)
    ensures !outcome.Sent? ==> !outcome.WouldBlock? && Explained(sendPlan, outcome, first, writes)
    ensures !end.ReadError? ==> received == ReceivedAll(frames[..sent])
    ensures end.ReadError? ==> readings > 0 && readPlan(readings - 1).ReadFail?
    ensures |received| <= sent && received == ReceivedAll(frames[..|received|])
    ensures GoodWrites(sendPlan) && GoodReads(readPlan) ==> outcome.Sent? && received == ReceivedAll(frames)
  {
    var sender := new SendSocket(sendPlan);
    ghost var partial;
    outcome, sent, partial, first := SendAll(sender, frames);
    writes := sender.calls;
    received, end, readings := Receive(sender.wire, readPlan, frames[..sent], partial);
    assert frames[..sent][..|received|] == frames[..|received|];
    assert sent == |frames| ==> frames[..sent] == frames;
  }
}
