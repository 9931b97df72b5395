/** The pacing of frames the TX thread sends to the bus: with a contention time configured,
    recorded send times are at least that far apart however the clock and the sleep behave. */
module Pacing {
  import opened Wrappers
  import opened Bits
  import opened CanFrame

  /** `time.monotonic_ns` and `time.sleep`: an arbitrary time passes before every reading, which
      includes whatever selection took, and a sleep lasts as long as asked or arbitrarily longer. */
  class Clock {
    const elapse: nat -> nat
    const oversleep: nat -> nat
    var calls: nat
    var now: nat

    constructor (elapse: nat -> nat, oversleep: nat -> nat, now: nat)
      ensures this.elapse == elapse && this.oversleep == oversleep && this.now == now && calls == 0
    {
      this.elapse, this.oversleep, this.now, calls := elapse, oversleep, now, 0;
    }

    method Monotonic() returns (t: nat)
      modifies this
      ensures t == now == old(now) + elapse(old(calls)) && calls == old(calls) + 1
    {
      now, calls := now + elapse(calls), calls + 1;
      t := now;
    }

    method Sleep(ns: nat)
      modifies this
      ensures now == old(now) + ns + oversleep(old(calls)) && calls == old(calls) + 1
    {
      now, calls := now + ns + oversleep(calls), calls + 1;
    }
  }

  ghost predicate Spaced(times: seq<nat>, gap: nat) {
    forall i :: 0 <= i < |times| - 1 ==> times[i] + gap <= times[i + 1]
  }

  /** The bus side of the TX loop; `times` are the values `last_sent` took. */
  class BusSender {
    const contention: Option<nat>   // contention_time_ns
    const clock: Clock
    var lastSent: nat
    var sent: seq<Frame>
    ghost var times: seq<nat>

    ghost predicate Valid()
      reads this, clock
    {
      contention.Some? && contention.value > 0 ==>
        && |times| == |sent| && Spaced(times, contention.value)
        && (times != [] ==> lastSent == times[|times| - 1]) && lastSent <= clock.now
    }

    constructor (contention: Option<nat>, clock: Clock)
      ensures Valid() && this.contention == contention && this.clock == clock
      ensures sent == [] && times == [] && lastSent == 0
    {
      this.contention, this.clock := contention, clock;
      lastSent, sent, times := 0, [], [];
    }

    /** One frame: waits out the rest of the contention time, if any is left, and no longer than
        the sleep takes. */
    method Send(f: Frame)
      requires Valid()
      modifies this, clock
      ensures Valid() && sent == old(sent) + [f]
      ensures !(contention.Some? && contention.value > 0) ==> times == old(times) && clock.now == old(clock.now)
      ensures contention.Some? && contention.value > 0 ==> times == old(times) + [lastSent] && lastSent >= old(lastSent) + contention.value
      ensures contention.Some? && contention.value > 0 ==>
        var reading := old(clock.now) + clock.elapse(old(clock.calls));
        if old(lastSent) + contention.value <= reading
        then lastSent == reading + clock.elapse(old(clock.calls) + 1)
        else lastSent == old(lastSent) + contention.value + clock.oversleep(old(clock.calls) + 1) + clock.elapse(old(clock.calls) + 2)
    {
      if contention.Some? && contention.value != 0 {
        var now := clock.Monotonic();
        var remaining: int := lastSent + contention.value - now;
        if remaining > 0 {
          clock.Sleep(remaining);
        }
        lastSent := clock.Monotonic();
        times := times + [lastSent];
      }
      sent := sent + [f];
    }

    /** Any run of the loop. */
    method Run(frames: seq<Frame>)
      requires Valid()
      modifies this, clock
      ensures Valid() && sent == old(sent) + frames
      ensures contention.Some? && contention.value > 0 && |sent| > 0 ==>
        times[|times| - 1] - times[0] >= (|sent| - 1) * contention.value
    {
      for i := 0 to |frames|
        invariant Valid() && sent == old(sent) + frames[..i]
      {
        Send(frames[i]);
      }
      assert frames[..|frames|] == frames;
      if contention.Some? && contention.value > 0 && |sent| > 0 {
        Apart(times, contention.value, 0, |times| - 1);
      }
    }
  }

  /** Any two recorded times are as far apart as the sends between them require. */
  lemma {:induction false} Apart(times: seq<nat>, gap: nat, i: nat, j: nat)
    requires Spaced(times, gap) && i <= j < |times|
    ensures times[j] - times[i] >= (j - i) * gap
    decreases j
  {
    if i < j {
      Apart(times, gap, i, j - 1);
      assert times[j - 1] + gap <= times[j];
      assert (j - i) * gap == (j - 1 - i) * gap + gap;
    }
  }

  /** A stretch of time no longer than `window` holds at most `window / gap + 1` sends. */
  lemma RateLimit(times: seq<nat>, gap: nat, i: nat, j: nat, window: nat)
    requires Spaced(times, gap) && i <= j < |times| && gap > 0
    requires times[j] - times[i] <= window
    ensures j - i + 1 <= window / gap + 1
  {
    Apart(times, gap, i, j);
    Quotient(j - i, gap, window);
  }

  lemma Quotient(n: nat, gap: nat, window: nat)
    requires gap > 0 && n * gap <= window
    ensures n <= window / gap
  {
    var q := window / gap;
    assert window == q * gap + window % gap;
    assert (n - q) * gap == n * gap - q * gap;
    if n > q { MulAtLeast(n - q, gap); }
  }
}
