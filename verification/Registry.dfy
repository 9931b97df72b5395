/** The server's two collections of consumers and the bookkeeping that three threads do on them:
    subscription by the HTTP thread, reports of dead sockets by the TX thread, and everything
    that is removed, by the RX thread. The other two threads may act between any two statements
    of the RX thread; every subscription uses a socket of its own. */
module Registry {

  type Fd = nat

  /** What the other threads do, one statement each. */
  datatype Other =
    | AddIo(fd: Fd)          // `_consumer_io[fd] = ...`
    | AddConsumer(fd: Fd)    // `_consumers.append(...)`
    | Watch(fd: Fd)          // `selector.register`
    | ReportDead(fd: Fd)     // `selector.unregister` and `_dead_consumer_fds.put`

  ghost predicate Distinct(s: seq<Fd>) {
    forall i, j :: 0 <= i < j < |s| ==> s[i] != s[j]
  }

  /** `list.remove`: the first occurrence goes. */
  function Remove(s: seq<Fd>, x: Fd): (r: seq<Fd>)
    requires x in s
    ensures |r| == |s| - 1
  {
    if s[0] == x then s[1..] else [s[0]] + Remove(s[1..], x)
  }

  lemma {:induction false} RemoveFromDistinct(s: seq<Fd>, x: Fd)
    requires Distinct(s) && x in s
    ensures Distinct(Remove(s, x)) && forall y :: y in Remove(s, x) <==> y in s && y != x
  {
    var rest := s[1..];
    assert forall y :: y in s <==> y == s[0] || y in rest;
    assert s[0] !in rest;
    if s[0] != x {
      RemoveFromDistinct(rest, x);
      assert Remove(s, x) == [s[0]] + Remove(rest, x);
    }
  }

  /** What is appended after the removed element stays where it is. */
  lemma {:induction false} RemoveFromPrefix(s: seq<Fd>, t: seq<Fd>, x: Fd)
    requires x in s && s <= t
    ensures Remove(s, x) <= Remove(t, x)
  {
    assert s[0] == t[0];
    if s[0] != x {
      RemoveFromPrefix(s[1..], t[1..], x);
    }
  }

  lemma {:induction false} OthersStay(s: seq<Fd>, x: Fd, t: seq<Fd>)
    requires Distinct(s) && x in s && Remove(s, x) <= t
    ensures forall y :: y in s ==> y == x || y in t
  {
    RemoveFromDistinct(s, x);
  }

  /** A consumer's IO state, as far as the collections go: whose it is. */
  datatype Io = Io(owner: Fd)

  /** The IO states are those of the first consumers, in order. */
  ghost predicate OwnEntries(visited: seq<Io>, fds: seq<Fd>) {
    |visited| <= |fds| && forall i :: 0 <= i < |visited| ==> visited[i] == Io(fds[i])
  }

  lemma {:induction false} OneMoreEntry(visited: seq<Io>, fds: seq<Fd>, io: Io, more: seq<Fd>)
    requires OwnEntries(visited, fds) && |visited| < |fds| && io == Io(fds[|visited|]) && fds <= more
    ensures OwnEntries(visited + [io], more)
  {
  }

  /** What all three threads work on, and where subscriptions are. */
  datatype Shared = Shared(consumers: seq<Fd>, consumerIo: map<Fd, Io>, dead: seq<Fd>, watched: set<Fd>,
                           subscribing: set<Fd>, listed: set<Fd>, used: set<Fd>)

  /** What a statement of another thread makes of it, if that thread can be there. */
  function After(s: Shared, o: Other): Shared {
    match o
    case AddIo(fd) =>
      if fd in s.used then s
      else s.(consumerIo := s.consumerIo[fd := Io(fd)], subscribing := s.subscribing + {fd}, used := s.used + {fd})
    case AddConsumer(fd) =>
      if fd !in s.subscribing then s
      else s.(consumers := s.consumers + [fd], subscribing := s.subscribing - {fd}, listed := s.listed + {fd})
    case Watch(fd) =>
      if fd !in s.listed then s else s.(listed := s.listed - {fd}, watched := s.watched + {fd})
    case ReportDead(fd) =>
      if fd !in s.watched then s else s.(watched := s.watched - {fd}, dead := s.dead + [fd])
  }

  /** A burst of them. */
  function AfterAll(s: Shared, burst: seq<Other>): Shared {
    if burst == [] then s else After(AfterAll(s, burst[..|burst| - 1]), burst[|burst| - 1])
  }

  class Server {
    var consumers: seq<Fd>           // _consumers
    var consumerIo: map<Fd, Io>      // _consumer_io
    var dead: seq<Fd>                // _dead_consumer_fds
    var watched: set<Fd>             // registered with the selector
    var closed: seq<Fd>              // what is left of closed_connections
    // Where the HTTP thread is with each subscription.
    var subscribing: set<Fd>         // in _consumer_io, not yet in _consumers
    var listed: set<Fd>              // in both, not yet registered with the selector
    var used: set<Fd>                // ever subscribed
    ghost var leaving: set<Fd>       // being taken out, so perhaps in only one of the two
    ghost var removed: set<Fd>       // taken out of both
    ghost var reported: set<Fd>      // ever put in the queue of the dead
    ghost var broken: set<Fd>        // whose send ever ended the connection

    /** Unless the RX thread is just taking it out, a consumer has an IO entry and an IO entry a
        consumer, listed or about to be; and a socket ever subscribed is in `_consumer_io`,
        leaving, or gone for good. */
    ghost predicate Collections()
      reads this
    {
      && Distinct(consumers)
      && (forall fd :: fd in consumers ==> (fd in consumerIo || fd in leaving) && fd !in subscribing && fd !in removed)
      && (forall fd :: fd in consumerIo ==> fd in consumers || fd in subscribing || fd in leaving)
      && (forall fd :: fd in consumerIo ==> consumerIo[fd] == Io(fd))
      && subscribing <= consumerIo.Keys && subscribing !! leaving
      && consumerIo.Keys !! removed && leaving !! removed && used == consumerIo.Keys + leaving + removed
    }

    /** A socket is reported dead at most once, after it was subscribed in full. */
    ghost predicate Reports()
      reads this
    {
      && Distinct(dead) && listed <= used && watched <= used
      && subscribing !! listed && subscribing !! watched && listed !! watched
      && (forall fd :: fd in dead ==> fd in used && fd !in subscribing && fd !in listed && fd !in watched)
    }

    /** Nobody is taken out without a reason. */
    ghost predicate Justified()
      reads this
    {
      && removed + leaving <= reported + broken
      && (forall fd :: fd in closed ==> fd in broken) && (forall fd :: fd in dead ==> fd in reported)
    }

    ghost predicate Consistent()
      reads this
    {
      Collections() && Reports() && Justified() && Distinct(closed) && forall fd :: fd in closed ==> fd in consumers && fd !in leaving
    }

    /** Between two removals. */
    ghost predicate Valid()
      reads this
    {
      Consistent() && leaving == {}
    }

    constructor ()
      ensures Valid() && consumers == [] && consumerIo == map[] && dead == [] && closed == [] && used == {}
    {
      consumers, consumerIo, dead, watched, closed := [], map[], [], {}, [];
      subscribing, listed, used, leaving, removed, reported, broken := {}, {}, {}, {}, {}, {}, {};
    }

    /** What the other threads leave alone. */
    twostate predicate OnlyGrows()
      reads this
    {
      && closed == old(closed) && removed == old(removed) && leaving == old(leaving) && old(used) <= used
      && broken == old(broken) && old(reported) <= reported
      && old(consumers) <= consumers && old(consumerIo).Keys <= consumerIo.Keys && old(dead) <= dead
      && forall fd :: fd in old(used) && fd !in old(consumerIo) ==> fd !in consumerIo
    }

    /** A socket that was subscribed and is in neither collection does not come back. */
    twostate predicate NoneReturns()
      reads this
    {
      forall fd :: fd in consumers ==> fd in old(consumers) || fd in old(subscribing) || fd !in old(used)
    }

    ghost function State(): Shared
      reads this
    {
      Shared(consumers, consumerIo, dead, watched, subscribing, listed, used)
    }

    method AddIoEntry(fd: Fd)
      requires Consistent() && fd !in used
      modifies this`consumerIo, this`subscribing, this`used
      ensures Consistent() && OnlyGrows() && consumerIo == old(consumerIo)[fd := Io(fd)]
      ensures subscribing == old(subscribing) + {fd} && used == old(used) + {fd}
    {
      consumerIo, subscribing, used := consumerIo[fd := Io(fd)], subscribing + {fd}, used + {fd};
    }

    method ListConsumer(fd: Fd)
      requires Consistent() && fd in subscribing
      modifies this`consumers, this`subscribing, this`listed
      ensures Consistent() && OnlyGrows() && consumers == old(consumers) + [fd]
      ensures subscribing == old(subscribing) - {fd} && listed == old(listed) + {fd}
    {
      assert forall y :: y in consumers + [fd] <==> y in consumers || y == fd;
      consumers, subscribing, listed := consumers + [fd], subscribing - {fd}, listed + {fd};
    }

    method StartWatching(fd: Fd)
      requires Consistent() && fd in listed
      modifies this`listed, this`watched
      ensures Consistent() && OnlyGrows() && watched == old(watched) + {fd} && listed == old(listed) - {fd}
    {
      listed, watched := listed - {fd}, watched + {fd};
    }

    /** The TX thread unregisters a socket and reports it. */
    method PutDead(fd: Fd)
      requires Consistent() && fd in watched
      modifies this`watched, this`dead, this`reported
      ensures Consistent() && OnlyGrows() && dead == old(dead) + [fd] && watched == old(watched) - {fd}
    {
      assert forall y :: y in dead + [fd] <==> y in dead || y == fd;
      watched, dead, reported := watched - {fd}, dead + [fd], reported + {fd};
    }

    /** One statement of another thread, if that thread can be there. */
    method Act(o: Other)
      requires Consistent()
      modifies this`consumers, this`consumerIo, this`dead, this`watched, this`subscribing, this`listed, this`used,
               this`reported
      ensures Consistent() && OnlyGrows() && NoneReturns()
      ensures forall fd :: fd in subscribing ==> fd in old(subscribing) || fd !in old(used)
      ensures State() == After(old(State()), o)
      ensures match o
              case AddIo(fd) => fd !in old(used) ==> fd in consumerIo && fd in subscribing
              case AddConsumer(fd) => fd in old(subscribing) ==> consumers == old(consumers) + [fd] && fd !in subscribing
              case Watch(fd) => fd in old(listed) ==> fd in watched
              case ReportDead(fd) => fd in old(watched) ==> dead == old(dead) + [fd] && fd !in watched
    {
      match o {
        case AddIo(fd) => if fd !in used { AddIoEntry(fd); }
        case AddConsumer(fd) => if fd in subscribing { ListConsumer(fd); }
        case Watch(fd) => if fd in listed { StartWatching(fd); }
        case ReportDead(fd) => if fd in watched { PutDead(fd); }
      }
    }

    /** Between two statements of the RX thread the others get a burst of their own. */
    method Interfere(bursts: seq<seq<Other>>) returns (left: seq<seq<Other>>)
      requires Consistent()
      modifies this
      ensures Consistent() && OnlyGrows() && NoneReturns()
      ensures left == if bursts == [] then [] else bursts[1..]
      ensures State() == if bursts == [] then old(State()) else AfterAll(old(State()), bursts[0])
    {
      if bursts == [] {
        return [];
      }
      for i := 0 to |bursts[0]|
        invariant Consistent() && OnlyGrows() && NoneReturns()
        invariant forall fd :: fd in subscribing ==> fd in old(subscribing) || fd !in old(used)
        invariant State() == AfterAll(old(State()), bursts[0][..i])
      {
        assert bursts[0][..i + 1][..i] == bursts[0][..i];
        Act(bursts[0][i]);
      }
      assert bursts[0][..|bursts[0]|] == bursts[0];
      return bursts[1..];
    }

    // -------------------------------------------------------------- the RX thread's cleanup

    /** `consumers.remove(consumer)`: raises if it is not there. */
    method RemoveConsumer(fd: Fd)
      requires Consistent() && fd in consumers && fd !in closed && fd in reported + broken
      modifies this`consumers, this`leaving
      ensures Consistent() && leaving == old(leaving) + {fd}
      ensures consumers == Remove(old(consumers), fd) && fd !in consumers
    {
      RemoveFromDistinct(consumers, fd);
      consumers, leaving := Remove(consumers, fd), leaving + {fd};
    }

    /** `del consumer_io[fd]`: raises if there is no such entry. */
    method DeleteEntry(fd: Fd)
      requires Consistent() && fd in consumerIo && fd in leaving && fd !in consumers
      modifies this`consumerIo, this`leaving, this`removed
      ensures Consistent() && leaving == old(leaving) - {fd} && removed == old(removed) + {fd}
    {
      consumerIo, leaving, removed := consumerIo - {fd}, leaving - {fd}, removed + {fd};
    }

    /** `consumer_io.pop(fd, None)`. */
    method PopEntry(fd: Fd)
      requires Valid() && closed == [] && fd in used && fd !in subscribing && fd in reported
      modifies this`consumerIo, this`leaving
      ensures Consistent() && fd !in consumerIo && leaving == (if fd in removed then {} else {fd})
      ensures fd in removed ==> consumerIo == old(consumerIo)
    {
      if fd !in removed {
        leaving := {fd};
      }
      consumerIo := consumerIo - {fd};
    }

    /** Gone from both collections. */
    ghost method Settle(fd: Fd)
      requires Consistent() && fd !in consumers && fd !in consumerIo && fd in leaving
      modifies this`leaving, this`removed
      ensures Consistent() && leaving == old(leaving) - {fd} && removed == old(removed) + {fd}
    {
      leaving, removed := leaving - {fd}, removed + {fd};
    }

    method NextClosed() returns (fd: Fd)
      requires Valid() && closed != []
      modifies this`closed
      ensures Valid() && fd == old(closed)[0] && closed == old(closed)[1..]
      ensures fd in consumers && fd !in closed && fd in consumerIo && fd !in subscribing && fd in broken
    {
      fd := closed[0];
      assert forall y :: y in closed <==> y == fd || y in closed[1..];
      closed := closed[1..];
    }

    /** A connection a send found closed, with the others cutting in between the statements. */
    method DropClosed(bursts: seq<seq<Other>>) returns (left: seq<seq<Other>>)
      requires Valid() && closed != []
      modifies this
      ensures Valid() && closed == old(closed)[1..] && removed == old(removed) + {old(closed)[0]}
      ensures old(used) <= used && old(dead) <= dead && |left| <= |bursts|
      ensures old(closed)[0] in old(consumers) && Remove(old(consumers), old(closed)[0]) <= consumers
      ensures broken == old(broken) && old(reported) <= reported
    {
      var fd := NextClosed();
      left := RemoveThenYield(fd, bursts);
      DeleteEntry(fd);
    }

    /** `consumers.remove(consumer)`, and what the others do before the next statement. */
    method RemoveThenYield(fd: Fd, bursts: seq<seq<Other>>) returns (left: seq<seq<Other>>)
      requires Valid() && fd in consumers && fd !in closed && fd in broken
      modifies this
      ensures Consistent() && closed == old(closed) && removed == old(removed) && leaving == {fd}
      ensures fd !in consumers && fd in consumerIo && Remove(old(consumers), fd) <= consumers
      ensures old(used) <= used && old(dead) <= dead && |left| <= |bursts|
      ensures broken == old(broken) && old(reported) <= reported
    {
      RemoveConsumer(fd);
      left := Interfere(bursts);
    }

    /** `dead_consumer_fds.get_nowait()`. */
    method NextReport() returns (fd: Fd)
      requires Valid() && dead != []
      modifies this`dead
      ensures Valid() && fd == old(dead)[0] && dead == old(dead)[1..]
      ensures fd in used && fd !in subscribing && (fd in consumers <==> fd !in removed) && fd in reported
    {
      fd := dead[0];
      assert forall y :: y in dead <==> y == fd || y in dead[1..];
      dead := dead[1..];
    }

    /** The search for the reported socket's consumer, which goes if it is still there. */
    method RemoveReported(fd: Fd) returns (changed: bool)
      requires Consistent() && closed == [] && fd !in consumerIo && fd in reported
      requires leaving == if fd in consumers then {fd} else {}
      modifies this`consumers, this`leaving, this`removed
      ensures Valid() && (changed <==> fd in old(consumers))
      ensures removed == old(removed) + (if changed then {fd} else {})
      ensures consumers == if changed then Remove(old(consumers), fd) else old(consumers)
    {
      changed := fd in consumers;
      if changed {
        RemoveConsumer(fd);
        Settle(fd);
      }
    }

    /** One report from the TX thread, with the others cutting in between the statements. */
    method DropDead(bursts: seq<seq<Other>>) returns (changed: bool, left: seq<seq<Other>>)
      requires Valid() && closed == [] && dead != []
      modifies this
      ensures Valid() && closed == [] && removed == old(removed) + {old(dead)[0]}
      ensures old(used) <= used && old(dead)[1..] <= dead
      ensures bursts == [] ==> left == [] && dead == old(dead)[1..]
      ensures bursts != [] ==> |left| < |bursts|
      ensures changed <==> old(dead)[0] !in old(removed)
      ensures changed <==> old(dead)[0] in old(consumers)
      ensures (if changed then Remove(old(consumers), old(dead)[0]) else old(consumers)) <= consumers
      ensures broken == old(broken) && old(reported) <= reported
    {
      var fd := NextReport();
      left := PopThenYield(fd, bursts);
      if fd in old(consumers) { RemoveFromPrefix(old(consumers), consumers, fd); }
      changed := RemoveReported(fd);
    }

    /** `consumer_io.pop(fd, None)`, and what the others do before the next statement. */
    method PopThenYield(fd: Fd, bursts: seq<seq<Other>>) returns (left: seq<seq<Other>>)
      requires Valid() && closed == [] && fd in used && fd !in subscribing && fd in reported
      requires fd in consumers <==> fd !in removed
      modifies this
      ensures Consistent() && closed == [] && removed == old(removed) && fd !in consumerIo && fd in reported
      ensures leaving == (if fd in consumers then {fd} else {}) && (fd in consumers <==> fd in old(consumers))
      ensures old(used) <= used && old(dead) <= dead && old(consumers) <= consumers
      ensures bursts == [] ==> left == [] && dead == old(dead)
      ensures bursts != [] ==> |left| < |bursts|
      ensures broken == old(broken) && old(reported) <= reported
    {
      PopEntry(fd);
      left := Interfere(bursts);
    }

    /** The loop over the closed connections. */
    method CleanupClosed(bursts: seq<seq<Other>>) returns (changed: bool, left: seq<seq<Other>>)
      requires Valid()
      modifies this
      ensures Valid() && closed == [] && old(dead) <= dead && old(used) <= used && |left| <= |bursts|
      ensures removed == old(removed) + (set fd | fd in old(closed)) && (changed <==> removed != old(removed))
      ensures forall fd :: fd in old(consumers) ==> fd in consumers || fd in removed
      ensures broken == old(broken) && old(reported) <= reported
    {
      ghost var found := set fd | fd in closed;
      changed, left := closed != [], bursts;
      while closed != []
        invariant Valid() && old(dead) <= dead && old(used) <= used && |left| <= |bursts|
        invariant old(removed) + found == removed + (set fd | fd in closed)
        invariant old(removed) <= removed && broken == old(broken) && old(reported) <= reported
        invariant forall fd :: fd in old(consumers) ==> fd in consumers || fd in removed
        decreases |closed|
      {
        ghost var before, list := closed, consumers;
        left := DropClosed(left);
        OthersStay(list, before[0], consumers);
        assert forall y :: y in before <==> y == before[0] || y in closed;
      }
      assert changed ==> old(closed)[0] in found;
    }

    /** The loop over the TX thread's reports, until the queue is found empty. */
    method CleanupDead(bursts: seq<seq<Other>>) returns (changed: bool, left: seq<seq<Other>>)
      requires Valid() && closed == []
      modifies this
      ensures Valid() && closed == [] && dead == [] && old(removed) <= removed && old(used) <= used
      ensures forall fd :: fd in old(dead) ==> fd in removed
      ensures forall fd :: fd in old(consumers) ==> fd in consumers || fd in removed
      ensures changed <==> removed != old(removed)
      ensures broken == old(broken) && old(reported) <= reported
    {
      changed, left := false, bursts;
      while dead != []
        invariant Valid() && closed == [] && old(removed) <= removed && old(used) <= used
        invariant forall fd :: fd in old(dead) ==> fd in dead || fd in removed
        invariant forall fd :: fd in old(consumers) ==> fd in consumers || fd in removed
        invariant changed <==> removed != old(removed)
        invariant broken == old(broken) && old(reported) <= reported
        decreases |left|, |dead|
      {
        ghost var before, list := dead, consumers;
        var gone;
        gone, left := DropDead(left);
        if gone { OthersStay(list, before[0], consumers); }
        assert forall y :: y in before ==> y == before[0] || y in before[1..];
        changed := changed || gone;
      }
    }

    /** The head of the RX loop. When it is done no connection it found closed, and no socket the
        TX thread had reported, is left in either collection - and none ever comes back, as
        `removed` only grows and stays apart from both. */
    method Cleanup(bursts: seq<seq<Other>>) returns (changed: bool, left: seq<seq<Other>>)
      requires Valid()
      modifies this
      ensures Valid() && closed == [] && dead == [] && old(removed) <= removed && old(used) <= used
      ensures forall fd :: fd in old(closed) || fd in old(dead) ==>
        fd in removed && fd !in consumers && fd !in consumerIo
      ensures forall fd :: fd in old(consumers) ==> fd in consumers || fd in removed
      ensures changed <==> removed != old(removed)
      ensures broken == old(broken) && old(reported) <= reported
    {
      var goneClosed, goneDead;
      goneClosed, left := CleanupClosed(bursts);
      goneDead, left := CleanupDead(left);
      changed := goneClosed || goneDead;
    }

    // -------------------------------------------------------------- the RX thread's fan-out

    /** The consumers before position `i` whose send ended the connection are in
        `closed_connections`, and nobody else. */
    ghost predicate ClosedUpTo(i: nat, fails: Fd -> bool)
      reads this
    {
      i <= |consumers| && forall fd :: fd in closed <==> fd in consumers[..i] && fails(fd)
    }

    /** One consumer's turn: `consumer_io[fd]`, and a send that may end the connection. */
    method Visit(i: nat, fails: Fd -> bool) returns (ioState: Io)
      requires Valid() && i < |consumers| && ClosedUpTo(i, fails)
      modifies this`closed, this`broken
      ensures Valid() && ClosedUpTo(i + 1, fails) && ioState == Io(consumers[i])
      ensures broken == old(broken) + (if fails(consumers[i]) then {consumers[i]} else {})
    {
      var fd := consumers[i];
      ioState := consumerIo[fd];
      assert consumers[..i + 1] == consumers[..i] + [fd];
      assert fd !in consumers[..i];
      if fails(fd) {
        assert forall y :: y in closed + [fd] <==> y in closed || y == fd;
        closed, broken := closed + [fd], broken + {fd};
      }
    }

    /** The others cutting in after a turn: subscriptions only extend the list. */
    method Yield(i: nat, fails: Fd -> bool, bursts: seq<seq<Other>>) returns (left: seq<seq<Other>>)
      requires Valid() && ClosedUpTo(i, fails)
      modifies this
      ensures Valid() && ClosedUpTo(i, fails)
      ensures removed == old(removed) && old(consumers) <= consumers && old(used) <= used
      ensures left == if bursts == [] then [] else bursts[1..]
      ensures State() == if bursts == [] then old(State()) else AfterAll(old(State()), bursts[0])
    {
      ghost var seen := consumers[..i];
      left := Interfere(bursts);
      assert consumers[..i] == seen;
    }

    /** The loop over `_consumers`, which subscriptions may extend meanwhile; `fails` says whose
        send ends the connection. Every consumer it visits has its IO entry. */
    method FanOut(fails: Fd -> bool, bursts: seq<seq<Other>>) returns (visited: seq<Io>, left: seq<seq<Other>>)
      requires Valid() && closed == []
      modifies this
      ensures Valid() && removed == old(removed) && old(consumers) <= consumers && old(used) <= used
      ensures |visited| == |consumers| && OwnEntries(visited, consumers)
      ensures forall fd :: fd in closed <==> fd in consumers && fails(fd)
    {
      left, visited := bursts, [];
      var i := 0;
      while i < |consumers|
        invariant Valid() && removed == old(removed) && old(consumers) <= consumers && old(used) <= used
        invariant |visited| == i && ClosedUpTo(i, fails) && OwnEntries(visited, consumers)
        decreases |left|, |consumers| - i
      {
        ghost var fds := consumers;
        var ioState := Visit(i, fails);
        left := Yield(i + 1, fails, left);
        OneMoreEntry(visited, fds, ioState, consumers);
        visited, i := visited + [ioState], i + 1;
      }
      assert consumers[..i] == consumers;
    }

    /** Any number of turns of the RX loop, with the other threads anywhere in between: no lookup,
        `remove` or `del` ever misses. `visited` are the IO states each turn looked up, `gone` the
        sockets taken out by the end of its cleanup. */
    method RunRx(turns: seq<Turn>) returns (ghost visited: seq<seq<Io>>, ghost gone: seq<set<Fd>>)
      requires Valid()
      modifies this
      ensures Valid() && old(removed) <= removed && removed <= reported + broken
      ensures Follows(turns, visited, gone)
      ensures forall i :: 0 <= i < |gone| ==> gone[i] <= removed && Serves(visited[i], gone[i], old(consumers))
      ensures turns != [] ==>
        && (forall fd :: fd in old(closed) || fd in old(dead) ==> fd in gone[0])
        && OwnEntries(visited[|turns| - 1], consumers) && |visited[|turns| - 1]| == |consumers|
        && (forall fd :: fd in closed <==> fd in consumers && turns[|turns| - 1].fails(fd))
    {
      visited, gone := [], [];
      ghost var first := Now();
      for i := 0 to |turns|
        invariant Valid() && |visited| == i && Story(turns[..i], visited, gone, first, Now(), old(removed), removed)
      {
        ghost var before, taken := Now(), removed;
        ghost var looked, out;
        looked, out := TakeTurn(turns[i]);
        StoryNext(turns[..i], visited, gone, first, before, old(removed), taken, turns[i], looked, out, Now());
        assert turns[..i + 1] == turns[..i] + [turns[i]];
        visited, gone := visited + [looked], gone + [out];
      }
      assert turns[..|turns|] == turns;
    }

    ghost function Now(): Lists
      reads this
    {
      Lists(consumers, closed, dead)
    }

    /** One turn: the cleanup, then the fan-out. */
    method TakeTurn(turn: Turn) returns (ghost looked: seq<Io>, ghost out: set<Fd>)
      requires Valid()
      modifies this
      ensures Valid() && out == removed && Turned(turn, old(Now()), Now(), old(removed), looked, out)
    {
      var changed, left := Cleanup(turn.bursts);
      out := removed;
      looked, left := FanOut(turn.fails, left);
      assert forall i :: 0 <= i < |consumers| ==> looked[i] == Io(consumers[i]);
    }
  }

  /** One turn of the RX loop: whose send ends the connection, and what the others do meanwhile. */
  datatype Turn = Turn(fails: Fd -> bool, bursts: seq<seq<Other>>)

  /** The lists the turns work on. */
  datatype Lists = Lists(consumers: seq<Fd>, closed: seq<Fd>, dead: seq<Fd>)

  /** What one turn does: those found closed or reported are out, everybody else on the list is
      looked up, and nobody who is out; and whose send failed is in `closed`. */
  ghost predicate Turned(turn: Turn, before: Lists, now: Lists, removed: set<Fd>, looked: seq<Io>, out: set<Fd>) {
    && removed <= out && (forall fd :: fd in before.closed || fd in before.dead ==> fd in out)
    && (forall fd :: fd in before.consumers ==> fd in now.consumers || fd in out)
    && OwnEntries(looked, now.consumers) && |looked| == |now.consumers|
    && Serves(looked, out, before.consumers) && (forall io :: io in looked ==> io.owner !in out)
    && (forall fd :: fd in now.closed <==> fd in now.consumers && turn.fails(fd))
  }

  /** What a number of turns have done, from the lists `first` to `now`. */
  ghost predicate Story(turns: seq<Turn>, visited: seq<seq<Io>>, gone: seq<set<Fd>>,
                        first: Lists, now: Lists, removed: set<Fd>, out: set<Fd>)
  {
    && Follows(turns, visited, gone) && removed <= out
    && (forall i :: 0 <= i < |turns| ==> gone[i] <= out && Serves(visited[i], gone[i], first.consumers))
    && (forall fd :: fd in first.consumers ==> fd in now.consumers || fd in out)
    && if turns == [] then now == first
       else
         && (forall fd :: fd in first.closed || fd in first.dead ==> fd in gone[0])
         && OwnEntries(visited[|turns| - 1], now.consumers) && |visited[|turns| - 1]| == |now.consumers|
         && forall fd :: fd in now.closed <==> fd in now.consumers && turns[|turns| - 1].fails(fd)
  }

  lemma {:induction false} StoryNext(turns: seq<Turn>, visited: seq<seq<Io>>, gone: seq<set<Fd>>, first: Lists, before: Lists,
                                     removed: set<Fd>, taken: set<Fd>, turn: Turn, looked: seq<Io>, out: set<Fd>, now: Lists)
    requires Story(turns, visited, gone, first, before, removed, taken) && Turned(turn, before, now, taken, looked, out)
    ensures Story(turns + [turn], visited + [looked], gone + [out], first, now, removed, out)
  {
    FollowsNext(turns, visited, gone, turn, looked, out, before.closed, before.consumers);
    var visited', gone' := visited + [looked], gone + [out];
    forall i | 0 <= i <= |turns|
      ensures gone'[i] <= out && Serves(visited'[i], gone'[i], first.consumers)
    {
      if i < |turns| { assert Serves(visited[i], gone[i], first.consumers); }
    }
  }

  /** Everybody on the list at first was looked up, or is gone. */
  ghost predicate Serves(looked: seq<Io>, gone: set<Fd>, first: seq<Fd>) {
    forall fd :: fd in first ==> Io(fd) in looked || fd in gone
  }

  /** Turn by turn: nobody gone is looked up, what is gone stays gone, and whose send ended the
      connection in one turn is gone in the next. */
  ghost predicate Follows(turns: seq<Turn>, visited: seq<seq<Io>>, gone: seq<set<Fd>>) {
    && |visited| == |gone| == |turns|
    && (forall i, io :: 0 <= i < |turns| && io in visited[i] ==> io.owner !in gone[i])
    && (forall i :: 0 < i < |turns| ==> gone[i - 1] <= gone[i])
    && (forall i, io :: 0 < i < |turns| && io in visited[i - 1] && turns[i - 1].fails(io.owner) ==> io.owner in gone[i])
  }

  lemma {:induction false} FollowsNext(turns: seq<Turn>, visited: seq<seq<Io>>, gone: seq<set<Fd>>,
                                       turn: Turn, looked: seq<Io>, out: set<Fd>, closing: seq<Fd>, list: seq<Fd>)
    requires Follows(turns, visited, gone)
    requires turns != [] ==> gone[|turns| - 1] <= out && OwnEntries(visited[|turns| - 1], list)
    requires turns != [] ==> forall fd :: fd in list && turns[|turns| - 1].fails(fd) ==> fd in closing
    requires (forall fd :: fd in closing ==> fd in out) && forall io :: io in looked ==> io.owner !in out
    ensures Follows(turns + [turn], visited + [looked], gone + [out])
  {
  }
}
