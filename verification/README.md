# sockcan in Dafny

sockcan is a user-space SocketCAN daemon: a server relays CAN frames between a bus and any number of
socket consumers, and a transcoder package packs signal values into frames. This project models the
parts of it where state, concurrency or bit arithmetic make correctness hard to see, and proves what
those parts promise. `dafny verify dfyconfig.toml` checks all of it.

## What is modelled

**The relay** (`Relay`, `RelayInvariants`, `RelayTheorems`, `RelayRaces`, `ConsumerIo`). Each consumer
has a bounded backlog, a `dropped` counter and a selector interest, and the RX and TX threads both
work on all three. `Relay` is a state machine in which the statements of a thread that rely on what it
saw earlier are steps of their own: the backlog check, the direct send, the fullness check, the append,
and the drain's peek, send, popleft and demotion are all separate, so every interleaving of the two
threads at those points is a run (the statements taken together are among the assumptions below).
`RelayInvariants` is what each step keeps, `RelayTheorems` what follows on every run from the initial
state. `RelayRaces` says exactly which stale checks do harm. `ConsumerIo.ConsumerIO` is the object
itself, with its fields and its methods in the source's own order; whatever touches the shared state
advances the machine, and `Valid` says the fields are the machine's state after a legal run, so the
theorems about runs hold of the object at all times.

**A server with only the TX thread** (`VirtualBus`), built from `ConsumerIO` objects, against a
broadcast specification of one equation, with exact conditions for the thread to live on. **A server of
a real bus** (`RealBus`): the RX loop with its bus filter, fan-out and cleanup over such objects, with TX
and subscriptions between any two of its turns, against an equation of the same kind. **The RX thread's
registry** (`Registry`), with the HTTP and TX threads cutting in between its statements. **Pacing**
(`Pacing`).

**Frames and streams** (`CanFrame`, `Stream`, over `Bits`): the 16-byte layout of `struct can_frame`
(section 4 of Linux Documentation/networking/can.txt), and sockets that accept or return any part of
what is asked, refuse, or fail, following an arbitrary plan fixed in advance.

**Filters** (`Filters`): the bus, the server and the client stage as one composition.

**Signals** (`Signals`, `Scaling`, `Encoder`, `Decoder`, `Transcoding`): packing with shifts and masks on
unbounded integers, scaling over the rationals, multiplexing.

Assumptions: one RX and one TX thread; the host is little-endian, so the native `=IBB2x` header is;
identifiers are unsigned and data is at most 8 bytes, as every frame that was received is; a datagram
read returns 16 bytes; one frame send by one thread is not interleaved with another thread's bytes
(nothing in the source prevents that on a real bus); a deque operation and an `if outbound` check are
each atomic, as they are in CPython; three groups of statements are atomic together: the fullness check
with `dropped += 1`, an append after a refused send with `selector.modify`, and the drain's last check
with the demotion, the report and `dropped = 0` (an increment split from its check could be lost in that
reset, and a plain append, which takes no lock, could fall inside the last two); `CONSUMER_BACKLOG_SIZE` is any
number from 1 up; the selector reports only sockets it watches, for what it watches.

## Where the code and its documentation differ

- The comment on `_selector_lock` (src/sockcan/daemon/_server.py:416-422) says the lock keeps a backlog
  from being stranded. It does not: the check that finds a backlog and the append that joins it are not
  under the lock, so TX can drain and demote in between. `NoStrandIff`: along a run every registered
  consumer with a backlog stays watched for writing if and only if no such late append occurs in it.
  A later promotion by the other thread may still heal one; when that thread is not on its way to one,
  `LateIsForGood` and `StrandedForever` say nothing is delivered to that consumer again, and
  `StrandingHappens` is such a run at every backlog size.
- The comment in `_complete_send` (src/sockcan/_protocol.py:359-365) says that a frame that breaks off
  makes the connection unusable and is reported as such. RX and the drain drop such a connection, but a
  loopback send only logs it (src/sockcan/daemon/_server.py:823-826). `LoopbackTears` is that run: the
  consumer stays connected and the next frame starts three bytes into the one before.
  `LiveStreamIsWholeIff`: a registered consumer not reported closed has whole delivered frames on its
  wire if and only if no loopback send ever broke off.
- The comment at a failed read (src/sockcan/daemon/_server.py:776-780) says the consumer is unregistered
  so that the rest are served and the TX thread does not die. But it stays in `_consumers`: on a virtual
  bus for good, on a real one until RX next cleans up, just before it waits for the bus. If a direct send
  to it is then refused, `selector.modify` in `_queue_frame` raises a KeyError that neither `run_tx` nor
  `run_rx` catches. `VirtualBus.FailedReadEndsServer` and `RealBus.FailedReadEndsRx` are such runs, over
  sockets that never fail. The exact condition: a consumer's turn ends the thread if and only if it
  accepts the frame, has no backlog, and its next send is refused while it is unregistered, or fails on a
  datagram server with an error the loop does not ignore (`run_rx` catches that one, but the thread has
  left its loop). `VirtualBus.Server.Loopback` has it for TX, before each frame; `RealBus.Server.Visit` for
  RX, before each turn, and `RealBus.Server.OnBus` before the frame if no other thread acts during the
  fan-out. While no read fails, good schedules (no call fails, and any five see progress) keep the
  threads alive (`GoodSocketsKeepItRunning`, `GoodSocketsKeepBothRunning`), and on a stream server it takes an
  unregistered consumer to end TX (`StreamServerKeepsRunning`).
- The comment in the drain (src/sockcan/daemon/_server.py:855-858) speaks of one extra loss when the head
  is evicted between peek and popleft. `MissingOnRuns` is stronger: there is none, because
  the evicted head was still sent and offsets the newer frame popped in its place.
- `dropped` is not always the number of frames lost: the fullness check and the append are two steps.
  `CounterExactIff` gives the exact condition, `OvercountingHappens` and `UndercountingHappens` runs that
  miss it either way.
- The client calls the filters it subscribed with a mere traffic reducer (src/sockcan/interop.py:188-190).
  `PipelineIffSubscribed`: its own filters decide alone if and only if they accept nothing the subscription
  rejects, so widening them later has no effect.
- `CAN_EXTENSION_MASK` covers bits 11 to 26, so an unflagged identifier using only bits 27 and 28 is sent
  as a standard one (`ImpliedFlag`).
- The decoder is documented as interchangeable with the one of `cantools`, and the tests compare the two.
  It returns the physical value for every raw value if and only if the scale is 1 and the offset 0
  (`PhysicalIffUnscaled`); for an integer scale and offset it returns the raw value (`IntegerScaleIsExact`).
- A text value is never accepted by the encoder: the lookup of a named value is reached only for signals
  that have none (`TextIsNeverEncoded`).
- An empty aggregate filters nothing: with no consumer left, the bus delivers everything
  (`UnionIsWhatAnyoneWants`); a subscription to an empty set of identifiers is a subscription to all
  (`IdsSelectThemselves`).

## Model

| member | source | states |
|---|---|---|
| RelayInvariants.NextInv | src/sockcan/daemon/_server.py:671-707 | every step of either thread, from any state, keeps the backlog bounded and in acceptance order, the frame accounting exact, each thread's order, and the fate of every accepted frame |
| RelayTheorems.ReachInv | src/sockcan/daemon/_server.py:638-894 | so the invariant holds after any run from an empty backlog of any size from 1 up |
| RelayTheorems.LossAccounting | src/sockcan/daemon/_server.py:854-879 | on every interleaving, offered = accepted + in hand, and accepted = delivered + queued + evicted + lost to errors, off by exactly one between a drain send and its popleft and never otherwise |
| RelayTheorems.MissingOnRuns | src/sockcan/daemon/_server.py:855-879 | on every interleaving the frames a consumer will never get number exactly the evictions, even when heads are evicted while in flight |
| RelayTheorems.NewestFramesSurvive | src/sockcan/daemon/_server.py:172-175 | with a backlog of N, each of the newest N-1 accepted frames is delivered, queued or failed to send, whatever was evicted or raced |
| RelayTheorems.DeliveredInOfferOrder | src/sockcan/daemon/_server.py:807-820 | for each source thread, what is delivered is what it offered, in the order offered, no frame twice, on every interleaving |
| RelayTheorems.OffersAreTheInput | src/sockcan/daemon/_server.py:671-684 | the offers recorded for a thread are the frames its steps offered, so the order theorem is about the actual input |
| RelayTheorems.DrainIsSafe | src/sockcan/daemon/_server.py:854-879 | no interleaving lets `outbound[0]` or `popleft` meet an empty deque, and the backlog never exceeds its bound |
| RelayTheorems.DrainTerminates | src/sockcan/daemon/_server.py:848-894 | a drain takes at most four steps per frame queued at its start or appended meanwhile |
| RelayTheorems.DrainFinishes | src/sockcan/daemon/_server.py:848-894 | from any reachable point and for every sequence of answers of the socket, the drain's own steps lead to its end |
| RelayTheorems.DrainEnds | src/sockcan/daemon/_server.py:880-894 | on every run a drain goes quiet only empty, demoted and with `dropped` reset, or with its backlog watched for writing, or with the consumer unregistered or the thread gone |
| RelayTheorems.OneSource | src/sockcan/daemon/_server.py:787-820 | with one feeding thread and nothing evicted or failed, delivery followed by the backlog is everything accepted, once each, in order |
| RelayTheorems.EachSource | src/sockcan/daemon/_server.py:807-820 | with both threads feeding it and nothing evicted or failed, delivery followed by the backlog holds all that either thread had accepted, once each, in that thread's order |
| RelayTheorems.DiesIff | src/sockcan/daemon/_server.py:827-831 | a step ends the TX thread if and only if it promotes an unregistered consumer or is an unexpected error of a datagram send, and no step registers a consumer again |
| RelayTheorems.DiesOnRunIff | src/sockcan/daemon/_server.py:722-730 | on every run the TX thread is gone if and only if one of its steps was of that kind |
| RelayTheorems.StreamLives | src/sockcan/daemon/_server.py:823-826 | on every run on a stream server it lives as long as the consumer is registered |
| RelayRaces.CounterExactIff | src/sockcan/daemon/_server.py:678-684 | `dropped` plus what was already logged equals the evictions all along a run if and only if no append finds the fullness other than its check did |
| RelayRaces.DroppedIsMissing | src/sockcan/daemon/_server.py:334-351 | when it is exact and the threads rest, it is the number of frames the consumer will never get |
| RelayRaces.NoStrandIff | src/sockcan/daemon/_server.py:416-422 | every registered consumer with a backlog is watched for writing, and one watched for reading only has an empty backlog and zero `dropped`, all along a run if and only if no append in it is late |
| RelayRaces.AtomicChecksSuffice | src/sockcan/daemon/_server.py:678-684 | with check and append atomic no append is late or miscounts |
| RelayRaces.AloneNothingIsStale | src/sockcan/daemon/_server.py:575-582 | where only the TX thread runs, the counter is exact and nothing is stranded |
| RelayRaces.StrandingHappens | src/sockcan/daemon/_server.py:676-684 | at every backlog size some legal run strands a frame of a registered consumer |
| RelayRaces.StrandedForever | src/sockcan/daemon/_server.py:885-889 | once stranded, a consumer gets nothing more on any continuation |
| RelayRaces.LateIsForGood | src/sockcan/daemon/_server.py:678-684 | a late append leads there unless the other thread is in a direct send or promoting |
| RelayRaces.OvercountingHappens | src/sockcan/daemon/_server.py:681-684 | a run after which a drop is counted and no frame is missing |
| RelayRaces.UndercountingHappens | src/sockcan/daemon/_server.py:681-684 | a run after which a frame is missing and no drop is counted |
| ConsumerIo.ConsumerIO.RunOf | src/sockcan/daemon/_server.py:354-373 | a valid object's fields are the machine's state after its legal history, which satisfies the invariant |
| ConsumerIo.ConsumerIO.RxForward | src/sockcan/daemon/_server.py:676-711 | the fate of a bus frame, as the backlog and the socket's schedule have it: queued, delivered whole, held after a refused send with write interest requested, or lost; an error on a stream, and a reset on a datagram, has the connection reported closed, a datagram nobody listens for is ignored, and any other error ends the thread; no connection is kept whose stream it broke |
| ConsumerIo.ConsumerIO.LoopbackForward | src/sockcan/daemon/_server.py:802-831 | the same for a frame of another consumer: an error on a stream, a reset and a datagram nobody listens for are only logged, so that the bytes of a frame that broke off stay on a live wire, any other error ends the thread, and so does a refused send if the destination is unregistered |
| ConsumerIo.ConsumerIO.RxTurn | src/sockcan/daemon/_server.py:676-712 | a forwarded bus frame is accepted, and the state and the schedule beforehand decide exactly the backlog and the socket calls after, whether the RX thread dies (a refused send to an unregistered consumer, or a datagram error that is neither a reset nor a refused peer), and whether the connection is reported closed (a reset, or any error or standstill on a stream) |
| ConsumerIo.ConsumerIO.LoopbackTurn | src/sockcan/daemon/_server.py:802-831 | the same for a loopback frame and the TX thread, and by how many bytes of a frame that broke off the wire grows |
| ConsumerIo.ConsumerIO.QueueFrame | src/sockcan/daemon/_server.py:321-339 | counts a drop on a full backlog, appends, promotes a registered consumer to write interest |
| ConsumerIo.ConsumerIO.SendFrame | src/sockcan/_protocol.py:422-442 | a send does what the socket's schedule makes of 16 bytes: all of them, none after a refusal, or a failure after some |
| ConsumerIo.ConsumerIO.DrainBacklog | src/sockcan/daemon/_server.py:848-894 | with RX forwarding a burst at every point between two steps of the drain, also just before the lock, it ends: empty, demoted and with `dropped` reset, or refused by the socket and still watched, or, only after a send that failed, unregistered or with the thread gone; a good schedule loses nothing; when RX keeps out, the schedule and the backlog's length decide exactly what is left of the backlog, the socket calls, the registration and whether the thread lives |
| ConsumerIo.ConsumerIO.SendPeeked | src/sockcan/daemon/_server.py:860-879 | the answer of the socket to the head decides: refused, the drain stops and keeps it; a reset, or any error on a stream, unregisters the consumer; accepted, or nobody listening on a datagram, it is to be popped and the drain goes on; any other error ends the thread |
| ConsumerIo.DatagramDrain | src/sockcan/daemon/_server.py:854-879 | on datagrams, a drain whose first k sends are taken or find nobody listening takes k frames off the backlog and comes out as the next call has it: refused, reset, raising, or with nothing left |
| ConsumerIo.DrainPays | src/sockcan/daemon/_server.py:851-863 | under a good schedule a drain never fails, and each one uses up some of a bound of five drains for every queued frame |
| ConsumerIo.ConsumerIO.ReadFailed | src/sockcan/daemon/_server.py:773-785 | a failed read unregisters the consumer and leaves its backlog alone |
| ConsumerIo.ConsumerIO.LiveStreamIsWholeIff | src/sockcan/daemon/_server.py:685-707 | the wire of a registered consumer not reported closed is whole delivered frames if and only if no loopback send broke off inside a frame |
| ConsumerIo.BrokenIsNotWhole | src/sockcan/_protocol.py:359-365 | a frame broken off inside leaves a stream that is no sequence of whole frames |
| ConsumerIo.LoopbackTears | src/sockcan/daemon/_server.py:823-826 | a schedule under which a loopback frame breaks off, the consumer stays connected, and no sequence of frames spells its stream any more |
| ConsumerIo.WholeIffNoStrayBytes | src/sockcan/_protocol.py:359-365 | the stream is whole delivered frames if and only if it has 16 bytes for each of them |
| ConsumerIo.WholeOnWireNext | src/sockcan/_protocol.py:438-442 | a delivered frame extends a stream of whole frames to one |
| VirtualBus.Server.ListenTo | src/sockcan/daemon/_server.py:469-512 | a new consumer hears nothing from before its subscription |
| VirtualBus.HeardNext | src/sockcan/daemon/_server.py:806-815 | a frame adds itself to what a consumer is to hear exactly if another consumer sent it and it passes the filters |
| VirtualBus.Server.Loopback | src/sockcan/daemon/_server.py:787-831 | after a frame from one consumer every consumer has accepted exactly what it is to hear, or a prefix of it if the thread died on the way; it dies if and only if, beforehand, some other consumer accepts the frame with no backlog and its next send is refused while it is unregistered or raises; up to there every backlog, call count and count of torn bytes is what the schedules make of the frame, and beyond nothing changes |
| VirtualBus.Server.Handle | src/sockcan/daemon/_server.py:755-896 | the same for an event as it comes, which is passed over if the selector does not watch its consumer; nobody's subscription point moves, and a subscription adds one at the present arrivals; whoever an event has no news for keeps its backlog, call count and registration, unless it is found writable: then it is drained as its schedule has it, whatever it sent in the same event |
| VirtualBus.Server.HandleReady | src/sockcan/daemon/_server.py:757-894 | one selected event, a read, failed read, write-readiness or both, keeps that and records its arrival; a drain leaves its consumer the backlog, call count and registration the schedule has for it, watched for writing just if a backlog is left; the thread dies if and only if forwarding the frame or the drain's last send raises; and the other consumers change by the frame alone |
| VirtualBus.Server.Run | src/sockcan/daemon/_server.py:755-896 | over any run of events and subscriptions the arrivals are the frames of the events handled; every consumer keeps the arrival count, schedule and filters it joined with, and who joins has the count of that moment; all events are handled, while the thread lives, but those about consumers that have not joined or are unregistered; and with good schedules and no failed read it lives to the end; and while it lives, a consumer with a good schedule for which the run has no news, and that is found writable five times for every frame in its backlog, ends with an empty backlog and, if it was to hear no more than a backlog holds, with all it is to hear whole on its wire and nothing else |
| VirtualBus.Server.RefinesBroadcast | src/sockcan/daemon/_server.py:787-894 | with nothing evicted or failed, delivered plus queued is what all others sent since the subscription, through the consumer's filters, in order, once each, never its own, a prefix of it if the thread has died; a registered consumer's socket holds what was delivered, whole, if and only if no loopback send broke off |
| VirtualBus.Server.EvictsOnlyBeyondBacklog | src/sockcan/daemon/_server.py:369-371 | nothing is evicted before a consumer was to hear more than a backlog holds |
| VirtualBus.Server.GoodSocketsHearEverything | src/sockcan/daemon/_server.py:787-894 | a consumer whose socket never fails and never stalls five times running, and that is to hear no more than a backlog holds, has the first frames of the broadcast whole on its wire and the rest queued: all of it if the thread runs, and so if everyone's socket is as good and no read failed |
| VirtualBus.Server.NobodyIsStranded | src/sockcan/daemon/_server.py:884-894 | on a virtual bus no backlog is unwatched and the drop count is exact |
| VirtualBus.Server.RunningIff | src/sockcan/daemon/_server.py:722-730 | the thread runs if and only if no step in the history of any consumer raised |
| VirtualBus.Server.StreamServerKeepsRunning | src/sockcan/daemon/_server.py:776-784 | on a stream server it runs while every consumer is registered |
| VirtualBus.Server.GoodSocketsKeepItRunning | src/sockcan/daemon/_server.py:776-784 | with good schedules and no failed read it runs and everyone is registered |
| VirtualBus.FailedReadEndsServer | src/sockcan/daemon/_server.py:816-820 | a run over sockets that never fail in which one failed read and a later refused send to that consumer end the thread |
| RealBus.Server.Do | src/sockcan/daemon/_server.py:772-894 | a subscription, loopback frame, drain or failed read between two turns of RX has its effect on its consumer (the line the schedule has for a forwarded frame or a drain, or unregistration) and touches no other, ends TX exactly when its send raises, moves nobody's point of subscription or removal, and leaves what everyone is to hear from the bus as it was |
| RealBus.Server.Visit | src/sockcan/daemon/_server.py:671-712 | in its turn a listed consumer that accepts the frame gets it, with the backlog and socket calls its schedule makes of it, anybody else is left alone, nobody's points move, and RX dies if and only if that send is refused while the consumer is unregistered, or raises |
| RealBus.Server.Cleanup | src/sockcan/daemon/_server.py:639-663 | off the list goes exactly who was found closed or unregistered, nobody's points move, and the bus is told what the rest want |
| RealBus.WantedByOne | src/sockcan/daemon/_server.py:306-318 | what the bus is told to let through is what some listed consumer accepts, or everything if nobody is listed |
| RealBus.DroppedByAll | src/sockcan/daemon/_server.py:459-467 | what the bus filter drops, no listed consumer accepts |
| RealBus.Server.OnBus | src/sockcan/daemon/_server.py:638-712 | a frame on the bus, with subscriptions, loopback, drains and failed reads between any two turns of its fan-out, keeps all that: old consumers keep their points, newcomers join at the stream before the frame, and exactly those closed or unregistered by then leave, at the stream after it; if nobody cuts in, RX survives it if and only if no consumer's turn ends it, and every line is what the schedules make of the frame |
| RealBus.Server.Run | src/sockcan/daemon/_server.py:638-712 | over any run the book goes event by event: a frame extends the stream and moves points only as above, an act only adds its subscription, at the stream of that moment; all events are handled while RX lives; with good schedules and no failed read both threads live to the end |
| RealBus.PointsStay | src/sockcan/daemon/_server.py:638-712 | along any run everyone keeps the schedule, filters and point of the stream it joined with, who is off the list stays off with the point it left at, and the stream grows by exactly the frames of the events |
| RealBus.Server.AcceptsTheStream | src/sockcan/daemon/_server.py:671-711 | the bus frames a consumer has accepted are the bus's stream from its subscription to its removal, or to now, through its filters, none missing while RX lives and a prefix after |
| RealBus.Server.HearsTheBus | src/sockcan/daemon/_server.py:671-711 | with nothing evicted or failed, so are the bus frames among those delivered followed by those queued, whatever TX sent in between |
| RealBus.Server.GoodSocketsHearTheBus | src/sockcan/daemon/_server.py:671-711 | with good schedules and no failed read everyone whose log a backlog could hold has all of the stream since its subscription, through its filters, delivered, whole on its wire, or queued |
| RealBus.Server.SocketsHoldWholeFrames | src/sockcan/daemon/_server.py:685-707 | a good socket's wire is the whole encodings of what was delivered, and so is that of any consumer still connected, if and only if no loopback frame broke off on it |
| RealBus.Server.GoodSocketsKeepBothRunning | src/sockcan/daemon/_server.py:776-784 | with good schedules and no failed read both threads run and everyone is listed and registered |
| RealBus.FailedReadEndsRx | src/sockcan/daemon/_server.py:687-697 | a run over a socket that never fails in which a failed read and the next bus frame end RX |
| Registry.Server.Act | src/sockcan/daemon/_server.py:500-512 | any statement of the HTTP or TX thread has its effect and keeps every listed consumer with its IO entry |
| Registry.Server.Interfere | src/sockcan/daemon/_server.py:500-512 | between any two statements of RX the others take a whole burst, statement by statement, with exactly that effect |
| Registry.Server.DropClosed | src/sockcan/daemon/_server.py:641-644 | `remove` and `del` each hit an entry although other threads act between them, and the others keep their order |
| Registry.Server.DropDead | src/sockcan/daemon/_server.py:648-660 | a reported socket leaves both collections, and changes the list exactly if the other path had not removed it |
| Registry.Server.Cleanup | src/sockcan/daemon/_server.py:640-663 | afterwards no closed or reported socket is in either collection, every other consumer still is, and the change flag is exact |
| Registry.Server.FanOut | src/sockcan/daemon/_server.py:671-707 | every consumer visited, also one subscribed meanwhile, finds its own IO entry, and exactly those whose send failed are reported closed |
| Registry.Server.RunRx | src/sockcan/daemon/_server.py:638-711 | over any number of turns, with the others in between: each turn looks up every listed consumer's own entry and none that is gone, takes out whoever failed in the turn before, and what is gone stays gone and was either reported or failed |
| Registry.RemoveFromDistinct | src/sockcan/daemon/_server.py:643-643 | removing a consumer takes out it alone |
| Pacing.BusSender.Send | src/sockcan/daemon/_server.py:839-846 | frames are sent in order, and the recorded time is the reading if enough time has passed, else the end of the remaining contention time plus what the sleep overran |
| Pacing.BusSender.Run | src/sockcan/daemon/_server.py:753-754 | n sends span at least n-1 contention times |
| Pacing.RateLimit | src/sockcan/daemon/_server.py:839-844 | any stretch of time holds at most window/contention + 1 sends |
| CanFrame.ImpliedFlag | src/sockcan/_protocol.py:331-332 | the extended flag is implied exactly by identifier bits 11 to 26 |
| CanFrame.EncodeSucceeds | src/sockcan/_protocol.py:334-334 | a header can be packed exactly for identifiers below 2^32 |
| CanFrame.EncodeLayout | src/sockcan/_protocol.py:438-439 | the 16 bytes one by one: the identifier lowest byte first, the flag in the top bit, the length, three zero bytes, the data, zeros |
| CanFrame.DecodeLayout | src/sockcan/_protocol.py:280-286 | what any 16 bytes are read as: the low 29 bits of the little-endian word, its top bit, and up to 8 data bytes from the ninth |
| CanFrame.DecodeEncode | src/sockcan/_protocol.py:280-291 | what arrives when any frame that can be sent is sent |
| CanFrame.RoundTrip | src/sockcan/_protocol.py:318-334 | identifiers below 2^29, data up to 8 bytes and the possibly implied flag come back |
| CanFrame.DecodedFits | src/sockcan/_protocol.py:284-286 | every received frame can be sent on |
| CanFrame.HopIdempotent | src/sockcan/daemon/_server.py:806-815 | decoding and encoding again is idempotent on any 16 bytes |
| CanFrame.ManyHops | src/sockcan/daemon/_server.py:806-815 | any number of hops amounts to one |
| CanFrame.HopKeepsEncoding | src/sockcan/_protocol.py:284-286 | a hop leaves an encoder's bytes identical if and only if identifier bits 29 and 30 are clear |
| Stream.CompleteSend | src/sockcan/_protocol.py:349-386 | ends after boundedly many calls for any mix of progress and stalls, has written the payload up to where it stopped, and gives up only after the attempts are used up without progress |
| Stream.CompletedIsBounded | src/sockcan/_protocol.py:368-386 | at most `attempts` calls for every byte left, for any mix of progress and stalls |
| Stream.CompletedTries | src/sockcan/_protocol.py:377-386 | it gives up only after `attempts` consecutive stalls, and otherwise never saw as many |
| Stream.StalledOut | src/sockcan/_protocol.py:377-386 | after `attempts` consecutive stalls it does give up, with the bytes written so far |
| Stream.StreamEndingMeans | src/sockcan/_protocol.py:438-442 | what the answer of any schedule to one frame can be, and why |
| Stream.SendStream | src/sockcan/_protocol.py:422-442 | all 16 bytes written, or refused with none written, or failed, and then only by a failing call or by five calls without progress inside the frame; never under a good schedule |
| Stream.SendDatagram | src/sockcan/_protocol.py:389-402 | a datagram is sent whole or not at all |
| Stream.CompleteFrame | src/sockcan/_protocol.py:218-248 | joins exactly the next bytes of the stream, or reports the close or error that cut the frame off |
| Stream.RecvStream | src/sockcan/_protocol.py:251-291 | a frame is decoded from exactly the next 16 bytes, and the three ways to fail are told apart |
| Stream.SendAll | src/sockcan/_protocol.py:438-442 | repeated sends put whole encodings on the wire, plus at most one partial frame if the last failed, which a failing call or five stalls inside it explain; under a good schedule all are sent |
| Stream.RecvAll | src/sockcan/_protocol.py:269-291 | repeated receives decode the stream frame by frame at positions that are multiples of 16, to its end unless a read failed |
| Stream.DecodeEncodeAll | src/sockcan/_protocol.py:280-291 | decoding the concatenated encodings gives the frames as received |
| Stream.Transfer | src/sockcan/_protocol.py:422-442 | for every frame list and all schedules of partial writes, stalls and partial reads, the receiver gets exactly the frames that went out whole, in order; these are all of them if no call fails and progress is seen in any five calls, and otherwise the calls say why not |
| Stream.GoodWritesTakeAgain | src/sockcan/_protocol.py:343-346 | a schedule with progress in any five calls is one the sender may retry under |
| Filters.FrameMatches | src/sockcan/daemon/_server.py:81-104 | true exactly if there are no filters or, for some filter, the identifiers agree under the mask and the filter is for either kind of frame or for this one |
| Filters.AcceptsIff | src/sockcan/daemon/_server.py:95-103 | that is, exactly if some filter's identifier agrees with the frame's on every bit of the mask and its kind fits |
| Filters.OneFilter | src/sockcan/daemon/_server.py:95-103 | a full-mask filter with a kind accepts that identifier of that kind and nothing else |
| Filters.SpecsSelect | src/sockcan/daemon/_server.py:61-78 | no subscription filters accept everything, and a list of them just what they say |
| Filters.ThroughMeans | src/sockcan/daemon/_server.py:81-104 | filtering a stream takes its frames one by one, in order, and keeps those accepted |
| Filters.IdsSelectThemselves | src/sockcan/daemon/_server.py:61-78 | a set of 29-bit identifiers selects exactly them, an empty one everything |
| Filters.AggregateFilters | src/sockcan/daemon/_server.py:306-318 | computes the union the specification defines |
| Filters.UnionIsWhatAnyoneWants | src/sockcan/daemon/_server.py:306-318 | the bus lets a frame through exactly if some consumer accepts it, or there is none |
| Filters.BusFilterIsInvisible | src/sockcan/daemon/_server.py:459-467 | filtering on the bus first never changes what a consumer gets |
| Filters.PipelineIffSubscribed | src/sockcan/interop.py:195-211 | the three stages give the client its own filters' view of the bus, for every stream, if and only if its filters accept nothing its subscription rejects |
| Filters.UserspaceBus.SetFilters | src/sockcan/interop.py:224-236 | only the stored filters change, nothing in flight is lost |
| Filters.UserspaceBus.Recv | src/sockcan/interop.py:195-211 | the first frame that passes, having dropped only frames that do not |
| Filters.UserspaceBus.RecvAll | src/sockcan/interop.py:206-211 | receiving on yields the stream filtered |
| Signals.ExtractedAreActive | src/sockcan/transcoders/_common.py:55-65 | exactly the signals that are tied to the selector's value or to none are extracted |
| Signals.MaskIsField | src/sockcan/transcoders/_common.py:34-35 | the mask is the run of `length` bits from `start`, and its bit count is the length |
| Signals.BuiltAs | src/sockcan/transcoders/_common.py:28-52 | name, start, scale, the offset or 0, and a mask with exactly the bits from `start` to `start + length` |
| Signals.ReadBack | src/sockcan/transcoders/_decoders.py:67-68 | a signal that shares no bit with the others present reads back its raw value, 0 if absent |
| Signals.RoundTripIffDisjoint | src/sockcan/transcoders/_encoders.py:30-55 | every packing of fitting raw values reads back if and only if no two masks overlap |
| Signals.PackFits | src/sockcan/transcoders/_encoders.py:55-56 | masks within n bits keep the payload below 2^n |
| Signals.ExtractFits | src/sockcan/transcoders/_decoders.py:68-68 | an extracted value always fits its signal |
| Signals.BytesRoundTrip | src/sockcan/transcoders/_encoders.py:56-56 | little-endian bytes give the number back |
| Signals.ByteAt | src/sockcan/transcoders/_encoders.py:56-56 | byte k is the number over 256^k, modulo 256 |
| Signals.ReadFrom | src/sockcan/transcoders/_decoders.py:56-68 | what a signal is read as: bit i is bit (start + i) % 8 of byte (start + i) / 8 |
| Encoder.Encode | src/sockcan/transcoders/_encoders.py:23-56 | succeeds exactly if every named signal has a raw value and the whole fits the length, then packs exactly those; otherwise raises the first signal's error or the overflow |
| Encoder.RawOfMeans | src/sockcan/transcoders/_encoders.py:33-54 | the raw value of a number is (x - offset) / scale rounded toward zero if that fits the signal, and an overflow if not; a text, or a number to be looked up, fails an assertion, and a scale of 0 is a division by it |
| Encoder.TextIsNeverEncoded | src/sockcan/transcoders/_encoders.py:35-43 | a text value for any signal makes the encoder fail |
| Encoder.AcceptedIff | src/sockcan/transcoders/_encoders.py:44-54 | a number is accepted exactly if the scale is not zero and its unrounded raw value lies strictly between -1 and the range |
| Encoder.FitsTheMessage | src/sockcan/transcoders/_encoders.py:56-56 | with every mask within the message, the final conversion cannot overflow |
| Decoder.Decode | src/sockcan/transcoders/_decoders.py:48-74 | succeeds exactly if no scale is zero, with an entry for every signal and nothing else |
| Decoder.RunDecoder | src/sockcan/transcoders/_decoders.py:59-74 | fails with KeyError exactly if the selector's value has no group, otherwise decodes that group |
| Decoder.BuildDecoder | src/sockcan/transcoders/_decoders.py:77-115 | succeeds exactly with at most one multiplexer signal, with one group for every selector value in use, holding its active signals |
| Transcoding.RawRoundTrip | src/sockcan/transcoders/_encoders.py:31-55 | an active signal's place holds its raw value although the encoder packs all groups into one payload |
| Transcoding.EncodedNumber | src/sockcan/transcoders/_encoders.py:46-56 | about the bytes themselves: at the bits of a signal that overlaps no other stands (x - offset) / scale rounded toward zero, lowest bit first, and it stands for x to within less than the scale |
| Transcoding.DecodedNumber | src/sockcan/transcoders/_decoders.py:56-73 | the value the decoder returns for a signal is computed from exactly those bits of the bytes |
| Transcoding.PlainRoundTrip | src/sockcan/transcoders/_decoders.py:85-92 | decoding an encoded plain message returns every signal with its encoded raw value, 0 if absent |
| Transcoding.MultiplexedRoundTrip | src/sockcan/transcoders/_decoders.py:94-115 | for a payload of group m the decoder recovers m, fails exactly if no signal is tied to m, and else returns group m and nothing else; groups may overlap |
| Scaling.EncodingError | src/sockcan/transcoders/_encoders.py:46-46 | the packed value stands for the given one to within less than the scale |
| Scaling.DecodingError | src/sockcan/transcoders/_decoders.py:72-73 | the decoded value differs from the raw value by less than 1/scale |
| Scaling.FromRawIs | src/sockcan/transcoders/_decoders.py:72-73 | that value is scale * raw + offset rounded toward zero, without the offset, over the scale |
| Scaling.TruncError | src/sockcan/transcoders/_encoders.py:46-46 | rounding is toward zero, by less than 1 |
| Scaling.IntegerScaleIsExact | src/sockcan/transcoders/_decoders.py:72-73 | for an integer scale and offset it is the raw value |
| Scaling.RescaledIsWhole | src/sockcan/transcoders/_decoders.py:72-73 | putting a decoded value back through the scale gives the physical value truncated to a whole number |
| Scaling.RoundTripError | src/sockcan/transcoders/_encoders.py:46-46 | that whole number is the value that was encoded to within the scale plus one |
| Scaling.PhysicalIffUnscaled | src/sockcan/transcoders/_decoders.py:72-73 | the decoder returns the physical value of every raw value if and only if the scale is 1 and the offset 0 |
| Scaling.IntegerPhysicalIff | src/sockcan/transcoders/_decoders.py:72-73 | for an integer scale and offset, exactly for raw values the conversion leaves alone |
| Scaling.ScaledIsNotPhysical | src/sockcan/transcoders/_decoders.py:72-73 | raw value 1 at scale 2 decodes to 1, not 2 |

## Left out

- Threads writing to one socket at once: a frame send is one step, so two threads' bytes never mix inside
  a frame in the model; the source has no send lock that would prevent it.
- Subscriptions and removals during another thread's iteration over `_consumers`: `VirtualBus` has
  subscriptions between events only, `RealBus` between any two turns of RX, where listing a consumer and
  telling the bus are one step; in `Registry` they happen between any two statements, but a removal only
  there where the RX thread itself makes it, and TX's iteration over the list is not modelled.
- The race between two threads each refreshing the bus filters; a frame on the bus between a subscription
  and the refresh that follows it.
- RealBus.Server.Do: a drain is one act there, so RX does not cut into it; `DrainBacklog` has that, for one
  consumer. Which consumer a loopback frame came from, and TX's send to the bus, are left open.
- RealBus.Server.OnBus: `recv` returns what the bus filter lets through; its errors, which end RX, are not modelled.
- The forced stream sender of a datagram server (src/sockcan/daemon/_server.py:531-539): it gets a datagram
  pair, which takes a frame whole or not at all, so it is modelled as any other datagram consumer;
  `listen_to` called with `force_stream` for a stream socket is not modelled.
- The HTTP handlers, daemon start-up and client connection: I/O and string plumbing.
- Thread start and stop, the kill switch and its wake-up byte; that `stop` ends the TX thread is not claimed.
- The RuntimeError for a stream socket on a datagram server, and socket options.
- Timestamps, floating-point rounding, caching, logging and the candump writer.
- Named values in the decoder and the reused `container` dictionary; the encoder's branch for them is modelled.
- RelayRaces.CounterExactIff: takes the fullness check and the increment as one step, and the drain's
  report and reset as another; an increment that falls between them is not modelled.
- ConsumerIo.ConsumerIO.Interfere: the burst of frames RX forwards at one point is whole frames; finer
  interleavings, inside one forwarding, are runs of the machine in `Relay` only.
- Filters.UserspaceBus.Recv: a receive that would wait for the next frame is a `None`, and the base
  receive's own timeout result is not modelled.
- Decoder.BuildDecoder: that a message is multiplexed is taken to mean that one of its signals is a
  multiplexer; `cantools` is not part of this model.
- Pacing.BusSender.Send: times are those recorded in `last_sent`, not those at which the bus takes the frame.
- The FastSocketcanBus, python-can backend injection, the command line and the benchmarks: thin wrappers.
