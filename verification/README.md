# QPEP verification model

QPEP carries TCP connections over a satellite link inside QUIC streams. The client accepts TCP connections, gives
each a stream on a shared or newly dialled QUIC session, writes a small header with the original addresses and copies
bytes both ways; the server parses the header, dials the destination and copies bytes both ways. The testbed measures
the tunnel with a speed test that starts many transfer threads over a bounded queue. This project models the three
parts whose correctness is not visible in any single function, and proves properties of them:

* **The tunnel** (`Relay`, `Link`, `Tunnel`, `Ledger`, `TunnelSafety`, `Dialling`, `SetUp`, `Reuse`, `Lifecycle`,
  `Teardown`, `Rest`, `Release`, `Delivery`, `Outcomes`, `Conservation`, `TunnelProgress`, `TunnelOutcomes`,
  `Witnesses`). Any number of client and server goroutines, their sockets, streams and sessions form one state
  machine. Each action is a function from state to state; the nondeterminism (the network, peers, dial results, the
  scheduler) is in the choice of actions, so a statement about every sequence of actions is a statement about every
  interleaving. Reading, dialling for and assigning the client's shared `quicSession` are separate actions, as in the
  code. A QUIC stream is a pair of reliable, ordered byte pipes (section 2.2 of RFC 9000); a reset discards what has
  not been read (section 3.2 of RFC 9000). `Relay` is the pair of `io.Copy` goroutines, which client and server share.
* **The transfer engine** (`Transfer`, `TransferResults`, `TransferEngine`, `UploadPlan`, `UploadBody`) of
  `Speedtest.download` and `Speedtest.upload`: a producer, a consumer, worker threads, a bounded queue and the
  `in_flight` counter, once with atomic updates and once with `+=` split into its read and its write; the arithmetic
  that fixes the number of uploads; and the upload body. `Servers` and `BestServer` are the choice of test server.
* **The header codec** (`Header`, `HeaderStream`), over complete buffers and over readers that return short.

## Findings

Properties that one might expect and that do not hold of the code, each with the exact condition under which they do:

* `GetQpepHeader` ignores how much `Read` returned. It parses a well-formed stream correctly if and only if both reads
  are full and the end of the stream is not reported with the header's last byte (`HeaderStream.ParsedIffFullReads`).
  In the tunnel, however a header arrives, the server takes exactly the header off the stream and dials the right
  destination if and only if neither read was short (`TunnelSafety.HeaderIsRightIffReadsFull`), and with short reads
  it does dial a wrong one (`Witnesses.ShortReadsDialNowhere`). The handler's `short` flag records short reads.
* `QpepHeaderFromBytes` multiplies where it should add. With the addition it is the stream parser on every input
  (`Header.FromBytesAddingIsDecode`). As written it agrees, on a buffer that holds a whole header, if and only if the
  source is not IPv4; for an IPv4 source it panics if fewer than two bytes follow the header and otherwise ends two
  bytes late (`Header.FromBytesAgreesIff`, `Header.FromBytesOfEncoding`).
* A connection whose dials have all failed stores nil in the shared session variable, and another goroutine may then
  dereference it. Some run does so in every configuration (`Dialling.PanicIsReachable`). With at least one retry it
  takes both overlapping set-ups and a connection that has used up its dials (`Dialling.PanicNeedsOverlapAndFailure`);
  ruling out either one rules it out exactly when a dial is configured at all (`Dialling.SafeSetUpsIff`).
* A client or destination that closes only its sending half is cut off: its whole TCP connection is closed in time
  (`TunnelOutcomes.GoneInTunnel`), nothing more is then given to it (`Outcomes.ClosedGetsNothing`), and the close
  itself is not passed on. If the other side's peer then keeps silent, its connection open and the session alive, the
  tunnelled connection stays parked if and only if all that this peer had sent had been written by then, and is torn
  down, with the rest lost, otherwise (`TunnelOutcomes.HalfCloseInTunnel`; `Witnesses.ClientHalfCloseParks`,
  `Witnesses.DestinationHalfCloseParks`).
* A server goroutine that finds no header or no destination leaves the client waiting for as long as the session lives
  (`TunnelSafety.AbandonedStreamIsSilent`).
* The server's direction ends by a reset, so a client's copier never sees a clean end
  (`TunnelSafety.ResponseNeverEndsCleanly`), and a response can be lost on a live session in two ways: the reset
  overtakes it (`Witnesses.ResponseIsLost`), or the client's copier fails to write it, as when the client has
  half-closed (`Witnesses.ResponseIsDeclined`). There is no third (`Conservation.LosesResponseIff`): a torn-down
  connection has given the client the whole response if and only if neither happened to a byte of it and none is left
  unread (`TunnelOutcomes.ResponseIsWholeIff`).
* If the updates of `in_flight` are not atomic, a transfer with a thread to run can hang for ever if and only if there
  are more requests than threads; with no thread it hangs if and only if there is a request
  (`TransferResults.HangIff`). It takes updates that overlap: without any, the counter is exact and a run hangs only
  for want of a thread (`TransferResults.NoOverlapHangIff`). Upload is such a transfer (`UploadPlan.UploadHangsIff`).

## Model

| member | source | states |
|---|---|---|
| Header.RoundTrip | src/qpep/shared/qpep_header.go:16-72 | for every valid header and payload, parsing the printed header followed by the payload gives the header with IPv4-mapped addresses reduced to four bytes, and leaves exactly the payload |
| Header.WireFormat | src/qpep/shared/qpep_header.go:16-31 | the bytes printed, one by one: 4 or 6 for each address, then the address and its port in little endian, source before destination |
| Header.MappedIsFour | src/qpep/shared/qpep_header.go:102-108 | an IPv4-mapped address, written out, is printed as its last four bytes, as source or as destination |
| Header.InvalidIsOmitted | src/qpep/shared/qpep_header.go:16-31 | an address that is neither four nor sixteen bytes long is printed as type 0 and its port alone |
| Header.ParsesBack | src/qpep/shared/qpep_header.go:33-72 | whatever the payload, a four-byte address is parsed back as it was, a mapped one as its last four bytes and any other sixteen-byte one as it was, in either place |
| Header.PrefixFree | src/qpep/shared/qpep_header.go:16-31 | two streams that start with headers and are equal have equal headers up to that reduction, and equal payloads |
| Header.EncodingsAgreeIff | src/qpep/shared/qpep_header.go:16-31 | two headers print alike exactly when they are the same up to that reduction |
| Header.ReencodesIff | src/qpep/shared/qpep_header.go:33-72 | parsed bytes print back to themselves exactly when their type bytes are 4 or 6 and no 16-byte address is IPv4-mapped |
| Header.LengthsAgreeIff | src/qpep/shared/qpep_header.go:102-144 | the printed length is what the length function computes from the first two bytes exactly when both addresses have a valid length |
| Header.FromBytesAddingIsDecode | src/qpep/shared/qpep_header.go:74-100 | with the two lengths added instead of multiplied, the slice parser gives the stream parser's header, end offset and failures on every input |
| Header.FromBytesAgreesIff | src/qpep/shared/qpep_header.go:74-100 | as written, on any buffer that holds a whole header, the slice parser agrees with the stream parser exactly when the source is not IPv4; for an IPv4 source it panics exactly when the two bytes past the header are missing, and otherwise ends two bytes late |
| Header.FromBytesOfEncoding | src/qpep/shared/qpep_header.go:74-100 | on a printed header with any payload it is right exactly for sources that are not IPv4, and panics exactly for IPv4 sources with a payload under two bytes |
| HeaderStream.PortBuffer | src/qpep/shared/qpep_header.go:110-114 | the two bytes read back, as the parser reads a port, as the port modulo 65536 |
| HeaderStream.ToBytes | src/qpep/shared/qpep_header.go:16-31 | the appended bytes are the encoding that the round trip is about |
| HeaderStream.GetHeaderLength | src/qpep/shared/qpep_header.go:116-133 | for any stream that starts with the encoding of a valid header, the length of that encoding |
| HeaderStream.Stream.Read | src/qpep/shared/qpep_header.go:36-39 | the io.Reader contract: at least one byte and at most the buffer, the rest of the buffer untouched, an error only at the end of the stream |
| HeaderStream.GetQpepHeader | src/qpep/shared/qpep_header.go:33-72 | result and bytes consumed are those of the two-read parser, for every way the network cuts the stream |
| HeaderStream.FullReadsDecode | src/qpep/shared/qpep_header.go:33-72 | with two full reads the stream parser is the buffer parser |
| HeaderStream.ParsedIffFullReads | src/qpep/shared/qpep_header.go:33-72 | the right header with exactly its bytes consumed, if and only if neither read is short and the end is not reported with the last byte |
| HeaderStream.DestIffFullReads | src/qpep/shared/qpep_header.go:33-72 | whatever the two reads return, they take exactly the header and find its destination if and only if both are full; a short second read may still find the right header, its missing bytes being zero, but then leaves header bytes in front of the payload |
| HeaderStream.ReadFullClosesTheGap | src/qpep/shared/qpep_header.go:36-59 | with a read-until-full loop in place of each Read, every chunking gives the buffer parser's result |
| Relay.ReadsInOrder | src/qpep/client/client.go:141-143 | whatever a copier's step takes off its TCP connection is what came next: taken and still waiting, put together, are unchanged |
| Relay.SenderKeepsFlow | src/qpep/client/client.go:141-152 | every step of either copier at the sending end keeps the accounting of the direction it writes to: taken off the stream, buffered, on the wire and held make up what was read, or a prefix of it once a write failed |
| Relay.ReceiverKeepsFlow | src/qpep/client/client.go:129-139 | the same for the receiving end, where bytes move from the stream to TCP, partial failing writes included |
| Relay.CarryKeepsFlow | src/qpep/client/client.go:120-160 | the same for delivery of bytes, of a FIN and of a reset |
| Link.ClientKeepsLink | src/qpep/client/client.go:118-162 | header write, copier steps and Close keep the invariant of a connection and its stream |
| Link.ServerKeepsLink | src/qpep/server/server.go:67-130 | accept, header reads, dial, copier steps and the two cancels keep it |
| Link.NetworkKeepsLink | src/qpep/server/server.go:67-130 | delivery in either direction keeps it |
| Tunnel.StepKeepsInv | src/qpep/client/client.go:80-162 | every action of any goroutine, peer, session or the network keeps the global invariant: streams disjoint, owned and consistent |
| Tunnel.ReachableInv | src/qpep/client/client.go:64-162 | hence it holds after every sequence of actions |
| Ledger.ConnIsArrival | src/qpep/client/client.go:80-125 | after every sequence of actions there is one connection for each accepted, in order, with exactly the addresses it was accepted with; what it has received, read or not, is what its client sent, in order; and it knows of a close or reset exactly if its client did one |
| Ledger.DestsAreHeard | src/qpep/server/server.go:93-125 | the same for the server's TCP connection of a stream and its destination |
| TunnelSafety.StreamOwnership | src/qpep/client/client.go:83-118 | no two connections ever hold the same stream, and every stream is held by one |
| TunnelSafety.StreamIsForLife | src/qpep/client/client.go:83-162 | no action changes a connection's addresses or takes or replaces its stream |
| TunnelSafety.AtMostOneStreamEach | src/qpep/client/client.go:83-118 | a run opens at most as many streams as it accepts connections |
| TunnelSafety.EndToEnd | src/qpep/server/server.go:82-130 | in every reachable state a served stream belongs to exactly one accepted connection; the client has been given a prefix of what the destination sent; what the server took off the stream is a prefix of the header for that connection's addresses followed by what its client sent, however the header was read; with full header reads the destination has been given a prefix of what the client sent and is the one the connection was bound for |
| TunnelSafety.CleanTransferIsComplete | src/qpep/client/client.go:129-160 | if the server's QUIC-to-TCP copier ended without error, everything the client's copier read was written at the destination (with full header reads); if that copier ended without error too, everything the client ever sent |
| TunnelSafety.ResponseNeverEndsCleanly | src/qpep/server/server.go:126-128 | the client's QUIC-to-TCP copier never ends without error |
| TunnelSafety.ClosedWhenOver | src/qpep/client/client.go:80-118 | a connection that was dropped, or has closed its stream, has closed its TCP connection |
| TunnelSafety.StreamEndsAfterBothCopiers | src/qpep/client/client.go:129-160 | in every reachable state, a direction has been ended only if both copiers at that end are done and its TCP connection is closed |
| TunnelSafety.AbandonedStreamIsSilent | src/qpep/server/server.go:82-97 | while the session lives, a client whose server goroutine gave up has an empty, unended stream to read from and has not closed its own |
| TunnelSafety.HeaderIsRightIffReadsFull | src/qpep/server/server.go:82-104 | in every reachable state, a server goroutine with a header, or that has dialled, took exactly the header off the stream and has the right header, or dialled the right destination, if and only if neither of its header reads was short, in however many pieces the header arrived |
| Dialling.AttemptsMeaning | src/qpep/client/client.go:170-177 | the number of attempts is that of the first success, or all of them |
| Dialling.DialThroughMeaning | src/qpep/client/client.go:103-108 | the tunnel's dialling steps have the loop's outcome |
| SetUp.Client.OpenQuicSession | src/qpep/client/client.go:164-181 | the first successful dial is returned and is the last made; failure only after every retry failed; with no retries a nil session and no error |
| SetUp.Client.OpenStream | src/qpep/client/client.go:90-111 | a live session that agrees gives its next stream; otherwise nothing changes |
| SetUp.AloneIsSequential | src/qpep/client/client.go:83-117 | a goroutine's atomic steps, with nothing between them, amount to the outcome of the code read from top to bottom |
| SetUp.Client.HandleTCPConn | src/qpep/client/client.go:80-118 | the code up to the open stream leaves the shared variables exactly as those atomic steps do |
| SetUp.AlonePanicsIff | src/qpep/client/client.go:83-111 | a goroutine whose set-up nothing interrupts dereferences a nil session exactly when it has to dial and no dial is configured |
| Dialling.DialAccounting | src/qpep/client/client.go:83-117 | any run makes at most ConnectionRetries dials per accepted connection, a connection dropped for want of a session made exactly that many, and none is dropped without having dialled |
| Dialling.PanicNeedsOverlapAndFailure | src/qpep/client/client.go:85-111 | with at least one retry, a run that dereferences a nil session accepted a connection while another was being set up, and some connection used up its dials |
| Dialling.SafeSetUpsIff | src/qpep/client/client.go:85-111 | among the runs that set connections up one after another some dereferences nil exactly when no dial is configured; likewise among the runs in which no connection uses up its dials |
| Dialling.OneAtATimeIsSafe | src/qpep/client/client.go:85-111 | with a retry, no step whatever, in turn or not, dereferences nil next after a run that sets connections up one after another |
| Dialling.PanicIsReachable | src/qpep/client/client.go:85-111 | in every configuration some run dereferences a nil session |
| Dialling.PanicByOverlap | src/qpep/client/client.go:85-111 | with any number of retries two connections are enough |
| Dialling.OneSessionServesAll | src/qpep/client/client.go:83-118 | with MultiStream, connections set up one after another over a healthy session all use one session |
| Dialling.OverlapDialsTwice | src/qpep/client/client.go:85-111 | two overlapping set-ups dial two sessions |
| Reuse.OpensOnLatest | src/qpep/client/client.go:83-117 | while connections are set up one after another, a stream is only ever opened on the session dialled last, and only while it lives |
| Reuse.OneSessionEach | src/qpep/client/client.go:83-117 | without MultiStream, connections set up one after another never share a session |
| Lifecycle.QuiescentIff | src/qpep/client/client.go:129-161 | a copying connection on a live session can make no move exactly when it is torn down at both ends, or parked: both QUIC-to-TCP copiers waiting, nothing in flight, neither side ended |
| Teardown.HelperIsEnabled | src/qpep/client/client.go:129-161 | once the cascade has begun, the process whose turn brings the end nearer can move |
| Teardown.StepForward | src/qpep/server/server.go:102-128 | no step of anyone moves away from the end, and a step of that process moves towards it |
| Teardown.CascadeFrom | src/qpep/server/server.go:102-128 | every fair run of a connection reaches the torn-down state |
| Rest.OwnMoveLowers | src/qpep/client/client.go:129-161 | every step of a copying connection's goroutines or of the network uses up one of finitely many moves |
| Rest.ComesToRest | src/qpep/client/client.go:129-161 | on every fair run with silent peers and a live session a connection comes to rest: torn down if the cascade began, parked otherwise |
| Delivery.StepCarries | src/qpep/client/client.go:129-152 | while a direction is clear no step of anyone makes the bytes still owed more, and a step of whoever has the next byte makes them fewer |
| Delivery.EverythingArrives | src/qpep/client/client.go:129-152 | on every fair run, while the session lives, the receiver's TCP connection stays open and the stream is not reset, everything sent by a moment is in time written at the other end, even if the sender's TCP connection closes or breaks |
| Outcomes.StaysOpen | src/qpep/client/client.go:129-152 | a copying connection that is open both ways at both ends stays so under every step that is no peer's close or reset and not the end of the session |
| Outcomes.OpenDelivers | src/qpep/client/client.go:129-152 | on every fair run on which no peer closes or resets and the session lives, everything sent over a connection open at both ends or waiting to be read there is in time written at the other end, in order, in both directions |
| Outcomes.OpenParksDelivered | src/qpep/client/client.go:129-161 | left undisturbed such a connection parks, still open, and what has been written at each end is, byte for byte, what had been sent or was waiting at the other |
| Outcomes.ClosedGetsNothing | src/qpep/client/client.go:129-152 | a TCP connection that its owner has closed is given nothing more |
| Outcomes.HalfClosedEnds | src/qpep/client/client.go:129-161 | left undisturbed, a connection closed at one end and open at the other gives the closed end nothing more, parks if all that the open end's peer had sent had been written, and is torn down otherwise |
| Release.GoneIsNoticed | src/qpep/client/client.go:141-152 | on every fair run a TCP connection whose peer has closed its half or reset it is in time closed, whatever the session and the other end do |
| Release.DeadSessionEnds | src/qpep/client/client.go:118-162 | on every fair run, once the session is dead, the goroutine of each end returns whatever stage it was in, with its copiers done and its TCP connection closed if it had started them |
| Conservation.StepAccounts | src/qpep/server/server.go:102-128 | on a live session every step of anyone leaves exactly as many bytes more unaccounted for, in either direction, as it throws away |
| Conservation.LosesResponseIff | src/qpep/client/client.go:129-139 | on a live session a step throws bytes of the response away exactly when it is a short failing write of the client's copier or the landing of the server's reset on bytes under way or unread |
| Conservation.NothingAfterReset | src/qpep/server/server.go:126-128 | after the reset has arrived no step gives the client another byte |
| TunnelProgress.QuiescenceInTunnel | src/qpep/client/client.go:129-161 | the quiescence characterisation, in every reachable state of the whole tunnel |
| TunnelProgress.TeardownInTunnel | src/qpep/server/server.go:102-128 | from any reachable copying state in which a QUIC-to-TCP copier has finished or the session died, every fair run of the tunnel reaches a state with all four copiers done, both TCP connections closed, the client stream closed and the server stream cancelled |
| TunnelProgress.RestInTunnel | src/qpep/client/client.go:129-161 | on every fair run of the whole tunnel with this connection's peers silent and its session alive, whatever the others do, a moment comes when nothing of it can move: torn down if a QUIC-to-TCP copier finished, parked if none did |
| TunnelProgress.ArrivesInTunnel | src/qpep/client/client.go:129-152 | on every fair run of the whole tunnel with the session alive, the receiving TCP connection open and the stream not reset, what the client has read reaches the destination (with full header reads), and what the server has read reaches the client |
| TunnelOutcomes.EveryByteAccounted | src/qpep/server/server.go:102-128 | in every reachable state of a live session, over every interleaving, each byte sent in either direction is written, in a copier's hands, under way, unread, or was thrown away by one of the listed steps |
| TunnelOutcomes.ResponseIsWholeIff | src/qpep/server/server.go:102-128 | once a connection on a live session is torn down, the client has been given a prefix of the response, shorter by exactly the bytes thrown away or left unread; all of it if and only if there are none |
| TunnelOutcomes.OpenDeliversInTunnel | src/qpep/client/client.go:129-152 | on every fair run of the whole tunnel on which neither peer closes or resets and the session lives, everything the client has sent so far reaches the destination (with full header reads) and everything the destination has sent reaches the client, in order; nothing is assumed of the program's own later steps |
| TunnelOutcomes.OpenParksInTunnel | src/qpep/client/client.go:129-161 | with silent peers such a connection parks, open as it was, the destination given exactly what the client sent (with full header reads) and the client exactly what the destination sent |
| TunnelOutcomes.HalfCloseInTunnel | src/qpep/client/client.go:141-152 | on every fair run of the whole tunnel with silent peers and a live session, a half-closed connection gives the closed end nothing more, and parks exactly if that end had already been given all that was sent to it, and is torn down otherwise |
| TunnelOutcomes.GoneInTunnel | src/qpep/server/server.go:111-122 | on every fair run of the whole tunnel, once a client or destination has closed or reset, its TCP connection is in time closed |
| TunnelOutcomes.DeadSessionInTunnel | src/qpep/server/server.go:67-130 | on every fair run of the whole tunnel, a connection whose session is dead is let go of at both ends, from the header's writing, reading or dialling stage as from the copying one |
| Witnesses.ShortReadsDialNowhere | src/qpep/server/server.go:82-104 | for every address a run exists in which two short header reads make the server dial port 0 of the unspecified address |
| Witnesses.ClientHalfCloseParks | src/qpep/client/client.go:141-152 | the idle case is reached: a run after which a client that closed its half is parked, its own connection closed and the destination's open |
| Witnesses.DestinationHalfCloseParks | src/qpep/server/server.go:111-122 | the same for a destination that closes its half |
| Witnesses.ResponseIsLost | src/qpep/server/server.go:102-128 | for every response a run exists in which the destination sends it and closes cleanly, the session lives, and the reset discards all of it |
| Witnesses.ResponseIsDeclined | src/qpep/client/client.go:129-152 | for every response a run exists in which the client half-closes before it crosses, the destination never closes, and the connection is torn down on a live session with nothing under way and the client given none of it |
| Transfer.StepKeepsInv | opensand-testbed/proxy-st/speedtest.py:1526-1553 | every step of producer, consumer and workers keeps the engine's invariant |
| Transfer.ReachableInv | opensand-testbed/proxy-st/speedtest.py:1523-1567 | hence it holds after every sequence of steps |
| TransferResults.ThreadBound | opensand-testbed/proxy-st/speedtest.py:1523-1555 | with an atomic counter at most max_threads threads are started and not discounted, -1 <= in_flight <= max_threads, and put never blocks |
| TransferResults.ThreadBoundWithoutCounter | opensand-testbed/proxy-st/speedtest.py:1619-1649 | whatever the counter does, at most max_threads + 2 threads are started and not joined |
| TransferResults.FinishedIsPrefix | opensand-testbed/proxy-st/speedtest.py:1543-1553 | `finished` is always the byte totals of the first requests in request order, whatever order threads end in and whatever updates are lost |
| TransferResults.BytesAreConserved | opensand-testbed/proxy-st/speedtest.py:807-817 | at completion the reported sum is the sum of all chunk lengths of all threads |
| TransferResults.StepsAreProgress | opensand-testbed/proxy-st/speedtest.py:1526-1553 | every step but a busy-wait lowers the measure, and a busy-wait changes nothing |
| TransferResults.RunsAreBounded | opensand-testbed/proxy-st/speedtest.py:1526-1567 | the number of steps of any run, busy-waits aside, is bounded from the start |
| TransferResults.StuckIffAtRest | opensand-testbed/proxy-st/speedtest.py:1526-1553 | the states in which only busy-waiting is possible, characterised |
| TransferResults.BusyWaitIff | opensand-testbed/proxy-st/speedtest.py:1526-1553 | producer and consumer busy-wait exactly while the counter forbids the next request, or the thread taken still runs |
| TransferResults.Progress | opensand-testbed/proxy-st/speedtest.py:1526-1567 | with an atomic counter and a thread, a run that can go no further finished min(request_count, requests) transfers, and both loops ended exactly when request_count <= requests <= request_count + max_threads |
| TransferResults.AtomicNeverHangs | opensand-testbed/proxy-st/speedtest.py:1526-1567 | with as many requests as request_count, no run stops before completion |
| TransferResults.NoThreadsNoProgress | opensand-testbed/proxy-st/speedtest.py:1536-1537 | with max_threads at most zero nothing ever starts |
| TransferResults.StuckWithLostUpdates | opensand-testbed/proxy-st/speedtest.py:1634-1645 | with split updates, a run stopped short has nothing in flight and a counter driven up to max_threads, and more requests than threads |
| TransferResults.LosingRound | opensand-testbed/proxy-st/speedtest.py:1634-1645 | an interleaving of one request in which the consumer's decrement is lost |
| TransferResults.HangIff | opensand-testbed/proxy-st/speedtest.py:1619-1649 | for every configuration, some run hangs exactly when there are requests and no thread, or updates can be lost and there are more requests than threads |
| TransferResults.NoOverlapIsExact | opensand-testbed/proxy-st/speedtest.py:1634-1645 | with split updates of which none overlaps another thread's, the counter is at every moment the requests counted up less those counted down, and the thread bound of the atomic counter holds |
| TransferResults.NoOverlapHangIff | opensand-testbed/proxy-st/speedtest.py:1619-1649 | some run without overlapping updates hangs exactly when there is a request and no thread |
| TransferEngine.Engine.ProducerStep | opensand-testbed/proxy-st/speedtest.py:1526-1541 | one statement of the producer, updating the shared variables in place, is the model's step |
| TransferEngine.Engine.ConsumerStep | opensand-testbed/proxy-st/speedtest.py:1545-1553 | the same for the consumer |
| TransferEngine.Engine.WorkerStep | opensand-testbed/proxy-st/speedtest.py:807-819 | the same for a worker thread |
| TransferEngine.Engine.Run | opensand-testbed/proxy-st/speedtest.py:1555-1570 | under any schedule the transfer terminates with every request's total in place and reports the sum of all chunk lengths |
| UploadPlan.BuildSizes | opensand-testbed/proxy-st/speedtest.py:1585-1589 | the nested loop builds every size `count` times, in order |
| UploadPlan.PlanAt | opensand-testbed/proxy-st/speedtest.py:1585-1589 | request i * count + k is for size i: the requests for one size stand together, in the order of the sizes |
| UploadPlan.SizesOfRatio | opensand-testbed/proxy-st/speedtest.py:1177-1181 | ratio r from 1 to 7 keeps the last 8 - r of the seven sizes, in order; lower ratios count from the end as Python does |
| UploadPlan.SliceMeaning | opensand-testbed/proxy-st/speedtest.py:1177-1181 | the two slices keep the suffix and prefix that Python's do, for negative and for overlong indices too |
| UploadPlan.RequestsHold | opensand-testbed/proxy-st/speedtest.py:1177-1213 | no request of any configuration is smaller than the least size |
| UploadPlan.RequestCount | opensand-testbed/proxy-st/speedtest.py:1177-1213 | the configuration fails exactly for ratio above 7; else upload_max is the least multiple of the number of sizes reaching maxchunkcount, the loop builds exactly that many requests and the producer's slice drops none |
| UploadPlan.UploadHangsIff | opensand-testbed/proxy-st/speedtest.py:1585-1661 | for the requests of any configuration: with an atomic counter no run of upload hangs; with split updates some run hangs exactly when upload_max exceeds max_threads |
| UploadBody.Round36Meaning | opensand-testbed/proxy-st/speedtest.py:841-843 | the number of rows is the nearest one, the even one of two as near |
| UploadBody.BodyLength | opensand-testbed/proxy-st/speedtest.py:841-850 | the body has min(length, 36*round(length/36) + 9) bytes, at most 9 short; it is within the declared length exactly for lengths of at least 9 |
| UploadBody.ConfiguredBodies | opensand-testbed/proxy-st/speedtest.py:841-850 | of the seven configured sizes only 65536 has a body that falls short, by seven bytes |
| UploadBody.BodyIsFullIff | opensand-testbed/proxy-st/speedtest.py:841-850 | the lengths whose body is exactly as long as declared |
| UploadBody.BodyContents | opensand-testbed/proxy-st/speedtest.py:841-850 | `content1=`, then the ten digits and twenty-six capital letters repeated |
| UploadBody.HTTPUploaderData.PreAllocate | opensand-testbed/proxy-st/speedtest.py:841-855 | the data is the body for the declared length |
| UploadBody.HTTPUploaderData.Read | opensand-testbed/proxy-st/speedtest.py:863-870 | chunks are consecutive slices of the body and each is counted once; nothing after the time is up |
| UploadBody.HTTPUploaderData.CountedWithinLength | opensand-testbed/proxy-st/speedtest.py:899-919 | the result reported never exceeds the declared length |
| UploadBody.BytesSentBound | opensand-testbed/proxy-st/speedtest.py:1639-1664 | when each thread transfers what its upload data object counted, then in every reachable state of the engine, over every interleaving, the bytes reported never exceed the sum of the sizes |
| UploadBody.UploadBound | opensand-testbed/proxy-st/speedtest.py:1585-1664 | the same for the sizes of any configuration, with no assumption on them |
| Servers.Speedtest.GetServers | opensand-testbed/proxy-st/speedtest.py:1316-1351 | the buckets hold exactly the eligible servers (wanted, not ignored, not excluded, with a distance), each distance's in list order; failure exactly when a filter was given and none is left |
| Servers.InBucketIff | opensand-testbed/proxy-st/speedtest.py:1316-1341 | a server is in the bucket of its distance exactly when it is listed with that distance, is wanted (if any are named) and is neither ignored nor excluded |
| Servers.Speedtest.GetClosestServers | opensand-testbed/proxy-st/speedtest.py:1415-1425 | appends the stable sort by distance of the servers found, up to the limit; a list already at the limit takes all |
| Servers.WalkMeaning | opensand-testbed/proxy-st/speedtest.py:1415-1422 | where the for/else/break walk stops |
| Servers.BucketsSort | opensand-testbed/proxy-st/speedtest.py:1415-1416 | the buckets in key order are the stable sort |
| Servers.StableSortMeaning | opensand-testbed/proxy-st/speedtest.py:1415-1416 | the reference sort is sorted and keeps, at each distance, the servers in their order |
| Servers.SortIsUnique | opensand-testbed/proxy-st/speedtest.py:1415-1416 | which determines the result |
| Servers.OmittedAreFarther | opensand-testbed/proxy-st/speedtest.py:1415-1422 | every server left out is at least as far as every one kept |
| BestServer.GetBestServer | opensand-testbed/proxy-st/speedtest.py:1444-1501 | three samples per candidate; the server returned has the least rounded score, the last listed among equals; none only for an empty list; of candidates that answered every request none is returned that took longer in all than another by more than six microseconds |
| BestServer.CleanScore | opensand-testbed/proxy-st/speedtest.py:1472-1486 | three clean answers score a sixth of their total time in thousandths of a millisecond, to the nearest |
| BestServer.FailureIsAnHour | opensand-testbed/proxy-st/speedtest.py:1472-1486 | a request that failed or was answered with the wrong text counts as a clean answer after 3600 s, in any of the three places |
| BestServer.FailedScoresHigh | opensand-testbed/proxy-st/speedtest.py:1472-1486 | a candidate with a failed sample scores at least 600000 ms |
| BestServer.CleanBeatsFailed | opensand-testbed/proxy-st/speedtest.py:1472-1486 | three clean samples of at most 3600 s in all never lose to a failed sample |
| BestServer.SafeFromFailedIff | opensand-testbed/proxy-st/speedtest.py:1472-1486 | a candidate is safe from every failed one exactly when it scores at most one penalty |

## Left out

- The tunnel is modelled on values, not objects: its goroutines interleave, so each atomic step is a function on the
  whole state. Update in place and aliasing of Go objects are not captured; `HeaderStream`, `SetUp`, `TransferEngine`,
  `UploadBody`, `Servers` and `BestServer` have the imperative form of their source.
- TunnelProgress.TeardownInTunnel, like every result on fair runs: assumes weak fairness to the connection's own
  goroutines and to the network, and that writes to QUIC and TCP do not block for ever; flow control and full socket
  buffers are not modelled.
- TunnelSafety.EndToEnd: that no header byte is written and that the destination is right assumes that neither header
  read of that stream was short; `HeaderIsRightIffReadsFull` shows this to be the exact condition.
- TunnelProgress.ArrivesInTunnel: assumes that the receiver's TCP connection stays open, as a closed one refuses
  bytes; `TunnelOutcomes.OpenDeliversInTunnel` assumes it of the peers only.
- TunnelOutcomes.HalfCloseInTunnel: the peer at the open end has not closed its half too; where a connection ends that
  both peers have half-closed with bytes under way is not characterised.
- A session dies at both ends at once.
- ConnectionRetries is a natural number; a negative value acts as zero.
- When the client dereferences a nil session the whole model stops: what the server's goroutines still do then is not
  part of this model.
- Header.FromBytesAgreesIff: a slice is taken to have no spare capacity, so that every slice past its end panics.
- UploadPlan.RequestCount: the division is exact; Python's double-precision quotient and Python 2's integer division
  are not modelled.
- QUIC, TLS and TCP internals, linger, idle timers and flow control: the network may delay, a session may die and a
  peer may close or reset at any time.
- Opening a stream may fail at any time and succeeds only on a live session; a stream is accepted by the server at any
  time after it is opened.
- `openQuicStream` in client.go, which is never called, and `generateTLSConfig`, flag parsing, socket options and
  signal handling.
- Accept errors: the client logs a temporary accept error and then exits as for any other; the model only accepts.
- The error variable that the server's two copiers share: it only reaches the log.
- An uploader thread that dies of an exception its `run` does not catch reports no number; every thread here reports
  one.
- HTTP, XML, URL handling, printing and the command line of speedtest.py; the distance formula, of which only the
  order matters; wall-clock time, which appears as a choice (in time or not) or as a given latency.
- Docker and testbed orchestration scripts.
