/** One end of a tunnelled connection: a TCP socket, the two io.Copy goroutines around it and the wait
    group they count down. The client and the server run the same code here, on opposite pipes. */
module Relay {
  import opened Basics

  /** A TCP connection as its owner sees it. `incoming` is in the kernel, `taken` has been read from the
      connection and `given` has been written to it. */
  datatype Socket = Socket(incoming: seq<byte>, peerClosed: bool, broken: bool, closed: bool,
                           taken: seq<byte>, given: seq<byte>)

  const NEW_SOCKET := Socket([], false, false, false, [], [])

  /** How one direction of a stream ends: a FIN (Close) or a reset (CancelWrite), sent and then delivered. */
  datatype Ending = Open | FinSent | FinArrived | ResetSent | ResetArrived

  /** One direction of a QUIC stream, a reliable ordered byte pipe (section 2.2 of RFC 9000).
      `stopped` records the receiver's CancelRead. */
  datatype Pipe = Pipe(wire: seq<byte>, inbox: seq<byte>, ending: Ending, stopped: bool)

  const NEW_PIPE := Pipe([], [], Open, false)

  /** io.Copy followed by Close and Done. `held` is the chunk read and not yet written; a copier that
      ended is clean when io.Copy returned no error, that is, when it saw the end of its source. */
  datatype Copier = Copying(held: seq<byte>) | Returned(clean: bool) | Done(clean: bool)

  // `out` copies TCP to QUIC, `back` copies QUIC to TCP, `pending` is the wait group's counter.
  datatype Endpoint = Endpoint(tcp: Socket, out: Copier, back: Copier, pending: nat)

  const NEW_ENDPOINT := Endpoint(NEW_SOCKET, Copying([]), Copying([]), 2)

  datatype RelayAct =
    | OutRead(n: nat) | OutEof | OutReadError | OutWrite | OutWriteError(n: nat) | OutDone
    | BackRead(n: nat) | BackEof | BackReadError | BackWrite | BackWriteError(n: nat) | BackDone

  // An endpoint with the pipe it writes to and the pipe it reads from.
  datatype Leg = Leg(end: Endpoint, out: Pipe, back: Pipe)

  predicate Idle(c: Copier) {
    c == Copying([])
  }

  predicate Holding(c: Copier) {
    c.Copying? && c.held != []
  }

  function Held(c: Copier): seq<byte> {
    if c.Copying? then c.held else []
  }

  // The copier's last two statements: dst.Close() or src.Close() on its TCP side, then streamWait.Done().
  function CloseTcp(e: Endpoint): Endpoint {
    e.(tcp := e.tcp.(closed := true), pending := if e.pending == 0 then 0 else e.pending - 1)
  }

  /** One step of one copier; None when the step is not possible. `alive` is the QUIC session. */
  function CopyStep(l: Leg, alive: bool, act: RelayAct): Option<Leg> {
    var e := l.end;
    var tcp := e.tcp;
    match act
    case OutRead(n) =>
      if Idle(e.out) && !tcp.closed && 1 <= n <= |tcp.incoming| then
        Some(l.(end := e.(tcp := tcp.(incoming := tcp.incoming[n..], taken := tcp.taken + tcp.incoming[..n]),
                          out := Copying(tcp.incoming[..n]))))
      else None
    case OutEof =>
      if Idle(e.out) && !tcp.closed && tcp.incoming == [] && tcp.peerClosed
      then Some(l.(end := e.(out := Returned(true)))) else None
    case OutReadError =>
      if Idle(e.out) && (tcp.closed || tcp.broken)
      then Some(l.(end := e.(out := Returned(false)))) else None
    case OutWrite =>
      if Holding(e.out) && alive
      then Some(l.(end := e.(out := Copying([])), out := l.out.(wire := l.out.wire + e.out.held))) else None
    case OutWriteError(n) =>
      if Holding(e.out) && (!alive || l.out.stopped) && n <= |e.out.held| && (!alive ==> n == 0)
      then Some(l.(end := e.(out := Returned(false)), out := l.out.(wire := l.out.wire + e.out.held[..n]))) else None
    case OutDone =>
      if e.out.Returned? then Some(l.(end := CloseTcp(e).(out := Done(e.out.clean)))) else None
    case BackRead(n) =>
      if Idle(e.back) && alive && l.back.ending != ResetArrived && 1 <= n <= |l.back.inbox| then
        Some(l.(end := e.(back := Copying(l.back.inbox[..n])), back := l.back.(inbox := l.back.inbox[n..])))
      else None
    case BackEof =>
      if Idle(e.back) && alive && l.back.ending == FinArrived && l.back.inbox == []
      then Some(l.(end := e.(back := Returned(true)))) else None
    case BackReadError =>
      if Idle(e.back) && (!alive || l.back.ending == ResetArrived)
      then Some(l.(end := e.(back := Returned(false)))) else None
    case BackWrite =>
      if Holding(e.back) && !tcp.closed && !tcp.broken
      then Some(l.(end := e.(tcp := tcp.(given := tcp.given + e.back.held), back := Copying([])))) else None
    case BackWriteError(n) =>
      if Holding(e.back) && (tcp.closed || tcp.broken) && n <= |e.back.held| && (tcp.closed ==> n == 0) then
        Some(l.(end := e.(tcp := tcp.(given := tcp.given + e.back.held[..n]), back := Returned(false))))
      else None
    case BackDone =>
      if e.back.Returned? then Some(l.(end := CloseTcp(e).(back := Done(e.back.clean)))) else None
  }

  // ---- the network ----

  datatype NetAct = Deliver(n: nat) | DeliverEnd

  // Bytes arrive in order; a FIN arrives after all of them, a reset discards what has not been read.
  function Carry(p: Pipe, act: NetAct): Option<Pipe> {
    match act
    case Deliver(n) =>
      if 1 <= n <= |p.wire| && p.ending != ResetArrived
      then Some(p.(wire := p.wire[n..], inbox := p.inbox + p.wire[..n])) else None
    case DeliverEnd =>
      if p.ending == FinSent && p.wire == [] then Some(p.(ending := FinArrived))
      else if p.ending == ResetSent then Some(p.(wire := [], inbox := [], ending := ResetArrived))
      else None
  }

  // ---- the peer at the other end of the TCP connection ----

  datatype PeerAct = PeerSends(bytes: seq<byte>) | PeerCloses | PeerResets

  function Peer(tcp: Socket, act: PeerAct): Option<Socket> {
    match act
    case PeerSends(bytes) => if tcp.peerClosed || tcp.broken then None else Some(tcp.(incoming := tcp.incoming + bytes))
    case PeerCloses => Some(tcp.(peerClosed := true))
    case PeerResets => Some(tcp.(broken := true))
  }

  // ---- what one end keeps to itself ----

  // The wait group counts the copiers that have not called Done, and a copier that has done so closed TCP. A
  // TCP-to-QUIC copier that saw the end of its source has read all there was.
  predicate EndpointOk(e: Endpoint) {
    && e.pending == (if e.out.Done? then 0 else 1) + (if e.back.Done? then 0 else 1)
    && (e.out.Done? || e.back.Done? ==> e.tcp.closed)
    && (!e.out.Copying? && e.out.clean ==> e.tcp.peerClosed && e.tcp.incoming == [])
  }

  // A QUIC-to-TCP copier fails only for one of these reasons.
  predicate FailureOk(tcp: Socket, back: Copier, p: Pipe, alive: bool) {
    !back.Copying? && !back.clean ==> !alive || p.ending == ResetArrived || tcp.closed || tcp.broken
  }

  predicate PipeOk(p: Pipe) {
    && (p.ending == FinArrived ==> p.wire == [])
    && (p.ending == ResetArrived ==> p.wire == [] && p.inbox == [])
  }

  /** A TCP connection is read in order, each byte once: what a copier's step takes is what came next. That the peer has
      closed or reset is nothing a copier brings about or makes undone. */
  lemma ReadsInOrder(l: Leg, alive: bool, act: RelayAct)
    requires CopyStep(l, alive, act).Some?
    ensures var r := CopyStep(l, alive, act).value;
            && r.end.tcp.taken + r.end.tcp.incoming == l.end.tcp.taken + l.end.tcp.incoming
            && l.end.tcp.taken <= r.end.tcp.taken
            && r.end.tcp.peerClosed == l.end.tcp.peerClosed && r.end.tcp.broken == l.end.tcp.broken
  {
  }

  // ---- the flow of bytes in one direction ----

  // Nothing has been lost so far: bytes are lost when the sender's copier fails to write, which takes a dead session
  // or a receiver that has cancelled, and when a reset arrives.
  predicate Lossless(p: Pipe, out: Copier, alive: bool) {
    p.ending != ResetArrived && (out.Copying? || out.clean || (alive && !p.stopped))
  }

  /** `sent` is everything the sender means to say, `got` what the receiver has taken off the stream.
      The rest is under way, or was lost. */
  predicate Tracks(sent: seq<byte>, got: seq<byte>, p: Pipe, out: Copier, alive: bool) {
    && got + p.inbox + p.wire + Held(out) <= sent
    && (Lossless(p, out, alive) ==> got + p.inbox + p.wire + Held(out) == sent)
  }

  /** A whole direction. The sender puts `pre` on the stream before its copier starts, the receiver takes `head` off it
      before its own does; `given` is what the receiving copier has written to its TCP connection. A receiver that
      saw the end of the stream has written everything. */
  predicate Flow(pre: seq<byte>, head: seq<byte>, sender: Endpoint, p: Pipe, given: seq<byte>, back: Copier,
                 alive: bool) {
    && (p.ending != Open ==> sender.out.Done?)
    && head + given <= pre + sender.tcp.taken
    && (back.Copying? ==> Tracks(pre + sender.tcp.taken, head + (given + back.held), p, sender.out, alive))
    && (!back.Copying? && back.clean ==> p.ending == FinArrived && head + given == pre + sender.tcp.taken)
  }

  // Each lemma below says that one kind of step keeps the flow in the direction it belongs to.

  lemma PrefixSplit(a: seq<byte>, b: seq<byte>, c: seq<byte>)
    requires a + b <= a + c
    ensures b <= c
  {
    assert forall i :: 0 <= i < |b| ==> b[i] == (a + b)[|a| + i];
    assert forall i :: 0 <= i < |c| ==> c[i] == (a + c)[|a| + i];
  }

  lemma SenderKeepsTracks(sent: seq<byte>, got: seq<byte>, l: Leg, alive: bool, act: RelayAct)
    requires Tracks(sent, got, l.out, l.end.out, alive)
    requires l.out.ending != Open ==> l.end.out.Done?
    requires CopyStep(l, alive, act).Some?
    ensures var r := CopyStep(l, alive, act).value;
            && r.out.ending == l.out.ending
            && l.end.tcp.taken <= r.end.tcp.taken
            && Tracks(sent + r.end.tcp.taken[|l.end.tcp.taken|..], got, r.out, r.end.out, alive)
  {
  }

  lemma CarryKeepsTracks(sent: seq<byte>, got: seq<byte>, p: Pipe, out: Copier, alive: bool, act: NetAct)
    requires Tracks(sent, got, p, out, alive) && PipeOk(p)
    requires p.ending != Open ==> out.Done?
    requires Carry(p, act).Some?
    ensures Tracks(sent, got, Carry(p, act).value, out, alive) && PipeOk(Carry(p, act).value)
  {
  }

  // Taking n bytes out of the inbox moves them to `got`.
  lemma TakeKeepsTracks(sent: seq<byte>, got: seq<byte>, p: Pipe, out: Copier, alive: bool, n: nat)
    requires Tracks(sent, got, p, out, alive) && n <= |p.inbox|
    ensures Tracks(sent, got + p.inbox[..n], p.(inbox := p.inbox[n..]), out, alive)
    ensures got + p.inbox[..n] <= sent
  {
  }

  // ---- the same for a whole direction ----

  lemma SenderKeepsFlow(pre: seq<byte>, head: seq<byte>, l: Leg, given: seq<byte>, back: Copier, alive: bool,
                        act: RelayAct)
    requires Flow(pre, head, l.end, l.out, given, back, alive)
    requires CopyStep(l, alive, act).Some?
    ensures var r := CopyStep(l, alive, act).value; Flow(pre, head, r.end, r.out, given, back, alive)
  {
    var r := CopyStep(l, alive, act).value;
    var taken, taken' := l.end.tcp.taken, r.end.tcp.taken;
    SplitAt(taken', |taken|);
    assert (pre + taken) + taken'[|taken|..] == pre + taken';
    if back.Copying? {
      SenderKeepsTracks(pre + taken, head + (given + back.held), l, alive, act);
    }
  }

  lemma CarryKeepsFlow(pre: seq<byte>, head: seq<byte>, sender: Endpoint, p: Pipe, given: seq<byte>, back: Copier,
                       alive: bool, act: NetAct)
    requires Flow(pre, head, sender, p, given, back, alive) && PipeOk(p)
    requires Carry(p, act).Some?
    ensures Flow(pre, head, sender, Carry(p, act).value, given, back, alive) && PipeOk(Carry(p, act).value)
  {
  }

  lemma ReceiverKeepsFlow(pre: seq<byte>, head: seq<byte>, sender: Endpoint, l: Leg, alive: bool, act: RelayAct)
    requires Flow(pre, head, sender, l.back, l.end.tcp.given, l.end.back, alive) && PipeOk(l.back) && !l.back.stopped
    requires CopyStep(l, alive, act).Some?
    ensures var r := CopyStep(l, alive, act).value;
            Flow(pre, head, sender, r.back, r.end.tcp.given, r.end.back, alive) && PipeOk(r.back)
  {
  }
}
