/** One tunnelled connection: the client goroutine, its QUIC stream and the server goroutine at the other end. */
module Link {
  import opened Basics
  import opened Header
  import opened HeaderStream
  import opened Relay

  // Stream numbers are unique within a session (section 2.1 of RFC 9000).
  datatype StreamId = StreamId(session: nat, number: nat)

  // Where a client goroutine is in handleTCPConn.
  datatype Phase =
    | Checking                                         // before the test of quicSession
    | TryingOpen                                       // before quicSession.OpenStream
    | Dialling(attempt: nat)                           // in openQuicSession
    | Assigning(session: Option<nat>, failed: bool)    // before quicSession, err = ...
    | Opening                                          // before quicSession.OpenStreamSync
    | Opened(id: StreamId)                             // stream open, header not written
    | Joined(id: StreamId)                             // copiers started
    | Finished(id: StreamId)                           // quicStream.Close called
    | Dropped(exhausted: bool)                         // gave up; exhausted: no session could be dialled

  datatype Conn = Conn(source: Addr, dest: Addr, phase: Phase, headerSent: bool, dials: nat, end: Endpoint)

  // Where a server goroutine is in HandleQuicStream and handleTCPConn.
  datatype Stage =
    | Unaccepted | AwaitPreamble | AwaitBody(preamble: seq<byte>)
    | Connecting(header: QpepHeader) | Serving | Cancelled | Abandoned

  // `head` is what the header reads have taken off the stream; `short` records that one of them returned fewer
  // bytes than its buffer holds.
  datatype Handler = Handler(stage: Stage, head: seq<byte>, short: bool, dialled: Option<Addr>, end: Endpoint)

  const NEW_HANDLER := Handler(Unaccepted, [], false, None, NEW_ENDPOINT)

  datatype Channel = Channel(up: Pipe, down: Pipe)

  const NEW_CHANNEL := Channel(NEW_PIPE, NEW_PIPE)

  datatype Direction = Up | Down

  datatype ClientAct = WriteHeader | ClientRelay(relay: RelayAct) | CloseStream
  datatype ServerAct =
    | AcceptStream | ReadPreamble(n: nat, eof: bool) | ReadBody(n: nat, eof: bool) | HeaderError
    | DialDest(ok: bool) | ServerRelay(relay: RelayAct) | CancelStream

  predicate HoldsStream(c: Conn) {
    c.phase.Opened? || c.phase.Joined? || c.phase.Finished?
  }

  predicate Holds(c: Conn, k: StreamId) {
    HoldsStream(c) && c.phase.id == k
  }

  function HeaderOf(c: Conn): QpepHeader {
    QpepHeader(c.source, c.dest)
  }

  // ---- steps ----

  // The error of quicStream.Write(header) is not looked at; on a dead session nothing is sent.
  function ClientStep(c: Conn, ch: Channel, alive: bool, act: ClientAct): Option<(Conn, Channel)> {
    match act
    case WriteHeader =>
      if !c.phase.Opened? then None
      else if alive then
        Some((c.(phase := Joined(c.phase.id), headerSent := true),
              ch.(up := ch.up.(wire := ch.up.wire + Encode(HeaderOf(c))))))
      else Some((c.(phase := Joined(c.phase.id)), ch))
    case ClientRelay(relay) =>
      if !c.phase.Joined? then None
      else
        var leg := CopyStep(Leg(c.end, ch.up, ch.down), alive, relay);
        if leg.None? then None
        else Some((c.(end := leg.value.end), Channel(leg.value.out, leg.value.back)))
    case CloseStream =>
      if c.phase.Joined? && c.end.pending == 0 then
        Some((c.(phase := Finished(c.phase.id), end := c.end.(tcp := c.end.tcp.(closed := true))),
              ch.(up := ch.up.(ending := FinSent))))
      else None
  }

  // The stream has ended for its reader: nothing buffered and a FIN, or no session.
  predicate AtEnd(p: Pipe, alive: bool) {
    !alive || p.ending == ResetArrived || (p.ending == FinArrived && p.inbox == [])
  }

  predicate CanRead(p: Pipe, alive: bool, n: nat, want: nat, eof: bool) {
    alive && p.ending != ResetArrived && 1 <= n <= want && n <= |p.inbox|
    && (eof ==> p.ending == FinArrived && n == |p.inbox|)
  }

  function ServerStep(h: Handler, ch: Channel, alive: bool, act: ServerAct): Option<(Handler, Channel)> {
    match act
    case AcceptStream =>
      if h.stage.Unaccepted? && alive then Some((h.(stage := AwaitPreamble), ch)) else None
    case ReadPreamble(n, eof) =>
      if h.stage.AwaitPreamble? && CanRead(ch.up, alive, n, PREAMBLE_LENGTH, eof) then
        var preamble := ch.up.inbox[..n] + Zeros(PREAMBLE_LENGTH - n);
        Some((h.(stage := if eof then Abandoned else AwaitBody(preamble), head := h.head + ch.up.inbox[..n],
                 short := n < PREAMBLE_LENGTH),
              ch.(up := ch.up.(inbox := ch.up.inbox[n..]))))
      else None
    case ReadBody(n, eof) =>
      if !h.stage.AwaitBody? || |h.stage.preamble| != PREAMBLE_LENGTH then None
      else
        var p := h.stage.preamble;
        var length := BodyLength(p[0], p[1]);
        if CanRead(ch.up, alive, n, length, eof) then
          var body := ch.up.inbox[..n] + Zeros(length - n);
          Some((h.(stage := if eof then Abandoned else Connecting(DecodeBody(p[0], p[1], body)),
                   head := h.head + ch.up.inbox[..n], short := h.short || n < length),
                ch.(up := ch.up.(inbox := ch.up.inbox[n..]))))
        else None
    case HeaderError =>
      if (h.stage.AwaitPreamble? || h.stage.AwaitBody?) && AtEnd(ch.up, alive)
      then Some((h.(stage := Abandoned), ch)) else None
    case DialDest(ok) =>
      if !h.stage.Connecting? then None
      else if ok then Some((h.(stage := Serving, dialled := Some(h.stage.header.dest)), ch))
      else Some((h.(stage := Abandoned), ch))
    case ServerRelay(relay) =>
      if !h.stage.Serving? then None
      else
        var leg := CopyStep(Leg(h.end, ch.down, ch.up), alive, relay);
        if leg.None? then None
        else Some((h.(end := leg.value.end), Channel(leg.value.back, leg.value.out)))
    case CancelStream =>
      if h.stage.Serving? && h.end.pending == 0 then
        Some((h.(stage := Cancelled),
              Channel(ch.up.(stopped := true), ch.down.(ending := ResetSent))))
      else None
  }

  function NetStep(ch: Channel, alive: bool, dir: Direction, act: NetAct): Option<Channel> {
    if !alive then None
    else if dir == Up then
      var p := Carry(ch.up, act);
      if p.None? then None else Some(ch.(up := p.value))
    else
      var p := Carry(ch.down, act);
      if p.None? then None else Some(ch.(down := p.value))
  }

  // ---- invariant of one connection and its stream ----

  predicate Shape(c: Conn, ch: Channel, h: Handler, alive: bool) {
    && HoldsStream(c) && ValidHeader(HeaderOf(c))
    && EndpointOk(c.end) && EndpointOk(h.end) && PipeOk(ch.up) && PipeOk(ch.down)
    && FailureOk(c.end.tcp, c.end.back, ch.down, alive) && FailureOk(h.end.tcp, h.end.back, ch.up, alive)
    // the stream is ended by Close at the client and by CancelWrite at the server, and by nothing else
    && (ch.up.ending == Open <==> !c.phase.Finished?) && !ch.up.ending.ResetSent? && !ch.up.ending.ResetArrived?
    && (ch.down.ending == Open <==> !h.stage.Cancelled?) && !ch.down.ending.FinSent? && !ch.down.ending.FinArrived?
    && (ch.up.stopped <==> h.stage.Cancelled?) && !ch.down.stopped
    && (c.phase.Finished? ==> c.end.pending == 0)
    && (h.stage.Cancelled? ==> h.end.pending == 0)
    // what has not started has not moved
    && (c.phase.Opened? ==>
          Idle(c.end.out) && Idle(c.end.back) && c.end.tcp.taken == [] && c.end.tcp.given == [] && !c.headerSent)
    && (!h.stage.Serving? && !h.stage.Cancelled? ==>
          h.end == NEW_ENDPOINT && h.dialled == None && (alive ==> Idle(c.end.back)))
    && (!c.phase.Opened? && !c.headerSent ==> !alive)
    && (!c.headerSent ==> ch.up.wire == [] && ch.up.inbox == [])
    && (!c.headerSent || h.stage.Unaccepted? || h.stage.AwaitPreamble? ==>
          h.stage.Abandoned? || ((h.stage.Unaccepted? || h.stage.AwaitPreamble?) && !h.short && h.head == []))
  }

  // The server took exactly the header off the stream and goes by the right destination.
  predicate HeaderRight(c: Conn, head: seq<byte>, dest: Addr) {
    head == Encode(HeaderOf(c)) && dest == CanonicalAddr(c.dest)
  }

  // Client to server: the header, then the bytes of the client's TCP connection.
  predicate UpFlow(c: Conn, up: Pipe, h: Handler, alive: bool) {
    var header := Encode(HeaderOf(c));
    var sent := header + c.end.tcp.taken;
    match h.stage
    case Unaccepted => c.headerSent ==> Tracks(sent, h.head, up, c.end.out, alive)
    case AwaitPreamble => c.headerSent ==> Tracks(sent, h.head, up, c.end.out, alive)
    case AwaitBody(preamble) =>
      && 1 <= |h.head| <= PREAMBLE_LENGTH && preamble == h.head + Zeros(PREAMBLE_LENGTH - |h.head|)
      && (h.short <==> |h.head| < PREAMBLE_LENGTH)
      && Tracks(sent, h.head, up, c.end.out, alive)
    case Connecting(parsed) =>
      && (HeaderRight(c, h.head, parsed.dest) <==> !h.short) && (!h.short ==> parsed == Canonical(HeaderOf(c)))
      && Tracks(sent, h.head, up, c.end.out, alive)
    case Abandoned => true
    case _ =>
      && h.dialled.Some? && (HeaderRight(c, h.head, h.dialled.value) <==> !h.short)
      && Flow(header, h.head, c.end, up, h.end.tcp.given, h.end.back, alive)
  }

  // Server to client: the bytes of the server's TCP connection.
  predicate DownFlow(c: Conn, down: Pipe, h: Handler, alive: bool) {
    Flow([], [], h.end, down, c.end.tcp.given, c.end.back, alive)
  }

  predicate LinkInv(c: Conn, ch: Channel, h: Handler, alive: bool) {
    Shape(c, ch, h, alive) && UpFlow(c, ch.up, h, alive) && DownFlow(c, ch.down, h, alive)
  }

  lemma NewLink(c: Conn, alive: bool)
    requires c.phase.Opened? && ValidHeader(HeaderOf(c)) && !c.headerSent
    requires Idle(c.end.out) && Idle(c.end.back) && c.end.pending == 2 && c.end.tcp.taken == [] && c.end.tcp.given == []
    ensures LinkInv(c, NEW_CHANNEL, NEW_HANDLER, alive)
  {
  }

  lemma ClientKeepsLink(c: Conn, ch: Channel, h: Handler, alive: bool, act: ClientAct)
    requires LinkInv(c, ch, h, alive) && ClientStep(c, ch, alive, act).Some?
    ensures var (c', ch') := ClientStep(c, ch, alive, act).value;
            LinkInv(c', ch', h, alive) && c'.phase.id == c.phase.id && c'.source == c.source && c'.dest == c.dest
  {
    match act {
      case WriteHeader =>
        var header := Encode(HeaderOf(c));
        assert [] + [] + ([] + header) + [] == header + [];
      case ClientRelay(relay) => ClientRelayKeepsLink(c, ch, h, alive, relay);
      case CloseStream =>
    }
  }

  lemma ClientRelayKeepsLink(c: Conn, ch: Channel, h: Handler, alive: bool, relay: RelayAct)
    requires LinkInv(c, ch, h, alive) && ClientStep(c, ch, alive, ClientRelay(relay)).Some?
    ensures var (c', ch') := ClientStep(c, ch, alive, ClientRelay(relay)).value;
            LinkInv(c', ch', h, alive) && c'.phase == c.phase && c'.source == c.source && c'.dest == c.dest
  {
    var l := Leg(c.end, ch.up, ch.down);
    RelayKeepsEndpoint(l, alive, relay);
    ReceiverKeepsFlow([], [], h.end, l, alive, relay);
    if h.end == NEW_ENDPOINT && alive && Idle(c.end.back) {
      SilentDown(c, ch, h, alive);
    }
    if c.headerSent {
      ClientRelayKeepsUpFlow(c, ch, h, alive, relay);
    }
  }

  lemma ClientRelayKeepsUpFlow(c: Conn, ch: Channel, h: Handler, alive: bool, relay: RelayAct)
    requires UpFlow(c, ch.up, h, alive) && c.headerSent && (ch.up.ending != Open ==> c.end.out.Done?)
    requires ClientStep(c, ch, alive, ClientRelay(relay)).Some?
    ensures var (c', ch') := ClientStep(c, ch, alive, ClientRelay(relay)).value; UpFlow(c', ch'.up, h, alive)
  {
    if h.stage.Serving? || h.stage.Cancelled? {
      SenderKeepsFlow(Encode(HeaderOf(c)), h.head, Leg(c.end, ch.up, ch.down), h.end.tcp.given, h.end.back, alive,
          relay);
    } else if !h.stage.Abandoned? {
      ClientKeepsTracks(c, ch, h.head, alive, relay);
    }
  }

  // Nothing comes down a stream whose server goroutine has no destination.
  lemma SilentDown(c: Conn, ch: Channel, h: Handler, alive: bool)
    requires DownFlow(c, ch.down, h, alive) && h.end.tcp.taken == [] && h.end.out == Copying([]) && Idle(c.end.back)
    ensures ch.down.ending == Open && ch.down.inbox == [] && ch.down.wire == []
  {
  }

  lemma ClientKeepsTracks(c: Conn, ch: Channel, got: seq<byte>, alive: bool, relay: RelayAct)
    requires Tracks(Encode(HeaderOf(c)) + c.end.tcp.taken, got, ch.up, c.end.out, alive)
    requires ch.up.ending != Open ==> c.end.out.Done?
    requires ClientStep(c, ch, alive, ClientRelay(relay)).Some?
    ensures var (c', ch') := ClientStep(c, ch, alive, ClientRelay(relay)).value;
            Tracks(Encode(HeaderOf(c)) + c'.end.tcp.taken, got, ch'.up, c'.end.out, alive)
  {
    var (c', _) := ClientStep(c, ch, alive, ClientRelay(relay)).value;
    var header, taken, taken' := Encode(HeaderOf(c)), c.end.tcp.taken, c'.end.tcp.taken;
    SenderKeepsTracks(header + taken, got, Leg(c.end, ch.up, ch.down), alive, relay);
    SplitAt(taken', |taken|);
    assert (header + taken) + taken'[|taken|..] == header + taken';
  }

  // What a copier's step leaves as it is: the wait group is exact, only what should be is closed, no pipe is ended.
  predicate KeepsEndpoint(l: Leg, alive: bool, r: Leg) {
    && EndpointOk(r.end) && PipeOk(r.out) && PipeOk(r.back) && FailureOk(r.end.tcp, r.end.back, r.back, alive)
    && r.out.ending == l.out.ending && r.back.ending == l.back.ending
    && r.out.stopped == l.out.stopped && r.back.stopped == l.back.stopped
    && r.out.inbox == l.out.inbox && r.back.wire == l.back.wire
    && (!alive ==> r.out.wire == l.out.wire && r.back.inbox == l.back.inbox)
  }

  lemma OutKeepsEndpoint(l: Leg, alive: bool, act: RelayAct)
    requires EndpointOk(l.end) && PipeOk(l.out) && PipeOk(l.back)
    requires l.out.ending == Open && FailureOk(l.end.tcp, l.end.back, l.back, alive)
    requires CopyStep(l, alive, act).Some?
    requires act.OutRead? || act.OutEof? || act.OutReadError? || act.OutWrite? || act.OutWriteError? || act.OutDone?
    ensures KeepsEndpoint(l, alive, CopyStep(l, alive, act).value)
  {
  }

  lemma BackKeepsEndpoint(l: Leg, alive: bool, act: RelayAct)
    requires EndpointOk(l.end) && PipeOk(l.out) && PipeOk(l.back)
    requires l.out.ending == Open && FailureOk(l.end.tcp, l.end.back, l.back, alive)
    requires CopyStep(l, alive, act).Some?
    requires !(act.OutRead? || act.OutEof? || act.OutReadError? || act.OutWrite? || act.OutWriteError? || act.OutDone?)
    ensures KeepsEndpoint(l, alive, CopyStep(l, alive, act).value)
  {
  }

  lemma RelayKeepsEndpoint(l: Leg, alive: bool, act: RelayAct)
    requires EndpointOk(l.end) && PipeOk(l.out) && PipeOk(l.back)
    requires l.out.ending == Open && FailureOk(l.end.tcp, l.end.back, l.back, alive)
    requires CopyStep(l, alive, act).Some?
    ensures KeepsEndpoint(l, alive, CopyStep(l, alive, act).value)
  {
    hide CopyStep, KeepsEndpoint;
    if act.OutRead? || act.OutEof? || act.OutReadError? || act.OutWrite? || act.OutWriteError? || act.OutDone? {
      OutKeepsEndpoint(l, alive, act);
    } else {
      BackKeepsEndpoint(l, alive, act);
    }
  }

  lemma ServerKeepsLink(c: Conn, ch: Channel, h: Handler, alive: bool, act: ServerAct)
    requires LinkInv(c, ch, h, alive) && ServerStep(h, ch, alive, act).Some?
    ensures var (h', ch') := ServerStep(h, ch, alive, act).value; LinkInv(c, ch', h', alive)
  {
    hide LinkInv, ServerStep;
    match act {
      case ReadPreamble(n, eof) => PreambleKeepsLink(c, ch, h, alive, n, eof);
      case ReadBody(n, eof) => BodyKeepsLink(c, ch, h, alive, n, eof);
      case DialDest(ok) => DialKeepsLink(c, ch, h, alive, ok);
      case ServerRelay(relay) => ServerRelayKeepsLink(c, ch, h, alive, relay);
      case _ => ServerEndsKeepLink(c, ch, h, alive, act);
    }
  }

  lemma DialKeepsLink(c: Conn, ch: Channel, h: Handler, alive: bool, ok: bool)
    requires LinkInv(c, ch, h, alive) && ServerStep(h, ch, alive, DialDest(ok)).Some?
    ensures var (h', ch') := ServerStep(h, ch, alive, DialDest(ok)).value; LinkInv(c, ch', h', alive)
  {
    hide Encode;
    assert h.head + ([] + []) == h.head && h.head + [] == h.head;
  }

  lemma ServerEndsKeepLink(c: Conn, ch: Channel, h: Handler, alive: bool, act: ServerAct)
    requires LinkInv(c, ch, h, alive) && ServerStep(h, ch, alive, act).Some?
    requires act.AcceptStream? || act.HeaderError? || act.CancelStream?
    ensures var (h', ch') := ServerStep(h, ch, alive, act).value; LinkInv(c, ch', h', alive)
  {
    hide Encode;
  }

  lemma PreambleKeepsLink(c: Conn, ch: Channel, h: Handler, alive: bool, n: nat, eof: bool)
    requires LinkInv(c, ch, h, alive) && ServerStep(h, ch, alive, ReadPreamble(n, eof)).Some?
    ensures var (h', ch') := ServerStep(h, ch, alive, ReadPreamble(n, eof)).value; LinkInv(c, ch', h', alive)
  {
    TakeKeepsTracks(Encode(HeaderOf(c)) + c.end.tcp.taken, [], ch.up, c.end.out, alive, n);
    assert [] + ch.up.inbox[..n] == ch.up.inbox[..n];
  }

  lemma BodyKeepsLink(c: Conn, ch: Channel, h: Handler, alive: bool, n: nat, eof: bool)
    requires LinkInv(c, ch, h, alive) && ServerStep(h, ch, alive, ReadBody(n, eof)).Some?
    ensures var (h', ch') := ServerStep(h, ch, alive, ReadBody(n, eof)).value; LinkInv(c, ch', h', alive)
  {
    TakeKeepsTracks(Encode(HeaderOf(c)) + c.end.tcp.taken, h.head, ch.up, c.end.out, alive, n);
    DestIffFullReads(HeaderOf(c), c.end.tcp.taken, h.head, ch.up.inbox[..n]);
  }

  lemma ServerRelayKeepsLink(c: Conn, ch: Channel, h: Handler, alive: bool, relay: RelayAct)
    requires LinkInv(c, ch, h, alive) && ServerStep(h, ch, alive, ServerRelay(relay)).Some?
    ensures var (h', ch') := ServerStep(h, ch, alive, ServerRelay(relay)).value; LinkInv(c, ch', h', alive)
  {
    var l := Leg(h.end, ch.down, ch.up);
    RelayKeepsEndpoint(l, alive, relay);
    SenderKeepsFlow([], [], l, c.end.tcp.given, c.end.back, alive, relay);
    ReceiverKeepsFlow(Encode(HeaderOf(c)), h.head, c.end, l, alive, relay);
  }

  lemma NetworkKeepsLink(c: Conn, ch: Channel, h: Handler, alive: bool, dir: Direction, act: NetAct)
    requires LinkInv(c, ch, h, alive) && NetStep(ch, alive, dir, act).Some?
    ensures LinkInv(c, NetStep(ch, alive, dir, act).value, h, alive)
  {
    var header := Encode(HeaderOf(c));
    if dir == Down {
      CarryKeepsFlow([], [], h.end, ch.down, c.end.tcp.given, c.end.back, alive, act);
    } else if h.stage.Serving? || h.stage.Cancelled? {
      CarryKeepsFlow(header, h.head, c.end, ch.up, h.end.tcp.given, h.end.back, alive, act);
    } else if c.headerSent && !h.stage.Abandoned? {
      CarryKeepsTracks(header + c.end.tcp.taken, h.head, ch.up, c.end.out, alive, act);
    }
  }

  lemma ClientPeerKeepsLink(c: Conn, ch: Channel, h: Handler, alive: bool, act: PeerAct)
    requires LinkInv(c, ch, h, alive) && Peer(c.end.tcp, act).Some?
    ensures LinkInv(c.(end := c.end.(tcp := Peer(c.end.tcp, act).value)), ch, h, alive)
  {
    hide Encode;
  }

  lemma ServerPeerKeepsLink(c: Conn, ch: Channel, h: Handler, alive: bool, act: PeerAct)
    requires LinkInv(c, ch, h, alive) && Peer(h.end.tcp, act).Some? && (h.stage.Serving? || h.stage.Cancelled?)
    ensures LinkInv(c, ch, h.(end := h.end.(tcp := Peer(h.end.tcp, act).value)), alive)
  {
    hide Encode;
  }

  lemma DeathKeepsLink(c: Conn, ch: Channel, h: Handler)
    requires LinkInv(c, ch, h, true)
    ensures LinkInv(c, ch, h, false)
  {
  }
}
