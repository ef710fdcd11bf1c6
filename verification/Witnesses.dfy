/** Runs of the tunnel that show what its results leave open: connections that are parked, a destination dialled
    wrongly, a response cut off. */
module Witnesses {
  import opened Basics
  import opened Header
  import opened Relay
  import opened Link
  import opened Tunnel
  import opened Lifecycle
  import opened TunnelProgress
  import opened Conservation

  const FIRST := StreamId(0, 0)

  // A tunnel with one connection, set up over a new session.
  function Only(l: LinkState): State {
    State(Some(0), [Session(l.alive, 1)], [l.conn], map[FIRST := l.ch], map[FIRST := l.handler], false)
  }

  function Lift(a: LinkAct): Action {
    match a
    case AtClient(act) => OnClient(0, act)
    case AtServer(act) => OnServer(FIRST, act)
    case InNetwork(dir, act) => OnNetwork(FIRST, dir, act)
    case ClientSide(act) => ClientPeer(0, act)
    case ServerSide(act) => ServerPeer(FIRST, act)
    case Timeout => SessionDies(0)
  }

  lemma LiftStep(cfg: Config, l: LinkState, a: LinkAct)
    requires Holds(l.conn, FIRST) && LinkStep(l, a).Some?
    ensures Step(cfg, Only(l), Lift(a)) == Some(Only(LinkStep(l, a).value))
    ensures Holds(LinkStep(l, a).value.conn, FIRST)
  {
    hide Establish, CopyStep, ServerStep, NetStep, Peer, Encode;
    var s', l' := Step(cfg, Only(l), Lift(a)).value, LinkStep(l, a).value;
    assert s'.conns == [l'.conn] && s'.sessions == [Session(l'.alive, 1)];
    assert s'.streams == map[FIRST := l'.ch] && s'.handlers == map[FIRST := l'.handler];
  }

  // A run of that tunnel grows by a step of the connection.
  lemma Go(cfg: Config, acts: seq<Action>, l: LinkState, a: LinkAct) returns (acts': seq<Action>, l': LinkState)
    requires Exec(cfg, acts) == Some(Only(l)) && Holds(l.conn, FIRST) && LinkStep(l, a).Some?
    ensures l' == LinkStep(l, a).value && Exec(cfg, acts') == Some(Only(l')) && Holds(l'.conn, FIRST)
  {
    hide Step, LinkStep, Exec;
    LiftStep(cfg, l, a);
    l' := LinkStep(l, a).value;
    var s;
    acts', s := Do(cfg, acts, Only(l), Lift(a));
  }

  // ---- from the first action to a served connection ----

  // Its stream just opened, between a client and a destination.
  function JustOpened(source: Addr, dest: Addr): LinkState {
    LinkState(NewConn(source, dest).(phase := Opened(FIRST), dials := 1), NEW_CHANNEL, NEW_HANDLER, true)
  }

  lemma ReachJustOpened(cfg: Config, source: Addr, dest: Addr) returns (acts: seq<Action>)
    requires cfg.retries > 0 && ValidAddr(source) && ValidAddr(dest)
    ensures Exec(cfg, acts) == Some(Only(JustOpened(source, dest)))
  {
    var r, s := Do(cfg, [], INIT, Accept(source, dest));
    r, s := Do(cfg, r, s, CheckSession(0));
    r, s := Do(cfg, r, s, DialAttempt(0, true));
    r, s := Do(cfg, r, s, AssignSession(0));
    r, s := Do(cfg, r, s, OpenNew(0, true));
    assert s.conns == Only(JustOpened(source, dest)).conns && s.sessions == Only(JustOpened(source, dest)).sessions;
    acts := r;
  }

  // The header has been written and crossed, and the server's goroutine is about to read it.
  function HeaderArrived(source: Addr, dest: Addr): LinkState {
    JustOpened(source, dest).(conn := NewConn(source, dest).(phase := Joined(FIRST), dials := 1, headerSent := true),
                   ch := Channel(NEW_PIPE.(inbox := Encode(QpepHeader(source, dest))), NEW_PIPE),
                   handler := NEW_HANDLER.(stage := AwaitPreamble))
  }

  lemma ReachHeaderArrived(cfg: Config, source: Addr, dest: Addr) returns (acts: seq<Action>)
    requires cfg.retries > 0 && ValidAddr(source) && ValidAddr(dest)
    ensures Exec(cfg, acts) == Some(Only(HeaderArrived(source, dest)))
  {
    hide Exec, Encode, CopyStep, CanonicalAddr, BodyLength, DecodeBody, Peer;
    var e := Encode(QpepHeader(source, dest));
    EncodeParts(QpepHeader(source, dest));
    acts := ReachJustOpened(cfg, source, dest);
    var r, l := Go(cfg, acts, JustOpened(source, dest), AtClient(WriteHeader));
    assert [] + e == e && e[|e|..] == [] && [] + e[..|e|] == e;
    r, l := Go(cfg, r, l, AtServer(AcceptStream));
    acts, l := Go(cfg, r, l, InNetwork(Up, Deliver(|e|)));
  }

  // The header has been read, n1 and then n2 bytes of it.
  function Parsed(source: Addr, dest: Addr, n1: nat, n2: nat): LinkState
    requires n1 <= PREAMBLE_LENGTH && n1 + n2 <= |Encode(QpepHeader(source, dest))|
    requires var p := Encode(QpepHeader(source, dest))[..n1] + Zeros(PREAMBLE_LENGTH - n1); n2 <= BodyLength(p[0], p[1])
  {
    var e := Encode(QpepHeader(source, dest));
    var p := e[..n1] + Zeros(PREAMBLE_LENGTH - n1);
    var length := BodyLength(p[0], p[1]);
    var found := DecodeBody(p[0], p[1], e[n1..n1 + n2] + Zeros(length - n2));
    HeaderArrived(source, dest).(ch := Channel(NEW_PIPE.(inbox := e[n1 + n2..]), NEW_PIPE),
                      handler := NEW_HANDLER.(stage := Connecting(found), head := e[..n1 + n2],
                                              short := n1 < PREAMBLE_LENGTH || n2 < length))
  }

  lemma ReachParsed(cfg: Config, source: Addr, dest: Addr, n1: nat, n2: nat) returns (acts: seq<Action>)
    requires cfg.retries > 0 && ValidAddr(source) && ValidAddr(dest)
    requires 1 <= n1 <= PREAMBLE_LENGTH && 1 <= n2 && n1 + n2 <= |Encode(QpepHeader(source, dest))|
    requires var p := Encode(QpepHeader(source, dest))[..n1] + Zeros(PREAMBLE_LENGTH - n1); n2 <= BodyLength(p[0], p[1])
    ensures Exec(cfg, acts) == Some(Only(Parsed(source, dest, n1, n2)))
  {
    hide Exec, Encode, DecodeBody, BodyLength, CopyStep, CanonicalAddr, ClientStep, NetStep, Peer;
    var e := Encode(QpepHeader(source, dest));
    acts := ReachHeaderArrived(cfg, source, dest);
    var l;
    acts, l := Go(cfg, acts, HeaderArrived(source, dest), AtServer(ReadPreamble(n1, false)));
    assert [] + e[..n1] == e[..n1] && e[n1..][..n2] == e[n1..n1 + n2];
    acts, l := Go(cfg, acts, l, AtServer(ReadBody(n2, false)));
    assert e[n1..][n2..] == e[n1 + n2..] && e[..n1] + e[n1..n1 + n2] == e[..n1 + n2];
  }

  // And the destination it seems to name has been dialled.
  function Read(source: Addr, dest: Addr, n1: nat, n2: nat): LinkState
    requires n1 <= PREAMBLE_LENGTH && n1 + n2 <= |Encode(QpepHeader(source, dest))|
    requires var p := Encode(QpepHeader(source, dest))[..n1] + Zeros(PREAMBLE_LENGTH - n1); n2 <= BodyLength(p[0], p[1])
  {
    var l := Parsed(source, dest, n1, n2);
    l.(handler := l.handler.(stage := Serving, dialled := Some(l.handler.stage.header.dest)))
  }

  lemma ReachRead(cfg: Config, source: Addr, dest: Addr, n1: nat, n2: nat) returns (acts: seq<Action>)
    requires cfg.retries > 0 && ValidAddr(source) && ValidAddr(dest)
    requires 1 <= n1 <= PREAMBLE_LENGTH && 1 <= n2 && n1 + n2 <= |Encode(QpepHeader(source, dest))|
    requires var p := Encode(QpepHeader(source, dest))[..n1] + Zeros(PREAMBLE_LENGTH - n1); n2 <= BodyLength(p[0], p[1])
    ensures Exec(cfg, acts) == Some(Only(Read(source, dest, n1, n2)))
  {
    hide Exec, Encode, DecodeBody, BodyLength, CopyStep, CanonicalAddr, ClientStep, NetStep, Peer;
    acts := ReachParsed(cfg, source, dest, n1, n2);
    var l;
    acts, l := Go(cfg, acts, Parsed(source, dest, n1, n2), AtServer(DialDest(true)));
  }

  // The header was read in full.
  function Served(source: Addr, dest: Addr): LinkState {
    HeaderArrived(source, dest).(ch := NEW_CHANNEL,
                      handler := NEW_HANDLER.(stage := Serving, head := Encode(QpepHeader(source, dest)),
                                              dialled := Some(CanonicalAddr(dest))))
  }

  lemma ReachServed(cfg: Config, source: Addr, dest: Addr) returns (acts: seq<Action>)
    requires cfg.retries > 0 && ValidAddr(source) && ValidAddr(dest)
    ensures Exec(cfg, acts) == Some(Only(Served(source, dest)))
  {
    hide Exec, Encode, DecodeBody;
    var e := Encode(QpepHeader(source, dest));
    EncodeParts(QpepHeader(source, dest));
    assert e[..2] + Zeros(0) == e[..2] && e[2..|e|] + Zeros(0) == e[2..] && e[..|e|] == e && e[|e|..] == [];
    acts := ReachRead(cfg, source, dest, 2, |e| - 2);
  }

  // ---- the runs ----

  const NOWHERE := Addr(Zeros(IPV6_LENGTH), 0)

  // One byte and zeros parse as an all-zero destination.
  lemma ZerosParse(sourceType: byte, first: byte)
    ensures var length := BodyLength(sourceType, 0);
            length >= 1 && DecodeBody(sourceType, 0, [first] + Zeros(length - 1)).dest == NOWHERE
  {
    var length, cut := BodyLength(sourceType, 0), IpLength(sourceType) + 2;
    var body := [first] + Zeros(length - 1);
    assert body[cut..] == Zeros(18);
    assert body[cut..][..16] == Zeros(16) && body[cut..][16..] == Zeros(2);
  }

  /** Short header reads do make the server dial the wrong destination: when each returns one byte, a client bound for
      any address at all is connected to port 0 of the unspecified address, and the rest of its header follows as
      payload. */
  lemma ShortReadsDialNowhere(cfg: Config, source: Addr, dest: Addr) returns (acts: seq<Action>)
    requires cfg.retries > 0 && ValidAddr(source) && ValidAddr(dest)
    ensures Exec(cfg, acts).Some? && HasLink(Exec(cfg, acts).value, 0, FIRST)
    ensures var s := Exec(cfg, acts).value;
            var l := LinkOf(s, 0, FIRST);
            && l.handler.stage == Serving && l.handler.short && l.conn.dest == dest
            && l.handler.dialled == Some(NOWHERE) &&
                  (dest != NOWHERE ==> l.handler.dialled != Some(CanonicalAddr(l.conn.dest)))
            && l.ch.up.inbox == Encode(QpepHeader(source, dest))[2..] != []
  {
    hide Exec, Encode;
    var e := Encode(QpepHeader(source, dest));
    EncodeParts(QpepHeader(source, dest));
    ZerosParse(e[0], e[1]);
    assert e[..1] + Zeros(1) == [e[0], 0] && e[1..2] == [e[1]];
    acts := ReachRead(cfg, source, dest, 1, 1);
  }

  /** When a client closes its half of an idle connection, its own copier closes the whole TCP connection at the client;
      nothing of this reaches the destination, and only a peer or the idle timeout can move the connection on. */
  lemma ClientHalfCloseParks(cfg: Config, source: Addr, dest: Addr) returns (acts: seq<Action>)
    requires cfg.retries > 0 && ValidAddr(source) && ValidAddr(dest)
    ensures Exec(cfg, acts).Some? && HasLink(Exec(cfg, acts).value, 0, FIRST)
    ensures var s := Exec(cfg, acts).value;
            var l := LinkOf(s, 0, FIRST);
            && NothingEnabled(cfg, s, 0, FIRST) && Parked(l)
            && l.conn.end.out == Done(true) && l.conn.end.tcp.closed && !l.handler.end.tcp.closed
  {
    hide Exec, NothingEnabled, Encode;
    var r := ReachServed(cfg, source, dest);
    var l;
    r, l := Go(cfg, r, Served(source, dest), ClientSide(PeerCloses));
    r, l := Go(cfg, r, l, Client(OutEof));
    r, l := Go(cfg, r, l, Client(OutDone));
    QuiescenceInTunnel(cfg, r, 0, FIRST);
    acts := r;
  }

  /** The same when the destination closes its half: the server's copier closes the whole TCP connection at the server,
      and nothing of this reaches the client. */
  lemma DestinationHalfCloseParks(cfg: Config, source: Addr, dest: Addr) returns (acts: seq<Action>)
    requires cfg.retries > 0 && ValidAddr(source) && ValidAddr(dest)
    ensures Exec(cfg, acts).Some? && HasLink(Exec(cfg, acts).value, 0, FIRST)
    ensures var s := Exec(cfg, acts).value;
            var l := LinkOf(s, 0, FIRST);
            && NothingEnabled(cfg, s, 0, FIRST) && Parked(l)
            && l.handler.end.out == Done(true) && l.handler.end.tcp.closed && !l.conn.end.tcp.closed
  {
    hide Exec, NothingEnabled, Encode;
    var r := ReachServed(cfg, source, dest);
    var l;
    r, l := Go(cfg, r, Served(source, dest), ServerSide(PeerCloses));
    r, l := Go(cfg, r, l, Server(OutEof));
    r, l := Go(cfg, r, l, Server(OutDone));
    QuiescenceInTunnel(cfg, r, 0, FIRST);
    acts := r;
  }

  // The destination has sent `response` and the server has put it on the wire.
  function Written(source: Addr, dest: Addr, response: seq<byte>): LinkState {
    Served(source, dest).(ch := Channel(NEW_PIPE, NEW_PIPE.(wire := response)),
               handler := Served(source, dest).handler.(end := NEW_ENDPOINT.(tcp := NEW_SOCKET.(taken := response))))
  }

  lemma ReachWritten(cfg: Config, source: Addr, dest: Addr, response: seq<byte>) returns (acts: seq<Action>)
    requires cfg.retries > 0 && ValidAddr(source) && ValidAddr(dest) && response != []
    ensures Exec(cfg, acts) == Some(Only(Written(source, dest, response)))
  {
    hide Exec, Encode, CanonicalAddr, ClientStep, NetStep, BodyLength, DecodeBody;
    var r := ReachServed(cfg, source, dest);
    var l;
    r, l := Go(cfg, r, Served(source, dest), ServerSide(PeerSends(response)));
    assert [] + response == response && response[|response|..] == [] && response[..|response|] == response;
    r, l := Go(cfg, r, l, Server(OutRead(|response|)));
    acts, l := Go(cfg, r, l, Server(OutWrite));
  }

  // The destination has sent `response` and closed; the server has put it on the wire and closed its own side.
  function Answered(source: Addr, dest: Addr, response: seq<byte>): LinkState {
    var tcp := Socket([], true, false, true, response, []);
    Served(source, dest).(ch := Channel(NEW_PIPE, NEW_PIPE.(wire := response)),
               handler := Served(source, dest).handler.(end := Endpoint(tcp, Done(true), Copying([]), 1)))
  }

  lemma ReachAnswered(cfg: Config, source: Addr, dest: Addr, response: seq<byte>) returns (acts: seq<Action>)
    requires cfg.retries > 0 && ValidAddr(source) && ValidAddr(dest) && response != []
    ensures Exec(cfg, acts) == Some(Only(Answered(source, dest, response)))
  {
    hide Exec, Encode, CanonicalAddr, ClientStep, NetStep, BodyLength, DecodeBody;
    var r := ReachWritten(cfg, source, dest, response);
    var l;
    r, l := Go(cfg, r, Written(source, dest, response), ServerSide(PeerCloses));
    r, l := Go(cfg, r, l, Server(OutEof));
    r, l := Go(cfg, r, l, Server(OutDone));
    acts := r;
  }

  // The client's next byte has crossed.
  function Asked(source: Addr, dest: Addr, response: seq<byte>): LinkState {
    var l := Answered(source, dest, response);
    l.(conn := l.conn.(end := l.conn.end.(tcp := NEW_SOCKET.(taken := [0]))),
        ch := l.ch.(up := NEW_PIPE.(inbox := [0])))
  }

  lemma ReachAsked(cfg: Config, source: Addr, dest: Addr, response: seq<byte>) returns (acts: seq<Action>)
    requires cfg.retries > 0 && ValidAddr(source) && ValidAddr(dest) && response != []
    ensures Exec(cfg, acts) == Some(Only(Asked(source, dest, response)))
  {
    hide Exec, Encode, CanonicalAddr, ServerStep;
    var r := ReachAnswered(cfg, source, dest, response);
    var l;
    var one: seq<byte> := [0];
    assert [] + one == one && one[..1] == one && one[1..] == [];
    r, l := Go(cfg, r, Answered(source, dest, response), ClientSide(PeerSends(one)));
    r, l := Go(cfg, r, l, Client(OutRead(1)));
    r, l := Go(cfg, r, l, Client(OutWrite));
    acts, l := Go(cfg, r, l, InNetwork(Up, Deliver(1)));
  }

  // It finds the server's TCP connection closed, and both copiers there are done.
  predicate Refused(l: LinkState, response: seq<byte>) {
    && Holds(l.conn, FIRST) && l.alive && l.handler.stage == Serving && l.handler.end.pending == 0
    && l.handler.end.out == Done(true) && l.handler.end.tcp.taken == response
    && l.ch.down.wire == response && l.ch.down.ending == Open && InHand(l) == []
  }

  lemma ReachRefused(cfg: Config, source: Addr, dest: Addr, response: seq<byte>)
      returns (acts: seq<Action>, l: LinkState)
    requires cfg.retries > 0 && ValidAddr(source) && ValidAddr(dest) && response != []
    ensures Exec(cfg, acts) == Some(Only(l)) && Refused(l, response)
  {
    hide Exec, Encode, CanonicalAddr, ClientStep, NetStep, Peer, BodyLength, DecodeBody;
    acts := ReachAsked(cfg, source, dest, response);
    acts, l := Go(cfg, acts, Asked(source, dest, response), Server(BackRead(1)));
    acts, l := Go(cfg, acts, l, Server(BackWriteError(0)));
    acts, l := Go(cfg, acts, l, Server(BackDone));
  }

  /** In a healthy tunnel a destination that answers and closes can lose its whole answer: the next byte from the client
      finds the server's TCP connection closed, the server resets the stream, and the reset discards what is under
      way. */
  lemma ResponseIsLost(cfg: Config, source: Addr, dest: Addr, response: seq<byte>) returns (acts: seq<Action>)
    requires cfg.retries > 0 && ValidAddr(source) && ValidAddr(dest) && response != []
    ensures Exec(cfg, acts).Some? && HasLink(Exec(cfg, acts).value, 0, FIRST)
    ensures var l := LinkOf(Exec(cfg, acts).value, 0, FIRST);
            && l.alive && l.handler.end.out == Done(true) && l.handler.end.tcp.taken == response
            && l.ch.down.ending == ResetArrived && InHand(l) == []
  {
    hide Exec, Encode;
    var r, l := ReachRefused(cfg, source, dest, response);
    r, l := Go(cfg, r, l, AtServer(CancelStream));
    acts, l := Go(cfg, r, l, InNetwork(Down, DeliverEnd));
  }

  // The client half-closes while the response is on the wire.
  function Crossing(source: Addr, dest: Addr, response: seq<byte>): LinkState {
    var tcp := NEW_SOCKET.(peerClosed := true, closed := true);
    Written(source, dest,
        response).(conn := Served(source, dest).conn.(end := Endpoint(tcp, Done(true), Copying([]), 1)))
  }

  lemma ReachCrossing(cfg: Config, source: Addr, dest: Addr, response: seq<byte>) returns (acts: seq<Action>)
    requires cfg.retries > 0 && ValidAddr(source) && ValidAddr(dest) && response != []
    ensures Exec(cfg, acts) == Some(Only(Crossing(source, dest, response)))
  {
    hide Exec, Encode, CanonicalAddr, ServerStep, NetStep, BodyLength, DecodeBody;
    acts := ReachWritten(cfg, source, dest, response);
    var l;
    acts, l := Go(cfg, acts, Written(source, dest, response), ClientSide(PeerCloses));
    acts, l := Go(cfg, acts, l, Client(OutEof));
    acts, l := Go(cfg, acts, l, Client(OutDone));
  }

  // The response has crossed, and the client's other copier holds it.
  function Refusing(source: Addr, dest: Addr, response: seq<byte>): LinkState {
    var l := Crossing(source, dest, response);
    l.(conn := l.conn.(end := l.conn.end.(back := Copying(response))), ch := NEW_CHANNEL)
  }

  lemma ReachRefusing(cfg: Config, source: Addr, dest: Addr, response: seq<byte>) returns (acts: seq<Action>)
    requires cfg.retries > 0 && ValidAddr(source) && ValidAddr(dest) && response != []
    ensures Exec(cfg, acts) == Some(Only(Refusing(source, dest, response)))
  {
    hide Exec, Encode, CanonicalAddr, ServerStep, Peer, BodyLength, DecodeBody;
    acts := ReachCrossing(cfg, source, dest, response);
    var l;
    assert [] + response == response && response[|response|..] == [] && response[..|response|] == response;
    acts, l := Go(cfg, acts, Crossing(source, dest, response), InNetwork(Down, Deliver(|response|)));
    acts, l := Go(cfg, acts, l, Client(BackRead(|response|)));
  }

  // It is refused there, the client having closed its TCP connection, and the client's copiers are done.
  function Declined(source: Addr, dest: Addr, response: seq<byte>): LinkState {
    var tcp := NEW_SOCKET.(peerClosed := true, closed := true);
    Served(source, dest).(conn := Served(source, dest).conn.(end := Endpoint(tcp, Done(true), Done(false), 0)),
               handler := Served(source, dest).handler.(end := NEW_ENDPOINT.(tcp := NEW_SOCKET.(taken := response))))
  }

  lemma ReachDeclined(cfg: Config, source: Addr, dest: Addr, response: seq<byte>) returns (acts: seq<Action>)
    requires cfg.retries > 0 && ValidAddr(source) && ValidAddr(dest) && response != []
    ensures Exec(cfg, acts) == Some(Only(Declined(source, dest, response)))
  {
    hide Exec, Encode, CanonicalAddr, ServerStep, NetStep, Peer, BodyLength, DecodeBody;
    acts := ReachRefusing(cfg, source, dest, response);
    var l;
    assert [] + response[..0] == [];
    acts, l := Go(cfg, acts, Refusing(source, dest, response), Client(BackWriteError(0)));
    acts, l := Go(cfg, acts, l, Client(BackDone));
  }

  // The client has closed its stream, and the server's copier has seen the end of it.
  function Hung(source: Addr, dest: Addr, response: seq<byte>): LinkState {
    var l := Declined(source, dest, response);
    l.(conn := l.conn.(phase := Finished(FIRST)), ch := Channel(NEW_PIPE.(ending := FinArrived), NEW_PIPE),
       handler := l.handler.(end := Endpoint(l.handler.end.tcp.(closed := true), Copying([]), Done(true), 1)))
  }

  lemma ReachHung(cfg: Config, source: Addr, dest: Addr, response: seq<byte>) returns (acts: seq<Action>)
    requires cfg.retries > 0 && ValidAddr(source) && ValidAddr(dest) && response != []
    ensures Exec(cfg, acts) == Some(Only(Hung(source, dest, response)))
  {
    hide Exec, Encode, CanonicalAddr, Peer, BodyLength, DecodeBody;
    acts := ReachDeclined(cfg, source, dest, response);
    var l;
    acts, l := Go(cfg, acts, Declined(source, dest, response), AtClient(CloseStream));
    acts, l := Go(cfg, acts, l, InNetwork(Up, DeliverEnd));
    acts, l := Go(cfg, acts, l, Server(BackEof));
    acts, l := Go(cfg, acts, l, Server(BackDone));
  }

  /** A client that half-closes before it is answered loses the whole answer, although the destination never closes,
      nothing is under way or unread when the server's reset is sent, and the session lives: the client's own copier
      throws it away, and the connection is torn down. */
  lemma ResponseIsDeclined(cfg: Config, source: Addr, dest: Addr, response: seq<byte>) returns (acts: seq<Action>)
    requires cfg.retries > 0 && ValidAddr(source) && ValidAddr(dest) && response != []
    ensures Exec(cfg, acts).Some? && HasLink(Exec(cfg, acts).value, 0, FIRST)
    ensures var l := LinkOf(Exec(cfg, acts).value, 0, FIRST);
            && l.alive && TornDown(l) && !l.handler.end.tcp.peerClosed && l.handler.end.tcp.taken == response
            && l.ch.down == NEW_PIPE.(ending := ResetSent) && InHand(l) == []
  {
    hide Exec, Encode, CanonicalAddr, ClientStep, NetStep, Peer, BodyLength, DecodeBody;
    acts := ReachHung(cfg, source, dest, response);
    var l;
    acts, l := Go(cfg, acts, Hung(source, dest, response), Server(OutReadError));
    acts, l := Go(cfg, acts, l, Server(OutDone));
    acts, l := Go(cfg, acts, l, AtServer(CancelStream));
  }
}
