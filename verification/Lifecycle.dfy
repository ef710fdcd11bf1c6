/** How one tunnelled connection comes to rest: the states in which nothing can happen any more, and the
    cascade that follows once a QUIC-to-TCP copier has finished. */
module Lifecycle {
  import opened Basics
  import opened Header
  import opened Relay
  import opened Link

  datatype LinkState = LinkState(conn: Conn, ch: Channel, handler: Handler, alive: bool)

  datatype LinkAct =
    | AtClient(client: ClientAct)
    | AtServer(server: ServerAct)
    | InNetwork(dir: Direction, net: NetAct)
    | ClientSide(peer: PeerAct)
    | ServerSide(peer: PeerAct)
    | Timeout

  function LinkStep(l: LinkState, a: LinkAct): Option<LinkState> {
    match a
    case AtClient(act) =>
      var r := ClientStep(l.conn, l.ch, l.alive, act);
      if r.None? then None else Some(l.(conn := r.value.0, ch := r.value.1))
    case AtServer(act) =>
      var r := ServerStep(l.handler, l.ch, l.alive, act);
      if r.None? then None else Some(l.(handler := r.value.0, ch := r.value.1))
    case InNetwork(dir, act) =>
      var r := NetStep(l.ch, l.alive, dir, act);
      if r.None? then None else Some(l.(ch := r.value))
    case ClientSide(act) =>
      var r := Peer(l.conn.end.tcp, act);
      if r.None? then None else Some(l.(conn := l.conn.(end := l.conn.end.(tcp := r.value))))
    case ServerSide(act) =>
      var r := Peer(l.handler.end.tcp, act);
      if r.None? || !(l.handler.stage.Serving? || l.handler.stage.Cancelled?) then None
      else Some(l.(handler := l.handler.(end := l.handler.end.(tcp := r.value))))
    case Timeout =>
      if l.alive then Some(l.(alive := false)) else None
  }

  predicate Ok(l: LinkState) {
    LinkInv(l.conn, l.ch, l.handler, l.alive)
  }

  // The copiers run at both ends.
  predicate Copies(l: LinkState) {
    (l.conn.phase.Joined? || l.conn.phase.Finished?) && (l.handler.stage.Serving? || l.handler.stage.Cancelled?)
  }

  lemma LinkStepKeepsOk(l: LinkState, a: LinkAct)
    requires Ok(l) && LinkStep(l, a).Some?
    ensures Ok(LinkStep(l, a).value)
    ensures Copies(l) ==> Copies(LinkStep(l, a).value)
  {
    hide LinkInv;
    match a {
      case AtClient(act) => ClientKeepsLink(l.conn, l.ch, l.handler, l.alive, act);
      case AtServer(act) => ServerKeepsLink(l.conn, l.ch, l.handler, l.alive, act);
      case InNetwork(dir, act) => NetworkKeepsLink(l.conn, l.ch, l.handler, l.alive, dir, act);
      case ClientSide(act) => ClientPeerKeepsLink(l.conn, l.ch, l.handler, l.alive, act);
      case ServerSide(act) => ServerPeerKeepsLink(l.conn, l.ch, l.handler, l.alive, act);
      case Timeout => DeathKeepsLink(l.conn, l.ch, l.handler);
    }
  }

  // ---- quiescence ----

  // Neither program nor the network can move; the peers' applications and the idle timeout still may.
  ghost predicate Quiescent(l: LinkState) {
    forall a: LinkAct :: a.AtClient? || a.AtServer? || a.InNetwork? ==> LinkStep(l, a).None?
  }

  predicate AllDone(e: Endpoint) {
    e.out.Done? && e.back.Done? && e.tcp.closed
  }

  predicate TornDown(l: LinkState) {
    AllDone(l.conn.end) && AllDone(l.handler.end) && l.conn.phase.Finished? && l.handler.stage.Cancelled?
  }

  predicate Silent(p: Pipe) {
    p.wire == [] && p.inbox == [] && p.ending == Open
  }

  // The TCP-to-QUIC copier is through, or has nothing to read: no data, no end, no error.
  predicate OutAtRest(e: Endpoint) {
    e.out.Done? || (Idle(e.out) && e.tcp.incoming == [] && !e.tcp.peerClosed && !e.tcp.broken && !e.tcp.closed)
  }

  /** Both QUIC-to-TCP copiers wait, nothing is in flight and neither side has ended the stream. */
  predicate Parked(l: LinkState) {
    && Idle(l.conn.end.back) && Idle(l.handler.end.back)
    && OutAtRest(l.conn.end) && OutAtRest(l.handler.end)
    && Silent(l.ch.up) && Silent(l.ch.down)
  }

  predicate Landed(p: Pipe) {
    p.ending.FinArrived? || p.ending.ResetArrived?
  }

  function Client(act: RelayAct): LinkAct { AtClient(ClientRelay(act)) }

  function Server(act: RelayAct): LinkAct { AtServer(ServerRelay(act)) }

  // The next thing a TCP-to-QUIC copier with a live session can do, unless it is at rest.
  function NextOut(e: Endpoint): RelayAct {
    if e.out.Returned? then OutDone
    else if Holding(e.out) then OutWrite
    else if e.tcp.closed || e.tcp.broken then OutReadError
    else if e.tcp.incoming != [] then OutRead(1)
    else OutEof
  }

  // The same for a QUIC-to-TCP copier whose stream has something for it.
  function NextBack(e: Endpoint, p: Pipe, alive: bool): RelayAct {
    if e.back.Returned? then BackDone
    else if Holding(e.back) then (if e.tcp.closed || e.tcp.broken then BackWriteError(0) else BackWrite)
    else if !alive || p.ending == ResetArrived then BackReadError
    else if p.inbox != [] then BackRead(1)
    else BackEof
  }

  lemma OutCanMove(l: Leg)
    requires !OutAtRest(l.end) && !l.end.out.Done?
    ensures CopyStep(l, true, NextOut(l.end)).Some?
  {
  }

  lemma BackCanMove(l: Leg, alive: bool)
    requires !l.end.back.Done? && !(Idle(l.end.back) && alive && l.back.inbox == [] && !Landed(l.back))
    ensures CopyStep(l, alive, NextBack(l.end, l.back, alive)).Some?
  {
  }

  // At a quiescent end every copier is at rest; if its QUIC-to-TCP copier is done, so is everything else there.
  lemma QuiescentClient(l: LinkState)
    requires Ok(l) && l.alive && Copies(l) && Quiescent(l)
    ensures l.conn.phase.Joined? ==>
        OutAtRest(l.conn.end) && Idle(l.conn.end.back) && l.ch.down.inbox == [] && !Landed(l.ch.down)
    ensures l.conn.phase.Finished? ==> AllDone(l.conn.end)
  {
    hide UpFlow, DownFlow, CopyStep;
    if l.conn.phase.Joined? {
      var leg := Leg(l.conn.end, l.ch.up, l.ch.down);
      if !OutAtRest(leg.end) && !leg.end.out.Done? {
        OutCanMove(leg);
      }
      if !leg.end.back.Done? && !(Idle(leg.end.back) && leg.back.inbox == [] && !Landed(leg.back)) {
        BackCanMove(leg, true);
      }
      assert LinkStep(l, Client(NextOut(leg.end))).None?;
      assert LinkStep(l, Client(NextBack(leg.end, leg.back, true))).None?;
      assert LinkStep(l, AtClient(CloseStream)).None?;
    }
  }

  lemma QuiescentServer(l: LinkState)
    requires Ok(l) && l.alive && Copies(l) && Quiescent(l)
    ensures l.handler.stage.Serving? ==>
        OutAtRest(l.handler.end) && Idle(l.handler.end.back) && l.ch.up.inbox == [] && !Landed(l.ch.up)
    ensures l.handler.stage.Cancelled? ==> AllDone(l.handler.end)
  {
    hide UpFlow, DownFlow, CopyStep;
    if l.handler.stage.Serving? {
      var leg := Leg(l.handler.end, l.ch.down, l.ch.up);
      if !OutAtRest(leg.end) && !leg.end.out.Done? {
        OutCanMove(leg);
      }
      if !leg.end.back.Done? && !(Idle(leg.end.back) && leg.back.inbox == [] && !Landed(leg.back)) {
        BackCanMove(leg, true);
      }
      assert LinkStep(l, Server(NextOut(leg.end))).None?;
      assert LinkStep(l, Server(NextBack(leg.end, leg.back, true))).None?;
      assert LinkStep(l, AtServer(CancelStream)).None?;
    }
  }

  lemma QuiescentPipes(l: LinkState)
    requires Ok(l) && l.alive && Quiescent(l)
    ensures (l.ch.up.wire == [] && l.ch.up.ending == Open) || Landed(l.ch.up)
    ensures (l.ch.down.wire == [] && l.ch.down.ending == Open) || Landed(l.ch.down)
  {
    assert LinkStep(l, InNetwork(Up, Deliver(1))).None?;
    assert LinkStep(l, InNetwork(Down, Deliver(1))).None?;
    assert LinkStep(l, InNetwork(Up, DeliverEnd)).None?;
    assert LinkStep(l, InNetwork(Down, DeliverEnd)).None?;
  }

  /** A connection that is copying over a live session can make no further move exactly when it is torn down
      and both ends of the stream have been told, or when it is parked. */
  lemma QuiescentIff(l: LinkState)
    requires Ok(l) && l.alive && Copies(l)
    ensures Quiescent(l) <==> (TornDown(l) && Landed(l.ch.up) && Landed(l.ch.down)) || Parked(l)
  {
    if Quiescent(l) {
      QuiescentClient(l);
      QuiescentServer(l);
      QuiescentPipes(l);
    }
  }
}
