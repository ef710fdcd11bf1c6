/** What a run was told from outside, in order: the connections accepted, and what each peer sent. The state agrees. */
module Ledger {
  import opened Basics
  import opened Header
  import opened Relay
  import opened Link
  import opened Tunnel

  // A TCP connection accepted by the client: who opened it, and where it was bound for.
  datatype Arrival = Arrival(source: Addr, dest: Addr)

  function Arrivals(acts: seq<Action>): seq<Arrival> {
    if acts == [] then []
    else
      Arrivals(acts[..|acts| - 1])
      + match acts[|acts| - 1] case Accept(source, dest) => [Arrival(source, dest)] case _ => []
  }

  // Everything the client of connection i sent, one PeerSends after the other.
  function ClientSaid(acts: seq<Action>, i: nat): seq<byte> {
    if acts == [] then [] else ClientSaid(acts[..|acts| - 1], i) + SaidByClient(acts[|acts| - 1], i)
  }

  function SaidByClient(a: Action, i: nat): seq<byte> {
    match a
    case ClientPeer(j, PeerSends(bytes)) => if j == i then bytes else []
    case _ => []
  }

  // Everything the destination of stream k sent.
  function DestSaid(acts: seq<Action>, k: StreamId): seq<byte> {
    if acts == [] then [] else DestSaid(acts[..|acts| - 1], k) + SaidByDest(acts[|acts| - 1], k)
  }

  function SaidByDest(a: Action, k: StreamId): seq<byte> {
    match a
    case ServerPeer(k', PeerSends(bytes)) => if k' == k then bytes else []
    case _ => []
  }

  // Whether the client of connection i, or the destination of stream k, has done this.
  predicate ClientDid(acts: seq<Action>, i: nat, act: PeerAct) {
    acts != [] && (ClientDid(acts[..|acts| - 1], i, act) || acts[|acts| - 1] == ClientPeer(i, act))
  }

  predicate DestDid(acts: seq<Action>, k: StreamId, act: PeerAct) {
    acts != [] && (DestDid(acts[..|acts| - 1], k, act) || acts[|acts| - 1] == ServerPeer(k, act))
  }

  // What a TCP connection has received from its peer, read or not.
  function Received(tcp: Socket): seq<byte> {
    tcp.taken + tcp.incoming
  }

  // ---- one action ----

  lemma PeerReceived(tcp: Socket, act: PeerAct)
    requires Peer(tcp, act).Some?
    ensures Received(Peer(tcp, act).value) == Received(tcp) + (if act.PeerSends? then act.bytes else [])
    ensures Peer(tcp, act).value.peerClosed == (tcp.peerClosed || act == PeerCloses)
    ensures Peer(tcp, act).value.broken == (tcp.broken || act == PeerResets)
  {
  }

  predicate SameFlags(tcp: Socket, tcp': Socket) {
    tcp'.peerClosed == tcp.peerClosed && tcp'.broken == tcp.broken
  }

  lemma ClientStepReceived(c: Conn, ch: Channel, alive: bool, act: ClientAct)
    requires ClientStep(c, ch, alive, act).Some?
    ensures var (c', _) := ClientStep(c, ch, alive, act).value;
            && Received(c'.end.tcp) == Received(c.end.tcp) && SameFlags(c.end.tcp, c'.end.tcp)
            && c'.source == c.source && c'.dest == c.dest
  {
    hide CopyStep, Encode;
    if act.ClientRelay? {
      ReadsInOrder(Leg(c.end, ch.up, ch.down), alive, act.relay);
    }
  }

  lemma ServerStepReceived(h: Handler, ch: Channel, alive: bool, act: ServerAct)
    requires ServerStep(h, ch, alive, act).Some?
    ensures Received(ServerStep(h, ch, alive, act).value.0.end.tcp) == Received(h.end.tcp)
    ensures SameFlags(h.end.tcp, ServerStep(h, ch, alive, act).value.0.end.tcp)
  {
    hide CopyStep, DecodeBody, BodyLength;
    if act.ServerRelay? {
      ReadsInOrder(Leg(h.end, ch.down, ch.up), alive, act.relay);
    }
  }

  // What an action does to connection i, as far as the outside goes.
  predicate ConnEffect(conns: seq<Conn>, a: Action, conns': seq<Conn>, i: nat) {
    && |conns'| == |conns| + (if a.Accept? then 1 else 0)
    && (i < |conns| ==>
          var tcp, tcp' := conns[i].end.tcp, conns'[i].end.tcp;
          && conns'[i].source == conns[i].source && conns'[i].dest == conns[i].dest
          && Received(tcp') == Received(tcp) + SaidByClient(a, i)
          && tcp'.peerClosed == (tcp.peerClosed || a == ClientPeer(i, PeerCloses))
          && tcp'.broken == (tcp.broken || a == ClientPeer(i, PeerResets)))
    && (i >= |conns| ==> !(a.ClientPeer? && a.i == i))
    && (a.Accept? && i == |conns| ==>
          var c := conns'[i];
          && c.source == a.source && c.dest == a.dest
          && Received(c.end.tcp) == [] && !c.end.tcp.peerClosed && !c.end.tcp.broken)
  }

  // Setting a connection up leaves its addresses and what it has received alone.
  lemma EstablishConns(cfg: Config, s: State, a: Action, i: nat)
    requires Step(cfg, s, a).Some?
    requires a.CheckSession? || a.TryOpen? || a.DialAttempt? || a.AssignSession? || a.OpenNew?
    ensures ConnEffect(s.conns, a, Step(cfg, s, a).value.conns, i)
  {
    hide ClientStep, ServerStep, NetStep, Peer, Encode;
    assert forall b: seq<byte> {:trigger b + []} :: b + [] == b;
  }

  lemma OtherConns(cfg: Config, s: State, a: Action, i: nat)
    requires Step(cfg, s, a).Some?
    requires !(a.CheckSession? || a.TryOpen? || a.DialAttempt? || a.AssignSession? || a.OpenNew?)
    ensures ConnEffect(s.conns, a, Step(cfg, s, a).value.conns, i)
  {
    hide ClientStep, ServerStep, NetStep, Peer, Encode, Establish;
    assert forall b: seq<byte> {:trigger b + []} :: b + [] == b;
    if a.OnClient? {
      var c := s.conns[a.i];
      ClientStepReceived(c, s.streams[c.phase.id], Alive(s, c.phase.id), a.client);
    } else if a.ClientPeer? {
      PeerReceived(s.conns[a.i].end.tcp, a.peer);
    }
  }

  lemma StepConns(cfg: Config, s: State, a: Action, i: nat)
    requires Step(cfg, s, a).Some?
    ensures ConnEffect(s.conns, a, Step(cfg, s, a).value.conns, i)
  {
    hide Step, ConnEffect;
    if a.CheckSession? || a.TryOpen? || a.DialAttempt? || a.AssignSession? || a.OpenNew? {
      EstablishConns(cfg, s, a, i);
    } else {
      OtherConns(cfg, s, a, i);
    }
  }

  // Opening a stream for a connection takes a number that no stream has.
  lemma OpensFresh(cfg: Config, s: State, a: Action, k: StreamId)
    requires Inv(s) && Step(cfg, s, a).Some? && k in s.handlers && !a.OnServer? && !a.ServerPeer?
    ensures k in Step(cfg, s, a).value.handlers && Step(cfg, s, a).value.handlers[k] == s.handlers[k]
  {
    hide ClientStep, NetStep, Peer, Encode, ConnsOk, Disjoint;
    assert k in s.streams && StreamOk(s, k);
  }

  lemma StepHandlers(cfg: Config, s: State, a: Action, k: StreamId)
    requires Inv(s) && Step(cfg, s, a).Some? && k in Step(cfg, s, a).value.handlers
    ensures Received(Step(cfg, s, a).value.handlers[k].end.tcp) ==
            (if k in s.handlers then Received(s.handlers[k].end.tcp) else []) + SaidByDest(a, k)
    ensures var tcp := Step(cfg, s, a).value.handlers[k].end.tcp;
            && tcp.peerClosed ==
                  ((k in s.handlers && s.handlers[k].end.tcp.peerClosed) || a == ServerPeer(k, PeerCloses))
            && tcp.broken == ((k in s.handlers && s.handlers[k].end.tcp.broken) || a == ServerPeer(k, PeerResets))
  {
    hide ClientStep, ServerStep, NetStep, Peer, Encode, Inv;
    assert forall b: seq<byte> {:trigger b + []} :: b + [] == b;
    if a.OnServer? {
      ServerStepReceived(s.handlers[a.k], s.streams[a.k], Alive(s, a.k), a.server);
    } else if a.ServerPeer? {
      PeerReceived(s.handlers[a.k].end.tcp, a.peer);
    } else if k in s.handlers {
      OpensFresh(cfg, s, a, k);
    }
  }

  lemma StepKeepsHandlers(cfg: Config, s: State, a: Action)
    requires Step(cfg, s, a).Some?
    ensures s.handlers.Keys <= Step(cfg, s, a).value.handlers.Keys
  {
    hide ClientStep, ServerStep, NetStep, Peer, Encode;
  }

  // ---- whole runs ----

  // What connection c, the i-th, should be after these actions.
  predicate IsArrival(c: Conn, acts: seq<Action>, i: nat) {
    && i < |Arrivals(acts)| && c.source == Arrivals(acts)[i].source && c.dest == Arrivals(acts)[i].dest
    && Received(c.end.tcp) == ClientSaid(acts, i)
    && c.end.tcp.peerClosed == ClientDid(acts, i, PeerCloses) && c.end.tcp.broken == ClientDid(acts, i, PeerResets)
  }

  ghost predicate AreArrivals(conns: seq<Conn>, acts: seq<Action>, i: nat) {
    && |conns| == |Arrivals(acts)|
    && (if i < |conns| then IsArrival(conns[i], acts, i)
        else ClientSaid(acts, i) == [] && forall act :: !ClientDid(acts, i, act))
  }

  lemma NoArrivals(i: nat)
    ensures AreArrivals([], [], i)
  {
  }

  lemma ArrivalsGrow(conns: seq<Conn>, before: seq<Action>, a: Action, conns': seq<Conn>, i: nat)
    requires AreArrivals(conns, before, i) && ConnEffect(conns, a, conns', i)
    ensures AreArrivals(conns', before + [a], i)
  {
    assert (before + [a])[..|before|] == before;
  }

  /** In every reachable state there is one connection for each accepted, in the order of acceptance, with the addresses
      it was accepted with; what a connection has received, read or not, is what its client sent, in order; and it knows
      of a close or reset exactly if its client did one. */
  lemma {:induction false} ConnIsArrival(cfg: Config, acts: seq<Action>, i: nat)
    requires Exec(cfg, acts).Some?
    ensures AreArrivals(Exec(cfg, acts).value.conns, acts, i)
  {
    hide Step, AreArrivals, ConnEffect;
    if acts == [] {
      NoArrivals(i);
    } else {
      var before, a := acts[..|acts| - 1], acts[|acts| - 1];
      ConnIsArrival(cfg, before, i);
      StepConns(cfg, Exec(cfg, before).value, a, i);
      ArrivalsGrow(Exec(cfg, before).value.conns, before, a, Exec(cfg, acts).value.conns, i);
      assert acts == before + [a];
    }
  }

  /** Likewise what the server's TCP connection of a stream has received is what its destination sent, in order, and it
      knows of the destination's close or reset. */
  lemma {:induction false} DestsAreHeard(cfg: Config, acts: seq<Action>, k: StreamId)
    requires Exec(cfg, acts).Some?
    ensures var handlers := Exec(cfg, acts).value.handlers;
            if k in handlers then
              && Received(handlers[k].end.tcp) == DestSaid(acts, k)
              && handlers[k].end.tcp.peerClosed == DestDid(acts, k, PeerCloses)
              && handlers[k].end.tcp.broken == DestDid(acts, k, PeerResets)
            else DestSaid(acts, k) == [] && forall act :: !DestDid(acts, k, act)
  {
    hide Step, Received, Inv;
    if acts != [] {
      var before, a := acts[..|acts| - 1], acts[|acts| - 1];
      DestsAreHeard(cfg, before, k);
      ReachableInv(cfg, before);
      var s := Exec(cfg, before).value;
      StepKeepsHandlers(cfg, s, a);
      if k !in s.handlers {
        DestIsKnown(cfg, s, a, k);
      }
      if k in Exec(cfg, acts).value.handlers {
        StepHandlers(cfg, s, a, k);
      }
    }
  }

  lemma DestIsKnown(cfg: Config, s: State, a: Action, k: StreamId)
    requires Step(cfg, s, a).Some? && k !in s.handlers
    ensures SaidByDest(a, k) == [] && forall act :: a != ServerPeer(k, act)
  {
  }
}
