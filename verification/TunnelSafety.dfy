/** What holds in every reachable state of the tunnel, over every interleaving of any number of connections. */
module TunnelSafety {
  import opened Basics
  import opened Header
  import opened HeaderStream
  import opened Relay
  import opened Link
  import opened Tunnel
  import opened Ledger

  // The server goroutine of stream k has dialled a destination.
  predicate Served(s: State, k: StreamId) {
    k in s.handlers && (s.handlers[k].stage.Serving? || s.handlers[k].stage.Cancelled?)
  }

  // ---- streams and their owners ----

  /** No two connections ever hold the same stream, and a stream that exists is held by some connection. */
  lemma StreamOwnership(cfg: Config, acts: seq<Action>)
    requires Exec(cfg, acts).Some?
    ensures var s := Exec(cfg, acts).value;
            && (forall i, j, k ::
                  0 <= i < |s.conns| && 0 <= j < |s.conns| && Holds(s.conns[i], k) && Holds(s.conns[j], k) ==> i == j)
            && (forall k :: k in s.streams ==> exists i :: 0 <= i < |s.conns| && Holds(s.conns[i], k))
  {
    hide LinkInv, ConnOk;
    ReachableInv(cfg, acts);
    var s := Exec(cfg, acts).value;
    forall k | k in s.streams
      ensures exists i :: 0 <= i < |s.conns| && Holds(s.conns[i], k)
    {
      assert Owned(s, k);
    }
  }

  /** A connection that has a stream keeps it: no action gives it another one or takes it away. */
  lemma StreamIsForLife(cfg: Config, s: State, a: Action, i: nat)
    requires Step(cfg, s, a).Some? && i < |s.conns|
    ensures var s' := Step(cfg, s, a).value;
            && |s'.conns| >= |s.conns|
            && s'.conns[i].source == s.conns[i].source && s'.conns[i].dest == s.conns[i].dest
            && (HoldsStream(s.conns[i]) ==> Holds(s'.conns[i], s.conns[i].phase.id))
  {
  }

  /** Hence a run opens at most one stream for each connection it accepts. */
  lemma AtMostOneStreamEach(cfg: Config, acts: seq<Action>)
    requires Exec(cfg, acts).Some?
    ensures |Exec(cfg, acts).value.streams| <= |Exec(cfg, acts).value.conns|
  {
    hide LinkInv, ConnOk;
    ReachableInv(cfg, acts);
    var s := Exec(cfg, acts).value;
    forall k | k in s.streams.Keys
      ensures exists c :: c in s.conns && Holds(c, k)
    {
      assert Owned(s, k);
    }
    Holders(s.streams.Keys, s.conns);
  }

  lemma {:induction false} Holders(ks: set<StreamId>, conns: seq<Conn>)
    requires forall k :: k in ks ==> exists c :: c in conns && Holds(c, k)
    ensures |ks| <= |conns|
  {
    if conns == [] {
      assert forall k :: k !in ks;
      assert ks == {};
    } else {
      var first := conns[0];
      var rest := if HoldsStream(first) then ks - {first.phase.id} else ks;
      forall k | k in rest
        ensures exists c :: c in conns[1..] && Holds(c, k)
      {
        var c :| c in conns && Holds(c, k);
        assert c in conns[1..];
      }
      Holders(rest, conns[1..]);
      if HoldsStream(first) {
        assert ks <= rest + {first.phase.id};
        assert |ks| <= |rest + {first.phase.id}| <= |rest| + 1;
      }
    }
  }

  // ---- end to end ----

  lemma LinkHolds(cfg: Config, acts: seq<Action>, i: nat)
    requires Exec(cfg, acts).Some? && i < |Exec(cfg, acts).value.conns|
    requires HoldsStream(Exec(cfg, acts).value.conns[i])
    ensures var s := Exec(cfg, acts).value;
            var k := s.conns[i].phase.id;
            k in s.streams && k in s.handlers && LinkInv(s.conns[i], s.streams[k], s.handlers[k], Alive(s, k))
  {
    hide LinkInv;
    ReachableInv(cfg, acts);
    var s := Exec(cfg, acts).value;
    assert ConnOk(s, s.conns[i]);
  }

  /** Every served stream belongs to exactly one client connection, that of one arrival. What the server took off the
      stream, by its header reads (`head`) and by its copier, is a prefix of the header for that arrival's addresses
      followed by what that client sent, however the header was read: no byte of another connection. With full header
      reads what it has written to the destination is a prefix of what the client sent, with no header byte, and the
      destination dialled is the one the client's connection was bound for. In the other direction, the client has
      been given a prefix of what the destination sent. */
  lemma EndToEnd(cfg: Config, acts: seq<Action>, k: StreamId) returns (owner: nat)
    requires Exec(cfg, acts).Some? && Served(Exec(cfg, acts).value, k)
    ensures var s, arrivals := Exec(cfg, acts).value, Arrivals(acts);
            && owner < |s.conns| == |arrivals| && Holds(s.conns[owner], k)
            && (forall j :: 0 <= j < |s.conns| && Holds(s.conns[j], k) ==> j == owner)
            && s.conns[owner].end.tcp.given <= s.handlers[k].end.tcp.taken <= DestSaid(acts, k)
            && s.conns[owner].end.tcp.taken <= ClientSaid(acts, owner)
            && s.handlers[k].head + s.handlers[k].end.tcp.given
               <= Encode(QpepHeader(arrivals[owner].source, arrivals[owner].dest)) + ClientSaid(acts, owner)
            && (!s.handlers[k].short ==>
                  && s.handlers[k].end.tcp.given <= s.conns[owner].end.tcp.taken
                  && s.handlers[k].dialled == Some(CanonicalAddr(arrivals[owner].dest)))
  {
    var s := Exec(cfg, acts).value;
    hide Exec, LinkInv, ConnOk, Encode, CanonicalAddr;
    ReachableInv(cfg, acts);
    StreamOwnership(cfg, acts);
    owner :| 0 <= owner < |s.conns| && Holds(s.conns[owner], k);
    ConnEndToEnd(cfg, acts, owner);
  }

  lemma ConnEndToEnd(cfg: Config, acts: seq<Action>, i: nat)
    requires Exec(cfg, acts).Some? && i < |Exec(cfg, acts).value.conns|
    requires var s := Exec(cfg, acts).value; HoldsStream(s.conns[i]) && Served(s, s.conns[i].phase.id)
    ensures var s, arrivals := Exec(cfg, acts).value, Arrivals(acts);
            var c, h := s.conns[i], s.handlers[s.conns[i].phase.id];
            && |arrivals| == |s.conns|
            && c.end.tcp.given <= h.end.tcp.taken <= DestSaid(acts, c.phase.id) &&
                  c.end.tcp.taken <= ClientSaid(acts, i)
            && h.head + h.end.tcp.given <=
                  Encode(QpepHeader(arrivals[i].source, arrivals[i].dest)) + ClientSaid(acts, i)
            && (!h.short ==>
                  h.end.tcp.given <= c.end.tcp.taken && h.dialled == Some(CanonicalAddr(arrivals[i].dest)))
  {
    var s := Exec(cfg, acts).value;
    var c, k := s.conns[i], s.conns[i].phase.id;
    hide Exec, LinkInv, ConnOk, Encode, CanonicalAddr;
    LinkHolds(cfg, acts, i);
    LinkEndToEnd(c, s.streams[k], s.handlers[k], Alive(s, k));
    ConnIsArrival(cfg, acts, i);
    DestsAreHeard(cfg, acts, k);
  }

  lemma LinkEndToEnd(c: Conn, ch: Channel, h: Handler, alive: bool)
    requires LinkInv(c, ch, h, alive) && (h.stage.Serving? || h.stage.Cancelled?)
    ensures c.end.tcp.given <= h.end.tcp.taken
    ensures h.head + h.end.tcp.given <= Encode(HeaderOf(c)) + c.end.tcp.taken
    ensures !h.short ==> h.end.tcp.given <= c.end.tcp.taken && h.dialled == Some(CanonicalAddr(c.dest))
  {
    assert [] + c.end.tcp.given == c.end.tcp.given && [] + h.end.tcp.taken == h.end.tcp.taken;
    if !h.short {
      PrefixSplit(h.head, h.end.tcp.given, c.end.tcp.taken);
    }
  }

  /** The hypothesis on header reads is exact: in every reachable state a server goroutine that has read a header took
      exactly the header off the stream and has the right one, or has dialled the right destination, if and only if
      neither of its reads was short. The header may have arrived in any number of pieces, before, between and
      during the reads. */
  lemma HeaderIsRightIffReadsFull(cfg: Config, acts: seq<Action>, i: nat)
    requires Exec(cfg, acts).Some? && i < |Exec(cfg, acts).value.conns|
    requires var s := Exec(cfg, acts).value; HoldsStream(s.conns[i]) && s.conns[i].phase.id in s.handlers
    ensures |Arrivals(acts)| == |Exec(cfg, acts).value.conns|
    ensures var s, arrival := Exec(cfg, acts).value, Arrivals(acts)[i];
            var h, header := s.handlers[s.conns[i].phase.id], QpepHeader(arrival.source, arrival.dest);
            && (h.stage.Connecting? ==>
                  (h.head == Encode(header) && h.stage.header == Canonical(header) <==> !h.short))
            && (Served(s, s.conns[i].phase.id) ==>
                  (h.head == Encode(header) && h.dialled == Some(CanonicalAddr(arrival.dest)) <==> !h.short))
  {
    LinkHolds(cfg, acts, i);
    ConnIsArrival(cfg, acts, i);
  }

  // A copier that stopped because its source ended, not because something failed.
  predicate EndedCleanly(c: Copier) {
    !c.Copying? && c.clean
  }

  /** When the server's QUIC-to-TCP copier ended cleanly, everything sent was taken off the stream, and with full
      header reads everything read from the client was delivered, even if the client's own copier failed. If that ended
      cleanly too, everything the client ever sent was delivered. */
  lemma CleanTransferIsComplete(cfg: Config, acts: seq<Action>, i: nat)
    requires Exec(cfg, acts).Some? && i < |Exec(cfg, acts).value.conns|
    requires var s := Exec(cfg, acts).value;
             HoldsStream(s.conns[i]) && Served(s, s.conns[i].phase.id) &&
                 EndedCleanly(s.handlers[s.conns[i].phase.id].end.back)
    ensures var s := Exec(cfg, acts).value;
            var c, h := s.conns[i], s.handlers[s.conns[i].phase.id];
            && h.head + h.end.tcp.given == Encode(HeaderOf(c)) + c.end.tcp.taken
            && (!h.short ==> h.end.tcp.given == c.end.tcp.taken)
            && (!h.short && EndedCleanly(c.end.out) ==> h.end.tcp.given == ClientSaid(acts, i))
  {
    LinkHolds(cfg, acts, i);
    ConnIsArrival(cfg, acts, i);
    var s := Exec(cfg, acts).value;
    var c, h := s.conns[i], s.handlers[s.conns[i].phase.id];
    if !h.short {
      PrefixSplit(h.head, h.end.tcp.given, c.end.tcp.taken);
      PrefixSplit(h.head, c.end.tcp.taken, h.end.tcp.given);
    }
  }

  /** The server ends its direction by a reset, never by a FIN: a client's QUIC-to-TCP copier never ends cleanly. */
  lemma ResponseNeverEndsCleanly(cfg: Config, acts: seq<Action>, i: nat)
    requires Exec(cfg, acts).Some? && i < |Exec(cfg, acts).value.conns|
    ensures !EndedCleanly(Exec(cfg, acts).value.conns[i].end.back)
  {
    ReachableInv(cfg, acts);
    var s := Exec(cfg, acts).value;
    var c := s.conns[i];
    assert ConnOk(s, c);
  }

  /** A connection that is dropped, or has closed its stream, has closed its TCP connection. */
  lemma ClosedWhenOver(cfg: Config, acts: seq<Action>, i: nat)
    requires Exec(cfg, acts).Some? && i < |Exec(cfg, acts).value.conns|
    ensures var c := Exec(cfg, acts).value.conns[i]; c.phase.Dropped? || c.phase.Finished? ==> c.end.tcp.closed
  {
    ReachableInv(cfg, acts);
    var s := Exec(cfg, acts).value;
    assert ConnOk(s, s.conns[i]);
  }

  /** A stream is ended in either direction only after both copiers of the end that ends it are done and have closed
      their TCP connection; a copier that finishes alone closes its TCP connection and nothing else. */
  lemma StreamEndsAfterBothCopiers(cfg: Config, acts: seq<Action>, i: nat)
    requires Exec(cfg, acts).Some? && i < |Exec(cfg, acts).value.conns|
    requires var s := Exec(cfg, acts).value;
             HoldsStream(s.conns[i]) && s.conns[i].phase.id in s.streams && s.conns[i].phase.id in s.handlers
    ensures var s := Exec(cfg, acts).value;
            var c, ch, h := s.conns[i].end, s.streams[s.conns[i].phase.id], s.handlers[s.conns[i].phase.id].end;
            && (ch.up.ending != Open ==> c.out.Done? && c.back.Done? && c.tcp.closed)
            && (ch.down.ending != Open || ch.up.stopped ==> h.out.Done? && h.back.Done? && h.tcp.closed)
            && !EndedCleanly(c.back) && !ch.up.ending.ResetSent? && !ch.up.ending.ResetArrived?
  {
    LinkHolds(cfg, acts, i);
  }

  /** A server goroutine that gave up (no header, or no destination) tells the client nothing: while the session
      lives, the client's QUIC-to-TCP copier waits on a stream with no byte and no end on it, and the client
      has not closed the stream. */
  lemma AbandonedStreamIsSilent(cfg: Config, acts: seq<Action>, i: nat)
    requires Exec(cfg, acts).Some? && i < |Exec(cfg, acts).value.conns|
    requires var s := Exec(cfg, acts).value;
             HoldsStream(s.conns[i]) && s.conns[i].phase.id in s.handlers && s.conns[i].phase.id in s.streams
             && s.handlers[s.conns[i].phase.id].stage.Abandoned? && Alive(s, s.conns[i].phase.id)
    ensures var s := Exec(cfg, acts).value;
            var down := s.streams[s.conns[i].phase.id].down;
            && s.conns[i].end.back == Copying([]) && !s.conns[i].phase.Finished?
            && down.wire == [] && down.inbox == [] && down.ending == Open
  {
    LinkHolds(cfg, acts, i);
    var s := Exec(cfg, acts).value;
    var k := s.conns[i].phase.id;
    SilentDown(s.conns[i], s.streams[k], s.handlers[k], Alive(s, k));
  }
}
