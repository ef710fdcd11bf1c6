/** What becomes of the bytes of a connection inside the whole tunnel, and where it ends when nobody disturbs it,
    whatever the other connections do. */
module TunnelOutcomes {
  import opened Basics
  import opened Header
  import opened Relay
  import opened Link
  import opened Tunnel
  import opened Ledger
  import opened TunnelSafety
  import opened Lifecycle
  import opened Teardown
  import opened Rest
  import opened Delivery
  import opened Conservation
  import opened Release
  import opened Outcomes
  import opened TunnelProgress

  // ---- every byte accounted for ----

  // The bytes that an action throws away of a direction of connection i with stream k.
  function StepDiscards(s: State, a: Action, i: nat, k: StreamId, dir: Direction): int {
    if HasLink(s, i, k) && Project(a, i, k).Some? then Discarded(LinkOf(s, i, k), Project(a, i, k).value, dir) else 0
  }

  function DiscardsAt(cfg: Config, acts: seq<Action>, n: nat, i: nat, k: StreamId, dir: Direction): int
    requires n < |acts|
  {
    if Exec(cfg, acts[..n]).Some? then StepDiscards(Exec(cfg, acts[..n]).value, acts[n], i, k, dir) else 0
  }

  function TotalDiscarded(cfg: Config, acts: seq<Action>, i: nat, k: StreamId, dir: Direction): int {
    if acts == [] then 0
    else TotalDiscarded(cfg, acts[..|acts| - 1], i, k, dir) + DiscardsAt(cfg, acts, |acts| - 1, i, k, dir)
  }

  lemma AliveBefore(l: LinkState, a: LinkAct)
    requires LinkStep(l, a).Some? && LinkStep(l, a).value.alive
    ensures l.alive
  {
  }

  // A connection gains its stream by opening one on the session in the variable.
  lemma GainsByOpening(cfg: Config, s: State, a: Action, i: nat, k: StreamId)
    requires Step(cfg, s, a).Some? && i < |Step(cfg, s, a).value.conns| && Holds(Step(cfg, s, a).value.conns[i], k)
    requires i < |s.conns| ==> !Holds(s.conns[i], k)
    ensures i < |s.conns| && !HoldsStream(s.conns[i]) && s.quicSession.Some? && s.quicSession.value < |s.sessions|
    ensures Step(cfg, s, a).value == OpenOn(s, i, s.quicSession.value)
  {
    hide ClientStep, ServerStep, NetStep, Peer, Encode;
    if i < |s.conns| {
      StreamIsForLife(cfg, s, a, i);
    }
  }

  lemma FreshLinkAccounts(cfg: Config, s: State, a: Action, i: nat, k: StreamId, dir: Direction)
    requires Inv(s) && !HasLink(s, i, k) && Step(cfg, s, a).Some? && HasLink(Step(cfg, s, a).value, i, k)
    ensures var l := LinkOf(Step(cfg, s, a).value, i, k); SentSize(l, dir) == 0 && Kept(l, dir) == 0
  {
    hide Step, LinkInv, Encode;
    if i < |s.conns| {
      assert ConnOk(s, s.conns[i]);
    }
    GainsByOpening(cfg, s, a, i, k);
  }

  // A step that leaves the session alive found it alive, and threw away no negative number of bytes.
  lemma StepIsAlive(cfg: Config, before: seq<Action>, a: Action, i: nat, k: StreamId, dir: Direction)
    requires Exec(cfg, before).Some? && HasLink(Exec(cfg, before).value, i, k) &&
        Step(cfg, Exec(cfg, before).value, a).Some?
    requires Alive(Step(cfg, Exec(cfg, before).value, a).value, k)
    ensures Alive(Exec(cfg, before).value, k) && StepDiscards(Exec(cfg, before).value, a, i, k, dir) >= 0
  {
    hide Inv, Step, LinkStep, LinkInv, Discarded;
    var b := Exec(cfg, before).value;
    ReachableInv(cfg, before);
    StepProjects(cfg, b, a, i, k);
    LinkHolds(cfg, before, i);
    if Project(a, i, k).Some? {
      StepAccounts(LinkOf(b, i, k), Project(a, i, k).value, dir);
      AliveBefore(LinkOf(b, i, k), Project(a, i, k).value);
    }
  }

  // Before the connection has its stream no step throws anything of it away.
  lemma {:induction false} NoneYet(cfg: Config, acts: seq<Action>, i: nat, k: StreamId, dir: Direction)
    requires Exec(cfg, acts).Some? && !HasLink(Exec(cfg, acts).value, i, k)
    ensures forall n :: 0 <= n < |acts| ==> DiscardsAt(cfg, acts, n, i, k, dir) == 0
  {
    hide Step, Inv, LinkInv;
    if acts != [] {
      var before := acts[..|acts| - 1];
      ReachableInv(cfg, before);
      if HasLink(Exec(cfg, before).value, i, k) {
        StepProjects(cfg, Exec(cfg, before).value, acts[|acts| - 1], i, k);
      }
      NoneYet(cfg, before, i, k, dir);
      forall n | 0 <= n < |acts|
        ensures DiscardsAt(cfg, acts, n, i, k, dir) == 0
      {
        if n < |before| {
          assert acts[..n] == before[..n];
          assert DiscardsAt(cfg, before, n, i, k, dir) == 0;
        }
      }
    }
  }

  lemma {:induction false} RunAccounts(cfg: Config, acts: seq<Action>, i: nat, k: StreamId, dir: Direction)
    requires Exec(cfg, acts).Some?
    ensures var s, total := Exec(cfg, acts).value, TotalDiscarded(cfg, acts, i, k, dir);
            && (!HasLink(s, i, k) ==> total == 0)
            && (HasLink(s, i, k) && Alive(s, k) ==>
                  total >= 0 && SentSize(LinkOf(s, i, k), dir) == Kept(LinkOf(s, i, k), dir) + total)
  {
    hide Inv, Step, LinkStep, LinkInv, SentSize, Kept, Discarded;
    if acts != [] {
      var before, a := acts[..|acts| - 1], acts[|acts| - 1];
      var b, s := Exec(cfg, before).value, Exec(cfg, acts).value;
      RunAccounts(cfg, before, i, k, dir);
      ReachableInv(cfg, before);
      if HasLink(b, i, k) {
        StepProjects(cfg, b, a, i, k);
        LinkHolds(cfg, before, i);
        var p := Project(a, i, k);
        if p.Some? && Alive(s, k) {
          StepAccounts(LinkOf(b, i, k), p.value, dir);
          AliveBefore(LinkOf(b, i, k), p.value);
        }
      } else if HasLink(s, i, k) {
        FreshLinkAccounts(cfg, b, a, i, k, dir);
      }
    }
  }

  /** In every reachable state of a live session, over every interleaving, each byte sent in either direction has been
      taken off the stream and written, is in a copier's hands, on the wire or waiting in the stream, or was thrown
      away by one of the steps that Discarded lists. */
  lemma EveryByteAccounted(cfg: Config, acts: seq<Action>, i: nat, k: StreamId, dir: Direction)
    requires Exec(cfg, acts).Some? && HasLink(Exec(cfg, acts).value, i, k) && Alive(Exec(cfg, acts).value, k)
    ensures var l := LinkOf(Exec(cfg, acts).value, i, k);
            SentSize(l, dir) == Kept(l, dir) + TotalDiscarded(cfg, acts, i, k, dir)
  {
    RunAccounts(cfg, acts, i, k, dir);
  }

  lemma {:induction false} NoneDiscardedIff(cfg: Config, acts: seq<Action>, i: nat, k: StreamId, dir: Direction)
    requires Exec(cfg, acts).Some? && HasLink(Exec(cfg, acts).value, i, k) && Alive(Exec(cfg, acts).value, k)
    ensures TotalDiscarded(cfg, acts, i, k, dir) == 0 <==>
        forall n :: 0 <= n < |acts| ==> DiscardsAt(cfg, acts, n, i, k, dir) == 0
  {
    hide Step, Inv, LinkInv, LinkStep, Discarded;
    if acts != [] {
      var before, a := acts[..|acts| - 1], acts[|acts| - 1];
      var b := Exec(cfg, before).value;
      assert forall n :: 0 <= n < |before| ==> acts[..n] == before[..n] && acts[n] == before[n];
      assert forall n :: 0 <= n < |before| ==>
          DiscardsAt(cfg, acts, n, i, k, dir) == DiscardsAt(cfg, before, n, i, k, dir);
      RunAccounts(cfg, before, i, k, dir);
      if HasLink(b, i, k) {
        StepIsAlive(cfg, before, a, i, k, dir);
        NoneDiscardedIff(cfg, before, i, k, dir);
      } else {
        NoneYet(cfg, before, i, k, dir);
      }
    }
  }

  /** When a connection on a live session is torn down, the client's TCP connection has been given the whole response if
      and only if nothing of it is left unread and no step threw a byte of it away: no write of the client's copier
      failed short of what it held, and nothing was on the wire or unread when the server's reset landed. What it has
      been given is always a prefix, shorter by exactly those bytes. */
  lemma ResponseIsWholeIff(cfg: Config, acts: seq<Action>, i: nat, k: StreamId)
    requires Exec(cfg, acts).Some? && HasLink(Exec(cfg, acts).value, i, k) && Alive(Exec(cfg, acts).value, k)
    requires TornDown(LinkOf(Exec(cfg, acts).value, i, k))
    ensures var l := LinkOf(Exec(cfg, acts).value, i, k);
            var given, response := l.conn.end.tcp.given, l.handler.end.tcp.taken;
            var unread := |l.ch.down.inbox| + |l.ch.down.wire|;
            && given <= response && |response| == |given| + unread + TotalDiscarded(cfg, acts, i, k, Down)
            && (Landed(l.ch.down) ==> unread == 0)
            && (given == response <==>
                  unread == 0 && forall n :: 0 <= n < |acts| ==> DiscardsAt(cfg, acts, n, i, k, Down) == 0)
  {
    hide Exec, TotalDiscarded, DiscardsAt, Encode;
    RunAccounts(cfg, acts, i, k, Down);
    NoneDiscardedIff(cfg, acts, i, k, Down);
    LinkHolds(cfg, acts, i);
    GotIsPrefix(LinkOf(Exec(cfg, acts).value, i, k), Down);
  }

  // ---- connections left to themselves ----

  // A peer that closes or resets, or the end of the session.
  predicate EndsSomething(a: Action, i: nat, k: StreamId) {
    match a
    case ClientPeer(j, act) => j == i && !act.PeerSends?
    case ServerPeer(k', act) => k' == k && !act.PeerSends?
    case SessionDies(n) => n == k.session
    case _ => false
  }

  // What its peers had sent it by then is what a connection has to deliver.
  lemma SupplyIsSaid(cfg: Config, acts: seq<Action>, i: nat, k: StreamId)
    requires Exec(cfg, acts).Some? && HasLink(Exec(cfg, acts).value, i, k)
    ensures var l := LinkOf(Exec(cfg, acts).value, i, k);
            && Supply(l, Up) == Encode(HeaderOf(l.conn)) + ClientSaid(acts, i) && Supply(l, Down) == DestSaid(acts, k)
            && ValidHeader(HeaderOf(l.conn))
  {
    hide LinkInv, Encode;
    ConnIsArrival(cfg, acts, i);
    DestsAreHeard(cfg, acts, k);
    LinkHolds(cfg, acts, i);
    var l := LinkOf(Exec(cfg, acts).value, i, k);
    LinkIsValid(l);
    var tcp := l.conn.end.tcp;
    assert (Encode(HeaderOf(l.conn)) + tcp.taken) + tcp.incoming ==
        Encode(HeaderOf(l.conn)) + (tcp.taken + tcp.incoming);
  }

  /** On every fair run of the tunnel, from any reachable state in which a connection's four copiers run between TCP
      connections open both ways: as long as neither peer closes or resets and the session lives, everything the
      client has sent so far is in time given to the destination (with full header reads), and everything the
      destination has sent to the client. */
  lemma OpenDeliversInTunnel(cfg: Config, before: seq<Action>, run: nat -> State, acts: nat -> Action, i: nat,
                             k: StreamId, dir: Direction) returns (end: nat)
    requires Exec(cfg, before) == Some(run(0)) && IsTunnelRun(cfg, run, acts)
    requires HasLink(run(0), i, k) && OpenBothWays(LinkOf(run(0), i, k))
    requires FairToLink(run, acts, i, k) && forall n: nat :: !EndsSomething(acts(n), i, k)
    ensures HasLink(run(end), i, k)
    ensures dir == Up && !run(end).handlers[k].short ==> ClientSaid(before, i) <= run(end).handlers[k].end.tcp.given
    ensures dir == Down ==> DestSaid(before, k) <= run(end).conns[i].end.tcp.given
  {
    hide Exec, Step, LinkStep, Fair, LinkInv, Encode, Supply;
    LinkRunIsRun(cfg, before, run, acts, i, k);
    SupplyIsSaid(cfg, before, i, k);
    forall m: nat | LinkActs(acts, i, k)(m).Some?
      ensures Gentle(LinkActs(acts, i, k)(m).value)
    {
      assert !EndsSomething(acts(m), i, k);
    }
    assert GentleFrom(LinkActs(acts, i, k), 0);
    end := OpenDelivers(LinkRun(run, i, k), LinkActs(acts, i, k), dir, 0);
    if dir == Up && !run(end).handlers[k].short {
      PayloadArrives(HeaderOf(run(0).conns[i]), ClientSaid(before, i), LinkOf(run(end), i, k));
    }
  }

  /** If its peers keep silent altogether, such a connection parks, open as it was, and then each end has been given
      exactly what the other end's peer had sent. */
  lemma OpenParksInTunnel(cfg: Config, before: seq<Action>, run: nat -> State, acts: nat -> Action, i: nat, k: StreamId)
    returns (end: nat)
    requires Exec(cfg, before) == Some(run(0)) && IsTunnelRun(cfg, run, acts)
    requires HasLink(run(0), i, k) && OpenBothWays(LinkOf(run(0), i, k))
    requires FairToLink(run, acts, i, k) && forall n: nat :: !Disturbs(acts(n), i, k)
    ensures HasLink(run(end), i, k) && NothingEnabled(cfg, run(end), i, k)
    ensures Parked(LinkOf(run(end), i, k)) && OpenBothWays(LinkOf(run(end), i, k))
    ensures !run(end).handlers[k].short ==> run(end).handlers[k].end.tcp.given == ClientSaid(before, i)
    ensures run(end).conns[i].end.tcp.given == DestSaid(before, k)
  {
    hide Exec, LinkStep, Fair, LinkInv, Parked, Quiescent, NothingEnabled, Supply, Encode;
    LinkRunIsRun(cfg, before, run, acts, i, k);
    SupplyIsSaid(cfg, before, i, k);
    UndisturbedInTunnel(acts, i, k);
    end := OpenParksDelivered(LinkRun(run, i, k), LinkActs(acts, i, k), 0);
    assert IsTunnelStep(cfg, run, acts, end);
    NothingEnabledIsQuiescent(cfg, run(end), i, k);
    if !run(end).handlers[k].short {
      PayloadArrives(HeaderOf(run(0).conns[i]), ClientSaid(before, i), LinkOf(run(end), i, k));
    }
  }

  // Nothing is left to come to the closed end when it has been given all that was sent to it.
  lemma NothingToComeIff(cfg: Config, acts: seq<Action>, i: nat, k: StreamId, dir: Direction)
    requires Exec(cfg, acts).Some? && HasLink(Exec(cfg, acts).value, i, k)
    requires HalfClosed(LinkOf(Exec(cfg, acts).value, i, k), dir)
    ensures var s := Exec(cfg, acts).value;
            var nothing := NothingToCome(LinkOf(s, i, k), dir);
            && (dir == Up && !s.handlers[k].short ==> (nothing <==> s.handlers[k].end.tcp.given == ClientSaid(acts, i)))
            && (dir == Down ==> (nothing <==> s.conns[i].end.tcp.given == DestSaid(acts, k)))
  {
    hide Exec, Encode;
    var l := LinkOf(Exec(cfg, acts).value, i, k);
    SupplyIsSaid(cfg, acts, i, k);
    GotIsPrefix(l, dir);
    assert NothingToCome(l, dir) <==> Got(l, dir) == Supply(l, dir);
    if dir == Up && !l.handler.short && Got(l, Up) == Supply(l, Up) {
      PayloadArrives(HeaderOf(l.conn), ClientSaid(acts, i), l);
    }
  }

  /** On every fair run of the tunnel on which the peers of a half-closed connection keep silent and the session
      lives: the end that is closed is given nothing more, and the connection parks if that end had already been given
      all that was sent to it, and is torn down otherwise. `dir` is the direction towards the closed end: Down for a
      client that has closed its half, Up for a destination that has. */
  lemma HalfCloseInTunnel(cfg: Config, before: seq<Action>, run: nat -> State, acts: nat -> Action, i: nat,
                          k: StreamId, dir: Direction) returns (end: nat)
    requires Exec(cfg, before) == Some(run(0)) && IsTunnelRun(cfg, run, acts)
    requires HasLink(run(0), i, k) && HalfClosed(LinkOf(run(0), i, k), dir)
    requires FairToLink(run, acts, i, k) && forall n: nat :: !Disturbs(acts(n), i, k)
    ensures HasLink(run(end), i, k) && NothingEnabled(cfg, run(end), i, k)
    ensures var l, l' := LinkOf(run(0), i, k), LinkOf(run(end), i, k);
            Got(l', dir) == Got(l, dir) && if NothingToCome(l, dir) then Parked(l') else TornDown(l')
    ensures var parked := Parked(LinkOf(run(end), i, k));
            && (dir == Up && !run(0).handlers[k].short ==>
                  (parked <==> run(0).handlers[k].end.tcp.given == ClientSaid(before, i)))
            && (dir == Down ==> (parked <==> run(0).conns[i].end.tcp.given == DestSaid(before, k)))
  {
    hide Exec, LinkStep, Fair, LinkInv, Quiescent, NothingEnabled, HalfClosed, NothingToCome, Got;
    LinkRunIsRun(cfg, before, run, acts, i, k);
    NothingToComeIff(cfg, before, i, k, dir);
    UndisturbedInTunnel(acts, i, k);
    end := HalfClosedEnds(LinkRun(run, i, k), LinkActs(acts, i, k), dir, 0);
    assert IsTunnelStep(cfg, run, acts, end);
    NothingEnabledIsQuiescent(cfg, run(end), i, k);
  }

  // ---- letting go ----

  /** Once the client has closed its half or reset its connection, or the destination has (`dir` is the direction that
      peer sends in), every fair run of the tunnel comes to a state in which that TCP connection is closed, whatever
      the session, the other end and the other connections do. */
  lemma GoneInTunnel(cfg: Config, before: seq<Action>, run: nat -> State, acts: nat -> Action, i: nat, k: StreamId,
                     dir: Direction) returns (end: nat)
    requires Exec(cfg, before) == Some(run(0)) && IsTunnelRun(cfg, run, acts) && FairToLink(run, acts, i, k)
    requires HasLink(run(0), i, k) && Copies(LinkOf(run(0), i, k))
    requires if dir == Up then ClientDid(before, i, PeerCloses) || ClientDid(before, i, PeerResets)
             else DestDid(before, k, PeerCloses) || DestDid(before, k, PeerResets)
    ensures HasLink(run(end), i, k)
    ensures if dir == Up then run(end).conns[i].end.tcp.closed else run(end).handlers[k].end.tcp.closed
  {
    hide Exec, Step, LinkStep, Fair, LinkInv;
    LinkRunIsRun(cfg, before, run, acts, i, k);
    ConnIsArrival(cfg, before, i);
    DestsAreHeard(cfg, before, k);
    end := GoneIsNoticed(LinkRun(run, i, k), LinkActs(acts, i, k), dir, 0);
  }

  /** Once its session is dead, every connection that has a stream is let go of at both ends on every fair run, whatever
      stage it had reached: the client's goroutine returns with its copiers done, its TCP connection closed and its
      stream closed, and the server's, if it ever accepted the stream, has given up or returned likewise. */
  lemma DeadSessionInTunnel(cfg: Config, before: seq<Action>, run: nat -> State, acts: nat -> Action, i: nat,
                            k: StreamId) returns (end: nat, end': nat)
    requires Exec(cfg, before) == Some(run(0)) && IsTunnelRun(cfg, run, acts) && FairToLink(run, acts, i, k)
    requires HasLink(run(0), i, k) && !Alive(run(0), k)
    ensures HasLink(run(end), i, k) && run(end).conns[i].phase.Finished? && AllDone(run(end).conns[i].end)
    ensures HasLink(run(end'), i, k)
    ensures var h := run(end').handlers[k];
            h.stage.Unaccepted? || h.stage.Abandoned? || (h.stage.Cancelled? && AllDone(h.end))
  {
    hide Exec, Step, LinkStep, Fair, LinkInv, AllDone;
    LinkRunIsRun(cfg, before, run, acts, i, k);
    end := DeadSessionEnds(LinkRun(run, i, k), LinkActs(acts, i, k), Up, 0);
    end' := DeadSessionEnds(LinkRun(run, i, k), LinkActs(acts, i, k), Down, 0);
  }
}
