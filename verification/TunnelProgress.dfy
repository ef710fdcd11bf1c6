/** The lifecycle results for a connection inside the whole tunnel, whatever the other connections do. */
module TunnelProgress {
  import opened Basics
  import opened Header
  import opened Relay
  import opened Link
  import opened Tunnel
  import opened TunnelSafety
  import opened Lifecycle
  import opened Teardown
  import opened Rest
  import opened Delivery

  predicate HasLink(s: State, i: nat, k: StreamId) {
    i < |s.conns| && Holds(s.conns[i], k) && k in s.streams && k in s.handlers
  }

  function LinkOf(s: State, i: nat, k: StreamId): LinkState
    requires HasLink(s, i, k)
  {
    LinkState(s.conns[i], s.streams[k], s.handlers[k], Alive(s, k))
  }

  // What an action of the tunnel is to connection i with stream k; None when it does not concern it.
  function Project(a: Action, i: nat, k: StreamId): Option<LinkAct> {
    match a
    case OnClient(j, act) => if j == i then Some(AtClient(act)) else None
    case OnServer(k', act) => if k' == k then Some(AtServer(act)) else None
    case OnNetwork(k', dir, act) => if k' == k then Some(InNetwork(dir, act)) else None
    case ClientPeer(j, act) => if j == i then Some(ClientSide(act)) else None
    case ServerPeer(k', act) => if k' == k then Some(ServerSide(act)) else None
    case SessionDies(n) => if n == k.session then Some(Timeout) else None
    case _ => None
  }

  // An action either is a step of this connection or leaves it untouched.
  ghost predicate Projects(cfg: Config, s: State, a: Action, i: nat, k: StreamId)
    requires HasLink(s, i, k) && Step(cfg, s, a).Some?
  {
    var s', p := Step(cfg, s, a).value, Project(a, i, k);
    HasLink(s', i, k)
    && if p.None? then LinkOf(s', i, k) == LinkOf(s, i, k)
       else LinkStep(LinkOf(s, i, k), p.value) == Some(LinkOf(s', i, k))
  }

  lemma EstablishProjects(cfg: Config, s: State, a: Action, i: nat, k: StreamId)
    requires StreamOk(s, k) && HasLink(s, i, k) &&
        (a.CheckSession? || a.TryOpen? || a.DialAttempt? || a.AssignSession? || a.OpenNew?)
    requires Step(cfg, s, a).Some?
    ensures Projects(cfg, s, a, i, k)
  {
  }

  lemma ClientProjects(cfg: Config, s: State, a: Action, i: nat, k: StreamId)
    requires Disjoint(s) && HasLink(s, i, k) && a.OnClient? && Step(cfg, s, a).Some?
    ensures Projects(cfg, s, a, i, k)
  {
  }

  lemma StepProjects(cfg: Config, s: State, a: Action, i: nat, k: StreamId)
    requires Inv(s) && HasLink(s, i, k) && Step(cfg, s, a).Some?
    ensures Projects(cfg, s, a, i, k)
  {
    hide ConnOk, Establish, ClientStep, ServerStep, NetStep, Peer;
    assert StreamOk(s, k);
    if a.OnClient? {
      ClientProjects(cfg, s, a, i, k);
    } else if a.CheckSession? || a.TryOpen? || a.DialAttempt? || a.AssignSession? || a.OpenNew? {
      EstablishProjects(cfg, s, a, i, k);
    }
  }

  // ---- quiescence ----

  // No step of this connection's goroutines or of the network on its stream is possible.
  ghost predicate NothingEnabled(cfg: Config, s: State, i: nat, k: StreamId) {
    && (forall act :: Step(cfg, s, OnClient(i, act)).None?)
    && (forall act :: Step(cfg, s, OnServer(k, act)).None?)
    && (forall dir, act :: Step(cfg, s, OnNetwork(k, dir, act)).None?)
  }

  lemma NothingEnabledIsQuiescent(cfg: Config, s: State, i: nat, k: StreamId)
    requires !s.crashed && HasLink(s, i, k)
    ensures NothingEnabled(cfg, s, i, k) <==> Quiescent(LinkOf(s, i, k))
  {
    hide ClientStep, ServerStep, NetStep;
    var l := LinkOf(s, i, k);
    if Quiescent(l) {
      forall act ensures Step(cfg, s, OnClient(i, act)).None? { assert LinkStep(l, AtClient(act)).None?; }
      forall act ensures Step(cfg, s, OnServer(k, act)).None? { assert LinkStep(l, AtServer(act)).None?; }
      forall dir, act ensures Step(cfg, s, OnNetwork(k, dir, act)).None? {
        assert LinkStep(l, InNetwork(dir, act)).None?;
      }
    }
    if NothingEnabled(cfg, s, i, k) {
      forall a: LinkAct | a.AtClient? || a.AtServer? || a.InNetwork?
        ensures LinkStep(l, a).None?
      {
        if a.AtClient? {
          assert Step(cfg, s, OnClient(i, a.client)).None?;
        } else if a.AtServer? {
          assert Step(cfg, s, OnServer(k, a.server)).None?;
        } else {
          assert Step(cfg, s, OnNetwork(k, a.dir, a.net)).None?;
        }
      }
    }
  }

  /** In every reachable state, a connection copying over a live session has no step left but its peers' and the
      session's idle timeout exactly when it is wholly torn down or parked: both QUIC-to-TCP copiers waiting, no byte
      in flight, neither side having ended the stream. */
  lemma QuiescenceInTunnel(cfg: Config, acts: seq<Action>, i: nat, k: StreamId)
    requires Exec(cfg, acts).Some? && !Exec(cfg, acts).value.crashed && HasLink(Exec(cfg, acts).value, i, k)
    requires var l := LinkOf(Exec(cfg, acts).value, i, k); l.alive && Copies(l)
    ensures var s := Exec(cfg, acts).value;
            var l := LinkOf(s, i, k);
            NothingEnabled(cfg, s, i, k) <==> (TornDown(l) && Landed(l.ch.up) && Landed(l.ch.down)) || Parked(l)
  {
    hide LinkInv, Parked, TornDown, Quiescent, NothingEnabled;
    var s := Exec(cfg, acts).value;
    LinkHolds(cfg, acts, i);
    NothingEnabledIsQuiescent(cfg, s, i, k);
    QuiescentIff(LinkOf(s, i, k));
  }

  // ---- teardown ----

  ghost predicate IsTunnelRun(cfg: Config, run: nat -> State, acts: nat -> Action) {
    forall n: nat :: IsTunnelStep(cfg, run, acts, n)
  }

  predicate IsTunnelStep(cfg: Config, run: nat -> State, acts: nat -> Action, n: nat) {
    Step(cfg, run(n), acts(n)) == Some(run(n + 1))
  }

  lemma {:induction false} RunKeeps(cfg: Config, run: nat -> State, acts: nat -> Action, i: nat, k: StreamId, n: nat)
    requires IsTunnelRun(cfg, run, acts) && Inv(run(0)) && HasLink(run(0), i, k)
    ensures Inv(run(n)) && HasLink(run(n), i, k)
  {
    hide Inv, Step;
    if n > 0 {
      RunKeeps(cfg, run, acts, i, k, n - 1);
      assert IsTunnelStep(cfg, run, acts, n - 1);
      StepKeepsInv(cfg, run(n - 1), acts(n - 1));
      StepProjects(cfg, run(n - 1), acts(n - 1), i, k);
    }
  }

  // The connection's own run inside the tunnel's.
  ghost function LinkRun(run: nat -> State, i: nat, k: StreamId): nat -> LinkState
    requires forall n: nat :: HasLink(run(n), i, k)
  {
    (n: nat) => LinkOf(run(n), i, k)
  }

  ghost function LinkActs(acts: nat -> Action, i: nat, k: StreamId): nat -> Option<LinkAct> {
    (n: nat) => Project(acts(n), i, k)
  }

  // That run is one of the connection's own, and starts and stays in the invariant.
  lemma LinkRunIsRun(cfg: Config, before: seq<Action>, run: nat -> State, acts: nat -> Action, i: nat, k: StreamId)
    requires Exec(cfg, before) == Some(run(0)) && IsTunnelRun(cfg, run, acts) && HasLink(run(0), i, k)
    ensures forall n: nat :: HasLink(run(n), i, k)
    ensures IsRun(LinkRun(run, i, k), LinkActs(acts, i, k)) && Ok(LinkOf(run(0), i, k))
  {
    hide Inv, Step, LinkStep, LinkInv;
    ReachableInv(cfg, before);
    LinkHolds(cfg, before, i);
    forall n: nat
      ensures HasLink(run(n), i, k)
    {
      RunKeeps(cfg, run, acts, i, k, n);
    }
    forall n: nat
      ensures RunStep(LinkRun(run, i, k), LinkActs(acts, i, k), n)
    {
      RunKeeps(cfg, run, acts, i, k, n);
      assert IsTunnelStep(cfg, run, acts, n);
      StepProjects(cfg, run(n), acts(n), i, k);
    }
  }

  // Fair to the goroutines of the connection and to the network on its stream.
  ghost predicate FairToLink(run: nat -> State, acts: nat -> Action, i: nat, k: StreamId) {
    (forall n: nat :: HasLink(run(n), i, k)) ==> Fair(LinkRun(run, i, k), LinkActs(acts, i, k))
  }

  /** On every infinite run of the tunnel that is fair to the connection's goroutines and to the network on its stream,
      from any reachable state in which it is copying and a QUIC-to-TCP copier has finished (or the session has died),
      a moment comes when all four copiers are done, both TCP connections closed, the client's stream closed and
      the server's cancelled. */
  lemma TeardownInTunnel(cfg: Config, before: seq<Action>, run: nat -> State, acts: nat -> Action, i: nat, k: StreamId)
    returns (end: nat)
    requires Exec(cfg, before) == Some(run(0)) && IsTunnelRun(cfg, run, acts)
    requires HasLink(run(0), i, k) && Copies(LinkOf(run(0), i, k)) && Triggered(LinkOf(run(0), i, k))
    requires FairToLink(run, acts, i, k)
    ensures HasLink(run(end), i, k) && TornDown(LinkOf(run(end), i, k))
  {
    hide Step, LinkStep, LinkInv, Fair, TornDown, Copies, Triggered;
    LinkRunIsRun(cfg, before, run, acts, i, k);
    end := CascadeFrom(LinkRun(run, i, k), LinkActs(acts, i, k), 0);
  }

  // ---- rest ----

  // A step of the connection's peers, or the end of its session.
  predicate Disturbs(a: Action, i: nat, k: StreamId) {
    match a
    case ClientPeer(j, _) => j == i
    case ServerPeer(k', _) => k' == k
    case SessionDies(n) => n == k.session
    case _ => false
  }

  lemma UndisturbedInTunnel(acts: nat -> Action, i: nat, k: StreamId)
    requires forall n: nat :: !Disturbs(acts(n), i, k)
    ensures Undisturbed(LinkActs(acts, i, k), 0)
  {
    forall m: nat | LinkActs(acts, i, k)(m).Some?
      ensures OwnMove(LinkActs(acts, i, k)(m).value)
    {
      assert !Disturbs(acts(m), i, k);
    }
  }

  /** On every fair run of the tunnel on which a copying connection's peers keep silent and its session lives, whatever
      the other connections do, a moment comes when nothing of it can move any more: it is torn down if a
      QUIC-to-TCP copier has finished by then, and parked if none has. */
  lemma RestInTunnel(cfg: Config, before: seq<Action>, run: nat -> State, acts: nat -> Action, i: nat, k: StreamId)
    returns (end: nat)
    requires Exec(cfg, before) == Some(run(0)) && IsTunnelRun(cfg, run, acts)
    requires HasLink(run(0), i, k) && Copies(LinkOf(run(0), i, k)) && Alive(run(0), k)
    requires FairToLink(run, acts, i, k) && forall n: nat :: !Disturbs(acts(n), i, k)
    ensures HasLink(run(end), i, k) && NothingEnabled(cfg, run(end), i, k)
    ensures var l := LinkOf(run(end), i, k); if Triggered(l) then TornDown(l) else Parked(l)
  {
    hide Inv, LinkStep, LinkInv, Fair, TornDown, Copies, Triggered, Parked, Quiescent, NothingEnabled;
    LinkRunIsRun(cfg, before, run, acts, i, k);
    UndisturbedInTunnel(acts, i, k);
    end := ComesToRest(LinkRun(run, i, k), LinkActs(acts, i, k), 0);
    assert IsTunnelStep(cfg, run, acts, end);
    NothingEnabledIsQuiescent(cfg, run(end), i, k);
  }

  // ---- delivery ----

  /** On every fair run of the tunnel on which the session lives, the receiver's TCP connection stays open and the
      stream is not reset in that direction, everything sent by now is in time written at the other end. With
      full header reads that is: what the client has read reaches the destination; and downstream, what the server
      has read reaches the client. */
  lemma ArrivesInTunnel(cfg: Config, before: seq<Action>, run: nat -> State, acts: nat -> Action, i: nat, k: StreamId,
                        dir: Direction) returns (end: nat)
    requires Exec(cfg, before) == Some(run(0)) && IsTunnelRun(cfg, run, acts)
    requires HasLink(run(0), i, k) && Copies(LinkOf(run(0), i, k))
    requires FairToLink(run, acts, i, k)
    requires forall n: nat :: HasLink(run(n), i, k) ==> Clear(LinkOf(run(n), i, k), dir)
    ensures HasLink(run(end), i, k) && Sent(LinkOf(run(0), i, k), dir) <= Got(LinkOf(run(end), i, k), dir)
    ensures dir == Up && !run(end).handlers[k].short ==>
        run(0).conns[i].end.tcp.taken <= run(end).handlers[k].end.tcp.given
    ensures dir == Down ==> run(0).handlers[k].end.tcp.taken <= run(end).conns[i].end.tcp.given
  {
    hide Step, LinkStep, Fair, Clear, LinkInv, Encode;
    LinkRunIsRun(cfg, before, run, acts, i, k);
    end := EverythingArrives(LinkRun(run, i, k), LinkActs(acts, i, k), dir, 0);
    if dir == Up && !run(end).handlers[k].short {
      var l := LinkOf(run(0), i, k);
      LinkIsValid(l);
      PayloadArrives(HeaderOf(l.conn), l.conn.end.tcp.taken, LinkOf(run(end), i, k));
    }
  }

  lemma LinkIsValid(l: LinkState)
    requires Ok(l)
    ensures ValidHeader(HeaderOf(l.conn))
  {
  }

  // The header in front of the payload is the one the server read, no header being a prefix of another.
  lemma PayloadArrives(header: QpepHeader, bytes: seq<byte>, l: LinkState)
    requires ValidHeader(header) && Ok(l) && Copies(l) && !l.handler.short && Encode(header) + bytes <= Got(l, Up)
    ensures bytes <= l.handler.end.tcp.given &&
        (Encode(header) + bytes == Got(l, Up) ==> bytes == l.handler.end.tcp.given)
  {
    hide Encode, Flow;
    var given := l.handler.end.tcp.given;
    var rest := Got(l, Up)[|Encode(header) + bytes|..];
    assert Encode(header) + (bytes + rest) == Got(l, Up) == Encode(HeaderOf(l.conn)) + given;
    PrefixFree(header, bytes + rest, HeaderOf(l.conn), given);
  }
}
