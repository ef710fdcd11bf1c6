/** A connection whose peers are silent comes to rest: every step of its goroutines and of the network uses something
    up, so on every fair run it is torn down or parked. */
module Rest {
  import opened Basics
  import opened Header
  import opened Relay
  import opened Link
  import opened Lifecycle
  import opened Teardown

  // A step of the connection's goroutines or of the network, not of a peer or the idle timeout.
  predicate OwnMove(a: LinkAct) {
    a.AtClient? || a.AtServer? || a.InNetwork?
  }

  function PipeLeft(p: Pipe): nat {
    3 * |p.wire| + 2 * |p.inbox| + EndingRank(p)
  }

  // What one direction can still do: each byte has fewer places to go the further it has come.
  function DirectionLeft(sender: Endpoint, p: Pipe, back: Copier): nat {
    5 * |sender.tcp.incoming| + 4 * |Held(sender.out)| + PipeLeft(p) + |Held(back)|
    + CopierRank(sender.out) + CopierRank(back)
  }

  function MovesLeft(l: LinkState): nat {
    DirectionLeft(l.conn.end, l.ch.up, l.handler.end.back) + DirectionLeft(l.handler.end, l.ch.down, l.conn.end.back)
    + (if l.conn.phase.Finished? then 0 else 1) + (if l.handler.stage.Cancelled? then 0 else 1)
  }

  lemma CopyLowers(l: Leg, alive: bool, act: RelayAct, far: Copier, other: Endpoint)
    requires CopyStep(l, alive, act).Some?
    ensures var r := CopyStep(l, alive, act).value;
            DirectionLeft(r.end, r.out, far) + DirectionLeft(other, r.back, r.end.back) <
              DirectionLeft(l.end, l.out, far) + DirectionLeft(other, l.back, l.end.back)
  {
  }

  /** Every step of a copying connection but its peers' uses up one of the moves it has left. */
  lemma OwnMoveLowers(l: LinkState, a: LinkAct)
    requires Ok(l) && Copies(l) && OwnMove(a) && LinkStep(l, a).Some?
    ensures LinkStep(l, a).value.alive == l.alive && MovesLeft(LinkStep(l, a).value) < MovesLeft(l)
  {
    hide UpFlow, DownFlow, CopyStep, DirectionLeft;
    if a.AtClient? && a.client.ClientRelay? {
      CopyLowers(Leg(l.conn.end, l.ch.up, l.ch.down), l.alive, a.client.relay, l.handler.end.back, l.handler.end);
    } else if a.AtServer? && a.server.ServerRelay? {
      CopyLowers(Leg(l.handler.end, l.ch.down, l.ch.up), l.alive, a.server.relay, l.conn.end.back, l.conn.end);
    } else {
      NotCopyLowers(l, a);
    }
  }

  // Closing, cancelling and the network.
  lemma NotCopyLowers(l: LinkState, a: LinkAct)
    requires Ok(l) && Copies(l) && OwnMove(a) && LinkStep(l, a).Some?
    requires !(a.AtClient? && a.client.ClientRelay?) && !(a.AtServer? && a.server.ServerRelay?)
    ensures LinkStep(l, a).value.alive == l.alive && MovesLeft(LinkStep(l, a).value) < MovesLeft(l)
  {
    hide UpFlow, DownFlow, CopyStep, NetStep, Encode, BodyLength, DecodeBody;
    if a.InNetwork? {
      hide LinkInv;
      CarryLowers(l.ch, l.alive, a.dir, a.net);
    }
  }

  lemma CarryLowers(ch: Channel, alive: bool, dir: Direction, act: NetAct)
    requires NetStep(ch, alive, dir, act).Some?
    ensures var ch' := NetStep(ch, alive, dir, act).value;
            PipeLeft(ch'.up) + PipeLeft(ch'.down) < PipeLeft(ch.up) + PipeLeft(ch.down)
  {
  }

  // From time n on, only the connection itself moves.
  ghost predicate Undisturbed(acts: nat -> Option<LinkAct>, n: nat) {
    forall m: nat :: m >= n && acts(m).Some? ==> OwnMove(acts(m).value)
  }

  // The next time, up to m, at which something happens to the connection.
  lemma {:induction false} NextMove(run: nat -> LinkState, acts: nat -> Option<LinkAct>, n: nat, m: nat)
    returns (t: nat)
    requires IsRun(run, acts) && n <= m
    ensures n <= t <= m && run(t) == run(n) && (acts(t).Some? || t == m)
    decreases m - n
  {
    t := n;
    if acts(n).None? && n < m {
      assert RunStep(run, acts, n);
      t := NextMove(run, acts, n + 1, m);
    }
  }

  function ProcessOf(a: LinkAct): Process
    requires OwnMove(a)
  {
    match a
    case AtClient(act) => if !act.ClientRelay? then ClientMain else if IsOut(act.relay) then ClientOut else ClientBack
    case AtServer(act) => if !act.ServerRelay? then ServerMain else if IsOut(act.relay) then ServerOut else ServerBack
    case InNetwork(dir, _) => if dir == Up then NetUp else NetDown
  }

  lemma {:induction false} QuiescesFrom(run: nat -> LinkState, acts: nat -> Option<LinkAct>, n: nat) returns (end: nat)
    requires IsRun(run, acts) && Fair(run, acts) && Undisturbed(acts, n) && Ok(run(n)) && Copies(run(n))
    ensures end >= n && Quiescent(run(end)) && Ok(run(end)) && Copies(run(end)) && run(end).alive == run(n).alive
    decreases MovesLeft(run(n))
  {
    hide Ok, Copies, LinkStep, MovesLeft;
    if Quiescent(run(n)) {
      end := n;
    } else {
      var a: LinkAct :| OwnMove(a) && LinkStep(run(n), a).Some?;
      var p := ProcessOf(a);
      assert Belongs(a, p) && Enabled(run(n), p);
      assert TurnComes(run, acts, p, n);
      var m: nat :| m >= n && Turn(run, acts, p, m);
      var t := NextMove(run, acts, n, m);
      assert RunStep(run, acts, t);
      OwnMoveLowers(run(t), acts(t).value);
      LinkStepKeepsOk(run(t), acts(t).value);
      end := QuiescesFrom(run, acts, t + 1);
    }
  }

  /** On every fair run in which the peers keep silent and the session lives, a copying connection comes to rest: torn
      down if the cascade began, and otherwise parked. */
  lemma ComesToRest(run: nat -> LinkState, acts: nat -> Option<LinkAct>, n: nat) returns (end: nat)
    requires IsRun(run, acts) && Fair(run, acts) && Undisturbed(acts, n) && Ok(run(n)) && Copies(run(n)) && run(n).alive
    ensures end >= n && Quiescent(run(end))
    ensures if Triggered(run(end)) then TornDown(run(end)) else Parked(run(end))
  {
    end := QuiescesFrom(run, acts, n);
    QuiescentIff(run(end));
  }
}
