/** Where a connection ends when nobody disturbs it: one that is open at both ends delivers everything and parks; one
    that is closed at one end parks if nothing is left to come to that end, and is torn down otherwise. */
module Outcomes {
  import opened Basics
  import opened Header
  import opened Relay
  import opened Link
  import opened Lifecycle
  import opened Teardown
  import opened Rest
  import opened Delivery

  lemma TriggeredStays(l: LinkState, a: LinkAct)
    requires Triggered(l) && LinkStep(l, a).Some?
    ensures Triggered(LinkStep(l, a).value)
  {
  }

  // On a live session, while the receiving copier runs and no reset has landed, the bytes sent are all there, in order.
  lemma LiveFlow(l: LinkState, dir: Direction)
    requires Ok(l) && Copies(l) && l.alive && Receiver(l, dir).back.Copying? && Through(l, dir).ending != ResetArrived
    ensures var t, p := Receiver(l, dir), Through(l, dir);
            Got(l, dir) + t.back.held + p.inbox + p.wire + Held(Sender(l, dir).out) == Sent(l, dir)
  {
    var back := Receiver(l, dir).back;
    if dir == Up {
      assert l.handler.head + (l.handler.end.tcp.given + back.held) == Got(l, dir) + back.held;
    } else {
      assert [] + Sent(l, dir) == Sent(l, dir) && [] + (Got(l, dir) + back.held) == Got(l, dir) + back.held;
    }
  }

  // ---- open at both ends ----

  predicate OpenSocket(tcp: Socket) {
    !tcp.closed && !tcp.broken && !tcp.peerClosed
  }

  /** All four copiers run, over a live session, between two TCP connections that are open both ways. */
  predicate OpenBothWays(l: LinkState) {
    && Ok(l) && Copies(l) && l.alive && OpenSocket(l.conn.end.tcp) && OpenSocket(l.handler.end.tcp)
    && l.conn.end.out.Copying? && l.conn.end.back.Copying? && l.handler.end.out.Copying? && l.handler.end.back.Copying?
  }

  // Anything but a peer that closes or resets, or the end of the session.
  predicate Gentle(a: LinkAct) {
    match a
    case ClientSide(act) => act.PeerSends?
    case ServerSide(act) => act.PeerSends?
    case Timeout => false
    case _ => true
  }

  /** Nothing the tunnel does by itself ends such a connection. */
  lemma StaysOpen(l: LinkState, a: LinkAct)
    requires OpenBothWays(l) && Gentle(a) && LinkStep(l, a).Some?
    ensures OpenBothWays(LinkStep(l, a).value)
  {
    LinkStepKeepsOk(l, a);
    OpenStep(l, a);
  }

  lemma OpenStep(l: LinkState, a: LinkAct)
    requires OpenBothWays(l) && Gentle(a) && LinkStep(l, a).Some? && Ok(LinkStep(l, a).value)
    ensures OpenBothWays(LinkStep(l, a).value)
  {
    hide UpFlow, DownFlow, Encode, BodyLength, DecodeBody;
  }

  lemma OpenIsClear(l: LinkState, dir: Direction)
    requires OpenBothWays(l)
    ensures Clear(l, dir) && !Triggered(l)
  {
    hide UpFlow, DownFlow;
  }

  ghost predicate GentleFrom(acts: nat -> Option<LinkAct>, n: nat) {
    forall m: nat :: m >= n && acts(m).Some? ==> Gentle(acts(m).value)
  }

  lemma {:induction false} RunStaysOpen(run: nat -> LinkState, acts: nat -> Option<LinkAct>, n: nat, m: nat)
    requires IsRun(run, acts) && GentleFrom(acts, n) && OpenBothWays(run(n)) && n <= m
    ensures OpenBothWays(run(m))
    decreases m - n
  {
    hide LinkStep, OpenBothWays;
    if n < m {
      RunStaysOpen(run, acts, n, m - 1);
      assert RunStep(run, acts, m - 1);
      if acts(m - 1).Some? {
        StaysOpen(run(m - 1), acts(m - 1).value);
      }
    }
  }

  // ---- what the peers have sent ----

  // All that has been sent over the stream, and what its sender has still to read from its peer.
  function Supply(l: LinkState, dir: Direction): seq<byte> {
    Sent(l, dir) + Sender(l, dir).tcp.incoming
  }

  lemma CopyReads(pre: seq<byte>, l: Leg, alive: bool, act: RelayAct)
    requires CopyStep(l, alive, act).Some?
    ensures var r := CopyStep(l, alive, act).value;
            (pre + r.end.tcp.taken) + r.end.tcp.incoming == (pre + l.end.tcp.taken) + l.end.tcp.incoming
  {
    ReadsInOrder(l, alive, act);
    var r := CopyStep(l, alive, act).value;
    assert (pre + r.end.tcp.taken) + r.end.tcp.incoming == pre + (r.end.tcp.taken + r.end.tcp.incoming);
    assert (pre + l.end.tcp.taken) + l.end.tcp.incoming == pre + (l.end.tcp.taken + l.end.tcp.incoming);
  }

  // The connection's own steps neither add to it nor take away, nor change the order.
  lemma SupplyStays(l: LinkState, a: LinkAct, dir: Direction)
    requires LinkStep(l, a).Some? && OwnMove(a)
    ensures Supply(LinkStep(l, a).value, dir) == Supply(l, dir)
  {
    hide Encode, DecodeBody, BodyLength, CopyStep, NetStep;
    assert forall b: seq<byte> {:trigger [] + b} :: [] + b == b;
    if a.AtClient? && a.client.ClientRelay? {
      CopyReads(Encode(HeaderOf(l.conn)), Leg(l.conn.end, l.ch.up, l.ch.down), l.alive, a.client.relay);
    } else if a.AtServer? && a.server.ServerRelay? {
      CopyReads([], Leg(l.handler.end, l.ch.down, l.ch.up), l.alive, a.server.relay);
    }
  }

  lemma {:induction false} RunSupply(run: nat -> LinkState, acts: nat -> Option<LinkAct>, dir: Direction, n: nat,
                                     m: nat)
    requires IsRun(run, acts) && Undisturbed(acts, n) && n <= m
    ensures Supply(run(m), dir) == Supply(run(n), dir)
    decreases m - n
  {
    hide LinkStep, Supply;
    if n < m {
      RunSupply(run, acts, dir, n, m - 1);
      assert RunStep(run, acts, m - 1);
      if acts(m - 1).Some? {
        SupplyStays(run(m - 1), acts(m - 1).value, dir);
      }
    }
  }

  // ---- reading what the peer has sent ----

  // What the sender's copier has to do before it has read `goal` bytes.
  function ReadsLeft(l: LinkState, dir: Direction, goal: nat): nat {
    2 * Short(goal, |Sent(l, dir)|) + (if Holding(Sender(l, dir).out) then 1 else 0)
  }

  predicate Unread(l: LinkState, dir: Direction, goal: nat) {
    OpenBothWays(l) && |Sent(l, dir)| < goal <= |Supply(l, dir)|
  }

  lemma SenderIsEnabled(l: LinkState, dir: Direction, goal: nat)
    requires Unread(l, dir, goal)
    ensures Enabled(l, OutProcess(dir))
  {
    hide UpFlow, DownFlow, Encode;
    var e := Sender(l, dir);
    var act := if Holding(e.out) then OutWrite else OutRead(1);
    var a := if dir == Up then Client(act) else Server(act);
    assert Belongs(a, OutProcess(dir)) && LinkStep(l, a).Some?;
  }

  // The sender's copier gets on with it, everyone else leaves it alone, and nothing sent is forgotten.
  predicate ReadsOn(l: LinkState, a: LinkAct, l': LinkState, dir: Direction, goal: nat) {
    && Sent(l, dir) <= Sent(l', dir) && Supply(l, dir) <= Supply(l', dir)
    && (if Belongs(a, OutProcess(dir)) then ReadsLeft(l', dir, goal) < ReadsLeft(l, dir, goal)
        else ReadsLeft(l', dir, goal) == ReadsLeft(l, dir, goal))
  }

  lemma CopyReadsOn(l: Leg, alive: bool, act: RelayAct)
    requires CopyStep(l, alive, act).Some? && OpenSocket(l.end.tcp) && l.end.out.Copying? && alive && !l.out.stopped
    ensures var r := CopyStep(l, alive, act).value;
            && (!IsOut(act) ==> r.end.tcp.taken == l.end.tcp.taken && r.end.out == l.end.out)
            && (IsOut(act) && Holding(l.end.out) ==> r.end.tcp.taken == l.end.tcp.taken && Idle(r.end.out))
            && (IsOut(act) && !Holding(l.end.out) ==> |r.end.tcp.taken| > |l.end.tcp.taken|)
  {
  }

  lemma StepReadsOn(l: LinkState, a: LinkAct, dir: Direction, goal: nat)
    requires Unread(l, dir, goal) && Gentle(a) && LinkStep(l, a).Some?
    ensures ReadsOn(l, a, LinkStep(l, a).value, dir, goal)
  {
    hide UpFlow, DownFlow, Encode, BodyLength, DecodeBody, CopyStep;
    if a.AtClient? && a.client.ClientRelay? {
      SupplyStays(l, a, dir);
      ReadsInOrder(Leg(l.conn.end, l.ch.up, l.ch.down), l.alive, a.client.relay);
      CopyReadsOn(Leg(l.conn.end, l.ch.up, l.ch.down), l.alive, a.client.relay);
    } else if a.AtServer? && a.server.ServerRelay? {
      SupplyStays(l, a, dir);
      ReadsInOrder(Leg(l.handler.end, l.ch.down, l.ch.up), l.alive, a.server.relay);
      CopyReadsOn(Leg(l.handler.end, l.ch.down, l.ch.up), l.alive, a.server.relay);
    }
  }

  // Up to time m, either the sender's copier has got on, or it is where it was.
  lemma {:induction false} UntilReadOn(run: nat -> LinkState, acts: nat -> Option<LinkAct>, dir: Direction, goal: nat,
                                       n: nat, m: nat) returns (t: nat)
    requires IsRun(run, acts) && GentleFrom(acts, n) && n <= m && Unread(run(n), dir, goal)
    ensures n <= t <= m && OpenBothWays(run(t)) && Supply(run(n), dir) <= Supply(run(t), dir)
    ensures || ReadsLeft(run(t), dir, goal) < ReadsLeft(run(n), dir, goal)
            || (t == m && Unread(run(t), dir, goal) && ReadsLeft(run(t), dir, goal) == ReadsLeft(run(n), dir, goal))
    decreases m - n
  {
    hide LinkStep, Sent, Supply, OpenBothWays;
    t := n;
    if n < m {
      t := UntilReadOn(run, acts, dir, goal, n, m - 1);
      if t == m - 1 && ReadsLeft(run(t), dir, goal) == ReadsLeft(run(n), dir, goal) {
        assert RunStep(run, acts, t);
        if acts(t).Some? {
          StepReadsOn(run(t), acts(t).value, dir, goal);
          StaysOpen(run(t), acts(t).value);
        }
        t := m;
      }
    }
  }

  lemma {:induction false} ReadsGoal(run: nat -> LinkState, acts: nat -> Option<LinkAct>, dir: Direction, goal: nat,
                                     n: nat) returns (end: nat)
    requires IsRun(run, acts) && Fair(run, acts) && GentleFrom(acts, n) && OpenBothWays(run(n))
    requires goal <= |Supply(run(n), dir)|
    ensures end >= n && OpenBothWays(run(end)) && |Sent(run(end), dir)| >= goal
    ensures Supply(run(n), dir) <= Supply(run(end), dir)
    decreases ReadsLeft(run(n), dir, goal)
  {
    hide LinkStep, Sent, Supply, OpenBothWays, ReadsLeft;
    if |Sent(run(n), dir)| >= goal {
      end := n;
    } else {
      assert TurnComes(run, acts, OutProcess(dir), n);
      var m: nat :| m >= n && Turn(run, acts, OutProcess(dir), m);
      var t := UntilReadOn(run, acts, dir, goal, n, m);
      if ReadsLeft(run(t), dir, goal) == ReadsLeft(run(n), dir, goal) {
        SenderIsEnabled(run(m), dir, goal);
        assert RunStep(run, acts, m);
        StepReadsOn(run(m), acts(m).value, dir, goal);
        StaysOpen(run(m), acts(m).value);
        t := m + 1;
      }
      end := ReadsGoal(run, acts, dir, goal, t);
    }
  }

  /** As long as no peer closes or resets and the session lives, everything the peers have sent arrives, in order and in
      both directions, whether or not it has been read yet. */
  lemma OpenDelivers(run: nat -> LinkState, acts: nat -> Option<LinkAct>, dir: Direction, n: nat) returns (end: nat)
    requires IsRun(run, acts) && Fair(run, acts) && GentleFrom(acts, n) && OpenBothWays(run(n))
    ensures end >= n && Supply(run(n), dir) <= Got(run(end), dir) && Ok(run(end)) && Copies(run(end))
  {
    hide LinkStep, Sent, Got, Clear;
    var m := ReadsGoal(run, acts, dir, |Supply(run(n), dir)|, n);
    assert Supply(run(n), dir) <= Sent(run(m), dir);
    forall j: nat | j >= m
      ensures Clear(run(j), dir)
    {
      RunStaysOpen(run, acts, n, j);
      OpenIsClear(run(j), dir);
    }
    end := EverythingArrives(run, acts, dir, m);
  }

  // At rest and untriggered, all that was sent has arrived and nothing is left to send from a socket that is open.
  lemma ParkedIsDelivered(l: LinkState, dir: Direction)
    requires Ok(l) && Copies(l) && l.alive && Parked(l)
    ensures Got(l, dir) == Sent(l, dir)
    ensures Sender(l, dir).out.Copying? ==> Sender(l, dir).tcp.incoming == []
  {
    LiveFlow(l, dir);
  }

  /** Left undisturbed, a connection open at both ends parks, and then everything either peer had sent has been written
      at the other end. */
  lemma OpenParksDelivered(run: nat -> LinkState, acts: nat -> Option<LinkAct>, n: nat) returns (end: nat)
    requires IsRun(run, acts) && Fair(run, acts) && Undisturbed(acts, n) && OpenBothWays(run(n))
    ensures end >= n && Quiescent(run(end)) && Parked(run(end)) && OpenBothWays(run(end))
    ensures Got(run(end), Up) == Sent(run(end), Up) == Supply(run(n), Up)
    ensures Got(run(end), Down) == Sent(run(end), Down) == Supply(run(n), Down)
  {
    hide LinkStep, Sent, Got, Parked, Quiescent;
    end := ComesToRest(run, acts, n);
    RunStaysOpen(run, acts, n, end);
    OpenIsClear(run(end), Up);
    ParkedIsDelivered(run(end), Up);
    ParkedIsDelivered(run(end), Down);
    RunSupply(run, acts, Up, n, end);
    RunSupply(run, acts, Down, n, end);
  }

  // ---- closed at one end ----

  lemma CopyGivesClosedNothing(leg: Leg, alive: bool, act: RelayAct)
    requires CopyStep(leg, alive, act).Some? && leg.end.tcp.closed
    ensures var r := CopyStep(leg, alive, act).value; r.end.tcp.closed && r.end.tcp.given == leg.end.tcp.given
  {
  }

  /** A TCP connection that its owner has closed is given nothing more. */
  lemma ClosedGetsNothing(l: LinkState, a: LinkAct, dir: Direction)
    requires Ok(l) && Copies(l) && Receiver(l, dir).tcp.closed && LinkStep(l, a).Some?
    ensures var l' := LinkStep(l, a).value; Receiver(l', dir).tcp.closed && Got(l', dir) == Got(l, dir)
  {
    hide UpFlow, DownFlow, Encode, CopyStep, NetStep, DecodeBody, BodyLength;
    if dir == Down && a.AtClient? && a.client.ClientRelay? {
      CopyGivesClosedNothing(Leg(l.conn.end, l.ch.up, l.ch.down), l.alive, a.client.relay);
    } else if dir == Up && a.AtServer? && a.server.ServerRelay? {
      CopyGivesClosedNothing(Leg(l.handler.end, l.ch.down, l.ch.up), l.alive, a.server.relay);
    }
  }

  /** The receiver of `dir` has closed its TCP connection, its peer having closed its half; the sender's is open both
      ways, and neither QUIC-to-TCP copier has finished. */
  predicate HalfClosed(l: LinkState, dir: Direction) {
    && Ok(l) && Copies(l) && l.alive && !Triggered(l) && Receiver(l, dir).tcp.closed
    && OpenSocket(Sender(l, dir).tcp) && Sender(l, dir).out.Copying?
  }

  // Nothing is left to come to the closed end.
  predicate NothingToCome(l: LinkState, dir: Direction) {
    Got(l, dir) == Sent(l, dir) && Sender(l, dir).tcp.incoming == []
  }

  // The same, place by place.
  predicate Dry(l: LinkState, dir: Direction) {
    && Idle(Receiver(l, dir).back) && Through(l, dir).inbox == [] && Through(l, dir).wire == []
    && Idle(Sender(l, dir).out) && Sender(l, dir).tcp.incoming == []
  }

  lemma DryIffNothingToCome(l: LinkState, dir: Direction)
    requires HalfClosed(l, dir)
    ensures Dry(l, dir) <==> NothingToCome(l, dir)
  {
    hide UpFlow, DownFlow, Encode;
    LiveFlow(l, dir);
    var t, p := Receiver(l, dir), Through(l, dir);
    assert |Sent(l, dir)| == |Got(l, dir)| + |t.back.held| + |p.inbox| + |p.wire| + |Held(Sender(l, dir).out)|;
  }

  // The open end stays open, or the cascade begins.
  lemma HalfClosedStep(l: LinkState, a: LinkAct, dir: Direction)
    requires HalfClosed(l, dir) && OwnMove(a) && LinkStep(l, a).Some? && Ok(LinkStep(l, a).value)
    ensures var l' := LinkStep(l, a).value; HalfClosed(l', dir) || Triggered(l')
  {
    hide UpFlow, DownFlow, Encode, BodyLength, DecodeBody;
  }

  lemma DryStep(l: LinkState, a: LinkAct, dir: Direction)
    requires HalfClosed(l, dir) && Dry(l, dir) && OwnMove(a) && LinkStep(l, a).Some?
    ensures var l' := LinkStep(l, a).value; !Triggered(l') && Dry(l', dir)
  {
    hide UpFlow, DownFlow, Encode, BodyLength, DecodeBody;
  }

  // Along an undisturbed run the closed end gets nothing, and the connection stays half closed until the cascade
  // begins, which it does not if nothing was left to come.
  lemma {:induction false} RunHalfClosed(run: nat -> LinkState, acts: nat -> Option<LinkAct>, dir: Direction, n: nat,
                                         m: nat)
    requires IsRun(run, acts) && Undisturbed(acts, n) && HalfClosed(run(n), dir) && n <= m
    ensures Ok(run(m)) && Copies(run(m)) && Receiver(run(m), dir).tcp.closed && Got(run(m), dir) == Got(run(n), dir)
    ensures HalfClosed(run(m), dir) || Triggered(run(m))
    ensures Dry(run(n), dir) ==> HalfClosed(run(m), dir) && Dry(run(m), dir)
    decreases m - n
  {
    hide LinkStep, Ok, Copies, Triggered, Dry, Got;
    if n < m {
      RunHalfClosed(run, acts, dir, n, m - 1);
      assert RunStep(run, acts, m - 1);
      if acts(m - 1).Some? {
        var l, a := run(m - 1), acts(m - 1).value;
        LinkStepKeepsOk(l, a);
        ClosedGetsNothing(l, a, dir);
        if HalfClosed(l, dir) {
          HalfClosedStep(l, a, dir);
          if Dry(l, dir) {
            DryStep(l, a, dir);
          }
        } else {
          TriggeredStays(l, a);
        }
      }
    }
  }

  /** Left undisturbed, a connection that is closed at one end is given nothing more there. It parks if all that the
      other end has read, or its peer has sent, had been written by then, and is torn down otherwise. */
  lemma HalfClosedEnds(run: nat -> LinkState, acts: nat -> Option<LinkAct>, dir: Direction, n: nat) returns (end: nat)
    requires IsRun(run, acts) && Fair(run, acts) && Undisturbed(acts, n) && HalfClosed(run(n), dir)
    ensures end >= n && Quiescent(run(end)) && Got(run(end), dir) == Got(run(n), dir)
    ensures if NothingToCome(run(n), dir) then Parked(run(end)) else TornDown(run(end))
  {
    hide LinkStep, Ok, Parked, TornDown, Quiescent, Got, Sent, Triggered;
    end := ComesToRest(run, acts, n);
    RunHalfClosed(run, acts, dir, n, end);
    DryIffNothingToCome(run(n), dir);
    if !Triggered(run(end)) && !NothingToCome(run(n), dir) {
      ParkedIsDelivered(run(end), dir);
      RunSupply(run, acts, dir, n, end);
      GotIsPrefix(run(n), dir);
    }
  }
}
