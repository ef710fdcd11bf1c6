/** How a connection is let go of in time: its TCP connection once the peer has closed or reset it, and everything it
    holds once its session has died, whatever stage it had reached. */
module Release {
  import opened Basics
  import opened Header
  import opened Relay
  import opened Link
  import opened Lifecycle
  import opened Teardown
  import opened Delivery

  // ---- a peer that has closed or reset ----

  predicate PeerGone(tcp: Socket) {
    tcp.peerClosed || tcp.broken
  }

  // What the TCP-to-QUIC copier of an end has to do before it closes a TCP connection whose peer is gone.
  function OutLeft(e: Endpoint): nat {
    if e.tcp.closed then 0
    else CopierRank(e.out) + HeldRank(e.out) + 2 * |e.tcp.incoming|
  }

  predicate Waiting(l: LinkState, dir: Direction) {
    Ok(l) && Copies(l) && PeerGone(Sender(l, dir).tcp) && !Sender(l, dir).tcp.closed
  }

  lemma OutIsEnabled(l: LinkState, dir: Direction)
    requires Waiting(l, dir)
    ensures Enabled(l, OutProcess(dir))
  {
    hide UpFlow, DownFlow, Encode;
    var e := Sender(l, dir);
    var act := if Holding(e.out) && !l.alive then OutWriteError(0) else NextOut(e);
    var a := if dir == Up then Client(act) else Server(act);
    assert Belongs(a, OutProcess(dir)) && LinkStep(l, a).Some?;
  }

  lemma CopyClears(leg: Leg, alive: bool, act: RelayAct)
    requires CopyStep(leg, alive, act).Some? && PeerGone(leg.end.tcp) && !leg.end.tcp.closed && !leg.end.out.Done?
    ensures var r := CopyStep(leg, alive, act).value;
            && PeerGone(r.end.tcp) && OutLeft(r.end) <= OutLeft(leg.end) &&
                  (IsOut(act) ==> OutLeft(r.end) < OutLeft(leg.end))
  {
  }

  // The copier's own steps use it up, and nobody else's add to it.
  lemma StepClears(l: LinkState, a: LinkAct, dir: Direction)
    requires Waiting(l, dir) && LinkStep(l, a).Some?
    ensures var e, e' := Sender(l, dir), Sender(LinkStep(l, a).value, dir);
            && PeerGone(e'.tcp) && OutLeft(e') <= OutLeft(e) &&
                  (Belongs(a, OutProcess(dir)) ==> OutLeft(e') < OutLeft(e))
            && (OutLeft(e') == 0 ==> e'.tcp.closed)
  {
    hide UpFlow, DownFlow, Encode, BodyLength, DecodeBody, CopyStep;
    LinkStepKeepsOk(l, a);
    if a.AtClient? && a.client.ClientRelay? && dir == Up {
      CopyClears(Leg(l.conn.end, l.ch.up, l.ch.down), l.alive, a.client.relay);
    } else if a.AtServer? && a.server.ServerRelay? && dir == Down {
      CopyClears(Leg(l.handler.end, l.ch.down, l.ch.up), l.alive, a.server.relay);
    }
  }

  // Up to time m, either the copier has got on, or it is where it was.
  lemma {:induction false} UntilClears(run: nat -> LinkState, acts: nat -> Option<LinkAct>, dir: Direction, n: nat,
                                       m: nat) returns (t: nat)
    requires IsRun(run, acts) && n <= m && Waiting(run(n), dir)
    ensures n <= t <= m && Ok(run(t)) && Copies(run(t)) && PeerGone(Sender(run(t), dir).tcp)
    ensures || OutLeft(Sender(run(t), dir)) < OutLeft(Sender(run(n), dir))
            || (t == m && Waiting(run(t), dir) && OutLeft(Sender(run(t), dir)) == OutLeft(Sender(run(n), dir)))
    decreases m - n
  {
    hide LinkStep, Ok, Copies, PeerGone, Sender;
    t := n;
    if n < m {
      t := UntilClears(run, acts, dir, n, m - 1);
      if t == m - 1 && OutLeft(Sender(run(t), dir)) == OutLeft(Sender(run(n), dir)) {
        assert RunStep(run, acts, t);
        if acts(t).Some? {
          StepClears(run(t), acts(t).value, dir);
          LinkStepKeepsOk(run(t), acts(t).value);
        }
        t := m;
        WaitingLeft(run(t), dir);
        WaitingLeft(run(n), dir);
      }
    }
  }

  lemma WaitingLeft(l: LinkState, dir: Direction)
    requires Ok(l) && Copies(l)
    ensures OutLeft(Sender(l, dir)) == 0 <==> Sender(l, dir).tcp.closed
  {
    hide UpFlow, DownFlow;
  }

  /** On every fair run, a TCP connection whose peer has closed its half or reset it is in time closed, whatever the
      session and the other end do. */
  lemma {:induction false} GoneIsNoticed(run: nat -> LinkState, acts: nat -> Option<LinkAct>, dir: Direction, n: nat)
    returns (end: nat)
    requires IsRun(run, acts) && Fair(run, acts) && Ok(run(n)) && Copies(run(n)) && PeerGone(Sender(run(n), dir).tcp)
    ensures end >= n && Sender(run(end), dir).tcp.closed
    decreases OutLeft(Sender(run(n), dir))
  {
    hide LinkStep, Ok, Copies, PeerGone, OutLeft;
    if Sender(run(n), dir).tcp.closed {
      end := n;
    } else {
      assert TurnComes(run, acts, OutProcess(dir), n);
      var m: nat :| m >= n && Turn(run, acts, OutProcess(dir), m);
      var t := UntilClears(run, acts, dir, n, m);
      if OutLeft(Sender(run(t), dir)) == OutLeft(Sender(run(n), dir)) {
        OutIsEnabled(run(m), dir);
        assert RunStep(run, acts, m);
        StepClears(run(m), acts(m).value, dir);
        LinkStepKeepsOk(run(m), acts(m).value);
        t := m + 1;
      }
      end := GoneIsNoticed(run, acts, dir, t);
    }
  }

  // ---- a dead session ----

  // The two ends, named by the direction they send in.
  function StageLeft(l: LinkState, side: Direction): nat {
    if side == Up then
      if l.conn.phase.Opened? then 2 else if l.conn.phase.Joined? then 1 else 0
    else
      match l.handler.stage
      case AwaitPreamble => 3
      case AwaitBody(_) => 3
      case Connecting(_) => 2
      case Serving => 1
      case _ => 0
  }

  predicate CopiesAt(l: LinkState, side: Direction) {
    StageLeft(l, side) == 1
  }

  function MainProcess(side: Direction): Process { if side == Up then ClientMain else ServerMain }

  // The QUIC-to-TCP copier of an end, which is the one that receives the other direction.
  function BackAt(side: Direction): Process { if side == Up then ClientBack else ServerBack }

  function EndRank(l: LinkState, side: Direction): nat {
    StageLeft(l, side) + CopierRank(Sender(l, side).out) + CopierRank(Sender(l, side).back)
  }

  // Who brings the end of that side nearer.
  function EndHelper(l: LinkState, side: Direction): Process {
    if !CopiesAt(l, side) then MainProcess(side)
    else if !Sender(l, side).back.Done? then BackAt(side)
    else if !Sender(l, side).out.Done? then OutProcess(side)
    else MainProcess(side)
  }

  function EndWork(l: LinkState, side: Direction): nat {
    if !CopiesAt(l, side) then 0
    else if !Sender(l, side).back.Done? then HeldRank(Sender(l, side).back)
    else HeldRank(Sender(l, side).out)
  }

  // The session is dead and the goroutine of that side has not returned.
  predicate Stranded(l: LinkState, side: Direction) {
    Ok(l) && !l.alive && StageLeft(l, side) > 0
  }

  function EndMove(l: LinkState, side: Direction): LinkAct {
    var e := Sender(l, side);
    var relay := if !e.back.Done? then NextBack(e, if side == Up then l.ch.down else l.ch.up, false)
                 else if Holding(e.out) then OutWriteError(0) else NextOut(e);
    if side == Up then
      if l.conn.phase.Opened? then AtClient(WriteHeader)
      else if e.back.Done? && e.out.Done? then AtClient(CloseStream)
      else Client(relay)
    else
      if l.handler.stage.AwaitPreamble? || l.handler.stage.AwaitBody? then AtServer(HeaderError)
      else if l.handler.stage.Connecting? then AtServer(DialDest(true))
      else if e.back.Done? && e.out.Done? then AtServer(CancelStream)
      else Server(relay)
  }

  lemma EndIsEnabled(l: LinkState, side: Direction)
    requires Stranded(l, side)
    ensures Enabled(l, EndHelper(l, side))
  {
    hide UpFlow, DownFlow, Encode, DecodeBody, BodyLength;
    assert Belongs(EndMove(l, side), EndHelper(l, side)) && LinkStep(l, EndMove(l, side)).Some?;
  }

  predicate EndForward(l: LinkState, a: LinkAct, l': LinkState, side: Direction) {
    && !l'.alive && EndRank(l', side) <= EndRank(l, side)
    && (EndRank(l', side) == EndRank(l, side) ==>
          && EndHelper(l', side) == EndHelper(l, side) && StageLeft(l', side) == StageLeft(l, side)
          && if Belongs(a, EndHelper(l, side)) then EndWork(l', side) < EndWork(l, side)
             else EndWork(l', side) <= EndWork(l, side))
  }

  // On a dead session a copier that moves and does not move on has written what it held, or read from TCP.
  lemma CopyOnDead(leg: Leg, act: RelayAct)
    requires CopyStep(leg, false, act).Some?
    ensures var r := CopyStep(leg, false, act).value;
            && (IsOut(act) ==> r.end.back == leg.end.back && CopierRank(r.end.out) <= CopierRank(leg.end.out))
            && (!IsOut(act) ==> r.end.out == leg.end.out && CopierRank(r.end.back) <= CopierRank(leg.end.back))
            && (IsOut(act) && CopierRank(r.end.out) == CopierRank(leg.end.out) ==>
                  leg.end.out.Copying? && r.end.out.Copying? && !leg.end.tcp.closed)
            && (!IsOut(act) && CopierRank(r.end.back) == CopierRank(leg.end.back) ==>
                  leg.end.back.Copying? && r.end.back.Copying? && HeldRank(r.end.back) < HeldRank(leg.end.back))
  {
  }

  lemma CopyForward(l: LinkState, act: RelayAct, side: Direction)
    requires Stranded(l, side)
    requires var a := if side == Up then Client(act) else Server(act); LinkStep(l, a).Some?
    ensures var a := if side == Up then Client(act) else Server(act); EndForward(l, a, LinkStep(l, a).value, side)
  {
    hide UpFlow, DownFlow, Encode, DecodeBody, BodyLength, CopyStep;
    CopyOnDead(if side == Up then Leg(l.conn.end, l.ch.up, l.ch.down) else Leg(l.handler.end, l.ch.down, l.ch.up), act);
  }

  lemma MainForward(l: LinkState, a: LinkAct, side: Direction)
    requires Stranded(l, side) && LinkStep(l, a).Some? && Belongs(a, MainProcess(side))
    ensures EndForward(l, a, LinkStep(l, a).value, side)
  {
    hide UpFlow, DownFlow, Encode, DecodeBody, BodyLength, CopyStep;
  }

  // The other end, the network and the peers.
  lemma ElseForward(l: LinkState, a: LinkAct, side: Direction)
    requires Stranded(l, side) && LinkStep(l, a).Some?
    requires if side == Up then !a.AtClient? else !a.AtServer?
    ensures EndForward(l, a, LinkStep(l, a).value, side)
  {
    hide UpFlow, DownFlow, Encode, DecodeBody, BodyLength, CopyStep;
  }

  lemma StepEndsForward(l: LinkState, a: LinkAct, side: Direction)
    requires Stranded(l, side) && LinkStep(l, a).Some?
    ensures EndForward(l, a, LinkStep(l, a).value, side)
  {
    hide LinkStep, EndForward, Ok;
    if side == Up && a.AtClient? && a.client.ClientRelay? {
      CopyForward(l, a.client.relay, side);
    } else if side == Down && a.AtServer? && a.server.ServerRelay? {
      CopyForward(l, a.server.relay, side);
    } else if if side == Up then a.AtClient? else a.AtServer? {
      MainForward(l, a, side);
    } else {
      ElseForward(l, a, side);
    }
  }

  predicate EndBelow(l': LinkState, l: LinkState, side: Direction) {
    || EndRank(l', side) < EndRank(l, side)
    || (EndRank(l', side) == EndRank(l, side) && EndWork(l', side) < EndWork(l, side))
  }

  lemma {:induction false} UntilEndMoves(run: nat -> LinkState, acts: nat -> Option<LinkAct>, side: Direction, n: nat,
                                         m: nat) returns (t: nat)
    requires IsRun(run, acts) && n <= m && Stranded(run(n), side)
    ensures n <= t <= m && Ok(run(t)) && !run(t).alive
    ensures || EndBelow(run(t), run(n), side)
            || (&& t == m && Stranded(run(t), side) && EndHelper(run(t), side) == EndHelper(run(n), side)
                && EndRank(run(t), side) == EndRank(run(n), side) && EndWork(run(t), side) == EndWork(run(n), side))
    decreases m - n
  {
    hide LinkStep, Ok, EndRank, EndWork, EndHelper, StageLeft;
    t := n;
    if n < m {
      t := UntilEndMoves(run, acts, side, n, m - 1);
      if t == m - 1 && !EndBelow(run(t), run(n), side) {
        assert RunStep(run, acts, t);
        if acts(t).Some? {
          StepEndsForward(run(t), acts(t).value, side);
          LinkStepKeepsOk(run(t), acts(t).value);
        }
        t := m;
      }
    }
  }

  /** On every fair run, once the session is dead, the goroutine of each end returns whatever stage it was in: the
      client's with its copiers done, its TCP connection closed and its stream closed; the server's, if its stream was
      ever accepted, having given up or with its copiers done, its TCP connection closed and its stream cancelled. */
  lemma {:induction false} DeadSessionEnds(run: nat -> LinkState, acts: nat -> Option<LinkAct>, side: Direction, n: nat)
    returns (end: nat)
    requires IsRun(run, acts) && Fair(run, acts) && Ok(run(n)) && !run(n).alive
    ensures end >= n && Ok(run(end))
    ensures side == Up ==> run(end).conn.phase.Finished? && AllDone(run(end).conn.end)
    ensures side == Down ==>
              || run(end).handler.stage.Unaccepted? || run(end).handler.stage.Abandoned?
              || (run(end).handler.stage.Cancelled? && AllDone(run(end).handler.end))
    decreases EndRank(run(n), side), EndWork(run(n), side)
  {
    hide LinkStep, Ok, EndRank, EndWork, EndHelper;
    if StageLeft(run(n), side) == 0 {
      end := n;
      EndedMeans(run(n), side);
    } else {
      var p := EndHelper(run(n), side);
      assert TurnComes(run, acts, p, n);
      var m: nat :| m >= n && Turn(run, acts, p, m);
      var t := UntilEndMoves(run, acts, side, n, m);
      if !EndBelow(run(t), run(n), side) {
        EndIsEnabled(run(m), side);
        assert RunStep(run, acts, m);
        StepEndsForward(run(m), acts(m).value, side);
        LinkStepKeepsOk(run(m), acts(m).value);
        t := m + 1;
      }
      end := DeadSessionEnds(run, acts, side, t);
    }
  }

  lemma EndedMeans(l: LinkState, side: Direction)
    requires Ok(l) && StageLeft(l, side) == 0
    ensures side == Up ==> l.conn.phase.Finished? && AllDone(l.conn.end)
    ensures side == Down ==>
              || l.handler.stage.Unaccepted? || l.handler.stage.Abandoned?
              || (l.handler.stage.Cancelled? && AllDone(l.handler.end))
  {
    hide UpFlow, DownFlow;
  }
}
