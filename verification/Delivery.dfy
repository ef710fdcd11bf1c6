/** What arrives: on a live session every byte read at one end is in time written at the other. */
module Delivery {
  import opened Basics
  import opened Header
  import opened Relay
  import opened Link
  import opened Lifecycle
  import opened Teardown

  // ---- one direction of a connection ----

  function Sender(l: LinkState, dir: Direction): Endpoint {
    if dir == Up then l.conn.end else l.handler.end
  }

  function Receiver(l: LinkState, dir: Direction): Endpoint {
    if dir == Up then l.handler.end else l.conn.end
  }

  function Through(l: LinkState, dir: Direction): Pipe {
    if dir == Up then l.ch.up else l.ch.down
  }

  // What has been sent, upstream with the header in front, and what has been taken off the stream and written.
  function Sent(l: LinkState, dir: Direction): seq<byte> {
    if dir == Up then Encode(HeaderOf(l.conn)) + l.conn.end.tcp.taken else l.handler.end.tcp.taken
  }

  function Got(l: LinkState, dir: Direction): seq<byte> {
    if dir == Up then l.handler.head + l.handler.end.tcp.given else l.conn.end.tcp.given
  }

  /** The session lives, the receiver's TCP connection is open and the sender has not reset the stream. The sender's
      own TCP connection may be closed or broken. */
  predicate Clear(l: LinkState, dir: Direction) {
    && l.alive && !Receiver(l, dir).tcp.closed && !Receiver(l, dir).tcp.broken
    && !Through(l, dir).ending.ResetSent? && !Through(l, dir).ending.ResetArrived?
  }

  // What the invariant says of a clear direction: the bytes sent are all there, in order.
  lemma ClearFlow(l: LinkState, dir: Direction)
    requires Ok(l) && Copies(l) && Clear(l, dir)
    ensures var back, p := Receiver(l, dir).back, Through(l, dir);
            if back.Copying? then Got(l, dir) + back.held + p.inbox + p.wire + Held(Sender(l, dir).out) == Sent(l, dir)
            else Got(l, dir) == Sent(l, dir)
  {
    if dir == Up {
      ClearUp(l);
    } else {
      ClearDown(l);
    }
  }

  lemma ClearUp(l: LinkState)
    requires Ok(l) && Copies(l) && Clear(l, Up)
    ensures var h, p := l.handler, l.ch.up;
            if h.end.back.Copying?
                then Got(l, Up) + h.end.back.held + p.inbox + p.wire + Held(l.conn.end.out) == Sent(l, Up)
            else Got(l, Up) == Sent(l, Up)
  {
    hide Encode, DownFlow;
    var back := l.handler.end.back;
    if back.Copying? {
      assert l.handler.head + (l.handler.end.tcp.given + back.held) == Got(l, Up) + back.held;
    }
  }

  lemma ClearDown(l: LinkState)
    requires Ok(l) && Copies(l) && Clear(l, Down)
    ensures var c, p := l.conn, l.ch.down;
            if c.end.back.Copying?
            then Got(l, Down) + c.end.back.held + p.inbox + p.wire + Held(l.handler.end.out) == Sent(l, Down)
            else Got(l, Down) == Sent(l, Down)
  {
    hide Encode, UpFlow;
    var back := l.conn.end.back;
    assert [] + Sent(l, Down) == Sent(l, Down) && [] + Got(l, Down) == Got(l, Down);
    if back.Copying? {
      assert [] + (Got(l, Down) + back.held) == Got(l, Down) + back.held;
    }
  }

  // A copier that still copies keeps its goroutine from ending the stream.
  lemma CopyingStages(l: LinkState, dir: Direction)
    requires Ok(l) && Copies(l)
    ensures Receiver(l, dir).back.Copying? ==> if dir == Up then l.handler.stage.Serving? else l.conn.phase.Joined?
    ensures Sender(l, dir).out.Copying? ==> if dir == Up then l.conn.phase.Joined? else l.handler.stage.Serving?
  {
    hide UpFlow, DownFlow;
  }

  lemma GotIsPrefix(l: LinkState, dir: Direction)
    requires Ok(l) && Copies(l)
    ensures Got(l, dir) <= Sent(l, dir)
  {
    if dir == Down {
      assert [] + Sent(l, dir) == Sent(l, dir) && [] + Got(l, dir) == Got(l, dir);
    }
  }

  // ---- how far the first `goal` bytes have still to go ----

  /** Where the bytes of a direction are: written at the far end, in the copier's hands there, waiting in the stream, or
      on the wire. What else has been sent is in the hands of the sender's copier. */
  datatype Transit = Transit(sent: seq<byte>, given: nat, held: nat, waiting: nat, flying: nat)

  function InTransit(l: LinkState, dir: Direction): Transit {
    Transit(Sent(l, dir), |Got(l, dir)|, |Held(Receiver(l, dir).back)|, |Through(l, dir).inbox|, |Through(l, dir).wire|)
  }

  function Short(goal: nat, reached: nat): nat {
    if reached < goal then goal - reached else 0
  }

  // Each byte counts once for every place it has yet to reach.
  function Owed(t: Transit, goal: nat): nat {
    Short(goal, t.given) + Short(goal, t.given + t.held) + Short(goal, t.given + t.held + t.waiting)
    + Short(goal, t.given + t.held + t.waiting + t.flying)
  }

  // Who has the next byte to move on.
  function Carrier(t: Transit, dir: Direction): Process {
    if t.held > 0 || t.waiting > 0 then BackProcess(dir)
    else if t.flying > 0 then NetProcess(dir)
    else OutProcess(dir)
  }

  function BackProcess(dir: Direction): Process { if dir == Up then ServerBack else ClientBack }

  function NetProcess(dir: Direction): Process { if dir == Up then NetUp else NetDown }

  function OutProcess(dir: Direction): Process { if dir == Up then ClientOut else ServerOut }

  function CarrierMove(l: LinkState, dir: Direction): LinkAct {
    var back, p := Receiver(l, dir).back, Through(l, dir);
    if Holding(back) then (if dir == Up then Server(BackWrite) else Client(BackWrite))
    else if p.inbox != [] then (if dir == Up then Server(BackRead(1)) else Client(BackRead(1)))
    else if p.wire != [] then InNetwork(dir, Deliver(1))
    else if dir == Up then Client(OutWrite) else Server(OutWrite)
  }

  lemma CarrierIsEnabled(l: LinkState, dir: Direction)
    requires Ok(l) && Copies(l) && Clear(l, dir) && |Got(l, dir)| < |Sent(l, dir)|
    ensures Enabled(l, Carrier(InTransit(l, dir), dir))
  {
    hide LinkInv;
    ClearFlow(l, dir);
    CopyingStages(l, dir);
    assert Belongs(CarrierMove(l, dir), Carrier(InTransit(l, dir), dir)) && LinkStep(l, CarrierMove(l, dir)).Some?;
  }

  // The step brought the bytes further, or it was someone else's and the carrier is where it was.
  predicate Carries(t: Transit, mover: Process, t': Transit, dir: Direction, goal: nat) {
    && t.sent <= t'.sent
    && Owed(t', goal) <= Owed(t, goal)
    && (Owed(t', goal) == Owed(t, goal) ==> Carrier(t', dir) == Carrier(t, dir) && mover != Carrier(t, dir))
  }

  // The receiving copier writes what it holds, or takes what waits.
  predicate Takes(t: Transit, t': Transit) {
    && t'.sent == t.sent && t'.flying == t.flying
    && (if t.held > 0 then t'.given == t.given + t.held && t'.held == 0 && t'.waiting == t.waiting
        else t'.given == t.given && t'.held + t'.waiting == t.waiting && (t.waiting > 0 ==> t'.held > 0))
  }

  // The network brings bytes from the wire to the stream's far end.
  predicate Brings(t: Transit, t': Transit) {
    && t'.sent == t.sent && t'.given == t.given && t'.held == t.held
    && t'.waiting + t'.flying == t.waiting + t.flying && t'.waiting >= t.waiting &&
          (t.flying > 0 ==> t'.waiting > t.waiting)
  }

  // The sending copier reads more, or puts on the wire what it holds.
  predicate Feeds(t: Transit, t': Transit, holding: bool) {
    && t.sent <= t'.sent && t'.given == t.given && t'.held == t.held && t'.waiting == t.waiting
    && t'.flying >= t.flying && (holding ==> t'.flying > t.flying)
  }

  lemma MovesCarry(t: Transit, t': Transit, holding: bool, dir: Direction, goal: nat)
    requires t.given < goal <= |t.sent|
    requires t.held == 0 && t.waiting == 0 && t.flying == 0 ==> holding
    ensures Takes(t, t') ==> Carries(t, BackProcess(dir), t', dir, goal)
    ensures Brings(t, t') ==> Carries(t, NetProcess(dir), t', dir, goal)
    ensures Feeds(t, t', holding) ==> Carries(t, OutProcess(dir), t', dir, goal)
  {
  }

  // A copier's step as the direction it writes to and the direction it reads from see it.
  lemma CopyMoves(l: Leg, alive: bool, act: RelayAct)
    requires CopyStep(l, alive, act).Some?
    ensures var r := CopyStep(l, alive, act).value;
            && l.end.tcp.taken <= r.end.tcp.taken && r.out.inbox == l.out.inbox && r.back.wire == l.back.wire
            && |r.out.wire| >= |l.out.wire|
            && (!IsOut(act) ==> r.out == l.out && r.end.tcp.taken == l.end.tcp.taken)
            && (Holding(l.end.out) && IsOut(act) && alive && !l.out.stopped ==> |r.out.wire| > |l.out.wire|)
  {
  }

  lemma CopyTakes(l: Leg, alive: bool, act: RelayAct)
    requires CopyStep(l, alive, act).Some? && alive && !l.end.tcp.closed && !l.end.tcp.broken &&
        l.back.ending != ResetArrived
    ensures var r := CopyStep(l, alive, act).value;
            && l.end.tcp.given <= r.end.tcp.given
            && |r.end.tcp.given| + |Held(r.end.back)| + |r.back.inbox| ==
                  |l.end.tcp.given| + |Held(l.end.back)| + |l.back.inbox|
            && (IsOut(act) ==> r.back == l.back && r.end.back == l.end.back && r.end.tcp.given == l.end.tcp.given)
            && (!IsOut(act) && Holding(l.end.back) ==>
                  |r.end.tcp.given| == |l.end.tcp.given| + |l.end.back.held| && Idle(r.end.back))
            && (!IsOut(act) && Idle(l.end.back) && l.back.inbox != [] ==>
                  r.end.tcp.given == l.end.tcp.given && Holding(r.end.back))
            && (!IsOut(act) && !Holding(l.end.back) && l.back.inbox == [] ==>
                  r.end.tcp.given == l.end.tcp.given && !Holding(r.end.back))
  {
  }

  // The copiers at one end, first for the direction they receive, then for the one they send.
  lemma ReceiverMoves(l: LinkState, act: RelayAct, dir: Direction)
    requires Ok(l) && Copies(l) && Clear(l, dir) && |Got(l, dir)| < |Sent(l, dir)|
    requires var a := if dir == Up then Server(act) else Client(act); LinkStep(l, a).Some?
    ensures var a := if dir == Up then Server(act) else Client(act);
            var t, t' := InTransit(l, dir), InTransit(LinkStep(l, a).value, dir);
            if IsOut(act) then t' == t else Takes(t, t')
  {
    hide LinkInv, CopyStep, Encode;
    ClearFlow(l, dir);
    if dir == Up {
      CopyMoves(Leg(l.handler.end, l.ch.down, l.ch.up), l.alive, act);
      CopyTakes(Leg(l.handler.end, l.ch.down, l.ch.up), l.alive, act);
    } else {
      CopyMoves(Leg(l.conn.end, l.ch.up, l.ch.down), l.alive, act);
      CopyTakes(Leg(l.conn.end, l.ch.up, l.ch.down), l.alive, act);
    }
  }

  lemma SenderMoves(l: LinkState, act: RelayAct, dir: Direction)
    requires Ok(l) && Copies(l) && Clear(l, dir)
    requires var a := if dir == Up then Client(act) else Server(act); LinkStep(l, a).Some?
    ensures var a := if dir == Up then Client(act) else Server(act);
            var t, t' := InTransit(l, dir), InTransit(LinkStep(l, a).value, dir);
            if IsOut(act) then Feeds(t, t', Holding(Sender(l, dir).out)) else t' == t
  {
    hide UpFlow, DownFlow, CopyStep, Encode;
    if dir == Up {
      CopyMoves(Leg(l.conn.end, l.ch.up, l.ch.down), l.alive, act);
    } else {
      CopyMoves(Leg(l.handler.end, l.ch.down, l.ch.up), l.alive, act);
    }
  }

  // The network, the peers and the ends of the stream.
  lemma OthersMove(l: LinkState, a: LinkAct, dir: Direction)
    requires Ok(l) && Copies(l) && Clear(l, dir)
    requires !(a.AtClient? && a.client.ClientRelay?) && !(a.AtServer? && a.server.ServerRelay?)
    requires LinkStep(l, a).Some? && Clear(LinkStep(l, a).value, dir)
    ensures var t, t' := InTransit(l, dir), InTransit(LinkStep(l, a).value, dir);
            if a.InNetwork? && a.dir == dir then Brings(t, t') else t' == t
  {
    hide LinkInv, CopyStep, Encode;
  }

  /** While a direction is clear, no step of anyone makes the bytes it still owes more, and a step of whoever has the
      next byte makes them fewer. */
  lemma StepCarries(l: LinkState, a: LinkAct, dir: Direction, goal: nat)
    requires Ok(l) && Copies(l) && Clear(l, dir) && |Got(l, dir)| < goal <= |Sent(l, dir)|
    requires LinkStep(l, a).Some? && Clear(LinkStep(l, a).value, dir)
    ensures var t, t' := InTransit(l, dir), InTransit(LinkStep(l, a).value, dir);
            && t.sent <= t'.sent
            && Owed(t', goal) <= Owed(t, goal)
            && (Owed(t', goal) == Owed(t, goal) ==> Carrier(t', dir) == Carrier(t, dir) && !Belongs(a, Carrier(t, dir)))
  {
    hide LinkStep, Ok, Copies, Clear, Sent, Got, Owed;
    var t, t', holding := InTransit(l, dir), InTransit(LinkStep(l, a).value, dir), Holding(Sender(l, dir).out);
    ClearFlow(l, dir);
    MovesCarry(t, t', holding, dir, goal);
    if a.AtClient? && a.client.ClientRelay? {
      if dir == Up {
        SenderMoves(l, a.client.relay, dir);
      } else {
        ReceiverMoves(l, a.client.relay, dir);
      }
    } else if a.AtServer? && a.server.ServerRelay? {
      if dir == Up {
        ReceiverMoves(l, a.server.relay, dir);
      } else {
        SenderMoves(l, a.server.relay, dir);
      }
    } else {
      OthersMove(l, a, dir);
    }
  }

  // ---- runs ----

  ghost predicate ClearFrom(run: nat -> LinkState, dir: Direction, n: nat) {
    forall m: nat :: m >= n ==> Clear(run(m), dir)
  }

  predicate Ready(l: LinkState, dir: Direction, goal: nat) {
    Ok(l) && Copies(l) && |Got(l, dir)| < goal <= |Sent(l, dir)|
  }

  // Up to time m, either some of the bytes have moved on or they and their carrier are where they were.
  lemma {:induction false} UntilCarried(run: nat -> LinkState, acts: nat -> Option<LinkAct>, dir: Direction, goal: nat,
                                        n: nat, m: nat) returns (t: nat)
    requires IsRun(run, acts) && ClearFrom(run, dir, n) && n <= m && Ready(run(n), dir, goal)
    ensures n <= t <= m && Ok(run(t)) && Copies(run(t)) && Sent(run(n), dir) <= Sent(run(t), dir)
    ensures var before, after := InTransit(run(n), dir), InTransit(run(t), dir);
            || Owed(after, goal) < Owed(before, goal)
            || (&& t == m && Owed(after, goal) == Owed(before, goal) && Carrier(after, dir) == Carrier(before, dir)
                && Ready(run(t), dir, goal))
    decreases m - n
  {
    hide Ok, LinkStep, Copies, Carrier, Sent, Got;
    if m == n {
      t := m;
    } else {
      t := UntilCarried(run, acts, dir, goal, n, m - 1);
      if t == m - 1 && Owed(InTransit(run(t), dir), goal) == Owed(InTransit(run(n), dir), goal) {
        assert RunStep(run, acts, t);
        if acts(t).Some? {
          StepCarries(run(t), acts(t).value, dir, goal);
          LinkStepKeepsOk(run(t), acts(t).value);
        }
        t := m;
      }
    }
  }

  lemma {:induction false} ReachesGoal(run: nat -> LinkState, acts: nat -> Option<LinkAct>, dir: Direction, goal: nat,
                                       n: nat)
    returns (end: nat)
    requires IsRun(run, acts) && Fair(run, acts) && ClearFrom(run, dir, n)
    requires Ok(run(n)) && Copies(run(n)) && goal <= |Sent(run(n), dir)|
    ensures end >= n && Ok(run(end)) && Copies(run(end)) && Sent(run(n), dir) <= Sent(run(end), dir) &&
        |Got(run(end), dir)| >= goal
    decreases Owed(InTransit(run(n), dir), goal)
  {
    hide Ok, LinkStep, Copies, Owed, Carrier, Sent, Got, Clear;
    if |Got(run(n), dir)| >= goal {
      end := n;
    } else {
      var p := Carrier(InTransit(run(n), dir), dir);
      assert TurnComes(run, acts, p, n);
      var m: nat :| m >= n && Turn(run, acts, p, m);
      var t := UntilCarried(run, acts, dir, goal, n, m);
      if Owed(InTransit(run(t), dir), goal) == Owed(InTransit(run(n), dir), goal) {
        assert Clear(run(m), dir) && Clear(run(m + 1), dir);
        CarrierIsEnabled(run(m), dir);
        assert RunStep(run, acts, m);
        StepCarries(run(m), acts(m).value, dir, goal);
        LinkStepKeepsOk(run(m), acts(m).value);
        t := m + 1;
      }
      end := ReachesGoal(run, acts, dir, goal, t);
    }
  }

  /** On every fair run, while the session lives, the receiver's TCP connection stays open and the stream is not reset,
      everything sent by a moment is in time written at the other end, whatever else is sent meanwhile and whatever
      becomes of the sender's TCP connection. */
  lemma EverythingArrives(run: nat -> LinkState, acts: nat -> Option<LinkAct>, dir: Direction, n: nat)
    returns (end: nat)
    requires IsRun(run, acts) && Fair(run, acts) && ClearFrom(run, dir, n) && Ok(run(n)) && Copies(run(n))
    ensures end >= n && Sent(run(n), dir) <= Got(run(end), dir) && Ok(run(end)) && Copies(run(end))
  {
    hide Ok, LinkStep, Copies, Sent, Got;
    end := ReachesGoal(run, acts, dir, |Sent(run(n), dir)|, n);
    GotIsPrefix(run(end), dir);
  }
}
