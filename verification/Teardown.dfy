/** Termination of the cascade: on every fair run, once a QUIC-to-TCP copier has finished or the session has
    died, all four copiers finish, both TCP connections are closed, the client stream is closed and the
    server stream cancelled. */
module Teardown {
  import opened Basics
  import opened Header
  import opened Relay
  import opened Link
  import opened Lifecycle

  // The goroutines of one connection, and the network in each direction.
  datatype Process = ClientOut | ClientBack | ClientMain | ServerOut | ServerBack | ServerMain | NetUp | NetDown

  predicate IsOut(act: RelayAct) {
    act.OutRead? || act.OutEof? || act.OutReadError? || act.OutWrite? || act.OutWriteError? || act.OutDone?
  }

  predicate Belongs(a: LinkAct, p: Process) {
    match p
    case ClientOut => a.AtClient? && a.client.ClientRelay? && IsOut(a.client.relay)
    case ClientBack => a.AtClient? && a.client.ClientRelay? && !IsOut(a.client.relay)
    case ClientMain => a.AtClient? && !a.client.ClientRelay?
    case ServerOut => a.AtServer? && a.server.ServerRelay? && IsOut(a.server.relay)
    case ServerBack => a.AtServer? && a.server.ServerRelay? && !IsOut(a.server.relay)
    case ServerMain => a.AtServer? && !a.server.ServerRelay?
    case NetUp => a.InNetwork? && a.dir == Up
    case NetDown => a.InNetwork? && a.dir == Down
  }

  ghost predicate Enabled(l: LinkState, p: Process) {
    exists a :: Belongs(a, p) && LinkStep(l, a).Some?
  }

  // The cascade has begun.
  predicate Triggered(l: LinkState) {
    !l.alive || !l.conn.end.back.Copying? || !l.handler.end.back.Copying?
  }

  // ---- the measure ----

  function CopierRank(c: Copier): nat {
    if c.Copying? then 2 else if c.Returned? then 1 else 0
  }

  function EndingRank(p: Pipe): nat {
    if p.ending == Open then 2 else if Landed(p) then 0 else 1
  }

  // How far the connection still is from its end, counting only moves that cannot be undone.
  function Rank(l: LinkState): nat {
    CopierRank(l.conn.end.out) + CopierRank(l.conn.end.back)
    + CopierRank(l.handler.end.out) + CopierRank(l.handler.end.back)
    + (if l.conn.phase.Finished? then 0 else 1) + (if l.handler.stage.Cancelled? then 0 else 1)
    + EndingRank(l.ch.up) + EndingRank(l.ch.down) + (if l.alive then 1 else 0)
  }

  // The process whose turn brings the end nearer. It depends only on what Rank counts.
  function Helper(l: LinkState): Process {
    var c, s := l.conn.end, l.handler.end;
    if c.out.Returned? then ClientOut
    else if c.back.Returned? then ClientBack
    else if s.out.Returned? then ServerOut
    else if s.back.Returned? then ServerBack
    else if c.out.Done? && c.back.Done? && !l.conn.phase.Finished? then ClientMain
    else if s.out.Done? && s.back.Done? && !l.handler.stage.Cancelled? then ServerMain
    else if c.back.Done? && c.out.Copying? then ClientOut
    else if s.back.Done? && s.out.Copying? then ServerOut
    else if c.back.Copying? then (if l.alive && !Landed(l.ch.down) then NetDown else ClientBack)
    else (if l.alive && !Landed(l.ch.up) then NetUp else ServerBack)
  }

  function HeldRank(c: Copier): nat {
    if Holding(c) then 1 else 0
  }

  function BackWork(c: Copier, p: Pipe): nat {
    if c.Copying? then 2 * |p.inbox| + HeldRank(c) else 0
  }

  // What the helper has left to do before Rank drops.
  function Work(l: LinkState): nat {
    match Helper(l)
    case ClientOut => HeldRank(l.conn.end.out)
    case ServerOut => HeldRank(l.handler.end.out)
    case ClientBack => BackWork(l.conn.end.back, l.ch.down)
    case ServerBack => BackWork(l.handler.end.back, l.ch.up)
    case NetUp => |l.ch.up.wire|
    case NetDown => |l.ch.down.wire|
    case _ => 0
  }

  // The helper's next step.
  function Next(l: LinkState): LinkAct {
    match Helper(l)
    case ClientOut =>
      if l.conn.end.out.Copying? && Holding(l.conn.end.out) && !l.alive then Client(OutWriteError(0))
      else Client(NextOut(l.conn.end))
    case ServerOut =>
      if l.handler.end.out.Copying? && Holding(l.handler.end.out) && !l.alive then Server(OutWriteError(0))
      else Server(NextOut(l.handler.end))
    case ClientBack => Client(NextBack(l.conn.end, l.ch.down, l.alive))
    case ServerBack => Server(NextBack(l.handler.end, l.ch.up, l.alive))
    case ClientMain => AtClient(CloseStream)
    case ServerMain => AtServer(CancelStream)
    case NetUp => InNetwork(Up, if l.ch.up.wire != [] then Deliver(1) else DeliverEnd)
    case NetDown => InNetwork(Down, DeliverEnd)
  }

  lemma HelperIsEnabled(l: LinkState)
    requires Ok(l) && Copies(l) && Triggered(l) && !TornDown(l)
    ensures Enabled(l, Helper(l))
  {
    hide UpFlow, DownFlow;
    assert Belongs(Next(l), Helper(l)) && LinkStep(l, Next(l)).Some?;
  }

  // The step moved towards the end, or left the helper in place with no more work than before,
  // and with less if it was the helper's own step.
  predicate Forward(l: LinkState, a: LinkAct, l': LinkState) {
    && Triggered(l')
    && Rank(l') <= Rank(l)
    && (Rank(l') == Rank(l) ==>
          Helper(l') == Helper(l) && if Belongs(a, Helper(l)) then Work(l') < Work(l) else Work(l') <= Work(l))
  }

  // What a copier's step can do to ranks and work: the copiers only move on, and one that still copies has
  // just read or just written.
  lemma CopyEffect(l: Leg, alive: bool, act: RelayAct)
    requires CopyStep(l, alive, act).Some?
    ensures var r := CopyStep(l, alive, act).value;
            && r.out.ending == l.out.ending && r.back.ending == l.back.ending
            && r.back.wire == l.back.wire && r.out.inbox == l.out.inbox
            && (IsOut(act) ==>
                  r.end.back == l.end.back && r.back == l.back && CopierRank(r.end.out) <= CopierRank(l.end.out))
            && (!IsOut(act) ==>
                  r.end.out == l.end.out && r.out == l.out && CopierRank(r.end.back) <= CopierRank(l.end.back))
            && (IsOut(act) && CopierRank(r.end.out) == CopierRank(l.end.out) ==>
                  && l.end.out.Copying? && r.end.out.Copying?
                  && if Holding(l.end.out) then Idle(r.end.out) else !l.end.tcp.closed)
            && (!IsOut(act) && CopierRank(r.end.back) == CopierRank(l.end.back) ==>
                  && l.end.back.Copying? && r.end.back.Copying?
                  && BackWork(r.end.back, r.back) < BackWork(l.end.back, l.back))
            && (!l.end.out.Copying? ==> r.out.wire == l.out.wire)
  {
  }

  lemma ClientForward(l: LinkState, act: ClientAct)
    requires Ok(l) && Copies(l) && Triggered(l) && !TornDown(l) && LinkStep(l, AtClient(act)).Some?
    ensures Forward(l, AtClient(act), LinkStep(l, AtClient(act)).value)
  {
    hide UpFlow, DownFlow, ServerStep, NetStep, Peer, CopyStep;
    if act.ClientRelay? {
      CopyEffect(Leg(l.conn.end, l.ch.up, l.ch.down), l.alive, act.relay);
    }
  }

  lemma ServerForward(l: LinkState, act: ServerAct)
    requires Ok(l) && Copies(l) && Triggered(l) && !TornDown(l) && LinkStep(l, AtServer(act)).Some?
    ensures Forward(l, AtServer(act), LinkStep(l, AtServer(act)).value)
  {
    hide UpFlow, DownFlow, ClientStep, NetStep, Peer, CopyStep;
    if act.ServerRelay? {
      CopyEffect(Leg(l.handler.end, l.ch.down, l.ch.up), l.alive, act.relay);
    }
  }

  lemma OthersForward(l: LinkState, a: LinkAct)
    requires Ok(l) && Copies(l) && Triggered(l) && !TornDown(l) && LinkStep(l, a).Some? && !a.AtClient? && !a.AtServer?
    ensures Forward(l, a, LinkStep(l, a).value)
  {
  }

  lemma StepForward(l: LinkState, a: LinkAct)
    requires Ok(l) && Copies(l) && Triggered(l) && !TornDown(l) && LinkStep(l, a).Some?
    ensures Forward(l, a, LinkStep(l, a).value)
  {
    hide Forward, LinkStep, Ok;
    if a.AtClient? {
      ClientForward(l, a.client);
    } else if a.AtServer? {
      ServerForward(l, a.server);
    } else {
      OthersForward(l, a);
    }
  }

  // ---- runs ----

  // The connection along an infinite run; None stands for a step that does not concern it.
  ghost predicate IsRun(run: nat -> LinkState, acts: nat -> Option<LinkAct>) {
    forall n: nat :: RunStep(run, acts, n)
  }

  predicate RunStep(run: nat -> LinkState, acts: nat -> Option<LinkAct>, n: nat) {
    if acts(n).None? then run(n + 1) == run(n) else LinkStep(run(n), acts(n).value) == Some(run(n + 1))
  }

  // Weak fairness: again and again, each process either moves or is unable to.
  ghost predicate Fair(run: nat -> LinkState, acts: nat -> Option<LinkAct>) {
    forall p: Process, n: nat :: TurnComes(run, acts, p, n)
  }

  ghost predicate TurnComes(run: nat -> LinkState, acts: nat -> Option<LinkAct>, p: Process, n: nat) {
    exists m: nat :: m >= n && Turn(run, acts, p, m)
  }

  ghost predicate Turn(run: nat -> LinkState, acts: nat -> Option<LinkAct>, p: Process, m: nat) {
    (acts(m).Some? && Belongs(acts(m).value, p)) || !Enabled(run(m), p)
  }

  predicate Live(l: LinkState) {
    Ok(l) && Copies(l) && Triggered(l)
  }

  predicate Below(l': LinkState, l: LinkState) {
    Rank(l') < Rank(l) || (Rank(l') == Rank(l) && Work(l') < Work(l))
  }

  // Up to time m, either the connection has come closer to its end or it is where it was.
  lemma {:induction false} Meanwhile(run: nat -> LinkState, acts: nat -> Option<LinkAct>, n: nat, m: nat)
    returns (t: nat)
    requires IsRun(run, acts) && Live(run(n)) && n <= m
    requires forall i :: n <= i <= m ==> !TornDown(run(i))
    ensures n <= t <= m && Live(run(t))
    ensures Below(run(t), run(n)) ||
        (t == m && Rank(run(m)) == Rank(run(n)) && Work(run(m)) == Work(run(n)) && Helper(run(m)) == Helper(run(n)))
    decreases m - n
  {
    hide Ok, LinkStep, Copies, Rank, Work, Helper, TornDown, Triggered;
    if m == n {
      t := m;
    } else {
      t := Meanwhile(run, acts, n, m - 1);
      if t == m - 1 && !Below(run(t), run(n)) {
        assert RunStep(run, acts, t);
        if acts(t).Some? {
          StepForward(run(t), acts(t).value);
          LinkStepKeepsOk(run(t), acts(t).value);
        }
        t := m;
      }
    }
  }

  /** The cascade ends. */
  lemma {:induction false} CascadeFrom(run: nat -> LinkState, acts: nat -> Option<LinkAct>, n: nat) returns (end: nat)
    requires IsRun(run, acts) && Fair(run, acts) && Live(run(n))
    ensures end >= n && TornDown(run(end))
    decreases Rank(run(n)), Work(run(n))
  {
    hide Ok, LinkStep, Copies, Rank, Work, Helper, TornDown, Triggered;
    var p := Helper(run(n));
    assert TurnComes(run, acts, p, n);
    var m: nat :| m >= n && Turn(run, acts, p, m);
    if i :| n <= i <= m && TornDown(run(i)) {
      end := i;
    } else {
      var t := Meanwhile(run, acts, n, m);
      if !Below(run(t), run(n)) {
        HelperIsEnabled(run(m));
        assert RunStep(run, acts, m);
        StepForward(run(m), acts(m).value);
        LinkStepKeepsOk(run(m), acts(m).value);
        t := m + 1;
      }
      end := CascadeFrom(run, acts, t);
    }
  }
}
