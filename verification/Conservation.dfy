/** What becomes of every byte on a live session: it is written at the far end, in a copier's hands, under way, or one
    of three kinds of step has thrown it away. */
module Conservation {
  import opened Basics
  import opened Header
  import opened Relay
  import opened Link
  import opened Lifecycle
  import opened Delivery

  /** The bytes of a direction that a step throws away: what a receiving copier holds and its TCP connection refuses,
      what a sending copier holds when the stream refuses it, and, when a reset arrives, what is on the wire or
      waiting in the stream. */
  function Discarded(l: LinkState, a: LinkAct, dir: Direction): int {
    match a
    case AtClient(ClientRelay(BackWriteError(n))) => if dir == Down then |Held(l.conn.end.back)| - n else 0
    case AtServer(ServerRelay(BackWriteError(n))) => if dir == Up then |Held(l.handler.end.back)| - n else 0
    case AtClient(ClientRelay(OutWriteError(n))) => if dir == Up then |Held(l.conn.end.out)| - n else 0
    case AtServer(ServerRelay(OutWriteError(n))) => if dir == Down then |Held(l.handler.end.out)| - n else 0
    case InNetwork(d, DeliverEnd) =>
      if d == dir && Through(l, dir).ending.ResetSent? then |Through(l, dir).wire| + |Through(l, dir).inbox| else 0
    case _ => 0
  }

  // What has been sent, the header only once it has been written.
  function SentSize(l: LinkState, dir: Direction): nat {
    if dir == Up && !l.conn.headerSent then 0 else |Sent(l, dir)|
  }

  // What is written at the far end or still has a chance to be.
  function Kept(l: LinkState, dir: Direction): nat {
    |Got(l, dir)| + |Held(Receiver(l, dir).back)| + |Through(l, dir).inbox| + |Through(l, dir).wire| +
        |Held(Sender(l, dir).out)|
  }

  // A copier's step and the direction it sends.
  lemma CopySends(leg: Leg, alive: bool, act: RelayAct)
    requires CopyStep(leg, alive, act).Some?
    ensures var r := CopyStep(leg, alive, act).value;
            && r.out.inbox == leg.out.inbox && |r.end.tcp.taken| >= |leg.end.tcp.taken|
            && |r.end.tcp.taken| - |r.out.wire| - |Held(r.end.out)|
            == |leg.end.tcp.taken| - |leg.out.wire| - |Held(leg.end.out)|
               + (if act.OutWriteError? then |Held(leg.end.out)| - act.n else 0)
            && (act.OutWriteError? ==> act.n <= |Held(leg.end.out)|)
  {
  }

  // And the direction it receives.
  lemma CopyReceives(leg: Leg, alive: bool, act: RelayAct)
    requires CopyStep(leg, alive, act).Some?
    ensures var r := CopyStep(leg, alive, act).value;
            && r.back.wire == leg.back.wire && r.back.ending == leg.back.ending
            && |r.end.tcp.given| + |Held(r.end.back)| + |r.back.inbox|
            == |leg.end.tcp.given| + |Held(leg.end.back)| + |leg.back.inbox|
               - (if act.BackWriteError? then |Held(leg.end.back)| - act.n else 0)
            && (act.BackWriteError? ==> act.n <= |Held(leg.end.back)|)
  {
  }

  predicate Accounts(l: LinkState, a: LinkAct, l': LinkState, dir: Direction) {
    && Discarded(l, a, dir) >= 0
    && SentSize(l', dir) - Kept(l', dir) == SentSize(l, dir) - Kept(l, dir) + Discarded(l, a, dir)
  }

  /** On a live session each step leaves exactly as many bytes more unaccounted for as it throws away. */
  lemma StepAccounts(l: LinkState, a: LinkAct, dir: Direction)
    requires Ok(l) && LinkStep(l, a).Some? && LinkStep(l, a).value.alive
    ensures Accounts(l, a, LinkStep(l, a).value, dir)
  {
    hide LinkStep, Accounts;
    if a.AtClient? && a.client.ClientRelay? {
      ClientCopyAccounts(l, a.client.relay, dir);
    } else if a.AtServer? && a.server.ServerRelay? {
      ServerCopyAccounts(l, a.server.relay, dir);
    } else if a.AtClient? {
      ClientMainAccounts(l, a.client, dir);
    } else if a.AtServer? {
      ServerMainAccounts(l, a.server, dir);
    } else if a.InNetwork? {
      NetworkAccounts(l, a.net, a.dir, dir);
    } else {
      PeersAccount(l, a, dir);
    }
  }

  lemma ClientCopyAccounts(l: LinkState, act: RelayAct, dir: Direction)
    requires Ok(l) && LinkStep(l, Client(act)).Some? && LinkStep(l, Client(act)).value.alive
    ensures Accounts(l, Client(act), LinkStep(l, Client(act)).value, dir)
  {
    hide UpFlow, DownFlow, CopyStep, Encode;
    CopySends(Leg(l.conn.end, l.ch.up, l.ch.down), l.alive, act);
    CopyReceives(Leg(l.conn.end, l.ch.up, l.ch.down), l.alive, act);
  }

  lemma ServerCopyAccounts(l: LinkState, act: RelayAct, dir: Direction)
    requires Ok(l) && LinkStep(l, Server(act)).Some? && LinkStep(l, Server(act)).value.alive
    ensures Accounts(l, Server(act), LinkStep(l, Server(act)).value, dir)
  {
    hide UpFlow, DownFlow, CopyStep, Encode;
    CopySends(Leg(l.handler.end, l.ch.down, l.ch.up), l.alive, act);
    CopyReceives(Leg(l.handler.end, l.ch.down, l.ch.up), l.alive, act);
  }

  lemma NetworkAccounts(l: LinkState, act: NetAct, netDir: Direction, dir: Direction)
    requires LinkStep(l, InNetwork(netDir, act)).Some?
    ensures Accounts(l, InNetwork(netDir, act), LinkStep(l, InNetwork(netDir, act)).value, dir)
  {
    hide Encode, Sent, Got;
    NetworkKeepsEnds(l, act, dir, netDir);
    CarryMoves(l.ch, l.alive, netDir, act, dir);
  }

  lemma ClientMainAccounts(l: LinkState, act: ClientAct, dir: Direction)
    requires Ok(l) && LinkStep(l, AtClient(act)).Some? && LinkStep(l, AtClient(act)).value.alive && !act.ClientRelay?
    ensures Accounts(l, AtClient(act), LinkStep(l, AtClient(act)).value, dir)
  {
    hide UpFlow, DownFlow, Encode;
  }

  lemma ServerMainAccounts(l: LinkState, act: ServerAct, dir: Direction)
    requires Ok(l) && LinkStep(l, AtServer(act)).Some? && !act.ServerRelay?
    ensures Accounts(l, AtServer(act), LinkStep(l, AtServer(act)).value, dir)
  {
    hide UpFlow, DownFlow, Encode, BodyLength, DecodeBody;
  }

  lemma PeersAccount(l: LinkState, a: LinkAct, dir: Direction)
    requires LinkStep(l, a).Some? && !a.AtClient? && !a.AtServer? && !a.InNetwork?
    ensures Accounts(l, a, LinkStep(l, a).value, dir)
  {
    hide Encode;
  }

  // The network keeps the bytes of a direction except those a reset throws away.
  lemma CarryMoves(ch: Channel, alive: bool, netDir: Direction, act: NetAct, dir: Direction)
    requires NetStep(ch, alive, netDir, act).Some?
    ensures var ch' := NetStep(ch, alive, netDir, act).value;
            var p, p' := if dir == Up then ch.up else ch.down, if dir == Up then ch'.up else ch'.down;
            |p'.wire| + |p'.inbox| ==
              |p.wire| + |p.inbox|
              - (if dir == netDir && act.DeliverEnd? && p.ending.ResetSent? then |p.wire| + |p.inbox| else 0)
  {
  }

  lemma NetworkKeepsEnds(l: LinkState, act: NetAct, dir: Direction, netDir: Direction)
    requires LinkStep(l, InNetwork(netDir, act)).Some?
    ensures var l' := LinkStep(l, InNetwork(netDir, act)).value;
            Sent(l', dir) == Sent(l, dir) && Got(l', dir) == Got(l, dir)
  {
  }

  /** On a live session a step throws bytes of the response away exactly when it is a write of the client's copier that
      fails short of what the copier holds, or the landing of the server's reset on bytes on the wire or unread. */
  lemma LosesResponseIff(l: LinkState, a: LinkAct)
    requires Ok(l) && l.alive && LinkStep(l, a).Some?
    ensures Discarded(l, a, Down) != 0 <==>
              || (exists n: nat :: a == Client(BackWriteError(n)) && n < |Held(l.conn.end.back)|)
              || (a == InNetwork(Down, DeliverEnd) && (l.ch.down.wire != [] || l.ch.down.inbox != []))
  {
    hide UpFlow, DownFlow, Encode, BodyLength, DecodeBody;
  }

  // ---- after the reset ----

  // What the client has of the response: written to its TCP connection, or in its copier's hands.
  function InHand(l: LinkState): seq<byte> {
    l.conn.end.tcp.given + Held(l.conn.end.back)
  }

  lemma CopyAfterReset(leg: Leg, alive: bool, act: RelayAct)
    requires CopyStep(leg, alive, act).Some? && leg.back.ending == ResetArrived
    ensures var r := CopyStep(leg, alive, act).value;
            r.back.ending == ResetArrived &&
                r.end.tcp.given + Held(r.end.back) <= leg.end.tcp.given + Held(leg.end.back)
  {
  }

  /** After the server's reset has landed no step gives the client another byte. */
  lemma NothingAfterReset(l: LinkState, a: LinkAct)
    requires Ok(l) && l.ch.down.ending == ResetArrived && LinkStep(l, a).Some?
    ensures var l' := LinkStep(l, a).value; l'.ch.down.ending == ResetArrived && InHand(l') <= InHand(l)
  {
    hide UpFlow, DownFlow, Encode, CopyStep;
    if a.AtClient? && a.client.ClientRelay? {
      CopyAfterReset(Leg(l.conn.end, l.ch.up, l.ch.down), l.alive, a.client.relay);
    }
  }
}
