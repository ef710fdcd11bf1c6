/** The whole tunnel: any number of client goroutines sharing one session variable, their streams, and the
    server goroutines, as a state machine whose actions may interleave in any order. */
module Tunnel {
  import opened Basics
  import opened Header
  import opened Relay
  import opened Link

  datatype Config = Config(multiStream: bool, retries: nat)

  datatype Session = Session(alive: bool, nextStream: nat)

  /** `quicSession` is the client's package variable. Sessions are numbered in the order they were dialled.
      `crashed` is set when the client process dereferences a nil session. */
  datatype State = State(quicSession: Option<nat>, sessions: seq<Session>, conns: seq<Conn>,
                         streams: map<StreamId, Channel>, handlers: map<StreamId, Handler>, crashed: bool)

  const INIT := State(None, [], [], map[], map[], false)

  datatype Action =
    | Accept(source: Addr, dest: Addr)
    | CheckSession(i: nat)
    | TryOpen(i: nat, ok: bool)
    | DialAttempt(i: nat, ok: bool)
    | AssignSession(i: nat)
    | OpenNew(i: nat, ok: bool)
    | OnClient(i: nat, client: ClientAct)
    | OnServer(k: StreamId, server: ServerAct)
    | OnNetwork(k: StreamId, dir: Direction, net: NetAct)
    | ClientPeer(i: nat, peer: PeerAct)
    | ServerPeer(k: StreamId, peer: PeerAct)
    | SessionDies(n: nat)

  function NewConn(source: Addr, dest: Addr): Conn {
    Conn(source, dest, Checking, false, 0, NEW_ENDPOINT)
  }

  // openQuicSession's loop; with no retries at all it returns a nil session and a nil error.
  function EnterDial(cfg: Config): Phase {
    if cfg.retries == 0 then Assigning(None, false) else Dialling(0)
  }

  function SetConn(s: State, i: nat, c: Conn): State
    requires i < |s.conns|
  {
    s.(conns := s.conns[i := c])
  }

  function SetPhase(s: State, i: nat, p: Phase): State
    requires i < |s.conns|
  {
    SetConn(s, i, s.conns[i].(phase := p))
  }

  // The deferred tcpConn.Close of a goroutine that returns before it has a stream.
  function Drop(s: State, i: nat, exhausted: bool): State
    requires i < |s.conns|
  {
    var c := s.conns[i];
    SetConn(s, i, c.(phase := Dropped(exhausted), end := c.end.(tcp := c.end.tcp.(closed := true))))
  }

  // The session hands out its next stream number.
  function OpenOn(s: State, i: nat, n: nat): State
    requires i < |s.conns| && n < |s.sessions|
  {
    var k := StreamId(n, s.sessions[n].nextStream);
    SetPhase(s, i, Opened(k)).(sessions := s.sessions[n := s.sessions[n].(nextStream := s.sessions[n].nextStream + 1)],
                               streams := s.streams[k := NEW_CHANNEL],
                               handlers := s.handlers[k := NEW_HANDLER])
  }

  predicate Alive(s: State, k: StreamId) {
    k.session < |s.sessions| && s.sessions[k.session].alive
  }

  predicate CanOpen(s: State, n: nat) {
    n < |s.sessions| && s.sessions[n].alive
  }

  // ---- one action ----

  // The steps by which a client goroutine gets a session and a stream: test the variable, try it, dial, assign, open.
  function Establish(cfg: Config, s: State, i: nat, a: Action): Option<State>
    requires i < |s.conns|
  {
    var phase := s.conns[i].phase;
    match a
    case CheckSession(_) =>
      if !phase.Checking? then None
      else Some(SetPhase(s, i, if cfg.multiStream && s.quicSession.Some? then TryingOpen else EnterDial(cfg)))
    case TryOpen(_, ok) =>
      if !phase.TryingOpen? then None
      else if s.quicSession.None? then Some(s.(crashed := true))
      else if !ok then Some(SetPhase(s, i, EnterDial(cfg)))
      else if CanOpen(s, s.quicSession.value) then Some(OpenOn(s, i, s.quicSession.value))
      else None
    case DialAttempt(_, ok) =>
      if !phase.Dialling? || phase.attempt >= cfg.retries then None
      else
        var c := s.conns[i].(dials := s.conns[i].dials + 1);
        if ok then
          var s' := s.(sessions := s.sessions + [Session(true, 0)]);
          Some(SetConn(s', i, c.(phase := Assigning(Some(|s.sessions|), false))))
        else if phase.attempt + 1 == cfg.retries then Some(SetConn(s, i, c.(phase := Assigning(None, true))))
        else Some(SetConn(s, i, c.(phase := Dialling(phase.attempt + 1))))
    case AssignSession(_) =>
      if !phase.Assigning? then None
      else
        var s' := s.(quicSession := phase.session);
        if phase.failed then Some(Drop(s', i, true)) else Some(SetPhase(s', i, Opening))
    case OpenNew(_, ok) =>
      if !phase.Opening? then None
      else if s.quicSession.None? then Some(s.(crashed := true))
      else if !ok then Some(Drop(s, i, false))
      else if CanOpen(s, s.quicSession.value) then Some(OpenOn(s, i, s.quicSession.value))
      else None
    case _ => None
  }

  function Step(cfg: Config, s: State, a: Action): Option<State> {
    if s.crashed then None
    else
      match a
      case Accept(source, dest) =>
        if ValidAddr(source) && ValidAddr(dest) then Some(s.(conns := s.conns + [NewConn(source, dest)])) else None
      case OnClient(i, act) =>
        if i < |s.conns| && HoldsStream(s.conns[i]) && s.conns[i].phase.id in s.streams then
          var k := s.conns[i].phase.id;
          var r := ClientStep(s.conns[i], s.streams[k], Alive(s, k), act);
          if r.None? then None else Some(SetConn(s, i, r.value.0).(streams := s.streams[k := r.value.1]))
        else None
      case OnServer(k, act) =>
        if k in s.streams && k in s.handlers then
          var r := ServerStep(s.handlers[k], s.streams[k], Alive(s, k), act);
          if r.None? then None
          else Some(s.(handlers := s.handlers[k := r.value.0], streams := s.streams[k := r.value.1]))
        else None
      case OnNetwork(k, dir, act) =>
        if k in s.streams then
          var r := NetStep(s.streams[k], Alive(s, k), dir, act);
          if r.None? then None else Some(s.(streams := s.streams[k := r.value]))
        else None
      case ClientPeer(i, act) =>
        if i < |s.conns| && Peer(s.conns[i].end.tcp, act).Some? then
          var c := s.conns[i];
          Some(SetConn(s, i, c.(end := c.end.(tcp := Peer(c.end.tcp, act).value))))
        else None
      case ServerPeer(k, act) =>
        if k in s.handlers && (s.handlers[k].stage.Serving? || s.handlers[k].stage.Cancelled?)
           && Peer(s.handlers[k].end.tcp, act).Some? then
          var h := s.handlers[k];
          Some(s.(handlers := s.handlers[k := h.(end := h.end.(tcp := Peer(h.end.tcp, act).value))]))
        else None
      case SessionDies(n) =>
        if n < |s.sessions| && s.sessions[n].alive
        then Some(s.(sessions := s.sessions[n := s.sessions[n].(alive := false)])) else None
      case _ =>
        if a.i < |s.conns| then Establish(cfg, s, a.i, a) else None
  }

  /** The state after a sequence of actions; None when some action was not possible. */
  function Exec(cfg: Config, acts: seq<Action>): Option<State> {
    if acts == [] then Some(INIT)
    else
      var before := Exec(cfg, acts[..|acts| - 1]);
      if before.None? then None else Step(cfg, before.value, acts[|acts| - 1])
  }

  // ---- the invariant ----

  predicate Untouched(c: Conn) {
    ValidHeader(HeaderOf(c)) && !c.headerSent && Idle(c.end.out) && Idle(c.end.back) && c.end.pending == 2 &&
        c.end.tcp.taken == [] && c.end.tcp.given == []
  }

  predicate SessionKnown(s: State, n: Option<nat>) {
    n.Some? ==> n.value < |s.sessions|
  }

  predicate ConnOk(s: State, c: Conn) {
    && (c.phase.Assigning? ==> SessionKnown(s, c.phase.session))
    && (if HoldsStream(c) then LinkOk(s, c) else Untouched(c))
    && (c.phase.Dropped? ==> c.end.tcp.closed)
  }

  predicate LinkOk(s: State, c: Conn)
    requires HoldsStream(c)
  {
    var k := c.phase.id;
    k in s.streams && k in s.handlers && LinkInv(c, s.streams[k], s.handlers[k], Alive(s, k))
  }

  predicate StreamOk(s: State, k: StreamId) {
    k.session < |s.sessions| && k.number < s.sessions[k.session].nextStream
  }

  predicate Disjoint(s: State) {
    forall i, j :: 0 <= i < j < |s.conns| && HoldsStream(s.conns[i]) && HoldsStream(s.conns[j]) ==>
                     s.conns[i].phase.id != s.conns[j].phase.id
  }

  ghost predicate Owned(s: State, k: StreamId) {
    exists i :: 0 <= i < |s.conns| && Holds(s.conns[i], k)
  }

  ghost predicate Inv(s: State) {
    && SessionKnown(s, s.quicSession)
    && s.streams.Keys == s.handlers.Keys
    && StreamsOk(s) && ConnsOk(s) && Disjoint(s)
  }

  ghost predicate StreamsOk(s: State) {
    forall k :: k in s.streams ==> StreamOk(s, k) && Owned(s, k)
  }

  predicate ConnsOk(s: State) {
    forall i :: 0 <= i < |s.conns| ==> ConnOk(s, s.conns[i])
  }

  // A link changes, nothing else does: the others keep their streams and their invariants.
  lemma LinkUpdate(s: State, i: nat, c: Conn, ch: Channel, h: Handler)
    requires Inv(s) && i < |s.conns| && HoldsStream(s.conns[i])
    requires Holds(c, s.conns[i].phase.id) && LinkInv(c, ch, h, Alive(s, c.phase.id))
    ensures Inv(s.(conns := s.conns[i := c], streams := s.streams[c.phase.id := ch],
                   handlers := s.handlers[c.phase.id := h]))
  {
    hide LinkInv, ConnOk, StreamsOk;
    var k := c.phase.id;
    var s' := s.(conns := s.conns[i := c], streams := s.streams[k := ch], handlers := s.handlers[k := h]);
    ConnHasStream(s, s.conns[i]);
    LinkUpdateKeepsConns(s, i, c, ch, h);
    assert s.streams.Keys == s'.streams.Keys && s.handlers.Keys == s'.handlers.Keys;
    KeepsStreams(s, s');
  }

  lemma LinkUpdateKeepsConns(s: State, i: nat, c: Conn, ch: Channel, h: Handler)
    requires ConnsOk(s) && Disjoint(s) && i < |s.conns| && HoldsStream(s.conns[i])
    requires Holds(c, s.conns[i].phase.id) && LinkInv(c, ch, h, Alive(s, c.phase.id))
    ensures var k := c.phase.id;
            ConnsOk(s.(conns := s.conns[i := c], streams := s.streams[k := ch], handlers := s.handlers[k := h]))
  {
  }

  lemma ConnHasStream(s: State, c: Conn)
    requires ConnOk(s, c) && HoldsStream(c)
    ensures c.phase.id in s.streams && c.phase.id in s.handlers
    ensures LinkInv(c, s.streams[c.phase.id], s.handlers[c.phase.id], Alive(s, c.phase.id))
  {
  }

  // A connection depends on its own stream and on which sessions exist, not on the rest of the state.
  lemma FrameConn(s: State, s': State, c: Conn)
    requires ConnOk(s, c)
    requires |s'.sessions| >= |s.sessions|
    requires HoldsStream(c) && c.phase.id in s.streams && c.phase.id in s.handlers ==>
               var k := c.phase.id;
               && k in s'.streams && k in s'.handlers
               && s'.streams[k] == s.streams[k] && s'.handlers[k] == s.handlers[k] && Alive(s', k) == Alive(s, k)
    ensures ConnOk(s', c)
  {
  }

  // Streams stay in order as long as no session, stream or holder is lost.
  lemma KeepsStreams(s: State, s': State)
    requires StreamsOk(s) && s'.streams.Keys == s.streams.Keys
    requires |s'.sessions| >= |s.sessions|
    requires forall n :: 0 <= n < |s.sessions| ==> s'.sessions[n].nextStream >= s.sessions[n].nextStream
    requires |s'.conns| >= |s.conns|
    requires forall j :: 0 <= j < |s.conns| && HoldsStream(s.conns[j]) ==> Holds(s'.conns[j], s.conns[j].phase.id)
    ensures StreamsOk(s')
  {
  }

  lemma KeepsOwner(s: State, s': State, k: StreamId)
    requires Owned(s, k) && |s'.conns| >= |s.conns|
    requires forall j :: 0 <= j < |s.conns| && HoldsStream(s.conns[j]) ==> Holds(s'.conns[j], s.conns[j].phase.id)
    ensures Owned(s', k)
  {
  }

  // A connection without a stream changes, and perhaps the session variable and the list of sessions.
  lemma PhaseUpdate(s: State, i: nat, c: Conn, variable: Option<nat>, more: seq<Session>)
    requires Inv(s) && i < |s.conns| && !HoldsStream(s.conns[i]) && !HoldsStream(c)
    requires var s' := s.(quicSession := variable, sessions := s.sessions + more, conns := s.conns[i := c]);
             ConnOk(s', c) && SessionKnown(s', variable)
    ensures Inv(s.(quicSession := variable, sessions := s.sessions + more, conns := s.conns[i := c]))
  {
    hide LinkInv, ConnOk;
    var s' := s.(quicSession := variable, sessions := s.sessions + more, conns := s.conns[i := c]);
    forall j | 0 <= j < |s'.conns|
      ensures ConnOk(s', s'.conns[j])
    {
      if j != i {
        StreamOfConnOk(s, s.conns[j]);
        FrameConn(s, s', s.conns[j]);
      }
    }
    KeepsStreams(s, s');
  }

  lemma StreamOfConnOk(s: State, c: Conn)
    requires Inv(s) && ConnOk(s, c)
    ensures HoldsStream(c) ==> c.phase.id in s.streams && StreamOk(s, c.phase.id)
  {
  }

  lemma OpenKeeps(s: State, i: nat, n: nat)
    requires Inv(s) && i < |s.conns| && !HoldsStream(s.conns[i]) && n < |s.sessions|
    ensures Inv(OpenOn(s, i, n))
  {
    hide LinkInv, ConnOk;
    var k := StreamId(n, s.sessions[n].nextStream);
    assert k !in s.streams by {
      assert k in s.streams ==> StreamOk(s, k);
    }
    OpenKeepsConns(s, i, n);
    OpenKeepsStreams(s, i, n);
  }

  lemma OpenKeepsStreams(s: State, i: nat, n: nat)
    requires StreamsOk(s) && i < |s.conns| && !HoldsStream(s.conns[i]) && n < |s.sessions|
    ensures StreamsOk(OpenOn(s, i, n))
  {
    var k := StreamId(n, s.sessions[n].nextStream);
    var s' := OpenOn(s, i, n);
    assert Holds(s'.conns[i], k);
    forall k' | k' in s'.streams
      ensures StreamOk(s', k') && Owned(s', k')
    {
      if k' != k {
        assert k' in s.streams && StreamOk(s, k');
        KeepsOwner(s, s', k');
      }
    }
  }

  lemma OpenKeepsConns(s: State, i: nat, n: nat)
    requires Inv(s) && i < |s.conns| && !HoldsStream(s.conns[i]) && n < |s.sessions|
    requires StreamId(n, s.sessions[n].nextStream) !in s.streams
    ensures ConnsOk(OpenOn(s, i, n)) && Disjoint(OpenOn(s, i, n))
  {
    hide LinkInv;
    var k := StreamId(n, s.sessions[n].nextStream);
    var s' := OpenOn(s, i, n);
    forall j | 0 <= j < |s.conns|
      ensures ConnOk(s', s'.conns[j])
      ensures j != i && HoldsStream(s'.conns[j]) ==> s'.conns[j].phase.id != k
    {
      assert ConnOk(s, s.conns[j]);
      if j == i {
        NewLink(s'.conns[i], Alive(s', k));
      } else {
        assert s'.conns[j] == s.conns[j];
      }
    }
  }

  lemma CrashKeeps(s: State)
    requires Inv(s)
    ensures Inv(s.(crashed := true))
  {
    hide LinkInv;
    KeepsStreams(s, s.(crashed := true));
  }

  lemma EstablishKeeps(cfg: Config, s: State, i: nat, a: Action)
    requires Inv(s) && i < |s.conns| && Establish(cfg, s, i, a).Some?
    ensures Inv(Establish(cfg, s, i, a).value)
  {
    if a.TryOpen? || a.OpenNew? {
      OpenAttemptKeeps(cfg, s, i, a);
    } else {
      DiallingKeeps(cfg, s, i, a);
    }
  }

  lemma OpenAttemptKeeps(cfg: Config, s: State, i: nat, a: Action)
    requires Inv(s) && i < |s.conns| && (a.TryOpen? || a.OpenNew?)
    requires Establish(cfg, s, i, a).Some?
    ensures Inv(Establish(cfg, s, i, a).value)
  {
    hide LinkInv;
    if s.quicSession.None? {
      CrashKeeps(s);
    } else if a.ok {
      OpenKeeps(s, i, s.quicSession.value);
    } else {
      assert ConnOk(s, s.conns[i]);
      var s' := Establish(cfg, s, i, a).value;
      PhaseUpdate(s, i, s'.conns[i], s.quicSession, []);
      assert s.sessions + [] == s.sessions;
    }
  }

  // The dialling steps change one connection's phase, count its dials and close its socket; no copier has run.
  lemma DiallingConn(cfg: Config, s: State, i: nat, a: Action)
    requires i < |s.conns| && (a.CheckSession? || a.DialAttempt? || a.AssignSession?)
    requires Establish(cfg, s, i, a).Some? && SessionKnown(s, s.quicSession) && ConnOk(s, s.conns[i])
    ensures var s' := Establish(cfg, s, i, a).value;
            && s.sessions <= s'.sessions
            && |s'.conns| == |s.conns|
            && s' == s.(quicSession := s'.quicSession, sessions := s'.sessions, conns := s.conns[i := s'.conns[i]])
            && !HoldsStream(s.conns[i]) && !HoldsStream(s'.conns[i])
            && ConnOk(s', s'.conns[i]) && SessionKnown(s', s'.quicSession)
  {
    hide LinkOk;
  }

  lemma DiallingKeeps(cfg: Config, s: State, i: nat, a: Action)
    requires Inv(s) && i < |s.conns| && (a.CheckSession? || a.DialAttempt? || a.AssignSession?)
    requires Establish(cfg, s, i, a).Some?
    ensures Inv(Establish(cfg, s, i, a).value)
  {
    hide ConnOk, StreamsOk, Disjoint, Establish;
    var s' := Establish(cfg, s, i, a).value;
    DiallingConn(cfg, s, i, a);
    var more := s'.sessions[|s.sessions|..];
    assert s.sessions + more == s'.sessions;
    PhaseUpdate(s, i, s'.conns[i], s'.quicSession, more);
  }

  lemma ClientKeeps(s: State, i: nat, act: ClientAct, cfg: Config)
    requires Inv(s) && Step(cfg, s, OnClient(i, act)).Some?
    ensures Inv(Step(cfg, s, OnClient(i, act)).value)
  {
    hide LinkInv;
    var c := s.conns[i];
    assert ConnOk(s, c);
    var k := c.phase.id;
    var (c', ch') := ClientStep(c, s.streams[k], Alive(s, k), act).value;
    ClientKeepsLink(c, s.streams[k], s.handlers[k], Alive(s, k), act);
    LinkUpdate(s, i, c', ch', s.handlers[k]);
    assert s.handlers[k := s.handlers[k]] == s.handlers;
  }

  // A change at the server or in the network is a change to the link of the connection that owns the stream.
  lemma StreamUpdate(s: State, k: StreamId, ch: Channel, h: Handler)
    requires Inv(s) && k in s.streams
    requires forall c :: Holds(c, k) && LinkOk(s, c) ==> LinkInv(c, ch, h, Alive(s, k))
    ensures Inv(s.(streams := s.streams[k := ch], handlers := s.handlers[k := h]))
  {
    hide LinkInv;
    assert Owned(s, k);
    var i :| 0 <= i < |s.conns| && Holds(s.conns[i], k);
    assert ConnOk(s, s.conns[i]);
    LinkUpdate(s, i, s.conns[i], ch, h);
    assert s.conns[i := s.conns[i]] == s.conns;
  }

  lemma ServerKeeps(s: State, k: StreamId, act: ServerAct, cfg: Config)
    requires Inv(s) && Step(cfg, s, OnServer(k, act)).Some?
    ensures Inv(Step(cfg, s, OnServer(k, act)).value)
  {
    hide LinkInv, ConnOk, StreamsOk, Disjoint, ConnsOk;
    var (h', ch') := ServerStep(s.handlers[k], s.streams[k], Alive(s, k), act).value;
    forall c | Holds(c, k) && LinkOk(s, c)
      ensures LinkInv(c, ch', h', Alive(s, k))
    {
      ServerKeepsLink(c, s.streams[k], s.handlers[k], Alive(s, k), act);
    }
    StreamUpdate(s, k, ch', h');
  }

  lemma NetworkKeeps(s: State, k: StreamId, dir: Direction, act: NetAct, cfg: Config)
    requires Inv(s) && Step(cfg, s, OnNetwork(k, dir, act)).Some?
    ensures Inv(Step(cfg, s, OnNetwork(k, dir, act)).value)
  {
    hide LinkInv, ConnOk, StreamsOk, Disjoint, ConnsOk;
    var ch' := NetStep(s.streams[k], Alive(s, k), dir, act).value;
    forall c | Holds(c, k) && LinkOk(s, c)
      ensures LinkInv(c, ch', s.handlers[k], Alive(s, k))
    {
      NetworkKeepsLink(c, s.streams[k], s.handlers[k], Alive(s, k), dir, act);
    }
    StreamUpdate(s, k, ch', s.handlers[k]);
    assert s.handlers[k := s.handlers[k]] == s.handlers;
  }

  lemma ClientPeerKeeps(s: State, i: nat, act: PeerAct, cfg: Config)
    requires Inv(s) && Step(cfg, s, ClientPeer(i, act)).Some?
    ensures Inv(Step(cfg, s, ClientPeer(i, act)).value)
  {
    hide LinkInv, ConnOk, StreamsOk, Disjoint, Peer;
    var s' := Step(cfg, s, ClientPeer(i, act)).value;
    var c := s.conns[i];
    if HoldsStream(c) {
      var k := c.phase.id;
      ConnHasStream(s, c);
      ClientPeerKeepsLink(c, s.streams[k], s.handlers[k], Alive(s, k), act);
      LinkUpdate(s, i, s'.conns[i], s.streams[k], s.handlers[k]);
      assert s.streams[k := s.streams[k]] == s.streams && s.handlers[k := s.handlers[k]] == s.handlers;
    } else {
      PeerKeepsUntouched(s, c, act);
      PhaseUpdate(s, i, s'.conns[i], s.quicSession, []);
      assert s.sessions + [] == s.sessions;
    }
  }

  lemma PeerKeepsUntouched(s: State, c: Conn, act: PeerAct)
    requires ConnOk(s, c) && !HoldsStream(c) && Peer(c.end.tcp, act).Some?
    ensures forall s': State :: |s'.sessions| >= |s.sessions| ==>
        ConnOk(s', c.(end := c.end.(tcp := Peer(c.end.tcp, act).value)))
  {
  }

  lemma ServerPeerKeeps(s: State, k: StreamId, act: PeerAct, cfg: Config)
    requires Inv(s) && Step(cfg, s, ServerPeer(k, act)).Some?
    ensures Inv(Step(cfg, s, ServerPeer(k, act)).value)
  {
    hide LinkInv, ConnOk, StreamsOk, Disjoint, ConnsOk, Peer;
    var h' := Step(cfg, s, ServerPeer(k, act)).value.handlers[k];
    assert k in s.streams;
    forall c | Holds(c, k) && LinkOk(s, c)
      ensures LinkInv(c, s.streams[k], h', Alive(s, k))
    {
      ServerPeerKeepsLink(c, s.streams[k], s.handlers[k], Alive(s, k), act);
    }
    StreamUpdate(s, k, s.streams[k], h');
    assert s.streams[k := s.streams[k]] == s.streams;
  }

  lemma DeathKeeps(s: State, n: nat, cfg: Config)
    requires Inv(s) && Step(cfg, s, SessionDies(n)).Some?
    ensures Inv(Step(cfg, s, SessionDies(n)).value)
  {
    hide LinkInv;
    var s' := Step(cfg, s, SessionDies(n)).value;
    forall j | 0 <= j < |s'.conns|
      ensures ConnOk(s', s'.conns[j])
    {
      var c := s.conns[j];
      assert ConnOk(s, c);
      if HoldsStream(c) && c.phase.id.session == n {
        DeathKeepsLink(c, s.streams[c.phase.id], s.handlers[c.phase.id]);
      }
    }
    KeepsStreams(s, s');
  }

  lemma AcceptKeeps(s: State, source: Addr, dest: Addr, cfg: Config)
    requires Inv(s) && Step(cfg, s, Accept(source, dest)).Some?
    ensures Inv(Step(cfg, s, Accept(source, dest)).value)
  {
    hide LinkInv, ConnOk, StreamsOk;
    var s' := Step(cfg, s, Accept(source, dest)).value;
    forall j | 0 <= j < |s'.conns|
      ensures ConnOk(s', s'.conns[j])
    {
      if j < |s.conns| {
        FrameConn(s, s', s.conns[j]);
      } else {
        NewConnOk(s', source, dest);
      }
    }
    KeepsStreams(s, s');
  }

  lemma NewConnOk(s: State, source: Addr, dest: Addr)
    requires ValidAddr(source) && ValidAddr(dest)
    ensures ConnOk(s, NewConn(source, dest))
  {
  }

  /** Every action keeps the invariant. */
  lemma StepKeepsInv(cfg: Config, s: State, a: Action)
    requires Inv(s) && Step(cfg, s, a).Some?
    ensures Inv(Step(cfg, s, a).value)
  {
    match a {
      case Accept(source, dest) => AcceptKeeps(s, source, dest, cfg);
      case OnClient(i, act) => ClientKeeps(s, i, act, cfg);
      case OnServer(k, act) => ServerKeeps(s, k, act, cfg);
      case OnNetwork(k, dir, act) => NetworkKeeps(s, k, dir, act, cfg);
      case ClientPeer(i, act) => ClientPeerKeeps(s, i, act, cfg);
      case ServerPeer(k, act) => ServerPeerKeeps(s, k, act, cfg);
      case SessionDies(n) => DeathKeeps(s, n, cfg);
      case _ => EstablishKeeps(cfg, s, a.i, a);
    }
  }

  lemma {:induction false} ReachableInv(cfg: Config, acts: seq<Action>)
    requires Exec(cfg, acts).Some?
    ensures Inv(Exec(cfg, acts).value)
  {
    if acts != [] {
      var before := acts[..|acts| - 1];
      ReachableInv(cfg, before);
      StepKeepsInv(cfg, Exec(cfg, before).value, acts[|acts| - 1]);
    }
  }

  // A run grows by one action.
  lemma Do(cfg: Config, acts: seq<Action>, s: State, a: Action) returns (acts': seq<Action>, s': State)
    requires Exec(cfg, acts) == Some(s) && Step(cfg, s, a).Some?
    ensures acts' == acts + [a] && s' == Step(cfg, s, a).value && Exec(cfg, acts') == Some(s')
  {
    acts', s' := acts + [a], Step(cfg, s, a).value;
    assert acts'[..|acts'| - 1] == acts;
  }
}
