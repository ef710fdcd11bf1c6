/** One client goroutine setting its connection up without interruption, as the code of handleTCPConn runs. */
module SetUp {
  import opened Basics
  import opened Header
  import opened Relay
  import opened Link
  import opened Tunnel
  import opened Dialling

  /** What the world answers: does the existing session give a stream, does dial k succeed, does the new session
      give a stream. A dead session never does. */
  datatype World = World(openOk: bool, dial: nat -> bool, syncOk: bool)

  predicate Opens(s: State, ok: bool) {
    ok && s.quicSession.Some? && CanOpen(s, s.quicSession.value)
  }

  // What goroutine i does next: the loop of openQuicSession, or one atomic step.
  function NextStage(cfg: Config, s: State, i: nat, w: World): Option<State>
    requires i < |s.conns| && Establishing(s.conns[i])
  {
    match s.conns[i].phase
    case Checking => Establish(cfg, s, i, CheckSession(i))
    case TryingOpen => Establish(cfg, s, i, TryOpen(i, Opens(s, w.openOk)))
    case Dialling(_) => DialThrough(cfg, s, i, w.dial)
    case Assigning(_, _) => Establish(cfg, s, i, AssignSession(i))
    case Opening => Establish(cfg, s, i, OpenNew(i, Opens(s, w.syncOk)))
  }

  function StagesLeft(p: Phase): nat {
    match p
    case Checking => 5
    case TryingOpen => 4
    case Dialling(_) => 3
    case Assigning(_, _) => 2
    case Opening => 1
    case _ => 0
  }

  // The tunnel's atomic steps of goroutine i, one after the other, until it has a stream, is dropped or crashes.
  function AloneFrom(cfg: Config, s: State, i: nat, w: World): Option<State>
    decreases if i < |s.conns| then StagesLeft(s.conns[i].phase) else 0
  {
    if i >= |s.conns| then None
    else if s.crashed || !Establishing(s.conns[i]) then Some(s)
    else
      var next := NextStage(cfg, s, i, w);
      if next.None? || next.value.crashed then next else AloneFrom(cfg, next.value, i, w)
  }

  lemma AloneStep(cfg: Config, s: State, i: nat, w: World, next: State)
    requires i < |s.conns| && !s.crashed && Establishing(s.conns[i]) && NextStage(cfg, s, i, w) == Some(next)
    ensures AloneFrom(cfg, s, i, w) == if next.crashed then Some(next) else AloneFrom(cfg, next, i, w)
  {
  }

  lemma AloneStops(cfg: Config, s: State, i: nat, w: World)
    requires i < |s.conns| && !Establishing(s.conns[i])
    ensures AloneFrom(cfg, s, i, w) == Some(s)
  {
  }

  // What follows when no stream could be opened on an existing session: dial, assign, open.
  function AfterDial(cfg: Config, s: State, i: nat, w: World): State
    requires i < |s.conns|
  {
    var c := s.conns[i].(dials := s.conns[i].dials + Attempts(w.dial, 0, cfg.retries));
    if Succeeds(w.dial, 0, cfg.retries) then
      var n := |s.sessions|;
      var s' := s.(quicSession := Some(n), sessions := s.sessions + [Session(true, 0)],
                   conns := s.conns[i := c.(phase := Opening)]);
      if w.syncOk then OpenOn(s', i, n) else Drop(s', i, false)
    else if cfg.retries > 0 then Drop(s.(quicSession := None, conns := s.conns[i := c]), i, true)
    else s.(quicSession := None, conns := s.conns[i := c.(phase := Opening)], crashed := true)
  }

  // All of the set-up, from the test of quicSession on.
  function Outcome(cfg: Config, s: State, i: nat, w: World): State
    requires i < |s.conns|
  {
    if cfg.multiStream && Opens(s, w.openOk) then OpenOn(s, i, s.quicSession.value) else AfterDial(cfg, s, i, w)
  }

  // The new session has been dialled: assign it and open a stream on it.
  lemma AloneOpens(cfg: Config, s: State, i: nat, w: World)
    requires i < |s.conns| && !s.crashed && s.sessions != []
    requires var n: nat := |s.sessions| - 1;
             s.conns[i].phase == Assigning(Some(n), false) && s.sessions[n] == Session(true, 0)
    ensures var n: nat := |s.sessions| - 1;
            var s' := SetPhase(s, i, Opening).(quicSession := Some(n));
            AloneFrom(cfg, s, i, w) == Some(if w.syncOk then OpenOn(s', i, n) else Drop(s', i, false))
  {
    hide AloneFrom;
    var n: nat := |s.sessions| - 1;
    var s' := SetPhase(s, i, Opening).(quicSession := Some(n));
    AloneStep(cfg, s, i, w, s');
    var end := if w.syncOk then OpenOn(s', i, n) else Drop(s', i, false);
    AloneStep(cfg, s', i, w, end);
    AloneStops(cfg, end, i, w);
  }

  // No session could be dialled: nil is assigned, and with no retries there is not even an error to stop at.
  lemma AloneFails(cfg: Config, s: State, i: nat, w: World, failed: bool)
    requires i < |s.conns| && !s.crashed && s.conns[i].phase == Assigning(None, failed)
    ensures AloneFrom(cfg, s, i, w)
         == Some(if failed then Drop(s.(quicSession := None), i, true)
                 else SetPhase(s, i, Opening).(quicSession := None, crashed := true))
  {
    hide AloneFrom;
    if failed {
      AloneStep(cfg, s, i, w, Drop(s.(quicSession := None), i, true));
      AloneStops(cfg, Drop(s.(quicSession := None), i, true), i, w);
    } else {
      var s' := SetPhase(s, i, Opening).(quicSession := None);
      AloneStep(cfg, s, i, w, s');
      AloneStep(cfg, s', i, w, s'.(crashed := true));
    }
  }

  lemma AloneAfterDial(cfg: Config, s: State, i: nat, w: World)
    requires i < |s.conns| && !s.crashed && s.conns[i].phase == EnterDial(cfg)
    ensures AloneFrom(cfg, s, i, w) == Some(AfterDial(cfg, s, i, w))
  {
    hide AloneFrom;
    if cfg.retries > 0 {
      var d := Dialled(cfg, s, i, w.dial);
      DialThroughMeaning(cfg, s, i, w.dial);
      AloneStep(cfg, s, i, w, d);
      if Succeeds(w.dial, 0, cfg.retries) {
        AloneOpens(cfg, d, i, w);
      } else {
        AloneFails(cfg, d, i, w, true);
      }
      assert AloneFrom(cfg, s, i, w).value.conns == AfterDial(cfg, s, i, w).conns;
    } else {
      AloneFails(cfg, s, i, w, false);
      assert AloneFrom(cfg, s, i, w).value.conns == AfterDial(cfg, s, i, w).conns;
    }
  }

  /** Left alone, a goroutine's atomic steps amount to the outcome of the code read from top to bottom. */
  lemma AloneIsSequential(cfg: Config, s: State, i: nat, w: World)
    requires i < |s.conns| && !s.crashed && s.conns[i].phase.Checking?
    ensures AloneFrom(cfg, s, i, w) == Some(Outcome(cfg, s, i, w))
  {
    hide AloneFrom;
    if cfg.multiStream && s.quicSession.Some? {
      var trying := SetPhase(s, i, TryingOpen);
      AloneStep(cfg, s, i, w, trying);
      if Opens(s, w.openOk) {
        var end := OpenOn(trying, i, s.quicSession.value);
        AloneStep(cfg, trying, i, w, end);
        AloneStops(cfg, end, i, w);
        assert end.conns == Outcome(cfg, s, i, w).conns;
      } else {
        AloneStep(cfg, trying, i, w, SetPhase(trying, i, EnterDial(cfg)));
        AloneAfterDial(cfg, SetPhase(trying, i, EnterDial(cfg)), i, w);
        SamePath(cfg, s, SetPhase(trying, i, EnterDial(cfg)), i, w);
      }
    } else {
      AloneStep(cfg, s, i, w, SetPhase(s, i, EnterDial(cfg)));
      AloneAfterDial(cfg, SetPhase(s, i, EnterDial(cfg)), i, w);
      SamePath(cfg, s, SetPhase(s, i, EnterDial(cfg)), i, w);
    }
  }

  // The dialling half does not depend on the phase the goroutine came from.
  lemma SamePath(cfg: Config, s: State, s': State, i: nat, w: World)
    requires i < |s.conns| && |s'.conns| == |s.conns|
    requires s' == s.(conns := s'.conns) && s'.conns == s.conns[i := s.conns[i].(phase := s'.conns[i].phase)]
    ensures AfterDial(cfg, s, i, w) == AfterDial(cfg, s', i, w)
  {
    assert AfterDial(cfg, s, i, w).conns == AfterDial(cfg, s', i, w).conns;
  }

  /** A goroutine that is left alone dereferences nil only when it has to dial and no dial is configured. */
  lemma AlonePanicsIff(cfg: Config, s: State, i: nat, w: World)
    requires i < |s.conns| && !s.crashed && s.conns[i].phase.Checking?
    ensures AloneFrom(cfg, s, i, w).Some?
    ensures AloneFrom(cfg, s, i, w).value.crashed <==> cfg.retries == 0 && !(cfg.multiStream && Opens(s, w.openOk))
  {
    hide AloneFrom;
    AloneIsSequential(cfg, s, i, w);
  }

  class Client {
    const cfg: Config
    var quicSession: Option<nat>
    var sessions: seq<Session>
    var conns: seq<Conn>
    var streams: map<StreamId, Channel>
    var handlers: map<StreamId, Handler>
    var crashed: bool

    function View(): State
      reads this
    {
      State(quicSession, sessions, conns, streams, handlers, crashed)
    }

    constructor (cfg: Config)
      ensures this.cfg == cfg && View() == INIT
    {
      this.cfg := cfg;
      quicSession, sessions, conns, streams, handlers, crashed := None, [], [], map[], map[], false;
    }

    /** openQuicSession for connection i. */
    method OpenQuicSession(i: nat, dial: nat -> bool) returns (session: Option<nat>, failed: bool)
      requires i < |conns|
      modifies this`sessions, this`conns
      ensures conns == old(conns)[i := old(conns)[i].(dials := old(conns)[i].dials + Attempts(dial, 0, cfg.retries))]
      ensures Succeeds(dial, 0, cfg.retries) ==>
                session == Some(|old(sessions)|) && !failed && sessions == old(sessions) + [Session(true, 0)]
      ensures !Succeeds(dial, 0, cfg.retries) ==>
                session == None && failed == (cfg.retries > 0) && sessions == old(sessions)
    {
      failed := false;
      for attempt := 0 to cfg.retries
        invariant forall j :: 0 <= j < attempt ==> !dial(j)
        invariant |conns| == |old(conns)| &&
            conns == old(conns)[i := old(conns)[i].(dials := old(conns)[i].dials + attempt)]
        invariant Attempts(dial, 0, cfg.retries) == attempt + Attempts(dial, attempt, cfg.retries)
        invariant sessions == old(sessions) && failed == (attempt > 0)
      {
        conns := conns[i := conns[i].(dials := conns[i].dials + 1)];
        failed := !dial(attempt);
        if !failed {
          sessions := sessions + [Session(true, 0)];
          return Some(|sessions| - 1), false;
        }
      }
      session := None;
    }

    // OpenStream on session n for connection i: the session's next stream.
    method OpenStream(i: nat, n: nat, ok: bool) returns (id: Option<StreamId>)
      requires i < |conns| && n < |sessions|
      modifies this`sessions, this`streams, this`handlers
      ensures var able := ok && old(sessions)[n].alive;
              && (!able ==>
                    && id == None && sessions == old(sessions)
                    && streams == old(streams) && handlers == old(handlers))
              && (able ==> id.Some? && SetPhase(View(), i, Opened(id.value)) == OpenOn(old(View()), i, n))
    {
      id := None;
      if ok && sessions[n].alive {
        var k := StreamId(n, sessions[n].nextStream);
        sessions := sessions[n := sessions[n].(nextStream := sessions[n].nextStream + 1)];
        streams := streams[k := NEW_CHANNEL];
        handlers := handlers[k := NEW_HANDLER];
        id := Some(k);
      }
    }

    method DropConn(i: nat, exhausted: bool)
      requires i < |conns|
      modifies this`conns
      ensures View() == Drop(old(View()), i, exhausted)
    {
      var c := conns[i];
      conns := conns[i := c.(phase := Dropped(exhausted), end := c.end.(tcp := c.end.tcp.(closed := true)))];
    }

    // A new session, stored in the shared variable, and a stream on it.
    method OpenOnNewSession(i: nat, w: World)
      requires i < |conns| && !crashed
      modifies this
      ensures View() == AfterDial(cfg, old(View()), i, w)
    {
      var err;
      quicSession, err := OpenQuicSession(i, w.dial);
      if err {
        DropConn(i, true);
        return;
      }
      conns := conns[i := conns[i].(phase := Opening)];
      assert conns == old(conns)[i := conns[i]];
      if quicSession.None? {
        crashed := true;
        return;
      }
      var quicStream := OpenStream(i, quicSession.value, w.syncOk);
      if quicStream.None? {
        DropConn(i, false);
        return;
      }
      conns := conns[i := conns[i].(phase := Opened(quicStream.value))];
    }

    /** handleTCPConn up to the point where it has a stream: exactly what its atomic steps do when nothing
        interleaves with them. */
    method HandleTCPConn(i: nat, w: World)
      requires i < |conns| && conns[i].phase.Checking? && !crashed && SessionKnown(View(), quicSession)
      modifies this
      ensures View() == Outcome(cfg, old(View()), i, w)
      ensures AloneFrom(cfg, old(View()), i, w) == Some(View())
    {
      hide AloneFrom, AfterDial;
      AloneIsSequential(cfg, View(), i, w);
      var quicStream: Option<StreamId> := None;
      if cfg.multiStream {
        if quicSession.Some? {
          quicStream := OpenStream(i, quicSession.value, w.openOk);
        }
      }
      if quicStream.None? {
        OpenOnNewSession(i, w);
      } else {
        conns := conns[i := conns[i].(phase := Opened(quicStream.value))];
      }
    }
  }
}
