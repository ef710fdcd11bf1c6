/** Getting a session: the retry loop, how many dials a run makes, when one session serves every connection,
    and when the client dereferences a nil session. */
module Dialling {
  import opened Basics
  import opened Header
  import opened Relay
  import opened Link
  import opened Tunnel

  // ---- the loop of openQuicSession ----

  // Attempts numbered from `attempt` on, up to and including the first that succeeds.
  function Attempts(dial: nat -> bool, attempt: nat, retries: nat): (n: nat)
    ensures attempt <= retries ==> attempt + n <= retries
    decreases retries - attempt
  {
    if attempt >= retries then 0
    else if dial(attempt) then 1
    else 1 + Attempts(dial, attempt + 1, retries)
  }

  predicate Succeeds(dial: nat -> bool, attempt: nat, retries: nat) {
    exists i :: attempt <= i < retries && dial(i)
  }

  lemma {:induction false} AttemptsMeaning(dial: nat -> bool, attempt: nat, retries: nat)
    requires attempt <= retries
    ensures var n := Attempts(dial, attempt, retries);
            && (forall i :: attempt <= i < attempt + n - 1 ==> !dial(i))
            && (Succeeds(dial, attempt, retries) ==> n > 0 && dial(attempt + n - 1))
            && (!Succeeds(dial, attempt, retries) ==> n == retries - attempt)
    decreases retries - attempt
  {
    if attempt < retries && !dial(attempt) {
      AttemptsMeaning(dial, attempt + 1, retries);
      assert Succeeds(dial, attempt, retries) <==> Succeeds(dial, attempt + 1, retries);
    }
  }

  // The loop as steps of the tunnel: dial until the goroutine leaves openQuicSession.
  function DialThrough(cfg: Config, s: State, i: nat, dial: nat -> bool): (r: Option<State>)
    requires i < |s.conns| && s.conns[i].phase.Dialling?
    ensures r.Some? ==>
              |r.value.conns| == |s.conns| && r.value.conns[i].phase.Assigning? && r.value.crashed == s.crashed
    decreases cfg.retries - s.conns[i].phase.attempt
  {
    var s' := Establish(cfg, s, i, DialAttempt(i, dial(s.conns[i].phase.attempt)));
    if s'.None? then None
    else if s'.value.conns[i].phase.Dialling? then DialThrough(cfg, s'.value, i, dial)
    else s'
  }

  // The state in which the goroutine leaves openQuicSession.
  ghost function Dialled(cfg: Config, s: State, i: nat, dial: nat -> bool): State
    requires i < |s.conns| && s.conns[i].phase.Dialling?
  {
    var attempt := s.conns[i].phase.attempt;
    var c := s.conns[i].(dials := s.conns[i].dials + Attempts(dial, attempt, cfg.retries));
    if Succeeds(dial, attempt, cfg.retries)
    then SetConn(s, i, c.(phase := Assigning(Some(|s.sessions|), false))).(sessions := s.sessions + [Session(true, 0)])
    else SetConn(s, i, c.(phase := Assigning(None, true)))
  }

  /** The tunnel's dialling steps have the outcome of that loop. */
  lemma {:induction false} DialThroughMeaning(cfg: Config, s: State, i: nat, dial: nat -> bool)
    requires i < |s.conns| && s.conns[i].phase.Dialling? && s.conns[i].phase.attempt < cfg.retries
    ensures DialThrough(cfg, s, i, dial) == Some(Dialled(cfg, s, i, dial))
    decreases cfg.retries - s.conns[i].phase.attempt
  {
    var attempt := s.conns[i].phase.attempt;
    if !dial(attempt) {
      assert Succeeds(dial, attempt, cfg.retries) <==> Succeeds(dial, attempt + 1, cfg.retries);
      if attempt + 1 < cfg.retries {
        var s' := Establish(cfg, s, i, DialAttempt(i, false)).value;
        DialThroughMeaning(cfg, s', i, dial);
        assert Dialled(cfg, s, i, dial).conns == Dialled(cfg, s', i, dial).conns;
      }
    }
  }

  // ---- dials made in any run ----

  predicate GaveUp(c: Conn) {
    c.phase == Dropped(true)
  }

  predicate Dereferencing(c: Conn) {
    c.phase.TryingOpen? || c.phase.Opening?
  }

  predicate DialsOk(cfg: Config, c: Conn) {
    && c.dials <= cfg.retries
    && (c.phase.Checking? || c.phase.TryingOpen? ==> c.dials == 0)
    && (c.phase.Dialling? ==> c.dials == c.phase.attempt < cfg.retries)
    && (c.phase.Assigning? ==> if c.phase.session.Some? then !c.phase.failed && c.dials > 0
                               else c.phase.failed == (cfg.retries > 0) && c.dials == cfg.retries)
    && (GaveUp(c) ==> c.dials == cfg.retries > 0)
    && (c.phase.Opening? || c.phase.Dropped? ==> cfg.retries > 0 ==> c.dials > 0)
  }

  ghost predicate SomeGaveUp(s: State) {
    exists j :: 0 <= j < |s.conns| && GaveUp(s.conns[j])
  }

  ghost predicate DialInv(cfg: Config, s: State) {
    && (forall i :: 0 <= i < |s.conns| ==> DialsOk(cfg, s.conns[i]))
    && (cfg.retries > 0 && !SomeGaveUp(s) ==>
          !s.crashed && (s.quicSession.None? ==> forall i :: 0 <= i < |s.conns| ==> !Dereferencing(s.conns[i])))
  }

  predicate IsEstablish(a: Action) {
    a.CheckSession? || a.TryOpen? || a.DialAttempt? || a.AssignSession? || a.OpenNew?
  }

  // Whatever else happens, the set-up of the connections stays as it is.
  lemma OtherStepFrame(cfg: Config, s: State, a: Action)
    requires !a.Accept? && !IsEstablish(a) && Step(cfg, s, a).Some?
    ensures var s' := Step(cfg, s, a).value;
            && s'.quicSession == s.quicSession && |s'.sessions| == |s.sessions| && s'.crashed == s.crashed
            && |s'.conns| == |s.conns|
            && (forall i :: 0 <= i < |s.conns| ==>
                  && s'.conns[i].dials == s.conns[i].dials
                  && (s'.conns[i].phase == s.conns[i].phase || (HoldsStream(s'.conns[i]) && HoldsStream(s.conns[i]))))
  {
  }

  // A step of one goroutine towards its stream, as far as dials and the session variable go.
  predicate DialEffect(cfg: Config, s: State, i: nat, s': State)
    requires i < |s.conns| == |s'.conns|
  {
    && s'.conns == s.conns[i := s'.conns[i]] && DialsOk(cfg, s'.conns[i]) && !GaveUp(s.conns[i])
    && (s'.crashed ==> s.crashed || (s.quicSession.None? && Dereferencing(s.conns[i])))
    && (s'.quicSession != s.quicSession ==> s'.quicSession.Some? || cfg.retries == 0 || GaveUp(s'.conns[i]))
    && (Dereferencing(s'.conns[i]) && !Dereferencing(s.conns[i]) && s'.quicSession.None? ==> cfg.retries == 0)
  }

  lemma OpeningEffect(cfg: Config, s: State, i: nat, a: Action)
    requires i < |s.conns| && DialsOk(cfg, s.conns[i]) && Establish(cfg, s, i, a).Some? && (a.TryOpen? || a.OpenNew?)
    ensures |Establish(cfg, s, i, a).value.conns| == |s.conns| && DialEffect(cfg, s, i, Establish(cfg, s, i, a).value)
  {
  }

  lemma DiallingEffect(cfg: Config, s: State, i: nat, a: Action)
    requires i < |s.conns| && DialsOk(cfg, s.conns[i]) && Establish(cfg, s, i, a).Some? && !a.TryOpen? && !a.OpenNew?
    ensures |Establish(cfg, s, i, a).value.conns| == |s.conns| && DialEffect(cfg, s, i, Establish(cfg, s, i, a).value)
  {
  }

  lemma EstablishKeepsDials(cfg: Config, s: State, i: nat, a: Action)
    requires DialInv(cfg, s) && i < |s.conns| && Establish(cfg, s, i, a).Some?
    ensures DialInv(cfg, Establish(cfg, s, i, a).value)
  {
    hide Establish, DialsOk;
    var s' := Establish(cfg, s, i, a).value;
    if a.TryOpen? || a.OpenNew? {
      OpeningEffect(cfg, s, i, a);
    } else {
      DiallingEffect(cfg, s, i, a);
    }
    if SomeGaveUp(s) {
      var j :| 0 <= j < |s.conns| && GaveUp(s.conns[j]);
      assert GaveUp(s'.conns[j]);
    }
    if GaveUp(s'.conns[i]) {
      assert SomeGaveUp(s');
    }
  }

  lemma StepKeepsDials(cfg: Config, s: State, a: Action)
    requires DialInv(cfg, s) && Step(cfg, s, a).Some?
    ensures DialInv(cfg, Step(cfg, s, a).value)
  {
    hide Encode, Establish, ClientStep, ServerStep, NetStep, Peer;
    if IsEstablish(a) {
      EstablishKeepsDials(cfg, s, a.i, a);
    } else {
      if !a.Accept? {
        OtherStepFrame(cfg, s, a);
      }
      var s' := Step(cfg, s, a).value;
      if SomeGaveUp(s) {
        var j :| 0 <= j < |s.conns| && GaveUp(s.conns[j]);
        assert GaveUp(s'.conns[j]);
      }
    }
  }

  lemma {:induction false} ReachableDials(cfg: Config, acts: seq<Action>)
    requires Exec(cfg, acts).Some?
    ensures DialInv(cfg, Exec(cfg, acts).value)
  {
    if acts != [] {
      ReachableDials(cfg, acts[..|acts| - 1]);
      StepKeepsDials(cfg, Exec(cfg, acts[..|acts| - 1]).value, acts[|acts| - 1]);
    }
  }

  function TotalDials(conns: seq<Conn>): nat {
    if conns == [] then 0 else conns[0].dials + TotalDials(conns[1..])
  }

  lemma {:induction false} TotalDialsBound(cfg: Config, conns: seq<Conn>)
    requires forall i :: 0 <= i < |conns| ==> conns[i].dials <= cfg.retries
    ensures TotalDials(conns) <= cfg.retries * |conns|
  {
    if conns != [] {
      TotalDialsBound(cfg, conns[1..]);
      assert cfg.retries * |conns| == cfg.retries + cfg.retries * |conns[1..]|;
    }
  }

  /** A run makes at most ConnectionRetries dials for each accepted connection, and a connection is dropped for want
      of a session only after exactly that many; no connection is dropped without a dial of its own, whatever the
      session in the shared variable refuses. */
  lemma DialAccounting(cfg: Config, acts: seq<Action>)
    requires Exec(cfg, acts).Some?
    ensures var s := Exec(cfg, acts).value;
            && TotalDials(s.conns) <= cfg.retries * |s.conns|
            && (forall i :: 0 <= i < |s.conns| ==> s.conns[i].dials <= cfg.retries)
            && (forall i :: 0 <= i < |s.conns| && GaveUp(s.conns[i]) ==> s.conns[i].dials == cfg.retries)
            && (cfg.retries > 0 ==>
                  forall i :: 0 <= i < |s.conns| && s.conns[i].phase.Dropped? ==> s.conns[i].dials > 0)
  {
    ReachableDials(cfg, acts);
    TotalDialsBound(cfg, Exec(cfg, acts).value.conns);
  }

  // ---- nil sessions ----

  predicate Establishing(c: Conn) {
    !HoldsStream(c) && !c.phase.Dropped?
  }

  predicate AtMostOneSetUp(s: State) {
    forall i, j :: 0 <= i < j < |s.conns| ==> !(Establishing(s.conns[i]) && Establishing(s.conns[j]))
  }

  // A connection is accepted only when no other is being set up.
  predicate OneAtATime(cfg: Config, acts: seq<Action>)
    requires Exec(cfg, acts).Some?
  {
    acts == [] || (
      var before := acts[..|acts| - 1];
      OneAtATime(cfg, before) && InTurn(Exec(cfg, before).value, acts[|acts| - 1]))
  }

  predicate InTurn(s: State, a: Action) {
    a.Accept? ==> forall c :: c in s.conns ==> !Establishing(c)
  }

  lemma {:induction false} OneAcceptIsInTurn(cfg: Config, acts: seq<Action>)
    requires Exec(cfg, acts).Some? && forall n :: 1 <= n < |acts| ==> !acts[n].Accept?
    ensures OneAtATime(cfg, acts)
  {
    if acts != [] {
      OneAcceptIsInTurn(cfg, acts[..|acts| - 1]);
    }
  }

  /** In any state, some next step dereferences nil exactly when a goroutine is about to use the shared variable
      and the variable is nil. */
  lemma NextStepPanicsIff(cfg: Config, s: State)
    requires !s.crashed
    ensures (exists a :: Step(cfg, s, a).Some? && Step(cfg, s, a).value.crashed)
       <==> s.quicSession.None? && exists i :: 0 <= i < |s.conns| && Dereferencing(s.conns[i])
  {
    if s.quicSession.None? && exists i :: 0 <= i < |s.conns| && Dereferencing(s.conns[i]) {
      var i :| 0 <= i < |s.conns| && Dereferencing(s.conns[i]);
      var a := if s.conns[i].phase.TryingOpen? then TryOpen(i, true) else OpenNew(i, true);
      assert Step(cfg, s, a).Some? && Step(cfg, s, a).value.crashed;
    }
    if a :| Step(cfg, s, a).Some? && Step(cfg, s, a).value.crashed {
      PanicIsADereference(cfg, s, a);
    }
  }

  lemma PanicIsADereference(cfg: Config, s: State, a: Action)
    requires !s.crashed && Step(cfg, s, a).Some? && Step(cfg, s, a).value.crashed
    ensures IsEstablish(a) && a.i < |s.conns| && Dereferencing(s.conns[a.i]) && s.quicSession.None?
  {
  }

  const SOME_CLIENT := Addr([10, 0, 0, 1], 40000)
  const SOME_DEST := Addr([192, 0, 2, 1], 80)

  // One goroutine has stored its session and is about to open a stream on it; another has failed n dials.
  function RacingState(n: nat): State {
    var winner := NewConn(SOME_CLIENT, SOME_DEST).(phase := Opening, dials := 1);
    var loser := NewConn(SOME_CLIENT, SOME_DEST).(phase := Dialling(n), dials := n);
    State(Some(0), [Session(true, 0)], [winner, loser], map[], map[], false)
  }

  function BothDialling(): State {
    var dialling := NewConn(SOME_CLIENT, SOME_DEST).(phase := Dialling(0));
    INIT.(conns := [dialling, dialling])
  }

  lemma ReachBothDialling(cfg: Config) returns (acts: seq<Action>)
    requires cfg.retries > 0
    ensures Exec(cfg, acts) == Some(BothDialling())
  {
    var r, s := Do(cfg, [], INIT, Accept(SOME_CLIENT, SOME_DEST));
    r, s := Do(cfg, r, s, Accept(SOME_CLIENT, SOME_DEST));
    r, s := Do(cfg, r, s, CheckSession(0));
    r, s := Do(cfg, r, s, CheckSession(1));
    assert s.conns == BothDialling().conns;
    acts := r;
  }

  lemma {:induction false} ReachRacingState(cfg: Config, n: nat) returns (acts: seq<Action>)
    requires n < cfg.retries
    ensures Exec(cfg, acts) == Some(RacingState(n))
  {
    hide Exec;
    if n == 0 {
      var r := ReachBothDialling(cfg);
      var s;
      r, s := Do(cfg, r, BothDialling(), DialAttempt(0, true));
      r, s := Do(cfg, r, s, AssignSession(0));
      assert s.conns == RacingState(0).conns && s.sessions == RacingState(0).sessions;
      acts := r;
    } else {
      var before := ReachRacingState(cfg, n - 1);
      var r, s := Do(cfg, before, RacingState(n - 1), DialAttempt(1, false));
      assert s.conns == RacingState(n).conns;
      acts := r;
    }
  }

  // With no dial configured one connection is enough.
  lemma PanicWithoutDials(cfg: Config) returns (acts: seq<Action>)
    requires cfg.retries == 0
    ensures Exec(cfg, acts).Some? && Exec(cfg, acts).value.crashed && OneAtATime(cfg, acts)
    ensures !SomeGaveUp(Exec(cfg, acts).value)
  {
    hide OneAtATime;
    var r, s := Do(cfg, [], INIT, Accept(SOME_CLIENT, SOME_DEST));
    r, s := Do(cfg, r, s, CheckSession(0));
    r, s := Do(cfg, r, s, AssignSession(0));
    acts, s := Do(cfg, r, s, OpenNew(0, true));
    OneAcceptIsInTurn(cfg, acts);
  }

  // With any number of retries two are: the loser's last dial fails, its assignment clears the shared variable,
  // the winner dereferences it.
  lemma PanicByOverlap(cfg: Config) returns (acts: seq<Action>)
    requires cfg.retries > 0
    ensures Exec(cfg, acts).Some? && Exec(cfg, acts).value.crashed && |Exec(cfg, acts).value.conns| == 2
  {
    var r := ReachRacingState(cfg, cfg.retries - 1);
    var s;
    r, s := Do(cfg, r, RacingState(cfg.retries - 1), DialAttempt(1, false));
    r, s := Do(cfg, r, s, AssignSession(1));
    acts, s := Do(cfg, r, s, OpenNew(0, true));
  }

  /** In every configuration some run does dereference a nil session. */
  lemma PanicIsReachable(cfg: Config) returns (acts: seq<Action>)
    ensures Exec(cfg, acts).Some? && Exec(cfg, acts).value.crashed
  {
    if cfg.retries == 0 {
      acts := PanicWithoutDials(cfg);
    } else {
      acts := PanicByOverlap(cfg);
    }
  }

  // ---- set-ups one after another ----

  // Whoever is about to use the session variable finds a session in it.
  predicate NoNilAhead(s: State) {
    && !s.crashed
    && (forall i :: 0 <= i < |s.conns| ==> s.conns[i].phase != Assigning(None, false))
    && (s.quicSession.None? ==> forall i :: 0 <= i < |s.conns| ==> !Dereferencing(s.conns[i]))
  }

  lemma MoverKeepsNoNil(cfg: Config, s: State, i: nat, a: Action)
    requires cfg.retries > 0 && NoNilAhead(s) && i < |s.conns| && Establish(cfg, s, i, a).Some?
    ensures var s' := Establish(cfg, s, i, a).value;
            && s'.conns == s.conns[i := s'.conns[i]] && Establishing(s.conns[i])
            && !s'.crashed && s'.conns[i].phase != Assigning(None, false)
            && (s'.quicSession.None? ==> !Dereferencing(s'.conns[i]))
  {
  }

  // The others are not being set up, so they are about to use nothing.
  lemma EstablishKeepsNoNil(cfg: Config, s: State, i: nat, a: Action)
    requires cfg.retries > 0 && AtMostOneSetUp(s) && NoNilAhead(s)
    requires i < |s.conns| && Establish(cfg, s, i, a).Some?
    ensures AtMostOneSetUp(Establish(cfg, s, i, a).value) && NoNilAhead(Establish(cfg, s, i, a).value)
  {
    hide Establish;
    MoverKeepsNoNil(cfg, s, i, a);
    assert forall j :: 0 <= j < |s.conns| && j != i ==> !Establishing(s.conns[j]);
  }

  lemma {:induction false} OneAtATimeKeepsNoNil(cfg: Config, acts: seq<Action>)
    requires cfg.retries > 0 && Exec(cfg, acts).Some? && OneAtATime(cfg, acts)
    ensures AtMostOneSetUp(Exec(cfg, acts).value) && NoNilAhead(Exec(cfg, acts).value)
  {
    hide Encode, Establish, ClientStep, ServerStep, NetStep, Peer;
    if acts != [] {
      var before := acts[..|acts| - 1];
      OneAtATimeKeepsNoNil(cfg, before);
      var s, a := Exec(cfg, before).value, acts[|acts| - 1];
      if IsEstablish(a) {
        EstablishKeepsNoNil(cfg, s, a.i, a);
      } else if a.Accept? {
        assert forall i :: 0 <= i < |s.conns| ==> s.conns[i] in s.conns;
      } else {
        OtherStepFrame(cfg, s, a);
      }
    }
  }

  /** With at least one retry, a run that dereferences a nil session has both set connections up at the same time and
      had one of them use up its dials: only that connection's assignment puts nil into the shared variable. */
  lemma PanicNeedsOverlapAndFailure(cfg: Config, acts: seq<Action>)
    requires cfg.retries > 0 && Exec(cfg, acts).Some? && Exec(cfg, acts).value.crashed
    ensures !OneAtATime(cfg, acts)
    ensures var s := Exec(cfg, acts).value; exists j :: 0 <= j < |s.conns| && GaveUp(s.conns[j])
  {
    ReachableDials(cfg, acts);
    assert SomeGaveUp(Exec(cfg, acts).value);
    if OneAtATime(cfg, acts) {
      OneAtATimeKeepsNoNil(cfg, acts);
    }
  }

  // A run that ends with a nil session dereferenced.
  ghost predicate Panics(cfg: Config, acts: seq<Action>) {
    Exec(cfg, acts).Some? && Exec(cfg, acts).value.crashed
  }

  /** While connections are set up one after another, whatever else goes on (copiers, the network, sessions that die,
      dials and opens that fail), some run dereferences nil exactly when no dial is configured. The same goes for
      runs in which no connection uses up its dials. */
  lemma SafeSetUpsIff(cfg: Config)
    ensures (exists acts :: Panics(cfg, acts) && OneAtATime(cfg, acts)) <==> cfg.retries == 0
    ensures (exists acts :: Panics(cfg, acts) && !SomeGaveUp(Exec(cfg, acts).value)) <==> cfg.retries == 0
  {
    if cfg.retries == 0 {
      var acts := PanicWithoutDials(cfg);
      assert Panics(cfg, acts) && OneAtATime(cfg, acts) && !SomeGaveUp(Exec(cfg, acts).value);
    } else {
      if acts :| Panics(cfg, acts) && (OneAtATime(cfg, acts) || !SomeGaveUp(Exec(cfg, acts).value)) {
        PanicNeedsOverlapAndFailure(cfg, acts);
      }
    }
  }

  /** With a retry, such a run is not even one step away from it, whatever that step is. */
  lemma OneAtATimeIsSafe(cfg: Config, acts: seq<Action>, a: Action)
    requires cfg.retries > 0 && Exec(cfg, acts).Some? && OneAtATime(cfg, acts)
    requires Step(cfg, Exec(cfg, acts).value, a).Some?
    ensures !Step(cfg, Exec(cfg, acts).value, a).value.crashed
  {
    OneAtATimeKeepsNoNil(cfg, acts);
    NextStepPanicsIff(cfg, Exec(cfg, acts).value);
  }

  // ---- one session for all ----

  // The session neither dies nor refuses streams.
  predicate Healthy(a: Action) {
    !a.SessionDies? && (a.TryOpen? ==> a.ok)
  }

  predicate OneSession(s: State) {
    && |s.sessions| <= 1
    && SessionKnown(s, s.quicSession)
    && AtMostOneSetUp(s)
    && (forall i :: 0 <= i < |s.conns| ==> SetUpOk(s, s.conns[i]))
    && (s.quicSession.None? && s.sessions != [] ==>
          exists i :: 0 <= i < |s.conns| && s.conns[i].phase == Assigning(Some(0), false))
  }

  // Nobody dials, or is about to forget the session, once a session exists.
  predicate SetUpOk(s: State, c: Conn) {
    && (c.phase.Dialling? || (c.phase.Assigning? && c.phase.session.None?) ==> s.sessions == [])
    && (c.phase.TryingOpen? ==> s.quicSession.Some?)
    && (c.phase.Assigning? && c.phase.session.Some? ==> c.phase == Assigning(Some(0), false) && s.sessions != [])
  }

  lemma StepKeepsOneSession(cfg: Config, s: State, a: Action)
    requires cfg.multiStream && OneSession(s) && InTurn(s, a) && Healthy(a) && Step(cfg, s, a).Some?
    ensures OneSession(Step(cfg, s, a).value)
  {
    hide Encode, Establish, ClientStep, ServerStep, NetStep, Peer;
    var s' := Step(cfg, s, a).value;
    if IsEstablish(a) {
      EstablishKeepsOneSession(cfg, s, a.i, a);
    } else if a.Accept? {
      assert forall i :: 0 <= i < |s.conns| ==> s.conns[i] in s.conns;
    } else {
      OtherStepFrame(cfg, s, a);
    }
  }

  lemma OnlyOneMoves(cfg: Config, s: State, i: nat, a: Action)
    requires cfg.multiStream && |s.sessions| <= 1 && SessionKnown(s, s.quicSession)
    requires Healthy(a) && i < |s.conns| && Establish(cfg, s, i, a).Some? && SetUpOk(s, s.conns[i])
    requires s.quicSession.None? && s.sessions != [] ==> s.conns[i].phase == Assigning(Some(0), false)
    ensures var s' := Establish(cfg, s, i, a).value;
            && s'.conns == s.conns[i := s'.conns[i]] && Establishing(s.conns[i])
            && |s'.sessions| <= 1 && SessionKnown(s', s'.quicSession) && SetUpOk(s', s'.conns[i])
            && (s'.quicSession.None? && s'.sessions != [] ==> s'.conns[i].phase == Assigning(Some(0), false))
  {
  }

  lemma MoverIsEstablishing(cfg: Config, s: State, i: nat, a: Action)
    requires i < |s.conns| && Establish(cfg, s, i, a).Some?
    ensures Establishing(s.conns[i])
  {
  }

  lemma EstablishKeepsOneSession(cfg: Config, s: State, i: nat, a: Action)
    requires cfg.multiStream && OneSession(s) && Healthy(a) && i < |s.conns| && Establish(cfg, s, i, a).Some?
    ensures OneSession(Establish(cfg, s, i, a).value)
  {
    hide Establish;
    MoverIsEstablishing(cfg, s, i, a);
    assert forall j :: 0 <= j < |s.conns| && j != i ==> !Establishing(s.conns[j]);
    OnlyOneMoves(cfg, s, i, a);
  }

  lemma {:induction false} HealthyKeepsOneSession(cfg: Config, acts: seq<Action>)
    requires cfg.multiStream && Exec(cfg, acts).Some? && OneAtATime(cfg, acts)
    requires forall n :: 0 <= n < |acts| ==> Healthy(acts[n])
    ensures OneSession(Exec(cfg, acts).value)
  {
    if acts != [] {
      HealthyKeepsOneSession(cfg, acts[..|acts| - 1]);
      StepKeepsOneSession(cfg, Exec(cfg, acts[..|acts| - 1]).value, acts[|acts| - 1]);
    }
  }

  /** With MultiStream, connections that are set up one after another over a healthy session all share it. */
  lemma OneSessionServesAll(cfg: Config, acts: seq<Action>)
    requires cfg.multiStream && Exec(cfg, acts).Some? && OneAtATime(cfg, acts)
    requires forall n :: 0 <= n < |acts| ==> Healthy(acts[n])
    ensures var s := Exec(cfg, acts).value;
            && |s.sessions| <= 1
            && forall i :: 0 <= i < |s.conns| && HoldsStream(s.conns[i]) ==> s.conns[i].phase.id.session == 0
  {
    hide LinkInv;
    HealthyKeepsOneSession(cfg, acts);
    ReachableInv(cfg, acts);
    var s := Exec(cfg, acts).value;
    forall i | 0 <= i < |s.conns| && HoldsStream(s.conns[i])
      ensures s.conns[i].phase.id.session == 0
    {
      assert ConnOk(s, s.conns[i]);
      StreamOfConnOk(s, s.conns[i]);
    }
  }

  /** Overlapping set-ups do not share: two connections that both find no session dial one each. */
  lemma OverlapDialsTwice(cfg: Config) returns (acts: seq<Action>)
    requires cfg.retries > 0
    ensures Exec(cfg, acts).Some? && |Exec(cfg, acts).value.sessions| == 2
  {
    var r := ReachRacingState(cfg, 0);
    var s;
    acts, s := Do(cfg, r, RacingState(0), DialAttempt(1, true));
  }
}
