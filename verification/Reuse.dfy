/** Which session a stream is opened on, while connections are set up one after another. */
module Reuse {
  import opened Basics
  import opened Header
  import opened Relay
  import opened Link
  import opened Tunnel
  import opened TunnelSafety
  import opened Dialling

  predicate IsLatest(s: State, n: nat) {
    n + 1 == |s.sessions|
  }

  // What one connection knows of the sessions.
  predicate LatestOk(s: State, c: Conn) {
    && (c.phase.Assigning? && c.phase.session.Some? ==> IsLatest(s, c.phase.session.value))
    && (c.phase.Opening? && s.quicSession.Some? ==> IsLatest(s, s.quicSession.value))
    && (HoldsStream(c) ==> c.phase.id.session < |s.sessions|)
  }

  // The variable holds the session dialled last, unless its successor is about to be stored in it.
  ghost predicate LatestInv(s: State) {
    && AtMostOneSetUp(s)
    && (forall i :: 0 <= i < |s.conns| ==> LatestOk(s, s.conns[i]))
    && (s.quicSession.Some? && !IsLatest(s, s.quicSession.value) ==>
          exists i :: 0 <= i < |s.conns| && s.conns[i].phase.Assigning? && s.conns[i].phase.session.Some?)
  }

  // A step of the one goroutine that is setting a connection up.
  predicate LatestEffect(s: State, i: nat, s': State)
    requires i < |s.conns| == |s'.conns|
  {
    && s'.conns == s.conns[i := s'.conns[i]] && |s'.sessions| >= |s.sessions| && LatestOk(s', s'.conns[i])
    && (s'.quicSession.Some? && !IsLatest(s', s'.quicSession.value) ==>
          s'.conns[i].phase.Assigning? && s'.conns[i].phase.session.Some?)
    && (HoldsStream(s'.conns[i]) ==>
          && s.quicSession == Some(s'.conns[i].phase.id.session) && IsLatest(s, s.quicSession.value)
          && CanOpen(s, s.quicSession.value))
  }

  lemma OpeningLatest(cfg: Config, s: State, i: nat, a: Action)
    requires i < |s.conns| && LatestOk(s, s.conns[i]) && Establish(cfg, s, i, a).Some? && (a.TryOpen? || a.OpenNew?)
    requires s.quicSession.Some? && !IsLatest(s, s.quicSession.value) ==>
               s.conns[i].phase.Assigning? && s.conns[i].phase.session.Some?
    ensures |Establish(cfg, s, i, a).value.conns| == |s.conns| && LatestEffect(s, i, Establish(cfg, s, i, a).value)
  {
  }

  lemma DiallingLatest(cfg: Config, s: State, i: nat, a: Action)
    requires i < |s.conns| && LatestOk(s, s.conns[i]) && Establish(cfg, s, i, a).Some? && !a.TryOpen? && !a.OpenNew?
    requires s.quicSession.Some? && !IsLatest(s, s.quicSession.value) ==>
               s.conns[i].phase.Assigning? && s.conns[i].phase.session.Some?
    ensures |Establish(cfg, s, i, a).value.conns| == |s.conns| && LatestEffect(s, i, Establish(cfg, s, i, a).value)
  {
  }

  lemma MoverKeepsLatest(cfg: Config, s: State, i: nat, a: Action)
    requires i < |s.conns| && LatestOk(s, s.conns[i]) && Establish(cfg, s, i, a).Some?
    requires s.quicSession.Some? && !IsLatest(s, s.quicSession.value) ==>
               s.conns[i].phase.Assigning? && s.conns[i].phase.session.Some?
    ensures |Establish(cfg, s, i, a).value.conns| == |s.conns| && LatestEffect(s, i, Establish(cfg, s, i, a).value)
  {
    hide Establish, LatestEffect;
    if a.TryOpen? || a.OpenNew? {
      OpeningLatest(cfg, s, i, a);
    } else {
      DiallingLatest(cfg, s, i, a);
    }
  }

  lemma EstablishKeepsLatest(cfg: Config, s: State, i: nat, a: Action)
    requires LatestInv(s) && i < |s.conns| && Establish(cfg, s, i, a).Some?
    ensures LatestInv(Establish(cfg, s, i, a).value)
  {
    hide Establish;
    MoverIsEstablishing(cfg, s, i, a);
    assert forall j :: 0 <= j < |s.conns| && j != i ==> !Establishing(s.conns[j]);
    MoverKeepsLatest(cfg, s, i, a);
  }

  lemma {:induction false} OneAtATimeKeepsLatest(cfg: Config, acts: seq<Action>)
    requires Exec(cfg, acts).Some? && OneAtATime(cfg, acts)
    ensures LatestInv(Exec(cfg, acts).value)
  {
    hide Encode, Establish, ClientStep, ServerStep, NetStep, Peer;
    if acts != [] {
      var before, a := acts[..|acts| - 1], acts[|acts| - 1];
      OneAtATimeKeepsLatest(cfg, before);
      var s := Exec(cfg, before).value;
      if IsEstablish(a) {
        EstablishKeepsLatest(cfg, s, a.i, a);
      } else if a.Accept? {
        assert forall i :: 0 <= i < |s.conns| ==> s.conns[i] in s.conns;
      } else {
        OtherKeepsLatest(cfg, s, a);
      }
    }
  }

  lemma OtherKeepsLatest(cfg: Config, s: State, a: Action)
    requires LatestInv(s) && Step(cfg, s, a).Some? && !a.Accept? && !IsEstablish(a)
    ensures LatestInv(Step(cfg, s, a).value)
  {
    hide Step;
    OtherStepFrame(cfg, s, a);
    forall i | 0 <= i < |s.conns|
      ensures LatestOk(Step(cfg, s, a).value, Step(cfg, s, a).value.conns[i])
    {
      StreamIsForLife(cfg, s, a, i);
    }
    if i :| 0 <= i < |s.conns| && s.conns[i].phase.Assigning? && s.conns[i].phase.session.Some? {
      assert Step(cfg, s, a).value.conns[i].phase == s.conns[i].phase;
    }
  }

  /** While connections are set up one after another, a stream is only ever opened on the session dialled last, and only
      while that session lives. */
  lemma OpensOnLatest(cfg: Config, acts: seq<Action>, a: Action, i: nat)
    requires Exec(cfg, acts).Some? && OneAtATime(cfg, acts) && i < |Exec(cfg, acts).value.conns|
    requires Step(cfg, Exec(cfg, acts).value, a).Some? && !HoldsStream(Exec(cfg, acts).value.conns[i])
    requires var s' := Step(cfg, Exec(cfg, acts).value, a).value; i < |s'.conns| && HoldsStream(s'.conns[i])
    ensures var s := Exec(cfg, acts).value;
            var k := Step(cfg, s, a).value.conns[i].phase.id;
            k.session + 1 == |s.sessions| && s.sessions[k.session].alive
  {
    hide Encode, Establish, ClientStep, ServerStep, NetStep, Peer;
    OneAtATimeKeepsLatest(cfg, acts);
    var s := Exec(cfg, acts).value;
    if IsEstablish(a) {
      MoverIsEstablishing(cfg, s, a.i, a);
      assert forall j :: 0 <= j < |s.conns| && j != a.i ==> !Establishing(s.conns[j]);
      MoverKeepsLatest(cfg, s, a.i, a);
    } else if !a.Accept? {
      OtherStepFrame(cfg, s, a);
    }
  }

  // ---- without MultiStream ----

  // The goroutine is about to open a stream on the session it has dialled.
  predicate Pending(s: State, c: Conn) {
    (c.phase.Assigning? && c.phase.session.Some?) || (c.phase.Opening? && s.quicSession.Some?)
  }

  predicate OwnSessions(s: State) {
    && (forall i :: 0 <= i < |s.conns| ==> !s.conns[i].phase.TryingOpen?)
    && (forall i, j :: 0 <= i < j < |s.conns| && HoldsStream(s.conns[i]) && HoldsStream(s.conns[j]) ==>
          s.conns[i].phase.id.session != s.conns[j].phase.id.session)
    && (forall i, j :: 0 <= i < |s.conns| && 0 <= j < |s.conns| && Pending(s, s.conns[i]) && HoldsStream(s.conns[j]) ==>
          !IsLatest(s, s.conns[j].phase.id.session))
  }

  lemma MoverDials(cfg: Config, s: State, i: nat, a: Action)
    requires !cfg.multiStream && i < |s.conns| && Establish(cfg, s, i, a).Some? && !s.conns[i].phase.TryingOpen?
    ensures var s' := Establish(cfg, s, i, a).value;
            && |s'.conns| == |s.conns| && s'.conns == s.conns[i := s'.conns[i]]
            && !s'.conns[i].phase.TryingOpen? && (HoldsStream(s'.conns[i]) ==> Pending(s, s.conns[i]))
            && |s'.sessions| == |s.sessions| + (if Pending(s', s'.conns[i]) && !Pending(s, s.conns[i]) then 1 else 0)
  {
  }

  lemma EstablishKeepsOwn(cfg: Config, s: State, i: nat, a: Action)
    requires !cfg.multiStream && LatestInv(s) && OwnSessions(s) && i < |s.conns| && Establish(cfg, s, i, a).Some?
    ensures OwnSessions(Establish(cfg, s, i, a).value)
  {
    hide Establish;
    MoverIsEstablishing(cfg, s, i, a);
    assert forall j :: 0 <= j < |s.conns| && j != i ==> !Establishing(s.conns[j]);
    MoverKeepsLatest(cfg, s, i, a);
    MoverDials(cfg, s, i, a);
  }

  lemma OtherKeepsOwn(cfg: Config, s: State, a: Action)
    requires OwnSessions(s) && Step(cfg, s, a).Some? && !a.Accept? && !IsEstablish(a)
    ensures OwnSessions(Step(cfg, s, a).value)
  {
    hide Step;
    OtherStepFrame(cfg, s, a);
    forall i | 0 <= i < |s.conns|
      ensures HoldsStream(s.conns[i]) ==> Holds(Step(cfg, s, a).value.conns[i], s.conns[i].phase.id)
    {
      StreamIsForLife(cfg, s, a, i);
    }
  }

  lemma {:induction false} OneAtATimeKeepsOwn(cfg: Config, acts: seq<Action>)
    requires !cfg.multiStream && Exec(cfg, acts).Some? && OneAtATime(cfg, acts)
    ensures OwnSessions(Exec(cfg, acts).value)
  {
    hide Encode, Establish, ClientStep, ServerStep, NetStep, Peer;
    if acts != [] {
      var before, a := acts[..|acts| - 1], acts[|acts| - 1];
      OneAtATimeKeepsOwn(cfg, before);
      OneAtATimeKeepsLatest(cfg, before);
      var s := Exec(cfg, before).value;
      if IsEstablish(a) {
        EstablishKeepsOwn(cfg, s, a.i, a);
      } else if !a.Accept? {
        OtherKeepsOwn(cfg, s, a);
      }
    }
  }

  /** Without MultiStream, connections that are set up one after another never share a session. */
  lemma OneSessionEach(cfg: Config, acts: seq<Action>)
    requires !cfg.multiStream && Exec(cfg, acts).Some? && OneAtATime(cfg, acts)
    ensures var s := Exec(cfg, acts).value;
            forall i, j :: 0 <= i < j < |s.conns| && HoldsStream(s.conns[i]) && HoldsStream(s.conns[j]) ==>
              s.conns[i].phase.id.session != s.conns[j].phase.id.session
  {
    OneAtATimeKeepsOwn(cfg, acts);
  }
}
