/** What the transfer engine guarantees over every interleaving of its threads. */
module TransferResults {
  import opened Basics
  import opened Transfer

  // ---- bounds on threads ----

  /** With an atomic counter: never more than max_threads threads started and not yet discounted, the counter
      stays between -1 and max_threads, and the producer's put never finds the queue full. */
  lemma ThreadBound(cfg: Config, acts: seq<Action>)
    requires cfg.atomic && cfg.maxThreads >= 1 && Exec(cfg, acts).Some?
    ensures var s := Exec(cfg, acts).value;
            && Started(s) - Discounted(s) <= cfg.maxThreads
            && -1 <= s.inFlight <= cfg.maxThreads
            && (s.producer.Putting? ==> Step(cfg, s, Put).Some?)
  {
    ReachableInv(cfg, acts);
  }

  /** Whatever becomes of the counter, the queue's capacity alone bounds the threads started and not joined. */
  lemma ThreadBoundWithoutCounter(cfg: Config, acts: seq<Action>)
    requires cfg.maxThreads >= 1 && Exec(cfg, acts).Some?
    ensures Started(Exec(cfg, acts).value) - Joined(Exec(cfg, acts).value) <= cfg.maxThreads + 2
  {
    ReachableInv(cfg, acts);
  }

  // ---- accounting ----

  function Totals(work: seq<seq<nat>>): (totals: seq<nat>)
    ensures |totals| == |work|
    ensures forall i :: 0 <= i < |work| ==> totals[i] == Sum(work[i])
  {
    seq(|work|, i requires 0 <= i < |work| => Sum(work[i]))
  }

  function Flatten(work: seq<seq<nat>>): seq<nat> {
    if work == [] then [] else work[0] + Flatten(work[1..])
  }

  lemma {:induction false} SumOfTotals(work: seq<seq<nat>>)
    ensures Sum(Totals(work)) == Sum(Flatten(work))
  {
    if work != [] {
      SumOfTotals(work[1..]);
      assert Totals(work)[1..] == Totals(work[1..]);
      SumAppend(work[0], Flatten(work[1..]));
    }
  }

  /** In whatever order the threads end, and whatever updates the counter loses, `finished` is at every moment the
      byte totals of the first requests, in request order, each counted once. */
  lemma FinishedIsPrefix(cfg: Config, acts: seq<Action>)
    requires Exec(cfg, acts).Some?
    ensures Exec(cfg, acts).value.finished <= Totals(cfg.work)
  {
    ReachableInv(cfg, acts);
  }

  // Both loops have run to their end.
  predicate Complete(cfg: Config, s: State) {
    s.producer.Waiting? && s.next == |cfg.work| && s.consumer.Getting? && |s.finished| == cfg.count
  }

  /** When the engine completes with as many requests as the consumer waits for, the sum it reports is the sum
      of every chunk length any thread has transferred. */
  lemma BytesAreConserved(cfg: Config, acts: seq<Action>)
    requires cfg.count == |cfg.work| && Exec(cfg, acts).Some? && Complete(cfg, Exec(cfg, acts).value)
    ensures Sum(Exec(cfg, acts).value.finished) == Sum(Flatten(cfg.work))
    ensures var s := Exec(cfg, acts).value;
            |s.workers| == |cfg.work| && forall t :: 0 <= t < |cfg.work| ==> s.workers[t] == Exited([0] + cfg.work[t])
  {
    ReachableInv(cfg, acts);
    var s := Exec(cfg, acts).value;
    assert s.finished == Totals(cfg.work);
    SumOfTotals(cfg.work);
    forall t | 0 <= t < |cfg.work|
      ensures s.workers[t] == Exited([0] + cfg.work[t])
    {
      assert WorkerOk(cfg, s, t);
    }
  }

  // ---- progress ----

  function WorkerLeft(work: seq<nat>, w: Worker): nat {
    match w
    case Created => |work| + 1
    case Running(r) => if |r| <= |work| + 1 then |work| + 2 - |r| else 0
    case Exited(_) => 0
  }

  function WorkLeft(work: seq<seq<nat>>, workers: seq<Worker>): nat
    requires |workers| == |work|
  {
    if work == [] then 0 else WorkerLeft(work[0], workers[0]) + WorkLeft(work[1..], workers[1..])
  }

  function ProducerLeft(cfg: Config, s: State): int {
    6 * (|cfg.work| - s.next)
    - match s.producer case Waiting => 0 case Starting => 1 case Putting => 2 case Counting => 3 case Storing(_) => 4
  }

  function ConsumerLeft(cfg: Config, s: State): int {
    6 * (cfg.count - |s.finished|)
    - match s.consumer
      case Getting => 0 case Joining(_) => 1 case Discounting(_) => 2 case Restoring(_, _) => 3 case Appending(_) => 4
  }

  /** The two threads busy-wait exactly while they cannot go on: the producer while the counter forbids the next
      request, the consumer while the thread it has taken still runs. */
  lemma BusyWaitIff(cfg: Config, s: State)
    ensures Step(cfg, s, Sleep).Some? <==> s.producer.Waiting? && s.next < |cfg.work| && Step(cfg, s, Check).None?
    ensures Step(cfg, s, Poll).Some? <==> s.consumer.Joining? && Step(cfg, s, Join).None?
  {
  }

  // What is left to do, in steps.
  function Left(cfg: Config, s: State): int
    requires |s.workers| == |cfg.work|
  {
    ProducerLeft(cfg, s) + ConsumerLeft(cfg, s) + WorkLeft(cfg.work, s.workers)
  }

  lemma {:induction false} WorkLeftUpdate(work: seq<seq<nat>>, workers: seq<Worker>, t: nat, w: Worker)
    requires |workers| == |work| && t < |work|
    ensures WorkLeft(work, workers[t := w]) ==
        WorkLeft(work, workers) - WorkerLeft(work[t], workers[t]) + WorkerLeft(work[t], w)
  {
    if t == 0 {
      assert workers[t := w][1..] == workers[1..];
    } else {
      WorkLeftUpdate(work[1..], workers[1..], t - 1, w);
      assert workers[t := w][1..] == workers[1..][t - 1 := w];
    }
  }

  /** Every step but a busy-wait brings the engine closer to its end. */
  lemma StepsAreProgress(cfg: Config, s: State, a: Action)
    requires Inv(cfg, s) && Step(cfg, s, a).Some?
    ensures |Step(cfg, s, a).value.workers| == |cfg.work|
    ensures if Spins(a) then Step(cfg, s, a).value == s else Left(cfg, Step(cfg, s, a).value) < Left(cfg, s)
  {
    if a.Start? || a.Read? || a.Exit? {
      WorkersProgress(cfg, s, a);
    }
  }

  lemma WorkersProgress(cfg: Config, s: State, a: Action)
    requires Inv(cfg, s) && Step(cfg, s, a).Some? && (a.Start? || a.Read? || a.Exit?)
    ensures |Step(cfg, s, a).value.workers| == |cfg.work| && Left(cfg, Step(cfg, s, a).value) < Left(cfg, s)
  {
    var t := if a.Start? then s.next else a.t;
    assert WorkerOk(cfg, s, t);
    WorkLeftUpdate(cfg.work, s.workers, t, Step(cfg, s, a).value.workers[t]);
  }

  function Moves(acts: seq<Action>): nat {
    if acts == [] then 0
    else Moves(acts[..|acts| - 1]) + if Spins(acts[|acts| - 1]) then 0 else 1
  }

  /** So the number of steps a run can make, busy-waits aside, is bounded from the start. */
  lemma {:induction false} RunsAreBounded(cfg: Config, acts: seq<Action>)
    requires Exec(cfg, acts).Some?
    ensures Inv(cfg, Exec(cfg, acts).value)
    ensures Moves(acts) + Left(cfg, Exec(cfg, acts).value) <= Left(cfg, Init(cfg))
    ensures Left(cfg, Exec(cfg, acts).value) >= 0
  {
    hide Inv, Step, Left;
    ReachableInv(cfg, acts);
    if acts != [] {
      var before := acts[..|acts| - 1];
      RunsAreBounded(cfg, before);
      StepsAreProgress(cfg, Exec(cfg, before).value, acts[|acts| - 1]);
    }
    LeftIsNatural(cfg, Exec(cfg, acts).value);
  }

  lemma LeftIsNatural(cfg: Config, s: State)
    requires Inv(cfg, s)
    ensures Left(cfg, s) >= 0
  {
  }

  // Nothing but busy-waiting is possible.
  ghost predicate Stuck(cfg: Config, s: State) {
    forall a: Action :: !Spins(a) ==> Step(cfg, s, a).None?
  }

  // Where a run can come to rest.
  predicate AtRest(cfg: Config, s: State)
    requires |s.workers| == |cfg.work|
  {
    && s.consumer.Getting? && (|s.finished| == cfg.count || s.queue == [])
    && (forall t :: 0 <= t < |cfg.work| && t < Started(s) ==> s.workers[t].Exited?)
    && (if s.producer.Waiting? then s.next == |cfg.work| || s.inFlight >= cfg.maxThreads
        else s.producer.Putting? && !HasRoom(cfg, s.queue))
  }

  lemma StuckIsAtRest(cfg: Config, s: State)
    requires Inv(cfg, s) && Stuck(cfg, s)
    ensures |s.workers| == |cfg.work| && AtRest(cfg, s)
  {
    assert Step(cfg, s, Check).None? && Step(cfg, s, Start).None? && Step(cfg, s, Put).None?
        && Step(cfg, s, Count).None? && Step(cfg, s, LoadUp).None? && Step(cfg, s, StoreUp).None?;
    assert Step(cfg, s, Get).None? && Step(cfg, s, Join).None? && Step(cfg, s, Discount).None?
        && Step(cfg, s, LoadDown).None? && Step(cfg, s, StoreDown).None? && Step(cfg, s, Append).None?;
    forall t | 0 <= t < |cfg.work| && t < Started(s)
      ensures s.workers[t].Exited?
    {
      assert WorkerOk(cfg, s, t);
      assert Step(cfg, s, Read(t)).None? && Step(cfg, s, Exit(t)).None?;
    }
  }

  lemma StuckIffAtRest(cfg: Config, s: State)
    requires Inv(cfg, s)
    ensures |s.workers| == |cfg.work|
    ensures Stuck(cfg, s) <==> AtRest(cfg, s)
  {
    if Stuck(cfg, s) {
      StuckIsAtRest(cfg, s);
    } else {
      var a: Action :| !Spins(a) && Step(cfg, s, a).Some?;
      if a.Read? || a.Exit? {
        assert WorkerOk(cfg, s, a.t);
      }
    }
  }

  /** With an atomic counter and at least one thread, a run that can go no further has transferred everything
      the consumer asked for, and both loops have ended exactly when the requests are as many as the consumer
      counts, or more by no more than max_threads. */
  lemma Progress(cfg: Config, acts: seq<Action>)
    requires cfg.atomic && cfg.maxThreads >= 1 && Exec(cfg, acts).Some? && Stuck(cfg, Exec(cfg, acts).value)
    ensures var s := Exec(cfg, acts).value;
            && |s.finished| == Min(cfg.count, |cfg.work|)
            && (Complete(cfg, s) <==> cfg.count <= |cfg.work| <= cfg.count + cfg.maxThreads)
  {
    ReachableInv(cfg, acts);
    StuckIffAtRest(cfg, Exec(cfg, acts).value);
  }

  /** Without a thread to run, nothing is ever transferred: the producer sleeps from the start. */
  lemma {:induction false} NoThreadsNoProgress(cfg: Config, acts: seq<Action>)
    requires cfg.maxThreads <= 0 && Exec(cfg, acts).Some?
    ensures Exec(cfg, acts).value == Init(cfg)
  {
    if acts != [] {
      NoThreadsNoProgress(cfg, acts[..|acts| - 1]);
    }
  }

  // ---- lost updates ----

  /** Without an atomic counter, a run that has stopped short of completion has every started thread accounted
      for, nothing queued, and a counter that lost updates have driven up to max_threads: the producer sleeps
      for ever. It cannot happen when the requests are no more than the threads. */
  lemma StuckWithLostUpdates(cfg: Config, acts: seq<Action>)
    requires !cfg.atomic && cfg.maxThreads >= 1 && cfg.count == |cfg.work|
    requires Exec(cfg, acts).Some? && Stuck(cfg, Exec(cfg, acts).value) && !Complete(cfg, Exec(cfg, acts).value)
    ensures var s := Exec(cfg, acts).value;
            && s.producer.Waiting? && s.consumer.Getting? && s.queue == []
            && |s.finished| == s.next < |cfg.work|
            && cfg.maxThreads <= s.inFlight <= s.next
    ensures |cfg.work| > cfg.maxThreads
  {
    ReachableInv(cfg, acts);
    StuckIffAtRest(cfg, Exec(cfg, acts).value);
  }

  lemma Perform(cfg: Config, acts: seq<Action>, s: State, a: Action) returns (acts': seq<Action>, s': State)
    requires Exec(cfg, acts) == Some(s) && Step(cfg, s, a).Some?
    ensures s' == Step(cfg, s, a).value && Exec(cfg, acts') == Some(s')
  {
    acts', s' := acts + [a], Step(cfg, s, a).value;
    assert acts'[..|acts'| - 1] == acts;
  }

  // Thread t reads whatever it still has to read.
  lemma {:induction false} PerformReads(cfg: Config, acts: seq<Action>, s: State, t: nat)
    returns (acts': seq<Action>, s': State)
    requires Exec(cfg, acts) == Some(s) && Inv(cfg, s) && t < |cfg.work| && s.workers[t].Running?
    ensures |s.workers| == |cfg.work| && s' == s.(workers := s.workers[t := Running([0] + cfg.work[t])]) &&
        Exec(cfg, acts') == Some(s')
    decreases |cfg.work[t]| + 1 - |s.workers[t].result|
  {
    assert WorkerOk(cfg, s, t);
    if |s.workers[t].result| == |cfg.work[t]| + 1 {
      assert cfg.work[t][..|cfg.work[t]|] == cfg.work[t];
      acts', s' := acts, s;
      assert s.workers == s.workers[t := s.workers[t]];
    } else {
      StepKeepsInv(cfg, s, Read(t));
      var acts1, s1 := Perform(cfg, acts, s, Read(t));
      assert WorkerOk(cfg, s1, t);
      acts', s' := PerformReads(cfg, acts1, s1, t);
      assert s'.workers == s.workers[t := Running([0] + cfg.work[t])];
    }
  }

  // j requests transferred one at a time, each decrement of the counter lost.
  function Drifted(cfg: Config, j: nat): State
    requires j <= |cfg.work|
  {
    State(j, Waiting, [], Getting, j, Totals(cfg.work)[..j],
          seq(|cfg.work|, t requires 0 <= t < |cfg.work| => if t < j then Exited([0] + cfg.work[t]) else Created))
  }

  // Halfway through request j: its thread has come and gone, and the producer has read the counter.
  function Halfway(cfg: Config, j: nat): State
    requires j < |cfg.work|
  {
    Drifted(cfg, j).(producer := Storing(j), queue := [j], workers := Drifted(cfg, j + 1).workers)
  }

  lemma ProducerHalf(cfg: Config, acts: seq<Action>, j: nat) returns (acts': seq<Action>)
    requires !cfg.atomic && j < cfg.maxThreads && j < |cfg.work|
    requires Exec(cfg, acts) == Some(Drifted(cfg, j))
    ensures Exec(cfg, acts') == Some(Halfway(cfg, j))
  {
    hide Exec, Inv, Sum, Totals;
    var r, s := Perform(cfg, acts, Drifted(cfg, j), Check);
    r, s := Perform(cfg, r, s, Start);
    ReachableInv(cfg, r);
    r, s := PerformReads(cfg, r, s, j);
    r, s := Perform(cfg, r, s, Exit(j));
    assert s.workers == Drifted(cfg, j + 1).workers;
    r, s := Perform(cfg, r, s, Put);
    r, s := Perform(cfg, r, s, LoadUp);
    assert s.queue == [j];
    acts' := r;
  }

  /** A round in which the producer's increment overwrites the consumer's decrement: the producer reads the
      counter before the consumer updates it and writes it after. */
  lemma LosingRound(cfg: Config, acts: seq<Action>, j: nat) returns (acts': seq<Action>)
    requires !cfg.atomic && j < cfg.maxThreads && j < |cfg.work| && cfg.count == |cfg.work|
    requires Exec(cfg, acts) == Some(Drifted(cfg, j))
    ensures Exec(cfg, acts') == Some(Drifted(cfg, j + 1))
  {
    hide Exec, Inv;
    acts' := ProducerHalf(cfg, acts, j);
    var r, s := Perform(cfg, acts', Halfway(cfg, j), Get);
    r, s := Perform(cfg, r, s, Join);
    r, s := Perform(cfg, r, s, LoadDown);
    r, s := Perform(cfg, r, s, StoreDown);
    r, s := Perform(cfg, r, s, Append);
    r, s := Perform(cfg, r, s, StoreUp);
    assert ([0] + cfg.work[j])[1..] == cfg.work[j];
    assert s.finished == Drifted(cfg, j + 1).finished;
    acts' := r;
  }

  lemma {:induction false} DriftTo(cfg: Config, j: nat) returns (acts: seq<Action>)
    requires !cfg.atomic && j <= cfg.maxThreads && j <= |cfg.work| && cfg.count == |cfg.work|
    ensures Exec(cfg, acts) == Some(Drifted(cfg, j))
  {
    if j == 0 {
      acts := [];
      assert Init(cfg).workers == Drifted(cfg, 0).workers;
    } else {
      acts := DriftTo(cfg, j - 1);
      acts := LosingRound(cfg, acts, j - 1);
    }
  }

  // The run has stopped for good before the transfer is complete.
  ghost predicate Hangs(cfg: Config, acts: seq<Action>) {
    Exec(cfg, acts).Some? && Stuck(cfg, Exec(cfg, acts).value) && !Complete(cfg, Exec(cfg, acts).value)
  }

  /** Some run hangs exactly when nothing can ever start, or when updates of the counter can be lost and there are more
      requests than threads. */
  lemma HangIff(cfg: Config)
    requires cfg.count == |cfg.work|
    ensures (exists acts :: Hangs(cfg, acts))
       <==> if cfg.maxThreads <= 0 then cfg.work != [] else !cfg.atomic && |cfg.work| > cfg.maxThreads
  {
    if cfg.maxThreads <= 0 && cfg.work != [] {
      InitInv(cfg);
      StuckIffAtRest(cfg, Init(cfg));
      assert Hangs(cfg, []);
    } else if cfg.maxThreads >= 1 && !cfg.atomic && |cfg.work| > cfg.maxThreads {
      var acts := DriftTo(cfg, cfg.maxThreads);
      ReachableInv(cfg, acts);
      StuckIffAtRest(cfg, Drifted(cfg, cfg.maxThreads));
      assert Hangs(cfg, acts);
    }
    if acts :| Hangs(cfg, acts) {
      if cfg.maxThreads <= 0 {
        NoThreadsNoProgress(cfg, acts);
      } else if cfg.atomic {
        Progress(cfg, acts);
      } else {
        StuckWithLostUpdates(cfg, acts);
      }
    }
  }

  // ---- split updates that do not overlap ----

  // The action touches the counter between the other thread's read of it and its write.
  predicate Interferes(s: State, a: Action) {
    || (s.producer.Storing? && (a.LoadDown? || a.StoreDown?))
    || (s.consumer.Restoring? && (a.LoadUp? || a.StoreUp?))
  }

  predicate NoOverlap(cfg: Config, acts: seq<Action>)
    requires Exec(cfg, acts).Some?
  {
    acts == [] || (
      var before := acts[..|acts| - 1];
      NoOverlap(cfg, before) && !Interferes(Exec(cfg, before).value, acts[|acts| - 1]))
  }

  // The counter is exact, and whoever has read it has read what it is.
  predicate CounterExact(cfg: Config, s: State) {
    && s.inFlight == s.next - Discounted(s)
    && !(s.producer.Storing? && s.consumer.Restoring?)
    && (s.producer.Storing? ==> s.producer.read == s.inFlight)
    && (s.consumer.Restoring? ==> s.consumer.read == s.inFlight)
    && (if s.producer.Waiting? then s.inFlight <= cfg.maxThreads || s.next == 0 else s.inFlight < cfg.maxThreads)
  }

  lemma StepKeepsExact(cfg: Config, s: State, a: Action)
    requires !cfg.atomic && CounterExact(cfg, s) && !Interferes(s, a) && Step(cfg, s, a).Some?
    ensures CounterExact(cfg, Step(cfg, s, a).value)
  {
  }

  /** As long as neither thread touches the counter between the other's read and write of it, no update is lost: at
      every moment the counter is the number of requests counted up less the number counted down, and no more than
      max_threads threads are started and not yet counted down. */
  lemma {:induction false} NoOverlapIsExact(cfg: Config, acts: seq<Action>)
    requires !cfg.atomic && Exec(cfg, acts).Some? && NoOverlap(cfg, acts)
    ensures var s := Exec(cfg, acts).value;
            && CounterExact(cfg, s) && s.inFlight == s.next - Discounted(s)
            && (s.consumer.Getting? ==> s.inFlight == s.next - |s.finished|)
            && (cfg.maxThreads >= 1 ==>
                  Started(s) - Discounted(s) <= cfg.maxThreads && -1 <= s.inFlight <= cfg.maxThreads)
  {
    hide Step;
    ReachableInv(cfg, acts);
    if acts != [] {
      NoOverlapIsExact(cfg, acts[..|acts| - 1]);
      StepKeepsExact(cfg, Exec(cfg, acts[..|acts| - 1]).value, acts[|acts| - 1]);
    }
  }

  /** So a run whose updates do not overlap hangs only for want of a thread: it takes an overlap to lose an update. */
  lemma NoOverlapHangIff(cfg: Config)
    requires !cfg.atomic && cfg.count == |cfg.work|
    ensures (exists acts :: Hangs(cfg, acts) && NoOverlap(cfg, acts)) <==> cfg.maxThreads <= 0 && cfg.work != []
  {
    if cfg.maxThreads <= 0 && cfg.work != [] {
      InitInv(cfg);
      StuckIffAtRest(cfg, Init(cfg));
      assert Hangs(cfg, []) && NoOverlap(cfg, []);
    }
    if acts :| Hangs(cfg, acts) && NoOverlap(cfg, acts) {
      if cfg.maxThreads <= 0 {
        NoThreadsNoProgress(cfg, acts);
      } else {
        StuckWithLostUpdates(cfg, acts);
        NoOverlapIsExact(cfg, acts);
      }
    }
  }

  /** In particular, with atomic updates and a thread, no run hangs. */
  lemma AtomicNeverHangs(cfg: Config, acts: seq<Action>)
    requires cfg.atomic && cfg.maxThreads >= 1 && cfg.count == |cfg.work|
    ensures !Hangs(cfg, acts)
  {
    HangIff(cfg);
  }
}
