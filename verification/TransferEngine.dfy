/** The engine as shared variables updated in place, and the transfer run to its end under any schedule. */
module TransferEngine {
  import opened Basics
  import opened Transfer
  import opened TransferResults

  class Engine {
    const cfg: Config
    var next: nat
    var producer: Producer
    var queue: seq<nat>
    var consumer: Consumer
    var inFlight: int
    var finished: seq<nat>
    var workers: seq<Worker>

    function View(): State
      reads this
    {
      State(next, producer, queue, consumer, inFlight, finished, workers)
    }

    constructor (cfg: Config)
      ensures this.cfg == cfg && View() == Init(cfg)
    {
      this.cfg := cfg;
      next, producer, queue := 0, Waiting, [];
      consumer, inFlight, finished := Getting, 0, [];
      workers := seq(|cfg.work|, _ => Created);
    }

    /** One statement of the producer; it does nothing while the producer has to wait. */
    method ProducerStep() returns (a: Action)
      modifies this
      ensures ProducerMoves(cfg, old(View())) == None ==> View() == old(View())
      ensures ProducerMoves(cfg, old(View())).Some? ==>
                Some(a) == ProducerMoves(cfg, old(View())) && Step(cfg, old(View()), a) == Some(View())
    {
      a := Sleep;
      match producer
      case Waiting =>
        if next < |cfg.work| && inFlight < cfg.maxThreads {
          a, producer := Check, Starting;
        }
      case Starting =>
        if next < |workers| {
          workers := workers[next := Running([0])];
          a, producer := Start, Putting;
        }
      case Putting =>
        if HasRoom(cfg, queue) {
          queue := queue + [next];
          a, producer := Put, Counting;
        }
      case Counting =>
        if cfg.atomic {
          inFlight := inFlight + 1;
          next := next + 1;
          a, producer := Count, Waiting;
        } else {
          a, producer := LoadUp, Storing(inFlight);
        }
      case Storing(read) =>
        inFlight := read + 1;
        next := next + 1;
        a, producer := StoreUp, Waiting;
    }

    /** One statement of the consumer; it does nothing while the consumer has to wait. */
    method ConsumerStep() returns (a: Action)
      modifies this
      ensures ConsumerMoves(cfg, old(View())) == None ==> View() == old(View())
      ensures ConsumerMoves(cfg, old(View())).Some? ==>
                Some(a) == ConsumerMoves(cfg, old(View())) && Step(cfg, old(View()), a) == Some(View())
    {
      a := Poll;
      match consumer
      case Getting =>
        if |finished| < cfg.count && queue != [] {
          a, consumer, queue := Get, Joining(queue[0]), queue[1..];
        }
      case Joining(t) =>
        if t < |workers| && workers[t].Exited? {
          a, consumer := Join, Discounting(t);
        }
      case Discounting(t) =>
        if cfg.atomic {
          inFlight := inFlight - 1;
          a, consumer := Discount, Appending(t);
        } else {
          a, consumer := LoadDown, Restoring(t, inFlight);
        }
      case Restoring(t, read) =>
        inFlight := read - 1;
        a, consumer := StoreDown, Appending(t);
      case Appending(t) =>
        if t < |workers| && workers[t].Exited? {
          finished := finished + [Sum(workers[t].result)];
          a, consumer := Append, Getting;
        }
    }

    /** One statement of worker t: another chunk appended to its result, or the end of its thread. */
    method WorkerStep(t: nat) returns (a: Action)
      modifies this`workers
      ensures WorkerMoves(cfg, old(View()), t) == None ==> View() == old(View())
      ensures WorkerMoves(cfg, old(View()), t).Some? ==>
                Some(a) == WorkerMoves(cfg, old(View()), t) && Step(cfg, old(View()), a) == Some(View())
    {
      a := Read(t);
      if t < |workers| && t < |cfg.work| && workers[t].Running? {
        var result := workers[t].result;
        if 1 <= |result| <= |cfg.work[t]| {
          workers := workers[t := Running(result + [cfg.work[t][|result| - 1]])];
        } else if |result| == |cfg.work[t]| + 1 {
          workers := workers[t := Exited(result)];
          a := Exit(t);
        }
      }
    }

    /** Whatever the schedule, the transfer ends and reports every byte. */
    method Run(schedule: nat -> nat) returns (bytes: nat)
      requires View() == Init(cfg)
      requires cfg.atomic && cfg.maxThreads >= 1 && cfg.count == |cfg.work|
      modifies this
      ensures finished == Totals(cfg.work)
      ensures bytes == Sum(Flatten(cfg.work))
    {
      hide Inv, Step, Left, Totals, Sum, Flatten;
      var tick := 0;
      InitInv(cfg);
      while !AllFinished(cfg, View())
        invariant Inv(cfg, View())
        decreases Remaining(cfg, View())
      {
        ghost var before := View();
        var who := Pick(cfg, View(), schedule(tick));
        var a;
        if who == 0 {
          a := ProducerStep();
        } else if who == 1 {
          a := ConsumerStep();
        } else {
          a := WorkerStep(who - 2);
        }
        MoveIsProgress(cfg, before, a);
        tick := tick + 1;
      }
      AllFinishedIsEverything(cfg, View());
      bytes := Sum(finished);
    }
  }

  predicate AllFinished(cfg: Config, s: State) {
    |s.finished| >= cfg.count
  }

  ghost function Remaining(cfg: Config, s: State): nat
    requires Inv(cfg, s)
  {
    LeftIsNatural(cfg, s);
    Left(cfg, s)
  }

  lemma MoveIsProgress(cfg: Config, s: State, a: Action)
    requires Inv(cfg, s) && Step(cfg, s, a).Some? && !Spins(a)
    ensures Inv(cfg, Step(cfg, s, a).value) && Remaining(cfg, Step(cfg, s, a).value) < Remaining(cfg, s)
  {
    StepKeepsInv(cfg, s, a);
    StepsAreProgress(cfg, s, a);
  }

  lemma AllFinishedIsEverything(cfg: Config, s: State)
    requires Inv(cfg, s) && AllFinished(cfg, s) && cfg.count == |cfg.work|
    ensures s.finished == Totals(cfg.work) && Sum(s.finished) == Sum(Flatten(cfg.work))
  {
    assert s.finished == Totals(cfg.work);
    SumOfTotals(cfg.work);
  }

  // The next statement of each thread, unless it has to wait.
  function ProducerMoves(cfg: Config, s: State): Option<Action> {
    var a := match s.producer
      case Waiting => Check
      case Starting => Start
      case Putting => Put
      case Counting => (if cfg.atomic then Count else LoadUp)
      case Storing(_) => StoreUp;
    if Step(cfg, s, a).Some? then Some(a) else None
  }

  function ConsumerMoves(cfg: Config, s: State): Option<Action> {
    var a := match s.consumer
      case Getting => Get
      case Joining(_) => Join
      case Discounting(_) => (if cfg.atomic then Discount else LoadDown)
      case Restoring(_, _) => StoreDown
      case Appending(_) => Append;
    if Step(cfg, s, a).Some? then Some(a) else None
  }

  function WorkerMoves(cfg: Config, s: State, t: nat): Option<Action> {
    if Step(cfg, s, Read(t)).Some? then Some(Read(t))
    else if Step(cfg, s, Exit(t)).Some? then Some(Exit(t))
    else None
  }

  // Thread 0 is the producer, 1 the consumer, and 2 + t worker t.
  predicate CanMove(cfg: Config, s: State, who: nat) {
    if who == 0 then ProducerMoves(cfg, s).Some?
    else if who == 1 then ConsumerMoves(cfg, s).Some?
    else WorkerMoves(cfg, s, who - 2).Some?
  }

  // The scheduler: the thread asked for if it can move, else the first that can.
  method Pick(cfg: Config, s: State, wanted: nat) returns (who: nat)
    requires Inv(cfg, s) && !AllFinished(cfg, s)
    requires cfg.atomic && cfg.maxThreads >= 1 && cfg.count == |cfg.work|
    ensures CanMove(cfg, s, who)
  {
    hide Inv, CanMove;
    if CanMove(cfg, s, wanted) {
      return wanted;
    }
    SomeoneMoves(cfg, s);
    who := 0;
    while !CanMove(cfg, s, who)
      invariant exists w :: who <= w < |cfg.work| + 2 && CanMove(cfg, s, w)
      decreases |cfg.work| + 2 - who
    {
      who := who + 1;
    }
  }

  lemma SomeoneMoves(cfg: Config, s: State)
    requires Inv(cfg, s) && !AllFinished(cfg, s)
    requires cfg.atomic && cfg.maxThreads >= 1 && cfg.count == |cfg.work|
    ensures exists w :: 0 <= w < |cfg.work| + 2 && CanMove(cfg, s, w)
  {
    if !CanMove(cfg, s, 0) && !CanMove(cfg, s, 1) {
      StuckIffAtRest(cfg, s);
      assert !AtRest(cfg, s);
      var t :| 0 <= t < |cfg.work| && t < Started(s) && !s.workers[t].Exited?;
      assert WorkerOk(cfg, s, t);
      assert CanMove(cfg, s, t + 2);
    }
  }
}
