/** The engine behind Speedtest.download and Speedtest.upload: a producer thread starting workers, a bounded
    queue, a consumer thread joining them in order, and the shared in_flight counter. */
module Transfer {
  import opened Basics

  /** `work[i]` lists the chunk lengths request i transfers before its thread ends, whatever ends it.
      `count` is the consumer's request_count. With `atomic`, an update of in_flight is one step;
      without it, the read and the write of `+=` are separate. */
  datatype Config = Config(work: seq<seq<nat>>, count: nat, maxThreads: int, atomic: bool)

  datatype Worker = Created | Running(result: seq<nat>) | Exited(result: seq<nat>)

  datatype Producer = Waiting | Starting | Putting | Counting | Storing(read: int)

  datatype Consumer = Getting | Joining(t: nat) | Discounting(t: nat) | Restoring(t: nat, read: int) | Appending(t: nat)

  // `next` is the request the producer is working on.
  datatype State = State(next: nat, producer: Producer, queue: seq<nat>, consumer: Consumer,
                         inFlight: int, finished: seq<nat>, workers: seq<Worker>)

  datatype Action =
    | Sleep | Check | Start | Put | Count | LoadUp | StoreUp
    | Get | Poll | Join | Discount | LoadDown | StoreDown | Append
    | Read(t: nat) | Exit(t: nat)

  function Init(cfg: Config): State {
    State(0, Waiting, [], Getting, 0, [], seq(|cfg.work|, _ => Created))
  }

  // Queue(maxsize) is unbounded when maxsize is not positive.
  predicate HasRoom(cfg: Config, queue: seq<nat>) {
    cfg.maxThreads <= 0 || |queue| < cfg.maxThreads
  }

  predicate IsExited(s: State, t: nat) {
    t < |s.workers| && s.workers[t].Exited?
  }

  function Step(cfg: Config, s: State, a: Action): Option<State> {
    match a
    // the producer
    case Sleep =>
      if s.producer.Waiting? && s.next < |cfg.work| && s.inFlight >= cfg.maxThreads then Some(s) else None
    case Check =>
      if s.producer.Waiting? && s.next < |cfg.work| && s.inFlight < cfg.maxThreads
      then Some(s.(producer := Starting)) else None
    case Start =>
      if s.producer.Starting? && s.next < |s.workers|
      then Some(s.(producer := Putting, workers := s.workers[s.next := Running([0])])) else None
    case Put =>
      if s.producer.Putting? && HasRoom(cfg, s.queue)
      then Some(s.(producer := Counting, queue := s.queue + [s.next])) else None
    case Count =>
      if s.producer.Counting? && cfg.atomic
      then Some(s.(producer := Waiting, next := s.next + 1, inFlight := s.inFlight + 1)) else None
    case LoadUp =>
      if s.producer.Counting? && !cfg.atomic then Some(s.(producer := Storing(s.inFlight))) else None
    case StoreUp =>
      if s.producer.Storing?
      then Some(s.(producer := Waiting, next := s.next + 1, inFlight := s.producer.read + 1)) else None
    // the consumer
    case Get =>
      if s.consumer.Getting? && |s.finished| < cfg.count && s.queue != []
      then Some(s.(consumer := Joining(s.queue[0]), queue := s.queue[1..])) else None
    case Poll =>
      if s.consumer.Joining? && !IsExited(s, s.consumer.t) then Some(s) else None
    case Join =>
      if s.consumer.Joining? && IsExited(s, s.consumer.t)
      then Some(s.(consumer := Discounting(s.consumer.t))) else None
    case Discount =>
      if s.consumer.Discounting? && cfg.atomic
      then Some(s.(consumer := Appending(s.consumer.t), inFlight := s.inFlight - 1)) else None
    case LoadDown =>
      if s.consumer.Discounting? && !cfg.atomic
      then Some(s.(consumer := Restoring(s.consumer.t, s.inFlight))) else None
    case StoreDown =>
      if s.consumer.Restoring?
      then Some(s.(consumer := Appending(s.consumer.t), inFlight := s.consumer.read - 1)) else None
    case Append =>
      if s.consumer.Appending? && IsExited(s, s.consumer.t)
      then Some(s.(consumer := Getting, finished := s.finished + [Sum(s.workers[s.consumer.t].result)])) else None
    // the workers
    case Read(t) =>
      if t < |s.workers| && t < |cfg.work| && s.workers[t].Running? && 1 <= |s.workers[t].result| <= |cfg.work[t]| then
        var r := s.workers[t].result;
        Some(s.(workers := s.workers[t := Running(r + [cfg.work[t][|r| - 1]])]))
      else None
    case Exit(t) =>
      if t < |s.workers| && t < |cfg.work| && s.workers[t].Running? && |s.workers[t].result| == |cfg.work[t]| + 1
      then Some(s.(workers := s.workers[t := Exited(s.workers[t].result)])) else None
  }

  // The busy-waiting steps, which change nothing.
  predicate Spins(a: Action) {
    a.Sleep? || a.Poll?
  }

  function Exec(cfg: Config, acts: seq<Action>): Option<State> {
    if acts == [] then Some(Init(cfg))
    else
      var before := Exec(cfg, acts[..|acts| - 1]);
      if before.None? then None else Step(cfg, before.value, acts[|acts| - 1])
  }

  // ---- counting threads ----

  // Threads put on the queue, taken off it, and accounted for in the counter.
  function Puts(s: State): nat {
    s.next + if s.producer.Counting? || s.producer.Storing? then 1 else 0
  }

  function Started(s: State): nat {
    s.next + if s.producer.Waiting? || s.producer.Starting? then 0 else 1
  }

  function Taken(s: State): nat {
    |s.finished| + if s.consumer.Getting? then 0 else 1
  }

  function Joined(s: State): nat {
    |s.finished| + if s.consumer.Getting? || s.consumer.Joining? then 0 else 1
  }

  function Discounted(s: State): nat {
    |s.finished| + if s.consumer.Appending? then 1 else 0
  }

  // ---- the invariant ----

  predicate WorkerOk(cfg: Config, s: State, t: nat)
    requires t < |s.workers| && t < |cfg.work|
  {
    match s.workers[t]
    case Created => t >= Started(s)
    case Running(r) => t < Started(s) && 1 <= |r| <= |cfg.work[t]| + 1 && r == [0] + cfg.work[t][..|r| - 1]
    case Exited(r) => t < Started(s) && r == [0] + cfg.work[t]
  }

  predicate Inv(cfg: Config, s: State) {
    && |s.workers| == |cfg.work|
    && s.next <= |cfg.work| && (!s.producer.Waiting? ==> s.next < |cfg.work|)
    && (forall t :: 0 <= t < |cfg.work| ==> WorkerOk(cfg, s, t))
    // the queue holds the threads put and not taken, in the order of their requests
    && Taken(s) <= Puts(s)
    && |s.queue| == Puts(s) - Taken(s) && (forall j :: 0 <= j < |s.queue| ==> s.queue[j] == Taken(s) + j)
    && (!s.consumer.Getting? ==> s.consumer.t == |s.finished| < cfg.count)
    && |s.finished| <= cfg.count
    && (cfg.maxThreads > 0 ==> |s.queue| <= cfg.maxThreads)
    // each finished thread has exited and its bytes are recorded at its own place
    && (forall t :: 0 <= t < Joined(s) ==> s.workers[t].Exited?)
    && (forall t :: 0 <= t < |s.finished| ==> s.finished[t] == Sum(cfg.work[t]))
    && CounterOk(cfg, s)
  }

  predicate CounterOk(cfg: Config, s: State) {
    if cfg.atomic then
      && !s.producer.Storing? && !s.consumer.Restoring?
      && s.inFlight == s.next - Discounted(s)
      && (if s.producer.Waiting? then s.inFlight <= cfg.maxThreads || s.next == 0 else s.inFlight < cfg.maxThreads)
    else
      && s.inFlight <= s.next
      && (s.producer.Storing? ==> s.producer.read <= s.next)
      && (s.consumer.Restoring? ==> s.consumer.read <= s.next)
  }

  lemma InitInv(cfg: Config)
    ensures Inv(cfg, Init(cfg))
  {
  }

  lemma ProducerKeeps(cfg: Config, s: State, a: Action)
    requires Inv(cfg, s) && Step(cfg, s, a).Some?
    requires a.Sleep? || a.Check? || a.Put? || a.Count? || a.LoadUp? || a.StoreUp?
    ensures Inv(cfg, Step(cfg, s, a).value)
  {
    WorkersUntouched(cfg, s, Step(cfg, s, a).value);
  }

  lemma StartKeeps(cfg: Config, s: State)
    requires Inv(cfg, s) && Step(cfg, s, Start).Some?
    ensures Inv(cfg, Step(cfg, s, Start).value)
  {
    var s' := Step(cfg, s, Start).value;
    forall t | 0 <= t < |cfg.work|
      ensures WorkerOk(cfg, s', t)
    {
      assert WorkerOk(cfg, s, t);
    }
  }

  lemma ConsumerKeeps(cfg: Config, s: State, a: Action)
    requires Inv(cfg, s) && Step(cfg, s, a).Some?
    requires a.Poll? || a.Join? || a.Discount? || a.LoadDown? || a.StoreDown?
    ensures Inv(cfg, Step(cfg, s, a).value)
  {
    WorkersUntouched(cfg, s, Step(cfg, s, a).value);
  }

  lemma GetKeeps(cfg: Config, s: State)
    requires Inv(cfg, s) && Step(cfg, s, Get).Some?
    ensures Inv(cfg, Step(cfg, s, Get).value)
  {
    WorkersUntouched(cfg, s, Step(cfg, s, Get).value);
  }

  lemma WorkersUntouched(cfg: Config, s: State, s': State)
    requires |s.workers| == |cfg.work| && s'.workers == s.workers && Started(s') == Started(s)
    requires forall t :: 0 <= t < |cfg.work| ==> WorkerOk(cfg, s, t)
    ensures forall t :: 0 <= t < |cfg.work| ==> WorkerOk(cfg, s', t)
  {
    forall t | 0 <= t < |cfg.work|
      ensures WorkerOk(cfg, s', t)
    {
      assert WorkerOk(cfg, s, t);
    }
  }

  lemma AppendKeeps(cfg: Config, s: State)
    requires Inv(cfg, s) && Step(cfg, s, Append).Some?
    ensures Inv(cfg, Step(cfg, s, Append).value)
  {
    var s' := Step(cfg, s, Append).value;
    var t := s.consumer.t;
    assert WorkerOk(cfg, s, t);
    assert ([0] + cfg.work[t])[1..] == cfg.work[t];
    WorkersUntouched(cfg, s, s');
  }

  lemma WorkerKeeps(cfg: Config, s: State, a: Action)
    requires Inv(cfg, s) && Step(cfg, s, a).Some? && (a.Read? || a.Exit?)
    ensures Inv(cfg, Step(cfg, s, a).value)
  {
    var s' := Step(cfg, s, a).value;
    assert WorkerOk(cfg, s, a.t);
    assert WorkerOk(cfg, s', a.t) by {
      var r, work := s.workers[a.t].result, cfg.work[a.t];
      if a.Read? {
        assert [0] + work[..|r| - 1] + [work[|r| - 1]] == [0] + work[..|r|];
      } else {
        assert work[..|work|] == work;
      }
    }
    forall t | 0 <= t < |cfg.work|
      ensures WorkerOk(cfg, s', t)
    {
      assert WorkerOk(cfg, s, t);
    }
  }

  lemma StepKeepsInv(cfg: Config, s: State, a: Action)
    requires Inv(cfg, s) && Step(cfg, s, a).Some?
    ensures Inv(cfg, Step(cfg, s, a).value)
  {
    hide Inv, Step;
    if a.Read? || a.Exit? {
      WorkerKeeps(cfg, s, a);
    } else if a.Append? {
      AppendKeeps(cfg, s);
    } else if a.Get? {
      GetKeeps(cfg, s);
    } else if a.Poll? || a.Join? || a.Discount? || a.LoadDown? || a.StoreDown? {
      ConsumerKeeps(cfg, s, a);
    } else if a.Start? {
      StartKeeps(cfg, s);
    } else {
      ProducerKeeps(cfg, s, a);
    }
  }

  lemma {:induction false} ReachableInv(cfg: Config, acts: seq<Action>)
    requires Exec(cfg, acts).Some?
    ensures Inv(cfg, Exec(cfg, acts).value)
  {
    if acts == [] {
      InitInv(cfg);
    } else {
      ReachableInv(cfg, acts[..|acts| - 1]);
      StepKeepsInv(cfg, Exec(cfg, acts[..|acts| - 1]).value, acts[|acts| - 1]);
    }
  }
}
