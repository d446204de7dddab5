/**
 Whole calls of the blocking queue: what each kind of `enqueue` and `dequeue` may answer and why, after
 whatever other threads do in between, and that only an overwriting one ever loses an item.
 */
module BlockingQueueCalls {
  import opened BlockingQueue
  import opened BlockingQueueSafety
  import opened CircularQueue

  // ----- Who may wait, and who may give up waiting -----

  /** Only the waiting kinds sleep, and only the timed ones give up. */
  predicate Patient<T>(pc: Pc<T>) {
    match pc
    case Pushing(push, _, _, expired) => expired ==> push.PushFor?
    case PushAsleep(push, _) => push.PushWait? || push.PushFor?
    case Popping(pop, _, expired) => expired ==> pop.PopFor?
    case PopAsleep(pop) => !pop.PopTry?
    case _ => true
  }

  ghost predicate AllPatient<T>(s: State<T>) {
    forall t: nat :: t < |s.threads| ==> Patient(s.threads[t])
  }

  lemma PatientStep<T>(s: State<T>, t: nat, a: Action<T>)
    requires AllPatient(s)
    ensures AllPatient(Step(s, t, a))
  {
    var s' := Step(s, t, a);
    forall u: nat | u < |s'.threads| ensures Patient(s'.threads[u]) {
      assert Patient(s.threads[u]);
    }
  }

  lemma {:induction false} PatientRun<T>(s: State<T>, moves: seq<(nat, Action<T>)>)
    requires AllPatient(s)
    ensures AllPatient(Run(s, moves))
    decreases |moves|
  {
    if moves != [] {
      PatientStep(s, moves[0].0, moves[0].1);
      PatientRun(Step(s, moves[0].0, moves[0].1), moves[1..]);
    }
  }

  // ----- Who may lose an item -----

  predicate Overwrites<T>(pc: Pc<T>) {
    match pc
    case PushEnter(push, _) => push.PushOverwrite?
    case Pushing(push, _, _, _) => push.PushOverwrite?
    case PushAsleep(push, _) => push.PushOverwrite?
    case _ => false
  }

  ghost predicate NobodyOverwrites<T>(s: State<T>) {
    forall t: nat :: t < |s.threads| ==> !Overwrites(s.threads[t])
  }

  /** Only an overwriting enqueue pushes into a full queue. */
  lemma FullPushOverwrites<T>(s: State<T>, pc: Pc<T>, a: Action<T>)
    ensures var e := Program(s, pc, a).0;
      e.Push? && s.Full() ==> pc.Pushing? && pc.push.PushOverwrite? && pc.item == e.item
  {
  }

  /** Only a push into a full queue loses an item. */
  lemma FullPushLoses<T>(s: State<T>, t: nat, e: Effect<T>)
    requires e.TakeFront? ==> s.queue != []
    requires e.Push? ==> |s.queue| <= s.cap
    ensures var s' := Perform(s, t, e);
      if e.Push? && s.Full() then
        s'.overrun == s.overrun + 1 && s'.fates == s.fates + [Dropped] && s'.accepted == s.accepted + [e.item]
      else
        && s'.overrun == s.overrun && s.fates <= s'.fates
        && forall i: nat :: |s.fates| <= i < |s'.fates| ==> !s'.fates[i].Dropped?
  {
  }

  /** Only an overwriting enqueue over a full queue loses an item: the oldest, counted as an overrun. */
  lemma OnlyOverwritesLose<T>(s: State<T>, t: nat, a: Action<T>)
    requires Inv(s)
    ensures var s' := Step(s, t, a);
      if s'.overrun == s.overrun then
        s.fates <= s'.fates && forall i: nat :: |s.fates| <= i < |s'.fates| ==> !s'.fates[i].Dropped?
      else
        && t < |s.threads| && s.threads[t].Pushing? && s.threads[t].push.PushOverwrite? && s.Full()
        && s'.overrun == s.overrun + 1 && s'.fates == s.fates + [Dropped]
        && s'.accepted == s.accepted + [s.threads[t].item]
  {
    if t < |s.threads| {
      var e := Program(s, s.threads[t], a).0;
      FullPushOverwrites(s, s.threads[t], a);
      if Enabled(s, e, if a.Go? then a.sleeper else t) {
        FullPushLoses(s, t, e);
      }
    }
  }

  lemma OverwritesBegin<T>(s: State<T>, t: nat, a: Action<T>)
    requires NobodyOverwrites(s) && (a.CallPush? ==> !a.push.PushOverwrite?)
    ensures NobodyOverwrites(Step(s, t, a))
  {
    var s' := Step(s, t, a);
    forall u: nat | u < |s'.threads| ensures !Overwrites(s'.threads[u]) {
      assert !Overwrites(s.threads[u]);
    }
  }

  lemma LosslessStep<T>(s: State<T>, t: nat, a: Action<T>)
    requires Inv(s) && NothingLost(s) && (a.CallPush? ==> !a.push.PushOverwrite?)
    ensures NothingLost(Step(s, t, a))
  {
    OverwritesBegin(s, t, a);
    OnlyOverwritesLose(s, t, a);
    assert t < |s.threads| ==> !Overwrites(s.threads[t]);
  }

  ghost predicate NothingLost<T>(s: State<T>) {
    NobodyOverwrites(s) && s.overrun == 0 && forall i: nat :: i < |s.fates| ==> !s.fates[i].Dropped?
  }

  predicate Lossless<T>(moves: seq<(nat, Action<T>)>) {
    forall k :: 0 <= k < |moves| && moves[k].1.CallPush? ==> !moves[k].1.push.PushOverwrite?
  }

  lemma {:induction false} LosslessRun<T>(s: State<T>, moves: seq<(nat, Action<T>)>)
    requires Inv(s) && NothingLost(s) && Lossless(moves)
    ensures NothingLost(Run(s, moves))
    decreases |moves|
  {
    if moves != [] {
      LosslessStep(s, moves[0].0, moves[0].1);
      StepInv(s, moves[0].0, moves[0].1);
      LosslessRun(Step(s, moves[0].0, moves[0].1), moves[1..]);
    }
  }

  /** Without an overwriting enqueue nothing is ever lost: every accepted item is in the ring or was taken. */
  lemma WithoutOverwriteNothingIsLost<T>(cap: nat, workers: nat, others: nat, moves: seq<(nat, Action<T>)>)
    requires Lossless(moves)
    ensures var s := Run(Start<T>(cap, workers, others), moves);
      && s.overrun == 0 && (forall i: nat :: i < |s.fates| ==> s.fates[i].Taken?)
      && |s.accepted| == s.taken + |s.queue| && |s.queue| <= cap
  {
    StartInv<T>(cap, workers, others);
    LosslessRun(Start<T>(cap, workers, others), moves);
    RunInv(Start<T>(cap, workers, others), moves);
    RunKeepsCap(Start<T>(cap, workers, others), moves);
  }

  lemma {:induction false} RunKeepsCap<T>(s: State<T>, moves: seq<(nat, Action<T>)>)
    ensures Run(s, moves).cap == s.cap && Run(s, moves).workers == s.workers
    decreases |moves|
  {
    if moves != [] {
      RunKeepsCap(Step(s, moves[0].0, moves[0].1), moves[1..]);
    }
  }

  /** So a pool stopped gracefully has then run everything it accepted. */
  lemma LosslessPoolRanEverything<T>(cap: nat, workers: nat, others: nat, moves: seq<(nat, Action<T>)>)
    requires workers > 0 && Lossless(moves)
    ensures var s := Run(Start<T>(cap, workers, others), moves);
      s.mode.Drain? && (forall t: nat :: t < |s.threads| && t in s.workers ==> s.threads[t].Exited?) ==>
        forall i: nat :: i < |s.accepted| ==> i in s.finished
  {
    var s := Run(Start<T>(cap, workers, others), moves);
    WithoutOverwriteNothingIsLost<T>(cap, workers, others, moves);
    StartInv<T>(cap, workers, others);
    RunInv(Start<T>(cap, workers, others), moves);
    RunKeepsCap(Start<T>(cap, workers, others), moves);
    RunKeepsThreads(Start<T>(cap, workers, others), moves);
    assert FirstThreads(workers)[0] in s.workers;
    if s.mode.Drain? && (forall t: nat :: t < |s.threads| && t in s.workers ==> s.threads[t].Exited?) {
      StoppedPoolRanEverything(s);
    }
  }

  lemma {:induction false} RunKeepsThreads<T>(s: State<T>, moves: seq<(nat, Action<T>)>)
    ensures |Run(s, moves).threads| == |s.threads|
    decreases |moves|
  {
    if moves != [] {
      RunKeepsThreads(Step(s, moves[0].0, moves[0].1), moves[1..]);
    }
  }

  // ----- The answers of enqueue -----

  /** In an `enqueue` of this kind that has not been answered. */
  predicate Offers<T(==)>(pc: Pc<T>, push: PushKind, item: T) {
    (pc.PushEnter? || pc.Pushing? || pc.PushAsleep?) && pc.push == push && pc.item == item
  }

  /** The item is taken in: the queue is running, and has room unless the oldest item is given up for it. */
  ghost predicate Accepted<T>(s: State<T>, s': State<T>, t: nat, push: PushKind, item: T)
    requires t < |s.threads| == |s'.threads|
  {
    && !s.Stopped() && (s.Full() ==> push.PushOverwrite?)
    && s'.threads[t].PushNotify? && s'.accepted == s.accepted + [item]
    && |s.queue| <= s.cap && s'.queue == PushBounded(s.queue, item, s.cap)
    && s'.discards == s.discards
  }

  /** It is refused: the queue was stopped, or it was full and this kind would not, or no longer, wait. */
  ghost predicate Refused<T>(s: State<T>, s': State<T>, t: nat, push: PushKind)
    requires t < |s.threads| == |s'.threads|
  {
    && (s.Stopped() || (s.Full() && (push.PushTry? || (push.PushFor? && s.threads[t].Pushing? && s.threads[t].expired))))
    && s'.threads[t].Idle? && s'.accepted == s.accepted && s'.queue == s.queue && s'.overrun == s.overrun
    && s'.discards == s.discards + One(push.PushTry? && s.Full() && s.threads[t].Pushing?)
  }

  ghost predicate PushAnswered<T>(s: State<T>, s': State<T>, t: nat, push: PushKind, item: T) {
    t < |s.threads| == |s'.threads| && (Accepted(s, s', t, push, item) || Refused(s, s', t, push))
  }

  /**
   Under the mutex: exactly over a full running queue the waiting kinds go to sleep, unless their time is
   up; otherwise every kind is answered there and then.
   */
  lemma PushDecides<T>(s: State<T>, t: nat, w: nat)
    requires Inv(s) && AllPatient(s) && t < |s.threads| && s.threads[t].Pushing?
    ensures var pc, s' := s.threads[t], Step(s, t, Go(w));
      if s.Full() && !s.Stopped() && (pc.push.PushWait? || (pc.push.PushFor? && !pc.expired)) then
        s' == s.(threads := s'.threads) && s'.threads[t] == PushAsleep(pc.push, pc.item)
      else PushAnswered(s, s', t, pc.push, pc.item)
  {
    assert Patient(s.threads[t]) && RoleOk(s, t, s.threads[t]);
  }

  lemma OwnPushStep<T>(s: State<T>, t: nat, push: PushKind, item: T, a: Action<T>)
    requires Inv(s) && AllPatient(s) && t < |s.threads| && Offers(s.threads[t], push, item)
    ensures var s' := Step(s, t, a);
      Offers(s'.threads[t], push, item) || PushAnswered(s, s', t, push, item)
  {
    assert RoleOk(s, t, s.threads[t]);
    if s.threads[t].Pushing? {
      PushDecides(s, t, 0);
      assert PushSection(s, s.threads[t]) == Program(s, s.threads[t], a);
    }
  }

  lemma PushStep<T>(s: State<T>, t: nat, push: PushKind, item: T, u: nat, a: Action<T>)
    requires Inv(s) && AllPatient(s) && t < |s.threads| && Offers(s.threads[t], push, item)
    ensures var s' := Step(s, u, a);
      Offers(s'.threads[t], push, item) || (u == t && PushAnswered(s, s', t, push, item))
  {
    if u == t {
      OwnPushStep(s, t, push, item, a);
    }
  }

  /** A timed call that sleeps and runs out of time is answered at its next look, full or not. */
  lemma TimeRunsOut<T>(s: State<T>, t: nat, w: nat)
    requires Inv(s) && AllPatient(s) && t < |s.threads| && s.threads[t].PushAsleep? && s.threads[t].push.PushFor?
    ensures var s1 := Step(s, t, Expire);
      s1 == s.(threads := s1.threads) && PushAnswered(s1, Step(s1, t, Go(w)), t, PushFor, s.threads[t].item)
  {
    var s1 := Step(s, t, Expire);
    StepInv(s, t, Expire);
    PatientStep(s, t, Expire);
    PushDecides(s1, t, w);
  }

  // ----- The answers of dequeue -----

  /** In a `dequeue` of this kind that has not been answered. */
  predicate Asks<T>(pc: Pc<T>, pop: PopKind) {
    (pc.Popping? || pc.PopAsleep?) && pc.pop == pop
  }

  /** The oldest item is taken: the queue has one and is not stopped, or is being drained by a kind that waits. */
  ghost predicate Got<T>(s: State<T>, s': State<T>, t: nat, pop: PopKind)
    requires t < |s.threads| == |s'.threads|
  {
    && s.queue != [] && !s.mode.Immediate? && (pop.PopTry? ==> s.mode.Running?)
    && s'.threads[t] == PopNotify(pop, Some(|s.fates|)) && s'.fates == s.fates + [Taken(t)]
    && |s.fates| < |s.accepted| && s.queue[0] == s.accepted[|s.fates|] && s'.queue == s.queue[1..]
  }

  /** Nothing is taken: there is nothing, or the queue is stopped, and this kind would not, or no longer, wait. */
  ghost predicate GotNothing<T>(s: State<T>, s': State<T>, t: nat, pop: PopKind)
    requires t < |s.threads| == |s'.threads|
  {
    && (s.queue == [] || s.mode.Immediate? || (pop.PopTry? && s.Stopped()))
    && (s.Stopped() || pop.PopTry? || (pop.PopFor? && s.threads[t].Popping? && s.threads[t].expired))
    && s' == s.(threads := s'.threads)
    && s'.threads[t] == (match pop case PopWork => Exited case PopFor => PopNotify(PopFor, None) case _ => Idle)
  }

  ghost predicate PopAnswered<T>(s: State<T>, s': State<T>, t: nat, pop: PopKind) {
    t < |s.threads| == |s'.threads| && (Got(s, s', t, pop) || GotNothing(s, s', t, pop))
  }

  lemma PopDecides<T>(s: State<T>, t: nat, w: nat)
    requires Inv(s) && AllPatient(s) && t < |s.threads| && s.threads[t].Popping?
    ensures var pc, s' := s.threads[t], Step(s, t, Go(w));
      if s.queue == [] && !s.Stopped() && !pc.pop.PopTry? && !(pc.pop.PopFor? && pc.expired) then
        s' == s.(threads := s'.threads) && s'.threads[t] == PopAsleep(pc.pop)
      else PopAnswered(s, s', t, pc.pop)
  {
    assert Patient(s.threads[t]) && RoleOk(s, t, s.threads[t]);
  }

  lemma PopStep<T>(s: State<T>, t: nat, pop: PopKind, u: nat, a: Action<T>)
    requires Inv(s) && AllPatient(s) && t < |s.threads| && Asks(s.threads[t], pop)
    ensures var s' := Step(s, u, a);
      Asks(s'.threads[t], pop) || (u == t && PopAnswered(s, s', t, pop))
  {
    assert RoleOk(s, t, s.threads[t]);
    if u == t && s.threads[t].Popping? {
      PopDecides(s, t, 0);
      assert PopSection(s, s.threads[t]) == Program(s, s.threads[t], a);
    }
  }

  lemma PopTimeRunsOut<T>(s: State<T>, t: nat, w: nat)
    requires Inv(s) && AllPatient(s) && t < |s.threads| && s.threads[t] == PopAsleep(PopFor)
    ensures var s1 := Step(s, t, Expire);
      s1 == s.(threads := s1.threads) && PopAnswered(s1, Step(s1, t, Go(w)), t, PopFor)
  {
    var s1 := Step(s, t, Expire);
    StepInv(s, t, Expire);
    PatientStep(s, t, Expire);
    PopDecides(s1, t, w);
  }

  // ----- Whole runs -----

  /** Before every step of the run the thread is in the call. */
  predicate Through<T>(s: State<T>, t: nat, call: Pc<T> -> bool, moves: seq<(nat, Action<T>)>)
    decreases |moves|
  {
    moves == [] || (t < |s.threads| && call(s.threads[t])
      && Through(Step(s, moves[0].0, moves[0].1), t, call, moves[1..]))
  }

  /** The state before the last step. */
  function Before<T>(s: State<T>, moves: seq<(nat, Action<T>)>): State<T>
    decreases |moves|
  {
    if |moves| <= 1 then s else Before(Step(s, moves[0].0, moves[0].1), moves[1..])
  }

  ghost predicate Reachable<T>(s: State<T>) { Inv(s) && AllPatient(s) }

  /** A call that each step goes on with or answers is, after a run of it, going on or was answered last. */
  lemma {:induction false} CallRuns<T>(s: State<T>, t: nat, moves: seq<(nat, Action<T>)>, call: Pc<T> -> bool,
      answered: (State<T>, State<T>) -> bool)
    requires Reachable(s) && t < |s.threads| && call(s.threads[t]) && Through(s, t, call, moves)
    requires forall x: State<T>, u: nat, a: Action<T> {:trigger Step(x, u, a)} ::
      Reachable(x) && t < |x.threads| && call(x.threads[t]) ==>
        call(Step(x, u, a).threads[t]) || answered(x, Step(x, u, a))
    ensures var s' := Run(s, moves);
      t < |s'.threads| && (call(s'.threads[t]) || answered(Before(s, moves), s'))
    decreases |moves|
  {
    if moves != [] {
      var s1, rest := Step(s, moves[0].0, moves[0].1), moves[1..];
      StepInv(s, moves[0].0, moves[0].1);
      PatientStep(s, moves[0].0, moves[0].1);
      if call(s1.threads[t]) {
        CallRuns(s1, t, rest, call, answered);
      } else {
        assert rest == [];
      }
    }
  }

  /**
   Every `enqueue` of every run, whatever happens during it: when it has come to an answer, the item is
   accepted by a running queue, with room or an overwriting call, or it is refused for one of the reasons
   its kind has.
   */
  lemma EveryPush<T>(cap: nat, workers: nat, others: nat, before: seq<(nat, Action<T>)>, t: nat, push: PushKind, item: T,
      during: seq<(nat, Action<T>)>)
    requires var s := Run(Start<T>(cap, workers, others), before);
      && t < |s.threads| && Offers(s.threads[t], push, item)
      && Through(s, t, pc => Offers(pc, push, item), during)
    ensures var s := Run(Start<T>(cap, workers, others), before);
      var s' := Run(s, during);
      t < |s'.threads| && (Offers(s'.threads[t], push, item) || PushAnswered(Before(s, during), s', t, push, item))
  {
    var s := Run(Start<T>(cap, workers, others), before);
    StartReachable<T>(cap, workers, others, before);
    var call := pc => Offers(pc, push, item);
    var answered := (x: State<T>, y: State<T>) => PushAnswered(x, y, t, push, item);
    forall x: State<T>, u: nat, a: Action<T> | Reachable(x) && t < |x.threads| && call(x.threads[t])
      ensures call(Step(x, u, a).threads[t]) || answered(x, Step(x, u, a))
    {
      PushStep(x, t, push, item, u, a);
    }
    CallRuns(s, t, during, call, answered);
  }

  lemma StartReachable<T>(cap: nat, workers: nat, others: nat, moves: seq<(nat, Action<T>)>)
    ensures Reachable(Run(Start<T>(cap, workers, others), moves))
  {
    StartInv<T>(cap, workers, others);
    RunInv(Start<T>(cap, workers, others), moves);
    PatientRun(Start<T>(cap, workers, others), moves);
  }

  /** The same of every `dequeue`: the oldest item, or nothing for one of the reasons its kind has. */
  lemma EveryPop<T>(cap: nat, workers: nat, others: nat, before: seq<(nat, Action<T>)>, t: nat, pop: PopKind,
      during: seq<(nat, Action<T>)>)
    requires var s := Run(Start<T>(cap, workers, others), before);
      t < |s.threads| && Asks(s.threads[t], pop) && Through(s, t, pc => Asks(pc, pop), during)
    ensures var s := Run(Start<T>(cap, workers, others), before);
      var s' := Run(s, during);
      t < |s'.threads| && (Asks(s'.threads[t], pop) || PopAnswered(Before(s, during), s', t, pop))
  {
    var s := Run(Start<T>(cap, workers, others), before);
    StartReachable<T>(cap, workers, others, before);
    var call := pc => Asks(pc, pop);
    var answered := (x: State<T>, y: State<T>) => PopAnswered(x, y, t, pop);
    forall x: State<T>, u: nat, a: Action<T> | Reachable(x) && t < |x.threads| && call(x.threads[t])
      ensures call(Step(x, u, a).threads[t]) || answered(x, Step(x, u, a))
    {
      PopStep(x, t, pop, u, a);
    }
    CallRuns(s, t, during, call, answered);
  }

  // ----- Stopping -----

  /** In a stop: yet to look, or the one that set the mode. */
  predicate Stopping<T>(s: State<T>, t: nat, to: Mode)
    requires t < |s.threads|
  {
    match s.threads[t]
    case StopEnter(mode) => mode == to
    case StopNotifyEmpty => s.mode == to
    case StopNotifyFull => s.mode == to
    case _ => false
  }

  /** The first stop settles the mode for good. */
  lemma {:induction false} ModeSticks<T>(s: State<T>, moves: seq<(nat, Action<T>)>)
    requires s.Stopped()
    ensures Run(s, moves).mode == s.mode
    decreases |moves|
  {
    if moves != [] {
      ModeSticks(Step(s, moves[0].0, moves[0].1), moves[1..]);
    }
  }

  /** A stop goes on, or ends with the queue stopped: by itself, or by an earlier one. */
  lemma StopStep<T>(s: State<T>, t: nat, to: Mode, u: nat, a: Action<T>)
    requires Inv(s) && t < |s.threads| && Stopping(s, t, to)
    ensures var s' := Step(s, u, a);
      Stopping(s', t, to) || (u == t && s'.threads[t].Idle? && s'.Stopped() && (s'.mode == to || s.threads[t].StopEnter?))
  {
    assert RoleOk(s, t, s.threads[t]) && PhaseOk(s, s.threads[t]);
  }

  /** Once the stops are through, nobody sleeps any more. */
  lemma StoppedNobodySleeps<T>(s: State<T>)
    requires Inv(s) && s.Stopped()
    requires forall t: nat :: t < |s.threads| ==> !s.threads[t].StopNotifyEmpty? && !s.threads[t].StopNotifyFull?
    ensures !SomePopAsleep(s) && !SomePushAsleep(s)
  {
  }

  // ----- Calls undisturbed -----

  function Call<T>(s: State<T>, t: nat, a: Action<T>, steps: nat): (s': State<T>)
    ensures |s'.threads| == |s.threads|
  {
    if steps == 0 then Step(s, t, a) else Step(Call(s, t, a, steps - 1), t, Go(0))
  }

  /** Undisturbed, every kind of enqueue stores its item in a running queue with room. */
  lemma AlonePush<T>(s: State<T>, t: nat, push: PushKind, item: T)
    requires Inv(s) && t < |s.threads| && s.threads[t].Idle? && s.mode.Running? && !s.Full()
    ensures var s' := Call(s, t, CallPush(push, item), 2);
      s'.queue == s.queue + [item] && s'.accepted == s.accepted + [item] && s'.threads[t].PushNotify?
  {
    assert RoleOk(s, t, s.threads[t]);
    assert Call(s, t, CallPush(push, item), 0).threads[t] == PushEnter(push, item);
    assert Call(s, t, CallPush(push, item), 1).threads[t] == Pushing(push, item, false, false);
  }

  /** Undisturbed, every kind of dequeue takes the oldest item of a running queue that has one. */
  lemma AlonePop<T>(s: State<T>, t: nat, pop: PopKind)
    requires Inv(s) && t < |s.threads| && s.threads[t].Idle? && s.mode.Running? && s.queue != []
    requires s.workers == {} && !pop.PopWork?
    ensures var s' := Call(s, t, CallPop(pop), 1);
      s'.queue == s.queue[1..] && s'.threads[t] == PopNotify(pop, Some(|s.fates|)) && s.accepted[|s.fates|] == s.queue[0]
  {
    assert Call(s, t, CallPop(pop), 0).threads[t] == Popping(pop, false, false);
  }
}
