/** No wakeup of the blocking queue is lost, and no item of it is lost, repeated or reordered. */
module BlockingQueueSafety {
  import opened BlockingQueue
  import opened CircularQueue

  function One(b: bool): nat { if b then 1 else 0 }

  // ----- Counting threads -----

  function Those<T>(threads: seq<Pc<T>>, p: Pc<T> -> bool): set<nat> {
    set u | 0 <= u < |threads| && p(threads[u])
  }

  lemma CountMoved<T>(threads: seq<Pc<T>>, t: nat, pc: Pc<T>, p: Pc<T> -> bool)
    requires t < |threads|
    ensures |Those(threads[t := pc], p)| == |Those(threads, p)| - One(p(threads[t])) + One(p(pc))
  {
    var before, after := Those(threads, p), Those(threads[t := pc], p);
    assert after - {t} == before - {t};
    assert |before| == |before - {t}| + One(t in before);
    assert |after| == |after - {t}| + One(t in after);
  }

  predicate PopWoken<T>(pc: Pc<T>) { pc.Popping? && pc.woken }
  predicate PushWoken<T>(pc: Pc<T>) { pc.Pushing? && pc.woken }
  predicate OwesEmpty<T>(pc: Pc<T>) { pc.PushNotify? }
  predicate OwesFull<T>(pc: Pc<T>) { pc.PopNotify? }

  function HowMany<T>(s: State<T>, p: Pc<T> -> bool): nat { |Those(s.threads, p)| }

  // ----- The invariant -----

  /** While consumers sleep, every queued item has a consumer woken for it or a notice still to come. */
  predicate PopLaw<T>(s: State<T>) {
    s.mode.Running? && SomePopAsleep(s) ==> |s.queue| <= HowMany(s, PopWoken) + HowMany(s, OwesEmpty)
  }

  /** While producers sleep, the same for every free slot. */
  predicate PushLaw<T>(s: State<T>) {
    s.mode.Running? && SomePushAsleep(s) ==> s.cap - |s.queue| <= HowMany(s, PushWoken) + HowMany(s, OwesFull)
  }

  predicate StopperAt<T>(s: State<T>, early: bool) {
    exists u: nat :: u < |s.threads| && (s.threads[u].StopNotifyEmpty? || (!early && s.threads[u].StopNotifyFull?))
  }

  predicate StopLaw<T>(s: State<T>) {
    s.Stopped() ==> (SomePopAsleep(s) ==> StopperAt(s, true)) && (SomePushAsleep(s) ==> StopperAt(s, false))
  }

  /** The item a thread has in hand. */
  function InHand<T>(pc: Pc<T>): Option<nat> {
    match pc
    case PopNotify(_, got) => got
    case Starting(i) => Some(i)
    case Delivering(i) => Some(i)
    case _ => None
  }

  ghost predicate Order<T>(s: State<T>) {
    && |s.queue| <= s.cap
    && |s.fates| + |s.queue| == |s.accepted|
    && s.queue == s.accepted[|s.fates|..]
    && s.taken + s.overrun == |s.fates|
    && s.taken == |s.holding| + |s.finished|
  }

  predicate ItemOk<T>(s: State<T>, i: nat)
    requires i < |s.fates|
  {
    match s.fates[i]
    case Dropped => i !in s.holding && i !in s.finished
    case Taken(t) =>
      && (i in s.holding <==> i !in s.finished)
      && (i in s.holding ==> t < |s.threads| && InHand(s.threads[t]) == Some(i))
  }

  /** A task has started exactly when its worker has got as far as running it, and then once. */
  predicate StartOk<T>(s: State<T>, i: nat)
    requires i < |s.fates|
  {
    match s.fates[i]
    case Dropped => i !in s.started
    case Taken(t) =>
      && (s.workers != {} ==> t in s.workers)
      && (t in s.workers ==>
           (i in s.started <==> i in s.finished || (t < |s.threads| && s.threads[t] == Delivering(i))))
  }

  ghost predicate Starts<T>(s: State<T>) {
    && (forall i: nat :: i < |s.fates| ==> StartOk(s, i))
    && (forall k, l :: 0 <= k < l < |s.started| ==> s.started[k] != s.started[l])
    && (forall i: nat :: i in s.started ==> i < |s.fates| && s.fates[i].Taken? && s.fates[i].thread in s.workers)
  }

  predicate SingleWorker<T>(s: State<T>) {
    forall t, u :: t in s.workers && u in s.workers ==> t == u
  }

  /** A worker with a task in hand that it has not begun to run. */
  predicate YetToStart<T>(s: State<T>, t: nat)
    requires t < |s.threads|
  {
    t in s.workers && InHand(s.threads[t]).Some? && !s.threads[t].Delivering?
  }

  /** The next task of the only worker comes after all it has started. */
  ghost predicate StartsInOrder<T>(s: State<T>) {
    SingleWorker(s) ==>
      && (forall k, l :: 0 <= k < l < |s.started| ==> s.started[k] < s.started[l])
      && (forall t: nat, k :: t < |s.threads| && 0 <= k < |s.started| && YetToStart(s, t) ==>
            s.started[k] < InHand(s.threads[t]).value)
  }

  predicate HandOk<T>(s: State<T>, t: nat)
    requires t < |s.threads|
  {
    InHand(s.threads[t]).Some? ==>
      var i := InHand(s.threads[t]).value;
      i < |s.fates| && s.fates[i] == Taken(t) && i in s.holding
  }

  ghost predicate Items<T>(s: State<T>) {
    && (forall i: nat :: i < |s.fates| ==> ItemOk(s, i))
    && (forall t: nat :: t < |s.threads| ==> HandOk(s, t))
    && (forall i: nat :: i in s.holding || i in s.finished ==> i < |s.fates|)
  }

  predicate WorkerPc<T>(pc: Pc<T>) {
    match pc
    case Popping(pop, _, _) => pop.PopWork?
    case PopAsleep(pop) => pop.PopWork?
    case PopNotify(pop, got) => pop.PopWork? && got.Some?
    case Starting(_) => true
    case Delivering(_) => true
    case Exited => true
    case _ => false
  }

  predicate OtherPc<T>(pc: Pc<T>, pool: bool) {
    match pc
    case Popping(pop, _, _) => !pop.PopWork? && !pool
    case PopAsleep(pop) => !pop.PopWork? && !pool
    case PopNotify(pop, _) => !pop.PopWork? && !pool
    case Delivering(_) => !pool
    case Starting(_) => false
    case Exited => false
    case StopEnter(mode) => !mode.Running?
    case _ => true
  }

  predicate RoleOk<T>(s: State<T>, t: nat, pc: Pc<T>) {
    if t in s.workers then WorkerPc(pc) else OtherPc(pc, s.workers != {})
  }

  predicate PhaseOk<T>(s: State<T>, pc: Pc<T>) {
    && (pc.Exited? ==> s.mode.Immediate? || (s.mode.Drain? && s.queue == []))
    && (pc.StopNotifyEmpty? || pc.StopNotifyFull? ==> s.Stopped())
  }

  ghost predicate Workers<T>(s: State<T>) {
    forall t: nat :: t < |s.threads| ==>
      RoleOk(s, t, s.threads[t]) && PhaseOk(s, s.threads[t])
  }

  ghost predicate Inv<T>(s: State<T>) {
    Order(s) && Items(s) && Starts(s) && StartsInOrder(s) && Workers(s) && PopLaw(s) && PushLaw(s) && StopLaw(s)
  }

  // ----- One step -----

  function After<T>(s: State<T>, t: nat, e: Effect<T>, w: nat, pc: Pc<T>): (s': State<T>)
    requires t < |s.threads| && Enabled(s, e, w)
  {
    Perform(s, t, e).(threads := WakeThreads(s.threads, e, w)[t := pc])
  }

  predicate Notices<T>(e: Effect<T>) {
    e.WakeOnePop? || e.WakeOnePush? || e.WakeAllPop? || e.WakeAllPush?
  }

  /** What the program guarantees about any one step: who may sleep, who is counted, what is in hand. */
  predicate StepFits<T>(s: State<T>, t: nat, pc: Pc<T>, e: Effect<T>, pc': Pc<T>) {
    && (PopWoken(pc) && !PopWoken(pc') ==> e.TakeFront? || s.queue == [] || s.Stopped())
    && (pc'.PopAsleep? ==> pc.PopAsleep? || (e.Nop? && s.queue == [] && !s.Stopped()))
    && (e.Push? ==> OwesEmpty(pc') && !OwesFull(pc) && !PopWoken(pc) && !s.Stopped())
    && (OwesEmpty(pc) <==> e.WakeOnePop?)
    && (PushWoken(pc) && !PushWoken(pc') ==> e.Push? || s.Full() || s.Stopped())
    && (pc'.PushAsleep? ==> pc.PushAsleep? || (e.Nop? && s.Full() && !s.Stopped()))
    && (e.TakeFront? ==> OwesFull(pc') && !PushWoken(pc) && s.queue != [] && !s.mode.Immediate?)
    && (OwesFull(pc) <==> e.WakeOnePush?)
    && (e.SetMode? ==> pc'.StopNotifyEmpty? && !e.mode.Running? && !s.Stopped())
    && (pc.StopNotifyEmpty? ==> e.WakeAllPop? && pc'.StopNotifyFull?)
    && (pc.StopNotifyFull? ==> e.WakeAllPush?)
    && (e.WakeAllPop? ==> pc.StopNotifyEmpty?)
    && (e.WakeAllPush? ==> pc.StopNotifyFull?)
    && (Notices(e) ==> !pc'.PopAsleep? && !pc'.PushAsleep?)
    && (pc'.StopNotifyEmpty? ==> e.SetMode?)
    && (pc'.StopNotifyFull? ==> e.WakeAllPop?)
    && InHand(pc') == (match e
        case TakeFront => Some(|s.fates|)
        case Deliver(i) => None
        case _ => InHand(pc))
    && (e.TakeFront? ==> InHand(pc).None?)
    && (e.Deliver? ==> InHand(pc) == Some(e.task))
    && (e.Begin? ==> InHand(pc) == Some(e.task) && pc.Starting? && pc'.Delivering?)
    && (pc'.Exited? ==> pc.Exited? || s.mode.Immediate? || (s.mode.Drain? && s.queue == []))
    && RoleOk(s, t, pc')
    && (e.TakeFront? && s.workers != {} ==> t in s.workers)
    && (pc'.Delivering? && t in s.workers ==> e.Begin?)
    && (e.Deliver? <==> pc.Delivering?)
    && (pc'.Starting? ==> t in s.workers && e.WakeOnePush?)
  }

  lemma ProgramFits<T>(s: State<T>, t: nat, pc: Pc<T>, a: Action<T>, e: Effect<T>, pc': Pc<T>)
    requires RoleOk(s, t, pc)
    requires (e, pc') == Program(s, pc, a)
    ensures StepFits(s, t, pc, e, Resume(s, t, pc'))
  {
  }

  lemma WakeNobody<T>(threads: seq<Pc<T>>, e: Effect<T>, w: nat)
    requires forall u :: 0 <= u < |threads| ==> !Woken(threads[u], e, u, w)
    ensures WakeThreads(threads, e, w) == threads
  {
  }

  lemma WakeOne<T>(threads: seq<Pc<T>>, e: Effect<T>, w: nat)
    requires w < |threads| && Woken(threads[w], e, w, w) && (e.WakeOnePop? || e.WakeOnePush?)
    ensures WakeThreads(threads, e, w) == threads[w := Awake(threads[w])]
  {
  }

  /** How a step that notifies at most one sleeper changes the number of threads of some kind. */
  lemma CountAfter<T>(s: State<T>, t: nat, e: Effect<T>, w: nat, pc: Pc<T>, p: Pc<T> -> bool)
    requires t < |s.threads| && Enabled(s, e, w) && !e.WakeAllPop? && !e.WakeAllPush?
    requires e.WakeOnePop? || e.WakeOnePush? ==> !s.threads[t].PopAsleep? && !s.threads[t].PushAsleep?
    ensures HowMany(After(s, t, e, w, pc), p) ==
      HowMany(s, p) - One(p(s.threads[t])) + One(p(pc))
      + (if w < |s.threads| && Woken(s.threads[w], e, w, w) then
           One(p(Awake(s.threads[w]))) - One(p(s.threads[w])) else 0)
  {
    if w < |s.threads| && Woken(s.threads[w], e, w, w) {
      WakeOne(s.threads, e, w);
      CountMoved(s.threads, w, Awake(s.threads[w]), p);
      CountMoved(s.threads[w := Awake(s.threads[w])], t, pc, p);
    } else {
      WakeNobody(s.threads, e, w);
      CountMoved(s.threads, t, pc, p);
    }
  }

  lemma Others<T>(s: State<T>, t: nat, e: Effect<T>, w: nat, pc: Pc<T>)
    requires t < |s.threads| && Enabled(s, e, w)
    ensures var s' := After(s, t, e, w, pc);
      && |s'.threads| == |s.threads| && s'.threads[t] == pc
      && forall u: nat :: u < |s.threads| && u != t ==>
           s'.threads[u] == if Woken(s.threads[u], e, u, w) then Awake(s.threads[u]) else s.threads[u]
  {
  }

  lemma StepPopLaw<T>(s: State<T>, t: nat, e: Effect<T>, w: nat, pc: Pc<T>)
    requires PopLaw(s) && Order(s) && t < |s.threads| && Enabled(s, e, w)
    requires StepFits(s, t, s.threads[t], e, pc) && PhaseOk(s, s.threads[t])
    ensures PopLaw(After(s, t, e, w, pc))
  {
    var s' := After(s, t, e, w, pc);
    Others(s, t, e, w, pc);
    if s'.mode.Running? && SomePopAsleep(s') {
      CountAfter(s, t, e, w, pc, PopWoken);
      CountAfter(s, t, e, w, pc, OwesEmpty);
      var x: nat :| x < |s'.threads| && s'.threads[x].PopAsleep?;
      assert s.threads[x].PopAsleep? || (x == t && s.queue == []);
    }
  }

  lemma StepPushLaw<T>(s: State<T>, t: nat, e: Effect<T>, w: nat, pc: Pc<T>)
    requires PushLaw(s) && Order(s) && t < |s.threads| && Enabled(s, e, w)
    requires StepFits(s, t, s.threads[t], e, pc) && PhaseOk(s, s.threads[t])
    ensures PushLaw(After(s, t, e, w, pc))
  {
    var s' := After(s, t, e, w, pc);
    Others(s, t, e, w, pc);
    if s'.mode.Running? && SomePushAsleep(s') {
      CountAfter(s, t, e, w, pc, PushWoken);
      CountAfter(s, t, e, w, pc, OwesFull);
      var x: nat :| x < |s'.threads| && s'.threads[x].PushAsleep?;
      assert s.threads[x].PushAsleep? || (x == t && s.Full());
    }
  }

  lemma PopStopStep<T>(s: State<T>, t: nat, e: Effect<T>, w: nat, pc: Pc<T>)
    requires StopLaw(s) && t < |s.threads| && Enabled(s, e, w)
    requires StepFits(s, t, s.threads[t], e, pc) && PhaseOk(s, s.threads[t])
    ensures var s' := After(s, t, e, w, pc); s'.Stopped() && SomePopAsleep(s') ==> StopperAt(s', true)
  {
    var s' := After(s, t, e, w, pc);
    Others(s, t, e, w, pc);
    if s'.Stopped() && SomePopAsleep(s') {
      if e.SetMode? {
        assert s'.threads[t].StopNotifyEmpty?;
      } else {
        var x: nat :| x < |s'.threads| && s'.threads[x].PopAsleep?;
        assert s.threads[x].PopAsleep? && !e.WakeAllPop?;
        var u: nat :| u < |s.threads| && s.threads[u].StopNotifyEmpty?;
        assert s'.threads[u].StopNotifyEmpty?;
      }
    }
  }

  lemma PushStopStep<T>(s: State<T>, t: nat, e: Effect<T>, w: nat, pc: Pc<T>)
    requires StopLaw(s) && t < |s.threads| && Enabled(s, e, w)
    requires StepFits(s, t, s.threads[t], e, pc) && PhaseOk(s, s.threads[t])
    ensures var s' := After(s, t, e, w, pc); s'.Stopped() && SomePushAsleep(s') ==> StopperAt(s', false)
  {
    var s' := After(s, t, e, w, pc);
    Others(s, t, e, w, pc);
    if s'.Stopped() && SomePushAsleep(s') {
      if e.SetMode? {
        assert s'.threads[t].StopNotifyEmpty?;
      } else {
        var x: nat :| x < |s'.threads| && s'.threads[x].PushAsleep?;
        assert s.threads[x].PushAsleep? && !e.WakeAllPush?;
        var u: nat :| u < |s.threads| && (s.threads[u].StopNotifyEmpty? || s.threads[u].StopNotifyFull?);
        assert s'.threads[u].StopNotifyEmpty? || s'.threads[u].StopNotifyFull?;
      }
    }
  }

  lemma StepStopLaw<T>(s: State<T>, t: nat, e: Effect<T>, w: nat, pc: Pc<T>)
    requires StopLaw(s) && t < |s.threads| && Enabled(s, e, w)
    requires StepFits(s, t, s.threads[t], e, pc) && PhaseOk(s, s.threads[t])
    ensures StopLaw(After(s, t, e, w, pc))
  {
    PopStopStep(s, t, e, w, pc);
    PushStopStep(s, t, e, w, pc);
  }

  lemma StepOrder<T>(s: State<T>, t: nat, e: Effect<T>, w: nat, pc: Pc<T>)
    requires Order(s) && Items(s) && t < |s.threads| && Enabled(s, e, w)
    requires StepFits(s, t, s.threads[t], e, pc)
    ensures Order(After(s, t, e, w, pc))
  {
    if e.Push? {
      PushKeepsSuffix(s.accepted, |s.fates|, e.item, s.cap);
    }
    assert HandOk(s, t);
    if e.Deliver? {
      assert ItemOk(s, e.task);
    }
  }

  lemma StepItem<T>(s: State<T>, t: nat, e: Effect<T>, w: nat, pc: Pc<T>, i: nat)
    requires Order(s) && Items(s) && t < |s.threads| && Enabled(s, e, w)
    requires StepFits(s, t, s.threads[t], e, pc)
    requires i < |After(s, t, e, w, pc).fates|
    ensures ItemOk(After(s, t, e, w, pc), i)
  {
    Others(s, t, e, w, pc);
    assert HandOk(s, t);
    assert i < |s.fates| ==> ItemOk(s, i);
  }

  lemma StepHand<T>(s: State<T>, t: nat, e: Effect<T>, w: nat, pc: Pc<T>, u: nat)
    requires Order(s) && Items(s) && t < |s.threads| && Enabled(s, e, w)
    requires StepFits(s, t, s.threads[t], e, pc) && u < |s.threads|
    ensures u < |After(s, t, e, w, pc).threads| && HandOk(After(s, t, e, w, pc), u)
  {
    Others(s, t, e, w, pc);
    assert HandOk(s, t) && HandOk(s, u);
  }

  lemma StepItems<T>(s: State<T>, t: nat, e: Effect<T>, w: nat, pc: Pc<T>)
    requires Order(s) && Items(s) && t < |s.threads| && Enabled(s, e, w)
    requires StepFits(s, t, s.threads[t], e, pc)
    ensures Items(After(s, t, e, w, pc))
  {
    var s' := After(s, t, e, w, pc);
    Others(s, t, e, w, pc);
    assert HandOk(s, t);
    forall i: nat | i < |s'.fates| ensures ItemOk(s', i) {
      StepItem(s, t, e, w, pc, i);
    }
    forall u: nat | u < |s'.threads| ensures HandOk(s', u) {
      StepHand(s, t, e, w, pc, u);
    }
  }

  lemma StepStarts<T>(s: State<T>, t: nat, e: Effect<T>, w: nat, pc: Pc<T>)
    requires Order(s) && Items(s) && Starts(s) && t < |s.threads| && Enabled(s, e, w)
    requires StepFits(s, t, s.threads[t], e, pc) && RoleOk(s, t, s.threads[t])
    ensures Starts(After(s, t, e, w, pc))
  {
    var s' := After(s, t, e, w, pc);
    Others(s, t, e, w, pc);
    assert HandOk(s, t);
    if e.Begin? {
      assert ItemOk(s, e.task) && StartOk(s, e.task);
      assert e.task !in s.started;
    }
    assert forall i: nat :: i in s'.started <==> i in s.started || (e.Begin? && i == e.task);
    forall i: nat | i < |s'.fates| ensures StartOk(s', i) {
      assert i < |s.fates| ==> StartOk(s, i) && ItemOk(s, i);
    }
  }

  lemma StartsBefore<T>(s: State<T>, t: nat, e: Effect<T>, w: nat, pc: Pc<T>, u: nat, k: nat)
    requires Starts(s) && StartsInOrder(s) && t < |s.threads| && Enabled(s, e, w)
    requires StepFits(s, t, s.threads[t], e, pc) && RoleOk(s, t, s.threads[t])
    requires var s' := After(s, t, e, w, pc);
      SingleWorker(s') && u < |s'.threads| && k < |s'.started| && YetToStart(s', u)
    ensures var s' := After(s, t, e, w, pc); s'.started[k] < InHand(s'.threads[u]).value
  {
    Others(s, t, e, w, pc);
    assert k < |s.started| ==> s.started[k] in s.started;
    assert t in s.workers ==> u == t;
    assert !e.TakeFront? || u != t ==> YetToStart(s, u);
  }

  lemma StepStartsInOrder<T>(s: State<T>, t: nat, e: Effect<T>, w: nat, pc: Pc<T>)
    requires Starts(s) && StartsInOrder(s) && t < |s.threads| && Enabled(s, e, w)
    requires StepFits(s, t, s.threads[t], e, pc) && RoleOk(s, t, s.threads[t])
    ensures StartsInOrder(After(s, t, e, w, pc))
  {
    var s' := After(s, t, e, w, pc);
    if SingleWorker(s') {
      Others(s, t, e, w, pc);
      assert e.Begin? ==> YetToStart(s, t);
      forall u: nat, k: nat | u < |s'.threads| && k < |s'.started| && YetToStart(s', u)
        ensures s'.started[k] < InHand(s'.threads[u]).value
      {
        StartsBefore(s, t, e, w, pc, u, k);
      }
    }
  }

  lemma StepWorkers<T>(s: State<T>, t: nat, e: Effect<T>, w: nat, pc: Pc<T>)
    requires Workers(s) && t < |s.threads| && Enabled(s, e, w)
    requires StepFits(s, t, s.threads[t], e, pc)
    ensures Workers(After(s, t, e, w, pc))
  {
    var s' := After(s, t, e, w, pc);
    Others(s, t, e, w, pc);
    forall u: nat | u < |s'.threads|
      ensures RoleOk(s', u, s'.threads[u]) && PhaseOk(s', s'.threads[u])
    {
      assert RoleOk(s, u, s.threads[u]) && PhaseOk(s, s.threads[u]);
    }
  }

  lemma StepInv<T>(s: State<T>, t: nat, a: Action<T>)
    requires Inv(s)
    ensures Inv(Step(s, t, a))
  {
    if t < |s.threads| {
      var (e, pc) := Program(s, s.threads[t], a);
      var w := if a.Go? then a.sleeper else t;
      var pc' := Resume(s, t, pc);
      assert RoleOk(s, t, s.threads[t]) && PhaseOk(s, s.threads[t]);
      ProgramFits(s, t, s.threads[t], a, e, pc);
      if Enabled(s, e, w) {
        StepOrder(s, t, e, w, pc');
        StepItems(s, t, e, w, pc');
        StepStarts(s, t, e, w, pc');
        StepStartsInOrder(s, t, e, w, pc');
        StepWorkers(s, t, e, w, pc');
        StepPopLaw(s, t, e, w, pc');
        StepPushLaw(s, t, e, w, pc');
        StepStopLaw(s, t, e, w, pc');
      }
    }
  }

  lemma StartInv<T>(cap: nat, workers: nat, others: nat)
    ensures Inv(Start<T>(cap, workers, others))
  {
    var s := Start<T>(cap, workers, others);
    var ids := FirstThreads(workers);
    forall t: nat | t < workers ensures t in s.workers {
      assert ids[t] == t;
    }
  }

  /** Main result: the whole invariant holds after any run of any threads. */
  lemma {:induction false} RunInv<T>(s: State<T>, moves: seq<(nat, Action<T>)>)
    requires Inv(s)
    ensures Inv(Run(s, moves))
    decreases |moves|
  {
    if moves != [] {
      StepInv(s, moves[0].0, moves[0].1);
      RunInv(Step(s, moves[0].0, moves[0].1), moves[1..]);
    }
  }

  // ----- What it means -----

  /**
   A step is only ever refused to a `notify_one` that names no sleeper while there is one, so some
   choice of sleeper always lets the thread go on.
   */
  lemma NotifyFindsSleeper<T>(s: State<T>, t: nat)
    requires Inv(s) && t < |s.threads| && (s.threads[t].PushNotify? || s.threads[t].PopNotify?)
    ensures exists w: nat :: Enabled(s, Program(s, s.threads[t], Go(w)).0, w)
  {
    if s.threads[t].PushNotify? && SomePopAsleep(s) {
      var u: nat :| u < |s.threads| && s.threads[u].PopAsleep?;
      assert Enabled(s, Program(s, s.threads[t], Go(u)).0, u);
    } else if s.threads[t].PopNotify? && SomePushAsleep(s) {
      var u: nat :| u < |s.threads| && s.threads[u].PushAsleep?;
      assert Enabled(s, Program(s, s.threads[t], Go(u)).0, u);
    } else {
      assert Enabled(s, Program(s, s.threads[t], Go(0)).0, 0);
    }
  }

  /** With no notice under way and nobody woken, a sleeping consumer means an empty queue, a sleeping producer a full one. */
  lemma SleepIsJustified<T>(s: State<T>)
    requires Inv(s) && s.mode.Running?
    requires forall u: nat :: u < |s.threads| ==>
      !PopWoken(s.threads[u]) && !PushWoken(s.threads[u]) && !OwesEmpty(s.threads[u]) && !OwesFull(s.threads[u])
    ensures SomePopAsleep(s) ==> s.queue == []
    ensures SomePushAsleep(s) ==> |s.queue| == s.cap
  {
    assert Those(s.threads, PopWoken) == {} && Those(s.threads, OwesEmpty) == {};
    assert Those(s.threads, PushWoken) == {} && Those(s.threads, OwesFull) == {};
  }

  /**
   After `stop_gracefully` has joined the workers: nothing is left in the queue, every accepted task
   either was overwritten or has run, started exactly once, and the counts add up.
   */
  lemma StoppedPoolRanEverything<T>(s: State<T>)
    requires Inv(s) && s.mode.Drain?
    requires exists t: nat :: t < |s.threads| && t in s.workers
    requires forall t: nat :: t < |s.threads| && t in s.workers ==> s.threads[t].Exited?
    ensures s.queue == [] && |s.fates| == |s.accepted|
    ensures forall i: nat :: i < |s.accepted| ==>
      (s.fates[i].Dropped? <==> i !in s.finished) && (i in s.started <==> i in s.finished)
    ensures forall k, l :: 0 <= k < l < |s.started| ==> s.started[k] != s.started[l]
    ensures |s.accepted| == |s.finished| + s.overrun
  {
    var w: nat :| w < |s.threads| && w in s.workers;
    assert PhaseOk(s, s.threads[w]);
    forall i: nat | i < |s.fates|
      ensures i !in s.holding
      ensures (s.fates[i].Dropped? <==> i !in s.finished) && (i in s.started <==> i in s.finished)
    {
      assert ItemOk(s, i) && StartOk(s, i);
    }
    assert s.holding == {};
  }

  /** With one worker, tasks start in the order they were accepted. */
  lemma OneWorkerStartsInOrder<T>(s: State<T>)
    requires Inv(s) && SingleWorker(s)
    ensures forall k, l :: 0 <= k < l < |s.started| ==> s.started[k] < s.started[l]
  {
  }
}
