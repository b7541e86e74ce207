/** How fair the minimum-virtual-runtime pick is. */
module KernelFair {
  import opened Freelist
  import opened Kernel
  import opened KernelInv
  import opened KernelSteps
  import opened KernelRuns
  import opened KernelTimes

  // ---------------------------------------------------------------- who is runnable across a pop

  ghost predicate Runnable(s: State, t: Tid) {
    t == s.current || t in s.rq
  }

  /** Nobody becomes runnable by a pop, and nobody but an outgoing task that is not running stops being so. */
  lemma RescheduledRunnable(s: State, now1: nat, now2: nat, t: Tid)
    requires QueueExact(s) && CanReschedule(s)
    ensures Runnable(Rescheduled(s, now1, now2), t) <==>
            t in s.rq || (t == s.current && s.tasks[s.current].run.Running?)
  {
    DeferredReclaimedTimes(s);
    var p := AtPop(s, now1);
    EnqueuedMembers(p.tasks, p.rq, p.current);
    DispatchedTimes(p, now2);
    var q := Candidates(p);
    assert q == [q[0]] + q[1..];
  }

  // ---------------------------------------------------------------- the band

  /** The running task was dispatched at `_min_vruntime` and everybody queued is within `b` above it. */
  ghost predicate Band(s: State, b: nat) {
    && s.current in s.tasks && Known(s.tasks, s.rq)
    && s.tasks[s.current].vruntime == s.minVruntime
    && forall t :: t in s.rq ==> s.minVruntime <= s.tasks[t].vruntime <= s.minVruntime + b
  }

  /** Detaching tasks and joining stopped ones, which switches to nobody and queues nobody. */
  predicate Reaps(a: Action) {
    || a.EnterJoin? || a.EnterDetach? || a.JoinRefuse? || a.JoinStopped? || a.Detach?
    || a.JoinReturn? || a.DetachReturn? || a.Clear?
  }

  /** Yields, preemptions, spawns, exits nobody waits for, and detaching or joining stopped tasks, with
      every slice of less than `b + 1` microseconds. */
  predicate FairAction(s: State, a: Action, b: nat)
    requires s.current in s.tasks
  {
    && (a.Yield? || Spawns(a) || Reaps(a) || (a.Exit? && Cur(s).joiner.None?))
    && (a.Yield? || a.Exit? ==> a.now1 < s.lastTick + 1000 * (b + 1))
  }

  /** One `sched_node::yield` keeps the band. */
  lemma RescheduledKeepsBand(s: State, now1: nat, now2: nat, b: nat)
    requires Core(s) && CanReschedule(s) && Band(s, b) && now1 < s.lastTick + 1000 * (b + 1)
    ensures Band(Rescheduled(s, now1, now2), b)
  {
    var s' := Rescheduled(s, now1, now2);
    RescheduledTimes(s, now1, now2);
    RescheduledKeepsInv(s, now1, now2);
    RescheduledRunnable(s, now1, now2, s'.current);
    forall t | t in s'.rq ensures s'.minVruntime <= s'.tasks[t].vruntime <= s'.minVruntime + b {
      RescheduledRunnable(s, now1, now2, t);
      PopYieldsMinimum(s, now1, now2, t);
    }
  }

  lemma NewcomerKeepsBand(s: State, s': State, u: Tid, k: Task, b: nat)
    requires Band(s, b) && TwoChange(s, s', u, k, Body) && s'.current == s.current && s'.minVruntime == s.minVruntime
    requires k.vruntime == s.minVruntime && forall t :: t in s'.rq <==> t in s.rq || t == u
    ensures Band(s', b)
  {
    forall i | 0 <= i < |s'.rq| ensures s'.rq[i] in s'.tasks { assert s'.rq[i] in s'.rq; }
  }

  lemma MakeKeepsBand(s: State, a: Action, b: nat)
    requires Inv(s) && May(s, a) && a.SpawnMake? && Band(s, b)
    ensures Band(Next(s, a), b)
  {
    ChoiceIsIdle(s, a);
    var k := MakeEffect(s, a.attr, a.addr, a.total);
    UnqueuedKeepsBand(s, Next(s, a), Choice(s, a.attr, a.addr), k, b);
  }

  lemma UnqueuedKeepsBand(s: State, s': State, u: Tid, k: Task, b: nat)
    requires Band(s, b) && TwoChange(s, s', u, k, Spawning(u)) && SameClock(s, s') && s'.rq == s.rq && u !in s.rq
    ensures Band(s', b)
  {}

  /** Tasks being made still have the key zero. */
  ghost predicate NascentAtZero(s: State) {
    forall t :: t in s.tasks && s.tasks[t].pc.Nascent? ==> s.tasks[t].vruntime == 0
  }

  lemma FinishKeepsBand(s: State, a: Action, b: nat)
    requires Inv(s) && May(s, a) && a.SpawnFinish? && Band(s, b) && NascentAtZero(s)
    ensures Band(Next(s, a), b)
  {
    MadeTaskIsNascent(s);
    FinishEffect(s);
    SpawnedQueue(s);
    var u := Cur(s).pc.made;
    NewcomerKeepsBand(s, Next(s, a), u, Next(s, a).tasks[u], b);
  }

  lemma SpawnedQueue(s: State)
    requires Sane(s) && Cur(s).pc.Spawning?
    ensures forall t :: t in Spawned(s).rq <==> t in s.rq || t == Cur(s).pc.made
  {
    EnqueuedMembers(Spawned(s).tasks, s.rq, Cur(s).pc.made);
  }

  lemma ReapQueue(s: State, a: Action)
    requires Sane(s) && Enabled(s, a) && Reaps(a)
    ensures Next(s, a).rq == s.rq && Next(s, a).current == s.current
  {
    if !a.Detach? && !a.JoinReturn? && !a.DetachReturn? { StepOnlyMoves(s, a); }
  }

  lemma ReapKeepsBand(s: State, a: Action, b: nat)
    requires Sane(s) && Enabled(s, a) && Reaps(a) && Band(s, b)
    ensures Band(Next(s, a), b)
  {
    ReapQueue(s, a);
    QuietTimes(s, a);
  }

  lemma FairStepKeepsBand(s: State, a: Action, b: nat)
    requires Inv(s) && May(s, a) && FairAction(s, a, b) && Band(s, b) && NascentAtZero(s)
    ensures Band(Next(s, a), b)
  {
    if a.SpawnMake? {
      MakeKeepsBand(s, a, b);
    } else if a.SpawnFinish? {
      FinishKeepsBand(s, a, b);
    } else if Reaps(a) {
      ReapKeepsBand(s, a, b);
    } else {
      EnteringIsSound(s, a);
      EnteringKeepsBand(s, a, b);
      RescheduledKeepsBand(Entering(s, a), a.now1, a.now2, b);
    }
  }

  lemma EnteringKeepsBand(s: State, a: Action, b: nat)
    requires May(s, a) && (a.Yield? || (a.Exit? && Cur(s).joiner.None?)) && Band(s, b)
    ensures Band(Entering(s, a), b) && Entering(s, a).lastTick == s.lastTick
  {}

  // ---------------------------------------------------------------- fair runs

  ghost predicate FairRun(s: State, acts: seq<Action>, b: nat)
    decreases |acts|
  {
    acts == [] || (May(s, acts[0]) && FairAction(s, acts[0], b) && FairRun(Next(s, acts[0]), acts[1..], b))
  }

  lemma {:induction false} FairIsLegal(s: State, acts: seq<Action>, b: nat)
    requires FairRun(s, acts, b)
    ensures Legal(s, acts)
    decreases |acts|
  {
    if acts != [] { FairIsLegal(Next(s, acts[0]), acts[1..], b); }
  }

  lemma {:induction false} FairRunKeepsBand(s: State, acts: seq<Action>, b: nat)
    requires Inv(s) && Band(s, b) && Calm(s) && FairRun(s, acts, b)
    ensures Legal(s, acts) && Inv(Exec(s, acts)) && Band(Exec(s, acts), b) && Calm(Exec(s, acts))
    decreases |acts|
  {
    if acts == [] {
    } else {
      StepKeepsInv(s, acts[0]);
      FairStepKeepsBand(s, acts[0], b);
      FairStepKeepsCalm(s, acts[0], b);
      FairRunKeepsBand(Next(s, acts[0]), acts[1..], b);
    }
  }

  // ---------------------------------------------------------------- nobody waits in such runs

  ghost predicate NobodyWaits(s: State) {
    forall t :: t in s.tasks ==> !s.tasks[t].run.Waiting?
  }

  ghost predicate Calm(s: State) {
    NobodyWaits(s) && NascentAtZero(s)
  }

  /** Nobody starts to wait, and a task still being made keeps its key. */
  ghost predicate CalmStep(s: State, s': State) {
    forall t :: t in s'.tasks ==>
      var k' := s'.tasks[t];
      if t in s.tasks then
        var k := s.tasks[t];
        && (k'.run.Waiting? ==> k.run.Waiting?)
        && (k'.pc.Nascent? ==> k'.vruntime == 0 || (k.pc.Nascent? && k'.vruntime == k.vruntime))
      else !k'.run.Waiting? && (k'.pc.Nascent? ==> k'.vruntime == 0)
  }

  lemma CalmStepKeepsCalm(s: State, s': State)
    requires CalmStep(s, s') && Calm(s)
    ensures Calm(s')
  {}

  lemma SwitchedIsCalm(s: State, t: Tid)
    requires s.current in s.tasks && t in s.tasks && t != s.current
    ensures CalmStep(s, Switched(s, t))
  {}

  lemma DispatchedIsCalm(s: State, now: nat)
    requires s.current in s.tasks && Known(s.tasks, s.rq) && Candidates(s) != []
    ensures CalmStep(s, Dispatched(s, now))
  {
    PoppedTimes(s, now);
    if Candidates(s)[0] != s.current {
      SwitchedIsCalm(Popped(s, now), Candidates(s)[0]);
    }
  }

  lemma AtPopIsCalm(s: State, now1: nat)
    requires CanReschedule(s) && !Cur(s).pc.Nascent?
    ensures CalmStep(s, AtPop(s, now1))
  {}

  lemma RescheduledKeepsCalm(s: State, now1: nat, now2: nat)
    requires CanReschedule(s) && !Cur(s).pc.Nascent? && Calm(s)
    ensures Calm(Rescheduled(s, now1, now2))
  {
    CanPop(s, now1);
    AtPopIsCalm(s, now1);
    CalmStepKeepsCalm(s, AtPop(s, now1));
    DispatchedIsCalm(AtPop(s, now1), now2);
    CalmStepKeepsCalm(AtPop(s, now1), Rescheduled(s, now1, now2));
  }

  lemma EnteringIsCalm(s: State, a: Action)
    requires May(s, a) && (a.Yield? || (a.Exit? && Cur(s).joiner.None?))
    ensures CalmStep(s, Entering(s, a)) && Entering(s, a).current == s.current
    ensures Cur(Entering(s, a)).pc == Cur(s).pc
  {}

  lemma ReturnIsCalm(s: State, h: Handle)
    requires h.t in s.tasks && s.current in s.tasks
    ensures CalmStep(s, TailReturned(s, h)) && CalmStep(s, JoinReturned(s, h))
  {}

  lemma ReapIsCalm(s: State, a: Action)
    requires Sane(s) && Enabled(s, a) && Reaps(a)
    ensures CalmStep(s, Next(s, a))
  {
    if a.JoinReturn? || a.DetachReturn? {
      ReturnIsCalm(s, Cur(s).pc.h);
    } else if a.Detach? {
      DetachIsCalm(s, a.h);
    } else {
      StepOnlyMoves(s, a);
      MoveIsCalm(s, Next(s, a));
    }
  }

  lemma DetachIsCalm(s: State, h: Handle)
    requires h.t in s.tasks && s.current in s.tasks
    ensures CalmStep(s, Detached(s, h))
  {}

  lemma MoveIsCalm(s: State, s': State)
    requires Moves(s, s')
    ensures CalmStep(s, s')
  {}

  lemma SpawnIsCalm(s: State, a: Action)
    requires Inv(s) && May(s, a) && Spawns(a)
    ensures CalmStep(s, Next(s, a))
  {
    if a.SpawnMake? {
      ChoiceIsIdle(s, a);
      var k := MakeEffect(s, a.attr, a.addr, a.total);
    } else {
      MadeTaskIsNascent(s);
      FinishEffect(s);
    }
  }

  lemma FairStepKeepsCalm(s: State, a: Action, b: nat)
    requires Inv(s) && May(s, a) && FairAction(s, a, b) && Calm(s)
    ensures Calm(Next(s, a))
  {
    if Spawns(a) {
      SpawnIsCalm(s, a);
      CalmStepKeepsCalm(s, Next(s, a));
    } else if Reaps(a) {
      ReapIsCalm(s, a);
      CalmStepKeepsCalm(s, Next(s, a));
    } else {
      YieldKeepsCalm(s, a);
    }
  }

  lemma YieldKeepsCalm(s: State, a: Action)
    requires Inv(s) && May(s, a) && (a.Yield? || (a.Exit? && Cur(s).joiner.None?)) && Calm(s)
    ensures Calm(Next(s, a))
  {
    assert ParkOk(s, s.current);
    EnteringReschedules(s, a);
    EnteringIsCalm(s, a);
    CalmStepKeepsCalm(s, Entering(s, a));
    RescheduledKeepsCalm(Entering(s, a), a.now1, a.now2);
  }

  predicate Competes(k: Task) {
    !k.run.Stopped? && !k.pc.Nascent?
  }

  /** Main result: if no slice lasts `b + 1` microseconds or more, then at every point of a fair run since boot the
      virtual runtimes at which any two live tasks stand differ by at most `b`, and `_min_vruntime` is
      where the running one was dispatched.  (A task still inside its `spawn` has no key yet.) */
  lemma FairnessBound(host: Tid, maxSpare: nat, now: nat, acts: seq<Action>, b: nat, t: Tid, u: Tid)
    requires FairRun(Boot(host, maxSpare, now), acts, b) && Legal(Boot(host, maxSpare, now), acts)
    requires var s := Exec(Boot(host, maxSpare, now), acts); t in s.tasks && u in s.tasks
    ensures
      var s := Exec(Boot(host, maxSpare, now), acts);
      && s.current in s.tasks
      && (Competes(s.tasks[t]) && Competes(s.tasks[u]) ==>
            s.tasks[t].vruntime <= s.tasks[u].vruntime + b
            && s.minVruntime == s.tasks[s.current].vruntime <= s.tasks[t].vruntime)
  {
    BootInv(host, maxSpare, now);
    FairRunKeepsBand(Boot(host, maxSpare, now), acts, b);
    LiveIsRunnable(Exec(Boot(host, maxSpare, now), acts), t);
    LiveIsRunnable(Exec(Boot(host, maxSpare, now), acts), u);
  }

  lemma LiveIsRunnable(s: State, t: Tid)
    requires Inv(s) && NobodyWaits(s) && t in s.tasks
    ensures Competes(s.tasks[t]) ==> Runnable(s, t)
  {
    assert t != s.current && Competes(s.tasks[t]) ==> Ready(s, t);
  }

  // ---------------------------------------------------------------- shares of the processor

  /** Microseconds charged to `t` during a run. */
  ghost function Received(s: State, acts: seq<Action>, t: Tid): int
    requires Legal(s, acts)
    decreases |acts|
  {
    if acts == [] then 0
    else
      var s' := Next(s, acts[0]);
      (if t == s.current then s'.charged - s.charged else 0) + Received(s', acts[1..], t)
  }

  ghost predicate RunnableThroughout(s: State, acts: seq<Action>, t: Tid)
    requires Legal(s, acts)
    decreases |acts|
  {
    Runnable(s, t) && (acts != [] ==> RunnableThroughout(Next(s, acts[0]), acts[1..], t))
  }

  lemma {:induction false} ReceivedIsGrowth(s: State, acts: seq<Action>, t: Tid)
    requires Inv(s) && Legal(s, acts) && RunnableThroughout(s, acts, t)
    ensures t in s.tasks && t in Exec(s, acts).tasks
    ensures Exec(s, acts).tasks[t].vruntime == s.tasks[t].vruntime + Received(s, acts, t)
    ensures Runnable(Exec(s, acts), t)
    decreases |acts|
  {
    if acts == [] {
    } else {
      EveryStepKeepsTime(s, acts[0], t);
      StepKeepsInv(s, acts[0]);
      ReceivedIsGrowth(Next(s, acts[0]), acts[1..], t);
    }
  }

  /** Main result: over any interval `acts` of a fair run since boot, whatever happened `before` it, two tasks
      that are runnable throughout receive processor time that differs by at most `2 * b`. */
  lemma SharesDifferByAtMostTwoSlices(
      host: Tid, maxSpare: nat, now: nat, before: seq<Action>, acts: seq<Action>, b: nat, t: Tid, u: Tid)
    requires FairRun(Boot(host, maxSpare, now), before, b) && Legal(Boot(host, maxSpare, now), before)
    requires
      var s := Exec(Boot(host, maxSpare, now), before);
      FairRun(s, acts, b) && Legal(s, acts) && RunnableThroughout(s, acts, t) && RunnableThroughout(s, acts, u)
    ensures
      var s := Exec(Boot(host, maxSpare, now), before);
      -2 * b <= Received(s, acts, t) - Received(s, acts, u) <= 2 * b
  {
    BootInv(host, maxSpare, now);
    FairRunKeepsBand(Boot(host, maxSpare, now), before, b);
    SharesFromBand(Exec(Boot(host, maxSpare, now), before), acts, b, t, u);
  }

  lemma SharesFromBand(s: State, acts: seq<Action>, b: nat, t: Tid, u: Tid)
    requires Inv(s) && Band(s, b) && Calm(s) && FairRun(s, acts, b) && Legal(s, acts)
    requires RunnableThroughout(s, acts, t) && RunnableThroughout(s, acts, u)
    ensures -2 * b <= Received(s, acts, t) - Received(s, acts, u) <= 2 * b
  {
    FairRunKeepsBand(s, acts, b);
    ReceivedIsGrowth(s, acts, t);
    ReceivedIsGrowth(s, acts, u);
    InBand(s, b, t);
    InBand(s, b, u);
    InBand(Exec(s, acts), b, t);
    InBand(Exec(s, acts), b, u);
  }

  lemma InBand(s: State, b: nat, t: Tid)
    requires Band(s, b) && Runnable(s, t)
    ensures t in s.tasks && s.minVruntime <= s.tasks[t].vruntime <= s.minVruntime + b
  {}
}
