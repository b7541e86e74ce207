/** Tools for exhibiting runs: any runnable task can be brought to the processor, tasks can be spawned, and the
    running task can leave, with everything else as it was. */
module KernelScenes {
  import opened Options
  import opened Freelist
  import opened Kernel
  import opened KernelInv
  import opened KernelRuns
  import opened KernelTimes
  import opened KernelFair

  // ---------------------------------------------------------------- what a yield leaves alone

  /** What switching away from or to a task, or giving a deferred one back, leaves of it. */
  ghost predicate Kept(k: Task, k': Task) {
    && k' == k.(run := k'.run, pc := k'.pc, vruntime := k'.vruntime, noPreempt := k'.noPreempt, started := k'.started,
                reclaims := k'.reclaims)
    && k'.run.Stopped? == k.run.Stopped? && (!k.run.Waiting? ==> !k'.run.Waiting?)
    && (k'.pc == k.pc || (k.pc.ParkWait? && !k.run.Waiting? && k'.pc.Body?))
    && (k.pc.ParkWait? && k.run.Waiting? ==> k'.run.Waiting?)
    && (!(k.run.Stopped? && k.detached) ==> k'.reclaims == k.reclaims)
  }

  /** Only yields have happened. */
  ghost predicate OnlyYields(s: State, s': State) {
    && s'.tasks.Keys == s.tasks.Keys && s'.slots == s.slots && s'.handles == s.handles
    && (s.deferred.None? ==> s'.deferred.None? && s'.spare == s.spare)
    && (forall t :: t in s.tasks ==> Kept(s.tasks[t], s'.tasks[t]))
  }

  lemma OnlyYieldsCompose(s: State, m: State, s': State)
    requires OnlyYields(s, m) && OnlyYields(m, s')
    ensures OnlyYields(s, s')
  {
    forall t | t in s.tasks ensures Kept(s.tasks[t], s'.tasks[t]) {
      KeptComposes(s.tasks[t], m.tasks[t], s'.tasks[t]);
    }
  }

  lemma KeptComposes(k: Task, m: Task, k': Task)
    requires Kept(k, m) && Kept(m, k')
    ensures Kept(k, k')
  {}

  lemma DeferredOnly(s: State)
    requires s.deferred.Some? ==> s.deferred.value in s.tasks
    requires s.deferred.Some? ==> s.tasks[s.deferred.value].run.Stopped? && s.tasks[s.deferred.value].detached
    ensures OnlyYields(s, DeferredReclaimed(s)) && DeferredReclaimed(s).deferred.None?
    ensures DeferredReclaimed(s).rq == s.rq && DeferredReclaimed(s).current == s.current
  {}

  lemma ChargedOnly(s: State, now: nat)
    requires s.current in s.tasks
    ensures OnlyYields(s, Charged(s, now)) && Charged(s, now).deferred == s.deferred
    ensures Charged(s, now).rq == s.rq && Charged(s, now).current == s.current
  {}

  /** `t` can be switched to. */
  ghost predicate Resumable(s: State, t: Tid) {
    t in s.tasks && !s.tasks[t].run.Stopped? && (s.tasks[t].run.Waiting? ==> !s.tasks[t].pc.ParkWait?)
  }

  lemma SwitchedOnly(p: State, t: Tid)
    requires p.current in p.tasks && Resumable(p, t) && t != p.current
    ensures OnlyYields(p, Switched(p, t)) && Switched(p, t).rq == p.rq && Switched(p, t).current == t
    ensures Awake(Switched(p, t), t)
  {
    forall u | u in p.tasks ensures Kept(p.tasks[u], Switched(p, t).tasks[u]) { SwitchedKeeps(p, t, u); }
  }

  lemma SwitchedKeeps(p: State, t: Tid, u: Tid)
    requires p.current in p.tasks && Resumable(p, t) && t != p.current && u in p.tasks
    ensures u in Switched(p, t).tasks && Kept(p.tasks[u], Switched(p, t).tasks[u])
  {}

  ghost predicate Awake(s: State, t: Tid) {
    t in s.tasks && !s.tasks[t].pc.ParkWait?
  }

  lemma PoppedOnly(p: State, now: nat)
    requires p.current in p.tasks && Known(p.tasks, p.rq) && Candidates(p) != [] && p.deferred.None?
    requires !(Cur(p).run.Stopped? && Cur(p).detached)
    ensures OnlyYields(p, Popped(p, now)) && Popped(p, now).current == p.current
    ensures Popped(p, now).rq == Candidates(p)[1..]
  {}

  /** A state in which `sched_node::yield` picks somebody else and defers nobody. */
  ghost predicate HandsOver(e: State) {
    && CanReschedule(e) && e.deferred != Some(e.current)
    && (e.deferred.Some? ==> e.tasks[e.deferred.value].run.Stopped? && e.tasks[e.deferred.value].detached)
    && !(Cur(e).run.Stopped? && Cur(e).detached)
    && (forall t :: t in e.rq ==> Resumable(e, t)) && e.current !in e.rq
  }

  lemma AtPopOnly(e: State, now1: nat)
    requires HandsOver(e)
    ensures
      var p := AtPop(e, now1);
      && OnlyYields(e, p) && p.deferred.None? && p.rq == e.rq && p.current == e.current && Known(p.tasks, p.rq)
      && p.current in p.tasks && Cur(p).run == Cur(e).run && Cur(p).detached == Cur(e).detached
  {
    DeferredOnly(e);
    ChargedOnly(DeferredReclaimed(e), now1);
    OnlyYieldsCompose(e, DeferredReclaimed(e), AtPop(e, now1));
  }

  lemma DispatchedOnly(p: State, now: nat)
    requires p.current in p.tasks && Known(p.tasks, p.rq) && Candidates(p) != [] && p.deferred.None?
    requires !(Cur(p).run.Stopped? && Cur(p).detached) && Candidates(p)[0] != p.current
    requires Resumable(p, Candidates(p)[0])
    ensures
      var s' := Dispatched(p, now);
      && OnlyYields(p, s') && s'.current == Candidates(p)[0] && s'.rq == Candidates(p)[1..] && Awake(s', s'.current)
  {
    PoppedOnly(p, now);
    PoppedTimes(p, now);
    SwitchedOnly(Popped(p, now), Candidates(p)[0]);
    OnlyYieldsCompose(p, Popped(p, now), Dispatched(p, now));
  }

  lemma ResumableKept(s: State, s': State, t: Tid)
    requires OnlyYields(s, s') && Resumable(s, t) && s'.tasks[t].run == s.tasks[t].run
    requires s'.tasks[t].pc == s.tasks[t].pc
    ensures Resumable(s', t)
  {}

  lemma AtPopKeepsRun(e: State, now1: nat, t: Tid)
    requires CanReschedule(e) && t in e.tasks
    ensures
      var p := AtPop(e, now1);
      t in p.tasks && p.tasks[t].run == e.tasks[t].run && p.tasks[t].pc == e.tasks[t].pc
  {}

  /** Handing over changes nothing else. */
  lemma RescheduledOnly(e: State, now1: nat, now2: nat)
    requires HandsOver(e) && Candidates(AtPop(e, now1)) != [] && Candidates(AtPop(e, now1))[0] in e.rq
    ensures
      var s', q := Rescheduled(e, now1, now2), Candidates(AtPop(e, now1));
      OnlyYields(e, s') && s'.current == q[0] && s'.rq == q[1..] && Awake(s', s'.current)
  {
    var p := AtPop(e, now1);
    AtPopOnly(e, now1);
    AtPopKeepsRun(e, now1, Candidates(p)[0]);
    ResumableKept(e, p, Candidates(p)[0]);
    DispatchedOnly(p, now2);
    OnlyYieldsCompose(e, p, Dispatched(p, now2));
  }

  lemma InvHandsOver(e: State)
    requires Core(e) && CanReschedule(e) && !(Cur(e).run.Stopped? && Cur(e).detached)
    ensures HandsOver(e)
  {
    forall t | t in e.rq ensures Resumable(e, t) { assert TaskLife(e, t) && ParkOk(e, t); }
    if e.deferred.Some? { assert TaskLife(e, e.deferred.value); }
  }

  // ---------------------------------------------------------------- any task can be brought to the processor

  lemma {:induction false} EnqueuedLast(tasks: map<Tid, Task>, q: seq<Tid>, t: Tid)
    requires t in tasks && Known(tasks, q) && forall i :: 0 <= i < |q| ==> tasks[q[i]].vruntime < tasks[t].vruntime
    ensures Enqueued(tasks, q, t) == q + [t]
  {
    if q != [] {
      EnqueuedLast(tasks, q[1..], t);
    }
  }

  /** A slice longer than anybody's key. */
  ghost predicate LongEnough(s: State, now: nat) {
    s.lastTick <= now && forall i :: 0 <= i < |s.rq| && s.rq[i] in s.tasks ==> s.tasks[s.rq[i]].vruntime < Slice(s, now)
  }

  lemma LongEnoughExists(s: State) returns (now: nat)
    requires QueueExact(s)
    ensures LongEnough(s, now)
  {
    if s.rq == [] {
      now := s.lastTick;
    } else {
      var last := s.rq[|s.rq| - 1];
      now := s.lastTick + 1000 * (s.tasks[last].vruntime + 1);
      assert Slice(s, now) == s.tasks[last].vruntime + 1;
      forall i | 0 <= i < |s.rq| ensures s.tasks[s.rq[i]].vruntime < Slice(s, now) {
        if i < |s.rq| - 1 { assert Before(s.tasks, s.rq[i], last); }
      }
    }
  }

  lemma RotateCandidates(s: State, now: nat)
    requires CanReschedule(s) && Cur(s).run.Running? && s.current !in s.rq && LongEnough(s, now)
    ensures
      var p := AtPop(s, now);
      p.current in p.tasks && Known(p.tasks, p.rq) && Candidates(p) == s.rq + [s.current]
  {
    DeferredReclaimedTimes(s);
    var p := AtPop(s, now);
    forall i | 0 <= i < |s.rq| ensures p.tasks[s.rq[i]].vruntime < p.tasks[s.current].vruntime {
      assert s.rq[i] in s.rq;
    }
    EnqueuedLast(p.tasks, p.rq, p.current);
  }

  /** After a long slice the first in the queue runs and the running task is last. */
  lemma RotateLong(s: State, now: nat)
    requires Sane(s) && HandsOver(s) && s.rq != [] && LongEnough(s, now)
    ensures
      var s' := Next(s, Yield(now, now));
      && OnlyYields(s, s') && s'.current == s.rq[0] && s'.rq == s.rq[1..] + [s.current] && Awake(s', s'.current)
  {
    RotateCandidates(s, now);
    assert (s.rq + [s.current])[1..] == s.rq[1..] + [s.current];
    assert s.rq[0] in s.rq;
    RescheduledOnly(s, now, now);
  }

  /** Everybody who could run still can. */
  ghost predicate StillRunnable(s: State, s': State) {
    forall t :: Runnable(s, t) ==> Runnable(s', t)
  }

  lemma RotatedRunnable(s: State, s': State)
    requires s.rq != [] && s'.current == s.rq[0] && s'.rq == s.rq[1..] + [s.current]
    ensures StillRunnable(s, s')
  {
    assert s.rq == [s.rq[0]] + s.rq[1..];
  }

  /** By yields alone, `t` has got the processor. */
  ghost predicate Brought(s: State, s': State, t: Tid) {
    OnlyYields(s, s') && s'.current == t && StillRunnable(s, s') && Awake(s', t)
  }

  lemma BroughtComposes(s: State, m: State, s': State, t: Tid)
    requires OnlyYields(s, m) && StillRunnable(s, m) && Brought(m, s', t)
    ensures Brought(s, s', t)
  {
    OnlyYieldsCompose(s, m, s');
  }

  /** Some legal run leads from `b` to `s`. */
  ghost predicate From(b: State, s: State) {
    exists acts :: Legal(b, acts) && Exec(b, acts) == s
  }

  lemma FromItself(s: State)
    ensures From(s, s)
  {
    assert Legal(s, []) && Exec(s, []) == s;
  }

  lemma FromInv(b: State, s: State)
    requires Inv(b) && From(b, s)
    ensures Inv(s)
  {
    var acts :| Legal(b, acts) && Exec(b, acts) == s;
    RunKeepsInv(b, acts);
  }

  lemma FromStep(b: State, s: State, a: Action)
    requires From(b, s) && May(s, a)
    ensures From(b, Next(s, a))
  {
    var acts :| Legal(b, acts) && Exec(b, acts) == s;
    Extend(b, acts, a);
  }

  lemma ReachableFrom(b: State, s: State)
    requires Reachable(b) && From(b, s)
    ensures Reachable(s)
  {
    var acts :| Legal(b, acts) && Exec(b, acts) == s;
    LegalRunReaches(b, acts);
  }

  lemma {:induction false} LegalRunReaches(s: State, acts: seq<Action>)
    requires Reachable(s) && Legal(s, acts)
    ensures Reachable(Exec(s, acts))
    decreases |acts|
  {
    if acts != [] {
      Advance(s, acts[0]);
      LegalRunReaches(Next(s, acts[0]), acts[1..]);
    }
  }

  /** One round of the queue. */
  ghost predicate Rotated(s: State, s': State) {
    && s.rq != [] && OnlyYields(s, s') && s'.current == s.rq[0]
    && s'.rq == s.rq[1..] + [s.current] && Awake(s', s.rq[0])
  }

  lemma RotateNow(b: State, s: State) returns (now: nat)
    requires Sound(b) && From(b, s)
    ensures Sane(s) && HandsOver(s) && LongEnough(s, now)
  {
    assert Inv(b);
    FromInv(b, s);
    InvIsSane(s);
    now := LongEnoughExists(s);
    InvHandsOver(s);
  }

  lemma YieldIsProper(s: State, now: nat)
    requires Sane(s) && s.lastTick <= now
    ensures May(s, Yield(now, now))
  {}

  lemma RotateFrom(b: State, s: State) returns (s': State)
    requires Sound(b) && From(b, s) && s.rq != []
    ensures From(b, s') && Rotated(s, s')
  {
    var now := RotateNow(b, s);
    RotateLong(s, now);
    YieldIsProper(s, now);
    FromStep(b, s, Yield(now, now));
    s' := Next(s, Yield(now, now));
  }

  lemma BringFirst(s: State, m: State)
    requires Rotated(s, m)
    ensures Brought(s, m, s.rq[0])
  {
    RotatedRunnable(s, m);
  }

  lemma BringMore(s: State, m: State, s': State, t: Tid)
    requires Rotated(s, m) && Brought(m, s', t)
    ensures Brought(s, s', t)
  {
    RotatedRunnable(s, m);
    BroughtComposes(s, m, s', t);
  }

  lemma OnePlaceUp(s: State, m: State, i: nat)
    requires Rotated(s, m) && 0 < i < |s.rq|
    ensures i - 1 < |m.rq| && m.rq[i - 1] == s.rq[i]
  {}

  /** Yields can bring any queued task to the processor. */
  lemma {:induction false} BringAt(b: State, s: State, i: nat) returns (s': State)
    requires Sound(b) && From(b, s) && i < |s.rq|
    ensures From(b, s') && Brought(s, s', s.rq[i])
    decreases i
  {
    var m := RotateFrom(b, s);
    if i == 0 {
      BringFirst(s, m);
      s' := m;
    } else {
      OnePlaceUp(s, m, i);
      s' := BringAt(b, m, i - 1);
      BringMore(s, m, s', s.rq[i]);
    }
  }

  /** From any sound state yields can bring any runnable task to the processor, changing nothing else. */
  lemma BringAny(b: State, s: State, t: Tid) returns (s': State)
    requires Sound(b) && From(b, s) && Runnable(s, t)
    ensures From(b, s') && OnlyYields(s, s') && s'.current == t && StillRunnable(s, s')
    ensures t != s.current ==> Awake(s', t)
  {
    if t == s.current {
      s' := s;
    } else {
      var i :| 0 <= i < |s.rq| && s.rq[i] == t;
      s' := BringAt(b, s, i);
    }
  }

  lemma Bring(s: State, t: Tid) returns (s': State)
    requires Reachable(s) && Runnable(s, t)
    ensures Reachable(s') && OnlyYields(s, s') && s'.current == t && StillRunnable(s, s')
    ensures t != s.current ==> Awake(s', t)
  {
    ReachableInv(s);
    FromItself(s);
    s' := BringAny(s, s, t);
    ReachableFrom(s, s');
  }

  // ---------------------------------------------------------------- setting the scene

  /** A scene in which nothing is deferred and nothing has been given back. */
  ghost predicate Scene(s: State) {
    Reachable(s) && s.deferred.None? && s.spare == []
  }

  /** A task that has been spawned and has done nothing yet. */
  ghost predicate Idle(k: Task) {
    && k.pc.Body? && k.joiner.None? && !k.host && !k.detached && k.spawns == 1 && k.reclaims == 0
    && !k.run.Waiting? && !k.run.Stopped?
  }

  lemma MakeNew(s: State, addr: Tid)
    requires Sane(s) && s.spare == [] && Cur(s).pc.Body? && addr !in s.tasks
    ensures
      var a := SpawnMake(Attr(0, false), addr, 0);
      && May(s, a)
      && Next(s, a) == s.(tasks := s.tasks[addr := NewTask(0, false, 0, 0)][s.current := Cur(s).(pc := Spawning(addr))])
  {}

  lemma FinishNew(s: State, addr: Tid)
    requires Sane(s) && Cur(s).pc == Spawning(addr)
    ensures
      var s' := Next(s, SpawnFinish);
      && May(s, SpawnFinish) && TwoChange(s, s', addr, s'.tasks[addr], Body) && s'.current == s.current
      && s'.tasks[addr] == s.tasks[addr].(pc := Body, vruntime := s'.tasks[addr].vruntime)
      && s'.deferred == s.deferred && (forall t :: t in s'.rq <==> t in s.rq || t == addr)
  {
    FinishEffect(s);
    SpawnedQueue(s);
  }

  lemma FinishFields(s: State)
    requires Sane(s) && Cur(s).pc.Spawning?
    ensures
      var s', u := Spawned(s), Cur(s).pc.made;
      s'.slots == s.slots && s'.spare == s.spare && s'.handles == s.handles + {Handle(u, s.tasks[u].spawns)}
  {}

  /** `s'` is `s` with one more idle task at `addr`, queued and with a handle. */
  ghost predicate OneMore(s: State, s': State, addr: Tid) {
    && s'.current == s.current && s'.slots == s.slots && s'.spare == s.spare && s'.deferred == s.deferred
    && addr !in s.tasks && s'.tasks.Keys == s.tasks.Keys + {addr} && Idle(s'.tasks[addr])
    && (forall t :: t in s.tasks ==> s'.tasks[t] == s.tasks[t])
    && s'.handles == s.handles + {Handle(addr, 1)} && (forall t :: t in s'.rq <==> t in s.rq || t == addr)
  }

  lemma SpawnIsOneMore(s: State, m: State, addr: Tid)
    requires Sane(s) && Cur(s).pc.Body? && addr !in s.tasks && Sane(m)
    requires m == s.(tasks := s.tasks[addr := NewTask(0, false, 0, 0)][s.current := Cur(s).(pc := Spawning(addr))])
    ensures May(m, SpawnFinish) && OneMore(s, Next(m, SpawnFinish), addr)
  {
    FinishNew(m, addr);
    FinishFields(m);
    BackToBody(Cur(s), Spawning(addr));
  }

  lemma BackToBody(k: Task, pc: Pc)
    requires k.pc.Body?
    ensures k.(pc := pc).(pc := Body) == k
  {}

  /** The current task spawns an object at `addr`. */
  lemma SpawnAt(s: State, addr: Tid) returns (s': State)
    requires Scene(s) && s.current in s.tasks && Cur(s).pc.Body? && addr !in s.tasks
    ensures Scene(s') && StillRunnable(s, s') && Runnable(s', addr) && OneMore(s, s', addr)
  {
    var a := SpawnMake(Attr(0, false), addr, 0);
    ReachableIsSane(s);
    MakeNew(s, addr);
    Advance(s, a);
    var m := Next(s, a);
    ReachableIsSane(m);
    SpawnIsOneMore(s, m, addr);
    Advance(m, SpawnFinish);
    s' := Next(m, SpawnFinish);
  }

  ghost predicate AllBody(s: State) {
    forall t :: t in s.tasks ==> s.tasks[t].pc.Body?
  }

  lemma AllBodyKept(s: State, s': State)
    requires AllBody(s) && OnlyYields(s, s')
    ensures AllBody(s')
  {
    forall t | t in s'.tasks ensures s'.tasks[t].pc.Body? { assert Kept(s.tasks[t], s'.tasks[t]); }
  }

  lemma BootScene()
    ensures Scene(Boot(0, 64, 0))
  {
    var b := Boot(0, 64, 0);
    assert Legal(b, []) && Exec(b, []) == b;
  }

  /** The host at address 0 has spawned two tasks. */
  lemma ThreeTasks() returns (s: State)
    ensures Scene(s) && s.tasks.Keys == {0, 1, 2} && s.current == 0 && AllBody(s) && Runnable(s, 1) && Runnable(s, 2)
    ensures Idle(s.tasks[1]) && Idle(s.tasks[2]) && Handle(1, 1) in s.handles && s.slots == map[]
    ensures s.tasks[0].joiner.None? && 1 in s.rq
  {
    var b := Boot(0, 64, 0);
    BootScene();
    var m := SpawnAt(b, 1);
    s := SpawnAt(m, 2);
    TwoMore(b, m, s);
  }

  lemma TwoMore(b: State, m: State, s: State)
    requires b == Boot(0, 64, 0) && OneMore(b, m, 1) && OneMore(m, s, 2)
    ensures s.tasks.Keys == {0, 1, 2} && AllBody(s) && s.tasks[0].joiner.None? && s.current == 0 && s.slots == map[]
    ensures Idle(s.tasks[1]) && Idle(s.tasks[2]) && Handle(1, 1) in s.handles && 1 in s.rq && 2 in s.rq
  {}

  // ---------------------------------------------------------------- giving up the processor

  /** The current task exits or blocks, whereupon somebody from the queue runs. */
  lemma Leave(s: State, a: Action) returns (s': State)
    requires Reachable(s) && May(s, a) && Reschedules(a)
    requires
      var e := Entering(s, a);
      e.current in e.tasks && !Cur(e).run.Running? && !(Cur(e).run.Stopped? && Cur(e).detached)
    ensures s' == Next(s, a) && Reachable(s') && OnlyYields(Entering(s, a), s')
    ensures forall t :: Runnable(s', t) <==> t in Entering(s, a).rq
  {
    LeaveHandsOver(s, a);
    EnteringReschedules(s, a);
    FirstIsQueued(Entering(s, a), a.now1);
    RescheduledOnly(Entering(s, a), a.now1, a.now2);
    LeaveRunnable(s, a);
    Advance(s, a);
    s' := Next(s, a);
  }

  lemma FirstIsQueued(e: State, now1: nat)
    requires CanReschedule(e) && !Cur(e).run.Running?
    ensures
      var p := AtPop(e, now1);
      p.current in p.tasks && Known(p.tasks, p.rq) && Candidates(p) != [] && Candidates(p)[0] in e.rq
  {
    CanPop(e, now1);
    DeferredReclaimedTimes(e);
  }

  lemma LeaveHandsOver(s: State, a: Action)
    requires Reachable(s) && May(s, a) && Reschedules(a)
    requires
      var e := Entering(s, a);
      e.current in e.tasks && !(Cur(e).run.Stopped? && Cur(e).detached)
    ensures HandsOver(Entering(s, a))
  {
    ReachableInv(s);
    EnteringIsSound(s, a);
    InvHandsOver(Entering(s, a));
  }

  lemma LeaveRunnable(s: State, a: Action)
    requires Reachable(s) && May(s, a) && Reschedules(a)
    requires
      var e := Entering(s, a);
      e.current in e.tasks && !Cur(e).run.Running?
    ensures forall t :: Runnable(Next(s, a), t) <==> t in Entering(s, a).rq
  {
    ReachableInv(s);
    EnteringIsSound(s, a);
    forall t ensures Runnable(Next(s, a), t) <==> t in Entering(s, a).rq {
      RescheduledRunnable(Entering(s, a), a.now1, a.now2, t);
    }
  }
}
