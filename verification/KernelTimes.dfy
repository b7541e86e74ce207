/** Virtual runtimes along runs: who is charged, why the queue stays ordered, what `_min_vruntime` is. */
module KernelTimes {
  import opened Options
  import opened Freelist
  import opened Kernel
  import opened KernelInv
  import opened KernelSteps
  import opened KernelRuns

  // ---------------------------------------------------------------- one call of sched_node::yield

  lemma DeferredReclaimedTimes(s: State)
    requires s.deferred.Some? ==> s.deferred.value in s.tasks
    requires s.current in s.tasks && Known(s.tasks, s.rq)
    ensures
      var s' := DeferredReclaimed(s);
      && s'.tasks.Keys == s.tasks.Keys && s'.current == s.current && s'.rq == s.rq && Known(s'.tasks, s'.rq)
      && s'.minVruntime == s.minVruntime && s'.lastTick == s.lastTick && s'.charged == s.charged
      && (forall t :: t in s.tasks ==>
            s'.tasks[t].vruntime == s.tasks[t].vruntime && s'.tasks[t].run == s.tasks[t].run)
  {}

  lemma PoppedTimes(s: State, now: nat)
    requires s.current in s.tasks && Known(s.tasks, s.rq) && Candidates(s) != []
    ensures
      var p := Popped(s, now);
      && p.tasks == s.tasks && p.current == s.current && p.rq == Candidates(s)[1..] && p.lastTick == now
      && p.charged == s.charged && p.minVruntime == Max(s.minVruntime, s.tasks[Candidates(s)[0]].vruntime)
  {}

  lemma SwitchedTimes(s: State, t: Tid)
    requires s.current in s.tasks && t in s.tasks && t != s.current
    ensures
      var s' := Switched(s, t);
      && s'.tasks.Keys == s.tasks.Keys && s'.current == t && s'.rq == s.rq && s'.lastTick == s.lastTick
      && s'.charged == s.charged && s'.minVruntime == s.minVruntime
      && (forall u :: u in s.tasks ==> s'.tasks[u].vruntime == s.tasks[u].vruntime)
  {}

  lemma DispatchedTimes(s: State, now: nat)
    requires s.current in s.tasks && Known(s.tasks, s.rq) && Candidates(s) != []
    ensures
      var s' := Dispatched(s, now);
      && s'.tasks.Keys == s.tasks.Keys && s'.current == Candidates(s)[0] && s'.rq == Candidates(s)[1..]
      && s'.lastTick == now && s'.charged == s.charged
      && (forall t :: t in s.tasks ==> s'.tasks[t].vruntime == s.tasks[t].vruntime)
      && s'.minVruntime == Max(s.minVruntime, s'.tasks[s'.current].vruntime)
  {
    PoppedTimes(s, now);
    var next := Candidates(s)[0];
    if next != s.current {
      SwitchedTimes(Popped(s, now), next);
    }
  }

  /** The announced state at the moment of the pop. */
  ghost function AtPop(s: State, now1: nat): State
    requires CanReschedule(s)
  {
    Charged(DeferredReclaimed(s), now1)
  }

  lemma CanPop(s: State, now1: nat)
    requires CanReschedule(s)
    ensures
      var p := AtPop(s, now1);
      p.current in p.tasks && Known(p.tasks, p.rq) && Candidates(p) != []
  {
    DeferredReclaimedTimes(s);
  }

  /** Only the outgoing task is charged; the incoming one sets `_min_vruntime`. */
  lemma RescheduledTimes(s: State, now1: nat, now2: nat)
    requires CanReschedule(s)
    ensures
      var s' := Rescheduled(s, now1, now2);
      && s'.tasks.Keys == s.tasks.Keys && s'.lastTick == now2 && s'.charged == s.charged + Slice(s, now1)
      && (forall t :: t in s.tasks ==>
            s'.tasks[t].vruntime == s.tasks[t].vruntime + (if t == s.current then Slice(s, now1) else 0))
      && s'.current in s'.tasks && s'.minVruntime == Max(s.minVruntime, s'.tasks[s'.current].vruntime)
      && (s.lastTick <= now1 ==>
            1000 * (s'.charged - s.charged) <= now1 - s.lastTick < 1000 * (s'.charged - s.charged + 1))
  {
    DeferredReclaimedTimes(s);
    DispatchedTimes(AtPop(s, now1), now2);
    if s.lastTick <= now1 { SliceFits(s, now1); }
  }

  /** The slice is the largest number of microseconds that fits into the time since the last tick. */
  lemma SliceFits(s: State, now: nat)
    requires s.lastTick <= now
    ensures 1000 * Slice(s, now) <= now - s.lastTick < 1000 * (Slice(s, now) + 1)
  {}

  lemma AtPopIsCore(s: State, now1: nat)
    requires Core(s) && CanReschedule(s)
    ensures Core(AtPop(s, now1)) && Candidates(AtPop(s, now1)) != []
  {
    DeferredReclaimedKeepsCore(s);
    ChargedKeepsCore(DeferredReclaimed(s), now1);
    DeferredReclaimedTimes(s);
  }

  /** The task that gets the processor comes before every task left in the queue: its key is not larger, and among
      equal keys its address is the lowest. */
  lemma PopYieldsMinimum(s: State, now1: nat, now2: nat, t: Tid)
    requires Core(s) && CanReschedule(s) && t in Rescheduled(s, now1, now2).rq
    ensures
      var s' := Rescheduled(s, now1, now2);
      && t in s'.tasks && s'.current in s'.tasks
      && Before(s'.tasks, s'.current, t) && s'.tasks[s'.current].vruntime <= s'.tasks[t].vruntime
      && (s'.tasks[s'.current].vruntime == s'.tasks[t].vruntime ==> s'.current < t)
  {
    AtPopIsCore(s, now1);
    PopFirst(AtPop(s, now1), now2, t);
  }

  lemma PopFirst(s: State, now: nat, t: Tid)
    requires QueueExact(s) && Candidates(s) != [] && t in Dispatched(s, now).rq
    ensures
      var s' := Dispatched(s, now);
      t in s'.tasks && s'.current in s'.tasks && Before(s'.tasks, s'.current, t)
  {
    var q := Candidates(s);
    EnqueuedSorted(s.tasks, s.rq, s.current);
    DispatchedTimes(s, now);
    var i :| 0 <= i < |q[1..]| && q[1..][i] == t;
    assert Before(s.tasks, q[0], q[i + 1]);
  }

  // ---------------------------------------------------------------- any action

  /** Actions that go through `sched_node::yield`. */
  predicate Reschedules(a: Action) {
    a.Yield? || a.ParkCommit? || a.Join? || a.Exit?
  }

  /** The state in which such an action enters `sched_node::yield`. */
  ghost function Entering(s: State, a: Action): State
    requires May(s, a) && Reschedules(a)
  {
    match a
    case Yield(_, _) => s
    case ParkCommit(_, _) => Blocking(s, ParkWait(Cur(s).pc.w))
    case Join(h, _, _) => Announced(s, h)
    case Exit(v, _, _) => Exiting(s, v)
  }

  lemma EnteringIsSound(s: State, a: Action)
    requires Inv(s) && May(s, a) && Reschedules(a)
    ensures Core(Entering(s, a)) && CanReschedule(Entering(s, a))
    ensures Next(s, a) == Rescheduled(Entering(s, a), a.now1, a.now2)
  {
    EnteringReschedules(s, a);
    if a.ParkCommit? {
      ParkCommitEnters(s, a);
    } else if a.Join? {
      JoinEnters(s, a);
    } else if a.Exit? {
      ExitingKeepsCore(s, a.value);
    }
  }

  lemma EnteringReschedules(s: State, a: Action)
    requires May(s, a) && Reschedules(a)
    ensures CanReschedule(Entering(s, a)) && Next(s, a) == Rescheduled(Entering(s, a), a.now1, a.now2)
  {}

  lemma ParkCommitEnters(s: State, a: Action)
    requires Inv(s) && May(s, a) && a.ParkCommit?
    ensures Core(Entering(s, a))
  {
    ParkMoveKeepsCore(s, Entering(s, a), Cur(s).pc.w);
  }

  lemma JoinEnters(s: State, a: Action)
    requires Inv(s) && May(s, a) && a.Join?
    ensures Core(Entering(s, a))
  {
    JoinBlocks(s, a.h, a.now1, a.now2);
    BlocksKeepsCore(s, Entering(s, a), a.h);
  }

  /** `schedule` changes one key, that of a task not in the queue, and only if it is still zero. */
  lemma ScheduledTimes(s: State, t: Tid)
    requires t in s.tasks && Known(s.tasks, s.rq)
    ensures
      var s' := Scheduled(s, t);
      && s'.tasks.Keys == s.tasks.Keys && s'.current == s.current && s'.charged == s.charged
      && s'.lastTick == s.lastTick && s'.minVruntime == s.minVruntime && s'.deferred == s.deferred
      && s'.exits == s.exits && s'.joins == s.joins && s'.slots == s.slots
      && (forall u :: u in s.tasks && u != t ==> s'.tasks[u] == s.tasks[u])
      && s'.tasks[t] == s.tasks[t].(vruntime := s'.tasks[t].vruntime)
      && s'.tasks[t].vruntime == (if s.tasks[t].vruntime == 0 then s.minVruntime else s.tasks[t].vruntime)
  {}

  /** The action makes `t` runnable through `schedule`. */
  ghost predicate Schedules(s: State, a: Action, t: Tid)
    requires s.current in s.tasks
  {
    || (a.SpawnFinish? && Cur(s).pc == Spawning(t))
    || (a.UnparkFinish? && Cur(s).pc == Unparking(t))
    || (a.Exit? && Cur(s).joiner == Some(t))
  }

  /** The key of `t` is initialised to `_min_vruntime` exactly if `t` is scheduled and it was zero. */
  ghost predicate KeptOrInitialised(s: State, s': State, t: Tid, scheduled: bool) {
    && t in s.tasks && t in s'.tasks
    && s'.tasks[t].vruntime == (if scheduled && s.tasks[t].vruntime == 0 then s.minVruntime else s.tasks[t].vruntime)
    && (scheduled ==> t !in s.rq && t != s.current)
  }

  lemma EnteringTimes(s: State, a: Action, t: Tid)
    requires Inv(s) && May(s, a) && Reschedules(a) && t in s.tasks
    ensures
      var e := Entering(s, a);
      && KeptOrInitialised(s, e, t, Schedules(s, a, t)) && e.current == s.current && e.charged == s.charged
      && e.lastTick == s.lastTick && e.minVruntime == s.minVruntime && e.tasks.Keys == s.tasks.Keys
  {
    if a.Exit? {
      ExitFacts(s, a);
      ExitingTimes(s, a.value, t);
    } else {
      BlockingTimes(s, a, t);
    }
  }

  lemma ExitFacts(s: State, a: Action)
    requires Inv(s) && May(s, a) && a.Exit?
    ensures Cur(s).joiner.Some? ==> Cur(s).joiner.value !in s.rq && Cur(s).joiner.value != s.current
  {
    if Cur(s).joiner.Some? { JoinerNotQueued(s); }
  }

  lemma BlockingTimes(s: State, a: Action, t: Tid)
    requires May(s, a) && Reschedules(a) && !a.Exit? && t in s.tasks
    ensures
      var e := Entering(s, a);
      && KeptOrInitialised(s, e, t, Schedules(s, a, t)) && e.current == s.current && e.charged == s.charged
      && e.lastTick == s.lastTick && e.minVruntime == s.minVruntime && e.tasks.Keys == s.tasks.Keys
  {}

  lemma ExitingTimes(s: State, v: Val, t: Tid)
    requires Sane(s) && t in s.tasks
    requires Cur(s).joiner.Some? ==> Cur(s).joiner.value !in s.rq && Cur(s).joiner.value != s.current
    ensures
      var e := Exiting(s, v);
      && KeptOrInitialised(s, e, t, Cur(s).joiner == Some(t)) && e.current == s.current && e.charged == s.charged
      && e.lastTick == s.lastTick && e.minVruntime == s.minVruntime && e.tasks.Keys == s.tasks.Keys
  {
    var s1 := SetCur(s, Cur(s).(value := v, run := Stopped)).(
      exits := s.exits[Handle(s.current, Cur(s).spawns) := v]);
    if Cur(s).joiner.Some? {
      ScheduledTimes(s1, Cur(s).joiner.value);
    }
  }

  lemma JoinerNotQueued(s: State)
    requires Inv(s) && Cur(s).pc.Body? && Cur(s).joiner.Some?
    ensures Cur(s).joiner.value !in s.rq && Cur(s).joiner.value != s.current
  {
    var j := Cur(s).joiner.value;
    assert JoinOk(s, s.current) && JoinOk(s, j);
  }

  /** The object that `spawn` is going to use. */
  ghost function Choice(s: State, a: Attr, addr: Tid): Tid {
    var i := FindFrom(s.spare, a, 0);
    if i < |s.spare| then s.spare[i].id else addr
  }

  /** Nothing but tasks, free list and handles changes; no total and no tick. */
  ghost predicate SameClock(s: State, s': State) {
    && s'.current == s.current && s'.charged == s.charged && s'.lastTick == s.lastTick
    && s'.minVruntime == s.minVruntime && s'.deferred == s.deferred && s'.exits == s.exits && s'.joins == s.joins
    && s'.slots == s.slots
  }

  /** The current task moves to `pc`, `u` becomes `k`, and every other task stays as it is. */
  ghost predicate TwoChange(s: State, s': State, u: Tid, k: Task, pc: Pc) {
    && s.current in s.tasks && u != s.current && s'.tasks.Keys == s.tasks.Keys + {u}
    && s'.tasks[u] == k && s'.tasks[s.current] == Cur(s).(pc := pc)
    && (forall t :: t in s.tasks && t != u && t != s.current ==> s'.tasks[t] == s.tasks[t])
  }

  /** Making a task touches that object, whose key becomes zero, and the control point of the current task. */
  lemma MakeEffect(s: State, a: Attr, addr: Tid, total: nat) returns (k: Task)
    requires s.current in s.tasks && addr !in s.tasks && Choice(s, a, addr) != s.current
    requires forall i :: 0 <= i < |s.spare| ==> s.spare[i].id in s.tasks
    ensures
      var s' := Made(s, a, addr, total);
      var u := Choice(s, a, addr);
      && TwoChange(s, s', u, k, Spawning(u)) && SameClock(s, s') && s'.rq == s.rq && s'.handles == s.handles
      && k.vruntime == 0 && k.run.Suspended? && k.pc.Nascent?
  {
    var i := FindFrom(s.spare, a, 0);
    if i < |s.spare| {
      var z := s.tasks[s.spare[i].id];
      k := NewTask(z.size, z.tls, z.spawns, z.reclaims);
    } else {
      k := NewTask(total, a.tls, 0, 0);
    }
  }

  lemma HatchEffect(s: State)
    requires Sane(s) && Cur(s).pc.Spawning?
    ensures
      var u := Cur(s).pc.made;
      && TwoChange(s, Hatched(s), u, s.tasks[u].(pc := Body), Body) && SameClock(s, Hatched(s)) && Hatched(s).rq == s.rq
  {}

  /** Scheduling it gives it the key `_min_vruntime`. */
  lemma FinishEffect(s: State)
    requires Sane(s) && Cur(s).pc.Spawning?
    ensures
      var s' := Spawned(s);
      var u := Cur(s).pc.made;
      && u in s'.tasks && TwoChange(s, s', u, s'.tasks[u], Body) && SameClock(s, s')
      && s'.tasks[u] == s.tasks[u].(pc := Body, vruntime := s'.tasks[u].vruntime)
      && s'.tasks[u].vruntime == if s.tasks[u].vruntime == 0 then s.minVruntime else s.tasks[u].vruntime
  {
    SpawnIsHatchThenSchedule(s);
    HatchEffect(s);
    ScheduledTimes(Hatched(s), Cur(s).pc.made);
  }

  // ---------------------------------------------------------------- main results about one step

  /** How one step may change the virtual runtime of one task. */
  ghost predicate TimeStep(s: State, a: Action, s': State, t: Tid)
    requires t in s.tasks && s.current in s.tasks
  {
    && t in s'.tasks
    && s'.tasks[t].vruntime ==
       (if t == s.current then s.tasks[t].vruntime + (s'.charged - s.charged)
        else if Schedules(s, a, t) && s.tasks[t].vruntime == 0 then s.minVruntime
        else if a.SpawnMake? && t == Choice(s, a.attr, a.addr) then 0
        else s.tasks[t].vruntime)
    && (t in s.rq && t != s.current ==> s'.tasks[t].vruntime == s.tasks[t].vruntime)
  }

  /** Actions that read the clock: a reschedule, or the direct switch of `swap`. */
  predicate Ticks(a: Action) {
    Reschedules(a) || a.SwapFinish?
  }

  /** The clock reading left in `_last_tick`. */
  function TickOf(a: Action): nat
    requires Ticks(a)
  {
    if a.SwapFinish? then a.now1 else a.now2
  }

  /** What one step charges is the time since the last tick in whole microseconds: no more of them fit. */
  ghost predicate LedgerStep(s: State, a: Action, s': State) {
    if Ticks(a) then
      && 1000 * (s'.charged - s.charged) <= a.now1 - s.lastTick < 1000 * (s'.charged - s.charged + 1)
      && s'.lastTick == TickOf(a)
    else s'.charged == s.charged && s'.lastTick == s.lastTick
  }

  /** `_min_vruntime` becomes the largest virtual runtime popped so far. */
  ghost predicate MinStep(s: State, s': State, popped: bool) {
    s'.minVruntime == if popped && s'.current in s'.tasks then Max(s.minVruntime, s'.tasks[s'.current].vruntime)
                      else s.minVruntime
  }

  lemma RescheduledTimeStep(s: State, a: Action, e: State, t: Tid)
    requires s.current in s.tasks && Reschedules(a) && KeptOrInitialised(s, e, t, Schedules(s, a, t))
    requires CanReschedule(e) && s.lastTick <= a.now1 <= a.now2
    requires e.current == s.current && e.charged == s.charged && e.lastTick == s.lastTick
    requires e.minVruntime == s.minVruntime && e.tasks.Keys == s.tasks.Keys
    ensures
      var s' := Rescheduled(e, a.now1, a.now2);
      TimeStep(s, a, s', t) && LedgerStep(s, a, s') && MinStep(s, s', true)
  {
    RescheduledTimes(e, a.now1, a.now2);
  }

  lemma RescheduleTimeStep(s: State, a: Action, t: Tid)
    requires Inv(s) && May(s, a) && Reschedules(a) && t in s.tasks
    ensures TimeStep(s, a, Next(s, a), t) && LedgerStep(s, a, Next(s, a)) && MinStep(s, Next(s, a), true)
  {
    EnteringReschedules(s, a);
    EnteringTimes(s, a, t);
    RescheduledTimeStep(s, a, Entering(s, a), t);
  }

  lemma MakeTimeStep(s: State, a: Action, t: Tid)
    requires Inv(s) && May(s, a) && a.SpawnMake? && t in s.tasks
    ensures TimeStep(s, a, Next(s, a), t) && LedgerStep(s, a, Next(s, a)) && MinStep(s, Next(s, a), false)
  {
    ChoiceIsIdle(s, a);
    MadeTimeStep(s, a, t);
  }

  lemma MadeTimeStep(s: State, a: Action, t: Tid)
    requires Sane(s) && Enabled(s, a) && a.SpawnMake? && t in s.tasks
    requires Choice(s, a.attr, a.addr) != s.current && Choice(s, a.attr, a.addr) !in s.rq
    ensures TimeStep(s, a, Next(s, a), t) && LedgerStep(s, a, Next(s, a)) && MinStep(s, Next(s, a), false)
  {
    var k := MakeEffect(s, a.attr, a.addr, a.total);
    var u := Choice(s, a.attr, a.addr);
    TwoChangeTimeStep(s, a, Made(s, a.attr, a.addr, a.total), u, k, Spawning(u), t);
  }

  /** A step that touches the current task's control point and one other task. */
  lemma TwoChangeTimeStep(s: State, a: Action, s': State, u: Tid, k: Task, pc: Pc, t: Tid)
    requires TwoChange(s, s', u, k, pc) && SameClock(s, s') && !Ticks(a) && u !in s.rq && t in s.tasks
    requires t != u ==> !Schedules(s, a, t) && !(a.SpawnMake? && t == Choice(s, a.attr, a.addr))
    requires t == u ==>
               k.vruntime == if Schedules(s, a, u) && s.tasks[u].vruntime == 0 then s.minVruntime
                             else if a.SpawnMake? && u == Choice(s, a.attr, a.addr) then 0 else s.tasks[u].vruntime
    ensures TimeStep(s, a, s', t) && LedgerStep(s, a, s') && MinStep(s, s', false)
  {}

  lemma FinishTimeStep(s: State, a: Action, t: Tid)
    requires Inv(s) && May(s, a) && a.SpawnFinish? && t in s.tasks
    ensures TimeStep(s, a, Next(s, a), t) && LedgerStep(s, a, Next(s, a)) && MinStep(s, Next(s, a), false)
  {
    MadeTaskIsNascent(s);
    HatchedTimeStep(s, t);
  }

  lemma HatchedTimeStep(s: State, t: Tid)
    requires Sane(s) && Cur(s).pc.Spawning? && Cur(s).pc.made !in s.rq && t in s.tasks
    ensures
      var s' := Next(s, SpawnFinish);
      TimeStep(s, SpawnFinish, s', t) && LedgerStep(s, SpawnFinish, s') && MinStep(s, s', false)
  {
    FinishEffect(s);
    var u := Cur(s).pc.made;
    TwoChangeTimeStep(s, SpawnFinish, Spawned(s), u, Spawned(s).tasks[u], Body, t);
  }

  /** The chosen object is new or comes from the free list. */
  lemma ChoiceIsIdle(s: State, a: Action)
    requires Inv(s) && May(s, a) && a.SpawnMake?
    ensures
      var u := Choice(s, a.attr, a.addr);
      && u != s.current && u !in s.rq && s.deferred != Some(u)
      && (u in s.tasks ==> u in Ids(s.spare) && s.tasks[u].run.Stopped? && !s.tasks[u].Outstanding())
  {
    var i := FindFrom(s.spare, a.attr, 0);
    if i < |s.spare| {
      SpareIsUnnoticed(s, i);
    } else {
      assert forall q :: q in s.rq ==> q in s.tasks;
    }
  }

  lemma UnparkEffect(s: State)
    requires Sane(s) && Cur(s).pc.Unparking?
    ensures
      var s' := Unparked(s);
      var p := Cur(s).pc.peer;
      && p in s'.tasks && TwoChange(s, s', p, s'.tasks[p], Body) && SameClock(s, s')
      && s'.tasks[p] == s.tasks[p].(run := Suspended, vruntime := s'.tasks[p].vruntime)
      && s'.tasks[p].vruntime == if s.tasks[p].vruntime == 0 then s.minVruntime else s.tasks[p].vruntime
  {
    UnparkIsFreeThenSchedule(s);
    ScheduledTimes(Freed(s), Cur(s).pc.peer);
  }

  lemma UnparkTimeStep(s: State, a: Action, t: Tid)
    requires Inv(s) && May(s, a) && a.UnparkFinish? && t in s.tasks
    ensures TimeStep(s, a, Next(s, a), t) && LedgerStep(s, a, Next(s, a)) && MinStep(s, Next(s, a), false)
  {
    PeerNotQueued(s);
    UnparkEffect(s);
    var p := Cur(s).pc.peer;
    TwoChangeTimeStep(s, a, Unparked(s), p, Unparked(s).tasks[p], Body, t);
  }

  lemma PeerNotQueued(s: State)
    requires QueueExact(s) && HoldersExact(s) && (Cur(s).pc.Unparking? || Cur(s).pc.Swapping?)
    ensures Cur(s).pc.peer in s.tasks && Cur(s).pc.peer !in s.rq && Cur(s).pc.peer != s.current
  {
    assert HoldOk(s, s.current);
  }

  lemma SwapTimeStep(s: State, a: Action, t: Tid)
    requires Inv(s) && May(s, a) && a.SwapFinish? && t in s.tasks
    ensures TimeStep(s, a, Next(s, a), t) && LedgerStep(s, a, Next(s, a)) && MinStep(s, Next(s, a), false)
  {
    PeerNotQueued(s);
    SwapFinishSwaps(s, a.now1);
    SwapFinishTicks(s, a.now1);
    SwapsTimeStep(s, SwappedTo(s, a.now1), Cur(s).pc.w, Cur(s).pc.peer, t);
  }

  lemma SwapsTimeStep(s: State, s': State, w: Wid, p: Tid, t: Tid)
    requires Swaps(s, s', w, p) && p !in s.rq && t in s.tasks
    requires s'.tasks[s.current].vruntime == s.tasks[s.current].vruntime + (s'.charged - s.charged)
    ensures TimeStep(s, SwapFinish(0), s', t) && s'.minVruntime == s.minVruntime
  {}

  lemma SwapFinishTicks(s: State, now: nat)
    requires Sane(s) && Enabled(s, SwapFinish(now))
    ensures
      var s' := SwappedTo(s, now);
      && s.current in s'.tasks && s'.tasks[s.current].vruntime == Cur(s).vruntime + (s'.charged - s.charged)
      && LedgerStep(s, SwapFinish(now), s')
  {
    SliceFits(s, now);
  }

  /** No key, no total and no tick changes. */
  ghost predicate SameTimes(s: State, s': State) {
    && s'.tasks.Keys == s.tasks.Keys && s'.charged == s.charged && s'.lastTick == s.lastTick
    && s'.minVruntime == s.minVruntime
    && (forall u :: u in s.tasks ==> s'.tasks[u].vruntime == s.tasks[u].vruntime)
  }

  lemma TailReturnedTimes(s: State, h: Handle)
    requires h.t in s.tasks && s.current in s.tasks
    ensures SameTimes(s, TailReturned(s, h)) && SameTimes(s, JoinReturned(s, h))
  {
    ReclaimedTimes(SetCur(s, Cur(s).(pc := Clearing(h))), h.t);
  }

  lemma ReclaimedTimes(s: State, u: Tid)
    requires u in s.tasks
    ensures SameTimes(s, Reclaimed(s, u))
  {}

  predicate Spawns(a: Action) {
    a.SpawnMake? || a.SpawnFinish?
  }

  /** The current task moves to another control point; slots and handles may change, but nothing else. */
  ghost predicate Moves(s: State, s': State) {
    && s.current in s.tasks && s.current in s'.tasks && !s'.tasks[s.current].pc.Nascent?
    && s'.tasks == s.tasks[s.current := Cur(s).(pc := s'.tasks[s.current].pc)]
    && s' == s.(tasks := s'.tasks, slots := s'.slots, handles := s'.handles)
  }

  predicate OnlyMoves(a: Action) {
    a.ParkClaim? || a.ParkAbort? || a.UnparkTake? || a.SwapTake? || Looks(a) || a.JoinStopped? || a.Clear?
  }

  lemma SetCurMoves(s: State, pc: Pc, slots: map<Wid, Tid>, handles: set<Handle>)
    requires s.current in s.tasks && !pc.Nascent?
    ensures Moves(s, SetCur(s, Cur(s).(pc := pc)).(slots := slots, handles := handles))
  {}

  lemma ParkOnlyMoves(s: State, a: Action)
    requires Sane(s) && Enabled(s, a) && (a.ParkClaim? || a.ParkAbort?)
    ensures Moves(s, Next(s, a))
  {
    SetCurMoves(s, if a.ParkClaim? then Parking(a.w) else Body, Next(s, a).slots, s.handles);
  }

  /** Where the exchange leads, and what it leaves in the slots. */
  ghost function TakenTo(s: State, a: Action): Pc
    requires Sane(s) && Enabled(s, a) && (a.UnparkTake? || a.SwapTake?)
  {
    var w, p := Cur(s).pc.w, Cur(s).pc.seen;
    if !StillThere(s, w, p) then Body else if a.UnparkTake? then Unparking(p) else Swapping(w, p)
  }

  ghost function TakenSlots(s: State, a: Action): map<Wid, Tid>
    requires Sane(s) && Enabled(s, a) && (a.UnparkTake? || a.SwapTake?)
  {
    var w, p := Cur(s).pc.w, Cur(s).pc.seen;
    if !StillThere(s, w, p) then s.slots else if a.UnparkTake? then s.slots - {w} else s.slots[w := s.current]
  }

  lemma TakeIs(s: State, a: Action)
    requires Sane(s) && Enabled(s, a) && (a.UnparkTake? || a.SwapTake?)
    ensures Next(s, a) == SetCur(s, Cur(s).(pc := TakenTo(s, a))).(slots := TakenSlots(s, a))
  {}

  lemma TakeOnlyMoves(s: State, a: Action)
    requires Sane(s) && Enabled(s, a) && (a.UnparkTake? || a.SwapTake?)
    ensures Moves(s, Next(s, a))
  {
    TakeIs(s, a);
    SetCurMoves(s, TakenTo(s, a), TakenSlots(s, a), s.handles);
  }

  lemma LookOnlyMoves(s: State, a: Action)
    requires Sane(s) && Enabled(s, a) && LooksAtSlot(a)
    ensures Moves(s, Next(s, a))
  {
    SetCurMoves(s, Next(s, a).tasks[s.current].pc, s.slots, s.handles);
  }

  lemma HandleOnlyMoves(s: State, a: Action)
    requires Sane(s) && Enabled(s, a)
    requires a.EnterJoin? || a.EnterDetach? || a.JoinRefuse? || a.JoinStopped? || a.Clear?
    ensures Moves(s, Next(s, a))
  {
    var pc := if a.EnterJoin? then JoinEntered(a.h) else if a.EnterDetach? then DetachEntered(a.h)
              else if a.JoinStopped? then JoinTail(a.h) else Body;
    SetCurMoves(s, pc, s.slots, if a.Clear? then s.handles - {Cur(s).pc.h} else s.handles);
  }

  lemma StepOnlyMoves(s: State, a: Action)
    requires Sane(s) && Enabled(s, a) && OnlyMoves(a)
    ensures Moves(s, Next(s, a))
  {
    if a.ParkClaim? || a.ParkAbort? {
      ParkOnlyMoves(s, a);
    } else if a.UnparkTake? || a.SwapTake? {
      TakeOnlyMoves(s, a);
    } else if LooksAtSlot(a) {
      LookOnlyMoves(s, a);
    } else {
      HandleOnlyMoves(s, a);
    }
  }

  lemma DetachedTimes(s: State, h: Handle)
    requires s.current in s.tasks && h.t in s.tasks
    ensures SameTimes(s, Detached(s, h))
  {}

  lemma QuietTimes(s: State, a: Action)
    requires Sane(s) && Enabled(s, a) && !Reschedules(a) && !Spawns(a) && !a.UnparkFinish? && !a.SwapFinish?
    ensures SameTimes(s, Next(s, a))
  {
    if a.JoinReturn? || a.DetachReturn? {
      TailReturnedTimes(s, Cur(s).pc.h);
    } else if a.Detach? {
      DetachedTimes(s, a.h);
    } else {
      StepOnlyMoves(s, a);
    }
  }

  /** Main result about keys: in every state that satisfies the invariant, a step leaves the key of a queued task
      alone, charges exactly the task that ran, gives a task that is scheduled with a key of zero the key
      `_min_vruntime`, sets that of an object reused by `spawn` to zero, and changes no other key; the charge is the
      elapsed time in whole microseconds; and `_min_vruntime` only ever rises, to the key just popped. */
  lemma EveryStepKeepsTime(s: State, a: Action, t: Tid)
    requires Inv(s) && May(s, a) && t in s.tasks
    ensures TimeStep(s, a, Next(s, a), t) && LedgerStep(s, a, Next(s, a)) && MinStep(s, Next(s, a), Reschedules(a))
  {
    if Reschedules(a) {
      RescheduleTimeStep(s, a, t);
    } else if a.SpawnMake? {
      MakeTimeStep(s, a, t);
    } else if a.SpawnFinish? {
      FinishTimeStep(s, a, t);
    } else if a.UnparkFinish? {
      UnparkTimeStep(s, a, t);
    } else if a.SwapFinish? {
      SwapTimeStep(s, a, t);
    } else {
      QuietTimeStep(s, a, t);
    }
  }

  lemma QuietTimeStep(s: State, a: Action, t: Tid)
    requires Sane(s) && Enabled(s, a) && !Reschedules(a) && !Spawns(a) && !a.UnparkFinish? && !a.SwapFinish?
    requires t in s.tasks
    ensures TimeStep(s, a, Next(s, a), t) && LedgerStep(s, a, Next(s, a)) && MinStep(s, Next(s, a), false)
  {
    QuietTimes(s, a);
  }
}
