/** What each call of the scheduler that switches away or moves another task leaves behind, said of the tasks,
    queues and slots themselves. */
module KernelCalls {
  import opened Options
  import opened Freelist
  import opened Kernel
  import opened KernelInv
  import opened KernelSteps
  import opened KernelRuns
  import opened KernelTimes
  import opened KernelFair

  // ---------------------------------------------------------------- giving up the processor

  /** A task that leaves without being runnable keeps everything but its key and its flag, and another one runs. */
  lemma RescheduledLeaver(e: State, now1: nat, now2: nat)
    requires CanReschedule(e) && !Cur(e).run.Running? && e.current !in e.rq && e.deferred != Some(e.current)
    ensures
      var s' := Rescheduled(e, now1, now2);
      && s'.current in e.rq && e.current in s'.tasks
      && s'.tasks[e.current] == Cur(e).(vruntime := s'.tasks[e.current].vruntime, noPreempt := true)
  {
    CanPop(e, now1);
    DeferredReclaimedTimes(e);
    var p := AtPop(e, now1);
    assert p.tasks[e.current] == Cur(e).(vruntime := p.tasks[e.current].vruntime);
    DispatchedLeaver(p, now2);
  }

  lemma DispatchedLeaver(p: State, now: nat)
    requires p.current in p.tasks && Known(p.tasks, p.rq) && Candidates(p) != [] && !Cur(p).run.Running?
    requires p.current !in p.rq
    ensures
      var s' := Dispatched(p, now);
      && s'.current in p.rq && p.current in s'.tasks
      && s'.tasks[p.current] == Cur(p).(noPreempt := true)
  {}

  /** What switching leaves of a task other than the leaver: its joiner, its value and its life. */
  lemma RescheduledOther(e: State, now1: nat, now2: nat, t: Tid)
    requires CanReschedule(e) && t in e.tasks
    ensures
      var s' := Rescheduled(e, now1, now2);
      && t in s'.tasks && s'.slots == e.slots && s'.handles == e.handles
      && s'.tasks[t].joiner == e.tasks[t].joiner && s'.tasks[t].value == e.tasks[t].value
      && s'.tasks[t].detached == e.tasks[t].detached && s'.tasks[t].spawns == e.tasks[t].spawns
  {
    CanPop(e, now1);
    AtPopOther(e, now1, t);
    DispatchedOther(AtPop(e, now1), now2, t);
  }

  ghost predicate SameRecord(k: Task, k': Task) {
    && k'.joiner == k.joiner && k'.value == k.value && k'.detached == k.detached && k'.spawns == k.spawns
    && k'.size == k.size && k'.tls == k.tls && k'.host == k.host
  }

  lemma AtPopOther(e: State, now1: nat, t: Tid)
    requires CanReschedule(e) && t in e.tasks
    ensures
      var p := AtPop(e, now1);
      t in p.tasks && p.slots == e.slots && p.handles == e.handles && SameRecord(e.tasks[t], p.tasks[t])
  {}

  lemma DispatchedOther(p: State, now: nat, t: Tid)
    requires p.current in p.tasks && Known(p.tasks, p.rq) && Candidates(p) != [] && t in p.tasks
    ensures
      var s' := Dispatched(p, now);
      t in s'.tasks && s'.slots == p.slots && s'.handles == p.handles && SameRecord(p.tasks[t], s'.tasks[t])
  {
    PoppedTimes(p, now);
    if Candidates(p)[0] != p.current { SwitchedOther(Popped(p, now), Candidates(p)[0], t); }
  }

  lemma SwitchedOther(s: State, u: Tid, t: Tid)
    requires s.current in s.tasks && u in s.tasks && u != s.current && t in s.tasks
    ensures
      var s' := Switched(s, u);
      t in s'.tasks && s'.slots == s.slots && s'.handles == s.handles && SameRecord(s.tasks[t], s'.tasks[t])
  {}

  /** `park_if` whose check holds: the caller sleeps in its slot and another task runs. */
  lemma ParkSleeps(s: State, a: Action)
    requires Inv(s) && May(s, a) && a.ParkCommit?
    ensures
      var s', w := Next(s, a), Cur(s).pc.w;
      && s'.current in s.rq && s.current in s'.tasks && s'.tasks[s.current].pc == ParkWait(w)
      && s'.tasks[s.current].run.Waiting? && s'.slots == s.slots && StillThere(s', w, s.current)
  {
    EnteringReschedules(s, a);
    CurrentIsNowhere(s);
    RescheduledLeaver(Entering(s, a), a.now1, a.now2);
    RescheduledOther(Entering(s, a), a.now1, a.now2, s.current);
  }

  lemma CurrentIsNowhere(s: State)
    requires Inv(s)
    ensures s.current !in s.rq && s.deferred != Some(s.current)
    ensures Cur(s).pc.Parking? ==> StillThere(s, Cur(s).pc.w, s.current)
    ensures Cur(s).pc.Body? ==> Cur(s).joiner != Some(s.current)
  {
    assert ParkOk(s, s.current) && JoinOk(s, s.current);
  }

  /** `join` on a task that runs on: the caller waits, is recorded as its joiner, and another task runs. */
  lemma JoinWaits(s: State, h: Handle, now1: nat, now2: nat)
    requires Sane(s) && Enabled(s, Join(h, now1, now2)) && s.current !in s.rq && s.deferred != Some(s.current)
    ensures
      var s' := Next(s, Join(h, now1, now2));
      && s'.current in s.rq && s.current in s'.tasks && s'.tasks[s.current].pc == JoinWait(h)
      && s'.tasks[s.current].run.Waiting? && h.t in s'.tasks && s'.tasks[h.t].joiner == Some(s.current)
      && s'.handles == s.handles
  {
    RescheduledLeaver(Announced(s, h), now1, now2);
    RescheduledOther(Announced(s, h), now1, now2, h.t);
  }

  /** `exit`: the value is left in the task, which is stopped for good; its joiner, if any, is runnable. */
  lemma ExitLeavesValue(s: State, a: Action)
    requires Inv(s) && May(s, a) && a.Exit?
    ensures
      var s' := Next(s, a);
      && s'.current != s.current && s.current in s'.tasks && s'.tasks[s.current].value == a.value
      && s'.tasks[s.current].run.Stopped? && (Cur(s).joiner.Some? ==> Runnable(s', Cur(s).joiner.value))
  {
    CurrentIsNowhere(s);
    EnteringReschedules(s, a);
    StoppedWithValue(s, a.value);
    RescheduledLeaver(Exiting(s, a.value), a.now1, a.now2);
    if Cur(s).joiner.Some? { JoinerGetsReady(s, a); }
  }

  lemma JoinerGetsReady(s: State, a: Action)
    requires Inv(s) && May(s, a) && a.Exit? && Cur(s).joiner.Some?
    ensures Runnable(Next(s, a), Cur(s).joiner.value)
  {
    EnteringIsSound(s, a);
    StoppedWithValue(s, a.value);
    RescheduledRunnable(Exiting(s, a.value), a.now1, a.now2, Cur(s).joiner.value);
  }

  lemma StoppedWithValue(s: State, v: Val)
    requires Sane(s) && Cur(s).joiner != Some(s.current) && s.current !in s.rq
    ensures
      var e := Exiting(s, v);
      && e.current == s.current && s.current in e.tasks && e.tasks[s.current].value == v
      && e.tasks[s.current].run.Stopped? && s.current !in e.rq && e.deferred == s.deferred
      && (Cur(s).joiner.Some? ==> Cur(s).joiner.value in e.rq)
  {
    if Cur(s).joiner.Some? { EnqueuedMembers(Exiting(s, v).tasks, s.rq, Cur(s).joiner.value); }
  }

  // ---------------------------------------------------------------- moving another task

  /** Everybody but the current task and `u` is as before. */
  ghost predicate OthersSame(s: State, s': State, u: Tid) {
    forall t :: t in s.tasks && t != u && t != s.current ==> t in s'.tasks && s'.tasks[t] == s.tasks[t]
  }

  /** The locked part of `spawn`: the new task is queued, its handle exists, and the caller goes on. */
  lemma SpawnQueues(s: State)
    requires Sane(s) && Cur(s).pc.Spawning?
    ensures
      var s', u := Next(s, SpawnFinish), Cur(s).pc.made;
      && s'.current == s.current && s.current in s'.tasks && s'.tasks[s.current] == Cur(s).(pc := Body)
      && u in s'.tasks && s'.tasks[u].pc.Body? && (forall t :: t in s'.rq <==> t in s.rq || t == u)
      && s'.handles == s.handles + {Handle(u, s.tasks[u].spawns)} && OthersSame(s, s', u)
  {
    FinishEffect(s);
    SpawnedQueue(s);
    SpawnedHandles(s);
  }

  lemma SpawnedHandles(s: State)
    requires Sane(s) && Cur(s).pc.Spawning?
    ensures Spawned(s).handles == s.handles + {Handle(Cur(s).pc.made, s.tasks[Cur(s).pc.made].spawns)}
  {}

  /** The locked part of `unpark`: the task taken out is SUSPENDED and queued, and the caller goes on. */
  lemma UnparkQueues(s: State)
    requires Sane(s) && Cur(s).pc.Unparking?
    ensures
      var s', p := Next(s, UnparkFinish), Cur(s).pc.peer;
      && s'.current == s.current && s.current in s'.tasks && s'.tasks[s.current] == Cur(s).(pc := Body)
      && p in s'.tasks && s'.tasks[p].run.Suspended? && s'.tasks[p].pc == s.tasks[p].pc
      && (forall t :: t in s'.rq <==> t in s.rq || t == p) && s'.slots == s.slots && OthersSame(s, s', p)
  {
    UnparkEffect(s);
    EnqueuedMembers(Unparked(s).tasks, s.rq, Cur(s).pc.peer);
  }

  /** The locked part of `swap`: the caller waits in the slot and the task taken out runs, in user code. */
  lemma SwapTrades(s: State, now: nat)
    requires Sane(s) && Enabled(s, SwapFinish(now))
    ensures
      var s', w, p := Next(s, SwapFinish(now)), Cur(s).pc.w, Cur(s).pc.peer;
      && s'.current == p && p in s'.tasks && s'.tasks[p].run.Running?
      && (s.tasks[p].pc.ParkWait? ==> s'.tasks[p].pc.Body?)
      && s.current in s'.tasks && s'.tasks[s.current].run.Waiting? && s'.tasks[s.current].pc == ParkWait(w)
      && s'.rq == s.rq && s'.slots == s.slots && OthersSame(s, s', p)
  {
    SwapFinishSwaps(s, now);
  }

  /** The unlocked part of `spawn`: the object has the stack size and TLS asked for, or those it was created with, and
      starts afresh. */
  lemma MadeAsAsked(s: State, a: Attr, addr: Tid, total: nat)
    requires SpareExact(s) && s.current in s.tasks && addr !in s.tasks && Choice(s, a, addr) != s.current
    requires forall i :: 0 <= i < |s.spare| ==> s.spare[i].id in s.tasks
    ensures
      var s', u := Made(s, a, addr, total), Choice(s, a, addr);
      && u in s'.tasks && s'.tasks[u].tls == a.tls && s'.tasks[u].size == (if u in s.tasks then a.size else total)
      && s'.tasks[u].value == 0 && s'.tasks[u].joiner.None? && !s'.tasks[u].detached && s'.tasks[u].vruntime == 0
      && s'.tasks[u].spawns == (if u in s.tasks then s.tasks[u].spawns else 0) + 1
      && s'.tasks[u].reclaims == (if u in s.tasks then s.tasks[u].reclaims else 0) && OthersSame(s, s', u)
  {
    var i := FindFrom(s.spare, a, 0);
    if i < |s.spare| { assert SpareOk(s, i); }
  }
}
