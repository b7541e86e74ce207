/** The scheduler as an object: `sched_node`, its run queue and the calls of `sched.cc` and `waiter.cc` as
    methods that update fields step by step, with the source's asserts in place.  Each call is proved to
    have exactly the effect of the corresponding action of the state machine in `Kernel`. */
module KernelNode {
  import opened Options
  import opened Freelist
  import opened Kernel
  import opened KernelInv
  import opened KernelSteps
  import opened KernelRuns
  import opened KernelTimes
  import opened KernelExact
  import opened KernelHistory
  import opened KernelFair
  import opened KernelCalls

  // ---------------------------------------------------------------- the preempt flag is out of band

  ghost function FlagAs(s: State, b: bool): State
    requires s.current in s.tasks
  {
    SetTask(s, s.current, Cur(s).(noPreempt := b))
  }

  lemma {:induction false} EnqueuedFrame(tasks: map<Tid, Task>, tasks': map<Tid, Task>, q: seq<Tid>, t: Tid)
    requires t in tasks && Known(tasks, q) && tasks'.Keys == tasks.Keys
    requires forall u :: u in tasks ==> tasks'[u].vruntime == tasks[u].vruntime
    ensures Enqueued(tasks', q, t) == Enqueued(tasks, q, t)
  {
    if q == [] || Before(tasks, t, q[0]) {
    } else {
      EnqueuedFrame(tasks, tasks', q[1..], t);
    }
  }

  lemma DeferredIgnoresFlag(s: State)
    requires s.current in s.tasks && (s.deferred.Some? ==> s.deferred.value in s.tasks && s.deferred.value != s.current)
    ensures DeferredReclaimed(FlagAs(s, true)) == FlagAs(DeferredReclaimed(s), true)
  {
    assert DeferredReclaimed(FlagAs(s, true)).tasks == FlagAs(DeferredReclaimed(s), true).tasks;
  }

  lemma ChargedIgnoresFlag(s: State, now: nat)
    requires s.current in s.tasks
    ensures Charged(FlagAs(s, true), now) == FlagAs(Charged(s, now), true)
  {
    assert Charged(FlagAs(s, true), now).tasks == FlagAs(Charged(s, now), true).tasks;
  }

  lemma CandidatesIgnoreFlag(s: State)
    requires s.current in s.tasks && Known(s.tasks, s.rq)
    ensures Candidates(FlagAs(s, true)) == Candidates(s)
  {
    EnqueuedFrame(s.tasks, FlagAs(s, true).tasks, s.rq, s.current);
  }

  lemma PoppedIgnoresFlag(s: State, now: nat)
    requires s.current in s.tasks && Known(s.tasks, s.rq) && Candidates(s) != []
    ensures Candidates(FlagAs(s, true)) == Candidates(s) && Popped(FlagAs(s, true), now) == FlagAs(Popped(s, now), true)
  {
    CandidatesIgnoreFlag(s);
  }

  lemma SwitchedIgnoresFlag(s: State, t: Tid)
    requires s.current in s.tasks && t in s.tasks && t != s.current
    ensures Switched(FlagAs(s, true), t) == Switched(s, t)
  {
    assert Switched(FlagAs(s, true), t).tasks == Switched(s, t).tasks;
  }

  /** Undoing the lock: a task that was popped again still holds the preempt lock it took. */
  ghost predicate SameUpToLock(locked: State, plain: State, c: Tid) {
    && locked.current in locked.tasks && locked.current == plain.current
    && if locked.current == c then Cur(locked).noPreempt && plain == FlagAs(locked, false) else plain == locked
  }

  lemma FlagRestored(s: State)
    requires s.current in s.tasks && !Cur(s).noPreempt
    ensures FlagAs(FlagAs(s, true), false) == s
  {
    assert FlagAs(FlagAs(s, true), false).tasks == s.tasks;
  }

  lemma DispatchedIgnoresFlag(s: State, now: nat)
    requires s.current in s.tasks && Known(s.tasks, s.rq) && Candidates(s) != [] && !Cur(s).noPreempt
    ensures Candidates(FlagAs(s, true)) != []
    ensures SameUpToLock(Dispatched(FlagAs(s, true), now), Dispatched(s, now), s.current)
  {
    PoppedIgnoresFlag(s, now);
    var p, next := Popped(s, now), Candidates(s)[0];
    if next != s.current {
      SwitchedIgnoresFlag(p, next);
    } else {
      FlagRestored(p);
    }
  }

  lemma AtPopIgnoresFlag(s: State, now: nat)
    requires CanReschedule(s) && s.deferred != Some(s.current)
    ensures CanReschedule(FlagAs(s, true)) && AtPop(s, now).current == s.current
    ensures AtPop(FlagAs(s, true), now) == FlagAs(AtPop(s, now), true)
    ensures Cur(AtPop(s, now)).noPreempt == Cur(s).noPreempt
  {
    DeferredIgnoresFlag(s);
    ChargedIgnoresFlag(DeferredReclaimed(s), now);
  }

  /** Taking the preempt lock first changes nothing but the flag of a task that is popped again. */
  lemma RescheduledIgnoresFlag(s: State, now1: nat, now2: nat)
    requires CanReschedule(s) && s.deferred != Some(s.current) && !Cur(s).noPreempt
    ensures CanReschedule(FlagAs(s, true))
    ensures SameUpToLock(Rescheduled(FlagAs(s, true), now1, now2), Rescheduled(s, now1, now2), s.current)
  {
    AtPopIgnoresFlag(s, now1);
    CanPop(s, now1);
    DispatchedIgnoresFlag(AtPop(s, now1), now2);
  }

  lemma ScheduledIgnoresFlag(s: State, t: Tid)
    requires s.current in s.tasks && t in s.tasks && t != s.current && Known(s.tasks, s.rq)
    ensures Scheduled(FlagAs(s, true), t) == FlagAs(Scheduled(s, t), true)
  {
    var k := s.tasks[t];
    var k' := if k.vruntime == 0 then k.(vruntime := s.minVruntime) else k;
    var s1, s2 := SetTask(s, t, k'), SetTask(FlagAs(s, true), t, k');
    assert s2.tasks == FlagAs(s1, true).tasks;
    EnqueuedFrame(s1.tasks, s2.tasks, s.rq, t);
  }

  // ---------------------------------------------------------------- the object

  class SchedNode {
    const maxSpare: nat
    var spinFlag: bool
    var tasks: map<Tid, Task>
    var current: Tid
    var rq: seq<Tid>
    var minVruntime: nat
    var lastTick: nat
    var deferred: Option<Tid>
    var spare: seq<Spare>
    var destroyed: set<Tid>
    var slots: map<Wid, Tid>
    var handles: set<Handle>
    ghost var charged: nat
    ghost var exits: map<Handle, Val>
    ghost var joins: map<Handle, Val>

    ghost function View(): State
      reads this
    {
      State(tasks, current, rq, minVruntime, lastTick, deferred, spare, maxSpare, destroyed, slots, handles,
            charged, exits, joins)
    }

    /** Between calls: the state is one that the machine can reach by the rules, and the spin lock is free. */
    ghost predicate Valid()
      reads this
    {
      Reachable(View()) && Sane(View()) && !spinFlag
    }

    constructor (hostAddr: Tid, maxSpare: nat, now: nat)
      ensures View() == Boot(hostAddr, maxSpare, now) && Valid()
      ensures tasks.Keys == {hostAddr} && current == hostAddr && rq == [] && slots == map[] && handles == {}
      ensures lastTick == now && minVruntime == 0 && this.maxSpare == maxSpare && spare == [] && deferred.None?
      ensures tasks[hostAddr].host && tasks[hostAddr].run.Running? && tasks[hostAddr].vruntime == 0
    {
      this.maxSpare := maxSpare;
      spinFlag := false;
      tasks := map[hostAddr := Task(Running, Body, 0, None, false, 0, false, true, true, 0, true, 1, 0)];
      current, rq, minVruntime, lastTick, deferred := hostAddr, [], 0, now, None;
      spare, destroyed, slots, handles := [], {}, map[], {};
      charged, exits, joins := 0, map[], map[];
      new;
      BootIsReachable(hostAddr, maxSpare, now);
    }

    // -- rq

    /** `rq::push`: the ordered insertion done by `multiset::emplace`. */
    method Push(t: Tid)
      requires t in tasks && Known(tasks, rq)
      modifies this`rq
      ensures rq == Enqueued(tasks, old(rq), t)
    {
      var i := 0;
      while i < |rq| && !Before(tasks, t, rq[i])
        invariant 0 <= i <= |rq| && rq == old(rq)
        invariant Enqueued(tasks, rq, t) == rq[..i] + Enqueued(tasks, rq[i..], t)
      {
        EnqueuedPasses(tasks, rq, t, i);
        i := i + 1;
      }
      EnqueuedStops(tasks, rq, t, i);
      rq := rq[..i] + [t] + rq[i..];
    }

    /** `rq::pop` on a non-empty queue. */
    method Pop() returns (t: Tid)
      requires rq != [] && Known(tasks, rq)
      modifies this`rq, this`minVruntime
      ensures t == old(rq)[0] && rq == old(rq)[1..] && minVruntime == Max(old(minVruntime), tasks[t].vruntime)
    {
      t := rq[0];
      rq := rq[1..];
      if minVruntime < tasks[t].vruntime {
        minVruntime := tasks[t].vruntime;
      }
    }

    // -- locks

    method LockSpin()
      requires !spinFlag
      modifies this`spinFlag
      ensures spinFlag
    {
      spinFlag := true;
    }

    method UnlockSpin()
      requires spinFlag
      modifies this`spinFlag
      ensures !spinFlag
    {
      spinFlag := false;
    }

    /** `preempt_mutex::lock`; its assert is the precondition. */
    method PreemptLock()
      requires current in tasks && !tasks[current].noPreempt
      modifies this`tasks
      ensures View() == FlagAs(old(View()), true)
    {
      tasks := tasks[current := tasks[current].(noPreempt := true)];
    }

    /** `preempt_mutex::unlock`; its assert is the precondition. */
    method PreemptUnlock()
      requires current in tasks && tasks[current].noPreempt
      modifies this`tasks
      ensures View() == FlagAs(old(View()), false)
    {
      tasks := tasks[current := tasks[current].(noPreempt := false)];
    }

    // -- sched_node

    /** The running task is charged the whole microseconds since the last tick. */
    method Charge(now: nat)
      requires current in tasks && lastTick <= now
      modifies this`tasks, this`charged
      ensures View() == Charged(old(View()), now)
      ensures 1000 * (charged - old(charged)) <= now - lastTick < 1000 * (charged - old(charged) + 1)
    {
      var slice := (now - lastTick) / 1000;
      tasks := tasks[current := tasks[current].(vruntime := tasks[current].vruntime + slice)];
      charged := charged + slice;
    }

    /** `task_freelist::return_task` */
    method ReturnTask(t: Tid)
      requires t in tasks
      modifies this`tasks, this`spare, this`destroyed
      ensures View() == Reclaimed(old(View()), t)
    {
      if |spare| < maxSpare {
        spare := Inserted(spare, Spare(t, tasks[t].size, tasks[t].tls));
      } else {
        destroyed := destroyed + {t};
      }
      tasks := tasks[t := tasks[t].(reclaims := tasks[t].reclaims + 1)];
    }

    /** `get_next_task`, called with the spin lock held. */
    method GetNextTask(now1: nat, now2: nat) returns (next: Tid)
      requires spinFlag && CanReschedule(View()) && lastTick <= now1 && deferred.None?
      modifies this`tasks, this`charged, this`rq, this`minVruntime, this`lastTick, this`deferred
      ensures
        var s1 := Charged(old(View()), now1);
        Candidates(s1) != [] && next == Candidates(s1)[0] && View() == Popped(s1, now2)
    {
      Charge(now1);
      if tasks[current].run.Running? {
        Push(current);
      } else if tasks[current].run.Stopped? && tasks[current].detached {
        assert deferred.None?;
        deferred := Some(current);
      }
      next := Pop();
      lastTick := now2;
    }

    /** `switch_to_internal` with the node's spin lock free, followed by what the incoming task does first:
        finish the critical section it was switched out of, or start at its entry point. */
    method SwitchInto(t: Tid)
      requires !spinFlag && current in tasks && t in tasks
      requires t != current && tasks[current].noPreempt
      requires tasks[t].noPreempt == tasks[t].started
      modifies this`tasks, this`current
      ensures View() == Switched(old(View()), t)
    {
      if tasks[current].run.Running? {
        tasks := tasks[current := tasks[current].(run := Suspended)];
      }
      current := t;
      var k := tasks[t];
      if k.started {
        assert k.noPreempt;  // unlock of the critical section the task was switched out of
      }
      tasks := tasks[t := k.(run := Running, noPreempt := false, started := true,
                             pc := if k.pc.ParkWait? then Body else k.pc)];
    }

    /** A deferred task is given back. */
    method ReclaimDeferred()
      requires deferred.Some? ==> deferred.value in tasks
      modifies this`tasks, this`spare, this`destroyed, this`deferred
      ensures View() == DeferredReclaimed(old(View()))
    {
      if deferred.Some? {
        ReturnTask(deferred.value);
        deferred := None;
      }
    }

    /** The part of `sched_node::yield` under the spin lock. */
    method PickNext(now1: nat, now2: nat) returns (next: Tid)
      requires spinFlag && CanReschedule(View()) && lastTick <= now1 && deferred != Some(current)
      modifies this`tasks, this`charged, this`rq, this`minVruntime, this`lastTick, this`deferred, this`spare,
               this`destroyed
      ensures
        var p := AtPop(old(View()), now1);
        && p.current in p.tasks && Known(p.tasks, p.rq) && Candidates(p) != []
        && next == Candidates(p)[0] && View() == Popped(p, now2)
    {
      CanPop(View(), now1);
      DeferredReclaimedTimes(View());
      ReclaimDeferred();
      next := GetNextTask(now1, now2);
    }

    /** `sched_node::yield`, entered with the preempt lock held.  Queued tasks have their flag set exactly
        if they have been started. */
    method NodeYield(now1: nat, now2: nat)
      requires !spinFlag && CanReschedule(View()) && lastTick <= now1 && tasks[current].noPreempt
      requires deferred != Some(current)
      requires forall t :: t in rq ==> tasks[t].noPreempt == tasks[t].started
      modifies this
      ensures !spinFlag && View() == Rescheduled(old(View()), now1, now2)
    {
      LockSpin();
      FlagsUntouched(View(), now1);
      var next := PickNext(now1, now2);
      if next != current {
        UnlockSpin();
        SwitchInto(next);
        LockSpin();
      }
      UnlockSpin();
    }

    /** `sched_node::schedule` */
    method Schedule(t: Tid)
      requires !spinFlag && t in tasks && Known(tasks, rq)
      modifies this`tasks, this`rq, this`spinFlag
      ensures !spinFlag && View() == Scheduled(old(View()), t)
    {
      LockSpin();
      if tasks[t].vruntime == 0 {
        tasks := tasks[t := tasks[t].(vruntime := minVruntime)];
      }
      Push(t);
      UnlockSpin();
    }

    // -- sched, and the waiter operations

    /** `sched::yield`, by a task that may have announced that it is waiting. */
    method Deschedule(now1: nat, now2: nat)
      requires !spinFlag && CanLeave(View()) && lastTick <= now1 <= now2
      modifies this
      ensures !spinFlag && View() == Rescheduled(old(View()), now1, now2)
    {
      RescheduledIgnoresFlag(View(), now1, now2);
      var c := current;
      PreemptLock();
      NodeYield(now1, now2);
      if current == c {
        PreemptUnlock();
      }
    }

    method Yield(now1: nat, now2: nat)
      requires Valid() && lastTick <= now1 <= now2
      modifies this
      ensures Valid() && View() == Next(old(View()), Action.Yield(now1, now2))
    {
      StepIsValid(View(), Action.Yield(now1, now2));
      EntersSafely(View(), Action.Yield(now1, now2));
      Deschedule(now1, now2);
    }

    /** `schedule` between locking and unlocking the preempt mutex. */
    method ScheduleLocked(t: Tid)
      requires !spinFlag && t in tasks && t != current && Known(tasks, rq)
      requires current in tasks && !tasks[current].noPreempt
      modifies this`tasks, this`rq, this`spinFlag
      ensures !spinFlag && View() == Scheduled(old(View()), t)
    {
      ScheduledIgnoresFlag(View(), t);
      ScheduledTimes(View(), t);
      FlagRestored(Scheduled(View(), t));
      PreemptLock();
      Schedule(t);
      PreemptUnlock();
    }

    /** `make_task` and `start`, outside the lock: `addr` and `total` are what `task::create` would return. */
    method SpawnMake(attr: Attr, addr: Tid, total: nat) returns (t: Tid)
      requires Valid() && tasks[current].pc.Body? && addr !in tasks
      modifies this
      ensures Valid() && View() == Next(old(View()), Action.SpawnMake(attr, addr, total))
      ensures t == Choice(old(View()), attr, addr) && FreeObject(old(View()), t)
      ensures MadeFor(old(View()), View(), attr, total, t)
    {
      SpawnMakeOutcome(View(), attr, addr, total);
      t := MakeTask(attr, addr, total);
    }

    method MakeTask(attr: Attr, addr: Tid, total: nat) returns (t: Tid)
      requires current in tasks && addr !in tasks && (forall i :: 0 <= i < |spare| ==> spare[i].id in tasks)
      modifies this`tasks, this`spare
      ensures t == Choice(old(View()), attr, addr) && View() == Made(old(View()), attr, addr, total)
    {
      var k := FindFrom(spare, attr, 0);
      var c := tasks[current];
      if k < |spare| {
        t := spare[k].id;
        tasks := tasks[t := NewTask(tasks[t].size, tasks[t].tls, tasks[t].spawns, tasks[t].reclaims)];
        spare := Without(spare, k);
      } else {
        t := addr;
        tasks := tasks[t := NewTask(total, attr.tls, 0, 0)];
      }
      tasks := tasks[current := c.(pc := Spawning(t))];
    }

    /** The locked part of `spawn`, and the handle it returns. */
    method SpawnFinish() returns (h: Handle)
      requires Valid() && tasks[current].pc.Spawning?
      modifies this
      ensures Valid() && View() == Next(old(View()), Action.SpawnFinish)
      ensures h in handles && h !in old(handles) && h.t == old(tasks[current].pc.made)
      ensures h.t in rq && h.t in tasks && tasks[h.t].pc.Body? && current == old(current) && tasks[current].pc.Body?
    {
      SpawnQueues(View());
      ghost var s' := Next(View(), Action.SpawnFinish);
      StepIsValid(View(), Action.SpawnFinish);
      NewHandleIsNew(View());
      h := HatchTask();
      assert View() == s';
    }

    method HatchTask() returns (h: Handle)
      requires Sane(View()) && !spinFlag && tasks[current].pc.Spawning? && !tasks[current].noPreempt
      modifies this`tasks, this`rq, this`handles, this`spinFlag
      ensures !spinFlag && View() == Spawned(old(View())) && h in handles
      ensures h == Handle(old(tasks[current].pc.made), old(tasks[tasks[current].pc.made].spawns))
    {
      SpawnIsHatchThenSchedule(View());
      HatchedCurrent(View());
      var t := tasks[current].pc.made;
      h := Handle(t, tasks[t].spawns);
      tasks := tasks[current := tasks[current].(pc := Body)];
      tasks := tasks[t := tasks[t].(pc := Body)];
      handles := handles + {h};
      ScheduleLocked(t);
    }

    /** The compare-exchange of `park_if`. */
    method ParkClaim(w: Wid) returns (ok: bool)
      requires Valid() && tasks[current].pc.Body?
      modifies this`slots, this`tasks
      ensures Valid() && ok == (w !in old(slots))
      ensures View() == if ok then Next(old(View()), Action.ParkClaim(w)) else old(View())
      ensures ok ==> slots == old(slots)[w := current] && tasks[current].pc == Parking(w)
    {
      ok := w !in slots;
      if ok {
        ghost var s' := Next(View(), Action.ParkClaim(w));
        StepIsValid(View(), Action.ParkClaim(w));
        slots := slots[w := current];
        tasks := tasks[current := tasks[current].(pc := Parking(w))];
        assert View() == s';
      }
    }

    /** The rest of `park_if`, given what the check returned. */
    method ParkDecide(check: bool, now1: nat, now2: nat)
      requires Valid() && tasks[current].pc.Parking? && (check ==> lastTick <= now1 <= now2 && rq != [])
      modifies this
      ensures Valid() && View() == Next(old(View()), if check then ParkCommit(now1, now2) else ParkAbort)
      ensures
        var w := old(tasks[current].pc.w);
        if check then
          && slots == old(slots) && StillThere(View(), w, old(current)) && old(current) in tasks && current in old(rq)
          && tasks[old(current)].pc == ParkWait(w) && tasks[old(current)].run.Waiting?
        else slots == old(slots) - {w} && current == old(current) && tasks[current].pc.Body?
    {
      var w := tasks[current].pc.w;
      if check {
        CommitOutcome(View(), now1, now2);
        EntersSafely(View(), ParkCommit(now1, now2));
        StepIsValid(View(), ParkCommit(now1, now2));
        tasks := tasks[current := tasks[current].(run := Waiting, pc := ParkWait(w))];
        Deschedule(now1, now2);
      } else {
        ghost var s' := Next(View(), ParkAbort);
        StepIsValid(View(), ParkAbort);
        slots := slots - {w};
        tasks := tasks[current := tasks[current].(pc := Body)];
        assert View() == s';
      }
    }

    /** The load of `unpark` and `swap`: false if the slot is empty. */
    method Look(w: Wid, swap: bool) returns (ok: bool)
      requires Valid() && tasks[current].pc.Body?
      modifies this`tasks
      ensures Valid() && ok == (w in old(slots))
      ensures View() == if !ok then old(View()) else Next(old(View()), if swap then SwapLook(w) else UnparkLook(w))
    {
      ok := w in slots;
      if ok {
        ghost var a := if swap then SwapLook(w) else UnparkLook(w);
        ghost var s' := Next(View(), a);
        StepIsValid(View(), a);
        var pc := if swap then SwapLoaded(w, slots[w]) else UnparkLoaded(w, slots[w]);
        tasks := tasks[current := tasks[current].(pc := pc)];
        assert View() == s';
      }
    }

    /** The test of the run state of the task loaded, whatever has become of it since: false if it is not waiting. */
    method Test() returns (ok: bool)
      requires Valid() && (tasks[current].pc.UnparkLoaded? || tasks[current].pc.SwapLoaded?)
      modifies this`tasks
      ensures Valid() && ok == old(IsWaiting(View(), tasks[current].pc.seen))
      ensures View() == Next(old(View()), if old(tasks[current].pc.SwapLoaded?) then SwapTest else UnparkTest)
      ensures tasks[current].pc.Body? <==> !ok
    {
      ghost var a := if tasks[current].pc.SwapLoaded? then SwapTest else UnparkTest;
      ghost var s' := Next(View(), a);
      StepIsValid(View(), a);
      var w, p := tasks[current].pc.w, tasks[current].pc.seen;
      ok := p in tasks && tasks[p].run == Waiting;
      var pc := if !ok then Body else if tasks[current].pc.SwapLoaded? then SwapSeen(w, p) else UnparkSeen(w, p);
      tasks := tasks[current := tasks[current].(pc := pc)];
      assert View() == s';
    }

    /** The compare-exchange of `unpark`.  The source's assert follows: it holds exactly if all is well afterwards. */
    method UnparkTake() returns (ok: bool)
      requires Valid() && tasks[current].pc.UnparkSeen?
      modifies this`slots, this`tasks
      ensures View() == Next(old(View()), Action.UnparkTake)
      ensures ok == old(StillThere(View(), tasks[current].pc.w, tasks[current].pc.seen))
      ensures ok ==> tasks[current].pc == Unparking(old(tasks[current].pc.seen)) && tasks[current].pc.peer in tasks
      ensures slots == if ok then old(slots) - {old(tasks[current].pc.w)} else old(slots)
      ensures !ok ==> tasks[current].pc.Body?
      ensures Valid() <==> (ok ==> tasks[tasks[current].pc.peer].run.Waiting?)
    {
      TakeOutcome(View(), Action.UnparkTake);
      ok := ExchangeForNull();
    }

    method ExchangeForNull() returns (ok: bool)
      requires Sane(View()) && tasks[current].pc.UnparkSeen?
      modifies this`slots, this`tasks
      ensures View() == Next(old(View()), Action.UnparkTake)
      ensures ok == old(StillThere(View(), tasks[current].pc.w, tasks[current].pc.seen))
    {
      ghost var s' := Next(View(), Action.UnparkTake);
      var w, p := tasks[current].pc.w, tasks[current].pc.seen;
      ok := w in slots && slots[w] == p;
      if ok {
        slots := slots - {w};
      }
      tasks := tasks[current := tasks[current].(pc := if ok then Unparking(p) else Body)];
      assert View() == s';
    }

    /** `unpark` after its compare-exchange; the source's assert is in place. */
    method UnparkFinish()
      requires Valid() && tasks[current].pc.Unparking?
      modifies this
      ensures Valid() && View() == Next(old(View()), Action.UnparkFinish)
      ensures current == old(current) && tasks[current].pc.Body? && old(tasks[current].pc.peer) in rq
      ensures old(tasks[current].pc.peer) in tasks && tasks[old(tasks[current].pc.peer)].run.Suspended?
    {
      UnparkQueues(View());
      ghost var s' := Next(View(), Action.UnparkFinish);
      StepIsValid(View(), Action.UnparkFinish);
      HeldTaskWaits(View());
      assert tasks[tasks[current].pc.peer].run == Waiting;
      WakePeer();
      assert View() == s';
    }

    method WakePeer()
      requires Sane(View()) && !spinFlag && tasks[current].pc.Unparking? && !tasks[current].noPreempt
      modifies this`tasks, this`rq, this`spinFlag
      ensures !spinFlag && View() == Unparked(old(View()))
    {
      var parked := tasks[current].pc.peer;
      tasks := tasks[current := tasks[current].(pc := Body)];
      WakeLocked(parked);
    }

    /** The locked part of `unpark`. */
    method WakeLocked(t: Tid)
      requires !spinFlag && t in tasks && t != current && Known(tasks, rq)
      requires current in tasks && !tasks[current].noPreempt
      modifies this`tasks, this`rq, this`spinFlag
      ensures !spinFlag && View() == Scheduled(Woken(old(View()), t), t)
    {
      ghost var s := View();
      FlagCommutes(s, t, tasks[t].(run := Suspended));
      ScheduledIgnoresFlag(Woken(s, t), t);
      ScheduledTimes(Woken(s, t), t);
      FlagRestored(Scheduled(Woken(s, t), t));
      PreemptLock();
      tasks := tasks[t := tasks[t].(run := Suspended)];
      Schedule(t);
      PreemptUnlock();
    }

    /** The compare-exchange of `swap`.  The source has no assert; all is well afterwards exactly if the task taken is
        waiting. */
    method SwapTake() returns (ok: bool)
      requires Valid() && tasks[current].pc.SwapSeen?
      modifies this`slots, this`tasks
      ensures View() == Next(old(View()), Action.SwapTake)
      ensures ok == old(StillThere(View(), tasks[current].pc.w, tasks[current].pc.seen))
      ensures ok ==> tasks[current].pc.Swapping? && tasks[current].pc.peer == old(tasks[current].pc.seen)
      ensures slots == if ok then old(slots)[old(tasks[current].pc.w) := current] else old(slots)
      ensures !ok ==> tasks[current].pc.Body?
      ensures ok ==> tasks[current].pc.peer in tasks
      ensures Valid() <==> (ok ==> tasks[tasks[current].pc.peer].run.Waiting?)
    {
      TakeOutcome(View(), Action.SwapTake);
      ok := ExchangeForCurrent();
    }

    method ExchangeForCurrent() returns (ok: bool)
      requires Sane(View()) && tasks[current].pc.SwapSeen?
      modifies this`slots, this`tasks
      ensures View() == Next(old(View()), Action.SwapTake)
      ensures ok == old(StillThere(View(), tasks[current].pc.w, tasks[current].pc.seen))
    {
      ghost var s' := Next(View(), Action.SwapTake);
      var w, p := tasks[current].pc.w, tasks[current].pc.seen;
      ok := w in slots && slots[w] == p;
      if ok {
        slots := slots[w := current];
      }
      tasks := tasks[current := tasks[current].(pc := if ok then Swapping(w, p) else Body)];
      assert View() == s';
    }

    /** `swap` after its compare-exchange, with `sched_node::switch_to`. */
    method SwapFinish(now: nat)
      requires Valid() && tasks[current].pc.Swapping? && lastTick <= now
      modifies this
      ensures Valid() && View() == Next(old(View()), Action.SwapFinish(now))
      ensures current == old(tasks[current].pc.peer) && tasks[current].run.Running? && old(current) in tasks
      ensures tasks[old(current)].run.Waiting? && tasks[old(current)].pc == ParkWait(old(tasks[current].pc.w))
    {
      SwapTrades(View(), now);
      ghost var s' := Next(View(), Action.SwapFinish(now));
      StepIsValid(View(), Action.SwapFinish(now));
      HeldTaskWaits(View());
      SwitchLocked(now);
      assert View() == s';
    }

    /** The locked part of `swap`. */
    method SwitchLocked(now: nat)
      requires Sane(View()) && !spinFlag && !tasks[current].noPreempt && tasks[current].pc.Swapping? && lastTick <= now
      requires tasks[tasks[current].pc.peer].noPreempt == tasks[tasks[current].pc.peer].started
      modifies this
      ensures !spinFlag && View() == SwappedTo(old(View()), now)
    {
      SwapIgnoresFlag(View(), now);
      var parked, w := tasks[current].pc.peer, tasks[current].pc.w;
      PreemptLock();
      tasks := tasks[current := tasks[current].(run := Waiting, pc := ParkWait(w))];
      ChargeTick(now);
      SwitchInto(parked);
    }

    /** The accounting of `sched_node::switch_to`. */
    method ChargeTick(now: nat)
      requires current in tasks && lastTick <= now && !spinFlag
      modifies this`tasks, this`charged, this`lastTick, this`spinFlag
      ensures !spinFlag && View() == Charged(old(View()), now).(lastTick := now)
    {
      LockSpin();
      Charge(now);
      lastTick := now;
      UnlockSpin();
    }

    /** The null test of `join` and `detach`: false if the handle is null, which throws. */
    method Enter(h: Handle, detaching: bool) returns (ok: bool)
      requires Valid() && tasks[current].pc.Body?
      modifies this`tasks
      ensures Valid() && ok == (h in old(handles))
      ensures View() == if !ok then old(View())
                        else Next(old(View()), if detaching then EnterDetach(h) else EnterJoin(h))
    {
      ok := h in handles;
      if ok {
        ghost var a := if detaching then EnterDetach(h) else EnterJoin(h);
        ghost var s' := Next(View(), a);
        StepIsValid(View(), a);
        tasks := tasks[current := tasks[current].(pc := if detaching then DetachEntered(h) else JoinEntered(h))];
        assert View() == s';
      }
    }

    /** The locked part of `join`: false if the task has a joiner already, which throws.  A stopped task sends the
        caller to the unlocked tail, any other makes it wait.  The handle is not null, whoever has used it since the
        null test; all is well afterwards exactly if the call throws or nobody else is using the handle. */
    method Join(h: Handle, now1: nat, now2: nat) returns (ok: bool)
      requires Valid() && tasks[current].pc == JoinEntered(h) && lastTick <= now1 <= now2
      requires rq != [] || (h.t in tasks && (tasks[h.t].joiner.Some? || tasks[h.t].run.Stopped?))
      modifies this
      ensures h in old(handles) && h.t in old(tasks) && ok == old(tasks)[h.t].joiner.None?
      ensures Enabled(old(View()), Joining(old(View()), h, now1, now2))
      ensures View() == Next(old(View()), Joining(old(View()), h, now1, now2))
      ensures Valid() <==> !ok || old(Unclaimed(View(), h))
      ensures old(current) in tasks && h.t in tasks
      ensures !ok ==> current == old(current) && tasks == old(tasks)[current := old(tasks)[current].(pc := Body)]
      ensures ok && old(tasks)[h.t].run.Stopped? ==> current == old(current) && tasks[current].pc == JoinTail(h)
      ensures ok && !old(tasks)[h.t].run.Stopped? ==>
                && current in old(rq) && tasks[h.t].joiner == Some(old(current))
                && tasks[old(current)].pc == JoinWait(h) && tasks[old(current)].run.Waiting?
    {
      EnteredHasTask(View(), h);
      JoinOutcome(View(), h, now1, now2);
      StepIsValidExactly(View(), Joining(View(), h, now1, now2));
      ok := JoinLocked(h, now1, now2);
    }

    method JoinLocked(h: Handle, now1: nat, now2: nat) returns (ok: bool)
      requires Sane(View()) && !spinFlag && h.t in tasks && CanLeave(View()) && lastTick <= now1 <= now2
      requires Enabled(View(), Joining(View(), h, now1, now2))
      modifies this
      ensures !spinFlag && ok == old(tasks)[h.t].joiner.None?
      ensures View() == Next(old(View()), Joining(old(View()), h, now1, now2))
    {
      ghost var s := View();
      ok := tasks[h.t].joiner.None?;
      if ok && tasks[h.t].run != Stopped {
        AnnouncedCanLeave(View(), h);
        Announce(h);
        Deschedule(now1, now2);
      } else {
        tasks := tasks[current := tasks[current].(pc := if ok then JoinTail(h) else Body)];
        assert View() == Next(s, Joining(s, h, now1, now2));
      }
    }

    /** Naming the joiner and announcing the wait, under the lock. */
    method Announce(h: Handle)
      requires current in tasks && h.t in tasks && !tasks[current].noPreempt
      modifies this`tasks
      ensures View() == Announced(old(View()), h)
    {
      AnnouncedUnderLock(View(), h);
      PreemptLock();
      MarkJoined(h);
      PreemptUnlock();
    }

    method MarkJoined(h: Handle)
      requires current in tasks && h.t in tasks
      modifies this`tasks
      ensures View() == Announced(old(View()), h)
    {
      tasks := tasks[h.t := tasks[h.t].(joiner := Some(current))];
      tasks := tasks[current := tasks[current].(run := Waiting, pc := JoinWait(h))];
    }

    /** The unlocked tail of `join` up to `return_task`: the source's assert is in place, and the value taken is the
        one with which that spawn exited. */
    method JoinReturn() returns (value: Val)
      requires Valid() && (tasks[current].pc.JoinWait? || tasks[current].pc.JoinTail?)
      modifies this`tasks, this`spare, this`destroyed, this`joins
      ensures Valid() && Enabled(old(View()), Action.JoinReturn) && View() == Next(old(View()), Action.JoinReturn)
      ensures old(tasks[current].pc.h) in old(exits) && value == old(exits[tasks[current].pc.h])
      ensures joins == old(joins)[old(tasks[current].pc.h) := value]
    {
      TailGoesOn(View());
      ReturnGoesOn(View(), Action.JoinReturn);
      var h := tasks[current].pc.h;
      assert tasks[h.t].run == Stopped;
      value := TakeValue(h);
    }

    method TakeValue(h: Handle) returns (value: Val)
      requires current in tasks && h.t in tasks
      modifies this`tasks, this`spare, this`destroyed, this`joins
      ensures View() == JoinReturned(old(View()), h) && value == old(tasks)[h.t].value
    {
      value := tasks[h.t].value;
      ReturnTail(h);
      joins := joins[h := value];
    }

    method ReturnTail(h: Handle)
      requires current in tasks && h.t in tasks
      modifies this`tasks, this`spare, this`destroyed
      ensures View() == TailReturned(old(View()), h)
    {
      tasks := tasks[current := tasks[current].(pc := Clearing(h))];
      ReturnTask(h.t);
    }

    /** The unlocked tail of `detach` up to `return_task`; the source's assert is in place. */
    method DetachReturn()
      requires Valid() && tasks[current].pc.DetachTail?
      modifies this`tasks, this`spare, this`destroyed
      ensures Valid() && Enabled(old(View()), Action.DetachReturn) && View() == Next(old(View()), Action.DetachReturn)
    {
      TailGoesOn(View());
      ReturnGoesOn(View(), Action.DetachReturn);
      var h := tasks[current].pc.h;
      assert tasks[h.t].run == Stopped;
      ReturnTail(h);
    }

    /** The handle is nulled; all is well afterwards exactly if no other call is past its null test of it. */
    method Clear()
      requires Valid() && tasks[current].pc.Clearing?
      modifies this`tasks, this`handles
      ensures View() == Next(old(View()), Action.Clear)
      ensures handles == old(handles) - {old(tasks[current].pc.h)} && tasks[current].pc.Body?
      ensures Valid() <==> old(NobodyElseEntered(View(), tasks[current].pc.h))
    {
      ghost var s' := Next(View(), Action.Clear);
      StepIsValidExactly(View(), Action.Clear);
      handles := handles - {tasks[current].pc.h};
      tasks := tasks[current := tasks[current].(pc := Body)];
      assert View() == s';
    }

    /** The locked part of `detach`: either the task, still alive, is marked and the handle null, or the caller is
        in the tail with the handle.  All is well afterwards exactly if nobody else is using the handle, nor, where
        it has been nulled, past its null test of it. */
    method Detach(h: Handle) returns (live: bool)
      requires Valid() && tasks[current].pc == DetachEntered(h)
      modifies this`tasks, this`handles
      ensures Enabled(old(View()), Action.Detach(h)) && View() == Next(old(View()), Action.Detach(h))
      ensures h.t in tasks && h in old(handles) && live == !old(tasks)[h.t].run.Stopped?
      ensures live ==> tasks[h.t].detached && h !in handles && tasks[current].pc.Body?
      ensures !live ==> tasks[h.t] == old(tasks)[h.t] && h in handles && tasks[current].pc == DetachTail(h)
      ensures Valid() <==> old(Unclaimed(View(), h)) && (live ==> old(NobodyElseEntered(View(), h)))
    {
      EnteredHasTask(View(), h);
      DetachOutcome(View(), h);
      live := DetachTask(h);
    }

    method DetachTask(h: Handle) returns (live: bool)
      requires current in tasks && h.t in tasks
      modifies this`tasks, this`handles
      ensures View() == Detached(old(View()), h) && live == !old(tasks)[h.t].run.Stopped?
      ensures h.t in tasks && current in tasks
      ensures live ==> tasks[h.t].detached && h !in handles && tasks[current].pc.Body?
      ensures !live && h.t != current ==> tasks[h.t] == old(tasks)[h.t]
      ensures !live ==> handles == old(handles) && tasks[current].pc == DetachTail(h)
    {
      live := tasks[h.t].run != Stopped;
      if live {
        tasks := tasks[h.t := tasks[h.t].(detached := true)];
        tasks := tasks[current := tasks[current].(pc := Body)];
        handles := handles - {h};
      } else {
        tasks := tasks[current := tasks[current].(pc := DetachTail(h))];
      }
    }

    method Exit(v: Val, now1: nat, now2: nat)
      requires Valid() && tasks[current].pc.Body? && !tasks[current].host && lastTick <= now1 <= now2
      requires tasks[current].joiner.Some? || rq != []
      modifies this
      ensures Valid() && View() == Next(old(View()), Action.Exit(v, now1, now2))
      ensures exits == old(exits)[Handle(old(current), old(tasks[current].spawns)) := v]
      ensures old(current) in tasks && tasks[old(current)].value == v && tasks[old(current)].run.Stopped?
      ensures old(tasks[current].joiner).Some? ==> Runnable(View(), old(tasks[current].joiner).value)
    {
      ghost var s := View();
      ExitOutcome(s, v, now1, now2);
      StepIsValid(s, Action.Exit(v, now1, now2));
      ghost var s' := Next(s, Action.Exit(v, now1, now2));
      JoinerIsElsewhere(s);
      ExitUnderLock(s, v, now1, now2);
      StopLocked(v);
      NodeYield(now1, now2);
      assert View() == s';
    }

    /** `exit` up to the final `yield`. */
    method StopLocked(v: Val)
      requires Sane(View()) && !spinFlag && !tasks[current].noPreempt && tasks[current].joiner != Some(current)
      modifies this
      ensures !spinFlag && View() == FlagAs(Exiting(old(View()), v), true)
    {
      ghost var s := View();
      ExitingIgnoresFlag(s, v);
      PreemptLock();
      exits := exits[Handle(current, tasks[current].spawns) := v];
      tasks := tasks[current := tasks[current].(value := v, run := Stopped)];
      if tasks[current].joiner.Some? {
        Schedule(tasks[current].joiner.value);
      }
    }
  }

  lemma EnqueuedPasses(tasks: map<Tid, Task>, q: seq<Tid>, t: Tid, i: nat)
    requires t in tasks && Known(tasks, q) && i < |q| && !Before(tasks, t, q[i])
    ensures q[..i] + Enqueued(tasks, q[i..], t) == q[..i + 1] + Enqueued(tasks, q[i + 1..], t)
  {
    assert q[i..][0] == q[i] && q[i..][1..] == q[i + 1..];
    assert Enqueued(tasks, q[i..], t) == [q[i]] + Enqueued(tasks, q[i + 1..], t);
    ConcatShifts(q[..i], q[i], Enqueued(tasks, q[i + 1..], t));
    assert q[..i + 1] == q[..i] + [q[i]];
  }

  lemma ConcatShifts(a: seq<Tid>, x: Tid, b: seq<Tid>)
    ensures a + ([x] + b) == (a + [x]) + b
  {}

  lemma EnqueuedStops(tasks: map<Tid, Task>, q: seq<Tid>, t: Tid, i: nat)
    requires t in tasks && Known(tasks, q) && i <= |q| && (i < |q| ==> Before(tasks, t, q[i]))
    ensures q[..i] + Enqueued(tasks, q[i..], t) == q[..i] + [t] + q[i..]
  {
    if i < |q| { assert q[i..][0] == q[i]; }
  }

  /** What `sched::yield` needs: somebody to run, the preempt lock free, and every queued task's flag as the task
      left it. */
  ghost predicate CanLeave(s: State) {
    && CanReschedule(s) && !Cur(s).noPreempt && s.deferred != Some(s.current)
    && forall t :: t in s.rq ==> t in s.tasks && t != s.current && s.tasks[t].noPreempt == s.tasks[t].started
  }

  lemma CoreCanLeave(s: State)
    requires Core(s) && CanReschedule(s)
    ensures CanLeave(s)
  {
    assert FlagExact(s, s.current);
    forall t | t in s.rq ensures t in s.tasks && t != s.current && s.tasks[t].noPreempt == s.tasks[t].started {
      assert FlagExact(s, t) && TaskLife(s, t);
    }
  }

  lemma EntersSafely(s: State, a: Action)
    requires Reachable(s) && May(s, a) && Reschedules(a)
    ensures CanLeave(Entering(s, a)) && Next(s, a) == Rescheduled(Entering(s, a), a.now1, a.now2)
    ensures Entering(s, a).lastTick == s.lastTick
  {
    ReachableInv(s);
    EnteringIsSound(s, a);
    CoreCanLeave(Entering(s, a));
    EnteringTimes(s, a, s.current);
  }

  lemma BootIsReachable(host: Tid, maxSpare: nat, now: nat)
    ensures Reachable(Boot(host, maxSpare, now)) && Sane(Boot(host, maxSpare, now))
  {
    var b := Boot(host, maxSpare, now);
    assert Legal(b, []) && Exec(b, []) == b;
  }

  /** Reclaiming and charging leave the flags alone, and a popped task other than the current was queued. */
  lemma FlagsUntouched(s: State, now1: nat)
    requires CanReschedule(s) && (s.deferred.Some? ==> s.deferred.value != s.current)
    requires forall t :: t in s.rq ==> s.tasks[t].noPreempt == s.tasks[t].started
    ensures
      var p := AtPop(s, now1);
      && CanReschedule(DeferredReclaimed(s)) && p.current in p.tasks && Known(p.tasks, p.rq) && Candidates(p) != []
      && p.current == s.current && p.tasks[p.current].noPreempt == s.tasks[s.current].noPreempt
      && (Candidates(p)[0] != p.current ==>
            p.tasks[Candidates(p)[0]].noPreempt == p.tasks[Candidates(p)[0]].started)
  {
    DeferredReclaimedTimes(s);
    var p := AtPop(s, now1);
    EnqueuedMembers(p.tasks, p.rq, p.current);
    assert Candidates(p)[0] in Candidates(p);
  }

  /** The handle of the task being spawned does not exist yet. */
  lemma NewHandleIsNew(s: State)
    requires Reachable(s) && s.current in s.tasks && Cur(s).pc.Spawning?
    ensures
      var t := Cur(s).pc.made;
      t in s.tasks && t != s.current && Handle(t, s.tasks[t].spawns) !in s.handles
  {
    ReachableInv(s);
    MadeTaskIsNascent(s);
    assert TaskLife(s, Cur(s).pc.made);
  }

  lemma HatchedCurrent(s: State)
    requires Sane(s) && Cur(s).pc.Spawning?
    ensures
      var e := Hatched(s);
      e.current == s.current && e.current in e.tasks && e.tasks[s.current].noPreempt == Cur(s).noPreempt
  {}

  /** The task an exchange succeeds on exists and is not the caller; whether it is waiting decides the rest. */
  lemma SeenStillExists(s: State)
    requires Reachable(s) && s.current in s.tasks && (Cur(s).pc.UnparkSeen? || Cur(s).pc.SwapSeen?)
    ensures
      var w, p := Cur(s).pc.w, Cur(s).pc.seen;
      && (StillThere(s, w, p) ==> p in s.tasks && p != s.current)
      && (TakesWaiting(s) <==> (StillThere(s, w, p) ==> s.tasks[p].run.Waiting?))
  {
    ReachableInv(s);
    if Cur(s).pc.w in s.slots { AwakeInSlot(s, Cur(s).pc.w); }
  }

  lemma TakeEffect(s: State, a: Action)
    requires Can(s, a) && (a.UnparkTake? || a.SwapTake?)
    ensures
      var w, p, s' := Cur(s).pc.w, Cur(s).pc.seen, Next(s, a);
      && s'.current == s.current && s.current in s'.tasks && Proper(s, a) == TakesWaiting(s)
      && (StillThere(s, w, p) ==> Cur(s').pc == if a.UnparkTake? then Unparking(p) else Swapping(w, p))
      && (p in s.tasks && p != s.current ==> p in s'.tasks && s'.tasks[p] == s.tasks[p])
  {}

  lemma TakeOutcome(s: State, a: Action)
    requires Reachable(s) && Can(s, a) && (a.UnparkTake? || a.SwapTake?)
    ensures
      var w, p, s' := Cur(s).pc.w, Cur(s).pc.seen, Next(s, a);
      && s'.current == s.current && s.current in s'.tasks
      && (StillThere(s, w, p) ==>
            && Cur(s').pc == (if a.UnparkTake? then Unparking(p) else Swapping(w, p)) && p in s'.tasks
            && (Reachable(s') && Sane(s') <==> s'.tasks[p].run.Waiting?))
      && (!StillThere(s, w, p) ==> Reachable(s') && Sane(s'))
  {
    TakeEffect(s, a);
    SeenStillExists(s);
    StepIsValidExactly(s, a);
  }

  lemma DetachOutcome(s: State, h: Handle)
    requires Reachable(s) && s.current in s.tasks && Cur(s).pc == DetachEntered(h)
    ensures Can(s, Detach(h)) && h.t in s.tasks
    ensures
      var s', live := Next(s, Detach(h)), !s.tasks[h.t].run.Stopped?;
      Reachable(s') && Sane(s') <==> Unclaimed(s, h) && (live ==> NobodyElseEntered(s, h))
  {
    ReachableIsSane(s);
    EnteredHasTask(s, h);
    StepIsValidExactly(s, Detach(h));
    DetachProper(s, h);
  }

  lemma DetachProper(s: State, h: Handle)
    requires Can(s, Detach(h))
    ensures Proper(s, Detach(h)) <==> Unclaimed(s, h) && (!s.tasks[h.t].run.Stopped? ==> NobodyElseEntered(s, h))
  {}

  /** The running task, in the tail of `join` or `detach`, can go on: its target is stopped and its handle not null. */
  lemma TailGoesOn(s: State)
    requires Reachable(s) && s.current in s.tasks
    requires Cur(s).pc.JoinWait? || Cur(s).pc.JoinTail? || Cur(s).pc.DetachTail?
    ensures
      var h := Cur(s).pc.h;
      h in s.handles && h.t in s.tasks && s.tasks[h.t].run.Stopped? && h in s.exits && s.exits[h] == s.tasks[h.t].value
  {
    ReachableInv(s);
    TailFindsTargetStopped(s);
  }

  lemma ReturnGoesOn(s: State, a: Action)
    requires Reachable(s) && Can(s, a) && (a.JoinReturn? || a.DetachReturn?)
    ensures
      var h := Cur(s).pc.h;
      && Next(s, a) == (if a.JoinReturn? then JoinReturned(s, h) else TailReturned(s, h))
      && Reachable(Next(s, a)) && Sane(Next(s, a))
  {
    StepIsValid(s, a);
    ReturnIs(s, a);
  }

  lemma StepIsValid(s: State, a: Action)
    requires Reachable(s) && May(s, a)
    ensures Reachable(Next(s, a)) && Sane(Next(s, a))
    ensures !Cur(s).noPreempt
  {
    Advance(s, a);
    ReachableIsSane(Next(s, a));
    FlagIsClear(s);
  }

  /** What an enabled action leaves is valid exactly if the action is proper. */
  lemma StepIsValidExactly(s: State, a: Action)
    requires Reachable(s) && Can(s, a)
    ensures Reachable(Next(s, a)) && Sane(Next(s, a)) <==> Proper(s, a)
    ensures !Cur(s).noPreempt && CanLeave(s)
  {
    ReachableInv(s);
    StepKeepsInvExactly(s, a);
    CoreCanLeave(s);
    if Proper(s, a) {
      StepIsValid(s, a);
    } else if Reachable(Next(s, a)) {
      ReachableInv(Next(s, a));
    }
  }

  /** What the locked part of `join` does on the handle `h`. */
  ghost function Joining(s: State, h: Handle, now1: nat, now2: nat): Action
    requires h.t in s.tasks
  {
    if s.tasks[h.t].joiner.Some? then JoinRefuse(h)
    else if s.tasks[h.t].run.Stopped? then JoinStopped(h)
    else Join(h, now1, now2)
  }

  lemma EnteredHasTask(s: State, h: Handle)
    requires Reachable(s) && s.current in s.tasks && Entered(Cur(s).pc) == Some(h)
    ensures h in s.handles && h.t in s.tasks && (s.tasks[h.t].run.Stopped? ==> h.t != s.current)
  {
    ReachableInv(s);
    assert EnteredOk(s, s.current);
    assert HandleOk(s, h);
  }

  /** An object that nobody has: not running, queued or in a slot, given back as often as spawned, and named only by
      handles that are about to be nulled. */
  ghost predicate FreeObject(s: State, t: Tid) {
    && t != s.current && t !in s.rq && (forall w :: w in s.slots ==> s.slots[w] != t)
    && (t in s.tasks ==> s.tasks[t].reclaims == s.tasks[t].spawns)
    && (forall h :: h in s.handles && h.t == t ==> BeingCleared(s, h))
  }

  lemma ChosenIsFree(s: State, attr: Attr, addr: Tid)
    requires Reachable(s) && addr !in s.tasks
    ensures FreeObject(s, Choice(s, attr, addr))
  {
    ReachableInv(s);
    var t := Choice(s, attr, addr);
    forall w | w in s.slots ensures s.slots[w] != t {
      assert SlotOk(s, w);
      if t in s.tasks { assert TaskLife(s, t) && ParkOk(s, t); }
    }
    forall h | h in s.handles && h.t == t ensures BeingCleared(s, h) {
      assert HandleOk(s, h);
    }
    if t in s.tasks { assert TaskLife(s, t) && ParkOk(s, t); }
  }

  lemma SpawnMakeIsMade(s: State, attr: Attr, addr: Tid, total: nat)
    requires Reachable(s) && May(s, SpawnMake(attr, addr, total))
    ensures Next(s, SpawnMake(attr, addr, total)) == Made(s, attr, addr, total)
    ensures Reachable(Made(s, attr, addr, total)) && Sane(Made(s, attr, addr, total))
  {
    StepIsValid(s, SpawnMake(attr, addr, total));
  }

  lemma FlagIsClear(s: State)
    requires Reachable(s)
    ensures s.current in s.tasks && !Cur(s).noPreempt
  {
    ReachableInv(s);
    assert FlagExact(s, s.current);
  }

  ghost function Woken(s: State, t: Tid): State
    requires t in s.tasks
  {
    SetTask(s, t, s.tasks[t].(run := Suspended))
  }

  lemma FlagCommutes(s: State, t: Tid, k: Task)
    requires s.current in s.tasks && t in s.tasks && t != s.current
    ensures SetTask(FlagAs(s, true), t, k) == FlagAs(SetTask(s, t, k), true)
  {
    assert SetTask(FlagAs(s, true), t, k).tasks == FlagAs(SetTask(s, t, k), true).tasks;
  }

  lemma HeldTaskWaits(s: State)
    requires Reachable(s) && s.current in s.tasks && (Cur(s).pc.Unparking? || Cur(s).pc.Swapping?)
    ensures
      var p := Cur(s).pc.peer;
      && p in s.tasks && p != s.current && s.tasks[p].run.Waiting? && s.tasks[p].noPreempt == s.tasks[p].started
  {
    ReachableInv(s);
    PeerWaits(s);
    PeerFlag(s, Cur(s).pc.peer);
  }

  lemma PeerWaits(s: State)
    requires HoldersExact(s) && s.current in s.tasks && (Cur(s).pc.Unparking? || Cur(s).pc.Swapping?)
    ensures
      var p := Cur(s).pc.peer;
      p in s.tasks && p != s.current && s.tasks[p].run.Waiting?
  {
    assert HoldOk(s, s.current);
  }

  lemma PeerFlag(s: State, p: Tid)
    requires FlagsExact(s) && LifeExact(s) && p in s.tasks && p != s.current && s.tasks[p].run.Waiting?
    ensures s.tasks[p].noPreempt == s.tasks[p].started
  {
    assert FlagExact(s, p) && TaskLife(s, p);
  }

  lemma SwapIgnoresFlag(s: State, now: nat)
    requires Sane(s) && Cur(s).pc.Swapping?
    ensures
      var b := Charged(Blocking(FlagAs(s, true), ParkWait(Cur(s).pc.w)), now).(lastTick := now);
      b.current == s.current && b.tasks.Keys == s.tasks.Keys && Switched(b, Cur(s).pc.peer) == SwappedTo(s, now)
  {
    BlockingIgnoresFlag(s, ParkWait(Cur(s).pc.w));
    ChargedIgnoresFlag(Blocking(s, ParkWait(Cur(s).pc.w)), now);
    SwitchedIgnoresFlag(Charged(Blocking(s, ParkWait(Cur(s).pc.w)), now).(lastTick := now), Cur(s).pc.peer);
  }

  lemma BlockingIgnoresFlag(s: State, pc: Pc)
    requires s.current in s.tasks
    ensures Blocking(FlagAs(s, true), pc) == FlagAs(Blocking(s, pc), true)
  {
    assert Blocking(FlagAs(s, true), pc).tasks == FlagAs(Blocking(s, pc), true).tasks;
  }

  lemma AnnouncedUnderLock(s: State, h: Handle)
    requires s.current in s.tasks && h.t in s.tasks && !Cur(s).noPreempt
    ensures
      var f := Announced(FlagAs(s, true), h);
      f.current in f.tasks && Cur(f).noPreempt && FlagAs(f, false) == Announced(s, h)
  {
    assert FlagAs(Announced(FlagAs(s, true), h), false).tasks == Announced(s, h).tasks;
  }

  lemma AnnouncedCanLeave(s: State, h: Handle)
    requires CanLeave(s) && h.t in s.tasks && s.rq != []
    ensures CanLeave(Announced(s, h)) && Announced(s, h).lastTick == s.lastTick
  {}

  /** The object `u` has been made afresh by the caller, as asked. */
  ghost predicate MadeFor(s: State, s': State, attr: Attr, total: nat, u: Tid) {
    && u in s'.tasks && s'.current in s'.tasks && Cur(s').pc == Spawning(u)
    && s'.tasks[u].pc.Nascent? && s'.tasks[u].Outstanding()
    && s'.tasks[u].tls == attr.tls && s'.tasks[u].size == (if u in s.tasks then attr.size else total)
    && s'.tasks[u].value == 0 && s'.tasks[u].joiner.None? && !s'.tasks[u].detached && s'.tasks[u].vruntime == 0
  }

  lemma SpawnMakeOutcome(s: State, attr: Attr, addr: Tid, total: nat)
    requires Reachable(s) && Sane(s) && Cur(s).pc.Body? && addr !in s.tasks
    ensures
      var s', u := Made(s, attr, addr, total), Choice(s, attr, addr);
      && Enabled(s, SpawnMake(attr, addr, total)) && s' == Next(s, SpawnMake(attr, addr, total))
      && Reachable(s') && Sane(s') && FreeObject(s, u) && MadeFor(s, s', attr, total, u)
  {
    ChosenIsFree(s, attr, addr);
    SpawnMakeIsMade(s, attr, addr, total);
    ReachableInv(s);
    MadeFresh(s, attr, addr, total);
  }

  lemma MadeFresh(s: State, attr: Attr, addr: Tid, total: nat)
    requires Inv(s) && May(s, SpawnMake(attr, addr, total))
    ensures MadeFor(s, Made(s, attr, addr, total), attr, total, Choice(s, attr, addr))
  {
    ChoiceIsIdle(s, SpawnMake(attr, addr, total));
    ChoiceWasReturned(s, attr, addr);
    MadeAsAsked(s, attr, addr, total);
    var k := MakeEffect(s, attr, addr, total);
  }

  lemma ChoiceWasReturned(s: State, attr: Attr, addr: Tid)
    requires Inv(s) && addr !in s.tasks
    ensures
      var u := Choice(s, attr, addr);
      u in s.tasks ==> s.tasks[u].reclaims == s.tasks[u].spawns
  {
    var i, u := FindFrom(s.spare, attr, 0), Choice(s, attr, addr);
    if i < |s.spare| {
      assert SpareOk(s, i) && TaskLife(s, u);
      SpareIsUnnoticed(s, i);
    }
  }

  lemma CommitOutcome(s: State, now1: nat, now2: nat)
    requires Reachable(s) && May(s, ParkCommit(now1, now2))
    ensures
      var s', w := Next(s, ParkCommit(now1, now2)), Cur(s).pc.w;
      && s'.current in s.rq && s.current in s'.tasks && s'.tasks[s.current].pc == ParkWait(w)
      && s'.tasks[s.current].run.Waiting? && s'.slots == s.slots && StillThere(s', w, s.current)
  {
    ReachableInv(s);
    ParkSleeps(s, ParkCommit(now1, now2));
  }

  lemma JoinOutcome(s: State, h: Handle, now1: nat, now2: nat)
    requires Reachable(s) && h.t in s.tasks && Can(s, Joining(s, h, now1, now2))
    ensures
      var s' := Next(s, Joining(s, h, now1, now2));
      && s.current in s'.tasks && h.t in s'.tasks
      && (s.tasks[h.t].joiner.Some? ==>
            s'.current == s.current && s'.tasks == s.tasks[s.current := Cur(s).(pc := Body)])
      && (s.tasks[h.t].joiner.None? && s.tasks[h.t].run.Stopped? ==>
            s'.current == s.current && s'.tasks[s.current].pc == JoinTail(h))
      && (s.tasks[h.t].joiner.None? && !s.tasks[h.t].run.Stopped? ==>
            && s'.current in s.rq && s'.tasks[h.t].joiner == Some(s.current)
            && s'.tasks[s.current].pc == JoinWait(h) && s'.tasks[s.current].run.Waiting?)
  {
    if s.tasks[h.t].joiner.Some? || s.tasks[h.t].run.Stopped? {
      JoinGoesOn(s, h, now1, now2);
    } else {
      WaiterIsNowhere(s);
      JoinWaits(s, h, now1, now2);
    }
  }

  lemma WaiterIsNowhere(s: State)
    requires Reachable(s)
    ensures s.current !in s.rq && s.deferred != Some(s.current)
  {
    ReachableInv(s);
  }

  lemma JoinGoesOn(s: State, h: Handle, now1: nat, now2: nat)
    requires h.t in s.tasks && Can(s, Joining(s, h, now1, now2))
    requires s.tasks[h.t].joiner.Some? || s.tasks[h.t].run.Stopped?
    ensures
      var s' := Next(s, Joining(s, h, now1, now2));
      && s'.current == s.current
      && s'.tasks == s.tasks[s.current := Cur(s).(pc := if s.tasks[h.t].joiner.Some? then Body else JoinTail(h))]
  {}

  lemma ExitOutcome(s: State, v: Val, now1: nat, now2: nat)
    requires Reachable(s) && May(s, Exit(v, now1, now2))
    ensures
      var s' := Next(s, Exit(v, now1, now2));
      && s'.exits == s.exits[Handle(s.current, Cur(s).spawns) := v]
      && s.current in s'.tasks && s'.tasks[s.current].value == v && s'.tasks[s.current].run.Stopped?
      && (Cur(s).joiner.Some? ==> Runnable(s', Cur(s).joiner.value))
  {
    ReachableInv(s);
    HistoriesOnlyGrow(s, Exit(v, now1, now2));
    ExitLeavesValue(s, Exit(v, now1, now2));
  }

  lemma JoinerIsElsewhere(s: State)
    requires Reachable(s) && s.current in s.tasks && Cur(s).pc.Body?
    ensures Cur(s).joiner != Some(s.current)
  {
    ReachableInv(s);
    assert JoinOk(s, s.current);
  }

  lemma ExitingIgnoresFlag(s: State, v: Val)
    requires Sane(s) && Cur(s).joiner != Some(s.current)
    ensures Sane(FlagAs(s, true)) && Exiting(FlagAs(s, true), v) == FlagAs(Exiting(s, v), true)
  {
    var s1 := SetCur(s, Cur(s).(value := v, run := Stopped)).(exits := s.exits[Handle(s.current, Cur(s).spawns) := v]);
    var f := FlagAs(s, true);
    var f1 := SetCur(f, Cur(f).(value := v, run := Stopped)).(exits := s.exits[Handle(s.current, Cur(s).spawns) := v]);
    assert f1.tasks == FlagAs(s1, true).tasks;
    if Cur(s).joiner.Some? {
      ScheduledIgnoresFlag(s1, Cur(s).joiner.value);
    }
  }

  /** An exiting task keeps the preempt lock: it is never popped again. */
  lemma ExitUnderLock(s: State, v: Val, now1: nat, now2: nat)
    requires Reachable(s) && May(s, Exit(v, now1, now2))
    ensures
      var f := FlagAs(Exiting(s, v), true);
      && CanReschedule(f) && f.current in f.tasks && Cur(f).noPreempt && f.deferred != Some(f.current)
      && f.lastTick == s.lastTick
      && (forall t :: t in f.rq ==> f.tasks[t].noPreempt == f.tasks[t].started)
      && Rescheduled(f, now1, now2) == Next(s, Exit(v, now1, now2))
  {
    EntersSafely(s, Exit(v, now1, now2));
    JoinerIsElsewhere(s);
    ExitingHasStopped(s, v);
    DescheduledUnderLock(Exiting(s, v), now1, now2);
  }

  lemma ExitingHasStopped(s: State, v: Val)
    requires Sane(s) && Cur(s).joiner != Some(s.current)
    ensures Exiting(s, v).current in Exiting(s, v).tasks && Cur(Exiting(s, v)).run.Stopped?
  {}

  lemma DescheduledUnderLock(e: State, now1: nat, now2: nat)
    requires CanLeave(e) && !Cur(e).run.Running?
    ensures
      var f := FlagAs(e, true);
      && CanReschedule(f) && f.current in f.tasks && Cur(f).noPreempt && f.deferred != Some(f.current)
      && (forall t :: t in f.rq ==> f.tasks[t].noPreempt == f.tasks[t].started)
      && Rescheduled(f, now1, now2) == Rescheduled(e, now1, now2)
  {
    RescheduledIgnoresFlag(e, now1, now2);
    StoppedIsNotPopped(e, now1, now2);
  }

  lemma StoppedIsNotPopped(e: State, now1: nat, now2: nat)
    requires CanReschedule(e) && !Cur(e).run.Running? && e.current !in e.rq
    ensures Rescheduled(e, now1, now2).current != e.current
  {
    DeferredReclaimedTimes(e);
    DispatchedTimes(AtPop(e, now1), now2);
  }
}
