/** The mutex as an object: its fields, the run states of the tasks using it, and one method per piece of
    `lock` and `unlock` that is atomic to the other tasks, each a step of the state machine in `Mutex`.  On top of
    them, `LockStretch` and `UnlockStretch` are whole calls that nobody interrupts. */
module MutexObject {
  import opened Options
  import opened Mutex
  import opened MutexProof

  /** Where a task goes when it gets the spin lock. */
  function AfterSpin(pc: Pc): Pc {
    match pc
    case LockSpin => LockTest(false)
    case Relock => Unboost
    case UnlockSpin(legit) => UnlockTest(legit)
    case _ => pc
  }

  class MutexTasks {
    var spin: Option<Tid>
    var owner: Option<Tid>
    var queue: seq<EntryId>
    var slots: map<EntryId, Option<Tid>>
    var boost: int
    var tasks: map<Tid, Task>
    var next: EntryId
    ghost var author: map<EntryId, Tid>
    ghost var released: seq<EntryId>

    ghost function View(): State
      reads this
    {
      State(spin, owner, queue, slots, boost, tasks, next, author, released)
    }

    /** The state is one that the machine can reach. */
    ghost predicate Valid()
      reads this
    {
      Reachable(View())
    }

    constructor (ids: set<Tid>)
      ensures View() == Fresh(ids) && Valid()
    {
      spin, owner, queue, slots, boost := None, None, [], map[], 0;
      tasks := map t | t in ids :: Task(Idle, 0, false);
      next, author, released := 0, map[], [];
      new;
      assert Legal(Fresh(ids), []) && Exec(Fresh(ids), []) == Fresh(ids);
    }

    method Goto(t: Tid, pc: Pc)
      requires t in tasks
      modifies this`tasks
      ensures View() == SetPc(old(View()), t, pc)
    {
      tasks := tasks[t := tasks[t].(pc := pc)];
    }

    method CallLock(t: Tid)
      requires Valid() && t in tasks && tasks[t].pc.Idle?
      modifies this`tasks
      ensures Valid() && View() == SetPc(old(View()), t, LockSpin)
    {
      Advance(View(), Action.CallLock(t));
      Goto(t, LockSpin);
    }

    method CallUnlock(t: Tid)
      requires Valid() && t in tasks && tasks[t].pc.Idle?
      modifies this`tasks
      ensures Valid()
      ensures tasks == old(tasks)[t := old(tasks)[t].(pc := UnlockSpin(old(tasks)[t].inside), inside := false)]
    {
      Advance(View(), Action.CallUnlock(t));
      tasks := tasks[t := tasks[t].(pc := UnlockSpin(tasks[t].inside), inside := false)];
    }

    /** Test-and-set finding the flag clear: the three places that take the spin lock. */
    method TakeSpinLock(t: Tid)
      requires Valid() && t in tasks && spin.None?
      requires tasks[t].pc.LockSpin? || tasks[t].pc.Relock? || tasks[t].pc.UnlockSpin?
      modifies this`spin, this`tasks
      ensures Valid() && View() == Acquire(old(View()), t, AfterSpin(old(tasks)[t].pc))
    {
      Advance(View(), Step(t));
      SpinStep(View(), t);
      spin := Some(t);
      Goto(t, AfterSpin(tasks[t].pc));
    }

    /** Join the queue and let go of the spin lock. */
    method JoinQueue(t: Tid)
      requires t in tasks && owner.Some? && owner.value in tasks
      modifies this
      ensures View() == Enqueue(old(View()), t)
    {
      boost := boost + 1;
      var o := owner.value;
      tasks := tasks[o := tasks[o].(boost := tasks[o].boost + 1)];
      queue := queue + [next];
      slots := slots[next := None];
      author := author[next := t];
      spin := None;
      Goto(t, Parking(next));
      next := next + 1;
    }

    /** The loop test of `lock` and what follows it: join the queue, or become the owner and return. */
    method TestOwner(t: Tid)
      requires Valid() && t in tasks && tasks[t].pc.LockTest?
      modifies this
      ensures Valid() && t in tasks && boost == old(boost) + (if old(owner).None? then 0 else 1)
      ensures if old(owner).None? then View() == TakeOwnership(old(View()), t)
              else
                && owner == old(owner) && spin.None? && queue == old(queue) + [old(next)]
                && tasks[t].pc == Parking(old(next)) && old(next) in slots && slots[old(next)].None?
      ensures OthersBoosted(old(View()), View(), t)
    {
      Advance(View(), Step(t));
      TestStep(View(), t);
      if owner.Some? {
        JoinQueue(t);
      } else {
        owner := Some(t);
        spin := None;
        tasks := tasks[t := Task(Idle, boost, true)];
      }
    }

    /** The compare-exchange of `park`.  The source's assert is in place. */
    method ParkClaim(t: Tid)
      requires Valid() && t in tasks && tasks[t].pc.Parking?
      modifies this`slots, this`tasks
      ensures
        var e := old(tasks)[t].pc.entry;
        Valid() && View() == SetPc(old(View()).(slots := old(slots)[e := Some(t)]), t, Claimed(e))
    {
      Advance(View(), Step(t));
      EntryIsFree(View(), t);
      var e := tasks[t].pc.entry;
      var succ := slots[e].None?;
      assert succ;
      slots := slots[e := Some(t)];
      Goto(t, Claimed(e));
    }

    /** The run-state store of `park`, and the task is asleep. */
    method ParkSleep(t: Tid)
      requires Valid() && t in tasks && tasks[t].pc.Claimed?
      modifies this`tasks
      ensures Valid() && View() == SetPc(old(View()), t, Parked(old(tasks)[t].pc.entry))
    {
      Advance(View(), Step(t));
      Goto(t, Parked(tasks[t].pc.entry));
    }

    /** The boost goes down again after being woken; it never drops below zero. */
    method DropBoost(t: Tid)
      requires Valid() && t in tasks && tasks[t].pc.Unboost?
      modifies this`boost, this`tasks
      ensures Valid() && boost >= 0 && View() == SetPc(old(View()).(boost := old(boost) - 1), t, LockTest(true))
    {
      Advance(View(), Step(t));
      boost := boost - 1;
      Goto(t, LockTest(true));
      BoostAccounting(View());
    }

    /** The owner test of `unlock` and its fast path. */
    method TestUnlock(t: Tid) returns (threw: bool)
      requires Valid() && t in tasks && tasks[t].pc.UnlockTest?
      modifies this`owner, this`spin, this`tasks
      ensures Valid() && (threw <==> old(owner) != Some(t)) && (threw <==> !old(tasks)[t].pc.legit)
      ensures View() == if threw then Mutex.Release(old(View()), t, Threw)
                        else if queue == [] then Mutex.Release(old(View()).(owner := None), t, Idle)
                        else SetPc(old(View()), t, UnparkLoad)
    {
      Advance(View(), Step(t));
      UnlockerOwnsIfLegit(View(), t);
      threw := owner != Some(t);
      if threw {
        spin := None;
        Goto(t, Threw);
      } else if queue == [] {
        owner, spin := None, None;
        Goto(t, Idle);
      } else {
        Goto(t, UnparkLoad);
      }
    }

    /** The load of `unpark` on the front entry; an empty one makes the caller yield and try again. */
    method LoadFront(t: Tid) returns (found: bool)
      requires Valid() && t in tasks && tasks[t].pc.UnparkLoad?
      modifies this`tasks
      ensures Valid() && queue != [] && queue[0] in slots && found == slots[queue[0]].Some?
      ensures found ==> slots[queue[0]].value in old(tasks) && slots[queue[0]].value != t
      ensures View() == if found then SetPc(old(View()), t, UnparkTest(slots[queue[0]].value)) else old(View())
    {
      Advance(View(), Step(t));
      FrontIsKnown(View(), t);
      found := slots[queue[0]].Some?;
      if found {
        Goto(t, UnparkTest(slots[queue[0]].value));
      }
    }

    /** The run-state test of `unpark`; a task not yet asleep makes the caller yield and try again. */
    method TestFront(t: Tid) returns (asleep: bool)
      requires Valid() && t in tasks && tasks[t].pc.UnparkTest? && tasks[t].pc.peer in tasks
      modifies this`tasks
      ensures Valid() && asleep == old(tasks)[old(tasks)[t].pc.peer].pc.Parked?
      ensures View() == SetPc(old(View()), t, if asleep then UnparkSwing(old(tasks)[t].pc.peer) else UnparkLoad)
    {
      Advance(View(), Step(t));
      asleep := tasks[tasks[t].pc.peer].pc.Parked?;
      Goto(t, if asleep then UnparkSwing(tasks[t].pc.peer) else UnparkLoad);
    }

    /** The compare-exchange of `unpark`, which succeeds, and its assert, which holds. */
    method UnparkWake(t: Tid)
      requires Valid() && t in tasks && tasks[t].pc.UnparkSwing?
      modifies this`slots, this`tasks
      ensures
        var p := old(tasks)[t].pc.peer;
        && Valid() && p in old(tasks) && p != t && old(tasks)[p].pc.Parked? && |queue| > 0
        && View() == SetPc(SetPc(old(View()).(slots := old(slots)[queue[0] := None]), p, Relock), t, PopAndRelease)
    {
      Advance(View(), Step(t));
      SwingFinds(View(), t);
      var p := tasks[t].pc.peer;
      assert tasks[p].pc.Parked?;  // the source's assert that the run state is WAITING
      slots := slots[queue[0] := None];
      Goto(p, Relock);
      Goto(t, PopAndRelease);
    }

    /** The front waiter is popped, owner and boost are cleared, the spin lock is released. */
    method Release(t: Tid)
      requires Valid() && t in tasks && tasks[t].pc.PopAndRelease?
      modifies this
      ensures Valid() && |old(queue)| > 0 && View() == PopFront(old(View()), t)
    {
      Advance(View(), Step(t));
      released := released + [queue[0]];
      queue := queue[1..];
      owner := None;
      tasks := tasks[t := tasks[t].(pc := Idle, boost := 0)];
      spin := None;
    }

    // -- whole calls

    /** `lock` with nobody interrupting, from its call or from being woken in the slow path: the task becomes the
        owner if there is none; otherwise it ends up asleep in an entry of its own at the back of the queue. */
    method LockStretch(t: Tid)
      requires Valid() && t in tasks && spin.None? && (tasks[t].pc.Idle? || tasks[t].pc.Relock?)
      modifies this
      ensures Valid() && spin.None? && t in tasks
      ensures if old(owner).None? then
                owner == Some(t) && tasks[t] == Task(Idle, boost, true) && queue == old(queue)
              else
                && owner == old(owner) && queue == old(queue) + [old(next)]
                && tasks[t].pc == Parked(old(next)) && old(next) in slots && slots[old(next)] == Some(t)
      ensures boost == old(boost) + (if old(owner).Some? then 1 else 0) - (if old(tasks)[t].pc.Relock? then 1 else 0)
      ensures OthersBoosted(old(View()), View(), t)
    {
      ReachTest(t);
      TestOwner(t);
      if tasks[t].pc.Parking? {
        SleepInEntry(t);
      }
    }

    /** `lock` up to its loop test, from its call or from being woken. */
    method ReachTest(t: Tid)
      requires Valid() && t in tasks && spin.None? && (tasks[t].pc.Idle? || tasks[t].pc.Relock?)
      modifies this`spin, this`tasks, this`boost
      ensures Valid() && spin == Some(t)
      ensures tasks == old(tasks)[t := old(tasks)[t].(pc := LockTest(old(tasks)[t].pc.Relock?))]
      ensures boost == old(boost) - (if old(tasks)[t].pc.Relock? then 1 else 0)
    {
      if tasks[t].pc.Idle? {
        CallLock(t);
      }
      TakeSpinLock(t);
      if tasks[t].pc.Unboost? {
        DropBoost(t);
      }
    }

    /** `park` on the caller's own entry. */
    method SleepInEntry(t: Tid)
      requires Valid() && t in tasks && tasks[t].pc.Parking?
      modifies this`slots, this`tasks
      ensures
        var e := old(tasks)[t].pc.entry;
        Valid() && tasks == old(tasks)[t := old(tasks)[t].(pc := Parked(e))] && slots == old(slots)[e := Some(t)]
    {
      ParkClaim(t);
      ParkSleep(t);
    }

    /** `unlock` with nobody interrupting: it throws exactly for a task that is not the owner; an empty queue leaves the
        mutex free; a front waiter that is asleep is woken and popped, and the mutex is free as well; one that
        has not gone to sleep yet makes the caller try again, still owner and holding the spin lock. */
    method UnlockStretch(t: Tid) returns (threw: bool)
      requires Valid() && t in tasks && tasks[t].pc.Idle? && spin.None?
      modifies this
      ensures Valid() && t in tasks && threw == (old(owner) != Some(t))
      ensures threw ==> owner == old(owner) && queue == old(queue) && spin.None? && tasks[t].pc.Threw?
      ensures !threw && old(queue) == [] ==> owner.None? && queue == [] && spin.None? && tasks[t].pc.Idle?
      ensures threw || old(queue) == [] ==>
                tasks == old(tasks)[t := old(tasks)[t].(pc := if threw then Threw else Idle, inside := false)]
      ensures boost == old(boost)
      ensures !threw && old(queue) != [] ==> Attempted(old(View()), View(), t)
    {
      ghost var s := View();
      CallUnlock(t);
      TakeSpinLock(t);
      threw := TestUnlock(t);
      if tasks[t].pc.UnparkLoad? {
        ghost var m := View();
        WakeFront(t);
        AttemptedSince(s, m, View(), t);
      }
    }

    /** The exception of a refused `unlock` leaves no trace. */
    method LeaveThrow(t: Tid)
      requires Valid() && t in tasks && tasks[t].pc.Threw?
      modifies this`tasks
      ensures Valid() && tasks == old(tasks)[t := old(tasks)[t].(pc := Idle)]
    {
      Advance(View(), Step(t));
      Goto(t, Idle);
    }

    /** One attempt to wake the front waiter. */
    method WakeFront(t: Tid)
      requires Valid() && t in tasks && tasks[t].pc.UnparkLoad? && owner == Some(t) && spin == Some(t)
      modifies this
      ensures Valid() && t in tasks && Attempted(old(View()), View(), t) && boost == old(boost)
    {
      var found := LoadFront(t);
      if found {
        var asleep := TestFront(t);
        if asleep {
          UnparkWake(t);
          Release(t);
        }
      }
    }
  }

  // ---------------------------------------------------------------- the front of the queue

  /** The task in the front entry has gone to sleep there. */
  ghost predicate FrontAsleep(s: State, t: Tid) {
    && s.queue != [] && s.queue[0] in s.slots && s.slots[s.queue[0]].Some? && s.slots[s.queue[0]].value != t
    && s.slots[s.queue[0]].value in s.tasks && s.tasks[s.slots[s.queue[0]].value].pc.Parked?
  }

  /** Everybody but `t` is as before, save that joining the queue has raised the owner's boost by one. */
  ghost predicate OthersBoosted(s: State, s': State, t: Tid) {
    && s'.tasks.Keys == s.tasks.Keys
    && forall u :: u in s.tasks && u != t ==>
         s'.tasks[u] == if s.owner == Some(u) then s.tasks[u].(boost := s.tasks[u].boost + 1) else s.tasks[u]
  }

  /** Everybody but `t` is as before, save that `p` has been woken. */
  ghost predicate OthersWoken(s: State, s': State, t: Tid, p: Tid) {
    && s'.tasks.Keys == s.tasks.Keys
    && forall u :: u in s.tasks && u != t ==>
         s'.tasks[u] == if u == p then s.tasks[u].(pc := Relock) else s.tasks[u]
  }

  /** What became of the wake-up of the front waiter by `t`. */
  ghost predicate Attempted(s: State, s': State, t: Tid)
    requires t in s'.tasks
  {
    if FrontAsleep(s, t) then
      var p := s.slots[s.queue[0]].value;
      && s'.owner.None? && s'.spin.None? && s'.queue == s.queue[1..] && s'.tasks[t].pc.Idle? && s'.tasks[t].boost == 0
      && OthersWoken(s, s', t, p)
    else s'.owner == Some(t) && s'.spin == Some(t) && s'.queue == s.queue && s'.tasks[t].pc.UnparkLoad?
  }

  /** Nothing that the attempt depends on changed while the caller got to it. */
  lemma AttemptedSince(s: State, m: State, s': State, t: Tid)
    requires t in s.tasks && t in m.tasks && t in s'.tasks && Attempted(m, s', t)
    requires m.queue == s.queue && m.slots == s.slots && m.tasks == s.tasks[t := m.tasks[t]]
    ensures Attempted(s, s', t)
  {}

  lemma FrontIsKnown(s: State, t: Tid)
    requires Reachable(s) && t in s.tasks && s.tasks[t].pc.UnparkLoad?
    ensures s.queue != [] && s.queue[0] in s.slots
    ensures s.slots[s.queue[0]].Some? ==> s.slots[s.queue[0]].value in s.tasks && s.slots[s.queue[0]].value != t
  {
    ReachableInv(s);
    assert ParkerOk(s, t);
    assert s.queue[0] in s.queue;
    assert KnownEntry(s, s.queue[0]) && Occupied(s, s.queue[0]);
  }

  lemma SwingFinds(s: State, t: Tid)
    requires Reachable(s) && t in s.tasks && s.tasks[t].pc.UnparkSwing?
    ensures
      var p := s.tasks[t].pc.peer;
      && s.queue != [] && s.queue[0] in s.slots && s.slots[s.queue[0]] == Some(p)
      && p in s.tasks && p != t && s.tasks[p].pc.Parked?
  {
    ParkAndUnparkAssertsHold(s, t);
  }

  lemma EntryIsFree(s: State, t: Tid)
    requires Reachable(s) && t in s.tasks && s.tasks[t].pc.Parking?
    ensures s.tasks[t].pc.entry in s.slots && s.slots[s.tasks[t].pc.entry].None?
  {
    ParkAndUnparkAssertsHold(s, t);
  }

  lemma UnlockerOwnsIfLegit(s: State, t: Tid)
    requires Reachable(s) && t in s.tasks && s.tasks[t].pc.UnlockTest?
    ensures s.owner == Some(t) <==> s.tasks[t].pc.legit
  {
    MutualExclusion(s);
  }

  lemma SpinStep(s: State, t: Tid)
    requires Defined(s, t) && Enabled(s, Step(t))
    requires s.tasks[t].pc.LockSpin? || s.tasks[t].pc.Relock? || s.tasks[t].pc.UnlockSpin?
    ensures Next(s, Step(t)) == Acquire(s, t, AfterSpin(s.tasks[t].pc))
  {}

  lemma TestStep(s: State, t: Tid)
    requires Defined(s, t) && Enabled(s, Step(t)) && s.tasks[t].pc.LockTest?
    ensures s.owner.Some? ==> s.owner.value in s.tasks
    ensures Next(s, Step(t)) == if s.owner.Some? then Enqueue(s, t) else TakeOwnership(s, t)
  {}
}
