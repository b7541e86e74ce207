/** `concur/mutex.cc` under full interleaving.

    Any number of tasks call `lock` and `unlock`; one action is one atomic step of one
    task.  Everything the code does between taking and releasing the spin lock is only
    visible to its holder, but the steps of `park` and `unpark` (load, run-state test,
    compare-exchange, run-state store) are kept apart because they run unprotected or
    against an unprotected peer.  Barging is allowed: `lock` never looks at the queue. */
module Mutex {
  import opened Options

  type Tid = nat
  type EntryId = nat

  datatype Pc =
    | Idle
    // lock()
    | LockSpin
    | LockTest(woken: bool)        // holds the spin lock; `woken` after a return from park
    | Parking(entry: EntryId)      // spin lock released, about to compare-exchange the entry
    | Claimed(entry: EntryId)      // entry names this task, run state not yet WAITING
    | Parked(entry: EntryId)       // WAITING
    | Relock                       // unparked, re-acquiring the spin lock
    | Unboost                      // holds the spin lock, about to decrement the boost
    // unlock()
    | UnlockSpin(legit: bool)      // `legit`: called by a task that returned from lock
    | UnlockTest(legit: bool)      // holds the spin lock from here on
    | UnparkLoad
    | UnparkTest(peer: Tid)
    | UnparkSwing(peer: Tid)
    | PopAndRelease
    | Threw                        // logic_error: unlock by a task that is not the owner
    | ParkFailed                   // `assert(succ)` in lock would have fired

  predicate HoldsSpin(pc: Pc) {
    pc.LockTest? || pc.Unboost? || pc.UnlockTest? || pc.UnparkLoad? || pc.UnparkTest? || pc.UnparkSwing?
    || pc.PopAndRelease?
  }

  /** In the slow path of `lock`: counted by `_priority_boost`. */
  predicate InSlowPath(pc: Pc) {
    pc.Parking? || pc.Claimed? || pc.Parked? || pc.Relock? || pc.Unboost?
  }

  /** Popped from the queue but yet to recheck `_owner`. */
  predicate YetToRecheck(pc: Pc) {
    pc.Relock? || pc.Unboost? || pc == LockTest(true)
  }

  /** `inside`: has returned from `lock` and not yet called `unlock`. */
  datatype Task = Task(pc: Pc, boost: int, inside: bool)

  /** `author` and `released` are histories: who appended an entry, and the entries popped so far. */
  datatype State = State(
    spin: Option<Tid>,
    owner: Option<Tid>,
    queue: seq<EntryId>,
    slots: map<EntryId, Option<Tid>>,
    boost: int,
    tasks: map<Tid, Task>,
    next: EntryId,
    author: map<EntryId, Tid>,
    released: seq<EntryId>)

  datatype Action = CallLock(t: Tid) | CallUnlock(t: Tid) | Step(t: Tid)

  predicate Enabled(s: State, a: Action) {
    a.t in s.tasks &&
    match a
    case CallLock(t) => s.tasks[t].pc.Idle?
    case CallUnlock(t) => s.tasks[t].pc.Idle?
    case Step(t) =>
      var pc := s.tasks[t].pc;
      // a spinning task that finds the flag set yields and tries again
      && ((pc.LockSpin? || pc.Relock? || pc.UnlockSpin?) ==> s.spin.None?)
      && !pc.Idle? && !pc.Parked? && !pc.ParkFailed?
  }

  function SetPc(s: State, t: Tid, pc: Pc): State
    requires t in s.tasks
  {
    s.(tasks := s.tasks[t := s.tasks[t].(pc := pc)])
  }

  function Acquire(s: State, t: Tid, pc: Pc): State
    requires t in s.tasks
  {
    SetPc(s, t, pc).(spin := Some(t))
  }

  function Release(s: State, t: Tid, pc: Pc): State
    requires t in s.tasks
  {
    SetPc(s, t, pc).(spin := None)
  }

  /** The slow path under the spin lock: both boosts go up, a waiter is appended, the lock is released. */
  function Enqueue(s: State, t: Tid): State
    requires t in s.tasks && s.owner.Some? && s.owner.value in s.tasks
  {
    var o := s.owner.value;
    var s1 := s.(
      boost := s.boost + 1,
      tasks := s.tasks[o := s.tasks[o].(boost := s.tasks[o].boost + 1)],
      queue := s.queue + [s.next],
      slots := s.slots[s.next := None],
      author := s.author[s.next := t],
      next := s.next + 1);
    Release(s1, t, Parking(s.next))
  }

  /** The caller becomes owner with the mutex's boost, and `lock` returns. */
  function TakeOwnership(s: State, t: Tid): State
    requires t in s.tasks
  {
    s.(owner := Some(t), spin := None, tasks := s.tasks[t := Task(Idle, s.boost, true)])
  }

  /** The end of the slow path of `unlock`: the front waiter is popped, owner and boost are cleared. */
  function PopFront(s: State, t: Tid): State
    requires t in s.tasks && |s.queue| > 0
  {
    s.(owner := None, spin := None, queue := s.queue[1..], released := s.released + [s.queue[0]],
       tasks := s.tasks[t := s.tasks[t].(pc := Idle, boost := 0)])
  }

  /** The state is sane enough for the next step to be defined; `Inv` implies it. */
  predicate Defined(s: State, t: Tid) {
    && t in s.tasks
    && (s.owner.Some? ==> s.owner.value in s.tasks)
    && (forall e :: e in s.queue ==> e in s.slots)
    && match s.tasks[t].pc
       case UnparkLoad => |s.queue| > 0
       case UnparkTest(p) => |s.queue| > 0 && p in s.tasks
       case UnparkSwing(p) => |s.queue| > 0 && p in s.tasks
       case PopAndRelease => |s.queue| > 0
       case Parking(e) => e in s.slots
       case _ => true
  }

  function StepTask(s: State, t: Tid): State
    requires Defined(s, t) && Enabled(s, Step(t))
  {
    match s.tasks[t].pc
    case LockSpin => Acquire(s, t, LockTest(false))
    case LockTest(_) => if s.owner.Some? then Enqueue(s, t) else TakeOwnership(s, t)
    case Parking(e) =>
      // compare-exchange null -> t; a failure would trip `assert(succ)`
      if s.slots[e].None? then SetPc(s.(slots := s.slots[e := Some(t)]), t, Claimed(e))
      else SetPc(s, t, ParkFailed)
    case Claimed(e) => SetPc(s, t, Parked(e))
    case Relock => Acquire(s, t, Unboost)
    case Unboost => SetPc(s.(boost := s.boost - 1), t, LockTest(true))
    case UnlockSpin(legit) => Acquire(s, t, UnlockTest(legit))
    case UnlockTest(_) =>
      if s.owner != Some(t) then Release(s, t, Threw)
      else if s.queue == [] then Release(s.(owner := None), t, Idle)
      else SetPc(s, t, UnparkLoad)
    case UnparkLoad =>
      (match s.slots[s.queue[0]]
       case None => s                          // unpark fails, yield, try again
       case Some(p) => if p in s.tasks then SetPc(s, t, UnparkTest(p)) else s)
    case UnparkTest(p) => SetPc(s, t, if s.tasks[p].pc.Parked? then UnparkSwing(p) else UnparkLoad)
    case UnparkSwing(p) =>
      if s.slots[s.queue[0]] == Some(p) then
        SetPc(SetPc(s.(slots := s.slots[s.queue[0] := None]), p, Relock), t, PopAndRelease)
      else SetPc(s, t, UnparkLoad)
    case PopAndRelease => PopFront(s, t)
    case Threw => SetPc(s, t, Idle)
  }

  function Next(s: State, a: Action): State
    requires Defined(s, a.t) && Enabled(s, a)
  {
    match a
    case CallLock(t) => SetPc(s, t, LockSpin)
    case CallUnlock(t) =>
      s.(tasks := s.tasks[t := s.tasks[t].(pc := UnlockSpin(s.tasks[t].inside), inside := false)])
    case Step(t) => StepTask(s, t)
  }

  function Fresh(ids: set<Tid>): State {
    State(None, None, [], map[], 0, map t | t in ids :: Task(Idle, 0, false), 0, map[], [])
  }
}
