/** The scheduler: `sched/sched.cc`, `sched/sched_node.cc`, `sched/internal/rq*`, the run-state
    changes of `sched/task*` and the three operations of `concur/internal/waiter*`, as a state
    machine over whole kernel states.

    An action is what the current task does between two points at which it could be preempted:
    everything under the preempt lock is one action, and so is a context switch.  What `spawn`, `join`,
    `detach`, `park_if`, `unpark` and `swap` do outside the lock are separate actions, so a
    preemption (`Yield`) can fall before and after them.  Tasks are named by address. */
module Kernel {
  import opened Options
  import opened Freelist

  type Wid = nat   // a `waiter` object
  type Val = int   // a `void*` return value

  /** What the `n`-th spawn of the object at `t` returned. */
  datatype Handle = Handle(t: Tid, n: nat)

  datatype RunState = Running | Suspended | Stopped | Waiting

  /** Where a task is in the library's code. */
  datatype Pc =
    | Body                         // user code
    | Nascent                      // made and started by `spawn`, not yet scheduled
    | Spawning(made: Tid)          // spawn: about to schedule the task it has made
    | Parking(w: Wid)              // park_if: slot claimed, run state not yet WAITING
    | ParkWait(w: Wid)             // WAITING in park_if or swap, until somebody resumes it
    | UnparkLoaded(w: Wid, seen: Tid)  // unpark: loaded `seen` from the slot, about to test its run state
    | UnparkSeen(w: Wid, seen: Tid)  // unpark: found it WAITING, about to exchange
    | Unparking(peer: Tid)         // unpark: took `peer` out of its slot, about to schedule it
    | SwapLoaded(w: Wid, seen: Tid)  // swap: the same
    | SwapSeen(w: Wid, seen: Tid)
    | Swapping(w: Wid, peer: Tid)  // swap: put itself in the slot for `peer`, about to switch
    | JoinEntered(h: Handle)       // join: past its null test, about to take the preempt lock
    | DetachEntered(h: Handle)     // detach: the same
    | JoinWait(h: Handle)          // join: waiting for the task of `h`, or resumed and about to reclaim it
    | JoinTail(h: Handle)          // join: found the task stopped, lock dropped, about to reclaim it
    | DetachTail(h: Handle)        // detach: the same
    | Clearing(h: Handle)          // join or detach: task returned, handle still to be nulled

  /** The fields of `struct task` that the scheduler uses, and two counters: how often this object
      has been spawned and how often it has been given to `return_task`. */
  datatype Task = Task(
    run: RunState,
    pc: Pc,
    value: Val,
    joiner: Option<Tid>,
    detached: bool,
    vruntime: nat,
    noPreempt: bool,
    started: bool,
    host: bool,
    size: nat,
    tls: bool,
    spawns: nat,
    reclaims: nat)
  {
    /** Spawned and not yet reclaimed. */
    predicate Outstanding() {
      spawns == reclaims + 1
    }
  }

  /** One `sched_node` with its run queue and free list, all tasks, and all waiters in use.
      `rq` is the multiset in iteration order.  Times are nanoseconds, virtual runtimes
      microseconds.  `handles` are the handles that are not null; `charged`, `exits` and `joins`
      are histories: the total charged, and the values exited with and joined, by spawn. */
  datatype State = State(
    tasks: map<Tid, Task>,
    current: Tid,
    rq: seq<Tid>,
    minVruntime: nat,
    lastTick: nat,
    deferred: Option<Tid>,
    spare: seq<Spare>,
    maxSpare: nat,
    destroyed: set<Tid>,
    slots: map<Wid, Tid>,
    handles: set<Handle>,
    charged: nat,
    exits: map<Handle, Val>,
    joins: map<Handle, Val>)

  // ---------------------------------------------------------------- the run queue

  /** `time_ordered_compare`: by virtual runtime, ties by address. */
  predicate Before(tasks: map<Tid, Task>, a: Tid, b: Tid)
    requires a in tasks && b in tasks
  {
    if tasks[a].vruntime != tasks[b].vruntime then tasks[a].vruntime < tasks[b].vruntime else a < b
  }

  predicate Known(tasks: map<Tid, Task>, q: seq<Tid>) {
    forall i :: 0 <= i < |q| ==> q[i] in tasks
  }

  /** `multiset::emplace`: before the first element that is greater. */
  function Enqueued(tasks: map<Tid, Task>, q: seq<Tid>, t: Tid): (r: seq<Tid>)
    requires t in tasks && Known(tasks, q)
    ensures Known(tasks, r) && |r| == |q| + 1
  {
    if q == [] then [t]
    else if Before(tasks, t, q[0]) then [t] + q
    else [q[0]] + Enqueued(tasks, q[1..], t)
  }

  function Max(a: nat, b: nat): (m: nat)
    ensures a <= m && b <= m && (m == a || m == b)
  {
    if a < b then b else a
  }

  // ---------------------------------------------------------------- pieces of the operations

  function Cur(s: State): Task
    requires s.current in s.tasks
  {
    s.tasks[s.current]
  }

  function SetTask(s: State, t: Tid, k: Task): State {
    s.(tasks := s.tasks[t := k])
  }

  /** Microseconds since the last tick; `duration_cast` truncates. */
  function Slice(s: State, now: nat): nat {
    if now < s.lastTick then 0 else (now - s.lastTick) / 1000
  }

  /** The running task is charged for its slice. */
  function Charged(s: State, now: nat): State
    requires s.current in s.tasks
  {
    var k := s.tasks[s.current];
    SetTask(s, s.current, k.(vruntime := k.vruntime + Slice(s, now))).(charged := s.charged + Slice(s, now))
  }

  /** `task_freelist::return_task`. */
  function Reclaimed(s: State, t: Tid): State
    requires t in s.tasks
  {
    var k := s.tasks[t];
    SetTask(s, t, k.(reclaims := k.reclaims + 1)).(
      spare := Given(s.spare, s.maxSpare, Spare(t, k.size, k.tls)),
      destroyed := if |s.spare| < s.maxSpare then s.destroyed else s.destroyed + {t})
  }

  /** `sched_node::schedule`. */
  function Scheduled(s: State, t: Tid): State
    requires t in s.tasks && Known(s.tasks, s.rq)
  {
    var k := s.tasks[t];
    var s1 := SetTask(s, t, if k.vruntime == 0 then k.(vruntime := s.minVruntime) else k);
    s1.(rq := Enqueued(s1.tasks, s.rq, t))
  }

  /** `switch_to_internal` to another task, seen from both sides.  The outgoing task keeps its
      preempt flag set while it is out; the incoming one finishes the critical section it was
      switched out of, or starts at its entry point. */
  function Switched(s: State, t: Tid): State
    requires s.current in s.tasks && t in s.tasks && t != s.current
  {
    var c, k := s.tasks[s.current], s.tasks[t];
    var s1 := SetTask(s, s.current, c.(run := if c.run.Running? then Suspended else c.run, noPreempt := true));
    SetTask(s1, t, k.(run := Running, noPreempt := false, started := true,
                      pc := if k.pc.ParkWait? then Body else k.pc)).(current := t)
  }

  /** The head of `sched_node::yield`: a deferred task is given back now. */
  function DeferredReclaimed(s: State): State
    requires s.deferred.Some? ==> s.deferred.value in s.tasks
  {
    if s.deferred.Some? then Reclaimed(s, s.deferred.value).(deferred := None) else s
  }

  /** The queue from which `pop` takes the first element. */
  function Candidates(s: State): seq<Tid>
    requires s.current in s.tasks && Known(s.tasks, s.rq)
  {
    if s.tasks[s.current].run.Running? then Enqueued(s.tasks, s.rq, s.current) else s.rq
  }

  /** The rest of `get_next_task` after charging: queue or defer the current task, pop, take the time. */
  function Popped(s: State, now: nat): State
    requires s.current in s.tasks && Known(s.tasks, s.rq) && Candidates(s) != []
  {
    var q := Candidates(s);
    s.(
      rq := q[1..],
      minVruntime := Max(s.minVruntime, s.tasks[q[0]].vruntime),
      lastTick := now,
      deferred := if Cur(s).run.Stopped? && Cur(s).detached then Some(s.current) else s.deferred)
  }

  /** ... and the switch, unless the current task was popped again. */
  function Dispatched(s: State, now: nat): State
    requires s.current in s.tasks && Known(s.tasks, s.rq) && Candidates(s) != []
  {
    var next := Candidates(s)[0];
    if next != s.current then Switched(Popped(s, now), next) else Popped(s, now)
  }

  /** `sched_node::yield` with the two clock readings of `get_next_task`. */
  function Rescheduled(s: State, now1: nat, now2: nat): State
    requires CanReschedule(s)
  {
    Dispatched(Charged(DeferredReclaimed(s), now1), now2)
  }

  /** Not about to abort with "nothing to do", and no pointer dangles.  (The latter always holds.) */
  predicate CanReschedule(s: State) {
    && s.current in s.tasks
    && (s.deferred.Some? ==> s.deferred.value in s.tasks)
    && Known(s.tasks, s.rq)
    && (s.tasks[s.current].run.Running? || s.rq != [])
  }

  // ---------------------------------------------------------------- actions

  datatype Action =
    | Yield(now1: nat, now2: nat)                    // sched::yield or the preemption alarm
    | SpawnMake(attr: Attr, addr: Tid, total: nat)   // `addr`, `total`: where and how big task::create would make it
    | SpawnFinish
    | ParkClaim(w: Wid)
    | ParkAbort
    | ParkCommit(now1: nat, now2: nat)
    | UnparkLook(w: Wid)                             // the slot is not empty: load it
    | UnparkTest
    | UnparkTake
    | UnparkFinish
    | SwapLook(w: Wid)
    | SwapTest
    | SwapTake
    | SwapFinish(now1: nat)
    | EnterJoin(h: Handle)                           // the handle is not null
    | EnterDetach(h: Handle)
    | JoinRefuse(h: Handle)                          // the task has a joiner already: throw
    | Join(h: Handle, now1: nat, now2: nat)          // task still running: block
    | JoinStopped(h: Handle)                         // task already stopped: go straight to the tail
    | JoinReturn
    | Detach(h: Handle)
    | DetachReturn
    | Clear
    | Exit(value: Val, now1: nat, now2: nat)

  /** What the program may do next.  Joining or detaching a null handle throws without changing anything,
      so it is not an action; using a handle that has become null crashes; exiting the host task and
      running out of tasks abort the process. */
  predicate Enabled(s: State, a: Action)
    requires s.current in s.tasks
  {
    match a
    case Yield(now1, now2) => s.lastTick <= now1 <= now2
    case SpawnMake(_, addr, _) => Cur(s).pc.Body? && addr !in s.tasks
    case SpawnFinish => Cur(s).pc.Spawning?
    case ParkClaim(w) => Cur(s).pc.Body? && w !in s.slots
    case ParkAbort => Cur(s).pc.Parking?
    case ParkCommit(now1, now2) => Cur(s).pc.Parking? && s.lastTick <= now1 <= now2 && s.rq != []
    case UnparkLook(w) => Cur(s).pc.Body? && w in s.slots
    case UnparkTest => Cur(s).pc.UnparkLoaded?
    case UnparkTake => Cur(s).pc.UnparkSeen?
    case UnparkFinish => Cur(s).pc.Unparking?
    case SwapLook(w) => Cur(s).pc.Body? && w in s.slots
    case SwapTest => Cur(s).pc.SwapLoaded?
    case SwapTake => Cur(s).pc.SwapSeen?
    case SwapFinish(now1) => Cur(s).pc.Swapping? && s.lastTick <= now1
    case EnterJoin(h) => Cur(s).pc.Body? && h in s.handles
    case EnterDetach(h) => Cur(s).pc.Body? && h in s.handles
    case JoinRefuse(h) => Cur(s).pc == JoinEntered(h) && h in s.handles && h.t in s.tasks && s.tasks[h.t].joiner.Some?
    case Join(h, now1, now2) =>
      && Cur(s).pc == JoinEntered(h) && h in s.handles && h.t in s.tasks && s.tasks[h.t].joiner.None?
      && !s.tasks[h.t].run.Stopped? && s.lastTick <= now1 <= now2 && s.rq != []
    case JoinStopped(h) =>
      && Cur(s).pc == JoinEntered(h) && h in s.handles && h.t in s.tasks && s.tasks[h.t].joiner.None?
      && s.tasks[h.t].run.Stopped?
    case JoinReturn => (Cur(s).pc.JoinWait? || Cur(s).pc.JoinTail?) && Cur(s).pc.h in s.handles
    case Detach(h) => Cur(s).pc == DetachEntered(h) && h in s.handles && h.t in s.tasks
    case DetachReturn => Cur(s).pc.DetachTail? && Cur(s).pc.h in s.handles
    case Clear => Cur(s).pc.Clearing?
    case Exit(_, now1, now2) =>
      Cur(s).pc.Body? && !Cur(s).host && s.lastTick <= now1 <= now2 && (Cur(s).joiner.Some? || s.rq != [])
  }

  /** No pointer that the next action follows dangles.  The invariant implies this. */
  predicate Sane(s: State) {
    && s.current in s.tasks && Cur(s).run.Running?
    && Known(s.tasks, s.rq)
    && (s.deferred.Some? ==> s.deferred.value in s.tasks)
    && (forall i :: 0 <= i < |s.spare| ==> s.spare[i].id in s.tasks)
    && (Cur(s).joiner.Some? ==> Cur(s).joiner.value in s.tasks)
    && match Cur(s).pc
       case Spawning(p) => p in s.tasks && p != s.current
       case Unparking(p) => p in s.tasks && p != s.current
       case Swapping(_, p) => p in s.tasks && p != s.current
       case JoinWait(h) => h.t in s.tasks
       case JoinTail(h) => h.t in s.tasks
       case DetachTail(h) => h.t in s.tasks
       case _ => true
  }

  /** The run state of `p` is WAITING, in whatever it waits. */
  predicate IsWaiting(s: State, p: Tid) {
    p in s.tasks && s.tasks[p].run.Waiting?
  }

  /** `_waiter` names a task whose run state is WAITING. */
  predicate SlotWaiting(s: State, w: Wid) {
    w in s.slots && IsWaiting(s, s.slots[w])
  }

  function SetCur(s: State, k: Task): State {
    SetTask(s, s.current, k)
  }

  /** A task object as `reset` or the constructor leaves it, started and about to be scheduled. */
  function NewTask(size: nat, tls: bool, spawns: nat, reclaims: nat): Task {
    Task(Suspended, Nascent, 0, None, false, 0, false, false, false, size, tls, spawns + 1, reclaims)
  }

  /** `spawn` outside the lock: reuse the first fitting spare object or create one, and start it. */
  function Made(s: State, a: Attr, addr: Tid, total: nat): State
    requires s.current in s.tasks && addr !in s.tasks
    requires var k := FindFrom(s.spare, a, 0); k < |s.spare| ==> s.spare[k].id in s.tasks
  {
    var k := FindFrom(s.spare, a, 0);
    if k < |s.spare| then
      var t := s.spare[k].id;
      var z := s.tasks[t];
      SetCur(SetTask(s, t, NewTask(z.size, z.tls, z.spawns, z.reclaims)), Cur(s).(pc := Spawning(t))).(
        spare := Without(s.spare, k))
    else
      SetCur(SetTask(s, addr, NewTask(total, a.tls, 0, 0)), Cur(s).(pc := Spawning(addr)))
  }

  /** `spawn` under the lock: schedule the new task and return its handle. */
  function Spawned(s: State): State
    requires Sane(s) && Cur(s).pc.Spawning?
  {
    var t := Cur(s).pc.made;
    var s1 := SetTask(SetCur(s, Cur(s).(pc := Body)), t, s.tasks[t].(pc := Body));
    Scheduled(s1.(handles := s.handles + {Handle(t, s.tasks[t].spawns)}), t)
  }

  /** The tail of `join` up to `return_task`: take the value and give the task back. */
  function JoinReturned(s: State, h: Handle): State
    requires h.t in s.tasks && s.current in s.tasks
  {
    TailReturned(s, h).(joins := s.joins[h := s.tasks[h.t].value])
  }

  /** The tail that `join` and `detach` share. */
  function TailReturned(s: State, h: Handle): State
    requires h.t in s.tasks && s.current in s.tasks
  {
    Reclaimed(SetCur(s, Cur(s).(pc := Clearing(h))), h.t)
  }

  /** `exit` up to the final `yield`: the task is stopped and its joiner made runnable. */
  function Exiting(s: State, v: Val): State
    requires s.current in s.tasks && Known(s.tasks, s.rq)
    requires Cur(s).joiner.Some? ==> Cur(s).joiner.value in s.tasks
  {
    var s1 := SetCur(s, Cur(s).(value := v, run := Stopped)).(exits := s.exits[Handle(s.current, Cur(s).spawns) := v]);
    if Cur(s).joiner.Some? then Scheduled(s1, Cur(s).joiner.value) else s1
  }

  /** The current task gives up the processor in run state WAITING at control point `pc`. */
  function Blocking(s: State, pc: Pc): State
    requires s.current in s.tasks
  {
    SetCur(s, Cur(s).(run := Waiting, pc := pc))
  }

  /** `detach` under the lock: a live task is marked and the handle nulled; a stopped one goes to the tail. */
  function Detached(s: State, h: Handle): State
    requires h.t in s.tasks && s.current in s.tasks
  {
    if s.tasks[h.t].run.Stopped? then SetCur(s, Cur(s).(pc := DetachTail(h)))
    else
      var s1 := SetTask(s, h.t, s.tasks[h.t].(detached := true));
      SetCur(s1, Cur(s1).(pc := Body)).(handles := s.handles - {h})
  }

  /** The compare-exchange of `unpark` and `swap` succeeds: the slot still names the task seen there. */
  predicate StillThere(s: State, w: Wid, p: Tid) {
    w in s.slots && s.slots[w] == p
  }

  /** `swap` after its compare-exchange: charge, block in the slot, switch straight to the peer. */
  function SwappedTo(s: State, now: nat): State
    requires Sane(s) && Cur(s).pc.Swapping?
  {
    var p := Cur(s).pc.peer;
    Switched(Charged(Blocking(s, ParkWait(Cur(s).pc.w)), now).(lastTick := now), p)
  }

  /** `unpark` after its compare-exchange: the peer becomes schedulable. */
  function Unparked(s: State): State
    requires Sane(s) && Cur(s).pc.Unparking?
  {
    var p := Cur(s).pc.peer;
    var s1 := SetCur(s, Cur(s).(pc := Body));
    Scheduled(SetTask(s1, p, s1.tasks[p].(run := Suspended)), p)
  }

  function Next(s: State, a: Action): State
    requires Sane(s) && Enabled(s, a)
  {
    var c := Cur(s);
    match a
    case Yield(now1, now2) => Rescheduled(s, now1, now2)
    case SpawnMake(attr, addr, total) => Made(s, attr, addr, total)
    case SpawnFinish => Spawned(s)
    case ParkClaim(w) => SetCur(s, c.(pc := Parking(w))).(slots := s.slots[w := s.current])
    case ParkAbort => SetCur(s, c.(pc := Body)).(slots := s.slots - {c.pc.w})
    case ParkCommit(now1, now2) => Rescheduled(Blocking(s, ParkWait(c.pc.w)), now1, now2)
    case UnparkLook(w) => SetCur(s, c.(pc := UnparkLoaded(w, s.slots[w])))
    case UnparkTest => SetCur(s, c.(pc := if IsWaiting(s, c.pc.seen) then UnparkSeen(c.pc.w, c.pc.seen) else Body))
    case UnparkTake =>
      if StillThere(s, c.pc.w, c.pc.seen) then
        SetCur(s, c.(pc := Unparking(c.pc.seen))).(slots := s.slots - {c.pc.w})
      else SetCur(s, c.(pc := Body))
    case UnparkFinish => Unparked(s)
    case SwapLook(w) => SetCur(s, c.(pc := SwapLoaded(w, s.slots[w])))
    case SwapTest => SetCur(s, c.(pc := if IsWaiting(s, c.pc.seen) then SwapSeen(c.pc.w, c.pc.seen) else Body))
    case SwapTake =>
      if StillThere(s, c.pc.w, c.pc.seen) then
        SetCur(s, c.(pc := Swapping(c.pc.w, c.pc.seen))).(slots := s.slots[c.pc.w := s.current])
      else SetCur(s, c.(pc := Body))
    case SwapFinish(now1) => SwappedTo(s, now1)
    case EnterJoin(h) => SetCur(s, c.(pc := JoinEntered(h)))
    case EnterDetach(h) => SetCur(s, c.(pc := DetachEntered(h)))
    case JoinRefuse(h) => SetCur(s, c.(pc := Body))
    case Join(h, now1, now2) =>
      Rescheduled(Blocking(SetTask(s, h.t, s.tasks[h.t].(joiner := Some(s.current))), JoinWait(h)), now1, now2)
    case JoinStopped(h) => SetCur(s, c.(pc := JoinTail(h)))
    case JoinReturn => JoinReturned(s, c.pc.h)
    case Detach(h) => Detached(s, h)
    case DetachReturn => TailReturned(s, c.pc.h)
    case Clear => SetCur(s, c.(pc := Body)).(handles := s.handles - {c.pc.h})
    case Exit(v, now1, now2) => Rescheduled(Exiting(s, v), now1, now2)
  }

  /** One host task wrapped around the running context, nothing else. */
  function Boot(hostAddr: Tid, maxSpare: nat, now: nat): State {
    State(
      map[hostAddr := Task(Running, Body, 0, None, false, 0, false, true, true, 0, true, 1, 0)],
      hostAddr, [], 0, now, None, [], maxSpare, {}, map[], {}, 0, map[], map[])
  }
}
