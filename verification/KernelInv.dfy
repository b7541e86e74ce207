/** The global invariant of the scheduler. */
module KernelInv {
  import opened Options
  import opened Freelist
  import opened Kernel

  // ---------------------------------------------------------------- run queue facts

  ghost predicate NoDup(q: seq<Tid>) {
    forall i, j :: 0 <= i < j < |q| ==> q[i] != q[j]
  }

  /** `tasks` orders `q` strictly: keys never decrease and equal keys go by address. */
  ghost predicate Sorted(tasks: map<Tid, Task>, q: seq<Tid>)
    requires Known(tasks, q)
  {
    forall i, j :: 0 <= i < j < |q| ==> Before(tasks, q[i], q[j])
  }

  lemma {:induction false} EnqueuedMembers(tasks: map<Tid, Task>, q: seq<Tid>, t: Tid)
    requires t in tasks && Known(tasks, q)
    ensures forall u :: u in Enqueued(tasks, q, t) <==> u == t || u in q
    ensures NoDup(q) && t !in q ==> NoDup(Enqueued(tasks, q, t))
  {
    if q == [] || Before(tasks, t, q[0]) {
    } else {
      EnqueuedMembers(tasks, q[1..], t);
      var r := Enqueued(tasks, q[1..], t);
      assert q == [q[0]] + q[1..];
      assert Enqueued(tasks, q, t) == [q[0]] + r;
      if NoDup(q) && t !in q {
        assert forall i :: 0 <= i < |r| ==> r[i] in r;
        assert q[0] !in q[1..];
      }
    }
  }

  /** Insertion keeps the order: from left to right the key rises, or it stays and the address rises. */
  lemma {:induction false} EnqueuedSorted(tasks: map<Tid, Task>, q: seq<Tid>, t: Tid)
    requires t in tasks && Known(tasks, q) && Sorted(tasks, q) && t !in q
    ensures Sorted(tasks, Enqueued(tasks, q, t))
    ensures
      var r := Enqueued(tasks, q, t);
      forall i, j :: 0 <= i < j < |r| ==>
        tasks[r[i]].vruntime < tasks[r[j]].vruntime || (tasks[r[i]].vruntime == tasks[r[j]].vruntime && r[i] < r[j])
  {
    if q == [] || Before(tasks, t, q[0]) {
    } else {
      EnqueuedSorted(tasks, q[1..], t);
      EnqueuedMembers(tasks, q[1..], t);
      var r := Enqueued(tasks, q[1..], t);
      forall i | 0 <= i < |r| ensures Before(tasks, q[0], r[i]) {
        assert r[i] in r;
        if r[i] != t {
          var j :| 0 <= j < |q[1..]| && q[1..][j] == r[i];
          assert q[j + 1] == r[i];
        }
      }
    }
  }

  /** The order depends only on the keys of the tasks in the queue. */
  lemma SortedFrame(tasks: map<Tid, Task>, tasks': map<Tid, Task>, q: seq<Tid>)
    requires Known(tasks, q) && Sorted(tasks, q)
    requires forall t :: t in q ==> t in tasks' && tasks'[t].vruntime == tasks[t].vruntime
    ensures Known(tasks', q) && Sorted(tasks', q)
  {}

  // ---------------------------------------------------------------- invariant

  ghost predicate OnlyCurrentRuns(s: State) {
    && s.current in s.tasks && Cur(s).Outstanding()
    && forall t :: t in s.tasks && t != s.current ==> !s.tasks[t].run.Running?
  }

  /** Able to run: suspended, or still marked WAITING in a join whose target has stopped. */
  ghost predicate Ready(s: State, t: Tid)
    requires t in s.tasks
  {
    var k := s.tasks[t];
    || (k.run.Suspended? && !k.pc.Nascent?)
    || (k.run.Waiting? && k.pc.JoinWait? && k.pc.h.t in s.tasks && s.tasks[k.pc.h.t].run.Stopped?)
  }

  ghost predicate QueueExact(s: State) {
    && s.current in s.tasks && Known(s.tasks, s.rq) && NoDup(s.rq) && Sorted(s.tasks, s.rq)
    && s.current !in s.rq && !Ready(s, s.current)
    && forall t :: t in s.tasks && t != s.current ==> (t in s.rq <==> Ready(s, t))
  }

  /** In the slot of waiter `w`: claiming it, exchanging into it, or waiting in it. */
  ghost predicate OnSlot(k: Task, w: Wid) {
    k.pc == Parking(w) || (k.pc.Swapping? && k.pc.w == w) || (k.pc == ParkWait(w) && k.run.Waiting?)
  }

  ghost predicate InOwnSlot(s: State, t: Tid, w: Wid) {
    w in s.slots && s.slots[w] == t
  }

  /** The task this one has made or taken out of a slot and is responsible for. */
  ghost function Holds(k: Task): Option<Tid> {
    match k.pc
    case Spawning(p) => Some(p)
    case Unparking(p) => Some(p)
    case Swapping(_, p) => Some(p)
    case _ => None
  }

  ghost predicate Held(s: State, t: Tid) {
    exists u :: u in s.tasks && Holds(s.tasks[u]) == Some(t)
  }

  ghost predicate SlotOk(s: State, w: Wid)
    requires w in s.slots
  {
    s.slots[w] in s.tasks && OnSlot(s.tasks[s.slots[w]], w)
  }

  /** What a task's control point and run state say about slots. */
  ghost predicate ParkOk(s: State, t: Tid)
    requires t in s.tasks
  {
    var k := s.tasks[t];
    && (k.pc.Parking? || k.pc.Swapping? ==> InOwnSlot(s, t, k.pc.w) && !k.run.Waiting?)
    && (k.run.Waiting? ==> k.pc.ParkWait? || k.pc.JoinWait?)
    && (k.run.Waiting? && k.pc.ParkWait? ==> InOwnSlot(s, t, k.pc.w) || Held(s, t))
    && (k.run.Stopped? ==> k.pc.Body?)
    && (k.pc.Nascent? ==> k.run.Suspended? && Held(s, t))
  }

  ghost predicate SlotsExact(s: State) {
    && (forall w :: w in s.slots ==> SlotOk(s, w))
    && (forall t :: t in s.tasks ==> ParkOk(s, t))
  }

  /** Whoever holds a task has made it, or took it, waiting, out of its slot. */
  ghost predicate HoldOk(s: State, u: Tid)
    requires u in s.tasks
  {
    Holds(s.tasks[u]).Some? ==>
      var p := Holds(s.tasks[u]).value;
      && p in s.tasks && p != u && !s.tasks[u].run.Waiting?
      && if s.tasks[u].pc.Spawning? then s.tasks[p].pc.Nascent?
         else s.tasks[p].run.Waiting? && s.tasks[p].pc.ParkWait? && !InOwnSlot(s, p, s.tasks[p].pc.w)
  }

  ghost predicate HoldersExact(s: State) {
    && (forall u :: u in s.tasks ==> HoldOk(s, u))
    && HeldOnce(s)
  }

  ghost predicate HeldOnce(s: State) {
    forall u, v :: u in s.tasks && v in s.tasks && Holds(s.tasks[u]).Some? && Holds(s.tasks[u]) == Holds(s.tasks[v])
      ==> u == v
  }

  /** A handle that is not null and names a task that has not been given back. */
  ghost predicate Live(s: State, h: Handle) {
    h in s.handles && h.t in s.tasks && s.tasks[h.t].Outstanding() && s.tasks[h.t].spawns == h.n
  }

  /** A task waits in `join` exactly for the task that names it as its joiner. */
  ghost predicate JoinOk(s: State, t: Tid)
    requires t in s.tasks
  {
    var k := s.tasks[t];
    && (k.pc.JoinWait? ==>
          && Live(s, k.pc.h) && s.tasks[k.pc.h.t].joiner == Some(t)
          && (k.run.Waiting? || s.tasks[k.pc.h.t].run.Stopped?))
    && (k.Outstanding() && k.joiner.Some? ==>
          k.joiner.value in s.tasks && s.tasks[k.joiner.value].pc == JoinWait(Handle(t, k.spawns)))
  }

  ghost predicate JoinExact(s: State) {
    forall t :: t in s.tasks ==> JoinOk(s, t)
  }

  /** The handle that a call of `join` or `detach` in progress is using. */
  ghost function Claim(pc: Pc): Option<Handle> {
    match pc
    case JoinWait(h) => Some(h)
    case JoinTail(h) => Some(h)
    case DetachTail(h) => Some(h)
    case Clearing(h) => Some(h)
    case _ => None
  }

  /** The unlocked tails of `join` and `detach`: first the task is stopped and nobody else's, then it is gone. */
  ghost predicate TailOk(s: State, t: Tid)
    requires t in s.tasks
  {
    var pc := s.tasks[t].pc;
    && (pc.JoinTail? || pc.DetachTail? ==>
          Live(s, pc.h) && s.tasks[pc.h.t].run.Stopped? && s.tasks[pc.h.t].joiner.None?)
    && (pc.Clearing? ==> pc.h in s.handles && pc.h.t in s.tasks && pc.h.n <= s.tasks[pc.h.t].reclaims)
  }

  /** The handle that a call has found not to be null, before it takes the preempt lock. */
  ghost function Entered(pc: Pc): Option<Handle> {
    match pc
    case JoinEntered(h) => Some(h)
    case DetachEntered(h) => Some(h)
    case _ => None
  }

  ghost predicate EnteredOk(s: State, t: Tid)
    requires t in s.tasks
  {
    Entered(s.tasks[t].pc).Some? ==> Entered(s.tasks[t].pc).value in s.handles
  }

  ghost predicate BeingCleared(s: State, h: Handle) {
    exists u :: u in s.tasks && s.tasks[u].pc == Clearing(h)
  }

  ghost predicate HandleOk(s: State, h: Handle) {
    h.t in s.tasks && h.n <= s.tasks[h.t].spawns && (Live(s, h) || BeingCleared(s, h))
  }

  ghost predicate SameClaim(pc: Pc, pc': Pc) {
    Claim(pc).Some? && Claim(pc) == Claim(pc')
  }

  ghost predicate ClaimedOnce(s: State) {
    forall t, u :: t in s.tasks && u in s.tasks && SameClaim(s.tasks[t].pc, s.tasks[u].pc) ==> t == u
  }

  ghost predicate ClaimsExact(s: State) {
    && (forall t :: t in s.tasks ==> TailOk(s, t) && EnteredOk(s, t))
    && (forall h :: h in s.handles ==> HandleOk(s, h))
    && ClaimedOnce(s)
  }

  ghost predicate TaskLife(s: State, t: Tid)
    requires t in s.tasks
  {
    var k := s.tasks[t];
    && k.reclaims <= k.spawns <= k.reclaims + 1
    && (!k.run.Stopped? ==> k.Outstanding())
    && (k.Outstanding() ==> (Handle(t, k.spawns) in s.handles <==> !k.host && !k.detached && !k.pc.Nascent?))
    && (k.host ==> k.Outstanding() && !k.detached && !k.run.Stopped?)
    && (k.pc.Nascent? ==> !k.host && !k.detached)
  }

  ghost predicate LifeExact(s: State) {
    forall t :: t in s.tasks ==> TaskLife(s, t)
  }

  /** The deferred slot holds exactly the stopped detached task that is still to be reclaimed. */
  ghost predicate DeferredExact(s: State) {
    && (s.deferred.Some? ==> s.deferred.value in s.tasks && s.deferred.value != s.current)
    && forall t :: t in s.tasks && t != s.current ==>
         (s.deferred == Some(t) <==> s.tasks[t].run.Stopped? && s.tasks[t].Outstanding() && s.tasks[t].detached)
  }

  ghost predicate SpareOk(s: State, i: nat)
    requires i < |s.spare|
  {
    var e := s.spare[i];
    e.id in s.tasks && e.size == s.tasks[e.id].size && e.tls == s.tasks[e.id].tls
  }

  ghost predicate SpareExact(s: State) {
    && |s.spare| <= s.maxSpare && Distinct(s.spare) && Ordered(s.spare)
    && (forall i :: 0 <= i < |s.spare| ==> SpareOk(s, i))
    && s.destroyed <= s.tasks.Keys
    && (forall t :: t in s.tasks ==> (t in Ids(s.spare) <==> !s.tasks[t].Outstanding() && t !in s.destroyed))
    && (forall t :: t in s.destroyed ==> !s.tasks[t].Outstanding())
  }

  /** The preempt flag is set exactly on started tasks that are switched out. */
  ghost predicate FlagExact(s: State, t: Tid)
    requires t in s.tasks
  {
    var k := s.tasks[t];
    if t == s.current then k.started && !k.noPreempt
    else
      k.Outstanding() ==> k.noPreempt == k.started && (!k.started ==> k.run.Suspended? && (k.pc.Body? || k.pc.Nascent?))
  }

  ghost predicate FlagsExact(s: State) {
    forall t :: t in s.tasks ==> FlagExact(s, t)
  }

  ghost predicate ExitLogged(s: State, h: Handle) {
    h.t in s.tasks && h.n <= s.tasks[h.t].spawns && (h.n == s.tasks[h.t].spawns ==> s.tasks[h.t].run.Stopped?)
  }

  ghost predicate JoinLogged(s: State, h: Handle)
    requires h in s.joins
  {
    h in s.exits && s.joins[h] == s.exits[h] && h.t in s.tasks && h.n <= s.tasks[h.t].reclaims
  }

  ghost predicate LogExact(s: State) {
    && (forall t :: t in s.tasks && s.tasks[t].Outstanding() && s.tasks[t].run.Stopped? ==>
          Handle(t, s.tasks[t].spawns) in s.exits && s.exits[Handle(t, s.tasks[t].spawns)] == s.tasks[t].value)
    && (forall h :: h in s.exits ==> ExitLogged(s, h))
    && (forall h :: h in s.joins ==> JoinLogged(s, h))
  }

  /** Everything except that the current task is running: also true of the states in the middle of
      `yield`, after the current task has announced what it is about to be. */
  ghost predicate Core(s: State) {
    QueueExact(s) && Rest(s)
  }

  ghost predicate Rest(s: State) {
    && OnlyCurrentRuns(s) && SlotsExact(s) && HoldersExact(s) && JoinExact(s) && ClaimsExact(s)
    && LifeExact(s) && DeferredExact(s) && SpareExact(s) && FlagsExact(s) && LogExact(s)
  }

  ghost predicate Inv(s: State) {
    Core(s) && Cur(s).run.Running?
  }

  lemma InvIsSane(s: State)
    requires Inv(s)
    ensures Sane(s)
  {
    assert HoldOk(s, s.current) && JoinOk(s, s.current) && TailOk(s, s.current) && TaskLife(s, s.current);
    forall i | 0 <= i < |s.spare| ensures s.spare[i].id in s.tasks {
      assert SpareOk(s, i);
    }
  }

  lemma BootInv(host: Tid, maxSpare: nat, now: nat)
    ensures Inv(Boot(host, maxSpare, now))
  {}

  // ---------------------------------------------------------------- changes of times and queue only

  ghost predicate OnlyTimes(s: State, s': State) {
    && s'.tasks.Keys == s.tasks.Keys
    && (forall t :: t in s.tasks ==> s'.tasks[t] == s.tasks[t].(vruntime := s'.tasks[t].vruntime))
    && s' == s.(tasks := s'.tasks, rq := s'.rq, minVruntime := s'.minVruntime, lastTick := s'.lastTick,
                charged := s'.charged)
  }

  lemma HeldFrame(s: State, s': State)
    requires forall u :: u in s.tasks ==> u in s'.tasks && Holds(s'.tasks[u]) == Holds(s.tasks[u])
    ensures forall t :: Held(s, t) ==> Held(s', t)
  {
    forall t: Tid | Held(s, t) ensures Held(s', t) {
      var u :| u in s.tasks && Holds(s.tasks[u]) == Some(t);
      assert Holds(s'.tasks[u]) == Some(t);
    }
  }

  lemma TimesKeepQueue(s: State, s': State)
    requires QueueExact(s) && OnlyTimes(s, s') && s'.rq == s.rq
    requires forall t :: t in s.rq ==> s'.tasks[t].vruntime == s.tasks[t].vruntime
    ensures QueueExact(s')
  {
    SortedFrame(s.tasks, s'.tasks, s.rq);
  }

  lemma TimesKeepSlots(s: State, s': State)
    requires SlotsExact(s) && OnlyTimes(s, s')
    ensures SlotsExact(s')
  {
    HeldFrame(s, s');
    assert forall t :: t in s.tasks ==> ParkOk(s, t);
    assert forall w :: w in s.slots ==> SlotOk(s, w);
  }

  /** Who holds whom depends on the control points, on who is waiting, and on the slots. */
  ghost predicate SameHolding(s: State, s': State) {
    && s'.tasks.Keys == s.tasks.Keys && s'.slots == s.slots
    && forall u :: u in s.tasks ==>
         var k, k' := s.tasks[u], s'.tasks[u];
         && k'.run.Waiting? == k.run.Waiting?
         && (k'.pc == k.pc || (Holds(k) == Holds(k') == None && !k.pc.ParkWait? && !k.pc.Nascent?))
  }

  lemma HeldOnceFrame(s: State, s': State)
    requires s'.tasks.Keys == s.tasks.Keys && HeldOnce(s)
    requires forall u :: u in s.tasks ==> Holds(s'.tasks[u]) == Holds(s.tasks[u])
    ensures HeldOnce(s')
  {}

  lemma SameHolder(s: State, s': State, u: Tid)
    requires SameHolding(s, s') && u in s.tasks && HoldOk(s, u)
    ensures HoldOk(s', u)
  {}

  lemma SameHolders(s: State, s': State)
    requires SameHolding(s, s') && HoldersExact(s)
    ensures HoldersExact(s')
  {
    HeldOnceFrame(s, s');
    forall u | u in s.tasks ensures HoldOk(s', u) { SameHolder(s, s', u); }
  }

  lemma TimesKeepHolders(s: State, s': State)
    requires OnlyTimes(s, s') && OnlyCurrentRuns(s) && HoldersExact(s)
    ensures OnlyCurrentRuns(s') && HoldersExact(s')
  {
    SameHolders(s, s');
  }

  lemma TimesKeepLife(s: State, s': State)
    requires OnlyTimes(s, s') && LifeExact(s) && DeferredExact(s) && FlagsExact(s)
    ensures LifeExact(s') && DeferredExact(s') && FlagsExact(s')
  {
    assert forall t :: t in s.tasks ==> TaskLife(s, t) && FlagExact(s, t);
  }

  /** Claims depend on the control points of calls in progress, the spawn counts and the handles. */
  ghost predicate SameClaims(s: State, s': State) {
    && s'.handles == s.handles && s'.tasks.Keys == s.tasks.Keys
    && forall u :: u in s.tasks ==>
         var k, k' := s.tasks[u], s'.tasks[u];
         && (k'.pc == k.pc || (Claim(k'.pc).None? && Claim(k.pc).None? && Entered(k'.pc).None?))
         && k'.spawns == k.spawns && k'.reclaims == k.reclaims && k'.joiner == k.joiner
         && (k.run.Stopped? ==> k'.run.Stopped?)
  }

  lemma SameClaimsCleared(s: State, s': State, h: Handle)
    requires SameClaims(s, s') && BeingCleared(s, h)
    ensures BeingCleared(s', h)
  {
    var u :| u in s.tasks && s.tasks[u].pc == Clearing(h);
    assert s'.tasks[u].pc == Clearing(h);
  }

  lemma SameClaimsHandle(s: State, s': State, h: Handle)
    requires SameClaims(s, s') && HandleOk(s, h)
    ensures HandleOk(s', h)
  {
    if BeingCleared(s, h) { SameClaimsCleared(s, s', h); }
  }

  lemma SameClaimsOnce(s: State, s': State)
    requires SameClaims(s, s') && ClaimedOnce(s)
    ensures ClaimedOnce(s')
  {
    assert forall u :: u in s.tasks ==> Claim(s'.tasks[u].pc) == Claim(s.tasks[u].pc);
  }

  lemma SameClaimsTail(s: State, s': State, t: Tid)
    requires SameClaims(s, s') && t in s.tasks && TailOk(s, t) && EnteredOk(s, t)
    ensures TailOk(s', t) && EnteredOk(s', t)
  {}

  lemma SameClaimsExact(s: State, s': State)
    requires SameClaims(s, s') && ClaimsExact(s)
    ensures ClaimsExact(s')
  {
    SameClaimsOnce(s, s');
    forall t | t in s.tasks ensures TailOk(s', t) && EnteredOk(s', t) { SameClaimsTail(s, s', t); }
    forall h | h in s.handles ensures HandleOk(s', h) { SameClaimsHandle(s, s', h); }
  }

  lemma TimesKeepLogs(s: State, s': State)
    requires OnlyTimes(s, s') && JoinExact(s) && SpareExact(s) && LogExact(s)
    ensures JoinExact(s') && SpareExact(s') && LogExact(s')
  {
    TimesKeepJoin(s, s');
    TimesKeepSpare(s, s');
  }

  lemma TimesKeepJoin(s: State, s': State)
    requires OnlyTimes(s, s') && JoinExact(s)
    ensures JoinExact(s')
  {
    forall t | t in s.tasks ensures JoinOk(s', t) { assert JoinOk(s, t); }
  }

  lemma TimesKeepSpare(s: State, s': State)
    requires OnlyTimes(s, s') && SpareExact(s)
    ensures SpareExact(s')
  {
    forall i | 0 <= i < |s.spare| ensures SpareOk(s', i) { assert SpareOk(s, i); }
  }

  lemma TimesKeepCore(s: State, s': State)
    requires Core(s) && OnlyTimes(s, s') && s'.rq == s.rq
    requires forall t :: t in s.rq ==> s'.tasks[t].vruntime == s.tasks[t].vruntime
    ensures Core(s')
  {
    TimesKeepQueue(s, s');
    TimesKeepRest(s, s');
  }

  lemma TimesKeepRest(s: State, s': State)
    requires Rest(s) && OnlyTimes(s, s')
    ensures Rest(s')
  {
    TimesKeepSlots(s, s');
    TimesKeepHolders(s, s');
    TimesKeepLife(s, s');
    TimesKeepLogs(s, s');
    SameClaimsExact(s, s');
  }

  lemma ChargedKeepsCore(s: State, now: nat)
    requires Core(s)
    ensures Core(Charged(s, now))
  {
    ChargedChangesTimes(s, now);
    TimesKeepCore(s, Charged(s, now));
  }

  lemma ChargedChangesTimes(s: State, now: nat)
    requires s.current in s.tasks && s.current !in s.rq
    ensures OnlyTimes(s, Charged(s, now)) && Charged(s, now).rq == s.rq
    ensures forall t :: t in s.rq && t in s.tasks ==> Charged(s, now).tasks[t].vruntime == s.tasks[t].vruntime
  {}

  // ---------------------------------------------------------------- reclaiming a stopped task

  /** `t` may be reclaimed: it has stopped, its reclaim is still owed, and either it is detached and the
      current task stays where it is, or the current task is in the tail of a `join` or `detach` for it. */
  ghost predicate Reclaimable(s: State, t: Tid, pc: Pc) {
    && s.current in s.tasks && t in s.tasks && t != s.current
    && s.tasks[t].run.Stopped? && s.tasks[t].Outstanding()
    && var h := Handle(t, s.tasks[t].spawns);
       || (pc == Cur(s).pc && s.tasks[t].joiner.None? && h !in s.handles)
       || (pc == Clearing(h) && h in s.handles && Cur(s).run.Running?
           && ((Cur(s).pc == JoinWait(h) && s.tasks[t].joiner == Some(s.current))
               || ((Cur(s).pc == JoinTail(h) || Cur(s).pc == DetachTail(h)) && s.tasks[t].joiner.None?)))
  }

  /** Stopped task `t` goes to the free list and leaves the deferred slot; the current task moves to `pc`;
      nothing else changes. */
  ghost predicate Retires(s: State, s': State, t: Tid, pc: Pc) {
    && Reclaimable(s, t, pc)
    && s'.tasks.Keys == s.tasks.Keys && s'.current == s.current && s'.rq == s.rq && s'.slots == s.slots
    && s'.handles == s.handles && s'.exits == s.exits && s'.maxSpare == s.maxSpare
    && s'.deferred == (if s.deferred == Some(t) then None else s.deferred)
    && s'.tasks[t] == s.tasks[t].(reclaims := s.tasks[t].reclaims + 1)
    && s'.tasks[s.current] == Cur(s).(pc := pc)
    && (forall u :: u in s.tasks && u != t && u != s.current ==> s'.tasks[u] == s.tasks[u])
    && s'.spare == Given(s.spare, s.maxSpare, Spare(t, s.tasks[t].size, s.tasks[t].tls))
    && s'.destroyed == (if |s.spare| < s.maxSpare then s.destroyed else s.destroyed + {t})
  }

  lemma RetiresQueue(s: State, s': State, t: Tid, pc: Pc)
    requires OnlyCurrentRuns(s) && QueueExact(s) && Retires(s, s', t, pc)
    ensures OnlyCurrentRuns(s') && QueueExact(s')
  {
    SortedFrame(s.tasks, s'.tasks, s.rq);
    forall u | u in s.tasks && u != s.current ensures Ready(s', u) == Ready(s, u) {
      RetiresReady(s, s', t, pc, u);
    }
  }

  lemma RetiresReady(s: State, s': State, t: Tid, pc: Pc, u: Tid)
    requires Retires(s, s', t, pc) && u in s.tasks && u != s.current
    ensures Ready(s', u) == Ready(s, u)
  {}

  lemma RetiresSlots(s: State, s': State, t: Tid, pc: Pc)
    requires SlotsExact(s) && Retires(s, s', t, pc)
    ensures SlotsExact(s')
  {
    HeldFrame(s, s');
    forall w | w in s.slots ensures SlotOk(s', w) { RetiresSlot(s, s', t, pc, w); }
    forall u | u in s.tasks ensures ParkOk(s', u) { RetiresParker(s, s', t, pc, u); }
  }

  lemma RetiresSlot(s: State, s': State, t: Tid, pc: Pc, w: Wid)
    requires Retires(s, s', t, pc) && w in s.slots && SlotOk(s, w)
    ensures SlotOk(s', w)
  {}

  lemma RetiresParker(s: State, s': State, t: Tid, pc: Pc, u: Tid)
    requires Retires(s, s', t, pc) && u in s.tasks && ParkOk(s, u) && (Held(s, u) ==> Held(s', u))
    ensures ParkOk(s', u)
  {}

  lemma RetiresHolders(s: State, s': State, t: Tid, pc: Pc)
    requires HoldersExact(s) && Retires(s, s', t, pc)
    ensures HoldersExact(s')
  {
    assert SameHolding(s, s');
    SameHolders(s, s');
  }

  lemma RetiresJoin(s: State, s': State, t: Tid, pc: Pc)
    requires JoinExact(s) && Retires(s, s', t, pc)
    ensures JoinExact(s')
  {
    forall u | u in s.tasks ensures JoinOk(s', u) {
      RetiresJoiner(s, s', t, pc, u);
    }
  }

  lemma RetiresClaims(s: State, s': State, t: Tid, pc: Pc)
    requires ClaimsExact(s) && Retires(s, s', t, pc)
    ensures ClaimsExact(s')
  {
    forall u | u in s.tasks ensures TailOk(s', u) && EnteredOk(s', u) {
      assert EnteredOk(s, u);
      RetiresTail(s, s', t, pc, u);
    }
    forall h | h in s.handles ensures HandleOk(s', h) { RetiresHandle(s, s', t, pc, h); }
    RetiresClaimedOnce(s, s', t, pc);
  }

  lemma RetiresClaimedOnce(s: State, s': State, t: Tid, pc: Pc)
    requires ClaimedOnce(s) && Retires(s, s', t, pc)
    ensures ClaimedOnce(s')
  {
    assert forall u :: u in s.tasks ==> Claim(s'.tasks[u].pc) == Claim(s.tasks[u].pc);
  }

  lemma RetiresTail(s: State, s': State, t: Tid, pc: Pc, u: Tid)
    requires ClaimedOnce(s) && Retires(s, s', t, pc) && u in s.tasks && TailOk(s, u)
    ensures TailOk(s', u)
  {
    var k := s.tasks[u].pc;
    if u != s.current && (k.JoinTail? || k.DetachTail?) {
      assert SameClaim(k, Cur(s).pc) ==> u == s.current;
      RetiresLive(s, s', t, pc, k.h);
    }
  }

  lemma RetiresLive(s: State, s': State, t: Tid, pc: Pc, h: Handle)
    requires Retires(s, s', t, pc) && Live(s, h) && Claim(Cur(s).pc) != Some(h)
    ensures Live(s', h) && s'.tasks[h.t].run == s.tasks[h.t].run && s'.tasks[h.t].joiner == s.tasks[h.t].joiner
  {}

  lemma RetiresHandle(s: State, s': State, t: Tid, pc: Pc, h: Handle)
    requires Retires(s, s', t, pc) && h in s.handles && HandleOk(s, h)
    ensures HandleOk(s', h)
  {
    if BeingCleared(s, h) {
      var u :| u in s.tasks && s.tasks[u].pc == Clearing(h);
      assert s'.tasks[u].pc == Clearing(h);
    } else if h.t == t {
      assert s'.tasks[s.current].pc == Clearing(h);
    }
  }

  lemma RetiresJoiner(s: State, s': State, t: Tid, pc: Pc, u: Tid)
    requires Retires(s, s', t, pc) && u in s.tasks && JoinOk(s, u) && JoinOk(s, t)
    ensures JoinOk(s', u)
  {}

  lemma RetiresLife(s: State, s': State, t: Tid, pc: Pc)
    requires LifeExact(s) && DeferredExact(s) && Retires(s, s', t, pc)
    ensures LifeExact(s') && DeferredExact(s')
  {
    forall u | u in s.tasks ensures TaskLife(s', u) { RetiresTaskLife(s, s', t, pc, u); }
    RetiresDeferred(s, s', t, pc);
  }

  lemma RetiresTaskLife(s: State, s': State, t: Tid, pc: Pc, u: Tid)
    requires Retires(s, s', t, pc) && u in s.tasks && TaskLife(s, u)
    ensures TaskLife(s', u)
  {}

  lemma RetiresDeferred(s: State, s': State, t: Tid, pc: Pc)
    requires DeferredExact(s) && Retires(s, s', t, pc)
    ensures DeferredExact(s')
  {}

  lemma RetiresFlags(s: State, s': State, t: Tid, pc: Pc)
    requires FlagsExact(s) && Retires(s, s', t, pc)
    ensures FlagsExact(s')
  {
    assert forall u :: u in s.tasks ==> FlagExact(s, u);
  }

  lemma RetiresSpareList(s: State, s': State, t: Tid, pc: Pc)
    requires SpareExact(s) && Retires(s, s', t, pc) && |s.spare| < s.maxSpare
    ensures |s'.spare| <= s'.maxSpare && Distinct(s'.spare) && Ordered(s'.spare) && Ids(s'.spare) == Ids(s.spare) + {t}
    ensures forall i :: 0 <= i < |s'.spare| ==> SpareOk(s', i)
  {
    var e := Spare(t, s.tasks[t].size, s.tasks[t].tls);
    assert t !in Ids(s.spare);
    InsertKeepsOrder(s.spare, e);
    InsertContents(s.spare, e);
    forall i | 0 <= i < |s'.spare|
      ensures SpareOk(s', i)
    {
      assert s'.spare[i] in s'.spare;
      if s'.spare[i] != e {
        var j :| 0 <= j < |s.spare| && s.spare[j] == s'.spare[i];
        assert SpareOk(s, j);
      }
    }
  }

  lemma RetiresSpare(s: State, s': State, t: Tid, pc: Pc)
    requires SpareExact(s) && Retires(s, s', t, pc)
    ensures SpareExact(s')
  {
    assert forall u :: u in s.tasks && u != t ==> s'.tasks[u].Outstanding() == s.tasks[u].Outstanding();
    assert !s'.tasks[t].Outstanding() && t !in Ids(s.spare) && t !in s.destroyed;
    if |s.spare| < s.maxSpare {
      RetiresSpareList(s, s', t, pc);
    } else {
      RetiresFullList(s, s', t, pc);
    }
  }

  lemma RetiresFullList(s: State, s': State, t: Tid, pc: Pc)
    requires SpareExact(s) && Retires(s, s', t, pc) && |s.spare| >= s.maxSpare
    ensures s'.spare == s.spare && forall i :: 0 <= i < |s'.spare| ==> SpareOk(s', i)
  {
    forall i | 0 <= i < |s'.spare| ensures SpareOk(s', i) {
      assert SpareOk(s, i);
    }
  }

  lemma RetiresLog(s: State, s': State, t: Tid, pc: Pc)
    requires LogExact(s) && Retires(s, s', t, pc)
    requires s'.joins == s.joins || s'.joins == s.joins[Handle(t, s.tasks[t].spawns) := s.tasks[t].value]
    ensures LogExact(s')
  {}

  lemma RetiresKeepsCore(s: State, s': State, t: Tid, pc: Pc)
    requires Core(s) && Retires(s, s', t, pc)
    requires s'.joins == s.joins || s'.joins == s.joins[Handle(t, s.tasks[t].spawns) := s.tasks[t].value]
    ensures Core(s')
  {
    RetiresQueue(s, s', t, pc);
    RetiresSlots(s, s', t, pc);
    RetiresHolders(s, s', t, pc);
    RetiresJoin(s, s', t, pc);
    RetiresClaims(s, s', t, pc);
    RetiresLife(s, s', t, pc);
    RetiresFlags(s, s', t, pc);
    RetiresSpare(s, s', t, pc);
    RetiresLog(s, s', t, pc);
  }

  lemma DeferredIsReclaimable(s: State)
    requires OnlyCurrentRuns(s) && LifeExact(s) && DeferredExact(s) && JoinExact(s) && s.deferred.Some?
    ensures Reclaimable(s, s.deferred.value, Cur(s).pc)
  {
    var t := s.deferred.value;
    assert TaskLife(s, t) && JoinOk(s, t);
    assert s.tasks[t].joiner.Some? ==> JoinOk(s, s.tasks[t].joiner.value);
  }

  lemma DeferredRetires(s: State, t: Tid)
    requires s.deferred == Some(t) && s.current in s.tasks && Reclaimable(s, t, Cur(s).pc)
    ensures Retires(s, DeferredReclaimed(s), t, Cur(s).pc) && DeferredReclaimed(s).joins == s.joins
    ensures DeferredReclaimed(s).deferred.None?
  {}

  /** `yield` first reclaims the deferred task, whatever the current task is about to do. */
  lemma DeferredReclaimedKeepsCore(s: State)
    requires Core(s)
    ensures Core(DeferredReclaimed(s)) && DeferredReclaimed(s).deferred.None?
  {
    if s.deferred.Some? {
      var t := s.deferred.value;
      DeferredIsReclaimable(s);
      DeferredRetires(s, t);
      RetiresKeepsCore(s, DeferredReclaimed(s), t, Cur(s).pc);
    }
  }

  // ---------------------------------------------------------------- dispatching the next task

  /** The processor goes from the current task to `t`, as `switch_to_internal` leaves both. */
  ghost predicate Switches(s: State, s': State, t: Tid) {
    && s.current in s.tasks && t in s.tasks && t != s.current && s'.current == t
    && s'.tasks.Keys == s.tasks.Keys
    && s'.tasks[s.current] == Cur(s).(run := if Cur(s).run.Running? then Suspended else Cur(s).run, noPreempt := true)
    && s'.tasks[t] == s.tasks[t].(run := Running, noPreempt := false, started := true,
                                  pc := if s.tasks[t].pc.ParkWait? then Body else s.tasks[t].pc)
    && (forall u :: u in s.tasks && u != t && u != s.current ==> s'.tasks[u] == s.tasks[u])
    && s'.slots == s.slots && s'.handles == s.handles && s'.exits == s.exits && s'.joins == s.joins
    && s'.spare == s.spare && s'.maxSpare == s.maxSpare && s'.destroyed == s.destroyed
  }

  /** A switch to a task that was ready. */
  ghost predicate Resumes(s: State, s': State, t: Tid) {
    Switches(s, s', t) && Ready(s, t)
  }

  lemma ResumesReady(s: State, s': State, t: Tid, u: Tid)
    requires Resumes(s, s', t) && u in s.tasks && !Ready(s, s.current) && ParkOk(s, s.current)
    ensures Ready(s', u) <==> (u == s.current && Cur(s).run.Running?) || (u != s.current && u != t && Ready(s, u))
  {}

  lemma ResumesQueue(s: State, s': State, t: Tid, q: seq<Tid>)
    requires OnlyCurrentRuns(s) && QueueExact(s) && Resumes(s, s', t) && ParkOk(s, s.current)
    requires q == Candidates(s) && q != [] && q[0] == t && s'.rq == q[1..]
    requires s'.tasks[t].Outstanding()
    ensures OnlyCurrentRuns(s') && QueueExact(s')
  {
    EnqueuedMembers(s.tasks, s.rq, s.current);
    EnqueuedSorted(s.tasks, s.rq, s.current);
    assert Sorted(s.tasks, q) && NoDup(q);
    assert q == [t] + s'.rq;
    SortedFrame(s.tasks, s'.tasks, s'.rq);
    forall u | u in s.tasks
      ensures u != t ==> (u in s'.rq <==> Ready(s', u))
      ensures u == t ==> u !in s'.rq && !Ready(s', u)
    {
      ResumesReady(s, s', t, u);
    }
  }

  lemma ResumesSlots(s: State, s': State, t: Tid)
    requires SlotsExact(s) && Resumes(s, s', t)
    ensures SlotsExact(s')
  {
    HeldFrame(s, s');
    forall w | w in s.slots ensures SlotOk(s', w) { ResumesSlot(s, s', t, w); }
    forall u | u in s.tasks ensures ParkOk(s', u) { ResumesParker(s, s', t, u); }
  }

  lemma ResumesSlot(s: State, s': State, t: Tid, w: Wid)
    requires Resumes(s, s', t) && w in s.slots && SlotOk(s, w)
    ensures SlotOk(s', w)
  {}

  lemma ResumesParker(s: State, s': State, t: Tid, u: Tid)
    requires Resumes(s, s', t) && u in s.tasks && ParkOk(s, u) && (Held(s, u) ==> Held(s', u))
    ensures ParkOk(s', u)
  {}

  lemma ResumesHolder(s: State, s': State, t: Tid, u: Tid)
    requires Resumes(s, s', t) && u in s.tasks && HoldOk(s, u)
    ensures HoldOk(s', u)
  {}

  lemma ResumesHolders(s: State, s': State, t: Tid)
    requires HoldersExact(s) && Resumes(s, s', t)
    ensures HoldersExact(s')
  {
    HeldOnceFrame(s, s');
    forall u | u in s.tasks ensures HoldOk(s', u) {
      ResumesHolder(s, s', t, u);
    }
  }

  lemma ResumesJoin(s: State, s': State, t: Tid)
    requires JoinExact(s) && Resumes(s, s', t)
    ensures JoinExact(s')
  {
    forall u | u in s.tasks ensures JoinOk(s', u) {
      assert JoinOk(s, u);
    }
  }

  lemma ResumesLife(s: State, s': State, t: Tid)
    requires LifeExact(s) && FlagsExact(s) && Resumes(s, s', t)
    ensures LifeExact(s') && FlagsExact(s')
  {
    forall u | u in s.tasks ensures TaskLife(s', u) && FlagExact(s', u) {
      assert TaskLife(s, u) && FlagExact(s, u);
    }
  }

  lemma ResumesDeferred(s: State, s': State, t: Tid)
    requires OnlyCurrentRuns(s) && DeferredExact(s) && s.deferred.None? && Resumes(s, s', t)
    requires s'.deferred == if Cur(s).run.Stopped? && Cur(s).detached then Some(s.current) else None
    ensures DeferredExact(s')
  {}

  lemma ResumesSpare(s: State, s': State, t: Tid)
    requires SpareExact(s) && Resumes(s, s', t)
    ensures SpareExact(s')
  {
    forall i | 0 <= i < |s.spare| ensures SpareOk(s', i) {
      assert SpareOk(s, i);
    }
  }

  lemma ResumesLog(s: State, s': State, t: Tid)
    requires LogExact(s) && Resumes(s, s', t)
    ensures LogExact(s')
  {}

  /** Popping the current task itself puts everything back where it was. */
  lemma PopsItself(s: State)
    requires QueueExact(s) && Candidates(s) != [] && Candidates(s)[0] == s.current
    ensures Candidates(s)[1..] == s.rq && Cur(s).run.Running?
  {}

  lemma FirstCandidateReady(s: State)
    requires QueueExact(s) && Candidates(s) != [] && Candidates(s)[0] != s.current
    ensures Candidates(s)[0] in s.tasks && Ready(s, Candidates(s)[0])
  {
    EnqueuedMembers(s.tasks, s.rq, s.current);
    assert Candidates(s)[0] in Candidates(s);
  }

  lemma DispatchedSwitches(s: State, now: nat)
    requires s.current in s.tasks && Known(s.tasks, s.rq)
    requires Candidates(s) != [] && Candidates(s)[0] != s.current && Candidates(s)[0] in s.tasks
    ensures Switches(s, Dispatched(s, now), Candidates(s)[0])
  {}

  lemma DispatchedFields(s: State, now: nat)
    requires s.current in s.tasks && Known(s.tasks, s.rq) && s.deferred.None?
    requires Candidates(s) != [] && Candidates(s)[0] != s.current
    ensures Dispatched(s, now).rq == Candidates(s)[1..]
    ensures Dispatched(s, now).deferred == if Cur(s).run.Stopped? && Cur(s).detached then Some(s.current) else None
  {}

  lemma DispatchedKeepsInv(s: State, now: nat)
    requires Core(s) && s.deferred.None? && Candidates(s) != []
    ensures Inv(Dispatched(s, now))
  {
    if Candidates(s)[0] == s.current {
      PopsItself(s);
      TimesKeepCore(s, Dispatched(s, now));
    } else {
      FirstCandidateReady(s);
      DispatchedSwitches(s, now);
      DispatchedFields(s, now);
      ResumesKeepsInv(s, Dispatched(s, now), Candidates(s)[0], Candidates(s));
    }
  }

  lemma ResumesKeepsInv(s: State, s': State, t: Tid, q: seq<Tid>)
    requires Core(s) && s.deferred.None? && Resumes(s, s', t)
    requires q == Candidates(s) && q != [] && q[0] == t && s'.rq == q[1..]
    requires s'.deferred == if Cur(s).run.Stopped? && Cur(s).detached then Some(s.current) else None
    ensures Inv(s')
  {
    assert TaskLife(s, t) && ParkOk(s, s.current);
    ResumesQueue(s, s', t, q);
    ResumesKeepsPlaces(s, s', t);
    ResumesKeepsRecords(s, s', t);
  }

  lemma ResumesKeepsPlaces(s: State, s': State, t: Tid)
    requires SlotsExact(s) && HoldersExact(s) && JoinExact(s) && ClaimsExact(s) && Resumes(s, s', t)
    ensures SlotsExact(s') && HoldersExact(s') && JoinExact(s') && ClaimsExact(s')
  {
    ResumesSlots(s, s', t);
    ResumesHolders(s, s', t);
    ResumesJoin(s, s', t);
    SameClaimsExact(s, s');
  }

  lemma ResumesKeepsRecords(s: State, s': State, t: Tid)
    requires OnlyCurrentRuns(s) && LifeExact(s) && FlagsExact(s) && DeferredExact(s) && SpareExact(s) && LogExact(s)
    requires s.deferred.None? && Resumes(s, s', t)
    requires s'.deferred == if Cur(s).run.Stopped? && Cur(s).detached then Some(s.current) else None
    ensures LifeExact(s') && FlagsExact(s') && DeferredExact(s') && SpareExact(s') && LogExact(s')
  {
    ResumesLife(s, s', t);
    ResumesDeferred(s, s', t);
    ResumesSpare(s, s', t);
    ResumesLog(s, s', t);
  }

  /** `sched_node::yield` from any announced state leads to a proper state. */
  lemma RescheduledKeepsInv(s: State, now1: nat, now2: nat)
    requires Core(s) && CanReschedule(s)
    ensures Inv(Rescheduled(s, now1, now2))
  {
    ReadyToPop(s, now1);
    DispatchedKeepsInv(Charged(DeferredReclaimed(s), now1), now2);
  }

  lemma ReadyToPop(s: State, now1: nat)
    requires Core(s) && CanReschedule(s)
    ensures
      var p := Charged(DeferredReclaimed(s), now1);
      Core(p) && p.deferred.None? && Candidates(p) != []
  {
    DeferredReclaimedKeepsCore(s);
    ChargedKeepsCore(DeferredReclaimed(s), now1);
    StillSomebody(s, now1);
  }

  lemma StillSomebody(s: State, now1: nat)
    requires CanReschedule(s)
    ensures
      var p := Charged(DeferredReclaimed(s), now1);
      && p.deferred == DeferredReclaimed(s).deferred && p.current in p.tasks && Known(p.tasks, p.rq)
      && Candidates(p) != []
  {}
}
