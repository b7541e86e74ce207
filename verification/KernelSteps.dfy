/** Every action of the scheduler keeps the invariant. */
module KernelSteps {
  import opened Options
  import opened Freelist
  import opened Kernel
  import opened KernelInv

  // ---------------------------------------------------------------- scheduling one more task

  /** The queue is right except that `t` has just become ready and is still missing. */
  ghost predicate QueueLacks(s: State, t: Tid) {
    && s.current in s.tasks && Known(s.tasks, s.rq) && NoDup(s.rq) && Sorted(s.tasks, s.rq)
    && s.current !in s.rq && !Ready(s, s.current)
    && t in s.tasks && t != s.current && t !in s.rq && Ready(s, t)
    && forall u :: u in s.tasks && u != s.current && u != t ==> (u in s.rq <==> Ready(s, u))
  }

  lemma ScheduledKeepsCore(s: State, t: Tid)
    requires QueueLacks(s, t) && Rest(s)
    ensures Core(Scheduled(s, t))
  {
    ScheduledQueue(s, t);
    ScheduledChangesTimes(s, t);
    TimesKeepRest(s, Scheduled(s, t));
  }

  lemma ScheduledChangesTimes(s: State, t: Tid)
    requires t in s.tasks && Known(s.tasks, s.rq)
    ensures OnlyTimes(s, Scheduled(s, t))
  {}

  lemma ScheduledQueue(s: State, t: Tid)
    requires QueueLacks(s, t)
    ensures QueueExact(Scheduled(s, t))
  {
    var s' := Scheduled(s, t);
    SortedFrame(s.tasks, s'.tasks, s.rq);
    EnqueuedMembers(s'.tasks, s.rq, t);
    EnqueuedSorted(s'.tasks, s.rq, t);
    assert forall u :: u in s.tasks ==> Ready(s', u) == Ready(s, u);
  }

  // ---------------------------------------------------------------- the current task changes control point

  /** Only the current task's record and the slots change. */
  ghost predicate CurrentMoves(s: State, s': State) {
    && s.current in s.tasks && s.current in s'.tasks && s'.tasks == s.tasks[s.current := s'.tasks[s.current]]
    && s' == s.(tasks := s'.tasks, slots := s'.slots)
  }

  /** ... and only its run state and control point. */
  ghost predicate OnlyPc(k: Task, k': Task) {
    k' == k.(run := k'.run, pc := k'.pc)
  }

  /** The new control point concerns neither waiting in `join` nor termination. */
  ghost predicate Harmless(s: State, s': State) {
    && CurrentMoves(s, s') && OnlyPc(s.tasks[s.current], s'.tasks[s.current])
    && s.tasks[s.current].run.Running? && Moderate(s.tasks[s.current].pc) && Moderate(s'.tasks[s.current].pc)
    && (s'.tasks[s.current].run.Running? || (s'.tasks[s.current].run.Waiting? && s'.tasks[s.current].pc.ParkWait?))
  }

  ghost predicate Moderate(pc: Pc) {
    !pc.JoinWait? && !pc.Nascent?
  }

  lemma HarmlessQueue(s: State, s': State)
    requires QueueExact(s) && OnlyCurrentRuns(s) && Harmless(s, s')
    ensures QueueExact(s') && OnlyCurrentRuns(s')
  {
    SortedFrame(s.tasks, s'.tasks, s.rq);
    assert forall u :: u in s.tasks && u != s.current ==> Ready(s', u) == Ready(s, u);
  }

  lemma HarmlessLife(s: State, s': State)
    requires LifeExact(s) && DeferredExact(s) && FlagsExact(s) && Harmless(s, s') && OnlyCurrentRuns(s)
    ensures LifeExact(s') && DeferredExact(s') && FlagsExact(s')
  {
    forall u | u in s.tasks ensures TaskLife(s', u) && FlagExact(s', u) {
      assert TaskLife(s, u) && FlagExact(s, u);
    }
  }

  lemma HarmlessJoin(s: State, s': State)
    requires JoinExact(s) && Harmless(s, s')
    ensures JoinExact(s')
  {
    forall u | u in s.tasks ensures JoinOk(s', u) {
      assert JoinOk(s, u);
    }
  }

  lemma HarmlessLogs(s: State, s': State)
    requires Harmless(s, s')
    ensures SameLogs(s, s')
  {}

  lemma HarmlessKeepsCore(s: State, s': State)
    requires Inv(s) && Harmless(s, s') && SlotsExact(s') && HoldersExact(s') && ClaimsExact(s')
    ensures Core(s')
  {
    HarmlessQueue(s, s');
    HarmlessLife(s, s');
    HarmlessJoin(s, s');
    HarmlessLogs(s, s');
    LogsFrame(s, s');
  }

  lemma HarmlessClaims(s: State, s': State)
    requires Harmless(s, s') && ClaimsExact(s) && Entered(s'.tasks[s.current].pc).None?
    requires Claim(s.tasks[s.current].pc).None? && Claim(s'.tasks[s.current].pc).None?
    ensures ClaimsExact(s')
  {
    SameClaimsExact(s, s');
  }

  lemma HarmlessHolders(s: State, s': State)
    requires Harmless(s, s') && HoldersExact(s) && s'.slots == s.slots && s'.tasks[s.current].run.Running?
    requires Holds(s.tasks[s.current]).None? && Holds(s'.tasks[s.current]).None? && !s.tasks[s.current].pc.ParkWait?
    ensures HoldersExact(s')
  {
    SameHolders(s, s');
  }

  /** The free list and the histories do not care who runs or waits. */
  ghost predicate SameLogs(s: State, s': State) {
    && s'.tasks.Keys == s.tasks.Keys
    && (forall t :: t in s.tasks ==>
          var k, k' := s.tasks[t], s'.tasks[t];
          && k'.spawns == k.spawns && k'.reclaims == k.reclaims && k'.size == k.size && k'.tls == k.tls
          && k'.value == k.value && k'.run.Stopped? == k.run.Stopped?)
    && s'.spare == s.spare && s'.maxSpare == s.maxSpare && s'.destroyed == s.destroyed
    && s'.exits == s.exits && s'.joins == s.joins
  }

  lemma LogsFrame(s: State, s': State)
    requires SpareExact(s) && LogExact(s) && SameLogs(s, s')
    ensures SpareExact(s') && LogExact(s')
  {
    forall i | 0 <= i < |s.spare| ensures SpareOk(s', i) { assert SpareOk(s, i); }
  }

  /** The three moves of `park_if`: claim the free slot, give it up again, start waiting in it. */
  ghost predicate ParkMove(s: State, s': State, w: Wid) {
    && Harmless(s, s')
    && var pc, k' := s.tasks[s.current].pc, s'.tasks[s.current];
      || (pc == Body && k'.pc == Parking(w) && k'.run.Running? && w !in s.slots && s'.slots == s.slots[w := s.current])
      || (pc == Parking(w) && k'.pc == Body && k'.run.Running? && s'.slots == s.slots - {w})
      || (pc == Parking(w) && k'.pc == ParkWait(w) && k'.run.Waiting? && s'.slots == s.slots)
  }

  lemma ParkMoveSlots(s: State, s': State, w: Wid)
    requires SlotsExact(s) && ParkMove(s, s', w)
    ensures SlotsExact(s')
  {
    HeldFrame(s, s');
    assert ParkOk(s, s.current);
    forall v | v in s'.slots ensures SlotOk(s', v) { assert v in s.slots ==> SlotOk(s, v); }
    forall u | u in s.tasks ensures ParkOk(s', u) { assert ParkOk(s, u); }
  }

  lemma ParkMoveHolders(s: State, s': State, w: Wid)
    requires HoldersExact(s) && ParkMove(s, s', w)
    ensures HoldersExact(s')
  {
    HeldOnceFrame(s, s');
    forall u | u in s.tasks ensures HoldOk(s', u) { assert HoldOk(s, u); }
  }

  lemma ParkMoveKeepsCore(s: State, s': State, w: Wid)
    requires Inv(s) && ParkMove(s, s', w)
    ensures Core(s')
  {
    ParkMoveSlots(s, s', w);
    ParkMoveHolders(s, s', w);
    HarmlessClaims(s, s');
    HarmlessKeepsCore(s, s');
  }

  lemma ParkClaimKeepsInv(s: State, a: Action)
    requires Inv(s) && Sane(s) && Enabled(s, a) && a.ParkClaim?
    ensures Inv(Next(s, a))
  {
    ParkMoveKeepsCore(s, Next(s, a), a.w);
  }

  lemma ParkAbortKeepsInv(s: State, a: Action)
    requires Inv(s) && Sane(s) && Enabled(s, a) && a.ParkAbort?
    ensures Inv(Next(s, a))
  {
    ParkMoveKeepsCore(s, Next(s, a), Cur(s).pc.w);
  }

  lemma ParkCommitKeepsInv(s: State, a: Action)
    requires Inv(s) && Sane(s) && Enabled(s, a) && a.ParkCommit?
    ensures Inv(Next(s, a))
  {
    var s' := Blocking(s, ParkWait(Cur(s).pc.w));
    ParkMoveKeepsCore(s, s', Cur(s).pc.w);
    RescheduledKeepsInv(s', a.now1, a.now2);
  }

  // ---------------------------------------------------------------- unpark and swap

  /** Looking at a slot or at a handle, and leaving again. */
  ghost predicate LookMove(s: State, s': State) {
    && Harmless(s, s') && s'.slots == s.slots && s'.tasks[s.current].run.Running?
    && Looking(s.tasks[s.current].pc) && Looking(s'.tasks[s.current].pc)
  }

  ghost predicate Looking(pc: Pc) {
    || pc.Body? || pc.UnparkLoaded? || pc.UnparkSeen? || pc.SwapLoaded? || pc.SwapSeen? || pc.JoinEntered?
    || pc.DetachEntered?
  }

  lemma LookMoveSlots(s: State, s': State)
    requires SlotsExact(s) && LookMove(s, s')
    ensures SlotsExact(s')
  {
    HeldFrame(s, s');
    forall v | v in s'.slots ensures SlotOk(s', v) { assert SlotOk(s, v); }
    forall u | u in s.tasks ensures ParkOk(s', u) { assert ParkOk(s, u); }
  }

  lemma LookMoveKeepsInv(s: State, s': State)
    requires Inv(s) && LookMove(s, s')
    requires Entered(s'.tasks[s.current].pc).Some? ==> Entered(s'.tasks[s.current].pc).value in s.handles
    ensures Inv(s')
  {
    LookMoveSlots(s, s');
    HarmlessHolders(s, s');
    LookMoveClaims(s, s');
    HarmlessKeepsCore(s, s');
  }

  lemma LookMoveClaims(s: State, s': State)
    requires ClaimsExact(s) && LookMove(s, s')
    requires Entered(s'.tasks[s.current].pc).Some? ==> Entered(s'.tasks[s.current].pc).value in s.handles
    ensures ClaimsExact(s')
  {
    forall t | t in s.tasks ensures TailOk(s', t) && EnteredOk(s', t) { assert TailOk(s, t) && EnteredOk(s, t); }
    forall g | g in s.handles ensures HandleOk(s', g) { LookMoveHandle(s, s', g); }
    assert forall t :: t in s.tasks ==> Claim(s'.tasks[t].pc) == Claim(s.tasks[t].pc);
  }

  lemma LookMoveHandle(s: State, s': State, g: Handle)
    requires LookMove(s, s') && HandleOk(s, g)
    ensures HandleOk(s', g)
  {
    if BeingCleared(s, g) {
      var u :| u in s.tasks && s.tasks[u].pc == Clearing(g);
      assert s'.tasks[u].pc == Clearing(g);
    }
  }

  /** The compare-exchange of `unpark` (slot emptied) or `swap` (slot taken over). */
  ghost predicate TakeMove(s: State, s': State, w: Wid, p: Tid) {
    && Harmless(s, s') && SlotWaiting(s, w) && s.slots[w] == p
    && Looking(s.tasks[s.current].pc) && s'.tasks[s.current].run.Running?
    && ((s'.tasks[s.current].pc == Unparking(p) && s'.slots == s.slots - {w}) ||
        (s'.tasks[s.current].pc == Swapping(w, p) && s'.slots == s.slots[w := s.current]))
  }

  lemma TakeMoveHeld(s: State, s': State, w: Wid, p: Tid)
    requires TakeMove(s, s', w, p)
    ensures Held(s', p) && forall t: Tid :: Held(s, t) ==> Held(s', t)
  {
    assert Holds(s'.tasks[s.current]) == Some(p);
    forall t: Tid | Held(s, t) ensures Held(s', t) {
      var u :| u in s.tasks && Holds(s.tasks[u]) == Some(t);
      assert u != s.current && Holds(s'.tasks[u]) == Some(t);
    }
  }

  lemma TakeMoveSlots(s: State, s': State, w: Wid, p: Tid)
    requires SlotsExact(s) && TakeMove(s, s', w, p)
    ensures SlotsExact(s')
  {
    TakeMoveHeld(s, s', w, p);
    forall v | v in s'.slots ensures SlotOk(s', v) { TakeMoveSlot(s, s', w, p, v); }
    forall u | u in s.tasks ensures ParkOk(s', u) { TakeMoveParker(s, s', w, p, u); }
  }

  lemma TakeMoveSlot(s: State, s': State, w: Wid, p: Tid, v: Wid)
    requires TakeMove(s, s', w, p) && v in s'.slots && (v in s.slots ==> SlotOk(s, v))
    ensures SlotOk(s', v)
  {}

  lemma TakeMoveParker(s: State, s': State, w: Wid, p: Tid, u: Tid)
    requires TakeMove(s, s', w, p) && u in s.tasks && ParkOk(s, u) && SlotOk(s, w)
    requires Held(s', p) && (Held(s, u) ==> Held(s', u))
    ensures ParkOk(s', u)
  {}

  lemma TakeMoveHolders(s: State, s': State, w: Wid, p: Tid)
    requires SlotsExact(s) && HoldersExact(s) && TakeMove(s, s', w, p)
    ensures HoldersExact(s')
  {
    assert SlotOk(s, w);
    forall u | u in s.tasks ensures HoldOk(s', u) && (u != s.current ==> Holds(s'.tasks[u]) != Some(p)) {
      TakeMoveHolder(s, s', w, p, u);
    }
  }

  lemma TakeMoveHolder(s: State, s': State, w: Wid, p: Tid, u: Tid)
    requires TakeMove(s, s', w, p) && SlotOk(s, w) && p in s.tasks && ParkOk(s, p) && u in s.tasks && HoldOk(s, u)
    ensures HoldOk(s', u) && (u != s.current ==> Holds(s'.tasks[u]) != Some(p))
  {}

  lemma TakeMoveKeepsInv(s: State, s': State, w: Wid, p: Tid)
    requires Inv(s) && TakeMove(s, s', w, p)
    ensures Inv(s')
  {
    TakeMoveSlots(s, s', w, p);
    TakeMoveHolders(s, s', w, p);
    HarmlessClaims(s, s');
    HarmlessKeepsCore(s, s');
  }

  /** The compare-exchange of the current task finds the task it saw, and that task is WAITING. */
  ghost predicate TakesWaiting(s: State)
    requires s.current in s.tasks && (Cur(s).pc.UnparkSeen? || Cur(s).pc.SwapSeen?)
  {
    StillThere(s, Cur(s).pc.w, Cur(s).pc.seen) ==> SlotWaiting(s, Cur(s).pc.w)
  }

  lemma LookKeepsInv(s: State, a: Action)
    requires Inv(s) && Sane(s) && Enabled(s, a) && Looks(a)
    ensures Inv(Next(s, a))
  {
    LookMoves(s, a);
    LookMoveKeepsInv(s, Next(s, a));
  }

  /** Looks at a slot or at a handle, or throws. */
  predicate Looks(a: Action) {
    LooksAtSlot(a) || a.EnterJoin? || a.EnterDetach? || a.JoinRefuse?
  }

  /** The load of `unpark` and `swap` and their test of the run state. */
  predicate LooksAtSlot(a: Action) {
    a.UnparkLook? || a.UnparkTest? || a.SwapLook? || a.SwapTest?
  }

  lemma LookMoves(s: State, a: Action)
    requires Sane(s) && Enabled(s, a) && Looks(a)
    ensures LookMove(s, Next(s, a))
    ensures
      var pc := Next(s, a).tasks[s.current].pc;
      Entered(pc).Some? ==> Entered(pc).value in s.handles
  {
    if LooksAtSlot(a) {
      SetCurLooks(s, Next(s, a).tasks[s.current].pc);
    } else if a.JoinRefuse? {
      SetCurLooks(s, Body);
    } else {
      SetCurLooks(s, if a.EnterJoin? then JoinEntered(a.h) else DetachEntered(a.h));
    }
  }

  lemma SetCurLooks(s: State, pc: Pc)
    requires Sane(s) && Looking(Cur(s).pc) && Looking(pc)
    ensures LookMove(s, SetCur(s, Cur(s).(pc := pc)))
  {}

  lemma TakeMoves(s: State, a: Action)
    requires Sane(s) && Enabled(s, a) && (a.UnparkTake? || a.SwapTake?) && TakesWaiting(s)
    ensures
      var w, p := Cur(s).pc.w, Cur(s).pc.seen;
      if StillThere(s, w, p) then TakeMove(s, Next(s, a), w, p)
      else LookMove(s, Next(s, a)) && Entered(Next(s, a).tasks[s.current].pc).None?
  {}

  lemma TakeKeepsInv(s: State, a: Action)
    requires Inv(s) && Sane(s) && Enabled(s, a) && (a.UnparkTake? || a.SwapTake?) && TakesWaiting(s)
    ensures Inv(Next(s, a))
  {
    var w, p := Cur(s).pc.w, Cur(s).pc.seen;
    TakeMoves(s, a);
    if StillThere(s, w, p) {
      TakeMoveKeepsInv(s, Next(s, a), w, p);
    } else {
      LookMoveKeepsInv(s, Next(s, a));
    }
  }

  /** `unpark` under the preempt lock, before `schedule`: the peer turns from WAITING to SUSPENDED. */
  ghost predicate LetGo(s: State, s': State, p: Tid) {
    && s.current in s.tasks && p in s.tasks && p != s.current
    && s.tasks[s.current].pc == Unparking(p) && s.tasks[s.current].run.Running?
    && s' == s.(tasks := s.tasks[s.current := s.tasks[s.current].(pc := Body)][p := s.tasks[p].(run := Suspended)])
  }

  lemma LetGoQueue(s: State, s': State, p: Tid)
    requires QueueExact(s) && OnlyCurrentRuns(s) && HoldersExact(s) && LetGo(s, s', p)
    ensures QueueLacks(s', p) && OnlyCurrentRuns(s')
  {
    assert HoldOk(s, s.current);
    SortedFrame(s.tasks, s'.tasks, s.rq);
    assert forall u :: u in s.tasks && u != p ==> Ready(s', u) == Ready(s, u);
  }

  /** Only the peer stops being held. */
  lemma LetGoHeld(s: State, s': State, p: Tid, t: Tid)
    requires LetGo(s, s', p) && Held(s, t) && t != p
    ensures Held(s', t)
  {
    var u :| u in s.tasks && Holds(s.tasks[u]) == Some(t);
    assert u != s.current && Holds(s'.tasks[u]) == Some(t);
  }

  lemma LetGoSlots(s: State, s': State, p: Tid)
    requires SlotsExact(s) && HoldersExact(s) && LetGo(s, s', p)
    ensures SlotsExact(s')
  {
    assert HoldOk(s, s.current);
    forall v | v in s'.slots ensures SlotOk(s', v) { assert SlotOk(s, v); }
    forall u | u in s.tasks ensures ParkOk(s', u) {
      assert ParkOk(s, u);
      if Held(s, u) && u != p { LetGoHeld(s, s', p, u); }
    }
  }

  lemma LetGoHolders(s: State, s': State, p: Tid)
    requires HoldersExact(s) && LetGo(s, s', p)
    ensures HoldersExact(s')
  {
    assert HoldOk(s, s.current);
    forall u | u in s.tasks ensures HoldOk(s', u) && (u != s.current ==> Holds(s'.tasks[u]) == Holds(s.tasks[u])) {
      assert HoldOk(s, u);
    }
  }

  lemma LetGoLife(s: State, s': State, p: Tid)
    requires LifeExact(s) && DeferredExact(s) && FlagsExact(s) && HoldersExact(s) && LetGo(s, s', p)
    ensures LifeExact(s') && DeferredExact(s') && FlagsExact(s')
  {
    assert HoldOk(s, s.current);
    forall u | u in s.tasks ensures TaskLife(s', u) && FlagExact(s', u) {
      assert TaskLife(s, u) && FlagExact(s, u);
    }
  }

  lemma LetGoJoin(s: State, s': State, p: Tid)
    requires JoinExact(s) && HoldersExact(s) && LetGo(s, s', p)
    ensures JoinExact(s')
  {
    assert HoldOk(s, s.current);
    forall u | u in s.tasks ensures JoinOk(s', u) { assert JoinOk(s, u); }
  }

  ghost function Freed(s: State): State
    requires Sane(s) && Cur(s).pc.Unparking?
  {
    var p := Cur(s).pc.peer;
    s.(tasks := s.tasks[s.current := Cur(s).(pc := Body)][p := s.tasks[p].(run := Suspended)])
  }

  lemma UnparkIsFreeThenSchedule(s: State)
    requires Sane(s) && Cur(s).pc.Unparking?
    ensures
      var p := Cur(s).pc.peer;
      && LetGo(s, Freed(s), p) && p in Freed(s).tasks && Known(Freed(s).tasks, Freed(s).rq)
      && Unparked(s) == Scheduled(Freed(s), p)
  {}

  lemma LetGoKeepsRest(s: State, s': State, p: Tid)
    requires Inv(s) && LetGo(s, s', p)
    ensures QueueLacks(s', p) && Rest(s')
  {
    LetGoQueue(s, s', p);
    LetGoSlots(s, s', p);
    LetGoHolders(s, s', p);
    LetGoLife(s, s', p);
    LetGoJoin(s, s', p);
    LetGoClaims(s, s', p);
    LetGoLogs(s, s', p);
  }

  lemma LetGoClaims(s: State, s': State, p: Tid)
    requires ClaimsExact(s) && HoldersExact(s) && LetGo(s, s', p)
    ensures ClaimsExact(s')
  {
    LetGoSameClaims(s, s', p);
    SameClaimsExact(s, s');
  }

  lemma LetGoSameClaims(s: State, s': State, p: Tid)
    requires LetGo(s, s', p) && HoldOk(s, s.current)
    ensures SameClaims(s, s')
  {}

  lemma LetGoLogs(s: State, s': State, p: Tid)
    requires SpareExact(s) && LogExact(s) && HoldersExact(s) && LetGo(s, s', p)
    ensures SpareExact(s') && LogExact(s')
  {
    assert HoldOk(s, s.current);
    LogsFrame(s, s');
  }

  lemma UnparkFinishKeepsInv(s: State, a: Action)
    requires Inv(s) && Sane(s) && Enabled(s, a) && a.UnparkFinish?
    ensures Inv(Next(s, a))
  {
    var p := Cur(s).pc.peer;
    UnparkIsFreeThenSchedule(s);
    LetGoKeepsRest(s, Freed(s), p);
    ScheduledKeepsCore(Freed(s), p);
  }

  /** `swap` under the preempt lock: the current task waits in its slot and the peer runs. */
  ghost predicate Swaps(s: State, s': State, w: Wid, p: Tid) {
    && s.current in s.tasks && p in s.tasks && p != s.current && s'.tasks.Keys == s.tasks.Keys
    && s.tasks[s.current].pc == Swapping(w, p) && s.tasks[s.current].run.Running?
    && s'.tasks[s.current] == s.tasks[s.current].(run := Waiting, pc := ParkWait(w), noPreempt := true,
                                                  vruntime := s'.tasks[s.current].vruntime)
    && s'.tasks[p] == s.tasks[p].(run := Running, noPreempt := false, started := true,
                                  pc := if s.tasks[p].pc.ParkWait? then Body else s.tasks[p].pc)
    && (forall u :: u in s.tasks && u != p && u != s.current ==> s'.tasks[u] == s.tasks[u])
    && s' == s.(tasks := s'.tasks, current := p, lastTick := s'.lastTick, charged := s'.charged)
  }

  lemma SwapsQueue(s: State, s': State, w: Wid, p: Tid)
    requires QueueExact(s) && OnlyCurrentRuns(s) && LifeExact(s) && HoldersExact(s) && Swaps(s, s', w, p)
    ensures QueueExact(s') && OnlyCurrentRuns(s')
  {
    assert HoldOk(s, s.current) && TaskLife(s, p);
    SortedFrame(s.tasks, s'.tasks, s.rq);
    assert forall u :: u in s.tasks && u != p && u != s.current ==> Ready(s', u) == Ready(s, u);
  }

  lemma SwapsHeld(s: State, s': State, w: Wid, p: Tid, t: Tid)
    requires Swaps(s, s', w, p) && Held(s, t) && t != p && s.tasks[p].pc.ParkWait?
    ensures Held(s', t)
  {
    var u :| u in s.tasks && Holds(s.tasks[u]) == Some(t);
    assert u != s.current && Holds(s'.tasks[u]) == Some(t);
  }

  lemma SwapsSlots(s: State, s': State, w: Wid, p: Tid)
    requires SlotsExact(s) && HoldersExact(s) && Swaps(s, s', w, p)
    ensures SlotsExact(s')
  {
    assert HoldOk(s, s.current);
    forall v | v in s'.slots ensures SlotOk(s', v) { SwapsSlot(s, s', w, p, v); }
    forall u | u in s.tasks ensures ParkOk(s', u) {
      if Held(s, u) && u != p { SwapsHeld(s, s', w, p, u); }
      SwapsParker(s, s', w, p, u);
    }
  }

  lemma SwapsSlot(s: State, s': State, w: Wid, p: Tid, v: Wid)
    requires Swaps(s, s', w, p) && HoldOk(s, s.current) && v in s.slots && SlotOk(s, v)
    ensures SlotOk(s', v)
  {}

  lemma SwapsParker(s: State, s': State, w: Wid, p: Tid, u: Tid)
    requires Swaps(s, s', w, p) && HoldOk(s, s.current) && u in s.tasks && ParkOk(s, u)
    requires u != p && Held(s, u) ==> Held(s', u)
    ensures ParkOk(s', u)
  {}

  lemma SwapsHolders(s: State, s': State, w: Wid, p: Tid)
    requires HoldersExact(s) && Swaps(s, s', w, p)
    ensures HoldersExact(s')
  {
    assert HoldOk(s, s.current);
    forall u | u in s.tasks
      ensures HoldOk(s', u) && (u != s.current ==> Holds(s'.tasks[u]) == Holds(s.tasks[u]))
    {
      assert HoldOk(s, u);
    }
  }

  lemma SwapsLife(s: State, s': State, w: Wid, p: Tid)
    requires LifeExact(s) && DeferredExact(s) && FlagsExact(s) && HoldersExact(s) && Swaps(s, s', w, p)
    ensures LifeExact(s') && DeferredExact(s') && FlagsExact(s')
  {
    assert HoldOk(s, s.current);
    forall u | u in s.tasks ensures TaskLife(s', u) && FlagExact(s', u) {
      assert TaskLife(s, u) && FlagExact(s, u);
    }
  }

  lemma SwapsJoin(s: State, s': State, w: Wid, p: Tid)
    requires JoinExact(s) && HoldersExact(s) && Swaps(s, s', w, p)
    ensures JoinExact(s')
  {
    assert HoldOk(s, s.current);
    forall u | u in s.tasks ensures JoinOk(s', u) { assert JoinOk(s, u); }
  }

  lemma SwapFinishSwaps(s: State, now: nat)
    requires Sane(s) && Enabled(s, SwapFinish(now))
    ensures Swaps(s, SwappedTo(s, now), Cur(s).pc.w, Cur(s).pc.peer)
  {}

  lemma SwapsKeepsInv(s: State, s': State, w: Wid, p: Tid)
    requires Inv(s) && Swaps(s, s', w, p)
    ensures Inv(s')
  {
    SwapsQueue(s, s', w, p);
    SwapsSlots(s, s', w, p);
    SwapsHolders(s, s', w, p);
    SwapsLife(s, s', w, p);
    SwapsJoin(s, s', w, p);
    SwapsClaims(s, s', w, p);
    SwapsLogs(s, s', w, p);
  }

  lemma SwapsClaims(s: State, s': State, w: Wid, p: Tid)
    requires ClaimsExact(s) && HoldersExact(s) && Swaps(s, s', w, p)
    ensures ClaimsExact(s')
  {
    SwapsSameClaims(s, s', w, p);
    SameClaimsExact(s, s');
  }

  lemma SwapsSameClaims(s: State, s': State, w: Wid, p: Tid)
    requires Swaps(s, s', w, p) && HoldOk(s, s.current)
    ensures SameClaims(s, s')
  {}

  lemma SwapsLogs(s: State, s': State, w: Wid, p: Tid)
    requires SpareExact(s) && LogExact(s) && HoldersExact(s) && Swaps(s, s', w, p)
    ensures SpareExact(s') && LogExact(s')
  {
    assert HoldOk(s, s.current);
    LogsFrame(s, s');
  }

  lemma SwapFinishKeepsInv(s: State, a: Action)
    requires Inv(s) && Sane(s) && Enabled(s, a) && a.SwapFinish?
    ensures Inv(Next(s, a))
  {
    SwapFinishSwaps(s, a.now1);
    SwapsKeepsInv(s, SwappedTo(s, a.now1), Cur(s).pc.w, Cur(s).pc.peer);
  }

  // ---------------------------------------------------------------- join, detach, exit

  /** No call of `join` or `detach` that has been through its locked part is using the handle. */
  ghost predicate Unclaimed(s: State, h: Handle) {
    forall t :: t in s.tasks ==> Claim(s.tasks[t].pc) != Some(h)
  }

  /** No other call stands between its null test and its locked part with this handle. */
  ghost predicate NobodyElseEntered(s: State, h: Handle) {
    forall t :: t in s.tasks && t != s.current ==> Entered(s.tasks[t].pc) != Some(h)
  }

  /** A handle that nobody is using names a task that has not been given back and that nobody is joining. */
  lemma UnclaimedIsLive(s: State, h: Handle)
    requires JoinExact(s) && ClaimsExact(s) && h in s.handles && Unclaimed(s, h)
    ensures Live(s, h) && s.tasks[h.t].joiner.None?
  {
    assert HandleOk(s, h);
    assert forall u :: u in s.tasks ==> Claim(s.tasks[u].pc) != Some(h);
    assert JoinOk(s, h.t);
  }

  /** `join` on a live task: it gets a joiner and the current task announces that it waits. */
  ghost predicate Blocks(s: State, s': State, h: Handle) {
    && s.current in s.tasks && h.t in s.tasks && s'.tasks.Keys == s.tasks.Keys
    && Cur(s).run.Running? && Cur(s).pc == JoinEntered(h) && s.tasks[h.t].joiner.None? && !s.tasks[h.t].run.Stopped?
    && (forall t :: t in s.tasks ==>
          s'.tasks[t] == s.tasks[t].(joiner := if t == h.t then Some(s.current) else s.tasks[t].joiner,
                                     run := if t == s.current then Waiting else s.tasks[t].run,
                                     pc := if t == s.current then JoinWait(h) else s.tasks[t].pc))
    && s' == s.(tasks := s'.tasks)
  }

  lemma BlocksQueue(s: State, s': State, h: Handle)
    requires QueueExact(s) && OnlyCurrentRuns(s) && Blocks(s, s', h)
    ensures QueueExact(s') && OnlyCurrentRuns(s')
  {
    SortedFrame(s.tasks, s'.tasks, s.rq);
    assert forall t :: t in s.tasks && t != s.current ==> Ready(s', t) == Ready(s, t);
  }

  lemma BlocksSlots(s: State, s': State, h: Handle)
    requires SlotsExact(s) && Blocks(s, s', h)
    ensures SlotsExact(s')
  {
    HeldFrame(s, s');
    forall v | v in s'.slots ensures SlotOk(s', v) { assert SlotOk(s, v); }
    forall t | t in s.tasks ensures ParkOk(s', t) { BlocksParker(s, s', h, t); }
  }

  lemma BlocksParker(s: State, s': State, h: Handle, t: Tid)
    requires Blocks(s, s', h) && t in s.tasks && ParkOk(s, t) && (Held(s, t) ==> Held(s', t))
    ensures ParkOk(s', t)
  {}

  lemma BlocksHolders(s: State, s': State, h: Handle)
    requires HoldersExact(s) && Blocks(s, s', h)
    ensures HoldersExact(s')
  {
    BlocksHoldNothingNew(s, s', h);
    HeldOnceFrame(s, s');
    forall t | t in s.tasks ensures HoldOk(s', t) { BlocksHolder(s, s', h, t); }
  }

  lemma BlocksHoldNothingNew(s: State, s': State, h: Handle)
    requires Blocks(s, s', h)
    ensures forall t :: t in s.tasks ==> Holds(s'.tasks[t]) == Holds(s.tasks[t])
  {}

  lemma BlocksHolder(s: State, s': State, h: Handle, t: Tid)
    requires Blocks(s, s', h) && t in s.tasks && HoldOk(s, t)
    ensures HoldOk(s', t)
  {}

  lemma BlocksJoin(s: State, s': State, h: Handle)
    requires JoinExact(s) && Live(s, h) && Blocks(s, s', h)
    ensures JoinExact(s')
  {
    forall t | t in s.tasks ensures JoinOk(s', t) { assert JoinOk(s, t); }
  }

  lemma BlocksLife(s: State, s': State, h: Handle)
    requires LifeExact(s) && DeferredExact(s) && FlagsExact(s) && Blocks(s, s', h)
    ensures LifeExact(s') && DeferredExact(s') && FlagsExact(s')
  {
    forall t | t in s.tasks ensures TaskLife(s', t) && FlagExact(s', t) {
      assert TaskLife(s, t) && FlagExact(s, t);
    }
  }

  lemma BlocksTail(s: State, s': State, h: Handle, t: Tid)
    requires Blocks(s, s', h) && t in s.tasks && TailOk(s, t) && EnteredOk(s, t)
    ensures TailOk(s', t) && EnteredOk(s', t)
  {}

  lemma BlocksHandle(s: State, s': State, h: Handle, g: Handle)
    requires Blocks(s, s', h) && HandleOk(s, g)
    ensures HandleOk(s', g)
  {
    if BeingCleared(s, g) {
      var u :| u in s.tasks && s.tasks[u].pc == Clearing(g);
      assert s'.tasks[u].pc == Clearing(g);
    }
  }

  lemma BlocksClaims(s: State, s': State, h: Handle)
    requires ClaimsExact(s) && Unclaimed(s, h) && Blocks(s, s', h)
    ensures ClaimsExact(s')
  {
    forall t | t in s.tasks ensures TailOk(s', t) && EnteredOk(s', t) { BlocksTail(s, s', h, t); }
    forall g | g in s.handles ensures HandleOk(s', g) { BlocksHandle(s, s', h, g); }
    assert forall t :: t in s.tasks && t != s.current ==> s'.tasks[t].pc == s.tasks[t].pc;
  }

  ghost function Announced(s: State, h: Handle): State
    requires s.current in s.tasks && h.t in s.tasks
  {
    Blocking(SetTask(s, h.t, s.tasks[h.t].(joiner := Some(s.current))), JoinWait(h))
  }

  lemma JoinBlocks(s: State, h: Handle, now1: nat, now2: nat)
    requires Sane(s) && Enabled(s, Join(h, now1, now2))
    ensures Blocks(s, Announced(s, h), h)
  {
    AnnouncedTasks(s, h);
  }

  lemma AnnouncedTasks(s: State, h: Handle)
    requires s.current in s.tasks && h.t in s.tasks
    ensures
      var s' := Announced(s, h);
      && s'.tasks.Keys == s.tasks.Keys && s' == s.(tasks := s'.tasks)
      && forall t :: t in s.tasks ==>
           s'.tasks[t] == s.tasks[t].(joiner := if t == h.t then Some(s.current) else s.tasks[t].joiner,
                                      run := if t == s.current then Waiting else s.tasks[t].run,
                                      pc := if t == s.current then JoinWait(h) else s.tasks[t].pc)
  {}

  lemma BlocksLogs(s: State, s': State, h: Handle)
    requires Blocks(s, s', h)
    ensures SameLogs(s, s')
  {}

  lemma BlocksKeepsCore(s: State, s': State, h: Handle)
    requires Inv(s) && Blocks(s, s', h) && h in s.handles && Unclaimed(s, h)
    ensures Core(s')
  {
    UnclaimedIsLive(s, h);
    BlocksQueue(s, s', h);
    BlocksSlots(s, s', h);
    BlocksHolders(s, s', h);
    BlocksJoin(s, s', h);
    BlocksClaims(s, s', h);
    BlocksLife(s, s', h);
    BlocksLogs(s, s', h);
    LogsFrame(s, s');
  }

  lemma JoinKeepsInv(s: State, a: Action)
    requires Inv(s) && Sane(s) && Enabled(s, a) && a.Join? && Unclaimed(s, a.h)
    ensures Inv(Next(s, a))
  {
    JoinBlocks(s, a.h, a.now1, a.now2);
    BlocksKeepsCore(s, Announced(s, a.h), a.h);
    RescheduledKeepsInv(Announced(s, a.h), a.now1, a.now2);
  }

  // -- the tails of join and detach

  /** The locked part of `join` or `detach` has found the task stopped. */
  ghost predicate TailMove(s: State, s': State, h: Handle) {
    && Harmless(s, s') && s'.slots == s.slots && Entered(Cur(s).pc) == Some(h) && s'.tasks[s.current].run.Running?
    && (s'.tasks[s.current].pc == JoinTail(h) || s'.tasks[s.current].pc == DetachTail(h))
    && h.t in s.tasks && s.tasks[h.t].run.Stopped?
  }

  lemma TailMoveSlots(s: State, s': State, h: Handle)
    requires SlotsExact(s) && TailMove(s, s', h)
    ensures SlotsExact(s')
  {
    HeldFrame(s, s');
    forall v | v in s'.slots ensures SlotOk(s', v) { assert SlotOk(s, v); }
    forall u | u in s.tasks ensures ParkOk(s', u) { assert ParkOk(s, u); }
  }

  lemma TailMoveHandle(s: State, s': State, h: Handle, g: Handle)
    requires TailMove(s, s', h) && HandleOk(s, g)
    ensures HandleOk(s', g)
  {
    if BeingCleared(s, g) {
      var u :| u in s.tasks && s.tasks[u].pc == Clearing(g);
      assert s'.tasks[u].pc == Clearing(g);
    }
  }

  lemma TailMoveClaims(s: State, s': State, h: Handle)
    requires ClaimsExact(s) && Unclaimed(s, h) && Live(s, h) && s.tasks[h.t].joiner.None? && TailMove(s, s', h)
    ensures ClaimsExact(s')
  {
    forall t | t in s.tasks ensures TailOk(s', t) && EnteredOk(s', t) { assert TailOk(s, t) && EnteredOk(s, t); }
    forall g | g in s.handles ensures HandleOk(s', g) { TailMoveHandle(s, s', h, g); }
    assert forall t :: t in s.tasks && t != s.current ==> s'.tasks[t].pc == s.tasks[t].pc;
  }

  lemma TailMoveKeepsInv(s: State, s': State, h: Handle)
    requires Inv(s) && h in s.handles && Unclaimed(s, h) && TailMove(s, s', h)
    ensures Inv(s')
  {
    UnclaimedIsLive(s, h);
    TailMoveSlots(s, s', h);
    TailMoveHolders(s, s', h);
    TailMoveClaims(s, s', h);
    HarmlessKeepsCore(s, s');
  }

  lemma TailMoveHolders(s: State, s': State, h: Handle)
    requires HoldersExact(s) && TailMove(s, s', h)
    ensures HoldersExact(s')
  {
    HarmlessHolders(s, s');
  }

  lemma JoinStoppedKeepsInv(s: State, a: Action)
    requires Inv(s) && Sane(s) && Enabled(s, a) && a.JoinStopped? && Unclaimed(s, a.h)
    ensures Inv(Next(s, a))
  {
    TailMoves(s, a);
    TailMoveKeepsInv(s, Next(s, a), a.h);
  }

  lemma TailMoves(s: State, a: Action)
    requires Sane(s) && Enabled(s, a) && (a.JoinStopped? || (a.Detach? && s.tasks[a.h.t].run.Stopped?))
    ensures TailMove(s, Next(s, a), a.h)
  {}

  /** In the tail of `join` or `detach` the task is stopped and waiting to be reclaimed by nobody else, and the
      handle is not null: the asserts there hold. */
  lemma TailFindsTargetStopped(s: State)
    requires Inv(s) && (Cur(s).pc.JoinWait? || Cur(s).pc.JoinTail? || Cur(s).pc.DetachTail?)
    ensures Live(s, Cur(s).pc.h) && Reclaimable(s, Cur(s).pc.h.t, Clearing(Cur(s).pc.h))
    ensures s.deferred != Some(Cur(s).pc.h.t)
  {
    assert JoinOk(s, s.current) && TailOk(s, s.current);
    assert TaskLife(s, Cur(s).pc.h.t);
  }

  lemma TailReturnRetires(s: State, h: Handle)
    requires Reclaimable(s, h.t, Clearing(h)) && h.n == s.tasks[h.t].spawns && s.deferred != Some(h.t)
    ensures Retires(s, TailReturned(s, h), h.t, Clearing(h))
  {}

  lemma JoinReturnRetires(s: State, h: Handle)
    requires s.current in s.tasks && h.t in s.tasks && Retires(s, TailReturned(s, h), h.t, Clearing(h))
    ensures Retires(s, JoinReturned(s, h), h.t, Clearing(h))
  {}

  lemma ReturnKeepsInv(s: State, a: Action)
    requires Inv(s) && Sane(s) && Enabled(s, a) && (a.JoinReturn? || a.DetachReturn?)
    ensures Inv(Next(s, a))
  {
    TailFindsTargetStopped(s);
    ReturnRetires(s, a);
    RetiresKeepsCore(s, Next(s, a), Cur(s).pc.h.t, Clearing(Cur(s).pc.h));
    ReturnKeepsRunning(s, a);
  }

  lemma ReturnIs(s: State, a: Action)
    requires Sane(s) && Enabled(s, a) && (a.JoinReturn? || a.DetachReturn?)
    ensures
      var h := Cur(s).pc.h;
      && Next(s, a) == (if a.JoinReturn? then JoinReturned(s, h) else TailReturned(s, h))
      && TailReturned(s, h).joins == s.joins && JoinReturned(s, h).joins == s.joins[h := s.tasks[h.t].value]
  {}

  lemma ReturnRetires(s: State, a: Action)
    requires Sane(s) && Enabled(s, a) && (a.JoinReturn? || a.DetachReturn?)
    requires
      var h := Cur(s).pc.h;
      Reclaimable(s, h.t, Clearing(h)) && h.n == s.tasks[h.t].spawns && s.deferred != Some(h.t)
    ensures
      var h := Cur(s).pc.h;
      && Retires(s, Next(s, a), h.t, Clearing(h))
      && (Next(s, a).joins == s.joins ||
          Next(s, a).joins == s.joins[Handle(h.t, s.tasks[h.t].spawns) := s.tasks[h.t].value])
  {
    var h := Cur(s).pc.h;
    ReturnIs(s, a);
    TailReturnRetires(s, h);
    if a.JoinReturn? { JoinReturnRetires(s, h); }
  }

  lemma ReturnKeepsRunning(s: State, a: Action)
    requires Sane(s) && Enabled(s, a) && (a.JoinReturn? || a.DetachReturn?) && Cur(s).pc.h.t != s.current
    ensures Next(s, a).current in Next(s, a).tasks && Cur(Next(s, a)).run.Running?
  {}

  /** The handle is nulled. */
  ghost predicate Clears(s: State, s': State, h: Handle) {
    && s.current in s.tasks && Cur(s).pc == Clearing(h) && Cur(s).run.Running?
    && s' == s.(tasks := s.tasks[s.current := Cur(s).(pc := Body)], handles := s.handles - {h})
  }

  lemma ClearsQueue(s: State, s': State, h: Handle)
    requires QueueExact(s) && OnlyCurrentRuns(s) && Clears(s, s', h)
    ensures QueueExact(s') && OnlyCurrentRuns(s')
  {
    SortedFrame(s.tasks, s'.tasks, s.rq);
    assert forall t :: t in s.tasks ==> Ready(s', t) == Ready(s, t);
  }

  lemma ClearsSlots(s: State, s': State, h: Handle)
    requires SlotsExact(s) && Clears(s, s', h)
    ensures SlotsExact(s')
  {
    HeldFrame(s, s');
    forall v | v in s'.slots ensures SlotOk(s', v) { assert SlotOk(s, v); }
    forall t | t in s.tasks ensures ParkOk(s', t) { assert ParkOk(s, t); }
  }

  /** Nobody else is using the handle that is nulled. */
  lemma ClearsOthers(s: State, s': State, h: Handle, t: Tid)
    requires ClaimedOnce(s) && Clears(s, s', h) && t in s.tasks && t != s.current
    ensures Claim(s.tasks[t].pc) != Some(h)
  {
    assert SameClaim(Cur(s).pc, s.tasks[t].pc) ==> s.current == t;
  }

  lemma ClearsJoin(s: State, s': State, h: Handle)
    requires JoinExact(s) && ClaimedOnce(s) && Clears(s, s', h)
    ensures JoinExact(s')
  {
    forall t | t in s.tasks ensures JoinOk(s', t) {
      assert JoinOk(s, t);
      if t != s.current { ClearsOthers(s, s', h, t); }
    }
  }

  lemma ClearsHandle(s: State, s': State, h: Handle, g: Handle)
    requires Clears(s, s', h) && HandleOk(s, g) && g != h
    ensures HandleOk(s', g)
  {
    if BeingCleared(s, g) {
      var u :| u in s.tasks && s.tasks[u].pc == Clearing(g);
      assert s'.tasks[u].pc == Clearing(g);
    }
  }

  lemma ClearsClaims(s: State, s': State, h: Handle)
    requires ClaimsExact(s) && Clears(s, s', h) && NobodyElseEntered(s, h)
    ensures ClaimsExact(s')
  {
    forall t | t in s.tasks ensures TailOk(s', t) && EnteredOk(s', t) {
      assert TailOk(s, t) && EnteredOk(s, t);
      if t != s.current { ClearsOthers(s, s', h, t); }
    }
    forall g | g in s'.handles ensures HandleOk(s', g) { ClearsHandle(s, s', h, g); }
    assert forall t :: t in s.tasks && t != s.current ==> s'.tasks[t].pc == s.tasks[t].pc;
  }

  lemma ClearsLife(s: State, s': State, h: Handle)
    requires LifeExact(s) && DeferredExact(s) && FlagsExact(s) && ClaimsExact(s) && Clears(s, s', h)
    ensures LifeExact(s') && DeferredExact(s') && FlagsExact(s')
  {
    assert TailOk(s, s.current);
    forall t | t in s.tasks ensures TaskLife(s', t) && FlagExact(s', t) {
      assert TaskLife(s, t) && FlagExact(s, t);
    }
  }

  lemma ClearsShape(s: State, s': State, h: Handle)
    requires Clears(s, s', h)
    ensures SameHolding(s, s') && SameLogs(s, s')
  {}

  lemma ClearKeepsInv(s: State, a: Action)
    requires Inv(s) && Sane(s) && Enabled(s, a) && a.Clear? && NobodyElseEntered(s, Cur(s).pc.h)
    ensures Inv(Next(s, a))
  {
    ClearClears(s, a);
    ClearsKeepsInv(s, Next(s, a), Cur(s).pc.h);
  }

  lemma ClearClears(s: State, a: Action)
    requires Sane(s) && Enabled(s, a) && a.Clear?
    ensures Clears(s, Next(s, a), Cur(s).pc.h)
  {}

  lemma ClearsKeepsInv(s: State, s': State, h: Handle)
    requires Inv(s) && Clears(s, s', h) && NobodyElseEntered(s, h)
    ensures Inv(s')
  {
    ClearsQueue(s, s', h);
    ClearsSlots(s, s', h);
    ClearsShape(s, s', h);
    SameHolders(s, s');
    ClearsJoin(s, s', h);
    ClearsClaims(s, s', h);
    ClearsLife(s, s', h);
    LogsFrame(s, s');
  }

  // -- detach

  /** `detach` on a live task. */
  ghost predicate Marks(s: State, s': State, h: Handle) {
    && s.current in s.tasks && h.t in s.tasks && !s.tasks[h.t].run.Stopped? && s'.tasks.Keys == s.tasks.Keys
    && Cur(s).pc == DetachEntered(h) && Cur(s).run.Running?
    && (forall t :: t in s.tasks ==> s'.tasks[t] == s.tasks[t].(detached := s.tasks[t].detached || t == h.t,
                                                               pc := if t == s.current then Body else s.tasks[t].pc))
    && s' == s.(tasks := s'.tasks, handles := s.handles - {h})
  }

  lemma MarksQueue(s: State, s': State, h: Handle)
    requires QueueExact(s) && OnlyCurrentRuns(s) && Marks(s, s', h)
    ensures QueueExact(s') && OnlyCurrentRuns(s')
  {
    SortedFrame(s.tasks, s'.tasks, s.rq);
    forall t | t in s.tasks ensures Ready(s', t) == Ready(s, t) { MarksReady(s, s', h, t); }
  }

  lemma MarksReady(s: State, s': State, h: Handle, t: Tid)
    requires Marks(s, s', h) && t in s.tasks
    ensures Ready(s', t) == Ready(s, t)
  {}

  lemma MarksSlots(s: State, s': State, h: Handle)
    requires SlotsExact(s) && Marks(s, s', h)
    ensures SlotsExact(s')
  {
    MarksShape(s, s', h);
    HeldFrame(s, s');
    forall v | v in s'.slots ensures SlotOk(s', v) { MarksSlot(s, s', h, v); }
    forall t | t in s.tasks ensures ParkOk(s', t) { MarksParker(s, s', h, t); }
  }

  lemma MarksSlot(s: State, s': State, h: Handle, v: Wid)
    requires Marks(s, s', h) && v in s.slots && SlotOk(s, v)
    ensures SlotOk(s', v)
  {}

  lemma MarksParker(s: State, s': State, h: Handle, t: Tid)
    requires Marks(s, s', h) && t in s.tasks && ParkOk(s, t) && (Held(s, t) ==> Held(s', t))
    ensures ParkOk(s', t)
  {}

  lemma MarksJoin(s: State, s': State, h: Handle)
    requires JoinExact(s) && Unclaimed(s, h) && Marks(s, s', h)
    ensures JoinExact(s')
  {
    forall t | t in s.tasks ensures JoinOk(s', t) { MarksJoiner(s, s', h, t); }
  }

  lemma MarksJoiner(s: State, s': State, h: Handle, t: Tid)
    requires Unclaimed(s, h) && Marks(s, s', h) && t in s.tasks && JoinOk(s, t)
    ensures JoinOk(s', t)
  {}

  lemma MarksHandle(s: State, s': State, h: Handle, g: Handle)
    requires Marks(s, s', h) && HandleOk(s, g) && g != h
    ensures HandleOk(s', g)
  {
    if BeingCleared(s, g) {
      MarksCleared(s, s', h, g);
    } else {
      MarksLive(s, s', h, g);
    }
  }

  lemma MarksCleared(s: State, s': State, h: Handle, g: Handle)
    requires Marks(s, s', h) && BeingCleared(s, g)
    ensures BeingCleared(s', g)
  {
    var u :| u in s.tasks && s.tasks[u].pc == Clearing(g);
    assert s'.tasks[u].pc == Clearing(g);
  }

  lemma MarksLive(s: State, s': State, h: Handle, g: Handle)
    requires Marks(s, s', h) && Live(s, g) && g != h
    ensures Live(s', g)
  {}

  lemma MarksTail(s: State, s': State, h: Handle, t: Tid)
    requires Unclaimed(s, h) && NobodyElseEntered(s, h) && Marks(s, s', h) && t in s.tasks
    requires TailOk(s, t) && EnteredOk(s, t)
    ensures TailOk(s', t) && EnteredOk(s', t)
  {}

  lemma MarksClaims(s: State, s': State, h: Handle)
    requires ClaimsExact(s) && Unclaimed(s, h) && NobodyElseEntered(s, h) && Marks(s, s', h)
    ensures ClaimsExact(s')
  {
    MarksClaimedOnce(s, s', h);
    forall t | t in s.tasks ensures TailOk(s', t) && EnteredOk(s', t) { MarksTail(s, s', h, t); }
    forall g | g in s'.handles ensures HandleOk(s', g) { MarksHandle(s, s', h, g); }
  }

  lemma MarksClaimedOnce(s: State, s': State, h: Handle)
    requires ClaimedOnce(s) && Marks(s, s', h)
    ensures ClaimedOnce(s')
  {
    assert forall t :: t in s.tasks ==> Claim(s'.tasks[t].pc) == Claim(s.tasks[t].pc);
  }

  lemma MarksLife(s: State, s': State, h: Handle)
    requires LifeExact(s) && DeferredExact(s) && FlagsExact(s) && Live(s, h) && Marks(s, s', h)
    ensures LifeExact(s') && DeferredExact(s') && FlagsExact(s')
  {
    forall t | t in s.tasks ensures TaskLife(s', t) && FlagExact(s', t) { MarksTaskLife(s, s', h, t); }
  }

  lemma MarksTaskLife(s: State, s': State, h: Handle, t: Tid)
    requires Live(s, h) && Marks(s, s', h) && t in s.tasks && TaskLife(s, t) && FlagExact(s, t)
    requires h.t in s.tasks && TaskLife(s, h.t)
    ensures TaskLife(s', t) && FlagExact(s', t)
  {}

  lemma MarksShape(s: State, s': State, h: Handle)
    requires Marks(s, s', h)
    ensures SameHolding(s, s') && SameLogs(s, s')
  {}

  lemma MarksKeepsInv(s: State, s': State, h: Handle)
    requires Inv(s) && h in s.handles && Unclaimed(s, h) && NobodyElseEntered(s, h) && Marks(s, s', h)
    ensures Inv(s')
  {
    UnclaimedIsLive(s, h);
    MarksQueue(s, s', h);
    MarksSlots(s, s', h);
    MarksShape(s, s', h);
    SameHolders(s, s');
    MarksJoin(s, s', h);
    MarksClaims(s, s', h);
    MarksLife(s, s', h);
    LogsFrame(s, s');
  }

  lemma DetachKeepsInv(s: State, a: Action)
    requires Inv(s) && Sane(s) && Enabled(s, a) && a.Detach? && Unclaimed(s, a.h)
    requires !s.tasks[a.h.t].run.Stopped? ==> NobodyElseEntered(s, a.h)
    ensures Inv(Next(s, a))
  {
    if s.tasks[a.h.t].run.Stopped? {
      TailMoves(s, a);
      TailMoveKeepsInv(s, Next(s, a), a.h);
    } else {
      DetachMarks(s, a);
      MarksKeepsInv(s, Next(s, a), a.h);
    }
  }

  lemma DetachMarks(s: State, a: Action)
    requires Sane(s) && Enabled(s, a) && a.Detach? && !s.tasks[a.h.t].run.Stopped?
    ensures Marks(s, Next(s, a), a.h)
  {}

  // -- exit

  /** `exit` before it schedules its joiner. */
  ghost predicate Stops(s: State, s': State, v: Val) {
    && s.current in s.tasks && Cur(s).run.Running? && Cur(s).pc.Body? && !Cur(s).host
    && s' == s.(tasks := s.tasks[s.current := Cur(s).(value := v, run := Stopped)],
                exits := s.exits[Handle(s.current, Cur(s).spawns) := v])
  }

  lemma StopsSlots(s: State, s': State, v: Val)
    requires SlotsExact(s) && HoldersExact(s) && Stops(s, s', v)
    ensures SlotsExact(s') && HoldersExact(s')
  {
    HeldFrame(s, s');
    HeldOnceFrame(s, s');
    forall w | w in s'.slots ensures SlotOk(s', w) { assert SlotOk(s, w); }
    forall t | t in s.tasks ensures ParkOk(s', t) && HoldOk(s', t) { assert ParkOk(s, t) && HoldOk(s, t); }
  }

  lemma StopsJoin(s: State, s': State, v: Val)
    requires JoinExact(s) && Stops(s, s', v)
    ensures JoinExact(s')
  {
    forall t | t in s.tasks ensures JoinOk(s', t) { assert JoinOk(s, t); }
  }

  lemma StopsLife(s: State, s': State, v: Val)
    requires OnlyCurrentRuns(s) && LifeExact(s) && DeferredExact(s) && FlagsExact(s) && SpareExact(s) && Stops(s, s', v)
    ensures OnlyCurrentRuns(s') && LifeExact(s') && DeferredExact(s') && FlagsExact(s') && SpareExact(s')
  {
    forall t | t in s.tasks ensures TaskLife(s', t) && FlagExact(s', t) {
      assert TaskLife(s, t) && FlagExact(s, t);
    }
    forall i | 0 <= i < |s.spare| ensures SpareOk(s', i) { assert SpareOk(s, i); }
  }

  lemma StopsLog(s: State, s': State, v: Val)
    requires LogExact(s) && Stops(s, s', v)
    ensures LogExact(s')
  {
    assert Handle(s.current, Cur(s).spawns) !in s.exits;
  }

  lemma StopsQueue(s: State, s': State, v: Val)
    requires OnlyCurrentRuns(s) && QueueExact(s) && JoinExact(s) && Stops(s, s', v)
    ensures Cur(s).joiner.None? ==> QueueExact(s')
    ensures Cur(s).joiner.Some? ==> QueueLacks(s', Cur(s).joiner.value)
  {
    SortedFrame(s.tasks, s'.tasks, s.rq);
    assert JoinOk(s, s.current);
    forall t | t in s.tasks && t != s.current
      ensures Ready(s', t) <==> Ready(s, t) || Cur(s).joiner == Some(t)
      ensures Cur(s).joiner == Some(t) ==> !Ready(s, t)
    {
      assert JoinOk(s, t);
    }
  }

  lemma ExitingKeepsCore(s: State, v: Val)
    requires Inv(s) && Cur(s).pc.Body? && !Cur(s).host
    requires Cur(s).joiner.Some? ==> Cur(s).joiner.value in s.tasks
    ensures Core(Exiting(s, v))
  {
    var s1 := SetCur(s, Cur(s).(value := v, run := Stopped)).(exits := s.exits[Handle(s.current, Cur(s).spawns) := v]);
    StopsSlots(s, s1, v);
    StopsJoin(s, s1, v);
    SameClaimsExact(s, s1);
    StopsLife(s, s1, v);
    StopsLog(s, s1, v);
    StopsQueue(s, s1, v);
    if Cur(s).joiner.Some? { ScheduledKeepsCore(s1, Cur(s).joiner.value); }
  }

  lemma ExitKeepsInv(s: State, a: Action)
    requires Inv(s) && Sane(s) && Enabled(s, a) && a.Exit?
    ensures Inv(Next(s, a))
  {
    ExitingKeepsCore(s, a.value);
    ExitReschedules(s, a);
    RescheduledKeepsInv(Exiting(s, a.value), a.now1, a.now2);
  }

  lemma ExitReschedules(s: State, a: Action)
    requires Sane(s) && Enabled(s, a) && a.Exit?
    ensures CanReschedule(Exiting(s, a.value)) && Next(s, a) == Rescheduled(Exiting(s, a.value), a.now1, a.now2)
  {}

  // ---------------------------------------------------------------- spawn

  /** A new or reused task object, reset and started but not yet scheduled. */
  ghost predicate Births(s: State, s': State, t: Tid, k: Task) {
    && s.current in s.tasks && t != s.current && Cur(s).run.Running? && Cur(s).pc.Body?
    && k.run == Suspended && k.pc == Nascent && k.joiner.None? && !k.detached && !k.host && !k.started && !k.noPreempt
    && k.Outstanding()
    && s' == s.(tasks := s.tasks[t := k][s.current := Cur(s).(pc := Spawning(t))], spare := s'.spare)
    && (t in s.tasks ==> k.spawns == s.tasks[t].spawns + 1 && k.reclaims == s.tasks[t].reclaims)
  }

  /** Either way the object is new to the rest of the system. */
  ghost predicate Unnoticed(s: State, t: Tid) {
    t in s.tasks ==>
      && s.tasks[t].run.Stopped? && !s.tasks[t].Outstanding() && s.tasks[t].pc == Body && t != s.current
      && t !in s.destroyed
  }

  /** A spare object is stopped, at rest, and known to nobody. */
  lemma SpareIsIdle(s: State, t: Tid)
    requires LifeExact(s) && SpareExact(s) && SlotsExact(s) && OnlyCurrentRuns(s) && t in s.tasks && t in Ids(s.spare)
    ensures s.tasks[t].run.Stopped? && !s.tasks[t].Outstanding() && s.tasks[t].pc == Body && t != s.current
    ensures t !in s.destroyed
  {
    assert TaskLife(s, t) && ParkOk(s, t);
  }

  lemma BirthsQueue(s: State, s': State, t: Tid, k: Task)
    requires OnlyCurrentRuns(s) && QueueExact(s) && JoinExact(s) && Births(s, s', t, k) && Unnoticed(s, t)
    ensures QueueExact(s') && OnlyCurrentRuns(s')
  {
    assert t !in s.rq;
    SortedFrame(s.tasks, s'.tasks, s.rq);
    forall u | u in s.tasks && u != t ensures Ready(s', u) == Ready(s, u) { assert JoinOk(s, u); }
  }

  lemma BirthsHeld(s: State, s': State, t: Tid, k: Task)
    requires Births(s, s', t, k) && Unnoticed(s, t)
    ensures Held(s', t) && forall u :: Held(s, u) ==> Held(s', u)
  {
    assert Holds(s'.tasks[s.current]) == Some(t);
    forall u: Tid | Held(s, u) ensures Held(s', u) {
      var v :| v in s.tasks && Holds(s.tasks[v]) == Some(u);
      assert v != t && v != s.current && Holds(s'.tasks[v]) == Some(u);
    }
  }

  lemma BirthsSlots(s: State, s': State, t: Tid, k: Task)
    requires SlotsExact(s) && Births(s, s', t, k) && Unnoticed(s, t)
    ensures SlotsExact(s')
  {
    BirthsHeld(s, s', t, k);
    forall w | w in s'.slots ensures SlotOk(s', w) { assert SlotOk(s, w); }
    forall u | u in s'.tasks ensures ParkOk(s', u) { assert u in s.tasks ==> ParkOk(s, u); }
  }

  /** Nobody holds an object that nobody knows. */
  lemma UnnoticedIsUnheld(s: State, t: Tid, u: Tid)
    requires Unnoticed(s, t) && u in s.tasks && HoldOk(s, u)
    ensures Holds(s.tasks[u]) != Some(t)
  {}

  lemma BirthsHolder(s: State, s': State, t: Tid, k: Task, u: Tid)
    requires Births(s, s', t, k) && Unnoticed(s, t) && u in s'.tasks && (u in s.tasks ==> HoldOk(s, u))
    ensures HoldOk(s', u)
  {}

  lemma BirthsHolders(s: State, s': State, t: Tid, k: Task)
    requires HoldersExact(s) && Births(s, s', t, k) && Unnoticed(s, t)
    ensures HoldersExact(s')
  {
    forall u | u in s'.tasks
      ensures HoldOk(s', u) && (u != s.current ==> Holds(s'.tasks[u]) != Some(t))
      ensures u != s.current && u != t ==> u in s.tasks && s'.tasks[u] == s.tasks[u]
    {
      BirthsHolder(s, s', t, k, u);
      if u in s.tasks { UnnoticedIsUnheld(s, t, u); }
    }
  }

  lemma BirthsJoin(s: State, s': State, t: Tid, k: Task)
    requires JoinExact(s) && Births(s, s', t, k) && Unnoticed(s, t)
    ensures JoinExact(s')
  {
    forall u | u in s'.tasks ensures JoinOk(s', u) { assert u in s.tasks ==> JoinOk(s, u); }
  }

  lemma BirthsHandle(s: State, s': State, t: Tid, k: Task, h: Handle)
    requires Births(s, s', t, k) && Unnoticed(s, t) && HandleOk(s, h)
    ensures HandleOk(s', h)
  {
    if BeingCleared(s, h) {
      var u :| u in s.tasks && s.tasks[u].pc == Clearing(h);
      assert s'.tasks[u].pc == Clearing(h);
    }
  }

  lemma BirthsTail(s: State, s': State, t: Tid, k: Task, u: Tid)
    requires Births(s, s', t, k) && Unnoticed(s, t) && u in s'.tasks
    requires u in s.tasks ==> TailOk(s, u) && EnteredOk(s, u)
    ensures TailOk(s', u) && EnteredOk(s', u)
  {}

  lemma BirthsClaims(s: State, s': State, t: Tid, k: Task)
    requires ClaimsExact(s) && Births(s, s', t, k) && Unnoticed(s, t)
    ensures ClaimsExact(s')
  {
    forall u | u in s'.tasks ensures TailOk(s', u) && EnteredOk(s', u) { BirthsTail(s, s', t, k, u); }
    forall h | h in s.handles ensures HandleOk(s', h) { BirthsHandle(s, s', t, k, h); }
    assert forall u :: u in s'.tasks && u != s.current && u != t ==> u in s.tasks && s'.tasks[u] == s.tasks[u];
  }

  lemma BirthsLife(s: State, s': State, t: Tid, k: Task)
    requires LifeExact(s) && ClaimsExact(s) && Births(s, s', t, k) && Unnoticed(s, t)
    ensures LifeExact(s')
  {
    assert Handle(t, k.spawns) in s.handles ==> HandleOk(s, Handle(t, k.spawns));
    forall u | u in s'.tasks ensures TaskLife(s', u) { assert u in s.tasks ==> TaskLife(s, u); }
  }

  lemma BirthsFlags(s: State, s': State, t: Tid, k: Task)
    requires DeferredExact(s) && FlagsExact(s) && Births(s, s', t, k) && Unnoticed(s, t)
    ensures DeferredExact(s') && FlagsExact(s')
  {
    forall u | u in s'.tasks ensures FlagExact(s', u) { assert u in s.tasks ==> FlagExact(s, u); }
  }

  lemma BirthsLog(s: State, s': State, t: Tid, k: Task)
    requires LogExact(s) && Births(s, s', t, k) && Unnoticed(s, t)
    ensures LogExact(s')
  {
    forall h | h in s.exits ensures ExitLogged(s', h) { assert ExitLogged(s, h); }
    forall h | h in s.joins ensures JoinLogged(s', h) { assert JoinLogged(s, h); }
  }

  lemma NewObjectSpare(s: State, s': State, t: Tid, k: Task)
    requires SpareExact(s) && Births(s, s', t, k) && t !in s.tasks && s'.spare == s.spare
    ensures SpareExact(s')
  {
    forall i | 0 <= i < |s.spare| ensures SpareOk(s', i) && s.spare[i].id != t { assert SpareOk(s, i); }
  }

  lemma ReusedObjectSpare(s: State, s': State, t: Tid, k: Task, i: nat)
    requires SpareExact(s) && Births(s, s', t, k) && t in s.tasks && k.size == s.tasks[t].size
    requires k.tls == s.tasks[t].tls
    requires i < |s.spare| && s.spare[i].id == t && s'.spare == Without(s.spare, i) && t !in s.destroyed
    ensures SpareExact(s')
  {
    RemoveKeepsOrder(s.spare, i);
    RemoveContents(s.spare, i);
    forall j | 0 <= j < |s'.spare| ensures SpareOk(s', j) {
      var j' := if j < i then j else j + 1;
      assert s'.spare[j] == s.spare[j'] && SpareOk(s, j');
    }
    assert forall u :: u in s.tasks && u != t ==> s'.tasks[u].Outstanding() == s.tasks[u].Outstanding();
  }

  lemma BirthsKeepsInv(s: State, s': State, t: Tid, k: Task)
    requires Inv(s) && Births(s, s', t, k) && Unnoticed(s, t) && SpareExact(s')
    ensures Inv(s')
  {
    BirthsQueue(s, s', t, k);
    BirthsSlots(s, s', t, k);
    BirthsHolders(s, s', t, k);
    BirthsJoin(s, s', t, k);
    BirthsClaims(s, s', t, k);
    BirthsLife(s, s', t, k);
    BirthsFlags(s, s', t, k);
    BirthsLog(s, s', t, k);
  }

  lemma SpareIsUnnoticed(s: State, i: nat)
    requires Inv(s) && i < |s.spare|
    ensures
      var t := s.spare[i].id;
      && t in s.tasks && t in Ids(s.spare) && t != s.current && Unnoticed(s, t)
      && s.tasks[t].spawns == s.tasks[t].reclaims
  {
    var t := s.spare[i].id;
    assert SpareOk(s, i) && t in Ids(s.spare) && TaskLife(s, t);
    SpareIsIdle(s, t);
  }

  lemma MadeReuses(s: State, a: Attr, addr: Tid, total: nat)
    requires Inv(s) && Sane(s) && Enabled(s, SpawnMake(a, addr, total)) && FindFrom(s.spare, a, 0) < |s.spare|
    ensures Inv(Made(s, a, addr, total))
  {
    var i := FindFrom(s.spare, a, 0);
    var t := s.spare[i].id;
    SpareIsUnnoticed(s, i);
    var k := NewTask(s.tasks[t].size, s.tasks[t].tls, s.tasks[t].spawns, s.tasks[t].reclaims);
    ReusedObjectSpare(s, Made(s, a, addr, total), t, k, i);
    BirthsKeepsInv(s, Made(s, a, addr, total), t, k);
  }

  lemma MadeCreates(s: State, a: Attr, addr: Tid, total: nat)
    requires Inv(s) && Sane(s) && Enabled(s, SpawnMake(a, addr, total)) && FindFrom(s.spare, a, 0) == |s.spare|
    ensures Inv(Made(s, a, addr, total))
  {
    var k := NewTask(total, a.tls, 0, 0);
    NewObjectSpare(s, Made(s, a, addr, total), addr, k);
    BirthsKeepsInv(s, Made(s, a, addr, total), addr, k);
  }

  /** `spawn` under the preempt lock, before `schedule`: the new task becomes one like any other. */
  ghost predicate Hatches(s: State, s': State, t: Tid) {
    && s.current in s.tasks && t in s.tasks && t != s.current
    && Cur(s).pc == Spawning(t) && Cur(s).run.Running?
    && s' == s.(tasks := s.tasks[s.current := Cur(s).(pc := Body)][t := s.tasks[t].(pc := Body)],
                handles := s.handles + {Handle(t, s.tasks[t].spawns)})
  }

  /** What the spawning task knows about the task it has made. */
  lemma MadeTaskIsNascent(s: State)
    requires SlotsExact(s) && HoldersExact(s) && LifeExact(s) && s.current in s.tasks && Cur(s).pc.Spawning?
    ensures
      var t := Cur(s).pc.made;
      && t in s.tasks && t != s.current && s.tasks[t].pc.Nascent? && s.tasks[t].run.Suspended?
      && s.tasks[t].Outstanding()
  {
    var t := Cur(s).pc.made;
    assert HoldOk(s, s.current);
    assert ParkOk(s, t) && TaskLife(s, t);
  }

  lemma HatchesQueue(s: State, s': State, t: Tid)
    requires QueueExact(s) && OnlyCurrentRuns(s) && Hatches(s, s', t)
    requires s.tasks[t].pc.Nascent? && s.tasks[t].run.Suspended?
    ensures QueueLacks(s', t) && OnlyCurrentRuns(s')
  {
    SortedFrame(s.tasks, s'.tasks, s.rq);
    assert forall u :: u in s.tasks && u != t ==> Ready(s', u) == Ready(s, u);
  }

  /** Only the new task stops being held. */
  lemma HatchesHeld(s: State, s': State, t: Tid, u: Tid)
    requires Hatches(s, s', t) && s.tasks[t].pc.Nascent? && Held(s, u) && u != t
    ensures Held(s', u)
  {
    var v :| v in s.tasks && Holds(s.tasks[v]) == Some(u);
    assert v != s.current && v != t && Holds(s'.tasks[v]) == Some(u);
  }

  lemma HatchesSlots(s: State, s': State, t: Tid)
    requires SlotsExact(s) && Hatches(s, s', t) && s.tasks[t].pc.Nascent?
    ensures SlotsExact(s')
  {
    forall v | v in s'.slots ensures SlotOk(s', v) { assert SlotOk(s, v); }
    forall u | u in s.tasks ensures ParkOk(s', u) {
      assert ParkOk(s, u);
      if Held(s, u) && u != t { HatchesHeld(s, s', t, u); }
    }
  }

  lemma HatchesHolders(s: State, s': State, t: Tid)
    requires HoldersExact(s) && Hatches(s, s', t) && s.tasks[t].pc.Nascent?
    ensures HoldersExact(s')
  {
    forall u | u in s.tasks
      ensures HoldOk(s', u) && (u != s.current ==> Holds(s'.tasks[u]) == Holds(s.tasks[u]))
    {
      assert HoldOk(s, u);
    }
  }

  lemma HatchesJoin(s: State, s': State, t: Tid)
    requires JoinExact(s) && Hatches(s, s', t) && s.tasks[t].pc.Nascent?
    ensures JoinExact(s')
  {
    forall u | u in s.tasks ensures JoinOk(s', u) { assert JoinOk(s, u); }
  }

  lemma HatchesHandle(s: State, s': State, t: Tid, h: Handle)
    requires Hatches(s, s', t) && s.tasks[t].pc.Nascent? && s.tasks[t].Outstanding() && h in s'.handles
    requires h in s.handles ==> HandleOk(s, h)
    ensures HandleOk(s', h)
  {
    if h in s.handles && BeingCleared(s, h) {
      var u :| u in s.tasks && s.tasks[u].pc == Clearing(h);
      assert s'.tasks[u].pc == Clearing(h);
    }
  }

  lemma HatchesTail(s: State, s': State, t: Tid, u: Tid)
    requires Hatches(s, s', t) && s.tasks[t].pc.Nascent? && u in s.tasks && TailOk(s, u) && EnteredOk(s, u)
    ensures TailOk(s', u) && EnteredOk(s', u)
  {}

  lemma HatchesClaims(s: State, s': State, t: Tid)
    requires ClaimsExact(s) && Hatches(s, s', t) && s.tasks[t].pc.Nascent? && s.tasks[t].Outstanding()
    ensures ClaimsExact(s')
  {
    forall u | u in s.tasks ensures TailOk(s', u) && EnteredOk(s', u) { HatchesTail(s, s', t, u); }
    forall h | h in s'.handles ensures HandleOk(s', h) { HatchesHandle(s, s', t, h); }
    assert forall u :: u in s.tasks ==> Claim(s'.tasks[u].pc) == Claim(s.tasks[u].pc);
  }

  lemma HatchesLife(s: State, s': State, t: Tid)
    requires LifeExact(s) && DeferredExact(s) && FlagsExact(s) && Hatches(s, s', t)
    requires s.tasks[t].pc.Nascent? && s.tasks[t].Outstanding() && !s.tasks[t].host && !s.tasks[t].detached
    ensures LifeExact(s') && DeferredExact(s') && FlagsExact(s')
  {
    forall u | u in s.tasks ensures TaskLife(s', u) && FlagExact(s', u) {
      assert TaskLife(s, u) && FlagExact(s, u);
    }
  }

  ghost function Hatched(s: State): State
    requires Sane(s) && Cur(s).pc.Spawning?
  {
    var t := Cur(s).pc.made;
    s.(tasks := s.tasks[s.current := Cur(s).(pc := Body)][t := s.tasks[t].(pc := Body)],
       handles := s.handles + {Handle(t, s.tasks[t].spawns)})
  }

  lemma SpawnIsHatchThenSchedule(s: State)
    requires Sane(s) && Cur(s).pc.Spawning?
    ensures
      var t := Cur(s).pc.made;
      && Hatches(s, Hatched(s), t) && t in Hatched(s).tasks && Known(Hatched(s).tasks, Hatched(s).rq)
      && Spawned(s) == Scheduled(Hatched(s), t)
  {}

  lemma HatchesLogs(s: State, s': State, t: Tid)
    requires Hatches(s, s', t)
    ensures SameLogs(s, s')
  {}

  lemma HatchesKeepsRest(s: State, s': State, t: Tid)
    requires Inv(s) && Hatches(s, s', t)
    ensures QueueLacks(s', t) && Rest(s')
  {
    MadeTaskIsNascent(s);
    assert TaskLife(s, t);
    HatchesQueue(s, s', t);
    HatchesSlots(s, s', t);
    HatchesHolders(s, s', t);
    HatchesJoin(s, s', t);
    HatchesClaims(s, s', t);
    HatchesLife(s, s', t);
    HatchesLogs(s, s', t);
    LogsFrame(s, s');
  }

  lemma SpawnFinishKeepsInv(s: State, a: Action)
    requires Inv(s) && Sane(s) && Enabled(s, a) && a.SpawnFinish?
    ensures Inv(Next(s, a))
  {
    var t := Cur(s).pc.made;
    SpawnIsHatchThenSchedule(s);
    HatchesKeepsRest(s, Hatched(s), t);
    ScheduledKeepsCore(Hatched(s), t);
  }

  lemma SpawnMakeKeepsInv(s: State, a: Action)
    requires Inv(s) && Sane(s) && Enabled(s, a) && a.SpawnMake?
    ensures Inv(Next(s, a))
  {
    if FindFrom(s.spare, a.attr, 0) < |s.spare| {
      MadeReuses(s, a.attr, a.addr, a.total);
    } else {
      MadeCreates(s, a.attr, a.addr, a.total);
    }
  }

  // ---------------------------------------------------------------- every run

  /** The locked parts of `join` and `detach`. */
  predicate Claims(a: Action) {
    a.Join? || a.JoinStopped? || a.Detach?
  }

  /** Nulls the handle that the current call is using. */
  predicate Nulls(s: State, a: Action)
    requires Sane(s) && Enabled(s, a)
  {
    a.Clear? || (a.Detach? && !s.tasks[a.h.t].run.Stopped?)
  }

  /** What every step needs: the locked part of `join` or `detach` finds the handle used by no call that has been
      through its own, a handle is nulled only if no call is about to use it, and the compare-exchange of `unpark`
      and `swap` does not take a task that has been woken and is on its way back into the slot. */
  ghost predicate Proper(s: State, a: Action)
    requires Sane(s) && Enabled(s, a)
  {
    && (Claims(a) ==> Unclaimed(s, a.h))
    && (Nulls(s, a) ==> NobodyElseEntered(s, Cur(s).pc.h))
    && (a.UnparkTake? || a.SwapTake? ==> TakesWaiting(s))
  }

  predicate OfPark(a: Action) {
    a.ParkClaim? || a.ParkAbort? || a.ParkCommit?
  }

  predicate OfWake(a: Action) {
    LooksAtSlot(a) || a.UnparkTake? || a.UnparkFinish? || a.SwapTake? || a.SwapFinish?
  }

  lemma ParkStepKeepsInv(s: State, a: Action)
    requires Inv(s) && Sane(s) && Enabled(s, a) && OfPark(a)
    ensures Inv(Next(s, a))
  {
    if a.ParkClaim? {
      ParkClaimKeepsInv(s, a);
    } else if a.ParkAbort? {
      ParkAbortKeepsInv(s, a);
    } else {
      ParkCommitKeepsInv(s, a);
    }
  }

  lemma WakeStepKeepsInv(s: State, a: Action)
    requires Inv(s) && Sane(s) && Enabled(s, a) && OfWake(a)
    requires a.UnparkTake? || a.SwapTake? ==> TakesWaiting(s)
    ensures Inv(Next(s, a))
  {
    if LooksAtSlot(a) {
      LookKeepsInv(s, a);
    } else if a.UnparkTake? || a.SwapTake? {
      TakeKeepsInv(s, a);
    } else if a.UnparkFinish? {
      UnparkFinishKeepsInv(s, a);
    } else {
      SwapFinishKeepsInv(s, a);
    }
  }

  predicate OfTail(a: Action) {
    a.JoinReturn? || a.DetachReturn? || a.Clear?
  }

  lemma ClaimStepKeepsInv(s: State, a: Action)
    requires Inv(s) && Sane(s) && Enabled(s, a) && Claims(a) && Unclaimed(s, a.h)
    requires Nulls(s, a) ==> NobodyElseEntered(s, a.h)
    ensures Inv(Next(s, a))
  {
    if a.Join? {
      JoinKeepsInv(s, a);
    } else if a.JoinStopped? {
      JoinStoppedKeepsInv(s, a);
    } else {
      DetachKeepsInv(s, a);
    }
  }

  lemma TailStepKeepsInv(s: State, a: Action)
    requires Inv(s) && Sane(s) && Enabled(s, a) && OfTail(a) && (a.Clear? ==> NobodyElseEntered(s, Cur(s).pc.h))
    ensures Inv(Next(s, a))
  {
    if a.Clear? {
      ClearKeepsInv(s, a);
    } else {
      ReturnKeepsInv(s, a);
    }
  }

  predicate OfItself(a: Action) {
    a.Yield? || a.SpawnMake? || a.SpawnFinish? || a.Exit?
  }

  lemma OwnStepKeepsInv(s: State, a: Action)
    requires Inv(s) && Sane(s) && Enabled(s, a) && OfItself(a)
    ensures Inv(Next(s, a))
  {
    if a.Yield? {
      RescheduledKeepsInv(s, a.now1, a.now2);
    } else if a.SpawnMake? {
      SpawnMakeKeepsInv(s, a);
    } else if a.SpawnFinish? {
      SpawnFinishKeepsInv(s, a);
    } else {
      ExitKeepsInv(s, a);
    }
  }

  /** An exchange that follows the test at once cannot go wrong. */
  lemma TestThenTakeIsProper(s: State, a: Action)
    requires Sane(s) && Enabled(s, a) && (a.UnparkTest? || a.SwapTest?) && IsWaiting(s, Cur(s).pc.seen)
    ensures
      var s1 := Next(s, a);
      s1.current in s1.tasks && (Cur(s1).pc.UnparkSeen? || Cur(s1).pc.SwapSeen?) && TakesWaiting(s1)
  {}

  lemma StepKeepsInv(s: State, a: Action)
    requires Inv(s) && Sane(s) && Enabled(s, a) && Proper(s, a)
    ensures Inv(Next(s, a))
  {
    if OfPark(a) {
      ParkStepKeepsInv(s, a);
    } else if OfWake(a) {
      WakeStepKeepsInv(s, a);
    } else if Looks(a) {
      LookKeepsInv(s, a);
    } else if Claims(a) {
      ClaimStepKeepsInv(s, a);
    } else if OfTail(a) {
      TailStepKeepsInv(s, a);
    } else {
      OwnStepKeepsInv(s, a);
    }
  }
}
