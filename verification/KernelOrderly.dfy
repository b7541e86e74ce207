/** A rule that a program can follow without knowing the scheduler's state, and under which every step is proper. */
module KernelOrderly {
  import opened Options
  import opened Freelist
  import opened Kernel
  import opened KernelInv
  import opened KernelSteps
  import opened KernelRuns
  import opened KernelTimes
  import opened KernelExact

  // ---------------------------------------------------------------- a rule that programs can follow

  /** The handle that a call of `join` or `detach` is using, from its null test on. */
  ghost function Uses(pc: Pc): Option<Handle> {
    if Entered(pc).Some? then Entered(pc) else Claim(pc)
  }

  /** The waiter at which a call of `unpark` or `swap` stands between its load and its exchange. */
  ghost function Sees(pc: Pc): Option<Wid> {
    match pc
    case UnparkLoaded(w, _) => Some(w)
    case SwapLoaded(w, _) => Some(w)
    case UnparkSeen(w, _) => Some(w)
    case SwapSeen(w, _) => Some(w)
    case _ => None
  }

  ghost predicate Unused(s: State, h: Handle) {
    forall t :: t in s.tasks ==> Uses(s.tasks[t].pc) != Some(h)
  }

  ghost predicate Unseen(s: State, w: Wid) {
    forall t :: t in s.tasks ==> Sees(s.tasks[t].pc) != Some(w)
  }

  /** A call of `join` or `detach` begins with a handle that no call in progress is using. */
  ghost predicate EntersAlone(s: State, a: Action) {
    a.EnterJoin? || a.EnterDetach? ==> Unused(s, a.h)
  }

  /** A program is orderly if it calls `join` or `detach` on a handle, and `unpark` or `swap` on a waiter, only while
      no other such call on the same handle or waiter is under way, and the check of a `park_if` fails only while no
      call of `unpark` or `swap` on that waiter is.  The check of `park` never fails. */
  ghost predicate Orderly(s: State, a: Action)
    requires Can(s, a)
  {
    && EntersAlone(s, a)
    && (a.UnparkLook? || a.SwapLook? ==> Unseen(s, a.w))
    && (a.ParkAbort? ==> Unseen(s, Cur(s).pc.w))
  }

  /** No two calls use the same handle or stand at the same waiter, and what was seen there is still there. */
  ghost predicate Tidy(s: State) {
    UsedOnce(s) && SeenOnce(s) && forall t :: t in s.tasks ==> SightOk(s, t)
  }

  ghost predicate UsedOnce(s: State) {
    forall t, u :: t in s.tasks && u in s.tasks && SameUse(s.tasks[t].pc, s.tasks[u].pc) ==> t == u
  }

  ghost predicate SeenOnce(s: State) {
    forall t, u :: t in s.tasks && u in s.tasks && SameSight(s.tasks[t].pc, s.tasks[u].pc) ==> t == u
  }

  ghost predicate SameUse(pc: Pc, pc': Pc) {
    Uses(pc).Some? && Uses(pc) == Uses(pc')
  }

  ghost predicate SameSight(pc: Pc, pc': Pc) {
    Sees(pc).Some? && Sees(pc) == Sees(pc')
  }

  ghost predicate SightOk(s: State, t: Tid)
    requires t in s.tasks
  {
    var pc := s.tasks[t].pc;
    && (Sees(pc).Some? ==> StillThere(s, pc.w, pc.seen))
    && (pc.UnparkSeen? || pc.SwapSeen? ==> IsWaiting(s, pc.seen))
  }

  /** `p` sleeps in waiter `w`. */
  ghost predicate Asleep(s: State, w: Wid, p: Tid) {
    StillThere(s, w, p) && IsWaiting(s, p)
  }

  /** Nobody else is using the handle of the current call. */
  lemma TidyAlone(s: State, h: Handle, t: Tid)
    requires UsedOnce(s) && s.current in s.tasks && Uses(Cur(s).pc) == Some(h) && t in s.tasks && t != s.current
    ensures Uses(s.tasks[t].pc) != Some(h) && Claim(s.tasks[t].pc) != Some(h) && Entered(s.tasks[t].pc) != Some(h)
  {
    assert SameUse(s.tasks[s.current].pc, s.tasks[t].pc) ==> s.current == t;
  }

  lemma TidyHandle(s: State, h: Handle)
    requires UsedOnce(s) && s.current in s.tasks && Uses(Cur(s).pc) == Some(h)
    ensures NobodyElseEntered(s, h) && (Entered(Cur(s).pc).Some? ==> Unclaimed(s, h))
  {
    forall t | t in s.tasks && t != s.current
      ensures Claim(s.tasks[t].pc) != Some(h) && Entered(s.tasks[t].pc) != Some(h)
    {
      TidyAlone(s, h, t);
    }
  }

  lemma TidyIsProper(s: State, a: Action)
    requires Can(s, a) && Tidy(s)
    ensures Proper(s, a)
  {
    if Claims(a) || a.Clear? {
      TidyHandle(s, Cur(s).pc.h);
    } else if a.UnparkTake? || a.SwapTake? {
      TidySight(s);
    }
  }

  lemma TidySight(s: State)
    requires Tidy(s) && s.current in s.tasks && (Cur(s).pc.UnparkSeen? || Cur(s).pc.SwapSeen?)
    ensures TakesWaiting(s)
  {
    assert SightOk(s, s.current);
  }

  // -- what a step does to control points

  ghost predicate Dull(pc: Pc) {
    Uses(pc).None? && Sees(pc).None?
  }

  /** A task other than the current keeps its control point, or it is one of no interest before and after. */
  ghost predicate PcKept(s: State, s': State, t: Tid) {
    t in s'.tasks ==>
      if t in s.tasks then s'.tasks[t].pc == s.tasks[t].pc || (Dull(s.tasks[t].pc) && Dull(s'.tasks[t].pc))
      else Dull(s'.tasks[t].pc)
  }

  ghost predicate PcsKept(s: State, s': State) {
    forall t :: t != s.current ==> PcKept(s, s', t)
  }

  /** The current task begins to use a handle or goes on using it, loads a slot or goes on with what it loaded, or does
      nothing of the kind. */
  ghost predicate OwnPc(s: State, s': State, a: Action)
    requires s.current in s.tasks
  {
    && s.current in s'.tasks
    && var pc, pc' := Cur(s).pc, s'.tasks[s.current].pc;
      || pc' == pc || Dull(pc')
      || (Sees(pc').None? && Uses(pc').Some? && Uses(pc') == Uses(pc))
      || ((a.EnterJoin? || a.EnterDetach?) && Sees(pc').None? && Uses(pc') == Some(a.h))
      || ((a.UnparkLook? || a.SwapLook?) && Uses(pc').None? && Sees(pc') == Some(a.w))
      || ((a.UnparkTest? || a.SwapTest?) && Uses(pc').None? && Sees(pc') == Sees(pc))
  }

  lemma TwoChangePcs(s: State, s': State, u: Tid, k: Task, pc: Pc, a: Action)
    requires TwoChange(s, s', u, k, pc) && Dull(k.pc) && Dull(pc) && (u in s.tasks ==> Dull(s.tasks[u].pc))
    ensures PcsKept(s, s') && OwnPc(s, s', a)
  {}

  lemma MakePcs(s: State, a: Action)
    requires Inv(s) && May(s, a) && a.SpawnMake?
    ensures PcsKept(s, Next(s, a)) && OwnPc(s, Next(s, a), a)
  {
    ChoiceIsDull(s, a);
    var k := MakeEffect(s, a.attr, a.addr, a.total);
    var u := Choice(s, a.attr, a.addr);
    TwoChangePcs(s, Made(s, a.attr, a.addr, a.total), u, k, Spawning(u), a);
  }

  lemma FinishPcs(s: State, a: Action)
    requires Inv(s) && May(s, a) && a.SpawnFinish?
    ensures PcsKept(s, Next(s, a)) && OwnPc(s, Next(s, a), a)
  {
    MadeTaskIsNascent(s);
    FinishEffect(s);
    var u := Cur(s).pc.made;
    TwoChangePcs(s, Spawned(s), u, Spawned(s).tasks[u], Body, a);
  }

  lemma ChoiceIsDull(s: State, a: Action)
    requires Inv(s) && May(s, a) && a.SpawnMake?
    ensures
      var u := Choice(s, a.attr, a.addr);
      u != s.current && (u in s.tasks ==> Dull(s.tasks[u].pc))
  {
    ChoiceIsIdle(s, a);
    var u := Choice(s, a.attr, a.addr);
    assert u in s.tasks ==> ParkOk(s, u);
  }

  lemma UnparkPcs(s: State, a: Action)
    requires Inv(s) && May(s, a) && a.UnparkFinish?
    ensures PcsKept(s, Next(s, a)) && OwnPc(s, Next(s, a), a)
  {
    PeerSleeps(s);
    UnparkEffect(s);
    var p := Cur(s).pc.peer;
    TwoChangePcs(s, Unparked(s), p, Unparked(s).tasks[p], Body, a);
  }

  lemma SwapPcs(s: State, a: Action)
    requires Inv(s) && May(s, a) && a.SwapFinish?
    ensures PcsKept(s, Next(s, a)) && OwnPc(s, Next(s, a), a)
  {
    PeerSleeps(s);
    SwapFinishSwaps(s, a.now1);
    SwapsPcs(s, SwappedTo(s, a.now1), Cur(s).pc.w, Cur(s).pc.peer, a);
  }

  lemma PeerSleeps(s: State)
    requires HoldersExact(s) && s.current in s.tasks && (Cur(s).pc.Unparking? || Cur(s).pc.Swapping?)
    ensures
      var p := Cur(s).pc.peer;
      p in s.tasks && p != s.current && s.tasks[p].run.Waiting? && s.tasks[p].pc.ParkWait?
      && !InOwnSlot(s, p, s.tasks[p].pc.w)
  {
    assert HoldOk(s, s.current);
  }

  lemma SwapsPcs(s: State, s': State, w: Wid, p: Tid, a: Action)
    requires Swaps(s, s', w, p) && s.tasks[p].pc.ParkWait?
    ensures PcsKept(s, s') && OwnPc(s, s', a)
  {}

  lemma SwitchedPcs(s: State, t: Tid, u: Tid)
    requires s.current in s.tasks && t in s.tasks && t != s.current && u in s.tasks
    ensures
      var s' := Switched(s, t);
      u in s'.tasks && (s'.tasks[u].pc == s.tasks[u].pc || (s.tasks[u].pc.ParkWait? && s'.tasks[u].pc.Body?))
  {}

  lemma DispatchedPcs(p: State, now: nat, u: Tid)
    requires p.current in p.tasks && Known(p.tasks, p.rq) && Candidates(p) != [] && u in p.tasks
    ensures
      var s' := Dispatched(p, now);
      u in s'.tasks && (s'.tasks[u].pc == p.tasks[u].pc || (p.tasks[u].pc.ParkWait? && s'.tasks[u].pc.Body?))
  {
    PoppedTimes(p, now);
    if Candidates(p)[0] != p.current { SwitchedPcs(Popped(p, now), Candidates(p)[0], u); }
  }

  lemma AtPopPcs(s: State, now1: nat, u: Tid)
    requires CanReschedule(s) && u in s.tasks
    ensures u in AtPop(s, now1).tasks && AtPop(s, now1).tasks[u].pc == s.tasks[u].pc
  {}

  lemma RescheduledPcs(s: State, now1: nat, now2: nat, u: Tid)
    requires CanReschedule(s) && u in s.tasks
    ensures
      var s' := Rescheduled(s, now1, now2);
      u in s'.tasks && (s'.tasks[u].pc == s.tasks[u].pc || (s.tasks[u].pc.ParkWait? && s'.tasks[u].pc.Body?))
  {
    CanPop(s, now1);
    AtPopPcs(s, now1, u);
    DispatchedPcs(AtPop(s, now1), now2, u);
  }

  lemma EnteringPcs(s: State, a: Action, u: Tid)
    requires May(s, a) && Reschedules(a) && u in s.tasks
    ensures
      var e := Entering(s, a);
      && u in e.tasks && e.tasks.Keys == s.tasks.Keys && (u != s.current ==> e.tasks[u].pc == s.tasks[u].pc)
      && (u == s.current ==> e.tasks[u].pc == s.tasks[u].pc || e.tasks[u].pc.ParkWait?
                             || (Sees(e.tasks[u].pc).None? && Uses(e.tasks[u].pc) == Uses(s.tasks[u].pc)))
  {
    if a.Exit? { ExitingPcs(s, a.value, u); }
  }

  lemma ExitingPcs(s: State, v: Val, u: Tid)
    requires Sane(s) && u in s.tasks
    ensures
      var e := Exiting(s, v);
      e.tasks.Keys == s.tasks.Keys && e.tasks[u].pc == s.tasks[u].pc
  {}

  lemma LeaveKeepsPc(s: State, a: Action, u: Tid)
    requires May(s, a) && Reschedules(a) && u in s.tasks && u != s.current
    ensures PcKept(s, Next(s, a), u)
  {
    EnteringReschedules(s, a);
    EnteringPcs(s, a, u);
    RescheduledPcs(Entering(s, a), a.now1, a.now2, u);
    PcKeptAcross(s, Rescheduled(Entering(s, a), a.now1, a.now2), u);
  }

  lemma PcKeptAcross(s: State, s': State, u: Tid)
    requires u in s.tasks && u in s'.tasks
    requires s'.tasks[u].pc == s.tasks[u].pc || (s.tasks[u].pc.ParkWait? && s'.tasks[u].pc.Body?)
    ensures PcKept(s, s', u)
  {}

  lemma LeaveOwnPc(s: State, a: Action)
    requires May(s, a) && Reschedules(a)
    ensures OwnPc(s, Next(s, a), a)
  {
    EnteringReschedules(s, a);
    EnteringPcs(s, a, s.current);
    RescheduledPcs(Entering(s, a), a.now1, a.now2, s.current);
  }

  lemma LeaveKeys(s: State, a: Action)
    requires May(s, a) && Reschedules(a)
    ensures Next(s, a).tasks.Keys == s.tasks.Keys
  {
    EnteringReschedules(s, a);
    EnteringPcs(s, a, s.current);
    RescheduledTimes(Entering(s, a), a.now1, a.now2);
  }

  lemma LeavePcs(s: State, a: Action)
    requires May(s, a) && Reschedules(a)
    ensures PcsKept(s, Next(s, a)) && OwnPc(s, Next(s, a), a)
  {
    LeaveOwnPc(s, a);
    LeaveKeys(s, a);
    forall u | u != s.current ensures PcKept(s, Next(s, a), u) {
      if u in s.tasks { LeaveKeepsPc(s, a, u); }
    }
  }

  lemma ReturnPcs(s: State, h: Handle, a: Action)
    requires h.t in s.tasks && s.current in s.tasks && Uses(Cur(s).pc) == Some(h)
    ensures PcsKept(s, TailReturned(s, h)) && OwnPc(s, TailReturned(s, h), a)
    ensures PcsKept(s, JoinReturned(s, h)) && OwnPc(s, JoinReturned(s, h), a)
  {}

  lemma MovePcs(s: State, s': State)
    requires s.current in s.tasks && s.current in s'.tasks && s'.tasks == s.tasks[s.current := s'.tasks[s.current]]
    ensures PcsKept(s, s')
  {}

  predicate MovesSlot(a: Action) {
    a.ParkClaim? || a.ParkAbort? || a.UnparkTake? || a.SwapTake?
  }

  predicate MovesTail(a: Action) {
    a.JoinStopped? || a.Clear?
  }

  lemma SlotMovePcs(s: State, a: Action)
    requires Can(s, a) && MovesSlot(a)
    ensures PcsKept(s, Next(s, a)) && OwnPc(s, Next(s, a), a)
  {
    if a.ParkClaim? || a.ParkAbort? {
      ParkPcs(s, a);
    } else {
      TakePcs(s, a);
    }
  }

  lemma ParkPcs(s: State, a: Action)
    requires Can(s, a) && (a.ParkClaim? || a.ParkAbort?)
    ensures PcsKept(s, Next(s, a)) && OwnPc(s, Next(s, a), a)
  {
    MovePcs(s, Next(s, a));
  }

  lemma TakePcs(s: State, a: Action)
    requires Can(s, a) && (a.UnparkTake? || a.SwapTake?)
    ensures PcsKept(s, Next(s, a)) && OwnPc(s, Next(s, a), a)
  {
    TakeEffect(s, a);
    DullMovePcs(s, Next(s, a), a);
  }

  lemma DullMovePcs(s: State, s': State, a: Action)
    requires s.current in s.tasks && s.current in s'.tasks && s'.tasks == s.tasks[s.current := s'.tasks[s.current]]
    requires Dull(s'.tasks[s.current].pc)
    ensures PcsKept(s, s') && OwnPc(s, s', a)
  {}

  /** The exchange changes one control point and at most the one slot. */
  lemma TakeEffect(s: State, a: Action)
    requires Can(s, a) && (a.UnparkTake? || a.SwapTake?)
    ensures
      var s', w := Next(s, a), Cur(s).pc.w;
      && s.current in s'.tasks && s'.tasks == s.tasks[s.current := s'.tasks[s.current]]
      && s'.tasks[s.current].pc == TakenTo(s, a) && Dull(TakenTo(s, a))
      && (s'.slots == s.slots || s'.slots == s.slots - {w} || s'.slots == s.slots[w := s.current])
  {
    TakeIs(s, a);
    TakeOfSlots(s, TakenTo(s, a), TakenSlots(s, a));
  }

  lemma TakeOfSlots(s: State, pc: Pc, slots: map<Wid, Tid>)
    requires s.current in s.tasks
    ensures
      var s' := SetCur(s, Cur(s).(pc := pc)).(slots := slots);
      && s.current in s'.tasks && s'.tasks == s.tasks[s.current := s'.tasks[s.current]]
      && s'.tasks[s.current].pc == pc && s'.slots == slots
  {}

  lemma LookPcs(s: State, a: Action)
    requires Can(s, a) && Looks(a)
    ensures PcsKept(s, Next(s, a)) && OwnPc(s, Next(s, a), a)
  {
    if LooksAtSlot(a) {
      SightPcs(s, a);
    } else {
      MovePcs(s, Next(s, a));
    }
  }

  lemma SightPcs(s: State, a: Action)
    requires Can(s, a) && LooksAtSlot(a)
    ensures PcsKept(s, Next(s, a)) && OwnPc(s, Next(s, a), a)
  {
    MovePcs(s, Next(s, a));
  }

  lemma TailMovePcs(s: State, a: Action)
    requires Can(s, a) && MovesTail(a)
    ensures PcsKept(s, Next(s, a)) && OwnPc(s, Next(s, a), a)
  {
    MovePcs(s, Next(s, a));
  }

  lemma DetachedTasks(s: State, h: Handle, t: Tid)
    requires s.current in s.tasks && h.t in s.tasks && t in s.tasks
    ensures
      var s' := Detached(s, h);
      && s'.tasks.Keys == s.tasks.Keys && s'.slots == s.slots && s'.tasks[t].run == s.tasks[t].run
      && (t != s.current ==> s'.tasks[t].pc == s.tasks[t].pc)
      && (t == s.current ==> s'.tasks[t].pc == if s.tasks[h.t].run.Stopped? then DetachTail(h) else Body)
  {}

  lemma DetachPcs(s: State, h: Handle, a: Action)
    requires s.current in s.tasks && h.t in s.tasks && Uses(Cur(s).pc) == Some(h)
    ensures PcsKept(s, Detached(s, h)) && OwnPc(s, Detached(s, h), a)
  {
    DetachedTasks(s, h, s.current);
    forall t | t != s.current ensures PcKept(s, Detached(s, h), t) {
      if t in s.tasks { DetachedTasks(s, h, t); }
    }
  }

  lemma OwnStepPcs(s: State, a: Action)
    requires Can(s, a) && (a.JoinReturn? || a.DetachReturn? || a.Detach? || MovesSlot(a) || Looks(a) || MovesTail(a))
    ensures PcsKept(s, Next(s, a)) && OwnPc(s, Next(s, a), a)
  {
    if a.JoinReturn? || a.DetachReturn? {
      ReturnPcs(s, Cur(s).pc.h, a);
    } else if a.Detach? {
      DetachPcs(s, a.h, a);
    } else if MovesSlot(a) {
      SlotMovePcs(s, a);
    } else if Looks(a) {
      LookPcs(s, a);
    } else {
      TailMovePcs(s, a);
    }
  }

  lemma StepPcs(s: State, a: Action)
    requires Inv(s) && May(s, a)
    ensures PcsKept(s, Next(s, a)) && OwnPc(s, Next(s, a), a)
  {
    if Reschedules(a) {
      LeavePcs(s, a);
    } else if a.SpawnMake? {
      MakePcs(s, a);
    } else if a.SpawnFinish? {
      FinishPcs(s, a);
    } else if a.UnparkFinish? {
      UnparkPcs(s, a);
    } else if a.SwapFinish? {
      SwapPcs(s, a);
    } else {
      OwnStepPcs(s, a);
    }
  }

  // -- nobody wakes a sleeper but the one who takes it out of its slot

  /** The exchange, if the action is one, is on another waiter. */
  ghost predicate NotHere(s: State, a: Action, w: Wid)
    requires Can(s, a)
  {
    a.UnparkTake? || a.SwapTake? ==> Cur(s).pc.w != w
  }

  lemma RescheduledSleeper(e: State, now1: nat, now2: nat, w: Wid, p: Tid)
    requires CanReschedule(e) && Asleep(e, w, p) && p !in e.rq && p != e.current
    ensures Asleep(Rescheduled(e, now1, now2), w, p)
  {
    CanPop(e, now1);
    var q := AtPop(e, now1);
    AtPopSleeper(e, now1, w, p);
    EnqueuedMembers(q.tasks, q.rq, q.current);
    assert Candidates(q)[0] in Candidates(q);
    DispatchedSleeper(q, now2, w, p);
  }

  lemma AtPopSleeper(e: State, now1: nat, w: Wid, p: Tid)
    requires CanReschedule(e) && Asleep(e, w, p)
    ensures
      var q := AtPop(e, now1);
      Asleep(q, w, p) && q.rq == e.rq && q.current == e.current
  {}

  lemma DispatchedSleeper(q: State, now: nat, w: Wid, p: Tid)
    requires q.current in q.tasks && Known(q.tasks, q.rq) && Candidates(q) != [] && Candidates(q)[0] != p
    requires Asleep(q, w, p) && p != q.current
    ensures Asleep(Dispatched(q, now), w, p)
  {}


  lemma AsleepFacts(s: State, w: Wid, p: Tid)
    requires Inv(s) && Asleep(s, w, p)
    ensures p != s.current && p !in s.rq && s.tasks[p].pc == ParkWait(w) && Cur(s).joiner != Some(p)
  {
    assert SlotOk(s, w) && ParkOk(s, p) && TaskLife(s, s.current) && JoinOk(s, s.current);
  }

  lemma EnteringSleeper(s: State, a: Action, w: Wid, p: Tid)
    requires May(s, a) && Reschedules(a) && Asleep(s, w, p) && p != s.current && p !in s.rq
    requires a.Exit? ==> Cur(s).joiner != Some(p)
    ensures
      var e := Entering(s, a);
      Asleep(e, w, p) && p !in e.rq && p != e.current
  {
    if a.Exit? { ExitingSleeper(s, a.value, w, p); }
  }

  lemma ExitingSleeper(s: State, v: Val, w: Wid, p: Tid)
    requires Sane(s) && Asleep(s, w, p) && p != s.current && p !in s.rq && Cur(s).joiner != Some(p)
    ensures
      var e := Exiting(s, v);
      Asleep(e, w, p) && p !in e.rq && p != e.current
  {
    var s1 := SetCur(s, Cur(s).(value := v, run := Stopped)).(
      exits := s.exits[Handle(s.current, Cur(s).spawns) := v]);
    if Cur(s).joiner.Some? {
      var j := Cur(s).joiner.value;
      EnqueuedMembers(Scheduled(s1, j).tasks, s.rq, j);
    }
  }

  lemma LeaveSleeper(s: State, a: Action, w: Wid, p: Tid)
    requires Inv(s) && May(s, a) && Reschedules(a) && Asleep(s, w, p)
    ensures Asleep(Next(s, a), w, p)
  {
    AsleepFacts(s, w, p);
    EnteringReschedules(s, a);
    EnteringSleeper(s, a, w, p);
    RescheduledSleeper(Entering(s, a), a.now1, a.now2, w, p);
  }

  lemma TwoChangeSleeper(s: State, s': State, u: Tid, k: Task, pc: Pc, w: Wid, p: Tid)
    requires TwoChange(s, s', u, k, pc) && SameClock(s, s') && Asleep(s, w, p) && p != s.current && p != u
    ensures Asleep(s', w, p)
  {}

  lemma SpawnSleeper(s: State, a: Action, w: Wid, p: Tid)
    requires Inv(s) && May(s, a) && Spawns(a) && Asleep(s, w, p)
    ensures Asleep(Next(s, a), w, p)
  {
    AsleepFacts(s, w, p);
    if a.SpawnMake? {
      ChoiceIsIdle(s, a);
      var k := MakeEffect(s, a.attr, a.addr, a.total);
      var u := Choice(s, a.attr, a.addr);
      TwoChangeSleeper(s, Made(s, a.attr, a.addr, a.total), u, k, Spawning(u), w, p);
    } else {
      MadeTaskIsNascent(s);
      FinishEffect(s);
      var u := Cur(s).pc.made;
      TwoChangeSleeper(s, Spawned(s), u, Spawned(s).tasks[u], Body, w, p);
    }
  }

  lemma WakeSleeper(s: State, a: Action, w: Wid, p: Tid)
    requires Inv(s) && May(s, a) && (a.UnparkFinish? || a.SwapFinish?) && Asleep(s, w, p)
    ensures Asleep(Next(s, a), w, p)
  {
    AsleepFacts(s, w, p);
    PeerSleeps(s);
    WakeOther(s, a, w, p);
  }

  lemma WakeOther(s: State, a: Action, w: Wid, p: Tid)
    requires Can(s, a) && (a.UnparkFinish? || a.SwapFinish?) && Asleep(s, w, p) && p != s.current && p != Cur(s).pc.peer
    ensures Asleep(Next(s, a), w, p)
  {
    if a.UnparkFinish? {
      UnparkEffect(s);
      var u := Cur(s).pc.peer;
      TwoChangeSleeper(s, Unparked(s), u, Unparked(s).tasks[u], Body, w, p);
    } else {
      SwapFinishSwaps(s, a.now1);
    }
  }

  lemma ReturnSleeper(s: State, h: Handle, w: Wid, p: Tid)
    requires h.t in s.tasks && s.current in s.tasks && Asleep(s, w, p)
    ensures Asleep(TailReturned(s, h), w, p) && Asleep(JoinReturned(s, h), w, p)
  {}

  lemma MoveSleeper(s: State, s': State, w: Wid, p: Tid)
    requires s.current in s.tasks && s.current in s'.tasks && s'.tasks == s.tasks[s.current := s'.tasks[s.current]]
    requires Asleep(s, w, p) && p != s.current && StillThere(s', w, p)
    ensures Asleep(s', w, p)
  {}

  lemma SlotMoveSleeper(s: State, a: Action, w: Wid, p: Tid)
    requires Inv(s) && May(s, a) && MovesSlot(a) && Asleep(s, w, p) && NotHere(s, a, w)
    ensures Asleep(Next(s, a), w, p)
  {
    AsleepFacts(s, w, p);
    OwnSlotElsewhere(s, w, p);
    if a.UnparkTake? || a.SwapTake? {
      TakeElsewhere(s, a, w, p);
    } else {
      ParkEffect(s, a, w, p);
    }
    MoveSleeper(s, Next(s, a), w, p);
  }

  lemma TakeElsewhere(s: State, a: Action, w: Wid, p: Tid)
    requires Can(s, a) && (a.UnparkTake? || a.SwapTake?) && StillThere(s, w, p) && Cur(s).pc.w != w
    ensures
      var s' := Next(s, a);
      && s.current in s'.tasks && s'.tasks == s.tasks[s.current := s'.tasks[s.current]] && StillThere(s', w, p)
  {
    TakeEffect(s, a);
  }

  lemma OwnSlotElsewhere(s: State, w: Wid, p: Tid)
    requires SlotsExact(s) && s.current in s.tasks && StillThere(s, w, p) && p != s.current
    ensures Cur(s).pc.Parking? ==> Cur(s).pc.w != w
  {
    assert ParkOk(s, s.current);
  }

  lemma ParkEffect(s: State, a: Action, w: Wid, p: Tid)
    requires Can(s, a) && (a.ParkClaim? || a.ParkAbort?) && StillThere(s, w, p) && (a.ParkAbort? ==> Cur(s).pc.w != w)
    ensures
      var s' := Next(s, a);
      && s.current in s'.tasks && s'.tasks == s.tasks[s.current := s'.tasks[s.current]] && StillThere(s', w, p)
  {}

  lemma PlainSleeper(s: State, a: Action, w: Wid, p: Tid)
    requires Can(s, a) && (a.Detach? || Looks(a) || MovesTail(a) || a.JoinReturn? || a.DetachReturn?)
    requires Asleep(s, w, p) && p != s.current
    ensures Asleep(Next(s, a), w, p)
  {
    if a.JoinReturn? || a.DetachReturn? {
      ReturnSleeper(s, Cur(s).pc.h, w, p);
    } else if a.Detach? {
      DetachedTasks(s, a.h, p);
    } else if Looks(a) {
      LookMoves(s, a);
      MoveSleeper(s, Next(s, a), w, p);
    } else {
      TailEffect(s, a);
      MoveSleeper(s, Next(s, a), w, p);
    }
  }

  lemma TailEffect(s: State, a: Action)
    requires Can(s, a) && MovesTail(a)
    ensures
      var s' := Next(s, a);
      s.current in s'.tasks && s'.tasks == s.tasks[s.current := s'.tasks[s.current]] && s'.slots == s.slots
  {}

  lemma SleeperStays(s: State, a: Action, w: Wid, p: Tid)
    requires Inv(s) && May(s, a) && Asleep(s, w, p) && NotHere(s, a, w)
    ensures Asleep(Next(s, a), w, p)
  {
    if Reschedules(a) {
      LeaveSleeper(s, a, w, p);
    } else if Spawns(a) {
      SpawnSleeper(s, a, w, p);
    } else if a.UnparkFinish? || a.SwapFinish? {
      WakeSleeper(s, a, w, p);
    } else if MovesSlot(a) {
      SlotMoveSleeper(s, a, w, p);
    } else {
      AsleepFacts(s, w, p);
      PlainSleeper(s, a, w, p);
    }
  }

  // -- nobody leaves a slot but by an exchange or a failed check

  ghost predicate SameSlots(s: State, s': State) {
    s'.slots == s.slots
  }

  lemma RescheduledSlots(e: State, now1: nat, now2: nat)
    requires CanReschedule(e)
    ensures SameSlots(e, Rescheduled(e, now1, now2))
  {
    CanPop(e, now1);
    DispatchedSlots(AtPop(e, now1), now2);
  }

  lemma DispatchedSlots(p: State, now: nat)
    requires p.current in p.tasks && Known(p.tasks, p.rq) && Candidates(p) != []
    ensures SameSlots(p, Dispatched(p, now))
  {}

  lemma EnteringSlots(s: State, a: Action)
    requires May(s, a) && Reschedules(a)
    ensures SameSlots(s, Entering(s, a))
  {}

  lemma LeaveSlots(s: State, a: Action)
    requires May(s, a) && Reschedules(a)
    ensures SameSlots(s, Next(s, a))
  {
    EnteringReschedules(s, a);
    EnteringSlots(s, a);
    RescheduledSlots(Entering(s, a), a.now1, a.now2);
  }

  lemma PlainSlots(s: State, a: Action)
    requires Can(s, a) && (a.Detach? || Looks(a) || MovesTail(a) || a.JoinReturn? || a.DetachReturn?)
    ensures SameSlots(s, Next(s, a))
  {
    if a.Detach? {
      DetachedTasks(s, a.h, s.current);
    } else if Looks(a) {
      LookMoves(s, a);
    } else if MovesTail(a) {
      TailEffect(s, a);
    }
  }

  lemma SpawnSlots(s: State, a: Action)
    requires Can(s, a) && Spawns(a)
    ensures SameSlots(s, Next(s, a))
  {}

  lemma WakeSlots(s: State, a: Action)
    requires Can(s, a) && (a.UnparkFinish? || a.SwapFinish?)
    ensures SameSlots(s, Next(s, a))
  {}

  lemma OccupantStays(s: State, a: Action, w: Wid, p: Tid)
    requires May(s, a) && StillThere(s, w, p) && NotHere(s, a, w) && (a.ParkAbort? ==> Cur(s).pc.w != w)
    ensures StillThere(Next(s, a), w, p)
  {
    if Reschedules(a) {
      LeaveSlots(s, a);
    } else if Spawns(a) {
      SpawnSlots(s, a);
    } else if a.UnparkFinish? || a.SwapFinish? {
      WakeSlots(s, a);
    } else if a.UnparkTake? || a.SwapTake? {
      TakeElsewhere(s, a, w, p);
    } else if MovesSlot(a) {
      ParkEffect(s, a, w, p);
    } else {
      PlainSlots(s, a);
    }
  }

  // -- the rule keeps everything tidy

  lemma UseCollides(s: State, s': State, a: Action, t: Tid, u: Tid)
    requires UsedOnce(s) && s.current in s.tasks && EntersAlone(s, a) && PcsKept(s, s') && OwnPc(s, s', a)
    requires t in s'.tasks && u in s'.tasks && SameUse(s'.tasks[t].pc, s'.tasks[u].pc)
    ensures t == u
  {
    assert t != s.current ==> PcKept(s, s', t);
    assert u != s.current ==> PcKept(s, s', u);
    assert t in s.tasks && u in s.tasks ==> (SameUse(s.tasks[t].pc, s.tasks[u].pc) ==> t == u);
  }

  lemma SightCollides(s: State, s': State, a: Action, t: Tid, u: Tid)
    requires Tidy(s) && Can(s, a) && Orderly(s, a) && PcsKept(s, s') && OwnPc(s, s', a)
    requires t in s'.tasks && u in s'.tasks && SameSight(s'.tasks[t].pc, s'.tasks[u].pc)
    ensures t == u
  {
    assert t != s.current ==> PcKept(s, s', t);
    assert u != s.current ==> PcKept(s, s', u);
    assert t in s.tasks && u in s.tasks ==> (SameSight(s.tasks[t].pc, s.tasks[u].pc) ==> t == u);
  }

  lemma UsedOnceKept(s: State, a: Action)
    requires Inv(s) && May(s, a) && UsedOnce(s) && EntersAlone(s, a)
    ensures UsedOnce(Next(s, a))
  {
    StepPcs(s, a);
    var s' := Next(s, a);
    forall t, u | t in s'.tasks && u in s'.tasks && SameUse(s'.tasks[t].pc, s'.tasks[u].pc) ensures t == u {
      UseCollides(s, s', a, t, u);
    }
  }

  lemma SightKept(s: State, a: Action, t: Tid)
    requires Sound(s) && May(s, a) && Tidy(s) && Orderly(s, a) && t in Next(s, a).tasks
    requires if t == s.current then OwnPc(s, Next(s, a), a) else PcKept(s, Next(s, a), t)
    ensures SightOk(Next(s, a), t)
  {
    if LooksAtSlot(a) && t == s.current {
      LookSees(s, a);
    } else if Sees(Next(s, a).tasks[t].pc).Some? {
      OldSight(s, a, t);
      OldSightStays(s, a, t);
    }
  }

  lemma OldSightStays(s: State, a: Action, t: Tid)
    requires Sound(s) && May(s, a) && t in s.tasks && SightOk(s, t) && Sees(s.tasks[t].pc).Some?
    requires NotHere(s, a, s.tasks[t].pc.w) && (a.ParkAbort? ==> Cur(s).pc.w != s.tasks[t].pc.w)
    requires t in Next(s, a).tasks && Next(s, a).tasks[t].pc == s.tasks[t].pc
    ensures SightOk(Next(s, a), t)
  {
    var pc := s.tasks[t].pc;
    OccupantStays(s, a, pc.w, pc.seen);
    if pc.UnparkSeen? || pc.SwapSeen? {
      assert Inv(s);
      SleeperStays(s, a, pc.w, pc.seen);
    }
  }

  lemma LookSees(s: State, a: Action)
    requires Can(s, a) && LooksAtSlot(a) && SightOk(s, s.current)
    ensures s.current in Next(s, a).tasks && SightOk(Next(s, a), s.current)
  {
    if a.UnparkTest? || a.SwapTest? { TestSees(s, a); }
  }

  lemma TestSees(s: State, a: Action)
    requires Can(s, a) && (a.UnparkTest? || a.SwapTest?) && SightOk(s, s.current)
    ensures s.current in Next(s, a).tasks && SightOk(Next(s, a), s.current)
  {
    if IsWaiting(s, Cur(s).pc.seen) { TestThenTakeIsProper(s, a); }
  }

  /** A sight that is not new was one before, and the step is neither its exchange nor a failed check there. */
  lemma OldSight(s: State, a: Action, t: Tid)
    requires May(s, a) && Tidy(s) && Orderly(s, a) && t in Next(s, a).tasks && Sees(Next(s, a).tasks[t].pc).Some?
    requires if t == s.current then !LooksAtSlot(a) && OwnPc(s, Next(s, a), a) else PcKept(s, Next(s, a), t)
    ensures t in s.tasks && s.tasks[t].pc == Next(s, a).tasks[t].pc
    ensures Sees(s.tasks[t].pc).Some? && SightOk(s, t)
    ensures NotHere(s, a, s.tasks[t].pc.w) && (a.ParkAbort? ==> Cur(s).pc.w != s.tasks[t].pc.w)
  {
    assert t in s.tasks ==> SightOk(s, t);
    if a.UnparkTake? || a.SwapTake? {
      TakeEffect(s, a);
      assert t in s.tasks && SameSight(s.tasks[t].pc, Cur(s).pc) ==> t == s.current;
    }
  }

  lemma TidyKept(s: State, a: Action)
    requires Inv(s) && May(s, a) && Tidy(s) && Orderly(s, a)
    ensures Tidy(Next(s, a))
  {
    StepPcs(s, a);
    var s' := Next(s, a);
    UsedOnceKept(s, a);
    forall t, u | t in s'.tasks && u in s'.tasks && SameSight(s'.tasks[t].pc, s'.tasks[u].pc) ensures t == u {
      SightCollides(s, s', a, t, u);
    }
    forall t | t in s'.tasks ensures SightOk(s', t) { SightKept(s, a, t); }
  }

  // ---------------------------------------------------------------- orderly runs

  ghost predicate OrderlyRun(s: State, acts: seq<Action>)
    decreases |acts|
  {
    acts == [] || (Can(s, acts[0]) && Orderly(s, acts[0]) && OrderlyRun(Next(s, acts[0]), acts[1..]))
  }

  lemma {:induction false} OrderlyRunIsLegal(s: State, acts: seq<Action>)
    requires Inv(s) && Tidy(s) && OrderlyRun(s, acts)
    ensures Legal(s, acts) && Tidy(Exec(s, acts))
    decreases |acts|
  {
    if acts != [] {
      TidyIsProper(s, acts[0]);
      StepKeepsInv(s, acts[0]);
      TidyKept(s, acts[0]);
      OrderlyRunIsLegal(Next(s, acts[0]), acts[1..]);
    }
  }

  lemma TidySights(s: State)
    requires Tidy(s)
    ensures forall t :: t in s.tasks && Sees(s.tasks[t].pc).Some? ==> StillThere(s, s.tasks[t].pc.w, s.tasks[t].pc.seen)
  {
    assert forall t :: t in s.tasks ==> SightOk(s, t);
  }

  /** Main result: if a program is orderly, then with preemption at any point every step of its runs since boot is
      proper: every result about legal runs applies, no fault ever occurs, and every task that `unpark` or `swap` has
      loaded is in its slot until the exchange. */
  lemma OrderlyProgramsAreSafe(host: Tid, maxSpare: nat, now: nat, acts: seq<Action>)
    requires OrderlyRun(Boot(host, maxSpare, now), acts)
    ensures Legal(Boot(host, maxSpare, now), acts)
    ensures
      var s := Exec(Boot(host, maxSpare, now), acts);
      && Reachable(s) && Faultless(s)
      && (forall t :: t in s.tasks && Sees(s.tasks[t].pc).Some? ==> StillThere(s, s.tasks[t].pc.w, s.tasks[t].pc.seen))
  {
    var b := Boot(host, maxSpare, now);
    BootInv(host, maxSpare, now);
    assert Tidy(b);
    OrderlyRunIsLegal(b, acts);
    assert Reachable(Exec(b, acts));
    ReachableInv(Exec(b, acts));
    InvIsFaultless(Exec(b, acts));
    TidySights(Exec(b, acts));
  }

  // ---------------------------------------------------------------- handles alone

  /** Every call of `join` or `detach`, from its null test on, has its handle, and no two have the same. */
  ghost predicate Alone(s: State) {
    UsedOnce(s) && forall t :: t in s.tasks && Uses(s.tasks[t].pc).Some? ==> Uses(s.tasks[t].pc).value in s.handles
  }

  /** The exchange of `unpark` and `swap` takes a task that is asleep; handles may be used in any way. */
  ghost predicate Loosely(s: State, a: Action) {
    Can(s, a) && (a.UnparkTake? || a.SwapTake? ==> TakesWaiting(s))
  }

  ghost predicate LooseRun(s: State, acts: seq<Action>)
    decreases |acts|
  {
    acts == [] || (Loosely(s, acts[0]) && LooseRun(Next(s, acts[0]), acts[1..]))
  }

  ghost predicate AlwaysAlone(s: State, acts: seq<Action>)
    requires LooseRun(s, acts)
    decreases |acts|
  {
    Alone(s) && (acts == [] || AlwaysAlone(Next(s, acts[0]), acts[1..]))
  }

  ghost predicate OneByOne(s: State, acts: seq<Action>)
    requires LooseRun(s, acts)
    decreases |acts|
  {
    acts == [] || (EntersAlone(s, acts[0]) && OneByOne(Next(s, acts[0]), acts[1..]))
  }

  lemma InvIsAlone(s: State)
    requires JoinExact(s) && ClaimsExact(s) && UsedOnce(s)
    ensures Alone(s)
  {
    forall t | t in s.tasks && Uses(s.tasks[t].pc).Some? ensures Uses(s.tasks[t].pc).value in s.handles {
      assert JoinOk(s, t) && TailOk(s, t) && EnteredOk(s, t);
    }
  }

  lemma SecondEntryMoves(s: State, a: Action, t: Tid)
    requires Can(s, a) && (a.EnterJoin? || a.EnterDetach?) && t in s.tasks && Uses(s.tasks[t].pc) == Some(a.h)
    ensures
      var s' := Next(s, a);
      && t != s.current && t in s'.tasks && s'.tasks[t].pc == s.tasks[t].pc
      && s.current in s'.tasks && Uses(s'.tasks[s.current].pc) == Some(a.h)
  {}

  lemma SecondEntryCollides(s: State, a: Action)
    requires Can(s, a) && !EntersAlone(s, a)
    ensures !UsedOnce(Next(s, a))
  {
    var t :| t in s.tasks && Uses(s.tasks[t].pc) == Some(a.h);
    SecondEntryMoves(s, a, t);
    assert SameUse(Next(s, a).tasks[t].pc, Next(s, a).tasks[s.current].pc);
  }

  lemma LooseIsProper(s: State, a: Action)
    requires Loosely(s, a) && UsedOnce(s)
    ensures Proper(s, a)
  {
    if Claims(a) || a.Clear? { TidyHandle(s, Cur(s).pc.h); }
  }

  lemma StepAloneExactly(s: State, a: Action)
    requires Inv(s) && UsedOnce(s) && Loosely(s, a)
    ensures Alone(Next(s, a)) <==> EntersAlone(s, a)
    ensures EntersAlone(s, a) ==> Inv(Next(s, a)) && UsedOnce(Next(s, a))
  {
    if EntersAlone(s, a) {
      LooseIsProper(s, a);
      StepKeepsInv(s, a);
      UsedOnceKept(s, a);
      InvIsAlone(Next(s, a));
    } else {
      SecondEntryCollides(s, a);
    }
  }

  lemma NotAloneNow(s: State, acts: seq<Action>)
    requires LooseRun(s, acts) && !Alone(s)
    ensures !AlwaysAlone(s, acts)
  {}

  lemma {:induction false} RunAloneExactly(s: State, acts: seq<Action>)
    requires Inv(s) && UsedOnce(s) && LooseRun(s, acts)
    ensures AlwaysAlone(s, acts) <==> OneByOne(s, acts)
    decreases |acts|
  {
    InvIsAlone(s);
    if acts != [] {
      StepAloneExactly(s, acts[0]);
      if EntersAlone(s, acts[0]) {
        RunAloneExactly(Next(s, acts[0]), acts[1..]);
      } else {
        NotAloneNow(Next(s, acts[0]), acts[1..]);
      }
    }
  }

  /** Main result about handles: over any run since boot, each call of `join` or `detach`, from its null test on,
      keeps its handle and shares it with no other call if and only if every such call begins with a handle that no
      call in progress is using. */
  lemma HandlesExclusiveExactly(host: Tid, maxSpare: nat, now: nat, acts: seq<Action>)
    requires LooseRun(Boot(host, maxSpare, now), acts)
    ensures
      var b := Boot(host, maxSpare, now);
      AlwaysAlone(b, acts) <==> OneByOne(b, acts)
  {
    BootInv(host, maxSpare, now);
    RunAloneExactly(Boot(host, maxSpare, now), acts);
  }
}
