/** Exactly when the scheduler's invariant survives, one step at a time and over every run. */
module KernelExact {
  import opened Options
  import opened Freelist
  import opened Kernel
  import opened KernelInv
  import opened KernelSteps
  import opened KernelRuns

  // ---------------------------------------------------------------- faults

  /** Every call of `join` or `detach` in progress has its handle, and no two that have been through their locked part
      have the same. */
  ghost predicate Exclusive(s: State) {
    && (forall t :: t in s.tasks && Claim(s.tasks[t].pc).Some? ==> Claim(s.tasks[t].pc).value in s.handles)
    && (forall t :: t in s.tasks ==> EnteredOk(s, t))
    && ClaimedOnce(s)
  }

  /** Whoever has exchanged a task out of a slot has one that is asleep: the assert in `unpark` holds, and `swap`
      resumes a task that is waiting to be resumed. */
  ghost predicate Grips(s: State, u: Tid)
    requires u in s.tasks
  {
    s.tasks[u].pc.Unparking? || s.tasks[u].pc.Swapping? ==>
      s.tasks[u].pc.peer in s.tasks && s.tasks[s.tasks[u].pc.peer].run.Waiting?
  }

  ghost predicate Faultless(s: State) {
    Exclusive(s) && forall u :: u in s.tasks ==> Grips(s, u)
  }

  lemma InvIsExclusive(s: State)
    requires JoinExact(s) && ClaimsExact(s)
    ensures Exclusive(s)
  {
    forall t | t in s.tasks && Claim(s.tasks[t].pc).Some? ensures Claim(s.tasks[t].pc).value in s.handles {
      assert JoinOk(s, t) && TailOk(s, t);
    }
  }

  lemma InvIsFaultless(s: State)
    requires Inv(s)
    ensures Faultless(s)
  {
    InvIsExclusive(s);
    HoldersGrip(s);
  }

  lemma HoldersGrip(s: State)
    requires HoldersExact(s)
    ensures forall u :: u in s.tasks ==> Grips(s, u)
  {
    forall u | u in s.tasks ensures Grips(s, u) { HolderGrips(s, u); }
  }

  lemma HolderGrips(s: State, u: Tid)
    requires u in s.tasks && HoldOk(s, u)
    ensures Grips(s, u)
  {}

  // ---------------------------------------------------------------- a second call on the same handle

  lemma DispatchedClaims(s: State, now: nat, t: Tid)
    requires s.current in s.tasks && Known(s.tasks, s.rq) && Candidates(s) != [] && t in s.tasks
    ensures t in Dispatched(s, now).tasks && Claim(Dispatched(s, now).tasks[t].pc) == Claim(s.tasks[t].pc)
  {}

  lemma RescheduledClaims(s: State, now1: nat, now2: nat, t: Tid)
    requires CanReschedule(s) && t in s.tasks
    ensures
      var s' := Rescheduled(s, now1, now2);
      t in s'.tasks && Claim(s'.tasks[t].pc) == Claim(s.tasks[t].pc)
  {
    var p := Charged(DeferredReclaimed(s), now1);
    assert p.tasks.Keys == s.tasks.Keys && p.tasks[t].pc == s.tasks[t].pc;
    DispatchedClaims(p, now2, t);
  }

  lemma SecondJoinCollides(s: State, a: Action, t: Tid)
    requires Sane(s) && Enabled(s, a) && a.Join?
    requires t in s.tasks && t != s.current && Claim(s.tasks[t].pc) == Some(a.h)
    ensures !Exclusive(Next(s, a))
  {
    var e := Announced(s, a.h);
    RescheduledClaims(e, a.now1, a.now2, t);
    RescheduledClaims(e, a.now1, a.now2, s.current);
    assert SameClaim(Next(s, a).tasks[t].pc, Next(s, a).tasks[s.current].pc);
  }

  lemma SecondTailCollides(s: State, s': State, h: Handle, t: Tid)
    requires s.current in s.tasks && t in s.tasks && t != s.current && Claim(s.tasks[t].pc) == Some(h)
    requires t in s'.tasks && s'.tasks[t].pc == s.tasks[t].pc && s.current in s'.tasks
    requires Claim(s'.tasks[s.current].pc) == Some(h)
    ensures !Exclusive(s')
  {
    assert SameClaim(s'.tasks[t].pc, s'.tasks[s.current].pc);
  }

  lemma NullingCollides(s: State, s': State, h: Handle, t: Tid)
    requires t in s.tasks && (Claim(s.tasks[t].pc) == Some(h) || Entered(s.tasks[t].pc) == Some(h))
    requires t in s'.tasks && s'.tasks[t].pc == s.tasks[t].pc && h !in s'.handles
    ensures !Exclusive(s')
  {
    assert Entered(s.tasks[t].pc) == Some(h) ==> !EnteredOk(s', t);
  }

  lemma OthersKeepPc(s: State, a: Action, t: Tid)
    requires Sane(s) && Enabled(s, a) && (a.JoinStopped? || a.Detach? || a.Clear?) && t in s.tasks && t != s.current
    ensures t in Next(s, a).tasks && Next(s, a).tasks[t].pc == s.tasks[t].pc && s.current in Next(s, a).tasks
    ensures Nulls(s, a) ==> Cur(s).pc.h !in Next(s, a).handles
    ensures !Nulls(s, a) ==> Claim(Next(s, a).tasks[s.current].pc) == Some(Cur(s).pc.h)
  {
    if a.Detach? { DetachKeepsOtherPcs(s, a.h, t); }
  }

  lemma DetachKeepsOtherPcs(s: State, h: Handle, t: Tid)
    requires s.current in s.tasks && h.t in s.tasks && t in s.tasks && t != s.current
    ensures
      var s' := Detached(s, h);
      && t in s'.tasks && s'.tasks[t].pc == s.tasks[t].pc && s.current in s'.tasks
      && if s.tasks[h.t].run.Stopped? then Claim(s'.tasks[s.current].pc) == Some(h) else h !in s'.handles
  {}

  lemma SecondClaimCollides(s: State, a: Action, t: Tid)
    requires Sane(s) && Enabled(s, a) && Claims(a)
    requires t in s.tasks && Claim(s.tasks[t].pc) == Some(a.h)
    ensures !Exclusive(Next(s, a))
  {
    assert t != s.current;
    if a.Join? {
      SecondJoinCollides(s, a, t);
    } else {
      OthersKeepPc(s, a, t);
      if Nulls(s, a) {
        NullingCollides(s, Next(s, a), a.h, t);
      } else {
        SecondTailCollides(s, Next(s, a), a.h, t);
      }
    }
  }

  lemma NullingStrandsEntered(s: State, a: Action, t: Tid)
    requires Sane(s) && Enabled(s, a) && Nulls(s, a)
    requires t in s.tasks && t != s.current && Entered(s.tasks[t].pc) == Some(Cur(s).pc.h)
    ensures !Exclusive(Next(s, a))
  {
    OthersKeepPc(s, a, t);
    NullingCollides(s, Next(s, a), Cur(s).pc.h, t);
  }

  // ---------------------------------------------------------------- an exchange on a task that is awake

  /** The task a slot names is awake only while it is between claiming the slot and going to sleep in it. */
  lemma AwakeInSlot(s: State, w: Wid)
    requires Inv(s) && w in s.slots
    ensures s.slots[w] in s.tasks
    ensures !SlotWaiting(s, w) <==>
            s.tasks[s.slots[w]].pc == Parking(w) || (s.tasks[s.slots[w]].pc.Swapping? && s.tasks[s.slots[w]].pc.w == w)
  {
    assert SlotOk(s, w);
    assert ParkOk(s, s.slots[w]);
  }

  lemma AwakeTakeSlips(s: State, a: Action)
    requires Inv(s) && Sane(s) && Enabled(s, a) && (a.UnparkTake? || a.SwapTake?) && !TakesWaiting(s)
    ensures !Faultless(Next(s, a))
  {
    AwakeInSlot(s, Cur(s).pc.w);
    var s' := Next(s, a);
    assert s'.tasks[s.current].pc.peer == Cur(s).pc.seen && Cur(s).pc.seen != s.current;
    assert !Grips(s', s.current);
  }

  /** The exchange of `unpark` or `swap` keeps the invariant if and only if it does not succeed on the task it saw while
      that task, woken in between, is on its way back to sleep in the same slot. */
  lemma TakeKeepsInvExactly(s: State, a: Action)
    requires Inv(s) && Sane(s) && Enabled(s, a) && (a.UnparkTake? || a.SwapTake?)
    ensures
      var w, p := Cur(s).pc.w, Cur(s).pc.seen;
      Inv(Next(s, a)) <==>
      !(StillThere(s, w, p) && p in s.tasks
        && (s.tasks[p].pc == Parking(w) || (s.tasks[p].pc.Swapping? && s.tasks[p].pc.w == w)))
  {
    if Cur(s).pc.w in s.slots { AwakeInSlot(s, Cur(s).pc.w); }
    if TakesWaiting(s) {
      TakeKeepsInv(s, a);
    } else {
      AwakeTakeSlips(s, a);
      if Inv(Next(s, a)) { InvIsFaultless(Next(s, a)); }
    }
  }

  // ---------------------------------------------------------------- every step

  lemma ImproperIsFaulty(s: State, a: Action)
    requires Inv(s) && Sane(s) && Enabled(s, a) && !Proper(s, a)
    ensures !Faultless(Next(s, a))
  {
    if HandleTaken(s, a) {
      TakenHandleCollides(s, a);
    } else {
      AwakeTakeSlips(s, a);
    }
  }

  /** The handle is in use, or about to be, by somebody else. */
  ghost predicate HandleTaken(s: State, a: Action)
    requires Sane(s) && Enabled(s, a)
  {
    (Claims(a) && !Unclaimed(s, a.h)) || (Nulls(s, a) && !NobodyElseEntered(s, Cur(s).pc.h))
  }

  lemma TakenHandleCollides(s: State, a: Action)
    requires Sane(s) && Enabled(s, a) && HandleTaken(s, a)
    ensures !Exclusive(Next(s, a))
  {
    if Claims(a) && !Unclaimed(s, a.h) {
      var t :| t in s.tasks && Claim(s.tasks[t].pc) == Some(a.h);
      SecondClaimCollides(s, a, t);
    } else {
      var t :| t in s.tasks && t != s.current && Entered(s.tasks[t].pc) == Some(Cur(s).pc.h);
      NullingStrandsEntered(s, a, t);
    }
  }

  /** Main result about steps: an action keeps the invariant, and leads to no fault, if and only if it is proper. */
  lemma StepKeepsInvExactly(s: State, a: Action)
    requires Inv(s) && Sane(s) && Enabled(s, a)
    ensures Inv(Next(s, a)) <==> Proper(s, a)
    ensures Faultless(Next(s, a)) <==> Proper(s, a)
  {
    if Proper(s, a) {
      StepKeepsInv(s, a);
      InvIsFaultless(Next(s, a));
    } else {
      ImproperIsFaulty(s, a);
      if Inv(Next(s, a)) { InvIsFaultless(Next(s, a)); }
    }
  }

  // ---------------------------------------------------------------- every run

  ghost predicate Can(s: State, a: Action) {
    Sane(s) && Enabled(s, a)
  }

  /** A run by no rules at all. */
  ghost predicate Possible(s: State, acts: seq<Action>)
    decreases |acts|
  {
    acts == [] || (Can(s, acts[0]) && Possible(Next(s, acts[0]), acts[1..]))
  }

  ghost function Played(s: State, acts: seq<Action>): State
    requires Possible(s, acts)
    decreases |acts|
  {
    if acts == [] then s else Played(Next(s, acts[0]), acts[1..])
  }

  ghost predicate AlwaysFaultless(s: State, acts: seq<Action>)
    requires Possible(s, acts)
    decreases |acts|
  {
    Faultless(s) && (acts == [] || AlwaysFaultless(Next(s, acts[0]), acts[1..]))
  }

  lemma FaultyNow(s: State, acts: seq<Action>)
    requires Possible(s, acts) && !Faultless(s)
    ensures !AlwaysFaultless(s, acts)
  {}

  lemma {:induction false} RunFaultlessExactly(s: State, acts: seq<Action>)
    requires Inv(s) && Possible(s, acts)
    ensures AlwaysFaultless(s, acts) <==> Legal(s, acts)
    decreases |acts|
  {
    InvIsFaultless(s);
    if acts != [] {
      StepKeepsInvExactly(s, acts[0]);
      if Proper(s, acts[0]) {
        RunFaultlessExactly(Next(s, acts[0]), acts[1..]);
      } else {
        FaultyNow(Next(s, acts[0]), acts[1..]);
      }
    }
  }

  /** Main result about runs: whatever the tasks do from boot on, every call of `join` and `detach` keeps its handle, no
      two share one, and every exchange of `unpark` and `swap` takes a sleeping task, if and only if every step is
      proper. */
  lemma FaultlessExactly(host: Tid, maxSpare: nat, now: nat, acts: seq<Action>)
    requires Possible(Boot(host, maxSpare, now), acts)
    ensures AlwaysFaultless(Boot(host, maxSpare, now), acts) <==> Legal(Boot(host, maxSpare, now), acts)
  {
    BootInv(host, maxSpare, now);
    RunFaultlessExactly(Boot(host, maxSpare, now), acts);
  }
}
