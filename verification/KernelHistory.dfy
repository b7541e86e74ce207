/** Join, detach and reclaim over whole runs, and the totals of the time ledger. */
module KernelHistory {
  import opened Options
  import opened Freelist
  import opened Kernel
  import opened KernelInv
  import opened KernelSteps
  import opened KernelRuns
  import opened KernelTimes
  import opened KernelExact

  // ---------------------------------------------------------------- join

  /** In every reachable state: a task in the tail of `join` finds its target stopped, unreclaimed and
      still behind its handle, and the value it is about to return is the one that spawn exited with;
      every value ever returned by `join` is the exit value of the same spawn; and no spawn has been
      reclaimed twice. */
  lemma JoinIsCorrect(s: State)
    requires Reachable(s)
    ensures s.current in s.tasks
    ensures Cur(s).pc.JoinWait? || Cur(s).pc.JoinTail? ==>
              var h := Cur(s).pc.h;
              && Live(s, h) && s.tasks[h.t].run.Stopped?
              && h in s.exits && s.tasks[h.t].value == s.exits[h]
    ensures forall h :: h in s.joins ==> h in s.exits && s.joins[h] == s.exits[h]
    ensures forall t :: t in s.tasks ==> s.tasks[t].reclaims <= s.tasks[t].spawns <= s.tasks[t].reclaims + 1
  {
    ReachableInv(s);
    JoinsMatchExits(s);
    if Cur(s).pc.JoinWait? || Cur(s).pc.JoinTail? { TailFindsTargetStopped(s); }
    forall t | t in s.tasks ensures s.tasks[t].reclaims <= s.tasks[t].spawns <= s.tasks[t].reclaims + 1 {
      assert TaskLife(s, t);
    }
  }

  lemma JoinsMatchExits(s: State)
    requires LogExact(s)
    ensures forall h :: h in s.joins ==> h in s.exits && s.joins[h] == s.exits[h]
  {
    forall h | h in s.joins ensures h in s.exits && s.joins[h] == s.exits[h] {
      assert JoinLogged(s, h);
    }
  }

  ghost predicate Extends(m: map<Handle, Val>, m': map<Handle, Val>) {
    forall h :: h in m ==> h in m' && m'[h] == m[h]
  }

  lemma RescheduledHistories(s: State, now1: nat, now2: nat)
    requires CanReschedule(s)
    ensures Rescheduled(s, now1, now2).exits == s.exits && Rescheduled(s, now1, now2).joins == s.joins
  {
    CanPop(s, now1);
    AtPopHistories(s, now1);
    DispatchedHistories(AtPop(s, now1), now2);
  }

  lemma AtPopHistories(s: State, now1: nat)
    requires CanReschedule(s)
    ensures AtPop(s, now1).exits == s.exits && AtPop(s, now1).joins == s.joins
  {}

  lemma DispatchedHistories(p: State, now: nat)
    requires p.current in p.tasks && Known(p.tasks, p.rq) && Candidates(p) != []
    ensures Dispatched(p, now).exits == p.exits && Dispatched(p, now).joins == p.joins
  {}

  lemma ReturnHistories(s: State, h: Handle)
    requires LogExact(s) && s.current in s.tasks && Live(s, h)
    ensures TailReturned(s, h).exits == s.exits && TailReturned(s, h).joins == s.joins
    ensures JoinReturned(s, h).exits == s.exits && h !in s.joins
    ensures JoinReturned(s, h).joins == s.joins[h := s.tasks[h.t].value]
  {
    assert h in s.joins ==> JoinLogged(s, h);
  }

  lemma ExitingHistories(s: State, v: Val)
    requires LogExact(s) && s.current in s.tasks && !Cur(s).run.Stopped? && Known(s.tasks, s.rq)
    requires Cur(s).joiner.Some? ==> Cur(s).joiner.value in s.tasks
    ensures Exiting(s, v).joins == s.joins && Handle(s.current, Cur(s).spawns) !in s.exits
    ensures Exiting(s, v).exits == s.exits[Handle(s.current, Cur(s).spawns) := v]
  {
    var h := Handle(s.current, Cur(s).spawns);
    assert h in s.exits ==> ExitLogged(s, h);
  }

  lemma EnteringHistories(s: State, a: Action)
    requires Inv(s) && May(s, a) && Reschedules(a)
    ensures Entering(s, a).joins == s.joins
    ensures Entering(s, a).exits == if a.Exit? then s.exits[Handle(s.current, Cur(s).spawns) := a.value] else s.exits
    ensures a.Exit? ==> Handle(s.current, Cur(s).spawns) !in s.exits
  {
    if a.Exit? { ExitingHistories(s, a.value); }
  }

  lemma PlainHistories(s: State, a: Action)
    requires Sane(s) && Enabled(s, a) && !Reschedules(a) && !Spawns(a) && !a.UnparkFinish? && !a.SwapFinish?
    requires !a.JoinReturn? && !a.DetachReturn?
    ensures Next(s, a).exits == s.exits && Next(s, a).joins == s.joins
  {
    if !a.Detach? { StepOnlyMoves(s, a); }
  }

  lemma SwapHistories(s: State, now: nat)
    requires Sane(s) && Enabled(s, SwapFinish(now))
    ensures SwappedTo(s, now).exits == s.exits && SwappedTo(s, now).joins == s.joins
  {
    SwapFinishSwaps(s, now);
  }

  lemma SpawnHistories(s: State, a: Action)
    requires Inv(s) && May(s, a) && Spawns(a)
    ensures Next(s, a).exits == s.exits && Next(s, a).joins == s.joins
  {
    if a.SpawnMake? {
      ChoiceIsIdle(s, a);
      var k := MakeEffect(s, a.attr, a.addr, a.total);
    } else {
      FinishEffect(s);
    }
  }

  lemma QuietHistories(s: State, a: Action)
    requires Inv(s) && May(s, a) && !Reschedules(a)
    ensures Next(s, a).exits == s.exits && JoinStep(s, a, Next(s, a))
  {
    if a.JoinReturn? || a.DetachReturn? {
      TailFindsTargetStopped(s);
      ReturnHistories(s, Cur(s).pc.h);
    } else if Spawns(a) {
      SpawnHistories(s, a);
    } else if a.UnparkFinish? {
      UnparkEffect(s);
    } else if a.SwapFinish? {
      SwapHistories(s, a.now1);
    } else {
      PlainHistories(s, a);
    }
  }

  /** `join` takes the value of the stopped task, once for each spawn; nothing else takes one. */
  ghost predicate JoinStep(s: State, a: Action, s': State)
    requires s.current in s.tasks
  {
    if a.JoinReturn? && (Cur(s).pc.JoinWait? || Cur(s).pc.JoinTail?) then
      var h := Cur(s).pc.h;
      h.t in s.tasks && h !in s.joins && s'.joins == s.joins[h := s.tasks[h.t].value]
    else s'.joins == s.joins
  }

  /** `exit` leaves its argument, once for each spawn; nothing else leaves one. */
  ghost predicate ExitStep(s: State, a: Action, s': State)
    requires s.current in s.tasks
  {
    if a.Exit? then
      var h := Handle(s.current, Cur(s).spawns);
      h !in s.exits && s'.exits == s.exits[h := a.value]
    else s'.exits == s.exits
  }

  /** Exit and join values are recorded once per spawn, by `exit` and `join` alone, and never revised. */
  lemma HistoriesOnlyGrow(s: State, a: Action)
    requires Inv(s) && May(s, a)
    ensures ExitStep(s, a, Next(s, a)) && JoinStep(s, a, Next(s, a))
    ensures Extends(s.exits, Next(s, a).exits) && Extends(s.joins, Next(s, a).joins)
  {
    if Reschedules(a) {
      LeaveHistories(s, a);
    } else {
      QuietHistories(s, a);
    }
  }

  lemma LeaveHistories(s: State, a: Action)
    requires Inv(s) && May(s, a) && Reschedules(a)
    ensures ExitStep(s, a, Next(s, a)) && JoinStep(s, a, Next(s, a))
  {
    EnteringReschedules(s, a);
    EnteringHistories(s, a);
    RescheduledHistories(Entering(s, a), a.now1, a.now2);
  }

  // ---------------------------------------------------------------- values read off the actions of a run

  /** In the run `acts` from `s` the spawn behind `h` calls `exit(v)`. */
  ghost predicate ExitsWith(s: State, acts: seq<Action>, h: Handle, v: Val)
    requires Legal(s, acts)
    decreases |acts|
  {
    acts != [] &&
    (|| (acts[0].Exit? && acts[0].value == v && h == Handle(s.current, Cur(s).spawns))
     || ExitsWith(Next(s, acts[0]), acts[1..], h, v))
  }

  /** In that run some `join` gets as far as taking the value behind `h`. */
  ghost predicate IsJoined(s: State, acts: seq<Action>, h: Handle)
    requires Legal(s, acts)
    decreases |acts|
  {
    acts != [] &&
    (|| (acts[0].JoinReturn? && (Cur(s).pc == JoinWait(h) || Cur(s).pc == JoinTail(h)))
     || IsJoined(Next(s, acts[0]), acts[1..], h))
  }

  lemma {:induction false} ExitsAreActions(s: State, acts: seq<Action>, h: Handle, v: Val)
    requires Inv(s) && Legal(s, acts)
    ensures h in Exec(s, acts).exits && Exec(s, acts).exits[h] == v <==>
            (h in s.exits && s.exits[h] == v) || ExitsWith(s, acts, h, v)
    ensures h in s.exits ==> !ExitsWith(s, acts, h, v)
    decreases |acts|
  {
    if acts != [] {
      HistoriesOnlyGrow(s, acts[0]);
      StepKeepsInv(s, acts[0]);
      ExitsAreActions(Next(s, acts[0]), acts[1..], h, v);
    }
  }

  lemma {:induction false} JoinsAreActions(s: State, acts: seq<Action>, h: Handle)
    requires Inv(s) && Legal(s, acts)
    ensures h in Exec(s, acts).joins <==> h in s.joins || IsJoined(s, acts, h)
    decreases |acts|
  {
    if acts != [] {
      HistoriesOnlyGrow(s, acts[0]);
      StepKeepsInv(s, acts[0]);
      JoinsAreActions(Next(s, acts[0]), acts[1..], h);
    }
  }

  /** Main result about values: over every legal run from boot, `join` has taken a value for a handle exactly if one of
      its steps did so, and then that value is the argument of the `exit` that the handle's spawn called in the run;
      there was exactly one such argument. */
  lemma JoinTakesExitArgument(host: Tid, maxSpare: nat, now: nat, acts: seq<Action>, h: Handle)
    requires Legal(Boot(host, maxSpare, now), acts)
    ensures
      var b := Boot(host, maxSpare, now);
      var s := Exec(b, acts);
      && (h in s.joins <==> IsJoined(b, acts, h))
      && (h in s.joins ==> forall v: Val :: ExitsWith(b, acts, h, v) <==> v == s.joins[h])
  {
    var b := Boot(host, maxSpare, now);
    BootInv(host, maxSpare, now);
    JoinsAreActions(b, acts, h);
    if h in Exec(b, acts).joins {
      RunKeepsInv(b, acts);
      JoinsMatchExits(Exec(b, acts));
      forall v: Val ensures ExitsWith(b, acts, h, v) <==> v == Exec(b, acts).joins[h] {
        ExitsAreActions(b, acts, h, v);
      }
    }
  }

  // ---------------------------------------------------------------- deferred reclaim

  /** The deferred task has stopped, is detached, is not running and is in no queue, slot or hand. */
  lemma DeferredTaskIsQuiet(s: State)
    requires Reachable(s) && s.deferred.Some?
    ensures
      var d := s.deferred.value;
      && d in s.tasks && d != s.current && s.tasks[d].run.Stopped? && s.tasks[d].detached && s.tasks[d].Outstanding()
      && d !in s.rq && Handle(d, s.tasks[d].spawns) !in s.handles
      && (forall w :: w in s.slots ==> s.slots[w] != d) && !Held(s, d)
      && (forall t :: t in s.tasks ==> Claim(s.tasks[t].pc) != Some(Handle(d, s.tasks[d].spawns)))
  {
    ReachableInv(s);
    var d := s.deferred.value;
    assert TaskLife(s, d);
    forall w | w in s.slots ensures s.slots[w] != d { assert SlotOk(s, w) && ParkOk(s, d); }
    forall u | u in s.tasks ensures Holds(s.tasks[u]) != Some(d) { assert HoldOk(s, u) && ParkOk(s, d); }
    InvIsExclusive(s);
  }

  lemma DispatchedReclaims(s: State, now: nat, d: Tid)
    requires s.current in s.tasks && Known(s.tasks, s.rq) && Candidates(s) != [] && d in s.tasks
    ensures d in Dispatched(s, now).tasks && Dispatched(s, now).tasks[d].reclaims == s.tasks[d].reclaims
  {}

  lemma RescheduledReturnsDeferred(s: State, now1: nat, now2: nat, d: Tid)
    requires CanReschedule(s) && s.deferred == Some(d)
    ensures d in Rescheduled(s, now1, now2).tasks
    ensures Rescheduled(s, now1, now2).tasks[d].reclaims == s.tasks[d].reclaims + 1
  {
    CanPop(s, now1);
    assert AtPop(s, now1).tasks[d].reclaims == s.tasks[d].reclaims + 1;
    DispatchedReclaims(AtPop(s, now1), now2, d);
  }

  /** A deferred task stays deferred until the first `sched_node::yield`, which gives it to the free
      list exactly once, on another task's stack; the slot is never overwritten while full. */
  lemma DeferredIsReclaimedOnce(s: State, a: Action, d: Tid)
    requires Inv(s) && May(s, a) && s.deferred == Some(d)
    ensures d in Next(s, a).tasks && d != s.current
    ensures if Reschedules(a) then Next(s, a).tasks[d].reclaims == s.tasks[d].reclaims + 1
            else Next(s, a).deferred == Some(d) && Next(s, a).tasks[d].reclaims == s.tasks[d].reclaims
  {
    assert TaskLife(s, d);
    if Reschedules(a) {
      EnteringIsSound(s, a);
      EnteringKeepsDeferred(s, a, d);
      RescheduledReturnsDeferred(Entering(s, a), a.now1, a.now2, d);
    } else {
      QuietKeepsDeferred(s, a, d);
    }
  }

  lemma EnteringKeepsDeferred(s: State, a: Action, d: Tid)
    requires Inv(s) && May(s, a) && Reschedules(a) && s.deferred == Some(d)
    ensures
      var e := Entering(s, a);
      e.deferred == Some(d) && d in e.tasks && e.tasks[d].reclaims == s.tasks[d].reclaims
  {
    assert d in s.tasks;
    EnteringFrame(s, a, d);
  }

  lemma EnteringFrame(s: State, a: Action, d: Tid)
    requires May(s, a) && Reschedules(a) && d in s.tasks
    ensures
      var e := Entering(s, a);
      e.deferred == s.deferred && d in e.tasks && e.tasks[d].reclaims == s.tasks[d].reclaims
  {}

  lemma TailReturnKeepsDeferred(s: State, a: Action, d: Tid)
    requires Inv(s) && May(s, a) && (a.JoinReturn? || a.DetachReturn?) && s.deferred == Some(d)
    ensures
      var s' := Next(s, a);
      s'.deferred == Some(d) && d in s'.tasks && s'.tasks[d].reclaims == s.tasks[d].reclaims
  {
    TailFindsTargetStopped(s);
    ReturnKeepsOthers(s, Cur(s).pc.h, d);
  }

  lemma QuietKeepsDeferred(s: State, a: Action, d: Tid)
    requires Inv(s) && May(s, a) && !Reschedules(a) && s.deferred == Some(d)
    ensures
      var s' := Next(s, a);
      s'.deferred == Some(d) && d in s'.tasks && s'.tasks[d].reclaims == s.tasks[d].reclaims
  {
    if a.JoinReturn? || a.DetachReturn? {
      TailReturnKeepsDeferred(s, a, d);
    } else if Spawns(a) {
      SpawnKeepsDeferred(s, a, d);
    } else if a.UnparkFinish? {
      UnparkEffect(s);
    } else if a.SwapFinish? {
      SwapFinishSwaps(s, a.now1);
    } else {
      PlainKeepsDeferred(s, a, d);
    }
  }

  lemma PlainKeepsDeferred(s: State, a: Action, d: Tid)
    requires Sane(s) && Enabled(s, a) && !Reschedules(a) && !Spawns(a) && !a.UnparkFinish? && !a.SwapFinish?
    requires !a.JoinReturn? && !a.DetachReturn? && d in s.tasks
    ensures
      var s' := Next(s, a);
      s'.deferred == s.deferred && d in s'.tasks && s'.tasks[d].reclaims == s.tasks[d].reclaims
  {
    if !a.Detach? { StepOnlyMoves(s, a); }
  }

  lemma ReturnKeepsOthers(s: State, h: Handle, d: Tid)
    requires h.t in s.tasks && s.current in s.tasks && d in s.tasks && d != h.t
    ensures TailReturned(s, h).deferred == s.deferred && JoinReturned(s, h).deferred == s.deferred
    ensures d in TailReturned(s, h).tasks && TailReturned(s, h).tasks[d].reclaims == s.tasks[d].reclaims
    ensures d in JoinReturned(s, h).tasks && JoinReturned(s, h).tasks[d].reclaims == s.tasks[d].reclaims
  {}

  lemma SpawnKeepsDeferred(s: State, a: Action, d: Tid)
    requires Inv(s) && May(s, a) && Spawns(a) && s.deferred == Some(d)
    ensures
      var s' := Next(s, a);
      s'.deferred == Some(d) && d in s'.tasks && s'.tasks[d].reclaims == s.tasks[d].reclaims
  {
    if a.SpawnMake? {
      ChoiceIsIdle(s, a);
      var k := MakeEffect(s, a.attr, a.addr, a.total);
    } else {
      FinishEffect(s);
    }
  }

  // ---------------------------------------------------------------- totals over a run

  /** How often the clock is read for a switch, and how much of it passes between the two readings of one. */
  function Switches(acts: seq<Action>): nat {
    if acts == [] then 0 else (if Ticks(acts[0]) then 1 else 0) + Switches(acts[1..])
  }

  function Gaps(acts: seq<Action>): int {
    if acts == [] then 0 else (if Ticks(acts[0]) then TickOf(acts[0]) - acts[0].now1 else 0) + Gaps(acts[1..])
  }

  /** Main result about the ledger: over any run, the clock time that passes is the processor time charged, plus what
      passes between the two clock readings of each switch, plus less than a microsecond for each switch. */
  lemma {:induction false} ChargesFitElapsedTime(s: State, acts: seq<Action>)
    requires Inv(s) && Legal(s, acts)
    ensures s.charged <= Exec(s, acts).charged
    ensures
      var charge, elapsed := 1000 * (Exec(s, acts).charged - s.charged), Exec(s, acts).lastTick - s.lastTick;
      charge + Gaps(acts) <= elapsed <= charge + Gaps(acts) + 999 * Switches(acts)
    decreases |acts|
  {
    if acts == [] {
    } else {
      StepFitsElapsedTime(s, acts[0]);
      ChargesFitElapsedTime(Next(s, acts[0]), acts[1..]);
    }
  }

  lemma StepFitsElapsedTime(s: State, a: Action)
    requires Inv(s) && May(s, a)
    ensures Inv(Next(s, a)) && LedgerStep(s, a, Next(s, a)) && s.charged <= Next(s, a).charged
  {
    EveryStepKeepsTime(s, a, s.current);
    StepKeepsInv(s, a);
  }

  /** The largest virtual runtime of a task popped during a run. */
  ghost function LargestPopped(s: State, acts: seq<Action>): nat
    requires Legal(s, acts)
    decreases |acts|
  {
    if acts == [] then 0
    else
      var s' := Next(s, acts[0]);
      var rest := LargestPopped(s', acts[1..]);
      if Reschedules(acts[0]) && s'.current in s'.tasks then Max(s'.tasks[s'.current].vruntime, rest) else rest
  }

  /** `_min_vruntime` never falls and is the largest key popped so far. */
  lemma {:induction false} MinVruntimeIsLargestPopped(s: State, acts: seq<Action>)
    requires Inv(s) && Legal(s, acts)
    ensures Exec(s, acts).minVruntime == Max(s.minVruntime, LargestPopped(s, acts))
    decreases |acts|
  {
    if acts == [] {
    } else {
      EveryStepKeepsTime(s, acts[0], s.current);
      StepKeepsInv(s, acts[0]);
      MinVruntimeIsLargestPopped(Next(s, acts[0]), acts[1..]);
    }
  }
}
