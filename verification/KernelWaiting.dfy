/** How long a queued task can wait for the processor. */
module KernelWaiting {
  import opened Freelist
  import opened Kernel
  import opened KernelInv
  import opened KernelSteps
  import opened KernelRuns
  import opened KernelTimes
  import opened KernelFair

  /** One competitor's credit against a task at virtual runtime `v`. */
  function Credit(v: nat, vi: nat): nat {
    if vi <= v then v - vi + 1 else 0
  }

  /** The competitors of `t` among the addresses below `n`, added up. */
  ghost function Potential(s: State, t: Tid, n: nat): nat
    requires t in s.tasks
  {
    if n == 0 then 0
    else
      Potential(s, t, n - 1) +
      (if n - 1 != t && n - 1 in s.tasks && Runnable(s, n - 1)
       then Credit(s.tasks[t].vruntime, s.tasks[n - 1].vruntime) else 0)
  }

  /** Only the outgoing task's key may rise, everybody stays runnable, and the pick is at most `t`'s key. */
  lemma YieldEffect(s: State, a: Action, t: Tid)
    requires Inv(s) && May(s, a) && a.Yield? && t in s.rq
    ensures
      var s' := Next(s, a);
      && s'.tasks.Keys == s.tasks.Keys && s'.current in s'.tasks && t in s.tasks
      && (forall u :: Runnable(s', u) <==> Runnable(s, u))
      && (forall u :: u in s.tasks && u != s.current ==> s'.tasks[u].vruntime == s.tasks[u].vruntime)
      && s'.tasks[s.current].vruntime >= s.tasks[s.current].vruntime
      && (s'.tasks[s.current].vruntime > s.tasks[s.current].vruntime <==> a.now1 >= s.lastTick + 1000)
      && (s'.current != t ==> t in s'.rq && Ahead(s', s'.current, t))
  {
    var s' := Next(s, a);
    RescheduledTimes(s, a.now1, a.now2);
    forall u ensures Runnable(s', u) <==> Runnable(s, u) { RescheduledRunnable(s, a.now1, a.now2, u); }
    if s'.current != t {
      assert Runnable(s', t);
      PopYieldsMinimum(s, a.now1, a.now2, t);
    }
  }

  lemma {:induction false} PotentialFalls(s: State, s': State, t: Tid, n: nat)
    requires t in s.tasks && s.current in s.tasks && s.current != t && s'.tasks.Keys == s.tasks.Keys
    requires forall u :: Runnable(s', u) <==> Runnable(s, u)
    requires forall u :: u in s.tasks && u != s.current ==> s'.tasks[u].vruntime == s.tasks[u].vruntime
    requires s'.tasks[s.current].vruntime >= s.tasks[s.current].vruntime
    ensures Potential(s', t, n) <= Potential(s, t, n)
    ensures (s'.tasks[s.current].vruntime > s.tasks[s.current].vruntime && s.current < n
             && s.tasks[s.current].vruntime <= s.tasks[t].vruntime) ==> Potential(s', t, n) < Potential(s, t, n)
  {
    if n == 0 {
    } else {
      PotentialFalls(s, s', t, n - 1);
    }
  }

  lemma {:induction false} PotentialIsPositive(s: State, t: Tid, n: nat)
    requires t in s.tasks && s.current in s.tasks && s.current != t && s.current < n
    requires s.tasks[s.current].vruntime <= s.tasks[t].vruntime
    ensures Potential(s, t, n) >= 1
  {
    if s.current == n - 1 {
    } else {
      PotentialIsPositive(s, t, n - 1);
    }
  }

  // ---------------------------------------------------------------- how often it can be passed over

  /** A run of yields during which `t` never gets the processor. */
  ghost predicate PassedOver(s: State, acts: seq<Action>, t: Tid)
    decreases |acts|
  {
    && s.current != t
    && (acts == [] || (May(s, acts[0]) && acts[0].Yield? && PassedOver(Next(s, acts[0]), acts[1..], t)))
  }

  /** How many of the yields came a microsecond or more after the dispatch. */
  ghost function ChargedTurns(s: State, acts: seq<Action>, t: Tid): nat
    requires PassedOver(s, acts, t)
    decreases |acts|
  {
    if acts == [] then 0
    else (if acts[0].now1 >= s.lastTick + 1000 then 1 else 0) + ChargedTurns(Next(s, acts[0]), acts[1..], t)
  }

  ghost predicate BelowAll(s: State, n: nat) {
    forall u :: u in s.tasks ==> u < n
  }

  /** What a yield that passes `t` over costs. */
  lemma TurnCosts(s: State, a: Action, t: Tid, n: nat)
    requires Inv(s) && May(s, a) && a.Yield? && t in s.rq && s.current != t && BelowAll(s, n) && Next(s, a).current != t
    ensures
      var s' := Next(s, a);
      && Inv(s') && t in s'.rq && BelowAll(s', n) && s.current in s.tasks && t in s.tasks && t in s'.tasks
      && s'.current in s'.tasks && s'.tasks[s'.current].vruntime <= s'.tasks[t].vruntime
      && Potential(s', t, n) <= Potential(s, t, n)
      && (a.now1 >= s.lastTick + 1000 && s.tasks[s.current].vruntime <= s.tasks[t].vruntime ==>
            Potential(s', t, n) < Potential(s, t, n))
  {
    YieldEffect(s, a, t);
    PotentialFalls(s, Next(s, a), t, n);
    StepKeepsInv(s, a);
  }

  /** Once the running task is itself no further on than `t`, each further charged turn costs a credit. */
  lemma {:induction false} TurnsCostCredit(s: State, acts: seq<Action>, t: Tid, n: nat)
    requires Inv(s) && t in s.rq && BelowAll(s, n) && PassedOver(s, acts, t)
    requires t in s.tasks && s.tasks[s.current].vruntime <= s.tasks[t].vruntime
    ensures ChargedTurns(s, acts, t) + 1 <= Potential(s, t, n)
    decreases |acts|
  {
    if acts == [] {
      PotentialIsPositive(s, t, n);
    } else {
      TurnCosts(s, acts[0], t, n);
      TurnsCostCredit(Next(s, acts[0]), acts[1..], t, n);
    }
  }

  /** Main result: in any run of yields, of the yields that pass a queued task `t` over at most `Potential` charge
      anything, the sum over the competitors of max(0, v - v_i + 1). */
  lemma BoundedWaiting(s: State, acts: seq<Action>, t: Tid, n: nat)
    requires Inv(s) && t in s.rq && BelowAll(s, n) && PassedOver(s, acts, t)
    ensures t in s.tasks && ChargedTurns(s, acts, t) <= Potential(s, t, n)
  {
    if acts == [] {
    } else {
      TurnCosts(s, acts[0], t, n);
      TurnsCostCredit(Next(s, acts[0]), acts[1..], t, n);
    }
  }

  ghost predicate EveryTurnCharged(s: State, acts: seq<Action>, t: Tid)
    requires PassedOver(s, acts, t)
    decreases |acts|
  {
    acts == [] || (acts[0].now1 >= s.lastTick + 1000 && EveryTurnCharged(Next(s, acts[0]), acts[1..], t))
  }

  lemma {:induction false} AllTurnsCount(s: State, acts: seq<Action>, t: Tid)
    requires PassedOver(s, acts, t) && EveryTurnCharged(s, acts, t)
    ensures ChargedTurns(s, acts, t) == |acts|
    decreases |acts|
  {
    if acts != [] { AllTurnsCount(Next(s, acts[0]), acts[1..], t); }
  }

  /** In particular, if every slice is at least a microsecond then `t` is dispatched after that many turns. */
  lemma LongSlicesBoundWaiting(s: State, acts: seq<Action>, t: Tid, n: nat)
    requires Inv(s) && t in s.rq && BelowAll(s, n) && PassedOver(s, acts, t) && EveryTurnCharged(s, acts, t)
    ensures t in s.tasks && |acts| <= Potential(s, t, n)
  {
    BoundedWaiting(s, acts, t, n);
    AllTurnsCount(s, acts, t);
  }

  // ---------------------------------------------------------------- exactly when it can wait for ever

  /** Some other runnable task has a smaller key than `t`, or the same and a lower address. */
  ghost predicate Overtaken(s: State, t: Tid) {
    exists u :: Runnable(s, u) && u != t && u in s.tasks && t in s.tasks && Ahead(s, u, t)
  }

  ghost predicate Ahead(s: State, u: Tid, t: Tid)
    requires u in s.tasks && t in s.tasks
  {
    s.tasks[u].vruntime < s.tasks[t].vruntime || (s.tasks[u].vruntime == s.tasks[t].vruntime && u < t)
  }

  /** Yields by tasks that have run for less than a microsecond. */
  ghost predicate ShortRun(s: State, acts: seq<Action>)
    decreases |acts|
  {
    acts == [] || (May(s, acts[0]) && acts[0].Yield? && acts[0].now1 < s.lastTick + 1000
                   && ShortRun(Next(s, acts[0]), acts[1..]))
  }

  lemma ShortYieldSkips(s: State, a: Action, t: Tid)
    requires Inv(s) && May(s, a) && a.Yield? && a.now1 < s.lastTick + 1000 && t in s.rq && Overtaken(s, t)
    ensures Next(s, a).current != t && t in Next(s, a).rq && Overtaken(Next(s, a), t)
  {
    var u :| Runnable(s, u) && u != t && u in s.tasks && t in s.tasks && Ahead(s, u, t);
    YieldEffect(s, a, t);
    KeysStill(s, Next(s, a), u, t);
    assert Runnable(Next(s, a), u);
    YieldPicksFirst(s, a, u, t);
  }

  lemma YieldPicksFirst(s: State, a: Action, u: Tid, t: Tid)
    requires Inv(s) && May(s, a) && a.Yield? && u != t && t in s.tasks && u in s.tasks
    requires
      var s' := Next(s, a);
      Runnable(s', u) && t in s'.tasks && u in s'.tasks && Ahead(s', u, t)
    ensures Next(s, a).current != t
  {
    if Next(s, a).current == t {
      PopYieldsMinimum(s, a.now1, a.now2, u);
    }
  }

  lemma KeysStill(s: State, s': State, u: Tid, t: Tid)
    requires u in s.tasks && t in s.tasks && s'.tasks.Keys == s.tasks.Keys && s.current in s.tasks
    requires forall x :: x in s.tasks && x != s.current ==> s'.tasks[x].vruntime == s.tasks[x].vruntime
    requires s'.tasks[s.current].vruntime == s.tasks[s.current].vruntime
    ensures Ahead(s', u, t) == Ahead(s, u, t)
  {}

  /** However often tasks yield within a microsecond of being dispatched, and however far the clock advances
      in doing so, a task that comes after another runnable task, be it only by address, is never dispatched. */
  lemma {:induction false} ShortSlicesStarve(s: State, acts: seq<Action>, t: Tid)
    requires Inv(s) && t in s.rq && Overtaken(s, t) && ShortRun(s, acts)
    ensures PassedOver(s, acts, t)
    decreases |acts|
  {
    assert s.current !in s.rq;
    if acts != [] {
      ShortYieldSkips(s, acts[0], t);
      StepKeepsInv(s, acts[0]);
      ShortSlicesStarve(Next(s, acts[0]), acts[1..], t);
    }
  }

  /** `n` yields a nanosecond apart. */
  ghost function TickYields(now: nat, n: nat): (acts: seq<Action>)
    ensures |acts| == n
    decreases n
  {
    if n == 0 then [] else [Yield(now + 1, now + 1)] + TickYields(now + 1, n - 1)
  }

  lemma TickStep(s: State)
    requires Inv(s)
    ensures
      var a := Yield(s.lastTick + 1, s.lastTick + 1);
      May(s, a) && Inv(Next(s, a)) && Next(s, a).lastTick == s.lastTick + 1
  {
    var a := Yield(s.lastTick + 1, s.lastTick + 1);
    InvIsSane(s);
    StepKeepsInv(s, a);
    RescheduledTimes(s, s.lastTick + 1, s.lastTick + 1);
  }

  lemma {:induction false} TicksAreShort(s: State, n: nat)
    requires Inv(s)
    ensures ShortRun(s, TickYields(s.lastTick, n))
    decreases n
  {
    if n > 0 {
      var a := Yield(s.lastTick + 1, s.lastTick + 1);
      var acts := TickYields(s.lastTick, n);
      TickStep(s);
      TicksAreShort(Next(s, a), n - 1);
      assert acts[0] == a && acts[1..] == TickYields(s.lastTick + 1, n - 1);
    }
  }

  /** Whoever gets the processor instead of `t` came before it already. */
  lemma SkippedWasOvertaken(s: State, a: Action, t: Tid)
    requires Inv(s) && May(s, a) && a.Yield? && t in s.rq && Next(s, a).current != t
    ensures Overtaken(s, t)
  {
    var c := Next(s, a).current;
    YieldEffect(s, a, t);
    assert Runnable(Next(s, a), c);
    assert Runnable(s, c) && Ahead(s, c, t);
  }

  lemma PassedOverOnce(s: State, acts: seq<Action>, t: Tid)
    requires Inv(s) && t in s.rq && acts != [] && PassedOver(s, acts, t)
    ensures Overtaken(s, t)
  {
    assert PassedOver(Next(s, acts[0]), acts[1..], t);
    SkippedWasOvertaken(s, acts[0], t);
  }

  ghost predicate CanBePassedOver(s: State, t: Tid, n: nat) {
    exists acts :: |acts| == n && PassedOver(s, acts, t)
  }

  lemma OvertakenCanWait(s: State, t: Tid, n: nat)
    requires Inv(s) && t in s.rq && Overtaken(s, t)
    ensures CanBePassedOver(s, t, n)
  {
    TicksAreShort(s, n);
    ShortSlicesStarve(s, TickYields(s.lastTick, n), t);
  }

  /** Main result: a queued task can be kept waiting through any number of yields if and only if some other
      runnable task, by key and then by address, comes before it. */
  lemma WaitsForeverExactly(s: State, t: Tid)
    requires Inv(s) && t in s.rq
    ensures (forall n: nat :: CanBePassedOver(s, t, n)) <==> Overtaken(s, t)
  {
    if Overtaken(s, t) {
      forall n: nat ensures CanBePassedOver(s, t, n) { OvertakenCanWait(s, t, n); }
    } else if CanBePassedOver(s, t, 1) {
      var acts :| |acts| == 1 && PassedOver(s, acts, t);
      PassedOverOnce(s, acts, t);
    }
  }
}
