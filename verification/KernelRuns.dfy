/** What holds in every reachable state of the scheduler and along every run. */
module KernelRuns {
  import opened Options
  import opened Freelist
  import opened Kernel
  import opened KernelInv
  import opened KernelSteps

  // ---------------------------------------------------------------- runs

  ghost predicate May(s: State, a: Action) {
    Sane(s) && Enabled(s, a) && Proper(s, a)
  }

  ghost predicate Legal(s: State, acts: seq<Action>)
    decreases |acts|
  {
    acts == [] || (May(s, acts[0]) && Legal(Next(s, acts[0]), acts[1..]))
  }

  ghost function Exec(s: State, acts: seq<Action>): State
    requires Legal(s, acts)
    decreases |acts|
  {
    if acts == [] then s else Exec(Next(s, acts[0]), acts[1..])
  }

  lemma {:induction false} RunKeepsInv(s: State, acts: seq<Action>)
    requires Inv(s) && Legal(s, acts)
    ensures Inv(Exec(s, acts))
    decreases |acts|
  {
    if acts == [] {
    } else {
      StepKeepsInv(s, acts[0]);
      RunKeepsInv(Next(s, acts[0]), acts[1..]);
    }
  }

  /** The invariant, to be looked into only where `Inv` is mentioned. */
  ghost predicate Sound(b: State) {
    forall z {:trigger Inv(z)} :: z == b ==> Inv(z)
  }

  ghost predicate Reachable(s: State) {
    exists host: Tid, maxSpare: nat, now: nat, acts: seq<Action> ::
      Legal(Boot(host, maxSpare, now), acts) && Exec(Boot(host, maxSpare, now), acts) == s
  }

  /** In a reachable state nothing dangles, so every enabled proper action can be taken. */
  lemma ReachableInv(s: State)
    requires Reachable(s)
    ensures Inv(s) && Sane(s)
  {
    var host: Tid, maxSpare: nat, now: nat, acts: seq<Action> :|
      Legal(Boot(host, maxSpare, now), acts) && Exec(Boot(host, maxSpare, now), acts) == s;
    BootInv(host, maxSpare, now);
    RunKeepsInv(Boot(host, maxSpare, now), acts);
    InvIsSane(s);
  }

  lemma ReachableIsSane(s: State)
    requires Reachable(s)
    ensures Sane(s)
  {
    ReachableInv(s);
  }

  lemma Prefixed(s: State, x: Action, m: State, rest: seq<Action>)
    requires May(s, x) && m == Next(s, x) && Legal(m, rest)
    ensures Legal(s, [x] + rest) && Exec(s, [x] + rest) == Exec(m, rest)
  {
    assert ([x] + rest)[1..] == rest;
  }

  lemma FirstThenRest(s: State, acts: seq<Action>) returns (m: State)
    requires Legal(s, acts) && acts != []
    ensures May(s, acts[0]) && m == Next(s, acts[0]) && Legal(m, acts[1..]) && Exec(s, acts) == Exec(m, acts[1..])
  {
    m := Next(s, acts[0]);
  }

  lemma {:induction false} Extend(s: State, acts: seq<Action>, a: Action)
    requires Legal(s, acts) && May(Exec(s, acts), a)
    ensures Legal(s, acts + [a]) && Exec(s, acts + [a]) == Next(Exec(s, acts), a)
    decreases |acts|
  {
    if acts == [] {
      assert [a][1..] == [];
    } else {
      var m := FirstThenRest(s, acts);
      Extend(m, acts[1..], a);
      Prefixed(s, acts[0], m, acts[1..] + [a]);
      assert acts + [a] == [acts[0]] + (acts[1..] + [a]);
    }
  }

  lemma Advance(s: State, a: Action)
    requires Reachable(s) && May(s, a)
    ensures Reachable(Next(s, a))
  {
    var host: Tid, maxSpare: nat, now: nat, acts: seq<Action> :|
      Legal(Boot(host, maxSpare, now), acts) && Exec(Boot(host, maxSpare, now), acts) == s;
    Extend(Boot(host, maxSpare, now), acts, a);
  }

  // ---------------------------------------------------------------- every task is in exactly one place

  datatype Place =
    | OnProcessor
    | InRunqueue(i: nat)
    | InWaiter(w: Wid)
    | MadeBy(u: Tid)        // made by `spawn`, which has yet to schedule it
    | HeldBy(u: Tid)        // taken out of a waiter by a task that has yet to schedule or resume it
    | JoinerOf(u: Tid)
    | StoppedUnjoined
    | Deferred
    | InFreelist(i: nat)
    | Destroyed

  ghost predicate At(s: State, t: Tid, p: Place)
    requires t in s.tasks
  {
    var k := s.tasks[t];
    match p
    case OnProcessor => s.current == t
    case InRunqueue(i) => i < |s.rq| && s.rq[i] == t
    case InWaiter(w) => w in s.slots && s.slots[w] == t && k.run.Waiting?
    case MadeBy(u) => u in s.tasks && s.tasks[u].pc == Spawning(t)
    case HeldBy(u) => u in s.tasks && Holds(s.tasks[u]) == Some(t) && !s.tasks[u].pc.Spawning?
    case JoinerOf(u) =>
      u in s.tasks && s.tasks[u].Outstanding() && !s.tasks[u].run.Stopped? && s.tasks[u].joiner == Some(t)
    case StoppedUnjoined => k.run.Stopped? && k.Outstanding() && !k.detached
    case Deferred => s.deferred == Some(t)
    case InFreelist(i) => i < |s.spare| && s.spare[i].id == t
    case Destroyed => t in s.destroyed
  }

  /** The place follows from the run state, up to a choice the other fields settle. */
  lemma PlaceByRunState(s: State, t: Tid, p: Place)
    requires Inv(s) && t in s.tasks && At(s, t, p)
    ensures s.tasks[t].run.Running? <==> p.OnProcessor?
    ensures s.tasks[t].run.Suspended? ==> if s.tasks[t].pc.Nascent? then p.MadeBy? else p.InRunqueue?
    ensures s.tasks[t].run.Waiting? ==> p.InRunqueue? || p.InWaiter? || p.HeldBy? || p.JoinerOf?
    ensures s.tasks[t].run.Stopped? ==> p.StoppedUnjoined? || p.Deferred? || p.InFreelist? || p.Destroyed?
  {
    assert TaskLife(s, t) && ParkOk(s, t) && JoinOk(s, t);
    match p
    case InRunqueue(i) => assert t in s.rq;
    case MadeBy(u) => assert HoldOk(s, u);
    case HeldBy(u) => assert HoldOk(s, u);
    case JoinerOf(u) => assert JoinOk(s, u);
    case InWaiter(w) => assert SlotOk(s, w);
    case InFreelist(i) => assert t in Ids(s.spare);
    case _ =>
  }

  lemma WaitingPlacesExclude(s: State, t: Tid, p: Place, q: Place)
    requires Inv(s) && t in s.tasks && s.tasks[t].run.Waiting? && At(s, t, p) && At(s, t, q)
    ensures p == q
  {
    WaitingPlace(s, t, p);
    WaitingPlace(s, t, q);
  }

  /** What the place of a waiting task says about its control point. */
  lemma WaitingPlace(s: State, t: Tid, p: Place)
    requires Inv(s) && t in s.tasks && s.tasks[t].run.Waiting? && At(s, t, p)
    ensures p.InRunqueue? || p.InWaiter? || p.HeldBy? || p.JoinerOf?
    ensures
      var pc := s.tasks[t].pc;
      && (p.InWaiter? ==> pc == ParkWait(p.w) && InOwnSlot(s, t, p.w))
      && (p.HeldBy? ==> pc.ParkWait? && !InOwnSlot(s, t, pc.w))
      && (p.InRunqueue? ==> pc.JoinWait? && pc.h.t in s.tasks && s.tasks[pc.h.t].run.Stopped?)
      && (p.JoinerOf? ==> pc.JoinWait? && pc.h.t == p.u && !s.tasks[p.u].run.Stopped?)
  {
    PlaceByRunState(s, t, p);
    match p
    case InRunqueue(i) => assert t in s.rq;
    case InWaiter(w) => assert SlotOk(s, w) && ParkOk(s, t);
    case HeldBy(u) => assert HoldOk(s, u);
    case JoinerOf(u) => assert JoinOk(s, u);
    case _ =>
  }

  lemma StoppedPlacesExclude(s: State, t: Tid, p: Place, q: Place)
    requires Inv(s) && t in s.tasks && s.tasks[t].run.Stopped? && At(s, t, p) && At(s, t, q)
    ensures p == q
  {
    PlaceByRunState(s, t, p);
    PlaceByRunState(s, t, q);
    assert p.InFreelist? || q.InFreelist? ==> t in Ids(s.spare);
  }

  lemma PlaceIsUnique(s: State, t: Tid, p: Place, q: Place)
    requires Inv(s) && t in s.tasks && At(s, t, p) && At(s, t, q)
    ensures p == q
  {
    PlaceByRunState(s, t, p);
    PlaceByRunState(s, t, q);
    match s.tasks[t].run
    case Running =>
    case Suspended => if p.MadeBy? { assert HoldOk(s, p.u) && HoldOk(s, q.u); }
    case Waiting => WaitingPlacesExclude(s, t, p, q);
    case Stopped => StoppedPlacesExclude(s, t, p, q);
  }

  lemma PlaceExists(s: State, t: Tid) returns (p: Place)
    requires Inv(s) && t in s.tasks
    ensures At(s, t, p)
  {
    assert TaskLife(s, t) && ParkOk(s, t) && JoinOk(s, t);
    var k := s.tasks[t];
    match k.run
    case Running => p := OnProcessor;
    case Suspended =>
      if k.pc.Nascent? {
        var u :| u in s.tasks && Holds(s.tasks[u]) == Some(t);
        assert HoldOk(s, u);
        p := MadeBy(u);
      } else {
        assert t in s.rq;
        var i :| 0 <= i < |s.rq| && s.rq[i] == t;
        p := InRunqueue(i);
      }
    case Waiting =>
      if Ready(s, t) {
        assert t in s.rq;
        var i :| 0 <= i < |s.rq| && s.rq[i] == t;
        p := InRunqueue(i);
      } else if k.pc.JoinWait? {
        p := JoinerOf(k.pc.h.t);
      } else if InOwnSlot(s, t, k.pc.w) {
        p := InWaiter(k.pc.w);
      } else {
        var u :| u in s.tasks && Holds(s.tasks[u]) == Some(t);
        assert HoldOk(s, u);
        p := HeldBy(u);
      }
    case Stopped =>
      if t in s.destroyed {
        p := Destroyed;
      } else if !k.Outstanding() {
        assert t in Ids(s.spare);
        var i :| 0 <= i < |s.spare| && s.spare[i].id == t;
        p := InFreelist(i);
      } else {
        p := if k.detached then Deferred else StoppedUnjoined;
      }
  }

  /** Main result: in every reachable state every task object ever created is in exactly one place. */
  lemma EveryTaskInExactlyOnePlace(s: State, t: Tid)
    requires Reachable(s) && t in s.tasks
    ensures exists p :: At(s, t, p) && forall q :: At(s, t, q) ==> q == p
  {
    ReachableInv(s);
    var p := PlaceExists(s, t);
    forall q | At(s, t, q) ensures q == p {
      PlaceIsUnique(s, t, q, p);
    }
  }

  // ---------------------------------------------------------------- lock discipline

  /** In every reachable state the running task can take the preempt lock, and every task that could be
      switched to will find the flag as it left it: set if it was switched out inside a critical section,
      clear if it is still to start, in which case it is queued or about to be.  So the compare-exchange asserts of
      `preempt_mutex` and the first assert of `switch_to_internal` hold. */
  lemma LockDiscipline(s: State, t: Tid)
    requires Reachable(s) && t in s.tasks && s.tasks[t].Outstanding()
    ensures t == s.current ==> s.tasks[t].started && !s.tasks[t].noPreempt
    ensures t != s.current ==> s.tasks[t].noPreempt == s.tasks[t].started
    ensures !s.tasks[t].started ==> s.tasks[t].run.Suspended? && (t in s.rq || s.tasks[t].pc.Nascent?)
    ensures t in s.rq || Held(s, t) ==> t != s.current
  {
    ReachableInv(s);
    assert FlagExact(s, t);
    if Held(s, t) {
      var u :| u in s.tasks && Holds(s.tasks[u]) == Some(t);
      assert HoldOk(s, u);
    }
  }
}
