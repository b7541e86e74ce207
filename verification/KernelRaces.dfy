/** What happens when a stopped task's handle is used by two calls at once. */
module KernelRaces {
  import opened Options
  import opened Freelist
  import opened Kernel
  import opened KernelInv
  import opened KernelSteps
  import opened KernelRuns
  import opened KernelTimes
  import opened KernelExact
  import opened KernelHistory
  import opened KernelFair
  import opened KernelScenes

  // ---------------------------------------------------------------- runs by no rules

  ghost predicate GivenBackTwice(s: State, t: Tid) {
    t in s.tasks && s.tasks[t].reclaims > s.tasks[t].spawns
  }

  /** Some run gives the object of `t` back once more than it was spawned. */
  ghost predicate CanEnd(s: State, t: Tid) {
    exists acts :: Possible(s, acts) && GivenBackTwice(Played(s, acts), t)
  }

  lemma EndedAlready(s: State, t: Tid)
    requires GivenBackTwice(s, t)
    ensures CanEnd(s, t)
  {
    assert Possible(s, []) && Played(s, []) == s;
  }

  lemma CanEndStep(s: State, a: Action, t: Tid)
    requires Can(s, a) && CanEnd(Next(s, a), t)
    ensures CanEnd(s, t)
  {
    var acts :| Possible(Next(s, a), acts) && GivenBackTwice(Played(Next(s, a), acts), t);
    assert ([a] + acts)[1..] == acts;
    assert Possible(s, [a] + acts) && Played(s, [a] + acts) == Played(Next(s, a), acts);
  }

  lemma {:induction false} CanEndRun(s: State, acts: seq<Action>, t: Tid)
    requires Legal(s, acts) && CanEnd(Exec(s, acts), t)
    ensures CanEnd(s, t)
    decreases |acts|
  {
    if acts != [] {
      CanEndRun(Next(s, acts[0]), acts[1..], t);
      CanEndStep(s, acts[0], t);
    }
  }

  lemma CanEndFrom(s: State, s': State, t: Tid)
    requires From(s, s') && CanEnd(s', t)
    ensures CanEnd(s, t)
  {
    var acts :| Legal(s, acts) && Exec(s, acts) == s';
    CanEndRun(s, acts, t);
  }

  // ---------------------------------------------------------------- a tail for a task that is somebody else's

  ghost predicate InTail(s: State, h: Handle) {
    && Sane(s) && (Cur(s).pc == JoinTail(h) || Cur(s).pc == DetachTail(h))
    && h in s.handles && h.t in s.tasks && h.t != s.current && s.tasks[h.t].run.Stopped?
  }

  ghost function Return(s: State): Action
    requires s.current in s.tasks
  {
    if Cur(s).pc.DetachTail? then DetachReturn else JoinReturn
  }

  lemma ReturnOnce(s: State, h: Handle)
    requires InTail(s, h)
    ensures
      var s1 := Next(s, Return(s));
      && Can(s, Return(s)) && s1.current == s.current && s1.rq == s.rq && s1.tasks.Keys == s.tasks.Keys
      && s1.handles == s.handles && s1.lastTick == s.lastTick && s1.deferred == s.deferred
      && s1.tasks[s.current] == Cur(s).(pc := Clearing(h))
      && s1.tasks[h.t] == s.tasks[h.t].(reclaims := s.tasks[h.t].reclaims + 1)
      && (forall t :: t in s.tasks && t != h.t && t != s.current ==> s1.tasks[t] == s.tasks[t])
  {}

  lemma ReturnIsSane(s: State, h: Handle)
    requires InTail(s, h)
    ensures Sane(Next(s, Return(s)))
  {
    ReturnOnce(s, h);
    var s1 := Next(s, Return(s));
    var e := Spare(h.t, s.tasks[h.t].size, s.tasks[h.t].tls);
    InsertContents(s.spare, e);
    ReturnSpare(s, h);
    forall i | 0 <= i < |s1.spare| ensures s1.spare[i].id in s1.tasks {
      assert s1.spare[i] in s1.spare;
    }
  }

  lemma ReturnSpare(s: State, h: Handle)
    requires InTail(s, h)
    ensures Can(s, Return(s))
    ensures Next(s, Return(s)).spare == Given(s.spare, s.maxSpare, Spare(h.t, s.tasks[h.t].size, s.tasks[h.t].tls))
  {}

  /** The task has already been given back. */
  lemma TailOfReturnedTask(s: State, h: Handle)
    requires InTail(s, h) && s.tasks[h.t].reclaims == s.tasks[h.t].spawns
    ensures CanEnd(s, h.t)
  {
    ReturnOnce(s, h);
    EndedAlready(Next(s, Return(s)), h.t);
    CanEndStep(s, Return(s), h.t);
  }

  /** The task is a later spawn of the object and waits in the deferred slot. */
  lemma TailOfDeferredTask(s: State, h: Handle)
    requires InTail(s, h) && s.tasks[h.t].Outstanding() && s.deferred == Some(h.t)
    ensures CanEnd(s, h.t)
  {
    ReturnOnce(s, h);
    ReturnIsSane(s, h);
    var s1 := Next(s, Return(s));
    var y := Yield(s1.lastTick, s1.lastTick);
    RescheduledReturnsDeferred(s1, s1.lastTick, s1.lastTick, h.t);
    YieldKeepsSpawns(s1, h.t);
    EndedAlready(Next(s1, y), h.t);
    CanEndStep(s1, y, h.t);
    CanEndStep(s, Return(s), h.t);
  }

  lemma YieldKeepsSpawns(s: State, t: Tid)
    requires Sane(s) && t in s.tasks
    ensures
      var s' := Next(s, Yield(s.lastTick, s.lastTick));
      t in s'.tasks && s'.tasks[t].spawns == s.tasks[t].spawns
  {
    CanPop(s, s.lastTick);
    assert AtPop(s, s.lastTick).tasks[t].spawns == s.tasks[t].spawns;
    DispatchedSpawns(AtPop(s, s.lastTick), s.lastTick, t);
  }

  lemma DispatchedSpawns(p: State, now: nat, t: Tid)
    requires p.current in p.tasks && Known(p.tasks, p.rq) && Candidates(p) != [] && t in p.tasks
    ensures t in Dispatched(p, now).tasks && Dispatched(p, now).tasks[t].spawns == p.tasks[t].spawns
  {}

  // -- the task is a later spawn of the object with a handle of its own

  lemma ClearIsSane(s: State, h: Handle)
    requires Sane(s) && Cur(s).pc == Clearing(h)
    ensures Can(s, Clear) && Sane(Next(s, Clear))
    ensures Next(s, Clear) == SetCur(s, Cur(s).(pc := Body)).(handles := s.handles - {h})
  {}

  lemma EnterIsSane(s: State, h: Handle)
    requires Sane(s) && Cur(s).pc.Body? && h in s.handles
    ensures Can(s, EnterDetach(h)) && Next(s, EnterDetach(h)) == SetCur(s, Cur(s).(pc := DetachEntered(h)))
    ensures Sane(Next(s, EnterDetach(h)))
  {}

  lemma DetachStoppedIsSane(s: State, h: Handle)
    requires Sane(s) && Cur(s).pc == DetachEntered(h) && h in s.handles && h.t in s.tasks && h.t != s.current
    requires s.tasks[h.t].run.Stopped?
    ensures Can(s, Detach(h)) && InTail(Next(s, Detach(h)), h) && Next(s, Detach(h)).tasks[h.t] == s.tasks[h.t]
  {}

  lemma CanEndByDetach(s: State, h: Handle)
    requires Sane(s) && Cur(s).pc.Body? && h in s.handles && h.t in s.tasks && h.t != s.current
    requires s.tasks[h.t].run.Stopped? && s.tasks[h.t].reclaims == s.tasks[h.t].spawns
    ensures CanEnd(s, h.t)
  {
    EnterIsSane(s, h);
    var s1 := Next(s, EnterDetach(h));
    DetachStoppedIsSane(s1, h);
    TailOfReturnedTask(Next(s1, Detach(h)), h);
    CanEndStep(s1, Detach(h), h.t);
    CanEndStep(s, EnterDetach(h), h.t);
  }

  lemma TailOfOtherSpawn(s: State, h: Handle, g: Handle)
    requires InTail(s, h) && s.tasks[h.t].Outstanding() && g in s.handles && g != h && g.t == h.t
    ensures CanEnd(s, h.t)
  {
    ReturnOnce(s, h);
    ReturnIsSane(s, h);
    var s1 := Next(s, Return(s));
    ClearIsSane(s1, h);
    CanEndByDetach(Next(s1, Clear), g);
    CanEndStep(s1, Clear, h.t);
    CanEndStep(s, Return(s), h.t);
  }

  // ---------------------------------------------------------------- the other call

  /** The locked part of `join` or `detach` that finds the task stopped. */
  ghost predicate FindsStopped(s: State, a: Action) {
    Can(s, a) && (a.JoinStopped? || (a.Detach? && s.tasks[a.h.t].run.Stopped?))
  }

  lemma FindsStoppedTail(s: State, a: Action)
    requires FindsStopped(s, a)
    ensures InTail(Next(s, a), a.h) && Next(s, a).tasks[a.h.t] == s.tasks[a.h.t]
    ensures Next(s, a).handles == s.handles && Next(s, a).deferred == s.deferred
  {}

  /** The other call has returned the task and is about to null the handle: whatever has become of the object since. */
  lemma OtherIsClearing(s: State, a: Action, t: Tid)
    requires Inv(s) && FindsStopped(s, a) && t in s.tasks && s.tasks[t].pc == Clearing(a.h)
    ensures CanEnd(s, a.h.t)
  {
    ClearingCases(s, a.h, t);
    FindsStoppedTail(s, a);
    var s1, k := Next(s, a), s.tasks[a.h.t];
    if k.reclaims == k.spawns {
      TailOfReturnedTask(s1, a.h);
    } else if k.detached {
      TailOfDeferredTask(s1, a.h);
    } else {
      TailOfOtherSpawn(s1, a.h, Handle(a.h.t, k.spawns));
    }
    CanEndStep(s, a, a.h.t);
  }

  lemma ClearingCases(s: State, h: Handle, t: Tid)
    requires Inv(s) && t in s.tasks && s.tasks[t].pc == Clearing(h) && h.t in s.tasks && s.tasks[h.t].run.Stopped?
    ensures
      var k := s.tasks[h.t];
      || k.reclaims == k.spawns
      || (k.Outstanding() && k.detached && s.deferred == Some(h.t))
      || (k.Outstanding() && !k.detached && Handle(h.t, k.spawns) in s.handles && Handle(h.t, k.spawns) != h)
  {
    assert TailOk(s, t) && TaskLife(s, h.t) && ParkOk(s, h.t);
  }

  /** The other call can still be brought to return the task. */
  ghost predicate OtherHasIt(s: State, h: Handle, t: Tid) {
    && t in s.tasks && (s.tasks[t].pc == JoinWait(h) || s.tasks[t].pc == JoinTail(h) || s.tasks[t].pc == DetachTail(h))
  }

  lemma OtherIsRunnable(s: State, h: Handle, t: Tid)
    requires Inv(s) && OtherHasIt(s, h, t) && t != s.current && h.t in s.tasks && s.tasks[h.t].run.Stopped?
    ensures Runnable(s, t) && Live(s, h) && !s.tasks[h.t].detached
    ensures !s.tasks[t].pc.JoinWait? ==> s.tasks[h.t].joiner.None?
    ensures s.tasks[t].pc.JoinWait? ==> s.tasks[h.t].joiner == Some(t)
  {
    assert TailOk(s, t) && JoinOk(s, t) && ParkOk(s, t) && TaskLife(s, t) && TaskLife(s, h.t);
    assert Ready(s, t);
  }

  lemma OtherReturns(b: State, s2: State, h: Handle) returns (s3: State)
    requires Sound(b) && From(b, s2) && OtherHasIt(s2, h, s2.current)
    ensures From(b, s3) && s3.current == s2.current && s3.rq == s2.rq && s3.handles == s2.handles && h in s2.handles
    ensures h.t in s2.tasks && h.t in s3.tasks && h.t != s2.current && s2.tasks[h.t].run.Stopped?
    ensures s3.tasks[h.t] == s2.tasks[h.t].(reclaims := s2.tasks[h.t].reclaims + 1) && s3.tasks.Keys == s2.tasks.Keys
    ensures s3.tasks[s2.current].pc == Clearing(h)
    ensures forall u :: u in s2.tasks && u != h.t && u != s2.current ==> s3.tasks[u] == s2.tasks[u]
  {
    TailIsThere(b, s2, h);
    var a := if Cur(s2).pc.DetachTail? then DetachReturn else JoinReturn;
    OtherReturnStep(s2, h, a);
    FromStep(b, s2, a);
    s3 := Next(s2, a);
  }

  lemma TailIsThere(b: State, s: State, h: Handle)
    requires Sound(b) && From(b, s) && OtherHasIt(s, h, s.current)
    ensures Sane(s) && h in s.handles && h.t in s.tasks && h.t != s.current && s.tasks[h.t].run.Stopped?
  {
    assert Inv(b);
    FromInv(b, s);
    InvIsSane(s);
    TailFindsTargetStopped(s);
  }

  lemma OtherReturnStep(s: State, h: Handle, a: Action)
    requires Sane(s) && OtherHasIt(s, h, s.current) && h in s.handles && h.t in s.tasks && h.t != s.current
    requires a == if Cur(s).pc.DetachTail? then DetachReturn else JoinReturn
    ensures
      var s1 := Next(s, a);
      && May(s, a) && s1.current == s.current && s1.rq == s.rq && s1.tasks.Keys == s.tasks.Keys
      && s1.handles == s.handles && s1.tasks[s.current] == Cur(s).(pc := Clearing(h))
      && s1.tasks[h.t] == s.tasks[h.t].(reclaims := s.tasks[h.t].reclaims + 1)
      && (forall t :: t in s.tasks && t != h.t && t != s.current ==> s1.tasks[t] == s.tasks[t])
  {}

  /** The other call is brought to return the task first; then this one goes on and returns it again. */
  lemma OtherGoesFirst(s: State, a: Action, t: Tid)
    requires Inv(s) && FindsStopped(s, a) && OtherHasIt(s, a.h, t) && t != s.current
    ensures CanEnd(s, a.h.t)
  {
    OtherIsRunnable(s, a.h, t);
    OtherReturnsFirst(s, a, t);
  }

  /** Task `c` stands before its locked part, which will find the task stopped. */
  ghost predicate Poised(s: State, a: Action, c: Tid) {
    && Runnable(s, c) && c in s.tasks
    && ((a.JoinStopped? && s.tasks[c].pc == JoinEntered(a.h)) || (a.Detach? && s.tasks[c].pc == DetachEntered(a.h)))
    && a.h in s.handles && a.h.t in s.tasks && s.tasks[a.h.t].run.Stopped? && !s.tasks[a.h.t].detached
    && (a.JoinStopped? ==> s.tasks[a.h.t].joiner.None?)
  }

  lemma PoisedKept(s: State, s': State, a: Action, c: Tid)
    requires Poised(s, a, c) && OnlyYields(s, s') && StillRunnable(s, s')
    ensures Poised(s', a, c) && s'.tasks[a.h.t].reclaims == s.tasks[a.h.t].reclaims
    ensures s'.tasks[a.h.t].spawns == s.tasks[a.h.t].spawns
  {
    assert Kept(s.tasks[c], s'.tasks[c]) && Kept(s.tasks[a.h.t], s'.tasks[a.h.t]);
  }

  lemma OtherReturnsFirst(s: State, a: Action, t: Tid)
    requires Sound(s) && Poised(s, a, s.current) && OtherHasIt(s, a.h, t) && t != s.current && Runnable(s, t)
    requires s.tasks[a.h.t].Outstanding()
    ensures CanEnd(s, a.h.t)
  {
    var s2 := OtherBrought(s, a, t);
    var s3 := PoisedAfterOther(s, s2, a, s.current);
    SecondReturn(s, s3, a, s.current);
  }

  lemma PoisedAfterOther(b: State, s2: State, a: Action, c: Tid) returns (s3: State)
    requires Sound(b) && From(b, s2) && Poised(s2, a, c) && OtherHasIt(s2, a.h, s2.current) && c != s2.current
    requires s2.tasks[a.h.t].Outstanding()
    ensures From(b, s3) && Poised(s3, a, c) && s3.tasks[a.h.t].reclaims == s3.tasks[a.h.t].spawns
  {
    s3 := OtherReturns(b, s2, a.h);
    PoisedReturned(s2, s3, a, c);
  }

  lemma OtherBrought(s: State, a: Action, t: Tid) returns (s2: State)
    requires Sound(s) && Poised(s, a, s.current) && OtherHasIt(s, a.h, t) && t != s.current && Runnable(s, t)
    requires s.tasks[a.h.t].Outstanding()
    ensures From(s, s2) && s2.current == t && OtherHasIt(s2, a.h, t) && Poised(s2, a, s.current)
    ensures s2.tasks[a.h.t].Outstanding()
  {
    FromItself(s);
    s2 := BringAny(s, s, t);
    PoisedKept(s, s2, a, s.current);
    OtherKept(s, s2, a.h, t);
  }

  lemma OtherKept(s: State, s': State, h: Handle, t: Tid)
    requires OtherHasIt(s, h, t) && OnlyYields(s, s')
    ensures OtherHasIt(s', h, t)
  {
    assert Kept(s.tasks[t], s'.tasks[t]);
  }

  lemma PoisedReturned(s2: State, s3: State, a: Action, c: Tid)
    requires Poised(s2, a, c) && c != s2.current && a.h.t != s2.current && s3.tasks.Keys == s2.tasks.Keys
    requires s3.current == s2.current && s3.rq == s2.rq && s3.handles == s2.handles
    requires s3.tasks[a.h.t] == s2.tasks[a.h.t].(reclaims := s2.tasks[a.h.t].reclaims + 1)
    requires forall u :: u in s2.tasks && u != a.h.t && u != s2.current ==> s3.tasks[u] == s2.tasks[u]
    ensures Poised(s3, a, c)
  {}

  /** Back at the processor, the first call finds the task returned already. */
  lemma SecondReturn(b: State, s3: State, a: Action, c: Tid)
    requires Sound(b) && From(b, s3) && Poised(s3, a, c) && s3.tasks[a.h.t].reclaims == s3.tasks[a.h.t].spawns
    ensures CanEnd(b, a.h.t)
  {
    var s4 := BringAny(b, s3, c);
    PoisedKept(s3, s4, a, c);
    SoundIsSane(b, s4);
    PoisedEnds(s4, a);
    CanEndFrom(b, s4, a.h.t);
  }

  lemma PoisedEnds(s: State, a: Action)
    requires Sane(s) && Poised(s, a, s.current) && s.tasks[a.h.t].reclaims == s.tasks[a.h.t].spawns
    ensures CanEnd(s, a.h.t)
  {
    FindsStoppedTail(s, a);
    TailOfReturnedTask(Next(s, a), a.h);
    CanEndStep(s, a, a.h.t);
  }

  lemma SoundIsSane(b: State, s: State)
    requires Sound(b) && From(b, s)
    ensures Sane(s)
  {
    assert Inv(b);
    FromInv(b, s);
    InvIsSane(s);
  }

  /** Main result: whenever the locked part of `join` or `detach` finds a task stopped while another call that has been
      through its own is using the same handle, some continuation gives the task's object back once too often. */
  lemma SharedHandleReclaimsTwice(s: State, a: Action)
    requires Inv(s) && FindsStopped(s, a) && !Unclaimed(s, a.h)
    ensures CanEnd(s, a.h.t)
  {
    var t :| t in s.tasks && Claim(s.tasks[t].pc) == Some(a.h);
    OtherIsSomebody(s, a, t);
    if s.tasks[t].pc.Clearing? {
      OtherIsClearing(s, a, t);
    } else {
      OtherGoesFirst(s, a, t);
    }
  }

  lemma OtherIsSomebody(s: State, a: Action, t: Tid)
    requires FindsStopped(s, a) && t in s.tasks && Claim(s.tasks[t].pc) == Some(a.h)
    ensures t != s.current && (s.tasks[t].pc == Clearing(a.h) || OtherHasIt(s, a.h, t))
  {}

  // ---------------------------------------------------------------- such states are reachable

  /** Everybody stands in user code, tasks 0 and 2 can run, and nobody joins anybody. */
  ghost predicate Trio(s: State) {
    && Scene(s) && s.tasks.Keys == {0, 1, 2} && AllBody(s) && Handle(1, 1) in s.handles
    && s.tasks[1].joiner.None? && s.tasks[1].spawns == 1 && s.tasks[1].reclaims == 0
    && s.tasks[0].joiner.None? && s.tasks[2].joiner.None? && Runnable(s, 0) && Runnable(s, 2)
    && !s.tasks[1].host && !s.tasks[1].detached
  }

  lemma TrioKept(s: State, s': State)
    requires Trio(s) && OnlyYields(s, s') && StillRunnable(s, s') && Reachable(s')
    ensures Trio(s') && s'.tasks[1].run.Stopped? == s.tasks[1].run.Stopped?
  {
    AllBodyKept(s, s');
    assert Kept(s.tasks[0], s'.tasks[0]) && Kept(s.tasks[1], s'.tasks[1]) && Kept(s.tasks[2], s'.tasks[2]);
  }

  lemma BringInTrio(s: State, t: Tid) returns (s': State)
    requires Trio(s) && Runnable(s, t)
    ensures Trio(s') && s'.current == t && s'.tasks[1].run.Stopped? == s.tasks[1].run.Stopped?
  {
    s' := Bring(s, t);
    TrioKept(s, s');
  }

  lemma TrioExists() returns (s: State)
    ensures Trio(s) && s.current == 1
  {
    var s1 := ThreeTasks();
    s := BringInTrio(s1, 1);
  }

  lemma ExitEntering(s: State, a: Action)
    requires Trio(s) && s.current == 1 && a == Exit(7, s.lastTick, s.lastTick)
    ensures May(s, a)
    ensures
      var e := Entering(s, a);
      && e.rq == s.rq && e.current == 1 && e.tasks == s.tasks[1 := s.tasks[1].(value := 7, run := Stopped)]
      && e.handles == s.handles && e.slots == s.slots && e.spare == s.spare && e.deferred == s.deferred
      && 0 in e.rq && 2 in e.rq
  {
    ReachableIsSane(s);
  }

  lemma TaskOneStops() returns (s: State)
    ensures Trio(s) && s.tasks[1].run.Stopped?
  {
    var s2 := TrioExists();
    var a := Exit(7, s2.lastTick, s2.lastTick);
    ExitEntering(s2, a);
    s := Leave(s2, a);
    TrioLeft(s2, Entering(s2, a), s);
  }

  lemma TrioLeft(s2: State, e: State, s: State)
    requires Trio(s2) && e.tasks == s2.tasks[1 := s2.tasks[1].(value := 7, run := Stopped)] && e.handles == s2.handles
    requires e.spare == [] && e.deferred.None? && OnlyYields(e, s) && Reachable(s) && Runnable(s, 0) && Runnable(s, 2)
    ensures Trio(s) && s.tasks[1].run.Stopped?
  {
    assert AllBody(e);
    AllBodyKept(e, s);
    assert Kept(e.tasks[0], s.tasks[0]) && Kept(e.tasks[1], s.tasks[1]) && Kept(e.tasks[2], s.tasks[2]);
  }

  /** The current task takes a step that changes its control point only. */
  lemma MoveTo(s: State, a: Action, pc: Pc) returns (s': State)
    requires Scene(s) && May(s, a) && Next(s, a) == SetCur(s, Cur(s).(pc := pc))
    ensures Scene(s') && s' == SetCur(s, Cur(s).(pc := pc))
  {
    Advance(s, a);
    s' := Next(s, a);
  }

  lemma EnterMoves(s: State, h: Handle)
    requires Sane(s) && Cur(s).pc.Body? && h in s.handles
    ensures May(s, EnterJoin(h)) && Next(s, EnterJoin(h)) == SetCur(s, Cur(s).(pc := JoinEntered(h)))
  {}

  lemma StoppedMoves(s: State, h: Handle)
    requires Sane(s) && Cur(s).pc == JoinEntered(h) && h in s.handles && h.t in s.tasks && Unclaimed(s, h)
    requires s.tasks[h.t].joiner.None? && s.tasks[h.t].run.Stopped?
    ensures May(s, JoinStopped(h)) && Next(s, JoinStopped(h)) == SetCur(s, Cur(s).(pc := JoinTail(h)))
  {}

  /** Task 2 enters the tail of a `join` on the stopped task 1. */
  lemma TailEntered(s: State) returns (s': State)
    requires Trio(s) && s.current == 2 && s.tasks[1].run.Stopped?
    ensures Scene(s') && s' == SetCur(s, Cur(s).(pc := JoinTail(Handle(1, 1))))
  {
    var h := Handle(1, 1);
    ReachableIsSane(s);
    EnterMoves(s, h);
    var m := MoveTo(s, EnterJoin(h), JoinEntered(h));
    ReachableIsSane(m);
    EnteredAlone(s, m, h);
    StoppedMoves(m, h);
    s' := MoveTo(m, JoinStopped(h), JoinTail(h));
    SetCurTwice(s, JoinEntered(h), JoinTail(h));
  }

  lemma EnteredAlone(s: State, m: State, h: Handle)
    requires AllBody(s) && s.current in s.tasks && m == SetCur(s, Cur(s).(pc := JoinEntered(h)))
    ensures Unclaimed(m, h)
  {}

  lemma SetCurTwice(s: State, pc: Pc, pc': Pc)
    requires s.current in s.tasks
    ensures
      var m := SetCur(s, Cur(s).(pc := pc));
      SetCur(m, Cur(m).(pc := pc')) == SetCur(s, Cur(s).(pc := pc'))
  {
    var m := SetCur(s, Cur(s).(pc := pc));
    assert SetCur(m, Cur(m).(pc := pc')).tasks == SetCur(s, Cur(s).(pc := pc')).tasks;
  }

  /** Task 0 stands before its locked part while task 2 is in its tail, both with the handle of the stopped task 1. */
  ghost predicate TwoCalls(s: State) {
    && Reachable(s) && s.tasks.Keys == {0, 1, 2} && s.current == 0 && Handle(1, 1) in s.handles
    && s.tasks[0].pc == JoinEntered(Handle(1, 1)) && s.tasks[2].pc == JoinTail(Handle(1, 1))
    && s.tasks[1].run.Stopped? && s.tasks[1].joiner.None?
  }

  lemma TwoCallsReachable() returns (s: State)
    ensures TwoCalls(s)
  {
    var s3 := TaskOneStops();
    var s4 := BringInTrio(s3, 2);
    var s5 := TailEntered(s4);
    s := SecondEnters(s5);
  }

  lemma SecondEnters(s5: State) returns (s: State)
    requires Scene(s5) && s5.tasks.Keys == {0, 1, 2} && s5.current == 2 && Handle(1, 1) in s5.handles && Runnable(s5, 0)
    requires s5.tasks[2].pc == JoinTail(Handle(1, 1)) && s5.tasks[0].pc.Body?
    requires s5.tasks[1].run.Stopped? && s5.tasks[1].joiner.None?
    ensures TwoCalls(s)
  {
    var h := Handle(1, 1);
    var s6 := Bring(s5, 0);
    assert Kept(s5.tasks[0], s6.tasks[0]) && Kept(s5.tasks[1], s6.tasks[1]) && Kept(s5.tasks[2], s6.tasks[2]);
    ReachableIsSane(s6);
    EnterMoves(s6, h);
    s := MoveTo(s6, EnterJoin(h), JoinEntered(h));
  }

  /** A state reached by the rules from which a second `join` on a stopped task leads to its object being given back
      twice. */
  lemma DoubleReclaimReachable()
    ensures exists s: State, h: Handle :: Reachable(s) && Can(s, JoinStopped(h)) && !Unclaimed(s, h) && CanEnd(s, h.t)
  {
    var s := TwoCallsReachable();
    TwoCallsCollide(s);
    TwoCallsEnd(s);
  }

  lemma TwoCallsCollide(s: State)
    requires TwoCalls(s)
    ensures FindsStopped(s, JoinStopped(Handle(1, 1))) && !Unclaimed(s, Handle(1, 1))
  {
    ReachableIsSane(s);
    assert Claim(s.tasks[2].pc) == Some(Handle(1, 1));
  }

  lemma TwoCallsEnd(s: State)
    requires Reachable(s) && FindsStopped(s, JoinStopped(Handle(1, 1))) && !Unclaimed(s, Handle(1, 1))
    ensures CanEnd(s, 1)
  {
    ReachableInv(s);
    SharedHandleReclaimsTwice(s, JoinStopped(Handle(1, 1)));
  }
}
