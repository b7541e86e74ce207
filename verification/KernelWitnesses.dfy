/** Concrete runs, each step proper but for the last, that end in a null handle or a failed assert. */
module KernelWitnesses {
  import opened Options
  import opened Freelist
  import opened Kernel
  import opened KernelInv
  import opened KernelSteps
  import opened KernelRuns
  import opened KernelTimes
  import opened KernelExact
  import opened KernelFair
  import opened KernelScenes
  import opened KernelRaces

  // ---------------------------------------------------------------- detach against a waiting join

  /** The host stands before the locked part of a `join` on task 1. */
  lemma HostEnters() returns (s: State)
    ensures Scene(s) && s.tasks.Keys == {0, 1, 2} && s.current == 0 && 1 in s.rq && Idle(s.tasks[1])
    ensures s.tasks[0].pc == JoinEntered(Handle(1, 1)) && s.tasks[2].pc.Body? && Handle(1, 1) in s.handles
  {
    var h := Handle(1, 1);
    var s1 := ThreeTasks();
    ReachableIsSane(s1);
    EnterMoves(s1, h);
    s := MoveTo(s1, EnterJoin(h), JoinEntered(h));
  }

  lemma JoinEntering(s: State, a: Action)
    requires Scene(s) && s.current == 0 && 1 in s.rq && s.tasks.Keys == {0, 1, 2} && Idle(s.tasks[1])
    requires s.tasks[0].pc == JoinEntered(Handle(1, 1)) && s.tasks[2].pc.Body?
    requires a == Join(Handle(1, 1), s.lastTick, s.lastTick) && Handle(1, 1) in s.handles
    ensures May(s, a) && Entering(s, a) == Announced(s, Handle(1, 1))
  {
    ReachableIsSane(s);
  }

  lemma AnnouncedFacts(s: State, h: Handle)
    requires s.current in s.tasks && h.t in s.tasks && h.t != s.current
    ensures
      var e := Announced(s, h);
      && e.rq == s.rq && e.current == s.current && e.handles == s.handles && e.tasks.Keys == s.tasks.Keys
      && e.tasks[s.current] == Cur(s).(run := Waiting, pc := JoinWait(h))
      && e.tasks[h.t] == s.tasks[h.t].(joiner := Some(s.current))
  {}

  /** The host waits in `join` for task 1, which is running. */
  ghost predicate Joining(s: State) {
    && Reachable(s) && 0 in s.tasks && 1 in s.tasks && s.current == 1 && s.tasks[1].pc.Body? && !s.tasks[1].run.Stopped?
    && s.tasks[0].pc == JoinWait(Handle(1, 1)) && Handle(1, 1) in s.handles
  }

  lemma JoiningReachable() returns (s: State)
    ensures Joining(s)
  {
    var h := Handle(1, 1);
    var s1 := HostEnters();
    var a := Join(h, s1.lastTick, s1.lastTick);
    JoinEntering(s1, a);
    AnnouncedFacts(s1, h);
    var s2 := Leave(s1, a);
    s := Bring(s2, 1);
    JoiningKept(Entering(s1, a), s2, s);
  }

  lemma JoiningKept(e: State, s2: State, s: State)
    requires OnlyYields(e, s2) && OnlyYields(s2, s) && 0 in e.tasks && 1 in e.tasks && e.tasks[1].pc.Body?
    requires !e.tasks[1].run.Stopped? && e.tasks[0].pc == JoinWait(Handle(1, 1)) && Handle(1, 1) in e.handles
    ensures 0 in s.tasks && 1 in s.tasks && s.tasks[1].pc.Body? && !s.tasks[1].run.Stopped?
    ensures s.tasks[0].pc == JoinWait(Handle(1, 1)) && Handle(1, 1) in s.handles
  {
    OnlyYieldsCompose(e, s2, s);
    assert Kept(e.tasks[0], s.tasks[0]) && Kept(e.tasks[1], s.tasks[1]);
  }

  lemma DetachTakesHandle(s: State)
    requires Joining(s) && Sane(s)
    ensures
      var h := Handle(1, 1);
      var s1 := Next(s, EnterDetach(h));
      && May(s, EnterDetach(h)) && Can(s1, Detach(h))
      && 0 in Next(s1, Detach(h)).tasks && Next(s1, Detach(h)).tasks[0].pc == JoinWait(h)
      && h !in Next(s1, Detach(h)).handles
  {
    EnterIsSane(s, Handle(1, 1));
    DetachedKeepsJoiner(SetCur(s, Cur(s).(pc := DetachEntered(Handle(1, 1)))));
  }

  lemma DetachedKeepsJoiner(s1: State)
    requires Sane(s1) && s1.current == 1 && s1.tasks[1].pc == DetachEntered(Handle(1, 1)) && !s1.tasks[1].run.Stopped?
    requires Handle(1, 1) in s1.handles && 0 in s1.tasks && s1.tasks[0].pc == JoinWait(Handle(1, 1))
    ensures
      var h := Handle(1, 1);
      && Can(s1, Detach(h)) && 0 in Next(s1, Detach(h)).tasks && Next(s1, Detach(h)).tasks[0].pc == JoinWait(h)
      && h !in Next(s1, Detach(h)).handles
  {}

  /** The host joins a task whose handle is shared; the task detaches itself.  The host is left waiting inside
      `join` with a null handle. */
  lemma DetachingJoinedTaskLosesHandle()
    ensures exists s: State, h: Handle, t: Tid ::
              && Reachable(s) && Can(s, Detach(h)) && t in Next(s, Detach(h)).tasks
              && Next(s, Detach(h)).tasks[t].pc == JoinWait(h) && h !in Next(s, Detach(h)).handles
  {
    var h := Handle(1, 1);
    var s0 := JoiningReachable();
    ReachableIsSane(s0);
    DetachTakesHandle(s0);
    Advance(s0, EnterDetach(h));
    var s := Next(s0, EnterDetach(h));
    assert Next(s, Detach(h)).tasks[0].pc == JoinWait(h);
  }

  // ---------------------------------------------------------------- a call past its null test

  /** Task 0 has found the handle not null; task 2 is about to null it. */
  ghost predicate Overtaking(s: State) {
    && Reachable(s) && 0 in s.tasks && 2 in s.tasks && s.current == 2 && Handle(1, 1) in s.handles
    && s.tasks[0].pc == JoinEntered(Handle(1, 1)) && s.tasks[2].pc == Clearing(Handle(1, 1))
  }

  lemma OvertakingReachable() returns (s: State)
    ensures Overtaking(s)
  {
    var s7 := TwoCallsReachable();
    TwoCallsRunnable(s7);
    var s8 := Bring(s7, 2);
    assert Kept(s7.tasks[0], s8.tasks[0]) && Kept(s7.tasks[2], s8.tasks[2]);
    s := TailReturns(s8);
  }

  lemma TwoCallsRunnable(s: State)
    requires TwoCalls(s)
    ensures Runnable(s, 2)
  {
    ReachableInv(s);
    OtherIsRunnable(s, Handle(1, 1), 2);
  }

  lemma TailReturns(s8: State) returns (s: State)
    requires Reachable(s8) && 0 in s8.tasks && 2 in s8.tasks && s8.current == 2
    requires s8.tasks[0].pc == JoinEntered(Handle(1, 1)) && s8.tasks[2].pc == JoinTail(Handle(1, 1))
    ensures Overtaking(s)
  {
    ReachableInv(s8);
    FromItself(s8);
    s := OtherReturns(s8, s8, Handle(1, 1));
    ReachableFrom(s8, s);
    TargetIsStopped(s8);
  }

  lemma TargetIsStopped(s: State)
    requires Reachable(s) && 0 in s.tasks && s.tasks[0].pc == JoinEntered(Handle(1, 1)) && 1 in s.tasks
    requires 2 in s.tasks && s.tasks[2].pc == JoinTail(Handle(1, 1))
    ensures s.tasks[1].pc.Body?
  {
    ReachableInv(s);
    assert TailOk(s, 2) && ParkOk(s, 1);
  }

  /** A call of `join` that has found its handle not null can find it null when it takes the lock, because another call
      has finished with it in between. */
  lemma NullTestCanBeOvertaken()
    ensures exists s: State, h: Handle, t: Tid ::
              && Reachable(s) && Can(s, Clear) && t in Next(s, Clear).tasks
              && Next(s, Clear).tasks[t].pc == JoinEntered(h) && h !in Next(s, Clear).handles
  {
    var s := OvertakingReachable();
    ReachableIsSane(s);
    assert Next(s, Clear).tasks[0].pc == JoinEntered(Handle(1, 1));
  }

  // ---------------------------------------------------------------- unpark preempted before its exchange

  /** Task 0 sleeps in waiter 0; tasks 1 and 2 can run. */
  ghost predicate Sleeper(s: State, pc1: Pc) {
    && Scene(s) && s.tasks.Keys == {0, 1, 2} && s.slots == map[0 := 0]
    && s.tasks[0].run.Waiting? && s.tasks[0].pc == ParkWait(0)
    && s.tasks[1].pc == pc1 && s.tasks[2].pc.Body? && !pc1.ParkWait? && Runnable(s, 1) && Runnable(s, 2)
  }

  lemma SleeperKept(s: State, s': State, pc1: Pc)
    requires Sleeper(s, pc1) && OnlyYields(s, s') && StillRunnable(s, s') && Reachable(s')
    ensures Sleeper(s', pc1)
  {
    assert Kept(s.tasks[0], s'.tasks[0]) && Kept(s.tasks[1], s'.tasks[1]) && Kept(s.tasks[2], s'.tasks[2]);
  }

  lemma BringWithSleeper(s: State, pc1: Pc, t: Tid) returns (s': State)
    requires Sleeper(s, pc1) && Runnable(s, t)
    ensures Sleeper(s', pc1) && s'.current == t
  {
    s' := Bring(s, t);
    SleeperKept(s, s', pc1);
  }

  lemma Claimed(s: State, w: Wid) returns (s': State)
    requires Reachable(s) && s.current in s.tasks && Cur(s).pc.Body? && w !in s.slots
    ensures Reachable(s')
    ensures s' == SetCur(s, Cur(s).(pc := Parking(w))).(slots := s.slots[w := s.current])
  {
    ReachableIsSane(s);
    Advance(s, ParkClaim(w));
    s' := Next(s, ParkClaim(w));
  }

  lemma CommitEntering(s: State, a: Action)
    requires Reachable(s) && s.current == 0 && 0 in s.tasks && s.tasks[0].pc == Parking(0)
    requires a == ParkCommit(s.lastTick, s.lastTick) && s.rq != []
    ensures May(s, a)
    ensures
      var e := Entering(s, a);
      && e.rq == s.rq && e.current == 0 && e.slots == s.slots && e.deferred == s.deferred && e.spare == s.spare
      && e.tasks == s.tasks[0 := s.tasks[0].(run := Waiting, pc := ParkWait(0))]
  {
    ReachableIsSane(s);
  }

  lemma SleeperExists() returns (s: State)
    ensures Sleeper(s, Body)
  {
    var s1 := ThreeTasks();
    var s2 := Claimed(s1, 0);
    var a := ParkCommit(s2.lastTick, s2.lastTick);
    CommitEntering(s2, a);
    s := Leave(s2, a);
    ClaimedThree(s1, s2);
    SleeperLeft(s2, Entering(s2, a), s);
  }

  lemma ClaimedThree(s1: State, s2: State)
    requires s1.tasks.Keys == {0, 1, 2} && s1.current == 0 && AllBody(s1) && s1.slots == map[]
    requires s2 == SetCur(s1, Cur(s1).(pc := Parking(0))).(slots := s1.slots[0 := s1.current])
    ensures s2.tasks.Keys == {0, 1, 2} && s2.tasks[1].pc.Body? && s2.tasks[2].pc.Body? && s2.slots == map[0 := 0]
  {}

  lemma SleeperLeft(s2: State, e: State, s: State)
    requires s2.tasks.Keys == {0, 1, 2} && e.tasks == s2.tasks[0 := s2.tasks[0].(run := Waiting, pc := ParkWait(0))]
    requires s2.tasks[1].pc.Body? && s2.tasks[2].pc.Body? && e.slots == map[0 := 0] && e.spare == []
    requires OnlyYields(e, s) && Reachable(s) && e.deferred.None? && Runnable(s, 1) && Runnable(s, 2)
    ensures Sleeper(s, Body)
  {
    assert Kept(e.tasks[0], s.tasks[0]) && Kept(e.tasks[1], s.tasks[1]) && Kept(e.tasks[2], s.tasks[2]);
  }

  lemma Looked(s: State, pc1: Pc) returns (s': State)
    requires Sleeper(s, pc1) && s.current in s.tasks && Cur(s).pc.Body?
    ensures Reachable(s') && s' == SetCur(s, Cur(s).(pc := UnparkSeen(0, 0)))
  {
    ReachableIsSane(s);
    var m := MoveTo(s, UnparkLook(0), UnparkLoaded(0, 0));
    ReachableIsSane(m);
    TestMoves(s, m);
    s' := MoveTo(m, UnparkTest, UnparkSeen(0, 0));
    SetCurTwice(s, UnparkLoaded(0, 0), UnparkSeen(0, 0));
  }

  lemma TestMoves(s: State, m: State)
    requires s.current in s.tasks && s.current != 0 && IsWaiting(s, 0)
    requires m == SetCur(s, Cur(s).(pc := UnparkLoaded(0, 0))) && Sane(m)
    ensures May(m, UnparkTest) && Next(m, UnparkTest) == SetCur(m, Cur(m).(pc := UnparkSeen(0, 0)))
  {}

  /** The sleeper has been woken while task 1 is still between looking and exchanging. */
  ghost predicate WokenUp(s: State) {
    && Scene(s) && s.tasks.Keys == {0, 1, 2} && s.slots == map[] && s.current == 2
    && s.tasks[1].pc == UnparkSeen(0, 0) && s.tasks[0].pc == ParkWait(0) && s.tasks[0].run.Suspended?
    && Runnable(s, 0) && Runnable(s, 1)
  }

  /** Task 2 wakes the sleeper, who is then queued with everybody else. */
  lemma Woken(s: State) returns (s': State)
    requires Sleeper(s, UnparkSeen(0, 0)) && s.current == 2
    ensures WokenUp(s')
  {
    var m := Looked(s, UnparkSeen(0, 0));
    LookedAt(s, m);
    var n := Taken(m);
    TakenOut(s, m, n);
    s' := Finished(n);
  }

  lemma LookedAt(s: State, m: State)
    requires Sleeper(s, UnparkSeen(0, 0)) && s.current == 2 && m == SetCur(s, Cur(s).(pc := UnparkSeen(0, 0)))
    ensures m.current == 2 && m.tasks.Keys == {0, 1, 2} && m.slots == map[0 := 0] && m.tasks[0] == s.tasks[0]
    ensures m.tasks[1] == s.tasks[1] && m.tasks[2].pc == UnparkSeen(0, 0) && m.tasks[0].run.Waiting?
  {}

  lemma TakenOut(s: State, m: State, n: State)
    requires Sleeper(s, UnparkSeen(0, 0)) && s.current == 2 && m == SetCur(s, Cur(s).(pc := UnparkSeen(0, 0)))
    requires m.current in m.tasks && n == SetCur(m, Cur(m).(pc := Unparking(0))).(slots := map[])
    ensures n.deferred == s.deferred && n.spare == s.spare && n.rq == s.rq && n.current == 2
    ensures n.tasks.Keys == {0, 1, 2} && n.tasks[0] == s.tasks[0] && n.tasks[1] == s.tasks[1]
    ensures n.tasks[2].pc == Unparking(0)
  {}

  lemma Finished(n: State) returns (s': State)
    requires Scene(n) && n.tasks.Keys == {0, 1, 2} && n.slots == map[] && n.current == 2
    requires n.tasks[2].pc == Unparking(0) && n.tasks[1].pc == UnparkSeen(0, 0) && n.tasks[0].pc == ParkWait(0)
    requires Runnable(n, 1)
    ensures WokenUp(s')
  {
    ReachableIsSane(n);
    Advance(n, UnparkFinish);
    s' := Next(n, UnparkFinish);
    UnparkEffect(n);
    UnparkedQueue(n);
  }

  lemma Taken(m: State) returns (n: State)
    requires Reachable(m) && m.current == 2 && 0 in m.tasks && 2 in m.tasks && m.slots == map[0 := 0]
    requires m.tasks[2].pc == UnparkSeen(0, 0) && m.tasks[0].run.Waiting?
    ensures Reachable(n) && n == SetCur(m, Cur(m).(pc := Unparking(0))).(slots := map[])
  {
    ReachableIsSane(m);
    Advance(m, UnparkTake);
    n := Next(m, UnparkTake);
    assert m.slots - {0} == map[];
  }

  lemma UnparkedQueue(s: State)
    requires Sane(s) && Cur(s).pc.Unparking?
    ensures forall t :: t in Unparked(s).rq <==> t in s.rq || t == Cur(s).pc.peer
    ensures Unparked(s).slots == s.slots && Unparked(s).spare == s.spare
  {
    EnqueuedMembers(Unparked(s).tasks, s.rq, Cur(s).pc.peer);
  }

  lemma BackIntoSlot(s9: State) returns (s: State)
    requires WokenUp(s9)
    ensures Raced(s)
  {
    var s10 := Bring(s9, 0);
    assert Kept(s9.tasks[0], s10.tasks[0]) && Kept(s9.tasks[1], s10.tasks[1]);
    var s11 := Claimed(s10, 0);
    assert Runnable(s10, 1) && Runnable(s11, 1);
    s := Bring(s11, 1);
    assert Kept(s11.tasks[0], s.tasks[0]) && Kept(s11.tasks[1], s.tasks[1]);
  }

  ghost predicate Raced(s: State) {
    && Reachable(s) && s.current == 1 && 1 in s.tasks && s.tasks[1].pc == UnparkSeen(0, 0) && s.slots == map[0 := 0]
    && 0 in s.tasks && !s.tasks[0].run.Waiting?
  }

  lemma RacedExists() returns (s: State)
    ensures Raced(s)
  {
    var s3 := SleeperExists();
    var s4 := BringWithSleeper(s3, Body, 1);
    var s5 := Looked(s4, Body);
    var s6 := BringWithSleeper(s5, UnparkSeen(0, 0), 2);
    var s9 := Woken(s6);
    s := BackIntoSlot(s9);
  }

  /** Main result: `unpark`, preempted between looking at the slot and the exchange, can find at the exchange the very
      task it saw, but woken in between and on its way back into the slot: its assert then fails. */
  lemma UnparkAssertCanFail()
    ensures exists s: State ::
              && Reachable(s) && Can(s, UnparkTake) && StillThere(s, Cur(s).pc.w, Cur(s).pc.seen)
              && Cur(s).pc.seen in s.tasks && !s.tasks[Cur(s).pc.seen].run.Waiting?
  {
    var s := RacedExists();
    ReachableIsSane(s);
    assert Can(s, UnparkTake);
  }
}
