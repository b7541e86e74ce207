/** What every step of every interleaving of the mutex keeps. */
module MutexProof {
  import opened Options
  import opened Mutex

  // ---------------------------------------------------------------- invariant

  ghost predicate SpinHolder(s: State) {
    && (s.spin.Some? ==> s.spin.value in s.tasks)
    && forall t :: t in s.tasks ==> (HoldsSpin(s.tasks[t].pc) <==> s.spin == Some(t))
  }

  ghost predicate Unlocking(pc: Pc) {
    pc.UnlockSpin? || pc.UnlockTest? || pc.UnparkLoad? || pc.UnparkTest? || pc.UnparkSwing? || pc.PopAndRelease?
  }

  /** Between return from `lock` and the release inside its own `unlock`. */
  ghost predicate Owns(k: Task) {
    || k.inside
    || k.pc == UnlockSpin(true) || k.pc == UnlockTest(true)
    || k.pc.UnparkLoad? || k.pc.UnparkTest? || k.pc.UnparkSwing? || k.pc.PopAndRelease?
  }

  ghost predicate OwnerExact(s: State) {
    && (s.owner.Some? ==> s.owner.value in s.tasks)
    && (forall t :: t in s.tasks ==> (Owns(s.tasks[t]) <==> s.owner == Some(t)))
    && (forall t :: t in s.tasks && Unlocking(s.tasks[t].pc) ==> !s.tasks[t].inside)
  }

  /** Entries are numbered in append order; the queue is always the run of the latest ones
      and the released history is the run of all earlier ones. */
  ghost predicate AppendOrder(s: State) {
    && |s.released| + |s.queue| == s.next
    && (forall i :: 0 <= i < |s.released| ==> s.released[i] == i)
    && (forall i :: 0 <= i < |s.queue| ==> s.queue[i] == |s.released| + i)
  }

  ghost predicate Popping(s: State) {
    s.spin.Some? && s.spin.value in s.tasks && s.tasks[s.spin.value].pc.PopAndRelease?
  }

  /** The entry belongs to a task that is parking or parked on it. */
  ghost predicate Occupied(s: State, e: EntryId)
    requires e in s.slots && e in s.author && s.author[e] in s.tasks
  {
    var pc := s.tasks[s.author[e]].pc;
    || (pc == Parking(e) && s.slots[e] == None)
    || ((pc == Claimed(e) || pc == Parked(e)) && s.slots[e] == Some(s.author[e]))
  }

  ghost predicate KnownEntry(s: State, e: EntryId) {
    e in s.slots && e in s.author && s.author[e] in s.tasks
  }

  /** Every queue entry is occupied by its author, except the front one while it is being popped. */
  ghost predicate Entries(s: State) {
    && (forall i :: 0 <= i < |s.queue| ==> KnownEntry(s, s.queue[i]))
    && (forall i :: 0 <= i < |s.queue| && !(Popping(s) && i == 0) ==> Occupied(s, s.queue[i]))
  }

  ghost predicate Queued(s: State, e: EntryId) {
    |s.released| + (if Popping(s) then 1 else 0) <= e < s.next
  }

  /** The facts `Parkers` states about one task. */
  ghost predicate ParkerOk(s: State, t: Tid)
    requires t in s.tasks
  {
    match s.tasks[t].pc
    case Parking(e) => Queued(s, e) && e in s.author && s.author[e] == t
    case Claimed(e) => Queued(s, e) && e in s.author && s.author[e] == t
    case Parked(e) => Queued(s, e) && e in s.author && s.author[e] == t
    case UnparkLoad => |s.queue| > 0
    case UnparkTest(p) => |s.queue| > 0 && p in s.tasks && KnownEntry(s, s.queue[0]) && s.slots[s.queue[0]] == Some(p)
    case UnparkSwing(p) =>
      && |s.queue| > 0 && p in s.tasks && KnownEntry(s, s.queue[0])
      && s.slots[s.queue[0]] == Some(p) && s.tasks[p].pc == Parked(s.queue[0])
    case PopAndRelease => |s.queue| > 0
    case ParkFailed => false
    case _ => true
  }

  /** A task parks only on an entry of its own that is still queued, so the entry is alive. */
  ghost predicate Parkers(s: State) {
    forall t :: t in s.tasks ==> ParkerOk(s, t)
  }

  /** A non-empty queue without an owner has somebody on the way to recheck. */
  ghost predicate NotStranded(s: State) {
    s.queue != [] && (s.owner.None? || Popping(s)) ==> SomeoneRechecks(s)
  }

  ghost predicate SomeoneRechecks(s: State) {
    exists t :: t in s.tasks && YetToRecheck(s.tasks[t].pc)
  }

  ghost function SlowTasks(s: State): set<Tid> {
    set t | t in s.tasks && InSlowPath(s.tasks[t].pc)
  }

  ghost predicate BoostExact(s: State) {
    && s.boost == |SlowTasks(s)|
    && (s.owner.Some? ==> s.owner.value in s.tasks && s.boost <= s.tasks[s.owner.value].boost)
  }

  ghost predicate Inv(s: State) {
    SpinHolder(s) && OwnerExact(s) && AppendOrder(s) && Entries(s) && Parkers(s) && NotStranded(s) && BoostExact(s)
  }

  lemma InvDefines(s: State, t: Tid)
    requires Inv(s) && t in s.tasks
    ensures Defined(s, t)
  {
    forall e | e in s.queue ensures e in s.slots {
      var i :| 0 <= i < |s.queue| && s.queue[i] == e;
      assert KnownEntry(s, s.queue[i]);
    }
    if s.tasks[t].pc.Parking? {
      var e := s.tasks[t].pc.entry;
      assert s.queue[e - |s.released|] == e;
      assert KnownEntry(s, s.queue[e - |s.released|]);
    }
  }

  lemma FreshInv(ids: set<Tid>)
    ensures Inv(Fresh(ids))
  {
    assert SlowTasks(Fresh(ids)) == {};
  }

  // ---------------------------------------------------------------- preservation

  ghost predicate OnEntry(pc: Pc) {
    pc.Parking? || pc.Claimed? || pc.Parked?
  }

  /** The acting task is not parking, not waking anybody and not popping. */
  ghost predicate Plain(s: State, a: Action)
    requires a.t in s.tasks
  {
    a.Step? ==>
      var pc := s.tasks[a.t].pc;
      !OnEntry(pc) && !pc.UnparkSwing? && !pc.PopAndRelease? && !(pc.LockTest? && s.owner.Some?)
  }

  /** Only the record of `t`, the owner, the spin lock and the boost change. */
  ghost predicate Small(s: State, s': State, t: Tid) {
    && t in s.tasks && t in s'.tasks
    && s' == s.(tasks := s.tasks[t := s'.tasks[t]], owner := s'.owner, spin := s'.spin, boost := s'.boost)
  }

  lemma PlainLockStep(s: State, t: Tid)
    requires Defined(s, t) && Enabled(s, Step(t)) && Plain(s, Step(t)) && !Unlocking(s.tasks[t].pc)
    ensures
      var s' := StepTask(s, t);
      Small(s, s', t) && !OnEntry(s'.tasks[t].pc) && !s'.tasks[t].pc.PopAndRelease? && !s'.tasks[t].pc.ParkFailed?
  {}

  lemma PlainUnlockStep(s: State, t: Tid)
    requires Defined(s, t) && Enabled(s, Step(t)) && Plain(s, Step(t)) && Unlocking(s.tasks[t].pc)
    ensures
      var s' := StepTask(s, t);
      Small(s, s', t) && !OnEntry(s'.tasks[t].pc) && !s'.tasks[t].pc.PopAndRelease? && !s'.tasks[t].pc.ParkFailed?
  {
    if s.tasks[t].pc.UnparkLoad? { assert s.queue[0] in s.queue; }
    assert s.tasks == s.tasks[t := s.tasks[t]];
  }

  lemma PlainStep(s: State, a: Action)
    requires Defined(s, a.t) && Enabled(s, a) && Plain(s, a)
    ensures
      var s' := Next(s, a);
      && Small(s, s', a.t) && !OnEntry(s'.tasks[a.t].pc) && !s'.tasks[a.t].pc.PopAndRelease?
      && !s'.tasks[a.t].pc.ParkFailed?
  {
    if a.Step? {
      if Unlocking(s.tasks[a.t].pc) {
        PlainUnlockStep(s, a.t);
      } else {
        PlainLockStep(s, a.t);
      }
    }
  }

  lemma PlainTouchesOneTask(s: State, a: Action)
    requires Defined(s, a.t) && Enabled(s, a) && Plain(s, a)
    ensures
      var s' := Next(s, a);
      && s'.tasks.Keys == s.tasks.Keys
      && (forall u :: u in s.tasks && u != a.t ==> s'.tasks[u] == s.tasks[u])
  {
    PlainStep(s, a);
  }

  lemma PlainStart(s: State, a: Action)
    requires a.t in s.tasks && Enabled(s, a) && Plain(s, a)
    ensures !OnEntry(s.tasks[a.t].pc) && !s.tasks[a.t].pc.PopAndRelease?
  {}

  lemma PlainEffect(s: State, a: Action)
    requires Defined(s, a.t) && Enabled(s, a) && Plain(s, a)
    ensures
      var s' := Next(s, a);
      && s'.queue == s.queue && s'.slots == s.slots && s'.author == s.author
      && s'.released == s.released && s'.next == s.next
      && s'.tasks.Keys == s.tasks.Keys
      && (forall u :: u in s.tasks && u != a.t ==> s'.tasks[u] == s.tasks[u])
      && !OnEntry(s.tasks[a.t].pc) && !OnEntry(s'.tasks[a.t].pc)
      && !s.tasks[a.t].pc.PopAndRelease? && !s'.tasks[a.t].pc.PopAndRelease? && !s'.tasks[a.t].pc.ParkFailed?
  {
    PlainStep(s, a);
    PlainStart(s, a);
  }

  ghost predicate Swings(s: State, a: Action, peer: Tid)
    requires a.t in s.tasks
  {
    a.Step? && s.tasks[a.t].pc == UnparkSwing(peer)
  }

  /** A step touches other tasks in two ways only: the woken peer's control point and the owner's boost. */
  lemma PeerEffect(s: State, a: Action, u: Tid)
    requires Defined(s, a.t) && Enabled(s, a) && u in s.tasks && u != a.t
    ensures
      var s' := Next(s, a);
      && u in s'.tasks && s'.tasks[u].inside == s.tasks[u].inside
      && (s'.tasks[u].pc == s.tasks[u].pc || (Swings(s, a, u) && s'.tasks[u].pc == Relock))
  {
    if Plain(s, a) { PlainTouchesOneTask(s, a); }
  }

  ghost predicate SpinExact(s: State, t: Tid)
    requires t in s.tasks
  {
    HoldsSpin(s.tasks[t].pc) <==> s.spin == Some(t)
  }

  lemma SpinOfLocker(s: State, a: Action)
    requires Defined(s, a.t) && Enabled(s, a) && SpinExact(s, a.t)
    requires a.Step? ==> !Unlocking(s.tasks[a.t].pc)
    ensures a.t in Next(s, a).tasks && SpinExact(Next(s, a), a.t)
  {}

  lemma SpinOfUnlocker(s: State, a: Action)
    requires Defined(s, a.t) && Enabled(s, a) && SpinExact(s, a.t)
    requires a.Step? && Unlocking(s.tasks[a.t].pc)
    requires s.tasks[a.t].pc.UnparkSwing? ==> s.tasks[a.t].pc.peer != a.t
    ensures a.t in Next(s, a).tasks && SpinExact(Next(s, a), a.t)
  {}

  lemma SpinMoves(s: State, a: Action)
    requires Defined(s, a.t) && Enabled(s, a) && SpinExact(s, a.t)
    ensures
      var s' := Next(s, a);
      s'.spin == s.spin || (s.spin.None? && s'.spin == Some(a.t)) || (s.spin == Some(a.t) && s'.spin.None?)
  {}

  lemma SpinHolderKept(s: State, a: Action)
    requires SpinHolder(s) && Parkers(s) && Defined(s, a.t) && Enabled(s, a)
    ensures SpinHolder(Next(s, a))
  {
    SameTasks(s, a);
    assert ParkerOk(s, a.t);
    SpinMoves(s, a);
    if a.Step? && Unlocking(s.tasks[a.t].pc) { SpinOfUnlocker(s, a); } else { SpinOfLocker(s, a); }
    var s' := Next(s, a);
    forall u | u in s.tasks && u != a.t
      ensures HoldsSpin(s'.tasks[u].pc) <==> s'.spin == Some(u)
    {
      PeerEffect(s, a, u);
    }
  }

  /** How ownership moves: gained when there is none, lost only by the acting owner. */
  lemma OwnershipMoves(s: State, a: Action)
    requires OwnerExact(s) && Defined(s, a.t) && Enabled(s, a)
    ensures
      var s' := Next(s, a);
      s'.owner == s.owner || (s.owner.None? && s'.owner == Some(a.t)) || (s.owner == Some(a.t) && s'.owner.None?)
  {}

  ghost predicate ClaimExact(s: State, t: Tid)
    requires t in s.tasks
  {
    && (Owns(s.tasks[t]) <==> s.owner == Some(t))
    && (Unlocking(s.tasks[t].pc) ==> !s.tasks[t].inside)
  }

  /** The acting task's claim follows the owner field. */
  lemma OwnershipOfCaller(s: State, a: Action)
    requires Defined(s, a.t) && Enabled(s, a) && ClaimExact(s, a.t) && !a.Step?
    ensures a.t in Next(s, a).tasks && ClaimExact(Next(s, a), a.t)
  {}

  lemma OwnershipOfLocker(s: State, a: Action)
    requires Defined(s, a.t) && Enabled(s, a) && ClaimExact(s, a.t)
    requires a.Step? && !Unlocking(s.tasks[a.t].pc)
    ensures a.t in Next(s, a).tasks && ClaimExact(Next(s, a), a.t)
  {
    if s.tasks[a.t].pc.LockTest? {
      OwnershipAtTest(s, a.t);
    }
  }

  lemma OwnershipAtTest(s: State, t: Tid)
    requires Defined(s, t) && Enabled(s, Step(t)) && ClaimExact(s, t) && s.tasks[t].pc.LockTest?
    ensures t in StepTask(s, t).tasks && ClaimExact(StepTask(s, t), t)
  {}

  lemma OwnershipOfUnlocker(s: State, a: Action)
    requires Defined(s, a.t) && Enabled(s, a) && ClaimExact(s, a.t)
    requires a.Step? && Unlocking(s.tasks[a.t].pc)
    requires s.tasks[a.t].pc.UnparkSwing? ==> s.tasks[a.t].pc.peer != a.t
    ensures a.t in Next(s, a).tasks && ClaimExact(Next(s, a), a.t)
  {}

  lemma SameTasks(s: State, a: Action)
    requires Defined(s, a.t) && Enabled(s, a)
    ensures Next(s, a).tasks.Keys == s.tasks.Keys
  {
    if Plain(s, a) {
      PlainStep(s, a);
    } else {
      StepSameTasks(s, a.t);
    }
  }

  lemma StepSameTasks(s: State, t: Tid)
    requires Defined(s, t) && Enabled(s, Step(t)) && !Plain(s, Step(t))
    ensures StepTask(s, t).tasks.Keys == s.tasks.Keys
  {}

  lemma OwnerExactKept(s: State, a: Action)
    requires OwnerExact(s) && Parkers(s) && Defined(s, a.t) && Enabled(s, a)
    ensures OwnerExact(Next(s, a))
  {
    SameTasks(s, a);
    OwnershipMoves(s, a);
    assert ClaimExact(s, a.t) && ParkerOk(s, a.t);
    if !a.Step? {
      OwnershipOfCaller(s, a);
    } else if Unlocking(s.tasks[a.t].pc) {
      OwnershipOfUnlocker(s, a);
    } else {
      OwnershipOfLocker(s, a);
    }
    var s' := Next(s, a);
    forall u | u in s'.tasks && u != a.t
      ensures (Owns(s'.tasks[u]) <==> s'.owner == Some(u)) && (Unlocking(s'.tasks[u].pc) ==> !s'.tasks[u].inside)
    {
      PeerEffect(s, a, u);
      assert ClaimExact(s, u);
    }
  }

  lemma AppendOrderKept(s: State, a: Action)
    requires AppendOrder(s) && Defined(s, a.t) && Enabled(s, a)
    ensures AppendOrder(Next(s, a))
  {}

  lemma PlainKeepsPopping(s: State, a: Action)
    requires Defined(s, a.t) && Enabled(s, a) && Plain(s, a)
    requires SpinHolder(s) && SpinHolder(Next(s, a))
    ensures Popping(Next(s, a)) == Popping(s)
  {
    PlainEffect(s, a);
    var s' := Next(s, a);
    if Popping(s) {
      assert HoldsSpin(s'.tasks[s.spin.value].pc);
    }
    if Popping(s') {
      assert HoldsSpin(s.tasks[s'.spin.value].pc);
    }
  }

  lemma EntriesKeptPlain(s: State, a: Action)
    requires Entries(s) && Defined(s, a.t) && Enabled(s, a) && Plain(s, a)
    requires SpinHolder(s) && SpinHolder(Next(s, a))
    ensures Entries(Next(s, a))
  {
    PlainEffect(s, a);
    PlainKeepsPopping(s, a);
    var s' := Next(s, a);
    forall i | 0 <= i < |s.queue|
      ensures KnownEntry(s', s.queue[i])
      ensures !(Popping(s) && i == 0) ==> Occupied(s', s.queue[i])
    {
      assert KnownEntry(s, s.queue[i]);
    }
  }

  /** The steps that are not plain, one by one. */
  ghost predicate Enqueues(s: State, a: Action)
    requires a.t in s.tasks
  {
    a.Step? && s.tasks[a.t].pc.LockTest? && s.owner.Some?
  }

  lemma EntriesKeptEnqueue(s: State, a: Action)
    requires SpinHolder(s) && AppendOrder(s) && Entries(s) && Defined(s, a.t) && Enabled(s, a) && Enqueues(s, a)
    ensures Entries(Next(s, a))
  {
    var s' := Next(s, a);
    forall i | 0 <= i < |s.queue|
      ensures KnownEntry(s', s.queue[i]) && Occupied(s', s.queue[i])
    {
      assert KnownEntry(s, s.queue[i]) && Occupied(s, s.queue[i]);
    }
  }

  lemma EntriesKeptPark(s: State, a: Action)
    requires Entries(s) && Parkers(s) && AppendOrder(s) && Defined(s, a.t) && Enabled(s, a)
    requires a.Step? && (s.tasks[a.t].pc.Parking? || s.tasks[a.t].pc.Claimed?)
    requires SpinHolder(s)
    ensures Entries(Next(s, a)) && !Next(s, a).tasks[a.t].pc.ParkFailed?
  {
    var s' := Next(s, a);
    var e := s.tasks[a.t].pc.entry;
    assert s.queue[e - |s.released|] == e;
    assert Occupied(s, s.queue[e - |s.released|]);
    forall i | 0 <= i < |s.queue|
      ensures KnownEntry(s', s.queue[i])
      ensures !(Popping(s) && i == 0) ==> Occupied(s', s.queue[i])
    {
      assert KnownEntry(s, s.queue[i]);
      assert !(Popping(s) && i == 0) ==> Occupied(s, s.queue[i]);
    }
  }

  lemma EntriesKeptSwing(s: State, a: Action)
    requires Entries(s) && Parkers(s) && AppendOrder(s) && SpinHolder(s) && Defined(s, a.t) && Enabled(s, a)
    requires a.Step? && s.tasks[a.t].pc.UnparkSwing?
    ensures Entries(Next(s, a)) && Popping(Next(s, a))
  {
    var s' := Next(s, a);
    forall i | 0 <= i < |s.queue|
      ensures KnownEntry(s', s.queue[i])
      ensures i > 0 ==> Occupied(s', s.queue[i])
    {
      assert KnownEntry(s, s.queue[i]) && Occupied(s, s.queue[i]);
      assert Occupied(s, s.queue[0]);
    }
  }

  lemma EntriesKeptPop(s: State, a: Action)
    requires Entries(s) && AppendOrder(s) && SpinHolder(s) && Defined(s, a.t) && Enabled(s, a)
    requires a.Step? && s.tasks[a.t].pc.PopAndRelease?
    ensures Entries(Next(s, a))
  {
    var s' := Next(s, a);
    forall i | 0 <= i < |s'.queue|
      ensures KnownEntry(s', s'.queue[i]) && Occupied(s', s'.queue[i])
    {
      assert s'.queue[i] == s.queue[i + 1];
      assert KnownEntry(s, s.queue[i + 1]) && Occupied(s, s.queue[i + 1]);
    }
  }

  lemma EntriesKept(s: State, a: Action)
    requires Defined(s, a.t) && Enabled(s, a)
    requires SpinHolder(s) && SpinHolder(Next(s, a)) && AppendOrder(s) && Entries(s) && Parkers(s)
    ensures Entries(Next(s, a))
  {
    if Plain(s, a) {
      EntriesKeptPlain(s, a);
    } else if Enqueues(s, a) {
      EntriesKeptEnqueue(s, a);
    } else if s.tasks[a.t].pc.UnparkSwing? {
      EntriesKeptSwing(s, a);
    } else if s.tasks[a.t].pc.PopAndRelease? {
      EntriesKeptPop(s, a);
    } else {
      EntriesKeptPark(s, a);
    }
  }

  lemma ParkersKeptPlain(s: State, a: Action)
    requires Defined(s, a.t) && Enabled(s, a) && Plain(s, a)
    requires SpinHolder(s) && SpinHolder(Next(s, a)) && AppendOrder(s) && Entries(s) && Parkers(s)
    ensures Parkers(Next(s, a))
  {
    PlainEffect(s, a);
    PlainKeepsPopping(s, a);
    var s' := Next(s, a);
    forall u | u in s'.tasks && u != a.t
      ensures ParkerOk(s', u)
    {
      assert ParkerOk(s, u);
    }
    assert ParkerOk(s, a.t);
    ParkerOkActor(s, a);
  }

  lemma ParkerOkActor(s: State, a: Action)
    requires Defined(s, a.t) && Enabled(s, a) && Plain(s, a)
    requires Entries(s) && ParkerOk(s, a.t) && SpinHolder(s) && AppendOrder(s)
    ensures a.t in Next(s, a).tasks && ParkerOk(Next(s, a), a.t)
  {
    if a.Step? && |s.queue| > 0 {
      assert KnownEntry(s, s.queue[0]);
      if s.tasks[a.t].pc.UnparkLoad? || s.tasks[a.t].pc.UnparkTest? {
        assert Occupied(s, s.queue[0]);
      }
    }
  }

  lemma ParkersKeptEnqueue(s: State, a: Action)
    requires Defined(s, a.t) && Enabled(s, a) && Enqueues(s, a)
    requires SpinHolder(s) && AppendOrder(s) && Entries(s) && Parkers(s)
    ensures Parkers(Next(s, a))
  {
    var s' := Next(s, a);
    forall u | u in s'.tasks && u != a.t
      ensures ParkerOk(s', u)
    {
      assert ParkerOk(s, u);
    }
  }

  lemma ParkersKeptPark(s: State, a: Action)
    requires Defined(s, a.t) && Enabled(s, a)
    requires a.Step? && (s.tasks[a.t].pc.Parking? || s.tasks[a.t].pc.Claimed?)
    requires SpinHolder(s) && AppendOrder(s) && Entries(s) && Parkers(s)
    ensures Parkers(Next(s, a))
  {
    EntriesKeptPark(s, a);
    var s' := Next(s, a);
    assert ParkerOk(s, a.t);
    forall u | u in s'.tasks && u != a.t
      ensures ParkerOk(s', u)
    {
      assert ParkerOk(s, u);
    }
  }

  lemma ParkersKeptSwing(s: State, a: Action)
    requires Defined(s, a.t) && Enabled(s, a)
    requires a.Step? && s.tasks[a.t].pc.UnparkSwing?
    requires SpinHolder(s) && AppendOrder(s) && Entries(s) && Parkers(s)
    ensures Parkers(Next(s, a))
  {
    EntriesKeptSwing(s, a);
    var s' := Next(s, a);
    assert ParkerOk(s, a.t);
    forall u | u in s'.tasks && u != a.t
      ensures ParkerOk(s', u)
    {
      assert ParkerOk(s, u);
      assert SpinExact(s, u);
    }
  }

  lemma ParkersKeptPop(s: State, a: Action)
    requires Defined(s, a.t) && Enabled(s, a)
    requires a.Step? && s.tasks[a.t].pc.PopAndRelease?
    requires SpinHolder(s) && AppendOrder(s) && Entries(s) && Parkers(s)
    ensures Parkers(Next(s, a))
  {
    var s' := Next(s, a);
    forall u | u in s'.tasks && u != a.t
      ensures ParkerOk(s', u)
    {
      assert ParkerOk(s, u);
      assert SpinExact(s, u);
    }
  }

  lemma ParkersKept(s: State, a: Action)
    requires Defined(s, a.t) && Enabled(s, a)
    requires SpinHolder(s) && SpinHolder(Next(s, a)) && AppendOrder(s) && Entries(s) && Parkers(s)
    ensures Parkers(Next(s, a))
  {
    if Plain(s, a) {
      ParkersKeptPlain(s, a);
    } else if Enqueues(s, a) {
      ParkersKeptEnqueue(s, a);
    } else if s.tasks[a.t].pc.UnparkSwing? {
      ParkersKeptSwing(s, a);
    } else if s.tasks[a.t].pc.PopAndRelease? {
      ParkersKeptPop(s, a);
    } else {
      ParkersKeptPark(s, a);
    }
  }

  // -- nobody is stranded

  /** A task on its way to recheck stays so until it has rechecked, and it can only recheck
      successfully or because somebody else has become the owner. */
  lemma RecheckerStays(s: State, a: Action, u: Tid)
    requires Defined(s, a.t) && Enabled(s, a) && u in s.tasks && YetToRecheck(s.tasks[u].pc)
    ensures
      var s' := Next(s, a);
      || (u in s'.tasks && YetToRecheck(s'.tasks[u].pc))
      || (u == a.t && s.tasks[u].pc.LockTest? && s'.owner.Some? && s'.spin.None?)
  {
    if u != a.t { PeerEffect(s, a, u); }
  }

  /** The only ways into the dangerous region, from outside it. */
  lemma NewlyOwnerless(s: State, a: Action)
    requires Defined(s, a.t) && Enabled(s, a) && Parkers(s) && SpinHolder(s) && SpinHolder(Next(s, a))
    requires !(s.queue != [] && (s.owner.None? || Popping(s)))
    ensures NotStranded(Next(s, a))
  {
    assert ParkerOk(s, a.t);
    var s' := Next(s, a);
    if Plain(s, a) {
      PlainKeepsPopping(s, a);
      PlainStep(s, a);
    } else if s.tasks[a.t].pc.UnparkSwing? {
      assert s'.tasks[s.tasks[a.t].pc.peer].pc == Relock;
    }
  }

  lemma NotStrandedKept(s: State, a: Action)
    requires Defined(s, a.t) && Enabled(s, a) && NotStranded(s)
    requires Parkers(s) && SpinHolder(s) && SpinHolder(Next(s, a))
    ensures NotStranded(Next(s, a))
  {
    if s.queue != [] && (s.owner.None? || Popping(s)) {
      var u :| u in s.tasks && YetToRecheck(s.tasks[u].pc);
      RecheckerStays(s, a, u);
    } else {
      NewlyOwnerless(s, a);
    }
  }

  // -- boost accounting

  lemma SlowTasksStep(s: State, s': State, t: Tid)
    requires t in s.tasks && s'.tasks.Keys == s.tasks.Keys
    requires forall u :: u in s.tasks && u != t ==> InSlowPath(s'.tasks[u].pc) == InSlowPath(s.tasks[u].pc)
    ensures |SlowTasks(s')| == |SlowTasks(s)|
              + (if InSlowPath(s'.tasks[t].pc) then 1 else 0) - (if InSlowPath(s.tasks[t].pc) then 1 else 0)
  {
    var rest := SlowTasks(s) - {t};
    assert SlowTasks(s') - {t} == rest;
    assert SlowTasks(s) == if InSlowPath(s.tasks[t].pc) then rest + {t} else rest;
    assert SlowTasks(s') == if InSlowPath(s'.tasks[t].pc) then rest + {t} else rest;
  }

  ghost function Slow(pc: Pc): int {
    if InSlowPath(pc) then 1 else 0
  }

  lemma BoostOfUnlocker(s: State, t: Tid)
    requires Defined(s, t) && Enabled(s, Step(t)) && Unlocking(s.tasks[t].pc)
    requires s.tasks[t].pc.UnparkSwing? ==> s.tasks[t].pc.peer != t
    ensures
      var s' := StepTask(s, t);
      t in s'.tasks && !InSlowPath(s'.tasks[t].pc) && !InSlowPath(s.tasks[t].pc) && s'.boost == s.boost
  {}

  lemma BoostOfLocker(s: State, t: Tid)
    requires Defined(s, t) && Enabled(s, Step(t)) && !Unlocking(s.tasks[t].pc)
    requires s.tasks[t].pc.Parking? ==> s.slots[s.tasks[t].pc.entry].None?
    ensures
      var s' := StepTask(s, t);
      t in s'.tasks && s'.boost == s.boost + Slow(s'.tasks[t].pc) - Slow(s.tasks[t].pc)
  {}

  lemma BoostOfActor(s: State, a: Action)
    requires Defined(s, a.t) && Enabled(s, a) && ParkerOk(s, a.t)
    requires s.tasks[a.t].pc.Parking? ==> s.slots[s.tasks[a.t].pc.entry].None?
    ensures
      var s' := Next(s, a);
      a.t in s'.tasks && s'.boost == s.boost + Slow(s'.tasks[a.t].pc) - Slow(s.tasks[a.t].pc)
  {
    match a
    case Step(t) =>
      if Unlocking(s.tasks[t].pc) {
        BoostOfUnlocker(s, t);
      } else {
        BoostOfLocker(s, t);
      }
    case _ =>
  }

  lemma BoostCovered(s: State, a: Action)
    requires Defined(s, a.t) && Enabled(s, a) && ParkerOk(s, a.t) && OwnerExact(s)
    requires s.owner.Some? ==> s.boost <= s.tasks[s.owner.value].boost
    ensures
      var s' := Next(s, a);
      s'.owner.Some? ==> s'.owner.value in s'.tasks && s'.boost <= s'.tasks[s'.owner.value].boost
  {}

  /** A task about to compare-exchange its entry finds it empty and still queued. */
  lemma ParkingEntryFree(s: State, t: Tid)
    requires Entries(s) && Parkers(s) && AppendOrder(s) && t in s.tasks && s.tasks[t].pc.Parking?
    ensures
      var e := s.tasks[t].pc.entry;
      e in s.queue && e in s.slots && s.slots[e].None?
  {
    assert ParkerOk(s, t);
    var i := s.tasks[t].pc.entry - |s.released|;
    assert s.queue[i] == s.tasks[t].pc.entry;
    assert KnownEntry(s, s.queue[i]) && Occupied(s, s.queue[i]);
  }

  lemma BoostExactKept(s: State, a: Action)
    requires Defined(s, a.t) && Enabled(s, a) && BoostExact(s) && Parkers(s) && OwnerExact(s)
    requires Entries(s) && AppendOrder(s)
    ensures BoostExact(Next(s, a))
  {
    var s' := Next(s, a);
    if s.tasks[a.t].pc.Parking? { ParkingEntryFree(s, a.t); }
    assert ParkerOk(s, a.t);
    SameTasks(s, a);
    forall u | u in s.tasks && u != a.t
      ensures InSlowPath(s'.tasks[u].pc) == InSlowPath(s.tasks[u].pc)
    {
      PeerEffect(s, a, u);
    }
    SlowTasksStep(s, s', a.t);
    BoostOfActor(s, a);
    BoostCovered(s, a);
  }

  // ---------------------------------------------------------------- every run

  lemma StepKeepsInv(s: State, a: Action)
    requires Inv(s) && Enabled(s, a)
    ensures Defined(s, a.t) && Inv(Next(s, a))
  {
    InvDefines(s, a.t);
    SpinHolderKept(s, a);
    OwnerExactKept(s, a);
    AppendOrderKept(s, a);
    EntriesKept(s, a);
    ParkersKept(s, a);
    NotStrandedKept(s, a);
    BoostExactKept(s, a);
  }

  ghost predicate Legal(s: State, acts: seq<Action>)
    decreases |acts|
  {
    acts == [] || (Defined(s, acts[0].t) && Enabled(s, acts[0]) && Legal(Next(s, acts[0]), acts[1..]))
  }

  ghost function Exec(s: State, acts: seq<Action>): State
    requires Legal(s, acts)
    decreases |acts|
  {
    if acts == [] then s else Exec(Next(s, acts[0]), acts[1..])
  }

  lemma {:induction false} RunKeepsInv(s: State, acts: seq<Action>)
    requires Inv(s) && Legal(s, acts)
    ensures Inv(Exec(s, acts))
    decreases |acts|
  {
    if acts == [] {
    } else {
      StepKeepsInv(s, acts[0]);
      RunKeepsInv(Next(s, acts[0]), acts[1..]);
    }
  }

  ghost predicate Reachable(s: State) {
    exists ids: set<Tid>, acts: seq<Action> :: Legal(Fresh(ids), acts) && Exec(Fresh(ids), acts) == s
  }

  lemma ReachableInv(s: State)
    requires Reachable(s)
    ensures Inv(s)
  {
    var ids: set<Tid>, acts: seq<Action> :| Legal(Fresh(ids), acts) && Exec(Fresh(ids), acts) == s;
    FreshInv(ids);
    RunKeepsInv(Fresh(ids), acts);
  }

  lemma {:induction false} Extend(s: State, acts: seq<Action>, a: Action)
    requires Legal(s, acts) && Defined(Exec(s, acts), a.t) && Enabled(Exec(s, acts), a)
    ensures Legal(s, acts + [a]) && Exec(s, acts + [a]) == Next(Exec(s, acts), a)
    decreases |acts|
  {
    if acts == [] {
      assert [a][1..] == [];
    } else {
      Extend(Next(s, acts[0]), acts[1..], a);
      assert (acts + [a])[1..] == acts[1..] + [a];
    }
  }

  lemma ReachableDefines(s: State, a: Action)
    requires Reachable(s) && Enabled(s, a)
    ensures Defined(s, a.t)
  {
    ReachableInv(s);
    InvDefines(s, a.t);
  }

  lemma Advance(s: State, a: Action)
    requires Reachable(s) && Enabled(s, a)
    ensures Defined(s, a.t) && Reachable(Next(s, a))
  {
    ReachableDefines(s, a);
    var ids: set<Tid>, acts: seq<Action> :| Legal(Fresh(ids), acts) && Exec(Fresh(ids), acts) == s;
    Extend(Fresh(ids), acts, a);
  }

  // ---------------------------------------------------------------- main results

  /** At most one task is between its return from `lock` and its `unlock`; such a task is the
      recorded owner; and `unlock` throws exactly when called by any other task. */
  lemma MutualExclusion(s: State)
    requires Reachable(s)
    ensures forall t, u :: t in s.tasks && u in s.tasks && s.tasks[t].inside && s.tasks[u].inside ==> t == u
    ensures forall t :: t in s.tasks && s.tasks[t].inside ==> s.owner == Some(t)
    ensures forall t :: t in s.tasks && s.tasks[t].pc.UnlockTest? ==> (s.tasks[t].pc.legit <==> s.owner == Some(t))
  {
    ReachableInv(s);
  }

  /** No waiter is ever stranded.  A parked task is the author of a queue entry that names it,
      and a non-empty queue has either an owner, who will unlock, or a task already popped that
      has yet to recheck `_owner`, no matter how many lockers barge in between. */
  lemma NoWaiterStranded(s: State)
    requires Reachable(s)
    ensures s.queue != [] ==> s.owner.Some? || SomeoneRechecks(s)
    ensures forall t :: t in s.tasks && s.tasks[t].pc.Parked? ==>
              var e := s.tasks[t].pc.entry;
              && e in s.queue && e in s.author && s.author[e] == t && e in s.slots && s.slots[e] == Some(t)
              && (s.owner.Some? || SomeoneRechecks(s))
  {
    ReachableInv(s);
    forall t | t in s.tasks && s.tasks[t].pc.Parked?
      ensures
        var e := s.tasks[t].pc.entry;
        e in s.queue && e in s.author && s.author[e] == t && e in s.slots && s.slots[e] == Some(t)
    {
      assert ParkerOk(s, t);
      var i := s.tasks[t].pc.entry - |s.released|;
      assert s.queue[i] == s.tasks[t].pc.entry;
      assert KnownEntry(s, s.queue[i]) && Occupied(s, s.queue[i]);
    }
  }

  /** The asserts of the protocol hold: parking finds its own live, empty entry; waking finds a
      WAITING task in the front entry, so the compare-exchange succeeds. */
  lemma ParkAndUnparkAssertsHold(s: State, t: Tid)
    requires Reachable(s) && t in s.tasks
    ensures !s.tasks[t].pc.ParkFailed?
    ensures s.tasks[t].pc.Parking? ==>
              var e := s.tasks[t].pc.entry;
              e in s.queue && e in s.author && s.author[e] == t && e in s.slots && s.slots[e].None?
    ensures s.tasks[t].pc.UnparkSwing? ==>
              var p := s.tasks[t].pc.peer;
              && |s.queue| > 0 && s.queue[0] in s.slots && s.slots[s.queue[0]] == Some(p)
              && p in s.tasks && s.tasks[p].pc == Parked(s.queue[0])
  {
    ReachableInv(s);
    assert ParkerOk(s, t);
    if s.tasks[t].pc.Parking? { ParkingEntryFree(s, t); }
  }

  /** Entries are released in exactly the order they were appended, each once. */
  lemma WokenInAppendOrder(s: State)
    requires Reachable(s)
    ensures s.released + s.queue == seq(s.next, i => i)
  {
    ReachableInv(s);
  }

  // ---------------------------------------------------------------- the owner's boost

  /** What one step does to anybody's boost: a task that becomes owner gets the mutex's, the owner gets one more when
      somebody joins the queue and none when it hands over, and nothing else changes. */
  lemma BoostStep(s: State, a: Action, u: Tid)
    requires OwnerExact(s) && Defined(s, a.t) && Enabled(s, a) && ParkerOk(s, a.t) && u in s.tasks
    ensures
      var s' := Next(s, a);
      && u in s'.tasks
      && s'.tasks[u].boost ==
         (if s.owner.None? && s'.owner == Some(u) then s.boost
          else if s.owner == Some(u) && |s'.queue| > |s.queue| then s.tasks[u].boost + 1
          else if s.owner == Some(u) && |s'.queue| < |s.queue| then 0
          else s.tasks[u].boost)
  {
    assert ClaimExact(s, a.t);
    if Plain(s, a) {
      PlainBoosts(s, a, u);
    } else {
      OtherBoosts(s, a.t, u);
    }
  }

  lemma PlainBoosts(s: State, a: Action, u: Tid)
    requires Defined(s, a.t) && Enabled(s, a) && Plain(s, a) && u in s.tasks
    ensures
      var s' := Next(s, a);
      && u in s'.tasks && s'.queue == s.queue
      && s'.tasks[u].boost == if s.owner.None? && s'.owner == Some(u) then s.boost else s.tasks[u].boost
  {
    PlainStep(s, a);
    if u == a.t { OwnPlainBoost(s, a); }
  }

  lemma OwnPlainBoost(s: State, a: Action)
    requires Defined(s, a.t) && Enabled(s, a) && Plain(s, a)
    ensures
      var s' := Next(s, a);
      && a.t in s'.tasks
      && s'.tasks[a.t].boost == if s.owner.None? && s'.owner == Some(a.t) then s.boost else s.tasks[a.t].boost
  {}

  lemma OtherBoosts(s: State, t: Tid, u: Tid)
    requires Defined(s, t) && Enabled(s, Step(t)) && !Plain(s, Step(t)) && ClaimExact(s, t) && u in s.tasks
    ensures
      var s' := StepTask(s, t);
      && u in s'.tasks && !(s.owner.None? && s'.owner.Some?)
      && s'.tasks[u].boost ==
         (if s.owner == Some(u) && |s'.queue| > |s.queue| then s.tasks[u].boost + 1
          else if s.owner == Some(u) && |s'.queue| < |s.queue| then 0
          else s.tasks[u].boost)
  {}

  /** The boost the owner should have after `acts`, read off owner, queue and boost of the mutex along the run, if it
      should have `b` now: that of the mutex at its acquisition, and one for each task that joined the queue since. */
  ghost function ExpectedBoost(s: State, acts: seq<Action>, b: int): int
    requires Legal(s, acts)
    decreases |acts|
  {
    if acts == [] then b
    else
      var s' := Next(s, acts[0]);
      ExpectedBoost(s', acts[1..],
                    if s.owner.None? then s.boost else if |s'.queue| > |s.queue| then b + 1 else b)
  }

  lemma OwnerBoostStep(s: State, a: Action)
    requires Inv(s) && Defined(s, a.t) && Enabled(s, a)
    ensures
      var s' := Next(s, a);
      s'.owner.Some? ==>
        && s'.owner.value in s'.tasks
        && s'.tasks[s'.owner.value].boost ==
           (if s.owner.None? then s.boost
            else if |s'.queue| > |s.queue| then s.tasks[s.owner.value].boost + 1
            else s.tasks[s.owner.value].boost)
        && (s.owner.Some? ==> s'.owner == s.owner)
  {
    var s' := Next(s, a);
    assert ParkerOk(s, a.t);
    OwnershipMoves(s, a);
    if s'.owner.Some? {
      BoostStep(s, a, s'.owner.value);
      OwnerKeepsQueue(s, a);
    }
  }

  lemma OwnerKeepsQueue(s: State, a: Action)
    requires Defined(s, a.t) && Enabled(s, a)
    ensures Next(s, a).owner.Some? ==> |Next(s, a).queue| >= |s.queue|
  {}

  lemma {:induction false} RunOwnerBoost(s: State, acts: seq<Action>, b: int)
    requires Inv(s) && Legal(s, acts) && (s.owner.Some? ==> s.tasks[s.owner.value].boost == b)
    ensures
      var s' := Exec(s, acts);
      s'.owner.Some? ==> s'.owner.value in s'.tasks && s'.tasks[s'.owner.value].boost == ExpectedBoost(s, acts, b)
    decreases |acts|
  {
    if acts != [] {
      var s' := Next(s, acts[0]);
      StepKeepsInv(s, acts[0]);
      OwnerBoostStep(s, acts[0]);
      RunOwnerBoost(s', acts[1..],
                    if s.owner.None? then s.boost else if |s'.queue| > |s.queue| then b + 1 else b);
    }
  }

  /** Main result about boosts: after every run the owner's boost is that of the mutex when it acquired it plus the
      number of tasks that have joined the queue since. */
  lemma OwnerBoostIsExact(ids: set<Tid>, acts: seq<Action>)
    requires Legal(Fresh(ids), acts)
    ensures
      var s := Exec(Fresh(ids), acts);
      s.owner.Some? ==>
        s.owner.value in s.tasks && s.tasks[s.owner.value].boost == ExpectedBoost(Fresh(ids), acts, 0)
  {
    FreshInv(ids);
    RunOwnerBoost(Fresh(ids), acts, 0);
  }

  /** `_priority_boost` counts the tasks in the slow path at every point, so it never underflows,
      and the owner's own boost covers it. */
  lemma BoostAccounting(s: State)
    requires Reachable(s)
    ensures 0 <= s.boost == |set t | t in s.tasks && InSlowPath(s.tasks[t].pc)|
    ensures forall t :: t in s.tasks && s.tasks[t].pc.Unboost? ==> s.boost > 0
    ensures s.owner.Some? ==> s.owner.value in s.tasks && s.boost <= s.tasks[s.owner.value].boost
  {
    ReachableInv(s);
    assert SlowTasks(s) == set t | t in s.tasks && InSlowPath(s.tasks[t].pc);
    forall t | t in s.tasks && s.tasks[t].pc.Unboost?
      ensures s.boost > 0
    {
      assert t in SlowTasks(s);
    }
  }
}
