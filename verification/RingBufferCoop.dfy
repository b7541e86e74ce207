/** The ring buffer with timer preemption off: a task runs until it yields, parks or is
    outside `read`, `write` and `close`.  Parking then never strands anybody and closing
    the writer's end never loses a value; with preemption both fail. */
module RingBufferCoop {
  import opened Words
  import opened Options
  import opened RingBuffer
  import opened RingBufferFifo

  datatype Coop<T> = Coop(ring: Ring<T>, running: Actor)

  /** Points at which the running task may lose the processor. */
  predicate AtSwitch<T>(s: Ring<T>, who: Actor) {
    match who
    case Reader => s.reader.RIdle? || s.reader.RDone? || s.reader.RParked? || s.reader.RYield?
                   || s.reader.RCloseYield? || s.reader.RClosed?
    case Writer => s.writer.WIdle? || s.writer.WDone? || s.writer.WParked? || s.writer.WYield?
                   || s.writer.WCloseYield? || s.writer.WClosed?
    case Outsider => s.outsider.OIdle? || s.outsider.OYield?
  }

  predicate CoopEnabled<T>(c: Coop<T>, a: Action<T>) {
    Enabled(c.ring, a) && (ActorOf(a) == c.running || AtSwitch(c.ring, c.running))
  }

  function CoopNext<T>(c: Coop<T>, a: Action<T>): (c': Coop<T>)
    requires c.ring.Shape() && CoopEnabled(c, a)
    ensures c'.ring.Shape()
  {
    Coop(Next(c.ring, a), ActorOf(a))
  }

  predicate CoopLegal<T>(c: Coop<T>, acts: seq<Action<T>>)
    requires c.ring.Shape()
    decreases |acts|
  {
    acts == [] || (CoopEnabled(c, acts[0]) && CoopLegal(CoopNext(c, acts[0]), acts[1..]))
  }

  function CoopExec<T>(c: Coop<T>, acts: seq<Action<T>>): (c': Coop<T>)
    requires c.ring.Shape() && CoopLegal(c, acts)
    ensures c'.ring.Shape()
    decreases |acts|
  {
    if acts == [] then c else CoopExec(CoopNext(c, acts[0]), acts[1..])
  }

  // ---------------------------------------------------------------- invariant

  /** Where a task that is not running can be. */
  ghost predicate Resting<T>(s: Ring<T>, who: Actor) {
    match who
    case Reader => s.reader.RIdle? || s.reader.RDone? || s.reader.RParked? || s.reader.RReload? || s.reader.RClosed?
    case Writer => s.writer.WIdle? || s.writer.WDone? || s.writer.WParked? || s.writer.WReload? || s.writer.WClosed?
    case Outsider => s.outsider.OIdle?
  }

  ghost predicate OthersRest<T>(s: Ring<T>, who: Actor) {
    && (who != Reader ==> Resting(s, Reader))
    && (who != Writer ==> Resting(s, Writer))
    && (who != Outsider ==> Resting(s, Outsider))
  }

  /** No wake-up loop ever has to go round again. */
  ghost predicate NoSpin<T>(s: Ring<T>) {
    && !s.reader.RYield? && !s.reader.RCloseYield?
    && !s.writer.WYield? && !s.writer.WCloseYield?
    && !s.outsider.OYield?
  }

  /** The slot names a task exactly while that task is parking or parked. */
  ghost predicate SlotOwner<T>(s: Ring<T>) {
    && (s.stalled == Some(ReaderSide) <==>
        s.reader.RThunk? || s.reader.RAbort? || s.reader.RCommit? || s.reader.RParked?)
    && (s.stalled == Some(WriterSide) <==>
        s.writer.WThunk? || s.writer.WAbort? || s.writer.WCommit? || s.writer.WParked?)
  }

  /** Somebody has stored `_closed` and is about to look at the slot. */
  ghost predicate CloserActive<T>(s: Ring<T>) {
    s.reader.RCloseWake? || s.writer.WCloseWake? || s.outsider.OWake?
  }

  ghost predicate Empty<T>(s: Ring<T>) { |s.accepted| == |s.delivered| }

  ghost predicate Full<T>(s: Ring<T>) { |s.accepted| == |s.delivered| + s.Size() }

  /** The running task's loads are fresh and a parked task is parked for a reason that still holds,
      up to the wake-up that is being carried out right now. */
  ghost predicate ReaderFresh<T>(s: Ring<T>) {
    && (s.reader.RCheck? ==> s.reader.lw == s.w)
    && (s.reader.RCas? || s.reader.RThunk? || s.reader.RAbort? || s.reader.RCommit? ==> Empty(s))
    && (s.reader.RAbort? ==> s.closed)
    && (s.reader.RCommit? ==> !s.closed)
    && (s.reader.RParked? ==> Empty(s) || s.writer.WWake?)
    && (s.reader.RParked? && s.closed ==> CloserActive(s))
  }

  ghost predicate WriterFresh<T>(s: Ring<T>) {
    && (s.writer.WCheck? ==> s.writer.lr == s.r)
    && (s.writer.WCas? || s.writer.WThunk? || s.writer.WAbort? || s.writer.WCommit? ==> Full(s))
    && (s.writer.WCommit? ==> !s.closed)
    && (s.writer.WParked? ==> Full(s) || s.reader.RWake?)
    && (s.writer.WParked? && s.closed ==> CloserActive(s))
  }

  /** The writer's end has been closed, so no further value will be accepted. */
  ghost predicate WriterEnded<T>(s: Ring<T>) {
    s.writer.WCloseWake? || s.writer.WCloseYield? || s.writer.WClosed?
  }

  ghost predicate Drained<T>(s: Ring<T>) {
    && (s.closed <==> s.closers != {})
    && (Writer in s.closers ==> WriterEnded(s))
    && (s.reader == RDone(None) ==> s.closed)
    && (s.reader == RDone(None) && s.closers <= {Writer} ==> Empty(s))
  }

  /** The part of the invariant that cooperation adds. */
  ghost predicate Protocol<T>(s: Ring<T>, running: Actor) {
    && OthersRest(s, running)
    && NoSpin(s)
    && SlotOwner(s)
    && ReaderFresh(s)
    && WriterFresh(s)
    && Drained(s)
  }

  ghost predicate CoopInv<T>(c: Coop<T>) {
    Inv(c.ring) && Protocol(c.ring, c.running)
  }

  /** What the steps below need to know about the counters. */
  ghost predicate Measured<T>(s: Ring<T>) {
    && s.Shape()
    && Sub(s.w, s.r) == |s.accepted| - |s.delivered|
    && (s.reader.RCheck? ==> s.reader.lr == s.r)
    && (s.writer.WCheck? ==> s.writer.lw == s.w)
  }

  lemma CoopFreshInv<T>(exp: nat, first: Actor)
    requires exp <= 63
    ensures CoopInv(Coop(Fresh<T>(exp), first))
  {
    FreshInv<T>(exp);
  }

  /** A task at rest with its name in the slot is parked, so waking it succeeds at once. */
  lemma WakeSucceeds<T>(s: Ring<T>)
    requires SlotOwner(s) && s.stalled.Some?
    requires s.stalled == Some(ReaderSide) ==> Resting(s, Reader)
    requires s.stalled == Some(WriterSide) ==> Resting(s, Writer)
    ensures CanUnpark(s)
  {}

  lemma ReaderStepKeepsProtocol<T>(s: Ring<T>)
    requires Measured(s) && Protocol(s, Reader) && Enabled(s, ReaderStep)
    ensures Protocol(ReaderNext(s), Reader)
  {
    if s.stalled == Some(WriterSide) { WakeSucceeds(s); }
  }

  lemma WriterStepKeepsProtocol<T>(s: Ring<T>)
    requires Measured(s) && Protocol(s, Writer) && Enabled(s, WriterStep)
    ensures Protocol(WriterNext(s), Writer)
  {
    if s.writer.WWake? || s.writer.WCloseWake? {
      WakingWriterKeepsProtocol(s);
    } else {
      assert s.closers <= {Writer} && s.closers != {} ==> Writer in s.closers;
    }
  }

  lemma WakingWriterKeepsProtocol<T>(s: Ring<T>)
    requires Measured(s) && Protocol(s, Writer) && Enabled(s, WriterStep) && (s.writer.WWake? || s.writer.WCloseWake?)
    ensures Protocol(WriterNext(s), Writer)
  {
    if s.stalled == Some(ReaderSide) { WakeSucceeds(s); }
  }

  lemma OtherStepKeepsProtocol<T>(s: Ring<T>, a: Action<T>)
    requires Measured(s) && Protocol(s, ActorOf(a)) && Enabled(s, a)
    requires !a.ReaderStep? && !a.WriterStep?
    ensures Protocol(Next(s, a), ActorOf(a))
  {
    if s.stalled.Some? && a.OutsiderStep? { WakeSucceeds(s); }
  }

  lemma CoopStepKeepsInv<T>(c: Coop<T>, a: Action<T>)
    requires CoopInv(c) && CoopEnabled(c, a)
    ensures CoopInv(CoopNext(c, a))
  {
    StepKeepsInv(c.ring, a);
    Occupancy(c.ring);
    assert Protocol(c.ring, ActorOf(a));
    match a
    case ReaderStep => ReaderStepKeepsProtocol(c.ring);
    case WriterStep => WriterStepKeepsProtocol(c.ring);
    case _ => OtherStepKeepsProtocol(c.ring, a);
  }

  lemma {:induction false} CoopRunKeepsInv<T>(c: Coop<T>, acts: seq<Action<T>>)
    requires CoopInv(c) && CoopLegal(c, acts)
    ensures CoopInv(CoopExec(c, acts))
    decreases |acts|
  {
    if acts == [] {
    } else {
      CoopStepKeepsInv(c, acts[0]);
      CoopRunKeepsInv(CoopNext(c, acts[0]), acts[1..]);
    }
  }

  /** A cooperative run is one of the interleavings, so the FIFO theorem applies to it as it stands. */
  lemma {:induction false} CoopRunIsInterleaving<T>(c: Coop<T>, acts: seq<Action<T>>)
    requires c.ring.Shape() && CoopLegal(c, acts)
    ensures Legal(c.ring, acts) && CoopExec(c, acts).ring == Exec(c.ring, acts)
    decreases |acts|
  {
    if acts == [] {
    } else {
      CoopRunIsInterleaving(CoopNext(c, acts[0]), acts[1..]);
    }
  }

  /** Main result for parking.  Whenever the running task could be switched out: a parked
      reader means an empty open buffer, a parked writer means a full open one, the two are
      never parked together, and the slot is free unless it names a parked task.  At every
      point: a task about to park finds the slot free, so `park_if` fails only if closed, and
      no wake-up loop yields. */
  lemma CooperativeParkingIsSound<T>(exp: nat, first: Actor, acts: seq<Action<T>>)
    requires exp <= 63 && CoopLegal(Coop(Fresh<T>(exp), first), acts)
    ensures
      var c := CoopExec(Coop(Fresh<T>(exp), first), acts);
      var s := c.ring;
      && (AtSwitch(s, c.running) && s.reader.RParked? ==> Empty(s) && !s.closed)
      && (AtSwitch(s, c.running) && s.writer.WParked? ==> Full(s) && !s.closed)
      && !(s.reader.RParked? && s.writer.WParked?)
      && (AtSwitch(s, c.running) && s.stalled.Some? ==> CanUnpark(s))
      && (s.reader.RCas? || s.writer.WCas? ==> s.stalled.None?)
      && NoSpin(s)
      && (Outside(s, c.running) ==> forall a :: Enabled(s, a) ==> CoopEnabled(c, a))
  {
    CoopFreshInv<T>(exp, first);
    CoopRunKeepsInv(Coop(Fresh<T>(exp), first), acts);
    CasFindsSlotFree(CoopExec(Coop(Fresh<T>(exp), first), acts));
  }

  /** The task is in no call, or asleep in one. */
  predicate Outside<T>(s: Ring<T>, who: Actor) {
    match who
    case Reader => s.reader.RIdle? || s.reader.RDone? || s.reader.RParked? || s.reader.RClosed?
    case Writer => s.writer.WIdle? || s.writer.WDone? || s.writer.WParked? || s.writer.WClosed?
    case Outsider => s.outsider.OIdle?
  }

  lemma CasFindsSlotFree<T>(c: Coop<T>)
    requires Protocol(c.ring, c.running)
    ensures c.ring.reader.RCas? || c.ring.writer.WCas? ==> c.ring.stalled.None?
  {
    match c.ring.stalled
    case None =>
    case Some(ReaderSide) =>
      assert !c.ring.reader.RCas?;
      assert c.ring.writer.WCas? ==> c.ring.reader.RParked? && Full(c.ring);
    case Some(WriterSide) =>
      assert !c.ring.writer.WCas?;
      assert c.ring.reader.RCas? ==> c.ring.writer.WParked? && Empty(c.ring);
  }

  /** Main result for draining.  If only the writer's end is ever closed, a read that comes
      back empty proves that every accepted value had been delivered. */
  lemma CooperativeCloseDrains<T>(exp: nat, first: Actor, acts: seq<Action<T>>)
    requires exp <= 63 && CoopLegal(Coop(Fresh<T>(exp), first), acts)
    ensures
      var s := CoopExec(Coop(Fresh<T>(exp), first), acts).ring;
      s.reader == RDone(None) && s.closers <= {Writer} ==> s.delivered == s.accepted
  {
    CoopFreshInv<T>(exp, first);
    CoopRunKeepsInv(Coop(Fresh<T>(exp), first), acts);
  }
}
