/** Exactly when an interleaving misleads the reader or the writer.  `RingBufferPreempt` shows that it can happen; here
    the condition is found that separates the runs in which it happens from those in which it does not: whether
    the other side's counter still has the value that was loaded at the moment `park_if` evaluates its check. */
module RingBufferExact {
  import opened Words
  import opened Options
  import opened RingBuffer
  import opened RingBufferFifo
  import opened RingBufferCoop

  /** Bookkeeping that holds under every interleaving, not only under cooperation. */
  ghost predicate Sound<T>(s: Ring<T>) {
    Inv(s) && Ended(s) && SlotOwner(s)
  }

  ghost predicate Ended<T>(s: Ring<T>) {
    (s.closed <==> s.closers != {}) && (Writer in s.closers ==> WriterEnded(s))
  }

  lemma EndedKept<T>(s: Ring<T>, a: Action<T>)
    requires s.Shape() && Enabled(s, a) && Ended(s)
    ensures Ended(Next(s, a))
  {}

  lemma SlotOwnerKept<T>(s: Ring<T>, a: Action<T>)
    requires s.Shape() && Enabled(s, a) && SlotOwner(s)
    ensures SlotOwner(Next(s, a))
  {
    match a
    case ReaderStep => ReaderKeepsSlotOwner(s);
    case WriterStep => WriterKeepsSlotOwner(s);
    case _ =>
  }

  lemma ReaderKeepsSlotOwner<T>(s: Ring<T>)
    requires s.Shape() && Enabled(s, ReaderStep) && SlotOwner(s)
    ensures SlotOwner(ReaderNext(s))
  {}

  lemma WriterKeepsSlotOwner<T>(s: Ring<T>)
    requires s.Shape() && Enabled(s, WriterStep) && SlotOwner(s)
    ensures SlotOwner(WriterNext(s))
  {}

  lemma SoundKept<T>(s: Ring<T>, a: Action<T>)
    requires Sound(s) && Enabled(s, a)
    ensures Sound(Next(s, a))
  {
    StepKeepsInv(s, a);
    EndedKept(s, a);
    SlotOwnerKept(s, a);
  }

  // ---------------------------------------------------------------- what can go wrong, and the guard

  /** Only the writer's end is closed, and a read is about to return empty, or has, although an accepted
      value was never delivered. */
  ghost predicate Lost<T>(s: Ring<T>) {
    s.closers <= {Writer} && (s.reader.RAbort? || s.reader == RDone(None)) && !Empty(s)
  }

  /** The reader is committed to waiting although a value is there and no writer is about to wake it. */
  ghost predicate Stranded<T>(s: Ring<T>) {
    (s.reader.RCommit? || s.reader.RParked?) && !Empty(s) && !(s.writer.WWake? || s.writer.WYield?)
  }

  /** The writer is committed to waiting although there is room and no reader is about to wake it. */
  ghost predicate WriterStranded<T>(s: Ring<T>) {
    (s.writer.WCommit? || s.writer.WParked?) && !Full(s) && !(s.reader.RWake? || s.reader.RYield?)
  }

  ghost predicate Misled<T>(s: Ring<T>) {
    Lost(s) || Stranded(s) || WriterStranded(s)
  }

  /** The reader's check in `park_if` is evaluated now, with `_w` no longer what it loaded. */
  predicate StaleRead<T>(s: Ring<T>) {
    && s.reader.RThunk? && s.w != s.reader.lr
    && if s.closed then s.closers <= {Writer} else !(s.writer.WWake? || s.writer.WYield?)
  }

  /** The writer's check in `park_if` is evaluated now, with `_r` no longer such that the buffer is full. */
  predicate StaleWrite<T>(s: Ring<T>) {
    && s.writer.WThunk? && !s.closed && Sub(s.writer.lw, s.r) != s.Size()
    && !(s.reader.RWake? || s.reader.RYield?)
  }

  predicate StaleCheck<T>(s: Ring<T>, a: Action<T>) {
    (a.ReaderStep? && StaleRead(s)) || (a.WriterStep? && StaleWrite(s))
  }

  /** A read that saw an empty buffer is still right exactly if `_w` has not moved. */
  lemma EmptyMeansUnmoved<T>(s: Ring<T>)
    requires Inv(s) && s.reader.RThunk?
    ensures Empty(s) <==> s.w == s.reader.lr
  {
    Occupancy(s);
    assert s.reader.lr == s.r;
    if s.w == s.r {
      assert Sub(s.w, s.r) == 0;
    }
  }

  lemma FullMeansUnmoved<T>(s: Ring<T>)
    requires Inv(s) && s.writer.WThunk?
    ensures Full(s) <==> Sub(s.writer.lw, s.r) == s.Size()
  {
    Occupancy(s);
  }

  // -- what a step of the reader does to each of the three

  /** What the steps need of the invariants. */
  ghost predicate Facts<T>(s: Ring<T>) {
    && s.Shape() && Ended(s) && SlotOwner(s) && (s.reader.RAbort? || s.reader == RDone(None) ==> s.closed)
    && (s.reader.RThunk? ==> (Empty(s) <==> s.w == s.reader.lr))
    && (s.writer.WThunk? ==> (Full(s) <==> Sub(s.writer.lw, s.r) == s.Size()))
  }

  lemma SoundFacts<T>(s: Ring<T>)
    requires Sound(s)
    ensures Facts(s)
  {
    if s.reader.RThunk? { EmptyMeansUnmoved(s); }
    if s.writer.WThunk? { FullMeansUnmoved(s); }
  }

  lemma ReaderStepLoses<T>(s: Ring<T>)
    requires Facts(s) && Enabled(s, ReaderStep) && !Lost(s)
    ensures Lost(ReaderNext(s)) <==> StaleRead(s) && s.closed
  {}

  lemma ReaderStepStrands<T>(s: Ring<T>)
    requires Facts(s) && Enabled(s, ReaderStep) && !Stranded(s)
    ensures Stranded(ReaderNext(s)) <==> StaleRead(s) && !s.closed
  {}

  lemma ReaderStepSparesWriter<T>(s: Ring<T>)
    requires Facts(s) && Enabled(s, ReaderStep) && !WriterStranded(s)
    ensures !WriterStranded(ReaderNext(s))
  {}

  lemma ReaderStepMisleads<T>(s: Ring<T>)
    requires Facts(s) && Enabled(s, ReaderStep) && !Misled(s)
    ensures Misled(ReaderNext(s)) <==> StaleRead(s)
  {
    ReaderStepLoses(s);
    ReaderStepStrands(s);
    ReaderStepSparesWriter(s);
  }

  // -- and a step of the writer

  lemma WriterStepLosesNothing<T>(s: Ring<T>)
    requires Facts(s) && Enabled(s, WriterStep) && !Lost(s)
    ensures !Lost(WriterNext(s))
  {
    if s.closers <= {Writer} && s.closed { assert Writer in s.closers; }
  }

  lemma WriterStepSparesReader<T>(s: Ring<T>)
    requires Facts(s) && Enabled(s, WriterStep) && !Stranded(s)
    ensures !Stranded(WriterNext(s))
  {}

  lemma WriterStepStrands<T>(s: Ring<T>)
    requires Facts(s) && Enabled(s, WriterStep) && !WriterStranded(s)
    ensures WriterStranded(WriterNext(s)) <==> StaleWrite(s)
  {}

  lemma WriterStepMisleads<T>(s: Ring<T>)
    requires Facts(s) && Enabled(s, WriterStep) && !Misled(s)
    ensures Misled(WriterNext(s)) <==> StaleWrite(s)
  {
    WriterStepLosesNothing(s);
    WriterStepSparesReader(s);
    WriterStepStrands(s);
  }

  lemma OtherStepNeverMisleads<T>(s: Ring<T>, a: Action<T>)
    requires Facts(s) && Enabled(s, a) && !Misled(s) && !a.ReaderStep? && !a.WriterStep?
    ensures !Misled(Next(s, a))
  {}

  lemma StepMisleadsExactly<T>(s: Ring<T>, a: Action<T>)
    requires Sound(s) && Enabled(s, a) && !Misled(s)
    ensures Misled(Next(s, a)) <==> StaleCheck(s, a)
  {
    SoundFacts(s);
    match a
    case ReaderStep => ReaderStepMisleads(s);
    case WriterStep => WriterStepMisleads(s);
    case _ => OtherStepNeverMisleads(s, a);
  }

  // ---------------------------------------------------------------- whole runs

  ghost predicate NeverMisled<T>(s: Ring<T>, acts: seq<Action<T>>)
    requires s.Shape() && Legal(s, acts)
    decreases |acts|
  {
    !Misled(s) && (acts == [] || NeverMisled(Next(s, acts[0]), acts[1..]))
  }

  predicate ChecksAreFresh<T>(s: Ring<T>, acts: seq<Action<T>>)
    requires s.Shape() && Legal(s, acts)
    decreases |acts|
  {
    acts == [] || (!StaleCheck(s, acts[0]) && ChecksAreFresh(Next(s, acts[0]), acts[1..]))
  }

  lemma {:induction false} RunMisleadsExactly<T>(s: Ring<T>, acts: seq<Action<T>>)
    requires Sound(s) && !Misled(s) && Legal(s, acts)
    ensures NeverMisled(s, acts) <==> ChecksAreFresh(s, acts)
    decreases |acts|
  {
    if acts == [] {
    } else {
      StepMisleadsExactly(s, acts[0]);
      SoundKept(s, acts[0]);
      if !StaleCheck(s, acts[0]) {
        RunMisleadsExactly(Next(s, acts[0]), acts[1..]);
      }
    }
  }

  /** Main result: over every interleaving of the machine's steps, no accepted value is lost to an empty read after the
      writer's end closes, no reader is left waiting on a non-empty buffer and no writer on one with room, if
      and only if every evaluation of a check in `park_if` happens with the other side's counter as it was
      loaded (or while the task that moved it is still about to wake this one). */
  lemma InterleavingMisleadsExactly<T>(exp: nat, acts: seq<Action<T>>)
    requires exp <= 63 && Legal(Fresh<T>(exp), acts)
    ensures NeverMisled(Fresh<T>(exp), acts) <==> ChecksAreFresh(Fresh<T>(exp), acts)
  {
    FreshInv<T>(exp);
    RunMisleadsExactly(Fresh<T>(exp), acts);
  }
}
