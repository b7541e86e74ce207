/** Every interleaving of the ring buffer refines a bounded FIFO queue. */
module RingBufferFifo {
  import opened Words
  import opened Options
  import opened RingBuffer

  // ---------------------------------------------------------------- invariant

  /** Occupancy stays between 0 and `Size`, and the wrapped counters are the true counts mod 2^64. */
  ghost predicate Counters<T>(s: Ring<T>) {
    && s.Shape()
    && s.delivered <= s.accepted
    && s.WriteCount() <= s.ReadCount() + s.Size()
    && s.r == s.ReadCount() % TWO64
    && s.w == s.WriteCount() % TWO64
  }

  /** Slot `i`, counted without wrap-around, holds what it should. */
  ghost predicate LiveCell<T>(s: Ring<T>, i: nat)
    requires s.Shape() && i < |s.accepted|
  {
    s.slots[Cell(i, s.Size())] == Some(s.accepted[i])
  }

  ghost predicate FreeCell<T>(s: Ring<T>, i: nat)
    requires s.Shape()
  {
    s.slots[Cell(i, s.Size())] == None
  }

  /** The slots between the two counts hold the accepted values; the others hold nothing.
      The two exceptions are the windows between touching a slot and storing the counter. */
  ghost predicate Slots<T>(s: Ring<T>)
    requires Counters(s)
  {
    && (forall i: nat :: s.ReadCount() <= i < s.WriteCount() && !(s.reader.RStore? && i == s.ReadCount())
          ==> LiveCell(s, i))
    && (forall i: nat :: s.WriteCount() <= i < s.ReadCount() + s.Size() && !(s.writer.WStore? && i == s.WriteCount())
          ==> FreeCell(s, i))
    && (s.reader.RStore? ==> FreeCell(s, s.ReadCount()))
    && (s.writer.WStore? ==> s.slots[Cell(s.WriteCount(), s.Size())] == Some(s.writer.u))
  }

  /** What the reader's possibly stale locals still guarantee. */
  ghost predicate ReaderLocals<T>(s: Ring<T>)
    requires Counters(s)
  {
    var occupied := s.WriteCount() - s.ReadCount();
    match s.reader
    case RLoadW(lr) => lr == s.r
    case RCheck(lr, lw) => lr == s.r && Sub(lw, lr) <= occupied
    case RCas(lr) => lr == s.r
    case RThunk(lr) => lr == s.r
    case RCommit(lr) => lr == s.r
    case RParked(lr) => lr == s.r
    case RReload(lr) => lr == s.r
    case RMove(lr) => lr == s.r && occupied > 0
    case RDestroy(lr, v) => lr == s.r && occupied > 0 && v == s.accepted[s.ReadCount()]
    case RStore(lr, v) => lr == s.r && occupied > 0 && v == s.accepted[s.ReadCount()]
    case RWake(v) => LastDelivered(s, v)
    case RYield(v) => LastDelivered(s, v)
    case RDone(Some(v)) => LastDelivered(s, v)
    case RDone(None) => s.closed
    case RAbort => s.closed
    case RBroken => false
    case _ => true
  }

  ghost predicate LastDelivered<T>(s: Ring<T>, v: T) {
    |s.delivered| > 0 && s.delivered[|s.delivered| - 1] == v
  }

  ghost predicate WriterLocals<T>(s: Ring<T>)
    requires Counters(s)
  {
    var occupied := s.WriteCount() - s.ReadCount();
    match s.writer
    case WLoadR(_, lw) => lw == s.w
    case WCheck(_, lw, lr) => lw == s.w && occupied <= Sub(lw, lr) <= s.Size()
    case WCas(_, lw) => lw == s.w
    case WThunk(_, lw) => lw == s.w
    case WCommit(_, lw) => lw == s.w
    case WParked(_, lw) => lw == s.w
    case WReload(_, lw) => lw == s.w
    case WConstruct(_, lw) => lw == s.w && occupied < s.Size()
    case WStore(_, lw) => lw == s.w && occupied < s.Size()
    case WWake(u) => LastAccepted(s, u)
    case WYield(u) => LastAccepted(s, u)
    case WDone(u, None) => LastAccepted(s, u)
    case WDone(u, Some(back)) => s.closed && back == u
    case WAbort(_) => s.closed
    case WBroken => false
    case _ => true
  }

  ghost predicate LastAccepted<T>(s: Ring<T>, u: T) {
    |s.accepted| > 0 && s.accepted[|s.accepted| - 1] == u
  }

  ghost predicate Inv<T>(s: Ring<T>) {
    Counters(s) && Slots(s) && ReaderLocals(s) && WriterLocals(s)
  }

  // ---------------------------------------------------------------- preservation

  lemma IncIsNextCount(n: nat)
    ensures Inc(n % TWO64) == (n + 1) % TWO64
  {}

  /** The counters are never half the range apart, so wrapped subtraction is the occupancy. */
  lemma Occupancy<T>(s: Ring<T>)
    requires Counters(s)
    ensures Sub(s.w, s.r) == s.WriteCount() - s.ReadCount()
  {
    Pow2AtMost63(s.exp);
    SubOfCounts(s.WriteCount(), s.ReadCount());
  }

  lemma ReaderSlotIsHead<T>(s: Ring<T>)
    requires Counters(s)
    ensures s.Slot(s.r) == Cell(s.ReadCount(), s.Size())
  {
    MaskedCounterIsCell(s.ReadCount(), s.exp);
  }

  lemma WriterSlotIsTail<T>(s: Ring<T>)
    requires Counters(s)
    ensures s.Slot(s.w) == Cell(s.WriteCount(), s.Size())
  {
    MaskedCounterIsCell(s.WriteCount(), s.exp);
  }

  /** Changing one cell leaves the other cells of the window alone. */
  lemma OtherCell(i: nat, j: nat, size: nat)
    requires size > 0 && i != j && i < j + size && j < i + size
    ensures Cell(i, size) != Cell(j, size)
  {
    if i < j { CellsDistinct(i, j, size); } else { CellsDistinct(j, i, size); }
  }

  lemma {:induction false} FreshInv<T>(exp: nat)
    requires exp <= 63
    ensures Inv(Fresh<T>(exp))
  {}

  /** The reader's `~T()`: only the head slot is emptied. */
  lemma DestroyKeepsInv<T>(s: Ring<T>)
    requires Inv(s) && s.reader.RDestroy?
    ensures Inv(ReaderNext(s))
  {
    ReaderSlotIsHead(s);
    var s' := ReaderNext(s);
    var n := s.Size();
    forall i: nat | s.ReadCount() < i < s.ReadCount() + n
      ensures s'.slots[Cell(i, n)] == s.slots[Cell(i, n)]
    {
      OtherCell(i, s.ReadCount(), n);
    }
    forall i: nat | s.ReadCount() < i < s.WriteCount()
      ensures LiveCell(s', i)
    {
      assert LiveCell(s, i);
    }
    forall i: nat | s.WriteCount() <= i < s.ReadCount() + n && !(s.writer.WStore? && i == s.WriteCount())
      ensures FreeCell(s', i)
    {
      assert FreeCell(s, i);
    }
  }

  /** The reader's `_r.store`: the emptied head slot becomes the far end of the free window. */
  lemma ReaderStoreKeepsInv<T>(s: Ring<T>)
    requires Inv(s) && s.reader.RStore?
    ensures Inv(ReaderNext(s))
  {
    var s' := ReaderNext(s);
    var n := s.Size();
    IncIsNextCount(s.ReadCount());
    CellOneLapOn(s.ReadCount(), n);
    assert s.accepted[..s.ReadCount()] + [s.accepted[s.ReadCount()]] == s.accepted[..s.ReadCount() + 1];
    forall i: nat | s'.ReadCount() <= i < s'.WriteCount()
      ensures LiveCell(s', i)
    {
      assert LiveCell(s, i);
    }
    forall i: nat | s'.WriteCount() <= i < s'.ReadCount() + n && !(s'.writer.WStore? && i == s'.WriteCount())
      ensures FreeCell(s', i)
    {
      assert i < s.ReadCount() + n ==> FreeCell(s, i);
    }
  }

  /** The writer's placement new: the tail slot was free and no other slot changes. */
  lemma ConstructKeepsInv<T>(s: Ring<T>)
    requires Inv(s) && s.writer.WConstruct?
    ensures Inv(WriterNext(s))
  {
    WriterSlotIsTail(s);
    var s' := WriterNext(s);
    var n := s.Size();
    assert FreeCell(s, s.WriteCount());
    forall i: nat | s.ReadCount() <= i < s.ReadCount() + n && i != s.WriteCount()
      ensures s'.slots[Cell(i, n)] == s.slots[Cell(i, n)]
    {
      OtherCell(i, s.WriteCount(), n);
    }
    forall i: nat | s.ReadCount() <= i < s.WriteCount() && !(s.reader.RStore? && i == s.ReadCount())
      ensures LiveCell(s', i)
    {
      assert LiveCell(s, i);
    }
    forall i: nat | s.WriteCount() < i < s.ReadCount() + n
      ensures FreeCell(s', i)
    {
      assert FreeCell(s, i);
    }
  }

  lemma WriterStoreKeepsInv<T>(s: Ring<T>)
    requires Inv(s) && s.writer.WStore?
    ensures Inv(WriterNext(s))
  {
    var s' := WriterNext(s);
    IncIsNextCount(s.WriteCount());
    forall i: nat | s'.ReadCount() <= i < s'.WriteCount() && !(s'.reader.RStore? && i == s'.ReadCount())
      ensures LiveCell(s', i)
    {
      assert i < s.WriteCount() ==> LiveCell(s, i);
    }
    forall i: nat | s'.WriteCount() <= i < s'.ReadCount() + s.Size()
      ensures FreeCell(s', i)
    {
      assert FreeCell(s, i);
    }
  }

  /** Steps that only move program counters, the closed flag or the waiter slot. */
  ghost predicate SameBuffer<T>(s: Ring<T>, s': Ring<T>) {
    && s'.exp == s.exp && s'.slots == s.slots && s'.r == s.r && s'.w == s.w
    && s'.accepted == s.accepted && s'.delivered == s.delivered
    && s'.reader.RStore? == s.reader.RStore?
    && s'.writer.WStore? == s.writer.WStore?
    && (s.writer.WStore? ==> s'.writer == s.writer)
  }

  lemma SameBufferKeepsSlots<T>(s: Ring<T>, s': Ring<T>)
    requires Counters(s) && Slots(s) && SameBuffer(s, s')
    ensures Counters(s') && Slots(s')
  {
    assert forall i: nat :: i < |s.accepted| ==> LiveCell(s', i) == LiveCell(s, i);
    assert forall i: nat :: FreeCell(s', i) == FreeCell(s, i);
  }

  /** The other side's locals survive, whether or not it was unparked. */
  lemma WriterLocalsFrame<T>(s: Ring<T>, s': Ring<T>)
    requires Counters(s) && SameBuffer(s, s') && Counters(s') && WriterLocals(s)
    requires s.closed ==> s'.closed
    requires s'.writer == s.writer || (s.writer.WParked? && s'.writer == WReload(s.writer.u, s.writer.lw))
    ensures WriterLocals(s')
  {}

  lemma ReaderLocalsFrame<T>(s: Ring<T>, s': Ring<T>)
    requires Counters(s) && SameBuffer(s, s') && Counters(s') && ReaderLocals(s)
    requires s.closed ==> s'.closed
    requires s'.reader == s.reader || (s.reader.RParked? && s'.reader == RReload(s.reader.lr))
    ensures ReaderLocals(s')
  {}

  lemma ReaderMoveKeepsInv<T>(s: Ring<T>)
    requires Inv(s) && s.reader.RMove?
    ensures Inv(ReaderNext(s)) && ReaderNext(s).reader.RDestroy?
  {
    ReaderSlotIsHead(s);
    assert LiveCell(s, s.ReadCount());
    SameBufferKeepsSlots(s, ReaderNext(s));
  }

  /** Reader steps that touch neither slots nor counters. */
  ghost predicate ReaderQuiet<T>(s: Ring<T>) {
    Enabled(s, ReaderStep) && !s.reader.RMove? && !s.reader.RDestroy? && !s.reader.RStore?
  }

  lemma ReaderQuietEffect<T>(s: Ring<T>)
    requires s.Shape() && ReaderQuiet(s)
    ensures var s' := ReaderNext(s);
            && SameBuffer(s, s') && s'.closed == s.closed
            && (s'.writer == s.writer || (s.writer.WParked? && s'.writer == WReload(s.writer.u, s.writer.lw)))
  {}

  lemma ReaderQuietLocals<T>(s: Ring<T>)
    requires Counters(s) && ReaderLocals(s) && ReaderQuiet(s)
    requires SameBuffer(s, ReaderNext(s)) && Counters(ReaderNext(s))
    ensures ReaderLocals(ReaderNext(s))
  {
    Occupancy(s);
  }

  lemma ReaderStepKeepsInv<T>(s: Ring<T>)
    requires Inv(s) && Enabled(s, ReaderStep)
    ensures Inv(ReaderNext(s))
  {
    if s.reader.RDestroy? {
      DestroyKeepsInv(s);
    } else if s.reader.RStore? {
      ReaderStoreKeepsInv(s);
    } else if s.reader.RMove? {
      ReaderMoveKeepsInv(s);
    } else {
      ReaderQuietEffect(s);
      SameBufferKeepsSlots(s, ReaderNext(s));
      ReaderQuietLocals(s);
      WriterLocalsFrame(s, ReaderNext(s));
    }
  }

  ghost predicate WriterQuiet<T>(s: Ring<T>) {
    Enabled(s, WriterStep) && !s.writer.WConstruct? && !s.writer.WStore?
  }

  lemma WriterQuietEffect<T>(s: Ring<T>)
    requires s.Shape() && WriterQuiet(s)
    ensures var s' := WriterNext(s);
            && SameBuffer(s, s') && s'.closed == s.closed
            && (s'.reader == s.reader || (s.reader.RParked? && s'.reader == RReload(s.reader.lr)))
  {}

  lemma WriterQuietLocals<T>(s: Ring<T>)
    requires Counters(s) && WriterLocals(s) && WriterQuiet(s)
    requires SameBuffer(s, WriterNext(s)) && Counters(WriterNext(s))
    ensures WriterLocals(WriterNext(s))
  {
    Occupancy(s);
  }

  lemma WriterStepKeepsInv<T>(s: Ring<T>)
    requires Inv(s) && Enabled(s, WriterStep)
    ensures Inv(WriterNext(s))
  {
    if s.writer.WConstruct? {
      ConstructKeepsInv(s);
    } else if s.writer.WStore? {
      WriterStoreKeepsInv(s);
    } else {
      WriterQuietEffect(s);
      SameBufferKeepsSlots(s, WriterNext(s));
      WriterQuietLocals(s);
      ReaderLocalsFrame(s, WriterNext(s));
    }
  }

  lemma OutsiderStepKeepsInv<T>(s: Ring<T>)
    requires Inv(s) && Enabled(s, OutsiderStep)
    ensures Inv(OutsiderNext(s))
  {
    var s' := OutsiderNext(s);
    SameBufferKeepsSlots(s, s');
    ReaderLocalsFrame(s, s');
    WriterLocalsFrame(s, s');
  }

  lemma CallKeepsInv<T>(s: Ring<T>, a: Action<T>)
    requires Inv(s) && Enabled(s, a)
    requires !a.ReaderStep? && !a.WriterStep? && !a.OutsiderStep?
    ensures Inv(Next(s, a))
  {
    SameBufferKeepsSlots(s, Next(s, a));
    if ActorOf(a) != Reader { ReaderLocalsFrame(s, Next(s, a)); }
    if ActorOf(a) != Writer { WriterLocalsFrame(s, Next(s, a)); }
  }

  lemma StepKeepsInv<T>(s: Ring<T>, a: Action<T>)
    requires Inv(s) && Enabled(s, a)
    ensures Inv(Next(s, a))
  {
    match a
    case ReaderStep => ReaderStepKeepsInv(s);
    case WriterStep => WriterStepKeepsInv(s);
    case OutsiderStep => OutsiderStepKeepsInv(s);
    case _ => CallKeepsInv(s, a);
  }

  // ---------------------------------------------------------------- refinement

  /** The specification: a queue of at most `cap` values and the values taken from it so far. */
  datatype Fifo<T> = Fifo(cap: nat, queue: seq<T>, taken: seq<T>)

  datatype FifoEvent<T> = Put(v: T) | Take | Nothing

  predicate FifoAllows<T>(f: Fifo<T>, e: FifoEvent<T>) {
    match e
    case Put(_) => |f.queue| < f.cap
    case Take => |f.queue| > 0
    case Nothing => true
  }

  function FifoAfter<T>(f: Fifo<T>, e: FifoEvent<T>): Fifo<T>
    requires FifoAllows(f, e)
  {
    match e
    case Put(v) => f.(queue := f.queue + [v])
    case Take => f.(queue := f.queue[1..], taken := f.taken + [f.queue[0]])
    case Nothing => f
  }

  function Abstract<T>(s: Ring<T>): Fifo<T>
    requires |s.delivered| <= |s.accepted|
  {
    Fifo(s.Size(), s.accepted[|s.delivered|..], s.delivered)
  }

  /** Only the two counter stores are visible in the queue. */
  function EventOf<T>(s: Ring<T>, a: Action<T>): FifoEvent<T> {
    if a.WriterStep? && s.writer.WStore? then Put(s.writer.u)
    else if a.ReaderStep? && s.reader.RStore? then Take
    else Nothing
  }

  lemma StepRefinesFifo<T>(s: Ring<T>, a: Action<T>)
    requires Inv(s) && Enabled(s, a)
    ensures Inv(Next(s, a))
    ensures FifoAllows(Abstract(s), EventOf(s, a))
    ensures Abstract(Next(s, a)) == FifoAfter(Abstract(s), EventOf(s, a))
    ensures EventOf(s, a).Take? ==> s.reader.v == Abstract(s).queue[0]
  {
    StepKeepsInv(s, a);
    var s' := Next(s, a);
    match EventOf(s, a)
    case Put(u) =>
      assert s'.accepted[|s.delivered|..] == s.accepted[|s.delivered|..] + [u];
    case Take =>
      assert s.accepted[|s.delivered|..][1..] == s.accepted[|s.delivered| + 1..];
    case Nothing =>
      NoEventNoChange(s, a);
  }

  lemma NoEventNoChange<T>(s: Ring<T>, a: Action<T>)
    requires s.Shape() && Enabled(s, a) && EventOf(s, a).Nothing?
    ensures var s' := Next(s, a); s'.accepted == s.accepted && s'.delivered == s.delivered && s'.exp == s.exp
  {}

  /** The queue behaviour of a whole run, computed without looking at slots or counters. */
  ghost predicate FifoRun<T>(f: Fifo<T>, events: seq<FifoEvent<T>>, g: Fifo<T>)
    decreases |events|
  {
    if events == [] then g == f
    else FifoAllows(f, events[0]) && FifoRun(FifoAfter(f, events[0]), events[1..], g)
  }

  ghost function Events<T>(s: Ring<T>, acts: seq<Action<T>>): (es: seq<FifoEvent<T>>)
    requires s.Shape() && Legal(s, acts)
    ensures |es| == |acts|
    decreases |acts|
  {
    if acts == [] then [] else [EventOf(s, acts[0])] + Events(Next(s, acts[0]), acts[1..])
  }

  lemma {:induction false} RunRefinesFifo<T>(s: Ring<T>, acts: seq<Action<T>>)
    requires Inv(s) && Legal(s, acts)
    ensures Inv(Exec(s, acts))
    ensures FifoRun(Abstract(s), Events(s, acts), Abstract(Exec(s, acts)))
    decreases |acts|
  {
    if acts == [] {
    } else {
      StepRefinesFifo(s, acts[0]);
      RunRefinesFifo(Next(s, acts[0]), acts[1..]);
      assert Events(s, acts)[1..] == Events(Next(s, acts[0]), acts[1..]);
    }
  }

  /** Main result.  From a new buffer, after any interleaving of any number of reads, writes
      and closes: the occupancy is within the capacity; the values read are a prefix of the
      values accepted; a read about to move finds an object in its slot and a write about to
      construct finds its slot free; an unsuccessful write hands back its own value; and an
      accepted or returned value is the last one in its history. */
  lemma EveryInterleavingIsFifo<T>(exp: nat, acts: seq<Action<T>>)
    requires exp <= 63 && Legal(Fresh<T>(exp), acts)
    ensures
      var s := Exec(Fresh<T>(exp), acts);
      && s.delivered <= s.accepted
      && FifoRun(Fifo(Pow2(exp), [], []), Events(Fresh<T>(exp), acts), Abstract(s))
      && 0 <= |s.accepted| - |s.delivered| <= Pow2(exp)
      && Sub(s.w, s.r) == |s.accepted| - |s.delivered|
      && !s.reader.RBroken? && !s.writer.WBroken?
      && (s.reader.RMove? ==>
            |s.delivered| < |s.accepted| && s.slots[s.Slot(s.reader.lr)] == Some(s.accepted[|s.delivered|]))
      && (s.writer.WConstruct? ==> s.slots[s.Slot(s.writer.lw)] == None)
      && (s.writer.WDone? ==> if s.writer.handedBack.Some? then s.writer.handedBack == Some(s.writer.u)
                              else LastAccepted(s, s.writer.u))
      && (s.reader.RDone? && s.reader.result.Some? ==> LastDelivered(s, s.reader.result.value))
      && (s.reader.RDone? && s.reader.result.None? ==> s.closed)
  {
    FreshInv<T>(exp);
    RunRefinesFifo(Fresh<T>(exp), acts);
    assert Abstract(Fresh<T>(exp)) == Fifo(Pow2(exp), [], []);
    var s := Exec(Fresh<T>(exp), acts);
    Occupancy(s);
    SizeIsKept(Fresh<T>(exp), acts);
    if s.reader.RMove? {
      ReaderSlotIsHead(s);
      assert LiveCell(s, s.ReadCount());
    }
    if s.writer.WConstruct? {
      WriterSlotIsTail(s);
      assert FreeCell(s, s.WriteCount());
    }
  }

  lemma {:induction false} SizeIsKept<T>(s: Ring<T>, acts: seq<Action<T>>)
    requires s.Shape() && Legal(s, acts)
    ensures Exec(s, acts).exp == s.exp
    decreases |acts|
  {
    if acts != [] {
      SizeIsKept(Next(s, acts[0]), acts[1..]);
    }
  }
}
