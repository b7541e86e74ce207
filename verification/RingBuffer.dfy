/** `concur/internal/ring_buffer_impl.h` as a state machine.

    One reader task and one writer task (and an outsider that may only close) take single atomic steps: a load, a
    store, a compare-exchange, one move out of or into a slot, or one round of a wake-up loop (the test of the slot
    together with `unpark`).  `Next` is the effect of one such step.  Every interleaving of enabled actions is a
    run; the cooperative runs are the subset defined in `RingBufferCoop`. */
module RingBuffer {
  import opened Words
  import opened Options

  datatype Side = ReaderSide | WriterSide

  /** Control points of `read` and of the reader end's `close`; `lr`/`lw` are `loaded_r`/`loaded_w`. */
  datatype ReaderPc<+T> =
    | RIdle
    | RLoadR
    | RLoadW(lr: Word)
    | RCheck(lr: Word, lw: Word)
    | RCas(lr: Word)
    | RThunk(lr: Word)
    | RAbort
    | RCommit(lr: Word)
    | RParked(lr: Word)
    | RReload(lr: Word)
    | RMove(lr: Word)
    | RDestroy(lr: Word, v: T)
    | RStore(lr: Word, v: T)
    | RWake(v: T)
    | RYield(v: T)
    | RDone(result: Option<T>)
    | RCloseWake
    | RCloseYield
    | RClosed
    | RBroken  // moved out of a slot that holds no object

  /** Control points of `write` and of the writer end's `close`. */
  datatype WriterPc<+T> =
    | WIdle
    | WTestClosed(u: T)
    | WLoadW(u: T)
    | WLoadR(u: T, lw: Word)
    | WCheck(u: T, lw: Word, lr: Word)
    | WCas(u: T, lw: Word)
    | WThunk(u: T, lw: Word)
    | WAbort(u: T)
    | WCommit(u: T, lw: Word)
    | WParked(u: T, lw: Word)
    | WReload(u: T, lw: Word)
    | WConstruct(u: T, lw: Word)
    | WStore(u: T, lw: Word)
    | WWake(u: T)
    | WYield(u: T)
    | WDone(u: T, handedBack: Option<T>)
    | WCloseWake
    | WCloseYield
    | WClosed
    | WBroken  // constructed over a live object

  datatype OutsiderPc = OIdle | OWake | OYield

  datatype Actor = Reader | Writer | Outsider

  /** The buffer object, the two tasks' local state, and three history variables:
      `accepted` grows at `_w.store`, `delivered` at `_r.store`, `closers` at `_closed.store`. */
  datatype Ring<T> = Ring(
    exp: nat,
    slots: seq<Option<T>>,
    r: Word,
    w: Word,
    closed: bool,
    stalled: Option<Side>,
    reader: ReaderPc<T>,
    writer: WriterPc<T>,
    outsider: OutsiderPc,
    accepted: seq<T>,
    delivered: seq<T>,
    closers: set<Actor>)
  {
    function Size(): (n: nat)
      ensures n > 0
    {
      Pow2(exp)
    }

    predicate Shape() {
      exp <= 63 && |slots| == Size()
    }

    /** `loaded & _mask`. */
    function Slot(x: Word): (i: nat)
      requires Shape()
      ensures i < |slots|
    {
      BitAnd(x, Size() - 1)
    }

    function ReadCount(): nat { |delivered| }

    function WriteCount(): nat { |accepted| }
  }

  datatype Action<+T> =
    | ReadCall
    | ReaderStep
    | ReaderClose
    | WriteCall(u: T)
    | WriterStep
    | WriterClose
    | OutsiderClose
    | OutsiderStep

  function ActorOf<T>(a: Action<T>): Actor {
    match a
    case ReadCall | ReaderStep | ReaderClose => Reader
    case WriteCall(_) | WriterStep | WriterClose => Writer
    case OutsiderClose | OutsiderStep => Outsider
  }

  predicate Enabled<T>(s: Ring<T>, a: Action<T>) {
    match a
    case ReadCall | ReaderClose => s.reader.RIdle? || s.reader.RDone?
    case ReaderStep =>
      !(s.reader.RIdle? || s.reader.RDone? || s.reader.RParked? || s.reader.RClosed? || s.reader.RBroken?)
    case WriteCall(_) | WriterClose => s.writer.WIdle? || s.writer.WDone?
    case WriterStep =>
      !(s.writer.WIdle? || s.writer.WDone? || s.writer.WParked? || s.writer.WClosed? || s.writer.WBroken?)
    case OutsiderClose => s.outsider.OIdle?
    case OutsiderStep => !s.outsider.OIdle?
  }

  /** `unpark` succeeds exactly when the slot names a task whose run state is WAITING. */
  predicate CanUnpark<T>(s: Ring<T>) {
    match s.stalled
    case None => false
    case Some(ReaderSide) => s.reader.RParked?
    case Some(WriterSide) => s.writer.WParked?
  }

  /** A successful `unpark`: the slot is cleared and the parked task can go on to reload. */
  function Unpark<T>(s: Ring<T>): Ring<T>
    requires CanUnpark(s)
  {
    match s.stalled
    case Some(ReaderSide) => s.(stalled := None, reader := RReload(s.reader.lr))
    case Some(WriterSide) => s.(stalled := None, writer := WReload(s.writer.u, s.writer.lw))
  }

  function ReaderNext<T>(s: Ring<T>): (s': Ring<T>)
    requires s.Shape() && Enabled(s, ReaderStep)
    ensures s'.Shape()
  {
    match s.reader
    case RLoadR => s.(reader := RLoadW(s.r))
    case RLoadW(lr) => s.(reader := RCheck(lr, s.w))
    case RCheck(lr, lw) => s.(reader := if Sub(lw, lr) == 0 then RCas(lr) else RMove(lr))
    case RCas(lr) =>
      if s.stalled.None? then s.(stalled := Some(ReaderSide), reader := RThunk(lr))
      else s.(reader := RReload(lr))
    case RThunk(lr) => s.(reader := if s.closed then RAbort else RCommit(lr))
    case RAbort => s.(stalled := None, reader := RDone(None))
    case RCommit(lr) => s.(reader := RParked(lr))
    case RReload(lr) => s.(reader := RCheck(lr, s.w))
    case RMove(lr) =>
      (match s.slots[s.Slot(lr)]
       case Some(v) => s.(reader := RDestroy(lr, v))
       case None => s.(reader := RBroken))
    case RDestroy(lr, v) => s.(slots := s.slots[s.Slot(lr) := None], reader := RStore(lr, v))
    case RStore(lr, v) => s.(r := Inc(lr), delivered := s.delivered + [v], reader := RWake(v))
    case RWake(v) =>
      if s.stalled.None? then s.(reader := RDone(Some(v)))
      else if CanUnpark(s) then Unpark(s).(reader := RDone(Some(v)))
      else s.(reader := RYield(v))
    case RYield(v) => s.(reader := RWake(v))
    case RCloseWake =>
      if s.stalled.None? then s.(reader := RClosed)
      else if CanUnpark(s) then Unpark(s).(reader := RClosed)
      else s.(reader := RCloseYield)
    case RCloseYield => s.(reader := RCloseWake)
  }

  function WriterNext<T>(s: Ring<T>): (s': Ring<T>)
    requires s.Shape() && Enabled(s, WriterStep)
    ensures s'.Shape()
  {
    match s.writer
    case WTestClosed(u) => s.(writer := if s.closed then WDone(u, Some(u)) else WLoadW(u))
    case WLoadW(u) => s.(writer := WLoadR(u, s.w))
    case WLoadR(u, lw) => s.(writer := WCheck(u, lw, s.r))
    case WCheck(u, lw, lr) => s.(writer := if Sub(lw, lr) == s.Size() then WCas(u, lw) else WConstruct(u, lw))
    case WCas(u, lw) =>
      if s.stalled.None? then s.(stalled := Some(WriterSide), writer := WThunk(u, lw))
      else s.(writer := WReload(u, lw))
    case WThunk(u, lw) => s.(writer := if s.closed then WAbort(u) else WCommit(u, lw))
    case WAbort(u) => s.(stalled := None, writer := WDone(u, Some(u)))
    case WCommit(u, lw) => s.(writer := WParked(u, lw))
    case WReload(u, lw) => s.(writer := WCheck(u, lw, s.r))
    case WConstruct(u, lw) =>
      if s.slots[s.Slot(lw)].Some? then s.(writer := WBroken)
      else s.(slots := s.slots[s.Slot(lw) := Some(u)], writer := WStore(u, lw))
    case WStore(u, lw) => s.(w := Inc(lw), accepted := s.accepted + [u], writer := WWake(u))
    case WWake(u) =>
      if s.stalled.None? then s.(writer := WDone(u, None))
      else if CanUnpark(s) then Unpark(s).(writer := WDone(u, None))
      else s.(writer := WYield(u))
    case WYield(u) => s.(writer := WWake(u))
    case WCloseWake =>
      if s.stalled.None? then s.(writer := WClosed)
      else if CanUnpark(s) then Unpark(s).(writer := WClosed)
      else s.(writer := WCloseYield)
    case WCloseYield => s.(writer := WCloseWake)
  }

  function OutsiderNext<T>(s: Ring<T>): (s': Ring<T>)
    requires s.Shape() && Enabled(s, OutsiderStep)
    ensures s'.Shape()
  {
    match s.outsider
    case OWake =>
      if s.stalled.None? then s.(outsider := OIdle)
      else if CanUnpark(s) then Unpark(s).(outsider := OIdle)
      else s.(outsider := OYield)
    case OYield => s.(outsider := OWake)
  }

  function Close<T>(s: Ring<T>, who: Actor): Ring<T> {
    s.(closed := true, closers := s.closers + {who})
  }

  function Next<T>(s: Ring<T>, a: Action<T>): (s': Ring<T>)
    requires s.Shape() && Enabled(s, a)
    ensures s'.Shape()
  {
    match a
    case ReadCall => s.(reader := RLoadR)
    case ReaderStep => ReaderNext(s)
    case ReaderClose => Close(s, Reader).(reader := RCloseWake)
    case WriteCall(u) => s.(writer := WTestClosed(u))
    case WriterStep => WriterNext(s)
    case WriterClose => Close(s, Writer).(writer := WCloseWake)
    case OutsiderClose => Close(s, Outsider).(outsider := OWake)
    case OutsiderStep => OutsiderNext(s)
  }

  /** The constructor: `Size == 2^exp` empty slots. */
  function Fresh<T>(exp: nat): (s: Ring<T>)
    requires exp <= 63
    ensures s.Shape()
  {
    Ring(exp, seq(Pow2(exp), _ => None), 0, 0, false, None, RIdle, WIdle, OIdle, [], [], {})
  }

  predicate Legal<T>(s: Ring<T>, acts: seq<Action<T>>)
    requires s.Shape()
    decreases |acts|
  {
    acts == [] || (Enabled(s, acts[0]) && Legal(Next(s, acts[0]), acts[1..]))
  }

  function Exec<T>(s: Ring<T>, acts: seq<Action<T>>): (s': Ring<T>)
    requires s.Shape() && Legal(s, acts)
    ensures s'.Shape()
    decreases |acts|
  {
    if acts == [] then s else Exec(Next(s, acts[0]), acts[1..])
  }
}
