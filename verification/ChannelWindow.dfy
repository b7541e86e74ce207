/** `concur/internal/channel_window_impl.h` with timer preemption off.

    One reader, one writer and an outsider that may only close.  The running task keeps the
    processor until a yield, a park, a swap, or a point outside the channel's code; a swap
    hands it straight to the parked peer.  How freely the reader may behave between two calls
    of `read` is a parameter of a run, because the asserts in the source depend on it. */
module ChannelWindow {
  import opened Options

  datatype Side = ReaderSide | WriterSide

  datatype Actor = Reader | Writer | Outsider

  /** What the reader does between calls.
      `Straight`: from one `read` directly to the next `read` or to `close`, and no `read` after an empty one.
      `Careful`: anything, as long as no woken writer of an open channel runs and no `read` begins while
      `_reader` is null, respectively not null.
      `Unruled`: anything. */
  datatype Rule = Straight | Careful | Unruled

  /** Control points of `read` and of the reader end's `close`. */
  datatype ReaderPc<+T> =
    | RIdle
    | RLoop
    | RPark         // compare-exchange of park_if
    | RThunk        // slot claimed, testing `_closed`
    | RParked       // WAITING inside park_if
    | RWoken        // park_if has returned true
    | RWake         // waking whoever is in the slot
    | RSpin
    | RSwap
    | RSwapped      // WAITING inside swap
    | RSwapReady    // swap has returned true
    | RYield
    | RDone(result: Option<T>)
    | RCloseNull
    | RCloseWake
    | RCloseYield
    | RClosed
    | RBroken       // an assert on `_reader` fired

  /** Control points of `write(v)` and of the writer end's `close`. */
  datatype WriterPc<+T> =
    | WIdle
    | WLoop(v: T)
    | WPark(v: T)
    | WThunk(v: T)
    | WParked(v: T)
    | WWoken(v: T)
    | WEmplace(v: T)
    | WSwap(v: T)
    | WSwapYield(v: T)
    | WSwapped(v: T)
    | WSwapReady(v: T)
    | WTry(v: T)
    | WWake(v: T)
    | WSpin(v: T)
    | WYield(v: T)
    | WDone(v: T, handedBack: Option<T>)
    | WCloseNull
    | WCloseWake
    | WCloseYield
    | WClosed
    | WBroken       // the assert on `_reader` fired, or the write went through a dead pointer

  datatype OutsiderPc = OIdle | ONull | OWake | OYield

  /** `target` is `_reader`: the number of the `read` call whose local `ret` it points to.
      `ret` is that local for the latest call.  `sent`, `got` and `acked` are histories: values
      emplaced, values returned by `read`, values whose `write` returned nullopt. */
  datatype Window<T> = Window(
    slot: Option<Side>,
    target: Option<nat>,
    closed: bool,
    calls: nat,
    ret: Option<T>,
    reader: ReaderPc<T>,
    writer: WriterPc<T>,
    outsider: OutsiderPc,
    running: Actor,
    sent: seq<T>,
    got: seq<T>,
    acked: seq<T>)

  datatype Action<+T> =
    | ReadCall
    | ReaderStep
    | ReaderClose
    | WriteCall(v: T)
    | WriterStep
    | WriterClose
    | OutsiderClose
    | OutsiderStep

  function ActorOf<T>(a: Action<T>): Actor {
    match a
    case ReadCall | ReaderStep | ReaderClose => Reader
    case WriteCall(_) | WriterStep | WriterClose => Writer
    case OutsiderClose | OutsiderStep => Outsider
  }

  /** Points at which the running task may lose the processor. */
  predicate AtSwitch<T>(s: Window<T>) {
    match s.running
    case Reader =>
      || s.reader.RIdle? || s.reader.RParked? || s.reader.RSwapped? || s.reader.RYield? || s.reader.RSpin?
      || s.reader.RCloseYield? || s.reader.RClosed? || s.reader.RDone?
    case Writer =>
      || s.writer.WIdle? || s.writer.WParked? || s.writer.WSwapped? || s.writer.WYield? || s.writer.WSpin?
      || s.writer.WSwapYield? || s.writer.WCloseYield? || s.writer.WClosed? || s.writer.WDone?
    case Outsider => s.outsider.OIdle? || s.outsider.OYield?
  }

  /** What a program without any discipline may do next. */
  predicate Free<T>(s: Window<T>, a: Action<T>) {
    && (ActorOf(a) == s.running || AtSwitch(s))
    && match a
       case ReadCall | ReaderClose => s.reader.RIdle? || s.reader.RDone?
       case ReaderStep =>
         !(s.reader.RIdle? || s.reader.RParked? || s.reader.RSwapped? || s.reader.RDone? || s.reader.RClosed?
           || s.reader.RBroken?)
       case WriteCall(_) | WriterClose => s.writer.WIdle? || s.writer.WDone?
       case WriterStep =>
         !(s.writer.WIdle? || s.writer.WParked? || s.writer.WSwapped? || s.writer.WDone? || s.writer.WClosed?
           || s.writer.WBroken?)
       case OutsiderClose => s.outsider.OIdle?
       case OutsiderStep => !s.outsider.OIdle?
  }

  /** A woken writer of an open channel runs only if `_reader` is set, and a `read` begins only if it is null. */
  predicate Guarded<T>(s: Window<T>, a: Action<T>) {
    && (a.WriterStep? && s.writer.WWoken? && !s.closed ==> s.target.Some?)
    && (a.ReadCall? ==> s.target.None?)
  }

  /** The reader goes from a `read` that returned a value directly to its next call, and stops at an empty one. */
  predicate GoesStraightOn<T>(s: Window<T>, a: Action<T>) {
    && (s.running == Reader && s.reader.RDone? && s.reader.result.Some? ==> ActorOf(a) == Reader)
    && (a.ReadCall? ==> s.reader != RDone(None))
  }

  predicate Enabled<T>(s: Window<T>, a: Action<T>, rule: Rule) {
    && Free(s, a)
    && match rule
       case Straight => GoesStraightOn(s, a)
       case Careful => Guarded(s, a)
       case Unruled => true
  }

  /** The task named by the slot has run state WAITING. */
  predicate SlotWaiting<T>(s: Window<T>) {
    match s.slot
    case None => false
    case Some(ReaderSide) => s.reader.RParked? || s.reader.RSwapped?
    case Some(WriterSide) => s.writer.WParked? || s.writer.WSwapped?
  }

  /** The parked task becomes able to return from `park_if` or `swap`. */
  function Resumed<T>(s: Window<T>): Window<T>
    requires SlotWaiting(s)
  {
    match s.slot
    case Some(ReaderSide) => s.(reader := if s.reader.RParked? then RWoken else RSwapReady)
    case Some(WriterSide) =>
      s.(writer := if s.writer.WParked? then WWoken(s.writer.v) else WSwapReady(s.writer.v))
  }

  function Unpark<T>(s: Window<T>): Window<T>
    requires SlotWaiting(s)
  {
    Resumed(s).(slot := None)
  }

  function FinishRead<T>(s: Window<T>): Window<T> {
    s.(reader := RDone(s.ret), got := if s.ret.Some? then s.got + [s.ret.value] else s.got)
  }

  function Accepted<T>(s: Window<T>, v: T): Window<T> {
    s.(writer := WDone(v, None), acked := s.acked + [v])
  }

  /** The value goes through `_reader`, which becomes null; a null or dead pointer breaks the writer. */
  function Emplace<T>(s: Window<T>, v: T, then_: WriterPc<T>): Window<T> {
    if s.target == Some(s.calls) then
      s.(ret := Some(v), target := None, sent := s.sent + [v], writer := then_)
    else s.(writer := WBroken)
  }

  function ReaderNext<T>(s: Window<T>): Window<T>
    requires Free(s, ReaderStep)
  {
    match s.reader
    case RLoop => if s.closed then FinishRead(s) else s.(reader := RPark)
    case RPark => if s.slot.None? then s.(slot := Some(ReaderSide), reader := RThunk) else s.(reader := RSwap)
    case RThunk => if s.closed then s.(slot := None, reader := RSwap) else s.(reader := RParked)
    case RWoken => s.(reader := if s.target.None? then RWake else RBroken)
    case RWake =>
      if s.slot.None? then FinishRead(s)
      else if SlotWaiting(s) then FinishRead(Unpark(s))
      else s.(reader := RSpin)
    case RSpin => s.(reader := RWake)
    case RSwap =>
      if SlotWaiting(s) then Resumed(s).(slot := Some(ReaderSide), reader := RSwapped, running := Writer)
      else s.(reader := RYield)
    case RSwapReady => FinishRead(s)
    case RYield => s.(reader := RLoop)
    case RCloseNull => s.(target := None, reader := RCloseWake)
    case RCloseWake =>
      if s.slot.None? then s.(reader := RClosed)
      else if SlotWaiting(s) then Unpark(s).(reader := RClosed)
      else s.(reader := RCloseYield)
    case RCloseYield => s.(reader := RCloseWake)
  }

  function WriterNext<T>(s: Window<T>): Window<T>
    requires Free(s, WriterStep)
  {
    match s.writer
    case WLoop(v) => s.(writer := if s.closed then WDone(v, Some(v)) else WPark(v))
    case WPark(v) => if s.slot.None? then s.(slot := Some(WriterSide), writer := WThunk(v)) else s.(writer := WTry(v))
    case WThunk(v) => if s.closed then s.(slot := None, writer := WTry(v)) else s.(writer := WParked(v))
    case WWoken(v) => if s.closed then s.(target := None, writer := WDone(v, Some(v))) else s.(writer := WEmplace(v))
    case WEmplace(v) => Emplace(s, v, WSwap(v))
    case WSwap(v) =>
      if SlotWaiting(s) then Resumed(s).(slot := Some(WriterSide), writer := WSwapped(v), running := Reader)
      else s.(writer := WSwapYield(v))
    case WSwapYield(v) => s.(writer := WSwap(v))
    case WSwapReady(v) => Accepted(s, v)
    case WTry(v) => if s.slot.Some? && s.target.Some? then Emplace(s, v, WWake(v)) else s.(writer := WYield(v))
    case WWake(v) =>
      if s.slot.None? then Accepted(s, v)
      else if SlotWaiting(s) then Accepted(Unpark(s), v)
      else s.(writer := WSpin(v))
    case WSpin(v) => s.(writer := WWake(v))
    case WYield(v) => s.(writer := WLoop(v))
    case WCloseNull => s.(target := None, writer := WCloseWake)
    case WCloseWake =>
      if s.slot.None? then s.(writer := WClosed)
      else if SlotWaiting(s) then Unpark(s).(writer := WClosed)
      else s.(writer := WCloseYield)
    case WCloseYield => s.(writer := WCloseWake)
  }

  function OutsiderNext<T>(s: Window<T>): Window<T>
    requires Free(s, OutsiderStep)
  {
    match s.outsider
    case ONull => s.(target := None, outsider := OWake)
    case OWake =>
      if s.slot.None? then s.(outsider := OIdle)
      else if SlotWaiting(s) then Unpark(s).(outsider := OIdle)
      else s.(outsider := OYield)
    case OYield => s.(outsider := OWake)
  }

  function Next<T>(s: Window<T>, a: Action<T>): Window<T>
    requires Free(s, a)
  {
    var c := s.(running := ActorOf(a));
    match a
    case ReadCall =>
      if s.target.Some? then c.(reader := RBroken)
      else c.(reader := RLoop, ret := None, calls := s.calls + 1, target := Some(s.calls + 1))
    case ReaderStep => ReaderNext(c)
    case ReaderClose => c.(closed := true, reader := RCloseNull)
    case WriteCall(v) => c.(writer := WLoop(v))
    case WriterStep => WriterNext(c)
    case WriterClose => c.(closed := true, writer := WCloseNull)
    case OutsiderClose => c.(closed := true, outsider := ONull)
    case OutsiderStep => OutsiderNext(c)
  }

  function Fresh<T>(first: Actor): Window<T> {
    Window(None, None, false, 0, None, RIdle, WIdle, OIdle, first, [], [], [])
  }

  predicate Legal<T>(s: Window<T>, acts: seq<Action<T>>, rule: Rule)
    decreases |acts|
  {
    acts == [] || (Enabled(s, acts[0], rule) && Legal(Next(s, acts[0]), acts[1..], rule))
  }

  function Exec<T>(s: Window<T>, acts: seq<Action<T>>, rule: Rule): Window<T>
    requires Legal(s, acts, rule)
    decreases |acts|
  {
    if acts == [] then s else Exec(Next(s, acts[0]), acts[1..], rule)
  }
}
