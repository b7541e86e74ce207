/** The synchronous channel as an object: its three fields, the reader's local `ret`, and methods for the
    steps of `read`, `write` and `close`, which do exactly what the state machine in `ChannelWindow` says.
    On top of them, `ReadStretch`, `WriteStretch` and `CloseStretch` are a whole call, or the rest of one, up to
    the point at which it returns or gives up the processor. */
module ChannelWindowObject {
  import opened Options
  import opened ChannelWindow
  import opened ChannelWindowProof

  // ---------------------------------------------------------------- one stretch of read

  /** What an uninterrupted stretch of `read`, entered in `s`, comes to. */
  ghost function ReadOutcome<T>(s: Window<T>): Window<T>
    requires s.reader.RLoop? || s.reader.RWoken? || s.reader.RSwapReady?
    requires s.slot.Some? && !(s.reader.RLoop? && s.closed) && !s.reader.RSwapReady? ==> SlotWaiting(s)
  {
    match s.reader
    case RLoop =>
      if s.closed then FinishRead(s)
      else if s.slot.None? then s.(slot := Some(ReaderSide), reader := RParked)
      else Resumed(s).(slot := Some(ReaderSide), reader := RSwapped, running := Writer)
    case RWoken => FinishRead(if s.slot.None? then s else Unpark(s))
    case RSwapReady => FinishRead(s)
  }

  ghost predicate ReadEntered<T>(s: Window<T>) {
    && (s.reader.RLoop? || s.reader.RWoken? || s.reader.RSwapReady?)
    && (s.slot.Some? && !(s.reader.RLoop? && s.closed) && !s.reader.RSwapReady? ==> SlotWaiting(s))
  }

  /** Whoever is in the slot while the reader runs is asleep there. */
  lemma ReadEntersSafely<T>(s: Window<T>)
    requires Inv(s) && s.running == Reader && (s.reader.RLoop? || s.reader.RWoken? || s.reader.RSwapReady?)
    ensures ReadEntered(s) && (s.reader.RWoken? ==> s.target.None?)
  {
    TwoSides(s.slot);
  }

  /** The stretch entered in `s0` has come as far as `s`. */
  ghost predicate ReadSoFar<T>(s0: Window<T>, s: Window<T>)
    requires ReadEntered(s0)
  {
    || s == s0
    || (s0.reader.RLoop? && !s0.closed && s == s0.(reader := RPark))
    || (s0.reader.RLoop? && !s0.closed && s0.slot.None? && s == s0.(slot := Some(ReaderSide), reader := RThunk))
    || (s0.reader.RLoop? && !s0.closed && s0.slot.Some? && s == s0.(reader := RSwap))
    || (s0.reader.RWoken? && s == s0.(reader := RWake))
    || s == ReadOutcome(s0)
  }

  ghost function ReaderRank<T>(r: ReaderPc<T>): nat {
    match r
    case RLoop => 4
    case RPark => 3
    case RThunk => 2
    case RSwap => 2
    case RWoken => 2
    case RWake => 1
    case RSwapReady => 1
    case _ => 0
  }

  predicate ReaderAtRest<T>(r: ReaderPc<T>) {
    r.RDone? || r.RParked? || r.RSwapped?
  }

  lemma ReadMakesProgress<T>(s0: Window<T>, s: Window<T>)
    requires ReadEntered(s0) && s0.running == Reader && ReadSoFar(s0, s) && !ReaderAtRest(s.reader)
    requires s0.reader.RWoken? ==> s0.target.None?
    ensures s.running == Reader && Free(s, ReaderStep) && Guarded(s, ReaderStep)
    ensures ReadSoFar(s0, ReaderNext(s)) && ReaderRank(ReaderNext(s).reader) < ReaderRank(s.reader)
  {
    TwoSides(s.slot);
  }

  // ---------------------------------------------------------------- one stretch of write

  ghost predicate WriteEntered<T>(s: Window<T>) {
    && (s.writer.WLoop? || s.writer.WWoken? || s.writer.WSwapReady?)
    && (s.writer.WLoop? && !s.closed && s.slot.Some? ==> SlotWaiting(s) && s.target == Some(s.calls))
    && (s.writer.WWoken? && !s.closed ==> s.slot.Some? && SlotWaiting(s) && s.target == Some(s.calls))
  }

  /** What an uninterrupted stretch of `write(v)`, entered in `s`, comes to. */
  ghost function WriteOutcome<T>(s: Window<T>): Window<T>
    requires WriteEntered(s)
  {
    match s.writer
    case WLoop(v) =>
      if s.closed then s.(writer := WDone(v, Some(v)))
      else if s.slot.None? then s.(slot := Some(WriterSide), writer := WParked(v))
      else Accepted(Unpark(Emplace(s, v, WWake(v))), v)
    case WWoken(v) =>
      if s.closed then s.(target := None, writer := WDone(v, Some(v)))
      else Resumed(Emplace(s, v, WSwap(v))).(slot := Some(WriterSide), writer := WSwapped(v), running := Reader)
    case WSwapReady(v) => Accepted(s, v)
  }

  lemma WriteEntersSafely<T>(s: Window<T>)
    requires Inv(s) && s.running == Writer && (s.writer.WLoop? || s.writer.WWoken? || s.writer.WSwapReady?)
    requires Guarded(s, WriterStep)
    ensures WriteEntered(s)
  {
    TwoSides(s.slot);
  }

  ghost predicate WriteSoFar<T>(s0: Window<T>, s: Window<T>)
    requires WriteEntered(s0)
  {
    var v := s0.writer.v;
    || s == s0
    || (s0.writer.WLoop? && !s0.closed &&
        (|| s == s0.(writer := WPark(v))
         || (s0.slot.None? && s == s0.(slot := Some(WriterSide), writer := WThunk(v)))
         || (s0.slot.Some? && s == s0.(writer := WTry(v)))
         || (s0.slot.Some? && s == Emplace(s0, v, WWake(v)))))
    || (s0.writer.WWoken? && !s0.closed && (s == s0.(writer := WEmplace(v)) || s == Emplace(s0, v, WSwap(v))))
    || s == WriteOutcome(s0)
  }

  ghost function WriterRank<T>(w: WriterPc<T>): nat {
    match w
    case WLoop(_) => 4
    case WPark(_) => 3
    case WThunk(_) => 2
    case WTry(_) => 2
    case WWake(_) => 1
    case WWoken(_) => 3
    case WEmplace(_) => 2
    case WSwap(_) => 1
    case WSwapReady(_) => 1
    case _ => 0
  }

  predicate WriterAtRest<T>(w: WriterPc<T>) {
    w.WDone? || w.WParked? || w.WSwapped?
  }

  lemma WriteMakesProgress<T>(s0: Window<T>, s: Window<T>)
    requires WriteEntered(s0) && s0.running == Writer && WriteSoFar(s0, s) && !WriterAtRest(s.writer)
    ensures s.running == Writer && Free(s, WriterStep) && Guarded(s, WriterStep)
    ensures WriteSoFar(s0, WriterNext(s)) && WriterRank(WriterNext(s).writer) < WriterRank(s.writer)
  {
    if s0.writer.WLoop? {
      NewWriteMakesProgress(s0, s);
    } else {
      TwoSides(s0.slot);
    }
  }

  lemma NewWriteMakesProgress<T>(s0: Window<T>, s: Window<T>)
    requires WriteEntered(s0) && s0.running == Writer && WriteSoFar(s0, s) && !WriterAtRest(s.writer)
    requires s0.writer.WLoop?
    ensures s.running == Writer && Free(s, WriterStep) && Guarded(s, WriterStep)
    ensures WriteSoFar(s0, WriterNext(s)) && WriterRank(WriterNext(s).writer) < WriterRank(s.writer)
  {
    TwoSides(s0.slot);
  }

  // ---------------------------------------------------------------- one stretch of close

  /** The task `who` is in `close`. */
  predicate InClose<T>(r: ReaderPc<T>, w: WriterPc<T>, o: OutsiderPc, who: Actor) {
    match who
    case Reader => r.RCloseNull? || r.RCloseWake? || r.RCloseYield?
    case Writer => w.WCloseNull? || w.WCloseWake? || w.WCloseYield?
    case Outsider => !o.OIdle?
  }

  ghost function AtNull<T>(s: Window<T>, who: Actor): Window<T> {
    match who
    case Reader => s.(reader := RCloseNull)
    case Writer => s.(writer := WCloseNull)
    case Outsider => s.(outsider := ONull)
  }

  ghost function AtWake<T>(s: Window<T>, who: Actor): Window<T> {
    match who
    case Reader => s.(reader := RCloseWake)
    case Writer => s.(writer := WCloseWake)
    case Outsider => s.(outsider := OWake)
  }

  ghost function AfterClose<T>(s: Window<T>, who: Actor): Window<T> {
    match who
    case Reader => s.(reader := RClosed)
    case Writer => s.(writer := WClosed)
    case Outsider => s.(outsider := OIdle)
  }

  ghost predicate CloseEntered<T>(s: Window<T>, who: Actor) {
    s.running == who && s == AtNull(s, who) && (s.slot.Some? ==> SlotWaiting(s))
  }

  /** Whoever is in the slot while a closer runs is asleep there. */
  lemma CloseEntersSafely<T>(s: Window<T>, who: Actor)
    requires Inv(s) && s.running == who && s == AtNull(s, who)
    ensures CloseEntered(s, who)
  {
    TwoSides(s.slot);
  }

  /** Where the reader is after whoever sleeps in the slot has been woken: out of `park_if`, or out of `swap`. */
  ghost function WokenReader<T>(s: Window<T>): ReaderPc<T> {
    if s.slot != Some(ReaderSide) then s.reader
    else if s.reader.RParked? then RWoken
    else if s.reader.RSwapped? then RSwapReady else s.reader
  }

  ghost function WokenWriter<T>(s: Window<T>): WriterPc<T> {
    if s.slot != Some(WriterSide) then s.writer
    else if s.writer.WParked? then WWoken(s.writer.v)
    else if s.writer.WSwapped? then WSwapReady(s.writer.v) else s.writer
  }

  ghost function Woken<T>(s: Window<T>): Window<T> {
    if SlotWaiting(s) then Unpark(s) else s
  }

  ghost predicate CloseSoFar<T>(s0: Window<T>, s: Window<T>, who: Actor) {
    || s == s0
    || s == AtWake(s0.(target := None), who)
    || s == AfterClose(Woken(s0.(target := None)), who)
  }

  ghost function CloseRank<T>(s0: Window<T>, s: Window<T>, who: Actor): nat {
    if s == s0 then 2 else if s == AtWake(s0.(target := None), who) then 1 else 0
  }

  ghost function CloserNext<T>(s: Window<T>, who: Actor): Window<T>
    requires Free(s, CloserStep(who))
  {
    match who
    case Reader => ReaderNext(s)
    case Writer => WriterNext(s)
    case Outsider => OutsiderNext(s)
  }

  ghost function CloserStep<T>(who: Actor): Action<T> {
    match who
    case Reader => ReaderStep
    case Writer => WriterStep
    case Outsider => OutsiderStep
  }

  lemma CloseMakesProgress<T>(s0: Window<T>, s: Window<T>, who: Actor)
    requires CloseEntered(s0, who) && CloseSoFar(s0, s, who) && InClose(s.reader, s.writer, s.outsider, who)
    ensures s.running == who && Free(s, CloserStep(who)) && Guarded(s, CloserStep(who))
    ensures CloseSoFar(s0, CloserNext(s, who), who) && CloseRank(s0, CloserNext(s, who), who) < CloseRank(s0, s, who)
  {
    TwoSides(s0.slot);
  }

  lemma CloseEnds<T>(s0: Window<T>, s: Window<T>, who: Actor)
    requires CloseEntered(s0, who) && CloseSoFar(s0, s, who) && !InClose(s.reader, s.writer, s.outsider, who)
    ensures s == AfterClose(Woken(s0.(target := None)), who)
  {}

  class ChannelTasks<T> {
    var slot: Option<Side>
    var target: Option<nat>
    var closed: bool
    var calls: nat
    var ret: Option<T>
    var reader: ReaderPc<T>
    var writer: WriterPc<T>
    var outsider: OutsiderPc
    var running: Actor
    ghost var sent: seq<T>
    ghost var got: seq<T>
    ghost var acked: seq<T>

    ghost function View(): Window<T>
      reads this
    {
      Window(slot, target, closed, calls, ret, reader, writer, outsider, running, sent, got, acked)
    }

    ghost predicate Valid()
      reads this
    {
      Inv(View())
    }

    constructor (first: Actor)
      ensures View() == Fresh<T>(first) && Valid()
    {
      slot, target, closed, calls, ret := None, None, false, 0, None;
      reader, writer, outsider, running := RIdle, WIdle, OIdle, first;
      sent, got, acked := [], [], [];
    }

    /** `unpark` on the slot; the caller has seen `_waiter` non-null. */
    method TryUnpark() returns (woke: bool)
      requires slot.Some?
      modifies this`slot, this`reader, this`writer
      ensures woke <==> old(SlotWaiting(View()))
      ensures View() == if woke then Unpark(old(View())) else old(View())
    {
      woke := Resume();
      if woke {
        slot := None;
      }
    }

    /** The parked task, if its run state is WAITING, becomes able to return, from `park_if` or from `swap`. */
    method Resume() returns (waiting: bool)
      requires slot.Some?
      modifies this`reader, this`writer
      ensures waiting <==> old(SlotWaiting(View()))
      ensures View() == if waiting then Resumed(old(View())) else old(View())
    {
      waiting := true;
      if slot.value.ReaderSide? && (reader.RParked? || reader.RSwapped?) {
        reader := if reader.RParked? then RWoken else RSwapReady;
      } else if slot.value.WriterSide? && (writer.WParked? || writer.WSwapped?) {
        writer := if writer.WParked? then WWoken(writer.v) else WSwapReady(writer.v);
      } else {
        waiting := false;
      }
    }

    /** Entry of `read`; the assert is the source's. */
    method BeginRead()
      requires Valid() && MayRun(Reader) && (reader.RIdle? || reader.RDone?) && target.None?
      modifies this
      ensures Valid() && View() == Next(old(View()), ReadCall)
    {
      StepKeepsInv(View(), ReadCall);
      ghost var s' := Next(View(), ReadCall);
      assert target.None?;
      running, reader, ret := Reader, RLoop, None;
      calls := calls + 1;
      target := Some(calls);
      assert View() == s';
    }

    method BeginWrite(v: T)
      requires Valid() && MayRun(Writer) && (writer.WIdle? || writer.WDone?)
      modifies this`running, this`writer
      ensures Valid() && View() == Next(old(View()), WriteCall(v))
    {
      StepKeepsInv(View(), WriteCall(v));
      running, writer := Writer, WLoop(v);
    }

    /** `who` has the processor, or the task that has it is at a point where it may lose it. */
    ghost predicate MayRun(who: Actor)
      reads this
    {
      running == who || AtSwitch(View())
    }

    /** Outside every call. */
    predicate MayClose(who: Actor)
      reads this
    {
      match who
      case Reader => reader.RIdle? || reader.RDone?
      case Writer => writer.WIdle? || writer.WDone?
      case Outsider => outsider.OIdle?
    }

    ghost function CloseBy(who: Actor): Action<T> {
      match who
      case Reader => ReaderClose
      case Writer => WriterClose
      case Outsider => OutsiderClose
    }

    /** The flag is set by any task; the rest of `close` follows in that task's steps. */
    method BeginClose(who: Actor)
      requires Valid() && MayRun(who) && MayClose(who)
      modifies this
      ensures Valid() && View() == Next(old(View()), CloseBy(who))
    {
      StepKeepsInv(View(), CloseBy(who));
      running, closed := who, true;
      match who
      case Reader => reader := RCloseNull;
      case Writer => writer := WCloseNull;
      case Outsider => outsider := ONull;
    }

    /** The rest of `close` by a task that is neither end. */
    method OutsiderStepOnce()
      requires Valid() && running == Outsider && Enabled(View(), OutsiderStep, Careful)
      modifies this
      ensures Valid() && View() == OutsiderNext(old(View()))
    {
      StepKeepsInv(View(), OutsiderStep);
      OutsiderWork();
    }

    method OutsiderWork()
      requires running == Outsider && Free(View(), OutsiderStep)
      modifies this
      ensures View() == OutsiderNext(old(View()))
    {
      match outsider
      case ONull => target, outsider := None, OWake;
      case OWake =>
        if slot.None? {
          outsider := OIdle;
        } else {
          var woke := TryUnpark();
          outsider := if woke then OIdle else OYield;
        }
      case OYield => outsider := OWake;
    }

    /** The `read` returns its local `ret`. */
    method ReturnFromRead()
      modifies this`reader, this`got
      ensures View() == FinishRead(old(View()))
    {
      if ret.Some? {
        got := got + [ret.value];
      }
      reader := RDone(ret);
    }

    method ReturnAccepted(v: T)
      modifies this`writer, this`acked
      ensures View() == Accepted(old(View()), v)
    {
      writer, acked := WDone(v, None), acked + [v];
    }

    method ReaderWork()
      requires running == Reader && Free(View(), ReaderStep) && reader != RWoken
      modifies this
      ensures View() == ReaderNext(old(View()))
    {
      match reader
      case RLoop =>
        if closed {
          ReturnFromRead();
        } else {
          reader := RPark;
        }
      case RPark =>
        if slot.None? {
          slot, reader := Some(ReaderSide), RThunk;
        } else {
          reader := RSwap;
        }
      case RThunk =>
        if closed {
          slot, reader := None, RSwap;
        } else {
          reader := RParked;
        }
      case RWake =>
        if slot.None? {
          ReturnFromRead();
        } else {
          var woke := TryUnpark();
          if woke {
            ReturnFromRead();
          } else {
            reader := RSpin;
          }
        }
      case RSpin => reader := RWake;
      case RSwap =>
        var waiting := false;
        if slot.Some? {
          waiting := Resume();
        }
        if waiting {
          slot, reader, running := Some(ReaderSide), RSwapped, Writer;
        } else {
          reader := RYield;
        }
      case RSwapReady => ReturnFromRead();
      case RYield => reader := RLoop;
      case RCloseNull => target, reader := None, RCloseWake;
      case RCloseWake =>
        if slot.None? {
          reader := RClosed;
        } else {
          var woke := TryUnpark();
          reader := if woke then RClosed else RCloseYield;
        }
      case RCloseYield => reader := RCloseWake;
    }

    /** After a successful park the source asserts that the writer or a closer has cleared `_reader`. */
    method ReaderStepOnce()
      requires Valid() && running == Reader && Enabled(View(), ReaderStep, Careful)
      modifies this
      ensures Valid() && View() == ReaderNext(old(View()))
    {
      StepKeepsInv(View(), ReaderStep);
      if reader == RWoken {
        assert target.None?;
        reader := RWake;
      } else {
        ReaderWork();
      }
    }

    /** The value goes into the `ret` of a call that is still open, and `_reader` becomes null. */
    method FillReader(v: T, then_: WriterPc<T>)
      requires target == Some(calls)
      modifies this`ret, this`target, this`sent, this`writer
      ensures View() == Emplace(old(View()), v, then_)
    {
      ret, target, sent, writer := Some(v), None, sent + [v], then_;
    }

    method WriterWork()
      requires running == Writer && Free(View(), WriterStep)
      requires writer.WEmplace? ==> target == Some(calls)
      requires writer.WTry? && slot.Some? && target.Some? ==> target == Some(calls)
      modifies this
      ensures View() == WriterNext(old(View()))
    {
      match writer
      case WLoop(v) => writer := if closed then WDone(v, Some(v)) else WPark(v);
      case WPark(v) =>
        if slot.None? {
          slot, writer := Some(WriterSide), WThunk(v);
        } else {
          writer := WTry(v);
        }
      case WThunk(v) =>
        if closed {
          slot, writer := None, WTry(v);
        } else {
          writer := WParked(v);
        }
      case WWoken(v) =>
        if closed {
          target, writer := None, WDone(v, Some(v));
        } else {
          writer := WEmplace(v);
        }
      case WEmplace(v) => FillReader(v, WSwap(v));
      case WTry(v) =>
        if slot.Some? && target.Some? {
          FillReader(v, WWake(v));
        } else {
          writer := WYield(v);
        }
      case WSwap(v) =>
        var waiting := false;
        if slot.Some? {
          waiting := Resume();
        }
        if waiting {
          slot, writer, running := Some(WriterSide), WSwapped(v), Reader;
        } else {
          writer := WSwapYield(v);
        }
      case WSwapYield(v) => writer := WSwap(v);
      case WSwapReady(v) => ReturnAccepted(v);
      case WWake(v) =>
        if slot.None? {
          ReturnAccepted(v);
        } else {
          var woke := TryUnpark();
          if woke {
            ReturnAccepted(v);
          } else {
            writer := WSpin(v);
          }
        }
      case WSpin(v) => writer := WWake(v);
      case WYield(v) => writer := WLoop(v);
      case WCloseNull => target, writer := None, WCloseWake;
      case WCloseWake =>
        if slot.None? {
          writer := WClosed;
        } else {
          var woke := TryUnpark();
          writer := if woke then WClosed else WCloseYield;
        }
      case WCloseYield => writer := WCloseWake;
    }

    /** The writer's assert on `_reader` holds wherever it is reached. */
    method WriterStepOnce()
      requires Valid() && running == Writer && Enabled(View(), WriterStep, Careful)
      modifies this
      ensures Valid() && View() == WriterNext(old(View()))
    {
      StepKeepsInv(View(), WriterStep);
      assert writer.WEmplace? ==> target.Some?;
      WriterWork();
    }

    /** `read`, from its call or from being resumed, up to its return or to giving up the processor.  A closed channel
        gives nothing; otherwise the reader parks, or swaps with a writer that is asleep in the slot.  A resumed
        `read` returns what was put into its `ret`, waking the writer if it is asleep. */
    method ReadStretch()
      requires Valid() && running == Reader
      requires reader.RWoken? || reader.RSwapReady? || ((reader.RIdle? || reader.RDone?) && target.None?)
      modifies this
      ensures Valid() && closed == old(closed) && sent == old(sent) && acked == old(acked)
      ensures old(reader.RWoken? || reader.RSwapReady?) ==>
                && reader == RDone(old(ret)) && (old(ret).None? ==> closed)
                && got == old(got) + (if old(ret).Some? then [old(ret).value] else [])
      ensures old(reader.RWoken?) ==> slot.None? && writer == WokenWriter(old(View()))
      ensures old(reader.RSwapReady?) ==> slot == old(slot) && writer == old(writer)
      ensures old(reader.RIdle? || reader.RDone?) ==>
                && got == old(got)
                && if closed then reader == RDone(None)
                   else
                     && slot == Some(ReaderSide) && target == Some(calls) && ret.None?
                     && if old(slot).None? then reader.RParked? && running == Reader && writer == old(writer)
                        else
                          && reader.RSwapped? && running == Writer && writer == WokenWriter(old(View()))
                          && (writer.WWoken? || writer.WSwapReady?)
    {
      if reader.RIdle? || reader.RDone? {
        BeginRead();
      }
      ghost var s0 := View();
      ReadEntersSafely(s0);
      FinishReading(s0);
      ReadOutcomeInWords(s0);
    }

    method FinishReading(ghost s0: Window<T>)
      requires Valid() && View() == s0 && ReadEntered(s0) && s0.running == Reader
      requires s0.reader.RWoken? ==> s0.target.None?
      modifies this
      ensures Valid() && View() == ReadOutcome(s0)
    {
      while !ReaderAtRest(reader)
        invariant Valid() && ReadSoFar(s0, View())
        decreases ReaderRank(reader)
      {
        ReadMakesProgress(s0, View());
        ReaderStepOnce();
      }
    }

    /** `write`, from its call or from being resumed, up to its return or to giving up the processor.  A closed channel
        hands the value back; a reader asleep in the slot gets it; with nobody there the writer parks.  A writer
        woken by a reader on an open channel delivers and swaps with it. */
    method WriteStretch(v: T)
      requires Valid() && running == Writer && Guarded(View(), WriterStep)
      requires writer.WIdle? || writer.WDone? || ((writer.WWoken? || writer.WSwapReady?) && writer.v == v)
      modifies this
      ensures Valid() && closed == old(closed) && got == old(got)
      ensures old(writer.WSwapReady?) ==> writer == WDone(v, None) && acked == old(acked) + [v] && sent == old(sent)
      ensures !old(writer.WSwapReady?) && closed ==>
                writer == WDone(v, Some(v)) && sent == old(sent) && acked == old(acked)
      ensures !old(writer.WSwapReady?) && !closed && (old(writer.WWoken?) || old(slot).Some?) ==>
                && sent == old(sent) + [v] && ret == Some(v) && target.None? && reader == WokenReader(old(View()))
                && (reader.RWoken? || reader.RSwapReady?)
                && if old(writer.WWoken?) then writer == WSwapped(v) && running == Reader && acked == old(acked)
                   else writer == WDone(v, None) && acked == old(acked) + [v]
      ensures !old(writer.WSwapReady?) && closed ==> target == if old(writer.WWoken?) then None else old(target)
      ensures old(writer.WIdle? || writer.WDone?) && !closed && old(slot).None? ==>
                writer == WParked(v) && slot == Some(WriterSide) && sent == old(sent) && acked == old(acked)
    {
      if writer.WIdle? || writer.WDone? {
        BeginWrite(v);
      }
      ghost var s0 := View();
      WriteEntersSafely(s0);
      FinishWriting(s0);
      WriteOutcomeInWords(s0);
    }

    /** The whole of `close` by any task: the channel is closed, `_reader` is null, and whoever slept in the slot
        has been woken, without a turn of the retry loop. */
    method CloseStretch(who: Actor)
      requires Valid() && MayRun(who) && MayClose(who)
      modifies this
      ensures Valid() && closed && target.None? && slot.None? && running == who
      ensures sent == old(sent) && got == old(got) && acked == old(acked) && ret == old(ret) && calls == old(calls)
      ensures reader == if who == Reader then RClosed else WokenReader(old(View()))
      ensures writer == if who == Writer then WClosed else WokenWriter(old(View()))
      ensures outsider == if who == Outsider then OIdle else old(outsider)
      ensures old(slot).Some? ==> old(SlotWaiting(View()))
    {
      ghost var s := View();
      BeginClose(who);
      ghost var s0 := View();
      CloseEntersSafely(s0, who);
      FinishClosing(s0, who);
      CloseOutcomeInWords(s, s0, who);
    }

    method FinishClosing(ghost s0: Window<T>, who: Actor)
      requires Valid() && View() == s0 && CloseEntered(s0, who)
      modifies this
      ensures Valid() && View() == AfterClose(Woken(s0.(target := None)), who)
    {
      while InClose(reader, writer, outsider, who)
        invariant Valid() && CloseSoFar(s0, View(), who)
        decreases CloseRank(s0, View(), who)
      {
        CloseMakesProgress(s0, View(), who);
        match who
        case Reader => ReaderStepOnce();
        case Writer => WriterStepOnce();
        case Outsider => OutsiderStepOnce();
      }
      CloseEnds(s0, View(), who);
    }

    method FinishWriting(ghost s0: Window<T>)
      requires Valid() && View() == s0 && WriteEntered(s0) && s0.running == Writer
      modifies this
      ensures Valid() && View() == WriteOutcome(s0)
    {
      while !WriterAtRest(writer)
        invariant Valid() && WriteSoFar(s0, View())
        decreases WriterRank(writer)
      {
        WriteMakesProgress(s0, View());
        WriterStepOnce();
      }
    }
  }

  lemma ReadOutcomeInWords<T>(s: Window<T>)
    requires Inv(s) && ReadEntered(s) && s.running == Reader
    ensures
      var r := ReadOutcome(s);
      && r.closed == s.closed && r.sent == s.sent && r.acked == s.acked && r.target == s.target && r.calls == s.calls
      && r.ret == s.ret
      && (s.reader.RLoop? && !s.closed ==>
            && r.got == s.got && r.slot == Some(ReaderSide) && s.target == Some(s.calls) && s.ret.None?
            && if s.slot.None? then r.reader.RParked? && r.running == Reader && r.writer == s.writer
               else
                 && r.reader.RSwapped? && r.running == Writer && r.writer == WokenWriter(s)
                 && (r.writer.WWoken? || r.writer.WSwapReady?))
      && (!(s.reader.RLoop? && !s.closed) ==>
            && r.reader == RDone(s.ret) && (s.ret.None? ==> s.closed)
            && r.got == s.got + (if s.ret.Some? then [s.ret.value] else []))
      && (s.reader.RWoken? ==> r.slot.None? && r.writer == WokenWriter(s))
      && (s.reader.RSwapReady? ==> r.slot == s.slot && r.writer == s.writer)
      && (s.reader.RLoop? ==> s.ret.None?)
  {
    TwoSides(s.slot);
  }

  lemma CloseOutcomeInWords<T>(s: Window<T>, s0: Window<T>, who: Actor)
    requires s0 == AtNull(s.(running := who, closed := true), who) && CloseEntered(s0, who)
    requires who == Reader ==> s.reader.RIdle? || s.reader.RDone?
    requires who == Writer ==> s.writer.WIdle? || s.writer.WDone?
    ensures s.slot.Some? ==> SlotWaiting(s)
    ensures
      var r := AfterClose(Woken(s0.(target := None)), who);
      && r.closed && r.target.None? && r.slot.None? && r.running == who
      && r.sent == s.sent && r.got == s.got && r.acked == s.acked && r.ret == s.ret && r.calls == s.calls
      && r.reader == (if who == Reader then RClosed else WokenReader(s))
      && r.writer == (if who == Writer then WClosed else WokenWriter(s))
      && r.outsider == (if who == Outsider then OIdle else s.outsider)
  {
    TwoSides(s.slot);
  }

  lemma WriteOutcomeInWords<T>(s: Window<T>)
    requires Inv(s) && WriteEntered(s) && s.running == Writer
    ensures
      var r, v := WriteOutcome(s), s.writer.v;
      && r.closed == s.closed && r.got == s.got
      && (s.writer.WSwapReady? ==> r.writer == WDone(v, None) && r.acked == s.acked + [v] && r.sent == s.sent)
      && (!s.writer.WSwapReady? && s.closed ==> r.writer == WDone(v, Some(v)) && r.sent == s.sent && r.acked == s.acked)
      && (!s.writer.WSwapReady? && s.closed ==> r.target == if s.writer.WWoken? then None else s.target)
      && (s.writer.WWoken? && !s.closed ==>
            && r.sent == s.sent + [v] && r.ret == Some(v) && r.target.None?
            && r.reader == WokenReader(s) && (r.reader.RWoken? || r.reader.RSwapReady?)
            && r.writer == WSwapped(v) && r.running == Reader && r.acked == s.acked)
      && (s.writer.WLoop? && !s.closed && s.slot.Some? ==>
            && r.sent == s.sent + [v] && r.ret == Some(v) && r.target.None?
            && r.reader == WokenReader(s) && (r.reader.RWoken? || r.reader.RSwapReady?)
            && r.writer == WDone(v, None) && r.acked == s.acked + [v])
      && (s.writer.WLoop? && !s.closed && s.slot.None? ==>
            r.writer == WParked(v) && r.slot == Some(WriterSide) && r.sent == s.sent && r.acked == s.acked)
  {
    TwoSides(s.slot);
  }
}
