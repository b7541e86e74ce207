/** The ring buffer as an object: the slots are an array changed in place, the counters and flags are
    fields, and each method is one task's next atomic step.  Every method is proved to do exactly
    what the state machine in `RingBuffer` says, so the results about its runs apply. */
module RingBufferObject {
  import opened Words
  import opened Options
  import opened RingBuffer
  import opened RingBufferFifo
  import opened RingBufferCoop
  import opened RingBufferExact
  import opened RingBufferClose

  /** Steps left in an uninterrupted stretch of `read`. */
  function ReaderRank<T>(pc: ReaderPc<T>): nat {
    match pc
    case RLoadR => 10
    case RLoadW(_) => 9
    case RReload(_) => 9
    case RCheck(_, _) => 8
    case RCas(_) => 7
    case RThunk(_) => 6
    case RAbort => 5
    case RCommit(_) => 5
    case RMove(_) => 7
    case RDestroy(_, _) => 6
    case RStore(_, _) => 5
    case RWake(_) => 4
    case _ => 0
  }

  /** Steps left in an uninterrupted stretch of `write`. */
  function WriterRank<T>(pc: WriterPc<T>): nat {
    match pc
    case WTestClosed(_) => 11
    case WLoadW(_) => 10
    case WLoadR(_, _) => 9
    case WReload(_, _) => 9
    case WCheck(_, _, _) => 8
    case WCas(_, _) => 7
    case WThunk(_, _) => 6
    case WAbort(_) => 5
    case WCommit(_, _) => 5
    case WConstruct(_, _) => 7
    case WStore(_, _) => 6
    case WWake(_) => 5
    case _ => 0
  }

  /** How far an uninterrupted `read` that found the buffer in state `s0` has come. */
  ghost predicate ReadSoFar<T>(s0: Ring<T>, s: Ring<T>) {
    && s.accepted == s0.accepted && s.closed == s0.closed && |s0.delivered| <= |s0.accepted|
    && match s.reader
       case RWake(v) => ReadDone(s0, s, v)
       case RDone(Some(v)) => ReadDone(s0, s, v)
       case RDone(None) => s.delivered == s0.delivered && Empty(s0) && s.closed
       case RAbort => s.delivered == s0.delivered && Empty(s0) && s.closed
       case RCommit(_) => s.delivered == s0.delivered && Empty(s0) && !s.closed
       case RParked(_) => s.delivered == s0.delivered && Empty(s0) && !s.closed
       case _ => s.delivered == s0.delivered && ReaderRank(s.reader) > 4
  }

  ghost predicate ReadDone<T>(s0: Ring<T>, s: Ring<T>, v: T) {
    |s0.delivered| < |s0.accepted| && v == s0.accepted[|s0.delivered|] && s.delivered == s0.delivered + [v]
  }

  /** What the step below needs from the two invariants. */
  ghost predicate ReaderFacts<T>(s: Ring<T>) {
    && Measured(s) && ReaderFresh(s) && SlotOwner(s) && OthersRest(s, Reader)
    && (s.reader.RStore? ==> |s.delivered| < |s.accepted| && s.reader.v == s.accepted[|s.delivered|])
    && (s.reader.RMove? ==> s.slots[s.Slot(s.reader.lr)].Some?)
    && (s.reader.RCas? ==> s.stalled.None?)
  }

  lemma ReaderFactsHold<T>(s: Ring<T>)
    requires CoopInv(Coop(s, Reader))
    ensures ReaderFacts(s)
  {
    Occupancy(s);
    CasFindsSlotFree(Coop(s, Reader));
    if s.reader.RMove? {
      ReaderSlotIsHead(s);
      assert LiveCell(s, s.ReadCount());
    }
  }

  lemma ReadMakesProgress<T>(s0: Ring<T>, s: Ring<T>)
    requires ReaderFacts(s) && ReadSoFar(s0, s) && !s.reader.RDone? && !s.reader.RParked? && Enabled(s, ReaderStep)
    ensures ReadSoFar(s0, ReaderNext(s)) && ReaderRank(ReaderNext(s).reader) < ReaderRank(s.reader)
  {
    if s.stalled == Some(WriterSide) { WakeSucceeds(s); }
  }

  /** The same for `write(u)`. */
  ghost predicate WriteSoFar<T>(s0: Ring<T>, s: Ring<T>, u: T) {
    && s.delivered == s0.delivered && s.closed == s0.closed && s.exp == s0.exp
    && match s.writer
       case WTestClosed(x) => x == u && s.accepted == s0.accepted && !s0.writer.WReload?
       case WWake(x) => x == u && WriteDone(s0, s, u)
       case WDone(x, None) => x == u && WriteDone(s0, s, u)
       case WAbort(x) => x == u && WriteRefused(s0, s)
       case WDone(x, Some(y)) => x == u && y == u && WriteRefused(s0, s)
       case WCommit(x, _) => x == u && s.accepted == s0.accepted && Full(s0) && !s.closed
       case WParked(x, _) => x == u && s.accepted == s0.accepted && Full(s0) && !s.closed
       case WLoadW(x) => x == u && WriteOpen(s0, s)
       case WLoadR(x, _) => x == u && WriteOpen(s0, s)
       case WReload(x, _) => x == u && WriteOpen(s0, s)
       case WCheck(x, _, _) => x == u && WriteOpen(s0, s)
       case WCas(x, _) => x == u && WriteOpen(s0, s)
       case WThunk(x, _) => x == u && WriteOpen(s0, s)
       case WConstruct(x, _) => x == u && WriteOpen(s0, s)
       case WStore(x, _) => x == u && WriteOpen(s0, s)
       case _ => false
  }

  /** A resumed `write` has its test of `_closed` behind it. */
  ghost predicate WriteOpen<T>(s0: Ring<T>, s: Ring<T>) {
    (s.closed ==> s0.writer.WReload?) && s.accepted == s0.accepted
  }

  ghost predicate WriteRefused<T>(s0: Ring<T>, s: Ring<T>) {
    s.closed && s.accepted == s0.accepted && (s0.writer.WReload? ==> Full(s0))
  }

  ghost predicate WriteDone<T>(s0: Ring<T>, s: Ring<T>, u: T) {
    (s.closed ==> s0.writer.WReload?) && |s0.accepted| < |s0.delivered| + s0.Size() && s.accepted == s0.accepted + [u]
  }

  ghost predicate WriterFacts<T>(s: Ring<T>) {
    && Measured(s) && WriterFresh(s) && SlotOwner(s) && OthersRest(s, Writer)
    && (s.writer.WStore? ==> |s.accepted| < |s.delivered| + s.Size())
    && (s.writer.WConstruct? ==> s.slots[s.Slot(s.writer.lw)].None?)
    && (s.writer.WCas? ==> s.stalled.None?)
  }

  lemma WriterFactsHold<T>(s: Ring<T>)
    requires CoopInv(Coop(s, Writer))
    ensures WriterFacts(s)
  {
    Occupancy(s);
    CasFindsSlotFree(Coop(s, Writer));
    if s.writer.WConstruct? {
      WriterSlotIsTail(s);
      assert FreeCell(s, s.WriteCount());
    }
  }

  lemma WriteMakesProgress<T>(s0: Ring<T>, s: Ring<T>, u: T)
    requires WriterFacts(s) && WriteSoFar(s0, s, u) && !s.writer.WDone? && !s.writer.WParked? && Enabled(s, WriterStep)
    ensures WriteSoFar(s0, WriterNext(s), u) && WriterRank(WriterNext(s).writer) < WriterRank(s.writer)
  {
    if s.stalled == Some(ReaderSide) { WakeSucceeds(s); }
  }

  lemma ReaderStepInStretch<T>(s0: Ring<T>, s: Ring<T>)
    requires CoopInv(Coop(s, Reader)) && ReadSoFar(s0, s) && !s.reader.RDone? && !s.reader.RParked?
    ensures s.Shape() && Enabled(s, ReaderStep)
    ensures
      var s' := ReaderNext(s);
      && CoopInv(Coop(s', Reader)) && ReadSoFar(s0, s')
      && ReaderRank(s'.reader) < ReaderRank(s.reader)
  {
    CoopStepKeepsInv(Coop(s, Reader), ReaderStep);
    ReaderFactsHold(s);
    ReadMakesProgress(s0, s);
  }

  lemma WriterStepInStretch<T>(s0: Ring<T>, s: Ring<T>, u: T)
    requires CoopInv(Coop(s, Writer)) && WriteSoFar(s0, s, u) && !s.writer.WDone? && !s.writer.WParked?
    ensures s.Shape() && Enabled(s, WriterStep)
    ensures
      var s' := WriterNext(s);
      && CoopInv(Coop(s', Writer)) && WriteSoFar(s0, s', u)
      && WriterRank(s'.writer) < WriterRank(s.writer)
  {
    CoopStepKeepsInv(Coop(s, Writer), WriterStep);
    WriterFactsHold(s);
    WriteMakesProgress(s0, s, u);
  }

  /** With preemption off whoever is in the slot is asleep, so one round of the wake loop is enough. */
  lemma CoopCloseEnds<T>(s: Ring<T>, who: Actor)
    requires CoopInv(Coop(s, who)) && InCloseLoop(s, who)
    ensures s.Shape() && SlotOwner(s) && Enabled(s, StepOf<T>(who))
    ensures
      var s' := Next(s, StepOf<T>(who));
      CoopInv(Coop(s', who)) && !InCloseLoop(s', who)
  {
    CoopStepKeepsInv(Coop(s, who), StepOf<T>(who));
    if s.stalled.Some? { WakeSucceeds(s); }
  }

  class RingBufferTasks<T> {
    const exp: nat
    const buffer: array<Option<T>>
    var r: Word
    var w: Word
    var closed: bool
    var stalled: Option<Side>
    var reader: ReaderPc<T>
    var writer: WriterPc<T>
    var outsider: OutsiderPc
    ghost var accepted: seq<T>
    ghost var delivered: seq<T>
    ghost var closers: set<Actor>

    ghost function View(): Ring<T>
      reads this, buffer
    {
      Ring(exp, buffer[..], r, w, closed, stalled, reader, writer, outsider, accepted, delivered, closers)
    }

    ghost predicate Valid()
      reads this, buffer
    {
      Inv(View())
    }

    constructor (exp: nat)
      requires exp <= 63
      ensures View() == Fresh<T>(exp) && Valid() && fresh(buffer)
    {
      this.exp := exp;
      buffer := new Option<T>[Pow2(exp)](_ => None);
      r, w, closed, stalled := 0, 0, false, None;
      reader, writer, outsider := RIdle, WIdle, OIdle;
      accepted, delivered, closers := [], [], {};
      new;
      FreshInv<T>(exp);
      assert buffer[..] == seq(Pow2(exp), _ => None);
    }

    /** `unpark` on the slot; the caller has seen `_stalled` non-null. */
    method TryUnpark() returns (woke: bool)
      requires stalled.Some?
      modifies this`stalled, this`reader, this`writer
      ensures woke <==> old(CanUnpark(View()))
      ensures View() == if woke then Unpark(old(View())) else old(View())
    {
      woke := true;
      if stalled.value.ReaderSide? && reader.RParked? {
        stalled, reader := None, RReload(reader.lr);
      } else if stalled.value.WriterSide? && writer.WParked? {
        stalled, writer := None, WReload(writer.u, writer.lw);
      } else {
        woke := false;
      }
    }

    method BeginRead()
      requires Valid() && (reader.RIdle? || reader.RDone?)
      modifies this`reader
      ensures Valid() && View() == Next(old(View()), ReadCall)
    {
      StepKeepsInv(View(), ReadCall);
      reader := RLoadR;
    }

    method BeginWrite(u: T)
      requires Valid() && (writer.WIdle? || writer.WDone?)
      modifies this`writer
      ensures Valid() && View() == Next(old(View()), WriteCall(u))
    {
      StepKeepsInv(View(), WriteCall(u));
      writer := WTestClosed(u);
    }

    /** `_closed.store(true)` by either end or by an outsider. */
    method BeginClose(who: Actor)
      requires Valid() && MayClose(who)
      modifies this`closed, this`closers, this`reader, this`writer, this`outsider
      ensures Valid() && View() == Next(old(View()), CloseAction(who))
      ensures closed && InCloseLoop(View(), who) && stalled == old(stalled)
    {
      StepKeepsInv(View(), CloseAction(who));
      closed, closers := true, closers + {who};
      match who
      case Reader => reader := RCloseWake;
      case Writer => writer := WCloseWake;
      case Outsider => outsider := OWake;
    }

    /** Outside every call. */
    predicate MayClose(who: Actor)
      reads this
    {
      match who
      case Reader => reader.RIdle? || reader.RDone?
      case Writer => writer.WIdle? || writer.WDone?
      case Outsider => outsider.OIdle?
    }

    static function CloseAction(who: Actor): Action<T> {
      match who
      case Reader => ReaderClose
      case Writer => WriterClose
      case Outsider => OutsiderClose
    }

    /** The reader's side of the slot: move out of it, destroy what is left, store the counter. */
    method ReaderTransfer()
      requires Valid() && (reader.RMove? || reader.RDestroy? || reader.RStore?)
      modifies this`reader, this`r, this`delivered, buffer
      ensures Valid() && View() == ReaderNext(old(View()))
      ensures old(reader.RMove?) ==> old(buffer[View().Slot(reader.lr)]).Some? && reader.RDestroy?
    {
      ghost var s := View();
      ReaderStepKeepsInv(s);
      if reader.RMove? {
        ReaderMoveKeepsInv(s);
        var slot := buffer[Mask(reader.lr)];
        reader := RDestroy(reader.lr, slot.value);
      } else if reader.RDestroy? {
        buffer[Mask(reader.lr)] := None;
        reader := RStore(reader.lr, reader.v);
      } else {
        r, delivered, reader := Inc(reader.lr), delivered + [reader.v], RWake(reader.v);
      }
    }

    /** `loaded & _mask` */
    function Mask(x: Word): (i: nat)
      requires buffer.Length == Pow2(exp)
      ensures i < buffer.Length
    {
      BitAnd(x, Pow2(exp) - 1)
    }

    /** The writer's side of the slot: placement new, then `_w.store`. */
    method WriterTransfer()
      requires Valid() && (writer.WConstruct? || writer.WStore?)
      modifies this`writer, this`w, this`accepted, buffer
      ensures Valid() && View() == WriterNext(old(View()))
      ensures old(writer.WConstruct?) ==> old(buffer[View().Slot(writer.lw)]).None? && writer.WStore?
    {
      ghost var s := View();
      WriterStepKeepsInv(s);
      if writer.WConstruct? {
        WriterSlotIsTail(s);
        assert FreeCell(s, s.WriteCount());
        buffer[Mask(writer.lw)] := Some(writer.u);
        writer := WStore(writer.u, writer.lw);
      } else {
        w, accepted, writer := Inc(writer.lw), accepted + [writer.u], WWake(writer.u);
      }
    }

    /** The loads, the wait loop and the wake loop of `read`. */
    method ReaderControl()
      requires Valid() && ReaderQuiet(View())
      modifies this`reader, this`stalled, this`writer
      ensures Valid() && View() == ReaderNext(old(View()))
    {
      ReaderStepKeepsInv(View());
      match reader
      case RLoadR => reader := RLoadW(r);
      case RLoadW(lr) => reader := RCheck(lr, w);
      case RCheck(lr, lw) => reader := if Sub(lw, lr) == 0 then RCas(lr) else RMove(lr);
      case RCas(lr) =>
        if stalled.None? {
          stalled, reader := Some(ReaderSide), RThunk(lr);
        } else {
          reader := RReload(lr);
        }
      case RThunk(lr) => reader := if closed then RAbort else RCommit(lr);
      case RAbort => stalled, reader := None, RDone(None);
      case RCommit(lr) => reader := RParked(lr);
      case RReload(lr) => reader := RCheck(lr, w);
      case RWake(v) =>
        if stalled.None? {
          reader := RDone(Some(v));
        } else {
          var woke := TryUnpark();
          reader := if woke then RDone(Some(v)) else RYield(v);
        }
      case RYield(v) => reader := RWake(v);
      case RCloseWake =>
        if stalled.None? {
          reader := RClosed;
        } else {
          var woke := TryUnpark();
          reader := if woke then RClosed else RCloseYield;
        }
      case RCloseYield => reader := RCloseWake;
    }

    /** The loads, the wait loop and the wake loop of `write`. */
    method WriterControl()
      requires Valid() && WriterQuiet(View())
      modifies this`reader, this`stalled, this`writer
      ensures Valid() && View() == WriterNext(old(View()))
    {
      WriterStepKeepsInv(View());
      match writer
      case WTestClosed(u) => writer := if closed then WDone(u, Some(u)) else WLoadW(u);
      case WLoadW(u) => writer := WLoadR(u, w);
      case WLoadR(u, lw) => writer := WCheck(u, lw, r);
      case WCheck(u, lw, lr) => writer := if Sub(lw, lr) == Pow2(exp) then WCas(u, lw) else WConstruct(u, lw);
      case WCas(u, lw) =>
        if stalled.None? {
          stalled, writer := Some(WriterSide), WThunk(u, lw);
        } else {
          writer := WReload(u, lw);
        }
      case WThunk(u, lw) => writer := if closed then WAbort(u) else WCommit(u, lw);
      case WAbort(u) => stalled, writer := None, WDone(u, Some(u));
      case WCommit(u, lw) => writer := WParked(u, lw);
      case WReload(u, lw) => writer := WCheck(u, lw, r);
      case WWake(u) =>
        if stalled.None? {
          writer := WDone(u, None);
        } else {
          var woke := TryUnpark();
          writer := if woke then WDone(u, None) else WYield(u);
        }
      case WYield(u) => writer := WWake(u);
      case WCloseWake =>
        if stalled.None? {
          writer := WClosed;
        } else {
          var woke := TryUnpark();
          writer := if woke then WClosed else WCloseYield;
        }
      case WCloseYield => writer := WCloseWake;
    }

    /** The wake loop of a `close` by a task that is neither end. */
    method OutsiderControl()
      requires Valid() && Enabled(View(), OutsiderStep)
      modifies this`outsider, this`reader, this`stalled, this`writer
      ensures Valid() && View() == OutsiderNext(old(View()))
    {
      OutsiderStepKeepsInv(View());
      if outsider.OWake? {
        if stalled.None? {
          outsider := OIdle;
        } else {
          var woke := TryUnpark();
          outsider := if woke then OIdle else OYield;
        }
      } else {
        outsider := OWake;
      }
    }

    /** One step in the wake loop of `close`, under any interleaving: the call returns only with the slot empty, and
        whoever was parked there has been woken; otherwise nobody but the caller has moved. */
    method CloseRound(who: Actor) returns (done: bool)
      requires Valid() && SlotOwner(View()) && InCloseLoop(View(), who)
      modifies this`outsider, this`reader, this`stalled, this`writer
      ensures Valid() && SlotOwner(View()) && View() == Next(old(View()), StepOf(who))
      ensures done == !InCloseLoop(View(), who)
      ensures done ==> WokeOccupant(old(View()), View(), who)
      ensures !done ==> stalled == old(stalled) && (who != Reader ==> reader == old(reader))
      ensures !done ==> (who != Writer ==> writer == old(writer)) && (who != Outsider ==> outsider == old(outsider))
    {
      SlotOwnerKept(View(), StepOf(who));
      WakeLoopEndsWithEmptySlot(View(), StepOf(who));
      match who
      case Reader =>
        ReaderControl();
        done := reader.RClosed?;
      case Writer =>
        WriterControl();
        done := writer.WClosed?;
      case Outsider =>
        OutsiderControl();
        done := outsider.OIdle?;
    }

    /** The whole of `close` with preemption off: the buffer is closed, the slot empty and its sleeper, if any,
        woken. */
    method CloseStretch(who: Actor)
      requires CoopValid(who) && MayClose(who)
      modifies this
      ensures CoopValid(who) && closed && !InCloseLoop(View(), who)
      ensures WokeOccupant(old(View()), View(), who)
      ensures r == old(r) && w == old(w) && accepted == old(accepted) && delivered == old(delivered)
    {
      CoopStepKeepsInv(Coop(View(), who), CloseAction(who));
      BeginClose(who);
      CoopCloseEnds(View(), who);
      var done := CloseRound(who);
    }

    ghost predicate CoopValid(running: Actor)
      reads this, buffer
    {
      CoopInv(Coop(View(), running))
    }

    /** One uninterrupted stretch of `read` with preemption off, from the call (or from the reload after
        being woken) to its return or to parking.  It takes the oldest value if there is one; otherwise
        it reports a closed buffer or parks. */
    method ReadStretch()
      requires CoopValid(Reader) && (reader.RIdle? || reader.RDone? || reader.RReload?)
      modifies this, buffer
      ensures CoopValid(Reader) && AtSwitch(View(), Reader)
      ensures accepted == old(accepted) && closed == old(closed)
      ensures if |old(delivered)| < |old(accepted)| then
                && reader == RDone(Some(old(accepted)[|old(delivered)|]))
                && delivered == old(delivered) + [old(accepted)[|old(delivered)|]]
              else
                delivered == old(delivered) && if closed then reader == RDone(None) else reader.RParked?
    {
      ghost var s0 := View();
      if !reader.RReload? {
        CoopStepKeepsInv(Coop(View(), Reader), ReadCall);
        BeginRead();
      }
      FinishRead(s0);
    }

    method FinishRead(ghost s0: Ring<T>)
      requires CoopValid(Reader) && ReadSoFar(s0, View())
      modifies this, buffer
      ensures CoopValid(Reader) && ReadSoFar(s0, View()) && (reader.RDone? || reader.RParked?)
    {
      while !(reader.RDone? || reader.RParked?)
        invariant CoopValid(Reader) && ReadSoFar(s0, View())
        decreases ReaderRank(reader)
      {
        ReaderStepInStretch(s0, View());
        if reader.RMove? || reader.RDestroy? || reader.RStore? {
          ReaderTransfer();
        } else {
          ReaderControl();
        }
      }
    }

    /** The same for `write`: a closed buffer hands the value back, unless the writer was already parked and
        there is room now; otherwise the value goes to the back of the queue if there is room, and else the
        writer parks. */
    method WriteStretch(u: T)
      requires CoopValid(Writer) && (writer.WIdle? || writer.WDone? || (writer.WReload? && writer.u == u))
      modifies this, buffer
      ensures CoopValid(Writer) && AtSwitch(View(), Writer)
      ensures delivered == old(delivered) && closed == old(closed)
      ensures if closed && !old(writer.WReload?) then writer == WDone(u, Some(u)) && accepted == old(accepted)
              else if |old(accepted)| < |old(delivered)| + Pow2(exp) then
                writer == WDone(u, None) && accepted == old(accepted) + [u]
              else
                && accepted == old(accepted)
                && if closed then writer == WDone(u, Some(u)) else writer.WParked? && writer.u == u
    {
      ghost var s0 := View();
      if !writer.WReload? {
        CoopStepKeepsInv(Coop(View(), Writer), WriteCall(u));
        BeginWrite(u);
      }
      FinishWrite(u, s0);
    }

    method FinishWrite(u: T, ghost s0: Ring<T>)
      requires CoopValid(Writer) && WriteSoFar(s0, View(), u)
      modifies this, buffer
      ensures CoopValid(Writer) && WriteSoFar(s0, View(), u) && (writer.WDone? || writer.WParked?)
    {
      while !(writer.WDone? || writer.WParked?)
        invariant CoopValid(Writer) && WriteSoFar(s0, View(), u)
        decreases WriterRank(writer)
      {
        WriterStepInStretch(s0, View(), u);
        if writer.WConstruct? || writer.WStore? {
          WriterTransfer();
        } else {
          WriterControl();
        }
      }
    }
  }
}
