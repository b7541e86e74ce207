/** The synchronous channel is a rendezvous: values read are the values written, each once. */
module ChannelWindowProof {
  import opened Options
  import opened ChannelWindow

  // ---------------------------------------------------------------- invariant

  ghost predicate ReaderRests<T>(s: Window<T>) {
    || s.reader.RIdle? || s.reader.RParked? || s.reader.RWoken? || s.reader.RSwapped? || s.reader.RSwapReady?
    || s.reader.RDone? || s.reader.RClosed?
  }

  ghost predicate WriterRests<T>(s: Window<T>) {
    || s.writer.WIdle? || s.writer.WParked? || s.writer.WWoken? || s.writer.WSwapped? || s.writer.WSwapReady?
    || s.writer.WDone? || s.writer.WClosed?
  }

  ghost predicate OthersRest<T>(s: Window<T>) {
    && (s.running != Reader ==> ReaderRests(s))
    && (s.running != Writer ==> WriterRests(s))
    && (s.running != Outsider ==> s.outsider.OIdle?)
  }

  /** No retry loop ever goes round, and no assert has fired. */
  ghost predicate Clean<T>(s: Window<T>) {
    && !s.reader.RSpin? && !s.reader.RYield? && !s.reader.RCloseYield? && !s.reader.RBroken?
    && !s.writer.WSpin? && !s.writer.WYield? && !s.writer.WSwapYield? && !s.writer.WCloseYield? && !s.writer.WBroken?
    && !s.outsider.OYield?
  }

  /** The slot names a task exactly while that task is parking or parked. */
  ghost predicate SlotOwner<T>(s: Window<T>) {
    && (s.slot == Some(ReaderSide) <==> s.reader.RThunk? || s.reader.RParked? || s.reader.RSwapped?)
    && (s.slot == Some(WriterSide) <==> s.writer.WThunk? || s.writer.WParked? || s.writer.WSwapped?)
  }

  ghost predicate CloserActive<T>(s: Window<T>) {
    || s.reader.RCloseNull? || s.reader.RCloseWake?
    || s.writer.WCloseNull? || s.writer.WCloseWake?
    || s.outsider.ONull? || s.outsider.OWake?
  }

  /** After `_closed` is set nobody stays parked, and code past its own test of it runs with the channel open. */
  ghost predicate OpenOrEmpty<T>(s: Window<T>) {
    && (s.closed && s.slot.Some? ==> CloserActive(s))
    && (CloserActive(s) ==> s.closed)
    && (s.reader.RPark? || s.reader.RThunk? || s.reader.RSwap? ==> !s.closed)
    && (s.writer.WPark? || s.writer.WThunk? || s.writer.WTry? ==> !s.closed)
    && (s.writer.WEmplace? || s.writer.WSwap? || s.writer.WWake? ==> !s.closed)
  }

  /** The reader waits for a value: its call is open and `_reader` points into it. */
  ghost predicate Awaiting<T>(s: Window<T>) {
    s.target == Some(s.calls) && s.ret.None?
  }

  /** The writer has just filled the reader's `ret` and is about to wake it. */
  ghost predicate JustFilled<T>(s: Window<T>, v: T) {
    s.target.None? && s.ret == Some(v)
  }

  ghost predicate Pointer<T>(s: Window<T>) {
    && (s.reader.RLoop? || s.reader.RPark? || s.reader.RThunk? || s.reader.RSwap? ==> Awaiting(s))
    && (s.reader.RParked? || s.reader.RSwapped? ==>
        || Awaiting(s)
        || (s.writer.WSwap? && JustFilled(s, s.writer.v))
        || (s.writer.WWake? && JustFilled(s, s.writer.v))
        || (s.closed && s.target.None? && s.ret.None?))
    && (s.reader.RWoken? || s.reader.RWake? || s.reader.RSwapReady? ==> s.target.None? && (s.ret.None? ==> s.closed))
    && (s.reader.RIdle? ==> s.target.None?)
    && (s.reader.RDone? && s.reader.result.Some? ==> s.target.None?)
    && (s.reader == RDone(None) ==> s.closed)
    && (s.reader.RCloseWake? || s.writer.WCloseWake? || s.outsider.OWake? ==> s.target.None?)
    && (s.reader.RSwap? ==> s.slot == Some(WriterSide))
  }

  /** A woken writer of an open channel faces a reader that waits for its value, is about to, or has just
      returned and left `_reader` null. */
  ghost predicate WriterMeetsReader<T>(s: Window<T>) {
    && (s.writer.WWoken? && !s.closed ==>
          || ((s.reader.RParked? || s.reader.RSwapped?) && Awaiting(s))
          || (s.running == Reader && (s.reader.RLoop? || s.reader.RPark? || s.reader.RThunk?))
          || (s.reader.RDone? && s.reader.result.Some?))
    && (s.writer.WEmplace? ==> (s.reader.RParked? || s.reader.RSwapped?) && Awaiting(s))
    && (s.writer.WSwap? || s.writer.WWake? ==>
          (s.reader.RParked? || s.reader.RSwapped?) && JustFilled(s, s.writer.v))
    && (s.writer.WTry? ==> s.slot == Some(ReaderSide))
  }

  ghost predicate Protocol<T>(s: Window<T>) {
    OthersRest(s) && Clean(s) && SlotOwner(s) && OpenOrEmpty(s) && Pointer(s) && WriterMeetsReader(s)
  }

  /** Handed to the reader's call but not yet returned by it. */
  ghost function InHand<T>(s: Window<T>): seq<T> {
    if InRead(s) && s.ret.Some? then [s.ret.value] else []
  }

  ghost predicate InRead<T>(s: Window<T>) {
    || s.reader.RLoop? || s.reader.RPark? || s.reader.RThunk? || s.reader.RParked? || s.reader.RWoken?
    || s.reader.RWake? || s.reader.RSwap? || s.reader.RSwapped? || s.reader.RSwapReady?
  }

  /** Emplaced by the writer's call but not yet acknowledged by it. */
  ghost function Taken<T>(w: WriterPc<T>): Option<T> {
    match w
    case WSwap(v) => Some(v)
    case WSwapped(v) => Some(v)
    case WSwapReady(v) => Some(v)
    case WWake(v) => Some(v)
    case _ => None
  }

  ghost function Unacked<T>(s: Window<T>): seq<T> {
    if Taken(s.writer).Some? then [Taken(s.writer).value] else []
  }

  ghost predicate Ledger<T>(s: Window<T>) {
    && s.sent == s.got + InHand(s)
    && s.sent == s.acked + Unacked(s)
    && (s.reader.RDone? && s.reader.result.Some? ==> |s.got| > 0 && s.got[|s.got| - 1] == s.reader.result.value)
    && (s.writer.WDone? && s.writer.handedBack.Some? ==> s.closed && s.writer.handedBack == Some(s.writer.v))
    && (s.writer.WDone? && s.writer.handedBack.None? ==> |s.acked| > 0 && s.acked[|s.acked| - 1] == s.writer.v)
  }

  ghost predicate Inv<T>(s: Window<T>) {
    Protocol(s) && Ledger(s)
  }

  lemma FreshInv<T>(first: Actor)
    ensures Inv(Fresh<T>(first))
  {}

  // ---------------------------------------------------------------- preservation

  lemma TwoSides(slot: Option<Side>)
    ensures slot.Some? ==> slot == Some(ReaderSide) || slot == Some(WriterSide)
  {
    match slot
    case None =>
    case Some(ReaderSide) =>
    case Some(WriterSide) =>
  }

  lemma TakesOver<T>(s: Window<T>, a: Action<T>)
    requires Protocol(s) && Enabled(s, a, Careful)
    ensures Protocol(s.(running := ActorOf(a)))
  {}

  /** About to wake or resume whoever waits in the slot. */
  ghost predicate Waking<T>(r: ReaderPc<T>) {
    r.RWake? || r.RSwap? || r.RCloseWake?
  }

  lemma WakingReaderKeepsProtocol<T>(s: Window<T>)
    requires Protocol(s) && s.running == Reader && Enabled(s, ReaderStep, Careful) && Waking(s.reader)
    ensures Protocol(ReaderNext(s))
  {
    TwoSides(s.slot);
  }

  lemma ReaderKeepsProtocol<T>(s: Window<T>)
    requires Protocol(s) && s.running == Reader && Enabled(s, ReaderStep, Careful)
    ensures Protocol(ReaderNext(s))
  {
    if Waking(s.reader) {
      WakingReaderKeepsProtocol(s);
    } else {
      TwoSides(s.slot);
    }
  }

  ghost predicate WriterWaking<T>(w: WriterPc<T>) {
    w.WWake? || w.WSwap? || w.WCloseWake?
  }

  lemma WakingWriterKeepsProtocol<T>(s: Window<T>)
    requires Protocol(s) && s.running == Writer && Enabled(s, WriterStep, Careful) && WriterWaking(s.writer)
    ensures Protocol(WriterNext(s))
  {
    TwoSides(s.slot);
  }

  lemma WriterKeepsProtocol<T>(s: Window<T>)
    requires Protocol(s) && s.running == Writer && Enabled(s, WriterStep, Careful)
    ensures Protocol(WriterNext(s))
  {
    if WriterWaking(s.writer) {
      WakingWriterKeepsProtocol(s);
    } else if s.writer.WEmplace? || s.writer.WTry? {
      FillingWriterKeepsProtocol(s);
    } else if s.writer.WLoop? || s.writer.WPark? || s.writer.WThunk? {
      EnteringWriterKeepsProtocol(s);
    } else {
      LeavingWriterKeepsProtocol(s);
    }
  }

  lemma EnteringWriterKeepsProtocol<T>(s: Window<T>)
    requires Protocol(s) && s.running == Writer && Enabled(s, WriterStep, Careful)
    requires s.writer.WLoop? || s.writer.WPark? || s.writer.WThunk?
    ensures Protocol(WriterNext(s))
  {
    TwoSides(s.slot);
  }

  lemma LeavingWriterKeepsProtocol<T>(s: Window<T>)
    requires Protocol(s) && s.running == Writer && Enabled(s, WriterStep, Careful)
    requires !WriterWaking(s.writer) && !s.writer.WEmplace? && !s.writer.WTry?
    requires !s.writer.WLoop? && !s.writer.WPark? && !s.writer.WThunk?
    ensures Protocol(WriterNext(s))
  {
    TwoSides(s.slot);
  }

  lemma FillingWriterKeepsProtocol<T>(s: Window<T>)
    requires Protocol(s) && s.running == Writer && Enabled(s, WriterStep, Careful)
    requires s.writer.WEmplace? || s.writer.WTry?
    ensures Protocol(WriterNext(s))
  {
    TwoSides(s.slot);
  }

  lemma OutsiderKeepsProtocol<T>(s: Window<T>)
    requires Protocol(s) && s.running == Outsider && Enabled(s, OutsiderStep, Careful)
    ensures Protocol(OutsiderNext(s))
  {
    TwoSides(s.slot);
  }

  lemma CallKeepsProtocol<T>(s: Window<T>, a: Action<T>)
    requires Protocol(s) && s.running == ActorOf(a) && Enabled(s, a, Careful)
    requires !a.ReaderStep? && !a.WriterStep? && !a.OutsiderStep?
    ensures Protocol(Next(s, a))
  {}

  lemma TakingOverKeepsLedger<T>(s: Window<T>, who: Actor)
    requires Ledger(s)
    ensures Ledger(s.(running := who))
  {}

  lemma FinishKeepsLedger<T>(s: Window<T>)
    requires Ledger(s) && InRead(s)
    ensures Ledger(FinishRead(s))
  {
    assert s.sent == s.got + InHand(s) == FinishRead(s).got + [];
  }

  lemma UnparkKeepsLedger<T>(s: Window<T>)
    requires Ledger(s) && SlotWaiting(s)
    ensures Ledger(Unpark(s)) && InHand(Unpark(s)) == InHand(s) && Unacked(Unpark(s)) == Unacked(s)
  {}

  lemma QuietReaderKeepsLedger<T>(s: Window<T>)
    requires Protocol(s) && Ledger(s) && s.running == Reader && Enabled(s, ReaderStep, Careful)
    requires !s.reader.RLoop? && !s.reader.RSwapReady? && !s.reader.RWake?
    ensures Ledger(ReaderNext(s))
  {
    TwoSides(s.slot);
    var s' := ReaderNext(s);
    assert s'.sent == s.sent && s'.got == s.got && s'.acked == s.acked;
    assert InHand(s') == InHand(s) && Unacked(s') == Unacked(s);
  }

  lemma ReaderKeepsLedger<T>(s: Window<T>)
    requires Protocol(s) && Ledger(s) && s.running == Reader && Enabled(s, ReaderStep, Careful)
    ensures Ledger(ReaderNext(s))
  {
    match s.reader
    case RLoop => if s.closed { FinishKeepsLedger(s); }
    case RSwapReady => FinishKeepsLedger(s);
    case RWake =>
      TwoSides(s.slot);
      if s.slot.None? {
        FinishKeepsLedger(s);
      } else {
        UnparkKeepsLedger(s);
        FinishKeepsLedger(Unpark(s));
      }
    case _ => QuietReaderKeepsLedger(s);
  }

  lemma AckKeepsLedger<T>(s: Window<T>, v: T)
    requires Ledger(s) && Taken(s.writer) == Some(v)
    ensures Ledger(Accepted(s, v))
  {
    assert Accepted(s, v).acked + [] == s.acked + [v];
  }

  lemma EmplaceKeepsLedger<T>(s: Window<T>, v: T, then_: WriterPc<T>)
    requires Ledger(s) && InRead(s) && Awaiting(s) && Taken(s.writer).None? && (then_.WSwap? || then_.WWake?)
    requires then_.v == v
    ensures Ledger(Emplace(s, v, then_))
  {
    assert s.got + [] == s.got && s.acked + [] == s.acked;
  }

  lemma QuietWriterKeepsLedger<T>(s: Window<T>)
    requires Protocol(s) && Ledger(s) && s.running == Writer && Enabled(s, WriterStep, Careful)
    requires !s.writer.WSwapReady? && !s.writer.WWake? && !s.writer.WEmplace? && !s.writer.WTry?
    ensures Ledger(WriterNext(s))
  {
    TwoSides(s.slot);
    var s' := WriterNext(s);
    assert s'.sent == s.sent && s'.got == s.got && s'.acked == s.acked;
    assert InHand(s') == InHand(s) && Unacked(s') == Unacked(s);
  }

  lemma WriterKeepsLedger<T>(s: Window<T>)
    requires Protocol(s) && Ledger(s) && s.running == Writer && Enabled(s, WriterStep, Careful)
    ensures Ledger(WriterNext(s))
  {
    TwoSides(s.slot);
    match s.writer
    case WSwapReady(v) => AckKeepsLedger(s, v);
    case WWake(v) =>
      if s.slot.None? {
        AckKeepsLedger(s, v);
      } else {
        UnparkKeepsLedger(s);
        AckKeepsLedger(Unpark(s), v);
      }
    case WEmplace(v) => EmplaceKeepsLedger(s, v, WSwap(v));
    case WTry(v) => EmplaceKeepsLedger(s, v, WWake(v));
    case _ => QuietWriterKeepsLedger(s);
  }

  lemma OutsiderKeepsLedger<T>(s: Window<T>)
    requires Protocol(s) && Ledger(s) && s.running == Outsider && Enabled(s, OutsiderStep, Careful)
    ensures Ledger(OutsiderNext(s))
  {
    TwoSides(s.slot);
  }

  lemma CallKeepsLedger<T>(s: Window<T>, a: Action<T>)
    requires Protocol(s) && Ledger(s) && s.running == ActorOf(a) && Enabled(s, a, Careful)
    requires !a.ReaderStep? && !a.WriterStep? && !a.OutsiderStep?
    ensures Ledger(Next(s, a))
  {}

  lemma StepKeepsInv<T>(s: Window<T>, a: Action<T>)
    requires Inv(s) && Enabled(s, a, Careful)
    ensures Inv(Next(s, a))
  {
    TakesOver(s, a);
    TakingOverKeepsLedger(s, ActorOf(a));
    var c := s.(running := ActorOf(a));
    match a
    case ReaderStep => ReaderKeepsProtocol(c); ReaderKeepsLedger(c);
    case WriterStep => WriterKeepsProtocol(c); WriterKeepsLedger(c);
    case OutsiderStep => OutsiderKeepsProtocol(c); OutsiderKeepsLedger(c);
    case _ =>
      CallKeepsProtocol(c, a);
      CallKeepsLedger(c, a);
  }

  // ---------------------------------------------------------------- refinement of a rendezvous

  /** The specification: a write offers a value, a read asks for one, and a transfer moves the
      value across in one step.  `taken` and `handed` are the two ends of a transfer that have
      not returned yet. */
  datatype Rendezvous<T> = Rendezvous(
    offered: Option<T>,
    taken: Option<T>,
    asking: bool,
    handed: Option<T>,
    closed: bool)

  datatype Event<T> =
    | BeginWrite(v: T)
    | EndWrite
    | Reject
    | BeginRead
    | EndRead
    | EndReadEmpty
    | Transfer
    | Shut
    | Nothing

  predicate Allows<T>(r: Rendezvous<T>, e: Event<T>) {
    match e
    case BeginWrite(_) => r.offered.None? && r.taken.None?
    case EndWrite => r.taken.Some?
    case Reject => r.offered.Some? && r.closed
    case BeginRead => !r.asking && r.handed.None?
    case EndRead => r.handed.Some?
    case EndReadEmpty => r.asking && r.closed
    case Transfer => r.offered.Some? && r.asking && !r.closed && r.handed.None? && r.taken.None?
    case Shut => true
    case Nothing => true
  }

  function After<T>(r: Rendezvous<T>, e: Event<T>): Rendezvous<T>
    requires Allows(r, e)
  {
    match e
    case BeginWrite(v) => r.(offered := Some(v))
    case EndWrite => r.(taken := None)
    case Reject => r.(offered := None)
    case BeginRead => r.(asking := true)
    case EndRead => r.(handed := None)
    case EndReadEmpty => r.(asking := false)
    case Transfer => r.(offered := None, taken := r.offered, asking := false, handed := r.offered)
    case Shut => r.(closed := true)
    case Nothing => r
  }

  ghost function Offered<T>(w: WriterPc<T>): Option<T> {
    match w
    case WLoop(v) => Some(v)
    case WPark(v) => Some(v)
    case WThunk(v) => Some(v)
    case WParked(v) => Some(v)
    case WWoken(v) => Some(v)
    case WEmplace(v) => Some(v)
    case WTry(v) => Some(v)
    case _ => None
  }

  ghost function Abstract<T>(s: Window<T>): Rendezvous<T> {
    Rendezvous(
      Offered(s.writer), Taken(s.writer),
      InRead(s) && s.ret.None?, if InRead(s) then s.ret else None,
      s.closed)
  }

  ghost function EventOf<T>(s: Window<T>, a: Action<T>): Event<T>
    requires Enabled(s, a, Careful)
  {
    match a
    case WriteCall(v) => BeginWrite(v)
    case ReadCall => BeginRead
    case ReaderClose | WriterClose | OutsiderClose => Shut
    case OutsiderStep => Nothing
    case ReaderStep =>
      if ReaderNext(s.(running := Reader)).reader.RDone? then (if s.ret.Some? then EndRead else EndReadEmpty)
      else Nothing
    case WriterStep =>
      var w := WriterNext(s.(running := Writer)).writer;
      if w.WDone? then (if w.handedBack.Some? then Reject else EndWrite)
      else if s.writer.WEmplace? || s.writer.WTry? then Transfer
      else Nothing
  }

  /** What a call that ends with `e` returns is what the rendezvous holds for it. */
  ghost predicate Returns<T>(r: Rendezvous<T>, e: Event<T>, s': Window<T>) {
    match e
    case EndRead => s'.reader == RDone(r.handed) && r.handed.Some?
    case EndReadEmpty => s'.reader == RDone(None)
    case EndWrite => r.taken.Some? && s'.writer == WDone(r.taken.value, None)
    case Reject => r.offered.Some? && s'.writer == WDone(r.offered.value, r.offered)
    case _ => true
  }

  lemma ReaderStepRefines<T>(s: Window<T>)
    requires Inv(s) && s.running == Reader && Enabled(s, ReaderStep, Careful)
    ensures Allows(Abstract(s), EventOf(s, ReaderStep))
    ensures Abstract(Next(s, ReaderStep)) == After(Abstract(s), EventOf(s, ReaderStep))
    ensures Returns(Abstract(s), EventOf(s, ReaderStep), Next(s, ReaderStep))
  {
    TwoSides(s.slot);
  }

  lemma WriterStepRefines<T>(s: Window<T>)
    requires Inv(s) && s.running == Writer && Enabled(s, WriterStep, Careful)
    ensures Allows(Abstract(s), EventOf(s, WriterStep))
    ensures Abstract(Next(s, WriterStep)) == After(Abstract(s), EventOf(s, WriterStep))
    ensures Returns(Abstract(s), EventOf(s, WriterStep), Next(s, WriterStep))
  {
    TwoSides(s.slot);
  }

  lemma OtherStepRefines<T>(s: Window<T>, a: Action<T>)
    requires Inv(s) && s.running == ActorOf(a) && Enabled(s, a, Careful) && !a.ReaderStep? && !a.WriterStep?
    ensures Allows(Abstract(s), EventOf(s, a))
    ensures Abstract(Next(s, a)) == After(Abstract(s), EventOf(s, a))
    ensures Returns(Abstract(s), EventOf(s, a), Next(s, a))
  {
    TwoSides(s.slot);
  }

  /** Main result: each step of a ruled run is one rendezvous event or none, and the read and
      write that end return exactly what the rendezvous says. */
  lemma StepRefinesRendezvous<T>(s: Window<T>, a: Action<T>)
    requires Inv(s) && Enabled(s, a, Careful)
    ensures Allows(Abstract(s), EventOf(s, a))
    ensures Abstract(Next(s, a)) == After(Abstract(s), EventOf(s, a))
    ensures Returns(Abstract(s), EventOf(s, a), Next(s, a))
  {
    TakesOver(s, a);
    TakingOverKeepsLedger(s, ActorOf(a));
    var c := s.(running := ActorOf(a));
    assert Next(c, a) == Next(s, a) && Abstract(c) == Abstract(s) && EventOf(c, a) == EventOf(s, a);
    match a
    case ReaderStep => ReaderStepRefines(c);
    case WriterStep => WriterStepRefines(c);
    case _ => OtherStepRefines(c, a);
  }

  /** The events of a run, and what they make of a rendezvous. */
  ghost function Events<T>(s: Window<T>, acts: seq<Action<T>>): seq<Event<T>>
    requires Legal(s, acts, Careful)
    decreases |acts|
  {
    if acts == [] then [] else [EventOf(s, acts[0])] + Events(Next(s, acts[0]), acts[1..])
  }

  ghost predicate Meets<T>(r: Rendezvous<T>, events: seq<Event<T>>, r': Rendezvous<T>)
    decreases |events|
  {
    if events == [] then r' == r else Allows(r, events[0]) && Meets(After(r, events[0]), events[1..], r')
  }

  lemma {:induction false} RunRefinesRendezvous<T>(s: Window<T>, acts: seq<Action<T>>)
    requires Inv(s) && Legal(s, acts, Careful)
    ensures Meets(Abstract(s), Events(s, acts), Abstract(Exec(s, acts, Careful)))
    decreases |acts|
  {
    if acts == [] {
    } else {
      StepRefinesRendezvous(s, acts[0]);
      StepKeepsInv(s, acts[0]);
      RunRefinesRendezvous(Next(s, acts[0]), acts[1..]);
      assert Events(s, acts)[1..] == Events(Next(s, acts[0]), acts[1..]);
    }
  }

  // ---------------------------------------------------------------- main results

  /** Under the straight rule a reader that has just woken the writer still has the processor. */
  ghost predicate StraightOk<T>(s: Window<T>) {
    s.writer.WWoken? && !s.closed && s.reader.RDone? && s.reader.result.Some? ==> s.running == Reader
  }

  /** Going straight on is one way of being careful. */
  lemma StraightIsCareful<T>(s: Window<T>, a: Action<T>)
    requires Inv(s) && StraightOk(s) && Enabled(s, a, Straight)
    ensures Enabled(s, a, Careful)
  {}

  lemma StraightStaysOk<T>(s: Window<T>, a: Action<T>)
    requires Inv(s) && StraightOk(s) && Enabled(s, a, Straight)
    ensures StraightOk(Next(s, a))
  {
    TwoSides(s.slot);
  }

  lemma {:induction false} RuledRunKeepsInv<T>(s: Window<T>, acts: seq<Action<T>>, rule: Rule)
    requires Inv(s) && !rule.Unruled? && Legal(s, acts, rule) && (rule.Straight? ==> StraightOk(s))
    ensures Inv(Exec(s, acts, rule))
    decreases |acts|
  {
    if acts == [] {
    } else {
      if rule.Straight? {
        StraightIsCareful(s, acts[0]);
        StraightStaysOk(s, acts[0]);
      }
      StepKeepsInv(s, acts[0]);
      RuledRunKeepsInv(Next(s, acts[0]), acts[1..], rule);
    }
  }

  /** For every ruled run: the values returned by `read`, plus at most the one already in the
      reader's hands, are the values emplaced; so are the values acknowledged to the writer, plus
      at most its current one; between calls the two histories are equal; a rejected `write` hands
      back its own value and only on a closed channel; an empty `read` happens only on a closed one. */
  lemma ChannelIsRendezvous<T>(first: Actor, acts: seq<Action<T>>, rule: Rule)
    requires !rule.Unruled? && Legal(Fresh<T>(first), acts, rule)
    ensures
      var s := Exec(Fresh<T>(first), acts, rule);
      && s.sent == s.got + InHand(s) == s.acked + Unacked(s)
      && |InHand(s)| <= 1 && |Unacked(s)| <= 1
      && (!InRead(s) && Taken(s.writer).None? ==> s.got == s.acked)
      && (s.writer.WDone? && s.writer.handedBack.Some? ==> s.closed && s.writer.handedBack == Some(s.writer.v))
      && (s.reader.RDone? && s.reader.result.None? ==> s.closed)
      && (s.reader.RDone? && s.reader.result.Some? ==> |s.got| > 0 && s.got[|s.got| - 1] == s.reader.result.value)
  {
    FreshInv<T>(first);
    RuledRunKeepsInv(Fresh<T>(first), acts, rule);
    var s := Exec(Fresh<T>(first), acts, rule);
    assert s.got + [] == s.got && s.acked + [] == s.acked;
  }

  /** The running task is in no call, or asleep in one, so the others may run. */
  predicate Outside<T>(s: Window<T>) {
    match s.running
    case Reader => s.reader.RIdle? || s.reader.RDone? || s.reader.RParked? || s.reader.RSwapped? || s.reader.RClosed?
    case Writer => s.writer.WIdle? || s.writer.WDone? || s.writer.WParked? || s.writer.WSwapped? || s.writer.WClosed?
    case Outsider => s.outsider.OIdle?
  }

  /** In a wake-up loop, about to look at the slot. */
  ghost predicate SomebodyWakes<T>(s: Window<T>) {
    s.reader.RWake? || s.reader.RCloseWake? || s.writer.WWake? || s.writer.WCloseWake? || s.outsider.OWake?
  }

  /** The asserts on `_reader` hold in every ruled run, the value is always written into a call that is still open,
      and no retry loop is ever taken: whoever is in the slot when it is looked at or swapped with is asleep, and no
      check of `park_if` fails. */
  lemma ReaderAssertsHold<T>(first: Actor, acts: seq<Action<T>>, rule: Rule)
    requires !rule.Unruled? && Legal(Fresh<T>(first), acts, rule)
    ensures
      var s := Exec(Fresh<T>(first), acts, rule);
      && Clean(s)
      && (Enabled(s, ReadCall, rule) ==> s.target.None?)
      && (s.reader.RWoken? ==> s.target.None?)
      && (s.writer.WEmplace? ==> s.target == Some(s.calls) && InRead(s))
      && (s.writer.WTry? ==> s.target == Some(s.calls) && InRead(s))
      && (s.writer.WSwap? || s.reader.RSwap? ==> SlotWaiting(s))
      && (s.reader.RThunk? || s.writer.WThunk? ==> !s.closed)
      && (s.slot.Some? && SomebodyWakes(s) ==> SlotWaiting(s))
      && (Outside(s) ==> AtSwitch(s))
  {
    FreshInv<T>(first);
    RuledRunKeepsInv(Fresh<T>(first), acts, rule);
  }

  /** Who changes `_reader`: a `read` that begins sets it; a value put into it, a `close`, and a writer that finds the
      channel closed when it is woken make it null; nothing else touches it. */
  lemma WhoChangesReader<T>(s: Window<T>, a: Action<T>)
    requires Inv(s) && Enabled(s, a, Careful)
    ensures
      var s' := Next(s, a);
      s'.target ==
        if a.ReadCall? then Some(s'.calls)
        else if |s'.sent| > |s.sent| || AtCloseNull(s, a) || (a.WriterStep? && s.writer.WWoken? && s.closed) then None
        else s.target
  {
    TwoSides(s.slot);
    if a.WriterStep? { WriterChangesReader(s); }
  }

  lemma WriterChangesReader<T>(s: Window<T>)
    requires Inv(s) && Enabled(s, WriterStep, Careful)
    ensures
      var s' := Next(s, WriterStep);
      s'.target ==
        if |s'.sent| > |s.sent| || s.writer.WCloseNull? || (s.writer.WWoken? && s.closed) then None else s.target
  {
    TwoSides(s.slot);
  }

  ghost predicate AtCloseNull<T>(s: Window<T>, a: Action<T>) {
    || (a.ReaderStep? && s.reader.RCloseNull?) || (a.WriterStep? && s.writer.WCloseNull?)
    || (a.OutsiderStep? && s.outsider.ONull?)
  }

  // ---------------------------------------------------------------- the careful rule is exact

  /** An assert has failed, or the running writer is past every other test and the next thing it does is fail one. */
  ghost predicate Tripped<T>(s: Window<T>) {
    s.reader.RBroken? || s.writer.WBroken? || (s.writer.WEmplace? && s.target.None?)
  }

  /** A writer at that point can only go on into the assert. */
  lemma TrippedWriterFails<T>(s: Window<T>, a: Action<T>)
    requires s.running == Writer && s.writer.WEmplace? && s.target.None? && Free(s, a)
    ensures a.WriterStep? && Next(s, a).writer.WBroken?
  {}

  lemma InvIsNotTripped<T>(s: Window<T>)
    requires Inv(s)
    ensures !Tripped(s)
  {}

  lemma UnguardedTrips<T>(s: Window<T>, a: Action<T>)
    requires Inv(s) && Free(s, a) && !Guarded(s, a)
    ensures
      var s' := Next(s, a);
      && Tripped(s')
      && (s'.reader.RBroken? || s'.writer.WBroken? || forall b :: Free(s', b) ==> Next(s', b).writer.WBroken?)
  {
    var s' := Next(s, a);
    if a.WriterStep? {
      forall b | Free(s', b) ensures Next(s', b).writer.WBroken? { TrippedWriterFails(s', b); }
    }
  }

  /** One step: an assert is broken, or certain to break with the next step, if and only if the guard is not kept. */
  lemma StepTripsExactly<T>(s: Window<T>, a: Action<T>)
    requires Inv(s) && Free(s, a)
    ensures Tripped(Next(s, a)) <==> !Guarded(s, a)
    ensures Guarded(s, a) ==> Inv(Next(s, a))
    ensures
      var s' := Next(s, a);
      !Guarded(s, a) ==>
        s'.reader.RBroken? || s'.writer.WBroken? || forall b :: Free(s', b) ==> Next(s', b).writer.WBroken?
  {
    if Guarded(s, a) {
      StepKeepsInv(s, a);
      InvIsNotTripped(Next(s, a));
    } else {
      UnguardedTrips(s, a);
    }
  }

  ghost predicate NeverTrips<T>(s: Window<T>, acts: seq<Action<T>>)
    requires Legal(s, acts, Unruled)
    decreases |acts|
  {
    !Tripped(s) && (acts == [] || NeverTrips(Next(s, acts[0]), acts[1..]))
  }

  predicate GuardedThroughout<T>(s: Window<T>, acts: seq<Action<T>>)
    requires Legal(s, acts, Unruled)
    decreases |acts|
  {
    acts == [] || (Guarded(s, acts[0]) && GuardedThroughout(Next(s, acts[0]), acts[1..]))
  }

  lemma {:induction false} RunTripsExactly<T>(s: Window<T>, acts: seq<Action<T>>)
    requires Inv(s) && Legal(s, acts, Unruled)
    ensures NeverTrips(s, acts) <==> GuardedThroughout(s, acts)
    decreases |acts|
  {
    InvIsNotTripped(s);
    if acts == [] {
    } else {
      StepTripsExactly(s, acts[0]);
      if Guarded(s, acts[0]) {
        RunTripsExactly(Next(s, acts[0]), acts[1..]);
      }
    }
  }

  /** Main result: whatever reader, writer and closers do, the asserts on `_reader` hold throughout a run if and only if
      no woken writer of an open channel ever runs while `_reader` is null and no `read` ever begins while
      it is not. */
  lemma ChannelTripsExactly<T>(first: Actor, acts: seq<Action<T>>)
    requires Legal(Fresh<T>(first), acts, Unruled)
    ensures NeverTrips(Fresh<T>(first), acts) <==> GuardedThroughout(Fresh<T>(first), acts)
  {
    FreshInv<T>(first);
    RunTripsExactly(Fresh<T>(first), acts);
  }

  // ---------------------------------------------------------------- why the rule is needed

  lemma {:induction false} Extend<T>(s: Window<T>, acts: seq<Action<T>>, a: Action<T>)
    requires Legal(s, acts, Unruled) && Enabled(Exec(s, acts, Unruled), a, Unruled)
    ensures Legal(s, acts + [a], Unruled)
    ensures Exec(s, acts + [a], Unruled) == Next(Exec(s, acts, Unruled), a)
    decreases |acts|
  {
    if acts == [] {
      assert [a][1..] == [];
    } else {
      Extend(Next(s, acts[0]), acts[1..], a);
      assert (acts + [a])[1..] == acts[1..] + [a];
    }
  }

  ghost predicate Reachable(s: Window<int>) {
    exists first: Actor, acts: seq<Action<int>> ::
      Legal(Fresh<int>(first), acts, Unruled) && Exec(Fresh<int>(first), acts, Unruled) == s
  }

  lemma Advance(s: Window<int>, a: Action<int>)
    requires Reachable(s) && Enabled(s, a, Unruled)
    ensures Reachable(Next(s, a))
  {
    var first: Actor, acts: seq<Action<int>> :|
      Legal(Fresh<int>(first), acts, Unruled) && Exec(Fresh<int>(first), acts, Unruled) == s;
    Extend(Fresh<int>(first), acts, a);
  }

  /** The reader is parked in its first `read`. */
  function FirstReadParked(): Window<int> {
    Window(Some(ReaderSide), Some(1), false, 1, None, RParked, WIdle, OIdle, Reader, [], [], [])
  }

  lemma FirstReadBegun()
    ensures Reachable(FirstReadParked().(slot := None, reader := RPark))
  {
    var f := Fresh<int>(Reader);
    assert Legal(f, [], Unruled) && Exec(f, [], Unruled) == f;
    Advance(f, ReadCall);
    Advance(FirstReadParked().(slot := None, reader := RLoop), ReaderStep);
  }

  lemma FirstReadParkedReachable()
    ensures Reachable(FirstReadParked())
  {
    FirstReadBegun();
    var s := FirstReadParked();
    Advance(s.(slot := None, reader := RPark), ReaderStep);
    Advance(s.(reader := RThunk), ReaderStep);
  }

  /** The writer has delivered 1, and is parked with 2; the reader can return from its park. */
  function SecondWriteParked(): Window<int> {
    Window(Some(WriterSide), None, false, 1, Some(1), RWoken, WParked(2), OIdle, Writer, [1], [], [1])
  }

  /** The writer has returned from delivering 1. */
  function FirstDelivered(): Window<int> {
    SecondWriteParked().(slot := None, writer := WDone(1, None))
  }

  lemma FirstWriteBegun()
    ensures Reachable(FirstReadParked().(running := Writer, writer := WPark(1)))
  {
    FirstReadParkedReachable();
    var s := FirstReadParked();
    Advance(s, WriteCall(1));
    Advance(s.(running := Writer, writer := WLoop(1)), WriterStep);
  }

  lemma FirstEmplaced() returns (d: Window<int>)
    ensures Reachable(d)
    ensures d == FirstReadParked().(running := Writer, target := None, ret := Some(1), sent := [1], writer := WWake(1))
  {
    FirstWriteBegun();
    var s := FirstReadParked();
    Advance(s.(running := Writer, writer := WPark(1)), WriterStep);
    Advance(s.(running := Writer, writer := WTry(1)), WriterStep);
    d := s.(running := Writer, target := None, ret := Some(1), sent := [1], writer := WWake(1));
  }

  lemma FirstDeliveredReachable()
    ensures Reachable(FirstDelivered())
  {
    var d := FirstEmplaced();
    Advance(d, WriterStep);
  }

  lemma SecondWriteBegun()
    ensures Reachable(SecondWriteParked().(slot := None, writer := WPark(2)))
  {
    FirstDeliveredReachable();
    Advance(FirstDelivered(), WriteCall(2));
    Advance(SecondWriteParked().(slot := None, writer := WLoop(2)), WriterStep);
  }

  lemma SecondWriteParkedReachable()
    ensures Reachable(SecondWriteParked())
  {
    SecondWriteBegun();
    var e := SecondWriteParked();
    Advance(e.(slot := None, writer := WPark(2)), WriterStep);
    Advance(e.(writer := WThunk(2)), WriterStep);
  }

  /** The reader has returned 1 and made the writer runnable. */
  function FirstReadReturned(): Window<int> {
    SecondWriteParked().(running := Reader, slot := None, reader := RDone(Some(1)), got := [1], writer := WWoken(2))
  }

  lemma FirstReadReturnedReachable()
    ensures Reachable(FirstReadReturned())
  {
    SecondWriteParkedReachable();
    var s := SecondWriteParked();
    Advance(s, ReaderStep);
    Advance(s.(running := Reader, reader := RWake), ReaderStep);
  }

  /** A reader that yields between two reads: it unparks the writer on its way out of the first
      `read`, the writer runs before the second `read` begins and finds `_reader` null. */
  lemma PausingReaderTripsAssert()
    ensures exists s: Window<int> :: Reachable(s) && s.writer.WBroken? && s.reader == RDone(Some(1)) && !s.closed
  {
    FirstReadReturnedReachable();
    var p := FirstReadReturned();
    Advance(p, WriterStep);
    Advance(p.(running := Writer, writer := WEmplace(2)), WriterStep);
  }

  lemma ClosedEarlyReachable()
    ensures Reachable(Fresh<int>(Outsider).(closed := true))
  {
    var f := Fresh<int>(Outsider);
    assert Legal(f, [], Unruled) && Exec(f, [], Unruled) == f;
    Advance(f, OutsiderClose);
    var c := f.(closed := true);
    Advance(c.(outsider := ONull), OutsiderStep);
    Advance(c.(outsider := OWake), OutsiderStep);
  }

  /** A second `read` after one that began on a closed channel finds the stale `_reader`. */
  lemma ReadingOnTripsAssert()
    ensures exists s: Window<int> :: Reachable(s) && s.reader.RBroken? && s.closed
  {
    ClosedEarlyReachable();
    var c := Fresh<int>(Outsider).(closed := true);
    Advance(c, ReadCall);
    var r := c.(running := Reader, calls := 1, target := Some(1));
    Advance(r.(reader := RLoop), ReaderStep);
    Advance(r.(reader := RDone(None)), ReadCall);
  }
}
