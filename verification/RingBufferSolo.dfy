/** A task that runs alone gets through: from every state of every interleaving, a reader of a non-empty buffer and a
    writer of one with room need only a few steps of their own, whatever stale values they hold, and so does
    everybody in a wake-up loop whose sleeper is asleep. */
module RingBufferSolo {
  import opened Words
  import opened Options
  import opened RingBuffer
  import opened RingBufferFifo
  import opened RingBufferCoop
  import opened RingBufferExact
  import opened RingBufferClose

  /** `n` steps of one task. */
  ghost function Alone<T>(a: Action<T>, n: nat): (acts: seq<Action<T>>)
    ensures |acts| == n && forall i :: 0 <= i < n ==> acts[i] == a
  {
    seq(n, _ => a)
  }

  lemma OneMore<T>(s: Ring<T>, a: Action<T>, n: nat)
    requires s.Shape() && Enabled(s, a) && Legal(Next(s, a), Alone(a, n))
    ensures Legal(s, Alone(a, n + 1)) && Exec(s, Alone(a, n + 1)) == Exec(Next(s, a), Alone(a, n))
  {
    assert Alone(a, n + 1)[1..] == Alone(a, n);
  }

  lemma NoSteps<T>(s: Ring<T>, a: Action<T>)
    requires s.Shape()
    ensures Legal(s, Alone(a, 0)) && Exec(s, Alone(a, 0)) == s
  {
    assert Alone(a, 0) == [];
  }

  // ---------------------------------------------------------------- read

  /** In `read`, not in the slot and not done with the value. */
  predicate Reading<T>(pc: ReaderPc<T>) {
    || pc.RLoadR? || pc.RLoadW? || pc.RCheck? || pc.RCas? || pc.RReload? || pc.RMove? || pc.RDestroy? || pc.RStore?
  }

  /** Own steps still needed, given that there is a value. */
  function StepsToRead<T>(pc: ReaderPc<T>): nat {
    match pc
    case RLoadR => 6
    case RLoadW(_) => 5
    case RCheck(lr, lw) => if Sub(lw, lr) == 0 then 7 else 4
    case RCas(_) => 6
    case RReload(_) => 5
    case RMove(_) => 3
    case RDestroy(_, _) => 2
    case RStore(_, _) => 1
    case _ => 0
  }

  /** The value has been taken, or the reader has got into the slot. */
  ghost predicate ReadThrough<T>(s: Ring<T>, s': Ring<T>) {
    || (s'.reader.RThunk? && s'.delivered == s.delivered)
    || (|s.delivered| < |s.accepted| && s'.reader == RWake(s.accepted[|s.delivered|])
        && s'.delivered == s.delivered + [s.accepted[|s.delivered|]])
  }

  lemma ReaderAdvances<T>(s: Ring<T>)
    requires Inv(s) && Reading(s.reader) && !Empty(s)
    ensures Enabled(s, ReaderStep)
    ensures
      var s' := ReaderNext(s);
      || ReadThrough(s, s')
      || (Inv(s') && Reading(s'.reader) && StepsToRead(s'.reader) < StepsToRead(s.reader)
          && s'.delivered == s.delivered && s'.accepted == s.accepted)
  {
    Occupancy(s);
    StepKeepsInv(s, ReaderStep);
    if s.reader.RMove? { ReaderMoveKeepsInv(s); }
  }

  lemma {:induction false} ReaderNeeds<T>(s: Ring<T>) returns (n: nat)
    requires Inv(s) && Reading(s.reader) && !Empty(s)
    ensures n <= StepsToRead(s.reader) && Legal(s, Alone(ReaderStep, n))
    ensures ReadThrough(s, Exec(s, Alone(ReaderStep, n)))
    decreases StepsToRead(s.reader)
  {
    ReaderAdvances(s);
    var s' := Next(s, ReaderStep);
    var m := 0;
    if ReadThrough(s, s') {
      NoSteps(s', ReaderStep);
    } else {
      m := ReaderNeeds(s');
    }
    OneMore(s, ReaderStep, m);
    n := m + 1;
  }

  /** Main result for `read`: after every interleaving, a reader that is inside `read` and not in the slot takes the
      oldest value, if there is one, or gets into the slot, within seven steps of its own. */
  lemma ReaderAloneGetsThrough<T>(exp: nat, acts: seq<Action<T>>) returns (n: nat)
    requires exp <= 63 && Legal(Fresh<T>(exp), acts)
    requires var s := Exec(Fresh<T>(exp), acts); Reading(s.reader) && !Empty(s)
    ensures
      var s := Exec(Fresh<T>(exp), acts);
      n <= 7 && Legal(s, Alone(ReaderStep, n)) && ReadThrough(s, Exec(s, Alone(ReaderStep, n)))
  {
    FreshInv<T>(exp);
    RunRefinesFifo(Fresh<T>(exp), acts);
    n := ReaderNeeds(Exec(Fresh<T>(exp), acts));
  }

  // ---------------------------------------------------------------- write

  /** In `write` past its test of `_closed`, not in the slot and not done with the value. */
  predicate Writing<T>(pc: WriterPc<T>) {
    || pc.WLoadW? || pc.WLoadR? || pc.WCheck? || pc.WCas? || pc.WReload? || pc.WConstruct? || pc.WStore?
  }

  function StepsToWrite<T>(pc: WriterPc<T>, size: nat): nat {
    match pc
    case WLoadW(_) => 5
    case WLoadR(_, _) => 4
    case WCheck(_, lw, lr) => if Sub(lw, lr) == size then 6 else 3
    case WCas(_, _) => 5
    case WReload(_, _) => 4
    case WConstruct(_, _) => 2
    case WStore(_, _) => 1
    case _ => 0
  }

  ghost predicate WriteThrough<T>(s: Ring<T>, s': Ring<T>)
    requires Writing(s.writer)
  {
    || (s'.writer.WThunk? && s'.accepted == s.accepted)
    || (s'.writer == WWake(s.writer.u) && s'.accepted == s.accepted + [s.writer.u])
  }

  lemma WriterAdvances<T>(s: Ring<T>)
    requires Inv(s) && Writing(s.writer) && !Full(s)
    ensures Enabled(s, WriterStep)
    ensures
      var s' := WriterNext(s);
      || WriteThrough(s, s')
      || (Inv(s') && Writing(s'.writer) && s'.writer.u == s.writer.u && s'.exp == s.exp
          && StepsToWrite(s'.writer, s'.Size()) < StepsToWrite(s.writer, s.Size())
          && s'.delivered == s.delivered && s'.accepted == s.accepted)
  {
    Occupancy(s);
    StepKeepsInv(s, WriterStep);
  }

  lemma {:induction false} WriterNeeds<T>(s: Ring<T>) returns (n: nat)
    requires Inv(s) && Writing(s.writer) && !Full(s)
    ensures n <= StepsToWrite(s.writer, s.Size()) && Legal(s, Alone(WriterStep, n))
    ensures WriteThrough(s, Exec(s, Alone(WriterStep, n)))
    decreases StepsToWrite(s.writer, s.Size())
  {
    WriterAdvances(s);
    var s' := Next(s, WriterStep);
    var m := 0;
    if WriteThrough(s, s') {
      NoSteps(s', WriterStep);
    } else {
      m := WriterNeeds(s');
    }
    OneMore(s, WriterStep, m);
    n := m + 1;
  }

  /** Main result for `write`: after every interleaving, a writer past its test of `_closed` and not in the slot
      puts its value at the back, if there is room, or gets into the slot, within six steps of its own. */
  lemma WriterAloneGetsThrough<T>(exp: nat, acts: seq<Action<T>>) returns (n: nat)
    requires exp <= 63 && Legal(Fresh<T>(exp), acts)
    requires var s := Exec(Fresh<T>(exp), acts); Writing(s.writer) && !Full(s)
    ensures
      var s := Exec(Fresh<T>(exp), acts);
      n <= 6 && Legal(s, Alone(WriterStep, n)) && WriteThrough(s, Exec(s, Alone(WriterStep, n)))
  {
    FreshInv<T>(exp);
    RunRefinesFifo(Fresh<T>(exp), acts);
    n := WriterNeeds(Exec(Fresh<T>(exp), acts));
  }

  // ---------------------------------------------------------------- wake-up loops

  lemma WakerAdvances<T>(s: Ring<T>, who: Actor)
    requires s.Shape() && SlotOwner(s) && InWakeLoop(s, who) && (s.stalled.None? || CanUnpark(s))
    ensures Enabled(s, StepOf<T>(who))
    ensures
      var s' := Next(s, StepOf<T>(who));
      || !InWakeLoop(s', who)
      || (s'.Shape() && SlotOwner(s') && (s'.stalled.None? || CanUnpark(s')) && Enabled(s', StepOf<T>(who))
          && !InWakeLoop(Next(s', StepOf<T>(who)), who))
  {
    TwoSides(s.stalled);
    SlotOwnerKept(s, StepOf<T>(who));
  }

  /** Main result for the wake-up loops: after every interleaving, whoever is in one leaves it within two steps of its
      own if the slot is empty or the task in it asleep; then the slot is empty. */
  lemma WakerAloneGetsThrough<T>(exp: nat, acts: seq<Action<T>>, who: Actor) returns (n: nat)
    requires exp <= 63 && Legal(Fresh<T>(exp), acts)
    requires
      var s := Exec(Fresh<T>(exp), acts);
      InWakeLoop(s, who) && (s.stalled.None? || CanUnpark(s))
    ensures
      var s := Exec(Fresh<T>(exp), acts);
      && n <= 2 && Legal(s, Alone(StepOf<T>(who), n))
      && !InWakeLoop(Exec(s, Alone(StepOf<T>(who), n)), who)
      && Exec(s, Alone(StepOf<T>(who), n)).stalled.None?
  {
    FreshInv<T>(exp);
    RunKeepsAttended(Fresh<T>(exp), acts);
    n := WakerNeeds(Exec(Fresh<T>(exp), acts), who);
  }

  lemma WakerNeeds<T>(s: Ring<T>, who: Actor) returns (n: nat)
    requires s.Shape() && SlotOwner(s) && InWakeLoop(s, who) && (s.stalled.None? || CanUnpark(s))
    ensures n <= 2 && Legal(s, Alone(StepOf<T>(who), n))
    ensures
      var s' := Exec(s, Alone(StepOf<T>(who), n));
      !InWakeLoop(s', who) && s'.stalled.None?
  {
    var a := StepOf<T>(who);
    WakerAdvances(s, who);
    WakeLoopEndsWithEmptySlot(s, a);
    var s1 := Next(s, a);
    if InWakeLoop(s1, who) {
      WakeLoopEndsWithEmptySlot(s1, a);
      NoSteps(Next(s1, a), a);
      OneMore(s1, a, 0);
      OneMore(s, a, 1);
      n := 2;
    } else {
      NoSteps(s1, a);
      OneMore(s, a, 0);
      n := 1;
    }
  }
}
