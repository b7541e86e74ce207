/** Nobody sleeps through a close: what the wake-up loops of `read`, `write` and `close` leave behind, under every
    interleaving. */
module RingBufferClose {
  import opened Options
  import opened RingBuffer
  import opened RingBufferFifo
  import opened RingBufferCoop
  import opened RingBufferExact

  // ---------------------------------------------------------------- one wake-up loop

  /** In the loop that `close` ends with. */
  predicate InCloseLoop<T>(s: Ring<T>, who: Actor) {
    match who
    case Reader => s.reader.RCloseWake? || s.reader.RCloseYield?
    case Writer => s.writer.WCloseWake? || s.writer.WCloseYield?
    case Outsider => s.outsider.OWake? || s.outsider.OYield?
  }

  /** In that loop or in the one that `read` and `write` end with. */
  predicate InWakeLoop<T>(s: Ring<T>, who: Actor) {
    || InCloseLoop(s, who)
    || (who == Reader && (s.reader.RWake? || s.reader.RYield?))
    || (who == Writer && (s.writer.WWake? || s.writer.WYield?))
  }

  ghost predicate Steps<T>(a: Action<T>) {
    a.ReaderStep? || a.WriterStep? || a.OutsiderStep?
  }

  function StepOf<T>(who: Actor): Action<T> {
    match who
    case Reader => ReaderStep
    case Writer => WriterStep
    case Outsider => OutsiderStep
  }

  /** The task parked in the slot, if there is one, and nothing else but the caller, has been moved. */
  ghost predicate WokeOccupant<T>(s: Ring<T>, s': Ring<T>, who: Actor) {
    && s'.stalled.None?
    && (who != Reader ==>
          if s.stalled == Some(ReaderSide) then s.reader.RParked? && s'.reader == RReload(s.reader.lr)
          else s'.reader == s.reader)
    && (who != Writer ==>
          if s.stalled == Some(WriterSide) then s.writer.WParked? && s'.writer == WReload(s.writer.u, s.writer.lw)
          else s'.writer == s.writer)
    && (who != Outsider ==> s'.outsider == s.outsider)
  }

  /** A task leaves its wake-up loop only with the slot empty, having woken whoever was parked there; as long as it
      stays, nobody else is touched.  The buffer itself stays as it is in either case. */
  lemma WakeLoopEndsWithEmptySlot<T>(s: Ring<T>, a: Action<T>)
    requires s.Shape() && SlotOwner(s) && Steps(a) && Enabled(s, a) && InWakeLoop(s, ActorOf(a))
    ensures
      var s', who := Next(s, a), ActorOf(a);
      && s'.slots == s.slots && s'.r == s.r && s'.w == s.w && s'.closed == s.closed
      && if InWakeLoop(s', who) then
           && (s.stalled.Some? ==> s'.stalled == s.stalled) && (who != Reader ==> s'.reader == s.reader)
           && (who != Writer ==> s'.writer == s.writer) && (who != Outsider ==> s'.outsider == s.outsider)
         else (s.stalled.Some? ==> CanUnpark(s)) && WokeOccupant(s, s', who)
  {
    TwoSides(s.stalled);
  }

  lemma TwoSides(stalled: Option<Side>)
    ensures stalled.Some? ==> stalled == Some(ReaderSide) || stalled == Some(WriterSide)
  {
    match stalled
    case None =>
    case Some(ReaderSide) =>
    case Some(WriterSide) =>
  }

  // ---------------------------------------------------------------- every interleaving

  ghost predicate Closing<T>(s: Ring<T>) {
    InCloseLoop(s, Reader) || InCloseLoop(s, Writer) || InCloseLoop(s, Outsider)
  }

  /** A side that has passed the check of `park_if` and is asleep or bound to sleep. */
  ghost predicate Sleeps<T>(s: Ring<T>) {
    s.reader.RCommit? || s.reader.RParked? || s.writer.WCommit? || s.writer.WParked?
  }

  /** Whoever sleeps on a closed buffer has a closer that is still trying to wake it. */
  ghost predicate Attended<T>(s: Ring<T>) {
    s.closed && Sleeps(s) ==> Closing(s)
  }

  lemma AttendedKept<T>(s: Ring<T>, a: Action<T>)
    requires s.Shape() && Enabled(s, a) && SlotOwner(s) && Attended(s)
    ensures Attended(Next(s, a))
  {
    match a
    case ReaderStep => ReaderKeepsAttended(s);
    case WriterStep => WriterKeepsAttended(s);
    case _ =>
  }

  lemma ReaderKeepsAttended<T>(s: Ring<T>)
    requires s.Shape() && Enabled(s, ReaderStep) && SlotOwner(s) && Attended(s)
    ensures Attended(ReaderNext(s))
  {}

  lemma WriterKeepsAttended<T>(s: Ring<T>)
    requires s.Shape() && Enabled(s, WriterStep) && SlotOwner(s) && Attended(s)
    ensures Attended(WriterNext(s))
  {}

  lemma {:induction false} RunKeepsAttended<T>(s: Ring<T>, acts: seq<Action<T>>)
    requires Sound(s) && Attended(s) && Legal(s, acts)
    ensures Sound(Exec(s, acts)) && Attended(Exec(s, acts))
    decreases |acts|
  {
    if acts != [] {
      SoundKept(s, acts[0]);
      AttendedKept(s, acts[0]);
      RunKeepsAttended(Next(s, acts[0]), acts[1..]);
    }
  }

  predicate Closes<T>(a: Action<T>) {
    a.ReaderClose? || a.WriterClose? || a.OutsiderClose?
  }

  ghost predicate CloseTaken<T>(acts: seq<Action<T>>) {
    exists i :: 0 <= i < |acts| && Closes(acts[i])
  }

  lemma {:induction false} ClosedByAction<T>(s: Ring<T>, acts: seq<Action<T>>)
    requires s.Shape() && Legal(s, acts)
    ensures Exec(s, acts).closed <==> s.closed || CloseTaken(acts)
    decreases |acts|
  {
    if acts != [] {
      ClosedByAction(Next(s, acts[0]), acts[1..]);
      OneCloses(s, acts[0]);
      FirstOrLater(acts);
    }
  }

  lemma OneCloses<T>(s: Ring<T>, a: Action<T>)
    requires s.Shape() && Enabled(s, a)
    ensures Next(s, a).closed <==> s.closed || CloseTaken([a])
  {
    assert CloseTaken([a]) <==> Closes(a) by {
      assert [a][0] == a;
    }
  }

  lemma FirstOrLater<T>(acts: seq<Action<T>>)
    requires acts != []
    ensures CloseTaken(acts) <==> CloseTaken([acts[0]]) || CloseTaken(acts[1..])
  {
    if CloseTaken(acts[1..]) {
      var i :| 0 <= i < |acts[1..]| && Closes(acts[1..][i]);
      assert acts[i + 1] == acts[1..][i];
    }
    if CloseTaken(acts) {
      var i :| 0 <= i < |acts| && Closes(acts[i]);
      if i > 0 { assert acts[1..][i - 1] == acts[i]; } else { assert [acts[0]][0] == acts[i]; }
    }
    if CloseTaken([acts[0]]) {
      assert Closes(acts[0]);
    }
  }

  /** Main result: under every interleaving, whoever closed, once all calls of `close` have returned nobody sleeps and
      nobody is bound to; and as long as somebody does, one of them is still in its wake-up loop.  The buffer is
      closed exactly if some end, or somebody else, has called `close`. */
  lemma NobodySleepsThroughClose<T>(exp: nat, acts: seq<Action<T>>)
    requires exp <= 63 && Legal(Fresh<T>(exp), acts)
    ensures
      var s := Exec(Fresh<T>(exp), acts);
      && (s.closed <==> CloseTaken(acts))
      && (CloseTaken(acts) && Sleeps(s) ==> Closing(s))
      && (CloseTaken(acts) && !Closing(s) ==>
            !s.reader.RParked? && !s.writer.WParked? && !s.reader.RCommit? && !s.writer.WCommit?)
  {
    FreshInv<T>(exp);
    RunKeepsAttended(Fresh<T>(exp), acts);
    ClosedByAction(Fresh<T>(exp), acts);
  }
}
