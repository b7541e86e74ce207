/** Why the ring buffer needs preemption to be off: `read` and `write` recheck only `_closed` while parking,
    so a counter stored by the other side after it was loaded goes unnoticed.  Concrete interleavings. */
module RingBufferPreempt {
  import opened Options
  import opened RingBuffer

  lemma {:induction false} Extend<T>(s: Ring<T>, acts: seq<Action<T>>, a: Action<T>)
    requires s.Shape() && Legal(s, acts) && Enabled(Exec(s, acts), a)
    ensures Legal(s, acts + [a]) && Exec(s, acts + [a]) == Next(Exec(s, acts), a)
    decreases |acts|
  {
    if acts == [] {
      assert [a][1..] == [];
    } else {
      Extend(Next(s, acts[0]), acts[1..], a);
      assert (acts + [a])[1..] == acts[1..] + [a];
    }
  }

  /** Reachable from a new one-slot buffer of integers by some interleaving. */
  ghost predicate Reachable(s: Ring<int>) {
    exists acts: seq<Action<int>> :: Legal(Fresh<int>(0), acts) && Exec(Fresh<int>(0), acts) == s
  }

  lemma Advance(s: Ring<int>, a: Action<int>)
    requires Reachable(s) && s.Shape() && Enabled(s, a)
    ensures Reachable(Next(s, a))
  {
    var acts: seq<Action<int>> :| Legal(Fresh<int>(0), acts) && Exec(Fresh<int>(0), acts) == s;
    Extend(Fresh<int>(0), acts, a);
  }

  function EmptyBuffer(): Ring<int> {
    Ring(0, [None], 0, 0, false, None, RIdle, WIdle, OIdle, [], [], {})
  }

  lemma EmptyBufferReachable()
    ensures Reachable(EmptyBuffer())
  {
    var s := Fresh<int>(0);
    assert Legal(s, []) && Exec(s, []) == s;
    assert s.slots == EmptyBuffer().slots;
  }

  /** The reader has loaded both counters, seen an empty buffer and been preempted just before
      it claims the waiter slot. */
  function EmptySeen(): Ring<int> {
    EmptyBuffer().(reader := RCas(0))
  }

  lemma EmptySeenReachable()
    ensures Reachable(EmptySeen())
  {
    EmptyBufferReachable();
    var s := EmptyBuffer();
    Advance(s, ReadCall);
    Advance(s.(reader := RLoadR), ReaderStep);
    Advance(s.(reader := RLoadW(0)), ReaderStep);
    Advance(s.(reader := RCheck(0, 0)), ReaderStep);
  }

  /** Meanwhile the writer completes one whole `write`. */
  function ValueSlippedIn(): Ring<int> {
    Ring(0, [Some(7)], 0, 1, false, None, RCas(0), WDone(7, None), OIdle, [7], [], {})
  }

  lemma WriterReachesConstruct()
    ensures Reachable(EmptySeen().(writer := WConstruct(7, 0)))
  {
    EmptySeenReachable();
    var s := EmptySeen();
    Advance(s, WriteCall(7));
    Advance(s.(writer := WTestClosed(7)), WriterStep);
    Advance(s.(writer := WLoadW(7)), WriterStep);
    Advance(s.(writer := WLoadR(7, 0)), WriterStep);
    Advance(s.(writer := WCheck(7, 0, 0)), WriterStep);
  }

  lemma ValueSlippedInReachable()
    ensures Reachable(ValueSlippedIn())
  {
    WriterReachesConstruct();
    var s := ValueSlippedIn();
    Advance(EmptySeen().(writer := WConstruct(7, 0)), WriterStep);
    assert EmptyBuffer().slots[0 := Some(7)] == s.slots;
    Advance(s.(w := 0, accepted := [], writer := WStore(7, 0)), WriterStep);
    Advance(s.(writer := WWake(7)), WriterStep);
  }

  /** The reader goes on to park although a value is waiting, and nobody is left to wake it. */
  lemma PreemptionStrandsReader()
    ensures exists s: Ring<int> ::
              && Reachable(s) && s.reader.RParked? && s.writer == WDone(7, None)
              && !s.closed && s.accepted == [7] && s.delivered == []
  {
    ValueSlippedInReachable();
    var s := ValueSlippedIn();
    Advance(s, ReaderStep);
    Advance(s.(stalled := Some(ReaderSide), reader := RThunk(0)), ReaderStep);
    Advance(s.(stalled := Some(ReaderSide), reader := RCommit(0)), ReaderStep);
  }

  /** If the writer's end closes in the same gap, the read comes back empty and the accepted value is lost. */
  lemma PreemptionLosesValueOnClose()
    ensures exists s: Ring<int> ::
              && Reachable(s) && s.reader == RDone(None) && s.closers == {Writer}
              && s.accepted == [7] && s.delivered == []
  {
    ValueSlippedInReachable();
    var s := ValueSlippedIn();
    Advance(s, WriterClose);
    var c := s.(closed := true, closers := {Writer}, writer := WCloseWake);
    Advance(c, WriterStep);
    var d := c.(writer := WClosed);
    Advance(d, ReaderStep);
    Advance(d.(stalled := Some(ReaderSide), reader := RThunk(0)), ReaderStep);
    Advance(d.(stalled := Some(ReaderSide), reader := RAbort), ReaderStep);
  }

  // ---------------------------------------------------------------- the same on the writer's side

  /** The buffer holds 7; the writer, about to write 8, has seen it full and been preempted before it claims the
      waiter slot. */
  function FullSeen(): Ring<int> {
    Ring(0, [Some(7)], 0, 1, false, None, RIdle, WCas(8, 1), OIdle, [7], [], {})
  }

  lemma FirstConstructReachable()
    ensures Reachable(EmptyBuffer().(writer := WConstruct(7, 0)))
  {
    EmptyBufferReachable();
    var s := EmptyBuffer();
    Advance(s, WriteCall(7));
    Advance(s.(writer := WTestClosed(7)), WriterStep);
    Advance(s.(writer := WLoadW(7)), WriterStep);
    Advance(s.(writer := WLoadR(7, 0)), WriterStep);
    Advance(s.(writer := WCheck(7, 0, 0)), WriterStep);
  }

  lemma FirstStoreReachable()
    ensures Reachable(FullSeen().(w := 0, accepted := [], writer := WStore(7, 0)))
  {
    FirstConstructReachable();
    var s := FullSeen();
    Advance(EmptyBuffer().(writer := WConstruct(7, 0)), WriterStep);
    assert EmptyBuffer().slots[0 := Some(7)] == s.slots;
  }

  lemma FirstWriteDoneReachable()
    ensures Reachable(FullSeen().(writer := WDone(7, None)))
  {
    FirstStoreReachable();
    var s := FullSeen();
    Advance(s.(w := 0, accepted := [], writer := WStore(7, 0)), WriterStep);
    Advance(s.(writer := WWake(7)), WriterStep);
  }

  lemma FullSeenReachable()
    ensures Reachable(FullSeen())
  {
    FirstWriteDoneReachable();
    var s := FullSeen();
    Advance(s.(writer := WDone(7, None)), WriteCall(8));
    Advance(s.(writer := WTestClosed(8)), WriterStep);
    Advance(s.(writer := WLoadW(8)), WriterStep);
    Advance(s.(writer := WLoadR(8, 1)), WriterStep);
    Advance(s.(writer := WCheck(8, 1, 0)), WriterStep);
  }

  /** Meanwhile the reader takes 7 and returns. */
  function Drained(): Ring<int> {
    Ring(0, [None], 1, 1, false, None, RDone(Some(7)), WCas(8, 1), OIdle, [7], [7], {})
  }

  lemma ReaderReachesMove()
    ensures Reachable(FullSeen().(reader := RMove(0)))
  {
    FullSeenReachable();
    var s := FullSeen();
    Advance(s, ReadCall);
    Advance(s.(reader := RLoadR), ReaderStep);
    Advance(s.(reader := RLoadW(0)), ReaderStep);
    Advance(s.(reader := RCheck(0, 1)), ReaderStep);
  }

  lemma DrainedReachable()
    ensures Reachable(Drained())
  {
    ReaderReachesMove();
    var f, s := FullSeen(), Drained();
    Advance(f.(reader := RMove(0)), ReaderStep);
    Advance(f.(reader := RDestroy(0, 7)), ReaderStep);
    assert f.slots[0 := None] == s.slots;
    Advance(s.(r := 0, delivered := [], reader := RStore(0, 7)), ReaderStep);
    Advance(s.(reader := RWake(7)), ReaderStep);
  }

  /** The writer parks on an empty buffer with nobody left to wake it. */
  function WriterAsleep(): Ring<int> {
    Drained().(stalled := Some(WriterSide), writer := WParked(8, 1))
  }

  lemma WriterAsleepReachable()
    ensures Reachable(WriterAsleep())
  {
    DrainedReachable();
    var s := Drained().(stalled := Some(WriterSide));
    Advance(Drained(), WriterStep);
    Advance(s.(writer := WThunk(8, 1)), WriterStep);
    Advance(s.(writer := WCommit(8, 1)), WriterStep);
  }

  lemma PreemptionStrandsWriter()
    ensures exists s: Ring<int> ::
              && Reachable(s) && s.writer.WParked? && s.reader == RDone(Some(7))
              && !s.closed && s.accepted == [7] && s.delivered == [7]
  {
    WriterAsleepReachable();
  }

  /** `n` rounds of the wait loop of `read`. */
  function Rounds(n: nat): seq<Action<int>> {
    if n == 0 then [] else [ReaderStep, ReaderStep, ReaderStep] + Rounds(n - 1)
  }

  /** A reader that finds the slot taken by the parked writer goes round its wait loop without ever yielding. */
  lemma OneRound(s: Ring<int>)
    requires s.Shape() && s.reader == RCas(s.w) && s.stalled == Some(WriterSide)
    ensures
      var s1 := s.(reader := RReload(s.w));
      var s2 := s.(reader := RCheck(s.w, s.w));
      && Enabled(s, ReaderStep) && Next(s, ReaderStep) == s1 && Enabled(s1, ReaderStep) && Next(s1, ReaderStep) == s2
      && Enabled(s2, ReaderStep) && Next(s2, ReaderStep) == s
  {}

  lemma ThreeSteps(s: Ring<int>, rest: seq<Action<int>>)
    requires s.Shape() && s.reader == RCas(s.w) && s.stalled == Some(WriterSide) && Legal(s, rest)
    ensures
      var acts := [ReaderStep, ReaderStep, ReaderStep] + rest;
      Legal(s, acts) && Exec(s, acts) == Exec(s, rest)
  {
    OneRound(s);
    Prepend(s.(reader := RCheck(s.w, s.w)), ReaderStep, rest);
    Prepend(s.(reader := RReload(s.w)), ReaderStep, [ReaderStep] + rest);
    Prepend(s, ReaderStep, [ReaderStep] + ([ReaderStep] + rest));
    assert [ReaderStep] + ([ReaderStep] + ([ReaderStep] + rest)) == [ReaderStep, ReaderStep, ReaderStep] + rest;
  }

  lemma Prepend(s: Ring<int>, a: Action<int>, acts: seq<Action<int>>)
    requires s.Shape() && Enabled(s, a) && Legal(Next(s, a), acts)
    ensures Legal(s, [a] + acts) && Exec(s, [a] + acts) == Exec(Next(s, a), acts)
  {
    assert ([a] + acts)[1..] == acts;
  }

  lemma {:induction false} RoundsChangeNothing(s: Ring<int>, n: nat)
    requires s.Shape() && s.reader == RCas(s.w) && s.stalled == Some(WriterSide)
    ensures Legal(s, Rounds(n)) && Exec(s, Rounds(n)) == s
  {
    if n > 0 {
      RoundsChangeNothing(s, n - 1);
      ThreeSteps(s, Rounds(n - 1));
    }
  }

  function NextReadSpins(): Ring<int> {
    WriterAsleep().(reader := RCas(1))
  }

  lemma NextReadSpinsReachable()
    ensures Reachable(NextReadSpins())
  {
    WriterAsleepReachable();
    var s := WriterAsleep();
    Advance(s, ReadCall);
    Advance(s.(reader := RLoadR), ReaderStep);
    Advance(s.(reader := RLoadW(1)), ReaderStep);
    Advance(s.(reader := RCheck(1, 1)), ReaderStep);
  }

  /** With the writer parked on the empty buffer the next `read` spins for as long as one likes, reaching no point at
      which it would yield or park. */
  lemma StrandedWriterMakesReaderSpin(n: nat)
    ensures exists s: Ring<int> ::
              && Reachable(s) && s.writer.WParked? && s.accepted == s.delivered && !s.closed
              && s.Shape() && Legal(s, Rounds(n)) && Exec(s, Rounds(n)) == s
  {
    NextReadSpinsReachable();
    RoundsChangeNothing(NextReadSpins(), n);
  }
}
