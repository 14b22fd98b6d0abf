/**
 * FairReaderWriterLock of sync.py: four counters guarded by one mutex
 * and two conditions. Each `with self.mutex` section, cut at its
 * condition wait, is one atomic Step; the `while ...: wait()` loop is the
 * guard of the step that follows it. The counters are exact (they count
 * threads, not permits), so the state needs no ghost part.
 */
module FairLock {

  datatype FairState = FairState(
    readersCount: int,
    writerActive: bool,
    waitingReaders: int,
    waitingWriters: int)

  datatype FairStep =
    | ReaderArrive   // 257     waiting_readers += 1
    | ReaderAdmit    // 258-261 past the wait loop: waiting_readers -= 1, readers_count += 1
    | ReaderExit     // 266-269 readers_count -= 1
    | WriterArrive   // 274     waiting_writers += 1
    | WriterAdmit    // 275-278 past the wait loop: waiting_writers -= 1, writer_active = True
    | WriterExit     // 283-288 writer_active = False

  /** Which waiting threads an exit notifies. */
  datatype Wake = NoOne | OneWriter | AllReaders

  const FairInit := FairState(0, false, 0, 0)

  /** Admission guards (the negations of the wait loops' conditions), and a thread to move. */
  predicate FairEnabled(s: FairState, step: FairStep) {
    match step
    case ReaderArrive => true
    case ReaderAdmit => s.waitingReaders > 0 && !s.writerActive && s.waitingWriters <= 0
    case ReaderExit => s.readersCount > 0
    case WriterArrive => true
    case WriterAdmit => s.waitingWriters > 0 && !s.writerActive && s.readersCount <= 0
    case WriterExit => s.writerActive
  }

  function FairNext(s: FairState, step: FairStep): FairState {
    match step
    case ReaderArrive => s.(waitingReaders := s.waitingReaders + 1)
    case ReaderAdmit => s.(waitingReaders := s.waitingReaders - 1, readersCount := s.readersCount + 1)
    case ReaderExit => s.(readersCount := s.readersCount - 1)
    case WriterArrive => s.(waitingWriters := s.waitingWriters + 1)
    case WriterAdmit => s.(waitingWriters := s.waitingWriters - 1, writerActive := true)
    case WriterExit => s.(writerActive := false)
  }

  /** The notify an exit issues, taken in the state after its update (sync.py:268-269, 285-288). */
  function Notified(after: FairState, step: FairStep): (w: Wake)
    ensures step == WriterExit ==> (w == AllReaders <==> after.waitingReaders > 0)
    ensures step == WriterExit ==> (w == OneWriter <==> after.waitingReaders <= 0)
    ensures step == ReaderExit ==> (w == OneWriter <==> after.readersCount == 0)
    ensures step == ReaderExit ==> w != AllReaders
    ensures !(step == WriterExit || step == ReaderExit) ==> w == NoOne
  {
    match step
    case ReaderExit => if after.readersCount == 0 then OneWriter else NoOne
    case WriterExit => if after.waitingReaders > 0 then AllReaders else OneWriter
    case _ => NoOne
  }

  /** Writer exclusion: an active writer excludes every reader; no counter is negative. */
  predicate FairInv(s: FairState) {
    && s.readersCount >= 0 && s.waitingReaders >= 0 && s.waitingWriters >= 0
    && (s.writerActive ==> s.readersCount == 0)
  }

  lemma FairInitInv()
    ensures FairInv(FairInit)
  {
  }

  /** Every enabled step keeps the invariant. */
  lemma FairNextKeepsInv(s: FairState, step: FairStep)
    requires FairInv(s) && FairEnabled(s, step)
    ensures FairInv(FairNext(s, step))
  {
  }

  predicate FairExecutes(s: FairState, steps: seq<FairStep>)
    decreases |steps|
  {
    steps == [] || (FairEnabled(s, steps[0]) && FairExecutes(FairNext(s, steps[0]), steps[1..]))
  }

  function FairRun(s: FairState, steps: seq<FairStep>): FairState
    requires FairExecutes(s, steps)
    decreases |steps|
  {
    if steps == [] then s else FairRun(FairNext(s, steps[0]), steps[1..])
  }

  lemma {:induction false} FairRunKeepsInv(s: FairState, steps: seq<FairStep>)
    requires FairInv(s) && FairExecutes(s, steps)
    ensures FairInv(FairRun(s, steps))
    decreases |steps|
  {
    if steps != [] {
      FairNextKeepsInv(s, steps[0]);
      FairRunKeepsInv(FairNext(s, steps[0]), steps[1..]);
    }
  }

  /** In every reachable state an active writer is alone: readers_count is 0. */
  lemma FairMutualExclusion(steps: seq<FairStep>)
    requires FairExecutes(FairInit, steps)
    ensures FairRun(FairInit, steps).writerActive ==> FairRun(FairInit, steps).readersCount == 0
  {
    FairInitInv();
    FairRunKeepsInv(FairInit, steps);
  }

  /** 1 while a writer is active, else 0. */
  function ActiveWriters(s: FairState): nat {
    if s.writerActive then 1 else 0
  }

  /**
   * Admission moves exactly one unit from waiting to active: over any run,
   * waiting plus active readers grows by arrivals minus exits, and so does
   * waiting plus active writers.
   */
  lemma {:induction false} FairRunConserves(s: FairState, steps: seq<FairStep>)
    requires FairExecutes(s, steps)
    ensures var t := FairRun(s, steps);
      t.waitingReaders + t.readersCount
        == s.waitingReaders + s.readersCount + multiset(steps)[ReaderArrive] - multiset(steps)[ReaderExit]
    ensures var t := FairRun(s, steps);
      t.waitingWriters + ActiveWriters(t)
        == s.waitingWriters + ActiveWriters(s) + multiset(steps)[WriterArrive] - multiset(steps)[WriterExit]
    decreases |steps|
  {
    if steps != [] {
      assert steps == [steps[0]] + steps[1..];
      assert multiset(steps) == multiset([steps[0]]) + multiset(steps[1..]);
      FairRunConserves(FairNext(s, steps[0]), steps[1..]);
    }
  }

  /**
   * When readers and writers both wait, a writer's exit wakes only the
   * readers, and none of them may be admitted: the woken readers wait again.
   */
  lemma WokenReadersWaitAgain(s: FairState)
    requires FairInv(s) && s.writerActive && s.waitingReaders > 0 && s.waitingWriters > 0
    ensures var t := FairNext(s, WriterExit);
      Notified(t, WriterExit) == AllReaders && !FairEnabled(t, ReaderAdmit) && FairEnabled(t, WriterAdmit)
  {
  }

  class FairReaderWriterLock {
    var readersCount: int
    var writerActive: bool
    var waitingReaders: int
    var waitingWriters: int

    function State(): FairState
      reads this
    {
      FairState(readersCount, writerActive, waitingReaders, waitingWriters)
    }

    predicate Valid()
      reads this
    {
      FairInv(State())
    }

    constructor ()
      ensures Valid() && State() == FairInit
    {
      readersCount, writerActive, waitingReaders, waitingWriters := 0, false, 0, 0;
    }

    /** reader_enter up to its wait loop. */
    method ReaderArrive()
      requires Valid()
      modifies this
      ensures Valid() && State() == FairNext(old(State()), FairStep.ReaderArrive)
    {
      waitingReaders := waitingReaders + 1;
    }

    /** reader_enter after its wait loop; returns the simplified wait time. */
    method ReaderAdmit() returns (waitTime: int)
      requires Valid() && FairEnabled(State(), FairStep.ReaderAdmit)
      modifies this
      ensures Valid() && State() == FairNext(old(State()), FairStep.ReaderAdmit)
      ensures waitTime == 0
    {
      waitingReaders := waitingReaders - 1;
      readersCount := readersCount + 1;
      waitTime := 0;
    }

    method ReaderExit() returns (wake: Wake)
      requires Valid() && FairEnabled(State(), FairStep.ReaderExit)
      modifies this
      ensures Valid() && State() == FairNext(old(State()), FairStep.ReaderExit)
      ensures wake == Notified(State(), FairStep.ReaderExit)
    {
      readersCount := readersCount - 1;
      wake := NoOne;
      if readersCount == 0 {
        wake := OneWriter;
      }
    }

    /** writer_enter up to its wait loop. */
    method WriterArrive()
      requires Valid()
      modifies this
      ensures Valid() && State() == FairNext(old(State()), FairStep.WriterArrive)
    {
      waitingWriters := waitingWriters + 1;
    }

    /** writer_enter after its wait loop; returns the simplified wait time. */
    method WriterAdmit() returns (waitTime: int)
      requires Valid() && FairEnabled(State(), FairStep.WriterAdmit)
      modifies this
      ensures Valid() && State() == FairNext(old(State()), FairStep.WriterAdmit)
      ensures waitTime == 0
    {
      waitingWriters := waitingWriters - 1;
      writerActive := true;
      waitTime := 0;
    }

    method WriterExit() returns (wake: Wake)
      requires Valid() && FairEnabled(State(), FairStep.WriterExit)
      modifies this
      ensures Valid() && State() == FairNext(old(State()), FairStep.WriterExit)
      ensures wake == Notified(State(), FairStep.WriterExit)
    {
      writerActive := false;
      if waitingReaders > 0 {
        wake := AllReaders;
      } else {
        wake := OneWriter;
      }
    }
  }
}
