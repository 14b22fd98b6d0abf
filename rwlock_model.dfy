/**
 * The reader-writer lock of sync.py (class ReaderWriterLock) as a state
 * machine. Every `with`-block and every semaphore operation of
 * reader_enter, reader_exit, writer_enter and writer_exit is one atomic
 * Step; a blocking wait (a semaphore acquire, a condition loop) is the
 * guard under which its step is Enabled. The lock never looks at the
 * reader or writer id it is given, so threads are counted, not named:
 * ReaderPhases and WriterPhases say how many threads stand at each point
 * of the protocol, which is what the invariant Inv is stated over.
 */
module RwLockModel {
  import opened Optional

  /** Who holds the binary semaphore `writers_mutex`. */
  datatype Permit = Free | ReaderGroup | OneWriter

  /** How many reader threads stand at each point of reader_enter / reader_exit. */
  datatype ReaderPhases = ReaderPhases(
    queued: nat,    // writer priority: counted in waiting_readers, wants read_try
    gated: nat,     // writer priority: holds read_try, still counted in waiting_readers
    checking: nat,  // writer priority: holds read_try, in the loop on waiting_writers
    tryHeld: nat,   // holds read_try, about to join readers_count
    counted: nat,   // first reader: counted in readers_count, holds readers_count_mutex, waits for writers_mutex
    joined: nat,    // counted in readers_count, still holds read_try
    released: nat,  // counted in readers_count, read_try given back
    marked: nat,    // counted in active_readers, wait time not yet judged
    inside: nat,    // returned from reader_enter
    leaving: nat)   // left readers_count, still counted in active_readers

  /** How many writer threads stand at each point of writer_enter / writer_exit. */
  datatype WriterPhases = WriterPhases(
    announced: nat,      // counted in waiting_writers
    gated: nat,          // writer priority: holds read_try
    permitted: nat,      // reader priority: holds writers_mutex, still waiting
    gatedPermitted: nat, // writer priority: holds read_try and writers_mutex, still waiting
    gatedActive: nat,    // writer priority: holds read_try and writers_mutex, counted active
    marked: nat,         // holds writers_mutex, counted active, wait time not yet judged
    inside: nat,         // returned from writer_enter
    leaving: nat)        // gave writers_mutex back, still counted in active_writers

  const NoReaders := ReaderPhases(0, 0, 0, 0, 0, 0, 0, 0, 0, 0)
  const NoWriters := WriterPhases(0, 0, 0, 0, 0, 0, 0, 0)

  datatype LockState = LockState(
    writerPriority: bool,
    readersCount: int,
    permit: Permit,       // writers_mutex
    readTryFree: bool,    // read_try
    activeReaders: int,
    activeWriters: int,
    waitingReaders: int,
    waitingWriters: int,
    readsCompleted: int,
    writesCompleted: int,
    conflicts: int,
    readers: ReaderPhases,
    writers: WriterPhases)

  /** The seven statistics counters, as get_stats returns them. */
  datatype Stats = Stats(
    activeReaders: int,
    activeWriters: int,
    waitingReaders: int,
    waitingWriters: int,
    readsCompleted: int,
    writesCompleted: int,
    conflicts: int)

  /** The atomic steps; the comment gives the lines of sync.py each one stands for. */
  datatype Step =
    | ReaderAnnounce                   // 84-85   waiting_readers += 1           (writer priority)
    | ReaderTakeGate                   // 88      read_try.acquire()             (writer priority)
    | ReaderLeaveQueue                 // 90-91   waiting_readers -= 1           (writer priority)
    | ReaderCheckWriters               // 94-97   one test of the waiting_writers loop
    | ReaderTakeReadTry                // 110     read_try.acquire()             (reader priority)
    | ReaderJoin                       // 99-102, 112-115  readers_count += 1 under readers_count_mutex
    | ReaderTakeGroupPermit            // 103, 116  the first reader's writers_mutex.acquire()
    | ReaderReleaseReadTry             // 105, 118  read_try.release()
    | ReaderMarkActive                 // 120-121 active_readers += 1
    | ReaderJudgeWait(waitedLong: bool) // 123-125 conflicts += 1 after a long wait, unguarded, taken as atomic
    | ReaderLeaveGroup                 // 131-135 readers_count -= 1, last one releases writers_mutex
    | ReaderFinish                     // 137-139 active_readers -= 1, reads_completed += 1
    | WriterAnnounce                   // 156-157, 174-175  waiting_writers += 1
    | WriterTakeReadTry                // 160     read_try.acquire()             (writer priority)
    | WriterTakePermit                 // 163, 177  writers_mutex.acquire()
    | WriterMarkActive                 // 165-167, 179-181  waiting_writers -= 1, active_writers += 1
    | WriterReleaseReadTry             // 169     read_try.release()             (writer priority)
    | WriterJudgeWait(waitedLong: bool) // 183-185 conflicts += 1 after a long wait, unguarded, taken as atomic
    | WriterReleasePermit              // 191     writers_mutex.release()
    | WriterFinish                     // 193-195 active_writers -= 1, writes_completed += 1
    | SetPriority(writerPriority: bool) // 212-216, only while no thread is inside the protocol

  function Init(writerPriority: bool): LockState {
    LockState(writerPriority, 0, Free, true, 0, 0, 0, 0, 0, 0, 0, NoReaders, NoWriters)
  }

  /** Threads holding read_try. */
  function ReadTryHolders(s: LockState): nat {
    s.readers.gated + s.readers.checking + s.readers.tryHeld + s.readers.counted + s.readers.joined
    + s.writers.gated + s.writers.gatedPermitted + s.writers.gatedActive
  }

  /** Writers holding writers_mutex. */
  function WriterHolders(s: LockState): nat {
    s.writers.permitted + s.writers.gatedPermitted + s.writers.gatedActive
    + s.writers.marked + s.writers.inside
  }

  /** Readers counted in readers_count on whose behalf the reader group holds writers_mutex. */
  function GroupMembers(s: LockState): nat {
    s.readers.joined + s.readers.released + s.readers.marked + s.readers.inside
  }

  /** No thread is anywhere inside the protocol. */
  predicate Quiescent(s: LockState) {
    s.readers == NoReaders && s.writers == NoWriters
  }

  /** No thread inside, both semaphores free, nobody counted as active. */
  predicate Idle(s: LockState) {
    && Quiescent(s) && s.readersCount == 0 && s.permit == Free && s.readTryFree
    && s.activeReaders == 0 && s.activeWriters == 0
  }

  /**
   * The lock invariant: the two semaphores are binary and owned by the
   * threads the phases say; readers_count counts the readers past the
   * first reader's acquire (GroupMembers) plus at most one first reader
   * still waiting for writers_mutex, who is there only while the group
   * is empty; writers_mutex belongs to the reader group exactly when
   * GroupMembers > 0, to a writer exactly when one holds it, and is free
   * otherwise; and each statistics counter counts the threads between
   * its increment and its decrement.
   */
  ghost predicate Inv(s: LockState) {
    var r, w := s.readers, s.writers;
    && ReadTryHolders(s) <= 1
    && (s.readTryFree <==> ReadTryHolders(s) == 0)
    && s.readersCount == r.counted + GroupMembers(s)
    && r.counted <= 1 && (r.counted > 0 ==> GroupMembers(s) == 0)
    && WriterHolders(s) <= 1
    && (s.permit == ReaderGroup <==> GroupMembers(s) > 0)
    && (s.permit == OneWriter <==> WriterHolders(s) > 0)
    && (s.permit == Free <==> GroupMembers(s) == 0 && WriterHolders(s) == 0)
    && s.activeReaders == r.marked + r.inside + r.leaving
    && s.activeWriters == w.gatedActive + w.marked + w.inside + w.leaving
    && s.waitingReaders == r.queued + r.gated
    && s.waitingWriters == w.announced + w.gated + w.permitted + w.gatedPermitted
    && s.readsCompleted >= 0 && s.writesCompleted >= 0 && s.conflicts >= 0
    && (!s.writerPriority ==>
          r.queued == 0 && r.gated == 0 && r.checking == 0
          && w.gated == 0 && w.gatedPermitted == 0 && w.gatedActive == 0)
    && (s.writerPriority ==> w.permitted == 0)
  }

  /** When a step can happen: the thread that takes it is where the step starts, and it is not blocked. */
  predicate Enabled(s: LockState, step: Step) {
    var r, w := s.readers, s.writers;
    match step
    case ReaderAnnounce => s.writerPriority
    case ReaderTakeGate => r.queued > 0 && s.readTryFree
    case ReaderLeaveQueue => r.gated > 0
    case ReaderCheckWriters => r.checking > 0
    case ReaderTakeReadTry => !s.writerPriority && s.readTryFree
    case ReaderJoin => r.tryHeld > 0 && r.counted == 0
    case ReaderTakeGroupPermit => r.counted > 0 && s.permit == Free
    case ReaderReleaseReadTry => r.joined > 0
    case ReaderMarkActive => r.released > 0
    case ReaderJudgeWait(_) => r.marked > 0
    case ReaderLeaveGroup => r.inside > 0
    case ReaderFinish => r.leaving > 0
    case WriterAnnounce => true
    case WriterTakeReadTry => s.writerPriority && w.announced > 0 && s.readTryFree
    case WriterTakePermit =>
      s.permit == Free && (if s.writerPriority then w.gated > 0 else w.announced > 0)
    case WriterMarkActive => if s.writerPriority then w.gatedPermitted > 0 else w.permitted > 0
    case WriterReleaseReadTry => w.gatedActive > 0
    case WriterJudgeWait(_) => w.marked > 0
    case WriterReleasePermit => w.inside > 0
    case WriterFinish => w.leaving > 0
    case SetPriority(_) => Quiescent(s)
  }

  /** The state after an enabled step. */
  function Next(s: LockState, step: Step): LockState
    requires Enabled(s, step)
  {
    var r, w := s.readers, s.writers;
    match step
    case ReaderAnnounce =>
      s.(waitingReaders := s.waitingReaders + 1, readers := r.(queued := r.queued + 1))
    case ReaderTakeGate =>
      s.(readTryFree := false, readers := r.(queued := r.queued - 1, gated := r.gated + 1))
    case ReaderLeaveQueue =>
      s.(waitingReaders := s.waitingReaders - 1,
         readers := r.(gated := r.gated - 1, checking := r.checking + 1))
    case ReaderCheckWriters =>
      if s.waitingWriters > 0 then s.(conflicts := s.conflicts + 1)
      else s.(readers := r.(checking := r.checking - 1, tryHeld := r.tryHeld + 1))
    case ReaderTakeReadTry =>
      s.(readTryFree := false, readers := r.(tryHeld := r.tryHeld + 1))
    case ReaderJoin =>
      s.(readersCount := s.readersCount + 1,
         readers := if s.readersCount + 1 == 1 then r.(tryHeld := r.tryHeld - 1, counted := r.counted + 1)
                    else r.(tryHeld := r.tryHeld - 1, joined := r.joined + 1))
    case ReaderTakeGroupPermit =>
      s.(permit := ReaderGroup, readers := r.(counted := r.counted - 1, joined := r.joined + 1))
    case ReaderReleaseReadTry =>
      s.(readTryFree := true, readers := r.(joined := r.joined - 1, released := r.released + 1))
    case ReaderMarkActive =>
      s.(activeReaders := s.activeReaders + 1,
         readers := r.(released := r.released - 1, marked := r.marked + 1))
    case ReaderJudgeWait(waitedLong) =>
      s.(conflicts := if waitedLong then s.conflicts + 1 else s.conflicts,
         readers := r.(marked := r.marked - 1, inside := r.inside + 1))
    case ReaderLeaveGroup =>
      s.(readersCount := s.readersCount - 1,
         permit := if s.readersCount - 1 == 0 then Free else s.permit,
         readers := r.(inside := r.inside - 1, leaving := r.leaving + 1))
    case ReaderFinish =>
      s.(activeReaders := s.activeReaders - 1, readsCompleted := s.readsCompleted + 1,
         readers := r.(leaving := r.leaving - 1))
    case WriterAnnounce =>
      s.(waitingWriters := s.waitingWriters + 1, writers := w.(announced := w.announced + 1))
    case WriterTakeReadTry =>
      s.(readTryFree := false, writers := w.(announced := w.announced - 1, gated := w.gated + 1))
    case WriterTakePermit =>
      if s.writerPriority then
        s.(permit := OneWriter,
           writers := w.(gated := w.gated - 1, gatedPermitted := w.gatedPermitted + 1))
      else
        s.(permit := OneWriter,
           writers := w.(announced := w.announced - 1, permitted := w.permitted + 1))
    case WriterMarkActive =>
      if s.writerPriority then
        s.(waitingWriters := s.waitingWriters - 1, activeWriters := s.activeWriters + 1,
           writers := w.(gatedPermitted := w.gatedPermitted - 1, gatedActive := w.gatedActive + 1))
      else
        s.(waitingWriters := s.waitingWriters - 1, activeWriters := s.activeWriters + 1,
           writers := w.(permitted := w.permitted - 1, marked := w.marked + 1))
    case WriterReleaseReadTry =>
      s.(readTryFree := true, writers := w.(gatedActive := w.gatedActive - 1, marked := w.marked + 1))
    case WriterJudgeWait(waitedLong) =>
      s.(conflicts := if waitedLong then s.conflicts + 1 else s.conflicts,
         writers := w.(marked := w.marked - 1, inside := w.inside + 1))
    case WriterReleasePermit =>
      s.(permit := Free, writers := w.(inside := w.inside - 1, leaving := w.leaving + 1))
    case WriterFinish =>
      s.(activeWriters := s.activeWriters - 1, writesCompleted := s.writesCompleted + 1,
         writers := w.(leaving := w.leaving - 1))
    case SetPriority(writerPriority) =>
      s.(writerPriority := writerPriority)
  }

  lemma InitSatisfiesInv(writerPriority: bool)
    ensures Inv(Init(writerPriority)) && Idle(Init(writerPriority))
    ensures Init(writerPriority).writerPriority == writerPriority
    ensures StatsOf(Init(writerPriority)) == Stats(0, 0, 0, 0, 0, 0, 0)
  {
  }

  /** Every step keeps the lock invariant. */
  lemma NextKeepsInv(s: LockState, step: Step)
    requires Inv(s) && Enabled(s, step)
    ensures Inv(Next(s, step))
  {
    match step
    case ReaderAnnounce | ReaderTakeGate | ReaderLeaveQueue | ReaderCheckWriters | ReaderTakeReadTry =>
      ReaderQueueStepKeepsInv(s, step);
    case ReaderJoin | ReaderTakeGroupPermit =>
      ReaderJoinStepKeepsInv(s, step);
    case ReaderReleaseReadTry | ReaderMarkActive | ReaderJudgeWait(_) =>
      ReaderEntryStepKeepsInv(s, step);
    case ReaderLeaveGroup | ReaderFinish =>
      ReaderExitStepKeepsInv(s, step);
    case WriterAnnounce | WriterTakeReadTry | WriterTakePermit =>
      WriterQueueStepKeepsInv(s, step);
    case WriterMarkActive | WriterReleaseReadTry | WriterJudgeWait(_) =>
      WriterEntryStepKeepsInv(s, step);
    case WriterReleasePermit | WriterFinish | SetPriority(_) =>
      WriterExitStepKeepsInv(s, step);
  }

  lemma ReaderQueueStepKeepsInv(s: LockState, step: Step)
    requires Inv(s) && Enabled(s, step)
    requires step.ReaderAnnounce? || step.ReaderTakeGate? || step.ReaderLeaveQueue?
             || step.ReaderCheckWriters? || step.ReaderTakeReadTry?
    ensures Inv(Next(s, step))
  {
  }

  lemma ReaderEntryStepKeepsInv(s: LockState, step: Step)
    requires Inv(s) && Enabled(s, step)
    requires step.ReaderReleaseReadTry? || step.ReaderMarkActive? || step.ReaderJudgeWait?
    ensures Inv(Next(s, step))
  {
  }

  lemma ReaderJoinStepKeepsInv(s: LockState, step: Step)
    requires Inv(s) && Enabled(s, step)
    requires step.ReaderJoin? || step.ReaderTakeGroupPermit?
    ensures Inv(Next(s, step))
  {
  }

  lemma ReaderExitStepKeepsInv(s: LockState, step: Step)
    requires Inv(s) && Enabled(s, step)
    requires step.ReaderLeaveGroup? || step.ReaderFinish?
    ensures Inv(Next(s, step))
  {
  }

  lemma WriterQueueStepKeepsInv(s: LockState, step: Step)
    requires Inv(s) && Enabled(s, step)
    requires step.WriterAnnounce? || step.WriterTakeReadTry? || step.WriterTakePermit?
    ensures Inv(Next(s, step))
  {
  }

  lemma WriterEntryStepKeepsInv(s: LockState, step: Step)
    requires Inv(s) && Enabled(s, step)
    requires step.WriterMarkActive? || step.WriterReleaseReadTry? || step.WriterJudgeWait?
    ensures Inv(Next(s, step))
  {
  }

  lemma WriterExitStepKeepsInv(s: LockState, step: Step)
    requires Inv(s) && Enabled(s, step)
    requires step.WriterReleasePermit? || step.WriterFinish? || step.SetPriority?
    ensures Inv(Next(s, step))
  {
  }

  /** A sequence of steps each enabled when it is taken. */
  predicate Executes(s: LockState, steps: seq<Step>)
    decreases |steps|
  {
    steps == [] || (Enabled(s, steps[0]) && Executes(Next(s, steps[0]), steps[1..]))
  }

  function Run(s: LockState, steps: seq<Step>): LockState
    requires Executes(s, steps)
    decreases |steps|
  {
    if steps == [] then s else Run(Next(s, steps[0]), steps[1..])
  }

  /** The invariant holds after any run that starts where it holds. */
  lemma {:induction false} RunKeepsInv(s: LockState, steps: seq<Step>)
    requires Inv(s) && Executes(s, steps)
    ensures Inv(Run(s, steps))
    decreases |steps|
  {
    if steps != [] {
      NextKeepsInv(s, steps[0]);
      RunKeepsInv(Next(s, steps[0]), steps[1..]);
    }
  }

  /**
   * Mutual exclusion on writers_mutex in every reachable state: at most
   * one writer holds it, and never while the reader group holds it on
   * behalf of its counted members. readers_count can be 1 while a writer
   * holds writers_mutex, but only for a first reader that still waits for
   * it under readers_count_mutex; whenever no reader waits there, the
   * reader group holds writers_mutex exactly while readers_count > 0.
   */
  lemma ReachableMutualExclusion(writerPriority: bool, steps: seq<Step>)
    requires Executes(Init(writerPriority), steps)
    ensures var s := Run(Init(writerPriority), steps);
      && WriterHolders(s) <= 1
      && (GroupMembers(s) > 0 ==> WriterHolders(s) == 0)
      && (GroupMembers(s) > 0 <==> s.permit == ReaderGroup)
      && (s.readers.counted == 0 ==> (s.readersCount > 0 <==> s.permit == ReaderGroup))
      && (s.readers.counted > 0 ==> s.readers.counted == 1 && s.readersCount == 1 && s.permit != ReaderGroup)
      && s.readersCount >= 0
      && s.waitingReaders >= 0 && s.waitingWriters >= 0
  {
    InitSatisfiesInv(writerPriority);
    RunKeepsInv(Init(writerPriority), steps);
  }

  /**
   * Completion counters: over any run, reads_completed grows by exactly
   * the number of ReaderFinish steps and writes_completed by exactly the
   * number of WriterFinish steps; conflicts never decreases.
   */
  lemma {:induction false} RunCounters(s: LockState, steps: seq<Step>)
    requires Executes(s, steps)
    ensures Run(s, steps).readsCompleted == s.readsCompleted + multiset(steps)[ReaderFinish]
    ensures Run(s, steps).writesCompleted == s.writesCompleted + multiset(steps)[WriterFinish]
    ensures Run(s, steps).conflicts >= s.conflicts
    decreases |steps|
  {
    if steps != [] {
      assert steps == [steps[0]] + steps[1..];
      assert multiset(steps) == multiset([steps[0]]) + multiset(steps[1..]);
      RunCounters(Next(s, steps[0]), steps[1..]);
    }
  }

  /** Running one enabled step and then the rest. */
  lemma RunCons(s: LockState, step: Step, rest: seq<Step>)
    requires Enabled(s, step) && Executes(Next(s, step), rest)
    ensures Executes(s, [step] + rest) && Run(s, [step] + rest) == Run(Next(s, step), rest)
  {
    assert ([step] + rest)[0] == step && ([step] + rest)[1..] == rest;
  }

  /** A run of `a` followed by a run of `b` is a run of `a + b`. */
  lemma {:induction false} RunAppend(s: LockState, a: seq<Step>, b: seq<Step>)
    requires Executes(s, a) && Executes(Run(s, a), b)
    ensures Executes(s, a + b) && Run(s, a + b) == Run(Run(s, a), b)
    decreases |a|
  {
    if a == [] {
      assert a + b == b;
    } else {
      assert (a + b)[0] == a[0] && (a + b)[1..] == a[1..] + b;
      RunAppend(Next(s, a[0]), a[1..], b);
    }
  }

  /**
   * Writer handoff under reader priority: a writer that passes
   * writer_enter leaves waiting_writers where it found it and adds
   * exactly one to active_writers.
   */
  lemma WriterEntryReaderPriority(s: LockState, waitedLong: bool)
    requires Inv(s) && !s.writerPriority && s.permit == Free
    ensures var path := [WriterAnnounce, WriterTakePermit, WriterMarkActive, WriterJudgeWait(waitedLong)];
      && Executes(s, path)
      && Run(s, path).waitingWriters == s.waitingWriters
      && Run(s, path).activeWriters == s.activeWriters + 1
      && Run(s, path).permit == OneWriter
  {
    var head := [WriterAnnounce, WriterTakePermit, WriterMarkActive];
    WriterTakesFreePermit(s);
    var s3 := Run(s, head);
    RunCons(s3, WriterJudgeWait(waitedLong), []);
    RunAppend(s, head, [WriterJudgeWait(waitedLong)]);
    assert head + [WriterJudgeWait(waitedLong)]
        == [WriterAnnounce, WriterTakePermit, WriterMarkActive, WriterJudgeWait(waitedLong)];
  }

  /**
   * Writer handoff under writer priority: the same, with read_try taken
   * before writers_mutex and given back after active_writers is counted.
   */
  lemma WriterEntryWriterPriority(s: LockState, waitedLong: bool)
    requires Inv(s) && s.writerPriority && s.permit == Free && s.readTryFree
    ensures var path := [WriterAnnounce, WriterTakeReadTry, WriterTakePermit, WriterMarkActive,
                         WriterReleaseReadTry, WriterJudgeWait(waitedLong)];
      && Executes(s, path)
      && Run(s, path).waitingWriters == s.waitingWriters
      && Run(s, path).activeWriters == s.activeWriters + 1
      && Run(s, path).permit == OneWriter
      && Run(s, path).readTryFree
  {
    WriterPriorityEntryHead(s);
    var head := [WriterAnnounce, WriterTakeReadTry, WriterTakePermit];
    var tail := [WriterMarkActive, WriterReleaseReadTry, WriterJudgeWait(waitedLong)];
    WriterPriorityEntryTail(Run(s, head), waitedLong);
    RunAppend(s, head, tail);
    assert head + tail == [WriterAnnounce, WriterTakeReadTry, WriterTakePermit, WriterMarkActive,
                           WriterReleaseReadTry, WriterJudgeWait(waitedLong)];
  }

  /** The first half of writer_enter under writer priority: read_try, then writers_mutex. */
  lemma WriterPriorityEntryHead(s: LockState)
    requires s.writerPriority && s.permit == Free && s.readTryFree
    ensures var path := [WriterAnnounce, WriterTakeReadTry, WriterTakePermit];
      && Executes(s, path)
      && Run(s, path).writerPriority
      && Run(s, path).writers.gatedPermitted > 0
      && Run(s, path).waitingWriters == s.waitingWriters + 1
      && Run(s, path).activeWriters == s.activeWriters
      && Run(s, path).permit == OneWriter
      && !Run(s, path).readTryFree
  {
    var w := s.writers;
    var s1 := s.(waitingWriters := s.waitingWriters + 1, writers := w.(announced := w.announced + 1));
    var s2 := s1.(readTryFree := false, writers := w.(gated := w.gated + 1));
    var s3 := s2.(permit := OneWriter, writers := w.(gatedPermitted := w.gatedPermitted + 1));
    assert Enabled(s, WriterAnnounce) && Next(s, WriterAnnounce) == s1;
    assert Enabled(s1, WriterTakeReadTry) && Next(s1, WriterTakeReadTry) == s2;
    assert Enabled(s2, WriterTakePermit) && Next(s2, WriterTakePermit) == s3;
    var path := [WriterAnnounce, WriterTakeReadTry, WriterTakePermit];
    RunCons(s2, WriterTakePermit, []);
    RunCons(s1, WriterTakeReadTry, path[2..]);
    RunCons(s, WriterAnnounce, path[1..]);
  }

  /** The second half of writer_enter under writer priority. */
  lemma WriterPriorityEntryTail(s: LockState, waitedLong: bool)
    requires s.writerPriority && s.writers.gatedPermitted > 0
    ensures var path := [WriterMarkActive, WriterReleaseReadTry, WriterJudgeWait(waitedLong)];
      && Executes(s, path)
      && Run(s, path).waitingWriters == s.waitingWriters - 1
      && Run(s, path).activeWriters == s.activeWriters + 1
      && Run(s, path).permit == s.permit
      && Run(s, path).readTryFree
  {
    var w := s.writers;
    var c := if waitedLong then s.conflicts + 1 else s.conflicts;
    var s1 := s.(waitingWriters := s.waitingWriters - 1, activeWriters := s.activeWriters + 1,
                 writers := w.(gatedPermitted := w.gatedPermitted - 1, gatedActive := w.gatedActive + 1));
    var s2 := s1.(readTryFree := true,
                  writers := w.(gatedPermitted := w.gatedPermitted - 1, marked := w.marked + 1));
    var s3 := s2.(conflicts := c, writers := w.(gatedPermitted := w.gatedPermitted - 1, inside := w.inside + 1));
    assert Enabled(s, WriterMarkActive) && Next(s, WriterMarkActive) == s1;
    assert Enabled(s1, WriterReleaseReadTry) && Next(s1, WriterReleaseReadTry) == s2;
    assert Enabled(s2, WriterJudgeWait(waitedLong)) && Next(s2, WriterJudgeWait(waitedLong)) == s3;
    var path := [WriterMarkActive, WriterReleaseReadTry, WriterJudgeWait(waitedLong)];
    RunCons(s2, WriterJudgeWait(waitedLong), []);
    RunCons(s1, WriterReleaseReadTry, path[2..]);
    RunCons(s, WriterMarkActive, path[1..]);
  }

  /** Under writer priority a reader leaves the waiting_writers loop only when no writer waits. */
  lemma WriterPriorityHoldsReadersBack(s: LockState)
    requires Inv(s) && Enabled(s, ReaderCheckWriters)
    ensures s.waitingWriters > 0 ==> Next(s, ReaderCheckWriters) == s.(conflicts := s.conflicts + 1)
    ensures s.waitingWriters == 0 ==>
      Next(s, ReaderCheckWriters)
      == s.(readers := s.readers.(checking := s.readers.checking - 1, tryHeld := s.readers.tryHeld + 1))
  {
  }

  /**
   * Under writer priority, a reader in the waiting_writers loop still
   * holds read_try: a writer counted in waiting_writers cannot take
   * read_try, no other reader gets past it, and the reader's own test
   * changes nothing but the conflict count. Neither side can move on
   * along these steps.
   */
  lemma WriterPriorityStall(s: LockState)
    requires Inv(s) && s.writerPriority && s.readers.checking > 0 && s.waitingWriters > 0
    ensures !s.readTryFree
    ensures !Enabled(s, WriterTakeReadTry) && !Enabled(s, ReaderTakeGate)
    ensures var t := Next(s, ReaderCheckWriters);
      t == s.(conflicts := s.conflicts + 1)
  {
  }

  /** get_stats: the seven counters, copied. */
  function StatsOf(s: LockState): Stats {
    Stats(s.activeReaders, s.activeWriters, s.waitingReaders, s.waitingWriters,
          s.readsCompleted, s.writesCompleted, s.conflicts)
  }

  const DeadlockMessage := "Deadlock detected: Both readers and writers active"
  const StarvationMessage := "Potential starvation: Many threads waiting"

  /** try_detect_deadlock: the overlap test first, then the starvation heuristic. */
  function Diagnose(st: Stats): (r: Option<string>)
    ensures r == Some(DeadlockMessage) <==> st.activeWriters > 0 && st.activeReaders > 0
    ensures r == Some(StarvationMessage) <==>
      !(st.activeWriters > 0 && st.activeReaders > 0) && st.waitingWriters > 5 && st.waitingReaders > 5
    ensures r == None <==>
      !(st.activeWriters > 0 && st.activeReaders > 0) && !(st.waitingWriters > 5 && st.waitingReaders > 5)
  {
    if st.activeWriters > 0 && st.activeReaders > 0 then Some(DeadlockMessage)
    else if st.waitingWriters > 5 && st.waitingReaders > 5 then Some(StarvationMessage)
    else None
  }

  /**
   * What the invariant does say about the statistics: every counter is
   * non-negative, and active readers and active writers overlap, or two
   * writers count as active, only while some thread has already released
   * writers_mutex in its exit and not yet decremented its counter.
   */
  lemma StatsOverlapOnlyWhileLeaving(s: LockState)
    requires Inv(s)
    ensures var st := StatsOf(s);
      && st.activeReaders >= 0 && st.activeWriters >= 0
      && st.waitingReaders >= 0 && st.waitingWriters >= 0
      && st.readsCompleted >= 0 && st.writesCompleted >= 0 && st.conflicts >= 0
      && (st.activeReaders > 0 && st.activeWriters > 0 ==>
            s.readers.leaving > 0 || s.writers.leaving > 0)
      && (st.activeWriters > 1 ==> s.writers.leaving > 0)
  {
  }

  /**
   * The exit order makes the "Deadlock detected" report reachable under
   * reader priority: a reader releases writers_mutex (sync.py:135) before
   * it decrements active_readers (sync.py:138), and a writer enters in
   * between.
   */
  lemma DeadlockReportReachable(s: LockState)
    requires Idle(s) && !s.writerPriority
    ensures exists steps :: Executes(s, steps) && Diagnose(StatsOf(Run(s, steps))) == Some(DeadlockMessage)
  {
    var readerPart := [ReaderTakeReadTry, ReaderJoin, ReaderTakeGroupPermit, ReaderReleaseReadTry,
                       ReaderMarkActive, ReaderJudgeWait(false), ReaderLeaveGroup];
    LoneReaderLeaves(s);
    WriterEntersBehindLeavingReader(s, readerPart);
    var trace := readerPart + [WriterAnnounce, WriterTakePermit, WriterMarkActive];
    assert Executes(s, trace) && Diagnose(StatsOf(Run(s, trace))) == Some(DeadlockMessage);
  }

  /** After a run that leaves one reader still counted active, a writer can enter and be counted too. */
  lemma WriterEntersBehindLeavingReader(s: LockState, readerPart: seq<Step>)
    requires Idle(s) && !s.writerPriority && Executes(s, readerPart)
    requires Run(s, readerPart) == s.(activeReaders := s.activeReaders + 1, readers := NoReaders.(leaving := 1))
    ensures var trace := readerPart + [WriterAnnounce, WriterTakePermit, WriterMarkActive];
      && Executes(s, trace)
      && Run(s, trace).activeReaders == 1 && Run(s, trace).activeWriters == 1
  {
    var writerPart := [WriterAnnounce, WriterTakePermit, WriterMarkActive];
    WriterTakesFreePermit(Run(s, readerPart));
    RunAppend(s, readerPart, writerPart);
  }

  /** A lone reader enters and leaves readers_count, but has not yet decremented active_readers. */
  lemma LoneReaderLeaves(s: LockState)
    requires Idle(s) && !s.writerPriority
    ensures var path := [ReaderTakeReadTry, ReaderJoin, ReaderTakeGroupPermit, ReaderReleaseReadTry,
                         ReaderMarkActive, ReaderJudgeWait(false), ReaderLeaveGroup];
      && Executes(s, path)
      && Run(s, path) == s.(activeReaders := s.activeReaders + 1, readers := NoReaders.(leaving := 1))
  {
    var first := [ReaderTakeReadTry, ReaderJoin, ReaderTakeGroupPermit, ReaderReleaseReadTry];
    var second := [ReaderMarkActive, ReaderJudgeWait(false), ReaderLeaveGroup];
    LoneReaderJoins(s);
    LoneReaderLeavesGroup(Run(s, first));
    RunAppend(s, first, second);
    assert first + second == [ReaderTakeReadTry, ReaderJoin, ReaderTakeGroupPermit, ReaderReleaseReadTry,
                              ReaderMarkActive, ReaderJudgeWait(false), ReaderLeaveGroup];
  }

  /** The first reader counts itself, then takes writers_mutex for the group, then gives read_try back. */
  lemma LoneReaderJoins(s: LockState)
    requires Idle(s) && !s.writerPriority
    ensures var path := [ReaderTakeReadTry, ReaderJoin, ReaderTakeGroupPermit, ReaderReleaseReadTry];
      && Executes(s, path)
      && Run(s, path) == s.(readersCount := 1, permit := ReaderGroup, readers := NoReaders.(released := 1))
  {
    var s1 := s.(readTryFree := false, readers := NoReaders.(tryHeld := 1));
    var s2 := s1.(readersCount := 1, readers := NoReaders.(counted := 1));
    var s3 := s2.(permit := ReaderGroup, readers := NoReaders.(joined := 1));
    var s4 := s3.(readTryFree := true, readers := NoReaders.(released := 1));
    assert Enabled(s, ReaderTakeReadTry) && Next(s, ReaderTakeReadTry) == s1;
    assert Enabled(s1, ReaderJoin) && Next(s1, ReaderJoin) == s2;
    assert Enabled(s2, ReaderTakeGroupPermit) && Next(s2, ReaderTakeGroupPermit) == s3;
    assert Enabled(s3, ReaderReleaseReadTry) && Next(s3, ReaderReleaseReadTry) == s4;
    var path := [ReaderTakeReadTry, ReaderJoin, ReaderTakeGroupPermit, ReaderReleaseReadTry];
    RunCons(s3, ReaderReleaseReadTry, []);
    RunCons(s2, ReaderTakeGroupPermit, path[3..]);
    RunCons(s1, ReaderJoin, path[2..]);
    RunCons(s, ReaderTakeReadTry, path[1..]);
  }

  /**
   * Under reader priority the first reader is counted in readers_count
   * while a writer still holds writers_mutex: it waits for the permit
   * under readers_count_mutex.
   */
  lemma FirstReaderWaitsForWriter(s: LockState)
    requires Idle(s) && !s.writerPriority
    ensures var path := [WriterAnnounce, WriterTakePermit, ReaderTakeReadTry, ReaderJoin];
      && Executes(s, path)
      && Run(s, path).readersCount == 1 && Run(s, path).permit == OneWriter
      && !Enabled(Run(s, path), ReaderTakeGroupPermit)
  {
    var s1 := s.(waitingWriters := s.waitingWriters + 1, writers := NoWriters.(announced := 1));
    var s2 := s1.(permit := OneWriter, writers := NoWriters.(permitted := 1));
    var s3 := s2.(readTryFree := false, readers := NoReaders.(tryHeld := 1));
    var s4 := s3.(readersCount := 1, readers := NoReaders.(counted := 1));
    assert Enabled(s, WriterAnnounce) && Next(s, WriterAnnounce) == s1;
    assert Enabled(s1, WriterTakePermit) && Next(s1, WriterTakePermit) == s2;
    assert Enabled(s2, ReaderTakeReadTry) && Next(s2, ReaderTakeReadTry) == s3;
    assert Enabled(s3, ReaderJoin) && Next(s3, ReaderJoin) == s4;
    var path := [WriterAnnounce, WriterTakePermit, ReaderTakeReadTry, ReaderJoin];
    RunCons(s3, ReaderJoin, []);
    RunCons(s2, ReaderTakeReadTry, path[3..]);
    RunCons(s1, WriterTakePermit, path[2..]);
    RunCons(s, WriterAnnounce, path[1..]);
  }

  lemma LoneReaderLeavesGroup(s: LockState)
    requires s.readersCount == 1 && s.readers == NoReaders.(released := 1)
    ensures var path := [ReaderMarkActive, ReaderJudgeWait(false), ReaderLeaveGroup];
      && Executes(s, path)
      && Run(s, path) == s.(readersCount := 0, permit := Free, activeReaders := s.activeReaders + 1,
                            readers := NoReaders.(leaving := 1))
  {
    var s1 := s.(activeReaders := s.activeReaders + 1, readers := NoReaders.(marked := 1));
    var s2 := s1.(readers := NoReaders.(inside := 1));
    var s3 := s2.(readersCount := 0, permit := Free, readers := NoReaders.(leaving := 1));
    assert Enabled(s, ReaderMarkActive) && Next(s, ReaderMarkActive) == s1;
    assert Enabled(s1, ReaderJudgeWait(false)) && Next(s1, ReaderJudgeWait(false)) == s2;
    assert Enabled(s2, ReaderLeaveGroup) && Next(s2, ReaderLeaveGroup) == s3;
    var path := [ReaderMarkActive, ReaderJudgeWait(false), ReaderLeaveGroup];
    RunCons(s2, ReaderLeaveGroup, []);
    RunCons(s1, ReaderJudgeWait(false), path[2..]);
    RunCons(s, ReaderMarkActive, path[1..]);
  }

  /**
   * Under reader priority a writer that finds writers_mutex free takes it
   * and is counted in active_writers, whatever the readers' statistics say.
   */
  lemma WriterTakesFreePermit(s: LockState)
    requires !s.writerPriority && s.permit == Free
    ensures var path := [WriterAnnounce, WriterTakePermit, WriterMarkActive];
      && Executes(s, path)
      && Run(s, path).writerPriority == s.writerPriority
      && Run(s, path).permit == OneWriter
      && Run(s, path).waitingWriters == s.waitingWriters
      && Run(s, path).activeReaders == s.activeReaders
      && Run(s, path).activeWriters == s.activeWriters + 1
      && Run(s, path).writers.marked == s.writers.marked + 1
  {
    var w := s.writers;
    var s1 := s.(waitingWriters := s.waitingWriters + 1, writers := w.(announced := w.announced + 1));
    var s2 := s1.(permit := OneWriter, writers := w.(permitted := w.permitted + 1));
    var s3 := s2.(waitingWriters := s.waitingWriters, activeWriters := s.activeWriters + 1,
                  writers := w.(marked := w.marked + 1));
    assert Enabled(s, WriterAnnounce) && Next(s, WriterAnnounce) == s1;
    assert Enabled(s1, WriterTakePermit) && Next(s1, WriterTakePermit) == s2;
    assert Enabled(s2, WriterMarkActive) && Next(s2, WriterMarkActive) == s3;
    var path := [WriterAnnounce, WriterTakePermit, WriterMarkActive];
    RunCons(s2, WriterMarkActive, []);
    RunCons(s1, WriterTakePermit, path[2..]);
    RunCons(s, WriterAnnounce, path[1..]);
  }
}
