/**
 * The class ReaderWriterLock of sync.py, with the fields the source
 * updates in place. Each method is one atomic step of RwLockModel: its
 * requires clause is the step's guard (the semaphore or condition the
 * source blocks on), and its ensures clause ties the new state to
 * RwLockModel.Next, about which the safety properties are proved.
 * The ghost fields `readers` and `writers` record where the threads
 * that are inside the protocol stand.
 */
module RwLock {
  import opened Optional
  import opened RwLockModel

  class ReaderWriterLock {
    var writerPriority: bool
    var readersCount: int
    var writersMutex: Permit
    var readTryFree: bool
    var activeReaders: int
    var activeWriters: int
    var waitingReaders: int
    var waitingWriters: int
    var readsCompleted: int
    var writesCompleted: int
    var conflicts: int
    ghost var readers: ReaderPhases
    ghost var writers: WriterPhases

    ghost function State(): LockState
      reads this
    {
      LockState(writerPriority, readersCount, writersMutex, readTryFree,
                activeReaders, activeWriters, waitingReaders, waitingWriters,
                readsCompleted, writesCompleted, conflicts, readers, writers)
    }

    ghost predicate Valid()
      reads this
    {
      Inv(State())
    }

    constructor (writerPriority: bool)
      ensures Valid() && State() == Init(writerPriority)
    {
      this.writerPriority := writerPriority;
      readersCount := 0;
      writersMutex := Free;
      readTryFree := true;
      activeReaders, activeWriters, waitingReaders, waitingWriters := 0, 0, 0, 0;
      readsCompleted, writesCompleted, conflicts := 0, 0, 0;
      readers, writers := NoReaders, NoWriters;
      new;
      assert State() == Init(writerPriority);
      InitSatisfiesInv(writerPriority);
    }

    // ---- reader_enter, writer priority (sync.py:82-105) ----

    method ReaderAnnounce()
      requires Valid() && Enabled(State(), Step.ReaderAnnounce)
      modifies this
      ensures Valid() && State() == Next(old(State()), Step.ReaderAnnounce)
    {
      NextKeepsInv(State(), Step.ReaderAnnounce);
      waitingReaders := waitingReaders + 1;
      readers := readers.(queued := readers.queued + 1);
    }

    method ReaderTakeGate()
      requires Valid() && Enabled(State(), Step.ReaderTakeGate)
      modifies this
      ensures Valid() && State() == Next(old(State()), Step.ReaderTakeGate)
    {
      NextKeepsInv(State(), Step.ReaderTakeGate);
      readTryFree := false;
      readers := readers.(queued := readers.queued - 1, gated := readers.gated + 1);
    }

    method ReaderLeaveQueue()
      requires Valid() && Enabled(State(), Step.ReaderLeaveQueue)
      modifies this
      ensures Valid() && State() == Next(old(State()), Step.ReaderLeaveQueue)
    {
      NextKeepsInv(State(), Step.ReaderLeaveQueue);
      waitingReaders := waitingReaders - 1;
      readers := readers.(gated := readers.gated - 1, checking := readers.checking + 1);
    }

    /** One test of `while self.waiting_writers > 0`; `passed` is false when the reader keeps waiting. */
    method ReaderCheckWriters() returns (passed: bool)
      requires Valid() && Enabled(State(), Step.ReaderCheckWriters)
      modifies this
      ensures Valid() && State() == Next(old(State()), Step.ReaderCheckWriters)
      ensures passed <==> old(waitingWriters) == 0
    {
      NextKeepsInv(State(), Step.ReaderCheckWriters);
      passed := waitingWriters <= 0;
      if !passed {
        conflicts := conflicts + 1;
      } else {
        readers := readers.(checking := readers.checking - 1, tryHeld := readers.tryHeld + 1);
      }
    }

    // ---- reader_enter, reader priority (sync.py:110) ----

    method ReaderTakeReadTry()
      requires Valid() && Enabled(State(), Step.ReaderTakeReadTry)
      modifies this
      ensures Valid() && State() == Next(old(State()), Step.ReaderTakeReadTry)
    {
      NextKeepsInv(State(), Step.ReaderTakeReadTry);
      readTryFree := false;
      readers := readers.(tryHeld := readers.tryHeld + 1);
    }

    // ---- reader_enter, both modes (sync.py:99-105, 112-125) ----

    /**
     * `readers_count += 1` under readers_count_mutex; `first` says that
     * this reader must now take writers_mutex for the group. A later
     * reader joins a group that already holds it.
     */
    method ReaderJoin() returns (first: bool)
      requires Valid() && Enabled(State(), Step.ReaderJoin)
      modifies this
      ensures Valid() && State() == Next(old(State()), Step.ReaderJoin)
      ensures first <==> old(readersCount) == 0
      ensures !first ==> writersMutex == ReaderGroup
    {
      NextKeepsInv(State(), Step.ReaderJoin);
      readersCount := readersCount + 1;
      first := readersCount == 1;
      if first {
        readers := readers.(tryHeld := readers.tryHeld - 1, counted := readers.counted + 1);
      } else {
        readers := readers.(tryHeld := readers.tryHeld - 1, joined := readers.joined + 1);
      }
    }

    /** The first reader's `writers_mutex.acquire()`, once the permit is free. */
    method ReaderTakeGroupPermit()
      requires Valid() && Enabled(State(), Step.ReaderTakeGroupPermit)
      modifies this
      ensures Valid() && State() == Next(old(State()), Step.ReaderTakeGroupPermit)
      ensures writersMutex == ReaderGroup && readersCount == 1
    {
      NextKeepsInv(State(), Step.ReaderTakeGroupPermit);
      writersMutex := ReaderGroup;
      readers := readers.(counted := readers.counted - 1, joined := readers.joined + 1);
    }

    method ReaderReleaseReadTry()
      requires Valid() && Enabled(State(), Step.ReaderReleaseReadTry)
      modifies this
      ensures Valid() && State() == Next(old(State()), Step.ReaderReleaseReadTry)
    {
      NextKeepsInv(State(), Step.ReaderReleaseReadTry);
      readTryFree := true;
      readers := readers.(joined := readers.joined - 1, released := readers.released + 1);
    }

    method ReaderMarkActive()
      requires Valid() && Enabled(State(), Step.ReaderMarkActive)
      modifies this
      ensures Valid() && State() == Next(old(State()), Step.ReaderMarkActive)
    {
      NextKeepsInv(State(), Step.ReaderMarkActive);
      activeReaders := activeReaders + 1;
      readers := readers.(released := readers.released - 1, marked := readers.marked + 1);
    }

    /** `waitedLong` stands for `time.time() - start_time > 0.1`. */
    method ReaderJudgeWait(waitedLong: bool)
      requires Valid() && Enabled(State(), Step.ReaderJudgeWait(waitedLong))
      modifies this
      ensures Valid() && State() == Next(old(State()), Step.ReaderJudgeWait(waitedLong))
    {
      NextKeepsInv(State(), Step.ReaderJudgeWait(waitedLong));
      if waitedLong {
        conflicts := conflicts + 1;
      }
      readers := readers.(marked := readers.marked - 1, inside := readers.inside + 1);
    }

    // ---- reader_exit (sync.py:129-142) ----

    method ReaderLeaveGroup()
      requires Valid() && Enabled(State(), Step.ReaderLeaveGroup)
      modifies this
      ensures Valid() && State() == Next(old(State()), Step.ReaderLeaveGroup)
      ensures writersMutex == Free <==> readersCount == 0
    {
      NextKeepsInv(State(), Step.ReaderLeaveGroup);
      readersCount := readersCount - 1;
      if readersCount == 0 {
        writersMutex := Free;
      }
      readers := readers.(inside := readers.inside - 1, leaving := readers.leaving + 1);
    }

    method ReaderFinish()
      requires Valid() && Enabled(State(), Step.ReaderFinish)
      modifies this
      ensures Valid() && State() == Next(old(State()), Step.ReaderFinish)
    {
      NextKeepsInv(State(), Step.ReaderFinish);
      activeReaders := activeReaders - 1;
      readsCompleted := readsCompleted + 1;
      readers := readers.(leaving := readers.leaving - 1);
    }

    // ---- writer_enter (sync.py:144-187) ----

    method WriterAnnounce()
      requires Valid()
      modifies this
      ensures Valid() && State() == Next(old(State()), Step.WriterAnnounce)
    {
      NextKeepsInv(State(), Step.WriterAnnounce);
      waitingWriters := waitingWriters + 1;
      writers := writers.(announced := writers.announced + 1);
    }

    method WriterTakeReadTry()
      requires Valid() && Enabled(State(), Step.WriterTakeReadTry)
      modifies this
      ensures Valid() && State() == Next(old(State()), Step.WriterTakeReadTry)
    {
      NextKeepsInv(State(), Step.WriterTakeReadTry);
      readTryFree := false;
      writers := writers.(announced := writers.announced - 1, gated := writers.gated + 1);
    }

    method WriterTakePermit()
      requires Valid() && Enabled(State(), Step.WriterTakePermit)
      modifies this
      ensures Valid() && State() == Next(old(State()), Step.WriterTakePermit)
      ensures writersMutex == OneWriter && GroupMembers(State()) == 0
      ensures readersCount == readers.counted <= 1
    {
      NextKeepsInv(State(), Step.WriterTakePermit);
      writersMutex := OneWriter;
      if writerPriority {
        writers := writers.(gated := writers.gated - 1, gatedPermitted := writers.gatedPermitted + 1);
      } else {
        writers := writers.(announced := writers.announced - 1, permitted := writers.permitted + 1);
      }
    }

    method WriterMarkActive()
      requires Valid() && Enabled(State(), Step.WriterMarkActive)
      modifies this
      ensures Valid() && State() == Next(old(State()), Step.WriterMarkActive)
    {
      NextKeepsInv(State(), Step.WriterMarkActive);
      waitingWriters := waitingWriters - 1;
      activeWriters := activeWriters + 1;
      if writerPriority {
        writers := writers.(gatedPermitted := writers.gatedPermitted - 1, gatedActive := writers.gatedActive + 1);
      } else {
        writers := writers.(permitted := writers.permitted - 1, marked := writers.marked + 1);
      }
    }

    method WriterReleaseReadTry()
      requires Valid() && Enabled(State(), Step.WriterReleaseReadTry)
      modifies this
      ensures Valid() && State() == Next(old(State()), Step.WriterReleaseReadTry)
    {
      NextKeepsInv(State(), Step.WriterReleaseReadTry);
      readTryFree := true;
      writers := writers.(gatedActive := writers.gatedActive - 1, marked := writers.marked + 1);
    }

    method WriterJudgeWait(waitedLong: bool)
      requires Valid() && Enabled(State(), Step.WriterJudgeWait(waitedLong))
      modifies this
      ensures Valid() && State() == Next(old(State()), Step.WriterJudgeWait(waitedLong))
    {
      NextKeepsInv(State(), Step.WriterJudgeWait(waitedLong));
      if waitedLong {
        conflicts := conflicts + 1;
      }
      writers := writers.(marked := writers.marked - 1, inside := writers.inside + 1);
    }

    // ---- writer_exit (sync.py:189-197) ----

    method WriterReleasePermit()
      requires Valid() && Enabled(State(), Step.WriterReleasePermit)
      modifies this
      ensures Valid() && State() == Next(old(State()), Step.WriterReleasePermit)
    {
      NextKeepsInv(State(), Step.WriterReleasePermit);
      writersMutex := Free;
      writers := writers.(inside := writers.inside - 1, leaving := writers.leaving + 1);
    }

    method WriterFinish()
      requires Valid() && Enabled(State(), Step.WriterFinish)
      modifies this
      ensures Valid() && State() == Next(old(State()), Step.WriterFinish)
    {
      NextKeepsInv(State(), Step.WriterFinish);
      activeWriters := activeWriters - 1;
      writesCompleted := writesCompleted + 1;
      writers := writers.(leaving := writers.leaving - 1);
    }

    // ---- set_priority, get_stats, try_detect_deadlock (sync.py:199-231) ----

    /** Allowed only while no thread is inside the protocol. */
    method SetPriority(writerPriority: bool)
      requires Valid() && Quiescent(State())
      modifies this
      ensures Valid() && State() == Next(old(State()), Step.SetPriority(writerPriority))
    {
      NextKeepsInv(State(), Step.SetPriority(writerPriority));
      this.writerPriority := writerPriority;
    }

    /** A snapshot of the seven counters; reading it changes nothing. */
    function GetStats(): (st: Stats)
      reads this
      ensures st == StatsOf(State())
      ensures Valid() ==> st.activeReaders >= 0 && st.activeWriters >= 0
                          && st.waitingReaders >= 0 && st.waitingWriters >= 0
    {
      Stats(activeReaders, activeWriters, waitingReaders, waitingWriters,
            readsCompleted, writesCompleted, conflicts)
    }

    function TryDetectDeadlock(): (r: Option<string>)
      reads this
      ensures r == Some(DeadlockMessage) <==> activeWriters > 0 && activeReaders > 0
      ensures r == Some(StarvationMessage) <==>
        !(activeWriters > 0 && activeReaders > 0) && waitingWriters > 5 && waitingReaders > 5
      ensures r == None <==>
        !(activeWriters > 0 && activeReaders > 0) && !(waitingWriters > 5 && waitingReaders > 5)
    {
      Diagnose(GetStats())
    }
  }
}
