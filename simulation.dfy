/**
 * SimulationManager of simulation.py: the run control, one iteration of
 * each worker loop, message delivery and run-time reconfiguration.
 * Everything the manager does outside its own fields (a Qt signal, a
 * call into the lock, starting or joining a thread, a queue put) is
 * appended to `events`, so the order of those actions is part of each
 * method's contract. The manager's calls into the lock are recorded there
 * rather than executed: the lock's own steps are modelled in RwLockModel.
 * The database is the DatabaseSimulator object the workers really call.
 */
module Simulation {
  import opened Optional
  import opened Decimal
  import opened Messages
  import opened RunControl
  import opened Database

  /** The messages log_message carries; NoteText gives their wording. */
  datatype Note =
    | AlreadyRunning
    | Started(numReaders: int, numWriters: int)
    | Paused
    | Resumed
    | Stopped
    | Waited(role: Role, id: int, waitTime: real)
    | CountUpdated(role: Role, count: int)
    | DelayUpdated(role: Role, delay: real)
    | PriorityChanged(writerPriority: bool)
    | ThreadLog(text: string)

  /**
   * The text of a log message. The two that format a float (a wait time
   * and a delay) are not rendered.
   */
  function NoteText(n: Note): (r: Option<string>)
    ensures r.None? <==> n.Waited? || n.DelayUpdated?
  {
    match n
    case AlreadyRunning => Some("Simulation already running")
    case Started(r, w) => Some("Started " + IntToString(r) + " readers and " + IntToString(w) + " writers")
    case Paused => Some("Simulation paused")
    case Resumed => Some("Simulation resumed")
    case Stopped => Some("Simulation stopped")
    case Waited(_, _, _) => None
    case CountUpdated(role, k) => Some(RoleTitle(role) + "s updated to " + IntToString(k))
    case DelayUpdated(_, _) => None
    case PriorityChanged(b) => Some("Priority mode changed to " + (if b then "Writer Priority" else "Reader Priority"))
    case ThreadLog(text) => Some(text)
  }

  datatype Event =
    | Log(note: Note, level: Level)                 // log_message.emit
    | Put(message: ThreadMessage)                   // message_queue.put
    | ThreadUpdate(dict: MessageDict)               // thread_update.emit
    | ActiveSignal(role: Role, active: bool)        // reader_active / writer_active .emit
    | LockEnter(role: Role)                         // rw_lock.reader_enter / writer_enter
    | LockExit(role: Role)                          // rw_lock.reader_exit / writer_exit
    | LockSetPriority(writerPriority: bool)         // rw_lock.set_priority
    | DatabaseAccess(report: string)                // database.read / write, with its result
    | StartWorkers(readers: seq<int>, writers: seq<int>)  // thread.start() on every worker
    | StartServiceThreads                           // the stats worker and the message processor
    | JoinWorkers(readers: seq<int>, writers: seq<int>)   // thread.join(timeout=1.0) on every worker

  // ---------------------------------------------------------------
  // Configuration (simulation.py:68-72, 382-412)
  // ---------------------------------------------------------------

  datatype Config = Config(
    numReaders: int, numWriters: int, readDelay: real, writeDelay: real, writerPriority: bool)

  /** The arguments of update_configuration; None leaves a field as it is. */
  datatype Update = Update(
    numReaders: Option<int>, numWriters: Option<int>,
    readDelay: Option<real>, writeDelay: Option<real>, writerPriority: Option<bool>)

  const NoUpdate := Update(None, None, None, None, None)

  function Pick<T>(current: T, given: Option<T>): T {
    if given.Some? then given.value else current
  }

  /** update_configuration's effect on the configuration: exactly the given fields change. */
  function Reconfigure(c: Config, u: Update): (r: Config)
    ensures u.numReaders.Some? ==> r.numReaders == u.numReaders.value
    ensures u.numReaders.None? ==> r.numReaders == c.numReaders
    ensures u.numWriters.Some? ==> r.numWriters == u.numWriters.value
    ensures u.numWriters.None? ==> r.numWriters == c.numWriters
    ensures u.readDelay.Some? ==> r.readDelay == u.readDelay.value
    ensures u.readDelay.None? ==> r.readDelay == c.readDelay
    ensures u.writeDelay.Some? ==> r.writeDelay == u.writeDelay.value
    ensures u.writeDelay.None? ==> r.writeDelay == c.writeDelay
    ensures u.writerPriority.Some? ==> r.writerPriority == u.writerPriority.value
    ensures u.writerPriority.None? ==> r.writerPriority == c.writerPriority
  {
    Config(Pick(c.numReaders, u.numReaders), Pick(c.numWriters, u.numWriters),
           Pick(c.readDelay, u.readDelay), Pick(c.writeDelay, u.writeDelay),
           Pick(c.writerPriority, u.writerPriority))
  }

  /** Two updates in a row, as one: the later argument wins where both are given. */
  function Merge(first: Update, second: Update): Update {
    Update(if second.numReaders.Some? then second.numReaders else first.numReaders,
           if second.numWriters.Some? then second.numWriters else first.numWriters,
           if second.readDelay.Some? then second.readDelay else first.readDelay,
           if second.writeDelay.Some? then second.writeDelay else first.writeDelay,
           if second.writerPriority.Some? then second.writerPriority else first.writerPriority)
  }

  lemma ReconfigureNothing(c: Config)
    ensures Reconfigure(c, NoUpdate) == c
  {
  }

  lemma ReconfigureIdempotent(c: Config, u: Update)
    ensures Reconfigure(Reconfigure(c, u), u) == Reconfigure(c, u)
  {
  }

  lemma ReconfigureTwice(c: Config, first: Update, second: Update)
    ensures Reconfigure(Reconfigure(c, first), second) == Reconfigure(c, Merge(first, second))
  {
  }

  /** The log line for a count argument, if given. */
  function CountLog(role: Role, n: Option<int>): (r: seq<Event>)
    ensures forall i :: 0 <= i < |r| ==> r[i].Log?
    ensures n.Some? <==> |r| == 1
    ensures n.None? <==> r == []
    ensures n.Some? ==> r[0] == Log(CountUpdated(role, n.value), Info)
  {
    if n.Some? then [Log(CountUpdated(role, n.value), Info)] else []
  }

  /** The log line for a delay argument, if given. */
  function DelayLog(role: Role, delay: Option<real>): (r: seq<Event>)
    ensures forall i :: 0 <= i < |r| ==> r[i].Log?
    ensures delay.Some? <==> |r| == 1
    ensures delay.None? <==> r == []
    ensures delay.Some? ==> r[0] == Log(DelayUpdated(role, delay.value), Info)
  {
    if delay.Some? then [Log(DelayUpdated(role, delay.value), Info)] else []
  }

  /** Forwarding a given priority to the lock, then logging it. */
  function PriorityEvents(writerPriority: Option<bool>): (r: seq<Event>)
    ensures forall b: bool :: LockSetPriority(b) in r <==> writerPriority == Some(b)
  {
    if writerPriority.Some? then
      [LockSetPriority(writerPriority.value), Log(PriorityChanged(writerPriority.value), Info)]
    else []
  }

  /**
   * What update_configuration logs and forwards, in order; the lock hears
   * of a new priority exactly when one is given.
   */
  function ConfigEvents(u: Update): (r: seq<Event>)
    ensures forall b: bool :: LockSetPriority(b) in r <==> u.writerPriority == Some(b)
  {
    var logs := CountLog(Reader, u.numReaders) + CountLog(Writer, u.numWriters)
                + DelayLog(Reader, u.readDelay) + DelayLog(Writer, u.writeDelay);
    assert forall i :: 0 <= i < |logs| ==> logs[i].Log?;
    logs + PriorityEvents(u.writerPriority)
  }

  // ---------------------------------------------------------------
  // One worker iteration (simulation.py:192-231, 249-289)
  // ---------------------------------------------------------------

  /** The three timestamps a worker's messages get from `time.time()`. */
  datatype Stamps = Stamps(entering: real, working: real, completed: real)

  function WorkAction(role: Role): Action {
    if role == Reader then Read else Write
  }

  /** The messages one iteration sends: (enter, waiting), (read|write, active), (exit, completed, result). */
  function IterationMessages(role: Role, id: int, stamps: Stamps, report: string): seq<ThreadMessage> {
    [ThreadMessage(role, id, Enter, Waiting, None, stamps.entering),
     ThreadMessage(role, id, WorkAction(role), Active, None, stamps.working),
     ThreadMessage(role, id, Exit, Completed, Some(report), stamps.completed)]
  }

  /** Announcing the entry, entering the lock, and logging a long wait (simulation.py:203-212, 260-269). */
  function EnterEvents(role: Role, id: int, waitTime: real, entering: real): seq<Event> {
    [Put(ThreadMessage(role, id, Enter, Waiting, None, entering)), LockEnter(role)]
    + (if waitTime > 0.0 then [Log(Waited(role, id, waitTime), Debug)] else [])
  }

  /** Announcing the work, raising the active signal, and the database access (simulation.py:215-219, 272-277). */
  function WorkEvents(role: Role, id: int, working: real, report: string): seq<Event> {
    [Put(ThreadMessage(role, id, WorkAction(role), Active, None, working)), ActiveSignal(role, true),
     DatabaseAccess(report)]
  }

  /** Reporting completion, lowering the active signal, and leaving the lock (simulation.py:222-226, 280-284). */
  function ExitEvents(role: Role, id: int, completed: real, report: string): seq<Event> {
    [Put(ThreadMessage(role, id, Exit, Completed, Some(report), completed)), ActiveSignal(role, false),
     LockExit(role)]
  }

  /** Everything one iteration does, in order. */
  function IterationEvents(role: Role, id: int, waitTime: real, stamps: Stamps, report: string): seq<Event> {
    EnterEvents(role, id, waitTime, stamps.entering) + WorkEvents(role, id, stamps.working, report)
    + ExitEvents(role, id, stamps.completed, report)
  }

  /** The messages put on the queue, in order. */
  function PutsOf(events: seq<Event>): seq<ThreadMessage> {
    if events == [] then []
    else (if events[0].Put? then [events[0].message] else []) + PutsOf(events[1..])
  }

  lemma {:induction false} PutsOfAppend(a: seq<Event>, b: seq<Event>)
    ensures PutsOf(a + b) == PutsOf(a) + PutsOf(b)
    decreases |a|
  {
    if a == [] {
      assert a + b == b;
    } else {
      assert (a + b)[0] == a[0] && (a + b)[1..] == a[1..] + b;
      PutsOfAppend(a[1..], b);
    }
  }

  /** One iteration puts exactly its three messages on the queue, in order. */
  lemma IterationPuts(role: Role, id: int, waitTime: real, stamps: Stamps, report: string)
    ensures PutsOf(IterationEvents(role, id, waitTime, stamps, report)) == IterationMessages(role, id, stamps, report)
  {
    var ms := IterationMessages(role, id, stamps, report);
    var head: seq<Event> := [Put(ms[0]), LockEnter(role)];
    var wait: seq<Event> := if waitTime > 0.0 then [Log(Waited(role, id, waitTime), Debug)] else [];
    var work := WorkEvents(role, id, stamps.working, report);
    var exit := ExitEvents(role, id, stamps.completed, report);
    assert EnterEvents(role, id, waitTime, stamps.entering) == head + wait;
    PutsOfAppend(head, wait);
    PutsOfAppend(head + wait, work);
    PutsOfAppend(head + wait + work, exit);
    assert PutsOf(wait) == [];
    assert PutsOf(work[2..]) == [];
    assert PutsOf(work[1..]) == [];
    assert PutsOf(work) == [ms[1]];
    assert PutsOf(exit[2..]) == [];
    assert PutsOf(exit[1..]) == [];
    assert PutsOf(exit) == [ms[2]];
    assert PutsOf(head[1..]) == [];
    assert PutsOf(head) == [ms[0]];
  }

  /**
   * The lock is entered right after the (enter, waiting) message and left
   * exactly once, as the last action, after the completed message and the
   * end of the active signal.
   */
  lemma IterationLockOrder(role: Role, id: int, waitTime: real, stamps: Stamps, report: string)
    ensures var ev := IterationEvents(role, id, waitTime, stamps, report);
      var ms := IterationMessages(role, id, stamps, report);
      && ev[0] == Put(ms[0]) && ev[1] == LockEnter(role)
      && ev[|ev| - 3] == Put(ms[2]) && ev[|ev| - 2] == ActiveSignal(role, false)
      && ev[|ev| - 1] == LockExit(role) && LockExit(role) !in ev[..|ev| - 1]
  {
    var enter := EnterEvents(role, id, waitTime, stamps.entering);
    var work := WorkEvents(role, id, stamps.working, report);
    var exit := ExitEvents(role, id, stamps.completed, report);
    var ev := IterationEvents(role, id, waitTime, stamps, report);
    assert ev[|ev| - 3..] == exit;
    assert ev[..|ev| - 1] == enter + work + exit[..2];
  }

  /**
   * Of the messages a worker sends, process_messages logs only the one
   * that announces the read or write, and always at DEBUG: the INFO
   * branch is never taken for them.
   */
  lemma IterationLogsOnlyWork(role: Role, id: int, stamps: Stamps, report: string)
    ensures var ms := IterationMessages(role, id, stamps, report);
      && LogFor(ms[0]).None? && LogFor(ms[2]).None?
      && LogFor(ms[1]).Some? && LogFor(ms[1]).value.level == Debug
  {
  }

  /** The payload a writer writes; `clock` stands for `f"{time.time():.2f}"`. */
  function WriterPayload(writerId: int, clock: string): string {
    "Data written by Writer " + IntToString(writerId) + " at " + clock
  }

  /** The events process_messages appends for one message. */
  function DeliveryEvents(m: ThreadMessage): (r: seq<Event>)
    ensures |r| >= 1 && r[0] == ThreadUpdate(ToDict(m))
    ensures |r| == 2 <==> m.action == Read || m.action == Write
    ensures |r| == 1 <==> !(m.action == Read || m.action == Write)
    ensures |r| == 2 ==> r[1] == Log(ThreadLog(LogFor(m).value.text), LogFor(m).value.level)
  {
    [ThreadUpdate(ToDict(m))]
    + match LogFor(m)
      case Some(line) => [Log(ThreadLog(line.text), line.level)]
      case None => []
  }

  /** What process_messages found on one turn of its loop. */
  datatype Delivery = Finished | NoMessage | Delivered(dict: MessageDict)

  /**
   * What start logs and starts: only a warning while running; otherwise the
   * workers with the next ids of each role, then the service threads, then
   * the log line with the counts.
   */
  function StartEvents(c: Control, numReaders: int, numWriters: int): (r: seq<Event>)
    ensures c.running <==> r == [Log(AlreadyRunning, Warning)]
    ensures !c.running ==> (|r| == 3 && r[1] == StartServiceThreads
                            && r[2] == Log(Started(numReaders, numWriters), Info))
    ensures WellFormed(c) && !c.running ==>
      r[0] == StartWorkers(IdRange(c.nextReaderId, Count(numReaders)), IdRange(c.nextWriterId, Count(numWriters)))
  {
    if c.running then [Log(AlreadyRunning, Warning)]
    else
      var r := AfterStart(c, numReaders, numWriters);
      assert WellFormed(c) ==> r.readers == IdRange(c.nextReaderId, Count(numReaders))
                               && r.writers == IdRange(c.nextWriterId, Count(numWriters)) by {
        if WellFormed(c) {
          StartRegistersNextIds(c, numReaders, numWriters);
        }
      }
      [StartWorkers(r.readers, r.writers), StartServiceThreads, Log(Started(numReaders, numWriters), Info)]
  }

  /** Three appends in a row, re-associated. */
  lemma Append3<T>(s: seq<T>, a: seq<T>, b: seq<T>, c: seq<T>)
    ensures ((s + a) + b) + c == s + (a + b + c)
  {
  }

  /** Five appends in a row, re-associated. */
  lemma Append5<T>(s: seq<T>, a: seq<T>, b: seq<T>, c: seq<T>, d: seq<T>, e: seq<T>)
    ensures ((((s + a) + b) + c) + d) + e == s + (a + b + c + d + e)
  {
  }

  class SimulationManager {
    var numReaders: int
    var numWriters: int
    var readDelay: real
    var writeDelay: real
    var writerPriority: bool
    var running: bool
    var paused: bool
    var readerThreads: seq<int>
    var writerThreads: seq<int>
    var nextReaderId: int
    var nextWriterId: int
    var messageQueue: seq<ThreadMessage>
    var events: seq<Event>
    const database: DatabaseSimulator

    function RunState(): Control
      reads this
    {
      Control(running, paused, readerThreads, writerThreads, nextReaderId, nextWriterId)
    }

    function Configuration(): Config
      reads this
    {
      Config(numReaders, numWriters, readDelay, writeDelay, writerPriority)
    }

    predicate Valid()
      reads this
    {
      WellFormed(RunState())
    }

    constructor (numReaders: int, numWriters: int, readDelay: real, writeDelay: real, writerPriority: bool)
      ensures Valid() && RunState() == InitialControl
      ensures Configuration() == Config(numReaders, numWriters, readDelay, writeDelay, writerPriority)
      ensures messageQueue == [] && events == []
      ensures fresh(database) && database.data == InitialContent && database.accessCount == 0
    {
      this.numReaders := numReaders;
      this.numWriters := numWriters;
      this.readDelay := readDelay;
      this.writeDelay := writeDelay;
      this.writerPriority := writerPriority;
      running, paused := false, false;
      readerThreads, writerThreads := [], [];
      nextReaderId, nextWriterId := 1, 1;
      messageQueue, events := [], [];
      database := new DatabaseSimulator(InitialContent);
    }

    method Start()
      requires Valid()
      modifies this
      ensures Valid() && RunState() == AfterStart(old(RunState()), old(numReaders), old(numWriters))
      ensures Configuration() == old(Configuration()) && messageQueue == old(messageQueue)
      ensures events == old(events) + StartEvents(old(RunState()), old(numReaders), old(numWriters))
    {
      ApplyKeepsWellFormed(RunState(), Command.Start(numReaders, numWriters));
      if running {
        events := events + [Log(AlreadyRunning, Warning)];
        return;
      }
      running := true;
      paused := false;
      RegisterReaders(numReaders);
      RegisterWriters(numWriters);
      events := events + [StartWorkers(readerThreads, writerThreads), StartServiceThreads,
                          Log(Started(numReaders, numWriters), Info)];
    }

    /** start's first loop: one reader thread per id, the counter advancing past each. */
    method RegisterReaders(n: int)
      modifies this`readerThreads, this`nextReaderId
      ensures readerThreads == old(readerThreads) + IdRange(old(nextReaderId), Count(n))
      ensures nextReaderId == old(nextReaderId) + Count(n)
    {
      ghost var first := nextReaderId;
      for i := 0 to Count(n)
        invariant readerThreads == old(readerThreads) + IdRange(first, i)
        invariant nextReaderId == first + i
      {
        assert IdRange(first, i) + [nextReaderId] == IdRange(first, i + 1);
        readerThreads := readerThreads + [nextReaderId];
        nextReaderId := nextReaderId + 1;
      }
    }

    /** start's second loop, for writers. */
    method RegisterWriters(n: int)
      modifies this`writerThreads, this`nextWriterId
      ensures writerThreads == old(writerThreads) + IdRange(old(nextWriterId), Count(n))
      ensures nextWriterId == old(nextWriterId) + Count(n)
    {
      ghost var first := nextWriterId;
      for i := 0 to Count(n)
        invariant writerThreads == old(writerThreads) + IdRange(first, i)
        invariant nextWriterId == first + i
      {
        assert IdRange(first, i) + [nextWriterId] == IdRange(first, i + 1);
        writerThreads := writerThreads + [nextWriterId];
        nextWriterId := nextWriterId + 1;
      }
    }

    method Pause()
      requires Valid()
      modifies this
      ensures Valid() && RunState() == AfterPause(old(RunState()))
      ensures Configuration() == old(Configuration()) && messageQueue == old(messageQueue)
      ensures events == old(events) + [Log(Paused, Info)]
    {
      paused := true;
      events := events + [Log(Paused, Info)];
    }

    method Resume()
      requires Valid()
      modifies this
      ensures Valid() && RunState() == AfterResume(old(RunState()))
      ensures Configuration() == old(Configuration()) && messageQueue == old(messageQueue)
      ensures events == old(events) + [Log(Resumed, Info)]
    {
      paused := false;
      events := events + [Log(Resumed, Info)];
    }

    method Stop()
      requires Valid()
      modifies this
      ensures Valid() && RunState() == AfterStop(old(RunState()))
      ensures Configuration() == old(Configuration()) && messageQueue == old(messageQueue)
      ensures events == old(events) + [JoinWorkers(old(readerThreads), old(writerThreads)), Log(Stopped, Info)]
    {
      running := false;
      paused := false;
      var joined := JoinWorkers(readerThreads, writerThreads);
      readerThreads := [];
      writerThreads := [];
      events := events + [joined, Log(Stopped, Info)];
    }

    function IsRunning(): (r: bool)
      reads this
      ensures r == RunState().running
    {
      running
    }

    function IsPaused(): (r: bool)
      reads this
      ensures r == RunState().paused
    {
      paused
    }

    /** send_thread_message: the queue is unbounded, so the put always succeeds. */
    method SendThreadMessage(threadType: Role, threadId: int, action: Action, status: Status,
                             data: Option<string>, timestamp: real)
      modifies this`messageQueue, this`events
      ensures messageQueue == old(messageQueue) + [ThreadMessage(threadType, threadId, action, status, data, timestamp)]
      ensures events == old(events) + [Put(ThreadMessage(threadType, threadId, action, status, data, timestamp))]
    {
      var message := ThreadMessage(threadType, threadId, action, status, data, timestamp);
      messageQueue := messageQueue + [message];
      events := events + [Put(message)];
    }

    /**
     * One turn of reader_worker's loop. `waitTime` is what reader_enter
     * returned. A worker that must wait does nothing yet; one that leaves
     * does nothing at all.
     */
    method ReaderIteration(readerId: int, waitTime: real, stamps: Stamps) returns (d: Decision, report: string)
      modifies this`messageQueue, this`events, database
      ensures d == WorkerDecision(running, paused)
      ensures database.data == old(database.data)
      ensures d != Proceed ==> events == old(events) && messageQueue == old(messageQueue)
                               && database.accessCount == old(database.accessCount)
      ensures d == Proceed ==> database.accessCount == old(database.accessCount) + 1
      ensures d == Proceed ==> report == ReadReport(readerId, database.data, database.accessCount)
      ensures d == Proceed ==> events == old(events) + IterationEvents(Reader, readerId, waitTime, stamps, report)
      ensures d == Proceed ==> messageQueue == old(messageQueue) + IterationMessages(Reader, readerId, stamps, report)
    {
      d := WorkerDecision(running, paused);
      report := "";
      if d != Proceed {
        return;
      }
      ghost var q0, e0 := messageQueue, events;
      EnterPhase(Reader, readerId, waitTime, stamps.entering);
      report := ReadPhase(readerId, stamps.working);
      ExitPhase(Reader, readerId, stamps.completed, report);
      Append3(e0, EnterEvents(Reader, readerId, waitTime, stamps.entering),
              WorkEvents(Reader, readerId, stamps.working, report),
              ExitEvents(Reader, readerId, stamps.completed, report));
      ghost var ms := IterationMessages(Reader, readerId, stamps, report);
      Append3(q0, [ms[0]], [ms[1]], [ms[2]]);
    }

    /**
     * One turn of writer_worker's loop. `clock` is the text of the time
     * the payload records.
     */
    method WriterIteration(writerId: int, waitTime: real, stamps: Stamps, clock: string) returns (d: Decision, report: string)
      modifies this`messageQueue, this`events, database
      ensures d == WorkerDecision(running, paused)
      ensures d != Proceed ==> events == old(events) && messageQueue == old(messageQueue)
                               && database.data == old(database.data)
                               && database.accessCount == old(database.accessCount)
      ensures d == Proceed ==> database.data == WriterPayload(writerId, clock)
                               && database.accessCount == old(database.accessCount) + 1
      ensures d == Proceed ==> report == WriteReport(writerId, database.data, database.accessCount)
      ensures d == Proceed ==> events == old(events) + IterationEvents(Writer, writerId, waitTime, stamps, report)
      ensures d == Proceed ==> messageQueue == old(messageQueue) + IterationMessages(Writer, writerId, stamps, report)
    {
      d := WorkerDecision(running, paused);
      report := "";
      if d != Proceed {
        return;
      }
      ghost var q0, e0 := messageQueue, events;
      EnterPhase(Writer, writerId, waitTime, stamps.entering);
      report := WritePhase(writerId, stamps.working, WriterPayload(writerId, clock));
      ExitPhase(Writer, writerId, stamps.completed, report);
      Append3(e0, EnterEvents(Writer, writerId, waitTime, stamps.entering),
              WorkEvents(Writer, writerId, stamps.working, report),
              ExitEvents(Writer, writerId, stamps.completed, report));
      ghost var ms := IterationMessages(Writer, writerId, stamps, report);
      Append3(q0, [ms[0]], [ms[1]], [ms[2]]);
    }

    /** The first phase of an iteration: announce, enter the lock, log a long wait. */
    method EnterPhase(role: Role, id: int, waitTime: real, entering: real)
      modifies this`messageQueue, this`events
      ensures messageQueue == old(messageQueue) + [ThreadMessage(role, id, Enter, Waiting, None, entering)]
      ensures events == old(events) + EnterEvents(role, id, waitTime, entering)
    {
      SendThreadMessage(role, id, Enter, Waiting, None, entering);
      events := events + [LockEnter(role)];
      if waitTime > 0.0 {
        events := events + [Log(Waited(role, id, waitTime), Debug)];
      }
    }

    /** A reader's second phase: announce, raise the signal, read. */
    method ReadPhase(id: int, working: real) returns (report: string)
      modifies this`messageQueue, this`events, database
      ensures messageQueue == old(messageQueue) + [ThreadMessage(Reader, id, Read, Active, None, working)]
      ensures events == old(events) + WorkEvents(Reader, id, working, report)
      ensures database.data == old(database.data) && database.accessCount == old(database.accessCount) + 1
      ensures report == ReadReport(id, database.data, database.accessCount)
    {
      SendThreadMessage(Reader, id, Read, Active, None, working);
      events := events + [ActiveSignal(Reader, true)];
      report := database.Read(id);
      events := events + [DatabaseAccess(report)];
    }

    /** A writer's second phase: announce, raise the signal, write. */
    method WritePhase(id: int, working: real, payload: string) returns (report: string)
      modifies this`messageQueue, this`events, database
      ensures messageQueue == old(messageQueue) + [ThreadMessage(Writer, id, Write, Active, None, working)]
      ensures events == old(events) + WorkEvents(Writer, id, working, report)
      ensures database.data == payload && database.accessCount == old(database.accessCount) + 1
      ensures report == WriteReport(id, payload, database.accessCount)
    {
      SendThreadMessage(Writer, id, Write, Active, None, working);
      events := events + [ActiveSignal(Writer, true)];
      report := database.Write(id, payload);
      events := events + [DatabaseAccess(report)];
    }

    /** The last phase: report completion, lower the signal, leave the lock. */
    method ExitPhase(role: Role, id: int, completed: real, report: string)
      modifies this`messageQueue, this`events
      ensures messageQueue == old(messageQueue) + [ThreadMessage(role, id, Exit, Completed, Some(report), completed)]
      ensures events == old(events) + ExitEvents(role, id, completed, report)
    {
      SendThreadMessage(role, id, Exit, Completed, Some(report), completed);
      events := events + [ActiveSignal(role, false), LockExit(role)];
    }

    /**
     * One turn of process_messages' loop: the oldest message is taken off
     * the queue, emitted as a dictionary and, for a read or a write, logged.
     */
    method ProcessNextMessage() returns (outcome: Delivery)
      modifies this`messageQueue, this`events
      ensures outcome == Finished <==> !running
      ensures outcome == NoMessage <==> running && old(messageQueue) == []
      ensures !outcome.Delivered? ==> messageQueue == old(messageQueue) && events == old(events)
      ensures outcome.Delivered? ==> old(messageQueue) != []
      ensures outcome.Delivered? ==> FromDict(outcome.dict) == Some(old(messageQueue)[0])
      ensures outcome.Delivered? ==> messageQueue == old(messageQueue)[1..]
      ensures outcome.Delivered? ==> events == old(events) + DeliveryEvents(old(messageQueue)[0])
    {
      if !running {
        return Finished;
      }
      if messageQueue == [] {
        return NoMessage;
      }
      var message := messageQueue[0];
      messageQueue := messageQueue[1..];
      var dict := ToDict(message);
      DictRoundTrip(message);
      events := events + [ThreadUpdate(dict)];
      match LogFor(message) {
        case Some(line) =>
          events := events + [Log(ThreadLog(line.text), line.level)];
        case None =>
      }
      outcome := Delivered(dict);
    }

    /**
     * update_configuration: each given argument replaces its field and is
     * logged; a given priority is also forwarded to the lock.
     */
    method UpdateConfiguration(numReaders: Option<int>, numWriters: Option<int>,
                               readDelay: Option<real>, writeDelay: Option<real>,
                               writerPriority: Option<bool>)
      modifies this`numReaders, this`numWriters, this`readDelay, this`writeDelay, this`writerPriority, this`events
      ensures Configuration() == Reconfigure(old(Configuration()), Update(numReaders, numWriters, readDelay, writeDelay, writerPriority))
      ensures events == old(events) + ConfigEvents(Update(numReaders, numWriters, readDelay, writeDelay, writerPriority))
    {
      ghost var e0 := events;
      UpdateNumReaders(numReaders);
      UpdateNumWriters(numWriters);
      UpdateReadDelay(readDelay);
      UpdateWriteDelay(writeDelay);
      UpdateWriterPriority(writerPriority);
      Append5(e0, CountLog(Reader, numReaders), CountLog(Writer, numWriters),
              DelayLog(Reader, readDelay), DelayLog(Writer, writeDelay), PriorityEvents(writerPriority));
    }

    method UpdateNumReaders(n: Option<int>)
      modifies this`numReaders, this`events
      ensures numReaders == Pick(old(numReaders), n)
      ensures events == old(events) + CountLog(Reader, n)
    {
      if n.Some? {
        numReaders := n.value;
        events := events + [Log(CountUpdated(Reader, n.value), Info)];
      }
    }

    method UpdateNumWriters(n: Option<int>)
      modifies this`numWriters, this`events
      ensures numWriters == Pick(old(numWriters), n)
      ensures events == old(events) + CountLog(Writer, n)
    {
      if n.Some? {
        numWriters := n.value;
        events := events + [Log(CountUpdated(Writer, n.value), Info)];
      }
    }

    method UpdateReadDelay(delay: Option<real>)
      modifies this`readDelay, this`events
      ensures readDelay == Pick(old(readDelay), delay)
      ensures events == old(events) + DelayLog(Reader, delay)
    {
      if delay.Some? {
        readDelay := delay.value;
        events := events + [Log(DelayUpdated(Reader, delay.value), Info)];
      }
    }

    method UpdateWriteDelay(delay: Option<real>)
      modifies this`writeDelay, this`events
      ensures writeDelay == Pick(old(writeDelay), delay)
      ensures events == old(events) + DelayLog(Writer, delay)
    {
      if delay.Some? {
        writeDelay := delay.value;
        events := events + [Log(DelayUpdated(Writer, delay.value), Info)];
      }
    }

    method UpdateWriterPriority(writerPriority: Option<bool>)
      modifies this`writerPriority, this`events
      ensures this.writerPriority == Pick(old(this.writerPriority), writerPriority)
      ensures events == old(events) + PriorityEvents(writerPriority)
    {
      if writerPriority.Some? {
        this.writerPriority := writerPriority.value;
        events := events + [LockSetPriority(writerPriority.value), Log(PriorityChanged(writerPriority.value), Info)];
      }
    }
  }
}
