# Readers–writers simulation: a Dafny model

The program is a teaching demo of the readers–writers problem. Reader and
writer threads share a simulated database, guarded by a `ReaderWriterLock`.
`sync.py` also defines a `FairReaderWriterLock`, which the manager does not
use. A `SimulationManager` starts, pauses, resumes and stops these threads and
passes their progress messages to a GUI. This project models the
synchronisation core and the manager's bookkeeping, and proves safety
properties about them.

- **`ReaderWriterLock`** (sync.py) has two modes: reader priority and writer
  priority.
  - `RwLockModel` describes the lock as a state machine. Every `with`-block
    and every semaphore operation of `reader_enter`, `reader_exit`,
    `writer_enter` and `writer_exit` is one atomic `Step`. A blocking wait
    is the guard under which its step is `Enabled`. The two unguarded
    `conflicts += 1` after a long wait are steps of their own as well. The
    `readers_count_mutex` block of `reader_enter` is cut at its blocking
    `writers_mutex.acquire()`: `ReaderJoin` increments `readers_count`, and
    the first reader then waits, still inside the block, until
    `ReaderTakeGroupPermit` can take the permit.
  - The threads inside the protocol are counted per program point
    (`ReaderPhases`, `WriterPhases`). The invariant `Inv` ties these
    counts to `readers_count`, to the owner of the binary semaphore
    `writers_mutex` (free, the reader group, or one writer), to `read_try`,
    and to every statistics counter.
  - The class `RwLock.ReaderWriterLock` holds the source's fields. Each
    method performs one step, proved equal to `Next`.
- **`FairReaderWriterLock`** (sync.py) has the same shape, in module
  `FairLock`. Its four counters are exact, so it needs no ghost state.
- **`DatabaseSimulator`** (sync.py) is module `Database`. It holds the
  payload string and the access counter. A read or write returns a report
  that ends with the access number, and `get_status` previews the payload.
- **`SimulationManager`** (simulation.py) is split in three:
  - `RunControl` holds its run control as pure functions: the `running` and
    `paused` flags, the worker registries and the per-role id counters.
  - `Messages` holds `ThreadMessage`, the dictionary `process_messages`
    builds from it, and the log line it chooses.
  - `Simulation.SimulationManager` is the class. Its methods are proved to
    follow those functions.
  - Everything the manager does outside its own fields is appended, in
    order, to the sequence `events`: a Qt signal, a lock call, a queue put,
    a database access, starting or joining threads.
- **`Decimal`** renders integers as Python's f-strings do, and reads
  naturals back.

Where `ReaderWriterLock`'s documentation and its code disagree, the model follows the code. The
class documentation of `ReaderWriterLock` and the deadlock check in
`try_detect_deadlock` treat active readers and active writers together as
impossible. In the code, `reader_exit` releases `writers_mutex` before it
decrements `active_readers` (sync.py:135, 138), and `writer_exit` does the
same (sync.py:191, 194). The statistics can therefore show both at once,
and `DeadlockReportReachable` builds a concrete run where the "Deadlock
detected" report fires. What the model proves is exclusion on the owner of
`writers_mutex` (`ReachableMutualExclusion`). For the statistics it proves
only that they overlap while a thread is leaving
(`StatsOverlapOnlyWhileLeaving`).

## Model

| member | source | states |
|---|---|---|
| RwLockModel.InitSatisfiesInv | sync.py:25-61 | A new lock, in the given mode, satisfies the lock invariant, with no thread inside, both semaphores free, readers_count 0, and all seven statistics counters at 0. |
| RwLockModel.NextKeepsInv | sync.py:82-216 | Every enabled step of reader_enter, reader_exit, writer_enter, writer_exit and set_priority keeps the lock invariant. |
| RwLockModel.RunKeepsInv | sync.py:66-197 | Any run of enabled steps that starts where the invariant holds ends where it holds. |
| RwLockModel.ReachableMutualExclusion | sync.py:99-191 | In every reachable state, in either mode: at most one writer holds writers_mutex, and none does while a reader holds it for the group. The reader group owns the permit exactly when a reader past the first reader's acquire is counted. readers_count > 0 without the group permit happens only for one first reader, counted as readers_count == 1, that waits for writers_mutex inside readers_count_mutex. readers_count, waiting_readers and waiting_writers are never negative. |
| RwLockModel.RunCounters | sync.py:94-195 | Over any run, reads_completed grows by exactly the number of reader_exit completions and writes_completed by exactly the number of writer_exit completions. conflicts never decreases. |
| RwLockModel.WriterEntryReaderPriority | sync.py:171-187 | Under reader priority, a writer that finds writers_mutex free completes writer_enter. waiting_writers returns to its prior value, active_writers gains exactly one, and the writer owns the permit. |
| RwLockModel.WriterEntryWriterPriority | sync.py:154-187 | The same under writer priority, and read_try is free again when writer_enter returns. |
| RwLockModel.WriterPriorityEntryHead | sync.py:156-163 | Under writer priority, announcing, taking read_try and taking writers_mutex leaves the writer counted as waiting while it holds both semaphores. |
| RwLockModel.WriterPriorityEntryTail | sync.py:165-185 | The rest of writer_enter under writer priority moves the writer from waiting_writers to active_writers and gives read_try back. |
| RwLockModel.WriterPriorityHoldsReadersBack | sync.py:94-97 | One test of the loop. With a writer waiting, the whole state is unchanged except conflicts + 1. With none, the reader leaves the loop holding read_try and nothing else changes. |
| RwLockModel.WriterPriorityStall | sync.py:88-97 | Under writer priority, a reader looping on waiting_writers holds read_try. A waiting writer cannot take read_try, no other reader can, and the loop test changes only conflicts. |
| RwLockModel.StatsOf | sync.py:199-210 | Reference definition of get_stats; its properties are stated by ReaderWriterLock.GetStats and StatsOverlapOnlyWhileLeaving. |
| RwLockModel.Diagnose | sync.py:218-231 | The deadlock report is returned iff active_writers > 0 and active_readers > 0. Otherwise the starvation report is returned iff both waiting counts exceed 5. Otherwise None. |
| RwLockModel.StatsOverlapOnlyWhileLeaving | sync.py:129-197 | Under the invariant, every statistics counter is non-negative. Active readers and writers overlap, or two writers count as active, only while a thread is between its release and its decrement. |
| RwLockModel.DeadlockReportReachable | sync.py:129-139 | From an idle reader-priority lock, there is a run of enabled steps after which try_detect_deadlock reports "Deadlock detected". |
| RwLockModel.LoneReaderLeaves | sync.py:110-135 | A lone reader on an idle reader-priority lock enters and leaves readers_count. Only active_readers and its own exit position remain changed. |
| RwLockModel.LoneReaderJoins | sync.py:110-118 | A lone reader's entry counts it in readers_count, then takes writers_mutex for the reader group, then gives read_try back. |
| RwLockModel.FirstReaderWaitsForWriter | sync.py:110-116 | Under reader priority, a first reader can be counted in readers_count (== 1) while a writer holds writers_mutex, and it cannot take the permit then. |
| RwLockModel.WriterEntersBehindLeavingReader | sync.py:174-181 | After a reader has left the group but not yet decremented active_readers, a writer can enter, so both active counts are 1. |
| RwLockModel.LoneReaderLeavesGroup | sync.py:120-135 | The last reader of the group counts itself active, then leaves and frees writers_mutex. |
| RwLockModel.WriterTakesFreePermit | sync.py:174-181 | Under reader priority, a writer finding writers_mutex free takes it and becomes active, whatever the reader statistics say. |
| RwLock.ReaderWriterLock.constructor | sync.py:25-61 | The new lock is the initial state of the model, in the given mode, and satisfies the invariant. |
| RwLock.ReaderWriterLock.ReaderAnnounce | sync.py:84-85 | waiting_readers += 1, as the model's step. The invariant is kept. |
| RwLock.ReaderWriterLock.ReaderTakeGate | sync.py:88 | Taking read_try when it is free. The invariant is kept. |
| RwLock.ReaderWriterLock.ReaderLeaveQueue | sync.py:90-91 | waiting_readers -= 1. The invariant is kept. |
| RwLock.ReaderWriterLock.ReaderCheckWriters | sync.py:94-97 | One test of the loop: it passes iff waiting_writers == 0, and otherwise counts a conflict. The invariant is kept. |
| RwLock.ReaderWriterLock.ReaderTakeReadTry | sync.py:110 | Taking read_try under reader priority. The invariant is kept. |
| RwLock.ReaderWriterLock.ReaderJoin | sync.py:112-115 | readers_count += 1 inside readers_count_mutex. It reports "first" iff readers_count was 0. A later reader finds the group already owning writers_mutex. The invariant is kept. |
| RwLock.ReaderWriterLock.ReaderTakeGroupPermit | sync.py:116 | The first reader, counted and waiting, takes writers_mutex once it is free. The reader group owns it afterwards, with readers_count == 1. The invariant is kept. |
| RwLock.ReaderWriterLock.ReaderReleaseReadTry | sync.py:118 | read_try is released. The invariant is kept. |
| RwLock.ReaderWriterLock.ReaderMarkActive | sync.py:120-121 | active_readers += 1. The invariant is kept. |
| RwLock.ReaderWriterLock.ReaderJudgeWait | sync.py:123-127 | conflicts += 1 exactly when the wait was long. The invariant is kept. |
| RwLock.ReaderWriterLock.ReaderLeaveGroup | sync.py:131-135 | readers_count -= 1. writers_mutex becomes free iff readers_count reaches 0. The invariant is kept. |
| RwLock.ReaderWriterLock.ReaderFinish | sync.py:137-142 | active_readers -= 1 and reads_completed += 1. The invariant is kept. |
| RwLock.ReaderWriterLock.WriterAnnounce | sync.py:156-175 | waiting_writers += 1 under condition, with no guard, in both modes (sync.py:156-157 and 174-175). The invariant is kept. |
| RwLock.ReaderWriterLock.WriterTakeReadTry | sync.py:160 | Under writer priority, taking read_try when it is free. The invariant is kept. |
| RwLock.ReaderWriterLock.WriterTakePermit | sync.py:177 | Taking writers_mutex when it is free. Afterwards one writer owns it and no reader holds it for the group. readers_count is at most 1, counting only a first reader waiting for the permit. The invariant is kept. |
| RwLock.ReaderWriterLock.WriterMarkActive | sync.py:179-181 | waiting_writers -= 1 and active_writers += 1 in one block. The invariant is kept. |
| RwLock.ReaderWriterLock.WriterReleaseReadTry | sync.py:169 | read_try is released. The invariant is kept. |
| RwLock.ReaderWriterLock.WriterJudgeWait | sync.py:183-187 | conflicts += 1 exactly when the wait was long. The invariant is kept. |
| RwLock.ReaderWriterLock.WriterReleasePermit | sync.py:191 | writers_mutex is released. The invariant is kept. |
| RwLock.ReaderWriterLock.WriterFinish | sync.py:193-197 | active_writers -= 1 and writes_completed += 1. The invariant is kept. |
| RwLock.ReaderWriterLock.SetPriority | sync.py:212-216 | Only the mode changes. The invariant is kept. |
| RwLock.ReaderWriterLock.GetStats | sync.py:199-210 | The seven counters, unchanged, as the model's statistics. Under the invariant the active and waiting counts are non-negative. |
| RwLock.ReaderWriterLock.TryDetectDeadlock | sync.py:218-231 | The same three-way classification as Diagnose, stated over the lock's fields. |
| FairLock.Notified | sync.py:264-288 | writer_exit wakes all readers iff readers wait after it, and otherwise one writer. reader_exit wakes one writer iff readers_count reached 0, and never the readers. |
| FairLock.FairInitInv | sync.py:242-252 | A new fair lock satisfies the exclusion invariant. |
| FairLock.FairNextKeepsInv | sync.py:254-288 | Every admitted step keeps the counters non-negative and writer_active ==> readers_count == 0. |
| FairLock.FairRunKeepsInv | sync.py:254-288 | The invariant holds after any run of admitted steps. |
| FairLock.FairMutualExclusion | sync.py:256-278 | In every reachable state an active writer excludes every reader. |
| FairLock.FairRunConserves | sync.py:256-278 | Admission moves exactly one unit from waiting to active. Over any run, waiting plus active readers, and waiting plus active writers, change only by arrivals minus exits. |
| FairLock.WokenReadersWaitAgain | sync.py:283-288 | With readers and writers both waiting, writer_exit notifies only the readers, none of whom can be admitted, while a writer could be. |
| FairLock.FairReaderWriterLock.constructor | sync.py:242-252 | All counters 0, no writer active, and the invariant holds. |
| FairLock.FairReaderWriterLock.ReaderArrive | sync.py:256-257 | waiting_readers += 1. The invariant is kept. |
| FairLock.FairReaderWriterLock.ReaderAdmit | sync.py:258-262 | Once no writer is active or waiting, one reader moves from waiting_readers to readers_count. The wait time returned is 0. |
| FairLock.FairReaderWriterLock.ReaderExit | sync.py:264-269 | readers_count -= 1. It returns the notification the model prescribes. |
| FairLock.FairReaderWriterLock.WriterArrive | sync.py:273-274 | waiting_writers += 1. The invariant is kept. |
| FairLock.FairReaderWriterLock.WriterAdmit | sync.py:275-279 | Once no writer is active and readers_count is 0, one writer moves from waiting_writers to writer_active. The wait time returned is 0. |
| FairLock.FairReaderWriterLock.WriterExit | sync.py:281-288 | writer_active becomes false. It returns the notification the model prescribes. |
| Decimal.DigitsOf | sync.py:325-326 | The decimal text of a natural number: digits only and never empty, with no leading zero (it starts with '0' only for 0). It is one character long iff the number is below 10. |
| Decimal.IntToString | sync.py:325-326 | The decimal text of any integer: the digits of a non-negative number, or "-" followed by the digits of its absolute value. |
| Decimal.ValueOfDigitsOf | sync.py:326 | Reading back the digits of a number gives the number. |
| Database.Head | sync.py:325 | The slice `[:50]`: a prefix of at most 50 characters, exactly 50 when the string is longer, and the whole string when it is short. |
| Database.ReportAccessNumber | sync.py:325-326 | The access number in a report's text reads back as the number it was built with, whatever the payload. |
| Database.ReadReportAccessNumber | sync.py:323-326 | A read report carries the access number it counted. |
| Database.WriteReportAccessNumber | sync.py:346-350 | A write report carries the access number it counted. |
| Database.ReadReport | sync.py:325-326 | Reference definition of the read report; its properties are stated by ReadReportAccessNumber and DatabaseSimulator.Read. |
| Database.WriteReport | sync.py:349-350 | Reference definition of the write report; its properties are stated by WriteReportAccessNumber and DatabaseSimulator.Write. |
| Database.Preview | sync.py:356 | The preview is the payload itself when it has at most 50 characters. Otherwise it is its first 50 characters followed by "...", 53 characters in all. |
| Database.DatabaseSimulator.constructor | sync.py:300-303 | The payload is the given text and the access count is 0. |
| Database.DatabaseSimulator.Read | sync.py:306-326 | The payload is unchanged, access_count grows by exactly 1, and the report names the reader, the payload's head and the new count. |
| Database.DatabaseSimulator.Write | sync.py:328-350 | The payload becomes the new data, access_count grows by exactly 1, and the report names the writer, the new data's head and the new count. |
| Database.DatabaseSimulator.GetStatus | sync.py:352-359 | data_length is the payload length and access_count is the counter. The preview is the payload when it has at most 50 characters, and otherwise its first 50 characters followed by "...". Nothing changes. |
| Messages.ParseRole | simulation.py:22-23 | A recognised thread type is the name of the role returned. |
| Messages.ParseAction | simulation.py:25 | A recognised action is the name of the action returned. |
| Messages.ParseStatus | simulation.py:26 | A recognised status is the name of the status returned. |
| Messages.ParseText | simulation.py:22-26 | Every role, action and status name reads back as what it names. |
| Messages.ToDict | simulation.py:337-344 | The dictionary has exactly the six message keys. |
| Messages.DictRoundTrip | simulation.py:337-344 | The dictionary carries all six message fields unchanged: reading it back gives the message. |
| Messages.Title | simulation.py:353 | `str.title()` keeps the length. |
| Messages.TitleAfter | simulation.py:353 | Title casing keeps the length and which characters are letters. |
| Messages.TitleOfLowerWord | simulation.py:353 | The title case of a lower-case word capitalises only its first letter. |
| Messages.TitleOfRole | simulation.py:353 | The title case of "reader" and "writer" is "Reader" and "Writer". |
| Messages.LogFor | simulation.py:350-356 | A message is logged iff its action is read or write, at DEBUG iff its status is active, and at INFO otherwise. |
| Messages.LogText | simulation.py:352-355 | A logged line reads `<Role> <id> <action> <status>`. |
| RunControl.Count | simulation.py:108 | The number of turns of `range(n)`: n when n >= 0, and 0 otherwise. |
| RunControl.AfterStart | simulation.py:98-127 | While running, start changes nothing. Otherwise it sets running, clears paused, and registers exactly num_readers readers and num_writers writers (0 for a negative count), advancing each id counter by as many. |
| RunControl.AfterPause | simulation.py:143-147 | paused becomes true. running, the registries and the id counters are unchanged. |
| RunControl.AfterResume | simulation.py:149-154 | paused becomes false. running, the registries and the id counters are unchanged. |
| RunControl.AfterStop | simulation.py:156-171 | running and paused become false and both registries empty. The id counters are kept. |
| RunControl.StartRegistersNextIds | simulation.py:104-127 | From a stopped state, the registered ids are exactly next_reader_id .. next_reader_id + n - 1, and likewise for writers. |
| RunControl.StopIdempotent | simulation.py:156-171 | Stopping twice is stopping once. |
| RunControl.RegisterRange | simulation.py:107-127 | Appending the next consecutive ids keeps a registry strictly increasing and below the new counter. |
| RunControl.ApplyKeepsWellFormed | simulation.py:95-171 | start, pause, resume and stop keep ids strictly increasing, at least 1 and below their counter, and keep the registries empty while stopped. |
| RunControl.ApplyAllKeepsWellFormed | simulation.py:95-171 | The same for any sequence of these operations. |
| RunControl.IssuedReadersConsecutive | simulation.py:108-116 | Across any sequence of operations, the reader ids handed out are exactly the consecutive ids from where the counter stood. The counter never goes back. |
| RunControl.IssuedWritersConsecutive | simulation.py:119-127 | The same for writer ids. |
| RunControl.IssuedIdsUnique | simulation.py:95-127 | From a new manager, every id ever handed out is at least 1, and the ids of each role strictly increase, so no id is handed out twice. |
| RunControl.WorkerDecision | simulation.py:192-199 | A worker leaves iff not running, waits iff running and paused, and proceeds iff running and not paused. |
| Simulation.NoteText | simulation.py:98-412 | Every log message of start, pause, resume, stop and update_configuration has its text, except the two that format a float. |
| Simulation.Reconfigure | simulation.py:382-412 | Exactly the fields whose argument is given take its value. The others keep theirs. |
| Simulation.ReconfigureNothing | simulation.py:382-412 | An update with no argument changes nothing. |
| Simulation.ReconfigureIdempotent | simulation.py:382-412 | Applying the same update twice is applying it once. |
| Simulation.ReconfigureTwice | simulation.py:382-412 | Two updates in a row are one update in which the later argument wins. |
| Simulation.CountLog | simulation.py:392-398 | A given count yields exactly one INFO line, announcing the new count for the role. No count yields nothing. |
| Simulation.DelayLog | simulation.py:400-406 | A given delay yields exactly one INFO line, announcing the new delay for the role. No delay yields nothing. |
| Simulation.PriorityEvents | simulation.py:408-412 | The lock is told priority b iff writer_priority is given as b. |
| Simulation.ConfigEvents | simulation.py:382-412 | Across the whole update, the lock is told priority b iff writer_priority is given as b. |
| Simulation.EnterEvents | simulation.py:203-212 | Reference definition of an iteration's entry; its properties are stated by EnterPhase and IterationLockOrder. |
| Simulation.WorkEvents | simulation.py:214-219 | Reference definition of an iteration's work; its properties are stated by ReadPhase, WritePhase and IterationPuts. |
| Simulation.ExitEvents | simulation.py:221-226 | Reference definition of an iteration's exit; its properties are stated by ExitPhase and IterationLockOrder. |
| Simulation.IterationEvents | simulation.py:201-226 | Reference definition of one iteration; its properties are stated by IterationPuts, IterationLockOrder and IterationLogsOnlyWork. |
| Simulation.WriterPayload | simulation.py:276 | Reference definition of a writer's payload; WriterIteration states that the database holds it afterwards. |
| Simulation.IterationPuts | simulation.py:201-226 | One worker iteration puts exactly three messages on the queue, in order: (enter, waiting), (read or write, active), and (exit, completed, result). |
| Simulation.IterationLockOrder | simulation.py:203-226 | The lock is entered right after the waiting message. It is left exactly once, as the last action, after the completed message and the end of the active signal. |
| Simulation.IterationLogsOnlyWork | simulation.py:349-356 | Of a worker's three messages, process_messages logs only the read or write message, at DEBUG. |
| Simulation.DeliveryEvents | simulation.py:346-356 | A delivered message is always emitted as its dictionary, and then logged iff it is a read or write, with the chosen line and level. |
| Simulation.SimulationManager.constructor | simulation.py:52-96 | Stopped, nothing registered, both id counters at 1, the given configuration, an empty queue, and a new database with the default content. |
| Simulation.StartEvents | simulation.py:98-141 | Already running yields only the WARNING line. Otherwise the workers with the next consecutive ids are started, then the service threads, then the counts are logged at INFO. |
| Simulation.SimulationManager.Start | simulation.py:98-141 | The run control becomes AfterStart of the old one. It logs the warning when already running, and otherwise starts the registered workers and the service threads and logs the counts. Configuration and queue are unchanged. |
| Simulation.SimulationManager.RegisterReaders | simulation.py:107-116 | The loop appends the next Count(n) reader ids and advances the counter by as many. |
| Simulation.SimulationManager.RegisterWriters | simulation.py:118-127 | The same for writers. |
| Simulation.SimulationManager.Pause | simulation.py:143-147 | The run control becomes AfterPause of the old one, and one INFO line is logged. |
| Simulation.SimulationManager.Resume | simulation.py:149-154 | The run control becomes AfterResume of the old one, and one INFO line is logged. |
| Simulation.SimulationManager.Stop | simulation.py:156-173 | The run control becomes AfterStop of the old one. The workers registered before are joined, then the stop is logged. |
| Simulation.SimulationManager.IsRunning | simulation.py:175-177 | The running flag. |
| Simulation.SimulationManager.IsPaused | simulation.py:179-181 | The paused flag. |
| Simulation.SimulationManager.SendThreadMessage | simulation.py:367-380 | The message is appended to the unbounded queue, and its put is recorded. |
| Simulation.SimulationManager.ReaderIteration | simulation.py:192-231 | A reader that must leave or wait does nothing. One that proceeds performs the iteration's events and messages in order and reads the database once: the payload is unchanged, the count grows by 1, and the report is the read report. |
| Simulation.SimulationManager.WriterIteration | simulation.py:249-289 | The same for a writer, which writes its payload: the database holds it, the count grows by 1, and the report is the write report. |
| Simulation.SimulationManager.EnterPhase | simulation.py:203-212 | Sends (enter, waiting), enters the lock, and logs the wait at DEBUG iff it was positive. |
| Simulation.SimulationManager.ReadPhase | simulation.py:214-219 | Sends (read, active), raises the reader signal, and reads once. |
| Simulation.SimulationManager.WritePhase | simulation.py:271-277 | Sends (write, active), raises the writer signal, and writes the payload once. |
| Simulation.SimulationManager.ExitPhase | simulation.py:221-226 | Sends (exit, completed, result), lowers the signal, then leaves the lock. |
| Simulation.SimulationManager.ProcessNextMessage | simulation.py:329-365 | Finished iff not running. Nothing to do iff the queue is empty. Otherwise the oldest message is dequeued, and the emitted dictionary reads back as exactly that message. |
| Simulation.SimulationManager.UpdateConfiguration | simulation.py:382-412 | The configuration becomes Reconfigure of the old one. The events are those of ConfigEvents, so the lock hears a priority iff one is given. |
| Simulation.SimulationManager.UpdateNumReaders | simulation.py:392-394 | num_readers takes a given value and logs it. |
| Simulation.SimulationManager.UpdateNumWriters | simulation.py:396-398 | num_writers takes a given value and logs it. |
| Simulation.SimulationManager.UpdateReadDelay | simulation.py:400-402 | read_delay takes a given value and logs it. |
| Simulation.SimulationManager.UpdateWriteDelay | simulation.py:404-406 | write_delay takes a given value and logs it. |
| Simulation.SimulationManager.UpdateWriterPriority | simulation.py:408-412 | writer_priority takes a given value, forwards it to the lock, and logs the mode. |

## Left out

- Threads, scheduling and blocking are not executed. Each blocking wait is the guard of the step after it: a semaphore acquire, a `Condition.wait` loop, `pause_condition.wait`, `message_queue.get(timeout=0.1)`. Interleavings are sequences of steps. `notify`/`notify_all` are not modelled in `RwLockModel`, because a guard does not need to be woken.
- Liveness, deadlock freedom and starvation freedom are not proved, only safety. Under writer priority a reader can hold `read_try` while it loops on `waiting_writers` as a writer waits for `read_try` (`WriterPriorityStall` shows the two sides blocking each other). The fair lock's `writer_exit` can wake only readers that must wait again (`WokenReadersWaitAgain`).
- Wall-clock time is not modelled. The wait time measured by `reader_enter`/`writer_enter` and the 0.1 s threshold become a boolean "waited long" (`ReaderJudgeWait`, `WriterJudgeWait`). The timestamps of messages are given from outside (`Stamps`). The fair lock's constant wait time of 0 is modelled.
- `time.sleep`, the simulated read and write delays, and the 0.5 s pause between iterations are not modelled.
- RwLockModel.RunCounters: the two `conflicts += 1` after a long wait (sync.py:124-125, 184-185) run outside every lock, so in Python they race with each other and with the guarded increment at sync.py:96; a lost update can make `conflicts` smaller than the number of conflicts counted, and even go back. The model takes each increment as one atomic step (`ReaderJudgeWait`, `WriterJudgeWait`), so "conflicts never decreases" holds for the model only, and a lost update is not modelled.
- RwLockModel.Diagnose: `try_detect_deadlock` holds `deadlock_detection_lock` (sync.py:223), which no method that changes the counters takes, so its tests at sync.py:225 and 228 read each counter at a different moment and can report on values that never held together. `Diagnose` and `TryDetectDeadlock` classify one consistent snapshot; the unsynchronised reads are not modelled.
- `DatabaseSimulator.data_mutex` is not modelled: each database method is one atomic update.
- RwLock.ReaderWriterLock.SetPriority: it requires that no thread is inside the lock protocol. The source changes the mode at any time, and changing it mid-acquisition has no defined meaning.
- FairLock.FairReaderWriterLock.ReaderExit: it requires readers_count > 0, and WriterExit requires an active writer. They are called only by a thread that entered, and the source does not check this.
- The lock's `reader_id`/`writer_id` arguments are not modelled, because the lock never reads them. Threads are counted, not named.
- The manager's calls into `rw_lock` (`reader_enter`, `reader_exit`, `writer_enter`, `writer_exit`, `set_priority`) are recorded as events rather than executed against a lock object. The lock's behaviour is modelled on its own in `RwLockModel`/`RwLock`.
- Simulation.NoteText: the two log texts that format a float are not rendered: the wait time with two decimals, and the new delay in seconds. Their content is kept as `Waited`/`DelayUpdated` values.
- Simulation.WriterPayload: the time in a writer's payload is an opaque `clock` string. It is the float `time.time()` formatted with two decimals, which is not modelled.
- The `ThreadMessage` fields thread_type, action and status are enumerations rather than free strings. Their string names appear in the dictionary, and `ParseText` relates the two.
- Messages.Title: `str.title()` is modelled for ASCII letters only. It is applied only to "reader" and "writer".
- The `queue.Full` branch of `send_thread_message` is not modelled, because the queue is created unbounded and the branch cannot be taken. The `queue.Empty` case of `process_messages` is the `NoMessage` outcome.
- The `except Exception` branches of the workers and of `process_messages` are not modelled, because nothing in the modelled code raises.
- `stats_worker` is not modelled: it is a periodic timer that combines `get_stats`, `get_status` and `try_detect_deadlock`, which are modelled.
- The `thread.join(timeout=1.0)` timeout, the thread names and the unused `thread_counter` are not modelled, and neither is `task_done`.
- The Qt signals are events in `events`, not Qt objects.
- gui.py, visuals.py, main.py and setup.py are not part of this model.
