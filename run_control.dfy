/**
 * The run control of SimulationManager (simulation.py): the `running` and
 * `paused` flags, the registries of worker threads and the per-role id
 * allocator, as a value with one function per operation. The class
 * Simulation.SimulationManager is proved to follow these functions; the
 * lemmas here say what they promise: ids are handed out consecutively
 * from 1 and never twice, stop is idempotent, pause and resume touch only
 * the pause flag.
 */
module RunControl {

  /** A worker thread is identified by the id it is started with. */
  datatype Control = Control(
    running: bool,
    paused: bool,
    readers: seq<int>,  // reader_threads
    writers: seq<int>,  // writer_threads
    nextReaderId: int,
    nextWriterId: int)

  const InitialControl := Control(false, false, [], [], 1, 1)

  /** How many times `for i in range(n)` runs. */
  function Count(n: int): (k: nat)
    ensures n >= 0 ==> k == n
    ensures n < 0 ==> k == 0
  {
    if n < 0 then 0 else n
  }

  /** The ids `from, from + 1, ..., from + n - 1`. */
  function IdRange(from: int, n: nat): (r: seq<int>)
    ensures |r| == n
    ensures forall i :: 0 <= i < n ==> r[i] == from + i
  {
    seq(n, i requires 0 <= i < n => from + i)
  }

  lemma IdRangeAppend(from: int, n: nat, m: nat)
    ensures IdRange(from, n) + IdRange(from + n, m) == IdRange(from, n + m)
  {
    var a, b, c := IdRange(from, n), IdRange(from + n, m), IdRange(from, n + m);
    assert forall i :: 0 <= i < n + m ==> (a + b)[i] == c[i] by {
      forall i | 0 <= i < n + m
        ensures (a + b)[i] == c[i]
      {
        if i < n {
          assert (a + b)[i] == a[i];
        } else {
          assert (a + b)[i] == b[i - n];
        }
      }
    }
  }

  predicate StrictlyIncreasing(s: seq<int>) {
    forall i, j :: 0 <= i < j < |s| ==> s[i] < s[j]
  }

  /** Ids issued so far: increasing, at least 1 and below the next id to issue. */
  predicate Registered(ids: seq<int>, next: int) {
    StrictlyIncreasing(ids) && forall i :: 0 <= i < |ids| ==> 1 <= ids[i] < next
  }

  predicate WellFormed(c: Control) {
    && c.nextReaderId >= 1 && c.nextWriterId >= 1
    && Registered(c.readers, c.nextReaderId)
    && Registered(c.writers, c.nextWriterId)
    && (!c.running ==> c.readers == [] && c.writers == [])
  }

  /**
   * start (simulation.py:98-141): nothing changes while running; otherwise
   * the flags are set and `numReaders` readers and `numWriters` writers
   * are registered with the next ids of their role.
   */
  function AfterStart(c: Control, numReaders: int, numWriters: int): (r: Control)
    ensures c.running ==> r == c
    ensures r.running
    ensures !c.running ==> !r.paused
    ensures !c.running ==> (|r.readers| == |c.readers| + Count(numReaders)
                            && r.nextReaderId == c.nextReaderId + Count(numReaders))
    ensures !c.running ==> (|r.writers| == |c.writers| + Count(numWriters)
                            && r.nextWriterId == c.nextWriterId + Count(numWriters))
  {
    if c.running then c
    else
      c.(running := true, paused := false,
         readers := c.readers + IdRange(c.nextReaderId, Count(numReaders)),
         nextReaderId := c.nextReaderId + Count(numReaders),
         writers := c.writers + IdRange(c.nextWriterId, Count(numWriters)),
         nextWriterId := c.nextWriterId + Count(numWriters))
  }

  /** pause (simulation.py:143-147). */
  function AfterPause(c: Control): (r: Control)
    ensures r.paused && r.running == c.running
    ensures r.readers == c.readers && r.writers == c.writers
    ensures r.nextReaderId == c.nextReaderId && r.nextWriterId == c.nextWriterId
  {
    c.(paused := true)
  }

  /** resume (simulation.py:149-154). */
  function AfterResume(c: Control): (r: Control)
    ensures !r.paused && r.running == c.running
    ensures r.readers == c.readers && r.writers == c.writers
    ensures r.nextReaderId == c.nextReaderId && r.nextWriterId == c.nextWriterId
  {
    c.(paused := false)
  }

  /** stop (simulation.py:156-173): the id counters are kept. */
  function AfterStop(c: Control): (r: Control)
    ensures !r.running && !r.paused && r.readers == [] && r.writers == []
    ensures r.nextReaderId == c.nextReaderId && r.nextWriterId == c.nextWriterId
  {
    c.(running := false, paused := false, readers := [], writers := [])
  }

  /** Starting from a stopped state registers exactly the next ids of each role. */
  lemma StartRegistersNextIds(c: Control, numReaders: int, numWriters: int)
    requires WellFormed(c) && !c.running
    ensures var r := AfterStart(c, numReaders, numWriters);
      && r.readers == IdRange(c.nextReaderId, Count(numReaders))
      && r.writers == IdRange(c.nextWriterId, Count(numWriters))
  {
    assert c.readers == [] && c.writers == [];
  }

  lemma StopIdempotent(c: Control)
    ensures AfterStop(AfterStop(c)) == AfterStop(c)
  {
  }

  datatype Command = Start(numReaders: int, numWriters: int) | Pause | Resume | Stop

  function Apply(c: Control, cmd: Command): Control {
    match cmd
    case Start(nr, nw) => AfterStart(c, nr, nw)
    case Pause => AfterPause(c)
    case Resume => AfterResume(c)
    case Stop => AfterStop(c)
  }

  /** A range of fresh ids appended to a registry keeps it registered. */
  lemma RegisterRange(ids: seq<int>, next: int, n: nat)
    requires Registered(ids, next) && next >= 1
    ensures Registered(ids + IdRange(next, n), next + n)
  {
    var s := ids + IdRange(next, n);
    forall i, j | 0 <= i < j < |s|
      ensures s[i] < s[j]
    {
      if j < |ids| {
      } else if i < |ids| {
        assert s[j] == next + (j - |ids|);
      } else {
        assert s[i] == next + (i - |ids|) && s[j] == next + (j - |ids|);
      }
    }
    forall i | 0 <= i < |s|
      ensures 1 <= s[i] < next + n
    {
      if i >= |ids| {
        assert s[i] == next + (i - |ids|);
      }
    }
  }

  /** Every operation keeps the run control well formed. */
  lemma ApplyKeepsWellFormed(c: Control, cmd: Command)
    requires WellFormed(c)
    ensures WellFormed(Apply(c, cmd))
  {
    if cmd.Start? && !c.running {
      RegisterRange(c.readers, c.nextReaderId, Count(cmd.numReaders));
      RegisterRange(c.writers, c.nextWriterId, Count(cmd.numWriters));
    }
  }

  function ApplyAll(c: Control, cmds: seq<Command>): Control
    decreases |cmds|
  {
    if cmds == [] then c else ApplyAll(Apply(c, cmds[0]), cmds[1..])
  }

  lemma {:induction false} ApplyAllKeepsWellFormed(c: Control, cmds: seq<Command>)
    requires WellFormed(c)
    ensures WellFormed(ApplyAll(c, cmds))
    decreases |cmds|
  {
    if cmds != [] {
      ApplyKeepsWellFormed(c, cmds[0]);
      ApplyAllKeepsWellFormed(Apply(c, cmds[0]), cmds[1..]);
    }
  }

  /** The reader ids one operation registers. */
  function NewReaders(c: Control, cmd: Command): seq<int> {
    if cmd.Start? && !c.running then IdRange(c.nextReaderId, Count(cmd.numReaders)) else []
  }

  /** The writer ids one operation registers. */
  function NewWriters(c: Control, cmd: Command): seq<int> {
    if cmd.Start? && !c.running then IdRange(c.nextWriterId, Count(cmd.numWriters)) else []
  }

  /** Every reader id registered along a sequence of operations, in order. */
  function IssuedReaders(c: Control, cmds: seq<Command>): seq<int>
    decreases |cmds|
  {
    if cmds == [] then [] else NewReaders(c, cmds[0]) + IssuedReaders(Apply(c, cmds[0]), cmds[1..])
  }

  /** Every writer id registered along a sequence of operations, in order. */
  function IssuedWriters(c: Control, cmds: seq<Command>): seq<int>
    decreases |cmds|
  {
    if cmds == [] then [] else NewWriters(c, cmds[0]) + IssuedWriters(Apply(c, cmds[0]), cmds[1..])
  }

  /**
   * Across any number of starts and stops, the reader ids handed out are
   * exactly the consecutive ids from where the counter stood, so none is
   * handed out twice; the counter never goes back.
   */
  lemma {:induction false} IssuedReadersConsecutive(c: Control, cmds: seq<Command>)
    ensures ApplyAll(c, cmds).nextReaderId >= c.nextReaderId
    ensures IssuedReaders(c, cmds) == IdRange(c.nextReaderId, ApplyAll(c, cmds).nextReaderId - c.nextReaderId)
    decreases |cmds|
  {
    if cmds == [] {
    } else {
      var d := Apply(c, cmds[0]);
      IssuedReadersConsecutive(d, cmds[1..]);
      var n := d.nextReaderId - c.nextReaderId;
      assert n >= 0 && NewReaders(c, cmds[0]) == IdRange(c.nextReaderId, n);
      IdRangeAppend(c.nextReaderId, n, ApplyAll(d, cmds[1..]).nextReaderId - d.nextReaderId);
    }
  }

  /** The same for writer ids. */
  lemma {:induction false} IssuedWritersConsecutive(c: Control, cmds: seq<Command>)
    ensures ApplyAll(c, cmds).nextWriterId >= c.nextWriterId
    ensures IssuedWriters(c, cmds) == IdRange(c.nextWriterId, ApplyAll(c, cmds).nextWriterId - c.nextWriterId)
    decreases |cmds|
  {
    if cmds == [] {
    } else {
      var d := Apply(c, cmds[0]);
      IssuedWritersConsecutive(d, cmds[1..]);
      var n := d.nextWriterId - c.nextWriterId;
      assert n >= 0 && NewWriters(c, cmds[0]) == IdRange(c.nextWriterId, n);
      IdRangeAppend(c.nextWriterId, n, ApplyAll(d, cmds[1..]).nextWriterId - d.nextWriterId);
    }
  }

  /** From a fresh manager, every id ever handed out is at least 1 and no id is handed out twice. */
  lemma IssuedIdsUnique(cmds: seq<Command>)
    ensures var rs := IssuedReaders(InitialControl, cmds);
      StrictlyIncreasing(rs) && forall i :: 0 <= i < |rs| ==> rs[i] >= 1
    ensures var ws := IssuedWriters(InitialControl, cmds);
      StrictlyIncreasing(ws) && forall i :: 0 <= i < |ws| ==> ws[i] >= 1
  {
    IssuedReadersConsecutive(InitialControl, cmds);
    IssuedWritersConsecutive(InitialControl, cmds);
  }

  /** What a worker does at the top of its loop (simulation.py:192-199). */
  datatype Decision = Proceed | Blocked | Leave

  function WorkerDecision(running: bool, paused: bool): (d: Decision)
    ensures d == Leave <==> !running
    ensures d == Blocked <==> running && paused
    ensures d == Proceed <==> running && !paused
  {
    if !running then Leave else if paused then Blocked else Proceed
  }
}
