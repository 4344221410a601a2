/**
 * The operating system of the simulator: a table of memory partitions, the queues of waiting,
 * finished, running and input/output tasks, the processor, and the per-tick statistics.
 * One call of RunTact is one tick of the machine.
 */
module Osys {
  import opened Wrappers
  import opened Lists
  import opened Tasks
  import opened Processor
  import opened Packets
  import opened Partitions

  /** Why a resize is refused: the requested number of partitions is not positive. */
  datatype ResizeError = NonPositiveCount(requested: int)

  /**
   * The integer part of the per-tick statistics: one entry per tick in each list, and the
   * kind counts of the packet. The free-memory percentage is a float and is not kept.
   */
  datatype History = History(
    tacts: seq<nat>,
    memoryBlocksUsed: seq<nat>,
    cpuStates: seq<StateCpu>,
    waitCounts: seq<nat>,
    runCounts: seq<nat>,
    readyCounts: seq<nat>,
    mathTasks: nat,
    inOutTasks: nat)

  function EmptyHistory(mathTasks: nat, inOutTasks: nat): History
  {
    History([], [], [], [], [], [], mathTasks, inOutTasks)
  }

  /** The tick counters per processor state, all at zero. */
  function ZeroCounts(): map<StateCpu, nat>
  {
    map[Idle := 0, Executing := 0, IoWait := 0, Overloaded := 0]
  }

  /** How many ticks of the record ended in state s. */
  function Tally(states: seq<StateCpu>, s: StateCpu): (r: nat)
    ensures r <= |states|
  {
    if states == [] then 0
    else Tally(states[..|states| - 1], s) + (if states[|states| - 1] == s then 1 else 0)
  }

  /** The counters of all four processor states over a record. */
  function TallyMap(states: seq<StateCpu>): (r: map<StateCpu, nat>)
  {
    map[Idle := Tally(states, Idle), Executing := Tally(states, Executing),
        IoWait := Tally(states, IoWait), Overloaded := Tally(states, Overloaded)]
  }

  /** One more tick recorded in state s adds one to the counter of s and to no other. */
  lemma TallyMapSnoc(states: seq<StateCpu>, s: StateCpu)
    ensures s in TallyMap(states)
    ensures TallyMap(states + [s]) == TallyMap(states)[s := TallyMap(states)[s] + 1]
  {
    assert (states + [s])[..|states|] == states;
  }

  /** Every tick of the record is counted under exactly one state. */
  lemma {:induction false} TallyPartition(states: seq<StateCpu>)
    ensures Tally(states, Idle) + Tally(states, Executing) + Tally(states, IoWait) + Tally(states, Overloaded) == |states|
  {
    if states != [] {
      TallyPartition(states[..|states| - 1]);
    }
  }

  /** The counters with one more tick under state s; a state without a counter is left as it is. */
  function Counted(counts: map<StateCpu, nat>, s: StateCpu): map<StateCpu, nat>
  {
    if s in counts then counts[s := counts[s] + 1] else counts
  }

  /** A record of `tact` ticks: one entry per tick in every list, ticks numbered from 1, and counters that tally the states. */
  ghost predicate HistoryMatches(h: History, tact: nat, counts: map<StateCpu, nat>)
  {
    |h.tacts| == tact && |h.memoryBlocksUsed| == tact && |h.cpuStates| == tact &&
    |h.waitCounts| == tact && |h.runCounts| == tact && |h.readyCounts| == tact &&
    (forall k :: 0 <= k < |h.tacts| ==> h.tacts[k] == k + 1) &&
    counts == TallyMap(h.cpuStates)
  }

  /** The record with one more tick appended to every list. */
  function Recorded(h: History, tact: nat, used: nat, state: StateCpu, wait: nat, run: nat, ready: nat): History
  {
    h.(tacts := h.tacts + [tact], memoryBlocksUsed := h.memoryBlocksUsed + [used], cpuStates := h.cpuStates + [state],
       waitCounts := h.waitCounts + [wait], runCounts := h.runCounts + [run], readyCounts := h.readyCounts + [ready])
  }

  /** Appending tick tact + 1 to a record of tact ticks, and counting its state, gives a record of tact + 1 ticks. */
  lemma RecordedMatches(h: History, tact: nat, counts: map<StateCpu, nat>, used: nat, state: StateCpu, wait: nat, run: nat, ready: nat)
    requires HistoryMatches(h, tact, counts)
    ensures state in counts
    ensures HistoryMatches(Recorded(h, tact + 1, used, state, wait, run, ready), tact + 1, counts[state := counts[state] + 1])
  {
    TallyMapSnoc(h.cpuStates, state);
  }

  // ---- the processor state rules ----

  /** The state the processor returns to from an overload: computing first, then input/output, else idle. */
  function NormalState(math: bool, io: bool): (r: StateCpu)
  {
    if math then Executing else if io then IoWait else Idle
  }

  /** `checkOverload` and `updateCpuStateAfterMemoryChange`: overload exactly when more partitions are used than exist. */
  function RecheckedState(s: StateCpu, used: int, capacity: int, math: bool, io: bool): (r: StateCpu)
  {
    if used > capacity then Overloaded else if s == Overloaded then NormalState(math, io) else s
  }

  /**
   * The incremental rule of the three state handlers: a state is left only when the kind of work
   * it stands for has stopped, so input/output waiting persists while computing tasks also run.
   */
  function NextCpuState(s: StateCpu, math: bool, io: bool): (r: StateCpu)
  {
    match s
    case Idle => if math then Executing else if io then IoWait else Idle
    case Executing => if !math && io then IoWait else if !math && !io then Idle else Executing
    case IoWait => if !io && math then Executing else if !io && !math then Idle else IoWait
    case Overloaded => Overloaded
  }

  /** `manageCpuStates`: the overload check, then the handler of the resulting state. */
  function ManagedState(s: StateCpu, used: int, capacity: int, math: bool, io: bool): (r: StateCpu)
  {
    var base := RecheckedState(s, used, capacity, math, io);
    if base == Overloaded then Overloaded else NextCpuState(base, math, io)
  }

  /**
   * While the table is within capacity the managed state is never an overload and agrees with
   * the work that runs: idle exactly when nothing runs, computing only when a computing task
   * runs, waiting only when an input/output task runs.
   */
  lemma ManagedStateConsistent(s: StateCpu, used: int, capacity: int, math: bool, io: bool)
    ensures used > capacity ==> ManagedState(s, used, capacity, math, io) == Overloaded
    ensures used <= capacity ==> ManagedState(s, used, capacity, math, io) != Overloaded
    ensures used <= capacity ==> (ManagedState(s, used, capacity, math, io) == Idle <==> !math && !io)
    ensures ManagedState(s, used, capacity, math, io) == Executing ==> math
    ensures ManagedState(s, used, capacity, math, io) == IoWait ==> io
  {
  }

  /** The states persist while their kind of work runs, whatever else runs beside it. */
  lemma ManagedStatePersists(s: StateCpu, used: int, capacity: int, math: bool, io: bool)
    requires used <= capacity
    ensures s == IoWait && io ==> ManagedState(s, used, capacity, math, io) == IoWait
    ensures s == Executing && math ==> ManagedState(s, used, capacity, math, io) == Executing
    ensures s == Idle ==> ManagedState(s, used, capacity, math, io) == NormalState(math, io)
    ensures s == Overloaded ==> ManagedState(s, used, capacity, math, io) == NormalState(math, io)
  {
  }

  /**
   * The rule is not a recomputation from the running work: with both kinds running, a processor
   * waiting for input/output stays waiting, where a fresh start would choose computing.
   */
  lemma IncrementalNotRecomputed()
    ensures ManagedState(IoWait, 0, 1, true, true) == IoWait
    ensures NormalState(true, true) == Executing
  {
  }

  /** Some task of the list is of the given kind and in state Run. */
  function Running(s: seq<Task>, kind: TypeTask): bool
    reads s
  {
    OfKind(InState(s, Run), kind) != []
  }

  // ---- one tick, as values ----

  /** The partition table and the four task lists of the system, taken together. */
  datatype Queues = Queues(blocks: Slots, wait: seq<Task>, ready: seq<Task>, running: seq<Task>, io: seq<Task>)

  /** The automatic shrink is due when fewer tasks are listed as running than half the partitions, and there are more than two. */
  predicate ShrinkDue(running: nat, capacity: int)
  {
    running < capacity / 2 && capacity > 2
  }

  /** The table and lists after a resize to n partitions: see `Repartition`. */
  function Repartitioned(q: Queues, n: nat): (r: Queues)
    ensures |r.blocks| == n && r.ready == q.ready
  {
    var evicted := Evicted(q.blocks, n);
    Queues(Compact(q.blocks, n), Reverse(evicted) + q.wait, q.ready, RemoveEach(q.running, evicted), RemoveEach(q.io, evicted))
  }

  /** The table and lists after the Ready tasks have left the table for the finished queue: see `FreePass`. */
  ghost function Freed(q: Queues): (r: Queues)
    reads set t: Task | t in q.blocks
    ensures |r.blocks| == |q.blocks| && r.wait == q.wait
  {
    OccupantsMembers(q.blocks);
    var done := InState(Occupants(q.blocks), Ready);
    Queues(FreeReady(q.blocks), q.wait, q.ready + done, RemoveEach(q.running, done), RemoveEach(q.io, done))
  }

  /** Freeing changes nothing while no partition holds a Ready task: a first tick, over a table that is still empty, finishes nothing. */
  lemma FreedWithoutReady(q: Queues)
    requires forall j :: 0 <= j < |q.blocks| && q.blocks[j] != null ==> q.blocks[j].state != Ready
    ensures Freed(q) == q
  {
    OccupantsMembers(q.blocks);
    InStateNone(Occupants(q.blocks), Ready);
    assert FreeReady(q.blocks) == q.blocks;
    assert q.ready + [] == q.ready;
  }

  /** The table and lists after the free partitions have been filled from the waiting queue: see `FillPass`. */
  function Loaded(q: Queues): (r: Queues)
    ensures |r.blocks| == |q.blocks| && r.ready == q.ready && r.running == q.running && r.io == q.io
  {
    var f := Fill(q.blocks, q.wait);
    q.(blocks := f.0, wait := f.1)
  }

  /** The lists after a service pass over the table that started with the given progress: see `ExecutePass`. */
  function Served(q: Queues, snap: seq<Progress>): (r: Queues)
    requires |snap| == |q.blocks|
    ensures r.blocks == q.blocks && r.wait == q.wait && r.ready == q.ready
  {
    var dispatched := Dispatched(q.blocks, snap);
    q.(running := q.running + dispatched, io := RemoveEach(q.io, Completed(q.blocks, snap)) + OfKind(dispatched, InOut))
  }

  /**
   * The table and lists after repartitioning to newCount partitions: the occupants are copied in
   * order into the lowest partitions; each one that does not fit is put at the front of the waiting
   * list and taken out of the running and waiting-for-I/O lists.
   */
  method Repartition(blocks: Slots, newCount: nat, wait: seq<Task>, running: seq<Task>, io: seq<Task>)
    returns (newBlocks: Slots, newWait: seq<Task>, newRunning: seq<Task>, newIo: seq<Task>)
    ensures newBlocks == Compact(blocks, newCount)
    ensures newWait == Reverse(Evicted(blocks, newCount)) + wait
    ensures newRunning == RemoveEach(running, Evicted(blocks, newCount))
    ensures newIo == RemoveEach(io, Evicted(blocks, newCount))
  {
    var currentTasks := Occupants(blocks);
    assert Reverse<Task>([]) == [] && RemoveEach(running, []) == running && RemoveEach(io, []) == io;
    hide Reverse, RemoveEach, RemoveFirst, Occupants;
    newBlocks := Nones(newCount);
    var tasksToKeep := Min(|currentTasks|, newCount);
    for i := 0 to tasksToKeep
      invariant newBlocks == currentTasks[..i] + Nones(newCount - i)
    {
      PlaceStep(currentTasks, i, newCount);
      newBlocks := newBlocks[i := currentTasks[i]];
    }
    newWait, newRunning, newIo := wait, running, io;
    for i := tasksToKeep to |currentTasks|
      invariant newWait == Reverse(currentTasks[tasksToKeep..i]) + wait
      invariant newRunning == RemoveEach(running, currentTasks[tasksToKeep..i])
      invariant newIo == RemoveEach(io, currentTasks[tasksToKeep..i])
    {
      var task := currentTasks[i];
      ReverseSliceStep(currentTasks, tasksToKeep, i, wait);
      RemoveEachSliceStep(running, currentTasks, tasksToKeep, i);
      RemoveEachSliceStep(io, currentTasks, tasksToKeep, i);
      if task in newRunning {
        newRunning := RemoveFirst(newRunning, task);
      }
      if task in newIo {
        newIo := RemoveFirst(newIo, task);
      }
      newWait := [task] + newWait;
    }
    assert currentTasks[tasksToKeep..|currentTasks|] == Evicted(blocks, newCount);
  }

  /** The loop of `freeCompletedTasks` on the table and the three lists it updates. */
  method FreePass(table: Slots, running: seq<Task>, io: seq<Task>, ready: seq<Task>)
    returns (newBlocks: Slots, newRunning: seq<Task>, newIo: seq<Task>, newReady: seq<Task>, freed: bool)
    ensures newBlocks == FreeReady(table)
    ensures newReady == ready + InState(Occupants(table), Ready)
    ensures newRunning == RemoveEach(running, InState(Occupants(table), Ready))
    ensures newIo == RemoveEach(io, InState(Occupants(table), Ready))
    ensures freed <==> InState(Occupants(table), Ready) != []
  {
    newBlocks, newRunning, newIo, newReady := table, running, io, ready;
    freed := false;
    for i := 0 to |table|
      invariant newBlocks == FreeReady(table[..i]) + table[i..]
      invariant newReady == ready + InState(Occupants(table[..i]), Ready)
      invariant newRunning == RemoveEach(running, InState(Occupants(table[..i]), Ready))
      invariant newIo == RemoveEach(io, InState(Occupants(table[..i]), Ready))
      invariant freed <==> InState(Occupants(table[..i]), Ready) != []
    {
      var task := newBlocks[i];
      ghost var done := InState(Occupants(table[..i]), Ready);
      OccupantsSnoc(table, i);
      FreeReadySnoc(table, i);
      SlotUpdate(FreeReady(table[..i]), table, i, null);
      if task != null {
        InStateSnoc(Occupants(table[..i]), task, Ready);
      } else {
        assert Occupants(table[..i + 1]) == Occupants(table[..i]);
      }
      if task != null && task.state == Ready {
        var finished: Task := task;
        assert InState(Occupants(table[..i + 1]), Ready) == done + [finished];
        RemoveEachSnoc(running, done, finished);
        RemoveEachSnoc(io, done, finished);
        newBlocks := newBlocks[i := null];
        if finished in newRunning {
          newRunning := RemoveFirst(newRunning, finished);
        }
        if finished in newIo {
          newIo := RemoveFirst(newIo, finished);
        }
        AppendAssoc(ready, done, [finished]);
        newReady := newReady + [finished];
        freed := true;
      } else {
        assert InState(Occupants(table[..i + 1]), Ready) == done;
      }
    }
    assert table[..|table|] == table && table[|table|..] == [];
  }

  /** The loop of `loadTasksToMemory` on the table and the waiting queue. */
  method FillPass(table: Slots, queue: seq<Task>) returns (newBlocks: Slots, newQueue: seq<Task>, loaded: bool)
    ensures (newBlocks, newQueue) == Fill(table, queue)
    ensures loaded <==> CountNull(table) > 0 && queue != []
  {
    newBlocks, newQueue := table, queue;
    loaded := false;
    for i := 0 to |table|
      invariant |newBlocks| == |table| && newBlocks[i..] == table[i..]
      invariant newBlocks[..i] + Fill(table[i..], newQueue).0 == Fill(table, queue).0
      invariant Fill(table[i..], newQueue).1 == Fill(table, queue).1
      invariant |newQueue| <= |queue| && newQueue == queue[|queue| - |newQueue|..]
      invariant loaded <==> |newQueue| < |queue|
    {
      FillStep(table, i, newQueue);
      assert newBlocks[i] == table[i];
      if newBlocks[i] == null && newQueue != [] {
        var task := newQueue[0];
        AppendAssoc(newBlocks[..i], [task], Fill(table[i + 1..], newQueue[1..]).0);
        newQueue := newQueue[1..];
        newBlocks := newBlocks[i := task];
        assert newBlocks[..i + 1] == newBlocks[..i] + [task];
        loaded := true;
      } else {
        AppendAssoc(newBlocks[..i], [table[i]], Fill(table[i + 1..], newQueue).0);
        assert newBlocks[..i + 1] == newBlocks[..i] + [table[i]];
      }
    }
    assert newBlocks[..|table|] == newBlocks && table[|table|..] == [];
    assert Fill(table[|table|..], newQueue) == ([], newQueue);
    assert newBlocks + [] == newBlocks;
    assert |newQueue| == |queue| ==> newQueue == queue;
    FillLoads(table, queue);
  }

  /** What serving one occupied partition does to the running and input/output lists, given the task's progress before. */
  function SlotLists(task: Task, p: Progress, running: seq<Task>, io: seq<Task>): (seq<Task>, seq<Task>)
  {
    if p.state == Wait then (running + [task], if task.kind == InOut then io + [task] else io)
    else if p.state == Run && ExecuteStep(p, task.requiredTime).1 then (running, RemoveFirst(io, task))
    else (running, io)
  }

  /** The body of the loop of `executeTasks` for an occupied partition. */
  method ExecuteSlot(task: Task, cpu: CPU, running: seq<Task>, io: seq<Task>) returns (newRunning: seq<Task>, newIo: seq<Task>)
    modifies cpu`currentTask, task
    ensures task.CurrentProgress() == TickProgress(old(task.CurrentProgress()), task.requiredTime)
    ensures (newRunning, newIo) == SlotLists(task, old(task.CurrentProgress()), running, io)
    ensures cpu.currentTask == if old(task.state) == Wait then task else old(cpu.currentTask)
  {
    newRunning, newIo := running, io;
    if task.state == Wait {
      cpu.UseToDoTask(task);
      if task.kind == InOut {
        newIo := newIo + [task];
      }
      newRunning := newRunning + [task];
    } else if task.state == Run {
      var completed := task.Execute();
      if completed {
        if task in newIo {
          newIo := RemoveFirst(newIo, task);
        }
      }
    }
  }

  /**
   * Serving partition i extends the lists of the pass so far by what the partition contributes:
   * the dispatched tasks at the end of the running list, the dispatched input/output tasks at the
   * end of the input/output list, and the completed one out of the older part of that list.
   */
  lemma SlotListsStep(blocks: Slots, snap: seq<Progress>, i: int, running: seq<Task>, io: seq<Task>)
    requires |snap| == |blocks| && 0 <= i < |blocks| && blocks[i] != null
    requires NoDup(Occupants(blocks))
    ensures SlotLists(blocks[i], snap[i],
                      running + Dispatched(blocks[..i], snap[..i]),
                      RemoveEach(io, Completed(blocks[..i], snap[..i])) + OfKind(Dispatched(blocks[..i], snap[..i]), InOut)) ==
            (running + Dispatched(blocks[..i + 1], snap[..i + 1]),
             RemoveEach(io, Completed(blocks[..i + 1], snap[..i + 1])) + OfKind(Dispatched(blocks[..i + 1], snap[..i + 1]), InOut))
  {
    var task: Task := blocks[i];
    var d, c := Dispatched(blocks[..i], snap[..i]), Completed(blocks[..i], snap[..i]);
    var d', c' := Dispatched(blocks[..i + 1], snap[..i + 1]), Completed(blocks[..i + 1], snap[..i + 1]);
    var r, k := RemoveEach(io, c), OfKind(d, InOut);
    var next := SlotLists(task, snap[i], running + d, r + k);
    DispatchedCompletedSnoc(blocks, snap, i);
    OfKindSnoc(d, task, InOut);
    if snap[i].state == Wait {
      assert d' == d + [task] && c' == c + [] == c;
      AppendAssoc(running, d, [task]);
      assert next.0 == running + d';
      if task.kind == InOut {
        AppendAssoc(r, k, [task]);
        assert next.1 == r + (k + [task]);
      } else {
        assert next.1 == r + (k + []);
      }
    } else if snap[i].state == Run && ExecuteStep(snap[i], task.requiredTime).1 {
      assert d' == d + [] == d && c' == c + [task];
      NotYetVisited(blocks, snap, i);
      RemoveEachSnoc(io, c, task);
      RemoveFirstAppend(r, k, task);
      assert next.1 == RemoveFirst(r, task) + k;
    } else {
      assert d' == d + [] == d && c' == c + [] == c;
      assert next == (running + d, r + k);
    }
  }

  /** Partition i served within the pass: the lists and the processor's current task grow from the first i partitions to the first i + 1. */
  method ServeSlot(table: Slots, ghost snap: seq<Progress>, i: int, cpu: CPU, ghost running: seq<Task>, ghost io: seq<Task>, ghost first: Task?,
                   curRunning: seq<Task>, curIo: seq<Task>) returns (nextRunning: seq<Task>, nextIo: seq<Task>)
    requires |snap| == |table| && 0 <= i < |table| && table[i] != null && NoDup(Occupants(table))
    requires table[i].CurrentProgress() == snap[i]
    requires curRunning == running + Dispatched(table[..i], snap[..i])
    requires curIo == RemoveEach(io, Completed(table[..i], snap[..i])) + OfKind(Dispatched(table[..i], snap[..i]), InOut)
    requires cpu.currentTask == LastOr(Dispatched(table[..i], snap[..i]), first)
    modifies cpu`currentTask, table[i]
    ensures table[i].CurrentProgress() == TickProgress(snap[i], table[i].requiredTime)
    ensures nextRunning == running + Dispatched(table[..i + 1], snap[..i + 1])
    ensures nextIo == RemoveEach(io, Completed(table[..i + 1], snap[..i + 1])) + OfKind(Dispatched(table[..i + 1], snap[..i + 1]), InOut)
    ensures cpu.currentTask == LastOr(Dispatched(table[..i + 1], snap[..i + 1]), first)
  {
    var task: Task := table[i];
    DispatchedCompletedSnoc(table, snap, i);
    SlotListsStep(table, snap, i, running, io);
    nextRunning, nextIo := ExecuteSlot(task, cpu, curRunning, curIo);
  }

  /**
   * The loop of `executeTasks`: in slot order, a waiting task is handed to the processor and listed
   * as running (and as waiting for input/output when it is of that kind); a running task is served
   * once, and leaves the input/output list when that completes it.
   */
  method ExecutePass(table: Slots, cpu: CPU, running: seq<Task>, io: seq<Task>) returns (newRunning: seq<Task>, newIo: seq<Task>)
    requires NoDup(Occupants(table))
    modifies cpu`currentTask, Occupants(table)
    ensures forall j :: 0 <= j < |table| && table[j] != null ==>
              table[j].CurrentProgress() == TickProgress(old(table[j].CurrentProgress()), table[j].requiredTime)
    ensures newRunning == running + Dispatched(table, old(Snapshot(table)))
    ensures newIo == RemoveEach(io, Completed(table, old(Snapshot(table)))) + OfKind(Dispatched(table, old(Snapshot(table))), InOut)
    ensures cpu.currentTask == LastOr(Dispatched(table, old(Snapshot(table))), old(cpu.currentTask))
  {
    ghost var snap := Snapshot(table);
    assert Dispatched(table[..0], snap[..0]) == [] && Completed(table[..0], snap[..0]) == [];
    assert RemoveEach(io, []) == io && OfKind([], InOut) == [] && LastOr([], cpu.currentTask) == cpu.currentTask;
    hide Occupants, Dispatched, Completed, RemoveEach, OfKind, LastOr, TickProgress, Snapshot;
    newRunning, newIo := running, io;
    for i := 0 to |table|
      invariant forall j :: 0 <= j < |table| && table[j] != null ==>
                  table[j].CurrentProgress() == if j < i then TickProgress(snap[j], table[j].requiredTime) else snap[j]
      invariant newRunning == running + Dispatched(table[..i], snap[..i])
      invariant newIo == RemoveEach(io, Completed(table[..i], snap[..i])) + OfKind(Dispatched(table[..i], snap[..i]), InOut)
      invariant cpu.currentTask == LastOr(Dispatched(table[..i], snap[..i]), old(cpu.currentTask))
    {
      if table[i] != null {
        DistinctSlot(table, i);
        OccupantsMembers(table);
        newRunning, newIo := ServeSlot(table, snap, i, cpu, running, io, old(cpu.currentTask), newRunning, newIo);
      } else {
        DispatchedCompletedSnoc(table, snap, i);
        ghost var d, c := Dispatched(table[..i], snap[..i]), Completed(table[..i], snap[..i]);
        assert d + [] == d && c + [] == c;
      }
    }
    assert table[..|table|] == table && snap[..|table|] == snap;
  }

  /** The loop of `reset` over the packet: every task waits again and has had no service. */
  method RestartTasks(tasks: seq<Task>)
    modifies set t | t in tasks
    ensures forall t :: t in tasks ==> t.state == Wait && t.executionTime == 0
  {
    for i := 0 to |tasks|
      invariant forall j :: 0 <= j < i ==> tasks[j].state == Wait && tasks[j].executionTime == 0
    {
      var task := tasks[i];
      task.state := Wait;
      task.executionTime := 0;
    }
  }

  class OS {
    var maxBlocksCount: int
    /** Loaded once, when the system is initialized. */
    const packet: Packet
    /** One entry per partition; null is a free partition. */
    var memoryBlocks: Slots
    var waitQueue: seq<Task>
    var readyQueue: seq<Task>
    var runningTasks: seq<Task>
    var ioWaitTasks: seq<Task>
    const cpu: CPU
    var currentTact: nat
    var history: History
    var cpuStateCounts: map<StateCpu, nat>

    /** The statistics keep one entry per tick, and the counters are the tally of the recorded states. */
    ghost predicate HistoryValid()
      reads this`history, this`currentTact, this`cpuStateCounts
    {
      HistoryMatches(history, currentTact, cpuStateCounts)
    }

    /**
     * The invariant the passes of a tick keep: the table has one entry per partition; every task of
     * the packet is in exactly one of the waiting queue, the table and the finished queue, and only
     * once; finished tasks are Ready; the processor is never overloaded.
     */
    ghost predicate Consistent()
      reads this`maxBlocksCount, this`memoryBlocks, this`waitQueue, this`readyQueue, cpu`state, readyQueue
    {
      maxBlocksCount >= 1 && |memoryBlocks| == maxBlocksCount &&
      packet.Valid() &&
      Conserved(waitQueue, memoryBlocks, readyQueue, packet.tasks) &&
      (forall t :: t in readyQueue ==> t.state == Ready) &&
      cpu.state != Overloaded
    }

    /** The invariant of the system between ticks: the passes' invariant and statistics that match the tick counter. */
    ghost predicate Valid()
      reads this`maxBlocksCount, this`memoryBlocks, this`waitQueue, this`readyQueue, cpu`state, readyQueue
      reads this`history, this`currentTact, this`cpuStateCounts
    {
      Consistent() && HistoryValid()
    }

    /** The table and the four lists, as one value. */
    ghost function State(): Queues
      reads this`memoryBlocks, this`waitQueue, this`readyQueue, this`runningTasks, this`ioWaitTasks
    {
      Queues(memoryBlocks, waitQueue, readyQueue, runningTasks, ioWaitTasks)
    }

    /** The table and lists after the automatic shrink of `checkAndAdjustMemoryBlocks`, when it is due. */
    ghost function Shrunk(): Queues
      reads this`maxBlocksCount, this`memoryBlocks, this`waitQueue, this`readyQueue, this`runningTasks, this`ioWaitTasks
    {
      if ShrinkDue(|runningTasks|, maxBlocksCount) then Repartitioned(State(), maxBlocksCount - 1) else State()
    }

    /** The tasks in the partitions belong to the packet and no task sits in two partitions. */
    lemma SlotsFromPacket()
      requires Consistent()
      ensures NoDup(Occupants(memoryBlocks))
      ensures forall t :: t in Occupants(memoryBlocks) ==> t in packet.tasks
      ensures forall t :: t in readyQueue ==> t !in Occupants(memoryBlocks)
    {
      var occ := Occupants(memoryBlocks);
      ConservedMeans(waitQueue, memoryBlocks, readyQueue, packet.tasks);
      assert multiset(occ + readyQueue) <= multiset(packet.tasks);
      assert multiset(occ) <= multiset(packet.tasks);
      NoDupSubMultiset(occ + readyQueue, packet.tasks);
      NoDupSplit(occ, readyQueue);
      forall t | t in occ ensures t in packet.tasks {
        assert t in multiset(occ);
      }
    }

    /** `OS(max_blocks_count=...)` followed by `initialize`, for a packet that was loaded before. */
    constructor (maxBlocksCount: int, packet: Packet)
      requires maxBlocksCount >= 1 && packet.Valid()
      ensures this.maxBlocksCount == maxBlocksCount && this.packet == packet
      ensures waitQueue == packet.tasks && memoryBlocks == Nones(maxBlocksCount)
      ensures readyQueue == [] && runningTasks == [] && ioWaitTasks == []
      ensures fresh(cpu) && cpu.state == Idle && cpu.currentTask == null
      ensures currentTact == 0 && cpuStateCounts == ZeroCounts()
      ensures history == EmptyHistory(CountKind(packet.tasks, Math), CountKind(packet.tasks, InOut))
      ensures Valid()
    {
      this.maxBlocksCount := maxBlocksCount;
      this.packet := packet;
      waitQueue := packet.tasks;
      memoryBlocks := Nones(maxBlocksCount);
      readyQueue := [];
      runningTasks := [];
      ioWaitTasks := [];
      cpu := new CPU();
      currentTact := 0;
      cpuStateCounts := ZeroCounts();
      new;
      var math := packet.GetMathTasks();
      var inOut := packet.GetInOutTasks();
      history := EmptyHistory(math, inOut);
      ConservedAtStart(packet.tasks, maxBlocksCount);
    }

    // ---- the processor ----

    /** `changeCpuState`: switches the processor to the new state (the log line is not modelled). */
    method ChangeCpuState(newState: StateCpu)
      modifies cpu`state
      ensures cpu.state == newState
    {
      if cpu.state != newState {
        cpu.state := newState;
      }
    }

    method ChangeToNormalState()
      modifies cpu`state
      ensures cpu.state == NormalState(old(Running(runningTasks, Math)), old(Running(runningTasks, InOut)))
    {
      var mathTasks := OfKind(InState(runningTasks, Run), Math);
      var ioTasks := OfKind(InState(runningTasks, Run), InOut);
      if mathTasks != [] {
        ChangeCpuState(Executing);
      } else if ioTasks != [] {
        ChangeCpuState(IoWait);
      } else {
        ChangeCpuState(Idle);
      }
    }

    method CheckOverload()
      modifies cpu`state
      ensures cpu.state == RecheckedState(old(cpu.state), |Occupants(memoryBlocks)|, maxBlocksCount, old(Running(runningTasks, Math)), old(Running(runningTasks, InOut)))
    {
      var currentUsedBlocks := |Occupants(memoryBlocks)|;
      if currentUsedBlocks > maxBlocksCount {
        if cpu.state != Overloaded {
          ChangeCpuState(Overloaded);
        }
      } else {
        if cpu.state == Overloaded {
          ChangeToNormalState();
        }
      }
    }

    method HandleIdleState()
      requires cpu.state == Idle
      modifies cpu`state
      ensures cpu.state == ManagedState(Idle, |Occupants(memoryBlocks)|, maxBlocksCount, old(Running(runningTasks, Math)), old(Running(runningTasks, InOut)))
    {
      CheckOverload();
      if cpu.state == Overloaded {
        return;
      }
      var mathTasks := OfKind(InState(runningTasks, Run), Math);
      var ioTasks := OfKind(InState(runningTasks, Run), InOut);
      if mathTasks != [] {
        ChangeCpuState(Executing);
      } else if ioTasks != [] {
        ChangeCpuState(IoWait);
      }
    }

    method HandleExecutingState()
      requires cpu.state == Executing
      modifies cpu`state
      ensures cpu.state == ManagedState(Executing, |Occupants(memoryBlocks)|, maxBlocksCount, old(Running(runningTasks, Math)), old(Running(runningTasks, InOut)))
    {
      CheckOverload();
      if cpu.state == Overloaded {
        return;
      }
      var mathTasks := OfKind(InState(runningTasks, Run), Math);
      var ioTasks := OfKind(InState(runningTasks, Run), InOut);
      if mathTasks == [] && ioTasks != [] {
        ChangeCpuState(IoWait);
      } else if mathTasks == [] && ioTasks == [] {
        ChangeCpuState(Idle);
      }
    }

    method HandleIoWaitState()
      requires cpu.state == IoWait
      modifies cpu`state
      ensures cpu.state == ManagedState(IoWait, |Occupants(memoryBlocks)|, maxBlocksCount, old(Running(runningTasks, Math)), old(Running(runningTasks, InOut)))
    {
      CheckOverload();
      if cpu.state == Overloaded {
        return;
      }
      var ioTasks := OfKind(InState(runningTasks, Run), InOut);
      var mathTasks := OfKind(InState(runningTasks, Run), Math);
      if ioTasks == [] && mathTasks != [] {
        ChangeCpuState(Executing);
      } else if ioTasks == [] && mathTasks == [] {
        ChangeCpuState(Idle);
      }
    }

    /** The processor step of a tick, and one more tick counted under the state it ends in. */
    method ManageCpuStates()
      modifies cpu`state, this`cpuStateCounts
      ensures cpu.state == ManagedState(old(cpu.state), |Occupants(memoryBlocks)|, maxBlocksCount,
                                        old(Running(runningTasks, Math)), old(Running(runningTasks, InOut)))
      ensures cpuStateCounts == if cpu.state in old(cpuStateCounts)
                                then old(cpuStateCounts)[cpu.state := old(cpuStateCounts)[cpu.state] + 1]
                                else old(cpuStateCounts)
    {
      ghost var used, math, io := |Occupants(memoryBlocks)|, Running(runningTasks, Math), Running(runningTasks, InOut);
      CheckOverload();
      ghost var base := cpu.state;
      assert base == RecheckedState(old(cpu.state), used, maxBlocksCount, math, io);
      if cpu.state != Overloaded {
        if cpu.state == Idle {
          HandleIdleState();
        } else if cpu.state == Executing {
          HandleExecutingState();
        } else if cpu.state == IoWait {
          HandleIoWaitState();
        }
        assert cpu.state == NextCpuState(base, math, io);
      }
      assert cpu.state == ManagedState(old(cpu.state), used, maxBlocksCount, math, io);
      var currentState := cpu.state;
      if currentState in cpuStateCounts {
        cpuStateCounts := cpuStateCounts[currentState := cpuStateCounts[currentState] + 1];
      }
    }

    method UpdateCpuStateAfterMemoryChange()
      modifies cpu`state
      ensures cpu.state == RecheckedState(old(cpu.state), |Occupants(memoryBlocks)|, maxBlocksCount, old(Running(runningTasks, Math)), old(Running(runningTasks, InOut)))
    {
      var usedBlocks := |Occupants(memoryBlocks)|;
      if usedBlocks > maxBlocksCount {
        ChangeCpuState(Overloaded);
      } else if cpu.state == Overloaded && usedBlocks <= maxBlocksCount {
        ChangeToNormalState();
      }
    }

    /** Appends this tick's entry to every list of the statistics. */
    method CollectStatistics()
      modifies this`history
      ensures history == Recorded(old(history), currentTact, |Occupants(memoryBlocks)|, cpu.state,
                                  |waitQueue|, |InState(runningTasks, Run)|, |readyQueue|)
    {
      var usedBlocks := |Occupants(memoryBlocks)|;
      var h := history.(memoryBlocksUsed := history.memoryBlocksUsed + [usedBlocks]);
      h := h.(cpuStates := h.cpuStates + [cpu.state]);
      var waitCount := |waitQueue|;
      var runCount := |InState(runningTasks, Run)|;
      var readyCount := |readyQueue|;
      h := h.(waitCounts := h.waitCounts + [waitCount], runCounts := h.runCounts + [runCount], readyCounts := h.readyCounts + [readyCount]);
      h := h.(tacts := h.tacts + [currentTact]);
      history := h;
    }

    // ---- the passes over the table ----

    /**
     * Clears every partition whose task is Ready, in slot order; each such task leaves the running
     * and input/output lists and is appended to the finished queue.
     */
    method FreeCompletedTasks() returns (freed: bool)
      requires Consistent()
      modifies this`memoryBlocks, this`runningTasks, this`ioWaitTasks, this`readyQueue
      ensures memoryBlocks == old(FreeReady(memoryBlocks))
      ensures readyQueue == old(readyQueue + InState(Occupants(memoryBlocks), Ready))
      ensures runningTasks == old(RemoveEach(runningTasks, InState(Occupants(memoryBlocks), Ready)))
      ensures ioWaitTasks == old(RemoveEach(ioWaitTasks, InState(Occupants(memoryBlocks), Ready)))
      ensures freed <==> old(InState(Occupants(memoryBlocks), Ready)) != []
      ensures Consistent()
    {
      hide Conserved, Occupants, FreeReady, InState, RemoveEach;
      ghost var done := InState(Occupants(memoryBlocks), Ready);
      var blocks, running, io, ready;
      blocks, running, io, ready, freed := FreePass(memoryBlocks, runningTasks, ioWaitTasks, readyQueue);
      assert InState(Occupants(memoryBlocks), Ready) == done;
      assert Conserved(waitQueue, blocks, ready, packet.tasks) by {
        FreeKeepsBatch(memoryBlocks, waitQueue, readyQueue, packet.tasks);
      }
      memoryBlocks, runningTasks, ioWaitTasks, readyQueue := blocks, running, io, ready;
    }

    /**
     * One pass over the partitions in slot order: waiting tasks are dispatched, running ones are
     * served once. Only the partitions' tasks, the two running lists and the processor's current
     * task change.
     */
    method ExecuteTasks()
      requires Consistent()
      modifies this`runningTasks, this`ioWaitTasks, cpu`currentTask, Occupants(memoryBlocks)
      ensures forall j :: 0 <= j < |memoryBlocks| && memoryBlocks[j] != null ==>
                memoryBlocks[j].CurrentProgress() == TickProgress(old(memoryBlocks[j].CurrentProgress()), memoryBlocks[j].requiredTime)
      ensures runningTasks == old(runningTasks + Dispatched(memoryBlocks, Snapshot(memoryBlocks)))
      ensures ioWaitTasks == old(RemoveEach(ioWaitTasks, Completed(memoryBlocks, Snapshot(memoryBlocks))) +
                                 OfKind(Dispatched(memoryBlocks, Snapshot(memoryBlocks)), InOut))
      ensures cpu.currentTask == old(LastOr(Dispatched(memoryBlocks, Snapshot(memoryBlocks)), cpu.currentTask))
      ensures forall j :: 0 <= j < |memoryBlocks| && memoryBlocks[j] != null ==> memoryBlocks[j].state != Wait
      ensures Consistent()
    {
      hide Conserved, Occupants, Dispatched, Completed, RemoveEach, OfKind, LastOr, Snapshot, TickProgress;
      SlotsFromPacket();
      runningTasks, ioWaitTasks := ExecutePass(memoryBlocks, cpu, runningTasks, ioWaitTasks);
      forall j | 0 <= j < |memoryBlocks| && memoryBlocks[j] != null
        ensures memoryBlocks[j].state != Wait
      {
        TickProgressAdvances(old(memoryBlocks[j].CurrentProgress()), memoryBlocks[j].requiredTime);
      }
    }

    /** Puts the front of the waiting queue into every free partition, lowest first, while the queue lasts. */
    method LoadTasksToMemory() returns (loaded: bool)
      requires Consistent()
      modifies this`memoryBlocks, this`waitQueue
      ensures (memoryBlocks, waitQueue) == Fill(old(memoryBlocks), old(waitQueue))
      ensures loaded <==> CountNull(old(memoryBlocks)) > 0 && old(waitQueue) != []
      ensures Consistent()
    {
      var blocks, wait;
      blocks, wait, loaded := FillPass(memoryBlocks, waitQueue);
      assert Conserved(wait, blocks, readyQueue, packet.tasks) by {
        FillKeepsBatch(memoryBlocks, waitQueue, readyQueue, packet.tasks);
      }
      memoryBlocks, waitQueue := blocks, wait;
    }

    // ---- one tick ----

    /**
     * The first half of a tick, which moves tasks between the queues and the table: the automatic
     * shrink, the freeing of Ready tasks and the loading of waiting ones.
     */
    method ReloadTable()
      requires Consistent()
      modifies this`maxBlocksCount, this`memoryBlocks, this`waitQueue, this`readyQueue, this`runningTasks, this`ioWaitTasks, cpu`state
      ensures Consistent() && cpu.state == old(cpu.state)
      ensures maxBlocksCount == if ShrinkDue(|old(runningTasks)|, old(maxBlocksCount)) then old(maxBlocksCount) - 1 else old(maxBlocksCount)
      ensures State() == Loaded(old(Freed(Shrunk())))
      ensures (forall j :: 0 <= j < |memoryBlocks| ==> memoryBlocks[j] != null) || waitQueue == []
    {
      hide Consistent, Conserved, Occupants, Compact, Evicted, Reverse, RemoveEach, FreeReady, InState, Fill, Running;
      ghost var shrunk := Shrunk();
      ghost var freedQ := Freed(shrunk);
      var adjusted := CheckAndAdjustMemoryBlocks();
      assert State() == shrunk;
      assert Freed(State()) == freedQ;
      var freed := FreeCompletedTasks();
      assert State() == freedQ;
      ghost var table, queue := memoryBlocks, waitQueue;
      var loaded := LoadTasksToMemory();
      FillSaturates(table, queue);
    }

    /**
     * The last half of a tick, which changes only the processor and the statistics: the processor
     * state is managed and counted, and this tick's entry is appended to the record.
     */
    method RecordTick()
      requires Consistent() && currentTact >= 1 && HistoryMatches(history, currentTact - 1, cpuStateCounts)
      modifies cpu`state, this`cpuStateCounts, this`history
      ensures Valid()
      ensures cpu.state == Idle <==> !Running(runningTasks, Math) && !Running(runningTasks, InOut)
      ensures cpu.state == Executing ==> Running(runningTasks, Math)
      ensures cpu.state == IoWait ==> Running(runningTasks, InOut)
      ensures cpu.state == ManagedState(old(cpu.state), |Occupants(memoryBlocks)|, maxBlocksCount,
                                        Running(runningTasks, Math), Running(runningTasks, InOut))
      ensures cpuStateCounts == Counted(old(cpuStateCounts), cpu.state)
      ensures history == Recorded(old(history), currentTact, |Occupants(memoryBlocks)|, cpu.state,
                                  |waitQueue|, |InState(runningTasks, Run)|, |readyQueue|)
    {
      hide Conserved, Occupants, Running, InState, Recorded, HistoryMatches, ManagedState;
      ghost var used, math, io := |Occupants(memoryBlocks)|, Running(runningTasks, Math), Running(runningTasks, InOut);
      ghost var state := cpu.state;
      ManageCpuStates();
      ManagedStateConsistent(state, used, maxBlocksCount, math, io);
      assert Running(runningTasks, Math) == math && Running(runningTasks, InOut) == io;
      assert Consistent();
      RecordedMatches(old(history), currentTact - 1, old(cpuStateCounts), used, cpu.state,
                      |waitQueue|, |InState(runningTasks, Run)|, |readyQueue|);
      CollectStatistics();
    }

    /**
     * The last half of a tick: the partitions are served in slot order, then the processor state
     * is managed and counted, and this tick's entry is appended to the record.
     */
    method ServeAndRecord()
      requires Consistent() && currentTact >= 1 && HistoryMatches(history, currentTact - 1, cpuStateCounts)
      modifies this`runningTasks, this`ioWaitTasks, cpu`currentTask, cpu`state, this`cpuStateCounts, this`history
      modifies Occupants(memoryBlocks)
      ensures Valid()
      ensures var snap := old(Snapshot(memoryBlocks));
              |snap| == |memoryBlocks| && State() == Served(old(State()), snap)
      ensures var snap := old(Snapshot(memoryBlocks));
              |snap| == |memoryBlocks| &&
              forall j :: 0 <= j < |memoryBlocks| && memoryBlocks[j] != null ==>
                memoryBlocks[j].CurrentProgress() == TickProgress(snap[j], memoryBlocks[j].requiredTime)
      ensures cpu.currentTask == old(LastOr(Dispatched(memoryBlocks, Snapshot(memoryBlocks)), cpu.currentTask))
      ensures forall j :: 0 <= j < |memoryBlocks| && memoryBlocks[j] != null ==> memoryBlocks[j].state != Wait
      ensures cpu.state == ManagedState(old(cpu.state), |Occupants(memoryBlocks)|, maxBlocksCount,
                                        Running(runningTasks, Math), Running(runningTasks, InOut))
      ensures cpuStateCounts == Counted(old(cpuStateCounts), cpu.state)
      ensures cpu.state == Idle <==> !Running(runningTasks, Math) && !Running(runningTasks, InOut)
      ensures cpu.state == Executing ==> Running(runningTasks, Math)
      ensures cpu.state == IoWait ==> Running(runningTasks, InOut)
      ensures history == Recorded(old(history), currentTact, |Occupants(memoryBlocks)|, cpu.state,
                                  |waitQueue|, |InState(runningTasks, Run)|, |readyQueue|)
    {
      hide Conserved, Occupants, Running, InState, Recorded, HistoryMatches, Dispatched, Completed, RemoveEach, OfKind, LastOr, TickProgress;
      hide ManagedState, NoDup, Valid, HistoryValid, Consistent;
      ExecuteTasks();
      RecordTick();
    }

    /**
     * One tick: the counter advances; the table may shrink by one partition; Ready tasks leave
     * their partitions; waiting tasks fill the free ones; the partitions are served; the processor
     * state is updated and counted; and one entry is appended to every list of the statistics.
     */
    method RunTact()
      requires Valid()
      modifies this, cpu, set t | t in packet.tasks
      ensures Valid()
      ensures currentTact == old(currentTact) + 1
      ensures maxBlocksCount == if ShrinkDue(|old(runningTasks)|, old(maxBlocksCount)) then old(maxBlocksCount) - 1 else old(maxBlocksCount)
      ensures var reloaded := Loaded(old(Freed(Shrunk()))); var snap := old(Snapshot(reloaded.blocks));
              |snap| == |reloaded.blocks| && State() == Served(reloaded, snap)
      ensures var reloaded := Loaded(old(Freed(Shrunk()))); var snap := old(Snapshot(reloaded.blocks));
              |snap| == |memoryBlocks| &&
              forall j :: 0 <= j < |memoryBlocks| && memoryBlocks[j] != null ==>
                memoryBlocks[j].CurrentProgress() == TickProgress(snap[j], memoryBlocks[j].requiredTime)
      ensures var reloaded := Loaded(old(Freed(Shrunk()))); var snap := old(Snapshot(reloaded.blocks));
              |snap| == |reloaded.blocks| && cpu.currentTask == LastOr(Dispatched(reloaded.blocks, snap), old(cpu.currentTask))
      ensures cpu.state == ManagedState(old(cpu.state), |Occupants(memoryBlocks)|, maxBlocksCount,
                                        Running(runningTasks, Math), Running(runningTasks, InOut))
      ensures cpuStateCounts == Counted(old(cpuStateCounts), cpu.state)
      ensures forall j :: 0 <= j < |memoryBlocks| && memoryBlocks[j] != null ==> memoryBlocks[j].state != Wait
      ensures (forall j :: 0 <= j < |memoryBlocks| ==> memoryBlocks[j] != null) || waitQueue == []
      ensures cpu.state == Idle <==> !Running(runningTasks, Math) && !Running(runningTasks, InOut)
      ensures cpu.state == Executing ==> Running(runningTasks, Math)
      ensures cpu.state == IoWait ==> Running(runningTasks, InOut)
      ensures history == Recorded(old(history), currentTact, |Occupants(memoryBlocks)|, cpu.state,
                                  |waitQueue|, |InState(runningTasks, Run)|, |readyQueue|)
      ensures forall t :: t in packet.tasks && t !in Occupants(memoryBlocks) ==> t.CurrentProgress() == old(t.CurrentProgress())
    {
      hide Conserved, Occupants, Running, InState, Recorded, HistoryMatches, Freed, Loaded, Dispatched, Completed, RemoveEach, OfKind, LastOr, TickProgress;
      hide ManagedState, Shrunk, FreeReady, Fill, Compact, Evicted, Reverse, NoDup, CountNull, Nones, Served;
      assert Consistent() && HistoryMatches(history, currentTact, cpuStateCounts);
      hide Valid, HistoryValid, Consistent;
      ghost var reloaded := Loaded(Freed(Shrunk()));
      currentTact := currentTact + 1;
      ReloadTable();
      assert Snapshot(memoryBlocks) == old(Snapshot(reloaded.blocks));
      SlotsFromPacket();
      ServeAndRecord();
    }

    /**
     * Back to the state right after initialization, with the current number of partitions: every
     * task of the packet waits again with no service, the queues are those of the start, all
     * partitions are free, the processor is idle and the statistics are empty.
     */
    method Reset()
      requires maxBlocksCount >= 1 && packet.Valid()
      modifies this, cpu, set t | t in packet.tasks
      ensures maxBlocksCount == old(maxBlocksCount)
      ensures waitQueue == packet.tasks && memoryBlocks == Nones(maxBlocksCount)
      ensures readyQueue == [] && runningTasks == [] && ioWaitTasks == []
      ensures cpu.state == Idle && cpu.currentTask == null
      ensures currentTact == 0 && cpuStateCounts == ZeroCounts()
      ensures history == EmptyHistory(CountKind(packet.tasks, Math), CountKind(packet.tasks, InOut))
      ensures forall t :: t in packet.tasks ==> t.state == Wait && t.executionTime == 0
      ensures Valid()
    {
      hide Conserved, Occupants;
      waitQueue := packet.tasks;
      readyQueue := [];
      runningTasks := [];
      ioWaitTasks := [];
      memoryBlocks := Nones(maxBlocksCount);
      cpu.state := Idle;
      cpu.currentTask := null;
      currentTact := 0;
      var math := packet.GetMathTasks();
      var inOut := packet.GetInOutTasks();
      history := EmptyHistory(math, inOut);
      cpuStateCounts := ZeroCounts();
      RestartTasks(packet.tasks);
      ConservedAtStart(packet.tasks, maxBlocksCount);
    }

    // ---- resizing the table ----

    /** The lists after a resize of the given table and lists to n partitions. */
    ghost predicate ResizedFrom(blocks: Slots, wait: seq<Task>, running: seq<Task>, io: seq<Task>, n: nat)
      reads this
    {
      maxBlocksCount == n &&
      memoryBlocks == Compact(blocks, n) &&
      waitQueue == Reverse(Evicted(blocks, n)) + wait &&
      runningTasks == RemoveEach(running, Evicted(blocks, n)) &&
      ioWaitTasks == RemoveEach(io, Evicted(blocks, n))
    }

    /**
     * A resize to newCount partitions: the occupants are compacted into the lowest partitions in
     * order; those that do not fit leave the running lists and go to the front of the waiting queue,
     * the last one first. A count that is not positive is refused before anything changes.
     */
    method ChangeMemoryBlocksCount(newCount: int) returns (r: Outcome<ResizeError>)
      requires Consistent()
      modifies this`maxBlocksCount, this`memoryBlocks, this`waitQueue, this`runningTasks, this`ioWaitTasks, cpu`state
      ensures newCount <= 0 ==> r == Fail(NonPositiveCount(newCount)) && unchanged(this) && cpu.state == old(cpu.state)
      ensures newCount > 0 ==> r == Pass && ResizedFrom(old(memoryBlocks), old(waitQueue), old(runningTasks), old(ioWaitTasks), newCount)
      ensures Consistent() && cpu.state == old(cpu.state)
    {
      if newCount <= 0 {
        return Fail(NonPositiveCount(newCount));
      }
      hide Conserved, Occupants, Compact, Evicted, Reverse, RemoveEach, Running;
      var newMemoryBlocks, wait, running, io := Repartition(memoryBlocks, newCount, waitQueue, runningTasks, ioWaitTasks);
      assert Conserved(wait, newMemoryBlocks, readyQueue, packet.tasks) by {
        CompactKeepsBatch(memoryBlocks, newCount, waitQueue, readyQueue, packet.tasks);
      }
      ghost var state, used := cpu.state, |Occupants(newMemoryBlocks)|;
      assert forall math, inOut :: RecheckedState(state, used, newCount, math, inOut) == state;
      maxBlocksCount, memoryBlocks, waitQueue, runningTasks, ioWaitTasks := newCount, newMemoryBlocks, wait, running, io;
      UpdateCpuStateAfterMemoryChange();
      r := Pass;
    }

    /**
     * The automatic shrink at the start of a tick: when fewer tasks are listed as running than half
     * the partitions, and there are more than two, one partition is taken away.
     */
    method CheckAndAdjustMemoryBlocks() returns (adjusted: bool)
      requires Consistent()
      modifies this`maxBlocksCount, this`memoryBlocks, this`waitQueue, this`runningTasks, this`ioWaitTasks, cpu`state
      ensures adjusted <==> |old(runningTasks)| < old(maxBlocksCount) / 2 && old(maxBlocksCount) > 2
      ensures adjusted ==> ResizedFrom(old(memoryBlocks), old(waitQueue), old(runningTasks), old(ioWaitTasks), old(maxBlocksCount) - 1)
      ensures !adjusted ==> unchanged(this)
      ensures Consistent() && cpu.state == old(cpu.state)
    {
      var currentLoad := |runningTasks|;
      if currentLoad < maxBlocksCount / 2 && maxBlocksCount > 2 {
        var newCount := if maxBlocksCount - 1 >= 2 then maxBlocksCount - 1 else 2;
        var outcome := ChangeMemoryBlocksCount(newCount);
        return true;
      }
      return false;
    }
  }
}
