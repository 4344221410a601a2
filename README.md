# Batch multiprogramming simulator, modelled in Dafny

This project models the core of a simulator of a batch operating system with a table of fixed memory
partitions. A *packet* of tasks is loaded from a job descriptor. Each task is either a computing
(MATH) task, which needs 3 units of service, or an input/output (INOUT) task, which needs 2.
The simulated system has:

- a waiting queue, a table of partitions, and a queue of finished tasks;
- two bookkeeping lists: the tasks started on the processor, and the input/output tasks in progress;
- a processor whose aggregate state is one of Idle, Executing, IoWait or Overloaded.

One tick (`Osys.OS.RunTact`) runs these steps in order:

1. It may shrink the table by one partition when few tasks are running.
2. It frees the partitions of finished tasks.
3. It fills free partitions from the front of the waiting queue.
4. It serves every occupied partition once: a waiting task is handed to the processor, and a running task gets one unit of service.
5. It updates the processor state.
6. It records one entry of statistics.

A driver (`Simulations.Simulation`) runs ticks until a bound is reached or the whole packet is
served. It forwards manual resizes to the system and keeps a log of them.

The model has one file per source file, plus two shared libraries:

- `task.dfy`: module `Tasks`.
- `cpu.dfy`: module `Processor`.
- `packet.dfy`: module `Packets`.
- `osys.dfy`: module `Osys`.
- `simulation.dfy`: module `Simulations`.
- `partitions.dfy` holds the value-level definitions of the partition table: occupants, freeing, filling, compaction, one service pass, and conservation of the batch.
- `lists.dfy` and `wrappers.dfy` hold sequence helpers, `Option`, `Result` and `Outcome`.

How the source is mapped:

- Everything the source mutates in place is a class with `modifies` frames: `Task`, `CPU`, `Packet`, `OS` and `Simulation`.
- The source's lists are `seq` fields that the methods reassign.
- Every loop of the source is a `while` or `for` loop with invariants. Each one except the driver's loop in `runSimulation` is proved against a value-level function of the old state. `Simulations.Simulation.RunSimulation` keeps only the system invariant and the outcome of the over-check; it does not give the state after each tick.

The central invariant is `Osys.OS.Valid`. It holds after construction, after every tick, after every resize and after a reset. It states:

- the table has exactly `maxBlocksCount` entries;
- every task of the packet is in exactly one of the waiting queue, the table and the finished queue, exactly once (a multiset equality);
- finished tasks are Ready;
- the processor is never Overloaded;
- the statistics hold one entry per tick;
- the state counters are the tally of the recorded states.

Some behaviour of the code is easy to misread; the model follows the code:

- **The processor state is incremental, not recomputed.** A processor in IoWait stays there while any input/output task runs, even when computing tasks run too. Only the Idle handler prefers computing (osys.py:208-247). `Osys.IncrementalNotRecomputed` is one concrete instance showing that the state is not recomputed; `Osys.ManagedStatePersists` is the general statement.
- **Eviction reverses order.** On a shrink, the evicted tasks are inserted one by one at the front of the waiting queue, so they end up there in reverse order (osys.py:84-90).
- **A task is not served in the tick it is dispatched.** The pass that hands a waiting task to the processor does not also serve it (osys.py:315-326). A computing task loaded in tick 1 is dispatched in tick 1, becomes Ready in tick 4 and is freed in tick 5.
- **An empty packet still runs one tick.** The termination check follows the tick (simulation.py:51-56).

Task identity is object identity here. The source looks tasks up with dataclass equality (`in` and `remove` on lists), which compares fields. The two coincide only when no two tasks of a packet have equal fields, for example when their numbers are distinct. Otherwise `remove` can take out an equal-field task that comes earlier in the list instead of the one meant.

## Model

| member | source | states |
|---|---|---|
| Tasks.Task.constructor | task.py:18-32 | a new task waits with no service, and its requirement is 3 for a computing task and 2 for an input/output task |
| Tasks.Task.ChangeState | task.py:35-36 | the task's state becomes the given one, and nothing else changes |
| Tasks.Task.Execute | task.py:39-45 | only a running task is served; it gains one unit and reports completion, turning Ready, exactly when its service reaches the requirement; one call is one `ExecuteStep` |
| Tasks.ReadyIsAbsorbing | task.py:39-45 | executing a finished task any number of times changes nothing and never reports completion |
| Tasks.ExecuteFromRun | task.py:39-45 | from Run with e < required units, n calls give Run with e + n units, or Ready at exactly the requirement |
| Tasks.CompletionCall | task.py:39-45 | exactly one call reports completion: the one that brings the service up to the requirement |
| Tasks.KindCompletion | task.py:28-32 | a fresh running computing task reports completion on exactly its third call, and an input/output task on exactly its second |
| Processor.CPU.constructor | cpu.py:14-16 | a new processor is Idle with no current task |
| Processor.CPU.UseToDoTask | cpu.py:19-21 | the task is Run and becomes the current task; its service so far is kept |
| Processor.CPU.DoTask | cpu.py:24-26 | the task is Ready and the processor has no current task |
| Packets.ParseType | packet.py:108 | the names "MATH" and "INOUT", and only those, name a task type |
| Packets.FirstError | packet.py:105-111 | a list of job records fails to load exactly when some record has a missing key or an unknown type |
| Packets.FirstErrorAppend | packet.py:105-111 | the first failing record of a concatenation is in the first part if that part fails at all |
| Packets.KindsPartition | packet.py:83-96 | the computing and input/output counts of a packet add up to its size |
| Packets.StatesPartition | packet.py:59-80 | the Wait, Run and Ready counts of a packet add up to its size |
| Packets.PacketTypeByShare | packet.py:32-45 | a packet is balanced, computing or input/output exactly when computing tasks are half, more than half or less than half of it |
| Packets.Packet.Empty | packet.py:27-29 | a packet built without a file has no tasks and no type |
| Packets.Packet.constructor | packet.py:19-26 | a packet keeps its task list, and it has a type exactly when it is non-empty, namely its classification |
| Packets.Packet.CheckPacketType | packet.py:32-45 | the type is balanced, computing or input/output exactly when the computing count equals, exceeds or falls short of the input/output count |
| Packets.Packet.GetTasksCount | packet.py:48-49 | the number of tasks |
| Packets.Packet.GetTasksMemory | packet.py:52-56 | the sum of the tasks' memory sizes |
| Packets.Packet.GetWaitTasks | packet.py:59-64 | the number of waiting tasks |
| Packets.Packet.GetRunTasks | packet.py:67-72 | the number of running tasks |
| Packets.Packet.GetReadyTasks | packet.py:75-80 | the number of finished tasks |
| Packets.Packet.GetMathTasks | packet.py:83-88 | the number of computing tasks |
| Packets.Packet.GetInOutTasks | packet.py:91-96 | the number of input/output tasks |
| Packets.CreateByJson | packet.py:100-111 | a descriptor loads exactly when it has a task list and every record is complete with a known type; the error is the first failure in the order tasks, num, type, memory; otherwise there is one fresh, distinct task per record, in order, built from that record |
| Packets.LoadPacket | packet.py:19-29 | no file gives the empty packet; otherwise it is the descriptor's error, or a valid packet of fresh tasks built from its records that has a type exactly when non-empty, and that type is the classification of its kind counts |
| Partitions.Occupants | osys.py:256 | the occupied partitions, in table order, are at most the table's size |
| Partitions.OccupantsMembers | osys.py:76 | a task is an occupant exactly when some partition holds it |
| Partitions.Nones | osys.py:45 | n free partitions |
| Partitions.DistinctSlots | osys.py:283-295 | when the occupants have no duplicates, no task sits in two partitions |
| Partitions.FreeReady | osys.py:283-295 | a partition is freed exactly when it holds a finished task; the others are kept |
| Partitions.FreeReadyConserves | osys.py:283-295 | the kept occupants and the freed finished tasks together are the old occupants, as multisets |
| Partitions.FreeReadyClears | osys.py:283-295 | after freeing, no partition holds a finished task, and every unfinished occupant stays where it was |
| Partitions.FillFifo | osys.py:298-311 | the k-th free partition (in table order) receives the k-th waiting task while tasks remain; occupied partitions are untouched; the queue loses exactly its first min(free, waiting) tasks |
| Partitions.FillSaturates | osys.py:298-311 | after loading, either every partition is occupied or the waiting queue is empty |
| Partitions.FillConserves | osys.py:298-311 | the occupants and waiting tasks together are the same multiset before and after loading |
| Partitions.FillLoads | osys.py:298-311 | loading changes the queue exactly when some partition is free and some task waits |
| Partitions.CompactSplits | osys.py:76-92 | compaction keeps the first min(occupied, n) occupants in order, and the rest are the evicted tasks |
| Partitions.TickProgressAdvances | osys.py:314-332 | after one service pass, no occupant waits, service never decreases, and finished tasks are untouched |
| Partitions.DispatchedCompletedMembers | osys.py:314-332 | a dispatched task was waiting in some partition before the pass; a completed one was running there and its service call reported completion |
| Partitions.NoDupDispatched | osys.py:314-332 | a table without duplicate occupants dispatches no task twice |
| Partitions.ConservedMeans | osys.py:44 | batch conservation is the multiset equality of waiting + occupants + finished with the packet |
| Partitions.ConservedAtStart | osys.py:44-45 | at the start, with every task waiting and every partition free, the batch is conserved |
| Partitions.FreeKeepsBatch | osys.py:283-295 | freeing finished tasks into the finished queue conserves the batch |
| Partitions.FillKeepsBatch | osys.py:298-311 | loading from the waiting queue conserves the batch |
| Partitions.CompactKeepsBatch | osys.py:76-92 | resizing, with the evicted tasks pushed back to the front of the waiting queue, conserves the batch |
| Osys.TallyMapSnoc | osys.py:179-181 | recording one more state increments exactly that state's counter |
| Osys.TallyPartition | osys.py:164-181 | the four state counters add up to the number of recorded ticks |
| Osys.RecordedMatches | osys.py:142-161 | appending one tick's statistics and incrementing that tick's state counter keeps the statistics matching the tick counter |
| Osys.ManagedStateConsistent | osys.py:168-247 | within capacity the managed state is never Overloaded; it is Idle exactly when nothing runs, Executing only when a computing task runs, and IoWait only when an input/output task runs |
| Osys.ManagedStatePersists | osys.py:208-247 | Executing persists while a computing task runs, IoWait while an input/output task runs; Idle and a recovered overload go to computing first, then input/output, else Idle |
| Osys.IncrementalNotRecomputed | osys.py:236-247 | with both kinds running, a processor in IoWait stays in IoWait, whereas the recomputed choice would be Executing (one instance; `Osys.ManagedStatePersists` is the general statement) |
| Osys.Repartition | osys.py:76-92 | the new table is the compaction, the evicted tasks go to the front of the waiting queue last-first, and each evicted task is taken out of the running and input/output lists |
| Osys.FreePass | osys.py:283-295 | the table is the freed table; finished occupants are appended, in table order, to the finished queue and removed from both lists; the flag says whether any was freed |
| Osys.FillPass | osys.py:298-311 | the table and queue are the FIFO fill; the flag says whether a free partition met a waiting task |
| Osys.ExecuteSlot | osys.py:315-332 | one partition's step: a waiting task is dispatched (appended to the running list, and to the input/output list when it is one); a running task is served, and leaves the input/output list when it completes |
| Osys.ServeSlot | osys.py:315-332 | one more partition's step keeps the pass's lists equal to the lists of the dispatched and completed prefix of the table |
| Osys.ExecutePass | osys.py:314-332 | each occupant advances by one service step; the running list gains the dispatched tasks in table order, the input/output list loses the completed tasks and gains the dispatched input/output tasks, and the current task is the last one dispatched |
| Osys.RestartTasks | osys.py:371-374 | every task of the packet waits again with no service |
| Osys.OS.SlotsFromPacket | osys.py:44 | under the invariant, partitions hold distinct packet tasks that are not in the finished queue |
| Osys.OS.constructor | osys.py:42-66 | a new system has the packet's tasks waiting in order, all partitions free, empty lists, an idle processor, tick 0, zero counters and empty statistics with the packet's kind counts; the invariant holds |
| Osys.OS.ChangeCpuState | osys.py:130-139 | the processor state becomes the given one |
| Osys.OS.ChangeToNormalState | osys.py:196-205 | the state becomes Executing if a computing task runs, else IoWait if an input/output task runs, else Idle |
| Osys.OS.CheckOverload | osys.py:184-193 | Overloaded exactly when more partitions are used than exist; a recovered overload returns to the normal state; otherwise nothing changes |
| Osys.OS.HandleIdleState | osys.py:208-219 | from Idle: the overload check, then computing first, then input/output, else Idle |
| Osys.OS.HandleExecutingState | osys.py:222-233 | from Executing: the overload check, then stay while a computing task runs, else IoWait or Idle |
| Osys.OS.HandleIoWaitState | osys.py:236-247 | from IoWait: the overload check, then stay while an input/output task runs, else Executing or Idle |
| Osys.OS.ManageCpuStates | osys.py:168-181 | the state is the managed state of the old one, and exactly the new state's counter is incremented |
| Osys.OS.UpdateCpuStateAfterMemoryChange | osys.py:102-108 | after a resize, Overloaded exactly when over capacity; a recovered overload returns to the normal state |
| Osys.OS.CollectStatistics | osys.py:142-161 | one entry is appended to each statistics list: the tick, the used partitions, the processor state and the waiting, running and finished counts |
| Osys.OS.FreeCompletedTasks | osys.py:283-295 | the table loses its finished tasks, which are appended to the finished queue and removed from both lists; the invariant is kept |
| Osys.OS.ExecuteTasks | osys.py:314-332 | one service pass over the table, as `ExecutePass`: afterwards no occupant waits, and the invariant is kept |
| Osys.OS.LoadTasksToMemory | osys.py:298-311 | the table and waiting queue are the FIFO fill of the old ones; the invariant is kept |
| Osys.Repartitioned | osys.py:76-92 | the table and lists after a resize to n partitions, the table having n entries and the finished queue untouched |
| Osys.Freed | osys.py:283-295 | the table and lists after the finished tasks leave the table; the table keeps its size and the waiting queue is untouched |
| Osys.FreedWithoutReady | osys.py:283-295 | freeing changes nothing while no partition holds a finished task, so a first tick over an empty table finishes nothing |
| Osys.Loaded | osys.py:298-311 | the table and waiting queue after the FIFO fill; the table keeps its size and the other lists are untouched |
| Osys.Served | osys.py:314-332 | the lists after one service pass that started from the given progress; the table, waiting queue and finished queue are untouched |
| Osys.OS.ReloadTable | osys.py:259-271 | the table and the four lists are the shrunk, then freed, then loaded old ones (each step as the value-level function of the step before); the capacity drops by one exactly under the shrink condition; the processor state is untouched; afterwards the table is full or nothing waits; the invariant is kept |
| Osys.OS.RecordTick | osys.py:278-279 | the processor state is the managed state of the old one, and only its counter grows by one; it is Idle exactly when nothing runs; one tick of statistics is recorded; the invariant and the matching statistics hold |
| Osys.OS.ServeAndRecord | osys.py:277-279 | the lists are the served old ones, each occupant's progress is one service step past its old progress, the current task is the last one dispatched, no occupant waits; then the processor state, counter and statistics are as for `RecordTick` |
| Osys.OS.RunTact | osys.py:250-280 | the tick counter grows by one; the table and the four lists are the old ones shrunk when due, freed, loaded and then served; each occupant's progress is one service step past its progress at the start; the current task is the last one dispatched; the capacity drops by one exactly under the shrink condition; the processor state is the managed state of the old one and only its counter grows; it is Idle exactly when nothing runs; one tick of statistics is recorded; the invariant is kept; every task of the packet outside the final table keeps its state and service |
| Osys.OS.Reset | osys.py:335-374 | every task waits again with no service, at the same capacity: packet order in the waiting queue, all partitions free, empty lists and finished queue, an idle processor with no task, tick 0, zero counters and empty statistics; the invariant holds |
| Osys.OS.ChangeMemoryBlocksCount | osys.py:69-99 | a count that is not positive is refused and nothing changes; otherwise the table is compacted to the new count, evicted tasks go to the front of the waiting queue last-first and leave both lists; the invariant is kept |
| Osys.OS.CheckAndAdjustMemoryBlocks | osys.py:111-118 | the table shrinks by exactly one partition exactly when fewer tasks are listed as running than half the partitions and there are more than two; otherwise nothing changes |
| Simulations.Simulation.constructor | simulation.py:21-25 | a driver starts at tick 0 over a fresh valid system with the given capacity, all tasks in the waiting queue, an empty table, the processor Idle with no current task, zero counters and an empty history; its log holds exactly the starting capacity |
| Simulations.Simulation.IsSimOver | simulation.py:71-77 | the run is over exactly when nothing waits, nothing is listed as running or doing input/output, and every partition is free or holds a finished task |
| Simulations.Simulation.SimOverMeansAllReady | simulation.py:71-77 | when the run is over, every task of the packet is Ready |
| Simulations.Simulation.ChangeMemoryBlocks | simulation.py:28-35 | a refused count changes nothing; an accepted one sets the driver's capacity, appends exactly one log entry tagged with the ticks run so far and the old and new capacities, and resizes the system |
| Simulations.Simulation.RunSimulation | simulation.py:38-68 | at most the bound of ticks are run, one `RunTact` per counted tick; at least one when the bound is at least one; stopping early only when the run is over, with the check failing after every earlier tick; the driver's capacity is untouched |
| Simulations.Simulation.GetMemoryChanges | simulation.py:84-85 | the log, unchanged |
| Simulations.Simulation.Reset | simulation.py:88-95 | the system is reset at its current capacity, no tick has run, and the log holds exactly the driver's capacity |
| Simulations.NewSimulation | simulation.py:21-25 | a descriptor that cannot be loaded gives its error; otherwise a fresh driver with the given bound and capacity over a valid system at tick 0 whose packet holds fresh tasks built from the records, in order, classified when non-empty; all tasks are in the waiting queue, the table is empty, the processor is Idle with no current task, and the counters and history are at their start |

## Left out

- Output: the event stream (`output_callback`, `setOutputCallback`, `output`), every message text, and the result lines of `runSimulation` (simulation.py:41-49, 60-68). None of them changes the state.
- Files and clocks: reading the job file from disk and parsing JSON are outside the model. `LoadPacket` takes the parsed descriptor, or None when no file name is given. Wall-clock timing (`start_time`, `end_time`, `getRunTime`) is not modelled.
- `ram`: it is stored and never used.
- The user interface, the statistics window (`main.py`, `statisticsInfo.py`), and `getCpuStateCounts`, which only copies a map.
- Osys.OS.CollectStatistics: the free-memory percentage is a float and is not recorded. The statistics keep their integer lists only.
- History: the state counters are keyed by the `StateCpu` values rather than by their display strings. `history.tacts` and the per-state task counts are lists of integers as in the source.
- Osys.OS.constructor, Simulations.Simulation.constructor, Simulations.NewSimulation: they require at least one partition (and the first two a valid packet). The user interface offers no smaller capacity (main.py:51). In the source a capacity of 0 fails only at the first `collectStatistics`, which divides by it, and a negative capacity gives an empty table whose first overload check moves the processor to Overloaded; neither run is modelled. The source's `OS(...)` followed by `initialize` is one constructor here, taking the already loaded packet.
- Osys.OS.Reset: it requires a valid packet and at least one partition, which the invariant always provides. The source's branch for a system that was never initialized (no packet) is not modelled, because here a system always has a packet.
- Osys.OS.ChangeMemoryBlocksCount: the source raises an exception for a count that is not positive. Here it returns `Fail(NonPositiveCount(n))`, with nothing changed.
- Simulations.Simulation.ChangeMemoryBlocks: the same refusal is forwarded as a `Fail` result, where the source lets the exception propagate. The driver's capacity and log are then unchanged, as in the source.
- Simulations.Simulation.RunSimulation: it does not state the system's state at earlier ticks. Its ghost `overs` keeps the outcome of the check after each tick, and only the last can be true.
- The driver's capacity (`Simulation.maxBlocksCount`) is written only by `ChangeMemoryBlocks`. The system's own automatic shrink does not update it, and `RunSimulation` promises the driver's capacity is untouched while the system's may drop. See simulation.py:32 and osys.py:111-115.
- The OVERLOADED state cannot arise under the invariant, because the table never has more entries than partitions. The handlers' overload branches are modelled as written; `Osys.ManagedStateConsistent` shows they are unreachable.
- Task equality: object identity stands in for the source's field equality, which is faithful only when no two tasks of the packet have equal fields (distinct numbers suffice). A packet with two equal-field tasks, where `remove` in `freeCompletedTasks`, `executeTasks` or a resize can take out the wrong one, is not modelled. See the note above.
