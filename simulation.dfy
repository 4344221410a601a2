/**
 * The simulation driver: it owns one operating system, runs its ticks up to a bound, stops
 * as soon as the whole packet has been served, forwards manual resizes of the partition table
 * and keeps a log of them.
 */
module Simulations {
  import opened Wrappers
  import opened Tasks
  import opened Processor
  import opened Packets
  import opened Partitions
  import opened Osys

  /** One entry of the resize log: the starting capacity, or a resize made after a given tick. */
  datatype MemoryChange = Initial(count: int) | Resized(tact: nat, from: int, to: int)

  class Simulation {
    /** The capacity as the driver knows it: set at start and by manual resizes only. */
    var maxBlocksCount: int
    const maxTacts: int
    const os: OS
    /** The number of ticks the last run made. */
    var totalTacts: nat
    var memoryChanges: seq<MemoryChange>

    /** A driver over a freshly initialized system for an already loaded packet. */
    constructor (maxBlocksCount: int, maxTacts: int, packet: Packet)
      requires maxBlocksCount >= 1 && packet.Valid()
      ensures this.maxBlocksCount == maxBlocksCount && this.maxTacts == maxTacts
      ensures fresh(os) && fresh(os.cpu) && os.Valid()
      ensures os.packet == packet && os.maxBlocksCount == maxBlocksCount && os.currentTact == 0
      ensures os.waitQueue == packet.tasks && os.memoryBlocks == Nones(maxBlocksCount)
      ensures os.readyQueue == [] && os.runningTasks == [] && os.ioWaitTasks == []
      ensures os.cpu.state == Idle && os.cpu.currentTask == null && os.cpuStateCounts == ZeroCounts()
      ensures os.history == EmptyHistory(CountKind(packet.tasks, Math), CountKind(packet.tasks, InOut))
      ensures totalTacts == 0 && memoryChanges == [Initial(maxBlocksCount)]
    {
      this.maxBlocksCount := maxBlocksCount;
      this.maxTacts := maxTacts;
      os := new OS(maxBlocksCount, packet);
      totalTacts := 0;
      memoryChanges := [Initial(maxBlocksCount)];
    }

    /**
     * The run is over when no task waits, none is listed as running or as doing input/output,
     * and every partition is free or holds a finished task.
     */
    predicate IsSimOver()
      reads os, set t: Task | t in os.memoryBlocks
    {
      os.waitQueue == [] && os.runningTasks == [] && os.ioWaitTasks == [] &&
      forall j :: 0 <= j < |os.memoryBlocks| ==> os.memoryBlocks[j] == null || os.memoryBlocks[j].state == Ready
    }

    /** When the run is over, every task of the packet has finished. */
    lemma SimOverMeansAllReady()
      requires os.Valid() && IsSimOver()
      ensures forall t :: t in os.packet.tasks ==> t.state == Ready
    {
      ConservedMeans(os.waitQueue, os.memoryBlocks, os.readyQueue, os.packet.tasks);
      OccupantsMembers(os.memoryBlocks);
      forall t | t in os.packet.tasks
        ensures t.state == Ready
      {
        assert t in multiset(os.packet.tasks);
        assert t in multiset(Occupants(os.memoryBlocks)) || t in multiset(os.readyQueue);
        if t in Occupants(os.memoryBlocks) {
          var j :| 0 <= j < |os.memoryBlocks| && os.memoryBlocks[j] == t;
        }
      }
    }

    /**
     * A manual resize: forwarded to the system; when the system accepts it, the driver takes
     * the new capacity and logs the change against the ticks run so far. A count that is not
     * positive is refused and nothing changes.
     */
    method ChangeMemoryBlocks(newCount: int) returns (r: Outcome<ResizeError>)
      requires os.Valid()
      modifies this`maxBlocksCount, this`memoryChanges
      modifies os`maxBlocksCount, os`memoryBlocks, os`waitQueue, os`runningTasks, os`ioWaitTasks, os.cpu`state
      ensures newCount <= 0 ==> r == Fail(NonPositiveCount(newCount)) && unchanged(this, os, os.cpu)
      ensures newCount > 0 ==> r == Pass && maxBlocksCount == newCount
      ensures newCount > 0 ==> memoryChanges == old(memoryChanges) + [Resized(totalTacts, old(maxBlocksCount), newCount)]
      ensures newCount > 0 ==> os.ResizedFrom(old(os.memoryBlocks), old(os.waitQueue), old(os.runningTasks), old(os.ioWaitTasks), newCount)
      ensures os.Valid() && os.cpu.state == old(os.cpu.state)
    {
      var oldCount := maxBlocksCount;
      r := os.ChangeMemoryBlocksCount(newCount);
      if r.Fail? {
        return;
      }
      maxBlocksCount := newCount;
      memoryChanges := memoryChanges + [Resized(totalTacts, oldCount, newCount)];
    }

    /**
     * Runs ticks until the bound is reached or the run is over, whichever comes first; the check
     * follows every tick, so a bound of at least one always runs a tick. `overs` holds the outcome
     * of the check after each tick: only the last one can be true.
     */
    method RunSimulation() returns (ghost overs: seq<bool>)
      requires os.Valid()
      modifies this`totalTacts, os, os.cpu, set t | t in os.packet.tasks
      ensures os.Valid()
      ensures maxBlocksCount == old(maxBlocksCount)
      ensures os.currentTact == old(os.currentTact) + totalTacts
      ensures totalTacts <= if maxTacts > 0 then maxTacts else 0
      ensures maxTacts >= 1 ==> totalTacts >= 1
      ensures totalTacts < maxTacts ==> IsSimOver()
      ensures |overs| == totalTacts && forall k :: 0 <= k < totalTacts - 1 ==> !overs[k]
      ensures totalTacts > 0 ==> overs[totalTacts - 1] == IsSimOver()
    {
      hide *;
      totalTacts := 0;
      overs := [];
      var tact := 0;
      while tact < maxTacts
        invariant tact == totalTacts == |overs|
        invariant tact <= maxTacts || tact == 0
        invariant os.Valid()
        invariant os.currentTact == old(os.currentTact) + tact
        invariant forall k :: 0 <= k < |overs| ==> !overs[k]
        invariant tact > 0 ==> overs[tact - 1] == IsSimOver()
      {
        totalTacts := tact + 1;
        os.RunTact();
        var over := IsSimOver();
        overs := overs + [over];
        if over {
          break;
        }
        tact := tact + 1;
      }
    }

    /** The resize log, as a copy. */
    method GetMemoryChanges() returns (r: seq<MemoryChange>)
      ensures r == memoryChanges
    {
      r := memoryChanges;
    }

    /**
     * Back to the start: the system is reset at the capacity it has now, no tick has run, and
     * the log holds only the driver's capacity.
     */
    method Reset()
      requires os.maxBlocksCount >= 1 && os.packet.Valid()
      modifies this`totalTacts, this`memoryChanges, os, os.cpu, set t | t in os.packet.tasks
      ensures maxBlocksCount == old(maxBlocksCount) && os.maxBlocksCount == old(os.maxBlocksCount)
      ensures os.waitQueue == os.packet.tasks && os.memoryBlocks == Nones(os.maxBlocksCount)
      ensures os.readyQueue == [] && os.runningTasks == [] && os.ioWaitTasks == []
      ensures os.cpu.state == Idle && os.cpu.currentTask == null
      ensures os.currentTact == 0 && os.cpuStateCounts == ZeroCounts()
      ensures os.history == EmptyHistory(CountKind(os.packet.tasks, Math), CountKind(os.packet.tasks, InOut))
      ensures forall t :: t in os.packet.tasks ==> t.state == Wait && t.executionTime == 0
      ensures os.Valid()
      ensures totalTacts == 0 && memoryChanges == [Initial(maxBlocksCount)]
    {
      os.Reset();
      totalTacts := 0;
      memoryChanges := [Initial(maxBlocksCount)];
    }
  }

  /**
   * Building a driver from a job descriptor: the packet is loaded first, and a descriptor that
   * cannot be loaded gives its error instead of a driver.
   */
  method NewSimulation(maxBlocksCount: int, maxTacts: int, file: Option<Descriptor>) returns (r: Result<Simulation, LoadError>)
    requires maxBlocksCount >= 1
    ensures file.Some? ==> (r.Err? <==> DescriptorError(file.value).Some?)
    ensures file.Some? && r.Err? ==> r.error == DescriptorError(file.value).value
    ensures file.None? ==> r.Ok? && r.value.os.packet.tasks == []
    ensures r.Ok? ==> fresh(r.value) && r.value.os.Valid()
    ensures r.Ok? ==> r.value.maxBlocksCount == maxBlocksCount && r.value.maxTacts == maxTacts
    ensures r.Ok? ==> r.value.totalTacts == 0 && r.value.memoryChanges == [Initial(maxBlocksCount)]
    ensures r.Ok? ==> var os := r.value.os;
              os.maxBlocksCount == maxBlocksCount && os.currentTact == 0 &&
              os.waitQueue == os.packet.tasks && os.memoryBlocks == Nones(maxBlocksCount) &&
              os.readyQueue == [] && os.runningTasks == [] && os.ioWaitTasks == [] &&
              os.cpu.state == Idle && os.cpu.currentTask == null && os.cpuStateCounts == ZeroCounts() &&
              os.history == EmptyHistory(CountKind(os.packet.tasks, Math), CountKind(os.packet.tasks, InOut))
    ensures r.Ok? && file.Some? ==> var tasks := r.value.os.packet.tasks;
              |tasks| == |file.value.tasks.value| &&
              forall i :: 0 <= i < |tasks| ==> fresh(tasks[i]) && BuiltFrom(tasks[i], file.value.tasks.value[i])
    ensures r.Ok? && r.value.os.packet.tasks != [] ==> var tasks := r.value.os.packet.tasks;
              r.value.os.packet.packetType == Some(Classify(CountKind(tasks, Math), CountKind(tasks, InOut)))
  {
    var packet := LoadPacket(file);
    if packet.Err? {
      return Err(packet.error);
    }
    var sim := new Simulation(maxBlocksCount, maxTacts, packet.value);
    r := Ok(sim);
  }
}
