/**
 * A packet: the ordered batch of tasks loaded from a job descriptor, with a classification
 * derived once from how many computing and input/output tasks it holds.
 */
module Packets {
  import opened Wrappers
  import opened Lists
  import opened Tasks

  datatype TypePacket = MathPack | InOutPack | BalancedPack

  /** One parsed job record; a field the record does not carry is None. */
  datatype Record = Record(num: Option<int>, typeName: Option<string>, memory: Option<int>)

  /** The parsed descriptor; `tasks` is None when the descriptor has no "tasks" entry. */
  datatype Descriptor = Descriptor(tasks: Option<seq<Record>>)

  /** Why a descriptor could not be turned into tasks: a missing key, or a task type with no such name. */
  datatype LoadError = MissingKey(key: string) | UnknownType(name: string)

  /** Looks a task type up by its name, as `TypeTask[name]` does. */
  function ParseType(name: string): (r: Option<TypeTask>)
    ensures r == Some(Math) <==> name == "MATH"
    ensures r == Some(InOut) <==> name == "INOUT"
  {
    if name == "MATH" then Some(Math) else if name == "INOUT" then Some(InOut) else None
  }

  /** The failure, if any, of building a task from one record; fields are read as num, type, memory. */
  function RecordError(rec: Record): Option<LoadError>
  {
    if rec.num.None? then Some(MissingKey("num"))
    else if rec.typeName.None? then Some(MissingKey("type"))
    else if ParseType(rec.typeName.value).None? then Some(UnknownType(rec.typeName.value))
    else if rec.memory.None? then Some(MissingKey("memory"))
    else None
  }

  /** The failure of the first record, in descriptor order, that cannot become a task. */
  function FirstError(records: seq<Record>): (r: Option<LoadError>)
    ensures r.None? <==> forall i :: 0 <= i < |records| ==> RecordError(records[i]).None?
  {
    if records == [] then None
    else if RecordError(records[0]).Some? then RecordError(records[0])
    else FirstError(records[1..])
  }

  lemma {:induction false} FirstErrorAppend(a: seq<Record>, b: seq<Record>)
    ensures FirstError(a + b) == if FirstError(a).Some? then FirstError(a) else FirstError(b)
  {
    if a == [] {
      assert a + b == b;
    } else {
      assert (a + b)[0] == a[0] && (a + b)[1..] == a[1..] + b;
      FirstErrorAppend(a[1..], b);
    }
  }

  /** The failure of loading a whole descriptor, if any. */
  function DescriptorError(data: Descriptor): Option<LoadError>
  {
    if data.tasks.None? then Some(MissingKey("tasks")) else FirstError(data.tasks.value)
  }

  /** t is the task the (well-formed) record describes, just created. */
  ghost predicate BuiltFrom(t: Task, rec: Record)
    reads t
  {
    RecordError(rec).None? &&
    t.num == rec.num.value && Some(t.kind) == ParseType(rec.typeName.value) && t.memory == rec.memory.value &&
    t.state == Wait && t.executionTime == 0 && t.Valid()
  }

  function CountKind(tasks: seq<Task>, kind: TypeTask): nat
  {
    if tasks == [] then 0
    else CountKind(tasks[..|tasks| - 1], kind) + (if tasks[|tasks| - 1].kind == kind then 1 else 0)
  }

  function CountState(tasks: seq<Task>, state: StateTask): nat
    reads tasks
  {
    if tasks == [] then 0
    else CountState(tasks[..|tasks| - 1], state) + (if tasks[|tasks| - 1].state == state then 1 else 0)
  }

  function TotalMemory(tasks: seq<Task>): int
  {
    if tasks == [] then 0 else TotalMemory(tasks[..|tasks| - 1]) + tasks[|tasks| - 1].memory
  }

  /** The classification rule: equal counts are balanced, otherwise the majority kind names the packet. */
  function Classify(math: nat, inOut: nat): (r: TypePacket)
  {
    if math == inOut then BalancedPack else if math > inOut then MathPack else InOutPack
  }

  /** Only two task kinds exist, so every task is counted by exactly one of the two kind counters. */
  lemma {:induction false} KindsPartition(tasks: seq<Task>)
    ensures CountKind(tasks, Math) + CountKind(tasks, InOut) == |tasks|
  {
    if tasks != [] {
      KindsPartition(tasks[..|tasks| - 1]);
    }
  }

  /** Every task is in exactly one of the three states, so the three state counters add up to the packet size. */
  lemma {:induction false} StatesPartition(tasks: seq<Task>)
    ensures CountState(tasks, Wait) + CountState(tasks, Run) + CountState(tasks, Ready) == |tasks|
  {
    if tasks != [] {
      StatesPartition(tasks[..|tasks| - 1]);
    }
  }

  /** The classification in terms of the share of computing tasks in the whole packet. */
  lemma {:induction false} PacketTypeByShare(tasks: seq<Task>)
    ensures Classify(CountKind(tasks, Math), CountKind(tasks, InOut)) == BalancedPack <==> 2 * CountKind(tasks, Math) == |tasks|
    ensures Classify(CountKind(tasks, Math), CountKind(tasks, InOut)) == MathPack <==> 2 * CountKind(tasks, Math) > |tasks|
    ensures Classify(CountKind(tasks, Math), CountKind(tasks, InOut)) == InOutPack <==> 2 * CountKind(tasks, Math) < |tasks|
  {
    KindsPartition(tasks);
  }

  class Packet {
    const tasks: seq<Task>
    /** The source calls this field `type`; None for a packet without tasks. */
    const packetType: Option<TypePacket>

    /** The tasks are distinct objects, each created with the requirement of its kind. */
    ghost predicate Valid()
    {
      NoDup(tasks) && forall t :: t in tasks ==> t.Valid()
    }

    /** A packet built without a descriptor. */
    constructor Empty()
      ensures tasks == [] && packetType == None && Valid()
    {
      tasks := [];
      packetType := None;
    }

    /** A packet over the tasks a descriptor produced; only a non-empty packet is classified. */
    constructor (tasksList: seq<Task>)
      requires NoDup(tasksList) && forall t :: t in tasksList ==> t.Valid()
      ensures tasks == tasksList && Valid()
      ensures packetType == if tasksList == [] then None
                            else Some(Classify(CountKind(tasksList, Math), CountKind(tasksList, InOut)))
    {
      tasks := if |tasksList| > 0 then tasksList else [];
      packetType := if |tasksList| > 0
                    then Some(Classify(CountKind(tasksList, Math), CountKind(tasksList, InOut)))
                    else None;
    }

    method CheckPacketType() returns (r: TypePacket)
      ensures r == Classify(CountKind(tasks, Math), CountKind(tasks, InOut))
      ensures r == BalancedPack <==> CountKind(tasks, Math) == CountKind(tasks, InOut)
      ensures r == MathPack <==> CountKind(tasks, Math) > CountKind(tasks, InOut)
      ensures r == InOutPack <==> CountKind(tasks, Math) < CountKind(tasks, InOut)
    {
      var inOut, math := 0, 0;
      for i := 0 to |tasks|
        invariant math == CountKind(tasks[..i], Math)
        invariant inOut == CountKind(tasks[..i], InOut)
      {
        assert tasks[..i + 1][..i] == tasks[..i];
        if tasks[i].kind == Math {
          math := math + 1;
        } else {
          inOut := inOut + 1;
        }
      }
      assert tasks[..|tasks|] == tasks;
      if math == inOut {
        r := BalancedPack;
      } else if math > inOut {
        r := MathPack;
      } else {
        r := InOutPack;
      }
    }

    method GetTasksCount() returns (r: nat)
      ensures r == |tasks|
    {
      r := |tasks|;
    }

    method GetTasksMemory() returns (memory: int)
      ensures memory == TotalMemory(tasks)
    {
      memory := 0;
      for i := 0 to |tasks|
        invariant memory == TotalMemory(tasks[..i])
      {
        assert tasks[..i + 1][..i] == tasks[..i];
        memory := memory + tasks[i].memory;
      }
      assert tasks[..|tasks|] == tasks;
    }

    method CountInState(state: StateTask) returns (count: nat)
      ensures count == CountState(tasks, state)
    {
      count := 0;
      for i := 0 to |tasks|
        invariant count == CountState(tasks[..i], state)
      {
        assert tasks[..i + 1][..i] == tasks[..i];
        if tasks[i].state == state {
          count := count + 1;
        }
      }
      assert tasks[..|tasks|] == tasks;
    }

    method CountOfKind(kind: TypeTask) returns (count: nat)
      ensures count == CountKind(tasks, kind)
    {
      count := 0;
      for i := 0 to |tasks|
        invariant count == CountKind(tasks[..i], kind)
      {
        assert tasks[..i + 1][..i] == tasks[..i];
        if tasks[i].kind == kind {
          count := count + 1;
        }
      }
      assert tasks[..|tasks|] == tasks;
    }

    method GetWaitTasks() returns (count: nat)
      ensures count == CountState(tasks, Wait)
    {
      count := CountInState(Wait);
    }

    method GetRunTasks() returns (count: nat)
      ensures count == CountState(tasks, Run)
    {
      count := CountInState(Run);
    }

    method GetReadyTasks() returns (count: nat)
      ensures count == CountState(tasks, Ready)
    {
      count := CountInState(Ready);
    }

    method GetMathTasks() returns (count: nat)
      ensures count == CountKind(tasks, Math)
    {
      count := CountOfKind(Math);
    }

    method GetInOutTasks() returns (count: nat)
      ensures count == CountKind(tasks, InOut)
    {
      count := CountOfKind(InOut);
    }
  }

  /**
   * Builds the tasks a descriptor lists, in descriptor order; the first record that lacks a key
   * or names an unknown type aborts the load and no task list is produced.
   */
  method CreateByJson(data: Descriptor) returns (r: Result<seq<Task>, LoadError>)
    ensures r.Err? <==> DescriptorError(data).Some?
    ensures r.Err? ==> r.error == DescriptorError(data).value
    ensures r.Ok? ==> data.tasks.Some? && |r.value| == |data.tasks.value| && NoDup(r.value)
    ensures r.Ok? ==> forall i :: 0 <= i < |r.value| ==> fresh(r.value[i]) && BuiltFrom(r.value[i], data.tasks.value[i])
  {
    if data.tasks.None? {
      return Err(MissingKey("tasks"));
    }
    var records := data.tasks.value;
    var tasksList: seq<Task> := [];
    for i := 0 to |records|
      invariant |tasksList| == i && NoDup(tasksList)
      invariant FirstError(records[..i]).None?
      invariant forall k :: 0 <= k < i ==> fresh(tasksList[k]) && BuiltFrom(tasksList[k], records[k])
    {
      var rec := records[i];
      FirstErrorAppend(records[..i], [rec]);
      assert records[..i + 1] == records[..i] + [rec];
      if rec.num.None? {
        FirstErrorAppend(records[..i + 1], records[i + 1..]);
        assert records[..i + 1] + records[i + 1..] == records;
        return Err(MissingKey("num"));
      }
      if rec.typeName.None? {
        FirstErrorAppend(records[..i + 1], records[i + 1..]);
        assert records[..i + 1] + records[i + 1..] == records;
        return Err(MissingKey("type"));
      }
      var kind := ParseType(rec.typeName.value);
      if kind.None? {
        FirstErrorAppend(records[..i + 1], records[i + 1..]);
        assert records[..i + 1] + records[i + 1..] == records;
        return Err(UnknownType(rec.typeName.value));
      }
      if rec.memory.None? {
        FirstErrorAppend(records[..i + 1], records[i + 1..]);
        assert records[..i + 1] + records[i + 1..] == records;
        return Err(MissingKey("memory"));
      }
      var task := new Task(rec.num.value, kind.value, rec.memory.value);
      tasksList := tasksList + [task];
    }
    assert records[..|records|] == records;
    r := Ok(tasksList);
  }

  /**
   * `Packet(filename)`: no descriptor gives the empty packet; otherwise the descriptor's tasks,
   * classified when there is at least one. The file read itself happens before this call.
   */
  method LoadPacket(file: Option<Descriptor>) returns (r: Result<Packet, LoadError>)
    ensures file.None? ==> r.Ok? && r.value.tasks == [] && r.value.packetType.None?
    ensures file.Some? ==> (r.Err? <==> DescriptorError(file.value).Some?)
    ensures file.Some? && r.Err? ==> r.error == DescriptorError(file.value).value
    ensures r.Ok? ==> fresh(r.value) && r.value.Valid()
    ensures r.Ok? && file.Some? ==>
              |r.value.tasks| == |file.value.tasks.value| &&
              (r.value.packetType.None? <==> r.value.tasks == []) &&
              forall i :: 0 <= i < |r.value.tasks| ==> fresh(r.value.tasks[i]) && BuiltFrom(r.value.tasks[i], file.value.tasks.value[i])
    ensures r.Ok? && r.value.tasks != [] ==>
              r.value.packetType == Some(Classify(CountKind(r.value.tasks, Math), CountKind(r.value.tasks, InOut)))
  {
    if file.None? {
      var p := new Packet.Empty();
      return Ok(p);
    }
    var tasksList := CreateByJson(file.value);
    if tasksList.Err? {
      return Err(tasksList.error);
    }
    var p := new Packet(tasksList.value);
    r := Ok(p);
  }
}
