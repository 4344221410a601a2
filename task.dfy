/**
 * A single job of the batch: its kind fixes how many units of service it needs, and it moves
 * from Wait to Run (when a processor takes it) and from Run to Ready (when its service is done).
 */
module Tasks {

  datatype TypeTask = Math | InOut

  datatype StateTask = Wait | Run | Ready

  /** Units of service a task needs: 3 for a computing task, 2 for an input/output task. */
  function RequiredTime(kind: TypeTask): nat
  {
    if kind == Math then 3 else 2
  }

  /** The mutable part of a task: its state and the service it has received so far. */
  datatype Progress = Progress(state: StateTask, executionTime: nat)

  /**
   * The effect of one call of `execute` on a task that needs `required` units: only a running
   * task is served; it reports completion, and becomes Ready, once its service reaches `required`.
   */
  function ExecuteStep(p: Progress, required: nat): (Progress, bool)
  {
    if p.state == Run then
      var served := p.executionTime + 1;
      if served >= required then (Progress(Ready, served), true) else (Progress(Run, served), false)
    else
      (p, false)
  }

  /** The progress after n successive calls of `execute`. */
  function ExecuteTimes(p: Progress, required: nat, n: nat): Progress
  {
    if n == 0 then p else ExecuteStep(ExecuteTimes(p, required, n - 1), required).0
  }

  /** What the n-th of successive calls of `execute` returns. */
  function CompletesOnCall(p: Progress, required: nat, n: nat): bool
    requires n >= 1
  {
    ExecuteStep(ExecuteTimes(p, required, n - 1), required).1
  }

  /** Ready is absorbing: however often a finished task is executed, nothing changes and no call reports completion. */
  lemma {:induction false} ReadyIsAbsorbing(p: Progress, required: nat, n: nat)
    requires p.state == Ready
    ensures ExecuteTimes(p, required, n) == p
    ensures n >= 1 ==> !CompletesOnCall(p, required, n)
  {
    if n >= 1 {
      ReadyIsAbsorbing(p, required, n - 1);
    }
  }

  /** A running task that still needs service gains one unit per call until it reaches its requirement and stops there. */
  lemma {:induction false} ExecuteFromRun(e: nat, required: nat, n: nat)
    requires e < required
    ensures ExecuteTimes(Progress(Run, e), required, n)
            == if e + n < required then Progress(Run, e + n) else Progress(Ready, required)
  {
    if n >= 1 {
      ExecuteFromRun(e, required, n - 1);
    }
  }

  /** Exactly one call reports completion: the one that brings the service up to the requirement. */
  lemma {:induction false} CompletionCall(e: nat, required: nat, n: nat)
    requires e < required && n >= 1
    ensures CompletesOnCall(Progress(Run, e), required, n) <==> e + n == required
  {
    ExecuteFromRun(e, required, n - 1);
  }

  /**
   * From Run with no service yet, a computing task reports completion on exactly its third
   * call of `execute` and an input/output task on exactly its second.
   */
  lemma {:induction false} KindCompletion(kind: TypeTask, n: nat)
    requires n >= 1
    ensures CompletesOnCall(Progress(Run, 0), RequiredTime(kind), n) <==> n == (if kind == Math then 3 else 2)
  {
    CompletionCall(0, RequiredTime(kind), n);
  }

  class Task {
    const num: int
    /** The source calls this field `type`, which is a keyword here. */
    const kind: TypeTask
    const memory: int
    var state: StateTask
    var executionTime: nat
    /** Assigned once, at creation, and never written again. */
    const requiredTime: nat

    /** Every task is created with the requirement of its kind. */
    ghost predicate Valid()
    {
      requiredTime == RequiredTime(kind)
    }

    constructor (num: int, kind: TypeTask, memory: int)
      ensures this.num == num && this.kind == kind && this.memory == memory
      ensures state == Wait && executionTime == 0
      ensures requiredTime == (if kind == Math then 3 else 2)
      ensures Valid()
    {
      this.num := num;
      this.kind := kind;
      this.memory := memory;
      state := Wait;
      executionTime := 0;
      requiredTime := if kind == Math then 3 else 2;
    }

    function CurrentProgress(): Progress
      reads this
    {
      Progress(state, executionTime)
    }

    method ChangeState(stateTask: StateTask)
      modifies this`state
      ensures state == stateTask
    {
      state := stateTask;
    }

    /** One unit of service. */
    method Execute() returns (completed: bool)
      modifies this`state, this`executionTime
      ensures old(state) != Run ==> !completed && state == old(state) && executionTime == old(executionTime)
      ensures old(state) == Run ==> executionTime == old(executionTime) + 1
      ensures old(state) == Run ==> (completed <==> executionTime >= requiredTime)
      ensures old(state) == Run ==> state == (if completed then Ready else Run)
      ensures (CurrentProgress(), completed) == ExecuteStep(old(CurrentProgress()), requiredTime)
    {
      completed := false;
      if state == Run {
        executionTime := executionTime + 1;
        if executionTime >= requiredTime {
          ChangeState(Ready);
          completed := true;
        }
      }
    }
  }
}
