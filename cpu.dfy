/** The processor: its aggregate state and the task it was last handed. */
module Processor {
  import opened Tasks

  /** The four states of the processor, and no others. */
  datatype StateCpu = Idle | Executing | IoWait | Overloaded

  class CPU {
    var state: StateCpu
    var currentTask: Task?

    constructor ()
      ensures state == Idle && currentTask == null
    {
      state := Idle;
      currentTask := null;
    }

    /** Hands the task to the processor: it starts running; its service so far is kept. */
    method UseToDoTask(task: Task)
      modifies this`currentTask, task`state
      ensures task.state == Run && currentTask == task
    {
      task.ChangeState(Run);
      currentTask := task;
    }

    /** Marks the task as done and leaves the processor without a task. */
    method DoTask(task: Task)
      modifies this`currentTask, task`state
      ensures task.state == Ready && currentTask == null
    {
      task.ChangeState(Ready);
      currentTask := null;
    }
  }
}
