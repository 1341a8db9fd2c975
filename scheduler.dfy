/**
 * The rate-limited task scheduler, reduced to its queue: tasks are appended by
 * `add_task` and the drain loop of `process_tasks` takes them from the head.
 */
module Scheduler {
  import opened Wrappers

  class TaskScheduler<T> {
    /** The pending tasks, head first. */
    var tasks: seq<T>

    constructor ()
      ensures tasks == []
    {
      tasks := [];
    }

    /** `add_task`: append at the tail; the tasks already queued are untouched. */
    method AddTask(task: T)
      modifies this
      ensures tasks == old(tasks) + [task]
      ensures |tasks| == |old(tasks)| + 1 && tasks[..|old(tasks)|] == old(tasks)
    {
      tasks := tasks + [task];
    }

    /**
     * One turn of the drain loop: with a pending task, remove the head and hand
     * it out to be run; with none, hand out nothing and leave the queue as it is
     * (the loop then waits for the next `add_task`).
     */
    method PopTask() returns (next: Option<T>)
      modifies this
      ensures old(tasks) == [] ==> next == None && tasks == []
      ensures old(tasks) != [] ==> next == Some(old(tasks)[0]) && tasks == old(tasks)[1..]
    {
      if tasks != [] {
        next := Some(tasks[0]);
        tasks := tasks[1..];
      } else {
        next := None;
      }
    }
  }
}
