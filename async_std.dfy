/**
 * `Until` for async-std tasks: a task handle raced against a crate `Deadline`, resolving to the
 * task's output or to a `TimedOutError`. The task is abstract (a state and a `step` that polls
 * it once); the handle records whether a cancel was requested.
 */
module AsyncStdTask {
  import opened TaskPoll
  import Deadlines
  import AsyncIoTime

  /** An async-std `JoinHandle`: the task it waits for, and whether `cancel` was requested. */
  datatype JoinHandle<S> = JoinHandle(task: S, cancelRequested: bool)

  datatype Until<S> = Until(joinHandle: JoinHandle<S>, deadline: Deadlines.Deadline) {

    /** `poll`: the deadline is checked first; a ready deadline requests a cancel on the handle and
        ends with `Err(TimedOutError)`, without polling the task. Otherwise the task is polled once:
        its output comes back in `Ok`, and a pending task leaves the race pending. */
    function Poll<T>(deadlinePoll: Poll<()>, step: S -> (Poll<T>, S)): (r: (Poll<Result<T, Deadlines.TimedOutError>>, Until<S>))
      ensures deadlinePoll.Ready? ==>
        r.0 == Ready(Err(Deadlines.NewTimedOutError())) &&
        r.1 == this.(joinHandle := joinHandle.(cancelRequested := true))
      ensures deadlinePoll.Pending? ==> r.1 == this.(joinHandle := joinHandle.(task := step(joinHandle.task).1))
      ensures r.1.joinHandle.cancelRequested <==> joinHandle.cancelRequested || deadlinePoll.Ready?
      ensures r.1.deadline == deadline
      ensures r.0 == Pending <==> deadlinePoll.Pending? && step(joinHandle.task).0.Pending?
      ensures deadlinePoll.Pending? && step(joinHandle.task).0.Ready? ==> r.0 == Ready(Ok(step(joinHandle.task).0.value))
      ensures r.0.Ready? && r.0.value.Err? <==> deadlinePoll.Ready?
    {
      if deadlinePoll.Ready? then
        (Ready(Err(Deadlines.NewTimedOutError())), this.(joinHandle := joinHandle.(cancelRequested := true)))
      else
        var (p, next) := step(joinHandle.task);
        var handle := joinHandle.(task := next);
        match p
        case Pending => (Pending, this.(joinHandle := handle))
        case Ready(v) => (Ready(Ok(v)), this.(joinHandle := handle))
    }
  }

  /** `TaskExt::until`: the handle unchanged next to the target converted into a crate
      `Deadline`. The conversion (`Into<Deadline>`) is a parameter. */
  function UntilTask<S, X>(joinHandle: JoinHandle<S>, target: X, into: X -> Deadlines.Deadline): (r: Until<S>)
    ensures r.joinHandle == joinHandle && r.deadline == into(target)
  {
    Until(joinHandle, into(target))
  }

  /** A task that never completes, raced against a deadline `delay` after `start`: every poll
      before `start + delay` is pending and requests no cancel; every poll from then on times out. */
  lemma NeverCompletingTaskTimesOut<S>(task: S, delay: nat, start: int, now: int)
    ensures var u := Until(JoinHandle(task, false), Deadlines.Deadline(Deadlines.AsyncIo(AsyncIoTime.FromDuration(delay, start))));
      var r := u.Poll<()>(u.deadline.Poll(now), (s: S) => (Pending, s));
      && (now < start + delay ==> r == (Pending, u))
      && (now >= start + delay ==> r.0 == Ready(Err(Deadlines.NewTimedOutError())) && r.1.joinHandle.cancelRequested)
  {
  }
}
