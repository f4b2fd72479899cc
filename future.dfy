/**
 * `StopFuture`: a future raced against a stop token. The inner future is abstract: a state `F`
 * and a `step` that polls it once, yielding its poll result and its next state. The caller
 * supplies the token's poll result for this call.
 */
module StopFutures {
  import opened TaskPoll
  import Signal

  datatype StopFuture<F> = StopFuture(deadline: Signal.StopToken, future: F) {

    /** `poll`: the deadline is checked first; a ready deadline ends the race with `None` and the
        inner future is not polled. Otherwise the inner future is polled once and its output, if
        any, is passed through in `Some`. */
    function Poll<T>(deadlinePoll: Poll<()>, step: F -> (Poll<T>, F)): (r: (Poll<Option<T>>, StopFuture<F>))
      ensures deadlinePoll.Ready? ==> r.0 == Ready(None) && r.1 == this
      ensures deadlinePoll.Pending? ==> r.1 == this.(future := step(future).1)
      ensures r.0 == Ready(None) <==> deadlinePoll.Ready?
      ensures r.0 == Pending <==> deadlinePoll.Pending? && step(future).0.Pending?
      ensures deadlinePoll.Pending? && step(future).0.Ready? ==> r.0 == Ready(Some(step(future).0.value))
    {
      if deadlinePoll.Ready? then
        (Ready(None), this)
      else
        var (p, next) := step(future);
        match p
        case Pending => (Pending, this.(future := next))
        case Ready(v) => (Ready(Some(v)), this.(future := next))
    }
  }

  /** `FutureExt::until`: the future and the token are stored unchanged. */
  function Until<F>(future: F, deadline: Signal.StopToken): (r: StopFuture<F>)
    ensures r.deadline == deadline && r.future == future
  {
    StopFuture(deadline, future)
  }

  /** A future whose token's source has been dropped resolves to `None` on every poll, even if
      the inner future would be ready, and the inner future is left untouched. */
  lemma StoppedTokenWins<F, T>(fut: StopFuture<F>, step: F -> (Poll<T>, F))
    requires fut.deadline.chan.closed
    ensures fut.Poll(fut.deadline.Poll(), step) == (Ready(None), fut)
  {
  }
}
