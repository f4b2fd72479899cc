/**
 * `StopStream`: a stream raced against a deadline, item by item. The inner stream is abstract:
 * a state `S` and a `pull` that polls it once for its next item. The caller supplies the
 * deadline's poll result for this call.
 */
module StopStreams {
  import opened TaskPoll

  datatype StopStream<S, D> = StopStream(stream: S, deadline: D) {

    /** `poll_next`: the deadline is checked first; once it is ready the stream ends (`None`)
        without pulling from the inner stream. While it is pending the inner stream's result is
        returned exactly, its items unchanged. */
    function PollNext<T>(deadlinePoll: Poll<()>, pull: S -> (Poll<Option<T>>, S)): (r: (Poll<Option<T>>, StopStream<S, D>))
      ensures deadlinePoll.Ready? ==> r == (Ready(None), this)
      ensures deadlinePoll.Pending? ==> r == (pull(stream).0, this.(stream := pull(stream).1))
      ensures r.1.deadline == deadline
      ensures r.0.Ready? && r.0.value.Some? ==> deadlinePoll.Pending? && r.0 == pull(stream).0
    {
      if deadlinePoll.Ready? then
        (Ready(None), this)
      else
        var (p, next) := pull(stream);
        (p, this.(stream := next))
    }
  }

  /** `StreamExt::until`: the stream unchanged next to the target's conversion into a deadline.
      The conversion (`IntoDeadline`) is a parameter. */
  function Until<S, X, D>(stream: S, target: X, intoDeadline: X -> D): (r: StopStream<S, D>)
    ensures r.stream == stream && r.deadline == intoDeadline(target)
  {
    StopStream(stream, intoDeadline(target))
  }
}
