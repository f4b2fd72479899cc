/**
 * Deadlines built on tokio's `timeout_at`, wrapped around a future that never completes, so
 * the only way such a deadline completes is its timeout elapsing.
 */
module TokioTime {
  import opened TaskPoll

  /** `std::future::pending()`: never ready. */
  datatype PendingFuture = PendingFuture {
    function Poll(): (r: Poll<()>)
      ensures r == Pending
    {
      Pending
    }
  }

  /** tokio's `Elapsed` error. */
  datatype Elapsed = Elapsed

  /** `tokio::time::Timeout`: a future raced against an absolute deadline, the future first. */
  datatype Timeout = Timeout(deadline: int, value: PendingFuture) {

    /** The wrapped future is never ready, so a `Ready` here is always the elapsed timeout. */
    function Poll(now: int): (r: Poll<Result<(), Elapsed>>)
      ensures r.Ready? <==> now >= deadline
      ensures r.Ready? ==> r.value == Err(Elapsed)
    {
      match value.Poll()
      case Ready(v) => Ready(Ok(v))
      case Pending => if now >= deadline then Ready(Err(Elapsed)) else Pending
    }
  }

  /** `timeout_at(instant, future)`. */
  function TimeoutAt(instant: int, future: PendingFuture): (t: Timeout)
    ensures t.deadline == instant && t.value == future
  {
    Timeout(instant, future)
  }

  /** The stored instant next to the boxed timeout that signals it. */
  datatype Deadline = Deadline(instant: int, delay: Timeout) {

    /** Every deadline the module builds has its timeout due at its stored instant. */
    predicate Valid() {
      delay.deadline == instant
    }

    /** `clone`: a fresh `timeout_at(instant, pending())` at the same stored instant. */
    function Clone(): (c: Deadline)
      ensures c.instant == instant && c.Valid()
      ensures Valid() ==> c == this
    {
      Deadline(instant, TimeoutAt(instant, PendingFuture))
    }

    /** `poll`: any `Ready` of the timeout becomes `Ready(())`, `Pending` stays `Pending`. */
    function Poll(now: int): (r: Poll<()>)
      ensures r.Ready? <==> delay.Poll(now).Ready?
      ensures Valid() ==> (r == Ready(()) <==> now >= instant)
    {
      match delay.Poll(now)
      case Ready(_) => Ready(())
      case Pending => Pending
    }
  }

  /** A tokio deadline never completes other than by its timeout elapsing. */
  lemma CompletesOnlyByElapsing(dl: Deadline, now: int)
    requires dl.Poll(now).Ready?
    ensures dl.delay.Poll(now) == Ready(Err(Elapsed))
    ensures now >= dl.delay.deadline
  {
  }
}

/** The `IntoDeadline` implementation for tokio instants, which yields the crate's sum type. */
module TokioConversion {
  import opened TaskPoll
  import TokioTime
  import Deadlines

  /** `into_deadline` for a tokio `Instant`: a crate `Deadline` of the tokio kind whose stored
      instant is the input and whose timeout is armed at it. */
  function InstantIntoDeadline(instant: int): (d: Deadlines.Deadline)
    ensures d.kind.Tokio? && d.kind.tokio.instant == instant && d.kind.tokio.Valid()
    ensures forall now :: d.Poll(now) == Ready(()) <==> now >= instant
  {
    var t := TokioTime.Deadline(instant, TokioTime.TimeoutAt(instant, TokioTime.PendingFuture));
    Deadlines.Deadline(Deadlines.Tokio(t))
  }
}
