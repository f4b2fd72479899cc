/**
 * The crate's `Deadline`: a sum over every kind of deadline (a stop token, a tokio deadline, an
 * async-io deadline) whose poll is the poll of the kind it holds, and the payload-free error a
 * timed-out race reports.
 */
module Deadlines {
  import opened TaskPoll
  import Signal
  import TokioTime
  import AsyncIoTime

  /** Returned when a future times out. Its only field is a unit, so it carries nothing. */
  datatype TimedOutError = TimedOutError(unit: ())

  /** `TimedOutError::new`. */
  function NewTimedOutError(): (e: TimedOutError)
    ensures e.unit == ()
  {
    TimedOutError(())
  }

  /** The message shown for a timed-out future. */
  const TimedOutMessage: string := "Future has timed out"

  /** `Display`. */
  function Display(e: TimedOutError): (s: string)
    ensures s == TimedOutMessage
  {
    TimedOutMessage
  }

  /** `Debug`: an empty struct named "TimeoutError" (note: not the type's own name). */
  function Debug(e: TimedOutError): (s: string)
    ensures s == "TimeoutError"
  {
    "TimeoutError"
  }

  /** The kinds of `std::io::Error` this model tells apart. */
  datatype IoErrorKind = TimedOut | Other

  /** `std::io::Error` built from a kind and a message. */
  datatype IoError = IoError(kind: IoErrorKind, message: string)

  /** `Into<io::Error>`: kind `TimedOut`, with the same message `Display` shows. */
  function IntoIoError(e: TimedOutError): (r: IoError)
    ensures r.kind == TimedOut
    ensures r.message == Display(e)
  {
    IoError(TimedOut, TimedOutMessage)
  }

  /** All timed-out errors are equal: derived `Eq`/`Ord` compare only the unit field. */
  lemma TimedOutErrorsAreAlike(a: TimedOutError, b: TimedOutError)
    ensures a == b
  {
  }

  /** The kinds of deadline. The stop-token kind exists whatever timer backends are built in. */
  datatype DeadlineKind =
    | StopToken(token: Signal.StopToken)
    | Tokio(tokio: TokioTime.Deadline)
    | AsyncIo(asyncIo: AsyncIoTime.Deadline)

  /** A future with no output that completes when the deadline it holds is reached. */
  datatype Deadline = Deadline(kind: DeadlineKind) {

    /** The heap a poll looks at: a stop token's channel, nothing for timer kinds. */
    ghost function Footprint(): set<object> {
      if kind.StopToken? then {kind.token.chan} else {}
    }

    /** Timer kinds keep their timer due at their stored instant. */
    predicate Valid() {
      match kind
      case StopToken(_) => true
      case Tokio(t) => t.Valid()
      case AsyncIo(t) => t.Valid()
    }

    /** `poll`: exactly the poll of the held kind. The output is `()`, so no payload. */
    function Poll(now: int): (r: Poll<()>)
      reads Footprint()
      ensures kind.StopToken? ==> r == kind.token.Poll()
      ensures kind.Tokio? ==> r == kind.tokio.Poll(now)
      ensures kind.AsyncIo? ==> r == kind.asyncIo.Poll(now)
    {
      match kind
      case StopToken(t) => t.Poll()
      case Tokio(t) => t.Poll(now)
      case AsyncIo(t) => t.Poll(now)
    }
  }

  /** When a deadline is ready: a token once its source is dropped, a timer kind once the clock
      has reached its stored instant. */
  lemma ReadyWhenReached(d: Deadline, now: int)
    requires d.Valid()
    ensures d.Poll(now) == Ready(()) <==>
      match d.kind
      case StopToken(t) => t.chan.closed
      case Tokio(t) => now >= t.instant
      case AsyncIo(t) => now >= t.instant
  {
  }
}
