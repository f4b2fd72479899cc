/**
 * Deadlines built on the async-io timer. Time is an integer clock reading `now`; a timer is
 * ready once the clock has reached the instant it is due at.
 */
module AsyncIoTime {
  import opened TaskPoll

  /** `async_io::Timer`, reduced to the instant it is due at. */
  datatype Timer = Timer(due: int) {

    /** Ready exactly when the clock has reached the due instant; the output is that instant. */
    function Poll(now: int): (r: Poll<int>)
      ensures r.Ready? <==> now >= due
      ensures r.Ready? ==> r.value == due
    {
      if now >= due then Ready(due) else Pending
    }
  }

  /** `Timer::at(instant)`. */
  function TimerAt(instant: int): (t: Timer)
    ensures t.due == instant
  {
    Timer(instant)
  }

  /** `Timer::after(delay)`, armed at clock reading `now`. */
  function TimerAfter(delay: nat, now: int): (t: Timer)
    ensures t.due == now + delay
  {
    Timer(now + delay)
  }

  /** A deadline remembers the instant it stands for next to the timer that signals it. */
  datatype Deadline = Deadline(instant: int, delay: Timer) {

    /** Every deadline the module builds has its timer due at its stored instant. */
    predicate Valid() {
      delay.due == instant
    }

    /** `clone`: the same stored instant and a new timer at that absolute instant; the clock is
        not consulted, so a clone does not move the deadline. */
    function Clone(): (c: Deadline)
      ensures c.instant == instant && c.Valid()
      ensures Valid() ==> c == this
    {
      Deadline(instant, TimerAt(instant))
    }

    /** `poll`: `Ready(())` exactly when the timer is ready, its output discarded. */
    function Poll(now: int): (r: Poll<()>)
      ensures r.Ready? <==> delay.Poll(now).Ready?
      ensures Valid() ==> (r == Ready(()) <==> now >= instant)
    {
      match delay.Poll(now)
      case Ready(_) => Ready(())
      case Pending => Pending
    }
  }

  /** `into_deadline` for a `Duration`: the deadline stands for `now + d` and its timer is due
      `d` after `now`. */
  function FromDuration(d: nat, now: int): (r: Deadline)
    ensures r.instant == now + d && r.Valid()
  {
    Deadline(now + d, TimerAfter(d, now))
  }

  /** `into_deadline` for an `Instant`: stored unchanged, timer due at it. */
  function FromInstant(instant: int): (r: Deadline)
    ensures r.instant == instant && r.Valid()
  {
    Deadline(instant, TimerAt(instant))
  }

  /** A clone of a deadline made from a duration at clock reading `created` fires at
      `created + d`, whenever the clone is taken, just as the original does. */
  lemma CloneOfDurationKeepsInstant(d: nat, created: int, now: int)
    ensures FromDuration(d, created).Clone().Poll(now) == FromDuration(d, created).Poll(now)
    ensures FromDuration(d, created).Clone().Poll(now) == Ready(()) <==> now >= created + d
  {
    var original := FromDuration(d, created);
    assert original.Clone() == original;
  }

  /** Once a deadline has been seen ready, it is ready at every later clock reading. */
  lemma ReadyStaysReady(dl: Deadline, now: int, later: int)
    requires now <= later && dl.Poll(now).Ready?
    ensures dl.Poll(later) == Ready(())
  {
  }
}
