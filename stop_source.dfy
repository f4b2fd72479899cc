/**
 * The stop signal: a `StopSource` owns the only sender of a bounded channel whose item type is
 * uninhabited, and every `StopToken` is a receiver of that channel. Since no item can ever be
 * sent, the channel's only state is whether it is closed; dropping the source closes it, and a
 * closed channel is what every token reports as "stopped".
 */
module Signal {
  import opened TaskPoll

  /** The shared channel. No value of the item type exists, so nothing is ever buffered: the one
      piece of state is whether the single sender has been dropped. */
  class StopChannel {
    var closed: bool

    constructor ()
      ensures !closed
    {
      closed := false;
    }

    /** Dropping the sole sender closes the channel. Nothing reopens it. */
    method Close()
      modifies this
      ensures closed
    {
      closed := true;
    }
  }

  /** What a receiver of the stop channel reports when polled: the stream of (impossible) items
      has ended exactly when the channel is closed, and it is still waiting otherwise. */
  function PollClosed(closed: bool): (r: Poll<()>)
    ensures r == Ready(()) <==> closed
    ensures r == Pending <==> !closed
  {
    if closed then Ready(()) else Pending
  }

  /** A future that completes once its source is dropped. */
  datatype StopToken = StopToken(chan: StopChannel) {

    /** Derived `Clone`: another receiver of the same channel. */
    function Clone(): (c: StopToken)
      ensures c.chan == chan
    {
      StopToken(chan)
    }

    /** A token is its own deadline. */
    function IntoDeadline(): (d: StopToken)
      ensures d == this
    {
      this
    }

    /** `poll`: `Ready(())` once the channel is closed, `Pending` while the source is alive. */
    function Poll(): (r: Poll<()>)
      reads chan
      ensures r == PollClosed(chan.closed)
      ensures r.Ready? <==> chan.closed
    {
      PollClosed(chan.closed)
    }
  }

  /** Produces tokens and stops all of them when dropped. It is not cloneable: it is the one
      holder of the channel's sender. */
  class StopSource {
    /** The channel whose only sender this source holds. */
    const chan: StopChannel
    /** The source's own receiver, cloned for every token handed out. */
    const stopToken: StopToken

    ghost predicate Valid() {
      stopToken.chan == chan
    }

    /** `new` and `default`: a fresh, open channel, so the source's tokens poll `Pending`. */
    constructor ()
      ensures Valid() && fresh(chan)
      ensures !chan.closed
      ensures stopToken.Poll() == Pending
    {
      var c := new StopChannel();
      chan := c;
      stopToken := StopToken(c);
    }

    /** `token`: a clone of the source's own receiver, so it observes the same channel. */
    function Token(): (t: StopToken)
      requires Valid()
      ensures t.chan == chan
    {
      stopToken.Clone()
    }

    /** Dropping the source closes the channel; afterwards every token of it polls `Ready(())`. */
    method Drop()
      modifies chan
      ensures chan.closed
      ensures forall t: StopToken :: t.chan == chan ==> t.Poll() == Ready(())
    {
      chan.Close();
    }
  }

  /** Hands out tokens (one of them a clone of another), polls them, drops the source and polls
      them again: all tokens of one source wait together and are stopped together. */
  method TokensShareOneStop() returns (before: seq<Poll<()>>, after: seq<Poll<()>>)
    ensures before == [Pending, Pending, Pending]
    ensures after == [Ready(()), Ready(()), Ready(())]
  {
    var source := new StopSource();
    var a := source.Token();
    var b := source.Token();
    var c := a.Clone();
    before := [a.Poll(), b.Poll(), c.Poll()];
    source.Drop();
    after := [a.Poll(), b.Poll(), c.Poll()];
  }
}
