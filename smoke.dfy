/**
 * The consumer loop of the smoke test, driven by an explicit order of events. A producer sends
 * items into a channel; a consumer drains the channel through a `StopStream` whose deadline is a
 * stop token; the stop source is dropped at some point. Each consumer step is one `poll_next`
 * of the stop stream; a `Ready(Some(x))` pushes `x` onto the collected items and a `Ready(None)`
 * ends the loop.
 */
module SmokeTest {
  import opened TaskPoll
  import Signal
  import StopStreams

  /** The test's item channel as its receiver sees it: the buffered items, oldest first, and
      whether the channel is closed (every sender gone). */
  datatype ItemChannel<T> = ItemChannel(items: seq<T>, closed: bool) {

    /** `send`: an open channel buffers the item at the back; a closed one refuses it. */
    function Send(x: T): (r: ItemChannel<T>)
      ensures r.closed == closed
      ensures r.items == if closed then items else items + [x]
    {
      if closed then this else this.(items := items + [x])
    }
  }

  /** `poll_next` on the receiver: the oldest buffered item, else the end of the stream once the
      channel is closed, else wait. */
  function Recv<T>(c: ItemChannel<T>): (r: (Poll<Option<T>>, ItemChannel<T>))
    ensures c.items != [] ==> r == (Ready(Some(c.items[0])), c.(items := c.items[1..]))
    ensures c.items == [] ==> r.1 == c && r.0 == if c.closed then Ready(None) else Pending
  {
    if c.items != [] then (Ready(Some(c.items[0])), c.(items := c.items[1..]))
    else if c.closed then (Ready(None), c)
    else (Pending, c)
  }

  /** What can happen next: the producer sends an item or drops its sender, the stop source is
      dropped, or the consumer polls the stop stream once. */
  datatype Event<T> = Send(item: T) | DropSender | DropSource | NextItem

  /** Everything the events act on: the item channel, whether the stop source is gone, the items
      the consumer has collected, and whether the consumer's loop has ended. */
  datatype World<T> = World(inner: ItemChannel<T>, stopped: bool, delivered: seq<T>, finished: bool)

  /** Before any event: an empty open channel, a live source, nothing collected. */
  function Initial<T>(): World<T> {
    World(ItemChannel([], false), false, [], false)
  }

  /** One event. A consumer step polls the stop stream with the token's answer for the current
      stop state; once the loop has ended the consumer takes no more steps. */
  function Apply<T>(w: World<T>, e: Event<T>): World<T> {
    match e
    case Send(x) => w.(inner := w.inner.Send(x))
    case DropSender => w.(inner := w.inner.(closed := true))
    case DropSource => w.(stopped := true)
    case NextItem =>
      if w.finished then w
      else
        var (r, s) := StopStreams.StopStream(w.inner, ()).PollNext(Signal.PollClosed(w.stopped), Recv);
        match r
        case Pending => w.(inner := s.stream)
        case Ready(None) => w.(inner := s.stream, finished := true)
        case Ready(Some(x)) => w.(inner := s.stream, delivered := w.delivered + [x])
  }

  /** The world after the given events, in order. */
  function RunFrom<T>(w: World<T>, events: seq<Event<T>>): World<T>
    decreases |events|
  {
    if events == [] then w else RunFrom(Apply(w, events[0]), events[1..])
  }

  function Run<T>(events: seq<Event<T>>): World<T> {
    RunFrom(Initial(), events)
  }

  /** The items the channel accepted: those sent before the sender was dropped. */
  function Accepted<T>(events: seq<Event<T>>): seq<T>
    decreases |events|
  {
    if events == [] then []
    else
      match events[0]
      case Send(x) => [x] + Accepted(events[1..])
      case DropSender => []
      case _ => Accepted(events[1..])
  }

  lemma {:induction false} RunFromAppend<T>(w: World<T>, a: seq<Event<T>>, b: seq<Event<T>>)
    ensures RunFrom(w, a + b) == RunFrom(RunFrom(w, a), b)
    decreases |a|
  {
    if a == [] {
      assert a + b == b;
    } else {
      assert (a + b)[0] == a[0];
      assert (a + b)[1..] == a[1..] + b;
      RunFromAppend(Apply(w, a[0]), a[1..], b);
    }
  }

  /** No item is lost, duplicated or reordered between the producer and the consumer: what has
      been collected, followed by what is still buffered, is exactly what the channel accepted. */
  lemma {:induction false} Conservation<T>(w: World<T>, events: seq<Event<T>>)
    ensures RunFrom(w, events).delivered + RunFrom(w, events).inner.items
         == w.delivered + w.inner.items + (if w.inner.closed then [] else Accepted(events))
    decreases |events|
  {
    if events != [] {
      var w' := Apply(w, events[0]);
      Conservation(w', events[1..]);
      match events[0]
      case Send(x) =>
        if !w.inner.closed {
          assert w.delivered + w'.inner.items + Accepted(events[1..])
              == w.delivered + w.inner.items + ([x] + Accepted(events[1..]));
        }
      case DropSender =>
      case DropSource =>
      case NextItem =>
        if !w.finished && !w.stopped && w.inner.items != [] {
          var items := w.inner.items;
          assert w'.delivered + w'.inner.items == w.delivered + [items[0]] + items[1..];
          assert [items[0]] + items[1..] == items;
        }
    }
  }

  /** Once the source is dropped the consumer collects nothing more, and the stop stays seen. */
  lemma {:induction false} NothingCollectedOnceStopped<T>(w: World<T>, events: seq<Event<T>>)
    requires w.stopped
    ensures RunFrom(w, events).delivered == w.delivered
    ensures RunFrom(w, events).stopped
    decreases |events|
  {
    if events != [] {
      NothingCollectedOnceStopped(Apply(w, events[0]), events[1..]);
    }
  }

  /** The stop cannot be undone: once a token has answered `Ready(())`, it answers `Ready(())`
      after any further events. */
  lemma StopIsPermanent<T>(before: seq<Event<T>>, after: seq<Event<T>>)
    requires Signal.PollClosed(Run(before).stopped) == Ready(())
    ensures Signal.PollClosed(Run(before + after).stopped) == Ready(())
  {
    RunFromAppend(Initial(), before, after);
    NothingCollectedOnceStopped(Run(before), after);
  }

  /** Once the consumer's loop has ended it stays ended and collects nothing more. */
  lemma {:induction false} FinishedStaysFinished<T>(w: World<T>, events: seq<Event<T>>)
    requires w.finished
    ensures RunFrom(w, events).finished
    ensures RunFrom(w, events).delivered == w.delivered
    decreases |events|
  {
    if events != [] {
      FinishedStaysFinished(Apply(w, events[0]), events[1..]);
    }
  }

  /** Dropping the source cuts the stream at that point: the collected items followed by the
      items still buffered when the source was dropped make up all items the channel had accepted
      by then. So what is collected is a prefix of what was sent before the stop, in order and
      unchanged; items still buffered at the stop are never collected, nor is anything sent
      afterwards. */
  lemma DeliveredAtStop<T>(before: seq<Event<T>>, after: seq<Event<T>>)
    ensures Run(before + [DropSource] + after).delivered + Run(before).inner.items == Accepted(before)
    ensures Run(before + [DropSource] + after).delivered <= Accepted(before)
  {
    var atStop := Apply(Run(before), DropSource);
    RunFromAppend(Initial(), before, [DropSource]);
    RunFromAppend(Initial(), before + [DropSource], after);
    NothingCollectedOnceStopped(atStop, after);
    Conservation(Initial<T>(), before);
  }

  /** If the consumer had drained the channel when the source was dropped, it has collected
      exactly the items sent before the stop. */
  lemma DrainedBeforeStopDeliversAll<T>(before: seq<Event<T>>, after: seq<Event<T>>)
    requires Run(before).inner.items == []
    ensures Run(before + [DropSource] + after).delivered == Accepted(before)
  {
    DeliveredAtStop(before, after);
  }

  /** The first consumer step after the source is dropped ends the loop. */
  lemma StopEndsTheLoop<T>(before: seq<Event<T>>, after: seq<Event<T>>)
    requires NextItem in after
    ensures Run(before + [DropSource] + after).finished
  {
    var k :| 0 <= k < |after| && after[k] == NextItem;
    var atStop := Apply(Run(before), DropSource);
    RunFromAppend(Initial(), before, [DropSource]);
    RunFromAppend(Initial(), before + [DropSource], after);
    assert after == after[..k] + [NextItem] + after[k+1..];
    RunFromAppend(atStop, after[..k] + [NextItem], after[k+1..]);
    RunFromAppend(atStop, after[..k], [NextItem]);
    NothingCollectedOnceStopped(atStop, after[..k]);
    var w := RunFrom(atStop, after[..k] + [NextItem]);
    assert w.finished;
    FinishedStaysFinished(w, after[k+1..]);
  }

  /** The smoke test's order of events: 1, 2, 3 are sent and drained, the consumer waits on the
      empty channel, the source is dropped, the consumer's next poll ends its loop, and 4, 5, 6
      are sent afterwards. */
  function SmokeEvents(): seq<Event<int>> {
    [Send(1), Send(2), Send(3), NextItem, NextItem, NextItem, NextItem,
     DropSource, NextItem, Send(4), Send(5), Send(6)]
  }

  /** The smoke test collects exactly [1, 2, 3]; 4, 5, 6 stay in the channel. */
  lemma SmokeCollectsFirstThree()
    ensures Run(SmokeEvents()).delivered == [1, 2, 3]
    ensures Run(SmokeEvents()).finished
    ensures Run(SmokeEvents()).inner.items == [4, 5, 6]
  {
    var sends: seq<Event<int>> := [Send(1), Send(2), Send(3)];
    var drain: seq<Event<int>> := [NextItem, NextItem, NextItem, NextItem];
    var stop: seq<Event<int>> := [DropSource, NextItem];
    var late: seq<Event<int>> := [Send(4), Send(5), Send(6)];
    assert SmokeEvents() == sends + drain + stop + late;
    var sent := World(ItemChannel([1, 2, 3], false), false, [], false);
    var drained := World(ItemChannel([], false), false, [1, 2, 3], false);
    var ended := World(ItemChannel([], false), true, [1, 2, 3], true);
    assert RunFrom(Initial(), sends) == sent;
    var one := World(ItemChannel([2, 3], false), false, [1], false);
    var two := World(ItemChannel([3], false), false, [1, 2], false);
    assert Apply(sent, NextItem) == one;
    assert Apply(one, NextItem) == two;
    assert Apply(two, NextItem) == drained;
    assert Apply(drained, NextItem) == drained;
    assert RunFrom(sent, drain) == drained;
    assert RunFrom(drained, stop) == ended;
    assert RunFrom(ended, late) == ended.(inner := ItemChannel([4, 5, 6], false));
    RunFromAppend(Initial(), sends, drain);
    RunFromAppend(Initial(), sends + drain, stop);
    RunFromAppend(Initial(), sends + drain + stop, late);
  }

  /** An item the consumer had not yet pulled when the source was dropped is not delivered. */
  lemma BufferedItemIsNotDelivered()
    ensures Run([Send(1), Send(2), NextItem, DropSource, NextItem]).delivered == [1]
    ensures Run([Send(1), Send(2), NextItem, DropSource, NextItem]).inner.items == [2]
  {
  }

  /** The consumer loop against a real stop source: `source.token()` wrapped around the item
      channel with `until`, each `NextItem` one `poll_next`, each `DropSource` a drop of the
      source. It collects exactly what the event model says. */
  method Consume<T>(events: seq<Event<T>>) returns (xs: seq<T>, finished: bool)
    ensures xs == Run(events).delivered
    ensures finished == Run(events).finished
  {
    var source := new Signal.StopSource();
    var stream := StopStreams.Until(ItemChannel([], false), source.Token(), (t: Signal.StopToken) => t.IntoDeadline());
    xs, finished := [], false;
    var i := 0;
    assert events[0..] == events;
    while i < |events|
      invariant 0 <= i <= |events|
      invariant stream.deadline.chan == source.chan
      invariant RunFrom(World(stream.stream, source.chan.closed, xs, finished), events[i..]) == Run(events)
    {
      ghost var w := World(stream.stream, source.chan.closed, xs, finished);
      assert events[i..][0] == events[i] && events[i..][1..] == events[i+1..];
      match events[i] {
      case Send(x) =>
        stream := stream.(stream := stream.stream.Send(x));
      case DropSender =>
        stream := stream.(stream := stream.stream.(closed := true));
      case DropSource =>
        source.Drop();
      case NextItem =>
        if !finished {
          var (r, next) := stream.PollNext(stream.deadline.Poll(), Recv);
          stream := next;
          match r
          case Pending =>
          case Ready(None) =>
            finished := true;
          case Ready(Some(x)) =>
            xs := xs + [x];
        }
      }
      assert World(stream.stream, source.chan.closed, xs, finished) == Apply(w, events[i]);
      i := i + 1;
    }
  }

  /** The smoke test itself: the collected items are [1, 2, 3]. */
  method Smoke() returns (xs: seq<int>)
    ensures xs == [1, 2, 3]
  {
    var finished;
    xs, finished := Consume(SmokeEvents());
    SmokeCollectsFirstThree();
  }
}
