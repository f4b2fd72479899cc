# stop-token, modelled in Dafny

This project models the core of `stop-token`, a Rust library for cooperative cancellation of
async work. A `StopSource` owns the only sender of a channel whose item type is uninhabited.
Each `StopToken` is a receiver of that channel. Dropping the source closes the channel, and
from then on every token is ready.

Three combinators race a piece of work against a deadline. Each checks the deadline first and
only then polls the wrapped work:

- `StopFuture` wraps a future and resolves to `Option<T>`.
- `StopStream` wraps a stream and stops yielding items.
- `Until` wraps an async-std task handle and resolves to `Result<T, TimedOutError>`.

A deadline is a stop token, an async-io timer deadline or a tokio timer deadline. The crate's
`Deadline` sum type dispatches to whichever of these it holds.

How the model is built:

- Time is an integer clock reading `now`. A timer is ready once `now` is at or past its due instant.
- The inner future, stream or task is abstract: a state together with a step function that polls it once.
- Each combinator's poll takes the deadline's poll result for that call as a value.
- "The inner work is not polled" is stated as "its state comes back unchanged".
- The stop channel is a class (`Signal.StopChannel`) with one `closed` field. `StopSource.Drop` sets it, and nothing resets it.
- The smoke test in `tests/tests.rs` is modelled with an explicit order of events instead of sleeps.
  The events are: an item sent, the item channel's sender dropped, the stop source dropped, and the
  consumer polling the stop stream once.
  `SmokeTest.Consume` runs the consumer loop against a real `StopSource` object. Its result equals
  that of `SmokeTest.Run`, a pure fold over the events, and the trace properties are proved about `Run`.

Files: `poll.dfy` (Poll, Option, Result), `stop_source.dfy`, `deadline.dfy`, `async_io.dfy`,
`tokio.dfy`, `future.dfy`, `stream.dfy`, `async_std.dfy`, `smoke.dfy` (the test's driver).

Two consequences of the code worth stating outright:

- Items still buffered in the inner stream when the deadline is seen are not delivered:
  src/stream.rs:47-50 checks the deadline before it pulls (`SmokeTest.BufferedItemIsNotDelivered`).
- A clone of a duration-based deadline is not re-anchored to the clone time: src/async_io.rs:53-59
  re-arms a timer at the stored instant (`AsyncIoTime.CloneOfDurationKeepsInstant`).

Three things are mid-refactor in the source. The tests call `stop_token()`/`stop_stream`, but the code
offers `token()` and `until`; the model uses the code's names. `IntoDeadline` is used but not defined;
it is modelled as a conversion passed as a parameter. `async_std.rs` declares a field `futur_handlee`
but uses `join_handle`; the model uses `joinHandle`.

## Model

| member | source | states |
|---|---|---|
| Signal.StopChannel.Close | src/stop_source.rs:20-25 | dropping the sole sender leaves the channel closed |
| Signal.PollClosed | src/stop_source.rs:69-76 | a receiver of the stop channel is `Ready(())` exactly when the channel is closed, `Pending` exactly when it is open |
| Signal.StopToken.Clone | src/stop_source.rs:27-31 | a clone is a receiver of the same channel |
| Signal.StopToken.IntoDeadline | src/stop_source.rs:58-64 | a token converts to itself as a deadline |
| Signal.StopToken.Poll | src/stop_source.rs:66-76 | a token polls `Ready(())` if and only if its channel is closed |
| Signal.StopSource.constructor | src/stop_source.rs:33-48 | a new source has a fresh open channel, its own token is on that channel, and the token polls `Pending` |
| Signal.StopSource.Token | src/stop_source.rs:50-55 | every token handed out shares the source's channel |
| Signal.StopSource.Drop | src/stop_source.rs:10-25 | after the drop the channel is closed and every token of that channel polls `Ready(())` |
| Signal.TokensShareOneStop | src/stop_source.rs:10-19 | three tokens of one source (one of them a clone) all poll `Pending` before the drop and all poll `Ready(())` after it |
| Deadlines.NewTimedOutError | src/deadline.rs:24-28 | the error's only field is the unit value |
| Deadlines.Display | src/deadline.rs:38-42 | `Display` shows "Future has timed out" |
| Deadlines.Debug | src/deadline.rs:18-22 | `Debug` shows "TimeoutError" |
| Deadlines.IntoIoError | src/deadline.rs:32-36 | the `io::Error` has kind `TimedOut` and the same message as `Display` |
| Deadlines.TimedOutErrorsAreAlike | src/deadline.rs:12-16 | any two `TimedOutError`s are equal |
| Deadlines.Deadline.Poll | src/deadline.rs:94-106 | the poll is exactly the poll of the held kind (stop token, tokio or async-io), with output `()` |
| Deadlines.ReadyWhenReached | src/deadline.rs:94-106 | a deadline is ready if and only if its token's channel is closed, or, for a timer kind, the clock has reached its stored instant |
| AsyncIoTime.Deadline.Clone | src/async_io.rs:53-60 | a clone keeps the stored instant with a timer due at it, and equals the original deadline |
| AsyncIoTime.Deadline.Poll | src/async_io.rs:62-72 | ready exactly when the timer is ready (its output discarded), that is, when `now` is at or past the stored instant |
| AsyncIoTime.FromDuration | src/async_io.rs:74-84 | a duration `d` converted at `now` stores instant `now + d` with a timer due then |
| AsyncIoTime.FromInstant | src/async_io.rs:86-95 | an instant is stored unchanged with a timer due at it |
| AsyncIoTime.CloneOfDurationKeepsInstant | src/async_io.rs:53-59 | a clone of a duration-made deadline polls like the original at every clock reading, firing at creation time plus `d` |
| AsyncIoTime.ReadyStaysReady | src/async_io.rs:65-71 | a deadline seen ready stays ready at every later clock reading |
| TokioTime.Deadline.Clone | src/tokio.rs:28-36 | a clone keeps the stored instant with a fresh timeout at it, and equals the original deadline |
| TokioTime.Deadline.Poll | src/tokio.rs:38-47 | any `Ready` of the timeout becomes `Ready(())`, which happens exactly when `now` reaches the stored instant |
| TokioTime.CompletesOnlyByElapsing | src/tokio.rs:20-26 | the wrapped future is `pending()`, so a ready tokio deadline always means the timeout elapsed |
| TokioConversion.InstantIntoDeadline | src/tokio.rs:49-61 | a tokio instant becomes a crate `Deadline` of the tokio kind storing that instant, ready exactly from that instant on |
| StopFutures.StopFuture.Poll | src/future.rs:34-47 | `Ready(None)` if and only if the deadline is ready, leaving the future unpolled; with a pending deadline, the future's output is passed through in `Some`, and the result is `Pending` only if the future is pending |
| StopFutures.Until | src/future.rs:10-22 | the future and the token are stored unchanged |
| StopFutures.StoppedTokenWins | src/future.rs:37-41 | once the token's source is dropped, the poll is `Ready(None)` and leaves the future untouched |
| StopStreams.StopStream.PollNext | src/stream.rs:38-52 | a ready deadline gives `Ready(None)` without pulling from the stream; a pending deadline returns the inner stream's result exactly; an item is delivered only if it is the inner stream's own item |
| StopStreams.Until | src/stream.rs:11-24 | the stream is stored unchanged next to the converted target |
| AsyncStdTask.Until.Poll | src/async_std.rs:34-51 | a ready deadline gives `Err(TimedOutError)`, requests a cancel and leaves the task unpolled; a cancel is requested only on that branch; with a pending deadline, the task's output comes back in `Ok`, or `Pending` while it runs |
| AsyncStdTask.UntilTask | src/async_std.rs:3-16 | the handle is stored unchanged next to the converted target |
| AsyncStdTask.NeverCompletingTaskTimesOut | src/async_std.rs:40-50 | a task that never completes, raced against a deadline `delay` after `start`, is pending without any cancel before `start + delay` and times out with a cancel request from then on |
| SmokeTest.Conservation | tests/tests.rs:17-21 | the items collected, followed by the items still buffered, are exactly the items the channel accepted, in order |
| SmokeTest.NothingCollectedOnceStopped | src/stream.rs:47-49 | after the source is dropped, no further item is collected, and the stop stays seen |
| SmokeTest.StopIsPermanent | src/stop_source.rs:66-76 | once a token answers `Ready(())`, it answers `Ready(())` after any later events |
| SmokeTest.FinishedStaysFinished | tests/tests.rs:19-21 | once the consumer loop has ended, it stays ended and collects nothing |
| SmokeTest.DeliveredAtStop | src/stream.rs:45-51 | the items collected, followed by those buffered at the stop, equal the items sent before the stop; so the collected items are a prefix of those, and nothing sent after the stop is delivered |
| SmokeTest.DrainedBeforeStopDeliversAll | src/stream.rs:45-51 | if the channel was drained when the source was dropped, exactly the items sent before the stop are collected |
| SmokeTest.StopEndsTheLoop | tests/tests.rs:19-21 | the first consumer poll after the drop ends the loop |
| SmokeTest.SmokeCollectsFirstThree | tests/tests.rs:25-37 | with the smoke test's event order, the consumer collects [1, 2, 3] and ends, and 4, 5, 6 stay in the channel |
| SmokeTest.BufferedItemIsNotDelivered | src/stream.rs:47-50 | an item still buffered when the source is dropped is not delivered |
| SmokeTest.Consume | tests/tests.rs:17-23 | the consumer loop, run against a real stop source, collects exactly what the event model collects and ends when it does |
| SmokeTest.Smoke | tests/tests.rs:8-39 | the smoke test's result is [1, 2, 3] |

## Left out

- Waker registration, executor scheduling, the thread safety and memory ordering of the channel, and concurrent polling: the model is sequential, and the channel is a single closed flag.
- The uninhabited `Never` item type: Dafny cannot declare an empty type without an unchecked witness. So the stop channel has no buffer at all, and the `Ready(Some(_))` arm of `StopToken::poll` cannot arise by construction rather than being refuted.
- Real clocks and timer backends: time is an integer, and `async_io::Timer` and `tokio::time::Timeout` are reduced to their due instant. `Instant + Duration` overflow panics are not modelled.
- AsyncIoTime.FromDuration: reads the clock once, whereas src/async_io.rs:78-81 reads it twice (once for the stored instant, once inside `Timer::after`), so the two can differ slightly there.
- The external timers' behaviour after they fire (whether polling again after a `Ready` stays `Ready`): a timer is simply ready whenever `now` is at or past its due instant.
- What `JoinHandle::cancel` does: it is a foreign async call whose returned future is discarded. Only the request is recorded, in `cancelRequested`. The undefined `JoinHandleExt` (src/async_std.rs:18) is not modelled.
- The `IntoDeadline` trait and the `Into<Deadline>` bound are not defined in these files, so each `until` takes the conversion as a function parameter. The three conversions that are shown are modelled: `StopToken.IntoDeadline`, `FromDuration`/`FromInstant` and `InstantIntoDeadline`.
- The combinators take the deadline's poll result as a value instead of polling a stored deadline. In this model a deadline's poll has no side effects, so the order of the two polls within one call is captured by the "inner work unpolled when the deadline is ready" clauses.
- Pinning (`pin_project`), the derived `Debug` on the structs, `fmt::Formatter` options such as width and padding, the empty `Error` impl, and cfg feature selection: all `DeadlineKind` variants sit in one datatype.
- src/lib.rs (module wiring and docs) and src/time.rs (a superseded, thinner copy of src/async_io.rs).
- The capacity of the test's `bounded::<i32>(10)` channel: the model's item channel is unbounded. The test sends only six items, so its sends never wait.
- The 250 ms sleeps in tests/tests.rs:29-31: they are replaced by an explicit event order (items consumed, then the drop, then the later sends).
