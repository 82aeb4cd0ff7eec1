# s-stream in Dafny

A model of `stream`, the reactive value cell of s-stream (`index.js`). A
stream holds a current value and a flag `hasValue`. It keeps an ordered list
of change callbacks, which every plain write invokes in order with the new
value. It also keeps an ordered list of error callbacks, which are invoked
when an attached promise rejects. `map` subscribes a change callback and
replays the current value to it when there is one. `catch` subscribes an error
callback. `off` and `offRejection` remove the first subscription of a callback,
compared by identity. Writing a promise does not change the value: it calls
`then(s)` on the promise and `catch(handleError(s))` on the promise that
`then` returns.

The model has three parts:

- `subscribers.dfy` (module `Subscribers`): callbacks are opaque ids. It
  models `indexOf` and the guarded `splice(index, 1)` on a list of ids.
- `stream.dfy` (module `Stream`): the closure state is an immutable `State`
  record. Each operation is a pure function that returns the next state and
  the trace of callback invocations, in order.
  - Values are tagged `Plain(Undefined | Defined(v))` or `Producer(id)`. This
    tag replaces the duck-typed promise check.
  - An attached promise continuation that has not fired yet is counted in the
    multiset `attached`.
  - A promise outcome is an explicit event: `Resolve(id, x)` or `Reject(id, e)`.
    Each event fires one pending continuation.
  - `Run` applies a sequence of operations and concatenates their traces.
- `stream_laws.dfy` (module `StreamLaws`) holds lemmas that relate
  operations: the reachable-state invariant, call counts, round trips, promise
  resolution and rejection, and construction. `stream_scenarios.dfy` (module
  `StreamScenarios`) replays cases from `index.test.js` on concrete values.

Three behaviours of the code are easy to miss:

- `stream(p)` with a promise stores `p` itself as the value, with `hasValue`
  false (index.js:23-24). Until `p` settles, a read returns `p` itself, not
  `undefined` (index.js:37).
- The constructor attaches `p` by calling `s(p)` (index.js:65).
- A promise written twice is attached twice. Each of its continuations then
  fires on its own.

## Model

| member | source | states |
|---|---|---|
| Subscribers.IndexOf | index.js:54 | `indexOf` gives -1 exactly when the id is absent. Otherwise it gives a position holding the id with no earlier occurrence. |
| Subscribers.Remove | index.js:53-57 | Removal takes away exactly one copy of the id when present. It leaves the list untouched when absent. |
| Subscribers.RemoveIsDropFirst | index.js:53-57 | Index-then-splice equals the structural deletion of the first occurrence, so the remaining ids keep their relative order. |
| Subscribers.RemoveAppendedFresh | index.js:53-57 | Removing a fresh id that was just pushed restores the original list. |
| Subscribers.RemoveBeforeSuffix | index.js:54-55 | When the id already occurs in a prefix, removal never touches what was appended after it. |
| Stream.Emit | index.js:6-11 | Emission makes one call per change callback, in list order, each with the current value. |
| Stream.HandleError | index.js:13-19 | A rejection makes one call per error callback, in list order, each with the reason. |
| Stream.Write | index.js:26-38 | A plain write (undefined included) sets the value and `hasValue`, emits it to every subscriber in order and returns it. A producer write only attaches, calls nobody and returns the prior value. Neither touches the subscriber lists. |
| Stream.Map | index.js:41-45 | `map` appends the callback and changes nothing else. It replays the current value to that callback alone, exactly when `hasValue` holds. |
| Stream.Catch | index.js:47-51 | `catch` appends to the error list, changes nothing else and calls nobody. |
| Stream.Off | index.js:53-57 | `off` removes the first copy of the callback, keeping the rest in order, and is a no-op when it is absent. It never touches the value, `hasValue` or the error list, and calls nobody. |
| Stream.OffRejection | index.js:59-63 | `offRejection` does the same on the error list only. |
| Stream.Settle | index.js:29 | Resolving an attached producer writes the outcome, which re-attaches if the outcome is a producer. Rejecting calls every error callback in order and keeps value, `hasValue` and callbacks. An unattached producer has no effect. |
| Stream.Construct | index.js:21-24 | No argument gives undefined with no value. A plain argument (undefined included) is held with `hasValue`. A producer is held itself without `hasValue` and is attached. No callback is called. |
| StreamLaws.ConstructValid | index.js:21-24 | A new stream is in a reachable state: once `hasValue` holds, the value is plain. |
| StreamLaws.ApplyValid | index.js:26-63 | Every operation keeps the invariant. Every value handed to a change callback is plain, never a producer. |
| StreamLaws.RunValid | index.js:26-63 | The same holds for any sequence of operations. |
| StreamLaws.HasValueOnlyByAssignment | index.js:32-33 | `hasValue` is true afterwards exactly when it was before or the operation assigned a plain value (a direct write or an attached resolution). |
| StreamLaws.HasValueNeverCleared | index.js:24-33 | Once a stream has a value, no sequence of operations takes it back to `hasValue` false: index.js:33 is the only assignment after construction, and it sets `true`. |
| StreamLaws.EmitCallsEachSubscription | index.js:8-10 | An emission calls each callback once per subscription it holds. |
| StreamLaws.EmitAppend | index.js:8-10 | Emitting to a concatenated list is emitting to each part, one after the other. |
| StreamLaws.PlainWriteCallsEachSubscription | index.test.js:59-71 | A plain write, undefined included, calls each subscription once with that value and calls no error callback. |
| StreamLaws.PlainWritesEmitInOrder | index.test.js:125-137 | A run of plain writes ends holding the last value and keeps both lists. It produces one full emission per write, in write order. |
| StreamLaws.EmitEachCallCount | index.test.js:125-137 | Over n plain writes, each subscription is called exactly n times. |
| StreamLaws.MapThenWrite | index.js:42 | After `map(f)`, a write calls the earlier subscribers in order and then `f`. |
| StreamLaws.MapOffRoundTrip | index.js:53-57 | `map(f)` then `off(f)` with a fresh `f` restores the stream exactly. |
| StreamLaws.MapOffRemovesEarlier | index.js:54-55 | When `f` was already subscribed, `off(f)` after `map(f)` removes the older subscription and keeps the new one last. |
| StreamLaws.CatchOffRejectionRoundTrip | index.js:47-63 | `catch(g)` then `offRejection(g)` with a fresh `g` restores the stream exactly. |
| StreamLaws.OffThenWrite | index.test.js:110-123 | After `off(f)`, a write calls `f` one time fewer. It does not call `f` at all if `f` was subscribed at most once. |
| StreamLaws.OffSparesOthers | index.js:53-57 | After `off(f)`, a write calls every other callback as often as before. |
| StreamLaws.HandleErrorCallsEachSubscription | index.js:15-17 | A rejection calls each error callback once per subscription it holds. |
| StreamLaws.OffRejectionThenReject | index.js:59-63 | After `offRejection(g)`, a rejection of an attached producer calls `g` one time fewer. It does not call `g` at all if `g` was subscribed at most once. |
| StreamLaws.ResolveCompletesProducerWrite | index.js:28-29 | Writing a producer and then resolving it with `x` gives the same state and the same calls as writing `x` directly. |
| StreamLaws.RejectAfterProducerWrite | index.js:13-19 | Writing a producer and then rejecting it with `e` calls each error callback in order with `e`. The stream ends exactly as it was before the write. |
| StreamLaws.ConstructWithProducer | index.js:65 | `stream(p)` equals `stream()` followed by `s(p)`, except that the cell holds `p` itself. |
| StreamScenarios.RemoveListenerTest | index.test.js:35-45 | `map(f); map(g); off(f)` leaves only `g` subscribed. |
| StreamScenarios.RemovedListenerNotCalled | index.test.js:110-123 | The test with three listeners where the middle one is removed: the write of 8 reaches only the first and third. |
| StreamScenarios.ReplayOnSubscribe | index.test.js:73-80 | `stream(123)` replays 123 to a new listener with no write. |
| StreamScenarios.ReplayNeedsAValue | index.test.js:82-97 | `stream()` does not replay. `stream(undefined)` replays undefined. |
| StreamScenarios.RejectionReachesOnlyErrorCallbacks | index.test.js:169-186 | A rejection with 'rejection test' reaches only the error callback, with that reason. The value stays undefined. |
| StreamScenarios.ProducerAtConstruction | index.test.js:157-167 | `stream(p)` reads `p` and does not replay. Resolution with 'promise test 2' calls the listener once with it and sets the value. |

## Left out

- Promise scheduling: when a continuation runs is not modelled. Each pending continuation fires when the environment delivers a `Resolve` or `Reject` event for its producer.
- Consistency of outcomes is not modelled. Two continuations of one promise could receive different outcomes in the model, where a real promise settles once.
- Native promises adopt thenables. Because of this, `then(s)` never really receives a promise, but the model lets a resolution carry a producer and re-attach it, as index.js:29 would.
- The duck-typed `isPromise` probe (index.js:2-4) depends on JavaScript truthiness, `constructor` and `typeof`. An explicit `Producer` tag replaces it.
- Callbacks that throw are not modelled. A throw inside a change callback during a resolution would reach the error callbacks through the `.catch` chained at index.js:29. The model's error callbacks only see rejections.
- Callbacks that write to the stream, or that call `map`/`off` while `forEach` is running (index.js:8, 15), are not modelled. Their effect depends on JavaScript's live array-mutation semantics.
- `arguments.length` dispatch: `s()` and `s(x)` are modelled as two operations, `Read` and `Write`. The constructor keeps the difference between no argument and an explicit `undefined` as `NoArgument` versus `Argument(Plain(Undefined))`.
- `s.callbacks` and `s.errorCallbacks` are public arrays on the function object (index.js:40, 47), so host code could also write to them directly. The model changes them only through `map`, `catch`, `off` and `offRejection`.
- Fluent chaining: `map`, `catch`, `off` and `offRejection` return the stream itself. The model returns its next state.
- `Read` carries no contract of its own. It is the getter `s()` (index.js:37), and the lemmas and the `Write` contract state what it returns.
- The mocha/chai harness and the timing in the test file are not modelled. Only the behaviour the tests check appears, in `StreamScenarios` and `StreamLaws`.
