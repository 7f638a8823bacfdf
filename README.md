# ordered-promise-stream, modelled in Dafny

`orderedPromiseStream(promises, options)` returns an object-mode stream that
emits the values of an array of promises in array order, whatever order the
promises resolve in. Each resolution calls a `flush(index, value)` closure. The
closure stores the value under its index in a `results` object. It then releases
the contiguous run of stored indices starting at a `cursor`: it passes each
value to `resolutionFn(stream, value)`, deletes it and advances the cursor.
Once the cursor reaches `promises.length`, it calls `endFn(stream)`. The
default hooks push the value, and push `null` to end the stream. The function
first checks its arguments and throws on bad ones. Then it subscribes `flush`
to each promise in a `forEach`, throwing at the first element that is not
thenable.

The model has four modules:

- `Hooks` (hooks.dfy): a trace of hook invocations (`Resolution(v)`, `End`)
  stands in for the user's `resolutionFn` and `endFn`. The module also holds the
  default hooks, as functions on the sequence of chunks pushed onto the stream.
- `Arguments` (arguments.dfy): the argument checks and hook selection. They
  work on abstract descriptions of the JavaScript arguments: is-array,
  truthy, `typeof` is `'object'`, key present, kind of value held, has `then`.
- `Reorder` (reorder.dfy): the reorder buffer as values. `Drain` is the release
  loop, with its properties in `DrainReleasesRun`, and `FlushStep` is one
  `flush` call. `Consistent` is the buffer's invariant
  while each index arrives at most once. The lemmas say what any sequence of
  flushes does.
- `OrderedStream` (stream.dfy): the imperative form. A `Buffer` class holds the
  closure's `cursor`, `results` and the hook-call trace. Its `Flush` method
  contains the `while` loop; the loop itself is in `Release`. `Resolve` is the
  callback bound to one index, which the runtime runs at most once.
  `OrderedPromiseStream` is the synchronous construction with its `forEach`
  loop. `Drive` stands for the promise runtime delivering the resolutions to
  `Flush` in any order.

The end-to-end result is `OrderedStream.Drive`. Whatever the resolution order
(any permutation of `0..n-1`), the hooks see `Resolution(vals[0]), …,
Resolution(vals[n-1])`, then exactly one `End`. With the default hooks and
no value `null`, the stream receives the values in index order and is then
ended. With no promises,
no hook is called at all.

Some behaviour of the code goes beyond what its JSDoc (index.js:12-18)
promises. The model follows the code:

- An empty `promises` array never ends the stream. `forEach` registers
  nothing, so `flush` never runs and `endFn`, documented as run "when all
  promises are resolved", is never called.
- A `flush` after the cursor has reached `n` stores the value and calls
  `endFn` again (`Reorder.FlushAfterEnd`). A native promise never causes
  this, because it resolves once. A thenable that runs its callback twice
  does cause it.
- The thenable check happens inside the `forEach`. Elements before the first
  bad one already have `flush` subscribed when the error is thrown
  (`OrderedStream.OrderedPromiseStream` returns those indices).
- The "must be a function" errors fire whenever the key is present, even if
  it holds a falsy value such as `undefined`. Hook selection, by contrast,
  falls back to the default for a falsy value.

## Model

| member | source | states |
|---|---|---|
| `Hooks.DefaultsPushInOrder` | index.js:3-10 | the default hooks turn a trace of resolutions plus one end call into pushes of exactly the values, in order, followed by `push(null)`; without the end call, into the values alone (for values other than `null`, which the stream reads as its end) |
| `Arguments.CheckArguments` | index.js:21-35 | the arguments pass exactly when the first is an array and falsy options, or an object whose two hook keys are absent or hold functions, are given; the errors come in the source's priority order (non-array, then non-object options, then `endFn`, then `resolutionFn`); the thenable error is never raised upfront |
| `Arguments.MissingArrayRejected` | __tests__/index.js:97-100 | with no array, the check fails with the array error and its message `Must provide an array of promises`, whatever the options |
| `Arguments.TruthyNonObjectOptionsRejected` | __tests__/index.js:109-115 | truthy options that are not an object fail with the message `` `options` must be an object `` |
| `Arguments.EndFnNotFunctionRejected` | __tests__/index.js:117-125 | options `{endFn: true}` fail with the message `` `options.endFn` must be a function `` |
| `Arguments.ResolutionFnNotFunctionRejected` | __tests__/index.js:127-135 | options `{resolutionFn: true}` fail with the message `` `options.resolutionFn` must be a function `` |
| `Arguments.SelectionFallsBack` | index.js:37-43 | after the checks pass, a hook named in the options is always used; the other two clauses spell out the fallback rule (default exactly when the options are falsy, the key is absent or its value is falsy) |
| `Reorder.DrainReleasesRun` | index.js:48-59 | the release loop never moves the cursor back; it moves it only up to `n`, and only over indices held in `results`; it releases exactly those values, in index order; it removes exactly the released keys; it stops at `n` or at a missing key |
| `Reorder.FlushStep` | index.js:45-64 | one `flush` keeps the cursor within `n` and never moves it back; it leaves no entry at a cursor below `n`; the released indices were stored before or are the flushed one; it emits their values in index order; it calls `endFn`, as the last call, exactly when the cursor ends at or beyond `n` |
| `Reorder.InitConsistent` | index.js:37-39 | the initial state (`cursor = 0`, empty `results`, no hook called) satisfies the invariant |
| `Reorder.FlushPreservesStored` | index.js:46-58 | a flush of a new index below `n` keeps `results` equal to the arrived entries at or past the cursor, with every index below the cursor arrived and no entry at the cursor |
| `Reorder.FlushPreservesConsistent` | index.js:45-64 | a flush of a new index below `n` keeps the whole invariant: the hooks have seen exactly the arrived values below the cursor, in index order, plus one `endFn` call once the cursor is at a non-zero `n` |
| `Reorder.FlushExtendsReleased` | index.js:45-64 | the calls of a flush of a new index extend the calls for the values below the old cursor to the calls for the values below the new cursor, followed by `endFn` when the cursor has reached `n` |
| `Reorder.AllArrived` | index.js:48-63 | once every index has arrived, the cursor is at `n`, `results` is empty, and the hooks have seen all values in index order followed by `endFn` (none when `n` is 0) |
| `Reorder.EndComesLast` | index.js:61-63 | `endFn` appears in the trace exactly when the cursor has reached a non-zero `n`; then it is the single last call, every index has arrived, and `n` resolutions come before it; otherwise there is one resolution per index below the cursor |
| `Reorder.ArrivalsHold` | index.js:71-74 | after `k` deliveries in an order that lists each index once, exactly the first `k` indices of that order have arrived, each with its promise's value |
| `Reorder.AllDelivered` | index.js:45-74 | once all promises have resolved, in any order, each once, the hooks have seen every value in index order and then one `endFn` call (none when there are no promises) |
| `Reorder.FlushAfterEnd` | index.js:61-63 | a flush once the cursor is at `n` only stores the value and calls `endFn` again |
| `OrderedStream.Buffer.constructor` | index.js:37-39 | the closure starts in the state `Init()` (`cursor = 0`, empty `results`) with no hook called, satisfying the invariant |
| `OrderedStream.Buffer.Flush` | index.js:45-64 | the new cursor, `results` and hook calls are those of `FlushStep`; the class invariant is kept; the buffer invariant is kept whenever the index is below `n` and arrives for the first time |
| `OrderedStream.Buffer.Resolve` | index.js:71 | the callback `flush.bind(flush, index)`, run once when promise `index` resolves, records the arrival and keeps the buffer invariant |
| `OrderedStream.Buffer.Release` | index.js:48-59 | the loop leaves the cursor and `results` as `Drain` does and calls `resolutionFn` with the released values in order |
| `OrderedStream.OrderedPromiseStream` | index.js:20-77 | a failed upfront check throws its error before any subscription; otherwise one subscription is made per element in index order. It stops at the first element that is not thenable, with the thenable error, or whose `then` is not a function, with the runtime's `TypeError`. After either, all earlier elements are still subscribed. It succeeds exactly when every element can be subscribed, and then returns the selected hooks |
| `OrderedStream.NonThenableRejected` | __tests__/index.js:102-107 | `['']` throws the thenable error, message `All array items must be thenable`, before subscribing to anything |
| `OrderedStream.ThenNotCallableRejected` | index.js:71 | an element `{then: 5}` passes the thenable check, but calling its `then` throws a `TypeError` and nothing is subscribed |
| `OrderedStream.Drive` | index.js:45-71 | for any resolution order of `n` promises, each resolving once, the hooks see every value in index order and then one `endFn` (nothing when `n` is 0); with the default hooks the values are pushed in order followed by `push(null)`, which ends the stream there when no value is `null` |
| `OrderedStream.NestedBeforeShallow` | __tests__/index.js:24-44 | when promise 1 resolves before promise 0, `"nested"` (index 0) is still emitted before `"shallow"`, then the stream ends |

## Left out

- The Node `Transform` stream (index.js:1, 40) and what `push` does downstream are not modelled. The default hooks are modelled by the chunks they would push; a user's hooks are modelled by the trace of calls made to them.
- Promise scheduling and `.then` callback delivery (index.js:71) belong to the JavaScript runtime. `Drive` stands for the runtime, delivering resolutions in a chosen order, each index once.
- Rejected promises are not modelled: the code subscribes only to success, so a rejection leaves the buffer stalled at that index.
- JavaScript's dynamic typing is abstracted into boolean facts: `Array.isArray`, truthiness, `typeof`, the `in` operator, whether `then` is a function. `'then' in null` raising `TypeError` (because `typeof null` is `'object'`) is not modelled, nor are option getters that throw. A `then` that is a function is taken to register the callback and return normally. The `TypeError` a non-function `then` raises is modelled only as `ThenTypeError`, without its message, which comes from the JavaScript engine.
- The loop bound and the `endFn` test read `promises.length` again on every `flush` (index.js:48, 61). The model fixes the length when the buffer is built (`Buffer.n`). So it does not capture a caller who pushes onto the array or truncates it after construction, and thereby moves where the loop stops and when `endFn` fires.
- Holes in a sparse `promises` array, which `forEach` skips, are not modelled: every index below `promises.length` is assumed to exist.
- Exceptions thrown by the user's hooks are not modelled: hooks are recorded as calls that return normally.
- `Hooks.DefaultsPushInOrder`: a promise value `null`, pushed by the default `resolutionFn` (index.js:8), cannot be told apart from the `push(null)` of the default `endFn` (index.js:5). In an object-mode stream it ends the stream at that point, so later pushes come after end-of-stream. The model keeps `Item(v)` and `Null` apart, so its statement that the defaults deliver the values and then end the stream holds only for values other than `null`.
- `Buffer.Resolve`: requires the index to be below `n` and not yet arrived. A promise settles once, and `forEach` only subscribes indices below `promises.length`. `Buffer.Flush` covers every other call, including repeated and out-of-range indices.
