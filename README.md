# saturated — a verified model of the batching queue

`saturated` buffers values pushed by a producer and hands them to a consumer
callback in batches: when the queue reaches the `max` threshold right after a
push, when the interval timer fires, when `flush` is called, or when
`reset(true)` shuts the instance down. This project models that one component
(`src/index.js`) in Dafny and proves what each operation does to the queue,
the timer and the sequence of consumer calls.

- `batching.dfy`, module `Batching`: the instance as a pure state machine.
  A `State` holds the queue, whether the timer is armed, and the log of
  batches delivered to the consumer. `Flush`, `Push` and `Reset` are the
  source's `batch`, `push` and `reset` as functions of the old state; `Step`
  and `Run` replay any trace of calls and timer firings. The lemmas state the
  properties of single calls and the invariants of whole traces.
- `saturated.dfy`, module `Saturated`: class `Instance`, whose fields are the
  closure variables `queue`, `timer` (as the flag `armed`) and `max`, plus the
  consumer log `delivered` and a ghost log `pushed` of everything pushed. Every
  method keeps the ordering invariant `Valid()` and is proved to move the
  object exactly as the matching `Batching` function moves the state.
- `clients.dfy`, module `Clients`: the scenarios of `test/index.js` replayed
  against the class's contracts alone.

The source exports the shutdown operation as `reset` (src/index.js:32); the
type declarations and the tests call it `end`. The model follows the code and
calls it `Reset`. A reader might expect that after `end` no push triggers an
automatic flush any more, but the code does not implement that: it keeps no
stopped state, so a later push that reaches `max` still calls `batch()`,
which starts a new timer. The model follows the code
(`PushAfterResetRearms`, `Clients.AutoFlushAfterReset`).

The threshold is `opts.max || Infinity`. Over integers, an absent or zero
option gives `Unbounded`, and any other value `n` gives `Bounded(n)`. That
includes negative values: `tmp >= max` then holds on every push while
`splice(0, max)` removes nothing, so every push calls the consumer with an
empty batch (`PushNegativeMax`). Manual flushes, timer firings and
`reset(true)` likewise deliver `[]` and keep the whole queue
(`FlushNegativeMax`), so such an instance never delivers a single entry
(`RunNegativeMaxNeverDelivers`).

## Model

| member | source | states |
|---|---|---|
| `Batching.MaxOf` | src/index.js:5 | the threshold is unbounded exactly when the option is absent or zero; otherwise it is the option's value |
| `Batching.TakeCount` | src/index.js:9 | `splice(0, max)` removes at most the whole queue and, with a threshold, at most `max` entries (none when `max` is negative); it removes everything when unbounded |
| `Batching.Reaches` | src/index.js:24 | the size test `tmp >= max` never fires without a threshold (`Infinity`), always fires for a threshold that is not positive, and otherwise fires exactly when the length reaches `max` |
| `Batching.Init` | src/index.js:4-17 | a fresh instance has an empty queue, no consumer calls, and the timer started by `ticker()` |
| `Batching.Flush` | src/index.js:7-11 | a flush leaves the timer armed, adds exactly one batch to the consumer log, and that batch followed by the new queue is the old queue |
| `Batching.Push` | src/index.js:22-26 | push returns the old length plus one, the length before any flush; it adds one consumer call exactly when that length reaches `max` |
| `Batching.Reset` | src/index.js:32-35 | reset ends with the timer cleared and adds one consumer call exactly when the flag is set |
| `Batching.PushAppends` | src/index.js:22-25 | below the threshold, push appends one entry at the back, returns the new length, and changes neither timer nor consumer log |
| `Batching.PushAtThreshold` | src/index.js:23-25 | at the threshold, push is one append followed by exactly one flush, and returns the length measured before the flush |
| `Batching.PushFillsBatch` | src/index.js:23-24 | with a positive `max`, the push that brings the queue to `max` delivers exactly those `max` entries in order, empties the queue, and returns `max` |
| `Batching.PushNegativeMax` | src/index.js:22-26 | with a negative `max`, every push keeps its entry queued and calls the consumer with an empty batch |
| `Batching.Step` | src/index.js:13-35 | each call or timer firing adds at most one consumer call and keeps earlier ones; size and a firing of a cleared timer change nothing; flush and a firing of the armed timer add one call and leave the timer armed; reset leaves it cleared; push adds a call exactly when the new length reaches `max` |
| `Batching.PushAfterResetRearms` | src/index.js:22-35 | after reset the timer is cleared, yet a push that reaches `max` flushes once more and arms the timer again |
| `Batching.FlushTakesFront` | src/index.js:7-11 | with a positive `max`, flush delivers the first `min(max, size)` entries in order as one batch, keeps the rest as the queue, and re-arms the timer |
| `Batching.FlushUnboundedDrains` | src/index.js:5-9 | without a threshold, flush delivers the whole queue as one batch and leaves it empty |
| `Batching.FlushEmptyDelivers` | src/index.js:9 | flushing an empty queue still calls the consumer, with an empty batch |
| `Batching.FlushNegativeMax` | src/index.js:7-11 | with a negative `max`, a flush calls the consumer with an empty batch and keeps the whole queue |
| `Batching.ResetWithoutFlush` | src/index.js:32-35 | reset with a false flag keeps the queue and the consumer log and only clears the timer |
| `Batching.ResetWithFlush` | src/index.js:32-35 | reset(true) is exactly one flush followed by clearing the timer |
| `Batching.FlushKeepsOrder` | src/index.js:9 | a flush moves a prefix of the queue to the end of the delivered entries, losing and duplicating nothing |
| `Batching.StepKeepsOrder` | src/index.js:19-35 | each call or timer firing extends delivered-then-queued entries by exactly the entry it pushed, if any |
| `Batching.RunKeepsOrder` | src/index.js:19-35 | over any trace of push, flush, size, reset and timer firings, the delivered batches followed by the queue are the earlier contents followed by the pushed entries, in push order |
| `Batching.RunFromInitKeepsOrder` | src/index.js:4-35 | from a fresh instance, the delivered batches laid end to end and followed by the queue are exactly the pushed entries |
| `Batching.StepKeepsBatchesWithin` | src/index.js:9 | with a positive `max`, one call adds no batch longer than `max` |
| `Batching.RunKeepsBatchesWithin` | src/index.js:9 | with a positive `max`, no consumer call along any trace receives more than `max` entries |
| `Batching.RunKeepsQueueBelow` | src/index.js:22-25 | with a positive `max`, a queue shorter than `max` stays shorter than `max` after any trace: the push that reaches `max` drains it |
| `Batching.RunNegativeMaxNeverDelivers` | src/index.js:5-35 | with a negative `max`, every consumer call along any trace receives `[]` and the queue ends as the old queue followed by every pushed entry |
| `Saturated.Instance.constructor` | src/index.js:2-17 | a new instance has the threshold `MaxOf` derives from `opts.max`, an empty queue, an armed timer and no consumer calls |
| `Saturated.Instance.Flush` | src/index.js:7-11 | flush moves the object as `Batching.Flush` moves the state and keeps every pushed entry delivered or queued, in order |
| `Saturated.Instance.Tick` | src/index.js:13-14 | a firing of the armed timer runs the same flush |
| `Saturated.Instance.Push` | src/index.js:22-26 | push returns the old length plus one, moves the object as `Batching.Push`, and records the entry as pushed |
| `Saturated.Instance.Size` | src/index.js:28-30 | size returns the queue length and changes nothing |
| `Saturated.Instance.Reset` | src/index.js:32-35 | reset moves the object as `Batching.Reset`: an optional flush, then the timer cleared |

## Left out

- Real time: `setInterval`, `clearInterval`, the interval length and its default of `10e3` ms. The timer is only an armed flag, and a firing is the explicit `Tick` call.
- The consumer's behaviour: its side effects, exceptions it throws, and calls it makes back into the instance while it runs. Each consumer call is recorded only as a batch appended to `delivered`.
- Re-entrant calls are also why `tmp` is a local of `Push`: the source shares it across calls, which only shows when the consumer pushes during a flush.
- The structure of the `arguments` object that `push` stores: each push stores one opaque entry of type `T`.
- `opts` values that are not integers (fractions, `NaN`, strings) and the coercion of `opts.interval`.
- `saturated.d.ts` and `test/index.js` hold types and test harness code; they inform the properties and the `Clients` scenarios only.
