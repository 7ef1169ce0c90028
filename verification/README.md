# Reactor: a verified model of a single-lock FIFO event scheduler

The repository schedules asynchronous work one item at a time. It has two
implementations of the same discipline, and this project models both:

- `index.js`, class `Reactor` → module `EventLoop` (`event_loop.dfy`).
  `invoke` stamps an event with the next id, queues it and tries to run.
  `run` takes the lock and starts the head of the queue with an optional
  timeout race. `done` releases the lock and runs the next event. `isLocked`
  reports the lock. `makeIsEventLocked` issues a stale guard.
- `reactor.js`, the `reactor` module singleton → module `SingletonReactor`
  (`singleton_reactor.dfy`). `setImmediate(fn, thisArg, …)` queues its whole
  argument list. `run` dispatches the head. `done` unlocks and runs.
- `js_values.dfy` (module `JsValues`) holds the JavaScript values both
  implementations store, and JavaScript truthiness.

Each implementation is a `class Reactor` whose fields are the source's own:
`locked`, `queue`, `activeEventId`, `lastEventId` and the armed state of
`timeoutId`; or, for the singleton, `isLocked` and `queue`. The `index.js`
class has one more field, `settled`. It is the model's record of the
promises `invoke` returns, whose `resolve`/`reject` the source keeps in each
queued entry (`index.js:97`). Its methods update those fields step by step.
Each method is proved equal to a function on a `State` snapshot (`AfterRun`, `AfterInvoke`,
`AfterDone`, …). The lemmas prove the scheduling properties about those
functions: for single steps, and for every sequence of steps from a fresh
reactor (`Exec`, `Reachable`). Ghost fields log what no code reads but the
properties talk about:

- the events in invocation order and in start order;
- the functions still in flight;
- the number of lock releases.

The asynchronous callbacks inside `run` are environment steps that the
surrounding JavaScript event loop performs atomically:

- `Completed(id, value)`: the event's function resolved;
- `Failed(id)`: the event's function threw or rejected;
- `TimeoutFired()`: the timeout timer fired.

`activeEventId` is `-1` while the source leaves it `undefined`. Both compare
false against any id (`undefined > n` is false in JavaScript).

The model follows the code as written, including where a caller might expect
otherwise:

- A completed event keeps the lock until `done` is called. Only `done` or a
  timeout releases it.
- `done` does not settle the active event's promise.
- A function that throws or rejects does not reject its event and does not
  unlock. The exception escapes the timer callback of `index.js:41-48` and
  never reaches the catch block. Within the model, only the timer, if one is
  armed, or `done` moves the reactor on. What the host does with the
  unhandled rejection is not modelled (see "Left out").
- The stale guard captures the counter `k`, which is the id the *next*
  invoked event gets. It turns true once an event with an id above `k` has
  started, that is, once the event after that one has started
  (`GuardMeaning`).
- `setImmediate()` without a function does not lock the singleton, although
  the comment at `reactor.js:15` says it does. `run` returns on an empty
  queue, so an idle singleton stays unlocked (`SetImmediateAppends`,
  `NoFunctionScenario`).
- `timeoutId` is one field shared by all events. When the function of an
  abandoned event completes late, it clears the timer of the event that
  replaced it. That event can then no longer time out. `Completed` models
  this as written, and `SharedTimerScenario` exhibits it.

## Model

| member | source | states |
|---|---|---|
| `EventLoop.Settle` | index.js:46-47 | a pending promise takes the new outcome; a settled one keeps its outcome; no other promise changes |
| `EventLoop.RunStartsOldestWaiting` | index.js:25-39 | `run` is a no-op when locked or when the queue is empty; otherwise it locks, removes exactly the head, makes the head's id active and arms a timer exactly when the head's timeout is truthy; the head is the earliest-invoked event not yet started (FIFO) |
| `EventLoop.InvokeAppendsOne` | index.js:95-100 | `invoke` appends one event with id equal to the old counter and a fresh pending promise, and increments the counter; while locked the event waits at the tail of the queue, otherwise it starts at once |
| `EventLoop.DoneStartsNext` | index.js:79-83 | `done` settles no promise and counts one release; with an empty queue it leaves the reactor unlocked and idle, otherwise the old head becomes active and the reactor is locked again |
| `EventLoop.TimeoutRejectsActive` | index.js:35-39 | when the armed timer fires, the active event's promise was pending and becomes rejected with "Event timeout"; the lock is released and the next queued event, if any, starts |
| `EventLoop.CompletionKeepsLock` | index.js:41-48 | a completed function resolves its event's promise only if it was still pending, clears the armed timer, and leaves the lock, the queue and the active id unchanged |
| `EventLoop.StepKeepsInv` | index.js:25-110 | every operation and every callback preserves the reactor invariant and only moves the state forward: logs grow, the active id and the counter never decrease, settled promises never change |
| `EventLoop.ExecKeepsInv` | index.js:25-110 | the invariant and forward movement hold across any sequence of operations and callbacks |
| `EventLoop.Reachable` | index.js:26-30 | in every reachable state: ids are 0, 1, 2, … in invocation order; events start in invocation order and the rest wait in order; an unlocked reactor has an empty queue; starts are at most releases (`done` calls, idle ones included, and timeouts) plus one for the lock holder; only an event with a truthy timeout has an armed timer |
| `EventLoop.LockHolderKeepsLock` | index.js:26-30 | while an event holds the lock, any step other than `done` or a firing timer keeps the reactor locked, starts no event and keeps the active id |
| `EventLoop.QueueIdsOrdered` | index.js:29-30 | every queued id is above the active id and below the counter; queued ids strictly increase along the queue |
| `EventLoop.GuardMeaning` | index.js:70-73 | the guard for captured counter k holds exactly when some started event has an id above k |
| `EventLoop.GuardStaysTripped` | index.js:70-73 | once a guard holds, it holds after any further operations and callbacks |
| `EventLoop.OutcomesSettleOnce` | index.js:56 | a settled promise keeps its outcome after any further operations and callbacks, so a completion after a timeout rejection changes nothing |
| `EventLoop.Reactor.constructor` | index.js:6-19 | a new reactor is unlocked, with an empty queue, counter 0 and no active event |
| `EventLoop.Reactor.Run` | index.js:25-39 | the new state is `AfterRun` of the old one, and the invariant is restored |
| `EventLoop.Reactor.MakeIsEventLocked` | index.js:70-71 | the guard captures the current counter |
| `EventLoop.Reactor.IsEventLocked` | index.js:72 | the guard holds exactly when an event with an id above the captured counter has started |
| `EventLoop.Reactor.Done` | index.js:79-83 | the new state is `AfterDone` of the old one, and the invariant is kept |
| `EventLoop.Reactor.Invoke` | index.js:95-101 | returns the old counter as the new event's id; the new state is `AfterInvoke` of the old one, and the invariant is kept |
| `EventLoop.Reactor.IsLocked` | index.js:108-110 | reports the lock flag |
| `EventLoop.Reactor.TimeoutFired` | index.js:52-59 | the new state is `AfterTimeout` of the old one, and the invariant is kept |
| `EventLoop.Reactor.Completed` | index.js:43-47 | the new state is `AfterCompleted` of the old one, and the invariant is kept |
| `EventLoop.Reactor.Failed` | index.js:41-43 | a throwing function changes nothing but the set of functions in flight: the lock, the timer and the promise stay as they were |
| `EventLoop.FifoScenario` | index.spec.js:57-85 | three events invoked while unlocked become active as ids 0, 1 and 2, one per `done` |
| `EventLoop.LockScenario` | index.spec.js:34-55 | after the first event's function completes, the reactor is still locked; a second event waits until `done` |
| `EventLoop.TimeoutScenario` | index.spec.js:87-90 | an event with timeout 10 whose timer fires is rejected with "Event timeout", and the reactor is unlocked |
| `EventLoop.GuardScenario` | index.spec.js:94-110 | two guards issued before two invokes are both false; after `done` the first is true and the second still false |
| `EventLoop.SharedTimerScenario` | index.js:45 | after `done`, the late completion of the abandoned event disarms the timer of the pending event that replaced it |
| `SingletonReactor.ToCall` | reactor.js:11 | the dispatched call has `event[0]` as function, `event[1]` as `this` and the rest as arguments; for an entry of two or more values these reassemble the entry; a shorter entry gives `undefined` and no arguments |
| `SingletonReactor.RunDispatchesHead` | reactor.js:6-12 | `run` is a no-op when locked or empty; otherwise it locks, removes exactly the head, which is the oldest undispatched entry, and schedules its call; it never unlocks |
| `SingletonReactor.SetImmediateAppends` | reactor.js:14-18 | with a truthy `fn` the whole argument list is appended as one entry at the tail, and is dispatched at once when unlocked; with a falsy `fn` nothing changes, so an idle singleton stays unlocked |
| `SingletonReactor.DoneDispatchesNext` | reactor.js:19-22 | `done` counts one call and unlocks; with an empty queue it stays unlocked, otherwise exactly the next entry is dispatched and the lock is re-taken |
| `SingletonReactor.StepKeepsInv` | reactor.js:6-22 | every call preserves the invariant and only extends the logs |
| `SingletonReactor.ExecKeepsInv` | reactor.js:6-22 | the invariant and log growth hold across any sequence of calls |
| `SingletonReactor.Reachable` | reactor.js:6-22 | in every reachable state: entries are dispatched in push order and the rest wait in order; each dispatched entry's call is its `ToCall`; an unlocked singleton has an empty queue; dispatches are at most `done` calls plus one |
| `SingletonReactor.Reactor.constructor` | reactor.js:3-5 | a new singleton is unlocked, with an empty queue |
| `SingletonReactor.Reactor.Run` | reactor.js:6-12 | the new state is `AfterRun` of the old one, and the invariant is restored |
| `SingletonReactor.Reactor.SetImmediate` | reactor.js:14-18 | the new state is `AfterSetImmediate` of the old one, and the invariant is kept |
| `SingletonReactor.Reactor.Done` | reactor.js:19-22 | the new state is `AfterDone` of the old one, and the invariant is kept |
| `SingletonReactor.FifoScenario` | reactor.js:14-22 | two entries pushed while idle: one is dispatched and one waits; after one `done` the second is dispatched and the lock is held; after another the singleton is idle |
| `SingletonReactor.NoFunctionScenario` | reactor.js:14-17 | `setImmediate()` with no function leaves a new singleton unlocked |

## Left out

- Time: timers are modelled as "armed" and "fired", with no durations. A timeout is armed exactly when the event's `timeout` is truthy.
- Timer handles: `timeoutId` is modelled as whether the one timer it names is still armed. The handle value and `clearTimeout` of an already-fired timer are not modelled.
- The bodies of the scheduled functions (`fn.apply`, `index.js:43`, `reactor.js:11`) are opaque. The model records the call and takes the function's result, or its failure, as a parameter of an environment step. The `setTimeout(…, 0)` delay before the call and the call itself are one step with its completion.
- The diagnostic `console.error` and the regular-expression test on the error message (`index.js:53-54`) are left out. Only the rejection reason is kept.
- The `hasEvent` field (`index.js:18`, `33`) is left out. Its promise only decides whether `run`'s catch block executes, and the model takes that block as part of `TimeoutFired`.
- JavaScript values: numbers are integers, so `NaN` and fractions are left out. An absent `args` and an empty one are the same.
- `index.spec.js`, `letters.js` and `app.js` are not part of this model. The scenario methods restate some test cases as proved client code.
- The event counter is an unbounded `nat`. In JavaScript, `lastEventId++` (`index.js:98`) stops increasing at 2^53, after which ids repeat. Unique ids, ordered queue ids and the guard's behaviour hold in the model only below that bound.
- Unhandled errors are not modelled. A throwing or rejecting event function leaves the promise of the `async` timer callback (`index.js:41-48`) rejected with no handler. A truthy but non-callable `fn` throws inside the timer callback of `reactor.js:11`. How the host reacts is left out; Node, for one, ends the process by default. The model only records that the reactor's own state is untouched.
