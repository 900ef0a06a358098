# Throttle and UtilitySingleton, modelled in Dafny

This project models two classes from the `utilities` package of the omni-hub repository.

- **`Throttle`** is a concurrency-limiting admission controller. `add(fn)` puts a
  task at the tail of a FIFO queue, makes sure the periodic timer is running, and
  drains the queue. Draining starts queued tasks while fewer than `limit` are in
  flight. When a task settles, its own promise receives the value or the error.
  The handler then gives back the task's slot and drains again. The timer also
  drains on every tick, and it is cleared when nothing is queued or running.
  Construction with `limit < 1` throws `"Limit must be greater than 0"`.
- **`UtilitySingleton`** keeps a static map from subclass to instance.
  `getInstance` builds an instance only for a class that has none, and always
  returns the stored one.

## How the model is built

`throttle.dfy` (module `Throttling`) has two layers.

- **Specification.** The whole throttle state is a value `Sched`. Each operation
  is a pure step function: `StartIntervalStep`, `StopIntervalStep`, `Drain` (the
  `while` loop), `ProcessQueueStep`, `AddStep`, `SettleStep` and `CompleteStep`.
- **Implementation.** The class `Throttle` keeps the same state in fields. Its
  methods change those fields step by step, as the source does. Each method is
  proved to perform exactly its step function. `ProcessQueue` is a `while` loop
  whose invariant says what is left to drain.

The source's own state is `queue`, `activeCount` and `intervalId`. The model
adds some bookkeeping that the source does not keep. In the class, `started`,
`running` and `outcomes` are ghost fields, and `State()` is a ghost function:

- `submitted` counts the calls of `add`. Task `n` is the closure created by the
  n-th call. It stays a real field, because it gives each closure pushed on the
  queue its identity; `timersCreated` (below) stays real for the same reason.
- `started` is the history of started tasks.
- `running` is the set of tasks in flight.
- `outcomes` maps each settled task to what its own promise received.

Promises and the event loop become explicit events:

- A task starts when the drain loop takes it off the queue (the call `next()`).
- It settles later, through `Complete(id, outcome)`.
- A timer firing is `Tick()`. `setInterval` hands out fresh handles, which the
  model numbers with `timersCreated`.

Two predicates hold the invariants:

- `Core` holds in every state, including the middle of an operation. The limit is
  positive and respected. The started tasks are the first ones submitted, in
  order, and the queue holds the rest, in order. `activeCount` is the number of
  tasks in flight. Every started task is either in flight or settled, never both.
- `Inv` holds between operations. It adds two facts: a waiting task means every
  slot is taken, and a timer is live exactly while work is queued or running.

`singleton.dfy` (module `Singletons`) follows the same pattern. The value
`Table` has the step functions `GetInstanceStep` and `ClearStep`. The class
`UtilitySingleton` holds the static map in a field, and its methods are proved
against those steps.

Beyond the properties the code promises, the model shows that between
operations a timer tick never starts a task (`TickAtRestIsNoOp`). Every slot a
completion frees is refilled by that completion's own handler. In the tests,
the task that starts "after the interval" has in fact already started when an
earlier task settled.

## Model

| member | source | states |
|---|---|---|
| Throttling.CheckLimit | packages/utilities/src/lib/throttle/throttle.ts:23-25 | the guard accepts a limit exactly when it is at least 1, and otherwise fails with "Limit must be greater than 0" |
| Throttling.Throttle.Create | packages/utilities/src/lib/throttle/throttle.ts:19-26 | construction fails exactly when `limit < 1`, with the source's message; otherwise it gives a fresh, idle throttle that satisfies the invariant |
| Throttling.Throttle.constructor | packages/utilities/src/lib/throttle/throttle.ts:15-26 | a new throttle has an empty queue, no task in flight and no timer, and satisfies the invariant |
| Throttling.InitialInv | packages/utilities/src/lib/throttle/throttle.ts:15-17 | the initial state satisfies the invariant for every limit of at least 1 |
| Throttling.StartIntervalStep | packages/utilities/src/lib/throttle/throttle.ts:33-39 | afterwards a timer is live; an existing handle is never replaced, and when there was none the new handle is a fresh one and nothing else changes |
| Throttling.Throttle.StartInterval | packages/utilities/src/lib/throttle/throttle.ts:33-39 | the method performs `StartIntervalStep` on the fields |
| Throttling.StopIntervalStep | packages/utilities/src/lib/throttle/throttle.ts:46-51 | afterwards no timer is live, and nothing else changes |
| Throttling.Throttle.StopInterval | packages/utilities/src/lib/throttle/throttle.ts:46-51 | the method performs `StopIntervalStep` on the fields |
| Throttling.Initial | packages/utilities/src/lib/throttle/throttle.ts:15-17 | no contract of its own: the field initialisers (empty queue, no task in flight, no timer); characterised by `InitialInv` |
| Throttling.StartHead | packages/utilities/src/lib/throttle/throttle.ts:61-64 | no contract of its own: one loop iteration, `shift` of the head, `activeCount++` and `next()`; characterised by `StartHeadKeepsCore` and `DrainClosedForm` |
| Throttling.Drain | packages/utilities/src/lib/throttle/throttle.ts:60-66 | no contract of its own: the `while` loop run until its guard fails; characterised by `DrainClosedForm`, `DrainQuiescent` and `DrainKeepsCore` |
| Throttling.ProcessQueueStep | packages/utilities/src/lib/throttle/throttle.ts:59-71 | no contract of its own: the loop, then `stopInterval` when nothing is queued or running; characterised by `ProcessQueueEstablishesInv`, `ProcessQueueIdempotent` and `ProcessQueueIgnoresOutcomes` |
| Throttling.Enqueue | packages/utilities/src/lib/throttle/throttle.ts:98 | no contract of its own: `queue.push(task)` of the next task; characterised by `EnqueueKeepsCore` |
| Throttling.AddStep | packages/utilities/src/lib/throttle/throttle.ts:83-101 | no contract of its own: `startInterval`, push, `processQueue`; characterised by `AddAdmission`, `AddKeepsInv`, `AddToFreeSlot` and `AddWhenFull` |
| Throttling.SettleStep | packages/utilities/src/lib/throttle/throttle.ts:87-93 | no contract of its own: the outcome reaches the task's own promise and `activeCount--` frees its slot; characterised by `SettleKeepsCore` |
| Throttling.CompleteStep | packages/utilities/src/lib/throttle/throttle.ts:86-95 | no contract of its own: settle, then `processQueue`; characterised by `CompleteAdmission`, `CompleteKeepsInv`, `OutcomeDoesNotAffectScheduling`, `CompleteHandsOn` and `CompleteWithEmptyQueue` |
| Throttling.Admitted | packages/utilities/src/lib/throttle/throttle.ts:60 | a drain starts at most the queued tasks and at most the free slots, and stops only when the queue is empty or every slot is taken |
| Throttling.DrainClosedForm | packages/utilities/src/lib/throttle/throttle.ts:60-66 | the loop equals starting the first `Admitted` queued tasks at once: they leave the head of the queue in order, join the history and the in-flight set, and the counter rises by their number; nothing else changes |
| Throttling.DrainQuiescent | packages/utilities/src/lib/throttle/throttle.ts:60 | when the loop exits, the queue is empty or `activeCount` has reached `limit` |
| Throttling.StartHeadKeepsCore | packages/utilities/src/lib/throttle/throttle.ts:61-64 | one loop iteration keeps the counter bounds, FIFO order and task bookkeeping |
| Throttling.DrainKeepsCore | packages/utilities/src/lib/throttle/throttle.ts:60-66 | the whole loop keeps the counter bounds, FIFO order and task bookkeeping |
| Throttling.ProcessQueueEstablishesInv | packages/utilities/src/lib/throttle/throttle.ts:59-71 | `processQueue` run while a timer is live leaves a state where a non-empty queue means all slots are full, and the timer is live exactly when there is work |
| Throttling.ProcessQueueIdempotent | packages/utilities/src/lib/throttle/throttle.ts:59-71 | a second `processQueue` right after a first one changes nothing |
| Throttling.Throttle.ProcessQueue | packages/utilities/src/lib/throttle/throttle.ts:59-71 | the `while` loop and the idle check perform `ProcessQueueStep` on the fields |
| Throttling.EnqueueKeepsCore | packages/utilities/src/lib/throttle/throttle.ts:98 | pushing the new task at the tail keeps FIFO order and task bookkeeping |
| Throttling.AddKeepsInv | packages/utilities/src/lib/throttle/throttle.ts:83-101 | `add` keeps the invariant: `activeCount <= limit`, a waiting task only when all slots are full, and a timer exactly while there is work |
| Throttling.AddAdmission | packages/utilities/src/lib/throttle/throttle.ts:83-101 | after `add` a timer is live and an existing handle is kept; the new task starts at once if a slot is free and otherwise waits at the tail of the queue; no promise settles |
| Throttling.Throttle.Add | packages/utilities/src/lib/throttle/throttle.ts:83-101 | the method performs `AddStep`, keeps `Valid()`, returns the new task's id, and states the admission outcome on the fields |
| Throttling.SettleKeepsCore | packages/utilities/src/lib/throttle/throttle.ts:86-95 | settling a task in flight finds `activeCount > 0`, decrements it once and keeps the task bookkeeping |
| Throttling.CompleteKeepsInv | packages/utilities/src/lib/throttle/throttle.ts:86-95 | the completion handler keeps the invariant |
| Throttling.CompleteAdmission | packages/utilities/src/lib/throttle/throttle.ts:86-95 | on completion, only the task's own promise receives the outcome; the freed slot goes to the head of the queue if a task waits; the timer is cleared exactly when the last task in flight settles with nothing queued |
| Throttling.ProcessQueueIgnoresOutcomes | packages/utilities/src/lib/throttle/throttle.ts:59-71 | draining neither reads nor changes the settled promises |
| Throttling.OutcomeDoesNotAffectScheduling | packages/utilities/src/lib/throttle/throttle.ts:86-95 | a resolved and a rejected completion of the same task leave the same scheduler state except for that task's own promise |
| Throttling.Throttle.Complete | packages/utilities/src/lib/throttle/throttle.ts:86-95 | the handler performs `CompleteStep`, keeps `Valid()`, delivers the outcome to `outcomes[id]` only, and states the admission outcome and the timer's state on the fields |
| Throttling.TickAtRestIsNoOp | packages/utilities/src/lib/throttle/throttle.ts:35-37 | a tick between operations changes nothing |
| Throttling.Throttle.Tick | packages/utilities/src/lib/throttle/throttle.ts:35-37 | a timer firing runs `processQueue`, keeps `Valid()` and leaves the state unchanged |
| Throttling.Conservation | packages/utilities/src/lib/throttle/throttle.ts:61-64 | tasks added = tasks queued + tasks in flight + tasks settled, and `activeCount` = started − settled |
| Throttling.StartedInSubmissionOrder | packages/utilities/src/lib/throttle/throttle.ts:60-64 | the started tasks are a prefix of the submission order, and the queue holds the rest of it in order |
| Throttling.AddToFreeSlot | packages/utilities/src/lib/throttle/throttle.ts:83-101 | `add` on an empty queue with a free slot starts the new task at once, takes one more slot, and settles nothing |
| Throttling.AddWhenFull | packages/utilities/src/lib/throttle/throttle.ts:83-101 | `add` with every slot taken puts the new task at the tail of the queue and starts nothing |
| Throttling.CompleteHandsOn | packages/utilities/src/lib/throttle/throttle.ts:86-95 | a completion while tasks wait and every slot is taken starts the head of the queue in the freed slot, keeps the timer, and delivers the outcome to that task's own promise |
| Throttling.CompleteWithEmptyQueue | packages/utilities/src/lib/throttle/throttle.ts:86-95 | a completion with nothing waiting frees one slot, and clears the timer exactly when it was the last task in flight |
| Throttling.BackToBackAddsLimitTwo | packages/utilities/src/lib/throttle/tests/unit/throttle.unit.test.ts:38-46 | with limit 2, four adds in a row start tasks 0 and 1 at once, queue tasks 2 and 3 in order, and create exactly one timer |
| Throttling.WithinLimitCompletions | packages/utilities/src/lib/throttle/tests/unit/throttle.unit.test.ts:6-19 | with limit 2 and three tasks added, the first completion starts task 2; all three promises get "result" and the last completion clears the timer |
| Throttling.RateLimitCompletions | packages/utilities/src/lib/throttle/tests/unit/throttle.unit.test.ts:47-55 | with limit 2 and four tasks added, a tick starts nothing; the completions of tasks 0 and 1 start tasks 2 and 3 |
| Throttling.ResolveThenRejectLimitOne | packages/utilities/src/lib/throttle/tests/unit/throttle.unit.test.ts:21-29 | with limit 1, the first task's promise resolves with "success" and the idle throttle clears its timer; the next add creates a new timer, and the second promise rejects with "failure" |
| Throttling.RejectionDoesNotBlockQueue | packages/utilities/src/lib/throttle/throttle.ts:86-95 | with limit 1, a rejecting task's error goes to its own promise only, and the task queued behind it starts and resolves normally |
| Throttling.StopsIntervalScenario | packages/utilities/src/lib/throttle/tests/unit/throttle.unit.test.ts:58-66 | two tasks that are added and awaited in turn leave no timer handle |
| Throttling.InvalidLimitScenario | packages/utilities/src/lib/throttle/tests/unit/throttle.unit.test.ts:88-90 | `new Throttle(0, 1000)` fails with "Limit must be greater than 0" |
| Singletons.GetInstanceStep | packages/utilities/src/lib/singleton/singleton.ts:25-30 | after `getInstance(k)` the class `k` is in the map and the returned instance is the one stored for it |
| Singletons.GetInstancePresent | packages/utilities/src/lib/singleton/singleton.ts:26-29 | for a class already in the map, the map is unchanged and the stored instance is returned |
| Singletons.GetInstanceAbsent | packages/utilities/src/lib/singleton/singleton.ts:26-27 | for a class not in the map, exactly one entry is added, holding a freshly built instance that differs from every stored one |
| Singletons.GetInstanceOthersUnchanged | packages/utilities/src/lib/singleton/singleton.ts:25-29 | the entries of every other class are neither added, removed nor changed |
| Singletons.GetInstanceIdempotent | packages/utilities/src/lib/singleton/singleton.ts:25-29 | a repeated `getInstance` on the same class returns the same instance and changes nothing |
| Singletons.GetInstanceKeepsWellFormed | packages/utilities/src/lib/singleton/singleton.ts:19 | every stored instance was built earlier, and no two classes share one, before and after `getInstance` |
| Singletons.DistinctClassesDistinctInstances | packages/utilities/src/lib/singleton/singleton.ts:19-29 | two different classes get two different instances, and the first keeps its own |
| Singletons.ClearStep | packages/utilities/src/lib/singleton/tests/unit/singleton.unit.test.ts:7-10 | clearing empties the map |
| Singletons.FreshAfterClear | packages/utilities/src/lib/singleton/tests/unit/singleton.unit.test.ts:29-35 | after a clear, the next `getInstance` builds a new instance, numbered after every instance ever built, so it differs from every one handed out before, including those stored before the clear |
| Singletons.UtilitySingleton.constructor | packages/utilities/src/lib/singleton/singleton.ts:19 | the static map starts empty |
| Singletons.UtilitySingleton.GetInstance | packages/utilities/src/lib/singleton/singleton.ts:25-30 | the method performs `GetInstanceStep` on the field: an existing entry is returned unchanged, or one fresh entry is added for the class |
| Singletons.UtilitySingleton.Clear | packages/utilities/src/lib/singleton/tests/unit/singleton.unit.test.ts:9 | the method performs `ClearStep` on the field |
| Singletons.SameInstanceScenario | packages/utilities/src/lib/singleton/tests/unit/singleton.unit.test.ts:12-17 | two calls on one class return the same instance |
| Singletons.DistinctClassesScenario | packages/utilities/src/lib/singleton/tests/unit/singleton.unit.test.ts:19-27 | two classes get different instances |
| Singletons.ResetScenario | packages/utilities/src/lib/singleton/tests/unit/singleton.unit.test.ts:29-35 | after a clear, the same class gets a new instance |

## Left out

- Real timers: `setInterval` and `clearInterval` are not modelled, and neither is the `interval` duration. The timer is a handle (`Option<TimerHandle>`) plus an external `Tick` event. `Tick` requires a live handle, because an interval callback only fires while its interval exists. Timing claims such as "it should take 200ms" (`throttle.ts`:11) cannot be stated.
- Promises and the event loop: task bodies, `await` and microtask order are not modelled. A task starts when the drain loop takes it. Some later `Complete` event settles it with a value or an error string, which stand in for any result.
- Re-entrancy: a task body is assumed never to call `add` or to throw synchronously, so a settlement never runs inside the drain loop of another operation.
- Throttling.Throttle.Complete: requires the task to be in flight. The handler of a task runs once, and only after `processQueue` has started the task.
- The `if (next)` guard (`throttle.ts`:62) is always true for a queue of closures, so the loop body omits it.
- Numbers: `limit` is an integer. A fractional limit, and a `NaN` limit that passes the `limit < 1` guard, are not modelled, because floating point is out of scope.
- Class identity and `new this()` in `UtilitySingleton`: classes are abstract keys and instances abstract ids. The `as ChildClassType` cast, and the base-class caveat about multi-level inheritance, have no counterpart. Construction always succeeds in the model. In the source, a subclass constructor run by `new this()` (`singleton.ts`:27) could throw, which leaves the map unchanged and passes the error on, or could call `getInstance` again; neither is modelled.
- The Nx generators (`typedoc-config` generator, `get-project-config`, `validate-generator-input` and their specs) are not modelled. They are thin wrappers over the Nx devkit and its virtual file tree.
