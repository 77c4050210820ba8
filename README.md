# Toolkit metrics queue and dispatcher, in Dafny

This project models the metrics pipeline of the Shotgun Pipeline Toolkit core
(`python/tank/util/metrics.py`). It proves properties of the model.

- Application code builds an `EventMetric` from a group, a name and optional
  properties. It hands the metric to `log_event_metric`.
- That call puts the metric on a process-wide FIFO queue. The queue also keeps
  a set of every identity (`repr`, "group:name") it has ever appended. A call
  with `log_once` drops a metric whose identity is already in that set.
- A `MetricsDispatcher` starts worker threads, at most once between two stops,
  and only when a user is authenticated.
- Each worker first checks that the server version is at least (7, 4, 0). It
  then loops until halted. Each round takes at most 10 metrics from the head of
  the queue and hands a non-empty batch to the delivery step. A failed delivery
  is ignored.

Modules, one per component of the source file:

- `PythonValues` (`python_values.dfy`): the Python values the code handles. It
  defines what `str()` and truthiness make of them, `None` as `Option`, and the
  `TypeError` the producer API raises.
- `EventMetrics` (`event_metric.dfy`): the `data` record, the `EventMetric`
  constructor, `_add_event_property`, and the identity `repr`.
- `Queue` (`metrics_queue.dfy`): the class `MetricsQueue`, with `Log` and
  `GetMetrics`. Its specification is the functions `LogStep` and `DrainStep` on
  the abstract `QueueState`. `Replay` runs any sequence of calls, and the lemmas
  about it cover what holds across calls.
- `Worker` (`dispatch_worker.dfy`): the version gate, the class `DispatchWorker`
  with `Start`, `Halt` and `Run`, and `Loop`, the round-by-round specification
  of `run`.
- `Dispatcher` (`metrics_dispatcher.dfy`): the class `MetricsDispatcher`, with
  `Start` and `Stop`. Its fields `dispatching` and `workers` are the two
  read-only properties of the source.
- `Producer` (`producer.dfy`): `log_event_metric`, plus scenarios that drive the
  classes through their public methods.

The queue is one explicitly constructed object, passed by reference to
producers and workers. Timing becomes a finite schedule of `Tick`s. Tick i says
whether the delivery attempted in round i fails, and whether `halt` is called
while the worker waits after that round.

Where the code and its documentation disagree, the model follows the code:

- `get_metrics` with a negative `count` returns nothing and leaves the queue
  alone, because `range(0, count)` is then empty (lines 125-129). The comment on
  `DISPATCH_BATCH_SIZE` (line 226) says "all if <= 0".
- When the version gate fails, `run` returns without setting the halt flag. The
  model's `Run` leaves `halted` as it was in that case.
- The identity is recorded on every append, with or without `log_once`. So a
  metric logged once without `log_once` blocks every later `log_once` call for
  the same identity (`LogOnceSuppressedForever`).

## Model

| member | source | states |
|---|---|---|
| PythonValues.Str | python/tank/util/metrics.py:406-410 | `str()` returns a string unchanged. For an integer it returns the one canonical decimal text: non-empty digits with no leading zero, where 0 prints as exactly "0", and a leading '-' when negative. The digits read back as the number. |
| PythonValues.Truthy | python/tank/util/metrics.py:412-412 | A value is falsy exactly when it is `None`, `False`, `0`, `""`, or an object whose truthiness is false. |
| PythonValues.PropertiesTruthy | python/tank/util/metrics.py:412-412 | A dict `properties` argument is truthy exactly when it has an entry. Any other argument is truthy exactly when its value is. `NewEventMetric` branches on this. |
| PythonValues.DecimalRoundTrip | python/tank/util/metrics.py:407-408 | Reading back the decimal text that `str()` gives a non-negative integer yields that integer. |
| EventMetrics.AddEventProperty | python/tank/util/metrics.py:426-435 | Adding a property sets that one key to the value. Every other key, the group and the name stay as they were. |
| EventMetrics.NewEventMetric | python/tank/util/metrics.py:380-424 | Raises `TypeError`, with the source's message, exactly when `properties` is truthy and not a dict. Otherwise `event_group` is `str(group)`, `event_name` is `str(name)`, and `event_property` equals the given dict (empty for a falsy argument). The loop copies the dict entry by entry. |
| EventMetrics.Identity | python/tank/util/metrics.py:454-456 | An event metric's identity is its group, then ':', then its name. Its properties take no part. `IdentitySplits`, `IdentityEqualIff` and `IdentityCollision` state what this means for deduplication. |
| EventMetrics.IdentityIgnoresProperties | python/tank/util/metrics.py:454-456 | An event metric's identity does not depend on its properties. |
| EventMetrics.IdentitySplits | python/tank/util/metrics.py:454-456 | When the group holds no ':', the group and the name can be recovered by splitting the identity at its first ':'. |
| EventMetrics.IdentityEqualIff | python/tank/util/metrics.py:454-456 | For colon-free groups, two event metrics have the same identity (so `log_once` treats them as one) if and only if their groups and names are equal. |
| EventMetrics.IdentityCollision | python/tank/util/metrics.py:454-456 | A ':' inside the group makes different metrics collide: ("a:b", "c") and ("a", "b:c") share the identity "a:b:c". |
| Queue.BatchLength | python/tank/util/metrics.py:119-129 | `get_metrics` pops no more than is pending. An empty queue gives 0. `None` or 0 gives everything. A positive count gives min(count, pending). A negative count gives 0. |
| Queue.LogStep | python/tank/util/metrics.py:86-97 | With `log_once` set and the identity already logged, the state is unchanged. Otherwise the metric is appended at the tail and its identity is added to the logged set, whatever `log_once` says. The logged set never shrinks. |
| Queue.DrainStep | python/tank/util/metrics.py:115-135 | The batch has `BatchLength` items. The batch followed by the remaining queue is the old queue, so items come from the head in FIFO order. The logged set is untouched. |
| Queue.MetricsQueue.constructor | python/tank/util/metrics.py:62-65 | A new queue has nothing pending and nothing logged. |
| Queue.MetricsQueue.Log | python/tank/util/metrics.py:71-101 | After the call, the queue's state is `LogStep` applied to the old state. |
| Queue.MetricsQueue.GetMetrics | python/tank/util/metrics.py:103-135 | The `popleft` loop returns the batch and leaves the state that `DrainStep` gives for the old state. No error path exists. |
| Queue.ReplayConserves | python/tank/util/metrics.py:71-135 | Across any sequence of `log` and `get_metrics` calls, the old pending metrics followed by those appended equal, in order, every batch handed out followed by what is still pending. Nothing is lost or duplicated. |
| Queue.ReplayLoggedGrows | python/tank/util/metrics.py:50-50 | Across any sequence of calls, the logged set only grows. It ends up holding the identity of every metric that was appended. |
| Queue.LogOnceSuppressedForever | python/tank/util/metrics.py:88-90 | Once an identity is logged, a `log_once` call for it after any further calls changes nothing. |
| Queue.LogWithoutOnceAlwaysAppends | python/tank/util/metrics.py:88-97 | Without `log_once`, a metric is appended even when its identity was seen before. |
| Queue.AcceptedAll | python/tank/util/metrics.py:92-97 | Logging metrics without `log_once` accepts every one of them in order, and a following `get_metrics()` empties the queue. |
| Queue.LogAllThenDrainAll | python/tank/util/metrics.py:94-129 | FIFO law: metrics logged without `log_once` into an empty queue come back from `get_metrics()` in the order they were logged. |
| Worker.TupleLess | python/tank/util/metrics.py:259-259 | Python's tuple `<`. A smaller tuple is never equal to the other one. It is compared against a non-empty tuple, and its first element is no larger. `TupleLessTransitive` and `TupleLessTotal` prove it is a strict total order. |
| Worker.MetricsSupported | python/tank/util/metrics.py:256-260 | The gate passes only for a reported, non-empty version whose first element is at least 7. `GateExplicit` gives the exact condition, and `GateMonotone` shows newer versions stay supported. |
| Worker.GateExplicit | python/tank/util/metrics.py:256-260 | The gate passes exactly for a non-empty version that compares, position by position as tuples do, at least (7, 4, 0). So (7, 4) and (7, 3, 99) fail, while (7, 4, 0) and (8,) pass. |
| Worker.TupleLessTransitive | python/tank/util/metrics.py:259-259 | Tuple comparison is transitive. |
| Worker.TupleLessTotal | python/tank/util/metrics.py:259-259 | Any two version tuples are equal or one is smaller. |
| Worker.GateMonotone | python/tank/util/metrics.py:256-260 | A server version at least as new as a supported one is supported too. |
| Worker.Loop | python/tank/util/metrics.py:266-278 | The loop of `run`, round by round. It runs at most one round per tick and records at most one delivery per round. `LoopConserves`, `LoopBatchBounds`, `LoopStopsAtHalt`, `LoopIgnoresFailures` and `LoopDrainsQueue` state its behaviour. |
| Worker.RunSpec | python/tank/util/metrics.py:250-278 | `run` as a whole. Below the version gate it runs no round, delivers nothing, and leaves the queue and the halt flag as they were. Otherwise it is `Loop`. |
| Worker.LoopConserves | python/tank/util/metrics.py:266-278 | The batches handed over, in order, followed by what is left equal what was pending. The logged set is untouched. |
| Worker.LoopBatchBounds | python/tank/util/metrics.py:224-273 | Every batch handed over has between 1 and `DISPATCH_BATCH_SIZE` (10) metrics. |
| Worker.LoopStopsAtHalt | python/tank/util/metrics.py:266-282 | An already halted worker runs no round. Otherwise the loop runs every round up to and including the one in which `halt` is called, then stops with the flag set. |
| Worker.LoopIgnoresFailures | python/tank/util/metrics.py:269-278 | Failed deliveries change neither the rounds run, nor the batches taken, nor the queue left behind. |
| Worker.LoopDrainsQueue | python/tank/util/metrics.py:266-278 | With no halt and at least one round per 10 pending metrics, the loop empties the queue. |
| Worker.DispatchWorker.constructor | python/tank/util/metrics.py:230-248 | A new worker is neither started nor halted. |
| Worker.DispatchWorker.Start | python/tank/util/metrics.py:183-183 | Starting marks the worker started and leaves its halt flag alone. |
| Worker.DispatchWorker.Halt | python/tank/util/metrics.py:280-282 | `halt` sets the halt flag (idempotent) and changes nothing else. |
| Worker.DispatchWorker.Run | python/tank/util/metrics.py:250-278 | Below the version gate, `run` does nothing. Otherwise its deliveries, the queue's new state and the halt flag are those of `Loop` on the old queue. |
| Dispatcher.WorkerCount | python/tank/util/metrics.py:181-181 | `range(num_workers)` yields `num_workers` iterations when that is positive, and none otherwise. |
| Dispatcher.MetricsDispatcher.constructor | python/tank/util/metrics.py:147-158 | A new dispatcher has no workers and is not dispatching. |
| Dispatcher.MetricsDispatcher.Start | python/tank/util/metrics.py:160-187 | While dispatching it is a no-op. Without an authenticated user nothing changes and `dispatching` stays false. Otherwise the list ends up holding exactly `num_workers` (none if negative) workers. They are pairwise distinct, fresh, started and un-halted objects, one thread each, and `dispatching` is set. |
| Dispatcher.MetricsDispatcher.Stop | python/tank/util/metrics.py:189-195 | Every previous worker is halted. `dispatching` becomes false and `workers` empty, including when nothing was started. |
| Producer.LogEventMetric | python/tank/util/metrics.py:462-479 | A non-`EventMetric` raises `TypeError` with the source's message and leaves the queue untouched. An event metric is logged as `LogStep` says. |
| Producer.LoginTwiceScenario | python/tank/util/metrics.py:86-97 | "App:Login" logged, then logged again with `log_once`, leaves one pending metric. A third call without `log_once` makes two. |
| Producer.NonEventRefusedScenario | python/tank/util/metrics.py:476-479 | A non-event metric is refused with `TypeError`. Nothing is pending or logged afterwards. |
| Producer.DrainTwentyFiveScenario | python/tank/util/metrics.py:115-135 | With 25 pending metrics, three `get_metrics(10)` calls return 10, 10 and 5 items and empty the queue. |
| Producer.ThreeRoundsOfTwentyFive | python/tank/util/metrics.py:266-278 | Three un-halted rounds over 25 pending metrics hand over batches of 10, 10 and 5. They leave the queue empty and the worker not halted. |
| Producer.FailingDeliveryScenario | python/tank/util/metrics.py:266-278 | A worker whose every delivery fails keeps running. Over three rounds it hands over 10, 10 and 5 metrics and empties the queue. |
| Producer.StartTwiceScenario | python/tank/util/metrics.py:167-187 | A second `start` without a `stop` keeps the worker count of the first. |
| Producer.StopBeforeStartScenario | python/tank/util/metrics.py:189-195 | `stop` before any `start` leaves the dispatcher idle with no workers. |

## Left out

- Threads, the queue's lock, `Event.wait(DISPATCH_INTERVAL)` and daemon threads are not modelled. They exist for concurrency and timing. The queue is one object with atomic methods, and `halt` sets a boolean.
- The unlocked `log_once` check at line 88 can race with another `log` call. A sequential model cannot express this.
- `_dispatch` (lines 284-324) is not modelled: proxy set-up, the HTTP request, JSON encoding, the session token and the `log_metrics` core hook. Delivery is an opaque step whose failure each tick states.
- The singleton `__new__` machinery is not modelled. One queue is built explicitly and passed by reference.
- `get_authenticated_user()` is external, so it is a boolean input to `Start`.
- The server capabilities are an external collaborator. They become an optional version tuple: `None` covers both a missing `server_caps` and a missing version.
- `engine.log_debug` calls are not modelled, because they only log.
- `_add_system_info_properties` is not modelled, because its body is empty.
- The deprecated `log_metric`, `log_user_activity_metric` and `log_user_attribute_metric` are not modelled, because their bodies are empty.
- `ToolkitMetric.__str__` is not modelled. The core never calls it.
- `API_ENDPOINT` is not modelled. Only `_dispatch` uses it.
- The bare `except: pass` blocks around the queue updates are not modelled. Nothing in a sequential model can raise there.
- Worker.Loop: the `except Exception` at line 274 is modelled only for deliveries that fail with an `Exception`. A delivery that raises something that is not an `Exception` (`SystemExit`, `KeyboardInterrupt`) escapes that handler and ends the thread. `Loop` has no such case.
- Worker.DispatchWorker.Run: it observes the endless `while not halted` loop only for the rounds of a finite schedule. A worker that is never halted is followed only as long as the schedule lasts.
- Worker.DispatchWorker.Run: no other producer or worker touches the queue during a run. Interleavings with concurrent `log` calls are not modelled.
- PythonValues.Str: `StrValue` stands for a Python 2 byte string. `unicode` group or name arguments are not modelled. For them `str()` raises `UnicodeEncodeError` on a non-ASCII character, so the event constructor would raise too.
- PythonValues.Str: objects other than None, booleans, integers and strings are modelled by the text their own `__str__` returns. An `__str__` that raises is not modelled.
- EventMetrics.NewEventMetric: dictionary keys are modelled as strings. A dict subclass counts as a non-dict, since the source tests `type(properties) is dict`, so it is a `PlainArg` carrying its truthiness.
- Queue.MetricsQueue.GetMetrics: `count` is modelled as `None` or an integer. Other Python types are not modelled.
- Worker.DispatchWorker.Start: it records only that the thread was started. Starting a thread twice, which raises `RuntimeError` in Python, is not modelled.
