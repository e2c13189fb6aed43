# Verification of go-bootkit's protocols

A Dafny model of the protocols go-bootkit is made of, with proofs over every
program, every interleaving or every reachable state. `dafny verify dfyconfig.toml`
checks all of it.

- **Nested transactions** (`Contexts.dfy`, `NestedTx.dfy`). User code is a tree of
  statements, failures, panics, swallowed errors, context layers and nested `WithTx`
  blocks, with the driver's answers in it, so that quantifying over trees quantifies
  over all runs. `NestedTx.TxManager` executes it on savepoint records as
  `TxManager.WithTx` does; `NestedTx.Denote` is the plain nested all-or-nothing reading.
  The methods are proved to do what `Denote` says and laws are proved about `Denote`.
- **Lifecycle** (`Lifecycle.dfy`). Any number of concurrent `Start`, `Stop` and gated
  database calls, atomic at lock, channel and select steps; a schedule picks who moves.
- **Runner and shutdown** (`Runner.dfy`, `Shutdown.dfy`). The start supervisor as a
  fork-join group of start goroutines and deadline watchers, then the shutdown loop
  with its time budget.
- **Health aggregator** (`FanIn.dfy`, `Health.dfy`). Probes, flights, the TTL cache and
  the fan-in of one flight, under every interleaving with a clock that only moves forward.
- **Orders** (`Orders.dfy`, `OrderCalls.dfy`). `CreateOrder` under a row lock against
  `GetProduct` with its cache, under every interleaving with failures and expiries; the
  service as an object serving whole calls; and each order as a `NestedTx` program.
- **Retry and connect** (`Int64.dfy`, `Retry.dfy`, `Connect.dfy`, `Connections.dfy`). The
  attempt loop with 64-bit durations, the Connect closures as the stateful function it calls,
  and the same attempts as single steps inside the lifecycle's interleaving.
- **Trace handler** (`TraceHandler.dfy`). Deferred replay of handler operations.

What is assumed of code outside the repository, each as a small definition in the model:

- A Tx (`NestedTx.Begin`, `ExecOn`, `Commit`, `Rollback`): Commit publishes to the parent
  and closes, or publishes nothing; Rollback discards and closes, also when it fails, and a
  failed one leaves the enclosing transaction unusable; Rollback on a closed Tx changes
  nothing; an unusable transaction refuses statements, savepoints and Commit; a statement
  that fails may or may not abort its transaction.
- errgroup: the first error sticks and cancels the group's context, Wait joins all.
  singleflight: one active call per key, its result shared. A context stays done.
- FOR UPDATE blocks until the row is free and then reads the last committed row; the lock is
  held until commit or rollback; the database's CHECK constraints are not used.
- Calls into unknown code (Connect, checks, statements, cache operations, clocks, jitter)
  answer arbitrarily.

Results that differ from what one might expect of the code:

- Readiness can be signalled after `Stop` has returned (`Lifecycle.ReadyAfterStop`), namely
  exactly while a `Start` is between its critical section and `close(l.ready)`
  (`Lifecycle.ReadyAfterStopIff`, `Lifecycle.StopOvertakesIff`).
- A `Lifecycle` panics in some run exactly when `Start` is called at least twice
  (`Lifecycle.PanicsIffStartedTwice`), and a component then can leave a connection open for
  good, because its stop closures close what its field holds
  (`Connections.LeaksIffStartedTwice`).
- Two flights of a kind can run within one TTL when probes overlap
  (`Health.OverlappingProbesRunTwice`). They are spaced in every run in which probes of a kind
  do not overlap (`Health.FlightsAreSpaced`), and in all runs exactly when no two calls are
  probes of one kind (`Health.AlwaysSpacedIff`).
- The product cache can stay stale: when a commit falls between a reader's database read and
  its cache write, or when the last pending deletion of a stale copy is lost
  (`Orders.OverlapGoesStale`, `Orders.LostDeleteGoesStale`). `Orders.CacheAgrees` covers every
  run without either, and `Orders.StaleIffSpoilt` says that there is no other way and that each
  of the two does it.
- Backoff overflows (`Retry.BackoffOverflows`); `Retry.ExactUntilOverflow` says exactly when.
- When the base handler already has a group open, trace attributes are inside it, and only
  then (`TraceHandler.AtTheRootIff`).

## Model

| member | source | states |
|---|---|---|
| Contexts.ResolvesToInnermost | databasekit/txmanager.go:126-142 | A query resolves to the transaction layered on its context last, whatever other values and deadlines are layered around it |
| Contexts.OtherLayersAreTransparent | databasekit/txmanager.go:132-142 | Layers that are not transactions never change which querier a context resolves to |
| Contexts.NoTxResolvesToProvider | databasekit/txmanager.go:132-142 | A context without a transaction resolves to the provider, gated exactly when it is Readyable |
| NestedTx.TxManager.WithTx | databasekit/txmanager.go:146-189 | From any consistent database, on every exit (begin refused, gate refused, nil, error, panic, commit refused, rollback failed) the call returns, publishes and leaves its surroundings as the nested all-or-nothing reading says; it closes what it opened and touches no other transaction |
| NestedTx.TxManager.Run | databasekit/txmanager.go:132-189 | Any program of user code, nested to any depth, refines the nested all-or-nothing reading in outcome, current block, committed store and set of open transactions |
| NestedTx.TxManager.Exec | databasekit/txmanager.go:91-142 | A statement acts on the innermost block, or on the store through the readiness gate when no block is open |
| NestedTx.TxManager.RollBackByHand | databasekit/txmanager.go:126-130 | A Tx fetched from the context and rolled back by user code closes that block and no other, and reports as the reference says; that `WithTx` then neither publishes it nor returns nil is `NestedTx.UnusableNeverPublishes` |
| NestedTx.CloseSettles | databasekit/txmanager.go:169-188 | Error path, commit path and deferred Rollback together close a block exactly once, publishing all of it or none of it |
| NestedTx.CloseObeys | databasekit/txmanager.go:175-188 | From opening a block to closing it, the parent gains the whole log or nothing, and is spoilt only by a failed close |
| NestedTx.Execute | databasekit/txmanager.go:146-189 | A whole run from an empty database: the store is what the reference makes durable, every transaction is closed exactly once, the history is well bracketed |
| NestedTx.OpenedIsClosedOrOpen | databasekit/txmanager.go:150-188 | In every history, the transactions opened are those closed plus those still open, counted |
| NestedTx.EveryTxIsClosed | databasekit/txmanager.go:169-188 | Every opened transaction is closed later, when everything opened inside it is closed: children before parents |
| NestedTx.BlocksOnlyGrow | databasekit/txmanager.go:177-188 | A closed block is inert, a doomed one records nothing more and stays doomed, a nested failure never loses what the block had recorded |
| NestedTx.UnusableNeverPublishes | databasekit/txmanager.go:177-188 | Once a transaction is aborted, spoilt or rolled back by hand, at any point of any function, nothing it swallows, recovers from or does next helps: its `WithTx` fails and publishes nothing |
| NestedTx.NothingLeaks | databasekit/txmanager.go:175-177 | Code that stays in its transaction makes nothing durable by itself |
| NestedTx.OutermostIsAtomic | databasekit/txmanager.go:144-189 | An outermost `WithTx` makes its whole log durable exactly when its function returned nil and its Commit succeeded, and otherwise nothing |
| NestedTx.EarlierWorkIsIrrelevant | databasekit/txmanager.go:150-156 | What a transaction did before has no influence on what the code does next in it |
| NestedTx.CommittedSavepointIsTransparent | docs/adr/0002-txmanager-context-propagation.md:18-18 | A nested `WithTx` that commits is the same as running its function directly in the enclosing transaction |
| NestedTx.SavepointIsAllOrNothing | docs/adr/0002-txmanager-context-propagation.md:18-18 | A nested `WithTx` gives its parent everything or nothing, the former exactly when it returns nil, and keeps the parent open and, but for failed closes, usable |
| NestedTx.HealthyIsPlain | docs/adr/0002-txmanager-context-propagation.md:18-26 | Inside a transaction and on a driver that only fails statements, any program records exactly what textbook nested transactions would |
| NestedTx.HealthyIsPlainOutside | docs/adr/0002-txmanager-context-propagation.md:18-26 | Outside any transaction it makes exactly that durable |
| NestedTx.RefusedDoesNothing | databasekit/txmanager.go:150-167 | A `WithTx` whose gate or Begin refuses returns that error and does nothing |
| NestedTx.WithTxAnswers | databasekit/txmanager.go:169-188 | For every function, place and answer of the driver: the function's error comes back joined with the rollback's exactly when the block was open and its Rollback failed, else as it is; nil exactly when the block was usable and Commit succeeded; a panic goes on |
| NestedTx.ErrorsSurvive | databasekit/txmanager.go:177-182 | Through any number of nested blocks the innermost function's error comes out joined once for each level whose Rollback failed, and a panic stays a panic |
| NestedTx.GateDecides | databasekit/txmanager.go:91-104 | A statement outside a transaction takes effect exactly when there is no gate or it is open and the driver runs it; it is refused as not ready exactly when the gate is shut |
| NestedTx.NothingBeforeReady | databasekit/txmanager.go:91-163 | While its provider is not ready no program makes anything durable |
| NestedTx.NoGateInside | databasekit/txmanager.go:150-156 | Inside a transaction readiness plays no part |
| Lifecycle.Drive | core/lifecycle.go:44-90 | Any schedule of the atomic sections played on one object, every call going where the object's answers send it, is a run of the interleaving machine, and no closure occurs twice among those that are run |
| Lifecycle.StepKeepsInv | core/lifecycle.go:44-101 | Every step of every call keeps lock ownership, closure ownership and the readiness facts |
| Lifecycle.NoClosureRunsTwice | core/lifecycle.go:73-90 | However many `Start` and `Stop` calls race, no stop closure runs twice |
| Lifecycle.ReleasedExactlyOnce | core/lifecycle.go:44-90 | With one `Start` and any number of `Stop` calls, once it and some `Stop` returned, its resource was released exactly once, also when `Stop` came during `Connect`; the channel is never closed twice |
| Lifecycle.CallsObeyTheSchedule | core/lifecycle.go:44-101 | In every run, how each call ends follows from what happened to it: the error of `Connect`, the error of its context or a refusal at the gate, each exactly if that occurred |
| Lifecycle.EveryCallCanReturn | core/lifecycle.go:44-101 | From every state of a run any call can be brought to its end |
| Lifecycle.ThroughGateFindsPool | databasekit/txmanager.go:91-119 | No operation that passed the readiness gate ever finds the pool missing |
| Lifecycle.GateOpensWhenReady | core/lifecycle.go:94-101 | In every run the gate lets a call through exactly when readiness is signalled, the call then operates on a pool, and only its context can refuse it |
| Lifecycle.OperatesIffStarted | databasekit/txmanager.go:91-119 | A gated call gets to operate in some run if and only if some `Start` is called |
| Lifecycle.SecondStartPanics | core/lifecycle.go:67-67 | Two `Start` calls never both get past `close`; a `Start` panics only after another signalled |
| Lifecycle.PanicsIffStartedTwice | core/lifecycle.go:67-67 | Some run panics if and only if `Start` is called at least twice |
| Lifecycle.ReadyAfterStop | core/lifecycle.go:64-67 | Whenever a `Start` and a `Stop` are called there is a run in which `Stop` releases and returns before readiness is signalled |
| Lifecycle.ReadyAfterStopIff | core/lifecycle.go:56-67 | From any stopped state that is not ready, readiness can still be signalled if and only if a `Start` is between its critical section and the close |
| Lifecycle.StopOvertakesIff | core/lifecycle.go:44-90 | From the beginning, some run signals readiness after a `Stop` returned if and only if `Start` and `Stop` are both called |
| Shutdown.ShutDown | core/runner.go:200-233 | The loop stops services in reverse, gives each an equal share of max(0, timeout − elapsed so far), and returns the failing services' errors in stop order |
| Shutdown.InTime | core/runner.go:202-231 | Services that keep to their budgets never exceed the timeout together |
| Shutdown.BudgetsNeverShrink | core/runner.go:208-230 | Along the shutdown order of such services budgets never shrink |
| Shutdown.FairShares | core/runner.go:208-230 | Each such service gets at least ⌊timeout/n⌋, and a positive budget when timeout ≥ n |
| Runner.StartStepOk | core/lifecycle.go:51-70 | No start goroutine of the runner sees `stopped`, panics or releases anything |
| Runner.StepKeepsInv | core/runner.go:124-233 | Every step of start goroutines, watchers, cancellation, join and shutdown keeps the runner's invariant |
| Runner.ServicesRunLifecycles | core/runner.go:124-233 | In every run of the runner each service goes through a run of the lifecycle machine with one `Start` and one `Stop` |
| Runner.NothingStopsEarly | core/runner.go:130-131 | Under every interleaving no closure runs before all `Start` calls and watchers returned, and the half-started branch is never taken |
| Runner.ReleasedOnceInReverse | core/runner.go:204-232 | In every complete run exactly the acquired resources are released, each once, in reverse registration order |
| Runner.StartErrorIsFirstFailure | core/runner.go:156-198 | In terms of what happened only: the group is told each failing `Start`, each expired deadline and each watcher's sight of the group's context, in the order the goroutines return, and the start error is the first of these |
| Runner.CleanStartIff | core/runner.go:156-198 | The start phase ends without error if and only if no `Start` failed with anything but Canceled, no deadline expired and no watcher saw the group's context |
| Runner.StopErrorsFollow | core/runner.go:200-233 | A service is reported with a stop error exactly when it had connected with a closure and that closure returned it |
| Runner.WatchersAreThere | core/runner.go:177-180 | In every run exactly the spawned Readyable services have a watcher when a start deadline is set, and none otherwise |
| Runner.WaitingReturnsIff | core/runner.go:161-175 | A service that is up can return if and only if the outer context was cancelled, the group was told an error, or its own deadline expired |
| Runner.WatcherSeesIff | core/runner.go:183-192 | A watcher can always see its timer, readiness exactly when signalled, the group's context exactly when done |
| Runner.UpUntilTold | core/runner.go:122-131 | Without an outer cancellation and without trouble no waiting `Start` ever returns |
| Runner.EveryRunCanComplete | core/runner.go:124-233 | From every state of a run the run can be completed; after a first failure without any cancellation from outside |
| Runner.DeadlineEndsTheRun | core/runner.go:183-190 | Where a watcher is watching, its deadline alone can complete the run, which then reports it |
| Runner.RunReturnsNil | core/runner.go:133-139 | `Run` returns nil exactly when the start phase was clean and no closure failed |
| Runner.RunJoinsInOrder | core/runner.go:133-139 | The joined error is the start error, if any, and then exactly the errors of the stop calls that failed, from the last registered service to the first |
| Runner.StopContexts | core/runner.go:210-212 | Service failures leave Stop contexts live; an outer cancellation before the join makes all of them done on arrival |
| Runner.FailureLeavesTimeToStop | core/runner.go:200-233 | Without outer cancellation and with services within budget, every `Stop` gets a live context and its fair share, and shutdown ends in time |
| FanIn.NoSenderBlocks | core/healthkit/health.go:164-176 | No check ever blocks sending its error, whatever the number of checks and their order |
| FanIn.Collect | core/healthkit/health.go:164-185 | The joined errors are a permutation of exactly the failing checks, none exactly when none failed |
| Health.FreshnessByConfiguration | core/healthkit/health.go:96-102 | In terms of the TTL asked for: negative, every answer is a flight in progress during the call; zero, it may be less than a second old; positive, less than that |
| Health.Registry.Register | core/healthkit/health.go:111-121 | Each kind's checks are the earlier ones followed by its new ones in registration order |
| Health.StepKeepsInv | core/healthkit/health.go:145-203 | Every step of probes, flights, clock and registration keeps the aggregator's invariant |
| Health.AnswersAreWholeFlights | core/healthkit/health.go:145-203 | Every answer is the outcome of one whole flight of its kind, in progress between the beginning of the call and its answer or stamped less than the TTL before it began; only the former with caching off |
| Health.AnswersAreTheFailures | core/healthkit/health.go:164-190 | A caller is told a permutation of exactly the checks that failed in its flight, nothing exactly when none did, and every check of the flight came back |
| Health.ChecksAreRegistered | core/healthkit/health.go:111-121 | A kind's checks at any time are those registered for it, in order |
| Health.StampIsTheTime | core/healthkit/health.go:187-187 | A result carries for good the time at which it was made |
| Health.EveryProbeCanBeAnswered | core/healthkit/health.go:145-203 | From every state of a run any probe can be brought to its answer |
| Health.OneFlightPerKind | core/healthkit/health.go:158-190 | Flights of a kind never overlap |
| Health.LateLoadsAreSpaced | core/healthkit/health.go:148-187 | A later flight's leader loaded the cache before the earlier result was stored, or began at least the TTL after its stamp |
| Health.FlightsAreSpaced | core/healthkit/health.go:145-187 | In every run in which no probe begins while another of its kind is in progress, any two flights of a kind are at least the TTL apart |
| Health.AlwaysSpacedIff | core/healthkit/health.go:145-187 | Flights are that far apart in all runs if and only if no two calls are probes of one kind |
| Health.KindsAreSeparate | core/healthkit/health.go:187-187 | Only a flight of a kind changes that kind's cache entry, which always is a result of that kind |
| Health.FlightsRunTheSnapshot | core/healthkit/health.go:160-177 | A flight launches every check its kind had when it was opened and evaluates exactly that list, in registration order, whatever is registered meanwhile, each with a positive timeout and no sender blocking |
| Health.OverlappingProbesRunTwice | core/healthkit/health.go:146-159 | Whatever the TTL and the check, two overlapping probes can run it twice at one instant |
| Orders.StepKeepsInv | examples/orders/service.go:55-126 | Every step of orders, reads, creations and expiries keeps the stock, lock, history and cache facts |
| Orders.StockIsConserved | examples/orders/service.go:90-126 | Under every interleaving stock is never negative and initial stock is current stock plus the units of committed orders |
| Orders.OrdersArePriced | examples/orders/service.go:107-108 | Every committed order is for a positive quantity at price × quantity whenever that fits in int64 |
| Orders.OrdersAreTheCalls | examples/orders/service.go:90-126 | The committed orders are, one for one, the calls that succeeded, each for the product and quantity its call asked for |
| Orders.FailsForAReason | examples/orders/service.go:93-117 | An order fails if and only if an operation of its transaction failed, its product did not exist, or there was too little of it when its row was locked |
| Orders.EveryCallCanEnd | examples/orders/service.go:55-126 | From every state of a run any call can be brought to its end without any failure, also when it waits for a row lock |
| Orders.OnlyCommittedRowsAreSeen | examples/orders/service.go:55-78 | Every cached or returned product is a row version that was committed |
| Orders.HistoryIsCommits | examples/orders/repository.go:66-76 | The recorded versions of a row grow only by the row a step commits |
| Orders.CacheAgrees | examples/orders/service.go:119-128 | Unless a commit falls into a reader's window or the last deletion of a stale copy is lost, a cached copy with no deletion pending is the committed row |
| Orders.FreshUnlessSpoilt | examples/orders/service.go:55-128 | From a fresh state exactly those two kinds of action lead to one that is not fresh |
| Orders.StaleIffNotFresh | examples/orders/service.go:55-128 | From any state of a run, a continuation without such actions can leave a stale copy with no deletion pending if and only if the state is not fresh |
| Orders.StaleIffSpoilt | examples/orders/service.go:119-128 | The converse: after a run without such actions, an action can be followed by a stale copy that stays if and only if it is one of them |
| Orders.SerialOperationsAgree | examples/orders/service.go:85-128 | Between non-overlapping operations with successful deletes the cached copy is absent or current |
| Orders.OverlapGoesStale | examples/orders/service.go:67-78 | From the beginning, whenever a product is ordered and read: a run with the commit inside the reader's window that ends with a stale copy and no deletion pending |
| Orders.LostDeleteGoesStale | examples/orders/service.go:119-124 | Likewise a run in which the delete fails |
| OrderCalls.OrderIsOneTransaction | examples/orders/service.go:93-117 | Run through `WithTx`, for every row, quantity and answer of the driver, the decrement and the order are durable together exactly when the call returns nil; too little stock and a missing product are reported as such |
| OrderCalls.CommitIsTheTransaction | examples/orders/service.go:90-126 | What that transaction makes durable is exactly the change of row and orders that the interleaving machine makes, and it returns nil exactly when the machine places the order |
| OrderCalls.PlayedOrder | examples/orders/service.go:90-126 | The machine's steps of an order that runs on its own add up to the whole order or to nothing, by which operations go through and the stock there is; the cached copy goes only after a commit |
| OrderCalls.PlayedRead | examples/orders/service.go:55-78 | Those of a read add up to the cached copy on a hit, else the row, remembered when the cache takes it, with nothing else changed |
| OrderCalls.PlayIsSerial | examples/orders/service.go:55-128 | A call that runs on its own is a serial run of the machine |
| OrderCalls.Serve | examples/orders/service.go:47-128 | The service object, serving any sequence of orders and reads one by one with any failures, never has negative stock, conserves it, and when its deletes go through caches only products that exist, each with its committed row |
| Retry.Do | core/retry/retry.go:20-62 | Attempts stop at the first success, the last attempt or a context seen done, and never exceed the maximum; the error is that of the last call or the context's; the waits are the 64-bit backoff plus jitter; the end of the loop is never reached |
| Retry.SleepIsIdeal | core/retry/retry.go:42-51 | While base·2^(n−2) plus the largest jitter fits in int64, every wait is base·2^k plus jitter |
| Retry.ExactUntilOverflow | core/retry/retry.go:42-51 | For every base, negative ones too, all waits of n attempts are the meant ones if and only if the last one, with the largest jitter, fits in int64 |
| Retry.WaitsOfARun | core/retry/retry.go:41-57 | The waits of such a run strictly increase for any jitter and total at most base·(2^(n−1)−1) + (n−1)·(base/2) |
| Retry.BackoffOverflows | core/retry/retry.go:42-42 | With a base of one second the 35th wait is negative |
| Connect.FailuresLeaveNothing | cachekit/cache.go:105-113 | Any number of failed attempts leaves open exactly what was open |
| Connect.SuccessLeavesOne | databasekit/database.go:69-81 | A successful attempt after failed ones leaves exactly one new connection open, the captured one |
| Connect.Component.Connect | databasekit/database.go:61-92 | Success leaves one more connection open and stored, failure none; it succeeds exactly when the first attempt or one below the configured number works, all before it failing with the context not done |
| Connect.ConnectThenClose | cachekit/cache.go:97-123 | Connecting and stopping leaves open exactly what was open |
| Connections.RunsAreLifecycleRuns | core/lifecycle.go:44-90 | Every interleaving of single opens, pings and closes is a run of the lifecycle machine |
| Connections.NoConnectionIsLeft | databasekit/database.go:61-92 | Counting the connections of all attempts, in every run with one `Start`: at most one is open, none after a failed `Connect` or once it and some `Stop` have returned, and the stored one while it waits unstopped |
| Connections.ConnectIsDo | cachekit/cache.go:97-123 | In that interleaving `Connect` returns when `retry.Do` would and leaves open what the same attempts leave open under it |
| Connections.AttemptsFollow | cachekit/cache.go:105-114 | In every run the attempts of each `Start` are what the server and the context answered: one failed attempt for each refusal, a client only without one, giving up early only for a done context |
| Connections.CanStillConnectIff | databasekit/database.go:64-81 | After a failed attempt `Connect` can still succeed if and only if the configured attempts are not used up |
| Connections.ConnectCanReturn | databasekit/database.go:69-81 | `Connect` can be brought to return from wherever it is |
| Connections.LeaksIffStartedTwice | databasekit/database.go:86-91 | When a `Stop` is called, some run comes to a state, with every `Start` that began and some `Stop` returned, from which a connection is open in every continuation, if and only if `Start` is called at least twice |
| TraceHandler.Tracer.With | core/trace_handler.go:60-71 | A derived handler has its own copy of the operations, plus one |
| TraceHandler.Tracer.Handle | core/trace_handler.go:37-57 | The record is emitted by the base handler with the trace attributes and then all operations applied |
| TraceHandler.AttrsStayPut | core/trace_handler.go:40-54 | Attributes added before the replay stay right after the base's own, whatever is replayed |
| TraceHandler.TraceAttrsAreAtTheRoot | core/trace_handler.go:33-57 | For every sequence of operations the record is the base handler's with the trace attributes inserted at the root, and the same record without a span |
| TraceHandler.TracedRecord | core/trace_handler.go:40-46 | Over such a base the record is two attributes longer, the trace id under `trace_id` and then the span id under `span_id`; without a span it is the same |
| TraceHandler.GroupedBaseKeepsItsRoot | core/trace_handler.go:40-46 | Over a base with a group open the root is the base's own |
| TraceHandler.AtTheRootIff | core/trace_handler.go:33-57 | The trace attributes of a valid span come out at the root if and only if the base has no group open |
| TraceHandler.DeriveFamily | core/trace_handler.go:60-71 | In any family of handlers derived from one another in any order, each replays the operations on its own way from the first one and shares its array with no other |

## Left out

- HTTP server, routers, middleware, handlers and health routes: input and output around libraries that are not part of this model.
- Workers, queues, generic cache helpers, codecs and the in-memory cache.
- Options, configuration, tracing setup, hooks, metrics and log text.
- User code that commits its Tx by hand, or that uses an enclosing block's context while a nested block is open: what the driver does then is not a matter of this repository. User code may roll back by hand, layer values and deadlines, and use a context without a transaction.
- Visibility and locking between a detached transaction and the one around it: statements are log entries in `NestedTx`, not reads and writes of rows.
- In `Runner` each critical section of a component's `Lifecycle` is one step; `Lifecycle` has the lock itself, and `Runner.ServicesRunLifecycles` relates the two.
- Components of the runner that are not built on `Lifecycle`, and the same component registered twice.
- The same `Aggregator` asked for a kind outside its three: the source indexes a three-element array with it.
- Expiry times of cached products: an entry may expire at any moment, so the 60-second bound on staleness is not stated.
- Handlers that drop empty groups or empty attribute lists, and callers that modify an attribute slice after handing it over.
- Wall-clock accuracy, randomness and the memory model: a clock that only moves forward, any jitter in its range, interleavings of atomic steps.
