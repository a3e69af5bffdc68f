# Future: a verified model of a minimal Swift future/promise library

This project models the core of a small Swift library. A `Future<T, E>` settles at most once, either to a value (resolved) or to an error (rejected). Callers attach `then`, `catch` and `always` blocks. A `Resolver` is the single-use handle that settles the future. The combinators `Futures.all`, `Futures.any` and `Futures.first` build a parent future from a list of input futures.

- `future.dfy` (module `FutureCore`) models `Sources/Future/Future.swift`. The state of a future is the `State` datatype, and its operations are the `...Step` functions. The classes `Future` and `Resolver` hold the same fields as the Swift classes and are proved against those functions: every method states its new state as the matching step applied to the old state. Observer blocks are abstract identifiers. Invoking a block appends an `Event` to a ghost `trace`.
- The central theorem is `RunDeliversToEveryHandler`. Take any interleaving of settlement attempts and registrations (a `Run` of `Op`s). Then:
  - the future holds the first settlement;
  - it never holds both a value and an error;
  - its trace is exactly the registered blocks in registration order, each given what that first settlement delivers to it;
  - while it is pending, nothing has fired.

  `HandlerFiresOnce` derives the per-block consequences. Each `then` block fires exactly once with the value, and only on resolution. `catch` is symmetric. Each `always` block fires exactly once, with exactly one of value and error present.
- `futures.dfy` (module `Futures`) models `Sources/Future/Futures.swift`. Each input future is described by its state when the combinator registers on it: `Some(outcome)` if already settled, `None` if pending. The later completions of pending inputs are a sequence of `Completion` events. Settled inputs fire synchronously in the registration loop, so the completion order is the settled inputs in array order, followed by the later events. The class `Collector` is the state captured by the `all`/`any` callback: the two collections, the input count and the parent resolver. `Collect`, `All`, `Any` and `First` run the registration loop and the later completions against a real parent `Future`/`Resolver`.
- `scenarios.dfy` (module `Scenarios`) restates the library's test cases on the model.

`all`/`any` with an empty input list never settle. The count check runs only inside a completion callback, and no callback ever runs. The model keeps this behaviour (`Aggregate` is `None` when `n == 0`; `All`/`Any` ensure the parent stays pending). `CombinatorSettlesIffAllCompleted` proves that, for completion events that can actually happen, `all` and `any` settle exactly when the list is non-empty and every input has completed.

`first` attaches `then` followed by `catch` (Sources/Future/Futures.swift:132-138), not `always` as `all`/`any` do; `Futures.First`/`Futures.Forward` model that.

## Model

| member | source | states |
|---|---|---|
| `FutureCore.FireValueObservers` | Sources/Future/Future.swift:88 | `_observers.forEach`: exactly one event per success observer, the i-th event being observer i's call with the value |
| `FutureCore.FireErrorObservers` | Sources/Future/Future.swift:98 | `_errorObservers.forEach`: exactly one event per error observer, in list order, with the error |
| `FutureCore.ResolveStep` | Sources/Future/Future.swift:81-89 | afterwards the future is settled; on a settled future nothing changes (no store, lists unchanged, nothing fires); on a pending one the value is stored, no error, both lists unchanged, and every success observer fires exactly once, in registration order, with that value, after the earlier trace |
| `FutureCore.RejectStep` | Sources/Future/Future.swift:91-99 | symmetric for errors; in particular `isResolved` holds after a rejection |
| `FutureCore.Future.IsResolved` | Sources/Future/Future.swift:66-68 | true exactly when the future holds an outcome, resolved or rejected |
| `FutureCore.Future.constructor` | Sources/Future/Future.swift:59-64 | a new future is pending with empty observer lists and has fired nothing |
| `FutureCore.Future.Resolve` | Sources/Future/Future.swift:81-89 | the loop over `_observers` produces exactly the new state `ResolveStep` describes |
| `FutureCore.Future.Reject` | Sources/Future/Future.swift:91-99 | the loop over `_errorObservers` produces exactly the new state `RejectStep` describes |
| `FutureCore.Future.Then` | Sources/Future/Future.swift:110-120 | returns the same future; when a value is stored the block fires at once with it and the lists are unchanged, otherwise (pending or rejected) it is appended to `_observers` |
| `FutureCore.Future.Catch` | Sources/Future/Future.swift:128-138 | returns the same future; fires at once with a stored error, otherwise appends to `_errorObservers` |
| `FutureCore.Future.Always` | Sources/Future/Future.swift:145-164 | returns the same future; fires at once with (value, nil) or (nil, error) when settled, otherwise appends one wrapper to each list |
| `FutureCore.Resolver.constructor` | Sources/Future/Future.swift:33-35 | the resolver refers to its future |
| `FutureCore.Resolver.Resolve` | Sources/Future/Future.swift:42-45 | the reference is cleared; if it was present the future takes the `ResolveStep` transition, otherwise nothing but the resolver is touched |
| `FutureCore.Resolver.Reject` | Sources/Future/Future.swift:52-55 | the reference is cleared; if it was present the future takes the `RejectStep` transition |
| `FutureCore.NewFuture` | Sources/Future/Future.swift:73-76 | a fresh pending future together with a fresh resolver bound to it |
| `FutureCore.ResolveUnit` | Sources/Future/Future.swift:167-171 | `resolve()` on a `Void` future is `resolve(value: ())` |
| `FutureCore.FireValueObserversDelivers` | Sources/Future/Future.swift:87-88 | firing the success list of a pending future is delivering the value to each `then`/`always` registration in registration order |
| `FutureCore.FireErrorObserversDelivers` | Sources/Future/Future.swift:97-98 | firing the error list of a pending future is delivering the error to each `catch`/`always` registration in registration order |
| `FutureCore.StepConsistent` | Sources/Future/Future.swift:81-164 | every operation preserves the invariant: never both value and error; pending means nothing fired and the lists hold the registrations; settled means the trace is every registration's delivery |
| `FutureCore.RunDeliversToEveryHandler` | Sources/Future/Future.swift:81-164 | for any run: the future holds the first settlement, never both value and error, and its trace is the registered blocks in registration order, each given what the first settlement delivers to it (nothing while pending) |
| `FutureCore.RunConsistent` | Sources/Future/Future.swift:81-164 | every run from a new future keeps that invariant, and its outcome is the first settlement attempt |
| `FutureCore.HandlerFiresOnce` | Sources/Future/Future.swift:110-164 | with distinct ids, a `then` block fires exactly once with the value iff the future resolves, a `catch` block exactly once with the error iff it rejects, an `always` block exactly once with exactly one of value/error if settled, and none fires if the future never settles |
| `FutureCore.EventsOfDeliver` | Sources/Future/Future.swift:87-88 | with distinct ids, the events a registered block receives are exactly its own delivery |
| `FutureCore.DeliverInRegistrationOrder` | Sources/Future/Future.swift:88 | when every block listens on the outcome, the k-th event is the k-th registered block's call |
| `FutureCore.SettledPrefix` | Sources/Future/Future.swift:82-85 | after a settlement, further registrations never count as another settlement and every one of them is kept as a registered block |
| `FutureCore.HoldingIsRun` | Sources/Future/Future.swift:81-99 | a future that holds `r` with nothing registered is exactly the state reached by settling a new future with `r`, whatever is registered afterwards |
| `FutureCore.RegisterOnHolding` | Sources/Future/Future.swift:110-164 | registering blocks on a future that holds `r` is the run that settles with `r` first: it keeps `r`, and its trace is each block, in registration order, given `r` (nothing while pending) |
| `FutureCore.RegistrationsOnly` | Sources/Future/Future.swift:110-164 | `then`/`catch`/`always` never settle a future |
| `FutureCore.SettleBeforeOrAfter` | Sources/Future/Future.swift:81-164 | blocks registered before the settlement and blocks registered after it receive the same calls, in registration order, and the same outcome is held |
| `FutureCore.SettledIsFinal` | Sources/Future/Future.swift:82-85 | a settlement attempt on a settled future leaves the whole state (value, error, both lists, trace) unchanged |
| `Futures.ResultCollection.Get` | Sources/Future/Futures.swift:30-32 | the subscript is defined exactly on `0 <= index < rawValue.count` and returns that element |
| `Futures.ErrorCollection.Get` | Sources/Future/Futures.swift:51-53 | the subscript is defined exactly on `0 <= index < rawValue.count` and returns that element |
| `Futures.Collector.constructor` | Sources/Future/Futures.swift:66-68 | empty collections, the input count, and the parent's resolver |
| `Futures.Collector.Complete` | Sources/Future/Futures.swift:71-86 | the `always` callback of `all` (and of `any`, lines 103-118): appends to exactly one collection; when the count reaches the input count the parent takes the transition the policy decides and the resolver is spent; otherwise the parent is untouched |
| `Futures.Collector.Deliver` | Sources/Future/Futures.swift:71 | `always` passes (value, nil) or (nil, error), so the collected lists and the parent follow one more completion |
| `Futures.Collect` | Sources/Future/Futures.swift:64-89 | after registration and the later completions, the parent is a fresh future with no blocks registered and nothing fired, holding exactly `Aggregate(policy, count, completion order)` and never both a value and an error (`Holding`) |
| `Futures.All` | Sources/Future/Futures.swift:64-89 | the parent of `all` is fresh (callers can register on it) and holds exactly `Aggregate(AllPolicy, …)`, alone; with no inputs it stays pending |
| `Futures.Any` | Sources/Future/Futures.swift:96-121 | the parent of `any` is fresh and holds exactly `Aggregate(AnyPolicy, …)`, alone; with no inputs it stays pending |
| `Futures.Forward` | Sources/Future/Futures.swift:132-138 | the `then`/`catch` blocks of `first`: the resolver is spent, and the parent takes the outcome if the resolver was not already spent |
| `Futures.First` | Sources/Future/Futures.swift:128-141 | the parent of `first` is fresh and holds exactly the outcome of the first completion, alone; every later completion leaves it unchanged |
| `Futures.PartitionCounts` | Sources/Future/Futures.swift:72-78 | each completion lands in exactly one collection, so `results.count + errors.count` is the number of completions; no errors iff all resolved, no results iff all rejected |
| `Futures.SuccessesInOrder` | Sources/Future/Futures.swift:72-73 | when every completion resolved, the results are their values in completion order |
| `Futures.FailuresInOrder` | Sources/Future/Futures.swift:74-76 | when every completion rejected, the errors are theirs in completion order |
| `Futures.AllDecision` | Sources/Future/Futures.swift:79-84 | once n completions are in, `all` resolves iff none failed (with all n values, in order), otherwise rejects with every collected error (1 to n of them) |
| `Futures.AnyDecision` | Sources/Future/Futures.swift:111-116 | once n completions are in, `any` rejects iff all failed (with all n errors, in order), otherwise resolves with the possibly partial results |
| `Futures.AggregateExtend` | Sources/Future/Futures.swift:78-79 | a completion changes the parent's outcome only when it brings the count to the input count |
| `Futures.CombinatorSettlesIffAllCompleted` | Sources/Future/Futures.swift:68-79 | for possible completions, the count never exceeds the number of inputs and reaches it iff every input completed; so `all`/`any` settle iff the list is non-empty and every input completed |
| `Futures.SubsetCardinality` | Sources/Future/Futures.swift:78-79 | a subset of the pending inputs is no larger than that set, and is the same size exactly when it covers every pending input (the counting step behind the settle condition) |
| `Futures.FirstEarliestSettledWins` | Sources/Future/Futures.swift:131-138 | when inputs are already settled at registration, the earliest one in array order decides `first` |
| `Futures.FirstLaterWins` | Sources/Future/Futures.swift:131-138 | when no input is settled at registration, the first later completion decides `first` (pending forever if there is none) |
| `Futures.SettledOutcomesCount` | Sources/Future/Futures.swift:70-71 | every input is either settled at registration or pending, so the two counts add up to `futures.count` |
| `Futures.LaterIndicesCount` | Sources/Future/Futures.swift:71 | completions of distinct inputs name as many inputs as there are completions |
| `Scenarios.ChainedThenSeesValue` | Tests/FutureTests/FutureTests.swift:46-57 | `then(h1).then(h2).catch(h3)` on a future resolved with true: h1 and h2 get true, h3 never runs |
| `Scenarios.RejectedFutureSkipsThen` | Tests/FutureTests/FutureTests.swift:32-43 | on a future rejected with `.failure`, `then` never runs and `catch` gets `.failure` |
| `Scenarios.ThenBeforeResolution` | Tests/FutureTests/FutureTests.swift:60-77 | a `then` registered while pending runs once, at resolution, with the value |
| `Scenarios.AlwaysGetsOneSide` | Tests/FutureTests/FutureTests.swift:79-97 | `always` gets (nil, error) on a rejected future and (value, nil) on a resolved one |
| `Scenarios.CompletionOrders` | Tests/FutureTests/FutureAllTests.swift:23-31 | the first input, settled in its initializer, completes before the delayed one |
| `Scenarios.AllScenarios` | Tests/FutureTests/FutureAllTests.swift:23-95 | `all` resolves with 2 results; rejects with 1 error; rejects with 2 errors |
| `Scenarios.AnyScenarios` | Tests/FutureTests/FutureAnyTests.swift:23-95 | `any` resolves with 2 results; resolves with 1 result; rejects with 2 errors |
| `Scenarios.AllTestsThroughFutures` | Tests/FutureTests/FutureAllTests.swift:23-95 | `Futures.all(...).then(1).catch(2)`: only `then` runs with 2 results; only `catch` with 1 error; only `catch` with 2 errors |
| `Scenarios.AnyTestsThroughFutures` | Tests/FutureTests/FutureAnyTests.swift:23-95 | `Futures.any(...).then(1).catch(2)`: `then` with 2 results; `then` with 1 result; `catch` with 2 errors |
| `Scenarios.FirstTestsThroughFutures` | Tests/FutureTests/FutureFirstTests.swift:22-64 | `Futures.first(...).then(1).catch(2)`: `then` with 1; `catch` with `.failure` |
| `Scenarios.FirstScenarios` | Tests/FutureTests/FutureFirstTests.swift:22-64 | `first` settles with 1 over a later 2, and with `.failure` over a later `.otherFailure` |

## Left out

- The blocks are abstract identifiers. User closures, their side effects and reentrancy (a block that settles or registers on the same future while it fires) are not modelled.
- Thread safety and concurrent calls are not modelled. The library has no locks and assumes one execution context; the model is sequential.
- `weak` and ARC lifetime of `Resolver._future` (Sources/Future/Future.swift:32) are not modelled. `_future` is a nullable reference that is cleared after use, and deallocation is not modelled.
- `DispatchQueue.main.asyncAfter` timing in the tests becomes a later event in the completion sequence.
- The initializer block of `Future.init` is the caller's code. `NewFuture` returns the future and its resolver, and the block is whatever the caller then does with the resolver.
- The combinators take each input future as its state at registration plus later completion events, not as a live `Future` object. So they do not model the observer entries `all`/`any`/`first` append to the inputs' own lists, or aliasing of the same input future twice in the array. That aliasing appears in the model as two indices completing at the same moment.
- Futures.Collect: returns the parent future after the later completions have run, whereas the library returns it before them, so callers register their blocks before the later completions. The returned parent is `Holding` its outcome with nothing registered, and `SettleBeforeOrAfter` proves that registering before or after the settlement gives the same outcome and the same calls in the same order.
- Futures.First: the same ordering simplification as `Futures.Collect`.
- Sources/Future/NoError.swift (an uninhabited error type) has nothing to prove and is not part of this model. The `Swift.Error` conformance of `ErrorCollection` is type plumbing and is not modelled.
