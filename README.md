# Aspect interception sample, modelled in Dafny

This project models the core of a small C# sample that intercepts calls with aspects.
A proxy stands in front of a repository object. On every call it finds the aspects
declared on the called method. It runs each aspect's `Before` in list order, invokes
the real method once on a new repository, runs each `After` in the same order, and
returns the real result. The sample has two aspects:

- The performance counter draws a GUID token when it is created. It stores a start
  time under that token in a shared dictionary before the call, and reads and
  removes it after the call.
- The logger writes to the console.

The repository keeps its entities in a shared in-memory list.

Modules, one per component:

- `Errors` (`errors.dfy`): the exceptions the core can raise, as a `Result` datatype.
  `DuplicateToken` is `Dictionary.Add` on a present key. `MissingCorrelation` is the
  dictionary indexer on an absent key. `ArgumentOutOfRange` is the list indexer or
  `RemoveAt` at a bad position.
- `Correlation` (`correlation.dfy`): the token-to-timestamp dictionary. It is a class
  holding a `map`, with `Put` (Add) and `Take` (indexer, then Remove) methods. Pure
  functions `Added` and `Taken` specify them.
- `Aspects` (`aspects.dfy`): `Aspect = PerformanceCounter(counterId) | Log`, with
  their `Before`/`After` hooks acting on a correlation store.
- `Repo` (`repository.dfy`): the entity list, as a `DB` object, and the
  `Repository` class whose methods change the list in place. `Perform` is the pure
  meaning of one call on the repository. `ReIndex` is a method that changes nothing.
- `Interception` (`interception.dfy`): the proxy, as a `Dispatcher` class. It owns
  the store and the list and keeps a ghost trace of `Before(i)`, `Invoked` and
  `After(i)` events. `Intercept` specifies one call. The lemmas beside it state the
  ordering, the single invocation, the pass-through of the result, the fail-fast
  behaviour and what happens to the store.

The model follows the code wherever the code and the design intent differ:

- The code has no `try`/`finally`. An exception from a `Before` hook, the target or an
  `After` hook leaves `Invoke` at once and reaches the caller. Neither the result nor
  the remaining hooks survive it. So an `After` failure does not let the call still
  return its result.
- The store is not cleaned up on failure. Entries written by earlier `Before` hooks
  stay in the store (`DuplicateTokenLeaksEntry`), and so do entries of a call whose
  target threw (`TargetFailureLeaksEntry`).
- `Delete(id)` and `Update(id, …)` treat `id` as a list position, not as an entity
  ID (`DeleteTakesPositionNotId`). After a delete, `Add` can give out an ID that is
  already in use (`IdsRepeatAfterDelete`).

## Model

| member | source | states |
|---|---|---|
| `Correlation.Added` | Program.cs:318 | `Dictionary.Add` fails with `DuplicateToken` exactly when the token is present. Otherwise it adds that one key with the payload and keeps every other entry. |
| `Correlation.Taken` | Program.cs:305-314 | The indexer-then-Remove fails with `MissingCorrelation` exactly when the token is absent. Otherwise it returns the stored payload and removes exactly that key. |
| `Correlation.TakeUndoesAdd` | Program.cs:305-320 | A successful Add followed by the matching take returns the payload and the store's prior contents. |
| `Correlation.CorrelationStore.constructor` | Program.cs:239-252 | The store starts empty. |
| `Correlation.CorrelationStore.Put` | Program.cs:318 | Succeeds exactly when the token is absent. The new contents are `Added`. On failure the contents are unchanged. |
| `Correlation.CorrelationStore.Take` | Program.cs:307-313 | Succeeds exactly when the token is present. It returns the payload and the contents become `Taken`. On failure the contents are unchanged. |
| `Correlation.PairedUse` | Program.cs:305-320 | Put and Take on a fresh token read back the payload and leave the store exactly as it was. |
| `Aspects.BeforeHook` | Program.cs:287-320 | A performance counter's `Before` stamps its token into the store and fails on a duplicate. The logger's `Before` (lines 287-290) leaves the store alone and never fails. |
| `Aspects.AfterHook` | Program.cs:263-314 | A performance counter's `After` takes its token out of the store and fails if it is missing. The logger's `After` (lines 263-285) leaves the store alone and never fails. |
| `Aspects.TokenSet` | Program.cs:298-303 | The counter tokens of an aspect list are exactly the tokens of its `PerformanceCounter` elements. |
| `Aspects.DistinctTokensMeans` | Program.cs:298-303 | `DistinctTokens` holds exactly when no two positions carry counters with the same token. |
| `Repo.DB.constructor` | Program.cs:69-84 | The entity list starts empty. |
| `Repo.RemovedAt` | Program.cs:114 | `RemoveAt(i)` shortens the list by one. Elements before `i` stay in place and later ones shift down by one, keeping their order. |
| `Repo.Repository.constructor` | Program.cs:220 | A new repository works on the one shared list. |
| `Repo.Repository.Add` | Program.cs:94-106 | Appends and returns an entity with `ID == old length + 1` and the given names. Earlier entries are unchanged. |
| `Repo.Repository.Delete` | Program.cs:110-122 | Fails with `ArgumentOutOfRange` exactly when `id` is not a valid position, leaving the list unchanged. Otherwise it removes position `id` and returns true. |
| `Repo.Repository.GetAll` | Program.cs:126-129 | Returns the current list. |
| `Repo.Repository.ReIndex` | Program.cs:133-136 | Changes nothing: it has no `modifies` clause and its contract keeps the list as it was. |
| `Repo.Repository.Update` | Program.cs:140-146 | Fails exactly when `id` is not a valid position. Otherwise the list is the old one without position `id`, followed by a new entity whose ID is the old length. |
| `Repo.AddAppends` | Program.cs:97-105 | Add grows the list by one, keeps the old prefix, and returns the appended entity, whose ID is old length + 1. |
| `Repo.DeleteRemovesPosition` | Program.cs:110-122 | Delete at a valid position returns true, shortens the list by one and keeps the others in order. At any other `id` it fails and changes nothing. |
| `Repo.UpdateReplaces` | Program.cs:140-146 | Update keeps the length, drops position `id` and puts the new entity last with `ID == old length`. At a bad `id` it fails and changes nothing. |
| `Repo.ReIndexYieldsNoValue` | Program.cs:133-136 | Through the dispatcher, `ReIndex` returns no value (null in the C# code) and leaves the list unchanged. |
| `Repo.AddKeepsDense` | Program.cs:97-104 | If IDs equal positions plus one, Add keeps it so, and such IDs are pairwise distinct. |
| `Repo.DeleteTakesPositionNotId` | Program.cs:110-115 | On such a list, `Delete(id)` removes the entity with ID `id + 1`. The entity with ID `id` stays. |
| `Repo.IdsRepeatAfterDelete` | Program.cs:97-115 | Add, Add, Delete(0), Add leaves two entities that both have ID 2. |
| `Interception.BeforesComplete` | Program.cs:201-202 | The before-loop runs to the end exactly when the counters' tokens are distinct and absent from the store. It then adds exactly those tokens and keeps all other entries. |
| `Interception.AftersTake` | Program.cs:212-213 | With distinct tokens all present, the after-loop runs to the end and removes exactly those tokens. |
| `Interception.StoreRestored` | Program.cs:201-213 | After a complete before-loop, the after-loop always completes and returns the store to its contents before the call. |
| `Interception.BeforeStopsOnDuplicate` | Program.cs:201-202 | A before-loop can only stop at a performance counter whose token was already in the store, after all earlier hooks ran. |
| `Interception.SuccessfulCall` | Program.cs:191-216 | A successful call returns the target's own result and list, and the store is as before. The trace is `Before(0..n-1)`, then `Invoked`, then `After(0..n-1)` in the same order. |
| `Interception.CallSucceeds` | Program.cs:191-216 | With distinct fresh tokens, a call succeeds exactly with the target's result whenever the target does. |
| `Interception.InvokedOnce` | Program.cs:201-207 | The trace holds `Invoked` once if every `Before` succeeded, and never otherwise. |
| `Interception.BeforeFailureSkipsTarget` | Program.cs:201-207 | A failing `Before` is returned to the caller. The list is untouched, there is no `Invoked` and no `After`, and earlier entries stay in the store. |
| `Interception.TargetFailureSkipsAfters` | Program.cs:207-213 | A target failure is returned unchanged and no `After` runs. Every counter's token stays in the store. |
| `Interception.NoAspectsIsTransparent` | Program.cs:191-223 | With no aspects, a call is exactly a direct call on the target. |
| `Interception.TargetFailureLeaksEntry` | Program.cs:201-213 | `Delete(0)` on an empty list behind `[PerformanceCounter, Log]` fails and leaves the counter's entry in the store. |
| `Interception.DuplicateTokenLeaksEntry` | Program.cs:201-202 | Two counters with one token: the second `Before` fails, the target is not invoked, and the first entry is orphaned. |
| `Interception.TwoCreations` | Program.cs:94-106 | Two creations on an empty repository with fresh tokens return IDs 1 and 2. Each call has the trace `Before(0), Before(1), Invoked, After(0), After(1)`, and each leaves the store empty. |
| `Interception.Dispatcher.constructor` | Program.cs:170-184 | The proxy starts with its own empty store, empty list and empty trace. |
| `Interception.Dispatcher.InvokeTarget` | Program.cs:218-223 | Calls the operation once on a new repository. The result and the new list are those of `Perform`, and a void operation yields `NoValue`. |
| `Interception.Dispatcher.RunHooks` | Program.cs:201-213 | One loop over the aspects, in list order, stopping at the first failing hook. The store, result and trace are those of `RunPhase`. |
| `Interception.Dispatcher.Invoke` | Program.cs:191-216 | One intercepted call. The result, store, list and trace extension are exactly those of `Intercept`. |

## Left out

- The transparent proxy (`RealProxy`, `GetTransparentProxy`, `GenerateProxy`) is runtime type synthesis. `Dispatcher` is an explicit object that takes the call as a `Call` value.
- Reflection (`GetMethod`, `GetCustomAttributes`, `MethodBase.Invoke`) is left out. The aspect list is an input. The order of custom attributes is not fixed by .NET, so lemmas hold for any list.
- An unknown operation cannot be expressed. `Call` holds exactly the five operations of `IRepository`, and the proxy only receives those.
- `MethodBase.Invoke` wraps a target exception in `TargetInvocationException`. Here the target's error value is passed through as it is.
- `DateTime.Now`, the service time and its `TotalMilliseconds` arithmetic are left out. One `now` value per call stands for every start time stamped in that call.
- `Guid.NewGuid()` is left out. Each `PerformanceCounter` value carries its token. Freshness and distinctness are hypotheses of `CallSucceeds`, not guarantees.
- Console output of both aspects and the log text are left out. `LogAttribute.After` would throw on a null argument, but strings here cannot be null.
- `Entity.ToString` (JSON serialisation) is left out.
- `Thread.Sleep` in `ReIndex` is left out. `ReIndex` changes nothing.
- `Main`'s demo flow is not modelled as a method. `TwoCreations` states what its first two calls produce.
- Concurrency on the shared dictionary and list, and their lazy static initialisation, are left out. One explicitly owned instance of each starts empty.
- Repo.Entity: an entity is a value here, while the C# `Entity` is a class with public setters. `Add` returns the stored object itself and `GetAll` hands out the live list of those objects, so a caller of the C# code can rewrite a stored entity's ID or names. The model does not capture that aliasing. So in the C# program, the ID statements of `AddKeepsDense` and `DeleteTakesPositionNotId`, and `Dense` itself, hold only when no caller changes an entity after `Add`.
- Repo.Repository.Update: a null entry at position `id` cannot occur in the model. In the C# code, a null there makes `Update` skip `Delete` but still call `Add`, so the list grows by one. That branch is not modelled, for the same reason as the next line.
- Repo.Repository.GetAll: returns a snapshot of the list, not the live list. Callers cannot alias it or insert nulls through it. So `Delete`'s `false` branch, which needs a null entry, is not reachable in the model.
- Repo.Repository.Add: the ID is an unbounded integer. `Count + 1` cannot overflow in .NET, because a list cannot hold `int.MaxValue` elements.
