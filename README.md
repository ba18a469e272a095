# Synchronous event emitter, modelled in Dafny

This project models `Emitter.js`, a mixin that lets objects emit events
synchronously. An emitter holds a table `_events` from event name to the
ordered list of listener references registered for that name. The reserved
key `'_all_'` is the wildcard channel, and a `null` event name stands for it.

- `on(name, fn)` appends `fn` to the name's list. The list is created empty
  first if the key is absent.
- `off(name, fn)` scans the name's list and splices out the first entry
  identical (`===`) to `fn`.
- `_emit(name, data)` calls every listener of the name's list in order, then
  every listener of the wildcard list in order. Each call receives
  `(data, name)`. Each call is guarded. A listener that throws is reported to
  the `onError` handler when one was configured, and dispatch goes on.

Files:

- `emitter.dfy`, module `EventEmitter`. It holds the datatypes and the pure
  specification of the table and of dispatch (`Register`, `Unregister`,
  `RemoveFirst`, `FirePhase`, `EmitTrace`) with their lemmas. It also holds
  the class `Emitter`. Its field `events` is the `_events` table. Its field
  `onEmitError` is the stored `onError`. Its methods `On`, `Off`,
  `FireEvents` and `Emit` follow the source's code step by step. `Off` and
  `FireEvents` are index loops.
- `scenarios.dfy`, module `EmitterScenarios`. It restates tests of
  `Emit.spec.js` as client methods. Each one is proved from the contracts of
  `Emitter` alone.

Modelling choices:

- Listeners and error handlers are opaque references (`nat`), compared by
  equality as `===` compares references.
- Whether a listener throws is the predicate `throws`, given to dispatch.
- A dispatch returns its trace of effects. `Call(listener, data, name)` is
  one listener call. `HandleError(handler, culprit)` is one call of the error
  handler. `Called` and `Reported` project the trace onto the listeners
  called and onto the failures reported.
- `options.onError` is `None` when it is absent or falsy. It is stored only
  when truthy. It is invoked only when it is a function (`Callable`), as the
  `typeof` test in `fireEvents` requires.
- The wildcard key is the literal string `"_all_"`. So `on('_all_', fn)` is
  the same as `on(null, fn)`, and `_emit('_all_', d)` runs the wildcard list
  twice. A caller cannot use `'_all_'` as an ordinary event name: that
  literal key is the wildcard channel.

## Model

| member | source | states |
|---|---|---|
| `EventEmitter.Emitter.constructor` | Emitter.js:10-15 | the table starts empty; `onError` is stored exactly when the options object and its `onError` are truthy, and a handler is then active exactly when it is a function |
| `EventEmitter.Emitter.Handler` | Emitter.js:23-25 | a failure is reported to a handler exactly when the stored `onError` is a function, and then to that function |
| `EventEmitter.Register` | Emitter.js:52-63 | `on` adds the key if absent, the key's list grows by exactly `fn` at its end, and every other key's list is unchanged |
| `EventEmitter.Emitter.On` | Emitter.js:52-63 | the new table is `Register` of the old one under the key of the name (`null` means `'_all_'`); the error handler is unchanged |
| `EventEmitter.RemoveFirst` | Emitter.js:78-83 | removing `fn` from a list leaves it unchanged when `fn` is absent, and otherwise shortens it by one and removes exactly one occurrence of `fn` (as a multiset) |
| `EventEmitter.RemoveFirstAt` | Emitter.js:78-82 | when position `i` holds the first occurrence of `fn`, removal yields the entries before `i` followed by those after it, in their original order |
| `EventEmitter.Unregister` | Emitter.js:71-85 | `off` never adds or deletes a key, changes only the named list by removing its first `fn`, shortens it by one when `fn` is present, and leaves the table unchanged when `fn` or the key is absent |
| `EventEmitter.Emitter.Off` | Emitter.js:71-85 | the index loop with `splice` and `break` leaves the table equal to `Unregister` of the old table under the key of the name; the error handler is unchanged |
| `EventEmitter.NullIsWildcard` | Emitter.js:52-75 | `on(null, fn)` and `on('_all_', fn)` give the same table, and so do `off(null, fn)` and `off('_all_', fn)` |
| `EventEmitter.RegisterThenUnregister` | Emitter.js:52-85 | `off(k, fn)` right after `on(k, fn)`, with `fn` not yet in `k`'s list, gives every list back; the key itself stays, possibly with an empty list |
| `EventEmitter.FirePhaseAppend` | Emitter.js:19-27 | the trace of firing a list is the trace of its first part followed by that of the rest, which is how the loop builds it one entry at a time |
| `EventEmitter.PhaseCalls` | Emitter.js:19-21 | one phase calls exactly the entries of its list, each once and in list order, whichever of them throw |
| `EventEmitter.PhaseReports` | Emitter.js:22-26 | one phase reports each throwing entry once and in order when a handler is configured, and reports nothing otherwise |
| `EventEmitter.PhaseArguments` | Emitter.js:21 | every call of one phase passes `(data, eventName)` |
| `EventEmitter.PhaseReportsFollowCalls` | Emitter.js:20-26 | in one phase each handler call goes to the configured handler and immediately follows the call of the listener that threw |
| `EventEmitter.Emitter.FireEvents` | Emitter.js:17-28 | the loop over one list, with its length fixed at the start, produces exactly the trace `FirePhase` of that list with the emitter's handler |
| `EventEmitter.EmitCalls` | Emitter.js:37-44 | `_emit` calls the name's list and then the wildcard list, each in list order |
| `EventEmitter.EmitReports` | Emitter.js:37-44 | `_emit` reports each throwing call once, in call order, when a handler is configured, and never calls a handler otherwise |
| `EventEmitter.EmitArguments` | Emitter.js:39-42 | every call of `_emit`, wildcard listeners included, receives `(data, eventName)` with the real name and not `'_all_'`; every report follows the failing call |
| `EventEmitter.FailuresDoNotStopDispatch` | Emitter.js:19-27 | which listeners throw, and whether there is a handler, does not change the calls made; their number is the sum of the two lists' lengths |
| `EventEmitter.WildcardNameFiresTwice` | Emitter.js:38-42 | `_emit('_all_', d)` calls the wildcard list twice, once as the exact-name phase and once as the wildcard phase |
| `EventEmitter.DuplicateRegistrationFiresTwice` | Emitter.js:62 | registering one reference twice adds two calls of it to an emit of that name, and two more when the key is the wildcard key |
| `EventEmitter.UnregisteredWildcardIsSilent` | Emitter.js:71-85 | after `off(null, fn)` removes a wildcard listener registered once, no emit of a name it is not registered under calls it |
| `EventEmitter.Emitter.Emit` | Emitter.js:37-44 | `_emit` produces the trace `EmitTrace` of the table; it calls the name's list and then the wildcard list, passes `(data, eventName)` to each, and reports exactly the throwing calls when a handler is set |
| `EmitterScenarios.Basic` | Emit.spec.js:12-17 | a listener on `'test'` is called once with `('hello', 'test')` |
| `EmitterScenarios.MultipleListeners` | Emit.spec.js:25-37 | both listeners of the emitted name are called, in registration order and with the data and name; the listener of another name is not |
| `EmitterScenarios.SomeThrow` | Emit.spec.js:155-170 | a throwing listener registered twice does not stop the listener after it; with `onError` set the handler is called twice, and without it never |
| `EmitterScenarios.ListenAll` | Emit.spec.js:50-61 | a wildcard listener is called for each emitted name with that name |
| `EmitterScenarios.RemovesTheCorrectOne` | Emit.spec.js:73-86 | removing the second of three listeners leaves the first and third, in order |
| `EmitterScenarios.UnlistenAll` | Emit.spec.js:88-103 | after `off(null, sp)` only the other wildcard listener is called |

## Left out

- Listener bodies and the error handler's body. They are arbitrary callables, so the model records only their calls in the trace.
- A throwing `onError`. The source calls it inside the `catch` block (Emitter.js:24) with no guard, so its exception escapes `_emit`, ends the dispatch and reaches the caller. The model assumes the handler returns, so `EmitCalls`, `FailuresDoNotStopDispatch` and `Emitter.Emit` describe only dispatches whose handler returns.
- The exception object passed to `onError`. A report records the handler and the listener that threw.
- Listeners that throw on some calls and not on others. `throws` depends only on the listener reference.
- Reentrant mutation during dispatch. `fireEvents` reads the list length once and indexes the live list. A listener that calls `on` or `off` mid-dispatch can shift later entries or leave an `undefined` slot. The model assumes listeners do not re-enter the emitter, so each phase runs over the list as it was at the start.
- JavaScript object-prototype quirks. `_emit` tests the truthiness of `_events[name]`, while `on` and `off` use `hasOwnProperty`. Names such as `'toString'` therefore behave differently in the source. The model treats the table as a plain map, so a present key is a list and an absent key has no listeners.
- `_emit(null, data)`. JavaScript turns the `null` key into the string `'null'`. The model's `Emit` takes a string name.
- The module wrapper and `module.exports`.
- The aliases `listen`, `unlisten`, `_broadcast`, `emit` and `_on` that `Emit.spec.js` calls. `Emitter.js` does not define them. The scenarios use `On`, `Off` and `Emit` in their roles. The "Listen all" test calls `emit(null, sp)` for registration and `_on` for dispatch.
- The second `onError` test (Emit.spec.js:172-182) and the `unlisten` tests repeated under the `onError` heading are not restated as scenarios. They follow from the same contracts as `SomeThrow`, `RemovesTheCorrectOne` and `UnlistenAll`.
