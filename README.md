# pymel.core plugin bookkeeping, in Dafny

This project models how `pymel.core` keeps its namespaces in step with the
Maya plug-ins that are loaded and unloaded. When Maya reports that a plug-in
was loaded, `_pluginLoaded` does the following:

- it reads the plug-in name out of the callback's argument tuple;
- it starts a fresh `_pluginData` record;
- it asks Maya for the plug-in's commands, and wraps and binds each one;
- it asks Maya for the plug-in's dependency-node types;
- it hands those types to `addPluginPyNodes`.

`addPluginPyNodes` walks each type's inheritance chain from `dependNode` into
the node-type hierarchy, and mirrors the node classes into `pymel.all` when
that module is imported. While Maya is reading or opening a scene, the walk
is deferred to a one-shot "SceneOpened" callback.

`_pluginUnloaded` pops the record. It then removes the recorded commands and
the recorded node types. `_installCallbacks` registers the two host callbacks
at most once each, then replays the load handler for every plug-in that was
already loaded.

The model has three layers:

- **Data** (`types.dfy`, module `PluginTypes`). The record, the host's
  answers (`Host`), the exceptions that can escape a handler, and the
  process-wide `State`. Its invariant `ValidState` says three things: the
  empty name is never tracked, callback ids are fresh, and each host callback
  is registered at most once.
- **Specification functions.**
  - `bridge.dfy` (`EventBridge`): reading the plug-in name out of the
    arguments.
  - `hierarchy.dfy` (`TypeHierarchy`): the chain walk and the `pymel.all`
    writes.
  - `registry.dfy` (`PluginRegistry`): each handler as a function from the old
    state to the new state plus the exception that escapes.
  - `properties.dfy` (`RegistryProperties`) and `scenario.dfy`
    (`SampleScenario`): lemmas about those functions.
- **Imperative code** (`core.dfy`, class `Core.Bookkeeping`). Its fields are
  the module globals, which the handlers update in place. Each handler is a
  method whose loops are proved to leave exactly the state the specification
  function gives. The methods that run the handlers also keep `ValidState`.

Maya's queries and the factory functions are not part of this model. Each
one becomes a field of `Host`, read when the handler runs:

- `pluginInfo(..., command=1)` and `pluginInfo(..., dependNode=1)`;
- `getInheritance`, `functionFactory`, `getCmdInfoBasic`;
- the class name that `addPyNode` returns;
- whether `removePyNode` raises;
- `MFileIO.isReadingFile` and `MFileIO.isOpeningFile`;
- the Maya version tests;
- whether `pymel.all` is in `sys.modules`;
- `pluginInfo(q=1, listPlugins=1)`.

Registered "SceneOpened" callbacks live in `State.pending`, keyed by the id
the host hands out. The host firing one is `SceneOpened`.

Behaviours of the code that a reader might not expect, all of which the
model follows:

- The node-type query at line 94 is not inside a `try`. When it raises, the
  exception escapes the load handler (`QueryError`). Only the command query
  degrades to "no commands".
- The chain check is `util.isIterable` alone. An empty chain is iterable, so it
  inserts nothing and logs nothing; an unusable chain skips only that type.
- Unload calls `removePyNode` for every recorded node type, with no leaf test
  and no `try`. Ancestors that a chain walk inserted stay after unload.
- `'dependNodes'` is written before any chain is resolved, so unload also
  removes types whose chain could not be resolved.
- Unload has no empty-name check.
- A "SceneOpened" callback that is still pending is not removed by unload.
- Unload reads element 0 of the argument array, which is the plug-in name
  for `[pluginName, pathToPlugin]` but the path for `[pathToPlugin]`. The
  path is not a tracked name, so that unload silently does nothing.

## Model

| member | source | states |
|---|---|---|
| EventBridge.LoadedName | pymel/core/__init__.py:49-55 | the load direction takes element 1 of a string-array payload and a bare argument as is; exactly a too-short array or no argument is `IndexError`; exactly `None` gives no name |
| EventBridge.UnloadedName | pymel/core/__init__.py:145-153 | the unload direction takes element 0 of a string-array payload (the name of `[pluginName, pathToPlugin]`, the path of `[pathToPlugin]`) and a bare argument as is; an empty array or no argument is `IndexError` |
| EventBridge.DirectionsDiffer | pymel/core/__init__.py:147-153 | on the same two-element array the two directions read opposite ends, and they agree on a bare name |
| PluginRegistry.BindCommands | pymel/core/__init__.py:78-91 | the command loop touches only the command state: `_pluginData`, the hierarchy, callbacks and flags are unchanged, and `pymel.all` is unchanged when it is not imported |
| PluginRegistry.DropCallback | pymel/core/__init__.py:99-105 | an untracked name, a missing `'callbackId'` or a `None` id is the caught `KeyError` or a no-op; a registered id is removed; an id no longer registered raises with the state unchanged |
| PluginRegistry.RunBatch | pymel/core/__init__.py:98-127 | the batch keeps the tracked names, only removes callbacks, leaves commands and registrations alone, and completes exactly when the plug-in is still tracked and the callback step did not raise (when the plug-in is no longer tracked, the `'dependNodes'` write raises `KeyError`); when it completes, the record holds `'dependNodes'`, the hierarchy is the batch over the node types, and `pymel.all` gains exactly one node class per resolvable chain element's class name when imported |
| PluginRegistry.LoadCommands | pymel/core/__init__.py:65-91 | the record is replaced by one holding `'commands'` only when the query returned a non-empty list; the hierarchy, callbacks and flags are unchanged |
| PluginRegistry.RemoveCommands | pymel/core/__init__.py:163-171 | the unload command loop changes only the wrapped set and the module namespace |
| PluginRegistry.RemoveNodes | pymel/core/__init__.py:174-178 | the unload node loop changes only the hierarchy |
| TypeHierarchy.InsertChainKeys | pymel/core/__init__.py:120-124 | a chain walk adds exactly the chain's elements and keeps every existing parent link |
| TypeHierarchy.InsertChainParent | pymel/core/__init__.py:120-124 | a new chain element gets the previous element as parent; the first one gets the start parent |
| TypeHierarchy.InsertChainNoOp | pymel/core/__init__.py:122-124 | walking a chain whose elements are all present changes nothing |
| TypeHierarchy.InsertChainKeepsClosed | pymel/core/__init__.py:120-124 | a chain walk starting at a present parent or at `dependNode` leaves every parent link naming a present node type or `dependNode` |
| TypeHierarchy.InsertTypesKeepsClosed | pymel/core/__init__.py:110-124 | the batch, whose walks all start at `dependNode`, leaves no dangling parent link |
| TypeHierarchy.InsertTypesKeys | pymel/core/__init__.py:110-124 | the batch adds exactly the elements of the resolvable chains and keeps every existing parent link |
| TypeHierarchy.InsertTypesNoOp | pymel/core/__init__.py:110-124 | the batch over types whose chains are already present changes nothing |
| TypeHierarchy.InsertTypesIdempotent | pymel/core/__init__.py:110-124 | running the batch twice gives the hierarchy of running it once |
| TypeHierarchy.InsertTypesAppend | pymel/core/__init__.py:110-124 | the batch over a concatenation is the batch over each part in turn |
| TypeHierarchy.InsertTypesSkipsUnresolvable | pymel/core/__init__.py:112-115 | a type whose chain is not iterable is skipped and nothing else: the batch equals the batch without it |
| TypeHierarchy.PublishChainClosedForm | pymel/core/__init__.py:122-127 | one chain publishes exactly one node class per element's class name into `pymel.all` |
| TypeHierarchy.PublishTypesClosedForm | pymel/core/__init__.py:110-127 | the batch publishes exactly one node class per class name of a resolvable chain element |
| RegistryProperties.RegisterHooksKeepsValid | pymel/core/__init__.py:186-221 | registration keeps the invariant, sets both flags and leaves exactly one load callback registered |
| RegistryProperties.LoadPluginKeepsValid | pymel/core/__init__.py:65-139 | a load of a non-empty name keeps the invariant |
| RegistryProperties.LoadedKeepsValid | pymel/core/__init__.py:49-139 | the load handler keeps the invariant for every payload |
| RegistryProperties.UnloadedKeepsValid | pymel/core/__init__.py:145-178 | the unload handler keeps the invariant for every payload |
| RegistryProperties.SceneOpenedKeepsValid | pymel/core/__init__.py:98-127 | firing a deferred callback keeps the invariant |
| RegistryProperties.ReplayKeepsValid | pymel/core/__init__.py:224-231 | the replay of pre-loaded plug-ins keeps the invariant |
| RegistryProperties.BindCommandsClosedForm | pymel/core/__init__.py:78-91 | every command joins the wrapped set and `factories.cmdlist`; exactly the commands the factory gave a function for are bound, also in `pymel.all` when imported; a command with no function is skipped |
| RegistryProperties.LoadCommandsClosedForm | pymel/core/__init__.py:65-91 | the whole state after the command part of load, in closed form over the query's answer |
| RegistryProperties.LoadReplacesRecord | pymel/core/__init__.py:65-139 | load replaces the record with one reflecting only the latest queries; it raises exactly when the node-type query raises |
| RegistryProperties.LoadPluginCommandFrame | pymel/core/__init__.py:94-139 | the node-type part of load leaves the module namespace, the wrapped set and `factories.cmdlist` as the command part left them |
| RegistryProperties.LoadSurvivesCommandQueryFailure | pymel/core/__init__.py:67-76 | a failing or empty command query records no `'commands'` and leaves the module namespace, the wrapped set and `factories.cmdlist` unchanged; load does not raise because of it and raises only when the node-type query raises |
| RegistryProperties.DeferredLoadInsertsNothing | pymel/core/__init__.py:129-133 | while a scene is read or opened, nothing is inserted, `pymel.all` receives only the command functions and no node class, and `'dependNodes'` is unset; one callback for the node types is registered under a fresh id, which the record keeps |
| RegistryProperties.FireAfterBusyLoad | pymel/core/__init__.py:98-107 | firing that callback removes its own registration and runs the batch |
| RegistryProperties.DeferredMatchesImmediate | pymel/core/__init__.py:129-139 | when the deferred callback fires right after the load, with the same host answers and no scene being read or opened, the state equals the one an immediate load leaves, except for the spent callback id in the record and the one extra id |
| RegistryProperties.LoadIdleFields | pymel/core/__init__.py:65-139 | every field after a load that does not defer, in closed form |
| RegistryProperties.LoadIdempotent | pymel/core/__init__.py:65-139 | loading the same plug-in twice with the same answers, outside a scene read, leaves the state and outcome of one load |
| RegistryProperties.RemoveCommandsClosedForm | pymel/core/__init__.py:163-171 | unload removes exactly the recorded commands from the wrapped set and the module |
| RegistryProperties.RemoveNodesAll | pymel/core/__init__.py:174-178 | when no removal fails, exactly the recorded node types leave the hierarchy |
| RegistryProperties.RemoveNodesStopsAtFailure | pymel/core/__init__.py:177-178 | the first failing `removePyNode` escapes; the types before it are gone and the rest stay |
| RegistryProperties.UnloadUntrackedIsNoOp | pymel/core/__init__.py:157-160 | unloading an untracked name, or `None`, changes nothing and does not raise |
| RegistryProperties.UnloadEmptyNameIsNoOp | pymel/core/__init__.py:145-160 | with no empty-name check, unloading `""` is still a no-op because the invariant keeps `""` untracked |
| RegistryProperties.UnloadTracked | pymel/core/__init__.py:157-178 | unload pops the record, removes exactly the recorded commands and, when no removal fails, exactly the recorded node types; `pymel.all`, `factories.cmdlist` and callbacks are unchanged |
| RegistryProperties.LoadUnloadRestoresCommands | pymel/core/__init__.py:157-171 | load then unload of a new plug-in whose commands collide with nothing restores `_pluginData`, the wrapped set and the module namespace |
| RegistryProperties.LoadUnloadRestoresHierarchy | pymel/core/__init__.py:174-178 | when the plug-in's node types were absent before, its chains added no other node type and removal succeeds, load then unload restores the hierarchy, whether the batch ran at once or was deferred |
| RegistryProperties.UnloadLeavesDeferredCallback | pymel/core/__init__.py:98-107 | unload during a deferred load leaves the callback registered; when it fires, the `'dependNodes'` write raises `KeyError` and the callback stays |
| RegistryProperties.ReloadWhilePendingOrphansCallback | pymel/core/__init__.py:99-105 | a second deferred load while the first is pending: the first callback to fire removes the newer one and stays registered itself; firing it again raises on the stale id |
| RegistryProperties.LoadPluginTracks | pymel/core/__init__.py:65 | load tracks the loaded name, drops no tracked name, and leaves registrations alone |
| RegistryProperties.ReplayTracksAll | pymel/core/__init__.py:224-231 | the replay registers nothing and, unless a load raised, tracks every non-empty pre-loaded name |
| RegistryProperties.InstallRegistersOnce | pymel/core/__init__.py:191-221 | installation sets both flags and registers one load callback, an unload callback only from 2009 on, and nothing on a second run |
| RegistryProperties.PayloadShapesAgree | pymel/core/__init__.py:51-55 | a bare name and each direction's two-element array with the name where that direction reads it have the same effect |
| RegistryProperties.LoadIgnoresEmptyName | pymel/core/__init__.py:57-58 | load with no name or an empty name changes nothing; an array too short for the load direction raises `IndexError` with nothing changed |
| RegistryProperties.RunBatchKeepsClosed | pymel/core/__init__.py:98-127 | the batch leaves no dangling parent link in the hierarchy |
| RegistryProperties.LoadKeepsClosed | pymel/core/__init__.py:94-139 | a load leaves no dangling parent link in the hierarchy |
| RegistryProperties.SceneOpenedKeepsClosed | pymel/core/__init__.py:130-132 | a fired deferred callback leaves no dangling parent link in the hierarchy |
| RegistryProperties.RemoveNodesCanOrphan | pymel/core/__init__.py:177-178 | removal has no leaf test: for any hierarchy, removing a type (other than `dependNode`) that another type names as parent leaves that link dangling |
| SampleScenario.SharedBaseSurvivesUnload | pymel/core/__init__.py:120-178 | with `baseNode` already present, load puts only `sampleNode` under it and unload gives back the hierarchy from before |
| SampleScenario.SampleChain | pymel/core/__init__.py:120-124 | the chain `baseNode, sampleNode` puts `sampleNode` under `baseNode` and `baseNode` under `dependNode` |
| SampleScenario.LoadSample | pymel/core/__init__.py:65-139 | loading `sample` binds `doThing` to the factory's function, inserts `sampleNode` under `baseNode` and `baseNode` under `dependNode`, and records both |
| SampleScenario.UnloadSample | pymel/core/__init__.py:157-178 | unloading `sample` removes `doThing` and `sampleNode` only |
| SampleScenario.LoadThenUnloadSample | pymel/core/__init__.py:145-178 | after load and unload of `sample`, `doThing` and `sampleNode` are gone and `baseNode` stays under `dependNode` |
| Core.Bookkeeping.constructor | pymel/core/__init__.py:44-47 | the state at import: nothing tracked, no callback registered, and the invariant holds |
| Core.Bookkeeping.BindCommandList | pymel/core/__init__.py:78-91 | the in-place command loop leaves the state `BindCommands` gives |
| Core.Bookkeeping.WalkChain | pymel/core/__init__.py:120-127 | the in-place chain walk from `dependNode` leaves the hierarchy and `pymel.all` that `InsertChain` and `PublishChain` give, and changes nothing else |
| Core.Bookkeeping.AddPluginPyNodes | pymel/core/__init__.py:98-127 | the in-place batch leaves the state and raises the exception that `RunBatch` gives |
| Core.Bookkeeping.RecordCommands | pymel/core/__init__.py:65-91 | the in-place command part of load leaves the state `LoadCommands` gives |
| Core.Bookkeeping.LoadPluginNamed | pymel/core/__init__.py:63-139 | load of a name in place leaves the state and outcome `LoadPlugin` gives |
| Core.Bookkeeping.PluginLoaded | pymel/core/__init__.py:49-139 | the load handler in place leaves the state and outcome `Loaded` gives and keeps the invariant |
| Core.Bookkeeping.RemoveCommandList | pymel/core/__init__.py:163-171 | the in-place unload command loop leaves the state `RemoveCommands` gives |
| Core.Bookkeeping.RemoveNodeList | pymel/core/__init__.py:174-178 | the in-place unload node loop leaves the state and outcome `RemoveNodes` gives |
| Core.Bookkeeping.PluginUnloaded | pymel/core/__init__.py:145-178 | the unload handler in place leaves the state and outcome `Unloaded` gives and keeps the invariant |
| Core.Bookkeeping.FireSceneOpened | pymel/core/__init__.py:130-132 | the host running a registered deferred callback leaves the state and outcome `SceneOpened` gives and keeps the invariant |
| Core.Bookkeeping.RegisterCallbacks | pymel/core/__init__.py:191-221 | the guarded registrations in place leave the state `RegisterHooks` gives and keep the invariant |
| Core.Bookkeeping.InstallCallbacks | pymel/core/__init__.py:186-231 | registration and replay in place leave the state and outcome `Install` gives and keep the invariant |

## Left out

- Logging: every `_logger` call and the log-level save and restore around the replay. They change no modelled state.
- The `except Exception` around `setattr` at lines 83-91. Binding a function into a module dictionary does not fail in this model.
- `id.disown()` and the callbacks' client data. Neither carries bookkeeping state.
- The host's dispatch of "SceneOpened": the model fires one registered callback at a time, chosen by the caller, in any order.
- `factories.addPyNode` is modelled by its assumed contract: insert the node type with the given parent when it is absent. Its body and the lazy class objects are not part of this model.
- `factories.removePyNode` is modelled by its assumed contract: delete the node type, or raise (`Host.removeFails`). It gets no leaf test.
- `MMessage.removeCallback` on an id that is no longer registered is assumed to raise, giving `StaleCallback`.
- `pmcmds.removeWrappedCmd` is assumed not to raise.
- Several host calls outside any `try` are assumed not to raise. They are `getCmdInfoBasic`, `addWrappedCmd` and `functionFactory` (lines 80-82), `getInheritance` (line 112), and `addPyNode` and `getattr` (lines 123 and 127). If one of them raised, the handler would stop mid-loop, on the batch path after `'dependNodes'` was written at line 107. The model does not cover that partial state.
- The tree shape of the hierarchy beyond its closure (`Closed`) is not modelled. Acyclicity is not proved: a chain that lists `dependNode` while it is absent makes it its own parent. Unload's removal without a leaf test leaves a dangling link whenever a removed type is another type's parent, as `RemoveNodesCanOrphan` states.
- `getInheritance` is a host function; its result is either an iterable chain or not iterable.
- Version checks are the booleans `atLeast2008` and `atLeast2009`. The MEL callback string registered before 2009 is modelled only as the `AfterLoadMel` registration.
- Concurrency: the handlers run one at a time on Maya's main thread.
- `tests/test_mayaBugs.py` and `usersetup.py` do not touch this bookkeeping.
