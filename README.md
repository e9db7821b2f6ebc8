# Aurelia framework start-up configuration

This project models the bootstrap engine of the Aurelia framework (`dist/es6/aurelia-framework.js`) and proves properties about it.

Applications and plugins first register work on a `FrameworkConfiguration`:
- pre-tasks and post-tasks;
- plugins and features to load;
- global view resources and renames of them;
- container registrations.

`apply()` then runs everything, in three stages:
1. the pre-task queue runs, one task at a time;
2. the plugin queue drains: each plugin's module is loaded and its `configure` hook runs, with `resourcesRelativeTo` set to the plugin while the hook runs;
3. once the plugin queue is empty, the configuration is marked processed and the post-task queue runs.

Two tasks are queued when a configuration is created:
- a pre-task that normalizes `aurelia-bootstrapper`;
- a post-task that hands every collected global resource to the view engine.

Once a configuration has been applied, `preTask`, `postTask`, `plugin`, `feature`, `_addNormalizedPlugin`, `globalResources` and `globalName` refuse with an error. The container registrations `instance`, `singleton` and `transient` are not guarded.

`Aurelia.start()` applies the configuration once. It then installs the submit guard and insists that a binding language was registered. `setRoot()` and `enhance()` resolve the application host once and reuse it afterwards. As in the source, `setRoot` defaults its root module to `app`, and both default the host to none, so that the current host or the `applicationHost` element is used; `enhance` defaults its binding context to an empty object.

How the model is laid out:
- `Types` holds the values: keys, tasks, plugin descriptors, loader environment, events, errors.
- `PluginNames` holds the rules that rewrite a module name before it is queued.
- `ConfigSpec` is the reference semantics.
  - A configuration is a value, `Config`.
  - Each operation is a function returning the new configuration and an `Outcome`.
  - A ghost `trace` records the calls made to collaborators (task runs, module loads, `configure` hooks, normalizations, the resource import) and the moment `processed` is set.
- `ConfigProperties` proves what the framework promises about those functions. That includes:
  - the order of the stages inside `apply()`;
  - which tasks and plugins run;
  - how a falsy queue entry stops a drain;
  - single application;
  - the resource map that `globalResources` and `globalName` build;
  - that the resource-import post-task runs first after the plugins.
- `Framework` is the imperative side.
  - `FrameworkConfiguration` is a class whose fields the methods update in place.
  - Each drain of a task queue or of the plugin queue is a `while` loop, `globalResources` and `loadResources` are `for` loops, and `loadResources` fills an `array`.
  - Every method is proved to leave exactly the state, and return exactly the outcome, that `ConfigSpec` prescribes.
- `App` models the `Aurelia` class: `start`, `_configureHost`, `setRoot` and `enhance`, with host resolution as a separate function.

How the source is represented:
- A queued task or hook body is a script of configuration calls (`Action`).
- A falsy entry in a task or plugin queue is `None`.
- Asynchronous failures are an `Err` outcome; a synchronous `throw` and a rejected promise are both `Err`.
- Plugin descriptor objects carry a `uid`. Through it, the normalization pre-task queued by `_addNormalizedPlugin` rewrites the very descriptor it was queued with.

Where the code's behaviour is easy to misread, the model follows the code:
- `processed` becomes true only when the plugin loop finds an empty or falsy head (`aurelia-framework.js:309-313`), not when `apply()` begins.
- A falsy entry ends the plugin drain with success and marks the configuration processed. The plugins queued behind it are never loaded.
- A falsy entry ends a task drain with success and leaves the rest of that queue in place.
- `start()` sets `started` before `apply()` can fail, so a second `start()` after a failure returns at once.

## Model

| member | source | states |
|---|---|---|
| PluginNames.StripScriptSuffix | dist/es6/aurelia-framework.js:203 | the name changes exactly when it ends in `.js` or `.ts`, and then exactly that three-character suffix goes |
| PluginNames.FeatureModuleId | dist/es6/aurelia-framework.js:150-153 | the module of a feature is `<stem>/index`. The stem differs from the folder exactly when the folder ends in `.js` or `.ts`, and then it is the folder without that suffix |
| PluginNames.StripsOnlyOnce | dist/es6/aurelia-framework.js:203 | only one suffix is removed: `x.js.js` becomes `x.js`, `x.ts` becomes `x` |
| ConfigProperties.PluginQueuesStrippedName | dist/es6/aurelia-framework.js:199-209 | on an unapplied configuration, `plugin(name)` succeeds and appends exactly one descriptor, changing nothing else. The descriptor has identity `nextUid` (fresh when identities are unique, see `PluginIdentityFresh`), a stripped module id (stripped iff the name had a script suffix), resources relative to that module id, and the given config or `{}` |
| ConfigProperties.FeatureQueuesIndexModule | dist/es6/aurelia-framework.js:150-153 | `feature(folder)` appends one descriptor whose module is `<base>/index`, whose resources resolve against `<base>`, and whose identity is `nextUid` (fresh when identities are unique, see `PluginIdentityFresh`). The base differs from the folder exactly when the folder ends in `.js` or `.ts`, and then it is the folder without that suffix |
| ConfigProperties.NormalizedPluginQueuesBoth | dist/es6/aurelia-framework.js:211-227 | `_addNormalizedPlugin` appends the descriptor for the raw name AND a normalization pre-task bound to that same descriptor, and changes nothing else |
| ConfigProperties.NormalizedPluginsQueueInOrder | dist/es6/aurelia-framework.js:273-275 | a chain of `_addNormalizedPlugin` calls appends one descriptor and one normalization task per name, in call order, with consecutive identities |
| ConfigProperties.StandardConfigurationQueuesFive | dist/es6/aurelia-framework.js:233-275 | `standardConfiguration()` queues binding, resources, history, router and event aggregator in that order, each with its normalization pre-task and consecutive identities, and changes nothing else. On an applied configuration it is refused and changes nothing |
| ConfigProperties.NormalizationRewritesInPlace | dist/es6/aurelia-framework.js:215-224 | the normalization task rewrites `moduleId` and `resourcesRelativeTo` of every descriptor carrying the task's identity, to the suffix-stripped normalized name. It leaves every other queue entry alone and calls normalize and then `loader.map` |
| ConfigProperties.InitialUidsFresh | dist/es6/aurelia-framework.js:77-87 | a new configuration satisfies `UidsFresh`: every queued identity is below `nextUid` and no two queued descriptors share one |
| ConfigProperties.UidNamesOnePosition | dist/es6/aurelia-framework.js:215-224 | under `UidsFresh` an identity names at most one queue position, as one object reference names one descriptor |
| ConfigProperties.PluginIdentityFresh | dist/es6/aurelia-framework.js:199-209 | `plugin` keeps `UidsFresh`, and the identity it gives the appended descriptor is carried by no descriptor queued before, so afterwards only the appended one carries it |
| ConfigProperties.NormalizedPluginOwnsItsTask | dist/es6/aurelia-framework.js:211-227 | with unique identities, `_addNormalizedPlugin` queues a normalization task whose identity is carried by exactly one descriptor: the one it appended under the raw name |
| ConfigProperties.NormalizedPluginsKeepUidsFresh | dist/es6/aurelia-framework.js:273-275 | a chain of `_addNormalizedPlugin` calls keeps identities unique |
| ConfigProperties.OperationsKeepUidsFresh | dist/es6/aurelia-framework.js:95-275 | every configuring call (`preTask`, `postTask`, `plugin`, `feature`, `_addNormalizedPlugin`, `standardConfiguration`, `globalResources`, `globalName`, registration) keeps identities unique |
| ConfigProperties.RunTaskKeepsUidsFresh | dist/es6/aurelia-framework.js:215-224 | running one task keeps identities unique |
| ConfigProperties.TasksKeepUidsFresh | dist/es6/aurelia-framework.js:11-22 | draining a task queue keeps identities unique |
| ConfigProperties.LoadPluginKeepsUidsFresh | dist/es6/aurelia-framework.js:24-39 | loading one plugin keeps identities unique |
| ConfigProperties.DrainKeepsUidsFresh | dist/es6/aurelia-framework.js:306-316 | the plugin loop keeps identities unique while it shifts descriptors off the queue |
| ConfigProperties.ApplyKeepsUidsFresh | dist/es6/aurelia-framework.js:298-319 | `apply()` keeps identities unique through all three stages |
| ConfigProperties.NormalizationRewritesOne | dist/es6/aurelia-framework.js:215-224 | with unique identities, the normalization task changes at most one queue position, and that position holds the descriptor carrying the task's identity, so it rewrites exactly the descriptor it was queued with, as the source's closure does by reference |
| ConfigProperties.NormalizationFailureKeepsDescriptors | dist/es6/aurelia-framework.js:216 | a normalization that fails rejects with that error, and the configuration changes only by the record of the task run and the normalize call: every descriptor stays as it was |
| ConfigProperties.AppliedConfigurationRefusesChanges | dist/es6/aurelia-framework.js:53-57 | once processed, `preTask`, `postTask`, `plugin`, `feature`, `_addNormalizedPlugin`, `globalResources` and `globalName` all fail with "already applied" and leave the configuration unchanged. Container registration is not guarded |
| ConfigProperties.FirstNonString | dist/es6/aurelia-framework.js:168-172 | the position of the first non-string resource: every earlier entry is a path, and the entry there (if any) is not |
| ConfigProperties.AddResourcesSpec | dist/es6/aurelia-framework.js:168-176 | the loop succeeds iff every resource is a string. It adds exactly the joined keys before the first bad entry, keeps every existing name, and gives new keys no name |
| ConfigProperties.GlobalResourcesAddsJoinedKeys | dist/es6/aurelia-framework.js:160-179 | `globalResources` touches only `resourcesToLoad`. It fails iff some resource is not a string. On success every resource, joined to `resourcesRelativeTo` or `''`, is a key. Earlier names survive and new keys have no name |
| ConfigProperties.GlobalNameSetsOneEntry | dist/es6/aurelia-framework.js:187-191 | `globalName` maps the path to the new name and leaves every other key and name as it was |
| ConfigProperties.ScriptOnlyAdds | dist/es6/aurelia-framework.js:160-191 | configuration calls made by a task or hook never remove a resource key or a container registration |
| ConfigProperties.ScriptDeclaresAgainstBase | dist/es6/aurelia-framework.js:166-175 | after a successful task or hook body, every resource it declared is present, joined to the `resourcesRelativeTo` in force when it ran |
| ConfigProperties.TasksTaken | dist/es6/aurelia-framework.js:11-22 | a ghost counter over the same recursion as the drain: the number of entries it shifts is within the queue, and at least one when the queue is not empty |
| ConfigProperties.RunTasksLeavesRest | dist/es6/aurelia-framework.js:11-22 | a drain leaves exactly the unshifted suffix of the queue. Success means the queue ran out or the last shifted entry was falsy. Failure means the last shifted entry was a task, and the drain rejects with exactly that task's outcome, run on the queue it left behind. A success whose last shifted entry was a task emptied the queue and is exactly that task's success, so the last task's failure is never reported as success |
| ConfigProperties.RunTasksTakes | dist/es6/aurelia-framework.js:11-22 | a task drain leaves exactly the unshifted suffix of the queue; a success stops only at the end of the queue or at a falsy entry, and a failure only after shifting a task |
| ConfigProperties.RunTasksFailure | dist/es6/aurelia-framework.js:14-15 | a failing drain took at least one entry; the last one is a task, and the drain's result is exactly what running that task on the remaining queue gives |
| ConfigProperties.RunTasksLastSucceeded | dist/es6/aurelia-framework.js:11-22 | a successful drain whose last shifted entry is a task has emptied the queue, and its result is exactly that task's successful outcome on the empty queue |
| ConfigProperties.RunTaskTrace | dist/es6/aurelia-framework.js:15 | running one task records its run, followed only by collaborator calls |
| ConfigProperties.RunTaskKeepsIdentities | dist/es6/aurelia-framework.js:215-224 | a single task never adds, drops, reorders or reconfigures a plugin descriptor: every position keeps its presence, identity and settings |
| ConfigProperties.TasksKeepIdentities | dist/es6/aurelia-framework.js:11-22 | a whole task drain keeps the plugin queue in registration order: each position still holds the descriptor registered there, renamed at most |
| ConfigProperties.RunTasksTrace | dist/es6/aurelia-framework.js:11-22 | the drain's trace holds exactly the shifted tasks, in queue order, and loads no plugin |
| ConfigProperties.RunTasksOnEmptyQueue | dist/es6/aurelia-framework.js:18 | draining an empty queue succeeds and changes nothing |
| ConfigProperties.RunTasksDrainsAll | dist/es6/aurelia-framework.js:11-22 | when no entry is falsy and the drain succeeds, the queue ends empty and every task ran once, in order |
| ConfigProperties.LoadPluginSlot | dist/es6/aurelia-framework.js:24-39 | `resourcesRelativeTo` is the plugin's while its module loads and its hook runs, and is reset to null only on success. A missing module fails. A module without `configure` only resets the slot. A hook receives the plugin's config or `{}` |
| ConfigProperties.HookResourcesResolveAgainstPlugin | dist/es6/aurelia-framework.js:26-31 | resources declared by a plugin's `configure` hook resolve against that plugin's `resourcesRelativeTo` |
| ConfigProperties.LoadPluginTrace | dist/es6/aurelia-framework.js:24-39 | loading a plugin records its module load, followed only by stage-one events: no task run and no other module load |
| ConfigProperties.PluginsTaken | dist/es6/aurelia-framework.js:308-315 | a ghost counter over the same recursion as the plugin drain: the number of descriptors it shifts is within the queue, and at least one when the queue is not empty |
| ConfigProperties.DrainLeavesRest | dist/es6/aurelia-framework.js:308-315 | the plugin drain leaves exactly the unshifted descriptors. Success means the queue ran out or hit a falsy entry. Failure means the last shifted entry was a descriptor, and the drain rejects with exactly the outcome of loading it. A success whose last shifted entry was a descriptor emptied the queue: that plugin loaded successfully and the configuration was then marked processed |
| ConfigProperties.DrainFailure | dist/es6/aurelia-framework.js:309-310 | a failing plugin loop took at least one entry; the last one is a descriptor, and the loop's result is exactly what loading that plugin on the remaining queue gives |
| ConfigProperties.DrainTakes | dist/es6/aurelia-framework.js:308-315 | the plugin drain leaves exactly the unshifted descriptors, and a success stops only at the end of the queue or at a falsy entry |
| ConfigProperties.DrainLastSucceeded | dist/es6/aurelia-framework.js:308-315 | a successful plugin drain whose last shifted entry is a descriptor has emptied the queue; loading that plugin on the empty queue succeeds, and the drain's state is that load's state marked processed |
| ConfigProperties.DrainSucceededWitness | dist/es6/aurelia-framework.js:308-315 | the same as `DrainLastSucceeded`, with the loaded state stated as an existential |
| ConfigProperties.DrainTrace | dist/es6/aurelia-framework.js:308-315 | the plugin drain loads exactly the shifted modules, in queue order, and runs no task. The processed marker follows them iff the drain succeeded |
| ConfigProperties.ApplyWhenProcessed | dist/es6/aurelia-framework.js:299-301 | applying a processed configuration succeeds and does nothing |
| ConfigProperties.ApplyOrdered | dist/es6/aurelia-framework.js:298-319 | in everything `apply()` records, no pre-task runs after a plugin load, no load comes after the processed marker, and no post-task runs before it |
| ConfigProperties.ApplyRuns | dist/es6/aurelia-framework.js:303-317 | the tasks `apply()` runs are the shifted pre-tasks, followed by the shifted post-tasks only when the pre-tasks and the plugin drain both succeeded |
| ConfigProperties.ApplyLoads | dist/es6/aurelia-framework.js:303-311 | no plugin loads if a pre-task failed. Otherwise the loaded modules are the shifted descriptors, in queue order, with ids as the pre-tasks left them. The pre-tasks keep every descriptor's position, identity and settings, so plugins load in registration order |
| ConfigProperties.ApplyOnce | dist/es6/aurelia-framework.js:298-319 | afterwards the configuration is processed iff it already was, or the pre-tasks and all plugins succeeded. Success implies processed. A second `apply()` is then a no-op |
| ConfigProperties.InitialImportFirst | dist/es6/aurelia-framework.js:77-87 | a new configuration queues the bootstrapper normalization as its only pre-task and the resource import as its first post-task |
| ConfigProperties.OperationsKeepImportFirst | dist/es6/aurelia-framework.js:95-227 | no configuration call displaces the resource import from the head of the post-task queue |
| ConfigProperties.ImportRunsFirstAfterPlugins | dist/es6/aurelia-framework.js:86 | after the plugins succeed, the first post-task to run is the resource import. It hands the view engine the resource map as the plugins left it |
| ConfigSpec.RunTask | dist/es6/aurelia-framework.js:15 | running a task never changes the pre- or post-task queue, the number of plugin descriptors or `processed` |
| ConfigSpec.RunTasks | dist/es6/aurelia-framework.js:11-22 | draining one queue leaves the other queue, `processed` and the number of descriptors unchanged |
| ConfigSpec.LoadPlugin | dist/es6/aurelia-framework.js:24-39 | loading a plugin changes neither the queues nor `processed` |
| ConfigSpec.DrainPlugins | dist/es6/aurelia-framework.js:308-315 | the plugin drain sets `processed` exactly when it succeeds, and leaves the pre- and post-task queues alone |
| ConfigSpec.Perform | dist/es6/aurelia-framework.js:95-191 | a configuration call made from inside a task or hook changes only the resource map and the container; the queues, the descriptors and `processed` stay as they were |
| ConfigSpec.RunScript | dist/es6/aurelia-framework.js:15 | a whole task or hook body, too, changes only the resource map and the container |
| ConfigSpec.RenameDescriptor | dist/es6/aurelia-framework.js:220-221 | renaming a descriptor keeps the length of the plugin queue |
| Framework.Container.constructor | dist/es6/aurelia-framework.js:364 | a container starts with the given registrations |
| Framework.Container.Register | dist/es6/aurelia-framework.js:96 | registering adds exactly that key |
| Framework.ObjectKeys | dist/es6/aurelia-framework.js:43 | the ids are exactly the map's keys, each once |
| Framework.LoadResources | dist/es6/aurelia-framework.js:41-51 | the parallel arrays have equal length. The ids are exactly the keys of `resourcesToLoad`, each once, and `names[i]` is the name stored for `importIds[i]` |
| Framework.Zip | dist/es6/aurelia-framework.js:50 | zipping ids with names yields a map over exactly those ids |
| Framework.ZipRestoresMap | dist/es6/aurelia-framework.js:41-51 | the arrays `loadResources` builds carry exactly the map they came from: zipping them gives it back |
| Framework.FrameworkConfiguration.constructor | dist/es6/aurelia-framework.js:77-87 | a new configuration is the initial one: empty queues apart from the two built-in tasks, no resources, not processed |
| Framework.FrameworkConfiguration.Instance | dist/es6/aurelia-framework.js:95-98 | registers the key in the container and changes nothing else |
| Framework.FrameworkConfiguration.Singleton | dist/es6/aurelia-framework.js:106-109 | registers the key in the container and changes nothing else |
| Framework.FrameworkConfiguration.Transient | dist/es6/aurelia-framework.js:117-120 | registers the key in the container and changes nothing else |
| Framework.FrameworkConfiguration.PreTask | dist/es6/aurelia-framework.js:127-131 | the new state and outcome are those of `ConfigSpec.PreTask`: refused after apply, else appended |
| Framework.FrameworkConfiguration.PostTask | dist/es6/aurelia-framework.js:138-142 | the new state and outcome are those of `ConfigSpec.PostTask` |
| Framework.FrameworkConfiguration.Plugin | dist/es6/aurelia-framework.js:199-209 | the new state and outcome are those of `ConfigSpec.Plugin`, whose queuing is proved by `PluginQueuesStrippedName` |
| Framework.FrameworkConfiguration.Feature | dist/es6/aurelia-framework.js:150-153 | the new state and outcome are those of `ConfigSpec.Feature` |
| Framework.FrameworkConfiguration.GlobalResources | dist/es6/aurelia-framework.js:160-179 | the loop leaves the state and outcome of `ConfigSpec.GlobalResources`, whose resource map is pinned by `GlobalResourcesAddsJoinedKeys` |
| Framework.FrameworkConfiguration.GlobalName | dist/es6/aurelia-framework.js:187-191 | the new state and outcome are those of `ConfigSpec.GlobalName` |
| Framework.FrameworkConfiguration.AddNormalizedPlugin | dist/es6/aurelia-framework.js:211-227 | the new state and outcome are those of `ConfigSpec.AddNormalizedPlugin` |
| Framework.FrameworkConfiguration.DefaultBindingLanguage | dist/es6/aurelia-framework.js:233-235 | queues `aurelia-templating-binding` through `_addNormalizedPlugin` |
| Framework.FrameworkConfiguration.DefaultResources | dist/es6/aurelia-framework.js:257-259 | queues `aurelia-templating-resources` through `_addNormalizedPlugin` |
| Framework.FrameworkConfiguration.History | dist/es6/aurelia-framework.js:249-251 | queues `aurelia-history-browser` through `_addNormalizedPlugin` |
| Framework.FrameworkConfiguration.Router | dist/es6/aurelia-framework.js:241-243 | queues `aurelia-templating-router` through `_addNormalizedPlugin` |
| Framework.FrameworkConfiguration.EventAggregator | dist/es6/aurelia-framework.js:265-267 | queues `aurelia-event-aggregator` through `_addNormalizedPlugin` |
| Framework.FrameworkConfiguration.StandardConfiguration | dist/es6/aurelia-framework.js:273-275 | the five calls in a row leave the state of `ConfigSpec.StandardConfiguration`, whose queues are pinned by `StandardConfigurationQueuesFive` |
| Framework.FrameworkConfiguration.Perform | dist/es6/aurelia-framework.js:95-191 | one configuration call made by a task or hook has the effect `ConfigSpec.Perform` gives it |
| Framework.FrameworkConfiguration.RunScript | dist/es6/aurelia-framework.js:15 | a task or hook body, run call by call, stops at the first failing call and leaves the state `ConfigSpec.RunScript` gives |
| Framework.FrameworkConfiguration.RunTask | dist/es6/aurelia-framework.js:85-86 | the bootstrapper normalization, the resource import (through `loadResources`) and the plugin normalization have the effects `ConfigSpec.RunTask` gives them. The plugin normalization is the closure at :215-224, and a custom task is the `current(config)` call at :15 |
| Framework.FrameworkConfiguration.RunTasks | dist/es6/aurelia-framework.js:11-22 | the shifting loop leaves the state and outcome of `ConfigSpec.RunTasks`, whose drain order is proved by `RunTasksTrace` and `RunTasksLeavesRest` |
| Framework.FrameworkConfiguration.LoadPlugin | dist/es6/aurelia-framework.js:24-39 | loading one plugin leaves the state and outcome of `ConfigSpec.LoadPlugin` |
| Framework.FrameworkConfiguration.Apply | dist/es6/aurelia-framework.js:298-319 | the three-stage run leaves the state and outcome of `ConfigSpec.Apply`, so `ApplyOrdered`, `ApplyRuns`, `ApplyLoads` and `ApplyOnce` hold of it |
| App.ResolveHost | dist/es6/aurelia-framework.js:460-466 | a resolved host is an element of the document, the element passed in, or the host already held |
| App.HostResolution | dist/es6/aurelia-framework.js:460-466 | an element argument is used as it is. A non-empty id is looked up. With no usable argument, the current host is reused, or else `applicationHost` is looked up |
| App.Settle | dist/es6/aurelia-framework.js:413-419 | a promise executor leaves its promise pending iff it neither throws nor calls `resolve` |
| App.EnhanceAsWrittenNeverSettles | dist/es6/aurelia-framework.js:413-419 | as written, the promise of `enhance()` never fulfils: it stays pending on success and rejects only on a throw |
| App.EnhanceSettles | dist/es6/aurelia-framework.js:413-419 | with `resolve(this)`, the promise of `enhance()` always settles, and fulfils iff enhancing does not throw |
| App.ViewSlot.constructor | dist/es6/aurelia-framework.js:474 | a host slot is anchored at the host and starts detached |
| App.ViewSlot.Attached | dist/es6/aurelia-framework.js:449 | attaching marks the slot attached |
| App.Aurelia.constructor | dist/es6/aurelia-framework.js:362-374 | a new instance has a fresh initial configuration over the container with the Aurelia, loader and view-resources registrations added. It is not started and has no host, slot or root |
| App.Aurelia.Start | dist/es6/aurelia-framework.js:380-402 | a second start returns at once and changes nothing. Otherwise `started` is set, and the configuration becomes `ConfigSpec.Apply` of the old one. Its error is returned. After success the submit guard is installed, then the call fails iff no binding language was registered, else `aurelia-started` is dispatched |
| App.Aurelia.ConfigureHost | dist/es6/aurelia-framework.js:455-477 | a configured host is kept. Otherwise the host becomes `ResolveHost` of the argument and the old host. No host fails with no change. A host gives a fresh slot anchored there, the boundary registration and the back-reference |
| App.Aurelia.SetRoot | dist/es6/aurelia-framework.js:428-453 | a previous root's router is deactivated and reset first. A configured host is reused; otherwise the host becomes `ResolveHost` of the argument and the old host. An unresolved host fails with the root unchanged. Once a host is bound, the call succeeds exactly when composing the module into the host yields a view: that view becomes the root and the host slot is attached. A failed composition keeps the old root. The container gains only the boundary key, and only when this call bound the host; the configuration is otherwise untouched. The new events are exactly the router shutdown, the host binding if this call bound it, the cleared initial composition and the composition request once a host is bound, and the scheduled composed event on success |
| App.Aurelia.ComposeRoot | dist/es6/aurelia-framework.js:438-452 | with a bound host, composition succeeds exactly when the module composes into a view. That view becomes the root and the slot is attached; on failure the root stays. Host, slot, container and configuration are unchanged. The new events are the cleared initial composition and the composition request, then the scheduled composed event on success |
| App.Aurelia.Enhance | dist/es6/aurelia-framework.js:410-420 | with the corrected executor: on a first call the host becomes `ResolveHost` of the argument and the old host, and an unresolved host fails with the root unchanged. Once a host is bound (already, or by this call), the call succeeds exactly when enhancing the host yields a view, which becomes the root; otherwise it rejects and keeps the old root. The container gains only the boundary key, and only when this call bound the host. The new events are exactly the host binding if this call bound it, the enhance request once a host is bound, and the root's attachment and the scheduled composed event on success |

## Left out

- Logging, and `developmentLogging` (`aurelia-framework.js:281-292`), are not modelled: they only install a console appender and change the log level.
- `preventActionlessFormSubmit` is recorded as one event. The submit listener it installs is DOM behaviour outside this model.
- `aurelia-started` and the delayed `aurelia-composed` dispatch are recorded as events. `setTimeout` and custom DOM events are not modelled.
- `hostSlot.transformChildNodesIntoView()` and the `host.aurelia` back-reference are recorded as the `HostBound` event only.
- The loader's `normalize`, the modules `loadModule` can find, `join` from `aurelia-path`, and whether the view engine's `importViewResources` accepts a resource map are parameters of the loader environment (`LoaderEnv`). Their internals are not part of this model.
- The loader's `map` is recorded only as the `AliasMapped` event; the alias table it maintains is not modelled.
- The templating engine's `compose` and `enhance` are parameters of `Dom`. `CompositionTransaction.initialComposition` is recorded as an event.
- Promises are not modelled as concurrency: each stage is run to completion in order, and a synchronous throw and a rejection are both an `Err` outcome.
- A task that resolves to a value is treated like one that resolves to nothing: the value is not used.
- `Framework.LoadResources`: `Object.keys` order is not fixed. The ids come out in an arbitrary order, and the contract states only the set of ids and the key/name pairing.
- `Framework.LoadResources`: the `appResources` argument (`aurelia.resources`) is not passed on.
- Task bodies and `configure` hooks are scripts of configuration calls. They cannot queue tasks or plugins, call `apply()`, or run arbitrary code. This keeps the drains terminating by the length of the queue; a task that queued another task could make a drain run forever, which the model's termination measure could not bound.
- A module whose `configure` member is not callable is not modelled. The source would throw on calling it.
- Plugin descriptors get a fresh identity per push. An application that pushes one descriptor object twice aliases it in the source, but holds two independent entries here.
- `plugin` and `feature` are modelled on string names and descriptor objects. Other argument types (numbers, arrays) are not modelled.
- The `arguments` form of `globalResources` is the same list of resources as the array form.
- `instance`, `singleton` and `transient` record only the registered key, not the registered value or implementation.
- The `Aurelia` constructor's defaults (`PLATFORM.Loader`, a new global container, a new `ViewResources`) are not modelled: the loader environment and container are always passed in.
- App.Aurelia.Enhance: models the corrected executor that calls `resolve(this)`; the as-written behaviour is stated separately by `App.EnhanceAsWrittenNeverSettles`.

## Findings

| source | as written | input that shows it | evidently intended | confidence | as-written member | corrected member |
|---|---|---|---|---|---|---|
| dist/es6/aurelia-framework.js:413-419 | the `new Promise(resolve => { ... return this; })` executor never calls `resolve`, so the promise returned by `enhance()` never fulfils | `enhance()` with a resolvable host and an engine whose `enhance` succeeds: the promise stays pending | `resolve(this)`, so the promise fulfils with the Aurelia instance once the root is attached | not executed | App.EnhanceAsWrittenNeverSettles | App.EnhanceSettles |
