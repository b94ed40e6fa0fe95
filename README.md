# Envisage plugin manager, modelled in Dafny

This project models the plugin manager of Envisage, an application framework made of plugins. It also models the plugin behaviour that the plugin test suite pins down.

A manager holds an ordered list of plugins. It covers these operations:

- `get_plugin` looks a plugin up by id, and the first match wins.
- `start_plugin` / `stop_plugin` bracket one plugin's own start or stop work with the "starting"/"started" or "stopping"/"stopped" events. A missing plugin raises `SystemError`.
- `start` starts every plugin in list order.
- `stop` stops them in the reverse order, working on a reversed copy of the list.
- In both `start` and `stop`, the first exception ends the run and is passed on. Nothing is rolled back.

The test suite adds these rules:

- **Id policy.** An explicit id wins, then the name, then the qualified type name.
- **Activators.** A plugin's start and stop are delegated to its activator when it has one.
- **Services.**
  - Service attributes are registered under their type, or under their `service_protocol`. They are unregistered when the plugin stops.
  - A `Service(...)` attribute reads the registry.
  - Assigning to a service attribute raises.
- **Extension points.**
  - The value of an extension point is every plugin's contribution, concatenated in plugin order.
  - A plugin may feed a point through at most one attribute, tagged `extension_point=` or `contributes_to=`. Two such attributes raise `ValueError`.
  - An exception raised while building a contribution comes out unchanged.
  - Adding or removing a plugin updates a point that was already read, and announces the change with exactly the items that came or went.

Modules:

- `Common` (common.dfy): `Option`, `Result`, `Outcome` and the error kinds.
- `Identity` (identity.dfy): the id policy.
- `Extensions` (extensions.dfy): one plugin's contribution to a point (its span) and the merge of all plugins. These are pure functions over contributions.
- `Services` (services.dfy): the service registry, as a map from protocol to instance and owner.
- `Lifecycle` (lifecycle.dfy): the classes `Plugin` and `PluginManager`.
  - `PluginManager` also stands for the application object the tests call: `get_extensions`, `add_plugin`, `remove_plugin`, `get_service` and the plugins' service attributes are its methods.
  - Each mutating manager operation is a method.
  - `Start` and `Stop` are proved against the specification function `RunAll`, and `StartPlugin`/`StopPlugin` against its per-plugin `Step`.
  - `GetExtensions`, `AddPlugin` and `RemovePlugin` are proved against `Merge`, through the cache invariant `CacheConsistent` (every cached point holds the merge over the current plugins), and against the notices `ChangeNotices`.
  - The manager appends every observable step to its `log`.
  - `stop` builds its stop order in an array, reversed in place by the swap loop the list's `reverse()` performs.
- `LifecycleProperties` (lifecycle_props.dfy): what a start or stop run makes observable. This covers:
  - the order of events and hooks;
  - the shape of the trace;
  - stop mirroring start;
  - the registry left behind;
  - the event-declaration finding.
- `Scenarios` (scenarios.dfy): the test suite's scenarios, run against the manager. Each postcondition states what the test asserts.

## Model

| member | source | states |
|---|---|---|
| Identity.ResolveId | enthought/envisage/tests/plugin_test_case.py:53-71 | an explicit id is the id; without one the name is; with neither, the qualified type name is |
| Identity.IdIgnoresLowerPriorities | enthought/envisage/tests/plugin_test_case.py:66-69 | once an id is given the name does not matter, and once a name is given the type name does not |
| Scenarios.IdPolicy | enthought/envisage/tests/plugin_test_case.py:53-71 | the four cases of the id test give 'enthought.envisage.plugin.Plugin', 'fred', 'wilma', 'wilma' |
| Lifecycle.Plugin.constructor | enthought/envisage/tests/plugin_test_case.py:53-71 | a new plugin's id follows the id policy, and it is attached to no application |
| Extensions.Span | enthought/envisage/tests/plugin_test_case.py:228-302 | definition: one plugin's share of a point is [] when no attribute feeds it, the list of the one attribute that does (or the exception building it raises), and ValueError when several do |
| Extensions.Merge | enthought/envisage/tests/plugin_test_case.py:228-302 | definition: the value of a point is the plugins' spans concatenated in plugin order, the first failing span's error winning |
| Extensions.TargetingMembers | enthought/envisage/tests/plugin_test_case.py:228-350 | the attributes feeding a point are exactly those of the plugin tagged with that point, whichever tag kind |
| Extensions.TargetsMembers | enthought/envisage/tests/plugin_test_case.py:352-430 | the points a plugin feeds are exactly the points some attribute of it is tagged with |
| Extensions.TargetsDistinct | enthought/envisage/tests/plugin_test_case.py:352-430 | each point a plugin feeds is listed, and so announced, once |
| Extensions.MergeOk | enthought/envisage/tests/plugin_test_case.py:228-350 | reading a point succeeds exactly when every plugin's span of it succeeds |
| Extensions.SpanNone | enthought/envisage/tests/plugin_test_case.py:282-302 | a plugin with no attribute feeding the point contributes nothing |
| Extensions.SpanSingle | enthought/envisage/tests/plugin_test_case.py:252-302 | a plugin with one attribute feeding the point contributes that attribute's list, or the exception building it raises |
| Extensions.SpanAmbiguous | enthought/envisage/tests/plugin_test_case.py:228-250 | two attributes of one plugin feeding the same point make its span a ValueError for that point |
| Extensions.TagsIrrelevant | enthought/envisage/tests/plugin_test_case.py:304-350 | retagging attributes between `extension_point=` and `contributes_to=` does not change any span |
| Extensions.MergeConcat | enthought/envisage/tests/plugin_test_case.py:404-416 | the value over two lists of plugins is the first list's value followed by the second's, the first error winning |
| Extensions.MergeAppend | enthought/envisage/tests/plugin_test_case.py:404-416 | appending a plugin appends its span to the value |
| Extensions.MergeSplit | enthought/envisage/tests/plugin_test_case.py:417-428 | a successful value is the span of the plugins before a position, of the plugin at it, and of those after; without that plugin it is the two outer parts |
| Extensions.MergeRemove | enthought/envisage/tests/plugin_test_case.py:417-428 | removing a plugin from a successful merge keeps it successful, and leaves points the plugin does not feed unchanged |
| Extensions.MergeError | enthought/envisage/tests/plugin_test_case.py:252-280 | the first plugin (in list order) whose span fails decides the error, which is passed on verbatim |
| Extensions.MergeAmbiguous | enthought/envisage/tests/plugin_test_case.py:228-350 | a plugin with two attributes feeding the point makes reading it fail, with ValueError when the plugins before it are fine |
| Services.Register | enthought/envisage/tests/plugin_test_case.py:166-185 | definition: each service of a starting plugin is entered under its protocol, owned by the plugin, one entry per protocol, a later entry replacing an earlier one |
| Services.Lookup | enthought/envisage/tests/plugin_test_case.py:176-192 | definition: `get_service` answers the instance entered under the protocol, None when there is none |
| Services.LaterRegistrationShadows | enthought/envisage/tests/plugin_test_case.py:176-192 | with one entry per protocol, a second plugin registering a protocol the first holds takes it over, and unregistering the second leaves None under it |
| Services.RefOf | enthought/envisage/tests/plugin_test_case.py:130-133 | the protocol P of the attribute declared `Service(P)` under that name, None exactly when the plugin has no such attribute |
| Services.ProtocolOf | enthought/envisage/tests/plugin_test_case.py:196-226 | a service is registered under its `service_protocol` when given, else under its declared type |
| Services.RegisterEffect | enthought/envisage/tests/plugin_test_case.py:166-185 | registering a plugin's services adds exactly their protocols, all owned by the plugin, and keeps every other entry |
| Services.Unregister | enthought/envisage/tests/plugin_test_case.py:187-192 | unregistering a plugin removes exactly the entries it owns and keeps the others unchanged |
| Services.RemoveOwners | enthought/envisage/tests/plugin_test_case.py:187-192 | removes exactly the entries owned by any of the given plugins |
| Services.RegisterThenLookup | enthought/envisage/tests/plugin_test_case.py:176-185 | after registration each service is found under its protocol, unless a later service of the plugin takes that protocol |
| Services.UnregisterAfterRegister | enthought/envisage/tests/plugin_test_case.py:176-192 | unregistering a just-registered plugin removes its protocols and its earlier entries |
| Services.ProtocolOverride | enthought/envisage/tests/plugin_test_case.py:208-224 | a service with a protocol override is found under the protocol and not under its type |
| Lifecycle.Resolve | enthought/envisage/plugin_manager.py:76 | definition: the plugin acted on is the given plugin, else the first with the given id (the same expression at line 112) |
| Lifecycle.PluginTrace | enthought/envisage/plugin_manager.py:80-118 | definition: starting attaches the context, discovers extension points, fires "starting", runs the hook and fires "started" only if it returned (80-85); stopping fires "stopping", runs the hook and fires "stopped" only if it returned (116-118) |
| Lifecycle.Step | enthought/envisage/plugin_manager.py:80-118 | definition: one plugin's start or stop yields its trace, and either the hook's exception with the registry untouched, or normal completion with its services registered or unregistered |
| Lifecycle.RunAll | enthought/envisage/plugin_manager.py:62-105 | definition: `Step` on each plugin in order (line 67 for start, line 103 for stop), the first exception ending the run without rollback |
| Lifecycle.HookEntry | enthought/envisage/tests/plugin_test_case.py:101-116 | definition: a plugin's start or stop work is a call of its activator with the plugin when it has one, else its own hook with the context |
| Lifecycle.After | enthought/envisage/plugin_manager.py:85-118 | definition: after the hook comes "started" (line 85) or "stopped" (line 118) when the hook returned, and nothing when it raised |
| Lifecycle.Effect | enthought/envisage/tests/plugin_test_case.py:176-192 | definition: a start that returns registers the plugin's services, a stop that returns unregisters every entry the plugin owns |
| Lifecycle.NoticeAt | enthought/envisage/tests/plugin_test_case.py:397-428 | definition: a point gets an "items changed" notice only when it was already read and the plugin's span of it is fine; the notice's added list (on add) or removed list (on remove) is that span, the other list empty |
| Lifecycle.ChangeNotices | enthought/envisage/tests/plugin_test_case.py:402-428 | definition: the notices of an add or a removal are those of each point the plugin feeds, in the order of its attributes |
| Lifecycle.RunAllOutcome | enthought/envisage/plugin_manager.py:62-69 | a run passes exactly when every hook returns, and then every plugin was attempted; otherwise it stops at the first hook that raises, with that exception |
| Lifecycle.FirstIndex | enthought/envisage/plugin_manager.py:53-58 | the position of the first plugin with the id, no earlier plugin having it |
| Lifecycle.FirstWithId | enthought/envisage/plugin_manager.py:48-60 | None exactly when no plugin has the id; otherwise a listed plugin with that id, the first one in list order |
| Lifecycle.Position | enthought/envisage/tests/plugin_test_case.py:417-428 | the position of the first occurrence of a plugin, the length when it is absent |
| Lifecycle.Reverse | enthought/envisage/plugin_manager.py:99-101 | the stop order: the same length, element k being the list's element from the back |
| Lifecycle.RemovalKeepsMerge | enthought/envisage/tests/plugin_test_case.py:417-428 | a point that read fine still reads fine without a plugin, and a point that plugin does not feed keeps its value |
| Lifecycle.AddedAll | enthought/envisage/tests/plugin_test_case.py:404-416 | after an add, the points kept are the read points where the new span is fine, each with that span appended |
| Lifecycle.RemovedAll | enthought/envisage/tests/plugin_test_case.py:417-428 | after a removal the cache holds the same points, each equal to the value over the remaining plugins |
| Lifecycle.PluginManager.constructor | enthought/envisage/plugin_manager.py:41-42 | a manager over the given plugins, with an empty registry, cache and log |
| Lifecycle.PluginManager.GetPlugin | enthought/envisage/plugin_manager.py:48-60 | the linear search returns the first plugin with the id, or None |
| Lifecycle.PluginManager.RunHook | enthought/envisage/plugin_manager.py:84-117 | the hook call of `start_plugin` (line 84) and of `stop_plugin` (line 117): the activator or the plugin's own hook runs; on return the registry gets the plugin's services registered (start) or unregistered (stop) |
| Lifecycle.PluginManager.Launch | enthought/envisage/plugin_manager.py:78-87 | the context is attached, extension points discovered, "starting" fired, the hook run, and "started" fired only if it returned |
| Lifecycle.PluginManager.Halt | enthought/envisage/plugin_manager.py:114-120 | "stopping" fired, the hook run, and "stopped" fired only if it returned |
| Lifecycle.PluginManager.StartPlugin | enthought/envisage/plugin_manager.py:71-92 | an explicit plugin, else the first with the id, is started; with neither, SystemError and nothing changes; no other plugin's application changes |
| Lifecycle.PluginManager.StopPlugin | enthought/envisage/plugin_manager.py:107-125 | an explicit plugin, else the first with the id, is stopped; with neither, SystemError and nothing changes |
| Lifecycle.PluginManager.Start | enthought/envisage/plugin_manager.py:62-69 | the log, registry and outcome are those of `RunAll` over the plugins in list order; exactly the attempted plugins get the context |
| Lifecycle.PluginManager.StopOrder | enthought/envisage/plugin_manager.py:99-101 | a fresh copy of the list, reversed in place |
| Lifecycle.PluginManager.Stop | enthought/envisage/plugin_manager.py:94-105 | the log, registry and outcome are those of `RunAll` over the reversed list |
| Lifecycle.PluginManager.GetExtensions | enthought/envisage/tests/plugin_test_case.py:228-302 | the value of a point is the merge over all plugins, cached when it succeeds |
| Lifecycle.PluginManager.AddPlugin | enthought/envisage/tests/plugin_test_case.py:404-416 | appends the plugin; each read point it feeds gets its span appended and an "items changed" notice whose added list is that span |
| Lifecycle.PluginManager.AppendFed | enthought/envisage/tests/plugin_test_case.py:404-416 | every read point the added attributes feed gets their span appended and announced as the added list, or is dropped when that span fails |
| Lifecycle.PluginManager.IndexOf | enthought/envisage/tests/plugin_test_case.py:417-428 | the position of the first occurrence, which is within the list exactly when the plugin is registered |
| Lifecycle.PluginManager.RecomputeFed | enthought/envisage/tests/plugin_test_case.py:417-428 | every read point the removed plugin fed is recomputed and announced with its span as the removed list |
| Lifecycle.PluginManager.RemovePlugin | enthought/envisage/tests/plugin_test_case.py:417-428 | removes the first occurrence, keeping the read points consistent and announcing exactly what was removed; an unregistered plugin is an error and nothing changes |
| Lifecycle.PluginManager.GetService | enthought/envisage/tests/plugin_test_case.py:176-192 | the instance registered under the protocol, None when there is none |
| Lifecycle.PluginManager.ReadServiceAttribute | enthought/envisage/tests/plugin_test_case.py:139-147 | reading a plugin's `Service(P)` attribute gives the instance registered under P right now, None when there is none |
| Lifecycle.PluginManager.AssignAttribute | enthought/envisage/tests/plugin_test_case.py:149-150 | assigning to an attribute of a plugin raises SystemError exactly when it is one of the plugin's `Service(P)` attributes; the registry is untouched |
| LifecycleProperties.PluginTraceMarks | enthought/envisage/plugin_manager.py:83-85 | one plugin's start or stop announces and hooks it once and completes it exactly when the hook returns, with nothing of the other phase |
| LifecycleProperties.RunAllMarks | enthought/envisage/plugin_manager.py:62-69 | a run announces and hooks exactly the attempted plugins, completes exactly those whose hook returned, in list order |
| LifecycleProperties.RunAllQuiet | enthought/envisage/plugin_manager.py:94-105 | a start run fires no stop event and runs no stop hook, and the other way round |
| LifecycleProperties.RunAllTrace | enthought/envisage/plugin_manager.py:76-87 | a run's trace is the attempted plugins' brackets one after the other, never interleaved |
| LifecycleProperties.ActivatorDelegated | enthought/envisage/tests/plugin_test_case.py:105-116 | every attempted plugin with an activator has the activator called with it, in the run's phase |
| LifecycleProperties.StopMirrorsStart | enthought/envisage/plugin_manager.py:99-103 | stop announces, hooks and completes the plugins in exactly the reverse order start does |
| LifecycleProperties.StopRegistry | enthought/envisage/plugin_manager.py:103 | a stop run removes exactly the services of the plugins whose stop returned |
| LifecycleProperties.StartOwners | enthought/envisage/plugin_manager.py:67 | a start run keeps every entry it does not replace, and each new entry is owned by a plugin whose start returned |
| LifecycleProperties.StartThenStopClears | enthought/envisage/tests/plugin_test_case.py:186-192 | a full start then a full stop from an empty registry leaves it empty, so every lookup answers None |
| LifecycleProperties.DeclarationsAsWritten | enthought/envisage/plugin_manager.py:27-37 | definition: the event names the class body declares, in order, as written: starting, started, stopping, and started again |
| LifecycleProperties.DeclarationsIntended | enthought/envisage/plugin_manager.py:27-37 | definition: the same declarations with the fourth, under "Fired when a plugin has been stopped", naming `plugin_stopped` |
| LifecycleProperties.EventName | enthought/envisage/plugin_manager.py:27-37 | exactly the four lifecycle steps are events |
| LifecycleProperties.Delivered | enthought/envisage/plugin_manager.py:27-37 | the entries reaching listeners are exactly the trace's events whose name is declared |
| LifecycleProperties.StoppedNeverDelivered | enthought/envisage/plugin_manager.py:37 | as written, a normally stopped plugin's "stopped" event is assigned but reaches no listener |
| LifecycleProperties.StoppedDelivered | enthought/envisage/plugin_manager.py:36-37 | with "plugin_stopped" declared, that event reaches listeners |
| LifecycleProperties.EveryEventDelivered | enthought/envisage/plugin_manager.py:27-37 | with the intended declarations, every lifecycle event of any run reaches listeners |
| Scenarios.ActivatorScenario | enthought/envisage/tests/plugin_test_case.py:73-118 | starting and stopping [A, B] passes and hands A to its activator in both phases |
| Scenarios.ServiceScenario | enthought/envisage/tests/plugin_test_case.py:154-194 | A's three services are found under Foo, Bar and Baz while it runs, and none after stop |
| Scenarios.ProtocolScenario | enthought/envisage/tests/plugin_test_case.py:196-226 | a service declared with `service_protocol=IBar` is found under IBar, not under Foo, and is gone after stop |
| Scenarios.ServiceConsumerScenario | enthought/envisage/tests/plugin_test_case.py:120-152 | B's `Service(Foo)` attribute reads A's own `foo` instance while the application runs and None after stop; assigning to it raises SystemError and it still reads None |
| Scenarios.AmbiguityScenario | enthought/envisage/tests/plugin_test_case.py:228-250 | two attributes of B feeding x, tagged either way, make reading x a ValueError |
| Scenarios.ContributorFailureScenario | enthought/envisage/tests/plugin_test_case.py:252-280 | a contributor raising ZeroDivisionError makes reading x raise it |
| Scenarios.ContributesToScenario | enthought/envisage/tests/plugin_test_case.py:282-302 | a single `contributes_to='x'` attribute makes x read [1, 2, 3] |
| Scenarios.DynamicScenario | enthought/envisage/tests/plugin_test_case.py:352-430 | in an application started empty, to which A is added and then started, x reads [], [1,2,3], [1..6], [4,5,6], [] as B and C come and go, announced by exactly the matching added and removed lists |

## Left out

- Logging (`logger.debug`) has no observable effect and is not modelled.
- Trait machinery is not modelled:
  - Event objects and listener dispatch are recorded as `log` entries.
  - Trait validation is not modelled.
  - Lazy `_x_default` initialisers become a contribution that is either a list or the exception its initialiser raises.
- `Plugin.start`/`Plugin.stop`, the activator, and the code of the application and of its service and extension registries are not part of this model. The application's operations the tests call are methods of `PluginManager`, and their behaviour comes from the test suite:
  - A hook is one log entry (the activator's call, or the plugin's own hook).
  - When a hook returns, the plugin's services are registered on start and unregistered on stop.
  - An exception a hook raises is a per-plugin constant (`startError`/`stopError`).
- Lifecycle.PluginManager.StartPlugin: `plugin or self.get_plugin(id)` relies on Python truthiness. The model treats every given plugin as present.
- Lifecycle.PluginManager.StopPlugin: it treats a given plugin the same way, as present whatever its truthiness.
- Uniqueness of plugin ids is not enforced.
- Checking that an extension point is declared by some plugin is not modelled. Contributions to an undeclared point are merged like any other.
- When a plugin is added and its span at a point already read fails, the model drops that point from the cache. The error then resurfaces at the next read. The registry code that decides this is not part of this model.
- Lifecycle.PluginManager.RemovePlugin: its postcondition states the new cache values through `Valid()`, that is, consistency with the remaining plugins, rather than value by value.
- Services.Register: the registry keeps one entry per protocol. A later plugin registering a protocol an earlier plugin holds replaces its entry, and stopping the later plugin then leaves nothing under that protocol, though the earlier plugin still publishes it (`LaterRegistrationShadows`). How the registry code keeps several registrations of one protocol, and which one `get_service` returns, is not part of this model.
- Lifecycle.PluginManager.RemovePlugin: that removing an unregistered plugin is an error (`NotRegistered`) and changes nothing is an assumption. The code of `remove_plugin` is not part of this model, and the test suite only removes registered plugins.
- Lifecycle.PluginManager.AddPlugin: "items changed" notices are announced whether or not the plugin declaring the point has been started. The test suite connects extension-point traits when the declaring plugin starts (plugin_test_case.py:384-395) and only exercises that case, which `Scenarios.DynamicScenario` follows.
- Lifecycle.PluginManager.AssignAttribute: an assignment to an ordinary attribute passes, and its value is not stored. Plugin attributes other than services, service references, contributions and extension points are not part of this model.
- Lifecycle.PluginManager.ReadServiceAttribute: defined for `Service(P)` attributes only. Reading any other attribute is not part of this model.
- The thread of control that fires events is not modelled. Concurrency is absent from the source.

## Findings

| source | as written | input that shows it | evidently intended | confidence | as-written member | corrected member |
|---|---|---|---|---|---|---|
| enthought/envisage/plugin_manager.py:37 | the fourth event declaration, under the comment "Fired when a plugin has been stopped", declares `plugin_started` a second time, so `plugin_stopped`, which `stop_plugin` assigns at line 118, is never declared as an event | any plugin whose stop returns normally: its "stopped" assignment reaches no `plugin_stopped` listener | line 37 declares `plugin_stopped = Event(PluginEvent)` | medium, not executed | LifecycleProperties.StoppedNeverDelivered | LifecycleProperties.StoppedDelivered |
