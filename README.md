# Alarm pipeline: orchestrator, event processor and event notifier

This Dafny project models the core of the `alarm_system` package. One run of the orchestrator does the following:

- It loads the alarms, plants, plant contacts and recorded events.
- It sorts the events by timestamp.
- It gives each alarm the events whose event name and plant both match its own.
- It hands each event to the **event processor**. The processor dispatches on the alarm's type to a registered plugin. Before the plugin runs, it raises the alarm's `last_event` watermark to the event's timestamp.
- When the plugin's result is truthy, it calls the **event notifier** with a copy of the alarm taken before processing. The notifier dispatches on (alarm type, result label) to a message builder. It then sends an e-mail with attachments and/or an SMS, depending on which contacts the plant has.
- Finally, it persists the updated alarm list.

The deprecated bulk variant of the processor, `process_alarms`, is modelled too.

Layout (one module per file):

- `types.dfy` (`AlarmTypes`): the record shapes `Alarm`, `Plant`, `Event` and `PlantContacts`. Also the processor result `Value` (`None`, a bool or a string) and its Python truthiness.
- `collections.dfy` (`Collections`): the list comprehension with a filter (`Filter`) and the dictionary comprehension (`Index`), in which a later element overwrites an earlier one with the same key.
- `event_order.dfy` (`EventOrder`): Python's stable `sorted` by timestamp, written as an insertion sort. Its stability is proved.
- `event_processor.dfy` (`EventProcessing`): the class `EventProcessor` and the functions that specify its methods.
- `event_notifier.dfy` (`EventNotification`): the class `EventNotifier`, the subject line, the file extension, the attachment map, channel selection and `Notify`. `Notify` is the specification of one `notify_trigger` call.
- `orchestrator.dfy` (`Orchestration`): the class `Orchestrator`, whose `Execute` is proved equal to the pure specification `Pass` of one run. `Replay` describes the notifier state that the notify calls leave behind.
- `orchestrator_properties.dfy` (`OrchestratorProperties`) and `processor_properties.dfy` (`ProcessorProperties`): what a run and the bulk variant guarantee.

Plugins are function values:

- A processor is `(Alarm, Event) -> Handled(alarm, result)`. It gets the alarm and gives back the alarm as it left it. The event is a value, so the plugin cannot change it.
- A message builder is `(Alarm, Event, Plant, Value) -> string`.

The connector is not called. What `load_system_data` returns is the `SystemData` argument of `Execute`. `update_system_alarms` is a `PersistCall` entry in the trace of calls that `Execute` returns, alongside `ProcessCall` and `NotifyCall`. The e-mail and SMS transports are not called either. Each send is appended to the notifier's `outbox`.

An event name shared by two alarms is handled as the code handles it. `indexed_events_by_alarm` is keyed by the event name alone. When two alarms of different plants share an event name, both are walked over the event list of the later of the two. `EventsHandedOver` states this in general, and `SharedEventNameOverwrites` exhibits it on a concrete input. The guarantees that an alarm sees exactly its own events are stated under the hypothesis that event names are distinct (`UniqueEventNames`).

## Model

| member | source | states |
|---|---|---|
| Collections.Filter | src/alarm_system/src/core/orchestrator.py:41 | the result holds only elements of the input that satisfy the condition, every such element appears in it, and it is no longer than the input |
| Collections.FilterCounts | src/alarm_system/src/core/orchestrator.py:41 | filtering keeps every matching element exactly as many times as it occurs and drops every other element |
| Collections.Index | src/alarm_system/src/core/orchestrator.py:32-35 | the dictionary has a key for every element and no key that no element carries |
| Collections.IndexLastWins | src/alarm_system/src/core/orchestrator.py:41 | the entry for a key is built from the last element carrying that key |
| EventOrder.SortByTimestamp | src/alarm_system/src/core/orchestrator.py:38 | the result is in non-decreasing timestamp order and is a permutation of the input |
| EventOrder.FilterSort | src/alarm_system/src/core/orchestrator.py:38-41 | selecting an alarm's events from the sorted list gives the same list as sorting that alarm's events |
| EventOrder.SortIsStable | src/alarm_system/src/core/orchestrator.py:38 | events with equal timestamps come out of the sort in their load order |
| EventOrder.Insert | src/alarm_system/src/core/orchestrator.py:38 | one step of the sort (`Insert`): the result holds the events already sorted plus the new one, each as often as before |
| EventOrder.InsertSorted | src/alarm_system/src/core/orchestrator.py:38 | inserting into a list in timestamp order keeps it in timestamp order |
| EventProcessing.Advance | src/alarm_system/src/processor/event_processor.py:62 | the watermark becomes the larger of its old value and the event's timestamp; no other field changes |
| EventProcessing.ProcessRaisesWatermark | src/alarm_system/src/processor/event_processor.py:60-67 | with a plugin that keeps watermark and type, one processing step leaves the watermark at max(timestamp, old) |
| EventProcessing.ProcessOutcome | src/alarm_system/src/processor/event_processor.py:60-67 | `Process` (`process_event` on values): an unregistered type gives `None` and the alarm as it was; otherwise the registered handler gets the alarm whose watermark alone is raised to max(timestamp, old), and its result is the outcome |
| EventProcessing.BulkEvents | src/alarm_system/src/processor/event_processor.py:39-46 | one result per event; with no events the alarm is unchanged, otherwise its watermark is the last event's timestamp |
| EventProcessing.BulkChain | src/alarm_system/src/processor/event_processor.py:39-41 | the k-th verdict appended is the processor's verdict on the k-th event, given the alarm as the earlier events left it |
| EventProcessing.AppendAll | src/alarm_system/src/processor/event_processor.py:41 | appending to a `defaultdict(list)`: the key appears only once something is appended, it gets the old list plus the new values, and other keys are untouched |
| EventProcessing.AppendOneMore | src/alarm_system/src/processor/event_processor.py:41 | appending the results one at a time builds the same map as appending them all at once |
| EventProcessing.BulkAlarms | src/alarm_system/src/processor/event_processor.py:25-48 | the alarm list keeps its length |
| EventProcessing.BulkStopsAtMissingEvents | src/alarm_system/src/processor/event_processor.py:30 | once an alarm's event name is missing from `events`, the KeyError leaves that alarm and all later alarms as loaded and the results as they were |
| EventProcessing.BulkAlarmsNext | src/alarm_system/src/processor/event_processor.py:25-48 | one more turn of the bulk loop: a missing event name stops it, an unregistered type leaves the alarm and the results alone, otherwise the alarm's run is written back and its results appended |
| EventProcessing.BulkStopsHere | src/alarm_system/src/processor/event_processor.py:30 | a missing event name for the next alarm ends the loop with that alarm and all later ones as loaded |
| EventProcessing.EventProcessor.constructor | src/alarm_system/src/processor/event_processor.py:15-18 | the dispatch table starts empty |
| EventProcessing.EventProcessor.RegisterProcessor | src/alarm_system/src/processor/event_processor.py:72-77 | the type maps to the new processor, overwriting any old one; every other type keeps its processor |
| EventProcessing.EventProcessor.ProcessEvent | src/alarm_system/src/processor/event_processor.py:56-69 | an unregistered type gives `None` and an unchanged alarm; otherwise the plugin sees the alarm with the raised watermark, and its result is returned verbatim |
| EventProcessing.EventProcessor.ProcessAlarms | src/alarm_system/src/processor/event_processor.py:21-53 | the array and the result map end as `BulkAlarms` describes, and `completed` is false exactly when a KeyError ended the loop |
| EventProcessing.EventProcessor.ProcessAlarmAt | src/alarm_system/src/processor/event_processor.py:26-48 | one turn for the alarm at an index: a KeyError when its event name is missing, a skip when its type has no processor, else the alarm is replaced by its run and the results are appended; no other slot changes |
| EventProcessing.EventProcessor.RunProcessor | src/alarm_system/src/processor/event_processor.py:39-46 | the event loop for one alarm appends every verdict under the alarm's name and assigns each event's timestamp to the watermark |
| ProcessorProperties.BulkOutcome | src/alarm_system/src/processor/event_processor.py:33-46 | with no processor or no events the watermark is unchanged; otherwise it ends equal to the last event's timestamp |
| ProcessorProperties.BulkCompletes | src/alarm_system/src/processor/event_processor.py:25-30 | the bulk loop completes exactly when every alarm's event name is in `events` |
| ProcessorProperties.BulkAlarmAt | src/alarm_system/src/processor/event_processor.py:25-48 | an alarm before the first missing name ends as its own run, unchanged when no processor is registered; every other alarm stays as loaded |
| ProcessorProperties.BulkAlarmsOutcome | src/alarm_system/src/processor/event_processor.py:25-48 | the loop completes exactly when every event name is in `events`; each alarm before the first missing name gets its own outcome (unchanged if no processor is registered); the rest stay as loaded |
| ProcessorProperties.BulkResultKeys | src/alarm_system/src/processor/event_processor.py:41 | every key of the result map is some alarm's event name |
| ProcessorProperties.BulkResults | src/alarm_system/src/processor/event_processor.py:33-41 | with distinct event names, an alarm the loop reached has an entry exactly when its type has a processor and it has events; the entry holds one result per event, in order |
| ProcessorProperties.BulkCanLowerWatermark | src/alarm_system/src/processor/event_processor.py:42-46 | the bulk variant assigns the timestamp, so an older event lowers the watermark from 10 to 5, where `process_event` keeps 10 |
| EventNotification.Subject | src/alarm_system/src/notifier/event_notifier.py:25 | the subject is "Alarm ", the event name, " triggered in " and the plant's display name, in that order |
| EventNotification.Split | src/alarm_system/src/notifier/event_notifier.py:38 | `split` gives at least one piece and no piece contains the separator |
| EventNotification.JoinSplit | src/alarm_system/src/notifier/event_notifier.py:38 | joining the pieces of a split with the separator gives the original string back |
| EventNotification.Extension | src/alarm_system/src/notifier/event_notifier.py:38 | the extension is a suffix of the path without a '.', preceded by a '.' unless it is the whole path |
| EventNotification.ExtensionIsLastPart | src/alarm_system/src/notifier/event_notifier.py:38 | the extension is the last piece of `path.split(".")` |
| EventNotification.Put | src/alarm_system/src/notifier/event_notifier.py:37-47 | adding an optional path adds exactly that key, maps it to its stem and extension, and leaves every other key alone |
| EventNotification.AttachmentKeepsExtension | src/alarm_system/src/notifier/event_notifier.py:38-45 | `AttachmentName`: the name is "inference" or "original", a dot, then an extension equal to the file's own |
| EventNotification.Attachments | src/alarm_system/src/notifier/event_notifier.py:35-47 | the keys are exactly the transfer paths present; the original path maps to "original.<ext>"; an inference path different from it maps to "inference.<ext>"; when the paths coincide the original wins |
| EventNotification.Channels | src/alarm_system/src/notifier/event_notifier.py:49-57 | an e-mail with subject, body and attachments is sent iff there are e-mail contacts; an SMS with the body is sent iff there are phone contacts; nothing else is sent; the e-mail goes first |
| EventNotification.Notify | src/alarm_system/src/notifier/event_notifier.py:24-59 | true iff a builder is registered for (type, label); false sends nothing; true sends on the channels chosen by `Channels`, whichever they are; reading the table only adds the alarm's type as a key and never changes a registration |
| EventNotification.Lookup | src/alarm_system/src/notifier/event_notifier.py:29 | a builder is found exactly when the type has an entry holding the label, and it is the one stored there |
| EventNotification.LookupEmptyEntry | src/alarm_system/src/notifier/event_notifier.py:21-29 | the `defaultdict(dict)` read is harmless: a type with no entry and a type with the empty entry it creates both give no builder |
| EventNotification.EventNotifier.constructor | src/alarm_system/src/notifier/event_notifier.py:21 | the builder table and the outbox start empty |
| EventNotification.EventNotifier.RegisterMessageBuilder | src/alarm_system/src/notifier/event_notifier.py:62-67 | sets the builder for (type, label), with `True` as the default label, overwriting any old one; every other (type, label) keeps its builder |
| EventNotification.EventNotifier.NotifyTrigger | src/alarm_system/src/notifier/event_notifier.py:24-59 | the returned flag, the new builder table and the appended sends are those of `Notify` on the table before the call |
| AlarmTypes.FalsyValues | src/alarm_system/src/core/orchestrator.py:52 | `Truthy`, the `if not event_result` test: a processor result is falsy exactly when it is `None`, `False` or the empty string, and truthy otherwise |
| Orchestration.RunAlarms | src/alarm_system/src/core/orchestrator.py:43-55 | an alarm is updated only once the loop has reached it; if the loop is not aborted, every alarm was handled |
| Orchestration.IndexedPlants | src/alarm_system/src/core/orchestrator.py:35 | `IndexPlants`: every plant's name is a key, and each key holds a loaded plant of that name |
| Orchestration.IndexedContacts | src/alarm_system/src/core/orchestrator.py:32 | `IndexContacts`: every contact record's plant name is a key, and each key holds a loaded record of that plant |
| Orchestration.IndexedEvents | src/alarm_system/src/core/orchestrator.py:41 | `IndexEvents`: every alarm's event name is a key, and each key holds the sorted events owned by some alarm of that name |
| Orchestration.RunEventsNext | src/alarm_system/src/core/orchestrator.py:48-55 | one more event is processed from the alarm as the walk so far left it, and adds its processor call and, if truthy, its notifier call |
| Orchestration.PassOver | src/alarm_system/src/core/orchestrator.py:43-58 | the alarm list after the loop and the persist step has one alarm per loaded alarm |
| Orchestration.Pass | src/alarm_system/src/core/orchestrator.py:24-58 | the persisted alarm list has one alarm per loaded alarm |
| Orchestration.RunAlarmsNext | src/alarm_system/src/core/orchestrator.py:43-46 | the next alarm either raises a KeyError (missing plant, contacts or events entry) or is walked over its events |
| Orchestration.AbortIsFinal | src/alarm_system/src/core/orchestrator.py:44-46 | once a KeyError has ended the loop, the later alarms change nothing |
| Orchestration.Orchestrator.constructor | src/alarm_system/src/core/orchestrator.py:16-22 | the orchestrator keeps the processor and notifier it is given |
| Orchestration.Orchestrator.Execute | src/alarm_system/src/core/orchestrator.py:24-58 | the calls made are those of `Pass`, and the notifier ends as `Replay` of those calls on its state before the run |
| Orchestration.Orchestrator.WalkAlarms | src/alarm_system/src/core/orchestrator.py:43-46 | the alarm loop produces the updated alarms, the calls and the abort flag given by `RunAlarms` |
| Orchestration.Orchestrator.HandleEvent | src/alarm_system/src/core/orchestrator.py:49-55 | the processor gets the alarm; a truthy result makes one notifier call with the alarm as it was before processing, and the notifier ends as the replay of those calls |
| Orchestration.Orchestrator.WalkEvents | src/alarm_system/src/core/orchestrator.py:48-55 | the event loop for one alarm produces the alarm and the calls given by `RunEvents`, and the notifier ends as the replay of those calls |
| OrchestratorProperties.EventCallsPaired | src/alarm_system/src/core/orchestrator.py:49-55 | one event leads to one processor call, then a notifier call exactly when the result is truthy, and no persist call |
| OrchestratorProperties.EventCallsShape | src/alarm_system/src/core/orchestrator.py:49-55 | `EventCalls`: one processor call carrying the result, then a notifier call with the pre-event alarm and the result as label exactly when the result is truthy |
| OrchestratorProperties.SegmentChain | src/alarm_system/src/core/orchestrator.py:48-50 | the processor gets the alarm's events in list order; the first gets the loaded alarm and each later one the alarm as the previous event left it; each result is the processor's |
| OrchestratorProperties.SegmentStep | src/alarm_system/src/core/orchestrator.py:48-50 | one more event adds exactly one processor call, with the alarm as the walk so far left it |
| OrchestratorProperties.SegmentPaired | src/alarm_system/src/core/orchestrator.py:49-55 | within one alarm's walk, each truthy result is followed at once by its notifier call with the pre-event alarm, the event and the result as label; no other notifier call is made |
| OrchestratorProperties.SegmentProcessed | src/alarm_system/src/core/orchestrator.py:48-50 | one alarm's walk hands the processor exactly its events, in order |
| OrchestratorProperties.RunEventsCallCount | src/alarm_system/src/core/orchestrator.py:48-55 | `RunEvents`, the inner loop: a walk makes exactly one processor call per event, at most one notifier call per event, and no other call |
| OrchestratorProperties.SegmentWatermark | src/alarm_system/src/processor/event_processor.py:60-67 | with a plugin that keeps watermark and type, the walk ends with the watermark at the largest of its old value and the events' timestamps |
| OrchestratorProperties.SegmentUnregistered | src/alarm_system/src/processor/event_processor.py:60-65 | an alarm with no processor gets `None` for every event, stays unchanged and triggers no notification |
| OrchestratorProperties.RunAlarmsStop | src/alarm_system/src/core/orchestrator.py:43-46 | the alarm loop stops early exactly at the first alarm without a plant, contacts or events entry |
| OrchestratorProperties.RunAlarmsDone | src/alarm_system/src/core/orchestrator.py:43-55 | each alarm the loop handled had its three entries and ends as its own walk from its loaded state left it |
| OrchestratorProperties.RunAlarmsReady | src/alarm_system/src/core/orchestrator.py:44-46 | every alarm the loop handled had its plant, contacts and events entries |
| OrchestratorProperties.RunAlarmsCalls | src/alarm_system/src/core/orchestrator.py:43-55 | the loop's calls are the walks of the handled alarms, one after the other in load order |
| OrchestratorProperties.RunAlarmsOutcome | src/alarm_system/src/core/orchestrator.py:43-55 | alarms are handled in load order, each from its loaded state, up to the first alarm without a plant, contacts or events entry, where the loop stops |
| OrchestratorProperties.AllCallsShape | src/alarm_system/src/core/orchestrator.py:43-55 | the calls of all the walks pair notifier calls with truthy results and contain no persist call |
| OrchestratorProperties.WalkedEvents | src/alarm_system/src/core/orchestrator.py:38-41 | an alarm's events are exactly the loaded events matching both its event name and its plant, with their multiplicities, in non-decreasing timestamp order, with ties in load order |
| OrchestratorProperties.EventsHandedOver | src/alarm_system/src/core/orchestrator.py:41-46 | the events entry of an alarm exists and holds the events of the last alarm sharing its event name |
| OrchestratorProperties.EventsOfUniqueAlarm | src/alarm_system/src/core/orchestrator.py:41-46 | with distinct event names, each alarm's entry holds its own events |
| OrchestratorProperties.SharedEventNameOverwrites | src/alarm_system/src/core/orchestrator.py:41-46 | an event that belongs to the first of two alarms sharing an event name is not walked for it |
| OrchestratorProperties.ReadyIffRecords | src/alarm_system/src/core/orchestrator.py:44-46 | the three lookups succeed exactly when a plant record and a contacts record with the alarm's plant name exist |
| OrchestratorProperties.RunAlarmsCompletes | src/alarm_system/src/core/orchestrator.py:43-46 | the alarm loop runs to the end exactly when every alarm has its three entries |
| OrchestratorProperties.PassOverCalls | src/alarm_system/src/core/orchestrator.py:43-58 | the calls are the walks of the handled alarms in load order, then a persist call, which is made exactly when every alarm had its entries |
| OrchestratorProperties.PassOverShape | src/alarm_system/src/core/orchestrator.py:43-58 | each notifier call follows its truthy processor call, and the persist call, if made, is the last call and the only one |
| OrchestratorProperties.PassOverFinal | src/alarm_system/src/core/orchestrator.py:43-58 | when every alarm has its entries, the list is persisted with each alarm as its own walk left it |
| OrchestratorProperties.PassOverWithoutEvents | src/alarm_system/src/core/orchestrator.py:43-58 | when no alarm has events, the alarms end unchanged and no processor or notifier call is made: the only call is one persist if every alarm has its entries, and there is no call at all otherwise |
| OrchestratorProperties.RunAlarmsUnchanged | src/alarm_system/src/core/orchestrator.py:43-55 | when no alarm has events, the loop leaves every alarm as loaded, whether or not it stops early |
| OrchestratorProperties.ReadyIffComplete | src/alarm_system/src/core/orchestrator.py:44-46 | every alarm's lookups succeed exactly when every alarm has a plant record and a contacts record |
| OrchestratorProperties.PassPersistence | src/alarm_system/src/core/orchestrator.py:43-58 | the alarm list is persisted iff every alarm has its records, then exactly once and as the last call; otherwise never |
| OrchestratorProperties.PassFinalAlarms | src/alarm_system/src/core/orchestrator.py:43-58 | the persisted list holds each alarm as its own walk left it |
| OrchestratorProperties.PassPaired | src/alarm_system/src/core/orchestrator.py:48-55 | over a whole run, the notifier is called exactly once for each truthy result, right after it, with the alarm as it was before that event; never for `None`, `False` or `""` |
| OrchestratorProperties.PassWithoutEvents | src/alarm_system/src/core/orchestrator.py:41-58 | with no events loaded, the alarms end as loaded and no processor or notifier call is made: one persist when all records are present, no call at all when a KeyError ends the run |
| OrchestratorProperties.PassWatermark | src/alarm_system/src/core/orchestrator.py:48-50 | with distinct event names, an alarm without a processor is persisted as loaded; with a plugin that keeps watermark and type, the watermark ends at the latest of its old value and its events' timestamps, never lower than either |
| OrchestratorProperties.LatestCoversOwned | src/alarm_system/src/core/orchestrator.py:38-41 | the latest timestamp over an alarm's walked events is at least that of every loaded event matching its event name and plant |
| OrchestratorProperties.VisitOrder | src/alarm_system/src/core/orchestrator.py:43-50 | the processor gets the alarms' event lists one after the other, in alarm load order |
| OrchestratorProperties.PassVisitOrder | src/alarm_system/src/core/orchestrator.py:43-58 | in a run that persists, the events handed to the processor are the alarms' event lists in load order |
| OrchestratorProperties.ReplayKeepsRegistrations | src/alarm_system/src/notifier/event_notifier.py:24-59 | notifying never changes a registered builder and only appends to the sends made before |
| OrchestratorProperties.ReplayIgnoresOtherCalls | src/alarm_system/src/core/orchestrator.py:50-58 | `Replay`: processor calls and the persist leave the notifier's builders and sends as they were |

## Left out

- Logging: every logger argument and call is dropped. Plugins do not receive a logger.
- The connector's database access (`load_system_data`, `update_system_alarms`): the loaded records are an argument and the persist is a trace entry. The watermark filter that the connector applies to events is not a precondition. The orchestrator relies on `plant_name`/`event_name` matching only.
- The e-mail and SMS transports, `enable_sftp` and the mailer/SMS setup in the notifier constructor: each send is recorded in `outbox`. Transport failures are not modelled.
- `alarms_indexed` (orchestrator.py line 29) is built but never read, so it is not modelled.
- `deepcopy` and aliasing: alarms are values. The snapshot taken before processing is therefore the value before processing. Writing the processed alarm back into the list replaces in-place mutation of a shared dictionary.
- `str(...)` conversions around keys: keys are already strings.
- Thread safety: a run is sequential.
- Extra dictionary keys beyond the documented ones, and values of other Python types: records are datatypes with the documented fields, and timestamps are integers.
- EventProcessing.EventProcessor.ProcessEvent: an alarm without a `last_event` key (a KeyError caught at line 63, giving `None`) cannot be expressed, because `lastEvent` is a required field. The connector always sets it.
- Orchestration.Orchestrator.Execute: a processor plugin that raises is not modelled, because handlers are total functions. In the source the plugin call (event_processor.py line 67) is outside the `try`, so its exception leaves `execute` at orchestrator.py line 50. At that point the alarm's watermark has already been raised in memory (event_processor.py line 62) and the earlier notifications have been sent, but `update_system_alarms` (orchestrator.py line 58) never runs.
- EventNotification.EventNotifier.NotifyTrigger: a builder that itself raises a KeyError, which the source catches and turns into `False`, is not modelled. Builders are total functions.
- EventNotification.Attachments: a transfer key that is present but not a string would make `split` raise. The model only has absent or string paths.
- Plugin bodies (registered processors and message builders) are uninterpreted function values. The watermark guarantees of a whole run assume a plugin that leaves `last_event` and `type_alarm` alone (`KeepsWatermark`), since the source does not forbid a plugin from changing them.
- OrchestratorProperties.PassWatermark and OrchestratorProperties.EventsOfUniqueAlarm assume distinct event names. Without that, `EventsHandedOver` describes which events an alarm gets.
- ProcessorProperties.BulkResults assumes distinct event names. When two alarms share one, `AppendAll` merges their verdicts under that key, and only `BulkAlarmsNext` states this, one alarm at a time.
