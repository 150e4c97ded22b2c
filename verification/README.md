# Rule engine core, modelled in Dafny

This project models the core of a small IoT rule engine built around
KubeEdge device twins. It has three parts.

- **The device-twin mapper** (`utils/mapper`). A Python MQTT client keeps one
  device property in step with its twin. On a twin-get result it resolves
  the device towards the `expected` value and reports the `actual` value
  back. On a twin-update result it asks for the twin again. Two drivers are
  modelled: a switch (writable `status`, `"0"`/`"1"`) and a temperature
  sensor (read-only, fed by a sampling loop).
- **The controller** (`controller/common`). It has these pieces:
  - the reflector: an in-memory index of devices, scripts and the scripts
    that read each device;
  - the scheduler, which turns a script index into a `RunScript` order with
    a fresh script id;
  - the session service that hands orders to executors over gRPC;
  - the controller's life cycle;
  - the Kubernetes, MQTT and SQLite watchers that feed the reflector and
    trigger scripts;
  - the record types, with their display and JSON forms.
- **The executor** (`executor`). It has these pieces:
  - the client side of the session protocol;
  - the Deno worker that builds the op state for a run and reports how the
    run ended;
  - the ops a script calls (device tables, commit buffer, logging);
  - the module loaders.

Every operation is a pure function over immutable values. Channels, streams
and clocks become sequences and parameters: what a channel carries is the
sequence of values sent, a stream is the sequence of items read, and the
clock is a number passed in. A panic (`unwrap`, `expect`, `assert!`) is an
`Err` with the panic text, or an outcome that yields no report. There is one
module per source file, plus `Base` (Option/Result, u32/i32 helpers, integer
division that rounds toward zero) and `Text` (Rust's `split`, `splitn(2, _)`
and joining).

Two details of the mapper are easy to miss:

- After every resolve the mapper calls `update_twin(get_actual())`
  (utils/mapper/mapper.py:153-157). So a switch told to take a value
  outside `"0"`/`"1"` reports its unchanged status; see
  `Mapper.SwitchOutOfDomainStillReports`.
- Every device topic is `"$hw/events/device/" + name + suffix`, and each
  suffix starts with `/` (utils/mapper/mapper.py:11-21, 42).

## Model

| member | source | states |
|---|---|---|
| `Mapper.TopicKeepsSuffix` | utils/mapper/mapper.py:65-77 | Every topic of a device starts with the fixed prefix. The suffix can be read back from the topic, so two suffixes give the same topic only if they are equal. |
| `Mapper.TopicsDistinct` | utils/mapper/mapper.py:11-21 | A device's six topics are pairwise distinct. The global error topic is the update-result topic of the device with the empty name. |
| `Mapper.SnapshotOf` | utils/mapper/mapper.py:141-151 | Decoding a twin document fails exactly when the managed property is missing. Otherwise it yields that property's expected and actual values. |
| `Mapper.UpdateTwin` | utils/mapper/mapper.py:92-111 | `update_twin` publishes on the device's `/twin/update` topic an envelope with an empty event id and the clock's timestamp. The envelope holds only the managed property, with `actual` set to the value and metadata type `"Updated"`. |
| `Mapper.EchoedReportIsQuiescent` | utils/mapper/mapper.py:129-138 | The broker's echo of our own report carries no `expected`, so it never makes the mapper re-request the twin. |
| `Mapper.Start` | utils/mapper/mapper.py:31-63 | Only a writable device registers the get-result and update-result callbacks and subscribes to get-result. Every device then subscribes to its update result and to the error topic, and to nothing else (two topics, or three when writable). It announces `online` once. |
| `Mapper.NewSwitch` | utils/mapper/switch.py:7-9 | A new switch manages the writable property `status` and starts off (`"0"`). |
| `Mapper.NewTemp` | utils/mapper/temp.py:9-10 | A new sensor manages the read-only property `temperature` and starts at `"0"`. |
| `Mapper.SwitchResolve` | utils/mapper/switch.py:11-22 | The switch obeys `"0"` and `"1"` and ignores every other value and the `actual` argument. It keeps its status in `{"0","1"}`, and reads back `expected` exactly when `expected` is in its domain or was already its status. |
| `Mapper.OnTwinGet` | utils/mapper/mapper.py:141-157 | A get result without `expected`, or with `actual == expected`, does nothing. Otherwise the driver is resolved once and its new status is reported in one `update_twin`. |
| `Mapper.OnTwinUpdateResult` | utils/mapper/mapper.py:129-138 | An update result asks for the twin (one `{}` on `/twin/get`) exactly when it carries `expected`. |
| `Mapper.Deliver` | utils/mapper/mapper.py:47-55 | A message runs the callback registered for its topic. A topic with no callback only reaches the logging handler, which changes nothing. |
| `Mapper.ReadOnlyOnlyLogs` | utils/mapper/mapper.py:49-58 | On a read-only device no message on any topic resolves the driver, asks for the twin or publishes. |
| `Mapper.UpdateResultNeverResolves` | utils/mapper/mapper.py:129-138 | On a writable device the update-result topic never resolves the driver. It publishes `get_twin` exactly when `expected` is present. |
| `Mapper.SwitchConverges` | utils/mapper/mapper.py:147-157 | After one reconciliation towards an in-domain value the switch reports that value. The next snapshot that agrees with it is a no-op, so there is no republish loop. |
| `Mapper.DuplicateDeliveryIdempotent` | utils/mapper/mapper.py:141-157 | Handling the same get result twice leaves the driver as handling it once does, and repeats the same report. |
| `Mapper.SwitchOutOfDomainStillReports` | utils/mapper/mapper.py:153-157 | An out-of-domain `expected` leaves the switch unchanged, but its unchanged status is still reported. |
| `Mapper.SwitchInvariantKept` | utils/mapper/switch.py:8-19 | Whatever message is delivered, the switch's status stays `"0"` or `"1"`. |
| `Mapper.SampleLoopReports` | utils/mapper/temp.py:16-24 | Each numeric input line is reported once, in order, and becomes the status. The first non-numeric line ends the loop and is neither reported nor stored. |
| `ScriptApi.QosCode` | controller/common/src/api/script.rs:123-128 | Each QoS policy's number lies in 0..2, and the policy table at that number is the policy itself. |
| `ScriptApi.QosFromCode` | controller/common/src/api/script.rs:123-128 | A QoS number decodes exactly when it is 0, 1 or 2, and decodes to the policy with that number. |
| `ScriptApi.CodesInjective` | controller/common/src/api/script.rs:74-83 | Distinct script types and distinct policies have distinct numbers, so `as i32` loses nothing. |
| `ScriptApi.ScriptTypeFromStr` | controller/common/src/api/script.rs:96-107 | Exactly `js`, `wasm`, `so` and `exe` parse, and each parses to the type that displays as it. Anything else fails with "Unknown rule script". |
| `ScriptApi.ScriptTypeRoundTrip` | controller/common/src/api/script.rs:85-107 | Display then parse gives back the type. The four display strings are distinct. `"Js"` is rejected. |
| `ScriptSqlite3.ScriptTypeFromStr` | controller/common/src/api/script_sqlite3.rs:63-75 | The SQLite parser accepts the four display strings and also `"Js"`. Every other string gives "Unknown script type". |
| `ScriptSqlite3.SqliteScriptTypeRoundTrip` | controller/common/src/api/script_sqlite3.rs:52-75 | The round trip holds for the SQLite parser too. Apart from `"Js"` it accepts the same strings as the strict parser, with the same results. `"JS"` and `"Wasm"` fail. |
| `ScriptSqlite3.QosFromStr` | controller/common/src/api/script_sqlite3.rs:93-103 | Exactly the three variant names parse, each to its own policy. Anything else gives "Unknown QoS policy". |
| `ScriptSqlite3.QosFromStrRoundTrip` | controller/common/src/api/script_sqlite3.rs:86-103 | A policy's name parses back to that policy, and any string that parses is the name of its result. |
| `Ids.Gen` | controller/common/src/id.rs:74-78 | `gen` returns the counter and advances it by one, modulo 2^32. |
| `Ids.ScriptIdConversionRoundTrip` | controller/common/src/id.rs:9-19 | Converting a script id to u32 and back, or a u32 to a script id and back, changes nothing. |
| `Ids.GenManyConsecutive` | controller/common/src/id.rs:74-78 | n successive `gen` calls return n consecutive values, modulo 2^32, and leave the counter n further on. |
| `Ids.GenManyDistinct` | controller/common/src/id.rs:74-78 | Up to 2^32 successive ids from one generator are pairwise distinct. |
| `Ids.FreshGeneratorCountsFromOne` | controller/common/src/id.rs:65-72 | A fresh generator's first id is 1 and its k-th is k. |
| `Controller.NewController` | controller/common/src/controller.rs:60-68 | A new controller is in `Init` with no tasks. |
| `Controller.InitController` | controller/common/src/controller.rs:237-246 | `init` succeeds exactly from `Init` and moves to `Running`, keeping the tasks. Otherwise it panics with "Can't run twice". |
| `Controller.StopController` | controller/common/src/controller.rs:248-258 | `stop` succeeds exactly from `Running` and moves to `Stop`. It panics with "not init yet" in `Init` and "Already stop" in `Stop`. |
| `Controller.TraceStrictlyIncreasing` | controller/common/src/controller.rs:237-258 | Along any run of `init`/`stop` calls that does not panic, the state strictly increases in the order `Init` < `Running` < `Stop`. |
| `Controller.LegalTraces` | controller/common/src/controller.rs:237-258 | From a new controller, exactly `[]`, `[init]` and `[init, stop]` do not panic, and they pass through `[Init]`, `[Init, Running]` and `[Init, Running, Stop]`. |
| `Controller.WaitForInit` | controller/common/src/controller.rs:23-32 | `wait_for_init` returns exactly when some observed state is not `Init`, at the first such observation. |
| `Controller.WaitForStop` | controller/common/src/controller.rs:34-43 | `wait_for_stop` returns exactly when some observed state is `Stop`, at the first such observation. |
| `Controller.WaitConditionsOrdered` | controller/common/src/controller.rs:16-43 | `wait_for_init` waits for a state at least `Running`, and `wait_for_stop` for a state at least `Stop`. So whenever `wait_for_stop` would return, `wait_for_init` already has. |
| `DeviceApi.NewTwinProperty` | controller/common/src/api/device_sqlite3.rs:92-99 | `TwinProperty::new(v)` has value v and no metadata, and displays as v. |
| `DeviceApi.TwinDisplayShowsReported` | controller/common/src/api/device_sqlite3.rs:72-81 | A twin displays as `"<name>: <desired>"`, with `" (reported: <r>)"` appended exactly when there is a reported value. Two twins with the same name and desired value display alike only if they agree on whether and what was reported. |
| `DeviceApi.DisplayDeviceSpec` | controller/common/src/api/device_sqlite3.rs:40-50 | A device spec's display is exactly two lines. The first is `"Model: "` and the model name (empty when absent). The second is `"Node selector: "` and the selector's debug rendering. |
| `DeviceApi.TwinPropertyToJson` | controller/common/src/api/device_sqlite3.rs:84-90 | A twin property serialises with a `value` field, and with `metadata` exactly when the metadata is non-empty. |
| `DeviceApi.TwinToJson` | controller/common/src/api/device_sqlite3.rs:62-70 | A twin serialises with `propertyName` and `desired`, and with `reported` exactly when it is present. |
| `DeviceApi.DeviceStatusToJson` | controller/common/src/api/device_sqlite3.rs:53-58 | A device status serialises `twins` exactly when the list is non-empty. |
| `DeviceApi.StringMapJsonRoundTrip` | controller/common/src/api/device_sqlite3.rs:87-89 | A string map read back from its JSON object is the same map. |
| `DeviceApi.TwinPropertyJsonRoundTrip` | controller/common/src/api/device_sqlite3.rs:84-90 | Deserialising a serialised twin property gives it back, with an omitted `metadata` read as empty. |
| `DeviceApi.TwinJsonRoundTrip` | controller/common/src/api/device_sqlite3.rs:62-70 | Deserialising a serialised twin gives it back, with an omitted `reported` read as absent. |
| `DeviceApi.TwinsJsonRoundTrip` | controller/common/src/api/device_sqlite3.rs:53-58 | Deserialising a serialised list of twins gives back the list, in order. |
| `DeviceApi.DeviceStatusJsonRoundTrip` | controller/common/src/api/device_sqlite3.rs:53-58 | Deserialising a serialised device status gives it back, with an omitted `twins` read as empty. |
| `Scheduler.AddDevice` | controller/common/src/scheduler.rs:158-161 | `add_device` stores the device under its index, replacing any earlier entry. Scripts and selectors are untouched. |
| `Scheduler.RemoveDevice` | controller/common/src/scheduler.rs:162-167 | `remove_device` drops exactly the device's index and keeps every other entry. Removing an absent device changes nothing. |
| `Scheduler.RestartDevice` | controller/common/src/scheduler.rs:168-172 | `restart_device` touches only the device store. |
| `Scheduler.RestartDeviceStoresAll` | controller/common/src/scheduler.rs:168-172 | After `restart_device`, every listed device is stored, the last one wins among devices with the same index, and unlisted entries are kept. |
| `Scheduler.DeviceStoreLookups` | controller/common/src/scheduler.rs:158-167 | After adding a device, a lookup finds it. After removing it, the lookup fails. Lookups of other devices are unaffected. |
| `Scheduler.SelectedByName` | controller/common/src/scheduler.rs:211-225 | The devices a script reads are the `default`-namespace indices of the values of its read selector's `match_names`, and none when there are no names. |
| `Scheduler.AddScript` | controller/common/src/scheduler.rs:173-192 | `add_script` stores the script under its index, and the selector map gains an entry for every device the script reads. |
| `Scheduler.AddScriptTriggers` | controller/common/src/scheduler.rs:173-192 | After `add_script`, each device the script reads triggers it in addition to what it triggered before. Every other device triggers what it did. |
| `Scheduler.RemoveScriptIndex` | controller/common/src/scheduler.rs:193-202 | Removing a script drops exactly its index from the store. Devices are untouched and no selector entry is created or dropped. |
| `Scheduler.RemoveScriptUntriggers` | controller/common/src/scheduler.rs:193-202 | After `remove_script`, no device triggers the script and the lookup fails. Everything else that devices trigger is unchanged. |
| `Scheduler.AddThenRemoveScript` | controller/common/src/scheduler.rs:173-202 | A script added and then removed is neither stored nor triggered, and the other triggers are as before. |
| `Scheduler.RestartScript` | controller/common/src/scheduler.rs:203-208 | `restart_script` leaves the device store untouched. |
| `Scheduler.LookupScript` | controller/common/src/scheduler.rs:229-234 | A script lookup succeeds exactly for a stored index and returns that script. Otherwise it fails with the "not found in store" message. |
| `Scheduler.LookupDevice` | controller/common/src/scheduler.rs:236-241 | A device lookup succeeds exactly for a stored index and returns that device. Otherwise it fails with the "not found in store" message. |
| `Scheduler.MapDeviceToScript` | controller/common/src/scheduler.rs:243-255 | Mapping a device succeeds exactly when it has a selector entry and returns its script set. Otherwise it fails. |
| `Scheduler.ReportedStatusLastWins` | controller/common/src/scheduler.rs:271-286 | A property is in a device's read status exactly when some twin of it has a reported value. Its value is the one reported by the last such twin. |
| `Scheduler.LookupReadable` | controller/common/src/scheduler.rs:257-290 | The readable table has one entry per `match_names` alias whose device exists, with the device's resource name and reported status. Missing devices are skipped, and there are no entries without names. |
| `Scheduler.ReadableShowsReported` | controller/common/src/scheduler.rs:271-286 | A readable device's status shows exactly the reported values of its twins, last twin winning. |
| `Scheduler.LookupWritable` | controller/common/src/scheduler.rs:292-300 | The writable table has one entry per write-selector alias, naming its resource, whether or not the device exists. |
| `Scheduler.Triggered` | controller/common/src/scheduler.rs:309-318 | `trigger` sends the script set the selector map holds for the device, and nothing for a device without an entry. |
| `Scheduler.NewScheduler` | controller/common/src/scheduler.rs:110-115 | A new scheduler holds the reflector and a fresh id generator. |
| `Scheduler.Lookup` | controller/common/src/scheduler.rs:116-143 | `lookup` succeeds exactly for a stored script. The run order then has the generator's next id, the script's manifest, readable and writable tables, env and QoS. A failed lookup consumes no id. |
| `Scheduler.LookupAll` | controller/common/src/scheduler.rs:116-143 | A batch of lookups yields one result per index and never changes the reflector. |
| `Scheduler.LookupIdsConsecutive` | controller/common/src/scheduler.rs:116-125 | In a batch of lookups, the successful ones receive consecutive script ids in order. The generator advances by the number of successes. |
| `Sqlite3Trigger.ParseEntry` | controller/common/src/trigger/sqlite3api.rs:206-208 | An item splits at its first `':'`. The key holds no `':'`, the value keeps any further `':'`, and an item without `':'` has value `""`. |
| `Sqlite3Trigger.Collect` | controller/common/src/trigger/sqlite3api.rs:204-211 | The map's keys are exactly the keys of the parsed items. |
| `Sqlite3Trigger.CollectLastWins` | controller/common/src/trigger/sqlite3api.rs:205-210 | With duplicate keys, each key maps to the value of its last item. |
| `Sqlite3Trigger.ParseRenderRoundTrip` | controller/common/src/trigger/sqlite3api.rs:204-211 | Parsing comma-joined `key:value` items gives back the items' map (last one wins), when keys hold neither `,` nor `:` and values hold no `,`. |
| `Sqlite3Trigger.EmptyMatchString` | controller/common/src/trigger/sqlite3api.rs:204-211 | An empty column parses to the single pair (`""`, `""`), not to an empty map. |
| `Text.JoinSplit` | controller/common/src/trigger/sqlite3api.rs:205 | Splitting on a separator loses nothing: joining the pieces gives back the string. |
| `Text.SplitJoin` | controller/common/src/trigger/sqlite3api.rs:205 | Splitting the join of separator-free pieces gives back the pieces. |
| `Text.SplitOnceJoin` | controller/common/src/trigger/sqlite3api.rs:206-208 | `splitn(2, sep)` of key, separator, value gives back the key and the value when the key has no separator. |
| `Sqlite3Trigger.FetchScriptDetails` | controller/common/src/trigger/sqlite3api.rs:132-146 | Fetching a script succeeds exactly when its row exists, and fails with no rows otherwise. |
| `Sqlite3Trigger.FetchExecutePolicy` | controller/common/src/trigger/sqlite3api.rs:160-173 | The policy loads exactly when its row exists and its QoS text names a policy. An unknown QoS is an invalid query, and the other fields come from the row. |
| `Sqlite3Trigger.SelectorFromLastRow` | controller/common/src/trigger/sqlite3api.rs:186-200 | The read (write) selector comes from the last `readSelector` (`writeSelector`) row, with both of its columns parsed. |
| `Sqlite3Trigger.SelectorUnsetWithoutRow` | controller/common/src/trigger/sqlite3api.rs:178-200 | With no row of its type a selector stays unset, and rows of other types are ignored. |
| `Sqlite3Trigger.CreateScriptStruct` | controller/common/src/trigger/sqlite3api.rs:212-245 | Building a script fails exactly on an unknown script type. Otherwise register is `None`; env, policy and selectors are copied; the status comes from the row, with a negative elapsed time wrapped to u32. |
| `Sqlite3Trigger.LoadScript` | controller/common/src/trigger/sqlite3api.rs:90-94 | Loading succeeds exactly when the script and policy rows exist and both the QoS and the script type parse. A missing script row is "no rows". |
| `Sqlite3Trigger.ApplyEvent` | controller/common/src/trigger/sqlite3api.rs:97-121 | `Inserted` and `Updated` add the script, `Deleted` removes it, and any other event type changes nothing. |
| `Sqlite3Trigger.ImportIsInsertEvents` | controller/common/src/trigger/sqlite3api.rs:24-42 | Importing the existing scripts is the event loop fed one `Inserted` event per script id. |
| `Sqlite3Trigger.ProcessEventsAppend` | controller/common/src/trigger/sqlite3api.rs:83-122 | Two batches of events run one after the other are their concatenation run at once. The second batch runs only when the first ends without error. |
| `Sqlite3Trigger.ReflectorSqlite3` | controller/common/src/trigger/sqlite3api.rs:15-22 | An import query naming a column the `Script` table lacks returns that error before anything changes or is polled. Otherwise the import's error is returned, and a polling error is dropped. |
| `Sqlite3Trigger.ImportQueryNeverPolls` | controller/common/src/trigger/sqlite3api.rs:26 | As written, the import selects `id`, which the `Script` table does not have. For every database and event log, the reflector stays as it was and no event is polled. |
| `Sqlite3Trigger.FixedImportThenPolls` | controller/common/src/trigger/sqlite3api.rs:15-42 | Corrected to select `ScriptID`: import then polling is one event loop over an `Inserted` event per script followed by the logged events. Only the import's error is returned. |
| `Sqlite3Trigger.ProcessEventsStopsAtFirstFailure` | controller/common/src/trigger/sqlite3api.rs:83-122 | The loop stops at the first event whose script does not load. It reports that failure and keeps exactly the effect of the earlier events. |
| `Sqlite3Trigger.ProcessEventsAllLoad` | controller/common/src/trigger/sqlite3api.rs:83-122 | When every event's script loads, the loop reaches the end without error. |
| `Sqlite3Trigger.DeletedEventStopsPolling` | controller/common/src/trigger/sqlite3api.rs:90-111 | As written, a `Deleted` event, logged after its row is gone, fails to load. The script stays in the reflector and the following `Inserted` event is never applied. |
| `Sqlite3Trigger.ApplyEventFixed` | controller/common/src/trigger/sqlite3api.rs:108-111 | Corrected: a `Deleted` event never fails and removes the index remembered for its id. |
| `Sqlite3Trigger.DeleteAfterInsertRemoves` | controller/common/src/trigger/sqlite3api.rs:97-111 | Corrected: deleting a script inserted earlier removes it from the store and from every trigger set, and the loop goes on. |
| `Sqlite3Trigger.FixedLoopKeepsPolling` | controller/common/src/trigger/sqlite3api.rs:90-111 | Corrected: on the same events, the deletion takes effect and the later insertion is applied. |
| `Session.ClientVersion` | controller/common/src/session.rs:78-81 | The client version is the `re-version` header's text, or `""` when the header is missing or not visible ASCII. |
| `Session.ValidateMetadata` | controller/common/src/session.rs:77-91 | The header check passes exactly when the client version equals the server's. Otherwise it is `invalid_argument` naming both versions. |
| `Session.HandleFirstMessage` | controller/common/src/session.rs:93-126 | The handshake passes exactly for a `Connect` with client info. Other codes, a missing info and end-of-stream give `invalid_argument`, and a transport error gives `unknown`. |
| `Session.NewSessionManager` | controller/common/src/session.rs:61-75 | A new session manager has no scripts, no executors and a fresh executor-id generator. |
| `Session.LoopStep` | controller/common/src/session.rs:157-204 | Only a `Continue` with a scheduler task keeps the loop going. Only a closed stream yields nothing. Executors and ids never change in a step, and a terminal step changes nothing. |
| `Session.RunLoop` | controller/common/src/session.rs:157-216 | The loop yields at most one reply per event and never touches the id generator. When it ends, the executor is removed from the executor map; until then the map is unchanged. |
| `Session.Run` | controller/common/src/session.rs:134-219 | A session is refused exactly when the header check or the handshake fails, with that error and no id consumed. Otherwise it registers a fresh executor id, replies `Connected` with it first, and removes the executor when the loop ends. |
| `Session.ContinuesIndependently` | controller/common/src/session.rs:157-204 | Whether an event continues the loop depends only on the event, not on the session state. |
| `Session.RunLoopServesTasks` | controller/common/src/session.rs:157-215 | Before the first terminal event, each `Continue` is answered with its task's run, in order. The terminal event's reply comes last (none for a closed stream), and the executor is removed. |
| `Session.ContinueRecordsScript` | controller/common/src/session.rs:160-176 | A served task is recorded under its script id with its name, namespace and this executor. Other ids are untouched. |
| `Session.TimeConversionsExact` | controller/common/src/session.rs:233-244 | `last_run` is the start instant in whole milliseconds and `elapsed_time` the duration in whole microseconds modulo 2^32, when nanoseconds are non-negative. A missing value gives 0. |
| `Session.TruncationOnNegativeNanos` | controller/common/src/session.rs:237 | With negative nanoseconds the per-field division rounds toward zero, so `last_run` can exceed the instant's floor (1000 ms for 0.9995 s). |
| `Session.UpdateScriptStatus` | controller/common/src/session.rs:226-268 | An unknown script is `invalid_argument` with no patch. A running script is removed and patched with the converted times, the code and the message, and a failed patch is `internal`. |
| `Session.StatusReportedOnce` | controller/common/src/session.rs:226-266 | A second status report for the same script id is refused and patches nothing. |
| `Session.DesiredTwins` | controller/common/src/session.rs:281-289 | One twin per desired entry, with that value, empty metadata and no reported value. Property names are distinct and none is missing. |
| `Session.UpdateDeviceDesired` | controller/common/src/session.rs:275-309 | An unknown script is `invalid_argument` with no patch, and the script entry is kept. A failed patch is `internal`. After the patch, only `AtMostOnce` succeeds and the other policies are "Not implemented". |
| `ExecutorClient.RequestAccepted` | executor/common/src/lib.rs:56-73 | The client's request passes the server's header check exactly when the versions are equal. Its first message opens the session, and each later `Continue` keeps the loop going while the scheduler has a task. |
| `ExecutorClient.FirstMessage` | executor/common/src/lib.rs:85-100 | The handshake yields the executor id exactly for a `Connected` message. End-of-stream, a transport error, an empty message, `Disconnect` and `Script` are errors. |
| `ExecutorClient.RunForwardsInOrder` | executor/common/src/lib.rs:102-124 | With the worker channel open, the loop forwards every run before the first other item, in order. It ends as that item says: cleanly on `Disconnect`, with an error on `Connected`, an empty message, a transport error or end-of-stream. |
| `ExecutorClient.ClosedChannelStops` | executor/common/src/lib.rs:116-118 | If the worker channel closes after `n` runs while more runs follow, the first `n` runs are forwarded in order and the next send ends the loop with an error. `n = 0` is a channel closed from the start. |
| `ExecutorClient.TerminalReplyEnding` | executor/common/src/lib.rs:110-115 | The server's terminal reply never carries a run. The client ends cleanly on it exactly for a disconnect by either side. |
| `ExecutorClient.LoopAgreement` | executor/common/src/lib.rs:102-124 | Fed the server loop's replies, the client forwards exactly the runs the server took from the scheduler, in order, and ends cleanly exactly after a disconnect. |
| `ExecutorClient.SessionAgreement` | executor/common/src/lib.rs:53-83 | End to end, with equal versions the server accepts the client. The client learns the executor id the server generated and receives the served runs in order. |
| `DeviceOps.ListReadableDevices` | executor/deno/ops/devices.rs:31-40 | The readable list holds each readable alias exactly once. |
| `DeviceOps.ListWritableDevices` | executor/deno/ops/devices.rs:42-51 | The writable list holds each writable alias exactly once. |
| `DeviceOps.GetDeviceStatus` | executor/deno/ops/devices.rs:53-68 | A status read gives a value exactly when the alias is readable and its status has the property, and then gives that value. |
| `DeviceOps.UpdateDeviceDesired` | executor/deno/ops/devices.rs:77-93 | Staging succeeds exactly for a writable alias. It sets that property in the alias's commits and changes nothing else. Otherwise it fails with "Device not found". |
| `DeviceOps.CommitDevice` | executor/deno/ops/devices.rs:95-134 | A commit on a writable alias empties its commits. A request carrying the rule's script id, the resource name and the taken commits is sent exactly when the QoS is absent (rule default) or valid. An invalid QoS is a range error. |
| `DeviceOps.CommitSendsStaged` | executor/deno/ops/devices.rs:77-125 | A staged value is sent by the next commit with the others, and a second commit sends nothing. |
| `DeviceOps.WritesDoNotChangeReads` | executor/deno/ops/devices.rs:53-134 | Staging and committing change only the writable table, so every status read answers the same before and after them. |
| `DeviceOps.InvalidQosLosesCommits` | executor/deno/ops/devices.rs:101-119 | An invalid explicit QoS loses the staged values: nothing is sent and the next commit finds none. |
| `Ops.RuleUrl` | executor/deno/ops/lib.rs:42-50 | The script URL parses `register/name/version.js` and keeps that text as its href. A text that does not parse is the "Bad register url" panic. |
| `Ops.RuleUrlSegments` | executor/deno/ops/lib.rs:42-50 | For a `scheme://host[:port]` register, the script URL keeps the register's scheme, host and port, with path segments exactly name and `version.js`. |
| `Ops.RuleUrlExample` | executor/deno/src/worker.rs:277-297 | An illustration of `Ops.RuleUrlSegments` on the worker's test inputs, not evidence of its own: the URL of `my_script` 0.1_beta1 on the in-cluster register has scheme `http`, the register host, port 8080 and segments `my_script`, `0.1_beta1.js`. |
| `Proto.QosOrDefault` | executor/deno/src/worker.rs:41 | A known QoS number reads as its policy, and an unknown one reads as the default policy (number 0). |
| `Url.Parse` | executor/deno/ops/lib.rs:44-48 | A parsed URL has a valid scheme ending at the first `:` and keeps the input as href. A base URL has a path. A special scheme never gives a cannot-be-a-base URL, and `http`, `https`, `ws`, `wss` and `ftp` always give a host. A text without `:` is a relative URL without base. |
| `Url.ParseHierarchical` | executor/deno/ops/lib.rs:44-48 | `scheme://authority/seg/...` parses to that scheme, the authority's host and port, and exactly those segments. |
| `Url.OpaqueCannotBeABase` | executor/deno/src/loader.rs:33-35 | A URL whose scheme is not special and whose rest does not start with `/` parses, cannot be a base, and has that rest as its one path item. |
| `Url.PathOnlyIsABase` | executor/deno/src/loader.rs:33-35 | A scheme that is not special followed by a single `/` gives a base URL with no host, whose path is the rest split at slashes. |
| `Url.SpecialIgnoresSlashes` | executor/deno/src/loader.rs:33-35 | For `http`, `https`, `ws`, `wss` and `ftp`, any number of slashes before the host, none included, gives the same URL apart from its href. So `http:example.com/a.js` is a base URL. The href differs only because the model keeps the input text as href (see "## Left out"). |
| `Worker.FreshWorkerCommits` | executor/deno/src/worker.rs:58-70 | A new worker has nothing staged. Committing a listed device at once sends an empty desired map under the device's resource name and the run's default QoS. After one staged write the commit sends exactly that write. An unlisted alias is "Device not found". |
| `Worker.NewWorker` | executor/deno/src/worker.rs:32-94 | A worker needs a manifest (else the `unwrap` panic). Its rule has the run's id, the clock's start, the package and version, the manifest register or the default when empty, and the run's QoS. Readable devices and env pass through. |
| `Worker.RegisterFallback` | executor/deno/src/worker.rs:42-46 | An empty manifest register is replaced by the default, and a non-empty one is kept. |
| `Worker.RunInner` | executor/deno/src/worker.rs:134-160 | A bad register URL panics. A failed download or a non-2xx status fails the run before any script code runs. Otherwise the run ends as the script does. |
| `Worker.Elapsed` | executor/deno/src/worker.rs:114-119 | The duration's seconds and nanoseconds add up to the difference of the two instants, with nanoseconds of the same sign. |
| `Worker.Report` | executor/deno/src/worker.rs:101-126 | The report carries the rule's id and start and the elapsed time. It is `Ok` with an empty message on success, and `Crash` with the error's text on failure. |
| `Worker.Run` | executor/deno/src/worker.rs:96-132 | A report is sent exactly when the run did not panic, with code 0 on success and 1 on failure. |
| `Worker.ReportRecorded` | executor/deno/src/worker.rs:110-126 | The controller records a finished run's start in whole milliseconds, its duration in whole microseconds modulo 2^32, its code and its message, and forgets the script. |
| `Loader.RegisterResolve` | executor/deno/src/loader.rs:25-40 | The register loader resolves exactly a main module whose URL parses, can be a base and uses http or https. Each rejection has its own error. |
| `Loader.ReferrerIgnored` | executor/deno/src/loader.rs:29-32 | The referrer never changes what either loader resolves. |
| `Loader.RegisterLoad` | executor/deno/src/loader.rs:43-76 | A dynamic import is refused before any request. Otherwise the module loads exactly on a 2xx response, with the URL asked for as specified and the response URL as found; another status is an error. |
| `Loader.FsResolve` | executor/deno/src/loader.rs:83-90 | The file loader resolves exactly a main module whose URL parses. |
| `Loader.FsLoad` | executor/deno/src/loader.rs:92-122 | The file loader reads only for a non-dynamic base URL on no host or on `localhost`, whatever its scheme, and loads exactly when the read succeeds. The module is the path asked for, found at the canonical file URL. |
| `Loader.RegisterResolveNarrower` | executor/deno/src/loader.rs:24-90 | Whatever the register loader resolves, the file loader resolves identically. A web URL the file loader resolves is resolved identically by the register loader. |
| `Loader.FsLoadOfWebUrl` | executor/deno/src/loader.rs:104-121 | The file loader reads a URL the register loader accepts exactly when its host is `localhost`, and then reads `/` plus its path. It refuses any other host without reading. |
| `Loader.RegisterResolveIgnoresSlashes` | executor/deno/src/loader.rs:25-40 | For `http` and `https` the register loader resolves `scheme:rest` exactly as `scheme://` plus the rest without its leading slashes, apart from the href, which the model keeps as the input text. |
| `LogOps.LevelOf` | executor/deno/ops/log.rs:11-16 | Levels 0 to 3 are TRACE, DEBUG, INFO and WARN, and every byte from 4 up is ERROR. |
| `LogOps.LevelOrder` | executor/deno/ops/log.rs:11-16 | A level's severity is the byte capped at 4. A larger byte never logs less severely, and every level is reached. |
| `LogOps.Redirect` | executor/deno/ops/log.rs:28-31 | After the middleware no op is `op_print`. Where it was there is `op_log`, and every other op is unchanged and in its place. |
| `LogOps.RedirectIdempotent` | executor/deno/ops/log.rs:28-31 | A table without `op_print` is left as it is, so a second pass of the middleware changes nothing. |
| `LogOps.OpLog` | executor/deno/ops/log.rs:36-42 | `op_log` always succeeds. It logs at the mapped level the message with the rule's id, name, version and register. |
| `KubeApi.FanOut` | controller/common/src/trigger/kubeapi.rs:33-47 | Every registered hook receives the event exactly once, and no unregistered hook receives it, since a hook's failure is only logged. Every async hook comes before any sync hook, and each kind is served in registration order. |
| `KubeApi.ReflectorDeliversInOrder` | controller/common/src/trigger/kubeapi.rs:29-56 | Every event before the first watch error reaches every hook, event by event. The loop ends with that error, or "Reflector stop unexpected!" when the stream ends. |
| `KubeApi.MetaIndices` | controller/common/src/trigger/kubeapi.rs:98-103 | The restart loop sends the index of every device before the first one lacking a name or namespace, in order, and panics at that one. With no such device it sends all of them. |
| `KubeApi.TriggerHook` | controller/common/src/trigger/kubeapi.rs:90-106 | An applied device sends its one index, or panics without sending when it cannot be indexed. A restart sends as the restart loop does. A deletion sends nothing. |
| `KubeApi.DeviceHook` | controller/common/src/trigger/kubeapi.rs:114-121 | The device store follows the events: an applied device can be looked up, a deleted one cannot, and scripts are untouched. |
| `KubeApi.ScriptHook` | controller/common/src/trigger/kubeapi.rs:129-136 | The script store follows the events: an applied script can be looked up, a deleted one cannot, and devices are untouched. |
| `KubeApi.MetadataIndexMismatch` | controller/common/src/trigger/kubeapi.rs:85-106 | The hook sends the metadata's (namespace, name). A device outside `default` is never selected and never starts triggering when scripts are added. A device whose metadata name differs from its spec's name is sent under an index other than its store index. |
| `KubeApi.AppliedDeviceTriggersSelectors` | controller/common/src/trigger/kubeapi.rs:90-136 | A device named as the store names it is sent under its store index. A script applied afterwards is triggered by it exactly when it reads the device. |
| `MqttTrigger.MatchAt` | controller/common/src/trigger/mqtt.rs:69-76 | At a position, the pattern matches at most one name: the maximal run of name characters, when the suffix follows it. |
| `MqttTrigger.Search` | controller/common/src/trigger/mqtt.rs:69-76 | The search finds a match at or after the start, and none lies before it. |
| `MqttTrigger.Captures` | controller/common/src/trigger/mqtt.rs:69-81 | A topic captures a name exactly when the pattern matches somewhere. The name has only letters, digits, `-` and `_`, and comes from the leftmost match. |
| `MqttTrigger.CapturesExact` | controller/common/src/trigger/mqtt.rs:69-76 | The update-result topic of a valid name captures exactly that name. |
| `MqttTrigger.Classify` | controller/common/src/trigger/mqtt.rs:40-53 | Publish packets are delivered. PingResp, PubAck, PubRec, PubRel, PubComp, SubAck and outgoing events are skipped. Any other packet ends the client with an "Unexpected MQTT packet" error that carries that packet. A poll error ends it with its own message. |
| `MqttTrigger.PollLoopDeliversPublishes` | controller/common/src/trigger/mqtt.rs:39-66 | Every publish before the first failing event reaches every hook, in order. The loop stops with that event's error. |
| `MqttTrigger.MqttClient` | controller/common/src/trigger/mqtt.rs:19-67 | The client subscribes to `$hw/events/device/+/twin/update/result` at AtMostOnce only after a ConnAck. Nothing is delivered unless the subscription succeeded, and then the poll loop runs. |
| `MqttTrigger.TriggerHook` | controller/common/src/trigger/mqtt.rs:78-93 | A topic that does not match sends nothing and succeeds. A match sends one `default`-namespace index of the captured name, or fails with "Scheduler is down!" when the channel is closed. |
| `MqttTrigger.TriggerOnDeviceTopic` | controller/common/src/trigger/mqtt.rs:84-90 | A device's update-result topic triggers exactly that device's index. |
| `MqttTrigger.TriggerTestName` | controller/common/src/trigger/mqtt.rs:110-142 | The topic for `test_name` sends name `test_name` in namespace `default`. |

## Left out

- Transport and I/O are not modelled: the paho and rumqttc clients, tonic gRPC, the Kubernetes API and its patches, HTTP downloads, file reads and SQL text. Their results are parameters (a patch-succeeded flag, a response, the rows of a table).
- Concurrency is not modelled: tokio tasks, `select!` races, DashMap/flume semantics, `Controller::run`/`spawn`/`kill_all`. Maps are sequential values, and the controller state is an input.
- Hash iteration order is unspecified in the source. Maps and sets are modelled by their contents, and the list ops are proved to return each key once.
- JSON text is not modelled. Mapper payloads are structured values. A malformed or property-less payload (an exception in the callback) is a message that does nothing. Device records are modelled by their JSON shape (`Json` values), not their text.
- The `Debug` renderings in error messages are modelled without string escaping. The two executor errors that embed a `Debug` dump keep only the offending value. `MqttTrigger.Classify` keeps the unexpected packet itself rather than the text of its `Debug` dump.
- Logging, tracing and printing, including the `logger_hook`s of the Kubernetes and MQTT watchers, are left out: they change no state.
- The protobuf definitions are not part of this model. The wire numbers of `QosPolicy` and `ScriptStatusCode` are assumed to follow declaration order, as the API enums do.
- `Url.Parse`: only the URL subset the executor uses is modelled: scheme, host and port, path segments, and cannot-be-a-base. Query, fragment, userinfo, percent-encoding, case folding (so `HTTP` is not special), backslashes, dot segments, default ports and the rejection of ports in `file` URLs are not. An empty host is not told apart from no host. Bracketed IPv6 hosts are not modelled: the authority is split at its first `:`, so `http://[::1]:8080/a.js` is refused with `InvalidPort`, where the url crate reads host `[::1]` and port 8080. Host code points are not validated (so `http://a b/x` is accepted), and neither IPv4 nor IDNA host processing is modelled. The href of a parsed URL is the input text, not the url crate's serialisation. The crate would give `http://example.com/a.js` for `http:example.com/a.js`, `http://h/` for `http://h`, `http://h/a` for `http://h:/a`, and `file:///a/b` for `file:a/b`. This text reaches `Loader.RegisterLoad`'s module specifier (`as_str()`) and `Ops.RuleUrl`'s href.
- `Mapper.SampleLoopReports`: Python's `float()` acceptance is a predicate parameter, not a model of float syntax. The input lines are a finite sequence. Running out of them ends the loop without a crash, whereas `input()` (utils/mapper/temp.py:20) raises `EOFError` at end of input, so every finite input really ends in an exception.
- `MqttTrigger.MqttClient`: the broker's wildcard routing is not modelled. The events polled are an input, and the subscription is recorded, not enforced.
- `Worker.RunInner`: JavaScript execution and the bootstrap script are one input (their result). A panic in `bootstrap` is not modelled.
- `Session.TimeConversionsExact`: i64 overflow in `seconds * 1000` is not modelled (integers are unbounded). The u32 truncation is modelled.
- `Scheduler.RemoveScript` has no contract of its own. It is `RemoveScriptIndex` at the script's index, and `Scheduler.RemoveScriptUntriggers` states its effect.
- `Scheduler.RestartScript`: the contract states only that devices are untouched. Its effect on scripts is that of `AddScript` for each listed script, in order.
- `Ids`: that script and executor generators keep independent counters follows from their being separate values. No lemma states it.
- `KubeApi.TriggerHook`: a failed send to the scheduler also ends the hook. The model returns what would be sent and does not model a send failing.
- Device and script index: `Device` and `Script` are both derived custom resources. So the generic `From<&K> where K: Resource` (controller/common/src/scheduler.rs:52-63) overlaps both type-specific conversions: `From<&Script>` at scheduler.rs:65-73 and `From<&Device>` at scheduler.rs:74-81. The `Device`-specific conversion also does not type-check as written. The model takes the type-specific readings. A device's index is (`"default"`, the spec's name), which is what the selector map's `"default"` namespace implies. A script's index is (`"default"`, its manifest name). As a consequence, a script in another namespace, or one whose metadata name differs from its manifest name, is stored and looked up under its manifest name in `"default"`. `KubeApi.MetadataIndexMismatch` states what the device reading means for `trigger_hook`.
- Import in `reflector_sqlite3`: the ids the import query returns, and the events each poll returns, are inputs. Of the SQL text only the column the import query selects is checked against the `Script` table's columns.
- The webhook trigger, the servers (`server.rs`, `serverfuben.rs`), the stale copy `sessionfuben.rs`, `db.rs` CRUD (its schema is used only for the `Script` table's columns and the `AFTER DELETE` trigger), the mock controller, and the seeding scripts are outside this model.

## Findings

| source | as written | input that shows it | evidently intended | confidence | as-written member | corrected member |
|---|---|---|---|---|---|---|
| controller/common/src/trigger/sqlite3api.rs:90-111 | Every event first loads its script by id, and a failed load leaves the polling function with its error dropped. `Deleted` is logged by an `AFTER DELETE` trigger (controller/common/src/api/db.rs:71-76), so the row is already gone. This holds with SQLite's default of foreign keys not enforced. | Events `[(7, "Deleted"), (8, "Inserted")]` with script 7 in the reflector and only script 8 in the tables: the load of 7 finds no rows, 7 stays in the reflector, and 8 is never added. | A deletion removes the script without reading its row, and polling goes on. This assumes the import query succeeds, which it does not as written (next row); with it corrected, polling is reached and this applies. | not executed | `Sqlite3Trigger.DeletedEventStopsPolling` | `Sqlite3Trigger.FixedLoopKeepsPolling` |
| controller/common/src/trigger/sqlite3api.rs:26 | The import query is `SELECT id FROM Script`, but the `Script` table (controller/common/src/api/db.rs:15-24) has `ScriptID` and no `id` column. `prepare` fails, and `reflector_sqlite3` returns that error at line 18 before polling. | Any database created by db.rs, with any scripts and any event log: nothing is imported and no event is ever polled. | Select `ScriptID`, so that existing scripts are imported and the event log is then followed. | not executed | `Sqlite3Trigger.ImportQueryNeverPolls` | `Sqlite3Trigger.FixedImportThenPolls` |
