# Scare box backend, modelled in Dafny

The scare box is a Halloween prop. A microphone listens for a loud sound
and triggers a scare sequence. A state machine walks from NON_TRICK
through a countdown of twenty ticks, an active phase and a reset phase,
then back to NON_TRICK. A controller turns each state change into light
and sound effects. Everything the box does is logged. Telemetry is pushed
to browser dashboards over WebSockets.

This project models the backend's core as pure Dafny functions over
immutable datatypes. Python calls that have side effects (hardware
drivers, `asyncio` tasks, socket sends) become values the functions
return: the effects a call requests, and the messages it sends.

| file | module | models |
|---|---|---|
| `wrappers.dfy` | `Wrappers` | `Option` |
| `json.dfy` | `Json` | the JSON values the backend sends and accepts |
| `seqs.dfy` | `Seqs` | `deque(maxlen)`, `s[-n:]`, `list.remove` and two filters |
| `observers.dfy` | `Observers` | callback fan-out with per-callback `try/except` |
| `state_machine.dfy` | `StateMachine` | `backend/state_machine.py` |
| `event_logger.dfy` | `EventLogger` | `backend/utils/event_logger.py` |
| `manager.dfy` | `Manager` | `backend/websocket/manager.py` |
| `streams.dfy` | `Streams` | `backend/websocket/streams.py` |
| `controller.dfy` | `Controller` | `backend/controller.py` |

How the model treats time and concurrency:

- **The sequence task.** `trigger_sequence` creates a task. The model
  marks it `Scheduled`; it has not started. `Resume` runs the task from
  one `await asyncio.sleep` to the next. `Cancel` delivers
  `CancelledError` at the point where the task is suspended. `Drive`
  resumes the task a given number of times. `FullRun` and `CancelledRun`
  are independent, position-by-position definitions of the traces a run
  should produce, and lemmas tie `Drive` to them.
- **Socket failures.** Which connections fail a send is an input: a set
  of connection ids.
- **Callback failures.** Which callbacks raise is also an input: a set of
  callback ids.
- **Tasks the controller creates.** `_on_audio_trigger` creates a
  `trigger_sequence` task; the model counts these in `pendingTriggers`.
  This assumes the handler runs on the event loop (see "Left out").
- **Hardware.** The controller's hardware calls are `Effect` values, in
  the order the source issues them.

## Model

| member | source | states |
|---|---|---|
| Seqs.Suffix | backend/utils/event_logger.py:51 | A `deque(maxlen=n)` keeps the last `n` elements: exactly `min(|s|, n)` of them, and they are the tail of the input. |
| Seqs.SliceFrom | backend/utils/event_logger.py:113-114 | Python's `s[start:]`: a non-negative start drops that many elements; a negative start keeps the last `-start` elements. |
| Seqs.Remove | backend/websocket/manager.py:21-25 | `list.remove` behind an `in` check: the list is unchanged when the value is absent; otherwise it is one element shorter, with exactly one occurrence removed (multiset difference). |
| Seqs.FirstIndex | backend/websocket/manager.py:23-24 | The position `list.remove` searches for: an occurrence of the value with none before it. |
| Seqs.RemoveFirst | backend/websocket/manager.py:23-24 | `list.remove` takes out the first occurrence only; the elements before and after it stay, in their order. |
| Seqs.Without | backend/websocket/manager.py:35-48 | The connections that survive a broadcast: exactly those not in the dropped set. |
| Seqs.Within | backend/websocket/manager.py:37-44 | The `disconnected` list a broadcast builds: exactly the connections in the failed set. |
| Seqs.RemoveEachWithin | backend/websocket/manager.py:35-48 | Removing each collected failure, one at a time, leaves exactly the healthy connections in their original order. |
| Seqs.SuffixAppend | backend/utils/event_logger.py:51-71 | Trimming the buffer before an append keeps what trimming after the append keeps. A bounded log therefore forgets nothing it would later need. |
| Observers.Notify | backend/utils/event_logger.py:75-80 | Each registered callback is called once, in registration order, with the same event; it raises exactly when it is in the raising set. |
| Observers.NotifyIsolatesFailures | backend/state_machine.py:143-152 | Which callbacks are reached does not depend on which of them raise. Every registered callback is reached. |
| StateMachine.Init | backend/state_machine.py:36-52 | A new machine rests in NON_TRICK, in CHILD mode, with no task and no callbacks, using the timing it was given. |
| StateMachine.TriggerSequence | backend/state_machine.py:66-80 | A task is scheduled exactly when the machine is in NON_TRICK and no task is pending or running. Otherwise nothing changes. |
| StateMachine.Transition | backend/state_machine.py:123-135 | A transition sets the new state and emits one event from the old state to the new one, with no countdown value. |
| StateMachine.Resume | backend/state_machine.py:82-121 | One resumption keeps the machine valid and its timing, mode and callbacks. It emits two events from `Scheduled` and one otherwise, starting from the current state and ending in the new state. |
| StateMachine.Cancel | backend/state_machine.py:100-102 | Cancelling a suspended run moves it to NON_TRICK with one event. Cancelling a task that never started runs none of its body. |
| StateMachine.Stop | backend/state_machine.py:168-174 | `stop` always ends in NON_TRICK with no task, and the machine can then trigger. It emits one event, or two when it cancels a suspended run, and every event enters NON_TRICK. |
| StateMachine.UpdateTiming | backend/state_machine.py:154-166 | Each duration given replaces the current one. The others, and the rest of the machine, stay as they were. |
| StateMachine.SetMode | backend/state_machine.py:54-56 | Only the mode changes. |
| StateMachine.RegisterCallback | backend/state_machine.py:137-141 | The callback is appended after the earlier ones. |
| StateMachine.Drive | backend/state_machine.py:82-121 | Any number of resumptions keeps the machine invariant, the timing and the mode. |
| StateMachine.CountdownTicks | backend/state_machine.py:104-121 | The countdown emits twenty ticks. Tick `i` stays in TRICK_COUNTDOWN and reports `d - i*(d/20)` seconds remaining. |
| StateMachine.CancelledRun | backend/state_machine.py:100-102 | A run cancelled after `k` events has the uncancelled run's first `k` events, then one event into NON_TRICK. |
| StateMachine.RunEvent | backend/state_machine.py:82-135 | Event `k` of a run leaves the state the run is in after `k` events and enters the state it is in after `k + 1`. |
| StateMachine.FullRunAt | backend/state_machine.py:82-121 | The concatenated trace `FullRun` agrees with the position-wise `RunEvent` at every index. |
| StateMachine.FullRunShape | backend/state_machine.py:82-121 | A run enters the countdown, ticks twenty times, then goes to active, reset and NON_TRICK; each event leaves the state the previous one entered. |
| StateMachine.CountdownValues | backend/state_machine.py:109-119 | The first tick reports the full duration and the last reports one twentieth of it, not 0. For a positive duration the values strictly decrease and stay positive. |
| StateMachine.TickIsRemaining | backend/state_machine.py:109-119 | A tick taken with the step fixed when the countdown began reports the time `Remaining` defines. |
| StateMachine.ResumeFollowsFullRun | backend/state_machine.py:82-121 | A resumption from a suspension point emits the next event of the uncancelled trace. |
| StateMachine.ResumeAdvances | backend/state_machine.py:82-121 | A resumption moves the run one event further, into the state that event enters; the last resumption ends the task in NON_TRICK. |
| StateMachine.DriveFollowsFullRun | backend/state_machine.py:82-121 | `n` resumptions from a suspension point emit exactly the next `n` events of the uncancelled trace. |
| StateMachine.DriveAdvances | backend/state_machine.py:82-121 | After `n` resumptions the run is `n` events further on, or finished in NON_TRICK with no task. |
| StateMachine.DriveFromScheduled | backend/state_machine.py:70-121 | The first `n` resumptions of a scheduled run emit the first `n + 1` events of the uncancelled trace. |
| StateMachine.RunCompletes | backend/state_machine.py:82-102 | A triggered run left alone emits exactly the uncancelled trace. It ends with no task, back in NON_TRICK, and able to trigger again. |
| StateMachine.CancelAnywhere | backend/state_machine.py:100-102 | Cancelling at any suspension point produces `CancelledRun`. `stop` adds one more NON_TRICK event and restores the resting machine. |
| StateMachine.RejectedWhileBusy | backend/state_machine.py:66-80 | While a task is pending or running, a trigger changes nothing. `can_trigger` is false exactly once the run has started. |
| StateMachine.TriggerIdempotent | backend/state_machine.py:70-80 | Triggering twice is the same as triggering once. |
| StateMachine.RejectedDuringRun | backend/state_machine.py:66-80 | At every point inside a run, `can_trigger` is false and a trigger is ignored. |
| EventLogger.ToDict | backend/utils/event_logger.py:36-44 | `to_dict` has exactly the keys level, category, message and details; a missing `details` becomes `{}`. |
| EventLogger.ToDictInjective | backend/utils/event_logger.py:36-44 | Two events with the same dictionary agree on level, category, message and details; a missing `details` reads as `{}`. |
| EventLogger.LevelValueInjective | backend/utils/event_logger.py:10-15 | Distinct levels have distinct string values. |
| EventLogger.CategoryValueInjective | backend/utils/event_logger.py:18-24 | Distinct categories have distinct string values. |
| EventLogger.NewLogger | backend/utils/event_logger.py:50-52 | A new logger is empty, with no callbacks and the given capacity. |
| EventLogger.Log | backend/utils/event_logger.py:54-80 | Below capacity the event is appended. At capacity the oldest event is dropped first. Capacity 0 keeps nothing. Every callback is notified with the event. |
| EventLogger.LogInfo | backend/utils/event_logger.py:82-84 | `info` is `log` at INFO, so the newest event has level INFO. |
| EventLogger.LogWarning | backend/utils/event_logger.py:86-88 | `warning` is `log` at WARNING, so the newest event has level WARNING. |
| EventLogger.LogError | backend/utils/event_logger.py:90-92 | `error` is `log` at ERROR, so the newest event has level ERROR. |
| EventLogger.LogDebug | backend/utils/event_logger.py:94-96 | `debug` is `log` at DEBUG, so the newest event has level DEBUG. |
| EventLogger.RegisterCallback | backend/utils/event_logger.py:134-136 | The callback is appended; the events are untouched. |
| EventLogger.Clear | backend/utils/event_logger.py:138-140 | The buffer is emptied; the capacity and the callbacks stay. |
| EventLogger.Select | backend/utils/event_logger.py:105-111 | The level and category filters keep exactly the matching events, and with no filter every event. |
| EventLogger.SelectAppend | backend/utils/event_logger.py:105-111 | Filtering distributes over concatenation, so the filters keep the log's order. |
| EventLogger.GetEvents | backend/utils/event_logger.py:98-116 | `get_events` filters, then trims. An absent or zero limit keeps all matches, a positive limit keeps the newest `limit`, and a negative one drops the oldest `-limit`. |
| EventLogger.Tally | backend/utils/event_logger.py:124-126 | The counting loop: each counter equals the number of events with that key, and only keys that occur are present. |
| EventLogger.GetStats | backend/utils/event_logger.py:118-132 | The total is the buffer length. Each level's and each category's counter equals the number of buffered events with that level or category. |
| EventLogger.LevelCountsSum | backend/utils/event_logger.py:118-132 | Every event is counted under exactly one level. |
| EventLogger.CategoryCountsSum | backend/utils/event_logger.py:118-132 | Every event is counted under exactly one category. |
| EventLogger.TallyKeys | backend/utils/event_logger.py:124-126 | Keys other than the four level names and the five category names count zero. |
| EventLogger.LevelTally | backend/utils/event_logger.py:124-130 | The per-level counters sum to the number of events, and only level names appear as keys. |
| EventLogger.CategoryTally | backend/utils/event_logger.py:124-130 | The per-category counters sum to the number of events, and only category names appear as keys. |
| EventLogger.StatsConsistent | backend/utils/event_logger.py:118-132 | The `by_level` counts and the `by_category` counts each add up to `total_events`, with no unexpected keys. |
| EventLogger.InfoEvents | backend/utils/event_logger.py:82-84 | The events a series of `info` calls creates, one per message, in order. |
| EventLogger.LogAll | backend/utils/event_logger.py:54-84 | Any series of `info` calls keeps the logger valid, its capacity and its callbacks. |
| EventLogger.LogAllKeepsLast | backend/utils/event_logger.py:51-71 | After any series of calls, the log holds the newest `maxEvents` of everything appended, in call order. |
| EventLogger.InfoEventsFrom | backend/utils/event_logger.py:82-84 | Creating events commutes with dropping leading messages. |
| EventLogger.OverflowKeepsLastN | backend/tests/test_event_logger.py:49-61 | Logging at least `n` messages into an empty log of capacity `n` keeps exactly the last `n`, in order. |
| Manager.NewHub | backend/websocket/manager.py:12-13 | A new hub has no connections. |
| Manager.Connect | backend/websocket/manager.py:15-19 | The accepted connection is appended, so the count grows by one. |
| Manager.Disconnect | backend/websocket/manager.py:21-25 | An unknown connection changes nothing. A known one is removed once, so the count drops by one. |
| Manager.DisconnectKeepsOrder | backend/websocket/manager.py:21-25 | Disconnecting a known connection drops its first entry and leaves every other connection where it was in the list. |
| Manager.SendAll | backend/websocket/manager.py:38-40 | The message is sent once to every connection, in list order. |
| Manager.SendAllCarries | backend/websocket/manager.py:38-40 | Every delivery carries the broadcast message. |
| Manager.Broadcast | backend/websocket/manager.py:35-48 | Every connection is sent the message. Afterwards exactly the connections whose send failed are gone, and the others stay in order. |
| Manager.WithoutDisjoint | backend/websocket/manager.py:46-48 | Dropping no listed connection keeps the list as it is. |
| Manager.BroadcastKeepsHealthy | backend/websocket/manager.py:35-48 | A broadcast in which no send fails keeps every connection. With nobody connected it sends nothing. |
| Manager.SendPersonal | backend/websocket/manager.py:27-33 | One send. A failure disconnects that client, and success changes nothing. |
| Manager.Envelope | backend/websocket/manager.py:50-100 | The `{type, data}` envelope carries the given type and data. |
| Manager.BroadcastAudioLevel | backend/websocket/manager.py:50-56 | Every connection is sent an `audio_level` message carrying the data, in list order, and exactly the connections whose send failed are dropped. |
| Manager.BroadcastLightStatus | backend/websocket/manager.py:58-64 | Every connection is sent a `light_status` message carrying the data, in list order, and exactly the connections whose send failed are dropped. |
| Manager.BroadcastEvent | backend/websocket/manager.py:66-72 | Every connection is sent an `event` message carrying the data, in list order, and exactly the connections whose send failed are dropped. |
| Manager.BroadcastStateChange | backend/websocket/manager.py:74-80 | Every connection is sent a `state_change` message carrying the data, in list order, and exactly the connections whose send failed are dropped. |
| Manager.BroadcastNotification | backend/websocket/manager.py:82-100 | Every connection is sent a `notification` carrying the level, title and message, and exactly the connections whose send failed are dropped. |
| Manager.BroadcastLoop | backend/websocket/manager.py:35-48 | The two loops of `broadcast`, as written, compute the same as `Broadcast`. |
| Manager.SendCollecting | backend/websocket/manager.py:37-44 | The first loop sends to every connection and collects exactly the failed ones, in order. |
| Manager.DisconnectEach | backend/websocket/manager.py:46-48 | The second loop removes each collected connection once. |
| Manager.SendAllSnoc | backend/websocket/manager.py:38-40 | Sending to one more connection adds exactly one delivery, at the end. |
| Manager.WithinSnoc | backend/websocket/manager.py:37-44 | One more connection adds itself to the failures exactly when its send fails. |
| Streams.NewStreamManager | backend/websocket/streams.py:17-20 | A new stream manager is not streaming. |
| Streams.StartStreaming | backend/websocket/streams.py:22-24 | Streaming turns on. |
| Streams.StopStreaming | backend/websocket/streams.py:26-28 | Streaming turns off. |
| Streams.Publish | backend/websocket/streams.py:51-76 | Publishing is a hub broadcast and leaves the streaming flag alone. |
| Streams.Gated | backend/websocket/streams.py:32-33 | The telemetry streams send nothing while streaming is off and broadcast while it is on. |
| Streams.StreamAudioData | backend/websocket/streams.py:30-42 | Audio frames go out as gated `audio_level` messages. |
| Streams.StreamLightStatus | backend/websocket/streams.py:44-49 | Light status goes out as gated `light_status` messages. |
| Streams.StreamEvent | backend/websocket/streams.py:51-56 | A log event goes out, gated, as its `to_dict` form. |
| Streams.StateChangePayload | backend/websocket/streams.py:58-72 | The payload has `from` and `to` as the states' string values. It has `countdown_remaining` exactly when the event carries one. |
| Streams.StateFromValue | backend/state_machine.py:10-15 | A state read back from a string has that string as its value. |
| Streams.StateChangePayloadRoundTrip | backend/websocket/streams.py:58-72 | Reading a `state_change` payload back yields the original event, so the payload loses nothing. |
| Streams.StreamStateChange | backend/websocket/streams.py:58-72 | State changes go out as gated `state_change` messages. |
| Streams.SendNotification | backend/websocket/streams.py:74-76 | Notifications are sent whether or not streaming is on. |
| Streams.PollRound | backend/websocket/streams.py:81-85 | One pass of the loop body: a status that was read goes, as a `light_status` message, to every client connected at that moment; a `get_status` that raised sends nothing. |
| Streams.Poll | backend/websocket/streams.py:78-87 | Reference semantics of the loop, round by round; the body never runs more rounds than there are. |
| Streams.PollStops | backend/websocket/streams.py:80 | The body runs exactly through the leading rounds that find streaming on; at the first round that finds it off the loop ends with the flag off. |
| Streams.PollSplit | backend/websocket/streams.py:80-87 | Running the loop over two stretches of rounds, one after the other, is running it over both at once. |
| Streams.PollSendsEachRound | backend/websocket/streams.py:80-87 | Nothing is left out: the messages sent are, round by round and in order, each round's broadcast to the clients connected when that round began. |
| Streams.PollSound | backend/websocket/streams.py:80-87 | Nothing extra is sent: only `light_status` messages, each carrying a status a round that ran has read. |
| Streams.PeriodicLightStatus | backend/websocket/streams.py:78-87 | The `while` loop as written produces exactly the reference outcome: the same final flag and hub, the same number of iterations and the same messages in the same order. It runs only while streaming is on, stops at the first round where it is off, and sends only statuses that were read. |
| Controller.Init | backend/controller.py:15-58 | A new controller is stopped and rests in NON_TRICK, in CHILD mode. Its one callback is registered with the machine and with the logger, and its log is empty with capacity 1000. |
| Controller.LogAsWritten | backend/utils/event_logger.py:75-80 | The logger as the source runs it: the event is logged and nothing is streamed. |
| Controller.LogEvent | backend/controller.py:204-206 | A log call with its callback awaited. The log matches `LogAsWritten`, and only the logger and streams change. While stopped nothing is sent. |
| Controller.LogEventStreams | backend/controller.py:204-206 | While running, a logged event reaches every connected client as an `event` message holding its `to_dict`. |
| Controller.LoggedEventsNeverReachClients | backend/controller.py:58 | While running with a client connected, the code as written sends nothing for a logged event, while the awaited callback sends an `event` message. |
| Controller.EntryEvents | backend/controller.py:60-83 | The events a list of log entries creates, in order. |
| Controller.LogEntries | backend/controller.py:60-83 | Logging several entries keeps the controller valid and changes only the logger and streams. While stopped nothing is sent. |
| Controller.LogEntriesKeepsLast | backend/controller.py:60-83 | After several entries, the log holds the newest `maxEvents` of the old events followed by the new ones. |
| Controller.DeviceIndex | backend/controller.py:64-77 | Devices come up in the order microphone, lights, speaker. |
| Controller.ReadyEntries | backend/controller.py:64-77 | One "initialized" info entry per device brought up, in order. |
| Controller.BringUps | backend/controller.py:64-77 | One bring-up effect per device, in order. |
| Controller.Initialize | backend/controller.py:60-83 | `initialize` raises exactly when a device fails. It brings up the devices in order, stopping at the failing one. The log gains the start message, the ready messages, then either completion or the error. |
| Controller.InitializeReports | backend/controller.py:60-83 | Success logs five info entries. A failure at device `i` logs `i + 2` entries, all info except the last, which is an error. |
| Controller.Lower | backend/controller.py:220 | Letter-case folding of ASCII text, character by character: `A`-`Z` become `a`-`z` and every other character is kept. This is as much of `str.lower()` as the comparison with "child" depends on. |
| Controller.ParseMode | backend/controller.py:220 | The mode is CHILD exactly when the lower-cased string is "child", and ADULT otherwise. |
| Controller.ParseModeExamples | backend/controller.py:218-222 | Mode names parse back to their modes, case is ignored, and anything else is ADULT. |
| Controller.IntensityMultipliers | backend/controller.py:287-300 | The child profile in CHILD mode, the adult profile in ADULT mode. |
| Controller.SetMode | backend/controller.py:218-231 | The machine's mode becomes the parsed mode, and the log gains an INFO/CONFIG "Mode changed to CHILD" or "Mode changed to ADULT" entry, which is streamed only while running. The config record, run flag, microphone, scream delay and pending tasks are untouched. The speaker volume is set to the new mode's profile. |
| Controller.SetModeSelectsProfile | backend/controller.py:218-231 | After `set_mode("child")`, in any case, the child profile applies; after any other string, the adult one. |
| Controller.Start | backend/controller.py:85-114 | Starting is a no-op when already running. Otherwise the box runs with streaming on and requests the ambient pattern, the ambient music at the mode's volume, listening and the light stream, in that order. |
| Controller.Stop | backend/controller.py:116-142 | Stopping is a no-op when already stopped. Otherwise the box stops streaming, shuts the drivers down in order, and leaves the state machine alone. |
| Controller.StartStopIdempotent | backend/controller.py:85-142 | Starting twice is starting once, and stopping twice is stopping once. |
| Controller.OnAudioTrigger | backend/controller.py:144-155 | A trigger the machine cannot take is dropped silently. Otherwise it is logged and one `trigger_sequence` task is created. |
| Controller.TriggerSequence | backend/controller.py:208-216 | The log gains an INFO/TRIGGER "Scare sequence triggered" entry with details `{"type": "manual"}`, then the request goes to the state machine. The config, run flag, microphone, scream delay and pending tasks are untouched, and nothing is streamed while stopped. |
| Controller.RunPendingTrigger | backend/controller.py:155 | Running a created task triggers the state machine. |
| Controller.DoubleAudioTriggerSchedulesOnce | backend/controller.py:144-155 | Two audio triggers before either task runs both create tasks, yet only one sequence is scheduled. |
| Controller.KeyOf | backend/controller.py:241-264 | A recognised key's name is the string given. |
| Controller.KeyNamesRoundTrip | backend/controller.py:241-264 | Every recognised key is recognised from its own name, and "mode" is not a recognised key. |
| Controller.SetKey | backend/controller.py:241-264 | Setting one key keeps the timing and audio settings in step with the machine and microphone. The logger, the run flag and the profiles are untouched. |
| Controller.ApplyPatch | backend/controller.py:235-264 | Applying a patch keeps the controller valid; only timing, audio and the log change. |
| Controller.PatchStep | backend/controller.py:235-264 | One key is logged as "Config updated: key", whatever the key, and then applied. `get_config` then reads back the key's new value, and an unknown key changes no setting. |
| Controller.UpdateConfig | backend/controller.py:233-267 | `update_config` applies every entry, then saves the resulting configuration. |
| Controller.GetConfig | backend/controller.py:269-285 | `get_config` reads each of its eight settings from the live component that owns it: the mode and the three durations from the machine, the two frequency bounds, the threshold and the sample rate from the microphone, and the scream delay from the controller. |
| Controller.GetConfigIsStored | backend/controller.py:269-285 | While the controller's invariant holds, the reported audio and timing settings are exactly the stored configuration's. |
| Controller.SetKeyReadBack | backend/controller.py:241-285 | Setting a key and reading the configuration back shows the new value for that key and nothing else changed. |
| Controller.UpdateConfigReadBack | backend/controller.py:233-285 | After an update, `get_config` shows every recognised key's new value, applied in order. |
| Controller.SingleKeyReadBack | backend/controller.py:233-285 | A one-key update reads back as that key's new value. |
| Controller.ThresholdUpdateReadBack | backend/controller.py:262-264 | After updating `trigger_amplitude_threshold`, `get_config` reports the new threshold. |
| Controller.ConfigEvents | backend/controller.py:236-239 | One "Config updated" info event per patch entry, in order. |
| Controller.UpdateConfigLogsEachKey | backend/controller.py:233-267 | After an update, the log ends with one "Config updated" event per entry, in patch order, trimmed to the capacity. |
| Controller.UnknownKeysChangeNothing | backend/controller.py:235-285 | A patch of unrecognised keys changes neither the configuration nor what `get_config` reports. |
| Controller.UnknownKeysKeepView | backend/controller.py:241-285 | Unrecognised keys leave the reported configuration alone. |
| Controller.UnknownKeysKeepConfig | backend/controller.py:241-264 | Unrecognised keys leave the stored configuration alone. |
| Controller.CountdownProgress | backend/controller.py:180-183 | Progress is undefined for a zero countdown; otherwise it is the elapsed fraction of the countdown. |
| Controller.TickProgress | backend/controller.py:180-183 | At tick `i` the progress is exactly `i/20`, in `[0, 1)`. |
| Controller.StateEffects | backend/controller.py:173-202 | NON_TRICK requests nothing. ACTIVE requests the scare sequence and the flash. RESET requests the light and audio resets. A countdown event without a countdown value requests nothing. |
| Controller.TickEffects | backend/controller.py:178-185 | A countdown tick requests the glitch effect and the distortion at that tick's progress. |
| Controller.PushStateChange | backend/controller.py:161-171 | A state change is pushed only while running, and only the streams change. |
| Controller.OnStateChange | backend/controller.py:161-171 | Handling a state change leaves the machine and configuration alone; while stopped nothing is sent. |
| Controller.OnStateChangeEffects | backend/controller.py:161-202 | Handling a state change requests exactly that state's effects, and none on returning to NON_TRICK. |
| Controller.OnAudioData | backend/controller.py:157-159 | An audio frame is streamed only while running, and only the streams change. |

## Left out

- Hardware: the microphone, LIFX lights and speaker drivers are not part of
  this model. Each driver call is an `Effect` value. Device bring-up in
  `initialize` is one effect per device, and its failure is an input.
- Timing: wall-clock time, `asyncio.sleep` durations and timestamps are not
  modelled (`time.time()` in events and notifications). Only the order of
  events at suspension points is modelled.
- Concurrency: interleavings between `asyncio` tasks other than the
  sequence task are not modelled. The ambient and light-stream tasks are
  assumed to be set while the box runs, so `stop` cancels them.
- Printing to the console and the file write in `config.save_to_file` are
  left out. The save is the `SaveConfig` effect.
- Floating point: durations and audio levels are `real`. `round()` in the
  audio and state-change payloads is not modelled.
- `get_state` and `get_mode` are plain field reads (`m.state`, `m.mode`).
- `backend/config.py` is not part of this model beyond the defaults the
  controller reads.
- Streams.PeriodicLightStatus: the loop is modelled over a finite list of
  rounds, since the source loop runs until streaming stops. The 0.5 s
  interval is left out. A `get_status` that raises is a round whose status
  is `None`: nothing is sent, and the message printed is not modelled.
- Controller.Lower: only ASCII letters are lower-cased. Python's
  `str.lower()` also maps other letters ('Ä' to 'ä') and can lengthen a
  string ('İ' becomes two code points). `ParseMode` does not depend on
  this: only the ASCII letters C, H, I, L and D lower-case to the letters
  of "child".
- Controller.OnAudioTrigger: the model assumes the handler runs on the
  event loop. In the source, the microphone calls trigger callbacks
  directly on the audio driver's thread (backend/hardware/microphone.py:99-101).
  Audio callbacks, by contrast, are handed to the loop with
  `run_coroutine_threadsafe` (backend/hardware/microphone.py:91-96). On that
  thread `asyncio.create_task` (backend/controller.py:155) finds no running
  loop, and it would raise after the "Audio trigger detected" entry is
  logged. The model follows the evident intent: one task is created.
- Controller.StateEffects: a zero countdown duration makes the source
  raise `ZeroDivisionError` inside the effect task. The model requests no
  effect for such a tick.
- Controller.ConfigMessage: the source's message is "Config updated: key =
  value". The model's message ends after the key, because Python's `str()`
  of a JSON value is not modelled.
- Controller.ApplyPatch: assumes recognised keys carry numbers. The
  source stores whatever JSON value it is given.

Where the code differs from what its docstrings suggest, the model
follows the code:

- The last countdown tick reports `d/20` seconds left, not 0.
- `can_trigger` is true while a task is scheduled but not yet started.
  So, if the handler runs on the event loop, two quick audio triggers both
  create tasks, and the second one is then rejected inside
  `trigger_sequence`.
- The controller's `stop` does not stop the state machine. A run in
  progress finishes.
- `config.mode` is not applied at construction, so the machine starts in
  CHILD whatever the configuration says.
- `get_events` with a negative limit drops the oldest events, and a limit
  of 0 means "no limit".

## Findings

| source | as written | input that shows it | evidently intended | confidence | as-written member | corrected member |
|---|---|---|---|---|---|---|
| backend/utils/event_logger.py:75-80 | `log` calls each callback synchronously. The controller registers the coroutine function `_on_event` (backend/controller.py:58), so the call only creates a coroutine, which is never awaited. `stream_event` therefore never runs, and no client ever receives an `event` message. | The box is running with one client connected, and `info(SYSTEM, "Scare Box started")` is logged: no message is sent. | Each logged event is streamed to clients as an `event` message. The dashboard handles that message type (frontend/src/components/Dashboard.tsx:33), and `_notify_state_change` and the microphone both schedule coroutine callbacks. | high (not executed) | Controller.LogAsWritten, Controller.LoggedEventsNeverReachClients | Controller.LogEvent, Controller.LogEventStreams |

The corrected `LogEvent` streams the event as if the callback were
awaited at the time of logging. The rest of the controller model uses it.
A fix through `asyncio.create_task` would defer the send to the next
suspension point. With such a fix "Stopping Scare Box..." would not be
streamed, because streaming is off by the time the task runs, while
"Starting Scare Box..." would be.
