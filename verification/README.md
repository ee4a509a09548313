# hhctrl-mgmt: verification

A Dafny model of the parts of hhctrl-mgmt in which several pieces have to fit together, with
proofs about them. It can be verified with `dafny verify dfyconfig.toml`.

**The MQTT entity stack.** `AsyncMqttClient`, `Entity` and `EntityAdapter` are classes with the
source's fields and methods (`client.dfy`, `entity.dfy`, `adapter.dfy`). The network is a finite
script of what it does next: names resolved, connections made, sends completed, packets received,
receive errors, timers, packet ids granted, device states read. An operation takes the next event
if it is the one it waits for and otherwise stays pending for ever; so a script that ends in the
middle of anything is a run observed at that point. Every operation ends with a value, by an
exception or pending. A log records what happened. Each method is proved to do what a function of
the state says (`client_spec.dfy`, `entity_spec.dfy`, `adapter_spec.dfy`), and the main results are
about these functions:

- `online_props.dfy`: under any script whatever, "online" is only ever announced on a connection
  whose config has been confirmed.
- `answer_props.dfy`: the converse, that every new connection gets configured, is false of the code:
  a reconnection is lost when it happens while a config awaits its PUBACK or a subscription its
  SUBACK. A run of either kind is given, and the exact condition on the events to come under which
  a connection ends up configured.
- `conversation_props.dfy`, `progress_props.dfy`: initialisation and both recoveries succeed when the
  broker accepts and answers, after any failures within the limits, and exactly these packets are
  sent in them.
- `run_props.dfy`: the run takes every packet that comes and goes on, and a life through commands, a
  lost connection and more commands is lived to its end.
- `outcome_props.dfy`: which error, exception or change a failing operation comes to.
- `broker_props.dfy`: against a broker that answers in order nothing can fail or throw, and the
  answers consumed are the right ones.
- `reconnect_props.dfy`: how many connects a lost connection can cost, and its verdict.
- `entity_props.dfy`, `life_props.dfy`: what the receive loop makes of a packet stream and of a
  command, and what the pending set is after any calls and through the whole life of an adapter.

**The persistent scheduler.** The file store refines a finite map (`task_store.dfy`); the scheduler
restores strict tasks from it (`scheduler.dfy`); `process.dfy` is a run of a process on a file, and
`restart_props.dfy` follows a saved expiry through any number of such runs cut short at any write;
`timers.dfy` has the two ways of re-arming; `datetime.dfy` the time arithmetic in 64 bits;
`task_naming.dfy` the names behind task ids.

**Device bring-up.** `device_tree.dfy` and `bring_up.dfy`: identities can be looked up at every
event, and no two clients of a board share an MQTT client id, which would make the broker drop one
of them (section 3.1.4 of MQTT 3.1.1).

**Smaller state machines.** `indicators.dfy`, `hatch_sync.dfy`, `entity_config.dfy`; `text_props.dfy`
says that the texts announced in a config are those that are read and shown.

Where the code does something a reader may not expect, the model does the same:

- Any CONNACK marks the client connected, whatever its return code, and any other packet received
  in its place counts as success too.
- `map_error_code` looks at the number of a code only, and an already mapped code is mapped again when
  the CONNACK is lost. The number a code of this library has by then is up to Boost, which may add a
  multiple of a thousand for its category: which one is a parameter, `category`, 0 for none.
- The broker's PUBACK for a config is not removed from the pending set.
- A strict task whose process ends between the two writes of a restart loses its first expiry.
- A cover command with an unknown payload throws. One on an unexpected topic trips an assertion in
  debug builds; the model follows release builds.
- The first expiry of a daily task is built from the UTC date of now and a local time of day, so it
  can already be past, and west of UTC it can leave out the first day; `DateTime.FirstExpiryStale` and
  `DateTime.FirstExpiryLate` say exactly when.
- Firing a task never updates the store, so a restarted daily task catches up from its first saved
  expiry.
- The same PUBLISH is an error with code 0 to the adapters of sensors, whose receive returns only an
  error; it is not recovered from and changes nothing.

## Model

| member | source | states |
|---|---|---|
| Client.AsyncMqttClient.AsyncConnect | src/home_assistant_v2/include/home_assistant/mqtt/async_mqtt_client.hpp:202-249 | resolve, TCP, CONNECT, CONNACK in this order, each failure with its own code or exception; terminates on every script although a lost CONNACK re-enters reconnection |
| Client.AsyncMqttClient.RecvConnAck | src/home_assistant_v2/include/home_assistant/mqtt/async_mqtt_client.hpp:348-368 | any CONNACK marks the client connected, any other packet passes for one without marking it, a receive error is handled as one |
| Client.AsyncMqttClient.HandleRecvError | src/home_assistant_v2/include/home_assistant/mqtt/async_mqtt_client.hpp:386-401 | a once connected client answers with Reconnected or Disconnected only, a never connected one with the mapped code or an exception |
| Client.AsyncMqttClient.TryReconnect | src/home_assistant_v2/include/home_assistant/mqtt/async_mqtt_client.hpp:403-434 | the attempt loop over the shared counter is the recursion on which the bounds below are proved |
| Client.AsyncMqttClient.AsyncReceive | src/home_assistant_v2/include/home_assistant/mqtt/async_mqtt_client.hpp:170-200 | the skipping loop yields the next PUBLISH, PUBACK or SUBACK, or the first error |
| Client.AsyncMqttClient.AsyncPublish | src/home_assistant_v2/include/home_assistant/mqtt/async_mqtt_client.hpp:286-315 | refused when disconnected or at QoS 2; otherwise one packet with the id granted by the endpoint, or id 0 at QoS 0 |
| Client.AsyncMqttClient.AsyncSubscribe | src/home_assistant_v2/include/home_assistant/mqtt/async_mqtt_client.hpp:251-283 | refused when disconnected; otherwise one SUBSCRIBE with the id granted by the endpoint |
| ReconnectProps.LostConnAckIsFatal | src/home_assistant_v2/include/home_assistant/mqtt/async_mqtt_client.hpp:240-244 | a connect that loses its CONNACK on a once connected client never returns: whatever the inner reconnection decides is thrown; before the first connection it returns NoService if and only if the loss is an unreachable network or a missing file and a library code keeps its number when wrapped, and throws otherwise |
| ReconnectProps.ConnectErrors | src/home_assistant_v2/include/home_assistant/mqtt/async_mqtt_client.hpp:202-237 | a connect that fails before its CONNACK returns NoService for an unresolved name and otherwise 1 for a timeout, 2 for an unreachable network or a missing file, 3 for a refusal, or throws; the client is as connected as before |
| ReconnectProps.TimerLostEnds | src/home_assistant_v2/include/home_assistant/mqtt/async_mqtt_client.hpp:418-424 | a reconnection timer that fails ends the reconnection with Disconnected and without a connect |
| MqttError.MappedCodes | src/home_assistant_v2/include/home_assistant/mqtt/error.hpp:63-75 | the table of mapped codes in numbers; every other code throws |
| ReconnectProps.RecvErrorBound | src/home_assistant_v2/include/home_assistant/mqtt/async_mqtt_client.hpp:386-434 | one receive error costs at most max(0, max_attempts) * (1 + k) connects, k counting the CONNACKs lost |
| ReconnectProps.ConnectBound | src/home_assistant_v2/include/home_assistant/mqtt/async_mqtt_client.hpp:202-249 | one connect costs one connect plus max(0, max_attempts) for every CONNACK lost in it; it resets the attempt counter when it succeeds and leaves it alone when it fails |
| ReconnectProps.ReconnectVerdict | src/home_assistant_v2/include/home_assistant/mqtt/async_mqtt_client.hpp:403-434 | over any list of attempts without a lost CONNACK, the loop succeeds at the first success within its limit and otherwise gives up after exactly the limit |
| ReconnectProps.RecvErrorVerdict | src/home_assistant_v2/include/home_assistant/mqtt/async_mqtt_client.hpp:386-401 | the verdict is Reconnected if and only if one of the first max_attempts attempts succeeds, else Disconnected, with the exact number of connects |
| QuietProps.ConnectQuiet | src/home_assistant_v2/include/home_assistant/mqtt/async_mqtt_client.hpp:202-249 | connecting sends nothing but CONNECT, never loses the connected mark, and a success ends with TCP up, CONNECT sent, one packet received |
| QuietProps.ReceiveQuiet | src/home_assistant_v2/include/home_assistant/mqtt/async_mqtt_client.hpp:170-200 | receiving sends nothing but CONNECT; a Reconnected error means a connection made just then |
| Entities.Entity.AsyncReceive | src/home_assistant_v2/include/home_assistant/mqtt/entity.hpp:82-113 | the endless loop returns the next PUBLISH or error, taking PUBACKs off the pending set on the way |
| Entities.Entity.AsyncSetConfig | src/home_assistant_v2/include/home_assistant/mqtt/entity.hpp:115-150 | publish, then at QoS 1 the next packet the client hands on must be a PUBACK; every failure becomes InvalidConfig |
| Entities.Entity.AsyncPublish | src/home_assistant_v2/include/home_assistant/mqtt/entity.hpp:159-175 | a sent QoS 1 publish is added to the pending set, an unsent one is not |
| Entities.Entity.AsyncSubscribe | src/home_assistant_v2/include/home_assistant/mqtt/entity.hpp:177-215 | subscribe, then the next packet the client hands on must be a SUBACK without failure; every failure becomes SubscriptionFailure |
| Entities.Entity.AsyncConfigure | src/home_assistant_v2/include/home_assistant/mqtt/cover.hpp:119-152 | config first, then for covers and buttons the command subscription |
| Entities.Entity.AsyncReceiveCommand | src/home_assistant_v2/include/home_assistant/mqtt/cover.hpp:167-179 | a cover command with an unknown payload throws, one on another topic is an UnknownPacket |
| EntityProps.CommandRead | src/home_assistant_v2/include/home_assistant/mqtt/cover.hpp:65-88 | the next PUBLISH, behind any packets of which the caller sees nothing: on a cover "open", "close" and "stop" on the command topic are these commands, any other text throws and any other topic is an UnknownPacket; "press" is the command of a button and any other text an UnknownPacket; a sensor reports error 0 |
| TextProps.OfferedCommandsAreRead | src/home_assistant_v2/include/home_assistant/mqtt/cover.hpp:65-69 | whatever the config of the user, a command that is offered is read back from its payload |
| TextProps.ShownStatesAreAnnounced | src/home_assistant_v2/include/home_assistant/mqtt/cover.hpp:58-63 | the text shown for an open or closed hatch is the one announced for that state; no other state shows a text |
| OutcomeProps.PublishOutcome | src/home_assistant_v2/include/home_assistant/mqtt/entity.hpp:159-175 | the whole outcome of a publish at every QoS: refused without any change, lost with the mapped code or an exception, or sent with that id, topic and text, and pending if it is at QoS 1 |
| OutcomeProps.SetConfigOutcome | src/home_assistant_v2/include/home_assistant/mqtt/entity.hpp:115-150 | every failure of the config is InvalidConfig, except that an unmapped code of the send throws; at QoS 0 no answer is awaited |
| OutcomeProps.SubscribeOutcome | src/home_assistant_v2/include/home_assistant/mqtt/entity.hpp:177-215 | every failure of the subscription is SubscriptionFailure, except that an unmapped code of the send throws |
| EntityProps.StreamImage | src/home_assistant_v2/include/home_assistant/mqtt/entity.hpp:82-113 | repeated receives over any stream yield its per-packet image in order: PUBLISH itself, failing SUBACK SubscriptionFailure, untyped UnknownPacket, all else nothing |
| EntityProps.NoMessageLost | src/home_assistant_v2/include/home_assistant/mqtt/entity.hpp:82-113 | the PUBLISH packets handed out are exactly those received, in order |
| EntityProps.PendingIsExact | src/home_assistant_v2/include/home_assistant/mqtt/entity.hpp:106-111 | after any calls, and wherever the run stops, the pending ids are exactly those whose latest QoS 1 publish has no later PUBACK taken by async_receive; all truly unacknowledged ids are among them; never more than 65535 |
| EntityProps.ConfigIdStaysPending | src/home_assistant_v2/include/home_assistant/mqtt/entity.hpp:131-147 | the PUBACK that confirms a config is not taken off: the id granted for the config stays pending although the broker has acknowledged that very id |
| EntityProps.PendingIsUnacknowledged | src/home_assistant_v2/include/home_assistant/mqtt/entity.hpp:106-147 | after any calls the pending ids are exactly those the broker has not acknowledged if and only if no PUBACK was consumed by anything but async_receive |
| LifeProps.PendingThroughLife | src/home_assistant_adapter/include/home_assistant/adapter/entity_adapter.hpp:47-116 | the same two results for the whole life of an adapter under any script, with its waits and device reads |
| Adapter.EntityAdapter.AsyncInit | src/home_assistant_adapter/include/home_assistant/adapter/entity_adapter.hpp:47-75 | at most ten connects a minute apart, then configuration |
| Adapter.EntityAdapter.AsyncConfigure | src/home_assistant_adapter/include/home_assistant/adapter/entity_adapter.hpp:136-160 | configure, wait, announce online, sync state; the last two results are ignored |
| Adapter.EntityAdapter.AsyncHandleError | src/home_assistant_adapter/include/home_assistant/adapter/entity_adapter.hpp:162-185 | Disconnected reconnects and configures, Reconnected configures, anything else is not recovered |
| Adapter.EntityAdapter.AsyncRun | src/home_assistant_adapter/include/home_assistant/adapter/entity_adapter.hpp:97-116 | the endless loop hands every error to the handler and goes on |
| RunProps.RunPasses | src/home_assistant_adapter/include/home_assistant/adapter/entity_adapter.hpp:97-116 | any packets whatever that can be read are taken, with no word said, and the run goes on |
| RunProps.RunTakesAll | src/home_assistant_adapter/include/home_assistant/adapter/entity_adapter.hpp:97-116 | over any stream of such packets the run takes every one and is then waiting for the next |
| RunProps.RunEndsWithUnreadable | src/home_assistant_adapter/include/home_assistant/adapter/entity_adapter.hpp:97-116 | a command that a cover cannot read ends the run with an exception |
| RunProps.InitGivesUp | src/home_assistant_adapter/include/home_assistant/adapter/entity_adapter.hpp:47-75 | after ten failing connects with their waits the initialisation fails; there is no eleventh, nothing has been said and no run follows |
| RunProps.LifeGoesOn | src/home_assistant_adapter/include/home_assistant/adapter/entity_adapter.hpp:47-116 | a whole life with failing connects, an answered configuration, packets, a lost connection, failing attempts, a second configuration and more packets is lived to its end: connected, ready, and with exactly these packets sent |
| OutcomeProps.AnnounceThrows | src/home_assistant_adapter/include/home_assistant/adapter/entity_adapter.hpp:150-158 | a failing timer, an unmapped send error and an unreadable device each end the announcement with an exception |
| OutcomeProps.AnnounceGoesOn | src/home_assistant_adapter/include/home_assistant/adapter/entity_adapter.hpp:150-158 | a mapped send error does not |
| OnlineProps.InitReady | src/home_assistant_adapter/include/home_assistant/adapter/entity_adapter.hpp:47-75 | a successful initialisation leaves the connection in use with the adapter's own config published and a PUBACK received after it, and for covers and buttons a SUBSCRIBE to the command topic and a granting SUBACK after those |
| OnlineProps.RecoveryReady | src/home_assistant_adapter/include/home_assistant/adapter/entity_adapter.hpp:162-211 | the same for every error reported as recovered |
| OnlineProps.OnlineImpliesReady | src/home_assistant_adapter/include/home_assistant/adapter/entity_adapter.hpp:136-160 | in the whole life of an adapter under any script, every "online" is sent on a connection so prepared, with no connect in between |
| OnlineProps.ReconnectionSwallowed | src/home_assistant_v2/include/home_assistant/mqtt/entity.hpp:133-141 | a reconnection while the config awaits its PUBACK is reported as InvalidConfig and leaves a connected client whose connection is not configured |
| AnswerProps.ReconnectionSwallowedRun | src/home_assistant_v2/include/home_assistant/mqtt/entity.hpp:133-141 | a concrete script of eight events in which that happens |
| AnswerProps.ReconnectionSwallowedLater | src/home_assistant_v2/include/home_assistant/mqtt/entity.hpp:194-203 | the same while the SUBACK is awaited, reported as SubscriptionFailure |
| AnswerProps.ReconnectionSwallowedLaterRun | src/home_assistant_v2/include/home_assistant/mqtt/entity.hpp:194-203 | a concrete script of eleven events in which that happens |
| AnswerProps.ReconnectionConfigures | src/home_assistant_adapter/include/home_assistant/adapter/entity_adapter.hpp:206-211 | after every Reconnected error that reaches the run loop, whatever came before, the connection in use ends up configured if and only if the next events grant an id, send the config and hand on a PUBACK, and for covers and buttons then grant an id, send the subscription and hand on a granting SUBACK; and it is reported as recovered if and only if the announcement ends as well |
| AnswerProps.DisconnectionConfigures | src/home_assistant_adapter/include/home_assistant/adapter/entity_adapter.hpp:193-204 | the same after a Disconnected error whose connect returns without error, if and only if the client is also marked connected |
| AnswerProps.InitConfigures | src/home_assistant_adapter/include/home_assistant/adapter/entity_adapter.hpp:47-75 | the same for the initialisation |
| AnswerProps.ConfigureExactly | src/home_assistant_adapter/include/home_assistant/adapter/entity_adapter.hpp:136-160 | configuration reports success if and only if the client is connected and the events to come answer config and subscription and end the announcement without an exception; it uses up exactly those |
| AnswerProps.SetConfigExactly | src/home_assistant_v2/include/home_assistant/mqtt/entity.hpp:115-150 | the config is accepted if and only if the client is connected, an id is granted, the send succeeds and the next packet handed on is a PUBACK |
| AnswerProps.SubscribeExactly | src/home_assistant_v2/include/home_assistant/mqtt/entity.hpp:177-215 | the subscription is granted if and only if the client is connected, an id is granted, the send succeeds and the next packet handed on is a SUBACK without failure |
| AnswerProps.ReceiveExactly | src/home_assistant_v2/include/home_assistant/mqtt/async_mqtt_client.hpp:170-200 | a connected receive yields a packet if and only if a PUBLISH, PUBACK or SUBACK comes behind nothing but packets that are skipped, and then that one |
| BrokerProps.ConfigureSucceeds | src/home_assistant_adapter/include/home_assistant/adapter/entity_adapter.hpp:136-160 | on a connection that owes no answers, with a broker that answers in order and no failures, configuration cannot fail or throw |
| BrokerProps.SetConfigSucceeds | src/home_assistant_v2/include/home_assistant/mqtt/entity.hpp:115-150 | there the PUBACK consumed is the one for the id just published, even with unrelated packets in between |
| BrokerProps.SubscribeSucceeds | src/home_assistant_v2/include/home_assistant/mqtt/entity.hpp:177-215 | there the SUBACK consumed is the one for the id just sent |
| BrokerProps.InitSucceeds | src/home_assistant_adapter/include/home_assistant/adapter/entity_adapter.hpp:47-75 | with such a broker, once a connect is accepted the initialisation cannot fail or throw; it reports success or is still waiting |
| BrokerProps.DisconnectionRecovered | src/home_assistant_adapter/include/home_assistant/adapter/entity_adapter.hpp:193-204 | with such a broker, once the connect after a disconnection is accepted, the recovery cannot fail or throw |
| BrokerProps.ReconnectionRecovered | src/home_assistant_adapter/include/home_assistant/adapter/entity_adapter.hpp:206-211 | with such a broker, the handling of a Reconnected error that reaches the run loop cannot fail or throw |
| ConversationProps.ConversationConfigures | src/home_assistant_adapter/include/home_assistant/adapter/entity_adapter.hpp:136-160 | for every kind of entity, all ids, any number of unrelated packets before either answer and any state of the device, an answered configuration reports success, makes a new connection ready and has sent, in this order: the config, for covers and buttons the command subscription, "online", and the state if there is one, each at QoS 1 |
| ConversationProps.AvailabilitySays | src/home_assistant_v2/include/home_assistant/mqtt/entity.hpp:152-157 | the availability published is "online" or "offline", on its own topic |
| ProgressProps.InitProgress | src/home_assistant_adapter/include/home_assistant/adapter/entity_adapter.hpp:47-75 | up to nine failing connects, an accepted one and such answers: the initialisation reports success on a ready connection, having sent CONNECT and these packets only |
| ProgressProps.ReconnectionProgress | src/home_assistant_adapter/include/home_assistant/adapter/entity_adapter.hpp:97-116 | a connection lost in the run loop, fewer failing attempts than the limit, an accepted one and such answers: the run goes on on a ready connection, having sent CONNECT and these packets only |
| ProgressProps.DisconnectionProgress | src/home_assistant_adapter/include/home_assistant/adapter/entity_adapter.hpp:97-116 | when all attempts of the client fail, the connect of the adapter is accepted and such answers come: the run goes on on a ready connection, having sent CONNECT and these packets only |
| BrokerProps.InitBound | src/home_assistant_adapter/include/home_assistant/adapter/entity_adapter.hpp:47-75 | a whole initialisation makes at most 10 + max(0, max_attempts) * (1 + k) connects |
| DateTime.SaveAndRestore | src/common/utils/include/utils/datetime.hpp:42-52 | for every 64-bit time point the timestamp is within 9223372036854 of zero, restoring it does not overflow and loses less than a millisecond toward zero |
| DateTime.RestoreAndSave | src/common/utils/include/utils/datetime.hpp:42-52 | every timestamp in that range is restored and saved as itself |
| DateTime.RangeIsTight | src/common/utils/include/utils/datetime.hpp:42-46 | the range cannot be widened: the next timestamps wrap around |
| DateTime.FirstExpiryWindow | src/common/scheduler/include/scheduler/everydays_at_task.hpp:78-88 | the first expiry lies in [now, now + days) widened by the zone offset, early in the east, late in the west, and at the wanted local time of day |
| DateTime.FirstExpiryStale | src/common/scheduler/include/scheduler/everydays_at_task.hpp:78-88 | it lies in the past if and only if the UTC time of day is more than `days` days beyond the wanted time in the zone |
| DateTime.FirstExpiryInThePast | src/common/scheduler/include/scheduler/everydays_at_task.hpp:78-88 | a concrete evening in a zone two hours east on which it does |
| DateTime.FirstExpiryLate | src/common/scheduler/include/scheduler/everydays_at_task.hpp:78-88 | it lies `days` days ahead or more if and only if what has passed of the UTC day plus those days does not exceed the wanted time in the zone |
| DateTime.FirstExpiryTooLate | src/common/scheduler/include/scheduler/everydays_at_task.hpp:78-88 | a concrete evening in a zone five hours west that is left out |
| DateTime.FirstExpiryWait | src/common/scheduler/include/scheduler/everydays_at_task.hpp:78-88 | the wait is what is missing to the wanted time on the UTC day or, when that has passed, `days` days more |
| DateTime.FirstExpiryOnTheFourth | src/common/scheduler/include/scheduler/everydays_at_task.hpp:78-88 | a task every third day, set up an hour late, first runs three days after the missed time |
| Timers.EverydayAtTask.constructor | src/common/scheduler/include/scheduler/everydays_at_task.hpp:78-88 | armed at the first expiry |
| Timers.EverydayAtTask.Fire | src/common/scheduler/include/scheduler/everydays_at_task.hpp:55-68 | re-armed from the old expiry: expiries are the origin plus whole periods |
| Timers.EverydayAtTask.Elapse | src/common/scheduler/include/scheduler/everydays_at_task.hpp:55-68 | at time t the handler has caught up: floor((t - e0) / d) + 1 runs, and none is due |
| Timers.RunsDoNotDependOnTheLoop | src/common/scheduler/include/scheduler/everydays_at_task.hpp:55-68 | under a non-decreasing clock that number does not depend on when and how often the loop ran |
| Timers.RunsCompose | src/common/scheduler/include/scheduler/everydays_at_task.hpp:55-68 | catching up in two steps is catching up in one |
| Timers.GenericRepeatedTask.Fire | src/common/scheduler/include/scheduler/generic_repeated_task.hpp:48-74 | re-armed from the present; runs stay spaced |
| Timers.GenericRepeatedTask.Elapse | src/common/scheduler/include/scheduler/generic_repeated_task.hpp:48-74 | the loop runs until no timer is due, and a timer that was due, however long ago, has run once |
| Timers.RunsAreApart | src/common/scheduler/include/scheduler/generic_repeated_task.hpp:48-74 | the i-th and j-th run are at least (j - i) periods apart |
| Timers.OneRunPerPeriod | src/common/scheduler/include/scheduler/generic_repeated_task.hpp:48-74 | in any period of time the task runs at most once |
| TaskStore.ParseSerialize | src/common/scheduler/file_task_store.cpp:15-36 | what is written to the file is read back as the same records in the same order |
| TaskStore.ReadableFile | src/common/scheduler/file_task_store.cpp:27-36 | a file can be read if and only if every item of its list has the three fields with their types, whatever else it has; then it is read as what they say |
| TaskStore.WrittenRecord | src/common/scheduler/file_task_store.cpp:15-24 | a record is written with these three fields |
| TaskStore.AddRefinesMap | src/common/scheduler/file_task_store.cpp:50-63 | adding a new id is the update of a finite map and keeps ids unique |
| TaskStore.RemoveRefinesMap | src/common/scheduler/file_task_store.cpp:85-98 | removing is the removal of a key and keeps ids unique |
| TaskStore.FindWithout | src/common/scheduler/file_task_store.cpp:85-98 | after a removal every other record is found as before |
| TaskStore.WithoutInPlace | src/common/scheduler/file_task_store.cpp:85-98 | a removal leaves all other records where they are |
| TaskStore.FileTaskStore.Open | src/common/scheduler/file_task_store.cpp:39-48 | a missing file is created empty, an unreadable one throws, otherwise the cache is what the file says, in whatever way it says it |
| TaskStore.FileTaskStore.Add | src/common/scheduler/file_task_store.cpp:50-63 | refused exactly when the id is taken, without any change; otherwise appended, and cache and file agree |
| TaskStore.FileTaskStore.FindTask | src/common/scheduler/file_task_store.cpp:72-83 | the first record with the id |
| TaskStore.FileTaskStore.Exist | src/common/scheduler/file_task_store.cpp:65-70 | true exactly when there is one |
| TaskStore.FileTaskStore.Remove | src/common/scheduler/file_task_store.cpp:85-98 | refused exactly when the id is missing, without any change; otherwise that record goes and cache and file agree |
| TaskStore.Reopen | src/common/scheduler/file_task_store.cpp:39-48 | a second store on the same file holds the same records |
| Scheduling.Scheduler.AddTask | src/common/scheduler/scheduler.cpp:11-28 | a duplicate throws and changes nothing; a relaxed task is only activated; a strict one is restored or saved first; every content the file goes through is listed |
| Scheduling.Scheduler.ProcessStrictPolicyTask | src/common/scheduler/scheduler.cpp:51-67 | a saved expiry replaces the task's own; every content the file goes through on the way is listed |
| Scheduling.Scheduler.IsTaskActive | src/common/scheduler/scheduler.cpp:30-35 | true exactly when an active task has the id |
| Scheduling.Scheduler.GetActiveTasks | src/common/scheduler/scheduler.cpp:37-49 | id, owner and expiry of every active task, in order |
| Processes.Run | src/common/scheduler/scheduler.cpp:11-49 | a store opened on a file and any list of tasks added: the contents written and the active tasks are those of the functions that the results over restarts speak about |
| RestartProps.FirstAddSaves | src/common/scheduler/scheduler.cpp:51-67 | the first strict add saves id, owner and the expiry to the millisecond |
| RestartProps.CutKeeps | src/common/scheduler/scheduler.cpp:51-67 | behind every write of a run a saved record has its first timestamp, except that it is missing behind the one write that removes it, which the requests determine and which is never the last |
| RestartProps.RunArms | src/common/scheduler/scheduler.cpp:51-67 | for every task and every list of requests, with a record or without: a run arms it once, when its first request comes; with the saved expiry if that request is strict and there is a record, else with its own |
| RestartProps.RunLeaves | src/common/scheduler/scheduler.cpp:51-67 | a run leaves the record of a task as it was unless its first request is strict; then it is the record of that owner with the expiry it was armed with |
| RestartProps.NextProcessFinds | src/common/scheduler/file_task_store.cpp:39-48 | a process that opens the file a run has left behind, cut at any write, finds the records that the next result speaks about |
| RestartProps.FirstExpirySurvives | src/common/scheduler/scheduler.cpp:51-67 | over any number of runs, none of them cut at the write that removes the record, the first timestamp survives and a strict restart arms the task once, with it |
| RestartProps.WindowIsOneWrite | src/common/scheduler/scheduler.cpp:53-58 | the record is missing after a run if and only if it was cut at the write that removes it; one write more or one write less and it is there |
| RestartProps.RestartArms | src/common/scheduler/scheduler.cpp:51-67 | a strict restart arms the task, once, with its own new expiry if the run before was cut at that write and with the saved one otherwise, and exactly that one, under the owner of the restart, is what the file holds when the restart has made its writes |
| RestartProps.WindowLoses | src/common/scheduler/scheduler.cpp:53-58 | a concrete run cut there, after which the first expiry is lost and one a day later is saved |
| RestartProps.OthersUntouched | src/common/scheduler/scheduler.cpp:51-67 | records of tasks not named in a run, or first named as relaxed, are the same at every write of it |
| RestartProps.RestartReplays | src/common/scheduler/include/scheduler/everydays_at_task.hpp:55-68 | as firing never updates the store, a restarted daily task runs again for all periods since its first saved expiry, to within the lost fraction of a millisecond |
| RestartProps.Replay | src/common/scheduler/include/scheduler/everydays_at_task.hpp:49-68 | the daily task given its restored expiry and run until a time has made that number of runs |
| TaskNaming.NameInjective | src/common/scheduler/include/scheduler/scheduler.hpp:19-78 | for one owner, all durations of all six kinds give different names |
| TaskNaming.DurationsInFull | src/common/scheduler/include/scheduler/scheduler.hpp:19-58 | the text of a duration of each kind |
| TaskNaming.OwnersCollide | src/common/scheduler/include/scheduler/scheduler.hpp:69-78 | two owners can share a name |
| TaskNaming.Collisions | src/common/scheduler/include/scheduler/scheduler.hpp:19-78 | for all owners and durations of all six kinds, two tasks share a name if and only if owner and duration agree, or one owner is the other followed by "milli" with seconds against as many milliseconds, or a time of day ends in the text of the other duration and the longer owner supplies the rest |
| TaskNaming.CollisionsWithTimesOfDay | src/common/scheduler/include/scheduler/scheduler.hpp:19-78 | with times of day free of underscores only the "milli" case is left |
| DeviceTrees.DeviceTree.AddChild | src/main_board/devicetree.cpp:11-26 | refused or repeated adds change nothing; the answer is whether the device now hangs under that parent |
| DeviceTrees.DeviceTree.RemoveChild | src/main_board/devicetree.cpp:28-44 | removes exactly that node, or answers false and changes nothing |
| DeviceTrees.DeviceTree.Remove | src/main_board/devicetree.cpp:46-53 | removes the nodes of that parent; the answer is whether there were any |
| DeviceTrees.DeviceTree.GetParent | src/main_board/devicetree.cpp:55-67 | the parent under which the device hangs |
| DeviceTrees.DeviceTree.AllChildren | src/main_board/devicetree.cpp:69-84 | the children in insertion order |
| DeviceTrees.AddEffect | src/main_board/devicetree.cpp:11-26 | a new child is appended to its parent's list and to no other |
| DeviceTrees.DropEffect | src/main_board/devicetree.cpp:28-44 | a removed child leaves its parent's list in place and no other changes |
| DeviceTrees.NoneLost | src/main_board/devicetree.cpp:46-53 | a node is kept if and only if its parent is another one, the others are exactly the children, and none is lost or doubled |
| DeviceTrees.RemoveChildren | src/main_board/devicetree.cpp:46-53 | exactly the direct children of the removed parent go |
| DeviceTrees.ParentIffChild | src/main_board/devicetree.cpp:55-84 | a parent is recorded if and only if the device is among its children |
| DeviceTrees.TreeStaysConsistent | src/main_board/devicetree.cpp:11-84 | after any sequence of operations ids are unique and the two queries agree |
| BringUp.Platform.Setup | src/main_board/include/main_board/platform/platform_device_discovery.hpp:24-44 | throws on a faulty description; otherwise every generic entry with a path, and no other, has a loader, as often as it is described |
| BringUp.LoadersInOrder | src/main_board/include/main_board/platform/platform_device_discovery.hpp:24-44 | the loaders come in the order of the description |
| BringUp.AnnouncedInOrder | src/app/include/app/main_board_init.hpp:43-62 | one event for the board and then one for each device loaded, of its kind and with the next id |
| BringUp.Platform.Handle | src/main_board/include/main_board/platform/generic_device_loading_strategy.hpp:20-31 | load, hang under the board, publish: the event finds the board's identity |
| BringUp.Platform.MainBoardInit | src/app/include/app/main_board_init.hpp:43-62 | register, store identity, publish, then the devices in order up to the first that throws; the whole resulting state |
| BringUp.EveryEventIdentified | src/home_assistant_adapter/include/home_assistant/device_identity_provider.hpp:26-57 | for every event of a bring-up the identity is the board's, when published and ever after, and identities known before are as they were |
| BringUp.ClientIdsDiffer | src/home_assistant_adapter/device/main_board.cpp:30-31 | indicator, button and device ids of one board are different for different clients |
| BringUp.ClientIdsInFull | src/home_assistant_adapter/device/main_board.cpp:30-80 | the text of the ids of indicators, button and devices |
| BringUp.NoClientEvictsAnother | src/home_assistant_adapter/include/home_assistant/adapter/unique_id.hpp:14-17 | all clients of a board that came up with n devices have pairwise different ids |
| Indicators.RgbIndicator.SetState | src/device/rgb_indicator.cpp:49-71 | On shows the colour, Off darkens the LED, other states change nothing |
| Indicators.ColoursDiffer | src/device/rgb_indicator.cpp:14-19 | no two types share a colour and none is dark |
| Indicators.ColourTable | src/device/rgb_indicator.cpp:14-19 | the colour of each type |
| Indicators.MainBoard.constructor | src/main_board/main_board.cpp:39-46 | starts with Status lit |
| Indicators.MainBoard.SetIndicatorState | src/main_board/main_board.cpp:75-89 | sets the shared LED for the first indicator of the type |
| Indicators.MainBoard.ReadIndicator | src/main_board/main_board.cpp:60-73 | t reads On if and only if the last On or Off call was On for t |
| Indicators.LedShowsLastCall | src/device/rgb_indicator.cpp:49-71 | after any calls the LED shows whom the last On or Off call left lit |
| Indicators.AtMostOneOn | src/device/rgb_indicator.cpp:33-47 | never do two types read On |
| HatchSync.HatchEventHandler.Removed | src/home_assistant_adapter/event/hatch_event_handler.cpp:39-53 | throws exactly when no hatch has the id |
| HatchSync.HatchEventHandler.StateChanged | src/home_assistant_adapter/event/hatch_event_handler.cpp:55-70 | syncs the hatch with the id, or nothing |
| HatchSync.Follow | src/poller/include/poller/hatch_poller.hpp:27-55 | the poller and the handler at work on one hatch over any polls: hash, number of events and topic are those of PollAll, one event per change, other hatches untouched |
| HatchSync.OneEventPerChange | src/poller/include/poller/hatch_poller.hpp:27-55 | over any polls, as many events as changes of status, counting from Undefined for a new poller |
| HatchSync.HashTellsStatesApart | src/poller/include/poller/hatch_poller.hpp:39-49 | no two states of a hatch have the same hash, and only Undefined has hash zero |
| HatchSync.TopicShowsLastStatus | src/home_assistant_adapter/device/hatch.cpp:46-59 | from the first event on, whatever was there before, the topic shows the last open or closed status polled |
| EntityConfigs.EntityConfig.Set | src/home_assistant_v2/include/home_assistant/mqtt/entity_config.hpp:15-22 | keeps what is there |
| EntityConfigs.EntityConfig.SetOverrideIfNotNull | src/home_assistant_v2/include/home_assistant/mqtt/entity_config.hpp:30-38 | replaces unless there is a null |
| EntityConfigs.BuildCoverConfig | src/home_assistant_v2/include/home_assistant/mqtt/cover.hpp:119-135 | the published object equals the closed form key by key: forced keys, user nulls kept on payloads, the user's template kept, other keys untouched |
| EntityConfigs.HatchConfig | src/home_assistant_adapter/device/hatch.cpp:34-43 | what is published for a hatch, key by key: its own keys, no stop command, and every text a cover needs |
| EntityConfigs.HatchTopics | src/home_assistant_v2/include/home_assistant/mqtt/cover.hpp:121-132 | and the topics, each with the unique id in it |
| EntityConfigs.TopicsDiffer | src/home_assistant_v2/include/home_assistant/mqtt/entity.hpp:63-67 | no two covers share a topic, and no two topics of one cover are the same |
| EntityConfigs.UserDecides | src/home_assistant_v2/include/home_assistant/mqtt/cover.hpp:121-133 | a null put on a command, a template and every unknown key are the ones of the user |
| EntityConfigs.ConfiguringIsIdempotent | src/home_assistant_v2/include/home_assistant/mqtt/cover.hpp:119-135 | configuring the result again gives the same object |

## Left out

- Boost.Asio, async_mqtt, TLS and packet encoding: represented by the script of network events; running out of packet ids is not modelled, as the source dereferences an empty optional there.
- Two coroutines on one entity: `async_sync_state` called by an event handler between two awaits of the receive loop is not interleaved; calls follow each other, in any order (`EntityProps.PendingIsExact`).
- Memory safety of moved adapters and of the vectors that own running coroutines.
- What a received command does to the device, reboot, sysfs, and temperature values.
- JSON text, SHA-1, uuid text and the timezone database: a file holds structured values, ids are texts, the zone offset is fixed, and parsing a time of day has succeeded.
- `AsyncMqttClient::set_will`, credentials and the other fields of CONNECT; log and error texts.
- The width of `int` in attempt counters and device ids, and of time points while a task is re-armed: unbounded here.
- Timers with a period of zero or less, which would fire without end.
- DeviceTree node-removal callbacks: when they run depends on move assignment, and no caller passes one.
- `LedIndicator` and boards whose indicators do not share one LED.
- The event bus, command dispatcher, executors, traits and the generic mapper: plumbing with only easy claims. The temperature sensor's and board's pollers and handlers repeat the hatch's.
- The keys of a discovery config are distinct names here, not texts; order of keys in the published text is not modelled.
- A process that ends in the middle of a write: runs are cut between writes. What a torn file leads to is the unreadable file of `TaskStore.FileTaskStore.Open`.
- Duplicate ids in a task file written by someone else: `Scheduling.Scheduler.AddTask` follows the code on them, but the results over restarts assume that the file's ids are unique.
