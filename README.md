# Connection supervision of the DaYouReminder BLE monitoring service

This project models the connection-supervision core of the Android service
`BluetoothStateMonitorService`, which keeps one configured Bluetooth Low
Energy peripheral connected. It counts failed connection attempts and gives
up after `MAX_RECONNECT_ATTEMPTS = 150` failures have been exceeded. It holds
at most one GATT link and one attempt in flight. A connect-timeout watchdog
re-checks the system's connection state before counting a failure. Delayed
retries re-check their conditions when they wake up. Adapter power events
close the link (OFF) or clear the give-up state and reconnect (ON).

Files:

- `wrappers.dfy`: `Option`, standing for Kotlin's nullable references.
- `ble_platform.dfy` (module `BlePlatform`): the platform's constants, the
  radio's answers as input values (`RadioView`, `Lookup`, `AdapterIntent`),
  the placeholder/blank check on the configured address, the address format
  check and the "system lists this device as connected" membership test.
- `supervision.dfy` (module `Supervision`): the service's fields as one
  datatype `Supervisor`. It has one function per source routine giving the
  state the routine leaves (`AfterFailure`, `AfterInitiate`, `AfterClose`,
  ...). It also has the serialised event loop (`Event`, `Step`, `Run`), the
  invariant `Inv` and the lemmas that every event keeps it.
- `monitor_service.dfy` (module `MonitorService`): the class
  `BluetoothStateMonitorService`. Its fields are the source's fields. Its
  methods change them step by step, branch for branch like the Kotlin code.
  Each method is proved to leave exactly the state its `Supervision`
  function describes, and each event handler keeps `Valid()`.
- `supervision_properties.dfy` (module `SupervisionProperties`): the
  properties of the state machine, stated on the `Supervision` functions.

Modelling choices:

- Every event is one atomic method: the GATT callback, the timeout job
  running, a retry task waking up, an adapter broadcast, `onStartCommand`
  and `onDestroy`. The connect timeout is `watchdog`, the address the live
  job watches, and it is `None` once the job is cancelled or has run. Retry
  tasks are launched without a handle, so they are a count
  (`pendingRetries`). Only cancelling the scope in `onDestroy` clears that
  count.
- The radio stack's answers are parameters of the event that asks for them.
  These are `isEnabled`, what `getRemoteDevice` returns, the addresses
  `getConnectedDevices(GATT)` lists, whether `connectGatt` returns a link,
  and whether `getConnectionState` reports the device connected when the
  watchdog runs.
- `bluetoothAdapter?.isEnabled == false` is false when there is no adapter.
  The model keeps that: "disabled" means an adapter exists and reports
  itself off (`AdapterDisabled`). Without an adapter `getRemoteDevice` gives
  null (`RemoteDevice`).
- The status text is an enumerated `Status`, one kind per message the
  service publishes. The error status codes and the retry number are kept.
- `BluetoothAdapter.checkBluetoothAddress` is Android library code. It is
  given its documented meaning: 17 characters, upper-case hexadecimal pairs
  separated by colons (`CheckBluetoothAddress`).
- The receiver has two booleans. `receiverSet` is the `adapterStateReceiver`
  reference. `receiverListening` says whether `registerReceiver` accepted it.
  When registration throws, the reference is still kept, so a later
  registration is a no-op. Broadcasts reach only a listening receiver.

Three behaviours of the code are kept as written:

- `onStartCommand` resets the counter and the give-up flag only when retries
  had been given up (`:259-263`). It does not reset them on every start.
- Retry-delay tasks are never cancelled when superseded. Several can be
  pending, and each re-checks its conditions when it wakes up.
- The callback's `newState` is an integer. States other than connected and
  disconnected still end the attempt and cancel the watchdog, and then do
  nothing more.

The invariant `Inv` shows that a live watchdog always belongs to the attempt
on the held link. So the "timeout for another device" branch (`:455-457`)
never runs in the serialised model. `StaleTimeoutIsNoOp` shows what that
branch would do.

## Model

| member | source | states |
|---|---|---|
| `BlePlatform.TargetFromConfig` | app/src/main/java/com/example/dayoureminder/BluetoothStateMonitorService.kt:205-210 | a kept target is the loaded value, non-empty, neither the placeholder nor blank; every other loaded value is kept verbatim |
| `BlePlatform.AnyHasAddress` | app/src/main/java/com/example/dayoureminder/BluetoothStateMonitorService.kt:398-399 | true exactly when the device's address is among the system-connected addresses |
| `MonitorService.BluetoothStateMonitorService.constructor` | app/src/main/java/com/example/dayoureminder/BluetoothStateMonitorService.kt:223-253 | onCreate: target from the configuration check; no adapter means only the not-supported status; otherwise the receiver is registered; the invariant holds |
| `MonitorService.BluetoothStateMonitorService.PublishStatusUpdate` | app/src/main/java/com/example/dayoureminder/BluetoothStateMonitorService.kt:512-516 | only the status changes |
| `MonitorService.BluetoothStateMonitorService.CloseGattInternal` | app/src/main/java/com/example/dayoureminder/BluetoothStateMonitorService.kt:475-505 | the watchdog is cancelled, the attempt ends, the link field is cleared; nothing else changes |
| `MonitorService.BluetoothStateMonitorService.AttemptReconnectAfterDelay` | app/src/main/java/com/example/dayoureminder/BluetoothStateMonitorService.kt:167-180 | one retry task is added, unless given up, unconfigured or the scope is cancelled |
| `MonitorService.BluetoothStateMonitorService.HandleFailedConnectionAttempt` | app/src/main/java/com/example/dayoureminder/BluetoothStateMonitorService.kt:143-162 | leaves the state of `AfterFailure`: one failure counted, then give up or retry (see `FailureAccounting`) |
| `MonitorService.BluetoothStateMonitorService.InitiateGattConnection` | app/src/main/java/com/example/dayoureminder/BluetoothStateMonitorService.kt:384-438 | leaves the state of `AfterInitiate` (see `InitiateOutcomes`) |
| `MonitorService.BluetoothStateMonitorService.ConnectToTargetDevice` | app/src/main/java/com/example/dayoureminder/BluetoothStateMonitorService.kt:336-378 | leaves the state of `AfterConnect` (see `ConnectOutcomes`) |
| `MonitorService.BluetoothStateMonitorService.OnConnectionStateChange` | app/src/main/java/com/example/dayoureminder/BluetoothStateMonitorService.kt:75-125 | keeps the invariant and leaves the state of `AfterConnectionStateChange` (see `ConnectionStateChangeOutcomes`) |
| `MonitorService.BluetoothStateMonitorService.OnConnectTimeout` | app/src/main/java/com/example/dayoureminder/BluetoothStateMonitorService.kt:437-458 | keeps the invariant and leaves the state of `AfterConnectTimeout` (see `ConnectTimeoutOutcomes`) |
| `MonitorService.BluetoothStateMonitorService.OnRetryDelay` | app/src/main/java/com/example/dayoureminder/BluetoothStateMonitorService.kt:177-194 | keeps the invariant and leaves the state of `AfterRetryDelay` (see `RetryDelayOutcomes`) |
| `MonitorService.BluetoothStateMonitorService.OnAdapterStateReceive` | app/src/main/java/com/example/dayoureminder/BluetoothStateMonitorService.kt:577-617 | keeps the invariant and leaves the state of `AfterAdapterBroadcast` (see `AdapterPowerOutcomes`) |
| `MonitorService.BluetoothStateMonitorService.OnStartCommand` | app/src/main/java/com/example/dayoureminder/BluetoothStateMonitorService.kt:255-291 | keeps the invariant, leaves the state of `AfterStartCommand`, returns sticky exactly when permitted |
| `MonitorService.BluetoothStateMonitorService.OnDestroy` | app/src/main/java/com/example/dayoureminder/BluetoothStateMonitorService.kt:293-301 | keeps the invariant and leaves the state of `AfterDestroy` (see `DestroyOutcomes`) |
| `MonitorService.BluetoothStateMonitorService.RegisterAdapterStateReceiver` | app/src/main/java/com/example/dayoureminder/BluetoothStateMonitorService.kt:574-634 | registers only when no receiver is referenced; a failed registration keeps the reference and reports an error |
| `MonitorService.BluetoothStateMonitorService.UnregisterAdapterStateReceiver` | app/src/main/java/com/example/dayoureminder/BluetoothStateMonitorService.kt:639-652 | only a referenced receiver is unregistered; the reference is cleared |
| `Supervision.StepPreservesInv` | app/src/main/java/com/example/dayoureminder/BluetoothStateMonitorService.kt:54-67 | every event keeps: count at most 151, given up exactly at 151, an attempt has a link, a live watchdog watches the held link's attempt, a cancelled scope runs nothing |
| `Supervision.CreatedSatisfiesInv` | app/src/main/java/com/example/dayoureminder/BluetoothStateMonitorService.kt:223-253 | the service as created satisfies the invariant |
| `Supervision.FailurePreservesInv` | app/src/main/java/com/example/dayoureminder/BluetoothStateMonitorService.kt:143-162 | a failure, counted whether or not an attempt is in flight, keeps the invariant (counter within the ceiling, giving up exactly at 151) and leaves the in-flight flag as it was |
| `Supervision.InitiatePreservesInv` | app/src/main/java/com/example/dayoureminder/BluetoothStateMonitorService.kt:411-438 | a new attempt has its link and its watchdog |
| `Supervision.ConnectPreservesInv` | app/src/main/java/com/example/dayoureminder/BluetoothStateMonitorService.kt:356-377 | connecting keeps the invariant, including a failure counted during an attempt |
| `Supervision.ConnectionStateChangePreservesInv` | app/src/main/java/com/example/dayoureminder/BluetoothStateMonitorService.kt:89-123 | the callback keeps the invariant |
| `Supervision.ConnectTimeoutPreservesInv` | app/src/main/java/com/example/dayoureminder/BluetoothStateMonitorService.kt:440-454 | the watchdog keeps the invariant |
| `Supervision.RetryDelayPreservesInv` | app/src/main/java/com/example/dayoureminder/BluetoothStateMonitorService.kt:182-193 | a waking retry keeps the invariant |
| `Supervision.AdapterBroadcastPreservesInv` | app/src/main/java/com/example/dayoureminder/BluetoothStateMonitorService.kt:592-606 | the adapter broadcast keeps the invariant |
| `Supervision.StartCommandPreservesInv` | app/src/main/java/com/example/dayoureminder/BluetoothStateMonitorService.kt:259-289 | the start command keeps the invariant |
| `SupervisionProperties.FailureAccounting` | app/src/main/java/com/example/dayoureminder/BluetoothStateMonitorService.kt:143-162 | given up: nothing changes; otherwise the count grows by exactly one, retries are given up exactly when it passes 150, otherwise exactly one retry is scheduled (with a target and a live scope); the link is untouched |
| `SupervisionProperties.FailureCountsOnce` | app/src/main/java/com/example/dayoureminder/BluetoothStateMonitorService.kt:150-156 | under the invariant a failure moves the count to min(count + 1, 151) |
| `SupervisionProperties.RunPreservesInv` | app/src/main/java/com/example/dayoureminder/BluetoothStateMonitorService.kt:54-67 | every sequence of events keeps the invariant |
| `SupervisionProperties.ReachableSatisfiesInv` | app/src/main/java/com/example/dayoureminder/BluetoothStateMonitorService.kt:223-253 | every state reachable from creation satisfies the invariant |
| `SupervisionProperties.RepeatedDisconnects` | app/src/main/java/com/example/dayoureminder/BluetoothStateMonitorService.kt:111-123 | n disconnections leave the count at min(count + n, 151) and give up exactly when count + n passes 150; no link remains |
| `SupervisionProperties.GiveUpAfter151Failures` | app/src/main/java/com/example/dayoureminder/BluetoothStateMonitorService.kt:153-156 | from a reset counter, n failures leave min(n, 151) and give up exactly from the 151st |
| `SupervisionProperties.GivenUpIsPassive` | app/src/main/java/com/example/dayoureminder/BluetoothStateMonitorService.kt:337-341 | while given up, failure accounting, retry scheduling, connecting (also :168-171) and initiating (also :385-388) change nothing; a waking retry only ends |
| `SupervisionProperties.GivenUpStep` | app/src/main/java/com/example/dayoureminder/BluetoothStateMonitorService.kt:153-158 | an event other than a successful callback, a connected timeout, adapter ON or a start keeps the given-up state and opens no link |
| `SupervisionProperties.GivenUpUntilRecovery` | app/src/main/java/com/example/dayoureminder/BluetoothStateMonitorService.kt:153-158 | after giving up no link is opened and no attempt starts until such an event |
| `SupervisionProperties.ConnectionStateChangeOutcomes` | app/src/main/java/com/example/dayoureminder/BluetoothStateMonitorService.kt:84-123 | other device: nothing changes; else the attempt ends and the watchdog is cancelled; success resets the count and keeps the link; connected with error or any disconnect closes the link and counts one failure |
| `SupervisionProperties.InitiateOutcomes` | app/src/main/java/com/example/dayoureminder/BluetoothStateMonitorService.kt:389-438 | no-op while given up or attempting; system-connected with the same held link resets the counters and opens nothing; otherwise the stale link is replaced by an attempt on the device with its watchdog, or a null link counts one failure |
| `SupervisionProperties.CloseOutcomes` | app/src/main/java/com/example/dayoureminder/BluetoothStateMonitorService.kt:475-486 | no link, no attempt, no watchdog afterwards; counters, status, scope and receiver unchanged; idempotent; a no-op without a link |
| `SupervisionProperties.ConnectTimeoutOutcomes` | app/src/main/java/com/example/dayoureminder/BluetoothStateMonitorService.kt:438-454 | a cancelled watchdog never fires; a live one is for the current attempt; not connected: close and one failure; connected: the attempt ends, counters reset, no failure |
| `SupervisionProperties.StaleTimeoutIsNoOp` | app/src/main/java/com/example/dayoureminder/BluetoothStateMonitorService.kt:440-457 | a job whose attempt ended or moved to another link changes nothing when it runs |
| `SupervisionProperties.WatchdogSuccessRace` | app/src/main/java/com/example/dayoureminder/BluetoothStateMonitorService.kt:448-453 | success callback and a connected watchdog in either order give the same state: connected, reset, link kept, no retry |
| `SupervisionProperties.RetryDelayOutcomes` | app/src/main/java/com/example/dayoureminder/BluetoothStateMonitorService.kt:182-193 | a waking retry connects only with a live scope, not given up and the adapter not disabled; otherwise only the task is gone, and with a live scope, not given up and the adapter off the status becomes RetryCancelledBluetoothOff |
| `SupervisionProperties.ConnectOutcomes` | app/src/main/java/com/example/dayoureminder/BluetoothStateMonitorService.kt:343-373 | missing/invalid or rejected address: status only; adapter off: status only; device unobtainable: one failure |
| `SupervisionProperties.UnconfiguredStep` | app/src/main/java/com/example/dayoureminder/BluetoothStateMonitorService.kt:343-348 | without a target an idle service stays idle and gains no retry |
| `SupervisionProperties.UnconfiguredNeverConnects` | app/src/main/java/com/example/dayoureminder/BluetoothStateMonitorService.kt:172-175 | without a target no link is ever opened and no retry scheduled, over any run |
| `SupervisionProperties.AdapterPowerOutcomes` | app/src/main/java/com/example/dayoureminder/BluetoothStateMonitorService.kt:581-606 | OFF closes the link and keeps the counters; ON clears the given-up state, then connects when the adapter is enabled |
| `SupervisionProperties.PowerCycleRestartsAttempts` | app/src/main/java/com/example/dayoureminder/BluetoothStateMonitorService.kt:581-602 | after giving up, OFF keeps the counters, then ON resets them and opens a new attempt with its watchdog |
| `SupervisionProperties.StartCommandOutcomes` | app/src/main/java/com/example/dayoureminder/BluetoothStateMonitorService.kt:258-289 | resets only when given up; missing permission or disabled adapter stop there; otherwise connects |
| `SupervisionProperties.ReceiverRegistrationIdempotent` | app/src/main/java/com/example/dayoureminder/BluetoothStateMonitorService.kt:574-651 | a second registration is a no-op; a second unregistration is a no-op |
| `SupervisionProperties.DestroyOutcomes` | app/src/main/java/com/example/dayoureminder/BluetoothStateMonitorService.kt:293-301 | no task, link or receiver remains, counters unchanged; destroying twice is destroying once |
| `SupervisionProperties.QuietStep` | app/src/main/java/com/example/dayoureminder/BluetoothStateMonitorService.kt:297-301 | after destroy, an event other than a start schedules and opens nothing |
| `SupervisionProperties.DestroyedStaysQuiet` | app/src/main/java/com/example/dayoureminder/BluetoothStateMonitorService.kt:300-301 | after destroy, no run of events without a start opens a link or starts a task |
| `SupervisionProperties.ExampleTargetIsWellFormed` | app/src/main/java/com/example/dayoureminder/BluetoothStateMonitorService.kt:343 | "AA:BB:CC:DD:EE:FF" passes the address check |
| `SupervisionProperties.WellFormedAddressIsConfigurable` | app/src/main/java/com/example/dayoureminder/BluetoothStateMonitorService.kt:206 | a well-formed address is never rejected as placeholder or blank |
| `SupervisionProperties.ScenarioFirstConnection` | app/src/main/java/com/example/dayoureminder/BluetoothStateMonitorService.kt:93-102 | start with the radio on arms an attempt on the target; a successful callback leaves it connected with the count at 0 |
| `SupervisionProperties.ScenarioBlankTarget` | app/src/main/java/com/example/dayoureminder/BluetoothStateMonitorService.kt:206-208 | a blank address leaves no target; starting reports it and opens no link |

## Left out

- Notifications: the channel, the notification itself, `startForeground`, `stopForeground` and `onBind`. They are platform plumbing with no effect on supervision.
- Radio calls (`getRemoteDevice`, `connectGatt`, `getConnectedDevices`, `getConnectionState`, `isEnabled`). They are foreign calls; their results are parameters.
- The `disconnect()` and `close()` calls in `closeGattInternal`, and their `BLUETOOTH_CONNECT` guard (`:488-504`). They are radio I/O. The state change is the same whether or not the permission is granted.
- `hasRequiredPermissions` (`:320-331`): it becomes the `permitted` parameter of the start command.
- `stopSelf()` (`:245`, `:272`): the framework then ends the service, which `OnDestroy` models when it happens.
- Loading the properties file (`:200-219` apart from `:205-210`): it is file I/O. The loaded value, or None on any failure, is an input of `TargetFromConfig`.
- Coroutines, `Dispatchers.IO`, binder threads and the real 10 s and 35 s delays. Events are serialised and timers are explicit pending state. Races between the binder thread and the I/O dispatcher, which the source does not lock against, are not captured.
- `AttemptReconnectAfterDelay`: the retry status is published when a task is launched. In the source it is the task's first statement.
- GATT callbacks are identified only by their device's address. The model cannot tell a stale callback from a closed link object apart from one from the current link.
- `onServicesDiscovered` (`:127-136`) and all logging: they only log.
- The French status texts and device names: they are replaced by `Status` kinds.
- `BluetoothStatusHolder`: it is the `status` field, starting at `NotStarted`. Its value surviving from one service instance to the next is not modelled.
- `closeGatt` (`:466-469`): it is an unused wrapper around `closeGattInternal`.
- `MainActivity`: it is UI, permission requests and start/stop intents, with no supervisor logic.
