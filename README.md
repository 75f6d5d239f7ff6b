# BLE relay: a verified model

This project models the event-driven core of a small Bluetooth Low Energy relay
system, with Dafny proofs about the model. The system has three parts:

- a mobile client that holds radio links to peripherals. It scans for them,
  supervises each link and forwards what the links report;
- a relay server that re-broadcasts device events to the sockets in a room;
- a web observer that folds the events it receives into a per-device registry.

The model has one module per source file, plus two shared vocabulary modules:

- `Wrappers`: an `Option` type. It stands for a JavaScript value that may be
  absent, `undefined` or `null`.
- `Protocol`: statuses, devices, the three device events, their payloads, what a
  client socket sends, and JavaScript truthiness of a string.
- `DeviceConnection` (`connection.dfy`): the per-device connection component. It
  is a status machine with a `connecting` flag and a latest-data slot. It tracks
  the reconnect timers still pending apart from the `reconnectTimeout` reference,
  which names the timer armed last.
  - The pure step functions on `ConnState` say what each event does.
  - The `Connection` class performs the same events on its fields, and each
    method is proved equal to its step function.
  - The radio library's outcomes are parameters. Pending counters record which
    library callbacks can still arrive.
  - `trace` logs, in order, every status report and data value given to the
    parent, every timer armed, every connect attempt and every teardown.
- `Relay` (`relay.dfy`): the relay hub.
  - It keeps the handler-local `currentRoom` of each session apart from
    socket.io's room membership, and models `join`'s leave-then-join exactly.
  - `Broadcast` returns the recipients and the unchanged message.
- `Registry` (`registry.dfy`): the observer's registry.
  - It is a pure point update per event kind, and the observer's clock is passed
    in as `now`.
  - `Fold` folds a stream of arrivals into the registry.
  - A reference definition (`Expected`) reads each device's projection straight
    off the stream.
- `SocketEmitter` (`emitter.dfy`): the payload builders, `Encode`, and the
  provider class. The class holds the `connected` flag, joins its room on every
  connect and keeps the log of what its socket sent.
- `DeviceLists` (`lists.dfy`): the `find` and `filter` calls the screens make on
  device lists.
- `MultiDeviceScreen` (`multi_screen.dfy`): the multi-device screen. It keeps the
  device list, per-id data and status, and turns callbacks into emit calls.
- `SingleDeviceScreen` (`single_screen.dfy`): the single-device screen, which has
  a selected device and "Back to Scanner".
- `Scanner` (`scanner.dfy`): the scan screen.
  - `startScan` resets the screen.
  - The result filter uses the list captured when the scan started.
  - A scan error ends the scan.
  - Each scan arms a 10 s stop timer that is never cancelled.
  - The scan button is disabled while scanning.
- `EndToEnd` (`endtoend.dfy`): carries a peer disconnect through the connection,
  the multi-device screen, the provider, the hub and the registry.

The screens record the calls they make on the socket provider as a sequence of
`EmitCall` values, and `SocketEmitter.Encode` turns each call into the message
that goes on the wire. This replaces the provider object the screens hold.

Behaviour of the code that is easy to misread:

- `cleanup` only clears the reconnect timer and requests teardown. It does not
  set the status to "disconnected", and it does not stop a later peer-disconnect
  notification from arming a new reconnect timer (`DeviceConnection.CleanupTwice`).
- When the reconnect timer fires, the status becomes "reconnecting". The retry
  path never sets "connecting" again (`DeviceConnection.OnlySupplyConnects`).
- The characteristic monitor is never unregistered. A value that arrives after
  the peer dropped the link is therefore forwarded while the status is
  "disconnected" (`DeviceConnection.DataAfterLinkLoss`).
- A second `cleanup` is not a no-op: it requests teardown of the link again. The
  library rejects that request, and the rejection is swallowed.

## Model

| member | source | states |
|---|---|---|
| Protocol.TextInjective | mobile/App.js:28-30 | the five status strings are pairwise distinct, so comparing with `"disconnected"` picks out exactly the disconnected status |
| Protocol.Truthy | server/index.js:26 | JavaScript truthiness of an optional string: present and not empty |
| DeviceConnection.InitialInv | mobile/components/DeviceConnectionManager.js:15-19 | a fresh component (status "disconnected", no timer, nothing reported) satisfies the invariant |
| DeviceConnection.ConnectStep | mobile/components/DeviceConnectionManager.js:32-37 | one connect attempt is issued |
| DeviceConnection.ClearRef | mobile/components/DeviceConnectionManager.js:74 | `clearTimeout` through the reference cancels the referenced timer if it is still pending; no other timer is reachable |
| DeviceConnection.ReconnectStep | mobile/components/DeviceConnectionManager.js:73-80 | clear through the reference, then arm one 3000 ms timer and point the reference at it |
| DeviceConnection.FailStep | mobile/components/DeviceConnectionManager.js:48-53 | status "disconnected", flag cleared, one report, then attemptReconnect |
| DeviceConnection.CleanupStep | mobile/components/DeviceConnectionManager.js:82-86 | clear through the reference and request teardown |
| DeviceConnection.SupplyStep | mobile/components/DeviceConnectionManager.js:21-30 | the `[device]` effect: nothing on an unchanged device; else the previous cleanup, then "connecting" and one attempt for a present device |
| DeviceConnection.LinkStep | mobile/components/DeviceConnectionManager.js:34-40 | success: "connected", flag cleared, one report, discovery started; failure: the catch block |
| DeviceConnection.DiscoveryStep | mobile/components/DeviceConnectionManager.js:41-47 | success registers the monitor and the disconnect handler; failure: the catch block |
| DeviceConnection.MonitorStep | mobile/components/DeviceConnectionManager.js:60-69 | an error sets and reports "error"; a value is stored and forwarded |
| DeviceConnection.LossStep | mobile/components/DeviceConnectionManager.js:43-47 | reports "disconnected", then attemptReconnect |
| DeviceConnection.FireStep | mobile/components/DeviceConnectionManager.js:75-79 | the oldest pending timer fires: "reconnecting" is set and reported, then one attempt |
| DeviceConnection.Step | mobile/components/DeviceConnectionManager.js:21-86 | dispatches each event to its step |
| DeviceConnection.DisconnectEnabled | mobile/components/DeviceConnectionManager.js:99 | the Disconnect button is enabled exactly while "connected" or "reconnecting" |
| DeviceConnection.ClearRefEmpties | mobile/components/DeviceConnectionManager.js:74 | in a reachable state the clear leaves no timer pending and changes nothing else |
| DeviceConnection.CleanupInv | mobile/components/DeviceConnectionManager.js:82-86 | cleanup keeps the invariant |
| DeviceConnection.StepInv | mobile/components/DeviceConnectionManager.js:21-86 | every possible event keeps the invariant. The invariant says: at most one reconnect timer is pending, of 3000 ms, and it is the one the reference names (this rests on the clear at line 74: without it a second peer drop leaves two timers pending); "connecting" implies the flag, which implies an attempt in flight; "connecting" is never reported; the current status is the last one reported |
| DeviceConnection.RunInv | mobile/components/DeviceConnectionManager.js:21-86 | every run of possible events from an invariant state ends in an invariant state |
| DeviceConnection.SupplyConnects | mobile/components/DeviceConnectionManager.js:21-30 | supplying a new device sets it, sets "connecting" and the flag, and issues exactly one connect attempt, after tearing the previous device down when there was one; nothing is reported |
| DeviceConnection.SupplySameIsNoOp | mobile/components/DeviceConnectionManager.js:21-30 | the same device again changes nothing; dropping the device runs only the previous cleanup |
| DeviceConnection.ConnectedThenDiscoveryFails | mobile/components/DeviceConnectionManager.js:34-53 | a successful link reports "connected" once, clears the flag and only then starts discovery; a later discovery failure ends "disconnected" with the flag cleared, one "disconnected" report and exactly one 3000 ms timer pending |
| DeviceConnection.OnlySupplyConnects | mobile/components/DeviceConnectionManager.js:75-79 | from any status other than "connecting", only a supplied device can lead to "connecting"; a timer firing leads to "reconnecting" and leaves the flag unchanged |
| DeviceConnection.MonitorErrorIsolated | mobile/components/DeviceConnectionManager.js:60-65 | a monitor error sets and reports "error"; the data, the pending timers and the count of armed timers are unchanged |
| DeviceConnection.DataAfterLinkLoss | mobile/components/DeviceConnectionManager.js:43-69 | after a peer disconnect the monitor can still deliver a value, which is stored and forwarded while the status is "disconnected" |
| DeviceConnection.CleanupTwice | mobile/components/DeviceConnectionManager.js:82-86 | cleanup cancels the referenced timer, leaving none pending in a reachable state, and keeps the status; a second cleanup changes nothing but a repeated teardown request |
| DeviceConnection.RepeatedLossKeepsOneTimer | mobile/components/DeviceConnectionManager.js:43-80 | two peer drops in a row report "disconnected" and arm a timer twice, yet leave exactly one timer pending |
| DeviceConnection.Retries | mobile/components/DeviceConnectionManager.js:48-79 | n such rounds leave the number of attempts in flight unchanged |
| DeviceConnection.RetriesArmOneTimerEach | mobile/components/DeviceConnectionManager.js:48-80 | n failed attempts in a row arm exactly n timers of 3000 ms, one at a time; the trace is the retry cycle repeated n times; after each round no timer is pending and the status is "reconnecting" |
| DeviceConnection.DisconnectButton | mobile/components/DeviceConnectionManager.js:96-100 | from any state: Disconnect is disabled after a new device is supplied, a link failure, a discovery failure, a peer disconnect or a monitor error; enabled after a link success or a timer firing; unchanged by a discovery success or a data value |
| DeviceConnection.DisconnectStatuses | mobile/components/DeviceConnectionManager.js:99 | the button is enabled exactly when the status string is "connected" or "reconnecting" |
| DeviceConnection.Connection.constructor | mobile/components/DeviceConnectionManager.js:15-19 | the fields start as the initial state |
| DeviceConnection.Connection.SupplyDevice | mobile/components/DeviceConnectionManager.js:21-30 | the `[device]` effect: it runs only on a change of device; the previous run's cleanup goes first; a missing device does nothing more |
| DeviceConnection.Connection.ConnectToDevice | mobile/components/DeviceConnectionManager.js:32-37 | one connect attempt is issued |
| DeviceConnection.Connection.OnLinkSettled | mobile/components/DeviceConnectionManager.js:32-53 | the flag ends cleared; the status ends "connected" on success and "disconnected" on failure (the catch path); Disconnect is enabled exactly on success |
| DeviceConnection.Connection.OnDiscoverySettled | mobile/components/DeviceConnectionManager.js:41-53 | success subscribes the monitor and the disconnect handler and keeps the status; failure ends "disconnected", Disconnect disabled, with the referenced 3000 ms timer pending |
| DeviceConnection.Connection.CatchFailure | mobile/components/DeviceConnectionManager.js:48-53 | status "disconnected", flag cleared, one report, a reconnect armed |
| DeviceConnection.Connection.OnMonitor | mobile/components/DeviceConnectionManager.js:56-71 | the timers are unchanged; a value overwrites the stored data and is forwarded once, unchanged |
| DeviceConnection.Connection.OnDisconnected | mobile/components/DeviceConnectionManager.js:43-47 | reports "disconnected", disables Disconnect and leaves the referenced 3000 ms timer pending |
| DeviceConnection.Connection.AttemptReconnect | mobile/components/DeviceConnectionManager.js:73-80 | the referenced timer, if still pending, is cancelled; one new 3000 ms timer is armed and referenced |
| DeviceConnection.Connection.ClearReconnectTimer | mobile/components/DeviceConnectionManager.js:74 | the referenced timer, if still pending, is cancelled, and the reference then names no pending timer |
| DeviceConnection.Connection.Fire | mobile/components/DeviceConnectionManager.js:75-79 | the oldest pending timer is consumed; the status becomes "reconnecting", enabling Disconnect, and is reported before the next attempt; the flag is unchanged |
| DeviceConnection.Connection.Cleanup | mobile/components/DeviceConnectionManager.js:82-86 | the referenced timer is cancelled and the status is kept |
| DeviceConnection.Connection.CanDisconnect | mobile/components/DeviceConnectionManager.js:99 | the Disconnect button's enabling on the component's status |
| Relay.JoinedFacts | server/index.js:25-30 | after `join(r)` the session is in `r` and in no other routable room, and the two tables stay consistent; the previous room is left exactly when it is truthy: a falsy one leaves every joined room joined, a truthy one other than `r` is left; joining the current room leaves the membership unchanged |
| Relay.Joined | server/index.js:26-28 | the membership after `join(r)`: the current room removed when truthy, then `r` added |
| Relay.Hub.constructor | server/index.js:22 | the hub starts with no sessions |
| Relay.Hub.Connect | server/index.js:22-24 | a new session gets the next id, above every id issued before, with no current room and no membership |
| Relay.Hub.Join | server/index.js:25-30 | the current room becomes `r`; the membership is updated by leave-if-truthy and then join: `r` is joined, a falsy previous room leaves every joined room joined, a truthy previous room other than `r` is left; no other session changes |
| Relay.Hub.MembershipIsCurrentRoom | server/index.js:25-30 | for a non-empty room, socket.io membership coincides with the handler's current room |
| Relay.Hub.Disconnect | server/index.js:45-48 | the session leaves both tables; nothing else changes |
| Relay.Hub.Broadcast | server/index.js:32-43 | the message is forwarded unchanged; the recipients are exactly the sessions whose current room is the message's truthy room; the sender plays no part |
| Relay.ConnectAndJoin | server/index.js:22-30 | a session connects and joins a room |
| Relay.FourSessions | server/index.js:22-30 | builds a hub with three sessions in one room and one in another |
| Relay.FanOutExample | server/index.js:36-39 | a data event for "r1" reaches exactly the three members of "r1", not the fourth session, and arrives unchanged |
| Relay.SwitchRoomExample | server/index.js:25-35 | a session that switched from A to B receives events for B and not for A |
| Relay.DropExample | server/index.js:32-43 | an event with a missing or empty room reaches nobody, even a session joined to "" |
| Relay.EmptyRoomKept | server/index.js:25-28 | a session that joined "" and then `r` is in both rooms, because the falsy "" is never left |
| Registry.Label | web/src/components/DeviceList.js:23-62 | each event kind stores its own `lastEvent` string, and the three are distinct |
| Registry.OnSocketConnect | web/src/components/DeviceList.js:19-21 | the observer joins the shared (truthy) room on connect |
| Registry.Earlier | web/src/components/DeviceList.js:26-27 | an unseen id contributes no name, value or unit |
| Registry.OnConnected | web/src/components/DeviceList.js:23-35 | only the event's entry changes, and an unseen id gains one |
| Registry.OnData | web/src/components/DeviceList.js:37-50 | only the event's entry changes, and an unseen id gains one |
| Registry.OnDisconnected | web/src/components/DeviceList.js:52-63 | only the event's entry changes, and an unseen id gains one |
| Registry.Apply | web/src/components/DeviceList.js:23-63 | one arrival adds its id to the keys and keeps every other entry |
| Registry.Fold | web/src/components/DeviceList.js:23-63 | the arrivals folded one at a time, in order, into the registry |
| Registry.FoldMatchesReference | web/src/components/DeviceList.js:14-63 | from the empty registry, a device has an entry exactly when some arrival mentions it. The entry is the reference projection: name from the last connect, value and unit from the last data, time and kind from the last event, and "disconnected" exactly when that event was a disconnect |
| Registry.FoldKeepsLinkStatuses | web/src/components/DeviceList.js:30-59 | every projection's status stays "connected" or "disconnected" |
| Registry.FoldOnlyAdds | web/src/components/DeviceList.js:23-63 | the keys after a fold are the old keys plus the ids mentioned; entries are never removed |
| Registry.ClockNotTimestamp | web/src/components/DeviceList.js:31 | an entry's time is the observer's clock, and the event's timestamp has no effect |
| Registry.UpdateRules | web/src/components/DeviceList.js:23-63 | the three updates field by field: connect sets the name and keeps value and unit; data sets value and unit and keeps the name; disconnect keeps all three |
| Registry.FoldExample | web/src/components/DeviceList.js:23-62 | connected "HRM", data "72", disconnected: the device is "disconnected", last event "disconnected", value "72", name "HRM" |
| SocketEmitter.Encode | mobile/components/SocketEmitter.js:30-55 | each payload carries the device id, the clock reading and the provider's room, under the event name of its call |
| SocketEmitter.ConnectedPayload | mobile/components/SocketEmitter.js:30-37 | id, name, timestamp and room of a connect event |
| SocketEmitter.DataPayload | mobile/components/SocketEmitter.js:39-47 | id, value, unit, timestamp and room of a data event |
| SocketEmitter.DisconnectedPayload | mobile/components/SocketEmitter.js:49-55 | id, timestamp and room of a disconnect event |
| SocketEmitter.DecodeEncode | mobile/components/SocketEmitter.js:30-55 | the payload gives back the call, except that data and disconnect payloads carry no name; value and unit arrive unchanged |
| SocketEmitter.Provider.constructor | mobile/components/SocketEmitter.js:12-14 | `connected` starts false and nothing has been sent |
| SocketEmitter.Provider.OnConnect | mobile/components/SocketEmitter.js:18-21 | `connected` becomes true and `join(room)` is sent |
| SocketEmitter.Provider.OnDisconnect | mobile/components/SocketEmitter.js:22-24 | `connected` becomes false and nothing is sent |
| SocketEmitter.Provider.EmitDeviceConnected | mobile/components/SocketEmitter.js:30-37 | sends the `device_connected` message for the device; every sent message keeps the provider's room |
| SocketEmitter.Provider.EmitDeviceData | mobile/components/SocketEmitter.js:39-47 | sends the `device_data` message with value and unit unchanged; every sent message keeps the provider's room |
| SocketEmitter.Provider.EmitDeviceDisconnected | mobile/components/SocketEmitter.js:49-55 | sends the `device_disconnected` message; every sent message keeps the provider's room |
| SocketEmitter.Provider.Perform | mobile/components/SocketEmitter.js:57-65 | a call through the context value sends exactly its encoded message |
| SocketEmitter.ProviderExample | mobile/components/SocketEmitter.js:14-47 | connect, emit data, disconnect: the flag follows the socket, and the join precedes a data payload with no name |
| DeviceLists.Find | mobile/app/index.tsx:69 | finds a device exactly when some listed device has the id, and returns the first such device |
| DeviceLists.Without | mobile/app/index.tsx:89 | the filter never makes the list longer |
| DeviceLists.WithoutMembers | mobile/app/index.tsx:89 | the filter keeps exactly the listed devices with another id |
| DeviceLists.WithoutAbsent | mobile/app/index.tsx:89 | filtering out an id nobody has changes nothing |
| DeviceLists.WithoutRemovesOne | mobile/app/index.tsx:85-90 | with unique ids, filtering out the id at position k removes exactly that device and keeps the order of the rest |
| DeviceLists.AppendKeepsUnique | mobile/app/index.tsx:68-73 | appending an unlisted id keeps the ids unique |
| DeviceLists.WithoutKeepsUnique | mobile/app/index.tsx:89 | filtering keeps the ids unique |
| MultiDeviceScreen.Screen.constructor | mobile/app/index.tsx:57-61 | no devices, no data, no statuses, nothing emitted |
| MultiDeviceScreen.Screen.HandleDeviceConnect | mobile/app/index.tsx:68-73 | an unlisted device is appended and announced once; a listed id changes nothing; ids stay unique |
| MultiDeviceScreen.Screen.HandleData | mobile/app/index.tsx:75-81 | the data is always recorded for the id; it is relayed with unit "raw" under the listed device only when the id is listed |
| MultiDeviceScreen.Screen.HandleStatusChange | mobile/app/index.tsx:83-92 | the status is always recorded. On "disconnected" for a listed id, one disconnect is announced and that id is filtered out. Otherwise nothing is emitted and the list is unchanged. Data entries are kept |
| MultiDeviceScreen.UnlistsExactlyOne | mobile/app/index.tsx:85-90 | for the listed device at position k, `find` returns it and the filter removes only it, keeping the others' order |
| MultiDeviceScreen.ConnectTwo | mobile/app/index.tsx:68-73 | connecting a, b and then a again lists and announces each once |
| MultiDeviceScreen.Example | mobile/app/index.tsx:68-92 | after data and a disconnect for a, only b is listed; the emitted calls are exactly the five expected; a keeps its data and its "disconnected" status |
| MultiDeviceScreen.UnlistedExample | mobile/app/index.tsx:75-92 | data and statuses for an unlisted id are recorded, and nothing is emitted |
| SingleDeviceScreen.Screen.constructor | mobile/App.js:11-13 | no selection, no data, status "disconnected" |
| SingleDeviceScreen.Screen.HandleDeviceSelect | mobile/App.js:16-19 | the device is selected and announced exactly once |
| SingleDeviceScreen.Screen.HandleData | mobile/App.js:21-26 | the data is always stored; it is relayed with unit "raw" only while a device is selected |
| SingleDeviceScreen.Screen.HandleStatusChange | mobile/App.js:28-34 | the status is always stored; "disconnected" with a selection announces that device's disconnect and clears the selection; anything else emits nothing |
| SingleDeviceScreen.Screen.BackToScanner | mobile/App.js:50-53 | the selection is cleared and nothing is emitted |
| SingleDeviceScreen.Screen.ShowsScanner | mobile/App.js:41-42 | the scanner is rendered exactly when no device is selected |
| SingleDeviceScreen.SessionExample | mobile/App.js:16-34 | select, connect, data, disconnect: three calls in order, and the scanner shows again |
| SingleDeviceScreen.BackExample | mobile/App.js:21-53 | after Back, later data and a later "disconnected" are stored and nothing is relayed |
| Scanner.ScanScreen.constructor | mobile/components/BLEScanner.js:15-17 | no devices, not scanning, no error |
| Scanner.ScanScreen.StartScan | mobile/components/BLEScanner.js:25-44 | the list is emptied, the error cleared, scanning set, the current list captured for the filter, and one stop timer armed |
| Scanner.ScanScreen.Press | mobile/components/BLEScanner.js:48-52 | a press while scanning changes nothing; otherwise it starts a scan |
| Scanner.ScanScreen.ButtonEnabled | mobile/components/BLEScanner.js:51 | the scan button is disabled while scanning |
| Scanner.ScanScreen.ScanResult | mobile/components/BLEScanner.js:35-37 | a present device with a non-empty name is appended unless its id is in the captured list; otherwise nothing changes; listed names stay non-empty |
| Scanner.ScanScreen.ScanError | mobile/components/BLEScanner.js:30-34 | the message is recorded, scanning is cleared, and nothing is listed |
| Scanner.ScanScreen.StopTimerFires | mobile/components/BLEScanner.js:40-43 | the oldest timer fires and stops the current scan, whichever scan armed it |
| Scanner.RepeatWithinScan | mobile/components/BLEScanner.js:35-36 | a device reported twice in one scan is listed twice |
| Scanner.UnnamedIgnored | mobile/components/BLEScanner.js:35 | missing devices, and devices with a missing or empty name, are never listed |
| Scanner.ScannedOnce | mobile/components/BLEScanner.js:25-43 | one scan listing a device, ended by its timer |
| Scanner.PreviousScanSkipped | mobile/components/BLEScanner.js:35 | a device listed by the previous scan is skipped by the next one |
| Scanner.EarlierTimerEndsLaterScan | mobile/components/BLEScanner.js:30-43 | after a scan error re-enables the button, the first scan's timer ends the second scan; the second scan's timer is still pending |
| Scanner.PressWhileScanning | mobile/components/BLEScanner.js:48-52 | a second press while scanning is ignored: one scan, one timer, button disabled |
| EndToEnd.Transmit | mobile/components/SocketEmitter.js:18-55 | a provider that connects and performs the calls sends its join followed by exactly the calls' messages, all tagged with its room |
| EndToEnd.RelayReachesRoom | server/index.js:32-43 | every message the provider sent reaches every session in its room, unchanged |
| EndToEnd.LastForWire | web/src/components/DeviceList.js:23-63 | the last arrival about a device carries the last call about it, as the wire carries it |
| EndToEnd.ObserverFollowsLastCall | web/src/components/DeviceList.js:52-62 | the observer lists exactly the devices some call concerned, and shows a device "disconnected" exactly when the last call about it announced a disconnect |
| EndToEnd.PeerDropRun | mobile/components/DeviceConnectionManager.js:32-47 | link, discovery, one value, peer loss: reports "connected", forwards the value, reports "disconnected", arms one timer |
| EndToEnd.ScreenCalls | mobile/app/index.tsx:113-119 | the multi-device screen, fed these reports, announces the device, relays the value with unit "raw", announces the disconnect and unlists the device |
| EndToEnd.SharedRoomHub | server/index.js:25-30 | the mobile client and the observer both join the shared room |
| EndToEnd.PeerDisconnectReachesObserver | mobile/components/DeviceConnectionManager.js:43-47 | a peer disconnect ends with the observer's projection "disconnected"; every message the mobile client sent reaches the observer unchanged |

## Left out

- Rendering, JSX, styles and colours. Only the predicates cited above are kept: the Disconnect button's enabling, the scanner being shown, and the scan button being disabled.
- The radio library's calls (`connectToDevice`, discovery, `monitorCharacteristicForService`, `onDisconnected`, `cancelDeviceConnection`, `destroy`, `startDeviceScan`, `stopDeviceScan`) are foreign code. Their outcomes are parameters or events of the model.
- `mobile/components/BleManagerContext.js` is not part of this model. It wraps a library object and has no logic.
- Socket.io and Express transport: CORS, static serving, the SPA fallback, `listen`, `io(serverUrl)` and the socket's `disconnect()` on unmount. Sockets are session ids, and a delivery is a returned recipient set.
- Socket.io's automatic per-socket-id room is not modelled. An event whose room names a socket id would reach that socket.
- A `join` with a non-string argument is not modelled. Rooms are strings.
- Relay.Hub.Broadcast: a `device_*` event with no payload or a `null` payload throws a TypeError at `data.room` (server/index.js:34,38,42), and a truthy room that is not a string is still handed to `io.to`; the model always receives a payload record with an optional string room. The `console.log` calls at server/index.js:23,29,33,37,41,46 are dropped.
- Asynchrony and time. Awaits, callbacks and timers are discrete events applied one at a time. `Date.now()` is a parameter. Concurrency between devices is not modelled.
- React's batching and stale closures are not modelled, apart from the scanner's duplicate check. Each handler reads the state left by the previous event. In the app, a callback still in flight from an unmounted connection manager runs the handler of the render that created it; `SingleDeviceScreen.BackExample` and `MultiDeviceScreen.UnlistedExample` rely on fresh state.
- The socket client's buffering of emits while disconnected is not modelled. Each emit call is appended to the sent log, whether or not the socket is connected.
- DeviceConnection.Connection.OnLinkSettled: `onStatusChange` and `onData` are assumed to be always supplied. The `onStatusChange && …` guards are not modelled.
- Calls into a destroyed radio manager after `cleanup` are not modelled. The radio library's rejection of such calls belongs to the library.
- `cleanup` on a missing device is not modelled. In the source, `cleanup` reads `device.id`, and the component never calls it without a device.
- Object identity and JavaScript key coercion are not modelled. Devices are compared by value, and ids are strings.
- The wiring in `mobile/app/index.tsx:108-111` is not modelled. It hands the scanner callbacks that the scanner never reads, and each screen's handlers are modelled on their own.
- Selecting a listed scan result (`onDeviceSelect(item)`) is not modelled. It only passes the device on to the screen.
- Android permission requests are platform UI.
- `Scanner.StopDelayMs`: the delay is not modelled as time. Because every stop timer has the same delay, only the order in which the timers fire matters.
