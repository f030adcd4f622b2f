# Proximity profile data path (CC2340R5 application)

A Dafny model of the presence-service data path of the CC2340R5 BLE
application: the proximity GATT profile that owns the Detection, Range,
Sensitivity and Timeout characteristic values, and the application glue that
turns a peer's writes into sensor reconfiguration and sensor detection events
into Detection updates.

Modules, one per source file (plus one for byte handling):

- `Bytes` (`bytes.dfy`): `uint8`/`uint16`, `BUILD_UINT16` and the little-endian
  byte view of a 16-bit value, including one-byte writes into it.
- `ProfileDefs` (`profile_defs.dfy`): parameter ids, UUIDs and status codes.
  The Attribute Protocol error codes are those of the Bluetooth Core
  Specification, Vol 3 Part F, section 3.4.1.1. The stack status codes
  (`SUCCESS` 0x00, `FAILURE` 0x01, `INVALIDPARAMETER` 0x02,
  `bleAlreadyInRequestedMode` 0x11, `bleInvalidRange` 0x18) come from the TI
  BLE stack's headers. Those headers are not part of this model. The proofs
  rely on the codes that a contract compares being pairwise distinct:
  `SUCCESS`, `INVALIDPARAMETER` and `bleInvalidRange` for `setParameter`, and
  `SUCCESS` and the Attribute Protocol codes for the attribute callbacks. The Client
  Characteristic Configuration UUID is the assigned number 0x2902.
- `SensorDriver` (`sensor_driver.dfy`): the driver behind `proximity.h`. It is
  an abstract state (running, range, sensitivity, timeout) plus a trace of
  every control call. `Sensor` is the object the code calls; `Driver` is its
  value; `ApplyCall` says what each call does.
- `ProximityService` (`proximity_service.dfy`): the `Profile` class. It holds
  the four module variables, the registered callbacks, and a log of the
  detection values handed to the stack's notification processing. Pure
  reference functions sit beside it on the `Characteristics` record:
  `GetParameter`, `SetParameterStatus`, `ReadAttr`, `WriteStatus`,
  `WriteEffect` and `NotifyApp`. The class methods `SetParameter` and
  `WriteAttr` are proved against them. `WriteAttr` works byte by byte: it
  clears both bytes, then does a one-byte or a 16-bit store.
- `AppProximity` (`app_proximity.dfy`): the `App` class, with
  `Proximity_changeCB` (`ChangeCB`), the debouncing detection handler
  (`OnProximityEvt`), the seeding part of `Proximity_start` (`Start`), and a
  peer write from end to end (`OnPeerWrite`). The reference functions are
  `ChangeCalls` (the driver calls made) and `EchoBack` (the store afterwards).
  The debounce fold is `LastAfter`/`Updates`.

Notable behaviour of the code. The model follows the code in each case:

- A write to Range or Timeout clears both stored bytes before its status is
  checked. A refused write therefore leaves the value 0
  (`RefusedWriteClears`). Sensitivity is never cleared.
- A 2-byte write to Sensitivity is refused as an invalid size whatever its
  offset. For the other writable characteristics a non-zero offset is
  refused as not long.
- Because Range and Timeout are cleared first and the change callback is
  raised whatever the status, a refused Timeout write (a non-zero offset, or
  a length other than 1 or 2) ends in `setPresenceTimeout(0)` on the driver
  (`RefusedTimeoutWriteZeroesDriver`). A refused Sensitivity write also
  raises the callback, which re-applies the old sensitivity with a stop, set,
  start cycle when it is in bounds (`RefusedSensitivityWriteReapplies`).
- The application's change callback id is chosen from the UUID alone,
  whatever the write's status. A write to the configuration descriptor
  raises it with the DETECTION id, which the application ignores.
- `setParameter` checks only the id and the length, never the value's range.
  A Range or Sensitivity value outside its bounds is stored first. The
  change callback then overwrites it with the driver's current value.
- The values start at 0. `Proximity_start` seeds them from the driver's
  getters (`Start`), not from constants.
- `on_connect` starts the sensor on every connection. `on_disconnect` stops
  it when the stack still counts at least one active link
  (proximity_service.c:481). The function's own comment (proximity_service.c:477)
  says it stops the sensor when no connection is active.
- `registerAppCBs` answers a null table with `bleAlreadyInRequestedMode`
  (proximity_service.c:172). Its header comment (proximity_service.h:67)
  promises `INVALIDPARAMETER`.

## Model

| member | source | states |
|---|---|---|
| `Bytes.Build16` | ble_app_CC2340R5/app/Profiles/proximity_service.c:415 | BUILD_UINT16(lo, hi) is the 16-bit value whose low byte is lo and high byte is hi |
| `Bytes.Encode16` | ble_app_CC2340R5/app/Profiles/proximity_service.c:326-330 | the memcpy of a 16-bit value yields exactly two bytes |
| `Bytes.Encode16RoundTrip` | ble_app_CC2340R5/app/Profiles/proximity_service.c:326-330 | encoding then BUILD_UINT16 gives the value back; BUILD_UINT16 then encoding gives the bytes back |
| `Bytes.SetLowByte` | ble_app_CC2340R5/app/Profiles/proximity_service.c:407-411 | a store through a `uint8_t *` into a 16-bit value changes its low byte to b and keeps its high byte |
| `Bytes.SetHighByte` | ble_app_CC2340R5/app/Profiles/proximity_service.c:397 | writing `pValue[1]` changes only the high byte |
| `Bytes.LowByteWriteExposesStaleHigh` | ble_app_CC2340R5/app/Profiles/proximity_service.c:392-398 | a one-byte write reads back as that byte iff the high byte was zero, which is why the code clears both bytes first |
| `ProfileDefs.ParamOf` | ble_app_CC2340R5/app/Profiles/proximity_service.h:19-22 | exactly the ids 0..3 name a parameter, and the named parameter has that id |
| `ProfileDefs.IdRoundTrip` | ble_app_CC2340R5/app/Profiles/proximity_service.h:19-22 | each parameter's id names it back, and ids are distinct |
| `ProfileDefs.Width` | ble_app_CC2340R5/app/Profiles/proximity_service.h:19-22 | Detection and Sensitivity are 1 byte wide (uint8), Range and Timeout 2 bytes (uint16) |
| `ProximityService.Field` | ble_app_CC2340R5/app/Profiles/proximity_service.c:53-56 | a stored value always fits its parameter's width |
| `ProximityService.WithParam` | ble_app_CC2340R5/app/Profiles/proximity_service.c:189-242 | storing into one parameter sets it and leaves the other three unchanged |
| `ProximityService.ReadAtWidth` | ble_app_CC2340R5/app/Profiles/proximity_service.c:194 | the value read through `void *value` fits the parameter's width and is the value itself when it already fits |
| `ProximityService.ParamOfUuid` | ble_app_CC2340R5/app/Profiles/proximity_service.h:28-31 | a UUID maps to the parameter whose characteristic it is, and to none if no characteristic has it |
| `ProximityService.GetParameter` | ble_app_CC2340R5/app/Profiles/proximity_service.c:255-284 | succeeds iff the id is 0..3, with a value of the parameter's width; any other id gives INVALIDPARAMETER |
| `ProximityService.SetParameterStatus` | ble_app_CC2340R5/app/Profiles/proximity_service.c:185-246 | SUCCESS iff the id is known and the length is the parameter's native width; INVALIDPARAMETER iff the id is unknown; bleInvalidRange otherwise |
| `ProximityService.SetThenGet` | ble_app_CC2340R5/app/Profiles/proximity_service.c:189-274 | a set at the native width succeeds; get then returns the value; every other parameter reads as before |
| `ProximityService.ValueBytes` | ble_app_CC2340R5/app/Profiles/proximity_service.c:320-330 | a read copies exactly the parameter's native width: the byte itself for a uint8, low byte then high byte for a uint16 |
| `ProximityService.Decode` | ble_app_CC2340R5/app/Profiles/proximity_service.c:405-416 | a one-byte payload is its byte; a two-byte payload is lo + 256·hi, as BUILD_UINT16 stores it |
| `ProximityService.DecodeValueBytes` | ble_app_CC2340R5/app/Profiles/proximity_service.c:320-330 | decoding the bytes a read copies out gives the stored value |
| `ProximityService.ReadAttr` | ble_app_CC2340R5/app/Profiles/proximity_service.c:300-347 | offset > 0 gives ATTR_NOT_LONG with the length untouched; a characteristic is read at its width (1 for Detection/Sensitivity, 2 for Range/Timeout), the first byte being the stored value's low byte and the second its high byte; another 16-bit UUID gives length 0 and ATTR_NOT_FOUND; a 128-bit UUID gives length 0 and INVALID_HANDLE |
| `ProximityService.WriteStatus` | ble_app_CC2340R5/app/Profiles/proximity_service.c:367-452 | a 2-byte Sensitivity write is always INVALID_VALUE_SIZE; a writable characteristic succeeds iff offset is 0 and the length is 1 or 2 (only 1 for Sensitivity); otherwise a non-zero offset gives ATTR_NOT_LONG and a bad length INVALID_VALUE_SIZE; a CCC write returns the stack's status; other UUIDs give ATTR_NOT_FOUND and a 128-bit UUID INVALID_HANDLE |
| `ProximityService.WriteEffect` | ble_app_CC2340R5/app/Profiles/proximity_service.c:392-416 | the values writeAttrCB leaves: Range or Timeout hold the decoded payload when the write is accepted and 0 when it is refused; Sensitivity holds the payload's byte when accepted and is unchanged when refused; Detection, the other two values, and every write to another attribute are untouched |
| `ProximityService.ReadAfterWrite` | ble_app_CC2340R5/app/Profiles/proximity_service.c:392-416 | after an accepted write, reading the characteristic returns the payload padded with zero to the native width, so no stale high byte shows |
| `ProximityService.ReadOfClearedValue` | ble_app_CC2340R5/app/Profiles/proximity_service.c:326-330 | a Range or Timeout holding 0 reads back as two zero bytes with SUCCESS |
| `ProximityService.RefusedWriteClears` | ble_app_CC2340R5/app/Profiles/proximity_service.c:392-398 | a refused Range or Timeout write leaves the value 0, which reads back as two zero bytes |
| `ProximityService.RefusedWriteKeepsSensitivity` | ble_app_CC2340R5/app/Profiles/proximity_service.c:399-405 | a refused Sensitivity write changes no stored value |
| `ProximityService.NotifyApp` | ble_app_CC2340R5/app/Profiles/proximity_service.c:429-446 | Range, Sensitivity and Timeout map to their own ids, the CCC descriptor to DETECTION, and every other attribute (128-bit UUIDs included) to no callback |
| `ProximityService.Profile.constructor` | ble_app_CC2340R5/app/Profiles/proximity_service.c:53-56 | at start-up all four values are 0 and no callbacks are registered |
| `ProximityService.Profile.RegisterAppCBs` | ble_app_CC2340R5/app/Profiles/proximity_service.c:163-174 | a table is stored with SUCCESS; a null table returns bleAlreadyInRequestedMode and changes nothing |
| `ProximityService.Profile.SetParameter` | ble_app_CC2340R5/app/Profiles/proximity_service.c:185-246 | the status is `SetParameterStatus`; on success exactly the named parameter takes the value at its width; on failure no value changes; a stored detection value is appended to the notification log |
| `ProximityService.Profile.WriteAttr` | ble_app_CC2340R5/app/Profiles/proximity_service.c:362-462 | the in-place byte writes give status `WriteStatus` and store `WriteEffect`; the raised callback is `NotifyApp`, only when a change callback is registered, whatever the status |
| `ProximityService.OnConnect` | ble_app_CC2340R5/app/Profiles/proximity_service.c:469-472 | every connection issues one Start to the driver |
| `ProximityService.OnDisconnect` | ble_app_CC2340R5/app/Profiles/proximity_service.c:479-485 | a disconnection issues one Stop iff the active-link count is > 0, otherwise nothing |
| `SensorDriver.ApplyCall` | ble_app_CC2340R5/app/proximity.h:33-41 | every driver call is appended to the trace |
| `SensorDriver.ApplyCalls` | ble_app_CC2340R5/app/proximity.h:33-41 | a sequence of calls extends the trace by exactly those calls in order |
| `SensorDriver.ApplyCallsKeepsBounds` | ble_app_CC2340R5/app/proximity.h:17-22 | calls whose setter arguments are within bounds keep an in-bounds driver in bounds |
| `SensorDriver.Sensor.constructor` | ble_app_CC2340R5/app/proximity.h:32 | a driver starts stopped with the given configuration and an empty trace |
| `SensorDriver.Sensor.Start` | ble_app_CC2340R5/app/proximity.h:33 | startSensor marks the driver running and records Start |
| `SensorDriver.Sensor.Stop` | ble_app_CC2340R5/app/proximity.h:34 | stopSensor marks the driver stopped and records Stop |
| `SensorDriver.Sensor.SetSensitivity` | ble_app_CC2340R5/app/proximity.h:35 | setSensitivity sets the sensitivity and records the call |
| `SensorDriver.Sensor.SetRange` | ble_app_CC2340R5/app/proximity.h:36 | setRange sets the range and records the call |
| `SensorDriver.Sensor.SetPresenceTimeout` | ble_app_CC2340R5/app/proximity.h:41 | setPresenceTimeout sets the timeout and records the call |
| `AppProximity.ChangedValue` | ble_app_CC2340R5/app/app_proximity.c:59-60 | the callback works on the stored value of a known id and on 0 for an unknown one |
| `AppProximity.ChangeCalls` | ble_app_CC2340R5/app/app_proximity.c:57-111 | an in-range Range/Sensitivity gives exactly Stop, Set(v), Start; out of range gives no call; Timeout gives exactly SetPresenceTimeout(v); any other id gives nothing; every setter argument is within bounds |
| `AppProximity.EchoBack` | ble_app_CC2340R5/app/app_proximity.c:73-98 | an out-of-range Range/Sensitivity is overwritten with the driver's value, an in-range one is kept, and nothing else changes; with an in-bounds driver the handled parameter ends in bounds |
| `AppProximity.PeerRangeWrite` | ble_app_CC2340R5/app/app_proximity.c:64-79 | an accepted peer Range write v is applied by one Stop, SetRange(v), Start when 20 <= v <= 200; otherwise it reaches no driver call and the store ends up holding the driver's range |
| `AppProximity.PeerSensitivityWrite` | ble_app_CC2340R5/app/app_proximity.c:83-98 | an accepted peer Sensitivity write b is applied by one Stop, SetSensitivity(b), Start when 1 <= b <= 6; otherwise the store ends up holding the driver's sensitivity |
| `AppProximity.RefusedTimeoutWriteZeroesDriver` | ble_app_CC2340R5/app/Profiles/proximity_service.c:392-398 | a refused Timeout write still raises the TIMEOUT callback, whose only driver call is setPresenceTimeout(0) (app_proximity.c:101-106) |
| `AppProximity.RefusedSensitivityWriteReapplies` | ble_app_CC2340R5/app/Profiles/proximity_service.c:399-438 | a refused Sensitivity write still raises the SENSITIVITY callback, which runs Stop, SetSensitivity(old value), Start when the old value is in bounds and makes no call otherwise (app_proximity.c:83-98) |
| `AppProximity.ChangesKeepDriverInBounds` | ble_app_CC2340R5/app/app_proximity.c:62-110 | from an in-bounds driver, no series of change callbacks moves range out of [20,200] or sensitivity out of [1,6], whatever the store holds |
| `AppProximity.LastAfter` | ble_app_CC2340R5/app/app_proximity.c:209-216 | after any nonempty series of events, last_detection equals the latest event |
| `AppProximity.Updates` | ble_app_CC2340R5/app/app_proximity.c:210-214 | the indices of the detection events that call setParameter (and so notify), all within the event series |
| `AppProximity.UpdatesAscending` | ble_app_CC2340R5/app/app_proximity.c:207-217 | updates happen in event order, each event at most once |
| `AppProximity.UpdatesMember` | ble_app_CC2340R5/app/app_proximity.c:210-214 | for any one index, that event updates Detection iff it differs from the event before it (or from the initial last_detection) |
| `AppProximity.UpdatesAreChanges` | ble_app_CC2340R5/app/app_proximity.c:207-217 | an event updates (and notifies) Detection iff it differs from the previous event, or from the initial last_detection for the first event |
| `AppProximity.DebounceExample` | ble_app_CC2340R5/app/app_proximity.c:207-217 | starting from 0, the events 0,0,1,1,0 update Detection at indices 2 and 4 only |
| `AppProximity.App.constructor` | ble_app_CC2340R5/app/app_proximity.c:209 | last_detection starts at 0 |
| `AppProximity.App.ChangeRange` | ble_app_CC2340R5/app/app_proximity.c:64-81 | a range in [20,200] reaches the driver as Stop, SetRange(v), Start with the store untouched; any other value makes no driver call and the store's range becomes the driver's range; no notification, registration unchanged |
| `AppProximity.App.ChangeSensitivity` | ble_app_CC2340R5/app/app_proximity.c:83-100 | a sensitivity in [1,6] reaches the driver as Stop, SetSensitivity(v), Start with the store untouched; any other value makes no driver call and the store's sensitivity becomes the driver's; no notification, registration unchanged |
| `AppProximity.App.ChangeCB` | ble_app_CC2340R5/app/app_proximity.c:57-111 | the driver receives exactly `ChangeCalls` for the stored value, the store becomes `EchoBack`, no notification is issued, and an in-bounds driver stays in bounds |
| `AppProximity.App.OnProximityEvt` | ble_app_CC2340R5/app/app_proximity.c:207-217 | a value different from last_detection is stored and appended to the notification log; a repeated value changes nothing; last_detection becomes the value either way |
| `AppProximity.App.Start` | ble_app_CC2340R5/app/app_proximity.c:122-171 | a failed addService status is returned with the store untouched; otherwise the store holds Detection 0 and the driver's range, sensitivity and timeout, the change callback is registered, and the result is FAILURE iff a task could not be created |
| `AppProximity.App.OnPeerWrite` | ble_app_CC2340R5/app/Profiles/proximity_service.c:454-518 | a peer write returns `WriteStatus`; when a callback is raised and its buffer allocated, the driver and the store go through `ChangeCalls` and `EchoBack` on the written store, otherwise only `WriteEffect` applies; no detection notification is issued and the registration is unchanged; an in-bounds driver stays in bounds |

## Left out

- GATT registration (`ProximityProfile_addService`, the attribute table, `GATTServApp_RegisterService`, `GATTServApp_InitCharCfg`): stack internals. `App.Start` takes the status of `addService` as an input.
- `GATTServApp_ProcessCCCWriteReq`: its status is an input to the write callback. The subscription table it updates is not modelled.
- `GATTServApp_ProcessCharCfg`: each stored detection value is appended to `Profile.notified`. Whether a peer is subscribed, and so actually notified, is the stack's business and is not modelled.
- `ICall_malloc` and `BLEAppUtil_invokeFunction` (the hand-off of the change callback to the application's context): modelled as a direct call of `App.ChangeCB`. A failed allocation, which drops the callback, is the `bufferAllocated` input.
- `App.OnPeerWrite` assumes the registered change callback is `Proximity_changeCB`, as `Proximity_start` registers it.
- `linkDB_NumActive()`: the active-link count is an input to `OnDisconnect`.
- FreeRTOS tasks, the binary semaphore, `detection_task`, `sensor_run_thread`, `processSensorEvent` and `proximityInit`: concurrency and unseen code. The outcomes of the two task creations are inputs to `App.Start`. The event coalescing caused by the single-slot semaphore is not modelled.
- `I2C_init`, `GPIO_setConfig`, `GPIO_write` and `Display_printf`: hardware I/O and logging.
- The sensor driver's implementation is not part of this model. The model assumes its getters return the values last set, with `getTimeout` returning what `setPresenceTimeout` set. Its initial configuration is a constructor argument. `changeRange` and `getSensorValue` are not used by the modelled code.
- The attribute callbacks' `maxLen` and `method` arguments are ignored by the code and are not modelled. `connHandle` only reaches the descriptor handling of a CCC write (proximity_service.c:421), which the `cccStatus` input stands for. The 16-bit bound on the write length is not modelled either, because every length above 2 is treated the same.
- ble_app_nrf52/proximity_service.h: declarations only, with no implementation to model.
