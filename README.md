# Class B end-device lifecycle controller

A Dafny model of the application-level controller of a LoRaWAN class B end
device (`classB.c` of the ASR6601CB evaluation examples). The device joins a
network, sends an uplink every 30 s plus a random delay of up to 5 s, and
moves itself up to class B. Getting there takes three detours: device time or
beacon timing, then beacon acquisition, then ping-slot negotiation.

The program keeps its state in four globals: `DeviceState`, `WakeUpState`,
`NextTx` and `TxDutyCycleTime`. Two actors write them. One is the main loop of
`app_start`, which dispatches on `DeviceState`. The other is the set of MAC
callbacks (`McpsConfirm`, `McpsIndication`, `MlmeConfirm`, `MlmeIndication`)
and the timer routine `OnTxNextPacketTimerEvent`. `WakeUpState` is the state
to resume to when the timer fires. Together with `DeviceState` it acts as a
one-level resume stack for the detours.

The model has four modules:

- `DeviceTypes`: the state enumeration, the MAC request and event kinds, the
  constants (30000 ms, 5000 ms, ping-slot periodicity 0), and the two
  compile-time switches `USE_BEACON_TIMING` and `OVER_THE_AIR_ACTIVATION` as a
  `Config` value.
- `Lifecycle`: the reference semantics. `Ctx` is the shared state. There is one
  function for each case of the dispatch and one for each callback. It also
  defines `Inv` / `Reachable`, the things every state satisfies, and `Apply` /
  `Run`, which apply one event or a list of events.
- `ClassBApp`: the program's own shape. `Device` is a class whose fields are
  the globals. It has one method per loop case (`RunInit` … `RunDefault`), the
  dispatching `Step`, and one method per callback. Each method assigns the
  fields the way the C code does. Each is proved to produce exactly the state
  that its `Lifecycle` function gives, and to keep `Valid()`. `AppStart` builds
  the device and runs the loop over a finite list of events.
- `LifecycleProperties`: lemmas over single events and whole traces. They
  cover invariant preservation, who may write `WakeUpState`, `NextTx` and the
  device class, idempotence, and the full power-up → join → class B scenario.

The two switches are `const` fields of the device, set when it is built. Every
contract is therefore proved for all four builds.

The model treats the MAC engine as an oracle. Each call into it
(`LoRaMacMlmeRequest`, `LoRaMacMcpsRequest`, the joined-flag MIB read) becomes
a boolean input: "the engine returned `LORAMAC_STATUS_OK`". `randr(0,
APP_TX_DUTYCYCLE_RND)` becomes a `Jitter` input in `0..5000`. Every request
handed to the engine is appended to the `issued` log, whether or not the
engine accepts it. So "issues no request" can be stated and proved. The MIB's
joined flag and device class are plain fields. The static-activation branch of
`Join` sets the joined flag. A successful `MLME_JOIN` confirm also sets it,
because the engine records the join before it reports it. This is the one
engine-side effect the model takes on.

Where the code and the design description disagree, the model follows the code:

- `randr(0, 5000)` includes both bounds, so the model takes the jitter in
  `0..5000` and not `[0, 5000)`. The utilities file that defines `randr` is not
  part of this model.
- Nothing ever assigns `DEVICE_STATE_SWITCH_CLASS`, and the switch has no case
  for it. If it were reached it would take the `default` branch back to `Init`.
  `DefaultState` models that branch. `Reachable` proves it is never taken.
- The `MLME_DEVICE_TIME` and `MLME_BEACON_TIMING` confirms ignore their status.
  A successful beacon acquisition does not change the device class. Only a
  successful ping-slot answer sets class B, and only a lost beacon sets class A.
- `MlmeConfirm` sets `NextTx` to true on exit for every operation and every
  status, not only after a successful join retry.
- `WakeUpState` starts as `Init`. Suppose the engine refuses the first
  discovery request. Then nothing overwrites `WakeUpState`, and the next timer
  event resumes to `Init` while the device is joined. That repeats the MAC
  setup and the join (`RefusedFirstDiscoveryResumesToInit`).

## Model

| member | source | states |
|---|---|---|
| `DeviceTypes.DiscoveryState` | projects/ASR6601CB-EVAL/examples/lorawan/class_b/src/classB.c:446-450 | the discovery entry is `ReqBeaconTiming` exactly when `USE_BEACON_TIMING` is set, `ReqDeviceTime` exactly when it is not |
| `DeviceTypes.UnusedDiscoveryState` | projects/ASR6601CB-EVAL/examples/lorawan/class_b/src/classB.c:790-794 | the other build's discovery state is one of the two discovery states and never the configured one |
| `Lifecycle.Initial` | projects/ASR6601CB-EVAL/examples/lorawan/class_b/src/classB.c:127-137 | the process starts with `DeviceState = WakeUpState = Init`, `NextTx` true, `TxDutyCycleTime` 30000, not joined, class A, the timer idle, nothing issued |
| `Lifecycle.InitState` | projects/ASR6601CB-EVAL/examples/lorawan/class_b/src/classB.c:720-744 | Init always moves to Join and changes nothing else of the shared state |
| `Lifecycle.JoinState` | projects/ASR6601CB-EVAL/examples/lorawan/class_b/src/classB.c:745-797 | over the air: one join request, then Sleep if accepted and Cycle if refused, with the joined flag untouched; static activation: no request, joined set, and the configured discovery state next; nothing else changes |
| `Lifecycle.Detour` | projects/ASR6601CB-EVAL/examples/lorawan/class_b/src/classB.c:798-864 | a request state always moves to Send. With `NextTx` false it issues nothing and changes nothing else. With `NextTx` true it issues its requests and sets `WakeUpState = Send` only when the last one was accepted. `NextTx` and everything else are unchanged |
| `Lifecycle.ReqDeviceTimeState` | projects/ASR6601CB-EVAL/examples/lorawan/class_b/src/classB.c:798-813 | moves to Send with `NextTx` unchanged; issues a device-time request exactly when `NextTx`; resumes to Send exactly when it was issued and accepted; nothing else changes |
| `Lifecycle.ReqBeaconTimingState` | projects/ASR6601CB-EVAL/examples/lorawan/class_b/src/classB.c:814-829 | the same for the beacon-timing request |
| `Lifecycle.ReqPingSlotAckState` | projects/ASR6601CB-EVAL/examples/lorawan/class_b/src/classB.c:844-864 | the same, issuing a link check and then a ping-slot request with periodicity 0; only the ping-slot answer decides the resume state |
| `Lifecycle.BeaconAcquisitionState` | projects/ASR6601CB-EVAL/examples/lorawan/class_b/src/classB.c:830-843 | always moves to Send with `NextTx` false. With `NextTx` true it issues the acquisition request whatever the engine answers. With `NextTx` false only the state changes |
| `Lifecycle.SendFrame` | projects/ASR6601CB-EVAL/examples/lorawan/class_b/src/classB.c:258-264 | the result (the new `NextTx`) is false exactly when the engine accepted the uplink |
| `Lifecycle.SendState` | projects/ASR6601CB-EVAL/examples/lorawan/class_b/src/classB.c:865-878 | always moves to Cycle with `TxDutyCycleTime = 30000 + jitter`, which is in 30000..35000. `NextTx` ends true exactly when it was true and the uplink was refused. An uplink is issued exactly when `NextTx` was true. Nothing else changes |
| `Lifecycle.CycleState` | projects/ASR6601CB-EVAL/examples/lorawan/class_b/src/classB.c:879-887 | moves to Sleep with the timer armed with the current duty cycle; nothing else changes |
| `Lifecycle.DefaultState` | projects/ASR6601CB-EVAL/examples/lorawan/class_b/src/classB.c:897-901 | the `default` branch restarts at Init and changes nothing else |
| `Lifecycle.Iterate` | projects/ASR6601CB-EVAL/examples/lorawan/class_b/src/classB.c:712-903 | one loop pass keeps `Inv` and `Reachable`; every request state lands in Send, Send in Cycle, Cycle in Sleep, and Sleep changes nothing |
| `Lifecycle.TimerEvent` | projects/ASR6601CB-EVAL/examples/lorawan/class_b/src/classB.c:270-309 | the timer is always stopped. If the joined query fails, nothing else changes. If joined, `DeviceState := WakeUpState` and `NextTx := true`. If not joined, one join request, then Sleep if accepted and Cycle if refused |
| `Lifecycle.McpsConfirm` | projects/ASR6601CB-EVAL/examples/lorawan/class_b/src/classB.c:317-351 | `NextTx` is true on exit for every status, and nothing else changes |
| `Lifecycle.McpsIndication` | projects/ASR6601CB-EVAL/examples/lorawan/class_b/src/classB.c:359-416 | a non-OK status changes nothing. OK with `FramePending` has exactly the effect of the timer routine. Without `FramePending` nothing changes |
| `Lifecycle.MlmeConfirm` | projects/ASR6601CB-EVAL/examples/lorawan/class_b/src/classB.c:424-573 | `NextTx` is true on exit for every operation and status. The full new state is given per operation: join OK or retried; device time / beacon timing set `WakeUpState = Send`, `DeviceState = BeaconAcquisition` whatever the status; beacon acquisition sets `WakeUpState` to `ReqPingSlotAck` or the discovery state; ping slot OK sets class B with both states Send; ping slot failed sets only `WakeUpState = ReqPingSlotAck`; link check and others change nothing else |
| `Lifecycle.MlmeIndication` | projects/ASR6601CB-EVAL/examples/lorawan/class_b/src/classB.c:580-662 | schedule-uplink has exactly the effect of the timer routine; a lost beacon sets class A and `WakeUpState` to the discovery state and nothing else; a beacon report changes nothing |
| `Lifecycle.Apply` | projects/ASR6601CB-EVAL/examples/lorawan/class_b/src/classB.c:888-896 | a loop pass is `Iterate`; no callback delivered during the wait changes `TxDutyCycleTime` |
| `ClassBApp.Device.constructor` | projects/ASR6601CB-EVAL/examples/lorawan/class_b/src/classB.c:702-709 | the object starts in `Lifecycle.Initial()` and is valid |
| `ClassBApp.Device.MacRequestCall` | projects/ASR6601CB-EVAL/examples/lorawan/class_b/src/classB.c:806 | the shared abstraction of every MLME/MCPS request call (classB.c lines 258, 299, 465, 760, 806, 822, 838, 851, 857): the request is appended to the log and the engine's answer is returned |
| `ClassBApp.Device.SendFrame` | projects/ASR6601CB-EVAL/examples/lorawan/class_b/src/classB.c:221-265 | issues one uplink and returns `Lifecycle.SendFrame` of the engine's answer |
| `ClassBApp.Device.RunInit` | projects/ASR6601CB-EVAL/examples/lorawan/class_b/src/classB.c:720-744 | the new state is `InitState` of the old one; `Valid()` is kept |
| `ClassBApp.Device.RunJoin` | projects/ASR6601CB-EVAL/examples/lorawan/class_b/src/classB.c:745-797 | the new state is `JoinState` of the old one; `Valid()` is kept |
| `ClassBApp.Device.RunReqDeviceTime` | projects/ASR6601CB-EVAL/examples/lorawan/class_b/src/classB.c:798-813 | the new state is `ReqDeviceTimeState` of the old one; `Valid()` is kept |
| `ClassBApp.Device.RunReqBeaconTiming` | projects/ASR6601CB-EVAL/examples/lorawan/class_b/src/classB.c:814-829 | the new state is `ReqBeaconTimingState` of the old one; `Valid()` is kept |
| `ClassBApp.Device.RunBeaconAcquisition` | projects/ASR6601CB-EVAL/examples/lorawan/class_b/src/classB.c:830-843 | the new state is `BeaconAcquisitionState` of the old one, whatever the engine answers; `Valid()` is kept |
| `ClassBApp.Device.RunReqPingSlotAck` | projects/ASR6601CB-EVAL/examples/lorawan/class_b/src/classB.c:844-864 | the new state is `ReqPingSlotAckState` of the old one; `Valid()` is kept |
| `ClassBApp.Device.RunSend` | projects/ASR6601CB-EVAL/examples/lorawan/class_b/src/classB.c:865-878 | the new state is `SendState` of the old one; `Valid()` is kept |
| `ClassBApp.Device.RunCycle` | projects/ASR6601CB-EVAL/examples/lorawan/class_b/src/classB.c:879-887 | the new state is `CycleState` of the old one; `Valid()` is kept |
| `ClassBApp.Device.RunSleep` | projects/ASR6601CB-EVAL/examples/lorawan/class_b/src/classB.c:888-896 | the wait itself changes no shared state |
| `ClassBApp.Device.RunDefault` | projects/ASR6601CB-EVAL/examples/lorawan/class_b/src/classB.c:897-901 | the new state is `DefaultState` of the old one; `Valid()` is kept |
| `ClassBApp.Device.Step` | projects/ASR6601CB-EVAL/examples/lorawan/class_b/src/classB.c:718-902 | the dispatch's new state is `Iterate` of the old one; `Valid()` is kept |
| `ClassBApp.Device.OnTxNextPacketTimerEvent` | projects/ASR6601CB-EVAL/examples/lorawan/class_b/src/classB.c:270-309 | the new state is `TimerEvent` of the old one; `Valid()` is kept |
| `ClassBApp.Device.McpsConfirm` | projects/ASR6601CB-EVAL/examples/lorawan/class_b/src/classB.c:317-351 | the new state is `Lifecycle.McpsConfirm` of the old one; `Valid()` is kept |
| `ClassBApp.Device.McpsIndication` | projects/ASR6601CB-EVAL/examples/lorawan/class_b/src/classB.c:359-416 | the new state is `Lifecycle.McpsIndication` of the old one; `Valid()` is kept |
| `ClassBApp.Device.MlmeConfirm` | projects/ASR6601CB-EVAL/examples/lorawan/class_b/src/classB.c:424-573 | the new state is `Lifecycle.MlmeConfirm` of the old one; `Valid()` is kept |
| `ClassBApp.Device.MlmeIndication` | projects/ASR6601CB-EVAL/examples/lorawan/class_b/src/classB.c:580-662 | the new state is `Lifecycle.MlmeIndication` of the old one; `Valid()` is kept |
| `ClassBApp.Device.Dispatch` | projects/ASR6601CB-EVAL/examples/lorawan/class_b/src/classB.c:888-896 | delivering a loop pass or a callback gives `Apply` of the old state; `Valid()` is kept |
| `ClassBApp.AppStart` | projects/ASR6601CB-EVAL/examples/lorawan/class_b/src/classB.c:702-904 | running the loop over a script ends in the reference `Run` of that script from the initial state, and that state is `Reachable` |
| `LifecycleProperties.ApplyKeepsInvariants` | projects/ASR6601CB-EVAL/examples/lorawan/class_b/src/classB.c:712-903 | every loop pass and every callback keeps `Inv` and `Reachable` |
| `LifecycleProperties.RunKeepsInvariants` | projects/ASR6601CB-EVAL/examples/lorawan/class_b/src/classB.c:712-903 | under any trace of engine answers and callbacks, the duty cycle and the armed timer stay in 30000..35000 ms, `WakeUpState` stays a resume target, and `SwitchClass` is never entered |
| `LifecycleProperties.ReachableFromStart` | projects/ASR6601CB-EVAL/examples/lorawan/class_b/src/classB.c:708-709 | every state reached from the start of `app_start` is `Reachable` |
| `LifecycleProperties.DetourReentryWithoutNextTx` | projects/ASR6601CB-EVAL/examples/lorawan/class_b/src/classB.c:798-864 | re-entering any request state with `NextTx` false only falls through to Send |
| `LifecycleProperties.WakeUpStateWriters` | projects/ASR6601CB-EVAL/examples/lorawan/class_b/src/classB.c:156 | `WakeUpState` changes only through an accepted detour request, a device-time / beacon-timing / beacon-acquisition / ping-slot confirm, or a lost beacon |
| `LifecycleProperties.NextTxClearedOnlyByRequests` | projects/ASR6601CB-EVAL/examples/lorawan/class_b/src/classB.c:137 | `NextTx` goes from true to false only in a loop pass that issues one request: the beacon acquisition, or an uplink the engine accepted |
| `LifecycleProperties.DeviceClassWriters` | projects/ASR6601CB-EVAL/examples/lorawan/class_b/src/classB.c:548-622 | the class changes only to B on a successful ping-slot answer and only to A on a lost beacon |
| `LifecycleProperties.BeaconLostIdempotent` | projects/ASR6601CB-EVAL/examples/lorawan/class_b/src/classB.c:600-628 | a repeated lost-beacon indication has no further effect |
| `LifecycleProperties.PingSlotPromotionIdempotent` | projects/ASR6601CB-EVAL/examples/lorawan/class_b/src/classB.c:548-559 | a repeated successful ping-slot answer has no further effect |
| `LifecycleProperties.TimerResumesToResumeTarget` | projects/ASR6601CB-EVAL/examples/lorawan/class_b/src/classB.c:285-289 | once joined, the timer resumes to the saved state with `NextTx` true, and that state is never Join, BeaconAcquisition, SwitchClass, Cycle or Sleep |
| `LifecycleProperties.BootJoins` | projects/ASR6601CB-EVAL/examples/lorawan/class_b/src/classB.c:742-767 | from power-up with over-the-air activation, Init → Join → Sleep, and a successful join confirm leads to the configured discovery state |
| `LifecycleProperties.DiscoveryAcquiresBeacon` | projects/ASR6601CB-EVAL/examples/lorawan/class_b/src/classB.c:488-540 | the discovery request goes out with an uplink. Its confirm jumps to BeaconAcquisition with Send as the resume state. The acquisition request clears `NextTx`. Its successful confirm makes `ReqPingSlotAck` the resume state |
| `LifecycleProperties.PingSlotPromotes` | projects/ASR6601CB-EVAL/examples/lorawan/class_b/src/classB.c:844-864 | the timer resumes the ping-slot negotiation. The link-check and ping-slot requests go out with an uplink. A successful answer gives class B, with both states Send |
| `LifecycleProperties.UpgradeToClassBFromPowerUp` | projects/ASR6601CB-EVAL/examples/lorawan/class_b/src/classB.c:548-559 | when every request is accepted, power-up ends in class B, in Send, with Send as the resume state and `NextTx` true. The next pass sends a frame and schedules 30000 ms plus the jitter |
| `LifecycleProperties.RefusedFirstDiscoveryResumesToInit` | projects/ASR6601CB-EVAL/examples/lorawan/class_b/src/classB.c:708-709 | if the first discovery request is refused, the next timer event while joined resumes to Init |

## Left out

- The LoRaMAC engine is foreign code. Only the MLME and MCPS requests (`LoRaMacMlmeRequest`, `LoRaMacMcpsRequest`) and the joined-flag read in the timer routine are accepted/refused inputs. `LoRaMacInitialization`, `LoRaMacQueryTxPossible` and every `LoRaMacMibSetRequestConfirm` have no input in the model.
- The MIB writes the model keeps are taken to succeed: class B on a successful ping-slot answer (classB.c:552), class A on a lost beacon (classB.c:607), and joined in the static-activation branch of Join (classB.c:788). The code ignores the status of these writes, so a write the engine rejects is not modelled.
- Re-entering Init runs `LoRaMacInitialization` again, and the model assumes this keeps the joined flag and the device class as they were. What the engine's re-initialisation does to its MIB is not part of this model. `RefusedFirstDiscoveryResumesToInit` goes through this path.
- The ADR, public-network and channel-mask MIB writes of Init (`lwan_dev_params_update`) and the static-activation key and address writes have no effect on the modelled state.
- The link-check request's answer is not looked at by the code, so the model passes no input for it.
- Join trial counts are engine parameters and are not modelled. `Join` and the `MlmeConfirm` retry set 8. The timer routine's retry does not set the field.
- Frame construction in `SendFrame` is not modelled: the empty frame sent when `LoRaMacQueryTxPossible` fails, the port, the confirmed flag and the data rate. Both kinds of frame are one `UplinkRequest`. The payload bytes of `PrepareTxFrame` are a fixed constant and are not modelled.
- The timer and radio drivers (`TimerInit`, `TimerSetValue`, `TimerStart`, `TimerStop`, `TimerLowPowerHandler`, `Radio.IrqProcess`) are hardware I/O. The timer is a `Timer` value: armed in Cycle, stopped by the timer routine. `TimerInit` in Init is not modelled. The callbacks these drivers trigger during Sleep are separate events. Traces allow them in any state, which is more than the real program allows.
- `app_start` loops forever. `AppStart` runs it over a finite list of events.
- Interrupt-context or threaded delivery of the callbacks is out of scope. The callbacks run as sequential calls on one object.
- The empty `switch` cases on the MCPS confirm and indication type are not modelled, and neither is the empty `RxData` branch. The MLME indication status is only printed, except in the `MLME_BEACON` branch, which changes no state; so `EventInfoStatus` has no beacon-locked value. None of these inputs appear in the model.
- `printf`, `PrintHexBuffer` and `DeviceStateStrings` are diagnostic output and are not modelled.
- `BoardGetBatteryLevel` and `BoardGetTemperatureLevel` are stubs (the latter returns a float) and are not modelled.
- `TxDutyCycleTime` is a `uint32_t`. The model uses `nat`, because every value it takes is at most 35000, so no wrap-around can happen.
