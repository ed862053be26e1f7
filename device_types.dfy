/** Values shared by the class B end-device application: its lifecycle states,
  * the MAC engine's request and event kinds, and the build configuration. */
module DeviceTypes {

  /** The lifecycle states, in the order of `enum eDeviceState`. The same type
    * holds both the current state and the state to resume to (WakeUpState). */
  datatype DeviceState =
    | Init
    | Join
    | Send
    | ReqDeviceTime
    | ReqPingSlotAck
    | ReqBeaconTiming
    | BeaconAcquisition
    | SwitchClass
    | Cycle
    | Sleep

  /** The device class held in the MAC engine's information base, as far as
    * this application sets it. */
  datatype DeviceClass = ClassA | ClassB

  /** `LoRaMacEventInfoStatus_t` as far as the confirms and the MCPS indication
    * distinguish it: OK, and every other status. */
  datatype EventInfoStatus = StatusOk | StatusError

  /** The management operation a MLME-Confirm reports on. `MlmeOtherRequest`
    * stands for the operations this application never switches on. */
  datatype MlmeType =
    | MlmeJoin
    | MlmeLinkCheck
    | MlmeDeviceTime
    | MlmeBeaconTiming
    | MlmeBeaconAcquisition
    | MlmePingSlotInfo
    | MlmeOtherRequest

  /** The kind of a MLME-Indication. */
  datatype MlmeIndicationType = ScheduleUplink | BeaconLost | Beacon | OtherIndication

  /** A request handed to the MAC engine, recorded whether or not the engine
    * accepted it. */
  datatype MacRequest =
    | JoinRequest
    | DeviceTimeRequest
    | BeaconTimingRequest
    | BeaconAcquisitionRequest
    | LinkCheckRequest
    | PingSlotInfoRequest(periodicity: nat)
    | UplinkRequest

  /** The one-shot duty-cycle timer `TxNextPacketTimer`. */
  datatype Timer = Stopped | Armed(ms: nat)

  /** The compile-time switches `USE_BEACON_TIMING` and `OVER_THE_AIR_ACTIVATION`. */
  datatype Config = Config(useBeaconTiming: bool, overTheAirActivation: bool)

  /** Base duty-cycle interval in milliseconds (APP_TX_DUTYCYCLE). */
  const AppTxDutyCycle: nat := 30000

  /** Upper bound of the random duty-cycle delay in milliseconds (APP_TX_DUTYCYCLE_RND). */
  const AppTxDutyCycleRnd: nat := 5000

  /** Ping-slot periodicity exponent sent with every ping-slot request. */
  const DefaultPingSlotPeriodicity: nat := 0

  /** A value returned by `randr(0, APP_TX_DUTYCYCLE_RND)`: both bounds included. */
  type Jitter = j: int | 0 <= j <= AppTxDutyCycleRnd

  /** The state a device (re)enters to discover the beacon: beacon timing when
    * the build uses it, device time otherwise. */
  function DiscoveryState(cfg: Config): (s: DeviceState)
    ensures s == ReqBeaconTiming <==> cfg.useBeaconTiming
    ensures s == ReqDeviceTime <==> !cfg.useBeaconTiming
  {
    if cfg.useBeaconTiming then ReqBeaconTiming else ReqDeviceTime
  }

  /** The discovery state of the other build, which this build never enters. */
  function UnusedDiscoveryState(cfg: Config): (s: DeviceState)
    ensures s != DiscoveryState(cfg)
    ensures s == ReqBeaconTiming || s == ReqDeviceTime
  {
    if cfg.useBeaconTiming then ReqDeviceTime else ReqBeaconTiming
  }
}
