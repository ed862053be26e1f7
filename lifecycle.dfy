/** The reference semantics of the class B application: one function per case
  * of the main loop's state dispatch and one per MAC callback, each a map from
  * the application's shared state before to the shared state after. */
module Lifecycle {
  import opened DeviceTypes

  /** The process-wide state: `DeviceState`, `WakeUpState`, `NextTx`,
    * `TxDutyCycleTime`, the MIB's joined flag and device class, the duty-cycle
    * timer, and the log of requests handed to the MAC engine. */
  datatype Ctx = Ctx(
    deviceState: DeviceState,
    wakeUpState: DeviceState,
    nextTx: bool,
    txDutyCycleTime: nat,
    joined: bool,
    deviceClass: DeviceClass,
    timer: Timer,
    issued: seq<MacRequest>)

  /** The state at the top of `app_start`: both state variables `Init`, a new
    * packet allowed, the base duty cycle, not joined, class A, timer idle. */
  function Initial(): (c: Ctx)
    ensures c.deviceState == Init && c.wakeUpState == Init
    ensures c.nextTx && c.txDutyCycleTime == AppTxDutyCycle
    ensures !c.joined && c.deviceClass == ClassA && c.timer == Stopped && c.issued == []
  {
    Ctx(Init, Init, true, AppTxDutyCycle, false, ClassA, Stopped, [])
  }

  predicate DutyCycleInRange(ms: nat) {
    AppTxDutyCycle <= ms <= AppTxDutyCycle + AppTxDutyCycleRnd
  }

  /** The states a detour may leave as the place to resume to. */
  predicate ResumeTarget(cfg: Config, s: DeviceState) {
    s == Init || s == Send || s == ReqPingSlotAck || s == DiscoveryState(cfg)
  }

  /** What every operation keeps, from whatever state it starts: the duty
    * cycle (and a running timer) lie within the jitter window, and the resume
    * state is one a detour sets. */
  predicate Inv(cfg: Config, c: Ctx) {
    && DutyCycleInRange(c.txDutyCycleTime)
    && (c.timer.Armed? ==> DutyCycleInRange(c.timer.ms))
    && ResumeTarget(cfg, c.wakeUpState)
  }

  /** What holds of every state reached from the start: `Inv`, and the current
    * state is neither `SwitchClass` (which nothing assigns, so the dispatch's
    * `default` branch is never taken) nor the other build's discovery state. */
  predicate Reachable(cfg: Config, c: Ctx) {
    && Inv(cfg, c)
    && c.deviceState != SwitchClass
    && c.deviceState != UnusedDiscoveryState(cfg)
  }

  // ---------------------------------------------------------------------
  // The cases of the state dispatch in app_start
  // ---------------------------------------------------------------------

  /** Init registers the callbacks, configures the MIB and moves to Join. */
  function InitState(c: Ctx): (r: Ctx)
    ensures r.deviceState == Join
    ensures r.(deviceState := c.deviceState) == c
  {
    c.(deviceState := Join)
  }

  /** Join: with over-the-air activation, issue a join request and wait for its
    * confirm when it was accepted, or retry after a duty cycle when it was not;
    * with static activation, mark the network joined and start beacon discovery. */
  function JoinState(cfg: Config, c: Ctx, enqueued: bool): (r: Ctx)
    ensures cfg.overTheAirActivation ==>
      && r.deviceState == (if enqueued then Sleep else Cycle)
      && r.issued == c.issued + [JoinRequest]
      && r.joined == c.joined
    ensures !cfg.overTheAirActivation ==>
      && r.deviceState == DiscoveryState(cfg)
      && r.issued == c.issued
      && r.joined
    ensures r.(deviceState := c.deviceState, issued := c.issued, joined := c.joined) == c
  {
    if cfg.overTheAirActivation then
      c.(issued := c.issued + [JoinRequest], deviceState := if enqueued then Sleep else Cycle)
    else
      c.(joined := true, deviceState := DiscoveryState(cfg))
  }

  /** The shape shared by the request states: when a packet may be sent, issue
    * the requests and, if the last was accepted, resume to Send afterwards;
    * in every case fall through to Send. */
  function Detour(c: Ctx, requests: seq<MacRequest>, enqueued: bool): (r: Ctx)
    ensures r.deviceState == Send
    ensures !c.nextTx ==> r == c.(deviceState := Send)
    ensures c.nextTx ==> r.issued == c.issued + requests
    ensures c.nextTx ==> r.wakeUpState == (if enqueued then Send else c.wakeUpState)
    ensures r.(deviceState := c.deviceState, wakeUpState := c.wakeUpState, issued := c.issued) == c
  {
    if c.nextTx then
      c.(issued := c.issued + requests,
         wakeUpState := if enqueued then Send else c.wakeUpState,
         deviceState := Send)
    else
      c.(deviceState := Send)
  }

  /** ReqDeviceTime: a device-time request, then Send. */
  function ReqDeviceTimeState(c: Ctx, enqueued: bool): (r: Ctx)
    ensures r.deviceState == Send && r.nextTx == c.nextTx
    ensures r.issued == c.issued + (if c.nextTx then [DeviceTimeRequest] else [])
    ensures r.wakeUpState == (if c.nextTx && enqueued then Send else c.wakeUpState)
    ensures r.(deviceState := c.deviceState, wakeUpState := c.wakeUpState, issued := c.issued) == c
  {
    Detour(c, [DeviceTimeRequest], enqueued)
  }

  /** ReqBeaconTiming: a beacon-timing request, then Send. */
  function ReqBeaconTimingState(c: Ctx, enqueued: bool): (r: Ctx)
    ensures r.deviceState == Send && r.nextTx == c.nextTx
    ensures r.issued == c.issued + (if c.nextTx then [BeaconTimingRequest] else [])
    ensures r.wakeUpState == (if c.nextTx && enqueued then Send else c.wakeUpState)
    ensures r.(deviceState := c.deviceState, wakeUpState := c.wakeUpState, issued := c.issued) == c
  {
    Detour(c, [BeaconTimingRequest], enqueued)
  }

  /** ReqPingSlotAck: a link check whose outcome is ignored, then a ping-slot
    * request with the default periodicity whose outcome decides the resume
    * state, then Send. */
  function ReqPingSlotAckState(c: Ctx, enqueued: bool): (r: Ctx)
    ensures r.deviceState == Send && r.nextTx == c.nextTx
    ensures r.issued == c.issued +
      (if c.nextTx then [LinkCheckRequest, PingSlotInfoRequest(DefaultPingSlotPeriodicity)] else [])
    ensures r.wakeUpState == (if c.nextTx && enqueued then Send else c.wakeUpState)
    ensures r.(deviceState := c.deviceState, wakeUpState := c.wakeUpState, issued := c.issued) == c
  {
    Detour(c, [LinkCheckRequest, PingSlotInfoRequest(DefaultPingSlotPeriodicity)], enqueued)
  }

  /** BeaconAcquisition: when a packet may be sent, issue the acquisition
    * request and clear NextTx whatever the engine answered; then Send. */
  function BeaconAcquisitionState(c: Ctx): (r: Ctx)
    ensures r.deviceState == Send && !r.nextTx
    ensures c.nextTx ==> r.issued == c.issued + [BeaconAcquisitionRequest]
    ensures !c.nextTx ==> r == c.(deviceState := Send)
    ensures r.(deviceState := c.deviceState, nextTx := c.nextTx, issued := c.issued) == c
  {
    if c.nextTx then
      c.(issued := c.issued + [BeaconAcquisitionRequest], nextTx := false, deviceState := Send)
    else
      c.(deviceState := Send)
  }

  /** `SendFrame`'s result: true (meaning "still free to send") exactly when
    * the engine refused the uplink. */
  function SendFrame(enqueued: bool): (stillFree: bool)
    ensures stillFree != enqueued
  {
    !enqueued
  }

  /** Send: submit an uplink when a packet may be sent, recompute the duty
    * cycle as the base interval plus the jitter, and move to Cycle. */
  function SendState(c: Ctx, enqueued: bool, jitter: Jitter): (r: Ctx)
    ensures r.deviceState == Cycle
    ensures DutyCycleInRange(r.txDutyCycleTime) && r.txDutyCycleTime == AppTxDutyCycle + jitter
    ensures r.nextTx == (c.nextTx && !enqueued)
    ensures r.issued == c.issued + (if c.nextTx then [UplinkRequest] else [])
    ensures r.(deviceState := c.deviceState, nextTx := c.nextTx,
               txDutyCycleTime := c.txDutyCycleTime, issued := c.issued) == c
  {
    var sent := if c.nextTx then c.(issued := c.issued + [UplinkRequest], nextTx := SendFrame(enqueued)) else c;
    sent.(txDutyCycleTime := AppTxDutyCycle + jitter, deviceState := Cycle)
  }

  /** Cycle: arm the timer with the current duty cycle and go to sleep. */
  function CycleState(c: Ctx): (r: Ctx)
    ensures r.deviceState == Sleep && r.timer == Armed(c.txDutyCycleTime)
    ensures r.(deviceState := c.deviceState, timer := c.timer) == c
  {
    c.(deviceState := Sleep, timer := Armed(c.txDutyCycleTime))
  }

  /** The `default` branch of the dispatch, taken by `SwitchClass`: restart at Init. */
  function DefaultState(c: Ctx): (r: Ctx)
    ensures r.deviceState == Init
    ensures r.(deviceState := c.deviceState) == c
  {
    c.(deviceState := Init)
  }

  /** One pass of the main loop. `requestOk` is the engine's answer to the
    * request this pass issues (if any); `jitter` is the value `randr` returns.
    * Sleep only waits: the callbacks it lets run are separate events. */
  function Iterate(cfg: Config, c: Ctx, requestOk: bool, jitter: Jitter): (r: Ctx)
    ensures Inv(cfg, c) ==> Inv(cfg, r)
    ensures Reachable(cfg, c) ==> Reachable(cfg, r)
    ensures c.deviceState in {ReqDeviceTime, ReqBeaconTiming, ReqPingSlotAck, BeaconAcquisition} ==>
      r.deviceState == Send
    ensures c.deviceState == Send ==> r.deviceState == Cycle
    ensures c.deviceState == Cycle ==> r.deviceState == Sleep
    ensures c.deviceState == Sleep ==> r == c
  {
    match c.deviceState
    case Init => InitState(c)
    case Join => JoinState(cfg, c, requestOk)
    case ReqDeviceTime => ReqDeviceTimeState(c, requestOk)
    case ReqBeaconTiming => ReqBeaconTimingState(c, requestOk)
    case BeaconAcquisition => BeaconAcquisitionState(c)
    case ReqPingSlotAck => ReqPingSlotAckState(c, requestOk)
    case Send => SendState(c, requestOk, jitter)
    case Cycle => CycleState(c)
    case Sleep => c
    case SwitchClass => DefaultState(c)
  }

  // ---------------------------------------------------------------------
  // The timer routine and the MAC callbacks
  // ---------------------------------------------------------------------

  /** `OnTxNextPacketTimerEvent`: stop the timer; if the joined flag cannot be
    * read, nothing else; if joined, resume to WakeUpState with a packet
    * allowed; otherwise re-issue the join and wait (accepted) or retry (refused). */
  function TimerEvent(c: Ctx, mibOk: bool, joinEnqueued: bool): (r: Ctx)
    ensures r.timer == Stopped
    ensures !mibOk ==> r == c.(timer := Stopped)
    ensures mibOk && c.joined ==>
      r == c.(timer := Stopped, deviceState := c.wakeUpState, nextTx := true)
    ensures mibOk && !c.joined ==>
      && r.deviceState == (if joinEnqueued then Sleep else Cycle)
      && r.issued == c.issued + [JoinRequest]
      && r.(deviceState := c.deviceState, issued := c.issued, timer := c.timer) == c
  {
    var stopped := c.(timer := Stopped);
    if !mibOk then stopped
    else if c.joined then stopped.(deviceState := c.wakeUpState, nextTx := true)
    else stopped.(issued := c.issued + [JoinRequest], deviceState := if joinEnqueued then Sleep else Cycle)
  }

  /** `McpsConfirm`: whatever the outcome of the uplink, a new packet may be sent. */
  function McpsConfirm(c: Ctx, status: EventInfoStatus): (r: Ctx)
    ensures r.nextTx
    ensures r.(nextTx := c.nextTx) == c
  {
    c.(nextTx := true)
  }

  /** `McpsIndication`: a failed indication is dropped; a good one whose frame
    * says more data is pending acts exactly as the timer firing; any other
    * leaves the state alone. */
  function McpsIndication(c: Ctx, status: EventInfoStatus, framePending: bool,
                          mibOk: bool, joinEnqueued: bool): (r: Ctx)
    ensures status != StatusOk ==> r == c
    ensures status == StatusOk && framePending ==> r == TimerEvent(c, mibOk, joinEnqueued)
    ensures !framePending ==> r == c
  {
    if status != StatusOk then c
    else if framePending then TimerEvent(c, mibOk, joinEnqueued)
    else c
  }

  /** `MlmeConfirm`: act on the management operation that completed, then allow
    * a new packet whatever it was. A successful join is the engine's own
    * record in the MIB, taken here at the moment it reports the join. */
  function MlmeConfirm(cfg: Config, c: Ctx, request: MlmeType, status: EventInfoStatus,
                       joinEnqueued: bool): (r: Ctx)
    ensures r.nextTx
    ensures request == MlmeJoin && status == StatusOk ==>
      r == c.(joined := true, deviceState := DiscoveryState(cfg), nextTx := true)
    ensures request == MlmeJoin && status != StatusOk ==>
      r == c.(issued := c.issued + [JoinRequest],
              deviceState := if joinEnqueued then Sleep else Cycle, nextTx := true)
    ensures request == MlmeDeviceTime || request == MlmeBeaconTiming ==>
      r == c.(wakeUpState := Send, deviceState := BeaconAcquisition, nextTx := true)
    ensures request == MlmeBeaconAcquisition ==>
      r == c.(wakeUpState := if status == StatusOk then ReqPingSlotAck else DiscoveryState(cfg),
              nextTx := true)
    ensures request == MlmePingSlotInfo && status == StatusOk ==>
      r == c.(deviceClass := ClassB, wakeUpState := Send, deviceState := Send, nextTx := true)
    ensures request == MlmePingSlotInfo && status != StatusOk ==>
      r == c.(wakeUpState := ReqPingSlotAck, nextTx := true)
    ensures request == MlmeLinkCheck || request == MlmeOtherRequest ==> r == c.(nextTx := true)
  {
    var handled :=
      match request
      case MlmeJoin =>
        if status == StatusOk then c.(joined := true, deviceState := DiscoveryState(cfg))
        else c.(issued := c.issued + [JoinRequest], deviceState := if joinEnqueued then Sleep else Cycle)
      case MlmeLinkCheck => c
      case MlmeDeviceTime => c.(wakeUpState := Send, deviceState := BeaconAcquisition, nextTx := true)
      case MlmeBeaconTiming => c.(wakeUpState := Send, deviceState := BeaconAcquisition, nextTx := true)
      case MlmeBeaconAcquisition =>
        c.(wakeUpState := if status == StatusOk then ReqPingSlotAck else DiscoveryState(cfg))
      case MlmePingSlotInfo =>
        if status == StatusOk then c.(deviceClass := ClassB, wakeUpState := Send, deviceState := Send, nextTx := true)
        else c.(wakeUpState := ReqPingSlotAck)
      case MlmeOtherRequest => c;
    handled.(nextTx := true)
  }

  /** `MlmeIndication`: a schedule-uplink demand acts exactly as the timer
    * firing; a lost beacon demotes the device to class A and makes beacon
    * discovery the resume state; a beacon report changes nothing. */
  function MlmeIndication(cfg: Config, c: Ctx, indication: MlmeIndicationType,
                          mibOk: bool, joinEnqueued: bool): (r: Ctx)
    ensures indication == ScheduleUplink ==> r == TimerEvent(c, mibOk, joinEnqueued)
    ensures indication == BeaconLost ==>
      r == c.(deviceClass := ClassA, wakeUpState := DiscoveryState(cfg))
    ensures indication == Beacon || indication == OtherIndication ==> r == c
  {
    match indication
    case ScheduleUplink => TimerEvent(c, mibOk, joinEnqueued)
    case BeaconLost => c.(deviceClass := ClassA, wakeUpState := DiscoveryState(cfg))
    case Beacon => c
    case OtherIndication => c
  }

  // ---------------------------------------------------------------------
  // Event traces
  // ---------------------------------------------------------------------

  /** One thing that happens to the application: a pass of the main loop, or
    * one of the callbacks the timer and the MAC engine invoke, carrying the
    * engine's answers to the calls the callback makes. */
  datatype Event =
    | LoopPass(requestOk: bool, jitter: Jitter)
    | TimerFired(mibOk: bool, joinEnqueued: bool)
    | McpsConfirmed(status: EventInfoStatus)
    | McpsIndicated(status: EventInfoStatus, framePending: bool, mibOk: bool, joinEnqueued: bool)
    | MlmeConfirmed(request: MlmeType, status: EventInfoStatus, joinEnqueued: bool)
    | MlmeIndicated(indication: MlmeIndicationType, mibOk: bool, joinEnqueued: bool)

  function Apply(cfg: Config, c: Ctx, e: Event): (r: Ctx)
    ensures e.LoopPass? ==> r == Iterate(cfg, c, e.requestOk, e.jitter)
    ensures !e.LoopPass? ==> r.txDutyCycleTime == c.txDutyCycleTime
  {
    match e
    case LoopPass(ok, jitter) => Iterate(cfg, c, ok, jitter)
    case TimerFired(mibOk, joinEnqueued) => TimerEvent(c, mibOk, joinEnqueued)
    case McpsConfirmed(status) => McpsConfirm(c, status)
    case McpsIndicated(status, pending, mibOk, joinEnqueued) =>
      McpsIndication(c, status, pending, mibOk, joinEnqueued)
    case MlmeConfirmed(request, status, joinEnqueued) => MlmeConfirm(cfg, c, request, status, joinEnqueued)
    case MlmeIndicated(indication, mibOk, joinEnqueued) =>
      MlmeIndication(cfg, c, indication, mibOk, joinEnqueued)
  }

  /** The state after the events, applied in order. */
  function Run(cfg: Config, c: Ctx, events: seq<Event>): Ctx
    decreases |events|
  {
    if events == [] then c else Run(cfg, Apply(cfg, c, events[0]), events[1..])
  }
}
