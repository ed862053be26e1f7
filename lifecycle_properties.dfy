/** Properties of the reference semantics over single events and over whole
  * event traces. */
module LifecycleProperties {
  import opened DeviceTypes
  import opened Lifecycle

  // ---------------------------------------------------------------------
  // Traces
  // ---------------------------------------------------------------------

  /** Running two traces one after the other is running their concatenation. */
  lemma {:induction false} RunConcat(cfg: Config, c: Ctx, first: seq<Event>, second: seq<Event>)
    ensures Run(cfg, c, first + second) == Run(cfg, Run(cfg, c, first), second)
    decreases |first|
  {
    if first == [] {
      assert first + second == second;
    } else {
      assert (first + second)[0] == first[0];
      assert (first + second)[1..] == first[1..] + second;
      RunConcat(cfg, Apply(cfg, c, first[0]), first[1..], second);
    }
  }

  /** Every single event keeps both invariants. */
  lemma ApplyKeepsInvariants(cfg: Config, c: Ctx, e: Event)
    ensures Inv(cfg, c) ==> Inv(cfg, Apply(cfg, c, e))
    ensures Reachable(cfg, c) ==> Reachable(cfg, Apply(cfg, c, e))
  {
  }

  /** Whatever the MAC engine answers and in whatever order the callbacks
    * arrive, no trace breaks the invariants: the duty cycle and the armed
    * timer stay within 30000..35000 ms, WakeUpState only ever holds a resume
    * target, and `SwitchClass` is never entered. */
  lemma {:induction false} RunKeepsInvariants(cfg: Config, c: Ctx, events: seq<Event>)
    ensures Inv(cfg, c) ==> Inv(cfg, Run(cfg, c, events))
    ensures Reachable(cfg, c) ==> Reachable(cfg, Run(cfg, c, events))
    decreases |events|
  {
    if events != [] {
      ApplyKeepsInvariants(cfg, c, events[0]);
      RunKeepsInvariants(cfg, Apply(cfg, c, events[0]), events[1..]);
    }
  }

  /** Every state reached from the start of `app_start` is reachable in the above sense. */
  lemma ReachableFromStart(cfg: Config, events: seq<Event>)
    ensures Reachable(cfg, Run(cfg, Initial(), events))
  {
    RunKeepsInvariants(cfg, Initial(), events);
  }

  // ---------------------------------------------------------------------
  // Single events
  // ---------------------------------------------------------------------

  /** Re-entering a request state while no packet may be sent issues nothing
    * and only falls through to Send. */
  lemma DetourReentryWithoutNextTx(cfg: Config, c: Ctx, requestOk: bool, jitter: Jitter)
    requires !c.nextTx
    requires c.deviceState in {ReqDeviceTime, ReqBeaconTiming, ReqPingSlotAck, BeaconAcquisition}
    ensures Iterate(cfg, c, requestOk, jitter) == c.(deviceState := Send)
  {
  }

  /** Only the request states and the detour-completion handlers write
    * WakeUpState; the timer routine only reads it. */
  lemma WakeUpStateWriters(cfg: Config, c: Ctx, e: Event)
    requires Apply(cfg, c, e).wakeUpState != c.wakeUpState
    ensures
      || (e.LoopPass? && c.nextTx && e.requestOk &&
          c.deviceState in {ReqDeviceTime, ReqBeaconTiming, ReqPingSlotAck})
      || (e.MlmeConfirmed? &&
          e.request in {MlmeDeviceTime, MlmeBeaconTiming, MlmeBeaconAcquisition, MlmePingSlotInfo})
      || (e.MlmeIndicated? && e.indication == BeaconLost)
  {
  }

  /** NextTx is cleared only by a loop pass that hands a request to the engine:
    * the acquisition request, or an uplink the engine accepted. */
  lemma NextTxClearedOnlyByRequests(cfg: Config, c: Ctx, e: Event)
    requires c.nextTx && !Apply(cfg, c, e).nextTx
    ensures e.LoopPass?
    ensures c.deviceState == BeaconAcquisition || (c.deviceState == Send && e.requestOk)
    ensures |Apply(cfg, c, e).issued| == |c.issued| + 1
  {
  }

  /** The device class changes only to B on a successful ping-slot answer and
    * only to A on a lost beacon. */
  lemma DeviceClassWriters(cfg: Config, c: Ctx, e: Event)
    requires Apply(cfg, c, e).deviceClass != c.deviceClass
    ensures
      || (e == MlmeConfirmed(MlmePingSlotInfo, StatusOk, e.joinEnqueued) &&
          Apply(cfg, c, e).deviceClass == ClassB)
      || (e.MlmeIndicated? && e.indication == BeaconLost && Apply(cfg, c, e).deviceClass == ClassA)
  {
  }

  /** A second lost-beacon indication changes nothing the first did not. */
  lemma BeaconLostIdempotent(cfg: Config, c: Ctx, mibOk: bool, joinEnqueued: bool)
    ensures var once := MlmeIndication(cfg, c, BeaconLost, mibOk, joinEnqueued);
      MlmeIndication(cfg, once, BeaconLost, mibOk, joinEnqueued) == once
  {
  }

  /** A second successful ping-slot answer changes nothing the first did not. */
  lemma PingSlotPromotionIdempotent(cfg: Config, c: Ctx, joinEnqueued: bool)
    ensures var once := MlmeConfirm(cfg, c, MlmePingSlotInfo, StatusOk, joinEnqueued);
      MlmeConfirm(cfg, once, MlmePingSlotInfo, StatusOk, joinEnqueued) == once
  {
  }

  /** Once joined, the timer resumes to the saved state, which is never a
    * waiting state nor the beacon acquisition itself. */
  lemma TimerResumesToResumeTarget(cfg: Config, c: Ctx, joinEnqueued: bool)
    requires Inv(cfg, c) && c.joined
    ensures var r := TimerEvent(c, true, joinEnqueued);
      && r.deviceState == c.wakeUpState && r.nextTx
      && r.deviceState !in {Join, BeaconAcquisition, SwitchClass, Cycle, Sleep}
  {
  }

  // ---------------------------------------------------------------------
  // The class B upgrade, from power-up
  // ---------------------------------------------------------------------

  /** The management confirm that ends the configured discovery detour. */
  function DiscoveryConfirm(cfg: Config): (m: MlmeType)
    ensures m == MlmeBeaconTiming <==> cfg.useBeaconTiming
    ensures m == MlmeDeviceTime <==> !cfg.useBeaconTiming
  {
    if cfg.useBeaconTiming then MlmeBeaconTiming else MlmeDeviceTime
  }

  /** Three events in a row are the three applications in a row. */
  lemma RunThree(cfg: Config, c: Ctx, a: Event, b: Event, d: Event)
    ensures Run(cfg, c, [a, b, d]) == Apply(cfg, Apply(cfg, Apply(cfg, c, a), b), d)
  {
    var c1 := Apply(cfg, c, a);
    var c2 := Apply(cfg, c1, b);
    assert [a, b, d][1..] == [b, d] && [b, d][1..] == [d] && [d][1..] == [];
    assert Run(cfg, c2, [d]) == Apply(cfg, c2, d);
    assert Run(cfg, c1, [b, d]) == Run(cfg, c2, [d]);
  }

  /** Power-up: Init, Join with the request accepted, then the join confirm. */
  function BootEvents(jitter: Jitter): seq<Event> {
    [LoopPass(true, jitter), LoopPass(true, jitter), MlmeConfirmed(MlmeJoin, StatusOk, true)]
  }

  /** Three loop passes with every request accepted. */
  function ThreePasses(jitter: Jitter): seq<Event> {
    [LoopPass(true, jitter), LoopPass(true, jitter), LoopPass(true, jitter)]
  }

  /** The confirms of an uplink and of the discovery request, then the
    * acquisition request and the wait, then the acquisition confirm. */
  function DiscoveryConfirmEvents(cfg: Config, jitter: Jitter): seq<Event> {
    [McpsConfirmed(StatusOk), MlmeConfirmed(DiscoveryConfirm(cfg), StatusOk, true), LoopPass(true, jitter)]
  }

  function AcquisitionEvents(jitter: Jitter): seq<Event> {
    [LoopPass(true, jitter), LoopPass(true, jitter), MlmeConfirmed(MlmeBeaconAcquisition, StatusOk, true)]
  }

  /** The timer resumes the ping-slot negotiation, whose request and an uplink
    * go out; then the confirms of the uplink and the ping slot. */
  function PingSlotRequestEvents(jitter: Jitter): seq<Event> {
    [TimerFired(true, true), LoopPass(true, jitter), LoopPass(true, jitter)]
  }

  function PingSlotConfirmEvents(jitter: Jitter): seq<Event> {
    [LoopPass(true, jitter), McpsConfirmed(StatusOk), MlmeConfirmed(MlmePingSlotInfo, StatusOk, true)]
  }

  function DiscoveryEvents(cfg: Config, jitter: Jitter): seq<Event> {
    ThreePasses(jitter) + DiscoveryConfirmEvents(cfg, jitter) + AcquisitionEvents(jitter)
  }

  function PingSlotEvents(jitter: Jitter): seq<Event> {
    PingSlotRequestEvents(jitter) + PingSlotConfirmEvents(jitter)
  }

  /** The request issued by the configured discovery state. */
  function DiscoveryRequest(cfg: Config): MacRequest {
    if cfg.useBeaconTiming then BeaconTimingRequest else DeviceTimeRequest
  }

  /** Start-up with over-the-air activation: Init, Join (request accepted,
    * Sleep), join confirmed, and the configured discovery state is next. */
  lemma BootJoins(cfg: Config, jitter: Jitter)
    requires cfg.overTheAirActivation
    ensures Run(cfg, Initial(), BootEvents(jitter)) ==
      Initial().(deviceState := DiscoveryState(cfg), joined := true, issued := [JoinRequest])
  {
    var evs := BootEvents(jitter);
    RunThree(cfg, Initial(), evs[0], evs[1], evs[2]);
  }

  /** The discovery request goes out with an uplink; its confirm jumps to
    * BeaconAcquisition with Send as the resume state; the acquisition request
    * goes out with NextTx cleared; its successful confirm makes the ping-slot
    * negotiation the resume state. */
  lemma DiscoveryAcquiresBeacon(cfg: Config, jitter: Jitter, c: Ctx)
    requires c == Initial().(deviceState := DiscoveryState(cfg), joined := true, issued := [JoinRequest])
    ensures Run(cfg, c, DiscoveryEvents(cfg, jitter)) ==
      Ctx(Sleep, ReqPingSlotAck, true, AppTxDutyCycle + jitter, true, ClassA, Armed(AppTxDutyCycle + jitter),
          [JoinRequest, DiscoveryRequest(cfg), UplinkRequest, BeaconAcquisitionRequest])
  {
    var t := AppTxDutyCycle + jitter;
    var first, second, third := ThreePasses(jitter), DiscoveryConfirmEvents(cfg, jitter), AcquisitionEvents(jitter);
    RunConcat(cfg, c, first + second, third);
    RunConcat(cfg, c, first, second);
    RunThree(cfg, c, first[0], first[1], first[2]);
    var c1 := Run(cfg, c, first);
    assert c1 == Ctx(Sleep, Send, false, t, true, ClassA, Armed(t),
                     [JoinRequest, DiscoveryRequest(cfg), UplinkRequest]);
    RunThree(cfg, c1, second[0], second[1], second[2]);
    var c2 := Run(cfg, c1, second);
    assert c2 == c1.(deviceState := Send, issued := c1.issued + [BeaconAcquisitionRequest]);
    RunThree(cfg, c2, third[0], third[1], third[2]);
  }

  /** The timer resumes to the ping-slot negotiation; its request goes out
    * with an uplink; the successful answer promotes the device to class B and
    * jumps straight to Send. */
  lemma PingSlotPromotes(cfg: Config, jitter: Jitter, c: Ctx)
    requires c.deviceState == Sleep && c.wakeUpState == ReqPingSlotAck && c.nextTx && c.joined
    requires c.deviceClass == ClassA && c.txDutyCycleTime == AppTxDutyCycle + jitter
    ensures Run(cfg, c, PingSlotEvents(jitter)) ==
      c.(deviceState := Send, wakeUpState := Send, deviceClass := ClassB, timer := Armed(AppTxDutyCycle + jitter),
         issued := c.issued + [LinkCheckRequest, PingSlotInfoRequest(DefaultPingSlotPeriodicity), UplinkRequest])
  {
    var first, second := PingSlotRequestEvents(jitter), PingSlotConfirmEvents(jitter);
    RunConcat(cfg, c, first, second);
    RunThree(cfg, c, first[0], first[1], first[2]);
    var c1 := Run(cfg, c, first);
    assert c1 == c.(deviceState := Cycle, wakeUpState := Send, nextTx := false, timer := Stopped,
                    issued := c.issued + [LinkCheckRequest, PingSlotInfoRequest(DefaultPingSlotPeriodicity), UplinkRequest]);
    RunThree(cfg, c1, second[0], second[1], second[2]);
  }

  /** From power-up with over-the-air activation and every request accepted,
    * the device ends in class B, in Send with Send as the resume state and a
    * packet allowed; the next loop pass then sends a frame and schedules the
    * next one 30000 ms plus the jitter later. */
  lemma UpgradeToClassBFromPowerUp(cfg: Config, jitter: Jitter, next: Jitter)
    requires cfg.overTheAirActivation
    ensures var c := Run(cfg, Initial(), BootEvents(jitter) + DiscoveryEvents(cfg, jitter) + PingSlotEvents(jitter));
      && c.deviceClass == ClassB && c.deviceState == Send && c.wakeUpState == Send && c.nextTx
      && var s := Iterate(cfg, c, true, next);
         s.deviceState == Cycle && s.txDutyCycleTime == AppTxDutyCycle + next && s.issued == c.issued + [UplinkRequest]
  {
    var boot, disc, ping := BootEvents(jitter), DiscoveryEvents(cfg, jitter), PingSlotEvents(jitter);
    RunConcat(cfg, Initial(), boot + disc, ping);
    RunConcat(cfg, Initial(), boot, disc);
    BootJoins(cfg, jitter);
    var c1 := Run(cfg, Initial(), boot);
    DiscoveryAcquiresBeacon(cfg, jitter, c1);
    var c2 := Run(cfg, c1, disc);
    PingSlotPromotes(cfg, jitter, c2);
  }

  /** WakeUpState starts as Init: when the first discovery request is refused,
    * nothing overwrites it, and the next timer event while joined resumes to
    * Init, which repeats the MAC setup and the join. */
  lemma RefusedFirstDiscoveryResumesToInit(cfg: Config, jitter: Jitter)
    requires cfg.overTheAirActivation
    ensures var c := Run(cfg, Initial(), BootEvents(jitter) +
                         [LoopPass(false, jitter), LoopPass(true, jitter), LoopPass(true, jitter)] +
                         [TimerFired(true, true)]);
      c.deviceState == Init && c.joined && c.nextTx
  {
    var boot := BootEvents(jitter);
    var passes := [LoopPass(false, jitter), LoopPass(true, jitter), LoopPass(true, jitter)];
    var timer := [TimerFired(true, true)];
    RunConcat(cfg, Initial(), boot + passes, timer);
    RunConcat(cfg, Initial(), boot, passes);
    BootJoins(cfg, jitter);
    var c0 := Run(cfg, Initial(), boot);
    RunThree(cfg, c0, passes[0], passes[1], passes[2]);
    var c1 := Run(cfg, c0, passes);
    assert c1.deviceState == Sleep && c1.wakeUpState == Init && c1.joined;
    assert timer[1..] == [];
  }
}
