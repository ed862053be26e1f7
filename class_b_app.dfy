/** The class B application as the program runs it: the shared variables are
  * fields of one object, the cases of the main loop's dispatch and the MAC
  * callbacks are methods that assign them, and every method is proved to
  * produce the state its reference function in `Lifecycle` describes. */
module ClassBApp {
  import opened DeviceTypes
  import Lifecycle
  import LifecycleProperties

  class Device {
    // Build configuration, fixed for the life of the process.
    const cfg: Config

    // The shared process-wide variables.
    var deviceState: DeviceState
    var wakeUpState: DeviceState
    var nextTx: bool
    var txDutyCycleTime: nat

    // Entries of the MAC engine's information base that this application reads or writes.
    var joined: bool
    var deviceClass: DeviceClass

    // The duty-cycle timer, and every request handed to the MAC engine so far.
    var timer: Timer
    var issued: seq<MacRequest>

    function Snapshot(): Lifecycle.Ctx
      reads this
    {
      Lifecycle.Ctx(deviceState, wakeUpState, nextTx, txDutyCycleTime, joined, deviceClass, timer, issued)
    }

    ghost predicate Valid()
      reads this
    {
      Lifecycle.Inv(cfg, Snapshot())
    }

    /** The static initialisers and the first two statements of `app_start`. */
    constructor (cfg: Config)
      ensures this.cfg == cfg
      ensures Snapshot() == Lifecycle.Initial() && Valid()
    {
      this.cfg := cfg;
      txDutyCycleTime := AppTxDutyCycle;
      nextTx := true;
      joined := false;
      deviceClass := ClassA;
      timer := Stopped;
      issued := [];
      deviceState := Init;
      wakeUpState := Init;
    }

    /** A call into the MAC engine: the request is handed over and `enqueued`,
      * the engine's answer, is returned as `LORAMAC_STATUS_OK` or not. */
    method MacRequestCall(request: MacRequest, enqueued: bool) returns (ok: bool)
      modifies this`issued
      ensures ok == enqueued
      ensures issued == old(issued) + [request]
    {
      issued := issued + [request];
      ok := enqueued;
    }

    /** `SendFrame`: submit the uplink (or, when the payload cannot go, an
      * empty frame; both are one `UplinkRequest` here) and report whether the
      * device is still free to send. */
    method SendFrame(enqueued: bool) returns (stillFree: bool)
      modifies this`issued
      ensures stillFree == Lifecycle.SendFrame(enqueued)
      ensures issued == old(issued) + [UplinkRequest]
    {
      var ok := MacRequestCall(UplinkRequest, enqueued);
      if ok {
        return false;
      }
      return true;
    }

    // ---------------------------------------------------------------------
    // The cases of the state dispatch
    // ---------------------------------------------------------------------

    method RunInit()
      requires Valid()
      modifies this
      ensures Valid() && Snapshot() == Lifecycle.InitState(old(Snapshot()))
    {
      deviceState := Join;
    }

    method RunJoin(enqueued: bool)
      requires Valid()
      modifies this
      ensures Valid() && Snapshot() == Lifecycle.JoinState(cfg, old(Snapshot()), enqueued)
    {
      if cfg.overTheAirActivation {
        var ok := MacRequestCall(JoinRequest, enqueued);
        if ok {
          deviceState := Sleep;
        } else {
          deviceState := Cycle;
        }
      } else {
        joined := true;
        deviceState := DiscoveryState(cfg);
      }
    }

    method RunReqDeviceTime(enqueued: bool)
      requires Valid()
      modifies this
      ensures Valid() && Snapshot() == Lifecycle.ReqDeviceTimeState(old(Snapshot()), enqueued)
    {
      if nextTx {
        var ok := MacRequestCall(DeviceTimeRequest, enqueued);
        if ok {
          wakeUpState := Send;
        }
      }
      deviceState := Send;
    }

    method RunReqBeaconTiming(enqueued: bool)
      requires Valid()
      modifies this
      ensures Valid() && Snapshot() == Lifecycle.ReqBeaconTimingState(old(Snapshot()), enqueued)
    {
      if nextTx {
        var ok := MacRequestCall(BeaconTimingRequest, enqueued);
        if ok {
          wakeUpState := Send;
        }
      }
      deviceState := Send;
    }

    /** The engine's answer to the acquisition request is not looked at. */
    method RunBeaconAcquisition(enqueued: bool)
      requires Valid()
      modifies this
      ensures Valid() && Snapshot() == Lifecycle.BeaconAcquisitionState(old(Snapshot()))
    {
      if nextTx {
        var _ := MacRequestCall(BeaconAcquisitionRequest, enqueued);
        nextTx := false;
      }
      deviceState := Send;
    }

    /** `enqueued` is the engine's answer to the ping-slot request; the
      * link-check request before it is best effort. */
    method RunReqPingSlotAck(enqueued: bool)
      requires Valid()
      modifies this
      ensures Valid() && Snapshot() == Lifecycle.ReqPingSlotAckState(old(Snapshot()), enqueued)
    {
      if nextTx {
        var _ := MacRequestCall(LinkCheckRequest, true);
        var ok := MacRequestCall(PingSlotInfoRequest(DefaultPingSlotPeriodicity), enqueued);
        if ok {
          wakeUpState := Send;
        }
      }
      deviceState := Send;
    }

    method RunSend(enqueued: bool, jitter: Jitter)
      requires Valid()
      modifies this
      ensures Valid() && Snapshot() == Lifecycle.SendState(old(Snapshot()), enqueued, jitter)
    {
      if nextTx {
        nextTx := SendFrame(enqueued);
      }
      txDutyCycleTime := AppTxDutyCycle + jitter;
      deviceState := Cycle;
    }

    method RunCycle()
      requires Valid()
      modifies this
      ensures Valid() && Snapshot() == Lifecycle.CycleState(old(Snapshot()))
    {
      deviceState := Sleep;
      timer := Armed(txDutyCycleTime);
    }

    /** The low-power wait; the timer and radio callbacks it lets run are
      * delivered through `Dispatch`. */
    method RunSleep()
      requires Valid()
      ensures Valid() && Snapshot() == old(Snapshot())
    {
    }

    method RunDefault()
      requires Valid()
      modifies this
      ensures Valid() && Snapshot() == Lifecycle.DefaultState(old(Snapshot()))
    {
      deviceState := Init;
    }

    /** One pass of the `while( 1 )` loop: dispatch on the current state. */
    method Step(requestOk: bool, jitter: Jitter)
      requires Valid()
      modifies this
      ensures Valid() && Snapshot() == Lifecycle.Iterate(cfg, old(Snapshot()), requestOk, jitter)
    {
      match deviceState
      case Init => RunInit();
      case Join => RunJoin(requestOk);
      case ReqDeviceTime => RunReqDeviceTime(requestOk);
      case ReqBeaconTiming => RunReqBeaconTiming(requestOk);
      case BeaconAcquisition => RunBeaconAcquisition(requestOk);
      case ReqPingSlotAck => RunReqPingSlotAck(requestOk);
      case Send => RunSend(requestOk, jitter);
      case Cycle => RunCycle();
      case Sleep => RunSleep();
      case SwitchClass => RunDefault();
    }

    // ---------------------------------------------------------------------
    // The timer routine and the MAC callbacks
    // ---------------------------------------------------------------------

    method OnTxNextPacketTimerEvent(mibOk: bool, joinEnqueued: bool)
      requires Valid()
      modifies this
      ensures Valid() && Snapshot() == Lifecycle.TimerEvent(old(Snapshot()), mibOk, joinEnqueued)
    {
      timer := Stopped;
      if mibOk {
        if joined {
          deviceState := wakeUpState;
          nextTx := true;
        } else {
          var ok := MacRequestCall(JoinRequest, joinEnqueued);
          if ok {
            deviceState := Sleep;
          } else {
            deviceState := Cycle;
          }
        }
      }
    }

    method McpsConfirm(status: EventInfoStatus)
      requires Valid()
      modifies this
      ensures Valid() && Snapshot() == Lifecycle.McpsConfirm(old(Snapshot()), status)
    {
      nextTx := true;
    }

    method McpsIndication(status: EventInfoStatus, framePending: bool, mibOk: bool, joinEnqueued: bool)
      requires Valid()
      modifies this
      ensures Valid()
      ensures Snapshot() == Lifecycle.McpsIndication(old(Snapshot()), status, framePending, mibOk, joinEnqueued)
    {
      if status != StatusOk {
        return;
      }
      if framePending {
        OnTxNextPacketTimerEvent(mibOk, joinEnqueued);
      }
    }

    method MlmeConfirm(request: MlmeType, status: EventInfoStatus, joinEnqueued: bool)
      requires Valid()
      modifies this
      ensures Valid()
      ensures Snapshot() == Lifecycle.MlmeConfirm(cfg, old(Snapshot()), request, status, joinEnqueued)
    {
      match request {
      case MlmeJoin =>
        if status == StatusOk {
          joined := true;
          deviceState := DiscoveryState(cfg);
        } else {
          var ok := MacRequestCall(JoinRequest, joinEnqueued);
          if ok {
            deviceState := Sleep;
          } else {
            deviceState := Cycle;
          }
        }
      case MlmeLinkCheck =>
      case MlmeDeviceTime =>
        wakeUpState := Send;
        deviceState := BeaconAcquisition;
        nextTx := true;
      case MlmeBeaconTiming =>
        wakeUpState := Send;
        deviceState := BeaconAcquisition;
        nextTx := true;
      case MlmeBeaconAcquisition =>
        if status == StatusOk {
          wakeUpState := ReqPingSlotAck;
        } else {
          wakeUpState := DiscoveryState(cfg);
        }
      case MlmePingSlotInfo =>
        if status == StatusOk {
          deviceClass := ClassB;
          wakeUpState := Send;
          deviceState := wakeUpState;
          nextTx := true;
        } else {
          wakeUpState := ReqPingSlotAck;
        }
      case MlmeOtherRequest =>
      }
      nextTx := true;
    }

    method MlmeIndication(indication: MlmeIndicationType, mibOk: bool, joinEnqueued: bool)
      requires Valid()
      modifies this
      ensures Valid()
      ensures Snapshot() == Lifecycle.MlmeIndication(cfg, old(Snapshot()), indication, mibOk, joinEnqueued)
    {
      match indication
      case ScheduleUplink =>
        OnTxNextPacketTimerEvent(mibOk, joinEnqueued);
      case BeaconLost =>
        deviceClass := ClassA;
        wakeUpState := DiscoveryState(cfg);
      case Beacon =>
      case OtherIndication =>
    }

    /** Deliver one event: a pass of the main loop, or a callback run while it sleeps. */
    method Dispatch(e: Lifecycle.Event)
      requires Valid()
      modifies this
      ensures Valid() && Snapshot() == Lifecycle.Apply(cfg, old(Snapshot()), e)
    {
      match e
      case LoopPass(ok, jitter) => Step(ok, jitter);
      case TimerFired(mibOk, joinEnqueued) => OnTxNextPacketTimerEvent(mibOk, joinEnqueued);
      case McpsConfirmed(status) => McpsConfirm(status);
      case McpsIndicated(status, pending, mibOk, joinEnqueued) =>
        McpsIndication(status, pending, mibOk, joinEnqueued);
      case MlmeConfirmed(request, status, joinEnqueued) => MlmeConfirm(request, status, joinEnqueued);
      case MlmeIndicated(indication, mibOk, joinEnqueued) => MlmeIndication(indication, mibOk, joinEnqueued);
    }
  }

  /** `app_start` run over a finite prefix of its endless life: a fresh device
    * receives the events of `script` in order, and the state it ends in is the
    * reference run of that script, which is a reachable state. */
  method AppStart(cfg: Config, script: seq<Lifecycle.Event>) returns (final: Lifecycle.Ctx)
    ensures final == Lifecycle.Run(cfg, Lifecycle.Initial(), script)
    ensures Lifecycle.Reachable(cfg, final)
  {
    var device := new Device(cfg);
    var i := 0;
    while i < |script|
      invariant 0 <= i <= |script|
      invariant device.cfg == cfg && device.Valid()
      invariant Lifecycle.Run(cfg, device.Snapshot(), script[i..]) == Lifecycle.Run(cfg, Lifecycle.Initial(), script)
    {
      assert script[i..][0] == script[i] && script[i..][1..] == script[i + 1..];
      device.Dispatch(script[i]);
      i := i + 1;
    }
    final := device.Snapshot();
    LifecycleProperties.ReachableFromStart(cfg, script);
  }
}
