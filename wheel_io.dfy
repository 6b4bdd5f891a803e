/**
 * The wheel I/O module: the global record `currEucState` and the static
 * `wheelDevice` handle, and the callbacks and functions that update them in
 * place. Every method is proved to leave the record as the corresponding
 * function of module WheelState (or WheelScan) says.
 *
 * The time `millis()` is a parameter `now`; the float `calcUpdateFreq()`
 * returns is a parameter `msgRate`; the BLE stack's answers are a
 * `LinkOutcome` and the advertisements a scan reports.
 */
module WheelIo {
  import opened Bytes
  import opened WheelFrames
  import opened WheelState
  import opened WheelScan

  class WheelIo {
    /** The global record `currEucState`; each write below updates one of its fields in place. */
    var data: WheelData
    /** The advertisement the scan matched (`wheelDevice`), once there is one. */
    var wheelDevice: Option<Advertisement>

    /** The peak is within range, and a pending connect always has a device to connect to. */
    ghost predicate Valid()
      reads this
    {
      DutyInRange(data) && (data.doConnect ==> wheelDevice.Some?)
    }

    /** Static initialisation: `struct WheelData currEucState = {}`. */
    constructor ()
      ensures Valid()
      ensures IsCleared(data) && wheelDevice == None
    {
      data := Zero();
      wheelDevice := None;
    }

    /** `init_wheel_io`, its flag part: neither connected nor waiting to connect. */
    method InitWheelIo()
      requires Valid()
      modifies this
      ensures Valid()
      ensures data == old(data).(connected := false, doConnect := false)
      ensures wheelDevice == old(wheelDevice)
    {
      data := data.(connected := false);
      data := data.(doConnect := false);
    }

    /**
     * `WheelScanCallbacks::onResult`: an advertisement from the target
     * address that lists the wheel service sets `doConnect` and records the
     * device; any other advertisement changes nothing.
     */
    method OnResult(target: Address, ad: Advertisement)
      requires Valid()
      modifies this
      ensures Valid()
      ensures IsTargetWheel(target, ad) ==>
        data == old(data).(doConnect := true) && wheelDevice == Some(ad)
      ensures !IsTargetWheel(target, ad) ==>
        data == old(data) && wheelDevice == old(wheelDevice)
    {
      if ad.address != target {
        return;
      }
      if ad.HaveServiceUuid() && ad.IsAdvertisingService(SERVICE_UUID) {
        data := data.(doConnect := true);
        wheelDevice := Some(ad);
      }
    }

    /** `parseWheelDataMsg` on a 20-byte notification. */
    method ParseWheelDataMsg(raw: seq<byte>, msgRate: real)
      requires Valid()
      requires |raw| == PRIMARY_MSG_SIZE
      modifies this
      ensures Valid()
      ensures data == ApplyPrimary(old(data), raw, msgRate)
      ensures wheelDevice == old(wheelDevice)
    {
      if Be32(raw, OFF_HEADER) != WHEEL_MAGIC {
        return;
      }
      data := data.(voltage := Be16(raw, OFF_VOLTAGE));
      data := data.(speed := Be16(raw, OFF_SPEED));
      data := data.(trip := Be32(raw, OFF_TRIP));
      data := data.(current := Be16(raw, OFF_CURRENT));
      data := data.(temp := Be16(raw, OFF_TEMP));
      data := data.(odometer := Be32(raw, OFF_ODOMETER));
      data := data.(msgPerSec := msgRate);
    }

    /** `calcDutyPeak` at time `now`. */
    method CalcDutyPeak(now: uint32)
      requires Valid()
      modifies this
      ensures Valid()
      ensures data == PeakStep(old(data), now)
      ensures wheelDevice == old(wheelDevice)
    {
      PeakStepBounds(data, now);
      if data.dutyCycle > data.dutyPeak {
        data := data.(dutyPeak := data.dutyCycle);
        data := data.(dutyPeakTime := now);
        return;
      }
      var diff := (now - data.dutyPeakTime) % 0x1_0000_0000;
      if diff > PEAK_HOLD_MSEC {
        data := data.(dutyPeak := data.dutyPeak - 3);
        if data.dutyPeak < 0 {
          data := data.(dutyPeak := 0);
        }
      }
    }

    /** `parseWheelDataExtendedMsg` on a 16-byte notification at time `now`. */
    method ParseWheelDataExtendedMsg(raw: seq<byte>, now: uint32)
      requires Valid()
      requires |raw| == EXTENDED_MSG_SIZE
      modifies this
      ensures Valid()
      ensures data == ApplyExtended(old(data), raw, now)
      ensures wheelDevice == old(wheelDevice)
    {
      data := data.(powerOffTime := Be16(raw, 0));
      data := data.(chargeMode := Be16(raw, 2));
      data := data.(alarmSpeed := Be16(raw, 4) / 10);
      data := data.(tiltbackSpeed := Be16(raw, 4) / 10);
      data := data.(version := Be16(raw, 8));
      data := data.(pedalMode := Be16(raw, 10));
      data := data.(roll := Be16(raw, 12));
      data := data.(dutyCycle := Be16(raw, 14) / 100);
      CalcDutyPeak(now);
    }

    /** `notifyCallback`: dispatch on the payload length; other lengths are only logged. */
    method NotifyCallback(raw: seq<byte>, now: uint32, msgRate: real)
      requires Valid()
      modifies this
      ensures Valid()
      ensures data == Notify(old(data), raw, now, msgRate)
      ensures wheelDevice == old(wheelDevice)
    {
      if |raw| == PRIMARY_MSG_SIZE {
        ParseWheelDataMsg(raw, msgRate);
      } else if |raw| == EXTENDED_MSG_SIZE {
        ParseWheelDataExtendedMsg(raw, now);
      }
    }

    /** `MyClientCallback::onConnect`. */
    method OnConnect()
      requires Valid()
      modifies this
      ensures Valid()
      ensures data == old(data).(connected := true)
      ensures wheelDevice == old(wheelDevice)
    {
      data := data.(connected := true);
    }

    /** `MyClientCallback::onDisconnect`: the whole record is cleared, whatever it held. */
    method OnDisconnect()
      requires Valid()
      modifies this
      ensures Valid()
      ensures IsCleared(data)
      ensures wheelDevice == old(wheelDevice)
    {
      data := Zero();
      data := data.(connected := false);
    }

    /**
     * `connectToWheel` against the recorded device. `ok` is its return
     * value; `released` says whether it called `disconnect()` on the client.
     * Only `connected` changes: cleared first, set again by `onConnect` if
     * that ran, and set on the subscribed path after notification registration.
     */
    method ConnectToWheel(o: LinkOutcome) returns (ok: bool, released: bool)
      requires Valid()
      requires wheelDevice.Some?
      modifies this
      ensures Valid()
      ensures ok <==> ConnectEndOf(o) == Subscribed
      ensures released <==> ReleasesLink(ConnectEndOf(o))
      ensures data == old(data).(connected := ConnectedAfter(o))
      ensures wheelDevice == old(wheelDevice)
    {
      data := data.(connected := false);
      released := false;
      if o.onConnectCalled {
        OnConnect();
      }
      if !o.connectOk {
        return false, released;
      }
      if !o.hasService {
        released := true;
        return false, released;
      }
      if !o.hasCharacteristic {
        released := true;
        return false, released;
      }
      if !o.canNotify {
        return false, released;
      }
      data := data.(connected := true);
      ok := true;
    }

    /**
     * `findAndConnectToWheel`: scan until the first advertisement that passes
     * the filter (the scan is stopped there), then connect only if one did.
     * The result is the `connected` flag afterwards; when nothing matched
     * it is the flag as it was before the call.
     */
    method FindAndConnectToWheel(target: Address, ads: seq<Advertisement>, o: LinkOutcome)
      returns (result: bool)
      requires Valid()
      modifies this
      ensures Valid()
      ensures result == data.connected
      ensures FirstWheelIndex(target, ads).None? ==>
        data == old(data).(doConnect := false) && wheelDevice == old(wheelDevice)
      ensures FirstWheelIndex(target, ads).Some? ==>
        && data == old(data).(doConnect := false, connected := ConnectedAfter(o))
        && wheelDevice == Some(ads[FirstWheelIndex(target, ads).value])
    {
      data := data.(doConnect := false);
      var i := 0;
      while i < |ads| && !data.doConnect
        invariant Valid()
        invariant 0 <= i <= |ads|
        invariant !data.doConnect ==> forall j :: 0 <= j < i ==> !IsTargetWheel(target, ads[j])
        invariant !data.doConnect ==> data == old(data).(doConnect := false)
        invariant !data.doConnect ==> wheelDevice == old(wheelDevice)
        invariant data.doConnect ==> FirstWheelIndex(target, ads) == Some(i - 1)
        invariant data.doConnect ==> data == old(data).(doConnect := true)
        invariant data.doConnect ==> wheelDevice == Some(ads[i - 1])
      {
        OnResult(target, ads[i]);
        i := i + 1;
      }
      if data.doConnect {
        data := data.(doConnect := false);
        var ok, released := ConnectToWheel(o);
      }
      result := data.connected;
    }
  }
}
