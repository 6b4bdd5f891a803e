/**
 * What the connection sequence needs to know about the radio: the
 * advertisements a scan delivers, the filter that picks the wheel out of
 * them, and the outcome of each step of connecting and subscribing. The BLE
 * stack's own calls are not modelled; their results are these values.
 */
module WheelScan {
  import opened Bytes

  datatype Option<T> = None | Some(value: T)

  /** A service or characteristic UUID in its textual form. */
  type Uuid = string

  /** A six-byte Bluetooth device address. */
  type Address = seq<byte>

  /** The generic service the wheels advertise and serve their data under. */
  const SERVICE_UUID: Uuid := "0000ffe0-0000-1000-8000-00805f9b34fb"
  /** The characteristic inside that service that notifies wheel data. */
  const CHAR_UUID: Uuid := "0000FFE1-0000-1000-8000-00805F9B34FB"
  /** How long one scan runs before it gives up (seconds). */
  const SCAN_SECONDS: nat := 12

  /** One advertisement a scan reports: who sent it and the services it lists. */
  datatype Advertisement = Advertisement(address: Address, serviceUuids: seq<Uuid>)
  {
    predicate HaveServiceUuid() { |serviceUuids| > 0 }
    predicate IsAdvertisingService(u: Uuid) { u in serviceUuids }
  }

  /**
   * The filter of `WheelScanCallbacks::onResult`: the address must be the
   * configured one, and the advertisement must list the wheel service. The
   * service alone is too generic to tell a wheel from other devices.
   */
  predicate IsTargetWheel(target: Address, ad: Advertisement)
  {
    ad.address == target && ad.HaveServiceUuid() && ad.IsAdvertisingService(SERVICE_UUID)
  }

  /** The position of the first advertisement that passes the filter, if any. */
  function FirstWheelIndex(target: Address, ads: seq<Advertisement>): (r: Option<nat>)
    ensures r.None? ==> forall j :: 0 <= j < |ads| ==> !IsTargetWheel(target, ads[j])
    ensures r.Some? ==> r.value < |ads| && IsTargetWheel(target, ads[r.value])
    ensures r.Some? ==> forall j :: 0 <= j < r.value ==> !IsTargetWheel(target, ads[j])
    decreases |ads|
  {
    if ads == [] then None
    else if IsTargetWheel(target, ads[0]) then Some(0)
    else
      match FirstWheelIndex(target, ads[1..])
      case None => None
      case Some(k) => Some(k + 1)
  }

  /**
   * What the BLE stack answers during `connectToWheel`: whether `connect`
   * succeeds, whether the client's `onConnect` callback ran during it,
   * whether the service and the characteristic are found, and whether the
   * characteristic can notify.
   */
  datatype LinkOutcome = LinkOutcome(
    connectOk: bool,
    onConnectCalled: bool,
    hasService: bool,
    hasCharacteristic: bool,
    canNotify: bool)

  /** Where `connectToWheel` stops: subscribed, or the first step that failed. */
  datatype ConnectEnd =
    | Subscribed
    | ConnectFailed
    | ServiceNotFound
    | CharacteristicNotFound
    | NotifyUnsupported

  function ConnectEndOf(o: LinkOutcome): ConnectEnd
  {
    if !o.connectOk then ConnectFailed
    else if !o.hasService then ServiceNotFound
    else if !o.hasCharacteristic then CharacteristicNotFound
    else if !o.canNotify then NotifyUnsupported
    else Subscribed
  }

  /** `connectToWheel` calls `disconnect()` exactly when service or characteristic lookup fails. */
  predicate ReleasesLink(e: ConnectEnd)
  {
    e == ServiceNotFound || e == CharacteristicNotFound
  }

  /**
   * The `connected` flag `connectToWheel` leaves behind: cleared first,
   * set by `onConnect` if that ran, and set on the subscribed path.
   */
  function ConnectedAfter(o: LinkOutcome): bool
  {
    o.onConnectCalled || ConnectEndOf(o) == Subscribed
  }

  /** The attempt succeeds exactly when every step does. */
  lemma SubscribedIff(o: LinkOutcome)
    ensures ConnectEndOf(o) == Subscribed <==>
      o.connectOk && o.hasService && o.hasCharacteristic && o.canNotify
  {
  }

  /**
   * A failed attempt leaves `connected` set only when `onConnect` ran; a
   * characteristic that cannot notify does not release the link.
   */
  lemma FailureLeavesFlag(o: LinkOutcome)
    requires ConnectEndOf(o) != Subscribed
    ensures ConnectedAfter(o) == o.onConnectCalled
    ensures !o.canNotify && o.connectOk && o.hasService && o.hasCharacteristic ==> !ReleasesLink(ConnectEndOf(o))
  {
  }
}
