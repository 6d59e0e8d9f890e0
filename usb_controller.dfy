/**
 * The sequential part of the USB endpoint layer: listing and resolving pads
 * by serial number over one enumeration result, the shared buffer each
 * endpoint process owns, and one iteration of the reader and of the writer.
 *
 * The USB enumeration and the transfers are foreign calls: an enumeration is
 * passed in as a sequence of devices, a read as the bytes it returned, and a
 * write is the sequence the writer hands to the device.
 */
module UsbController {
  import opened Wrappers

  /** One value of a transfer read from an endpoint. */
  type Byte = b: int | 0 <= b < 256

  /**
   * An attached USB device as the enumeration reports it. `bus` and `address`
   * identify the physical unit; `serialNumber` is None for a device without
   * a serial-number string.
   */
  datatype Device = Device(bus: nat, address: nat, serialNumber: Option<string>)

  /**
   * The field of a device specification that the modelled endpoint layer
   * reads: the length of a transfer and of each endpoint's buffer.
   */
  datatype HidInfo = HidInfo(bytes: nat)

  // ---------------------------------------------------------------------------
  // Device list

  /** The serial numbers of an enumeration: one per device, in enumeration order. */
  function SerialNumbers(devs: seq<Device>): (names: seq<Option<string>>)
    ensures |names| == |devs|
    ensures forall i :: 0 <= i < |devs| ==> names[i] == devs[i].serialNumber
  {
    if devs == [] then [] else [devs[0].serialNumber] + SerialNumbers(devs[1..])
  }

  /**
   * The first device of an enumeration whose serial number is `serial`, or
   * None when no device carries it.
   */
  function FirstWithSerial(devs: seq<Device>, serial: string): (r: Option<Device>)
    ensures r.None? <==> forall i :: 0 <= i < |devs| ==> devs[i].serialNumber != Some(serial)
    ensures r.Some? ==>
      exists i :: 0 <= i < |devs| && devs[i] == r.value && devs[i].serialNumber == Some(serial) &&
        forall j :: 0 <= j < i ==> devs[j].serialNumber != Some(serial)
  {
    if devs == [] then None
    else if devs[0].serialNumber == Some(serial) then Some(devs[0])
    else
      var r := FirstWithSerial(devs[1..], serial);
      assert forall i :: 1 <= i < |devs| ==> devs[i] == devs[1..][i - 1];
      r
  }

  /**
   * connected_device_names: collect the matching devices of one enumeration
   * into a list, then map each to its serial number.
   */
  method ConnectedDeviceNames(found: seq<Device>) returns (names: seq<Option<string>>)
    ensures names == SerialNumbers(found)
  {
    var devs: seq<Device> := [];
    for k := 0 to |found|
      invariant devs == found[..k]
    {
      devs := devs + [found[k]];
    }
    names := seq(|devs|, i requires 0 <= i < |devs| => devs[i].serialNumber);
  }

  /**
   * get_device_by_serial: scan one enumeration (None when the enumeration
   * itself is None) and return the first device whose serial number equals
   * `serial`, or None when the scan falls through.
   */
  method GetDeviceBySerial(found: Option<seq<Device>>, serial: string) returns (r: Option<Device>)
    ensures found.None? ==> r.None?
    ensures found.Some? ==> r == FirstWithSerial(found.value, serial)
  {
    if found.None? {
      return None;
    }
    var devices := found.value;
    for k := 0 to |devices|
      invariant forall j :: 0 <= j < k ==> devices[j].serialNumber != Some(serial)
    {
      if devices[k].serialNumber == Some(serial) {
        return Some(devices[k]);
      }
    }
    return None;
  }

  /**
   * A serial is in the listed names of an enumeration exactly when looking it
   * up in that same enumeration finds a device.
   */
  lemma ListedIffFound(devs: seq<Device>, serial: string)
    ensures Some(serial) in SerialNumbers(devs) <==> FirstWithSerial(devs, serial).Some?
  {
  }

  // ---------------------------------------------------------------------------
  // Shared buffer contents

  /**
   * The buffer after the values of one read are copied into it index by
   * index: the read's values at its own indices, the old contents beyond.
   */
  function Overlay(buffer: seq<int>, incoming: seq<int>): (r: seq<int>)
    requires |incoming| <= |buffer|
    ensures |r| == |buffer|
    ensures forall i :: 0 <= i < |incoming| ==> r[i] == incoming[i]
    ensures forall i :: |incoming| <= i < |buffer| ==> r[i] == buffer[i]
  {
    incoming + buffer[|incoming|..]
  }

  /** A read as long as the buffer replaces its whole contents. */
  lemma OverlayFullRead(buffer: seq<int>, incoming: seq<int>)
    requires |incoming| == |buffer|
    ensures Overlay(buffer, incoming) == incoming
  {
  }

  /** A read at least as long as an earlier one leaves nothing of the earlier one. */
  lemma OverlayLongerReadMasks(buffer: seq<int>, first: seq<int>, second: seq<int>)
    requires |first| <= |second| <= |buffer|
    ensures Overlay(Overlay(buffer, first), second) == Overlay(buffer, second)
  {
  }

  // ---------------------------------------------------------------------------
  // Endpoint processes

  /** Which transfer an endpoint process performs on each iteration. */
  datatype Direction = Read | Write

  /**
   * An endpoint process: the serial and device it is bound to, its shared
   * int buffer of `info.bytes` elements and its readiness event. The two
   * directions of the source (reader and writer subclasses) share this state
   * and differ only in their iteration, ReadStep or WriteStep.
   */
  class HidEndpointProcess {
    const info: HidInfo
    const serial: string
    const device: Device
    const direction: Direction
    const data: array<int>
    var ready: bool

    /** The buffer keeps the length fixed at construction. */
    ghost predicate Valid() {
      data.Length == info.bytes
    }

    constructor (info: HidInfo, serial: string, device: Device, direction: Direction)
      ensures Valid() && fresh(data)
      ensures this.info == info && this.serial == serial && this.device == device
      ensures this.direction == direction
      ensures forall i :: 0 <= i < data.Length ==> data[i] == 0
      ensures !ready
    {
      this.info := info;
      this.serial := serial;
      this.device := device;
      this.direction := direction;
      data := new int[info.bytes](_ => 0);
      ready := false;
    }

    /**
     * One reader iteration: `sensorData` is what the read of `info.bytes`
     * values from the read endpoint returned. Its values are copied into the
     * buffer index by index; the event is set once the copy is complete.
     */
    method ReadStep(sensorData: seq<Byte>)
      requires Valid() && direction == Read
      requires |sensorData| <= info.bytes
      modifies this`ready, data
      ensures Valid()
      ensures data[..] == Overlay(old(data[..]), sensorData)
      ensures ready
    {
      for i := 0 to |sensorData|
        invariant ready == old(ready)
        invariant forall k :: 0 <= k < i ==> data[k] == sensorData[k]
        invariant forall k :: i <= k < data.Length ==> data[k] == old(data[k])
      {
        data[i] := sensorData[i];
      }
      ready := true;
    }

    /**
     * One writer iteration: snapshot the whole buffer, hand the snapshot to
     * the write endpoint (the returned sequence), then set the event.
     */
    method WriteStep() returns (sent: seq<int>)
      requires Valid() && direction == Write
      modifies this`ready
      ensures Valid()
      ensures sent == old(data[..]) && data[..] == old(data[..])
      ensures |sent| == info.bytes
      ensures ready
    {
      sent := data[..];
      ready := true;
    }
  }
}
