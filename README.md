# RE:Flex pad controller — Dafny model

A model of the sequential core of a controller for RE:Flex v2 dance pads
attached over USB HID:

- **Device list** (`UsbController`): the serial numbers of one enumeration of
  matching devices, and the lookup of a device by serial (first match in
  enumeration order, None when the enumeration is None or nothing matches).
- **Endpoint processes** (`UsbController.HidEndpointProcess`): the shared int
  buffer of `BYTES` elements each endpoint owns (all zero at construction),
  the readiness event as a boolean, and one iteration of the reader (the read
  values copied index by index into the buffer, then the event set) and of
  the writer (the whole buffer snapshotted and written, then the event set).
- **Connection state machine** (`ReflexController.ReflexController`): a cached
  serial list and at most one connected pad (`ReflexPadInstance`, bound to
  its serial for good). Connect succeeds only with no pad connected and a
  cached serial; disconnect always reports DISCONNECTED and is a no-op with
  nothing connected; toggle picks between them by whether a pad is connected.

The USB enumeration and the transfers are calls into libusb and pyusb: an
enumeration is a `seq<Device>` parameter (an `Option<seq<Device>>` for the
lookup, whose source handles a None result), a read is the `seq<Byte>` it
returned, and a write is the sequence `WriteStep` returns.

`ConnectionScenario` is a client written against the contracts alone: one
attached pad, a successful connect, refused second connects, two
disconnects, and a cache that only a new enumeration changes.

Points where the code's behaviour deserves a note:

- A reader iteration copies only as many values as the read returned
  (src/usb_controller.py:78-79). A short read leaves the tail of the buffer
  stale; only a read of `BYTES` values replaces it whole (`OverlayFullRead`),
  and a read at least as long as the previous one erases it
  (`OverlayLongerReadMasks`).
- A transfer that raises (`device.read` at src/usb_controller.py:76,
  `device.write` at src/usb_controller.py:91, for example on a USB timeout)
  ends the iteration before the copy or the write and before the event is
  set; `run` (src/usb_controller.py:54-56) catches nothing, so one failed
  transfer ends the endpoint process, although a continuously polling
  endpoint is evidently meant to survive it and retry.
- Connection operations report only CONNECTED or DISCONNECTED (booleans). The
  code has no separate not-found or already-connected errors, no health
  state, and no length check on buffer updates.
- The serial cache holds `Option<string>`: a device without a serial string
  lists as None, and `connect` compares against `Some(serial)`.

## Model

| member | source | states |
|---|---|---|
| `UsbController.SerialNumbers` | src/usb_controller.py:16-22 | one serial per enumerated device, same length as the enumeration, the i-th name being the i-th device's serial number |
| `UsbController.ConnectedDeviceNames` | src/usb_controller.py:16-22 | the append loop followed by the serial mapping yields exactly `SerialNumbers` of the enumeration, in enumeration order |
| `UsbController.FirstWithSerial` | src/usb_controller.py:33-35 | None exactly when no device has the serial; otherwise a device of the enumeration that has the serial and that no earlier device's serial matches |
| `UsbController.GetDeviceBySerial` | src/usb_controller.py:24-35 | None when the enumeration is None; otherwise the early-return scan returns the first device whose serial matches, None when it falls through |
| `UsbController.ListedIffFound` | src/usb_controller.py:16-35 | a serial appears among the listed names of an enumeration iff the lookup in that same enumeration finds a device |
| `UsbController.Overlay` | src/usb_controller.py:77-79 | the buffer after a read keeps its length, holds the read's values at the read's indices and its old values at every later index |
| `UsbController.OverlayFullRead` | src/usb_controller.py:76-79 | a read of the full `BYTES` length replaces the whole buffer |
| `UsbController.OverlayLongerReadMasks` | src/usb_controller.py:77-79 | a read at least as long as the previous one leaves no trace of the previous one |
| `UsbController.HidEndpointProcess.constructor` | src/usb_controller.py:41-48 | the buffer is new, has exactly `info.BYTES` elements, all zero; the event is clear; info, serial and device are kept |
| `UsbController.HidEndpointProcess.ReadStep` | src/usb_controller.py:73-80 | `data[i]` is the read's i-th value for every index of the read, later entries are unchanged, the length is fixed, and the event is set after the copy |
| `UsbController.HidEndpointProcess.WriteStep` | src/usb_controller.py:86-92 | the written sequence equals the buffer's full contents, the buffer is not modified, and the event is set |
| `ReflexController.ReflexPadInstance.constructor` | src/reflex_controller.py:10-11 | a new pad carries the serial it was constructed with and its processes are running |
| `ReflexController.ReflexPadInstance.Serial` | src/reflex_controller.py:21-23 | the serial accessor returns the construction serial |
| `ReflexController.ReflexPadInstance.Disconnect` | src/reflex_controller.py:17-19 | the pad's processes are terminated |
| `ReflexController.ReflexController.constructor` | src/reflex_controller.py:38-42 | no pad is connected and the cache equals the serials of one enumeration |
| `ReflexController.ReflexController.EnumeratePads` | src/reflex_controller.py:44-45 | the cache is replaced wholesale by the serials of the new enumeration; the connected pad is untouched |
| `ReflexController.ReflexController.TogglePadConnection` | src/reflex_controller.py:47-51 | with a pad connected: exactly a disconnect (DISCONNECTED, no pad, the old pad terminated, cache kept), whatever the serial; otherwise exactly `ConnectPad(serial)`'s outcome, including a running new pad on success |
| `ReflexController.ReflexController.ConnectPad` | src/reflex_controller.py:53-58 | CONNECTED iff no pad was connected and the serial is cached, and then a new running pad bound to the serial; otherwise DISCONNECTED with the connected pad (or its absence) unchanged; the cache never changes |
| `ReflexController.ReflexController.DisconnectPad` | src/reflex_controller.py:60-65 | always DISCONNECTED and no pad afterwards; a connected pad's processes are terminated; with nothing connected the controller is unchanged; the cache never changes |
| `ReflexController.ReflexController.GetAllPads` | src/reflex_controller.py:67-68 | returns the cached list as it is, without enumerating |
| `ReflexController.ReflexController.Pad` | src/reflex_controller.py:70-74 | the connected pad when there is one, otherwise None |

## Left out

- USB enumeration (`libusb_package.find`), `device.read` and `device.write` are foreign calls: their results are parameters and the written data is a returned sequence. The vendor and product identifiers therefore play no part in the model.
- SerialNumbers, ConnectedDeviceNames, GetDeviceBySerial: take a device's serial number as part of the enumeration result and cover only serial reads that return. In pyusb, reading `serial_number` (src/usb_controller.py:22, src/usb_controller.py:34) is itself a string-descriptor request to the device that can raise (`ValueError` when the device reports no language id, `USBError`); the listing, and with it the controller's constructor and `EnumeratePads`, and the lookup then raise instead of returning. That request is a foreign call like the enumeration itself.
- ReadStep: models only a read that returns. A raising `device.read` leaves the buffer and the event untouched and, in the code, ends the reader process; the exception comes from a foreign call and the process end belongs to the process lifecycle below.
- WriteStep: models only a write that returns. A raising `device.write` leaves the event unset and, in the code, ends the writer process, for the same reasons.
- The process lifecycle (`start`, `terminate` of the base class, the endless `run` loop): only one iteration of each endpoint is modelled. `ReflexPadInstance.Disconnect` records termination as a flag.
- The device-access lock, the buffer lock and the event as synchronisation primitives: mutual exclusion and happens-before are concurrency properties. The event is a boolean that an iteration sets.
- The `data` and `event` accessors of the endpoint base class: they hand out the shared objects, which the model exposes as fields.
- Logging with `print`.
- `ReflexV2Info`, `HIDInfo`, `SensorDataHandler` and `LEDDataHandler` are not part of this model; `HidInfo` carries only the buffer length `BYTES`, with no fixed value; the endpoint identifiers `READ_EP` and `WRITE_EP` only feed the foreign transfers.
- The body of `ReflexPadInstance.__init__` and the sample accessors `handle_sensor_data` and `handle_light_data`: the constructor builds the endpoint processes with two arguments where four are required and reads a `queue` attribute they do not have, so it cannot run as written. Pad construction is modelled as a step that always yields a running pad carrying its serial.
- `ConnectPad` builds the pad before checking its guard, so a refused connect leaves a pad whose processes were started; that leak is not modelled.
- The controller's `ReflexV2Info` field: it only feeds the enumeration and pad construction, both of which are outside the model.
