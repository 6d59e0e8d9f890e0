/**
 * The pad-connection state machine: a controller that caches the serial
 * numbers of the attached pads and holds at most one connected pad.
 */
module ReflexController {
  import opened Wrappers
  import UsbController

  /** The status values the connection operations return. */
  const CONNECTED: bool := true
  const DISCONNECTED: bool := false

  /**
   * A connected pad. Construction starts the pad's endpoint processes and
   * binds the pad to its serial for good; disconnecting terminates them.
   */
  class ReflexPadInstance {
    const serial: string
    var processesRunning: bool

    constructor (serial: string)
      ensures this.serial == serial && processesRunning
    {
      this.serial := serial;
      processesRunning := true;
    }

    /** The serial the pad was constructed with. */
    function Serial(): (s: string)
      ensures s == serial
    {
      serial
    }

    /** Terminate the pad's reader and writer processes. */
    method Disconnect()
      modifies this
      ensures !processesRunning
    {
      processesRunning := false;
    }
  }

  class ReflexController {
    var instance: Option<ReflexPadInstance>
    var serials: seq<Option<string>>

    /** The pad object a disconnect may terminate. */
    ghost function PadObjects(): set<ReflexPadInstance>
      reads this
    {
      if instance.Some? then {instance.value} else {}
    }

    /**
     * What a connect does: it succeeds exactly when no pad is connected and
     * `serial` is in the cached list, and then holds a new pad bound to
     * `serial` whose processes are running; otherwise the connected pad, or
     * its absence, stays. The cache never changes.
     */
    twostate predicate ConnectOutcome(serial: string, status: bool)
      reads this, PadObjects()
    {
      && serials == old(serials)
      && (status == CONNECTED <==> old(instance).None? && Some(serial) in old(serials))
      && (status == CONNECTED ==>
            instance.Some? && fresh(instance.value) && instance.value.serial == serial &&
            instance.value.processesRunning)
      && (status == DISCONNECTED ==> instance == old(instance))
    }

    /** A new controller has no pad connected and caches the serials of `found`. */
    constructor (found: seq<UsbController.Device>)
      ensures instance.None?
      ensures serials == UsbController.SerialNumbers(found)
    {
      instance := None;
      serials := [];
      new;
      EnumeratePads(found);
    }

    /** Replace the cached serial list by the serials of a new enumeration. */
    method EnumeratePads(found: seq<UsbController.Device>)
      modifies this`serials
      ensures serials == UsbController.SerialNumbers(found)
    {
      serials := UsbController.ConnectedDeviceNames(found);
    }

    /**
     * Disconnect when a pad is connected, whatever `serial` is; otherwise
     * connect to `serial`.
     */
    method TogglePadConnection(serial: string) returns (status: bool)
      modifies this, PadObjects()
      ensures old(instance).Some? ==>
        status == DISCONNECTED && instance.None? && serials == old(serials) &&
        !old(instance).value.processesRunning
      ensures old(instance).None? ==> ConnectOutcome(serial, status)
    {
      if instance.Some? {
        status := DisconnectPad();
      } else {
        status := ConnectPad(serial);
      }
    }

    /**
     * Build a pad for `serial` (before the guard is looked at) and keep it
     * only when no pad is connected and `serial` is cached.
     */
    method ConnectPad(serial: string) returns (status: bool)
      modifies this
      ensures ConnectOutcome(serial, status)
    {
      var pad := new ReflexPadInstance(serial);
      if instance.None? && Some(serial) in serials {
        instance := Some(pad);
        return CONNECTED;
      }
      return DISCONNECTED;
    }

    /**
     * Terminate the connected pad's processes and drop it; with no pad
     * connected nothing happens. Always reports DISCONNECTED.
     */
    method DisconnectPad() returns (status: bool)
      modifies this, PadObjects()
      ensures status == DISCONNECTED && instance.None? && serials == old(serials)
      ensures old(instance).Some? ==> !old(instance).value.processesRunning
      ensures old(instance).None? ==> unchanged(this)
    {
      if instance.None? {
        return DISCONNECTED;
      }
      instance.value.Disconnect();
      instance := None;
      return DISCONNECTED;
    }

    /** The cached serial list, as last enumerated. */
    function GetAllPads(): (pads: seq<Option<string>>)
      reads this
      ensures pads == serials
    {
      serials
    }

    /** The connected pad, or None. */
    function Pad(): (p: Option<ReflexPadInstance>)
      reads this
      ensures p.Some? <==> instance.Some?
      ensures p.Some? ==> p.value == instance.value
    {
      if instance.Some? then instance else None
    }
  }

  /**
   * A client that uses only the contracts above: one pad "AB12" attached; a
   * connect to it succeeds, a second connect is refused without touching the
   * session, two disconnects both report DISCONNECTED, and the cache is
   * still the one enumeration.
   */
  method ConnectionScenario()
  {
    var ab12 := UsbController.Device(1, 4, Some("AB12"));
    var c := new ReflexController([ab12]);
    assert c.serials == [Some("AB12")];

    var s := c.ConnectPad("AB12");
    assert s == CONNECTED;
    var pad := c.instance.value;
    assert pad.Serial() == "AB12";

    s := c.ConnectPad("ZZ99");
    assert s == DISCONNECTED && c.instance == Some(pad);
    s := c.ConnectPad("AB12");
    assert s == DISCONNECTED && c.instance == Some(pad);

    s := c.TogglePadConnection("ZZ99");
    assert s == DISCONNECTED && c.instance.None? && !pad.processesRunning;
    s := c.DisconnectPad();
    assert s == DISCONNECTED && c.instance.None?;
    assert c.GetAllPads() == [Some("AB12")];

    s := c.ConnectPad("ZZ99");
    assert s == DISCONNECTED;
    c.EnumeratePads([]);
    s := c.TogglePadConnection("AB12");
    assert s == DISCONNECTED && c.instance.None?;

    c.EnumeratePads([ab12]);
    s := c.TogglePadConnection("AB12");
    assert s == CONNECTED && c.instance.value.processesRunning;
  }
}
