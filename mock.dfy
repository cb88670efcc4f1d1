/** The simulated device (whill/mock.py): always connected after construction, never talks to hardware. */
module Mock {
  import opened Wrappers
  import Interface

  class MockWhill {
    var connected: bool
    var port: string
    /** `_last_error` is set once to `None` and never assigned again. */
    const lastError: Option<string> := None

    /** Starts from the base fields, then takes the port and reports itself connected. */
    constructor (port: string)
      ensures connected && this.port == port && lastError.None?
    {
      var base := Interface.BaseState();
      connected, this.port := base.connected, base.port;
      new;
      this.port := port;
      connected := true;
    }

    /** Logs the command only; every field keeps its value. */
    method SendJoystick(front: int, side: int)
      ensures unchanged(this)
    {
    }

    method SendPowerOn()
      ensures unchanged(this)
    {
    }

    method SendPowerOff()
      ensures unchanged(this)
    {
    }

    method SendEmergencyStop()
      ensures unchanged(this)
    {
    }

    /** Drops the connection flag; the port is kept, so disconnecting twice is the same as once. */
    method Disconnect()
      modifies this
      ensures !connected && port == old(port)
    {
      connected := false;
    }

    /** Always succeeds: takes the new port when one is given and is connected afterwards. */
    method Reconnect(newPort: Option<string>) returns (ok: bool)
      modifies this
      ensures ok && connected
      ensures port == (if newPort.Some? then newPort.value else old(port))
    {
      if newPort.Some? {
        port := newPort.value;
      }
      connected := true;
      ok := true;
    }

    function GetMode(): (mode: string)
      ensures mode == "mock"
    {
      "mock"
    }

    /** The base status with this object's `lastError`, which is always `None`. */
    function GetStatus(): (s: Interface.Status)
      reads this
      ensures s.connected == connected && s.port == port && s.mode == "mock"
      ensures s.lastError.None?
    {
      Interface.BaseStatus(connected, port, GetMode()).(lastError := lastError)
    }
  }
}
