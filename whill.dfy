/**
 * A WHILL device of either variant, as the controller holds it (the `AbstractWHILL`
 * reference), with the factory that creates one (whill/factory.py). Operations dispatch
 * on the variant; `SendEffect`, `DisconnectEffect` and `ReconnectEffect` state what each
 * does to the device's fields.
 */
module Whill {
  import opened Wrappers
  import opened Interface
  import Mock
  import Real

  datatype Mode = MockMode | RealMode

  /** The operations a command can invoke on a device. */
  datatype DeviceOp =
    | SendJoystick(front: int, side: int)
    | SendPowerOn
    | SendPowerOff
    | SendEmergencyStop

  datatype Device = MockDevice(mock: Mock.MockWhill) | RealDevice(hardware: Real.RealWhill)
  {
    function Repr(): set<object>
    {
      match this
      case MockDevice(m) => {m}
      case RealDevice(r) => {r}
    }

    function ModeOf(): Mode
    {
      if MockDevice? then MockMode else RealMode
    }

    /** The device's fields; the simulated variant has no handle and makes no SDK calls. */
    ghost function State(): DeviceState
      reads Repr()
    {
      match this
      case MockDevice(m) => DeviceState(m.connected, m.port, m.lastError, None, [])
      case RealDevice(r) => r.State()
    }

    ghost predicate Valid()
      reads Repr()
    {
      ValidState(ModeOf(), State())
    }

    /** `is_connected()`: the connection flag. */
    function IsConnected(): (b: bool)
      reads Repr()
      ensures b == State().connected
    {
      match this
      case MockDevice(m) => m.connected
      case RealDevice(r) => r.connected
    }

    /** The `port` property: the current port. */
    function Port(): (p: string)
      reads Repr()
      ensures p == State().port
    {
      match this
      case MockDevice(m) => m.port
      case RealDevice(r) => r.port
    }

    function GetMode(): (mode: string)
      ensures mode == ModeName(ModeOf())
    {
      match this
      case MockDevice(m) => m.GetMode()
      case RealDevice(r) => r.GetMode()
    }

    /** `get_status()`: the current fields, read without changing any. */
    function GetStatus(): (s: Status)
      reads Repr()
      ensures s == Status(State().connected, State().port, ModeName(ModeOf()), State().lastError)
    {
      match this
      case MockDevice(m) => m.GetStatus()
      case RealDevice(r) => r.GetStatus()
    }
  }

  function ModeName(mode: Mode): string
  {
    match mode
    case MockMode => "mock"
    case RealMode => "real"
  }

  /** What holds of a device's fields between operations. */
  predicate ValidState(mode: Mode, s: DeviceState)
  {
    match mode
    case MockMode => s.lastError.None? && s.handle.None? && s.sdkCalls == []
    case RealMode => Real.Consistent(s)
  }

  /** The SDK call a real device makes for an operation. */
  function SdkCallOf(op: DeviceOp): (call: SdkCall)
    ensures op.SendJoystick? ==> call == Joystick(op.front, op.side)
    ensures op.SendEmergencyStop? ==> call == Joystick(0, 0)
  {
    match op
    case SendJoystick(front, side) => Joystick(front, side)
    case SendPowerOn => PowerOn
    case SendPowerOff => PowerOff
    case SendEmergencyStop => Joystick(0, 0)
  }

  /**
   * A `send_*` operation: no effect at all on the simulated device; on the real one, the
   * SDK call when the device is connected, and a fault surfaces only as `connected = false`
   * with the message recorded.
   */
  function SendEffect(mode: Mode, s: DeviceState, op: DeviceOp, fault: Option<string>): (t: DeviceState)
    ensures mode == MockMode ==> t == s
    ensures t.port == s.port && t.handle == s.handle
    ensures fault.None? ==> t.connected == s.connected && t.lastError == s.lastError
    ensures fault.Some? && mode == RealMode && Real.CanSend(s) ==> !t.connected && t.lastError == fault
    ensures ValidState(mode, s) ==> ValidState(mode, t)
  {
    match mode
    case MockMode => s
    case RealMode => Real.AfterSend(s, SdkCallOf(op), fault)
  }

  /** `disconnect()`: afterwards the device is not connected and holds no handle; the port is kept. */
  function DisconnectEffect(mode: Mode, s: DeviceState): (t: DeviceState)
    ensures ValidState(mode, s) ==> !t.connected && t.handle.None? && ValidState(mode, t)
    ensures t.port == s.port && t.lastError == s.lastError
  {
    match mode
    case MockMode => s.(connected := false)
    case RealMode => Real.AfterDisconnect(s)
  }

  /**
   * `reconnect(port?)`: connect to the given port, else the current one. The simulated
   * device always succeeds; the real one succeeds exactly when opening the SDK does.
   */
  function ReconnectEffect(mode: Mode, s: DeviceState, newPort: Option<string>,
                           closeFault: Option<string>, openFault: Option<string>): (r: (DeviceState, bool))
    ensures r.1 <==> mode == MockMode || openFault.None?
    ensures r.1 ==> r.0.connected && r.0.port == (if newPort.Some? then newPort.value else s.port)
    ensures !r.1 ==> !r.0.connected && r.0.port == s.port && r.0.lastError == openFault
    ensures ValidState(mode, s) ==> ValidState(mode, r.0)
  {
    match mode
    case MockMode => (s.(connected := true, port := if newPort.Some? then newPort.value else s.port), true)
    case RealMode => Real.AfterReconnect(s, newPort, closeFault, openFault)
  }

  /** An emergency stop has exactly the effect of a joystick command with front 0 and side 0. */
  lemma EmergencyStopIsJoystickZero(mode: Mode, s: DeviceState, fault: Option<string>)
    ensures SendEffect(mode, s, SendEmergencyStop, fault) == SendEffect(mode, s, SendJoystick(0, 0), fault)
  {
  }

  /** Disconnecting a second time changes nothing. */
  lemma DisconnectIdempotent(mode: Mode, s: DeviceState)
    ensures DisconnectEffect(mode, DisconnectEffect(mode, s)) == DisconnectEffect(mode, s)
  {
  }

  /** Runs a `send_*` operation on whichever variant `d` is. */
  method Send(d: Device, op: DeviceOp, fault: Option<string>)
    modifies d.Repr()
    ensures d.State() == SendEffect(d.ModeOf(), old(d.State()), op, fault)
  {
    match d
    case MockDevice(m) =>
      match op {
        case SendJoystick(front, side) => m.SendJoystick(front, side);
        case SendPowerOn => m.SendPowerOn();
        case SendPowerOff => m.SendPowerOff();
        case SendEmergencyStop => m.SendEmergencyStop();
      }
    case RealDevice(r) =>
      match op {
        case SendJoystick(front, side) => r.SendJoystick(front, side, fault);
        case SendPowerOn => r.SendPowerOn(fault);
        case SendPowerOff => r.SendPowerOff(fault);
        case SendEmergencyStop => r.SendEmergencyStop(fault);
      }
  }

  method Disconnect(d: Device, closeFault: Option<string>)
    modifies d.Repr()
    ensures d.State() == DisconnectEffect(d.ModeOf(), old(d.State()))
  {
    match d
    case MockDevice(m) => m.Disconnect();
    case RealDevice(r) => r.Disconnect(closeFault);
  }

  method Reconnect(d: Device, newPort: Option<string>, closeFault: Option<string>, openFault: Option<string>)
    returns (ok: bool)
    modifies d.Repr()
    ensures (d.State(), ok) == ReconnectEffect(d.ModeOf(), old(d.State()), newPort, closeFault, openFault)
  {
    match d
    case MockDevice(m) => ok := m.Reconnect(newPort);
    case RealDevice(r) => ok := r.Reconnect(newPort, closeFault, openFault);
  }

  /** The message the factory fails with when the hardware SDK cannot be imported. */
  const SdkMissing: string := "whill Python SDK is not installed."

  /**
   * `create_whill_device(port, use_mock)`: a simulated device, or a real one connected to
   * `port`. A real device cannot be made without the SDK or when the first connect fails;
   * the exception is returned as a `Failure` with its message.
   */
  method Create(port: string, useMock: bool, sdkInstalled: bool, openFault: Option<string>)
    returns (r: Result<Device, string>)
    ensures useMock ==> r.Success? && r.value.MockDevice?
    ensures !useMock && !sdkInstalled ==> r == Failure(SdkMissing)
    ensures !useMock && sdkInstalled && openFault.Some? ==> r == Failure(openFault.value)
    ensures !useMock && sdkInstalled && openFault.None? ==> r.Success? && r.value.RealDevice?
    ensures r.Success? ==> fresh(r.value.Repr()) && r.value.Valid()
    ensures r.Success? ==> r.value.IsConnected() && r.value.Port() == port && r.value.State().lastError.None?
  {
    if useMock {
      var m := new Mock.MockWhill(port);
      return Success(MockDevice(m));
    }
    if !sdkInstalled {
      return Failure(SdkMissing);
    }
    var device := new Real.RealWhill(port, openFault);
    if openFault.Some? {
      return Failure(openFault.value);
    }
    return Success(RealDevice(device));
  }
}
