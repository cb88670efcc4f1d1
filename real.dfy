/**
 * The hardware device (whill/real.py). Every call into the hardware SDK (`ComWHILL`) is
 * given an oracle: `None` when the call returns, `Some(msg)` when it raises an exception
 * whose text is `msg`. The pure functions below say what each operation does to the
 * fields; the methods of `RealWhill` are proved to do exactly that.
 */
module Real {
  import opened Wrappers
  import opened Interface

  /** The object invariant: while connected there is an open handle on the current port. */
  predicate Consistent(s: DeviceState)
  {
    s.connected ==> s.handle == Some(Handle(s.port, true))
  }

  /**
   * `_connect(port)`: open the SDK on `p`. On success the object is connected to `p`
   * with no error; on failure it is disconnected, records the message, keeps its old
   * port and handle, and the exception is passed on (`raised`).
   */
  function AfterConnect(s: DeviceState, p: string, openFault: Option<string>): (r: (DeviceState, Option<string>))
    ensures r.1 == openFault
    ensures r.0.sdkCalls == s.sdkCalls + [Open(p)]
    ensures openFault.None? ==>
      r.0.connected && r.0.port == p && r.0.lastError.None? && r.0.handle == Some(Handle(p, true))
    ensures openFault.Some? ==>
      !r.0.connected && r.0.port == s.port && r.0.lastError == openFault && r.0.handle == s.handle
    ensures Consistent(r.0)
  {
    var attempted := s.(sdkCalls := s.sdkCalls + [Open(p)]);
    if openFault.None? then
      (attempted.(handle := Some(Handle(p, true)), connected := true, port := p, lastError := None), None)
    else
      (attempted.(connected := false, lastError := openFault), openFault)
  }

  /** Whether a `send_*` reaches the SDK: only while connected and holding a handle. */
  predicate CanSend(s: DeviceState)
  {
    s.connected && s.handle.Some?
  }

  /**
   * A `send_*` that issues `call`: a no-op when the guard fails; otherwise the call reaches
   * the SDK, and a fault disconnects the object and records the message without raising.
   * The port and the handle never change.
   */
  function AfterSend(s: DeviceState, call: SdkCall, fault: Option<string>): (t: DeviceState)
    ensures !CanSend(s) ==> t == s
    ensures CanSend(s) ==> t.sdkCalls == s.sdkCalls + [call]
    ensures t.port == s.port && t.handle == s.handle
    ensures t.connected <==> s.connected && (!CanSend(s) || fault.None?)
    ensures t.lastError == (if CanSend(s) && fault.Some? then fault else s.lastError)
    ensures Consistent(s) ==> Consistent(t)
  {
    if !CanSend(s) then s
    else
      var sent := s.(sdkCalls := s.sdkCalls + [call]);
      if fault.None? then sent else sent.(connected := false, lastError := fault)
  }

  /**
   * `disconnect`: nothing happens without a handle; otherwise the port is closed (a failure
   * to close is only logged) and the handle dropped, and the object is disconnected.
   */
  function AfterDisconnect(s: DeviceState): (t: DeviceState)
    ensures s.handle.None? ==> t == s
    ensures s.handle.Some? ==> t.sdkCalls == s.sdkCalls + [Close] && !t.connected
    ensures t.handle.None? && t.port == s.port && t.lastError == s.lastError
    ensures Consistent(s) ==> !t.connected && Consistent(t)
  {
    if s.handle.None? then s
    else s.(sdkCalls := s.sdkCalls + [Close], connected := false, handle := None)
  }

  /**
   * The first step of `reconnect`: close the existing handle, if any. The handle is kept
   * (it is not set to `None`); it is known to be closed only when closing did not fail.
   */
  function AfterClose(s: DeviceState, closeFault: Option<string>): (t: DeviceState)
    ensures t.connected == s.connected && t.port == s.port && t.lastError == s.lastError
    ensures t.handle.Some? <==> s.handle.Some?
    ensures s.handle.Some? ==> t.handle.value.port == s.handle.value.port
    ensures s.handle.Some? ==> (t.handle.value.open <==> s.handle.value.open && closeFault.Some?)
    ensures t.sdkCalls == s.sdkCalls + (if s.handle.Some? then [Close] else [])
  {
    if s.handle.None? then s
    else
      var closed := if closeFault.None? then s.handle.value.(open := false) else s.handle.value;
      s.(sdkCalls := s.sdkCalls + [Close], handle := Some(closed))
  }

  /** The port `reconnect` opens: the given one, else the current one. */
  function Target(s: DeviceState, newPort: Option<string>): string
  {
    if newPort.Some? then newPort.value else s.port
  }

  /**
   * `reconnect(port?)`: close the old handle, then connect to the target port. The result
   * is true exactly when opening succeeds; on failure the object is disconnected, the
   * message recorded, the port unchanged, and nothing is raised.
   */
  function AfterReconnect(s: DeviceState, newPort: Option<string>, closeFault: Option<string>, openFault: Option<string>)
    : (r: (DeviceState, bool))
    ensures r.1 <==> openFault.None?
    ensures r.1 ==>
      var p := if newPort.Some? then newPort.value else s.port;
      r.0.connected && r.0.port == p && r.0.lastError.None? && r.0.handle == Some(Handle(p, true))
    ensures !r.1 ==> !r.0.connected && r.0.port == s.port && r.0.lastError == openFault
    ensures r.0.sdkCalls == s.sdkCalls + (if s.handle.Some? then [Close] else []) + [Open(Target(s, newPort))]
    ensures Consistent(r.0)
  {
    var connected := AfterConnect(AfterClose(s, closeFault), Target(s, newPort), openFault);
    (connected.0, connected.1.None?)
  }

  class RealWhill {
    var connected: bool
    var port: string
    var lastError: Option<string>
    /** The SDK object `_device`; `None` before the first connect and after `disconnect`. */
    var device: Option<Handle>
    /** The calls this object has made into the SDK. */
    ghost var sdkCalls: seq<SdkCall>

    ghost function State(): DeviceState
      reads this
    {
      DeviceState(connected, port, lastError, device, sdkCalls)
    }

    ghost predicate Valid()
      reads this
    {
      Consistent(State())
    }

    /**
     * Starts from the base fields, records the port, and connects. When connecting fails
     * the constructor raises; `Whill.Create` reports that as a `Failure`.
     */
    constructor (port: string, openFault: Option<string>)
      ensures Valid()
      ensures State() == AfterConnect(BaseState().(port := port), port, openFault).0
    {
      var base := BaseState();
      connected, this.port := base.connected, base.port;
      this.port := port;
      device := None;
      lastError := None;
      sdkCalls := [];
      new;
      var _ := Connect(port, openFault);
    }

    /** `_connect`: the exception it re-raises is returned as `raised`. */
    method Connect(p: string, openFault: Option<string>) returns (raised: Option<string>)
      modifies this
      ensures (State(), raised) == AfterConnect(old(State()), p, openFault)
    {
      sdkCalls := sdkCalls + [Open(p)];
      if openFault.None? {
        device := Some(Handle(p, true));
        connected := true;
        port := p;
        lastError := None;
        raised := None;
      } else {
        connected := false;
        lastError := openFault;
        raised := openFault;
      }
    }

    /** The body shared by the four `send_*` methods, which differ only in the SDK call. */
    method Send(call: SdkCall, fault: Option<string>)
      modifies this
      ensures State() == AfterSend(old(State()), call, fault)
    {
      if !connected || device.None? {
        return;
      }
      sdkCalls := sdkCalls + [call];
      if fault.Some? {
        connected := false;
        lastError := fault;
      }
    }

    method SendJoystick(front: int, side: int, fault: Option<string>)
      modifies this
      ensures State() == AfterSend(old(State()), Joystick(front, side), fault)
    {
      Send(Joystick(front, side), fault);
    }

    method SendPowerOn(fault: Option<string>)
      modifies this
      ensures State() == AfterSend(old(State()), PowerOn, fault)
    {
      Send(PowerOn, fault);
    }

    method SendPowerOff(fault: Option<string>)
      modifies this
      ensures State() == AfterSend(old(State()), PowerOff, fault)
    {
      Send(PowerOff, fault);
    }

    /** Not a hardware primitive of its own: the SDK joystick call with front 0 and side 0. */
    method SendEmergencyStop(fault: Option<string>)
      modifies this
      ensures State() == AfterSend(old(State()), Joystick(0, 0), fault)
    {
      Send(Joystick(0, 0), fault);
    }

    /** Closing may fail (`closeFault`); the outcome is the same either way. */
    method Disconnect(closeFault: Option<string>)
      modifies this
      ensures State() == AfterDisconnect(old(State()))
    {
      if device.None? {
        return;
      }
      sdkCalls := sdkCalls + [Close];
      connected := false;
      device := None;
    }

    method Reconnect(newPort: Option<string>, closeFault: Option<string>, openFault: Option<string>)
      returns (ok: bool)
      modifies this
      ensures (State(), ok) == AfterReconnect(old(State()), newPort, closeFault, openFault)
    {
      if device.Some? {
        sdkCalls := sdkCalls + [Close];
        if closeFault.None? {
          device := Some(device.value.(open := false));
        }
      }
      var target := if newPort.Some? then newPort.value else port;
      var raised := Connect(target, openFault);
      if raised.Some? {
        connected := false;
        lastError := raised;
        ok := false;
      } else {
        ok := true;
      }
    }

    function GetMode(): (mode: string)
      ensures mode == "real"
    {
      "real"
    }

    /** The base status with the recorded error filled in. */
    function GetStatus(): (s: Status)
      reads this
      ensures s.connected == connected && s.port == port && s.mode == "real"
      ensures s.lastError == lastError
    {
      BaseStatus(connected, port, GetMode()).(lastError := lastError)
    }
  }
}
