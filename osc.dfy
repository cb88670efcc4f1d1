/**
 * The OSC side (osc/server.py, `WHILLOSCController`): four addresses, each mapped to its own
 * callback; the joystick callback checks its arity, reads side then front, clamps both and
 * forwards them; the power and stop callbacks forward their command and ignore their arguments.
 *
 * An OSC argument is taken after the scaling `int(round(x * 100))`: `Scaled(v)` is the integer
 * that scaling yields, `Unscalable` an argument on which it raises.
 */
module Osc {
  import opened Wrappers
  import opened Commands
  import Controller
  import Whill

  datatype Arg = Scaled(value: int) | Unscalable

  datatype Callback = JoystickCallback | PowerOnCallback | PowerOffCallback | EmergencyStopCallback

  const JoystickAddress: string := "/whill/joystick"
  const PowerOnAddress: string := "/whill/power_on"
  const PowerOffAddress: string := "/whill/power_off"
  const EmergencyStopAddress: string := "/whill/emergency_stop"

  /** The addresses `register_callbacks` maps. */
  const Addresses: set<string> := {JoystickAddress, PowerOnAddress, PowerOffAddress, EmergencyStopAddress}

  /** The callback the dispatcher runs for an address; an unmapped address runs none. */
  function Handler(address: string): (cb: Option<Callback>)
    ensures cb.Some? <==> address in Addresses
  {
    if address == JoystickAddress then Some(JoystickCallback)
    else if address == PowerOnAddress then Some(PowerOnCallback)
    else if address == PowerOffAddress then Some(PowerOffCallback)
    else if address == EmergencyStopAddress then Some(EmergencyStopCallback)
    else None
  }

  /** The command name each callback forwards. */
  function CommandOf(cb: Callback): string
  {
    match cb
    case JoystickCallback => "joystick"
    case PowerOnCallback => "power_on"
    case PowerOffCallback => "power_off"
    case EmergencyStopCallback => "emergency_stop"
  }

  /**
   * What a callback hands to `handle_osc_command`, or `None` where it forwards nothing (the
   * joystick callback with fewer than two arguments, or with one it cannot scale).
   */
  function Invoke(cb: Callback, args: seq<Arg>): (r: Option<Call>)
    ensures r.Some? ==> r.value.command == CommandOf(cb) && Controller.Dispatch(r.value).Some?
    ensures cb != JoystickCallback ==> r.Some? && r.value.params == map[]
    ensures cb == JoystickCallback ==> (r.Some? <==> |args| >= 2 && args[0].Scaled? && args[1].Scaled?)
    ensures cb == JoystickCallback && r.Some? ==>
      Controller.Dispatch(r.value) == Some(Whill.SendJoystick(Clamp(args[1].value), Clamp(args[0].value)))
  {
    match cb
    case JoystickCallback =>
      if |args| < 2 || !args[0].Scaled? || !args[1].Scaled? then None
      else
        var side := Clamp(args[0].value);
        var front := Clamp(args[1].value);
        Some(JoystickCall(front, side))
    case _ => Some(PlainCall(CommandOf(cb)))
  }

  /** A message at `address` with arguments `args`: the call it leads to, if any. */
  function Receive(address: string, args: seq<Arg>): Option<Call>
  {
    match Handler(address)
    case Some(cb) => Invoke(cb, args)
    case None => None
  }

  /** Exactly four addresses are mapped, to four different callbacks, and every callback has one. */
  lemma FourAddresses()
    ensures |Addresses| == 4
    ensures forall a, b :: a in Addresses && b in Addresses && Handler(a) == Handler(b) ==> a == b
    ensures forall cb: Callback :: exists a :: a in Addresses && Handler(a) == Some(cb)
  {
    forall cb: Callback ensures exists a :: a in Addresses && Handler(a) == Some(cb) {
      match cb
      case JoystickCallback => assert Handler(JoystickAddress) == Some(cb);
      case PowerOnCallback => assert Handler(PowerOnAddress) == Some(cb);
      case PowerOffCallback => assert Handler(PowerOffAddress) == Some(cb);
      case EmergencyStopCallback => assert Handler(EmergencyStopAddress) == Some(cb);
    }
  }

  /** The joystick address with fewer than two arguments leads to no controller call. */
  lemma JoystickNeedsTwoArgs(args: seq<Arg>)
    requires |args| < 2
    ensures Receive(JoystickAddress, args) == None
  {
  }

  /**
   * The first argument is side and the second front, each clamped into [-100, 100];
   * further arguments are ignored.
   */
  lemma JoystickSideThenFront(x: int, y: int, rest: seq<Arg>)
    ensures var r := Receive(JoystickAddress, [Scaled(x), Scaled(y)] + rest);
      && r.Some?
      && Controller.Dispatch(r.value) == Some(Whill.SendJoystick(Clamp(y), Clamp(x)))
      && -Limit <= Clamp(y) <= Limit && -Limit <= Clamp(x) <= Limit
  {
  }

  /** The power and stop addresses forward their own command with no parameters, whatever the arguments. */
  lemma PlainAddressesIgnoreArgs(args: seq<Arg>)
    ensures Receive(PowerOnAddress, args) == Some(PlainCall("power_on"))
    ensures Receive(PowerOffAddress, args) == Some(PlainCall("power_off"))
    ensures Receive(EmergencyStopAddress, args) == Some(PlainCall("emergency_stop"))
    ensures Controller.Dispatch(PlainCall("power_on")) == Some(Whill.SendPowerOn)
    ensures Controller.Dispatch(PlainCall("power_off")) == Some(Whill.SendPowerOff)
    ensures Controller.Dispatch(PlainCall("emergency_stop")) == Some(Whill.SendEmergencyStop)
  {
  }

  /**
   * Carries out an OSC message on the controller through `handle_osc_command`: the
   * device changes as the dispatched operation says, and not at all when no call is made.
   */
  method Deliver(controller: Controller.WhillController, address: string, args: seq<Arg>, fault: Option<string>)
    modifies controller.whill.Repr()
    ensures Receive(address, args).None? ==> controller.whill.State() == old(controller.whill.State())
    ensures Receive(address, args).Some? ==>
      var op := Controller.Dispatch(Receive(address, args).value);
      op.Some? &&
      controller.whill.State() == Whill.SendEffect(controller.whill.ModeOf(), old(controller.whill.State()), op.value, fault)
  {
    match Receive(address, args)
    case None =>
    case Some(call) =>
      controller.HandleOscCommand(call.command, call.params, fault);
  }
}
