/**
 * The two ingress adapters side by side: the same joystick input reaching the controller
 * over OSC (side first, front second) and over MQTT (`front,side`) becomes the same call.
 */
module Ingress {
  import Text
  import Osc
  import Mqtt
  import Commands
  import Wrappers

  /**
   * An OSC joystick message and the MQTT joystick message with the same values lead to one
   * call, for values whose decimal text `int()` accepts.
   */
  lemma JoystickIngressAgree(front: int, side: int)
    requires Text.Fits(front) && Text.Fits(side)
    ensures Osc.Receive(Osc.JoystickAddress, [Osc.Scaled(side), Osc.Scaled(front)]).Some?
    ensures Mqtt.Route(Mqtt.JoystickTopic, Text.Show(front) + "," + Text.Show(side), false)
            == Mqtt.Command(Osc.Receive(Osc.JoystickAddress, [Osc.Scaled(side), Osc.Scaled(front)]).value)
  {
    var call := Commands.JoystickCall(Commands.Clamp(front), Commands.Clamp(side));
    assert Osc.Handler(Osc.JoystickAddress) == Wrappers.Some(Osc.JoystickCallback);
    assert Osc.Receive(Osc.JoystickAddress, [Osc.Scaled(side), Osc.Scaled(front)]) == Wrappers.Some(call);
    Mqtt.JoystickRoundTrip(front, side);
  }
}
