/**
 * The normalised command call that both ingress adapters hand to the controller
 * (`handle_*_command(command, **kwargs)`), and the clamp both apply to joystick values.
 */
module Commands {

  /** The largest magnitude of a joystick value. */
  const Limit: int := 100

  /** A command name with its integer keyword arguments. */
  datatype Call = Call(command: string, params: map<string, int>)

  /** `max(min(v, 100), -100)`: saturate into [-100, 100]. */
  function Clamp(v: int): (r: int)
    ensures -Limit <= r <= Limit
    ensures -Limit <= v <= Limit ==> r == v
    ensures v > Limit ==> r == Limit
    ensures v < -Limit ==> r == -Limit
  {
    var upper := if v < Limit then v else Limit;
    if upper > -Limit then upper else -Limit
  }

  /** Clamping twice is clamping once. */
  lemma ClampIdempotent(v: int)
    ensures Clamp(Clamp(v)) == Clamp(v)
  {
  }

  /** The call `handle_*_command("joystick", front=..., side=...)`. */
  function JoystickCall(front: int, side: int): Call
  {
    Call("joystick", map["front" := front, "side" := side])
  }

  /** A command without parameters. */
  function PlainCall(command: string): Call
  {
    Call(command, map[])
  }
}
