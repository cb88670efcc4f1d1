/**
 * The state every WHILL device variant shares (whill/interface.py): a connection flag,
 * the serial port, the last error, and, for the real variant, the SDK handle and the
 * calls made through it.
 */
module Interface {
  import opened Wrappers

  /** The snapshot that `get_status` returns. */
  datatype Status = Status(connected: bool, port: string, mode: string, lastError: Option<string>)

  /** An open (or closed) serial connection made through the hardware SDK, with the port it was opened on. */
  datatype Handle = Handle(port: string, open: bool)

  /** A call from the device object into the hardware SDK. */
  datatype SdkCall =
    | Open(port: string)          // ComWHILL(port=...)
    | Close                       // com.close()
    | Joystick(front: int, side: int)
    | PowerOn
    | PowerOff

  /**
   * All fields of a device object. `handle` is the real variant's `_device`, and `sdkCalls`
   * records what reached the hardware; the simulated variant has neither.
   */
  datatype DeviceState = DeviceState(
    connected: bool,
    port: string,
    lastError: Option<string>,
    handle: Option<Handle>,
    sdkCalls: seq<SdkCall>)

  /**
   * The fields as the base constructor leaves them: not connected, empty port. The base
   * sets no error and no handle; each variant's constructor sets `lastError` (and the
   * real one `handle`) to `None`, which is the value used here.
   */
  function BaseState(): (s: DeviceState)
    ensures !s.connected && s.port == ""
    ensures s.lastError.None? && s.handle.None? && s.sdkCalls == []
  {
    DeviceState(false, "", None, None, [])
  }

  /**
   * The base `get_status`: the status built from the connection flag, the port and the
   * variant's mode, with no error at this level (each variant fills `lastError` in).
   */
  function BaseStatus(connected: bool, port: string, mode: string): (s: Status)
    ensures s.connected == connected && s.port == port && s.mode == mode
    ensures s.lastError.None?
  {
    Status(connected, port, mode, None)
  }
}
