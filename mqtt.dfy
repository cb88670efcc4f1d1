/**
 * The MQTT side (mqtt/client.py): routing of received messages to controller calls,
 * the status payload `publish_status` sends, and the last-will payload registered with
 * the broker. The transport itself is not modelled; `now` stands for the timestamp.
 */
module Mqtt {
  import opened Wrappers
  import opened Interface
  import opened Commands
  import opened Text
  import Controller
  import Whill

  /** What a received message leads to. */
  datatype Action = Ignore | Command(call: Call) | ChangePort(port: string)

  /** Retained messages under this prefix are never executed. */
  const CommandPrefix: string := "whill/commands/"
  const JoystickTopic: string := CommandPrefix + "joystick"
  const ChangePortTopic: string := "whill/ctrl/" + "serial/change_port"

  /** A joystick payload: exactly two integers `front,side`, each clamped; `None` where parsing raises. */
  function JoystickPayload(payload: string): (r: Option<Call>)
    ensures r.Some? <==> |Split(payload, ',')| == 2
                         && ParseInt(Split(payload, ',')[0]).Some? && ParseInt(Split(payload, ',')[1]).Some?
    ensures r.Some? ==> r.value == JoystickCall(Clamp(ParseInt(Split(payload, ',')[0]).value),
                                                Clamp(ParseInt(Split(payload, ',')[1]).value))
  {
    var values := Split(payload, ',');
    if |values| != 2 then None
    else
      match (ParseInt(values[0]), ParseInt(values[1]))
      case (Some(front), Some(side)) => Some(JoystickCall(Clamp(front), Clamp(side)))
      case _ => None
  }

  /**
   * `_process_message`: drop retained commands and topics of fewer than three segments;
   * `whill/commands/<name>` becomes the command `<name>` (the joystick only with a valid
   * payload, the others whatever the payload); `whill/ctrl/serial/change_port` changes the
   * port to the stripped payload; everything else is dropped.
   */
  function Route(topic: string, payload: string, retain: bool): (a: Action)
    ensures retain && StartsWith(topic, CommandPrefix) ==> a == Ignore
    ensures |Split(topic, '/')| < 3 ==> a == Ignore
  {
    if retain && StartsWith(topic, CommandPrefix) then Ignore
    else RouteParts(Split(topic, '/'), Strip(payload))
  }

  /** The routing of a message that is not a retained command, by topic segments and stripped payload. */
  function RouteParts(parts: seq<string>, p: string): (a: Action)
    ensures a.Command? ==>
      && |parts| >= 3 && parts[0] == "whill" && parts[1] == "commands" && parts[2] == a.call.command
      && a.call.command in Controller.KnownCommands
      && (a.call.command == "joystick" ==> Some(a.call) == JoystickPayload(p))
      && (a.call.command != "joystick" ==> a.call.params == map[])
    ensures a.ChangePort? ==> |parts| >= 4 && parts[..4] == ["whill", "ctrl", "serial", "change_port"] && a.port == p
  {
    if |parts| < 3 then Ignore
    else if parts[0] == "whill" && parts[1] == "commands" then CommandAction(parts[2], p)
    else if parts[0] == "whill" && parts[1] == "ctrl" then
      if |parts| >= 4 && parts[2] == "serial" && parts[3] == "change_port" then ChangePort(p) else Ignore
    else Ignore
  }

  /** The command a `whill/commands/<command>` message sends. */
  function CommandAction(command: string, p: string): Action
  {
    if command == "joystick" then
      match JoystickPayload(p)
      case Some(call) => Command(call)
      case None => Ignore
    else if command == "power_on" || command == "power_off" || command == "emergency_stop" then
      Command(PlainCall(command))
    else Ignore
  }

  /**
   * A command is sent only for `whill/commands/<name>` with a known name, and carries the
   * parameters of its kind: the parsed joystick payload, or none.
   */
  lemma CommandShape(topic: string, payload: string, retain: bool)
    ensures var a := Route(topic, payload, retain);
      a.Command? ==>
        var parts := Split(topic, '/');
        && |parts| >= 3 && parts[0] == "whill" && parts[1] == "commands" && parts[2] == a.call.command
        && a.call.command in Controller.KnownCommands
        && (a.call.command == "joystick" ==> Some(a.call) == JoystickPayload(Strip(payload)))
        && (a.call.command != "joystick" ==> a.call.params == map[])
  {
    var parts := Split(topic, '/');
    if !(retain && StartsWith(topic, CommandPrefix)) {
      assert Route(topic, payload, retain) == RouteParts(parts, Strip(payload));
    }
  }

  /** A port change is asked for only by `whill/ctrl/serial/change_port[/...]`, with the stripped payload. */
  lemma ChangePortShape(topic: string, payload: string, retain: bool)
    ensures var a := Route(topic, payload, retain);
      a.ChangePort? ==>
        var parts := Split(topic, '/');
        |parts| >= 4 && parts[..4] == ["whill", "ctrl", "serial", "change_port"] && a.port == Strip(payload)
  {
    var parts := Split(topic, '/');
    if !(retain && StartsWith(topic, CommandPrefix)) {
      assert Route(topic, payload, retain) == RouteParts(parts, Strip(payload));
    }
  }

  /** The segments of `whill/commands/<name>`, for a name without `/`. */
  lemma CommandTopicParts(name: string)
    requires '/' !in name
    ensures Split(CommandPrefix + name, '/') == ["whill", "commands", name]
  {
    var parts := ["whill", "commands", name];
    assert parts[1..][1..] == [name];
    assert Join(parts[1..], '/') == "commands" + "/" + name;
    assert Join(parts, '/') == CommandPrefix + name;
    SplitJoin(parts, '/');
  }

  /** An unretained `whill/commands/<name>` message, for a name without `/`, is routed by its name alone. */
  lemma CommandRouted(name: string, payload: string)
    requires '/' !in name
    ensures Route(CommandPrefix + name, payload, false) == CommandAction(name, Strip(payload))
  {
    CommandTopicParts(name);
  }

  /** A retained message under `whill/commands/` is never executed, whatever its payload. */
  lemma RetainedCommandIgnored(name: string, payload: string)
    ensures Route(CommandPrefix + name, payload, true) == Ignore
  {
    assert (CommandPrefix + name)[..|CommandPrefix|] == CommandPrefix;
  }

  /** The payload `str(front),str(side)` is read back as the clamped pair. */
  lemma JoystickPayloadOfShow(front: int, side: int)
    ensures JoystickPayload(Strip(Show(front) + "," + Show(side)))
            == if Fits(front) && Fits(side) then Some(JoystickCall(Clamp(front), Clamp(side))) else None
  {
    var payload := Show(front) + "," + Show(side);
    ShowShape(front);
    ShowShape(side);
    assert payload[0] == Show(front)[0] && payload[|payload| - 1] == Show(side)[|Show(side)| - 1];
    assert Strip(payload) == payload;
    SplitAfterFree(Show(front), Show(side), ',');
    SplitFree(Show(side), ',');
    assert Split(payload, ',') == [Show(front), Show(side)];
    ParseShow(front);
    ParseShow(side);
  }

  /**
   * A joystick message `str(front),str(side)` sends the clamped front and side; a value
   * beyond the digit limit makes `int()` raise, and nothing is sent.
   */
  lemma JoystickRoundTrip(front: int, side: int)
    ensures Route(JoystickTopic, Show(front) + "," + Show(side), false)
            == if Fits(front) && Fits(side) then Command(JoystickCall(Clamp(front), Clamp(side))) else Ignore
  {
    CommandRouted("joystick", Show(front) + "," + Show(side));
    JoystickPayloadOfShow(front, side);
  }

  /**
   * `strip()` removes a trailing `\x1c` from the payload, but one inside it stays with its
   * value, and `int()` rejects it: `5\x1c,3` sends nothing.
   */
  lemma SeparatorInsidePayloadIgnored()
    ensures Route(JoystickTopic, "5\U{1C},3", false) == Ignore
  {
    var payload := "5\U{1C}" + "," + "3";
    assert payload == "5\U{1C},3";
    assert Strip(payload) == payload;
    assert JoystickPayload(payload) == None by {
      SplitAfterFree("5\U{1C}", "3", ',');
      SplitFree("3", ',');
      IntSkipsLessThanStrip();
    }
    JoystickRouted(payload, false);
  }

  /**
   * The joystick topic sends the parsed payload when it is two integers, and nothing when
   * the message is retained or the payload is malformed.
   */
  lemma JoystickRouted(payload: string, retain: bool)
    ensures Route(JoystickTopic, payload, retain)
      == (if retain || JoystickPayload(Strip(payload)).None? then Ignore else Command(JoystickPayload(Strip(payload)).value))
  {
    if retain {
      RetainedCommandIgnored("joystick", payload);
    } else {
      CommandRouted("joystick", payload);
    }
  }

  /** The power and stop topics send their command with no parameters, whatever the payload. */
  lemma PlainCommandsIgnorePayload(name: string, payload: string)
    requires name in {"power_on", "power_off", "emergency_stop"}
    ensures Route(CommandPrefix + name, payload, false) == Command(PlainCall(name))
  {
    CommandRouted(name, payload);
  }

  /** An unknown name under `whill/commands` sends nothing. */
  lemma UnknownCommandIgnored(name: string, payload: string, retain: bool)
    requires '/' !in name && name !in Controller.KnownCommands
    ensures Route(CommandPrefix + name, payload, retain) == Ignore
  {
    CommandTopicParts(name);
  }

  /** The segments of `whill/ctrl/serial/change_port`. */
  lemma ChangePortTopicParts()
    ensures Split(ChangePortTopic, '/') == ["whill", "ctrl", "serial", "change_port"]
    ensures !StartsWith(ChangePortTopic, CommandPrefix)
  {
    var parts := ["whill", "ctrl", "serial", "change_port"];
    assert parts[1..][1..][1..] == ["change_port"];
    assert Join(parts[1..][1..], '/') == "serial" + "/" + "change_port";
    assert Join(parts[1..], '/') == "ctrl" + "/" + "serial/change_port";
    assert Join(parts, '/') == ChangePortTopic;
    SplitJoin(parts, '/');
    assert ChangePortTopic[7] != CommandPrefix[7];
  }

  /** The port-change topic asks for the stripped payload as the new port, retained or not. */
  lemma ChangePortRouted(payload: string, retain: bool)
    ensures Route(ChangePortTopic, payload, retain) == ChangePort(Strip(payload))
  {
    ChangePortTopicParts();
    assert Route(ChangePortTopic, payload, retain)
        == RouteParts(["whill", "ctrl", "serial", "change_port"], Strip(payload));
  }

  /**
   * Carries out a received message on the controller: the command through
   * `handle_mqtt_command`, or the port change through `change_port`.
   */
  method ProcessMessage(controller: Controller.WhillController, topic: string, payload: string, retain: bool,
                        fault: Option<string>, closeFault: Option<string>, openFault: Option<string>)
    modifies controller.whill.Repr()
    ensures Route(topic, payload, retain) == Ignore ==> controller.whill.State() == old(controller.whill.State())
    ensures Route(topic, payload, retain).Command? ==>
      var op := Controller.Dispatch(Route(topic, payload, retain).call);
      op.Some? &&
      controller.whill.State() == Whill.SendEffect(controller.whill.ModeOf(), old(controller.whill.State()), op.value, fault)
    ensures Route(topic, payload, retain).ChangePort? ==>
      controller.whill.State() == Whill.ReconnectEffect(controller.whill.ModeOf(), old(controller.whill.State()),
                                                        Some(Route(topic, payload, retain).port), closeFault, openFault).0
  {
    match Route(topic, payload, retain)
    case Ignore =>
    case Command(call) =>
      controller.HandleMqttCommand(call.command, call.params, fault);
    case ChangePort(port) =>
      var _ := controller.ChangePort(port, closeFault, openFault);
  }

  // ---------------------------------------------------------------------------------
  // Status payloads

  /** The JSON values a status payload holds. */
  datatype Json = JBool(b: bool) | JString(s: string) | JNull

  /**
   * `publish_status(force_offline)`: with no broker client nothing is published; otherwise
   * the device status, with `connected` forced to false when asked, and `last_update`.
   */
  function PublishStatus(hasClient: bool, status: Status, forceOffline: bool, now: string): (r: Option<map<string, Json>>)
    ensures r.Some? <==> hasClient
    ensures r.Some? ==> r.value.Keys == {"connected", "port", "mode", "last_error", "last_update"}
    ensures r.Some? ==> r.value["connected"] == JBool(status.connected && !forceOffline)
    ensures r.Some? ==> r.value["port"] == JString(status.port) && r.value["mode"] == JString(status.mode)
    ensures r.Some? ==> r.value["last_error"] == (if status.lastError.Some? then JString(status.lastError.value) else JNull)
    ensures r.Some? ==> r.value["last_update"] == JString(now)
  {
    if !hasClient then None
    else
      var lastError := if status.lastError.Some? then JString(status.lastError.value) else JNull;
      var published := map["connected" := JBool(status.connected), "port" := JString(status.port),
                            "mode" := JString(status.mode), "last_error" := lastError];
      var published := if forceOffline then published["connected" := JBool(false)] else published;
      Some(published["last_update" := JString(now)])
  }

  /** The last-will payload: offline, with the current port and mode, and no `last_error`. */
  function WillPayload(port: string, mode: string, now: string): (w: map<string, Json>)
    ensures w.Keys == {"connected", "port", "mode", "last_update"}
    ensures w["connected"] == JBool(false) && w["port"] == JString(port) && w["mode"] == JString(mode)
    ensures w["last_update"] == JString(now)
  {
    map["connected" := JBool(false), "port" := JString(port), "mode" := JString(mode), "last_update" := JString(now)]
  }

  /**
   * The forced-offline status a graceful shutdown publishes and the will the broker sends on
   * an abrupt disconnect agree on everything but `last_error`, which only the former carries.
   */
  lemma ForcedOfflineMatchesWill(d: Whill.Device, now: string)
    ensures "last_error" in PublishStatus(true, d.GetStatus(), true, now).value
    ensures PublishStatus(true, d.GetStatus(), true, now).value - {"last_error"} == WillPayload(d.Port(), d.GetMode(), now)
  {
    var published := PublishStatus(true, d.GetStatus(), true, now).value;
    var will := WillPayload(d.Port(), d.GetMode(), now);
    assert (published - {"last_error"}).Keys == will.Keys;
  }
}
