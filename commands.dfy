/**
 * The decision the message callback makes: which actuator a command topic
 * names, whether the payload text is one of the two switch tokens, and
 * the actuator state that results.
 */
module Commands {
  import opened Messages

  /** A payload byte as the client hands it over. */
  newtype byte = x: int | 0 <= x < 256

  /** The character a payload byte is cast to. */
  function Char(b: byte): char
  {
    (b as int) as char
  }

  /**
   * The text the callback builds from the payload, one character appended
   * per byte: the bytes as characters, in order.
   */
  function AsText(bytes: seq<byte>): (text: string)
    ensures |text| == |bytes|
    ensures forall i :: 0 <= i < |bytes| ==> text[i] == Char(bytes[i])
  {
    if bytes == [] then "" else AsText(bytes[..|bytes| - 1]) + [Char(bytes[|bytes| - 1])]
  }

  /** Example: the ASCII payload bytes of the two tokens assemble to the tokens. */
  lemma TokenBytes()
    ensures AsText([116, 114, 117, 101]) == "true"
    ensures AsText([102, 97, 108, 115, 101]) == "false"
  {
  }

  /** The four actuators the firmware drives. */
  datatype Device = Servo | Light | Pump | Fan

  /**
   * The logical state of the outputs: the servo angle in degrees and the
   * level (HIGH is true) of the light, pump and fan pins.
   */
  datatype Actuators = Actuators(servo: int, light: bool, pump: bool, fan: bool)

  const SERVO_ON: int := 90
  const SERVO_OFF: int := 0

  /** The command topic that addresses a device. */
  function CommandTopic(d: Device): string
  {
    match d
    case Servo => SERVO_TOPIC
    case Light => LIGHT_TOPIC
    case Pump => PUMP_TOPIC
    case Fan => FAN_TOPIC
  }

  /** The device a topic addresses, if it is one of the four command topics. */
  function DeviceOf(topic: string): (r: Option<Device>)
    ensures forall d :: r == Some(d) <==> topic == CommandTopic(d)
  {
    if topic == SERVO_TOPIC then Some(Servo)
    else if topic == LIGHT_TOPIC then Some(Light)
    else if topic == PUMP_TOPIC then Some(Pump)
    else if topic == FAN_TOPIC then Some(Fan)
    else None
  }

  /** The switch value of a payload text: only the exact tokens count. */
  function ParseSwitch(message: string): (r: Option<bool>)
    ensures r == Some(true) <==> message == "true"
    ensures r == Some(false) <==> message == "false"
    ensures r == None <==> message != "true" && message != "false"
  {
    if message == "true" then Some(true)
    else if message == "false" then Some(false)
    else None
  }

  /** Device d is in its "on" position: servo at 90 degrees, pin HIGH. */
  predicate IsOn(a: Actuators, d: Device)
  {
    match d
    case Servo => a.servo == SERVO_ON
    case Light => a.light
    case Pump => a.pump
    case Fan => a.fan
  }

  /** Device d is in its "off" position: servo at 0 degrees, pin LOW. */
  predicate IsOff(a: Actuators, d: Device)
  {
    match d
    case Servo => a.servo == SERVO_OFF
    case Light => !a.light
    case Pump => !a.pump
    case Fan => !a.fan
  }

  /** Device d has the same output in a and b. */
  predicate Agree(a: Actuators, b: Actuators, d: Device)
  {
    match d
    case Servo => a.servo == b.servo
    case Light => a.light == b.light
    case Pump => a.pump == b.pump
    case Fan => a.fan == b.fan
  }

  /** Drive one device on or off and leave the other three alone. */
  function Switch(a: Actuators, d: Device, on: bool): (r: Actuators)
    ensures on ==> IsOn(r, d)
    ensures !on ==> IsOff(r, d)
    ensures forall e :: e != d ==> Agree(r, a, e)
  {
    match d
    case Servo => a.(servo := if on then SERVO_ON else SERVO_OFF)
    case Light => a.(light := on)
    case Pump => a.(pump := on)
    case Fan => a.(fan := on)
  }

  /**
   * The effect of one inbound message: a recognised topic with a recognised
   * token switches that device; anything else changes nothing.
   */
  function Handle(a: Actuators, topic: string, message: string): Actuators
  {
    match (DeviceOf(topic), ParseSwitch(message))
    case (Some(d), Some(on)) => Switch(a, d, on)
    case _ => a
  }

  lemma CommandTopicsDistinct(d: Device, e: Device)
    ensures CommandTopic(d) == CommandTopic(e) <==> d == e
  {
  }

  /** "true" on a device's topic turns that device on and only that device. */
  lemma TrueTurnsOn(a: Actuators, d: Device)
    ensures IsOn(Handle(a, CommandTopic(d), "true"), d)
    ensures forall e :: e != d ==> Agree(Handle(a, CommandTopic(d), "true"), a, e)
  {
  }

  /** "false" on a device's topic turns that device off and only that device. */
  lemma FalseTurnsOff(a: Actuators, d: Device)
    ensures IsOff(Handle(a, CommandTopic(d), "false"), d)
    ensures forall e :: e != d ==> Agree(Handle(a, CommandTopic(d), "false"), a, e)
  {
  }

  /** An unknown topic or a payload other than the two tokens is ignored. */
  lemma UnrecognisedIgnored(a: Actuators, topic: string, message: string)
    requires (forall d :: topic != CommandTopic(d)) || (message != "true" && message != "false")
    ensures Handle(a, topic, message) == a
  {
  }

  /** A message changes at most the device its topic names. */
  lemma OnlyNamedDeviceChanges(a: Actuators, topic: string, message: string, e: Device)
    requires topic != CommandTopic(e)
    ensures Agree(Handle(a, topic, message), a, e)
  {
  }

  /** Delivering the same message twice has the effect of delivering it once. */
  lemma HandleIdempotent(a: Actuators, topic: string, message: string)
    ensures Handle(Handle(a, topic, message), topic, message) == Handle(a, topic, message)
  {
  }

  /** "true" then "false" on the pump topic: the pump goes on, then off. */
  lemma PumpOnThenOff(a: Actuators)
    ensures Handle(a, PUMP_TOPIC, "true").pump
    ensures !Handle(Handle(a, PUMP_TOPIC, "true"), PUMP_TOPIC, "false").pump
  {
  }

  /** "maybe" on the light topic leaves every output as it was. */
  lemma MaybeIgnored(a: Actuators)
    ensures Handle(a, LIGHT_TOPIC, "maybe") == a
  {
  }
}
