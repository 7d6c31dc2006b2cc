/**
 * The vocabulary the firmware shares with the broker: the fixed topic
 * strings, what a published payload carries, and the events the firmware
 * issues to the publish/subscribe client, recorded in order.
 */
module Messages {

  datatype Option<T> = None | Some(value: T)

  // Topic the firmware greets the broker on after each successful connect.
  const WELCOME_TOPIC: string := "/ThinkIOT/Publish"
  const WELCOME: string := "Welcome"

  // Command topics the firmware subscribes to and acts on.
  const SERVO_TOPIC: string := "/ThinkIOT/Servo"
  const LIGHT_TOPIC: string := "/ThinkIOT/Light"
  const PUMP_TOPIC: string := "/ThinkIOT/Pump"
  const FAN_TOPIC: string := "/ThinkIOT/Fan"

  // Telemetry topics of the sampling burst.
  const TEMP_TOPIC: string := "/ThinkIOT/temp"
  const HUM_TOPIC: string := "/ThinkIOT/hum"
  const SOIL_TOPIC: string := "/ThinkIOT/soil"
  const LDR_TOPIC: string := "/ThinkIOT/ldr"

  /** One sensor sample: the four readings of a sampling burst, kept abstract. */
  datatype Sample = Sample(temp: int, hum: int, soil: int, ldr: int)

  /**
   * A published payload: a fixed text, or the text form of a sensor reading
   * (the number formatting itself is not modelled).
   */
  datatype Payload = Literal(text: string) | Reading(value: int)

  /**
   * What the firmware asks of the client, in order: a connect attempt and
   * whether the broker accepted it, a publish, a subscribe, or a pause.
   */
  datatype Event =
    | Connect(accepted: bool)
    | Publish(topic: string, payload: Payload)
    | Subscribe(topic: string)
    | Delay(ms: nat)

  /** The welcome notice as published. */
  const GREETING: Event := Publish(WELCOME_TOPIC, Literal(WELCOME))

  /** Number of occurrences of event e in a log. */
  function Count(log: seq<Event>, e: Event): nat
  {
    if log == [] then 0
    else (if log[0] == e then 1 else 0) + Count(log[1..], e)
  }

  /** True when a log holds no publish and no subscribe. */
  predicate Silent(log: seq<Event>)
  {
    forall i :: 0 <= i < |log| ==> !log[i].Publish? && !log[i].Subscribe?
  }

  lemma {:induction false} CountAppend(a: seq<Event>, b: seq<Event>, e: Event)
    ensures Count(a + b, e) == Count(a, e) + Count(b, e)
  {
    if a == [] {
      assert a + b == b;
    } else {
      assert (a + b)[1..] == a[1..] + b;
      CountAppend(a[1..], b, e);
    }
  }
}
