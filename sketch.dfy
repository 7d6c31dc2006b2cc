/**
 * The firmware's mutable state and its three entry points: the message
 * callback, the reconnect loop and one pass of the main loop. The client
 * library, the clock and the sensors are inputs: whether the session is up,
 * the answers to connect attempts, the message the event pump delivers,
 * the clock reading and the sensor sample.
 */
module Sketch {
  import opened Messages
  import opened Commands
  import opened Sampling
  import Session

  /** A message the client's event pump hands to the callback. */
  datatype Inbound = Inbound(topic: string, payload: seq<byte>)

  /** Whether a pass of the main loop gets past the reconnect step. */
  predicate Proceeds(sessionUp: bool, attempts: seq<Session.Attempt>)
  {
    sessionUp || Session.Accepted(true) in attempts
  }

  class Firmware {
    // Actuator outputs: servo angle in degrees, light/pump/fan pin levels.
    var servo: int
    var light: bool
    var pump: bool
    var fan: bool
    // Clock reading at the last sampling burst.
    var lastMsg: U32
    // Last soil and light readings, kept between bursts.
    var soilMoisture: int
    var ldrValue: int
    // Everything asked of the client so far, in order.
    var log: seq<Event>

    function Outputs(): Actuators
      reads this
    {
      Actuators(servo, light, pump, fan)
    }

    /** State at the start of the main loop; the outputs' levels are given. */
    constructor (initial: Actuators)
      ensures Outputs() == initial
      ensures lastMsg == 0 && soilMoisture == 0 && ldrValue == 0
      ensures log == []
    {
      servo, light, pump, fan := initial.servo, initial.light, initial.pump, initial.fan;
      lastMsg := 0;
      soilMoisture, ldrValue := 0, 0;
      log := [];
    }

    /**
     * The message callback: joins the first `length` payload bytes into a
     * text and lets a command topic with an exact "true" or "false" drive
     * its actuator.
     */
    method Callback(topic: string, payload: seq<byte>, length: nat)
      requires length <= |payload|
      modifies this`servo, this`light, this`pump, this`fan
      ensures Outputs() == Handle(old(Outputs()), topic, AsText(payload[..length]))
    {
      var message: string := "";
      for i := 0 to length
        invariant message == AsText(payload[..i])
      {
        assert payload[..i + 1][..i] == payload[..i];
        message := message + [Char(payload[i])];
      }

      if topic == SERVO_TOPIC {
        if message == "true" {
          servo := SERVO_ON;
        } else if message == "false" {
          servo := SERVO_OFF;
        }
      }
      if topic == LIGHT_TOPIC {
        if message == "true" {
          light := true;
        } else if message == "false" {
          light := false;
        }
      }
      if topic == PUMP_TOPIC {
        if message == "true" {
          pump := true;
        } else if message == "false" {
          pump := false;
        }
      }
      if topic == FAN_TOPIC {
        if message == "true" {
          fan := true;
        } else if message == "false" {
          fan := false;
        }
      }
    }

    /**
     * One pass of the reconnect loop's body: a connect attempt, then the
     * greeting and subscribes if it is accepted or the pause if it is not.
     * `up` is what the loop condition's re-test of the session then reports.
     */
    method TryConnect(x: Session.Attempt) returns (up: bool)
      modifies this`log
      ensures up == (x == Session.Accepted(true))
      ensures log == old(log) + Session.AttemptLog(x)
    {
      match x {
        case Refused =>
          log := log + [Connect(false)];
          log := log + [Delay(Session.RETRY_DELAY)];
          up := false;
        case Accepted(holds) =>
          log := log + [Connect(true)];
          log := log + [Publish(WELCOME_TOPIC, Literal(WELCOME))];
          log := log + [Subscribe(SERVO_TOPIC)];
          log := log + [Subscribe(LIGHT_TOPIC)];
          log := log + [Subscribe(PUMP_TOPIC)];
          log := log + [Subscribe(FAN_TOPIC)];
          up := holds;
      }
    }

    /**
     * The reconnect loop, entered with the session down: passes until a
     * re-test finds the session up. If the answers run out first, the real
     * loop would still be retrying; the model stops there.
     */
    method Reconnect(attempts: seq<Session.Attempt>) returns (connected: bool)
      modifies this`log
      ensures connected == (Session.Accepted(true) in attempts)
      ensures log == old(log) + Session.ReconnectLog(attempts)
    {
      connected := false;
      var i := 0;
      ghost var log0 := log;
      while !connected && i < |attempts|
        invariant 0 <= i <= |attempts|
        invariant connected == (Session.Accepted(true) in attempts[..i])
        invariant log == log0 + Session.ReconnectLog(attempts[..i])
      {
        Session.ReconnectLogStep(attempts, i);
        connected := TryConnect(attempts[i]);
        i := i + 1;
      }
      Session.ReconnectLogDone(attempts, i);
    }

    /**
     * One pass of the main loop: reconnect if the session is down, let the
     * event pump deliver at most one message, and if more than INTERVAL
     * milliseconds have passed since the last burst, record the clock
     * reading and publish the four readings.
     */
    method Loop(sessionUp: bool, attempts: seq<Session.Attempt>, inbound: Option<Inbound>, now: U32, sample: Sample)
      modifies this
      ensures var burst := Proceeds(sessionUp, attempts) && Due(now, old(lastMsg));
        log == old(log) + (if sessionUp then [] else Session.ReconnectLog(attempts))
                        + (if burst then Burst(sample) else [])
      ensures Outputs() ==
        if Proceeds(sessionUp, attempts) && inbound.Some?
        then Handle(old(Outputs()), inbound.value.topic, AsText(inbound.value.payload))
        else old(Outputs())
      ensures lastMsg == if Proceeds(sessionUp, attempts) then Gate(now, old(lastMsg)) else old(lastMsg)
      ensures var burst := Proceeds(sessionUp, attempts) && Due(now, old(lastMsg));
        soilMoisture == (if burst then sample.soil else old(soilMoisture))
        && ldrValue == (if burst then sample.ldr else old(ldrValue))
    {
      var up := sessionUp;
      if !up {
        up := Reconnect(attempts);
      }
      if !up {
        // Still inside the reconnect loop: the rest of the pass has not begun.
        return;
      }

      // The event pump delivers at most one message to the callback.
      if inbound.Some? {
        var payload := inbound.value.payload;
        assert payload[..|payload|] == payload;
        Callback(inbound.value.topic, payload, |payload|);
      }

      if Due(now, lastMsg) {
        lastMsg := now;
        log := log + [Publish(TEMP_TOPIC, Reading(sample.temp))];
        log := log + [Publish(HUM_TOPIC, Reading(sample.hum))];
        soilMoisture := sample.soil;
        log := log + [Publish(SOIL_TOPIC, Reading(soilMoisture))];
        ldrValue := sample.ldr;
        log := log + [Publish(LDR_TOPIC, Reading(ldrValue))];
      }
    }
  }
}
