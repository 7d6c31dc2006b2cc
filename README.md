# ThinkIOT sensor/actuator sketch — a Dafny model

The sketch runs on an ESP32. It samples temperature, humidity, soil moisture
and ambient light, and publishes the readings to an MQTT broker. It also
takes commands on four MQTT topics that drive a servo, a light, a pump and a
fan. This project models the decision logic of `src/main.cpp` and proves
properties of it:

- the message callback: it joins the payload bytes into text and dispatches
  on exact topic and token equality;
- the reconnect loop: it retries connect attempts, then greets the broker
  and subscribes to the four command topics;
- one pass of the main loop: reconnect, event pump, then the 32-bit
  sampling timer gate and its burst of four publishes.

Hardware and network effects are abstracted. The actuators are logical
state. Each connect attempt, publish and subscribe the firmware issues, and
each retry pause, is an event appended to a log. The client's answers
(`connected()`, the outcome of `connect`, what `loop()` delivers) and the
other readings are inputs, supplied as parameters:

- whether `client.connected()` holds at the top of `loop`;
- for each pass of the reconnect loop, whether the broker refuses the connect or accepts it, and, after an acceptance, whether the loop's re-test of `client.connected()` finds the session up (`Session.Attempt`);
- the message the event pump delivers, if any;
- the `millis()` reading;
- the sensor sample.

Modules:

- `Messages` (messages.dfy): topic constants, payloads, the event type, and counting over logs.
- `Commands` (commands.dfy): payload bytes to text, topic and token recognition, and the actuator effect `Handle`.
- `Sampling` (sampling.dfy): unsigned 32-bit elapsed time, the gate `Due`, the burst, and lemmas over runs of loop passes.
- `Session` (session.dfy): the event log of the reconnect loop for a given sequence of answers from the client.
- `Sketch` (sketch.dfy): class `Firmware`. It holds the sketch's global state: the four outputs, `lastMsg`, `soilMoisture`, `ldrValue` and the event log. Its methods are `Callback`, `TryConnect` (one pass of the reconnect loop's body), `Reconnect` and `Loop`. Each method's postcondition ties the new state to the functions above.

The sampling gate is strict (`now - lastMsg > 2000`, main.cpp:166): exactly
2000 ms after a burst it does not fire (`Sampling.IntervalIsExclusive`). The
subtraction is unsigned 32-bit and wraps modulo 2^32 (`Sampling.Elapsed`).

## Model

| member | source | states |
|---|---|---|
| Commands.AsText | src/main.cpp:60-64 | the text built from the payload has one character per byte, and character i is byte i cast to `char`, in order |
| Commands.TokenBytes | src/main.cpp:61-64 | a sanity example for `AsText`: the ASCII bytes of `true` and `false` assemble to exactly the texts the callback compares against |
| Commands.DeviceOf | src/main.cpp:68-101 | a topic names device d exactly when it equals d's command topic (both directions); every other topic names no device |
| Commands.ParseSwitch | src/main.cpp:69-72 | the payload is on only when it is exactly "true" and off only when it is exactly "false"; every other text is unrecognised |
| Commands.Switch | src/main.cpp:70-106 | switching a device on puts it in its on position (servo 90 degrees, pin HIGH); off puts it in its off position (servo 0, pin LOW); the other three devices keep their outputs |
| Commands.Handle | src/main.cpp:68-109 | the actuator effect of one message: no contract of its own; its properties are the rows `TrueTurnsOn`, `FalseTurnsOff`, `UnrecognisedIgnored`, `OnlyNamedDeviceChanges` and `HandleIdempotent`, and `Sketch.Firmware.Callback` proves the source's four branches equal to it |
| Commands.CommandTopicsDistinct | src/main.cpp:68-101 | the four command topics are pairwise different, so at most one of the four branches can match |
| Commands.TrueTurnsOn | src/main.cpp:68-109 | "true" on a device's topic leaves that device on and every other device unchanged |
| Commands.FalseTurnsOff | src/main.cpp:68-109 | "false" on a device's topic leaves that device off and every other device unchanged |
| Commands.UnrecognisedIgnored | src/main.cpp:68-109 | a topic that is none of the four, or a payload other than the two exact tokens, leaves every actuator unchanged |
| Commands.OnlyNamedDeviceChanges | src/main.cpp:68-109 | a message never changes a device whose topic it does not carry |
| Commands.HandleIdempotent | src/main.cpp:68-109 | handling the same topic and payload twice gives the same outputs as handling them once |
| Commands.PumpOnThenOff | src/main.cpp:90-98 | "true" then "false" on the pump topic turns the pump on, then off |
| Commands.MaybeIgnored | src/main.cpp:79-87 | "maybe" on the light topic leaves every output as it was |
| Sampling.Elapsed | src/main.cpp:165-166 | `now - lastMsg` on unsigned long is the unique 32-bit value d with (lastMsg + d) mod 2^32 = now: the plain difference without a wrap, and 2^32 - lastMsg + now after one |
| Sampling.Due | src/main.cpp:166 | the gate `now - lastMsg > 2000` on the wrapped difference: no contract of its own; its properties are the rows `DueCases`, `IntervalIsExclusive`, `StartupQuiet` and `GateFollowsUptime` |
| Sampling.Gate | src/main.cpp:166-167 | `lastMsg` after a pass through the gate (set to `now` when it fires, kept otherwise): no contract of its own; `LastHoldsPreviousBurst` and `NextBurst` state what it does over a run of passes |
| Sampling.Millis | src/main.cpp:165 | the `millis()` reading at an uptime, wrapping at 2^32: no contract of its own; `ElapsedIsUptime` and `GateFollowsUptime` relate it to true uptime |
| Sampling.DueCases | src/main.cpp:166 | the gate fires exactly when the difference, in plain terms with or without a clock wrap, exceeds 2000 |
| Sampling.IntervalIsExclusive | src/main.cpp:166 | exactly 2000 ms after the last burst the gate does not fire; 2001 ms after it, it does (modulo 2^32) |
| Sampling.StartupQuiet | src/main.cpp:165-166 | with `lastMsg` at its initial 0 (line 27), the first burst fires exactly when the clock passes 2000 |
| Sampling.ElapsedIsUptime | src/main.cpp:165-166 | when less than 2^32 ms of uptime separate two `millis()` readings, their wrapped difference is the true elapsed time |
| Sampling.GateFollowsUptime | src/main.cpp:165-166 | under the same condition the gate fires exactly when more than 2000 ms of true uptime have passed, across a clock wrap too |
| Sampling.LastHoldsPreviousBurst | src/main.cpp:166-167 | over a run of loop passes, after a burst and none since, `lastMsg` holds that burst's clock reading |
| Sampling.NextBurst | src/main.cpp:166-167 | between consecutive bursts, the next one fires at a pass exactly when its clock reading is more than 2000 past the previous burst's: no double fire, no skipped pass |
| Sampling.Burst | src/main.cpp:170-184 | the four publishes of a burst: no contract of its own; its properties are the rows `BurstShape` and `BurstRoundTrip` |
| Sampling.BurstShape | src/main.cpp:170-184 | a burst is exactly four publishes of one reading each, on temp, hum, soil and ldr in that order |
| Sampling.BurstRoundTrip | src/main.cpp:170-184 | a subscriber reading the four burst messages back recovers the four abstract readings of the sample (the formatted text of temperature and humidity is rounded on the device; formatting is not modelled) |
| Session.SessionStart | src/main.cpp:119-125 | the welcome publish followed by the four subscribes, Servo, Light, Pump, Fan, in that order: no contract of its own; `SubscribesCommandTopics` states its subscribes are exactly the command topics |
| Session.AttemptLog | src/main.cpp:117-131 | the events of one pass of the loop body: the accepted connect, the welcome and the four subscribes, or the refused connect and the 5000 ms pause: no contract of its own; `Sketch.Firmware.TryConnect` proves the loop body equal to it, and `ReconnectLogStep` and `AttemptLogCounts` state its properties |
| Session.ReconnectLog | src/main.cpp:113-131 | the reconnect loop's events pass by pass until a re-test finds the session up: no contract of its own; its properties are the rows `ReconnectLogAppend`, `RefusalsSilent`, `GreetedOncePerAccept`, `WelcomeOnce` and the two scenarios, and `Sketch.Firmware.Reconnect` proves the loop equal to it |
| Session.ReconnectLogAppend | src/main.cpp:113-131 | the log of a run of passes splits at any point, and nothing is logged after the pass whose re-test finds the session up |
| Session.ReconnectLogStep | src/main.cpp:113-131 | while no pass so far has left the session up, the next pass appends exactly its own events, and the session is up after it exactly when it was accepted and held |
| Session.ReconnectLogDone | src/main.cpp:113 | once a re-test finds the session up, or the answers run out, the passes made so far are the whole log |
| Session.RefusalsSilent | src/main.cpp:117-131 | refused attempts log, each in turn, a refused connect then a 5000 ms pause (two events per refusal), and publish and subscribe nothing |
| Session.AttemptLogCounts | src/main.cpp:117-131 | one pass logs the welcome exactly once if its connect is accepted and never otherwise, and likewise exactly one accepted connect |
| Session.GreetedOncePerAccept | src/main.cpp:117-119 | every accepted connect of the reconnect loop is immediately followed by the welcome publish, and the log holds as many welcomes as accepted connects |
| Session.WelcomeOnce | src/main.cpp:113-119 | when no session drops before the loop's re-test, the welcome is published once if some attempt is accepted and never otherwise |
| Session.SubscribesCommandTopics | src/main.cpp:122-125 | a session subscribes to every topic the callback acts on and to nothing else |
| Session.ThreeFailuresThenSuccess | src/main.cpp:113-131 | three refusals, then an acceptance: three pauses, then the welcome notice exactly once, immediately after the accepted attempt |
| Session.DroppedSessionGreetedAgain | src/main.cpp:113-131 | a session found down at the re-test after an accepted connect keeps the loop going, and the next accepted connect publishes the welcome a second time |
| Sketch.Firmware.constructor | src/main.cpp:27-31 | the loop starts with `lastMsg`, soil and light readings at 0, an empty log, and the given output levels |
| Sketch.Firmware.Callback | src/main.cpp:56-110 | the four topic branches, run in sequence on the first `length` payload bytes, give the outputs `Handle` defines; nothing but the four outputs changes |
| Sketch.Firmware.TryConnect | src/main.cpp:117-131 | one pass of the loop body appends the connect and then the greeting and four subscribes, or the pause; the loop's next re-test reports the session up exactly when the attempt was accepted and held |
| Sketch.Firmware.Reconnect | src/main.cpp:112-133 | the loop ends connected exactly when some pass's re-test finds the session up; it appends exactly `ReconnectLog` of the answers and changes nothing else |
| Sketch.Firmware.Loop | src/main.cpp:159-196 | reconnects only when the session is down; if it gets past reconnect, a delivered message goes through the callback and `lastMsg` passes the gate; a burst appends the four publishes and updates the soil and light globals; otherwise nothing changes |

## Left out

- WiFi association (`setup_wifi`): a blocking loop over the WiFi library. The model starts with the link up.
- MQTT client internals (`connect`, `connected`, `state`, `loop`, `setServer`, `setCallback`): answers from the client are inputs. Each pass of the reconnect loop is one `Session.Attempt`: refused, or accepted together with what the loop's re-test of `client.connected()` then reports. A refused connect leaves the session down at the loop's re-test, since the client fails a connect only while it is not connected. The event pump's delivery is an optional message handed to the callback.
- Sketch.Firmware.Reconnect: the real loop retries forever. The model takes a finite sequence of answers. The loop's first test of `client.connected()` is taken to agree with the test in `loop` that led to the call (line 160), so the model starts with a connect attempt. When no pass in the sequence finds the session up, it returns not connected with every pass's events logged: each refused connect with its pause, and each accepted connect whose session dropped with its welcome and four subscribes; and `Loop` stops there: the rest of that pass has not started.
- The random client id (`random(0xffff)`): it does not influence any logged event.
- `delay(5000)` is recorded as a `Delay(5000)` event. The time it takes is not modelled.
- Sensor drivers (`dht.getTempAndHumidity`, `analogRead`): the four readings are abstract integers in a `Sample`.
- Number formatting: `String(temperature, 2)`, `String(humidity, 1)` and `String(int)`. A published reading is `Reading(v)`, standing for the text of v. Floating-point formatting is not modelled.
- Pin modes, PWM timer allocation, servo attach and the electrical effect of `digitalWrite` and `myservo.write`. Only the resulting logical output is modelled.
- The outputs' levels before any command arrives are a constructor parameter. The sketch never sets them.
- The unused float globals `temp` and `hum` are left out. Local variables in `loop` shadow them, and nothing ever writes them.
- All serial diagnostics.
- Commands.ParseSwitch: Arduino `String` equality compares through `strcmp`. A payload with an embedded NUL byte after "true" would therefore also match. The model compares the whole text exactly, as the code reads.
- The `int` loop counter of the callback is compared against an `unsigned int` length. MQTT payloads are far shorter than 2^31 bytes, so the counter is unbounded in the model.
