# Machine condition monitor: a Dafny model

This project models the firmware of an ESP32 machine monitor. The firmware
samples two current transformers, a K-type thermocouple and an infrared
temperature sensor. It publishes the four values as JSON over a 4G modem to
an MQTT broker about once per second. Everything is in `src/main.cpp`. The
model covers its three parts:

- **Current acquirer** (`CurrentSensor`, one class used for both channels).
  Each accepted tick, gated by a 50 µs interval on the wrapping `micros()`
  clock, converts an ADC reading to volts and writes it into a fixed buffer.
  The buffer is reused in place. When it is full, the batch is reduced to a
  mean and the sum of squared deviations from that mean. The resulting RMS
  voltage is mapped to a primary current by a piecewise quadratic
  calibration scaled by 120. The write index then returns to 0.
- **Slow sensors and payload** (`SlowSensors`, `Telemetry`, `Decimal`).
  The infrared value is the mean of ten converted readings, clamped to 0
  below 6.94. The thermocouple store is modelled as written. The published
  text is `{`, four `"key": value` fields separated by `,`, then `}`. Each
  value is written with one decimal, as `String(x, 1)` writes it.
- **Connection state machine** (`Connectivity`). The seven integer-coded
  states of `loop()` run from modem bring-up (`G_start_connect()`, up to
  five Init attempts) through broker setup, connect and periodic publish,
  then through disconnect and stop to a power cycle. A consecutive-failure
  counter with threshold 5 drives the escalations.

Each component has a pure specification: `Step` and `Run` for the state
machine, `SampleStep` and `RunSampler` for an acquirer, `IrReading`, and
`Payload` with its parser. The lemmas are stated over these. The parts the
firmware updates in place are classes whose methods are proved equal to the
specification: `Controller.Loop`, `Acquirer.Tick` with its array buffer, and
`IrSensor.Poll`, `Thermocouple.Poll`. The library and hardware results of a
pass are inputs to the model: the `Modem` record, the ADC readings and the
clock value `now`.

Modelling choices:

- Clock subtractions wrap modulo 2^32 (`Clock.Elapsed`), as with `unsigned long`.
- `state` keeps the source's integer codes, so "the state is always one of
  1..7" is a proved invariant and not a fact about the type. Code 8
  (`_fst_send_data`) is declared and never reached.
- `String(x, 1)` is modelled as its conversion routine works in exact
  arithmetic. It writes `-` for a negative value, then the magnitude rounded
  to the nearest tenth with halves going up. So −0.04 prints as `-0.0`.
- `sqrt` comes from the C library and is passed in as a function. The
  lemmas that need its meaning require `IsSquareRoot(sqrt)`.

Details of the firmware's own text and stores that the model keeps as written:

- The payload keys are `currentCT31`, `currentCT32`, `temperatureK3` and
  `temperatureIR3`. The separators are `,` with no space, and each key is
  followed by `": "`.
- The thermocouple value is not capped at 85: the cap is assigned and then
  overwritten by the raw reading (`SlowSensors.Thermocouple.Poll`).

## Model

| member | source | states |
|---|---|---|
| Clock.Elapsed | src/main.cpp:207 | timer differences are `unsigned long` subtractions: the plain difference when no wrap happened, otherwise the difference plus 2^32 |
| Clock.ElapsedAdvance | src/main.cpp:479 | a delay shorter than a wrap period is measured exactly across a wrap-around of the clock |
| Analog.ToVoltage | src/main.cpp:212 | a converted reading is non-negative, at most 3.3 V for a 12-bit reading, and 0 exactly for reading 0 |
| Decimal.Round | src/main.cpp:491-494 | `String(x,1)` keeps the sign of x and rounds its magnitude to the nearest tenth, halves up |
| Decimal.RoundError | src/main.cpp:491-494 | the printed value is within 0.05 of the exact value |
| Decimal.Digits | src/main.cpp:491-494 | the integer part is written with decimal digits only and no leading zero |
| Decimal.DigitsRoundTrip | src/main.cpp:491-494 | the digits of an integer read back as that integer |
| Decimal.ParseRender | src/main.cpp:491-494 | a rendered one-decimal number reads back as the same sign and tenths |
| Decimal.Render | src/main.cpp:491-494 | the text is an optional `-`, then digits, `.` and one digit; it holds only these characters, so it never contains `,` or `}` |
| Decimal.Format | src/main.cpp:491-494 | the text of `String(x,1)` reads back as the rounded value, within 0.05 of x |
| Decimal.RoundExamples | src/main.cpp:491-494 | 2.34, 0.0, 45.67 and 12.3 round to 23, 0, 457 and 123 tenths; 0.25 rounds up to 3 tenths; -0.04 keeps its sign with 0 tenths |
| Decimal.FormatExamples | src/main.cpp:491-494 | 2.34 prints as 2.3, 45.67 as 45.7, 0.25 as 0.3 and -0.04 as -0.0 |
| Telemetry.Payload | src/main.cpp:490-495 | the payload is a `{`…`}` object |
| Telemetry.PayloadRoundTrip | src/main.cpp:485-495 | the payload reads back as exactly the four shared values, in key order currentCT31, currentCT32, temperatureK3, temperatureIR3, each rounded to one decimal |
| Telemetry.PayloadAccuracy | src/main.cpp:485-495 | every published value is within 0.05 of the shared value it came from |
| Telemetry.PayloadExample | src/main.cpp:490-495 | the snapshot {2.34, 0.0, 45.67, 12.3} is published as 2.3, 0.0, 45.7 and 12.3 |
| CurrentSensor.MeanSquare | src/main.cpp:220-232 | the mean squared deviation from the batch mean (Vrms squared) is never negative |
| CurrentSensor.ConstantBatchHasNoRms | src/main.cpp:220-232 | a batch of identical readings has that reading as its mean and a zero centred sum of squares |
| CurrentSensor.LowRange | src/main.cpp:242 | the low-range quadratic gives a positive current everywhere above the 0.015 noise floor up to the 0.5 range switch |
| CurrentSensor.HighRange | src/main.cpp:239 | the high-range quadratic gives at least 0.1549 for any non-negative Vrms |
| CurrentSensor.Calibrate | src/main.cpp:234-249 | the current is never negative, and it is 0 exactly when Vrms is at or below the 0.015 noise floor |
| CurrentSensor.CalibrateMonotone | src/main.cpp:236-246 | a larger Vrms never gives a smaller current, across the noise floor and the range switch |
| CurrentSensor.RangeSwitchIsLow | src/main.cpp:237-246 | Vrms = 0.5 takes the low quadratic; above 0.5 the high quadratic ×120 applies and exceeds the value at 0.5 |
| CurrentSensor.BatchCurrent | src/main.cpp:220-249 | a batch's current is never negative; with a true square root it is 0 exactly when the mean squared deviation is at most 0.015² |
| CurrentSensor.ConstantBatchReportsZero | src/main.cpp:220-249 | a batch of identical readings reports current 0 |
| CurrentSensor.FourEqualReadings | src/main.cpp:220-249 | the batch [1,1,1,1] has mean 1, Vrms 0 and current 0 |
| CurrentSensor.SampleStep | src/main.cpp:207-218 | a tick keeps the write index below the capacity and the buffer size fixed |
| CurrentSensor.GatedTickChangesNothing | src/main.cpp:207 | a tick less than 50 µs after the last accepted one changes nothing |
| CurrentSensor.AcceptedTick | src/main.cpp:207-256 | an accepted tick sets the sample time, writes the converted reading at the write index and nowhere else, and advances the index modulo the capacity; the current changes only on the tick that fills the buffer, to that buffer's current |
| CurrentSensor.AcceptedTicksFill | src/main.cpp:207-256 | consecutive accepted ticks fill consecutive slots from the write index and leave every other slot unchanged; the tick that reaches capacity resets the index and reports the completed buffer's current |
| CurrentSensor.FullBatch | src/main.cpp:207-256 | from index 0, a buffer's worth of accepted ticks leaves exactly those voltages in the buffer and reports their current |
| CurrentSensor.Acquirer.constructor | src/main.cpp:187-196 | the channel starts with an allocated buffer, index 0, last sample time 0 and current 0 |
| CurrentSensor.Acquirer.BatchMean | src/main.cpp:220-224 | the accumulation loop computes the mean of the buffer |
| CurrentSensor.Acquirer.BatchSumSquares | src/main.cpp:227-231 | the second loop computes the sum of squared deviations from the mean |
| CurrentSensor.Acquirer.Tick | src/main.cpp:198-264 | one pass of the acquisition loop updates buffer, index, time and current as `SampleStep` does |
| CurrentSensor.StartChannels | src/main.cpp:182-191 | the two channels read pins 33 and 34 into two distinct buffers of 20000 readings each |
| SlowSensors.IrTemperature | src/main.cpp:413-414 | a converted infrared reading is at least 6.94, and for a 12-bit reading at most 58.82×3.3+6.94 |
| SlowSensors.IrReading | src/main.cpp:411-421 | the infrared value is the mean of the ten converted readings and is at least 6.94, so the clamp to 0 is never reached in exact arithmetic; for 12-bit readings it is at most 201.046 |
| SlowSensors.AverageIrTemperature | src/main.cpp:405-419 | the ten-iteration loop computes the mean of the converted readings |
| SlowSensors.IrSensor.constructor | src/main.cpp:55 | the shared infrared value starts at 0 |
| SlowSensors.IrSensor.Poll | src/main.cpp:404-421 | the stored infrared value is the clamped mean, so it is 0 or at least 6.94 |
| SlowSensors.Thermocouple.constructor | src/main.cpp:54 | the shared thermocouple value starts at 0 |
| SlowSensors.Thermocouple.Poll | src/main.cpp:371-377 | the stored thermocouple value equals the reading, also above 85, because the cap is overwritten |
| Connectivity.StartConnect | src/main.cpp:62-87 | Init is called at least once and at most 5 times and stops at the first success; the result is true exactly when some Init succeeded and the modem is attached |
| Connectivity.Step | src/main.cpp:435-540 | one pass of `loop()`, case by case as written: a state code outside 1..7 changes nothing, codes 1..7 lead only to codes 1..7, only `_send_data` publishes and what it publishes is the payload of the shared values, and the send time changes only to now |
| Connectivity.StepKeepsInv | src/main.cpp:435-540 | one pass of `loop()` preserves the counter invariant |
| Connectivity.RunKeepsInv | src/main.cpp:435-540 | any number of passes preserve the counter invariant |
| Connectivity.Reachable | src/main.cpp:116-119 | from start-up, the state is always one of 1..7; the counter stays in 0..5, equals 5 only in `_off_4G`, and is 0 in `_ON_Init_4G`, `_MQTT_START`, `_MQTT_Disconnect` and `_MQTT_Stop` |
| Connectivity.BringUp | src/main.cpp:439-446 | `_ON_Init_4G` moves to `_MQTT_START` iff bring-up succeeded, else to `_off_4G` |
| Connectivity.BrokerStart | src/main.cpp:448-457 | `_MQTT_START` moves to `_MQTT_Connect` iff MQTT_SETUP succeeded, else to `_off_4G` |
| Connectivity.ConnectSuccess | src/main.cpp:461-465 | a successful connect moves to `_send_data` with counter 0 and send time now |
| Connectivity.ConsecutiveConnectFailures | src/main.cpp:466-475 | each failed connect adds one to the counter; the machine retries below 5 and moves to `_off_4G` on the failure that makes it 5 |
| Connectivity.FifthConnectFailure | src/main.cpp:459-476 | from counter 0, failures 1–4 stay in `_MQTT_Connect` and exactly the 5th moves to `_off_4G` |
| Connectivity.PublishesOnlyWhenDue | src/main.cpp:478-498 | a payload goes to MQTT_PUB exactly in `_send_data` once 1000 ms have passed, and it is the payload of the shared values |
| Connectivity.SendNotDue | src/main.cpp:479 | in `_send_data`, before 1000 ms have passed, nothing changes |
| Connectivity.SendDue | src/main.cpp:479-508 | once due, the send time becomes now whatever the publish outcome; success clears the counter; a failure adds one; the failure that makes it 5 clears it and moves to `_MQTT_Disconnect` |
| Connectivity.ConsecutivePublishFailures | src/main.cpp:498-508 | failed publishes on consecutive due passes count up while below 5; the 5th moves to `_MQTT_Disconnect` with counter 0 |
| Connectivity.TeardownIgnoresResults | src/main.cpp:512-530 | `_MQTT_Disconnect` → `_MQTT_Stop` → `_off_4G` whatever the library calls return |
| Connectivity.PowerCycle | src/main.cpp:532-538 | `_off_4G` always moves to `_ON_Init_4G` with counter 0 |
| Connectivity.TeardownCycle | src/main.cpp:512-538 | from `_MQTT_Disconnect`, any three passes end in `_ON_Init_4G` with counter 0 |
| Connectivity.PublishEscalationRestarts | src/main.cpp:498-538 | five failed due publishes followed by any three passes bring the machine back to `_ON_Init_4G` with counter 0 |
| Connectivity.Controller.constructor | src/main.cpp:132 | after `setup()` the machine is in `_ON_Init_4G` with counter 0 and send time 0, which satisfies the counter invariant |
| Connectivity.Controller.Loop | src/main.cpp:435-540 | one pass of `loop()` updates state, counter and send time as `Step` does, publishes the payload `Step` gives, and keeps the counter invariant |

## Left out

- FreeRTOS task creation and the concurrent running of the four tasks (src/main.cpp:135-173). Each task is modelled as a component with one method per pass of its loop.
- The `volatile` shared globals (src/main.cpp:52-55). The publisher reads the producers' fields directly, so torn or interleaved updates are not modelled.
- `delay()` pauses (the 100 ms after a batch, the 500 ms and 100 ms task pauses, the pauses in `loop()`). Real time is not modelled: each pass receives the clock value as an input.
- The `_send_data` case reads `millis()` twice (src/main.cpp:479, 481). The model uses one value `now` for both reads.
- The 20 s attach wait in `G_start_connect()` (src/main.cpp:75-83) is a busy-wait on the real clock. Only the result of the final `IS_ATTACH()` check is an input.
- The modem, broker, ADC and thermocouple library calls are inputs (their results), not models. `PWRDOWN()` returns nothing the code uses, so it has no input.
- Floating-point rounding of the sums, the quotients and `String(x, 1)` is not modelled; the model uses exact `real` arithmetic. Because of this, the infrared clamp to 0 is provably unreachable in the model, although float rounding can reach it on the device.
- NaN and infinity, and how `String(x, 1)` prints them, are not modelled.
- `sqrt` is a parameter, not a definition.
- The property that the RMS of a sampled sinusoid approaches its peak over √2 needs trigonometry and sampling theory, and is not modelled.
- The allocation-failure halt (src/main.cpp:188-191): the `Acquirer` constructor always allocates its buffer, and it requires a capacity above 0. `StartChannels` builds both channels with the source's capacity `NUM_SAMPLES` (20000).
- `Serial` logging and the values kept only for it: `startTime1`/`elapsedTime1`, `readFahrenheit`, `irAdcRawSum`/`irAdcRaw`, the broker name and credentials.
- Overflow of the `int` failure counter: the proved invariant bounds it by 5, so overflow cannot happen.
- src/config.h is not part of this model: it holds only credentials and constants and is not included by src/main.cpp.
