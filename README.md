# Plant controller core, modelled in Dafny

This project models the decision logic of an ESP32 plant controller. The
controller reads a DHT11 temperature/humidity sensor and two analog sensors
(light and soil moisture). Each cycle it compares the light and moisture
levels with thresholds kept in NVS flash. Below the light threshold it asks
for a KlikAanKlikUit radio socket to switch a lamp on; when the light has
risen far enough it asks for the lamp off; below the moisture threshold it
waters through a relay. It publishes its readings over MQTT and takes new
thresholds from MQTT messages.

The model has one module per source file:

- `SwitchKaku` (switch_kaku.dfy): the transmitter profile is a class whose
  `Switch` toggles the state and drives the radio pin. The pin's output is a
  trace of (level, microseconds) segments, in `Gpio` (gpio.dfy). The address
  words are pure functions. A receiver for the pulse trains is the reference
  the transmitter is proved against.
- `Dht11` (dht11.dfy): the data line is the sequence of levels the driver's
  one-microsecond polls see. The counting wait and the 40-bit read loop are
  methods with loop invariants, and the bits are ORed into a five-byte
  `array`. The device record is a class whose `Read` is proved against the
  value function `AfterRead`. A round-trip lemma shows that a sensor frame
  built from phase lengths is read back as its bytes, accepted exactly when
  the checksum holds.
- `Measurements` (measurements.dfy): the module globals are a class. It holds
  the sensor values, the thresholds, the registered callbacks, the accessor
  caches and the NVS namespace. The `apply_threshold` task's locals are a
  second class. One cycle returns the callback invocations it makes, in
  order; their reference definition is `Fired`.
- `Mqtt` (mqtt.dfy): the session globals (event bits, client, light state,
  callbacks) are a class. Publishes are appended to an outbox and other
  client calls to a call log. The publisher task's per-metric pairs are a
  second class. `strtol` and `strncmp` are modelled with C semantics.
- `Plant` (plant.dfy): the callbacks of main.c, over a class holding
  `light_value_before` and the relay pin.
- `Common` (common.dfy): the C integer types, the `uint16_t` cast, and
  `Option`.

Inputs stand in for the hardware and the RTOS:

- every mutex take is a boolean saying whether the lock was acquired;
- every event-group wait is the set of bits it returns;
- the two readings of the microsecond clock in `read_dht11` are parameters;
- the ADC samples are parameters.

`get_light_state` (main/src/mqtt.c:79-82) is a read of
`Mqtt.Session.lightState`.

Behaviour the model keeps as the code has it, though a reader may expect
otherwise:

- The DHT11 checksum compares the fifth byte with the plain `int` sum of the
  other four, with no reduction modulo 256. The DHT11 datasheet's checksum is
  the low eight bits of that sum; `Dht11.CrcRejectsCarry` shows a payload
  that rule accepts and the code rejects.
- `get_temperature` and `get_humidity` return 0 when the lock is not acquired,
  whereas `get_soil_moisture_level` and `get_light_level` fall back on the
  last value they returned.
- The first take of the threshold mutex in `apply_threshold`
  (main/src/measurements.c:94) passes `portMAX_DELAY == pdTRUE` as the wait,
  which is 0 ticks. The model treats it as a single try whose outcome is an
  input.
- The topic test `strncmp(topic, literal, topic_len) == 0` accepts every
  prefix of the literal. So the topic `plant/1/threshold/` (with an empty last
  level) sets the light threshold; see `Mqtt.PrefixTopicSetsLight`.

## Model

| member | source | states |
|---|---|---|
| SwitchKaku.DeviceSelector | main/src/switch_kaku.c:43-44 | `dev`: the device index less one, or bit 5 for the whole group; no contract of its own, its place in the words is stated by CodeWordLayout and DimCodeLayout |
| SwitchKaku.CodeWord | main/src/switch_kaku.c:47 | the non-dim word exactly as line 47 builds it; no contract of its own, characterised by CodeWordLayout and Example123456 |
| SwitchKaku.DimCode | main/src/switch_kaku.c:52-53 | the dim code exactly as lines 52-53 build it; no contract of its own, characterised by DimCodeLayout |
| SwitchKaku.Toggle | main/src/switch_kaku.c:42 | the new state always differs from the old one |
| SwitchKaku.CodeWordLayout | main/src/switch_kaku.c:43-47 | the non-dim word carries id bits 25..0 in bits 31..6, the all-devices flag in bit 5, the state in bit 4, group-1 in bits 3..2 and device-1 in bits 1..0, with no overlap |
| SwitchKaku.DimCodeLayout | main/src/switch_kaku.c:43-53 | the dim code is below 1024 and carries the all-devices flag in bit 9, the state in bit 8, the group in bits 7..6, the device in bits 5..4 and the dim level in bits 3..0 |
| SwitchKaku.Example123456 | main/include/measurements.h:12 | id 123456, group 1, all devices, turning on gives the word 7901232 |
| SwitchKaku.BitValue | main/src/switch_kaku.c:64 | `(code & (1 << j)) == (1 << j)` yields 0 or 1 |
| SwitchKaku.BitValueMask | main/src/switch_kaku.c:64 | for every count j below 32, BitValue is 1 exactly when `(code & (1 << j)) == (1 << j)` and 0 otherwise |
| SwitchKaku.ShortLow | main/src/switch_kaku.c:111 | the truncated `period * 1.4` is within two microseconds below the exact product |
| SwitchKaku.SyncPulses | main/src/switch_kaku.c:94-102 | three segments, the first and last low; the durations 47p, p and 12p are stated by TimingProfile230 and SendSync |
| SwitchKaku.BitPulses | main/src/switch_kaku.c:104-138 | four segments for every value; that 0, 1 and the sentinel give distinct, decodable shapes is stated by SymbolsDistinct and SymbolsRoundTrip |
| SwitchKaku.Frame | main/src/switch_kaku.c:59-69 | one repetition of send_kaku_code is 133 segments; what it carries is stated by FrameRoundTrip |
| SwitchKaku.DimFrame | main/src/switch_kaku.c:75-90 | one repetition of send_kaku_dim_code is 149 segments; what it carries is stated by DimFrameRoundTrip |
| SwitchKaku.TimingProfile230 | main/src/switch_kaku.c:94-138 | with p = 230: sync is low 10810, high 230, low 2760; bit 0 is H230 L322 H230 L1380; bit 1 is H230 L1380 H230 L322; the sentinel is H230 L322 H230 L322 |
| SwitchKaku.SymbolsDistinct | main/src/switch_kaku.c:104-138 | for every positive period the three symbols are pairwise different |
| SwitchKaku.SymbolsRoundTrip | main/src/switch_kaku.c:104-138 | decoding the pulses of any sequence of symbol values gives the sequence back |
| SwitchKaku.FrameRoundTrip | main/src/switch_kaku.c:56-70 | a non-dim frame decodes to bits 31..0 of its word, and element 31-j is bit j |
| SwitchKaku.DimFrameRoundTrip | main/src/switch_kaku.c:72-91 | a dim frame decodes to id bits 25..0 and code bits 9 and 7..0 |
| SwitchKaku.DimFrameIgnoresState | main/src/switch_kaku.c:80-86 | the on and the off dim command put the same frame on the air: the state bit is replaced by the sentinel |
| SwitchKaku.NonDimTransmissionDecodes | main/src/switch_kaku.c:56-70 | every one of the `repeat` repetitions of a non-dim transmission decodes to the command word's bits |
| SwitchKaku.DimTransmissionDecodes | main/src/switch_kaku.c:72-91 | every repetition of a dim transmission decodes to the id bits and the dim code's bits |
| SwitchKaku.EveryRepetitionEndsLow | main/src/switch_kaku.c:56-91 | the last segment of every repetition drives the pin low |
| SwitchKaku.RepeatedLength | main/src/switch_kaku.c:56-75 | n repetitions of a frame are n times its length |
| SwitchKaku.Transmission | main/src/switch_kaku.c:45-53 | the frames of a switch, dim or non-dim by `dim_level == -1`; no contract of its own, characterised by NonDimTransmissionDecodes, DimTransmissionDecodes and EveryRepetitionEndsLow |
| SwitchKaku.TransmissionEndsLow | main/src/switch_kaku.c:66-68 | a transmission of at least one frame ends with the pin set low and no wait after it |
| SwitchKaku.SendSync | main/src/switch_kaku.c:94-102 | the pin trace grows by low 47p, high p, low 12p |
| SwitchKaku.SendBit | main/src/switch_kaku.c:104-138 | the pin trace grows by the symbol for the value: short then long low gap for 0, long then short for 1, two short gaps otherwise |
| SwitchKaku.SendCodeBits | main/src/switch_kaku.c:62-65 | the trace grows by the symbols of bits 31 down to 0 of the word |
| SwitchKaku.SendKakuCode | main/src/switch_kaku.c:56-70 | the trace grows by exactly `repeat` non-dim frames |
| SwitchKaku.SendDimIdBits | main/src/switch_kaku.c:77-79 | the trace grows by the symbols of id bits 25 down to 0 |
| SwitchKaku.SendDimCodeBits | main/src/switch_kaku.c:80-86 | the trace grows by the symbols of code bit 9, the sentinel, then bits 7 down to 0 |
| SwitchKaku.SendDimFrame | main/src/switch_kaku.c:76-89 | the trace grows by one dim frame |
| SwitchKaku.SendKakuDimCode | main/src/switch_kaku.c:72-91 | the trace grows by exactly `repeat` dim frames |
| SwitchKaku.Kaku.constructor | main/src/switch_kaku.c:20-37 | requires -1 <= dim level <= 15; stores the profile, starts off and drives the pin low |
| SwitchKaku.Kaku.Switch | main/src/switch_kaku.c:39-54 | toggles the state and emits the transmission for the new state, as a dim command when a dim level is set |
| Dht11.Run | main/src/dht11.c:35-40 | the run of polls at the awaited level, never above the cap; its meaning is stated by RunMeaning |
| Dht11.RunMeaning | main/src/dht11.c:35 | the counted run is all at the awaited level and ends at the first poll that is not, unless capped |
| Dht11.WaitMeaning | main/src/dht11.c:33-42 | the wait returns n <= us+1 exactly when n polls saw the level and the next did not; it times out exactly when us+2 polls in a row saw it |
| Dht11.WaitOrTimeout | main/src/dht11.c:33-42 | the counting loop returns the reference result and the tick after it |
| Dht11.WaitResult | main/src/dht11.c:33-42 | the result of `wait_or_timeout`; no contract of its own, characterised by WaitMeaning and proved equal to the loop by WaitOrTimeout |
| Dht11.NextTick | main/src/dht11.c:33-42 | the tick of the first poll after a wait; no contract of its own, proved equal to the loop's end by WaitOrTimeout |
| Dht11.ByteValue | main/src/dht11.c:112-113 | a `uint8_t` is below 256 |
| Dht11.CheckCrc | main/src/dht11.c:44-49 | the plain-int compare of line 46; no contract of its own, characterised by CrcAccepts and CrcRejectsCarry |
| Dht11.CrcAccepts | main/src/dht11.c:44-49 | the check accepts exactly when the first four bytes sum to at most 255 and the sum equals the fifth byte |
| Dht11.CrcRejectsCarry | main/src/dht11.c:46 | the bytes 200, 0, 100, 0, 44 match modulo 256 and are rejected |
| Dht11.ShiftMask | main/src/dht11.c:106 | `1 << (7 - k)` is bit k counted from the top |
| Dht11.OrMask | main/src/dht11.c:106 | ORing in a mask sets that bit and no other |
| Dht11.PackUnpack | main/src/dht11.c:98-108 | five bytes are recovered from their 40 bits in byte-major, most-significant-first order |
| Dht11.PacksUnique | main/src/dht11.c:98-108 | five bytes are determined by the 40 bits they hold |
| Dht11.PacksStep | main/src/dht11.c:106 | ORing bit i into `data[i/8]` keeps the bytes holding exactly the bits read so far |
| Dht11.PackPrefix | main/src/dht11.c:98-107 | the loop's five bytes after the bits read so far, always five; their contents are stated by PackPrefixPacks and PackPrefixIsPack |
| Dht11.PackPrefixPacks | main/src/dht11.c:92-108 | after any number of loop steps from all-zero bytes, the read bits are in place and every later bit is clear |
| Dht11.PackPrefixIsPack | main/src/dht11.c:98-108 | after 40 steps the bytes are the 40 bits packed |
| Dht11.CheckResponse | main/src/dht11.c:62-73 | succeeds exactly when neither 80 us response wait times out, ending at the tick after both |
| Dht11.ResponseEnd | main/src/dht11.c:62-73 | the tick after both response waits, or None on a time-out; no contract of its own, proved equal to CheckResponse and characterised by ResponseStep |
| Dht11.DecodeBits | main/src/dht11.c:98-108 | a successful decode of n bits has n bits |
| Dht11.LoopTimeout | main/src/dht11.c:101 | a low-phase time-out at any point of the loop fails the whole read |
| Dht11.LowTimeoutAborts | main/src/dht11.c:101 | a time-out in the low phase of bit k aborts the read of every longer frame |
| Dht11.HighTimeoutReadsZero | main/src/dht11.c:103 | a high-phase time-out does not abort: the bit reads 0 and the next bit starts after 71 polls |
| Dht11.IsOne | main/src/dht11.c:103 | a high phase counted above 28 polls; a time-out is not one (HighTimeoutReadsZero) |
| Dht11.BitOf | main/src/dht11.c:101-103 | the bit the loop reads at a tick; no contract of its own, proved equal to ReadBit's result and characterised by BitStep |
| Dht11.LoopStep | main/src/dht11.c:99-107 | reading one more bit keeps the loop invariant |
| Dht11.ReadBit | main/src/dht11.c:101-103 | fails exactly on a low-phase time-out; otherwise the bit is 1 exactly when the high phase counted more than 28 polls |
| Dht11.StoreBit | main/src/dht11.c:103-107 | storing bit i ORs a 1 into its place in the array and leaves a 0 as is |
| Dht11.LoopBit | main/src/dht11.c:99-107 | one loop iteration either fails the read or advances both the line invariant and the array contents by one bit |
| Dht11.ReceiveData | main/src/dht11.c:92-108 | the 40-bit loop returns None exactly when the frame decode fails, and the decoded bits packed otherwise |
| Dht11.ReadOutcome | main/src/dht11.c:95-114 | accepted bytes are five and pass the checksum |
| Dht11.ReadOutcomeOf | main/src/dht11.c:110-114 | after a good response and 40 bits, the read accepts the packed bytes exactly when their checksum holds |
| Dht11.WaitOnPhase | main/src/dht11.c:33-42 | a phase of n polls within the budget is counted as n |
| Dht11.DecodeShift | main/src/dht11.c:98-108 | decoding from the end of a prefix ignores the prefix |
| Dht11.BitStep | main/src/dht11.c:101-107 | a bit sent as a low and a high phase within the windows decodes as (high phase > 28) |
| Dht11.ResponseStep | main/src/dht11.c:62-73 | a response of two phases within 81 polls each ends where the data starts |
| Dht11.DecodeBitsLine | main/src/dht11.c:98-108 | bits sent with phase lengths inside the windows decode to themselves |
| Dht11.SensorRoundTrip | main/src/dht11.c:84-115 | a sensor frame of any five bytes is accepted exactly when its checksum holds, and then yields those bytes |
| Dht11.AfterRead | main/src/dht11.c:84-115 | within 2 s nothing changes; past it the attempt time is reset whatever the outcome; only an accepted frame sets temperature (byte 2) and humidity (byte 0); a failed one keeps them; readings stay in byte range |
| Dht11.ResponseTimeoutKeepsReadings | main/src/dht11.c:90-95 | a response time-out only resets the attempt time |
| Dht11.ReadWithinIntervalSkipped | main/src/dht11.c:88-90 | a read starting less than 2 s after the recorded attempt changes nothing |
| Dht11.Device.constructor | main/src/dht11.c:75-82 | the zero-initialised device record |
| Dht11.Device.Read | main/src/dht11.c:84-115 | the record after the read is `AfterRead` of the record before |
| Measurements.Storage.SetU16 | main/src/measurements.c:147 | the written map gets the key set to the value |
| Measurements.Storage.Commit | main/src/measurements.c:148 | the committed map becomes the written one |
| Measurements.Load | main/src/measurements.c:83-88 | a stored key gives its value; a missing one leaves the local's 0 |
| Measurements.LevelRead | main/src/measurements.c:223-251 | with the lock, the sensor's value; without it, the cached one |
| Measurements.ReadingOrZero | main/src/measurements.c:193-221 | with the lock, the reading; without it, 0 |
| Measurements.LightCalls | main/src/measurements.c:122-131 | at most one call: "reached" exactly when registered and light < threshold, "above" exactly when registered and light >= threshold |
| Measurements.MoistureCalls | main/src/measurements.c:133-137 | a "reached moisture" call exactly when registered and moisture < threshold, none otherwise |
| Measurements.Fired | main/src/measurements.c:122-137 | at most two calls, each one of the three with the cycle's values; each is present exactly under its condition; the moisture call is last |
| Measurements.Engine.constructor | main/src/measurements.c:15-37 | the zero-initialised globals, without mutexes |
| Measurements.Engine.RegisterReachedLight | main/src/measurements.c:43-46 | sets that callback and no other |
| Measurements.Engine.RegisterReachedMoisture | main/src/measurements.c:48-51 | sets that callback and no other |
| Measurements.Engine.RegisterAboveLight | main/src/measurements.c:53-56 | sets that callback and no other |
| Measurements.Engine.Initialize | main/src/measurements.c:58-70 | sensor values 0, a new radio profile (KAKU_ID, no dimmer, group 1, all devices, 10 repeats, off) whose setup drives the radio pin low once, and the mutexes |
| Measurements.Engine.SetLightThreshold | main/src/measurements.c:143-159 | commits "light_th" = t, then sets the light threshold when the mutex exists, leaving the moisture threshold |
| Measurements.Engine.SetMoistureThreshold | main/src/measurements.c:161-177 | commits "moist_th" = t, then sets the moisture threshold when the mutex exists, leaving the light threshold |
| Measurements.Engine.Measure | main/src/measurements.c:179-191 | with the mutex and the lock: both analog values and the DHT11 read; otherwise nothing changes |
| Measurements.Engine.GetTemperature | main/src/measurements.c:193-206 | the temperature with the lock, 0 otherwise |
| Measurements.Engine.GetHumidity | main/src/measurements.c:208-221 | the humidity with the lock, 0 otherwise |
| Measurements.Engine.GetSoilMoistureLevel | main/src/measurements.c:223-236 | the value with the lock, otherwise what this accessor returned last; the cache ends holding the result |
| Measurements.Engine.GetLightLevel | main/src/measurements.c:238-251 | as for soil moisture, on the light sensor |
| Measurements.Engine.SwitchRadioOutlet | main/src/measurements.c:253-258 | the state ends as it started, and the pin carries the transmission for the toggled state, held for the 10 s pause, followed by the one for the original state; with at least one repetition the pin is low throughout the pause |
| Measurements.ThresholdTask.constructor | main/src/measurements.c:83-99 | the locals are the committed thresholds (0 when missing) and are published when the single try of the lock succeeds |
| Measurements.ThresholdTask.Cycle | main/src/measurements.c:105-137 | locals refreshed exactly when the lock is taken; light then moisture read through the accessors; the calls made are `Fired` of them |
| Mqtt.Published | main/src/mqtt.c:103-164 | a message exactly when current differs from last, with the metric's topic and unit |
| Mqtt.SendTwiceIsSilent | main/src/mqtt.c:110-116 | a second send of an unchanged value publishes nothing |
| Mqtt.AfterConnect | main/src/mqtt.c:180-186 | the connected branch makes an unset state off and changes nothing else |
| Mqtt.ConnectMessages | main/src/mqtt.c:182-186 | "off" is published exactly when connected with the state unset |
| Mqtt.AfterSwitch | main/src/mqtt.c:195-209 | turn-off wins; a turn-on alone sets on; no request keeps the state |
| Mqtt.SwitchMessages | main/src/mqtt.c:195-209 | "on" exactly on a turn-on from off; "off" exactly on a turn-off from on or after a turn-on; at most both, "on" first |
| Mqtt.TurnOnFromUnset | main/src/mqtt.c:195-201 | from NOT_SET a turn-on gives ON with no message |
| Mqtt.BothRequestsEndOff | main/src/mqtt.c:195-209 | with both requests pending the state ends off |
| Mqtt.SpaceRun | main/src/mqtt.c:268 | the length of the leading white space `strtol` skips |
| Mqtt.DigitRun | main/src/mqtt.c:268 | the length of the leading digit run `strtol` converts |
| Mqtt.Strtol | main/src/mqtt.c:268-274 | no digits after the leading white space and an optional `+` or `-` give 0 |
| Mqtt.Decimal | main/src/mqtt.c:268 | a threshold written in decimal is a non-empty digit string |
| Mqtt.DecimalValueOf | main/src/mqtt.c:268 | the digits of n have the value n |
| Mqtt.DigitRunOf | main/src/mqtt.c:268 | the digit run stops at the first non-digit |
| Mqtt.StrtolDecimal | main/src/mqtt.c:268-274 | `strtol` reads back any long written in decimal, whatever non-digit text follows |
| Mqtt.ThresholdPayloadRoundTrip | main/src/mqtt.c:268-274 | `(uint16_t)strtol` of a threshold written in decimal is that threshold |
| Mqtt.TopicMatchIsPrefix | main/src/mqtt.c:264-270 | for NUL-free strings, `strncmp(topic, literal, topic_len) == 0` exactly when the topic is a prefix of the literal |
| Mqtt.StrncmpSame | main/src/mqtt.c:264 | a string compares equal to itself |
| Mqtt.StrncmpPrefix | main/src/mqtt.c:264-270 | a prefix compares equal over its own length |
| Mqtt.StrncmpDiverge | main/src/mqtt.c:270 | strings that differ after a NUL-free common prefix compare unequal |
| Mqtt.StrncmpEqual | main/src/mqtt.c:264-270 | `strncmp(a, b, n) == 0`, stopping at a shared NUL; no contract of its own, characterised by TopicMatchIsPrefix, StrncmpSame, StrncmpPrefix and StrncmpDiverge |
| Mqtt.Dispatch | main/src/mqtt.c:263-276 | a call carries `(uint16_t)strtol(data)`; the light call exactly when registered and the topic matches light; the moisture call exactly when registered, not matching light and matching moisture |
| Mqtt.LightTopicDispatch | main/src/mqtt.c:264-269 | the light topic calls the light callback if registered |
| Mqtt.DecimalLightThreshold | main/src/mqtt.c:264-269 | a decimal threshold on the light topic reaches the callback unchanged |
| Mqtt.MoistureTopicDispatch | main/src/mqtt.c:270-275 | the moisture topic is not taken for light and calls the moisture callback if registered |
| Mqtt.LevelMatch | main/src/mqtt.c:263-276 | a NUL-free topic under the threshold prefix passes the length-limited comparison with a threshold topic exactly when its last level is a prefix of that topic's last level |
| Mqtt.OtherTopicDispatch | main/src/mqtt.c:263-276 | a NUL-free level under the threshold prefix that is a prefix of neither `light` nor `moisture` calls nothing |
| Mqtt.PrefixTopicSetsLight | main/src/mqtt.c:264 | the bare prefix topic, a prefix of both literals, sets the light threshold |
| Mqtt.Session.constructor | main/src/mqtt.c:47-56 | the zero-initialised globals |
| Mqtt.Session.RegisterReceivedLight | main/src/mqtt.c:84-87 | sets that callback and no other |
| Mqtt.Session.RegisterReceivedMoisture | main/src/mqtt.c:89-92 | sets that callback and no other |
| Mqtt.Session.StartClient | main/src/mqtt.c:301-320 | creates the event group only once, then initialises and starts a client |
| Mqtt.Session.StopClient | main/src/mqtt.c:322-330 | with a client, raise FORCE_STOP and then disconnect and destroy; without one, nothing |
| Mqtt.Session.SendLightMessage | main/src/mqtt.c:293-297 | sets the ON bit for true and the OFF bit for false, only when the event group exists |
| Mqtt.Session.OnConnected | main/src/mqtt.c:219-227 | raises CONNECTED, subscribes to the threshold filter, and creates a publisher only when none exists |
| Mqtt.Session.OnDisconnected | main/src/mqtt.c:228-256 | clears CONNECTED and drops the publisher; on FORCE_STOP clears it and does not restart, otherwise restarts the client |
| Mqtt.Session.Switch | main/src/mqtt.c:195-209 | the light state, messages and cleared bits of the turn-on and turn-off branches |
| Mqtt.Session.OnData | main/src/mqtt.c:263-276 | MQTT_EVENT_DATA leads to Dispatch of its topic and payload over the registered callbacks; characterised by the Dispatch lemmas |
| Mqtt.Publisher.constructor | main/src/mqtt.c:166-171 | announces "connected" on the status topic; each of the four pairs starts as its own, independent input |
| Mqtt.Publisher.UpdateSensorData | main/src/mqtt.c:94-101 | the current values are the four accessors' results, in order |
| Mqtt.Publisher.Send | main/src/mqtt.c:103-164 | publishes the metric exactly when it changed, then its last value is its current one; the other metrics are untouched |
| Mqtt.Publisher.Connected | main/src/mqtt.c:180-193 | an unset state is announced off; all four metrics are read, sent when changed, and marked sent |
| Mqtt.Publisher.Step | main/src/mqtt.c:175-209 | one iteration on the waited bits: the connected branch (pairs shifted, both level caches refreshed under their locks, messages published), then the light requests; CONNECTED is never cleared; without CONNECTED no metric moves |
| Plant.RiseExceeds | main/src/main.c:106 | `difference > threshold + LIGHT_THRESHOLD_MARGIN` in int; no contract of its own, stated as the off condition by Controller.AboveLightThreshold |
| Plant.Difference | main/src/main.c:102 | the 16-bit difference: value - before, plus 65536 when that is negative |
| Plant.DarkerLevelWraps | main/src/main.c:102-107 | a level a little below the remembered one wraps to a large difference and asks for the light off |
| Plant.WATERING | main/src/main.c:114-118 | the relay trace of one watering: high 2 s, then low 10 s; the relay's end level is stated by Controller.ReachedMoistureThreshold |
| Plant.Controller.constructor | main/src/main.c:15 | `light_value_before` starts at 0 |
| Plant.Controller.RegisterCallbacks | main/src/main.c:136-145 | registers both MQTT threshold callbacks and all three measurement callbacks |
| Plant.Controller.ReceivedLightThreshold | main/src/main.c:67-70 | forwards the value unchanged to `set_light_threshold` |
| Plant.Controller.ReceivedMoistureThreshold | main/src/main.c:72-75 | forwards the value unchanged to `set_moisture_threshold` |
| Plant.Controller.OnThresholdMessage | main/src/mqtt.c:263-276 | a threshold message sets and commits the threshold its topic names; any other message changes nothing |
| Plant.Controller.ReachedLightThreshold | main/src/main.c:77-90 | with the light off, remembers the value and asks for the light on; otherwise (unset or on) nothing |
| Plant.Controller.AboveLightThreshold | main/src/main.c:92-109 | with the light on, asks for it off exactly when the 16-bit rise exceeds threshold + margin; otherwise nothing |
| Plant.Controller.ReachedMoistureThreshold | main/src/main.c:111-119 | the relay goes high for 2 s, then low for 10 s, and ends low |
| Plant.Controller.Run | main/src/measurements.c:124-136 | a callback invocation runs the function main.c registered for it, with that function's effect |

## Left out

- The RTOS is not modelled: tasks, their creation and deletion, and blocking and timing of mutex takes and event waits. A lock take is a boolean input and an event wait is the set of bits it returns.
- `vTaskDelay` appears only as time a pin holds its level: the relay's 2 s and 10 s in `Plant.WATERING` and the radio pin's 10 s in `Measurements.Engine.SwitchRadioOutlet`. The delays of the task loops (main/src/measurements.c:77, main/src/measurements.c:139, main/src/mqtt.c:211) and of `initialize_dht11` are not modelled.
- Mqtt.Publisher.Step: the wait at main/src/mqtt.c:175-179 blocks until a bit is set. Given no waited bit, the model's step makes no message and changes no state.
- Mqtt.Session.OnDisconnected: the bits that arrive during the 10-tick wait are an input (`forceStop`); the race window of main/src/mqtt.c:239-243 is not modelled.
- The ESP-MQTT client is a foreign library. Connecting, subscribing and publishing are entries in the call log and the outbox. QoS and retain flags, the last-will message and broker-side wildcard matching are not modelled.
- The JSON text a `send_*` formats with `sprintf` is kept as (value, unit); the text itself is not modelled.
- The MQTT payload is not NUL-terminated in the source. The model's `strtol` reads the payload's own characters only.
- NVS failures are not modelled: `ESP_ERROR_CHECK` aborts on a failed open, set or commit, and the model's storage never fails. The read-only open in `apply_threshold` sees the committed map.
- The ADC read (main/src/sensor.c is not part of this model) is an input value.
- The DHT11 start signal, the GPIO direction setup and `initialize_dht11`'s 1 s start-up delay are not modelled. `initialize_dht11` only records the pin.
- DHT11_TIMEOUT_ERROR and the other return codes of dht11.h (not part of this model) are a distinct `Timeout` result. A timed-out high phase compares as not above 28, as a negative code would.
- Busy-wait delays are recorded as their intended durations. `(uint32_t)(period * 1.4)` is its truncated integer value, with no floating point.
- `1 << 31` in `send_kaku_code` is undefined behaviour in C; the model reads it as bit 31 of the word.
- The `printf` and `ESP_LOG` and the `assert` calls on non-null pointers are not modelled; all handles are non-null.
- LIGHT_THRESHOLD_MARGIN is defined outside these files, so the margin is a constructor parameter of `Plant.Controller`.
- The four pairs of the publisher are never initialised in the source; the constructor takes each as a separate input, so no relation between them is assumed.
- app_main's Wi-Fi, LED and HTTP wiring, `initialize_relay`, and main/src/http.c are outside the modelled core.
