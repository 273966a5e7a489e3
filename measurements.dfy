/** The measurement and threshold engine (main/src/measurements.c).

    The module's globals are the two analog sensors, the DHT11 device, the
    radio switch profile, the thresholds and the registered callbacks; two
    mutexes guard them.  Every lock take is an input saying whether the lock
    was acquired, and the creation of the mutexes is the `ready` flag (their
    handles are NULL until `initialize_measurements`).  The threshold task
    keeps its own copies of the thresholds between cycles; each cycle
    compares the latest light and moisture levels with them and calls the
    callbacks that apply, which the model returns as a sequence of calls in
    the order they are made. */
module Measurements {
  import opened Common
  import opened Gpio
  import SwitchKaku
  import Dht11

  /** KAKU_ID (measurements.h:12) and the other arguments of the
      `initialize_kaku` call (measurements.c:63). */
  const KAKU_ID: bv32 := 123456
  const KAKU_REPEAT: u8 := 10

  /** The `vTaskDelay(10000 / portTICK_PERIOD_MS)` of switch_radio_outlet,
      in microseconds. */
  const RADIO_PAUSE_US: nat := 10_000_000

  /** The NVS keys of the two thresholds. */
  const LIGHT_KEY: string := "light_th"
  const MOISTURE_KEY: string := "moist_th"

  /** The NVS namespace "storage": `written` holds what `nvs_set_u16` put
      there, `committed` what the last `nvs_commit` made persistent and what
      a read-only handle sees. */
  class Storage {
    var committed: map<string, u16>
    var written: map<string, u16>

    constructor (entries: map<string, u16>)
      ensures committed == entries && written == entries
    {
      committed := entries;
      written := entries;
    }

    method SetU16(key: string, value: u16)
      modifies this`written
      ensures written == old(written)[key := value]
    {
      written := written[key := value];
    }

    method Commit()
      modifies this`committed
      ensures committed == written
    {
      committed := written;
    }
  }

  /** `nvs_get_u16` into a local initialised to 0: the stored value, or 0
      when the key (or the namespace) is missing. */
  function Load(entries: map<string, u16>, key: string): (v: u16)
    ensures key !in entries ==> v == 0
    ensures key in entries ==> v == entries[key]
  {
    if key in entries then entries[key] else 0
  }

  /** thresholds_t */
  datatype Thresholds = Thresholds(moisture: u16, light: u16)

  /** measurements_callbacks_t: whether each callback is registered (non-NULL). */
  datatype Callbacks = Callbacks(reachedLight: bool, aboveLight: bool, reachedMoisture: bool)

  /** A callback invocation with its (uint16_t value, uint16_t threshold)
      arguments. */
  datatype Call =
    | ReachedLight(value: u16, threshold: u16)
    | AboveLight(value: u16, threshold: u16)
    | ReachedMoisture(value: u16, threshold: u16)

  /** The level an accessor returns: the sensor's value when the measure
      lock was acquired, otherwise the value it returned last time. */
  function LevelRead(acquired: bool, value: i32, cache: i32): (v: i32)
    ensures acquired ==> v == value
    ensures !acquired ==> v == cache
  {
    if acquired then value else cache
  }

  /** The value `get_temperature` and `get_humidity` return: the reading
      when the measure lock was acquired, 0 otherwise. */
  function ReadingOrZero(acquired: bool, value: int): (v: int)
    ensures acquired ==> v == value
    ensures !acquired ==> v == 0
  {
    if acquired then value else 0
  }

  /** The light branch of a cycle (measurements.c:122-131): "reached" below
      the threshold, "above" otherwise, each only when registered.  The
      int32_t level is passed to a uint16_t parameter. */
  function LightCalls(cbs: Callbacks, light: i32, threshold: u16): (calls: seq<Call>)
    ensures |calls| <= 1
    ensures calls == [ReachedLight(ToU16(light), threshold)] <==> cbs.reachedLight && light < threshold
    ensures calls == [AboveLight(ToU16(light), threshold)] <==> cbs.aboveLight && light >= threshold
  {
    if light < threshold then
      if cbs.reachedLight then [ReachedLight(ToU16(light), threshold)] else []
    else
      if cbs.aboveLight then [AboveLight(ToU16(light), threshold)] else []
  }

  /** The moisture branch of a cycle (measurements.c:133-137). */
  function MoistureCalls(cbs: Callbacks, moisture: i32, threshold: u16): (calls: seq<Call>)
    ensures calls == [] || calls == [ReachedMoisture(ToU16(moisture), threshold)]
    ensures calls != [] <==> cbs.reachedMoisture && moisture < threshold
  {
    if moisture < threshold && cbs.reachedMoisture then [ReachedMoisture(ToU16(moisture), threshold)] else []
  }

  /** The callbacks one cycle of `apply_threshold` calls, in order, for the
      given levels and thresholds. */
  function Fired(cbs: Callbacks, light: i32, moisture: i32, lightTh: u16, moistureTh: u16): (calls: seq<Call>)
    ensures |calls| <= 2
    ensures forall c <- calls :: c == ReachedLight(ToU16(light), lightTh) || c == AboveLight(ToU16(light), lightTh)
                              || c == ReachedMoisture(ToU16(moisture), moistureTh)
    ensures ReachedLight(ToU16(light), lightTh) in calls <==> cbs.reachedLight && light < lightTh
    ensures AboveLight(ToU16(light), lightTh) in calls <==> cbs.aboveLight && light >= lightTh
    ensures ReachedMoisture(ToU16(moisture), moistureTh) in calls <==> cbs.reachedMoisture && moisture < moistureTh
    ensures forall i | 0 <= i < |calls| && calls[i].ReachedMoisture? :: i == |calls| - 1
  {
    LightCalls(cbs, light, lightTh) + MoistureCalls(cbs, moisture, moistureTh)
  }

  /** The module state of measurements.c. */
  class Engine {
    /** Whether `initialize_measurements` has created the two mutexes. */
    var ready: bool
    var thresholds: Thresholds
    var callbacks: Callbacks
    /** `moisture_sensor.value` and `light_sensor.value`. */
    var moistureValue: i32
    var lightValue: i32
    /** The static caches of `get_soil_moisture_level` and `get_light_level`. */
    var moistureCache: i32
    var lightCache: i32
    var dht: Dht11.Device
    var kaku: SwitchKaku.Kaku
    const storage: Storage

    /** The zero-initialised globals at start-up, before any registration
        or initialisation. */
    constructor (dht: Dht11.Device, kaku: SwitchKaku.Kaku, storage: Storage)
      ensures !ready && thresholds == Thresholds(0, 0) && callbacks == Callbacks(false, false, false)
      ensures moistureValue == 0 && lightValue == 0 && moistureCache == 0 && lightCache == 0
      ensures this.dht == dht && this.kaku == kaku && this.storage == storage
    {
      ready := false;
      thresholds := Thresholds(0, 0);
      callbacks := Callbacks(false, false, false);
      moistureValue := 0;
      lightValue := 0;
      moistureCache := 0;
      lightCache := 0;
      this.dht := dht;
      this.kaku := kaku;
      this.storage := storage;
    }

    /** register_reached_light_threshold_cb; `registered` is false for NULL. */
    method RegisterReachedLight(registered: bool)
      modifies this`callbacks
      ensures callbacks == old(callbacks).(reachedLight := registered)
    {
      callbacks := callbacks.(reachedLight := registered);
    }

    /** register_reached_moisture_threshold_cb */
    method RegisterReachedMoisture(registered: bool)
      modifies this`callbacks
      ensures callbacks == old(callbacks).(reachedMoisture := registered)
    {
      callbacks := callbacks.(reachedMoisture := registered);
    }

    /** register_above_light_threshold_cb */
    method RegisterAboveLight(registered: bool)
      modifies this`callbacks
      ensures callbacks == old(callbacks).(aboveLight := registered)
    {
      callbacks := callbacks.(aboveLight := registered);
    }

    /** initialize_measurements: both sensors read 0, the radio profile is
        (KAKU_ID, no dimmer, group 1, all devices, 10 repeats) and starts
        off, and the mutexes exist.  `initialize_dht11` only records the
        pin. */
    method Initialize(pin: OutputPin)
      modifies this, pin
      ensures ready && thresholds == old(thresholds) && callbacks == old(callbacks)
      ensures moistureValue == 0 && lightValue == 0
      ensures moistureCache == old(moistureCache) && lightCache == old(lightCache)
      ensures dht == old(dht) && fresh(kaku) && kaku.pin == pin && kaku.state == SwitchKaku.Off
      ensures kaku.id == KAKU_ID && kaku.dimLevel == -1 && kaku.group == 1
      ensures kaku.device == SwitchKaku.DEVICE_ALL && kaku.repeat == KAKU_REPEAT
      ensures pin.trace == old(pin.trace) + [Segment(Low, 0)]
    {
      moistureValue := 0;
      lightValue := 0;
      kaku := new SwitchKaku.Kaku(pin, KAKU_ID, -1, 1, SwitchKaku.DEVICE_ALL, KAKU_REPEAT);
      ready := true;
    }

    /** set_light_threshold: store and commit "light_th", then (once the
        mutex exists, waiting for it as long as it takes) set the light
        threshold; the moisture threshold is untouched. */
    method SetLightThreshold(threshold: u16)
      modifies storage, this`thresholds
      ensures storage.committed == old(storage.written)[LIGHT_KEY := threshold]
      ensures storage.written == storage.committed
      ensures thresholds == if old(ready) then old(thresholds).(light := threshold) else old(thresholds)
    {
      storage.SetU16(LIGHT_KEY, threshold);
      storage.Commit();
      if ready {
        thresholds := thresholds.(light := threshold);
      }
    }

    /** set_moisture_threshold: the mirror image for "moist_th". */
    method SetMoistureThreshold(threshold: u16)
      modifies storage, this`thresholds
      ensures storage.committed == old(storage.written)[MOISTURE_KEY := threshold]
      ensures storage.written == storage.committed
      ensures thresholds == if old(ready) then old(thresholds).(moisture := threshold) else old(thresholds)
    {
      storage.SetU16(MOISTURE_KEY, threshold);
      storage.Commit();
      if ready {
        thresholds := thresholds.(moisture := threshold);
      }
    }

    /** measure: with the measure lock, read both analog sensors (the raw
        ADC values are inputs) and the DHT11; without it, nothing. */
    method Measure(acquired: bool, moistureRaw: i32, lightRaw: i32, now: int, later: int, line: seq<Level>)
      modifies this`moistureValue, this`lightValue, dht
      ensures ready && acquired ==>
        moistureValue == moistureRaw && lightValue == lightRaw
        && dht.State() == Dht11.AfterRead(old(dht.State()), now, later, line)
      ensures !(ready && acquired) ==>
        moistureValue == old(moistureValue) && lightValue == old(lightValue) && dht.State() == old(dht.State())
    {
      if ready {
        if acquired {
          moistureValue := moistureRaw;
          lightValue := lightRaw;
          dht.Read(now, later, line);
        }
      }
    }

    /** get_temperature: the last accepted temperature with the measure
        lock, 0 without it. */
    method GetTemperature(acquired: bool) returns (v: int)
      ensures v == ReadingOrZero(ready && acquired, dht.temperature)
    {
      v := 0;
      if ready {
        if acquired {
          v := dht.temperature;
          return v;
        }
      }
      return v;
    }

    /** get_humidity: as get_temperature, for the humidity. */
    method GetHumidity(acquired: bool) returns (v: int)
      ensures v == ReadingOrZero(ready && acquired, dht.humidity)
    {
      v := 0;
      if ready {
        if acquired {
          v := dht.humidity;
          return v;
        }
      }
      return v;
    }

    /** get_soil_moisture_level: the sensor's value with the measure lock,
        otherwise the value this accessor returned last (0 at first); the
        cache always ends holding the value returned. */
    method GetSoilMoistureLevel(acquired: bool) returns (v: i32)
      modifies this`moistureCache
      ensures v == LevelRead(ready && acquired, moistureValue, old(moistureCache))
      ensures moistureCache == v
    {
      if ready {
        if acquired {
          moistureCache := moistureValue;
          return moistureCache;
        }
      }
      return moistureCache;
    }

    /** get_light_level: as get_soil_moisture_level, for the light sensor. */
    method GetLightLevel(acquired: bool) returns (v: i32)
      modifies this`lightCache
      ensures v == LevelRead(ready && acquired, lightValue, old(lightCache))
      ensures lightCache == v
    {
      if ready {
        if acquired {
          lightCache := lightValue;
          return lightCache;
        }
      }
      return lightCache;
    }

    /** switch_radio_outlet (measurements.c:253-258): two transmissions ten
        seconds apart, the first for the toggled state and the second for
        the original one, which is where the state ends.  The pause is time
        added to the pin's open last segment, so a first transmission that
        ends low leaves the pin low for the ten seconds. */
    method SwitchRadioOutlet()
      modifies kaku, kaku.pin
      ensures kaku.state == old(kaku.state)
      ensures var first := SwitchKaku.Transmission(kaku.id, kaku.dimLevel, kaku.group, kaku.device, kaku.repeat, SwitchKaku.Toggle(old(kaku.state)));
        kaku.pin.trace == Held(old(kaku.pin.trace) + first, RADIO_PAUSE_US)
          + SwitchKaku.Transmission(kaku.id, kaku.dimLevel, kaku.group, kaku.device, kaku.repeat, old(kaku.state))
      ensures var first := SwitchKaku.Transmission(kaku.id, kaku.dimLevel, kaku.group, kaku.device, kaku.repeat, SwitchKaku.Toggle(old(kaku.state)));
        kaku.repeat > 0 ==>
          |old(kaku.pin.trace)| + |first| <= |kaku.pin.trace|
          && kaku.pin.trace[|old(kaku.pin.trace)| + |first| - 1] == Segment(Low, RADIO_PAUSE_US)
    {
      ghost var s := kaku.state;
      ghost var before := kaku.pin.trace;
      kaku.Switch();
      ghost var first := SwitchKaku.Transmission(kaku.id, kaku.dimLevel, kaku.group, kaku.device, kaku.repeat, kaku.state);
      kaku.pin.Wait(RADIO_PAUSE_US);
      if kaku.repeat > 0 {
        SwitchKaku.TransmissionEndsLow(kaku.id, kaku.dimLevel, kaku.group, kaku.device, kaku.repeat, kaku.state);
        assert (before + first)[|before + first| - 1] == Segment(Low, 0);
      }
      ghost var paused := kaku.pin.trace;
      kaku.Switch();
      assert kaku.pin.trace[..|paused|] == paused;
      assert SwitchKaku.Toggle(SwitchKaku.Toggle(s)) == s;
    }
  }

  /** The locals of the `apply_threshold` task, which persist from one
      cycle to the next. */
  class ThresholdTask {
    var lightThreshold: u16
    var moistureThreshold: u16

    /** The start of `apply_threshold` (measurements.c:83-99): load both thresholds from
        storage, then publish them to the shared thresholds if the lock is
        acquired.  The wait passed at line 94 is `portMAX_DELAY == pdTRUE`,
        that is 0 ticks, so the take is a single try.  `apply_threshold` is started
        only after the mutexes exist. */
    constructor (e: Engine, acquired: bool)
      requires e.ready
      modifies e`thresholds
      ensures lightThreshold == Load(e.storage.committed, LIGHT_KEY)
      ensures moistureThreshold == Load(e.storage.committed, MOISTURE_KEY)
      ensures e.thresholds == if acquired then Thresholds(moistureThreshold, lightThreshold) else old(e.thresholds)
    {
      lightThreshold := Load(e.storage.committed, LIGHT_KEY);
      moistureThreshold := Load(e.storage.committed, MOISTURE_KEY);
      new;
      if acquired {
        e.thresholds := Thresholds(moistureThreshold, lightThreshold);
      }
    }

    /** One pass of the `apply_threshold` loop (measurements.c:105-137):
        refresh the local thresholds when the threshold lock is acquired,
        read the light and then the moisture level, and make the calls that
        `Fired` gives. */
    method Cycle(e: Engine, thresholdLock: bool, lightLock: bool, moistureLock: bool) returns (fired: seq<Call>)
      modifies this, e`lightCache, e`moistureCache
      ensures e.ready && thresholdLock ==>
        lightThreshold == e.thresholds.light && moistureThreshold == e.thresholds.moisture
      ensures !(e.ready && thresholdLock) ==>
        lightThreshold == old(lightThreshold) && moistureThreshold == old(moistureThreshold)
      ensures e.lightCache == LevelRead(e.ready && lightLock, e.lightValue, old(e.lightCache))
      ensures e.moistureCache == LevelRead(e.ready && moistureLock, e.moistureValue, old(e.moistureCache))
      ensures fired == Fired(e.callbacks, e.lightCache, e.moistureCache, lightThreshold, moistureThreshold)
    {
      if e.ready {
        if thresholdLock {
          lightThreshold := e.thresholds.light;
          moistureThreshold := e.thresholds.moisture;
        }
      }
      var light := e.GetLightLevel(lightLock);
      var moisture := e.GetSoilMoistureLevel(moistureLock);
      fired := [];
      if light < lightThreshold {
        if e.callbacks.reachedLight {
          fired := fired + [ReachedLight(ToU16(light), lightThreshold)];
        }
      } else {
        if e.callbacks.aboveLight {
          fired := fired + [AboveLight(ToU16(light), lightThreshold)];
        }
      }
      if moisture < moistureThreshold {
        if e.callbacks.reachedMoisture {
          fired := fired + [ReachedMoisture(ToU16(moisture), moistureThreshold)];
        }
      }
    }
  }
}
