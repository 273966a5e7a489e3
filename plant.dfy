/** The light and watering policy of main/src/main.c.

    The controller remembers one value, the light level seen when it last
    asked for the light to be switched on.  Below the light threshold it
    asks for the light on when the light is off; at or above the threshold,
    with the light on, it asks for the light off once the level has risen by
    more than the threshold plus a margin, computed in 16-bit unsigned
    arithmetic.  Watering pulses the relay high for two seconds.  The
    threshold messages received over MQTT are forwarded to the measurement
    engine's setters. */
module Plant {
  import opened Common
  import opened Gpio
  import Mqtt
  import Measurements

  /** `uint16_t difference = value - light_value_before` (main.c:102). */
  function Difference(value: u16, before: u16): (d: u16)
    ensures value >= before ==> d == value - before
    ensures value < before ==> d == value - before + U16_MODULUS
  {
    ToU16(value - before)
  }

  /** The test of main.c:106, `difference > threshold + LIGHT_THRESHOLD_MARGIN`,
      done in int. */
  predicate RiseExceeds(value: u16, before: u16, threshold: u16, margin: int) {
    Difference(value, before) > threshold + margin
  }

  /** A level below the remembered one wraps around to a difference of at
      least 32768, so it asks for the light off whenever the threshold plus
      the margin is below that. */
  lemma DarkerLevelWraps(value: u16, before: u16, threshold: u16, margin: int)
    requires value < before && before - value <= 0x8000
    requires threshold + margin < 0x8000
    ensures RiseExceeds(value, before, threshold, margin)
  { }

  /** The relay output of one watering (main.c:111-119): high for 2000 ms,
      then low for the 10000 ms pause. */
  const WATERING: seq<Segment> := [Segment(High, 2_000_000), Segment(Low, 10_000_000)]

  /** The callbacks of main.c with the state they share. */
  class Controller {
    /** `light_value_before` (main.c:15). */
    var lightValueBefore: u16
    /** LIGHT_THRESHOLD_MARGIN, whose value is not part of this model. */
    const margin: int
    const session: Mqtt.Session
    const engine: Measurements.Engine
    const relay: OutputPin

    constructor (margin: int, session: Mqtt.Session, engine: Measurements.Engine, relay: OutputPin)
      ensures lightValueBefore == 0 && this.margin == margin
      ensures this.session == session && this.engine == engine && this.relay == relay
    {
      lightValueBefore := 0;
      this.margin := margin;
      this.session := session;
      this.engine := engine;
      this.relay := relay;
    }

    /** The registrations of app_main (main.c:136-145): the two MQTT
        threshold callbacks and the three measurement callbacks. */
    method RegisterCallbacks()
      modifies session`callbacks, engine`callbacks
      ensures session.callbacks == Mqtt.Received(true, true)
      ensures engine.callbacks == Measurements.Callbacks(true, true, true)
    {
      session.RegisterReceivedLight(true);
      session.RegisterReceivedMoisture(true);
      engine.RegisterReachedLight(true);
      engine.RegisterAboveLight(true);
      engine.RegisterReachedMoisture(true);
    }

    /** received_light_threshold (main.c:67-70): the value goes unchanged
        to set_light_threshold. */
    method ReceivedLightThreshold(threshold: u16)
      modifies engine.storage, engine`thresholds
      ensures engine.storage.committed == old(engine.storage.written)[Measurements.LIGHT_KEY := threshold]
      ensures engine.storage.written == engine.storage.committed
      ensures engine.thresholds == if old(engine.ready) then old(engine.thresholds).(light := threshold) else old(engine.thresholds)
    {
      engine.SetLightThreshold(threshold);
    }

    /** received_moisture_threshold (main.c:72-75). */
    method ReceivedMoistureThreshold(threshold: u16)
      modifies engine.storage, engine`thresholds
      ensures engine.storage.committed == old(engine.storage.written)[Measurements.MOISTURE_KEY := threshold]
      ensures engine.storage.written == engine.storage.committed
      ensures engine.thresholds == if old(engine.ready) then old(engine.thresholds).(moisture := threshold) else old(engine.thresholds)
    {
      engine.SetMoistureThreshold(threshold);
    }

    /** An MQTT_EVENT_DATA event with the callbacks main.c registers: the
        threshold it carries, if any, goes to the engine. */
    method OnThresholdMessage(topic: string, data: string)
      modifies engine.storage, engine`thresholds
      ensures session.OnData(topic, data).None? ==>
        engine.storage.committed == old(engine.storage.committed) && engine.storage.written == old(engine.storage.written)
        && engine.thresholds == old(engine.thresholds)
      ensures session.OnData(topic, data).Some? ==>
        var t := session.OnData(topic, data).value.threshold;
        var key := if session.OnData(topic, data).value.LightThreshold? then Measurements.LIGHT_KEY else Measurements.MOISTURE_KEY;
        && engine.storage.committed == old(engine.storage.written)[key := t]
        && engine.storage.written == engine.storage.committed
        && engine.thresholds == if !old(engine.ready) then old(engine.thresholds)
                                else if session.OnData(topic, data).value.LightThreshold? then old(engine.thresholds).(light := t)
                                else old(engine.thresholds).(moisture := t)
    {
      var call := session.OnData(topic, data);
      if call.Some? {
        match call.value
        case LightThreshold(t) => ReceivedLightThreshold(t);
        case MoistureThreshold(t) => ReceivedMoistureThreshold(t);
      }
    }

    /** reached_light_threshold (main.c:77-90): nothing while the light
        state is unset or on; with the light off, remember the level and ask
        for the light on. */
    method ReachedLightThreshold(value: u16, threshold: u16)
      modifies this`lightValueBefore, session`bits
      ensures session.lightState == Mqtt.Off ==>
        lightValueBefore == value
        && session.bits == if session.eventGroup then old(session.bits) + {Mqtt.TurnOnLight} else old(session.bits)
      ensures session.lightState != Mqtt.Off ==>
        lightValueBefore == old(lightValueBefore) && session.bits == old(session.bits)
    {
      var state := session.lightState;
      if state == Mqtt.NotSet {
        return;
      }
      if state == Mqtt.Off {
        lightValueBefore := value;
        session.SendLightMessage(true);
      }
    }

    /** above_light_threshold (main.c:92-109): with the light on, ask for it
        off when the level rose, modulo 2^16, by more than the threshold plus
        the margin since the light was asked on; nothing otherwise. */
    method AboveLightThreshold(value: u16, threshold: u16)
      modifies session`bits
      ensures session.lightState == Mqtt.On && RiseExceeds(value, lightValueBefore, threshold, margin) ==>
        session.bits == if session.eventGroup then old(session.bits) + {Mqtt.TurnOffLight} else old(session.bits)
      ensures !(session.lightState == Mqtt.On && RiseExceeds(value, lightValueBefore, threshold, margin)) ==>
        session.bits == old(session.bits)
    {
      var state := session.lightState;
      if state == Mqtt.NotSet {
        return;
      }
      if state == Mqtt.On {
        var difference := ToU16(value - lightValueBefore);
        if difference > threshold + margin {
          session.SendLightMessage(false);
        }
      }
    }

    /** reached_moisture_threshold (main.c:111-119): water for two seconds;
        the relay always ends low. */
    method ReachedMoistureThreshold(value: u16, threshold: u16)
      modifies relay
      ensures relay.trace == old(relay.trace) + WATERING
      ensures relay.trace[|relay.trace| - 1].level == Low
    {
      relay.Drive(High, 2_000_000);
      relay.Drive(Low, 10_000_000);
    }

    /** A measurement callback invocation, run by the function main.c
        registered for it. */
    method Run(call: Measurements.Call)
      modifies this`lightValueBefore, session`bits, relay
      ensures call.ReachedLight? ==> relay.trace == old(relay.trace)
      ensures call.ReachedLight? && session.lightState == Mqtt.Off ==>
        lightValueBefore == call.value
        && session.bits == if session.eventGroup then old(session.bits) + {Mqtt.TurnOnLight} else old(session.bits)
      ensures call.ReachedLight? && session.lightState != Mqtt.Off ==>
        lightValueBefore == old(lightValueBefore) && session.bits == old(session.bits)
      ensures call.AboveLight? ==> relay.trace == old(relay.trace) && lightValueBefore == old(lightValueBefore)
      ensures call.AboveLight? && session.lightState == Mqtt.On
              && RiseExceeds(call.value, lightValueBefore, call.threshold, margin) ==>
        session.bits == if session.eventGroup then old(session.bits) + {Mqtt.TurnOffLight} else old(session.bits)
      ensures call.AboveLight? && !(session.lightState == Mqtt.On
              && RiseExceeds(call.value, lightValueBefore, call.threshold, margin)) ==>
        session.bits == old(session.bits)
      ensures call.ReachedMoisture? ==>
        relay.trace == old(relay.trace) + WATERING
        && lightValueBefore == old(lightValueBefore) && session.bits == old(session.bits)
    {
      match call
      case ReachedLight(value, threshold) => ReachedLightThreshold(value, threshold);
      case AboveLight(value, threshold) => AboveLightThreshold(value, threshold);
      case ReachedMoisture(value, threshold) => ReachedMoistureThreshold(value, threshold);
    }
  }
}
