/** The MQTT session logic (main/src/mqtt.c).

    The session is the module's globals: the event group and its bits, the
    client handle, the three-valued light state, the registered threshold
    callbacks and whether the publisher task exists.  Publishing appends a
    (topic, payload) message to an outbox; the other client calls are
    appended to a log.  The publisher task keeps the last value it sent of
    each metric and publishes a metric only when it changed.  Inbound data
    is dispatched on its topic and its payload is parsed with `strtol`. */
module Mqtt {
  import opened Common
  import Measurements

  // ---------------------------------------------------------------------
  // Topics, payloads and client calls
  // ---------------------------------------------------------------------

  const TEMPERATURE_TOPIC: string := "plant/1/temperature"
  const HUMIDITY_TOPIC: string := "plant/1/humidity"
  const SOIL_MOISTURE_TOPIC: string := "plant/1/soil_moisture_level"
  const LIGHT_LEVEL_TOPIC: string := "plant/1/light_level"
  const STATUS_TOPIC: string := "plant/1/status"
  const SOCKET_STATE_TOPIC: string := "socket/1/state"
  const THRESHOLD_PREFIX: string := "plant/1/threshold/"
  const THRESHOLD_FILTER: string := THRESHOLD_PREFIX + "+"
  const LIGHT_THRESHOLD_TOPIC: string := THRESHOLD_PREFIX + "light"
  const MOISTURE_THRESHOLD_TOPIC: string := THRESHOLD_PREFIX + "moisture"

  /** What is published: a metric as `{"value":<value>,"unit":"<unit>"}`
      (the formatting itself is not modelled), or a fixed text. */
  datatype Payload = Metric(value: int, unit: string) | Text(text: string)

  datatype Message = Message(topic: string, payload: Payload)

  /** The calls into the MQTT client other than publishing. */
  datatype ClientCall = Init | Start | Subscribe(filter: string) | Disconnect | Destroy

  /** The socket state messages, `"on"` and `"off"` with their quotes. */
  function StateMessage(on: bool): Message {
    Message(SOCKET_STATE_TOPIC, Text(if on then "\"on\"" else "\"off\""))
  }

  /** The bits of mqtt_event_group. */
  datatype EventBit = ClientConnected | TurnOnLight | TurnOffLight | ForceStop

  /** light_states_t */
  datatype LightState = On | Off | NotSet

  // ---------------------------------------------------------------------
  // Metrics: publish only what changed
  // ---------------------------------------------------------------------

  /** The four metrics, with the topic and unit each `send_*` uses. */
  datatype Metric = Temperature | Humidity | SoilMoisture | LightLevel

  function Topic(m: Metric): string {
    match m
    case Temperature => TEMPERATURE_TOPIC
    case Humidity => HUMIDITY_TOPIC
    case SoilMoisture => SOIL_MOISTURE_TOPIC
    case LightLevel => LIGHT_LEVEL_TOPIC
  }

  function Unit(m: Metric): string {
    match m
    case Temperature => "celsius"
    case Humidity => "rh"
    case SoilMoisture => "raw"
    case LightLevel => "raw"
  }

  /** in32_t_pair_t: the value read this iteration and the last one sent. */
  datatype Pair = Pair(current: int, last: int)

  /** The message a `send_*` publishes for pair p: none when the value did
      not change since it was last sent. */
  function Published(p: Pair, m: Metric): (out: seq<Message>)
    ensures out != [] <==> p.current != p.last
    ensures out != [] ==> out == [Message(Topic(m), Metric(p.current, Unit(m)))]
  {
    if p.current != p.last then [Message(Topic(m), Metric(p.current, Unit(m)))] else []
  }

  /** A second send of an unchanged value publishes nothing. */
  lemma SendTwiceIsSilent(p: Pair, m: Metric)
    ensures Published(Pair(p.current, p.current), m) == []
  { }

  // ---------------------------------------------------------------------
  // The light state machine of one publisher iteration
  // ---------------------------------------------------------------------

  /** The state after the connected branch (mqtt.c:180-186): an unset
      state becomes "off". */
  function AfterConnect(st: LightState, snap: set<EventBit>): (r: LightState)
    ensures ClientConnected in snap ==> r != NotSet
    ensures r != st ==> ClientConnected in snap && st == NotSet && r == Off
  {
    if ClientConnected in snap && st == NotSet then Off else st
  }

  function ConnectMessages(st: LightState, snap: set<EventBit>): (out: seq<Message>)
    ensures out != [] <==> ClientConnected in snap && st == NotSet
    ensures out != [] ==> out == [StateMessage(false)]
  {
    if ClientConnected in snap && st == NotSet then [StateMessage(false)] else []
  }

  /** The state after the turn-on and turn-off branches (mqtt.c:195-209),
      handled in that order. */
  function AfterSwitch(st: LightState, snap: set<EventBit>): (r: LightState)
    ensures TurnOffLight in snap ==> r == Off
    ensures TurnOnLight in snap && TurnOffLight !in snap ==> r == On
    ensures TurnOnLight !in snap && TurnOffLight !in snap ==> r == st
  {
    var st1 := if TurnOnLight in snap then On else st;
    if TurnOffLight in snap then Off else st1
  }

  /** "on" is published only when turning on from off, "off" only when
      turning off from on, which includes a turn-on of the same iteration. */
  function SwitchMessages(st: LightState, snap: set<EventBit>): (out: seq<Message>)
    ensures StateMessage(true) in out <==> TurnOnLight in snap && st == Off
    ensures StateMessage(false) in out <==> TurnOffLight in snap && (TurnOnLight in snap || st == On)
    ensures |out| <= 2
    ensures |out| == 2 ==> out == [StateMessage(true), StateMessage(false)]
  {
    var on := if TurnOnLight in snap && st == Off then [StateMessage(true)] else [];
    var st1 := if TurnOnLight in snap then On else st;
    var off := if TurnOffLight in snap && st1 == On then [StateMessage(false)] else [];
    on + off
  }

  /** From NOT_SET a turn-on request sets the state on without announcing
      it to the socket. */
  lemma TurnOnFromUnset()
    ensures AfterSwitch(NotSet, {TurnOnLight}) == On && SwitchMessages(NotSet, {TurnOnLight}) == []
  { }

  /** With both requests pending the light ends off. */
  lemma BothRequestsEndOff(st: LightState, snap: set<EventBit>)
    requires TurnOnLight in snap && TurnOffLight in snap
    ensures AfterSwitch(AfterConnect(st, snap), snap) == Off
  { }

  /** The bits the publisher waits for (mqtt.c:175-179). */
  const WAITED: set<EventBit> := {ClientConnected, TurnOnLight, TurnOffLight}

  // ---------------------------------------------------------------------
  // strtol and strncmp
  // ---------------------------------------------------------------------

  predicate IsSpace(c: char) {
    c == ' ' || '\t' <= c <= '\r'
  }

  predicate IsDigit(c: char) {
    '0' <= c <= '9'
  }

  function DigitValue(c: char): nat
    requires IsDigit(c)
  {
    c as int - '0' as int
  }

  /** The number of leading characters of s satisfying IsSpace. */
  function SpaceRun(s: string): (n: nat)
    ensures n <= |s|
    ensures forall i | 0 <= i < n :: IsSpace(s[i])
    ensures n < |s| ==> !IsSpace(s[n])
  {
    if s != [] && IsSpace(s[0]) then 1 + SpaceRun(s[1..]) else 0
  }

  /** The number of leading decimal digits of s. */
  function DigitRun(s: string): (n: nat)
    ensures n <= |s|
    ensures forall i | 0 <= i < n :: IsDigit(s[i])
    ensures n < |s| ==> !IsDigit(s[n])
  {
    if s != [] && IsDigit(s[0]) then 1 + DigitRun(s[1..]) else 0
  }

  /** The value of a string of decimal digits. */
  function DecimalValue(ds: string): nat
    requires forall i | 0 <= i < |ds| :: IsDigit(ds[i])
  {
    if ds == [] then 0 else 10 * DecimalValue(ds[..|ds| - 1]) + DigitValue(ds[|ds| - 1])
  }

  /** `strtol(s, NULL, 10)` with a 32-bit long: leading white space, an
      optional sign, then as many digits as follow; 0 when there are none,
      and LONG_MIN / LONG_MAX when the value is out of range. */
  function Strtol(s: string): (v: i32)
    ensures var rest := s[SpaceRun(s)..];
      var digits := if rest != [] && rest[0] in "+-" then rest[1..] else rest;
      DigitRun(digits) == 0 ==> v == 0
  {
    var rest := s[SpaceRun(s)..];
    var signed := rest != [] && (rest[0] == '+' || rest[0] == '-');
    var digits := if signed then rest[1..] else rest;
    var magnitude := DecimalValue(digits[..DigitRun(digits)]);
    var value: int := if signed && rest[0] == '-' then 0 - magnitude else magnitude;
    if value < LONG_MIN then LONG_MIN else if value > LONG_MAX then LONG_MAX else value
  }

  /** The decimal rendering of n, without leading zeros. */
  function Decimal(n: nat): (s: string)
    ensures s != [] && forall i | 0 <= i < |s| :: IsDigit(s[i])
  {
    var d := ['0' + (n % 10) as char];
    if n < 10 then d else Decimal(n / 10) + d
  }

  lemma {:induction false} DecimalValueOf(n: nat)
    ensures DecimalValue(Decimal(n)) == n
  {
    var s := Decimal(n);
    if n >= 10 {
      DecimalValueOf(n / 10);
      assert s[..|s| - 1] == Decimal(n / 10);
    }
  }

  lemma {:induction false} DigitRunOf(ds: string, rest: string)
    requires forall i | 0 <= i < |ds| :: IsDigit(ds[i])
    requires rest == [] || !IsDigit(rest[0])
    ensures DigitRun(ds + rest) == |ds|
  {
    if ds != [] {
      assert (ds + rest)[1..] == ds[1..] + rest;
      DigitRunOf(ds[1..], rest);
    }
  }

  /** `strtol` reads back the decimal rendering of any long, whatever
      non-digit text follows it. */
  lemma StrtolDecimal(n: nat, rest: string)
    requires n <= LONG_MAX
    requires rest == [] || !IsDigit(rest[0])
    ensures Strtol(Decimal(n) + rest) == n
  {
    var s := Decimal(n) + rest;
    assert SpaceRun(s) == 0;
    DigitRunOf(Decimal(n), rest);
    assert s[..|Decimal(n)|] == Decimal(n);
    DecimalValueOf(n);
  }

  /** A threshold written in decimal arrives unchanged through the
      `(uint16_t)strtol(data, NULL, 10)` of mqtt.c:268 and 274. */
  lemma ThresholdPayloadRoundTrip(t: u16)
    ensures ToU16(Strtol(Decimal(t))) == t
  {
    StrtolDecimal(t, []);
    assert Decimal(t) + [] == Decimal(t);
  }

  /** The character of a C string at i: the terminating NUL past its end. */
  function CharAt(s: string, i: nat): char {
    if i < |s| then s[i] else '\0'
  }

  /** `strncmp(a, b, n) == 0`: the first n characters agree, where the
      comparison stops early at a NUL both share. */
  function StrncmpEqual(a: string, b: string, n: nat): bool
    decreases n
  {
    if n == 0 then true
    else if CharAt(a, 0) != CharAt(b, 0) then false
    else if CharAt(a, 0) == '\0' then true
    else StrncmpEqual(a[1..], b[1..], n - 1)
  }

  predicate NoNul(s: string) {
    '\0' !in s
  }

  /** The topic test of mqtt.c:264 and 270, `strncmp(topic, literal,
      topic_len) == 0`, accepts exactly the prefixes of the literal: a
      topic name never holds a NUL (section 4.7.3 of MQTT 3.1.1). */
  lemma {:induction false} TopicMatchIsPrefix(topic: string, literal: string)
    requires NoNul(topic) && NoNul(literal)
    ensures StrncmpEqual(topic, literal, |topic|) <==> |topic| <= |literal| && literal[..|topic|] == topic
  {
    if topic == [] {
    } else if literal == [] {
      assert topic[0] in topic;
    } else if topic[0] != literal[0] {
      if |topic| <= |literal| {
        assert literal[..|topic|][0] != topic[0];
      }
    } else {
      assert topic[0] in topic;
      assert forall c | c in topic[1..] :: c in topic;
      assert forall c | c in literal[1..] :: c in literal;
      TopicMatchIsPrefix(topic[1..], literal[1..]);
      if |topic| <= |literal| {
        assert literal[..|topic|] == [literal[0]] + literal[1..][..|topic| - 1];
        assert topic == [topic[0]] + topic[1..];
      }
    }
  }

  /** The registered receive callbacks of mqtt_callbacks_t. */
  datatype Received = Received(lightThreshold: bool, moistureThreshold: bool)

  /** A threshold callback invocation. */
  datatype ThresholdCall = LightThreshold(threshold: u16) | MoistureThreshold(threshold: u16)

  /** The MQTT_EVENT_DATA case (mqtt.c:263-276): light is tested before
      moisture, and a matching topic calls its callback, if registered,
      with the payload parsed in base 10 and cut to 16 bits. */
  function Dispatch(cbs: Received, topic: string, data: string): (r: Option<ThresholdCall>)
    ensures r.Some? ==> r.value.threshold == ToU16(Strtol(data))
    ensures r.Some? && r.value.LightThreshold? <==>
      cbs.lightThreshold && StrncmpEqual(topic, LIGHT_THRESHOLD_TOPIC, |topic|)
    ensures r.Some? && r.value.MoistureThreshold? <==>
      cbs.moistureThreshold && !StrncmpEqual(topic, LIGHT_THRESHOLD_TOPIC, |topic|)
      && StrncmpEqual(topic, MOISTURE_THRESHOLD_TOPIC, |topic|)
  {
    if StrncmpEqual(topic, LIGHT_THRESHOLD_TOPIC, |topic|) then
      if cbs.lightThreshold then Some(LightThreshold(ToU16(Strtol(data)))) else None
    else if StrncmpEqual(topic, MOISTURE_THRESHOLD_TOPIC, |topic|) then
      if cbs.moistureThreshold then Some(MoistureThreshold(ToU16(Strtol(data)))) else None
    else None
  }

  /** A string agrees with itself on any number of characters. */
  lemma {:induction false} StrncmpSame(s: string, n: nat)
    ensures StrncmpEqual(s, s, n)
    decreases n
  {
    if n > 0 && CharAt(s, 0) != '\0' {
      StrncmpSame(s[1..], n - 1);
    }
  }

  /** Comparing the length of p accepts any extension of p. */
  lemma {:induction false} StrncmpPrefix(p: string, rest: string)
    ensures StrncmpEqual(p, p + rest, |p|)
  {
    if p != [] && p[0] != '\0' {
      assert (p + rest)[1..] == p[1..] + rest;
      StrncmpPrefix(p[1..], rest);
    }
  }

  /** Two strings that share a NUL-free prefix p and then differ are told
      apart by any comparison reaching past p. */
  lemma {:induction false} StrncmpDiverge(p: string, a: string, b: string, n: nat)
    requires NoNul(p) && a != [] && b != [] && a[0] != b[0] && n > |p|
    ensures !StrncmpEqual(p + a, p + b, n)
  {
    if p != [] {
      assert p[0] in p;
      assert forall c | c in p[1..] :: c in p;
      assert (p + a)[1..] == p[1..] + a && (p + b)[1..] == p[1..] + b;
      StrncmpDiverge(p[1..], a, b, n - 1);
    }
  }

  lemma PrefixNoNul()
    ensures NoNul(THRESHOLD_PREFIX)
  { }

  /** The light threshold topic sets the light threshold. */
  lemma LightTopicDispatch(cbs: Received, data: string)
    ensures Dispatch(cbs, LIGHT_THRESHOLD_TOPIC, data) ==
      if cbs.lightThreshold then Some(LightThreshold(ToU16(Strtol(data)))) else None
  {
    StrncmpSame(LIGHT_THRESHOLD_TOPIC, |LIGHT_THRESHOLD_TOPIC|);
  }

  /** A light threshold sent in decimal on the light threshold topic
      reaches the callback unchanged. */
  lemma DecimalLightThreshold(cbs: Received, t: u16)
    requires cbs.lightThreshold
    ensures Dispatch(cbs, LIGHT_THRESHOLD_TOPIC, Decimal(t)) == Some(LightThreshold(t))
  {
    LightTopicDispatch(cbs, Decimal(t));
    ThresholdPayloadRoundTrip(t);
  }

  /** The moisture threshold topic is not taken for the light one, and
      sets the moisture threshold. */
  lemma MoistureTopicDispatch(cbs: Received, data: string)
    ensures Dispatch(cbs, MOISTURE_THRESHOLD_TOPIC, data) ==
      if cbs.moistureThreshold then Some(MoistureThreshold(ToU16(Strtol(data)))) else None
  {
    PrefixNoNul();
    StrncmpDiverge(THRESHOLD_PREFIX, "moisture", "light", |MOISTURE_THRESHOLD_TOPIC|);
    StrncmpSame(MOISTURE_THRESHOLD_TOPIC, |MOISTURE_THRESHOLD_TOPIC|);
  }

  /** Cutting a common head off two sequences keeps whether one starts
      with the other. */
  lemma PrefixCancel(p: string, a: string, b: string)
    requires |b| <= |a|
    ensures (p + a)[..|p| + |b|] == p + b <==> a[..|b|] == b
  {
    assert (p + a)[..|p| + |b|] == p + a[..|b|];
    if p + a[..|b|] == p + b {
      assert a[..|b|] == (p + a[..|b|])[|p|..];
      assert b == (p + b)[|p|..];
    }
  }

  /** A NUL-free topic under the threshold prefix matches a threshold topic
      exactly when its last level is a prefix of that topic's last level. */
  lemma LevelMatch(x: string, level: string)
    requires NoNul(x) && NoNul(level)
    ensures StrncmpEqual(THRESHOLD_PREFIX + x, THRESHOLD_PREFIX + level, |THRESHOLD_PREFIX + x|)
        <==> |x| <= |level| && level[..|x|] == x
  {
    PrefixNoNul();
    assert forall c | c in THRESHOLD_PREFIX + x :: c in THRESHOLD_PREFIX || c in x;
    assert forall c | c in THRESHOLD_PREFIX + level :: c in THRESHOLD_PREFIX || c in level;
    TopicMatchIsPrefix(THRESHOLD_PREFIX + x, THRESHOLD_PREFIX + level);
    if |x| <= |level| {
      PrefixCancel(THRESHOLD_PREFIX, level, x);
    }
  }

  /** A level under the threshold prefix that is a prefix of neither
      "light" nor "moisture" calls nothing. */
  lemma OtherTopicDispatch(cbs: Received, x: string, data: string)
    requires NoNul(x)
    requires !(|x| <= 5 && "light"[..|x|] == x)
    requires !(|x| <= 8 && "moisture"[..|x|] == x)
    ensures Dispatch(cbs, THRESHOLD_PREFIX + x, data) == None
  {
    LevelMatch(x, "light");
    LevelMatch(x, "moisture");
  }

  /** Because only the topic's own length is compared, a topic that is a
      proper prefix of both threshold topics, such as the empty last level
      "plant/1/threshold/" that the subscription filter admits, sets the
      light threshold. */
  lemma PrefixTopicSetsLight(cbs: Received, data: string)
    requires cbs.lightThreshold
    ensures Dispatch(cbs, THRESHOLD_PREFIX, data) == Some(LightThreshold(ToU16(Strtol(data))))
  {
    StrncmpPrefix(THRESHOLD_PREFIX, "light");
  }

  // ---------------------------------------------------------------------
  // The session
  // ---------------------------------------------------------------------

  /** The globals of mqtt.c. */
  class Session {
    /** Whether mqtt_event_group has been created. */
    var eventGroup: bool
    var bits: set<EventBit>
    /** Whether the client handle has been set; `stop_mqtt_client` destroys
        the client but leaves the handle set. */
    var client: bool
    var lightState: LightState
    var callbacks: Received
    /** Whether the publisher task exists (`send_data_handle`). */
    var publisher: bool
    var outbox: seq<Message>
    var calls: seq<ClientCall>

    /** The client is only ever created after the event group. */
    predicate Valid()
      reads this
    {
      client ==> eventGroup
    }

    /** The globals at start-up. */
    constructor ()
      ensures Valid()
      ensures !eventGroup && bits == {} && !client && lightState == NotSet
      ensures callbacks == Received(false, false) && !publisher && outbox == [] && calls == []
    {
      eventGroup := false;
      bits := {};
      client := false;
      lightState := NotSet;
      callbacks := Received(false, false);
      publisher := false;
      outbox := [];
      calls := [];
    }

    /** register_received_light_threshold_cb; false registers NULL. */
    method RegisterReceivedLight(registered: bool)
      modifies this`callbacks
      ensures callbacks == old(callbacks).(lightThreshold := registered)
    {
      callbacks := callbacks.(lightThreshold := registered);
    }

    /** register_received_moisture_threshold_cb */
    method RegisterReceivedMoisture(registered: bool)
      modifies this`callbacks
      ensures callbacks == old(callbacks).(moistureThreshold := registered)
    {
      callbacks := callbacks.(moistureThreshold := registered);
    }

    /** start_mqtt_client: create the event group once, then a new client,
        and start it. */
    method StartClient()
      modifies this`eventGroup, this`bits, this`client, this`calls
      ensures Valid() && client && eventGroup
      ensures bits == if old(eventGroup) then old(bits) else {}
      ensures calls == old(calls) + [Init, Start]
    {
      if !eventGroup {
        eventGroup := true;
        bits := {};
      }
      client := true;
      calls := calls + [Init, Start];
    }

    /** stop_mqtt_client: with a client, raise FORCE_STOP before
        disconnecting and destroying it; without one, nothing. */
    method StopClient()
      requires Valid()
      modifies this`bits, this`calls
      ensures client ==> bits == old(bits) + {ForceStop} && calls == old(calls) + [Disconnect, Destroy]
      ensures !client ==> bits == old(bits) && calls == old(calls)
    {
      if client {
        bits := bits + {ForceStop};
        calls := calls + [Disconnect, Destroy];
      }
    }

    /** mqtt_send_light_message: request the light on (true) or off
        (false), if the event group exists. */
    method SendLightMessage(status: bool)
      modifies this`bits
      ensures bits == if eventGroup then old(bits) + {if status then TurnOnLight else TurnOffLight} else old(bits)
    {
      if eventGroup {
        bits := bits + {if status then TurnOnLight else TurnOffLight};
      }
    }

    /** MQTT_EVENT_CONNECTED: raise CONNECTED, subscribe to the threshold
        topics, and create the publisher unless it exists; `spawned` says
        whether it was created. */
    method OnConnected() returns (spawned: bool)
      requires Valid() && client
      modifies this`bits, this`calls, this`publisher
      ensures bits == old(bits) + {ClientConnected}
      ensures calls == old(calls) + [Subscribe(THRESHOLD_FILTER)]
      ensures spawned == !old(publisher) && publisher
    {
      bits := bits + {ClientConnected};
      calls := calls + [Subscribe(THRESHOLD_FILTER)];
      spawned := !publisher;
      publisher := true;
    }

    /** MQTT_EVENT_DISCONNECTED: clear CONNECTED and delete the publisher,
        then either consume FORCE_STOP or restart the client.  `forceStop`
        says whether FORCE_STOP was seen during the 10-tick wait; one
        raised before the wait is always seen. */
    method OnDisconnected(forceStop: bool)
      requires Valid() && client
      requires ForceStop in bits ==> forceStop
      modifies this`bits, this`calls, this`publisher
      ensures !publisher && ClientConnected !in bits
      ensures forceStop ==> bits == old(bits) - {ClientConnected, ForceStop} && calls == old(calls)
      ensures !forceStop ==> bits == old(bits) - {ClientConnected} && calls == old(calls) + [Start]
    {
      bits := bits - {ClientConnected};
      publisher := false;
      if forceStop {
        bits := bits - {ForceStop};
      } else {
        calls := calls + [Start];
      }
    }

    /** The turn-on and turn-off branches of a publisher iteration
        (mqtt.c:195-209) for the bits `snap` the wait returned. */
    method Switch(snap: set<EventBit>)
      modifies this`outbox, this`bits, this`lightState
      ensures lightState == AfterSwitch(old(lightState), snap)
      ensures bits == old(bits) - (snap * {TurnOnLight, TurnOffLight})
      ensures outbox == old(outbox) + SwitchMessages(old(lightState), snap)
    {
      if TurnOnLight in snap {
        if lightState == Off {
          outbox := outbox + [StateMessage(true)];
        }
        bits := bits - {TurnOnLight};
        lightState := On;
      }
      if TurnOffLight in snap {
        if lightState == On {
          outbox := outbox + [StateMessage(false)];
        }
        bits := bits - {TurnOffLight};
        lightState := Off;
      }
    }

    /** MQTT_EVENT_DATA: the callback invocation the event leads to. */
    function OnData(topic: string, data: string): Option<ThresholdCall>
      reads this
    {
      Dispatch(callbacks, topic, data)
    }
  }

  // ---------------------------------------------------------------------
  // The publisher task
  // ---------------------------------------------------------------------

  /** The locals of `send_data`: one pair per metric.  None of the four
      pairs is initialised, so each starts as an arbitrary value of its own. */
  class Publisher {
    var temperature: Pair
    var humidity: Pair
    var soilMoisture: Pair
    var lightLevel: Pair

    /** The start of `send_data` (mqtt.c:166-171): announce the plant connected. */
    constructor (s: Session, temperature: Pair, humidity: Pair, soilMoisture: Pair, lightLevel: Pair)
      modifies s`outbox
      ensures this.temperature == temperature && this.humidity == humidity
      ensures this.soilMoisture == soilMoisture && this.lightLevel == lightLevel
      ensures s.outbox == old(s.outbox) + [Message(STATUS_TOPIC, Text("\"connected\""))]
    {
      this.temperature := temperature;
      this.humidity := humidity;
      this.soilMoisture := soilMoisture;
      this.lightLevel := lightLevel;
      new;
      s.outbox := s.outbox + [Message(STATUS_TOPIC, Text("\"connected\""))];
    }

    /** update_sensor_data (mqtt.c:94-101): read the four metrics through
        the measurement accessors, in this order, each with its own lock
        outcome. */
    method UpdateSensorData(e: Measurements.Engine, tLock: bool, hLock: bool, mLock: bool, lLock: bool)
      modifies this, e`moistureCache, e`lightCache
      ensures temperature == old(temperature).(current := Measurements.ReadingOrZero(e.ready && tLock, e.dht.temperature))
      ensures humidity == old(humidity).(current := Measurements.ReadingOrZero(e.ready && hLock, e.dht.humidity))
      ensures e.moistureCache == Measurements.LevelRead(e.ready && mLock, e.moistureValue, old(e.moistureCache))
      ensures e.lightCache == Measurements.LevelRead(e.ready && lLock, e.lightValue, old(e.lightCache))
      ensures soilMoisture == old(soilMoisture).(current := e.moistureCache)
      ensures lightLevel == old(lightLevel).(current := e.lightCache)
    {
      var t := e.GetTemperature(tLock);
      var h := e.GetHumidity(hLock);
      var m := e.GetSoilMoistureLevel(mLock);
      var l := e.GetLightLevel(lLock);
      temperature := temperature.(current := t);
      humidity := humidity.(current := h);
      soilMoisture := soilMoisture.(current := m);
      lightLevel := lightLevel.(current := l);
    }

    /** The four `send_*` (mqtt.c:103-164) on the pair of metric m: publish
        it when it changed, and remember it as sent. */
    method Send(s: Session, m: Metric)
      modifies this, s`outbox
      ensures s.outbox == old(s.outbox) + Published(old(PairOf(m)), m)
      ensures PairOf(m) == Pair(old(PairOf(m)).current, old(PairOf(m)).current)
      ensures forall other :: other != m ==> PairOf(other) == old(PairOf(other))
    {
      var p := PairOf(m);
      if p.current != p.last {
        s.outbox := s.outbox + [Message(Topic(m), Metric(p.current, Unit(m)))];
        match m
        case Temperature => temperature := temperature.(last := p.current);
        case Humidity => humidity := humidity.(last := p.current);
        case SoilMoisture => soilMoisture := soilMoisture.(last := p.current);
        case LightLevel => lightLevel := lightLevel.(last := p.current);
      }
    }

    function PairOf(m: Metric): Pair
      reads this
    {
      match m
      case Temperature => temperature
      case Humidity => humidity
      case SoilMoisture => soilMoisture
      case LightLevel => lightLevel
    }

    /** The connected branch of a publisher iteration (mqtt.c:180-193):
        announce an unset light state as off, then update and send the
        four metrics. */
    method Connected(s: Session, e: Measurements.Engine, tLock: bool, hLock: bool, mLock: bool, lLock: bool)
      modifies this, s`outbox, s`lightState, e`moistureCache, e`lightCache
      ensures s.lightState == AfterConnect(old(s.lightState), {ClientConnected})
      ensures temperature == Pair(temperature.current, temperature.current)
      ensures humidity == Pair(humidity.current, humidity.current)
      ensures soilMoisture == Pair(soilMoisture.current, soilMoisture.current)
      ensures lightLevel == Pair(lightLevel.current, lightLevel.current)
      ensures temperature.current == Measurements.ReadingOrZero(e.ready && tLock, e.dht.temperature)
      ensures humidity.current == Measurements.ReadingOrZero(e.ready && hLock, e.dht.humidity)
      ensures e.moistureCache == Measurements.LevelRead(e.ready && mLock, e.moistureValue, old(e.moistureCache))
      ensures e.lightCache == Measurements.LevelRead(e.ready && lLock, e.lightValue, old(e.lightCache))
      ensures soilMoisture.current == e.moistureCache && lightLevel.current == e.lightCache
      ensures s.outbox == old(s.outbox) + ConnectMessages(old(s.lightState), {ClientConnected})
        + Published(Pair(temperature.current, old(temperature.last)), Temperature)
        + Published(Pair(humidity.current, old(humidity.last)), Humidity)
        + Published(Pair(soilMoisture.current, old(soilMoisture.last)), SoilMoisture)
        + Published(Pair(lightLevel.current, old(lightLevel.last)), LightLevel)
    {
      if s.lightState == NotSet {
        s.outbox := s.outbox + [StateMessage(false)];
        s.lightState := Off;
      }
      UpdateSensorData(e, tLock, hLock, mLock, lLock);
      Send(s, Temperature);
      Send(s, Humidity);
      Send(s, SoilMoisture);
      Send(s, LightLevel);
    }

    /** One iteration of the `send_data` loop (mqtt.c:175-209) on the bits
        the wait returns, which are the waited bits that are set: the
        connected branch, then the turn-on and turn-off branches, each
        clearing its own bit.  CONNECTED itself is never cleared here. */
    method Step(s: Session, e: Measurements.Engine, tLock: bool, hLock: bool, mLock: bool, lLock: bool)
      modifies this, s`outbox, s`bits, s`lightState, e`moistureCache, e`lightCache
      ensures var snap := old(s.bits) * WAITED;
        && s.lightState == AfterSwitch(AfterConnect(old(s.lightState), snap), snap)
        && s.bits == old(s.bits) - (snap * {TurnOnLight, TurnOffLight})
      ensures ClientConnected in old(s.bits) ==> ClientConnected in s.bits
      ensures ClientConnected !in old(s.bits) ==>
        temperature == old(temperature) && humidity == old(humidity)
        && soilMoisture == old(soilMoisture) && lightLevel == old(lightLevel)
        && e.moistureCache == old(e.moistureCache) && e.lightCache == old(e.lightCache)
        && s.outbox == old(s.outbox) + SwitchMessages(old(s.lightState), old(s.bits) * WAITED)
      ensures ClientConnected in old(s.bits) ==>
        temperature == Pair(temperature.current, temperature.current)
        && humidity == Pair(humidity.current, humidity.current)
        && soilMoisture == Pair(soilMoisture.current, soilMoisture.current)
        && lightLevel == Pair(lightLevel.current, lightLevel.current)
        && temperature.current == Measurements.ReadingOrZero(e.ready && tLock, e.dht.temperature)
        && humidity.current == Measurements.ReadingOrZero(e.ready && hLock, e.dht.humidity)
        && e.moistureCache == Measurements.LevelRead(e.ready && mLock, e.moistureValue, old(e.moistureCache))
        && e.lightCache == Measurements.LevelRead(e.ready && lLock, e.lightValue, old(e.lightCache))
        && soilMoisture.current == e.moistureCache && lightLevel.current == e.lightCache
        && s.outbox == old(s.outbox) + ConnectMessages(old(s.lightState), {ClientConnected})
             + Published(Pair(temperature.current, old(temperature.last)), Temperature)
             + Published(Pair(humidity.current, old(humidity.last)), Humidity)
             + Published(Pair(soilMoisture.current, old(soilMoisture.last)), SoilMoisture)
             + Published(Pair(lightLevel.current, old(lightLevel.last)), LightLevel)
             + SwitchMessages(AfterConnect(old(s.lightState), {ClientConnected}), old(s.bits) * WAITED)
    {
      var snap := s.bits * WAITED;
      if ClientConnected in snap {
        Connected(s, e, tLock, hLock, mLock, lLock);
      }
      s.Switch(snap);
    }
  }
}
