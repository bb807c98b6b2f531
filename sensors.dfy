/**
  The sensor side of the device (main.py, `SensorManager`): the LED state
  dict and the three LED pins it drives, the red-LED toggle the button
  triggers, and the cached last sample.
 */
module Sensors {
  import opened Wrappers
  import opened Cbor
  import opened Timestamps

  const RED_LED := "redLed"
  const YELLOW_LED := "yellowLed"
  const GREEN_LED := "greenLed"

  /** `PinConfig.MAX_BIN_HEIGHT`, in cm. */
  const MAX_BIN_HEIGHT: real := 100.0

  /** The LED state dict a fresh manager holds. */
  const INITIAL_LED_STATES: Value :=
    VMap(map[RED_LED := VBool(false), YELLOW_LED := VBool(false), GREEN_LED := VBool(false)])

  /** The output levels of the red, yellow and green LED pins. */
  datatype LedPins = LedPins(red: bool, yellow: bool, green: bool)

  /**
    The pin levels after `update_led_states(states)` writes them: each pin
    takes the truthiness of `states.get(key, 0)` (a MicroPython pin accepts
    any object). For an item that is not a dict the first `.get` raises, the
    error is caught and no pin is written.
   */
  function WrittenPins(states: Value, pins: LedPins): (r: LedPins)
    ensures states.VMap? ==> r.red == (RED_LED in states.entries && Truthy(states.entries[RED_LED]))
    ensures states.VMap? ==> r.yellow == (YELLOW_LED in states.entries && Truthy(states.entries[YELLOW_LED]))
    ensures states.VMap? ==> r.green == (GREEN_LED in states.entries && Truthy(states.entries[GREEN_LED]))
    ensures !states.VMap? ==> r == pins
  {
    if states.VMap? then
      LedPins(Truthy(Get(states.entries, RED_LED, VInt(0))),
              Truthy(Get(states.entries, YELLOW_LED, VInt(0))),
              Truthy(Get(states.entries, GREEN_LED, VInt(0))))
    else
      pins
  }

  /**
    The LED state after `toggle_red_led`: `led_states["redLed"] = not
    led_states["redLed"]`. Only a dict holding the key changes; otherwise
    the subscript raises (KeyError or TypeError), which is caught.
   */
  function ToggledRed(states: Value): (r: Value)
    ensures states.VMap? && RED_LED in states.entries ==>
      && r.VMap? && r.entries.Keys == states.entries.Keys
      && r.entries[RED_LED] == VBool(!Truthy(states.entries[RED_LED]))
      && forall k :: k in states.entries && k != RED_LED ==> r.entries[k] == states.entries[k]
    ensures !(states.VMap? && RED_LED in states.entries) ==> r == states
  {
    if states.VMap? && RED_LED in states.entries then
      VMap(states.entries[RED_LED := VBool(!Truthy(states.entries[RED_LED]))])
    else
      states
  }

  /** Two toggles restore a dict whose red entry is a bool. */
  lemma ToggleTwiceRestores(states: Value)
    requires states.VMap? && RED_LED in states.entries && states.entries[RED_LED].VBool?
    ensures ToggledRed(ToggledRed(states)) == states
  {
    var m := states.entries;
    var twice := ToggledRed(ToggledRed(states)).entries;
    assert twice.Keys == m.Keys;
    assert forall k :: k in m ==> twice[k] == m[k];
  }

  /** The yellow and green entries are never touched by a toggle. */
  lemma ToggleKeepsOtherLeds(states: Value)
    requires states.VMap?
    ensures var r := ToggledRed(states);
      && r.VMap?
      && (YELLOW_LED in r.entries <==> YELLOW_LED in states.entries)
      && (GREEN_LED in r.entries <==> GREEN_LED in states.entries)
      && (YELLOW_LED in states.entries ==> r.entries[YELLOW_LED] == states.entries[YELLOW_LED])
      && (GREEN_LED in states.entries ==> r.entries[GREEN_LED] == states.entries[GREEN_LED])
  {
  }

  /** What the DHT22 temperature/humidity sensor delivers for one sample. */
  datatype DhtReading =
    | DhtAbsent                                  // the sensor failed to initialise
    | DhtFault                                   // `measure()` raised
    | DhtSample(temperature: real, humidity: real)

  /**
    The hardware reads of one sample. `lightLevel` is what `get_light_level`
    returns (None for a missing sensor or a failed read); `distance` is what
    the ultrasonic sensor reports in cm (None for a missing sensor, a raised
    error or no echo).
   */
  datatype Readings = Readings(dht: DhtReading, lightLevel: Option<int>, distance: Option<real>)

  /** One cached sample, the dict `get_sensor_data` builds. */
  datatype SensorRecord = SensorRecord(
    timestamp: string,
    temperature: Option<real>,
    humidity: Option<real>,
    lightLevel: Option<int>,
    binLevel: Option<real>,
    ledStates: Value)

  /**
    `get_distance`: the bin fill percentage for a distance no greater than
    the bin height, None otherwise. The percentage is computed exactly here
    (the source rounds a float to two places).
   */
  function BinLevel(distance: Option<real>): (r: Option<real>)
    ensures r.Some? <==> distance.Some? && distance.value <= MAX_BIN_HEIGHT
    ensures r.Some? && 0.0 <= distance.value ==> 0.0 <= r.value <= 100.0
    ensures r.Some? ==> r.value == 100.0 - distance.value
  {
    if distance.Some? && distance.value <= MAX_BIN_HEIGHT then
      Some((MAX_BIN_HEIGHT - distance.value) / MAX_BIN_HEIGHT * 100.0)
    else
      None
  }

  /**
    The record a sample yields, or None when the DHT22 read raises (the
    only failure that escapes to `get_sensor_data`'s handler; the other
    sensors degrade to None on their own).
   */
  function SampledRecord(r: Readings, clock: DateTime, leds: Value): (rec: Option<SensorRecord>)
    ensures rec.None? <==> r.dht.DhtFault?
    ensures rec.Some? ==>
      && rec.value.timestamp == Timestamp(clock)
      && rec.value.ledStates == leds
      && rec.value.lightLevel == r.lightLevel
      && rec.value.binLevel == BinLevel(r.distance)
      && (rec.value.temperature.Some? <==> r.dht.DhtSample?)
      && (rec.value.humidity.Some? <==> r.dht.DhtSample?)
      && (r.dht.DhtSample? ==> rec.value.temperature == Some(r.dht.temperature) && rec.value.humidity == Some(r.dht.humidity))
  {
    match r.dht
    case DhtFault => None
    case DhtAbsent =>
      Some(SensorRecord(Timestamp(clock), None, None, r.lightLevel, BinLevel(r.distance), leds))
    case DhtSample(t, h) =>
      Some(SensorRecord(Timestamp(clock), Some(t), Some(h), r.lightLevel, BinLevel(r.distance), leds))
  }

  function OptionalReal(x: Option<real>): Value {
    if x.Some? then VFloat(x.value) else VNull
  }

  function OptionalInt(x: Option<int>): Value {
    if x.Some? then VInt(x.value) else VNull
  }

  /** The dict a record is, as the `/sensors` resource encodes it. */
  function RecordPayload(rec: SensorRecord): (v: Value)
    ensures v.VMap? && v.entries.Keys == {"timestamp", "temperature", "humidity", "lightLevel", "binLevel", "ledStates"}
    ensures v.entries["timestamp"] == VText(rec.timestamp) && v.entries["ledStates"] == rec.ledStates
    ensures v.entries["temperature"] == OptionalReal(rec.temperature)
    ensures v.entries["humidity"] == OptionalReal(rec.humidity)
    ensures v.entries["lightLevel"] == OptionalInt(rec.lightLevel)
    ensures v.entries["binLevel"] == OptionalReal(rec.binLevel)
  {
    VMap(map[
      "timestamp" := VText(rec.timestamp),
      "temperature" := OptionalReal(rec.temperature),
      "humidity" := OptionalReal(rec.humidity),
      "lightLevel" := OptionalInt(rec.lightLevel),
      "binLevel" := OptionalReal(rec.binLevel),
      "ledStates" := rec.ledStates])
  }

  class SensorManager {
    /** `led_states`: whatever item was last stored, normally a dict of three bools. */
    var ledStates: Value
    var pins: LedPins
    /** `last_data`: the last successful sample. */
    var lastData: Option<SensorRecord>
    /**
      True while `last_data["ledStates"]` is the very dict object held in
      `led_states` (as after a sample, until a PUT replaces `led_states`):
      an in-place toggle is then visible through the cached sample too.
     */
    var lastDataSharesLeds: bool

    ghost predicate Valid()
      reads this
    {
      lastDataSharesLeds ==> lastData.Some? && lastData.value.ledStates == ledStates
    }

    /** The pins are not written at start-up; the model starts them low. */
    constructor ()
      ensures Valid()
      ensures ledStates == INITIAL_LED_STATES && lastData == None && !lastDataSharesLeds
      ensures pins == LedPins(false, false, false)
    {
      ledStates := INITIAL_LED_STATES;
      pins := LedPins(false, false, false);
      lastData := None;
      lastDataSharesLeds := false;
    }

    /**
      `update_led_states(new_states)`: the state becomes exactly the given
      item, whatever keys it has, and the pins are written from it. The
      cached sample keeps the dict it referred to.
     */
    method UpdateLedStates(newStates: Value)
      requires Valid()
      modifies this
      ensures Valid()
      ensures ledStates == newStates
      ensures pins == WrittenPins(newStates, old(pins))
      ensures lastData == old(lastData) && !lastDataSharesLeds
    {
      ledStates := newStates;
      lastDataSharesLeds := false;
      pins := WrittenPins(newStates, pins);
    }

    /**
      `toggle_red_led()`: flips the red entry in place and rewrites the pins
      from the dict; the cached sample sees the change while it shares the dict.
     */
    method ToggleRedLed()
      requires Valid()
      modifies this
      ensures Valid()
      ensures ledStates == ToggledRed(old(ledStates))
      ensures old(ledStates).VMap? && RED_LED in old(ledStates).entries ==> pins == WrittenPins(ledStates, old(pins))
      ensures !(old(ledStates).VMap? && RED_LED in old(ledStates).entries) ==>
        ledStates == old(ledStates) && pins == old(pins) && lastData == old(lastData)
      ensures lastDataSharesLeds == old(lastDataSharesLeds)
      ensures old(lastData).Some? && old(lastDataSharesLeds) ==> lastData == Some(old(lastData).value.(ledStates := ledStates))
      ensures !old(lastDataSharesLeds) ==> lastData == old(lastData)
    {
      if ledStates.VMap? && RED_LED in ledStates.entries {
        var current := ledStates.entries;
        ledStates := VMap(current[RED_LED := VBool(!Truthy(current[RED_LED]))]);
        if lastDataSharesLeds {
          lastData := Some(lastData.value.(ledStates := ledStates));
        }
        // `update_led_states(self.led_states)`: the same object, so nothing else changes.
        pins := WrittenPins(ledStates, pins);
      }
    }

    /**
      `get_sensor_data()`: on success the new record is cached and returned,
      and it refers to the live LED dict; when the DHT22 read raises,
      None is returned and the cache is left as it was.
     */
    method GetSensorData(readings: Readings, clock: DateTime) returns (data: Option<SensorRecord>)
      requires Valid()
      modifies this
      ensures Valid()
      ensures data == SampledRecord(readings, clock, old(ledStates))
      ensures data.Some? ==> lastData == data && lastDataSharesLeds
      ensures data.None? ==> lastData == old(lastData) && lastDataSharesLeds == old(lastDataSharesLeds)
      ensures ledStates == old(ledStates) && pins == old(pins)
    {
      var temperature: Option<real>, humidity: Option<real>;
      match readings.dht {
        case DhtFault =>
          return None;
        case DhtAbsent =>
          temperature, humidity := None, None;
        case DhtSample(t, h) =>
          temperature, humidity := Some(t), Some(h);
      }
      var record := SensorRecord(Timestamp(clock), temperature, humidity,
                                 readings.lightLevel, BinLevel(readings.distance), ledStates);
      lastData := Some(record);
      lastDataSharesLeds := true;
      data := lastData;
    }
  }
}
