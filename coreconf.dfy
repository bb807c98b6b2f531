/** The static payloads: the YANG-like schema of `/capabilities` and the resource list of `/.well-known/core`. */
module Coreconf {
  import opened Wrappers
  import opened Cbor
  import opened Coap
  import opened Replies

  function Leaf(kind: string, description: string): Value {
    VMap(map["type" := VText(kind), "description" := VText(description)])
  }

  /** `CoreconfManager.yang_model`. */
  const YANG_MODEL: Value := VMap(map[
    "module" := VText("sensor-data"),
    "namespace" := VText("urn:example:sensor-data"),
    "container" := VText("sensor-data"),
    "leaves" := VMap(map[
      "temperature" := Leaf("decimal64", "Temperature in Celsius"),
      "humidity" := Leaf("decimal64", "Humidity in percentage"),
      "timestamp" := Leaf("string", "Time of measurement"),
      "lightLevel" := Leaf("decimal64", "Light level in lux"),
      "binLevel" := Leaf("decimal64", "Bin fill percentage"),
      "ledStates" := VMap(map[
        "type" := VText("container"),
        "description" := VText("LED states"),
        "leaves" := VMap(map[
          "redLed" := Leaf("boolean", "Red LED state"),
          "yellowLed" := Leaf("boolean", "Yellow LED state"),
          "greenLed" := Leaf("boolean", "Green LED state")])])])])

  function Link(path: string, rt: string): Value {
    VMap(map["path" := VText(path), "rt" := VText(rt)])
  }

  /** The resource list the `/.well-known/core` handler encodes. */
  const DISCOVERY: Value := VMap(map["resources" := VArray([
    Link("/sensors", "sensors"),
    Link("/capabilities", "capabilities"),
    Link("/config", "config"),
    Link("/leds", "leds")])])

  /**
    `get_capabilities()`: the encoded schema, or the encoded error marker;
    None when both encodings raise.
   */
  function Capabilities(platform: Platform): (r: Option<Bytes>)
    ensures platform.encode(YANG_MODEL).Success? ==> r == Some(platform.encode(YANG_MODEL).value)
    ensures platform.encode(YANG_MODEL).Failure? && platform.encode(ENCODING_FAILED).Success? ==>
      r == Some(platform.encode(ENCODING_FAILED).value)
    ensures r.None? <==> platform.encode(YANG_MODEL).Failure? && platform.encode(ENCODING_FAILED).Failure?
  {
    EncodeWithFallback(platform, YANG_MODEL)
  }
}
