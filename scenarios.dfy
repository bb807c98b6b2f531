/**
  Client-side runs of the server on fresh objects, as the application
  wires them: what a sequence of requests and events is guaranteed to
  produce, proved from the contracts of the handlers alone.
 */
module Scenarios {
  import opened Wrappers
  import opened Cbor
  import opened Coap
  import opened Config
  import opened Sensors
  import opened Observe
  import opened Replies
  import opened Server

  /** A server over freshly constructed managers, as `CoAPApplication.__init__` builds it. */
  method FreshServer(platform: Platform) returns (server: SensorServer)
    ensures fresh(server) && fresh(server.sensors) && fresh(server.configs) && server.Valid()
    ensures server.platform == platform && server.outbox == [] && server.observers == map[]
    ensures server.sensors.ledStates == INITIAL_LED_STATES && server.lastLedState == INITIAL_LED_STATES
    ensures server.sensors.lastData == None && server.configs.config == DEFAULT_CONFIG
  {
    var sensors := new SensorManager();
    var configs := new ConfigManager();
    server := new SensorServer(sensors, configs, platform);
  }

  /**
    Two identical PUTs on `/leds` leave the same LED state, each answers or
    stays silent alike and their first responses agree, whatever the engine's
    sends do; a later GET from another caller answers that state.
   */
  method IdenticalLedPuts(platform: Platform, put: Packet, ip: Addr, port: Port, get: Packet, otherIp: Addr, otherPort: Port)
    returns (first: seq<Response>, second: seq<Response>, afterFirst: Value, afterSecond: Value, read: seq<Response>)
    requires put.verb == Put && get.verb == Get
    ensures afterFirst == afterSecond
    ensures (first == []) == (second == [])
    ensures first != [] ==> first[0] == second[0]
    ensures platform.decode(put.payload).Success? ==> afterSecond == platform.decode(put.payload).value
    ensures read == ContentReplies(platform, get, otherIp, otherPort, afterSecond)
  {
    var server := FreshServer(platform);
    server.LedsHandler(put, ip, port);
    first := server.outbox;
    afterFirst := server.sensors.ledStates;
    var mark := |server.outbox|;
    server.LedsHandler(put, ip, port);
    second := server.outbox[mark..];
    afterSecond := server.sensors.ledStates;
    mark := |server.outbox|;
    server.LedsHandler(get, otherIp, otherPort);
    read := server.outbox[mark..];
  }

  /**
    A fresh server answers `{sampling_interval: 10}`; a PUT of
    `{sampling_interval: 5}` answers the updated configuration with 2.04
    and the next GET answers it with 2.05.
   */
  method ConfigRoundTrip(platform: Platform, get: Packet, put: Packet, ip: Addr, port: Port)
    returns (initial: seq<Response>, updated: seq<Response>, reread: seq<Response>, interval: Value)
    requires get.verb == Get && put.verb == Put
    requires platform.decode(put.payload) == Success(VMap(map[SAMPLING_INTERVAL := VInt(5)]))
    ensures initial == ContentReplies(platform, get, ip, port, VMap(DEFAULT_CONFIG))
    ensures updated == PutReplies(platform, put, ip, port, "config", Success(VMap(map[SAMPLING_INTERVAL := VInt(5)])))
    ensures reread == ContentReplies(platform, get, ip, port, VMap(map[SAMPLING_INTERVAL := VInt(5)]))
    ensures interval == VInt(5)
  {
    var server := FreshServer(platform);
    var five := map[SAMPLING_INTERVAL := VInt(5)];
    assert DEFAULT_CONFIG[SAMPLING_INTERVAL := VInt(5)] == five;
    server.ConfigHandler(get, ip, port);
    initial := server.outbox;
    var mark := |server.outbox|;
    server.ConfigHandler(put, ip, port);
    updated := server.outbox[mark..];
    mark := |server.outbox|;
    server.ConfigHandler(get, ip, port);
    reread := server.outbox[mark..];
    interval := server.configs.SampleInterval();
  }

  /** The LED state after one button press on a fresh device. */
  const PRESSED: Value := VMap(map[RED_LED := VBool(true), YELLOW_LED := VBool(false), GREEN_LED := VBool(false)])

  /** A press flips the initial state to `PRESSED`, which compares as different from it. */
  lemma FirstPress()
    ensures ToggledRed(INITIAL_LED_STATES) == PRESSED
    ensures !PyEq(PRESSED, INITIAL_LED_STATES)
  {
    assert INITIAL_LED_STATES.entries[RED_LED := VBool(true)] == PRESSED.entries;
    assert !PyEq(PRESSED.entries[RED_LED], INITIAL_LED_STATES.entries[RED_LED]);
  }

  /** With a single observer registered, a notification is one response to it, or none when the payload fails to encode. */
  lemma NotifySingleObserver(platform: Platform, o: Observer, payload: Value, now: int)
    ensures NotifyReplies(platform, map[LEDS_RESOURCE := [o]], LEDS_RESOURCE, payload, now) ==
      match platform.encode(payload)
      case Success(bytes) => [Notification(o, bytes, NotificationId(now))]
      case Failure(_) => []
  {
    var r := NotifyReplies(platform, map[LEDS_RESOURCE := [o]], LEDS_RESOURCE, payload, now);
    if platform.encode(payload).Success? {
      assert |r| == 1;
    }
  }

  /**
    One observer registers on `/leds`; a button press toggles red; the next
    poll step sends exactly one notification, to that observer with its
    token, carrying `{redLed: true, yellowLed: false, greenLed: false}`.
   */
  method ButtonPressNotifies(platform: Platform, observe: Packet, ip: Addr, port: Port, now: int)
    returns (notified: seq<Response>, ok: bool)
    requires observe.verb == Get && observe.observe == Some(0)
    ensures ok
    ensures platform.encode(PRESSED).Success? ==>
      notified == [Notification(Observer(ip, port, observe.token), platform.encode(PRESSED).value, NotificationId(now))]
    ensures platform.encode(PRESSED).Failure? ==> notified == []
  {
    var server := FreshServer(platform);
    var o := Observer(ip, port, observe.token);
    server.LedsHandler(observe, ip, port);
    assert Registered([], o) == [o];
    assert server.observers == map[LEDS_RESOURCE := [o]];
    server.sensors.ToggleRedLed();
    FirstPress();
    assert server.sensors.ledStates == PRESSED;
    var mark := |server.outbox|;
    ok := server.PollTick(now);
    notified := server.outbox[mark..];
    assert server.outbox == server.outbox[..mark] + NotifyReplies(platform, server.observers, LEDS_RESOURCE, PRESSED, now);
    assert notified == NotifyReplies(platform, server.observers, LEDS_RESOURCE, PRESSED, now);
    NotifySingleObserver(platform, o, PRESSED, now);
  }
}
