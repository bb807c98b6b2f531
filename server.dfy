/**
  The CoAP resource server (main.py, `SensorServer`): the five resource
  handlers registered in `setup`, the observer registry, the notification
  fan-out and the change-detection step of the polling loop. Every
  `sendResponse` call is appended to `outbox`.
 */
module Server {
  import opened Wrappers
  import opened Cbor
  import opened Coap
  import opened Config
  import opened Sensors
  import opened Observe
  import opened Replies
  import opened Coreconf

  /** What a PUT on `/config` reports: the merged configuration, or the text of the decode error. */
  function ConfigPutOutcome(decoded: Result<Value, string>, config: map<string, Value>): (r: Result<Value, string>)
    ensures decoded.Failure? ==> r == Failure(decoded.error)
    ensures decoded.Success? ==> r == Success(VMap(MergeConfig(config, decoded.value)))
  {
    match decoded
    case Failure(message) => Failure(message)
    case Success(update) => Success(VMap(MergeConfig(config, update)))
  }

  class SensorServer {
    const sensors: SensorManager
    const configs: ConfigManager
    const platform: Platform
    /** `observers`: resource key to the registered `(ip, port, token)` tuples. */
    var observers: map<string, seq<Observer>>
    /** `last_led_state`: the copy of the LED state last notified. */
    var lastLedState: Value
    /** Every `sendResponse` call made so far, in order. */
    var outbox: seq<Response>

    ghost predicate Valid()
      reads this, sensors, configs
    {
      sensors.Valid() && configs.Valid() && RegistryInvariant(observers)
    }

    /** `SensorServer.__init__`: no observers yet; the snapshot is a copy of the current LED state. */
    constructor (sensors: SensorManager, configs: ConfigManager, platform: Platform)
      requires sensors.Valid() && configs.Valid() && Copyable(sensors.ledStates)
      ensures Valid()
      ensures this.sensors == sensors && this.configs == configs && this.platform == platform
      ensures observers == map[] && lastLedState == sensors.ledStates && outbox == []
    {
      this.sensors := sensors;
      this.configs := configs;
      this.platform := platform;
      observers := map[];
      lastLedState := sensors.ledStates;
      outbox := [];
    }

    /** Hands one response to the engine; reports the error text when the send raises. */
    method Send(response: Response) returns (fault: Option<string>)
      modifies this
      ensures outbox == old(outbox) + [response] && fault == platform.sendFault(response)
      ensures observers == old(observers) && lastLedState == old(lastLedState)
    {
      outbox := outbox + [response];
      fault := platform.sendFault(response);
    }

    /** Sends the answer to a supported GET, as `ContentReplies` describes. */
    method SendContent(packet: Packet, ip: Addr, port: Port, v: Value)
      modifies this
      ensures outbox == old(outbox) + ContentReplies(platform, packet, ip, port, v)
      ensures observers == old(observers) && lastLedState == old(lastLedState)
    {
      var body := EncodeWithFallback(platform, v);
      if body.Some? {
        var _ := Send(Reply(packet, ip, port, body.value, CONTENT));
      }
    }

    /** Sends the error response of a PUT handler's except branch. */
    method SendError(packet: Packet, ip: Addr, port: Port, message: string)
      modifies this
      ensures outbox == old(outbox) + ErrorReplies(platform, packet, ip, port, message)
      ensures observers == old(observers) && lastLedState == old(lastLedState)
    {
      var body := platform.encode(ErrorPayload(message));
      if body.Success? {
        var _ := Send(Reply(packet, ip, port, body.value, INTERNAL_SERVER_ERROR));
      }
    }

    /** The success path of a PUT handler, falling into the except branch on an encode or send error. */
    method SendUpdated(packet: Packet, ip: Addr, port: Port, key: string, value: Value)
      modifies this
      ensures outbox == old(outbox) + PutReplies(platform, packet, ip, port, key, Success(value))
      ensures observers == old(observers) && lastLedState == old(lastLedState)
    {
      var body := platform.encode(UpdatedPayload(key, value));
      if body.Failure? {
        SendError(packet, ip, port, body.error);
      } else {
        var fault := Send(Reply(packet, ip, port, body.value, CHANGED));
        if fault.Some? {
          SendError(packet, ip, port, fault.value);
        }
      }
    }

    /** `sensor_handler` (`/sensors`): the cached sample with 2.05 for any method, nothing before the first sample. */
    method SensorsHandler(packet: Packet, ip: Addr, port: Port)
      requires Valid()
      modifies this
      ensures Valid()
      ensures sensors.lastData.None? ==> outbox == old(outbox)
      ensures sensors.lastData.Some? ==>
        outbox == old(outbox) + ContentReplies(platform, packet, ip, port, RecordPayload(sensors.lastData.value))
      ensures observers == old(observers) && lastLedState == old(lastLedState)
    {
      var data := sensors.lastData;
      if data.Some? {
        SendContent(packet, ip, port, RecordPayload(data.value));
      }
    }

    /** `capabilities_handler` (`/capabilities`): the encoded schema for a GET, no response otherwise. */
    method CapabilitiesHandler(packet: Packet, ip: Addr, port: Port)
      requires Valid()
      modifies this
      ensures Valid()
      ensures packet.verb == Get ==> outbox == old(outbox) + ContentReplies(platform, packet, ip, port, YANG_MODEL)
      ensures packet.verb != Get ==> outbox == old(outbox)
      ensures observers == old(observers) && lastLedState == old(lastLedState)
    {
      if packet.verb == Get {
        var body := Capabilities(platform);
        if body.Some? {
          var _ := Send(Reply(packet, ip, port, body.value, CONTENT));
        }
      }
    }

    /** `well_known_handler` (`/.well-known/core`): the encoded resource list for a GET, no response otherwise. */
    method WellKnownHandler(packet: Packet, ip: Addr, port: Port)
      requires Valid()
      modifies this
      ensures Valid()
      ensures packet.verb == Get ==> outbox == old(outbox) + ContentReplies(platform, packet, ip, port, DISCOVERY)
      ensures packet.verb != Get ==> outbox == old(outbox)
      ensures observers == old(observers) && lastLedState == old(lastLedState)
    {
      if packet.verb == Get {
        SendContent(packet, ip, port, DISCOVERY);
      }
    }

    /**
      `config_handler` (`/config`): a GET answers the configuration with
      2.05; a PUT merges the decoded body and answers as `PutReplies`; any
      other method gets no response.
     */
    method ConfigHandler(packet: Packet, ip: Addr, port: Port)
      requires Valid()
      modifies this, configs
      ensures Valid()
      ensures packet.verb == Get ==>
        configs.config == old(configs.config)
        && outbox == old(outbox) + ContentReplies(platform, packet, ip, port, VMap(old(configs.config)))
      ensures packet.verb == Put ==>
        var decoded := platform.decode(packet.payload);
        && configs.config == (if decoded.Success? then MergeConfig(old(configs.config), decoded.value) else old(configs.config))
        && outbox == old(outbox) + PutReplies(platform, packet, ip, port, "config", ConfigPutOutcome(decoded, old(configs.config)))
      ensures packet.verb != Get && packet.verb != Put ==> configs.config == old(configs.config) && outbox == old(outbox)
      ensures observers == old(observers) && lastLedState == old(lastLedState)
    {
      if packet.verb == Get {
        var cfg := configs.GetConfig();
        SendContent(packet, ip, port, VMap(cfg));
      } else if packet.verb == Put {
        var decoded := platform.decode(packet.payload);
        if decoded.Failure? {
          SendError(packet, ip, port, decoded.error);
        } else {
          configs.UpdateConfig(decoded.value);
          var cfg := configs.GetConfig();
          SendUpdated(packet, ip, port, "config", VMap(cfg));
        }
      }
    }

    /**
      `leds_handler` (`/leds`): a GET carrying Observe 0 registers the
      sender under `leds` (without duplicates), and every GET answers the
      LED state with 2.05; a PUT stores the decoded item as the new LED
      state, whatever its keys, and answers as `PutReplies`; any other method
      gets no response.
     */
    method LedsHandler(packet: Packet, ip: Addr, port: Port)
      requires Valid()
      modifies this, sensors
      ensures Valid()
      ensures packet.verb == Get ==>
        && observers == (if packet.observe == Some(0) then RegisterObserver(old(observers), Observer(ip, port, packet.token))
                         else old(observers))
        && outbox == old(outbox) + ContentReplies(platform, packet, ip, port, old(sensors.ledStates))
      ensures packet.verb == Put ==>
        var decoded := platform.decode(packet.payload);
        && observers == old(observers)
        && outbox == old(outbox) + PutReplies(platform, packet, ip, port, "ledStates", decoded)
        && (decoded.Success? ==>
              sensors.ledStates == decoded.value && sensors.pins == WrittenPins(decoded.value, old(sensors.pins))
              && !sensors.lastDataSharesLeds)
      ensures packet.verb != Put || platform.decode(packet.payload).Failure? ==>
        sensors.ledStates == old(sensors.ledStates) && sensors.pins == old(sensors.pins)
        && sensors.lastDataSharesLeds == old(sensors.lastDataSharesLeds)
      ensures sensors.lastData == old(sensors.lastData)
      ensures packet.verb != Get && packet.verb != Put ==> outbox == old(outbox) && observers == old(observers)
      ensures lastLedState == old(lastLedState)
    {
      if packet.verb == Get {
        if packet.observe == Some(0) {
          observers := RegisterObserver(observers, Observer(ip, port, packet.token));
        }
        SendContent(packet, ip, port, sensors.ledStates);
      } else if packet.verb == Put {
        var decoded := platform.decode(packet.payload);
        if decoded.Failure? {
          SendError(packet, ip, port, decoded.error);
        } else {
          sensors.UpdateLedStates(decoded.value);
          SendUpdated(packet, ip, port, "ledStates", sensors.ledStates);
        }
      }
    }

    /**
      `notify_observers(resource, payload)` at clock reading `now`: the
      sends `NotifyReplies` lists, one loop iteration per observer.
     */
    method NotifyObservers(resource: string, payload: Value, now: int)
      modifies this
      ensures outbox == old(outbox) + NotifyReplies(platform, observers, resource, payload, now)
      ensures observers == old(observers) && lastLedState == old(lastLedState)
    {
      if resource !in observers {
        return;
      }
      var body := platform.encode(payload);
      if body.Failure? {
        return;
      }
      var messageId := NotificationId(now);
      var list := observers[resource];
      ghost var before := outbox;
      var i := 0;
      while i < |list|
        invariant 0 <= i <= |list|
        invariant observers == old(observers) && lastLedState == old(lastLedState)
        invariant outbox == before + FanOut(list[..i], body.value, messageId)
      {
        var o := list[i];
        var _ := Send(Notification(o, body.value, messageId));
        assert list[..i + 1][..i] == list[..i];
        i := i + 1;
      }
      assert list[..i] == list;
    }

    /**
      One change-detection step of `run`: when the live LED state differs
      (Python `!=`) from the snapshot, notify the `leds` observers and then
      refresh the snapshot with `.copy()`. `ok` is false when that copy
      raises (the item has no `.copy()`): the exception leaves `run`, the
      notifications having been sent and the snapshot left as it was.
     */
    method PollTick(now: int) returns (ok: bool)
      requires Valid()
      modifies this
      ensures Valid()
      ensures var changed := !PyEq(sensors.ledStates, old(lastLedState));
        && (!changed ==> outbox == old(outbox) && lastLedState == old(lastLedState) && ok)
        && (changed ==> outbox == old(outbox) + NotifyReplies(platform, observers, LEDS_RESOURCE, sensors.ledStates, now))
        && (changed && ok ==> lastLedState == sensors.ledStates)
        && (ok <==> !changed || Copyable(sensors.ledStates))
      ensures ok ==> PyEq(sensors.ledStates, lastLedState)
      ensures !ok ==> lastLedState == old(lastLedState)
      ensures observers == old(observers)
    {
      var current := sensors.ledStates;
      ok := true;
      if !PyEq(current, lastLedState) {
        NotifyObservers(LEDS_RESOURCE, current, now);
        if Copyable(current) {
          lastLedState := current;
          PyEqReflexive(current);
        } else {
          ok := false;
        }
      }
    }
  }

  /**
    One iteration of `sensor_sampling_loop`: take a sample, then read the
    interval to sleep from the configuration as it is now.
   */
  method SamplingStep(sensors: SensorManager, configs: ConfigManager, readings: Readings, clock: Timestamps.DateTime)
    returns (data: Option<SensorRecord>, interval: Value)
    requires sensors.Valid() && configs.Valid()
    modifies sensors
    ensures sensors.Valid()
    ensures data == SampledRecord(readings, clock, old(sensors.ledStates))
    ensures data.Some? ==> sensors.lastData == data
    ensures data.Some? ==> sensors.lastDataSharesLeds
    ensures data.None? ==> sensors.lastData == old(sensors.lastData) && sensors.lastDataSharesLeds == old(sensors.lastDataSharesLeds)
    ensures sensors.ledStates == old(sensors.ledStates) && sensors.pins == old(sensors.pins)
    ensures interval == SleepInterval(configs.config) && interval == configs.config[SAMPLING_INTERVAL]
  {
    data := sensors.GetSensorData(readings, clock);
    interval := configs.SampleInterval();
  }
}
