/**
  The observer registry of the `/leds` resource (RFC 7641) and the
  notifications `notify_observers` fans out to it.
 */
module Observe {
  import opened Wrappers
  import opened Cbor
  import opened Coap

  /** The registry key the `/leds` handler registers under (no leading slash). */
  const LEDS_RESOURCE := "leds"

  /** One registration: where to send notifications and the token to echo. */
  datatype Observer = Observer(ip: Addr, port: Port, token: Bytes)

  predicate NoDuplicates(s: seq<Observer>) {
    forall i, j :: 0 <= i < j < |s| ==> s[i] != s[j]
  }

  /** The invariant of the registry: only the `leds` key is ever used, and no list holds a tuple twice. */
  ghost predicate RegistryInvariant(observers: map<string, seq<Observer>>) {
    forall key :: key in observers ==> key == LEDS_RESOURCE && NoDuplicates(observers[key])
  }

  /** `if o not in lst: lst.append(o)`. */
  function Registered(list: seq<Observer>, o: Observer): (r: seq<Observer>)
    ensures o in r
    ensures o in list ==> r == list
    ensures o !in list ==> r == list + [o]
    ensures NoDuplicates(list) ==> NoDuplicates(r)
  {
    if o in list then list else list + [o]
  }

  /** The registry after `setdefault('leds', [])` and the duplicate-checked append. */
  function RegisterObserver(observers: map<string, seq<Observer>>, o: Observer): (r: map<string, seq<Observer>>)
    ensures r.Keys == observers.Keys + {LEDS_RESOURCE}
    ensures o in r[LEDS_RESOURCE]
    ensures LEDS_RESOURCE in observers ==>
      observers[LEDS_RESOURCE] <= r[LEDS_RESOURCE] && |r[LEDS_RESOURCE]| <= |observers[LEDS_RESOURCE]| + 1
    ensures LEDS_RESOURCE in observers ==> r[LEDS_RESOURCE] == Registered(observers[LEDS_RESOURCE], o)
    ensures LEDS_RESOURCE !in observers ==> r[LEDS_RESOURCE] == [o]
    ensures forall key :: key in observers && key != LEDS_RESOURCE ==> r[key] == observers[key]
    ensures RegistryInvariant(observers) ==> RegistryInvariant(r)
  {
    var list := if LEDS_RESOURCE in observers then observers[LEDS_RESOURCE] else [];
    observers[LEDS_RESOURCE := Registered(list, o)]
  }

  /** Registering the same tuple again leaves the registry as it is. */
  lemma RegisterIdempotent(observers: map<string, seq<Observer>>, o: Observer)
    ensures RegisterObserver(RegisterObserver(observers, o), o) == RegisterObserver(observers, o)
  {
  }

  /** The notification to one observer: code 2.05, its own address and token, the shared payload and id. */
  function Notification(o: Observer, payload: Bytes, messageId: int): Response {
    Response(o.ip, o.port, messageId, payload, CONTENT, CONTENT_FORMAT, o.token)
  }

  /** One notification per observer, in registration order. */
  function FanOut(list: seq<Observer>, payload: Bytes, messageId: int): (r: seq<Response>)
    ensures |r| == |list|
    ensures forall i :: 0 <= i < |list| ==> r[i] == Notification(list[i], payload, messageId)
    decreases |list|
  {
    if list == [] then []
    else FanOut(list[..|list| - 1], payload, messageId) + [Notification(list[|list| - 1], payload, messageId)]
  }

  /** `int(utime.time()) & 0xFFFF`. */
  function NotificationId(now: int): (id: int)
    ensures 0 <= id <= 0xFFFF
    ensures (now - id) % 0x1_0000 == 0
  {
    now % 0x1_0000
  }

  /**
    The `sendResponse` calls of `notify_observers(resource, payload)` at
    clock reading `now`: none for a resource nobody observes or a payload
    that fails to encode; otherwise exactly one per registered observer, in
    list order, each with that observer's ip, port and token, the same
    encoded payload, code 2.05 and one shared message id. A send that
    raises is caught, so it does not stop the others.
   */
  function NotifyReplies(platform: Platform, observers: map<string, seq<Observer>>, resource: string,
                         payload: Value, now: int): (r: seq<Response>)
    ensures resource !in observers || platform.encode(payload).Failure? ==> r == []
    ensures resource in observers && platform.encode(payload).Success? ==>
      && |r| == |observers[resource]|
      && forall i :: 0 <= i < |r| ==>
        var o := observers[resource][i];
        && r[i].ip == o.ip && r[i].port == o.port && r[i].token == o.token
        && r[i].payload == platform.encode(payload).value
        && r[i].code == CONTENT && r[i].contentFormat == CONTENT_FORMAT
        && r[i].messageId == NotificationId(now)
  {
    if resource !in observers then []
    else
      match platform.encode(payload)
      case Failure(_) => []
      case Success(bytes) => FanOut(observers[resource], bytes, NotificationId(now))
  }
}
