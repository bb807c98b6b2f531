/**
  The responses the resource handlers send, as functions of what they
  encode: the "encode, or else encode an error marker" pattern of the GET
  handlers, and the success/error sequence of the PUT handlers.
 */
module Replies {
  import opened Wrappers
  import opened Cbor
  import opened Coap

  /** `{"error": "encoding failed"}`. */
  const ENCODING_FAILED: Value := VMap(map["error" := VText("encoding failed")])

  /** `{"status": "updated", key: value}`. */
  function UpdatedPayload(key: string, value: Value): Value {
    VMap(map["status" := VText("updated"), key := value])
  }

  /** `{"status": "error", "message": str(e)}`. */
  function ErrorPayload(message: string): Value {
    VMap(map["status" := VText("error"), "message" := VText(message)])
  }

  /**
    `cbor.dumps(v)`, falling back to `cbor.dumps({"error": "encoding failed"})`
    when that raises; None when the fallback raises too (the exception then
    leaves the handler and nothing is sent).
   */
  function EncodeWithFallback(platform: Platform, v: Value): (r: Option<Bytes>)
    ensures platform.encode(v).Success? ==> r == Some(platform.encode(v).value)
    ensures platform.encode(v).Failure? && platform.encode(ENCODING_FAILED).Success? ==>
      r == Some(platform.encode(ENCODING_FAILED).value)
    ensures r.None? <==> platform.encode(v).Failure? && platform.encode(ENCODING_FAILED).Failure?
  {
    match platform.encode(v)
    case Success(bytes) => Some(bytes)
    case Failure(_) =>
      match platform.encode(ENCODING_FAILED)
      case Success(bytes) => Some(bytes)
      case Failure(_) => None
  }

  /**
    The answer to a supported GET: at most one 2.05 response to the
    sender, echoing the request's message id and token. A send that raises
    is caught and changes nothing further.
   */
  function ContentReplies(platform: Platform, packet: Packet, ip: Addr, port: Port, v: Value): (r: seq<Response>)
    ensures |r| <= 1
    ensures r == [] <==> EncodeWithFallback(platform, v).None?
    ensures r != [] ==> r[0] == Reply(packet, ip, port, EncodeWithFallback(platform, v).value, CONTENT)
    ensures platform.encode(v).Success? ==> r == [Reply(packet, ip, port, platform.encode(v).value, CONTENT)]
  {
    match EncodeWithFallback(platform, v)
    case Some(bytes) => [Reply(packet, ip, port, bytes, CONTENT)]
    case None => []
  }

  /**
    The except branch of a PUT handler: a 5.00 response carrying the
    encoded error message, or nothing when even that fails to encode (the
    exception then leaves the handler).
   */
  function ErrorReplies(platform: Platform, packet: Packet, ip: Addr, port: Port, message: string): (r: seq<Response>)
    ensures |r| <= 1
    ensures r == [] <==> platform.encode(ErrorPayload(message)).Failure?
    ensures r != [] ==> r[0] == Reply(packet, ip, port, platform.encode(ErrorPayload(message)).value, INTERNAL_SERVER_ERROR)
  {
    match platform.encode(ErrorPayload(message))
    case Success(bytes) => [Reply(packet, ip, port, bytes, INTERNAL_SERVER_ERROR)]
    case Failure(_) => []
  }

  /** The fields every response of a handler shares with the request it answers. */
  predicate AnswersRequest(r: seq<Response>, packet: Packet, ip: Addr, port: Port) {
    forall i :: 0 <= i < |r| ==>
      r[i].ip == ip && r[i].port == port && r[i].messageId == packet.messageId
      && r[i].token == packet.token && r[i].contentFormat == CONTENT_FORMAT
  }

  /**
    The responses of a PUT handler once the body has been decoded and the
    update applied. `outcome` is the new value of the resource, or the text
    of the decode error. On success, `{"status": "updated", key: value}` is
    sent with 2.04; a decode error, an encode error or a send that raises
    leads to one 5.00 error response instead (after the failed 2.04 attempt
    in the last case).
   */
  function PutReplies(platform: Platform, packet: Packet, ip: Addr, port: Port,
                      key: string, outcome: Result<Value, string>): (r: seq<Response>)
    ensures |r| <= 2 && AnswersRequest(r, packet, ip, port)
    ensures outcome.Failure? ==> r == ErrorReplies(platform, packet, ip, port, outcome.error)
    ensures (r != [] && r[0].code == CHANGED) <==>
      outcome.Success? && platform.encode(UpdatedPayload(key, outcome.value)).Success?
    ensures r != [] && r[0].code == CHANGED ==>
      r[0].payload == platform.encode(UpdatedPayload(key, outcome.value)).value
    ensures outcome.Success? && platform.encode(UpdatedPayload(key, outcome.value)).Failure? ==>
      r == ErrorReplies(platform, packet, ip, port, platform.encode(UpdatedPayload(key, outcome.value)).error)
    ensures outcome.Success? && platform.encode(UpdatedPayload(key, outcome.value)).Success? ==>
      var changed := Reply(packet, ip, port, platform.encode(UpdatedPayload(key, outcome.value)).value, CHANGED);
      r == [changed] + (if platform.sendFault(changed).Some?
                        then ErrorReplies(platform, packet, ip, port, platform.sendFault(changed).value)
                        else [])
    ensures forall i :: 1 <= i < |r| ==> r[i].code == INTERNAL_SERVER_ERROR
    ensures r != [] && r[0].code == CHANGED && platform.sendFault(r[0]).None? ==> |r| == 1
  {
    match outcome
    case Failure(message) => ErrorReplies(platform, packet, ip, port, message)
    case Success(value) =>
      match platform.encode(UpdatedPayload(key, value))
      case Failure(message) => ErrorReplies(platform, packet, ip, port, message)
      case Success(bytes) =>
        var changed := Reply(packet, ip, port, bytes, CHANGED);
        match platform.sendFault(changed)
        case None => [changed]
        case Some(message) => [changed] + ErrorReplies(platform, packet, ip, port, message)
  }
}
