/**
  What the resource server sees of the CoAP engine (RFC 7252): the request
  packet handed to a resource callback, the argument list of a
  `sendResponse` call, the response codes the server uses, and the
  platform capabilities it calls into (the CBOR codec and the send itself).
 */
module Coap {
  import opened Wrappers
  import opened Cbor

  /** 2.05 Content (section 5.9.1.4 and 12.1.2 of RFC 7252). */
  const CONTENT := 0x45
  /** 2.04 Changed (section 5.9.1.3 of RFC 7252). */
  const CHANGED := 0x44
  /** 5.00 Internal Server Error (section 5.9.3.1 of RFC 7252). */
  const INTERNAL_SERVER_ERROR := 0x50
  /** The content-format argument every response of the server passes. */
  const CONTENT_FORMAT := 0

  type Addr = string

  type Port = int

  datatype Method = Get | Post | Put | Delete

  /**
    An inbound request; `verb` is its method code. `observe` is the Observe option value
    (section 2 of RFC 7641), `None` when the packet has no such attribute.
   */
  datatype Packet = Packet(verb: Method, messageId: int, token: Bytes, payload: Bytes, observe: Option<int>)

  /** The arguments of one `sendResponse(ip, port, message_id, payload, code, content_format, token)` call. */
  datatype Response = Response(ip: Addr, port: Port, messageId: int, payload: Bytes, code: int, contentFormat: int, token: Bytes)

  /**
    The foreign capabilities the server calls: `cbor.dumps` and `cbor.loads`,
    each of which may raise (the error text is `str(e)`), and whether
    `sendResponse` raises for a given response (and with what text).
   */
  datatype Platform = Platform(
    encode: Value -> Result<Bytes, string>,
    decode: Bytes -> Result<Value, string>,
    sendFault: Response -> Option<string>)

  /** A response to `packet`, sent back to its sender with its message id and token. */
  function Reply(packet: Packet, ip: Addr, port: Port, payload: Bytes, code: int): (r: Response)
    ensures r.ip == ip && r.port == port && r.token == packet.token && r.messageId == packet.messageId
    ensures r.payload == payload && r.code == code && r.contentFormat == CONTENT_FORMAT
  {
    Response(ip, port, packet.messageId, payload, code, CONTENT_FORMAT, packet.token)
  }
}
