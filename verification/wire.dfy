/**
 * Types shared by the signaling worker and the browser client: the two roles of a
 * session, the JSON envelopes carried over the signaling socket, and the parts of
 * an HTTP request that the worker inspects.
 */
module Wire {

  datatype Option<+T> = None | Some(value: T)

  /** The two slots of a session. The first device to connect is the laptop. */
  datatype Role = Laptop | Phone
  {
    function Other(): (r: Role)
      ensures r != this
    {
      if this == Laptop then Phone else Laptop
    }
  }

  /**
   * An opaque JSON value (a session description or an ICE candidate), kept as the
   * text it serialises to. Neither the relay nor the client looks inside it.
   */
  type Payload = string

  /**
   * A JSON value once parsed: a signaling envelope `{type, payload?}` or `{type, role}`
   * of one of the five known types; `null`, on which reading `.type` throws; or any
   * other value (an object of another type, an object with no `type`, a number, a
   * string, an array), kept as the text it serialises to.
   */
  datatype Message =
    | Connected(role: Role)
    | Offer(offer: Payload)
    | Answer(answer: Payload)
    | IceCandidate(candidate: Payload)
    | PeerDisconnected
    | Null
    | Unrecognised(value: Payload)

  /**
   * The text of one socket message: either text that parses as JSON, held as the
   * value it parses to, or text on which `JSON.parse` throws.
   */
  datatype Text = Json(msg: Message) | Malformed(raw: string)

  /** An `Origin` header: its raw value and the host `new URL(raw)` yields (None when it throws). */
  datatype Origin = Origin(raw: string, host: Option<string>)

  /**
   * What the worker reads from a request: the method (`verb`), the URL's host and pathname, the
   * `session` query parameter, and the `Origin` and `Upgrade` headers.
   */
  datatype Request = Request(
    verb: string,
    host: string,
    pathname: string,
    session: Option<string>,
    origin: Option<Origin>,
    upgrade: Option<string>)

  /**
   * `url.searchParams.get('session')` is falsy: the parameter is absent or empty.
   */
  predicate MissingSession(req: Request)
  {
    req.session.None? || req.session.value == ""
  }
}
