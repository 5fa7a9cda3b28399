/** Requests, responses and what is on the wire.  A header section is one item of the wire: its text is the business
    of a library that is not part of this model.  Everything else on the wire is octets. */
module Messages {
  import opened Wrappers
  import opened Text
  import opened HeaderTokens

  datatype Method = GET | HEAD | OPTIONS | OtherMethod(name: string)

  datatype Request = Request(verb: Method, version: string, resource: string, headers: Headers, content: string)

  const EMPTY_REQUEST := Request(GET, "1.0", "", map[], "")

  /** The value of a Keep-Alive field. */
  datatype Hold = Hold(timeout: int, max: Option<int>)

  /** The fields of a response that frame it or announce what becomes of the connection, and all the others. */
  datatype Fields = Fields(
    contentLength: Option<nat>,
    transferEncoding: Option<string>,
    connection: Option<string>,
    keepAlive: Option<Hold>,
    date: int,
    other: Headers
  )

  const NO_FIELDS := Fields(None, None, None, None, 0, map[])

  datatype Response = Response(
    status: Option<int>,
    version: Version,
    fields: Fields,
    content: string,
    streaming: bool,      // the content comes from a streamer
    chunked: bool,        // ... of unknown length
    gateway: bool,        // ... which is a whole response of a backend
    streamLength: nat     // ... of this announced length
  )

  const EMPTY_RESPONSE := Response(None, V10, NO_FIELDS, "", false, false, false, 0)

  function ContentLength(r: Response): nat {
    if r.streaming then r.streamLength else |r.content|
  }

  // ---------------------------------------------------------------- status codes

  const NO_CONTENT := 204
  const NOT_MODIFIED := 304
  const BAD_REQUEST := 400
  const NOT_FOUND := 404
  const REQUEST_TIMEOUT := 408
  const ENTITY_TOO_LARGE := 413
  const EXPECTATION_FAILED := 417
  const HEADER_FIELDS_TOO_LARGE := 431
  const NOT_IMPLEMENTED := 501
  const SERVICE_UNAVAILABLE := 503

  predicate StatusHasNoBody(code: int) {
    100 <= code < 200 || code == NO_CONTENT || code == NOT_MODIFIED
  }

  // ---------------------------------------------------------------- the wire

  datatype Head = Head(status: int, version: Version, fields: Fields)

  datatype Item = Header(head: Head) | Byte(c: char)

  type Wire = seq<Item>

  function Bytes(s: string): (w: Wire)
    ensures |w| == |s|
  {
    seq(|s|, i requires 0 <= i < |s| => Byte(s[i]))
  }

  lemma {:induction false} BytesOfConcat(a: string, b: string)
    ensures Bytes(a + b) == Bytes(a) + Bytes(b)
  {
  }

  const CONTINUE := Header(Head(100, V11, NO_FIELDS))

  /** The interim reply to a request, if one was sent. */
  function Interim(sent: bool): Wire {
    if sent then [CONTINUE] else []
  }
}
