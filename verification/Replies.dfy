/** What one request is answered with, as a function of the request and of what its handler produced: the reference
    the connection is proved against.  Nothing here depends on what the connection did before. */
module Replies {
  import opened Wrappers
  import opened Text
  import opened HeaderTokens
  import opened RequestHead
  import opened ChunkedCodec
  import opened Messages
  import opened RequestStream

  // ---------------------------------------------------------------- the server's settings and its library

  datatype Config = Config(
    encrypted: bool,
    maxRequestSize: nat,          // 0 = unlimited
    maxHeaderSize: nat,           // 0 = unlimited
    timeout: int,
    keepAliveEnabled: bool,
    keepAliveTimeout: int,
    maxKeepAliveRequests: nat,    // 0 = unlimited
    hasAdminPool: bool,
    hasSlowPool: bool,
    highLoad: int,                // the two statuses of the library's own
    shutdown: int,
    parse: Parser,
    stock: int -> string,                            // the content of a stock reply
    optionsFields: Headers,                          // the fields of the stock reply to OPTIONS *
    decorate: Headers -> Headers,                    // Server, Vary and the stale directives of Cache-Control
    // content coding and entity-tags: from the request, whether the content is streamed, the status, the content
    // and the fields, to the content and the fields to send
    represent: (Request, bool, Option<int>, string, Headers) -> (string, Headers)
  )

  ghost predicate Usable(cfg: Config) {
    && Reliable(cfg.parse)
    && cfg.highLoad >= 600 && cfg.shutdown >= 600
  }

  // ---------------------------------------------------------------- from the request

  function Lookup(headers: Headers, name: string): Option<string> {
    if HasHeader(headers, name) then Some(GetHeader(headers, name)) else None
  }

  predicate Names(value: Option<string>, token: string) {
    value.Some? && HasToken(value.value, token)
  }

  /** Whether the client's request lets the connection persist (section 9.3 of RFC 9112; the keep-alive extension
      for HTTP/1.0). */
  predicate WantsReuse(version: Version, headers: Headers) {
    var connection := Lookup(headers, "Connection");
    match version
    case V11 => !Names(connection, "close")
    case V10 =>
      if connection.Some? then Names(connection, "keep-alive")
      else Names(Lookup(headers, "Proxy-Connection"), "keep-alive")
  }

  const ORIGINAL_METHOD := "X-SmartMet-Original-Method"

  /** The request as its handler gets it. */
  function HandlerRequest(request: Request): Request {
    var headers := RemoveHeader(WithoutHopByHop(request.headers), ORIGINAL_METHOD);
    if request.verb == HEAD then request.(verb := GET, headers := headers[Lower(ORIGINAL_METHOD) := "HEAD"])
    else request.(headers := headers)
  }

  /** A handler, or a backend behind it, never sees a field that was meant for the connection only, nor a client's own
      claim about the original method, nor HEAD, for which it sees GET; everything else reaches it untouched. */
  lemma {:induction false} HandlerSees(request: Request, name: string)
    requires name != Lower(ORIGINAL_METHOD)
    ensures var seen := HandlerRequest(request).headers;
            (name in seen <==> name in request.headers && name !in HopNames(request.headers)) &&
            (name in seen ==> seen[name] == request.headers[name])
    ensures var given := HandlerRequest(request);
            && given.content == request.content && given.resource == request.resource
            && given.version == request.version
            && given.verb == (if request.verb == HEAD then GET else request.verb)
            && (Lower(ORIGINAL_METHOD) in given.headers <==> request.verb == HEAD)
            && (request.verb == HEAD ==> given.headers[Lower(ORIGINAL_METHOD)] == "HEAD")
  {
    hide HopNames;
  }

  // ---------------------------------------------------------------- one exchange

  /** What the handler of a request makes of it and of the response it is given. */
  datatype Handling = Disconnected | Refused | Answered(response: Response)

  type Handler = (Request, Response) -> Handling

  datatype Outcome =
    | Stock(status: int)
    | Options
    | Handled(handler: Handler, given: Request, response: Response, chunks: seq<string>)  // ... and what was streamed

  datatype Exchange = Exchange(
    request: Request,        // as parsed
    arrived: string,         // the buffer it was parsed from
    count: nat,              // its number on the connection, from 1
    interim: bool,           // a 100 Continue preceded the reply
    date: int,
    keep: bool,              // what was negotiated for the connection
    outcome: Outcome
  )

  function AnswerVersion(e: Exchange): Version {
    NegotiateVersion(e.request.version)
  }

  predicate IsHead(e: Exchange) {
    e.request.verb == HEAD
  }

  predicate InOnePiece(e: Exchange)
    requires e.outcome.Handled?
  {
    IsHead(e) || !e.outcome.response.streaming
  }

  /** The whole response of a backend, sent on as it is. */
  predicate IsPassthrough(e: Exchange) {
    e.outcome.Handled? && !InOnePiece(e) && e.outcome.response.gateway
  }

  /** A response can rule out that the connection persists. */
  predicate Vetoes(version: Version, r: Response) {
    (r.chunked && version == V10) || Names(r.fields.connection, "close")
  }

  /** Whether the connection is to be reused after the reply. */
  predicate Reuses(e: Exchange) {
    && e.keep
    && (e.outcome.Handled? ==> !Vetoes(AnswerVersion(e), e.outcome.response))
    && !IsPassthrough(e)
  }

  /** What a reply says about the connection. */
  function Announce(cfg: Config, version: Version, count: nat, reuse: bool, fields: Fields): Fields {
    if !reuse then fields.(connection := Some("close"), keepAlive := None)
    else match version
      case V11 => fields.(connection := None, keepAlive := None)
      case V10 =>
        var max := if cfg.maxKeepAliveRequests > 0 then Some(cfg.maxKeepAliveRequests - count) else None;
        fields.(connection := Some("keep-alive"), keepAlive := Some(Hold(cfg.keepAliveTimeout, max)))
  }

  function ServerHeaders(cfg: Config, version: Version, count: nat, date: int, reuse: bool, r: Response): Response {
    r.(version := if r.chunked then r.version else version,
       fields := Announce(cfg, version, count, reuse, r.fields.(date := date, other := cfg.decorate(r.fields.other))))
  }

  /** A response turned into a stock reply. */
  function StockOf(cfg: Config, status: int, r: Response): Response {
    r.(status := Some(status), content := cfg.stock(status), streaming := false,
       fields := r.fields.(contentLength := Some(|cfg.stock(status)|)))
  }

  function OptionsResponse(cfg: Config): Response {
    EMPTY_RESPONSE.(status := Some(NO_CONTENT), fields := NO_FIELDS.(other := cfg.optionsFields))
  }

  /** A response without a status is sent as a 501. */
  function WithStatus(cfg: Config, r: Response): (s: Response)
    ensures s.status.Some? && s.fields == r.fields && s.version == r.version
    ensures r.status.Some? ==> s == r
  {
    if r.status.Some? then r
    else r.(status := Some(NOT_IMPLEMENTED), content := cfg.stock(NOT_IMPLEMENTED), streaming := false)
  }

  /** The representation of buffered content: coded, and tagged. */
  function Represented(cfg: Config, request: Request, r: Response): Response {
    var (content, other) := cfg.represent(request, r.streaming, r.status, r.content, r.fields.other);
    r.(content := if r.streaming then r.content else content, fields := r.fields.(other := other))
  }

  /** The framing of a reply that is written in one piece. */
  function Delimited(isHead: bool, r: Response): Response {
    if r.status.Some? && StatusHasNoBody(r.status.value) then
      r.(content := "", streaming := false, fields := r.fields.(contentLength := None, transferEncoding := None))
    else if isHead && r.chunked then
      r.(fields := r.fields.(contentLength := None, transferEncoding := None))
    else
      r.(fields := r.fields.(contentLength := Some(ContentLength(r))))
  }

  function RegularReply(cfg: Config, request: Request, isHead: bool, r: Response): (s: Response)
    ensures s.status.Some?
  {
    WithStatus(cfg, Delimited(isHead, Represented(cfg, request, r)))
  }

  function StreamedReply(cfg: Config, r: Response): (s: Response)
    ensures s.status.Some?
  {
    WithStatus(cfg, r.(fields := r.fields.(contentLength := Some(ContentLength(r)))))
  }

  function ChunkedReply(cfg: Config, r: Response): (s: Response)
    ensures s.status.Some?
  {
    WithStatus(cfg, r.(fields := r.fields.(contentLength := None, transferEncoding := Some("chunked"))))
  }

  function HeaderSection(r: Response): Head
    requires r.status.Some?
  {
    Head(r.status.value, r.version, r.fields)
  }

  /** The response as it is sent. */
  function FinalResponse(cfg: Config, e: Exchange): (r: Response)
    ensures r.status.Some?
  {
    var v := AnswerVersion(e);
    match e.outcome
    case Stock(status) => ServerHeaders(cfg, v, e.count, e.date, Reuses(e), StockOf(cfg, status, EMPTY_RESPONSE))
    case Options => ServerHeaders(cfg, v, e.count, e.date, Reuses(e), OptionsResponse(cfg))
    case Handled(handler, given, response, chunks) =>
      var r := ServerHeaders(cfg, v, e.count, e.date, Reuses(e), response);
      if InOnePiece(e) then RegularReply(cfg, given, IsHead(e), r)
      else if response.chunked then ChunkedReply(cfg, r)
      else StreamedReply(cfg, r)
  }

  /** The octets that follow the header section. */
  function WireBody(cfg: Config, e: Exchange): string {
    match e.outcome
    case Handled(handler, given, response, chunks) =>
      if IsHead(e) then ""
      else if InOnePiece(e) then FinalResponse(cfg, e).content
      else if response.chunked then Framed(chunks) + LAST_CHUNK
      else Concat(chunks)
    case _ => FinalResponse(cfg, e).content
  }

  /** The final reply to a request. */
  function Reply(cfg: Config, e: Exchange): Wire {
    [Header(HeaderSection(FinalResponse(cfg, e)))] + Bytes(WireBody(cfg, e))
  }

  /** The answer as it goes out: the whole response of a backend has its own header section. */
  function Answer(cfg: Config, e: Exchange): Wire {
    if IsPassthrough(e) then Bytes(Concat(e.outcome.chunks)) else Reply(cfg, e)
  }

  /** Everything the server sends in answer to one request. */
  function Render(cfg: Config, e: Exchange): Wire {
    Interim(e.interim) + Reply(cfg, e)
  }

  // ---------------------------------------------------------------- when the connection is reused

  predicate StockStatus(cfg: Config, status: int) {
    status == BAD_REQUEST || status == NOT_FOUND || status == SERVICE_UNAVAILABLE || status == cfg.highLoad
  }

  /** The request asks for an interim reply, and its version knows one. */
  predicate Asked100(arrived: string) {
    var head := ScanHead(arrived);
    head.complete && NegotiateVersion(head.version) == V11 && HasToken(head.expectation, "100-continue")
  }

  /** The response is what the handler made of the request and of a response nobody had touched. */
  predicate Obeyed(outcome: Outcome) {
    outcome.Handled? && outcome.handler(outcome.given, EMPTY_RESPONSE) == Answered(outcome.response)
  }

  /** The answer is the server's own, or that of a handler that saw the request as it should. */
  predicate Served(cfg: Config, e: Exchange) {
    match e.outcome
    case Stock(status) => StockStatus(cfg, status)
    case Options => e.request.verb == OPTIONS
    case Handled(handler, given, response, chunks) => given == HandlerRequest(e.request) && Obeyed(e.outcome)
  }

  /** A stream whose length is announced. */
  predicate IsCounted(e: Exchange) {
    e.outcome.Handled? && !InOnePiece(e) && !IsPassthrough(e) && !e.outcome.response.chunked
  }

  /** What was sent is what was announced. */
  predicate AsAnnounced(e: Exchange) {
    !IsPassthrough(e) && (IsCounted(e) ==> |Concat(e.outcome.chunks)| == e.outcome.response.streamLength)
  }

  predicate Delivered(cfg: Config, e: Exchange) {
    Served(cfg, e) && AsAnnounced(e)
  }

  /** The connection may persist as far as the settings and the request go. */
  predicate MayPersist(cfg: Config, request: Request, count: nat) {
    && cfg.keepAliveEnabled
    && (cfg.maxKeepAliveRequests > 0 ==> count < cfg.maxKeepAliveRequests)
    && WantsReuse(NegotiateVersion(request.version), request.headers)
  }

  /** What holds of every request that was answered. */
  predicate Proper(cfg: Config, e: Exchange) {
    && cfg.parse(e.arrived).Complete? && cfg.parse(e.arrived).request == e.request
    && (e.interim ==> Asked100(e.arrived))
    && (e.keep ==> MayPersist(cfg, e.request, e.count))
    && (e.keep && AnswerVersion(e) == V11 ==> HasHeader(e.request.headers, "Host"))
    && Delivered(cfg, e)
  }

  /** What holds of every exchange after which the connection was kept. */
  predicate Reusable(cfg: Config, e: Exchange) {
    Proper(cfg, e) && Reuses(e)
  }

  /** Everything sent in answer to a series of requests. */
  function Transcript(cfg: Config, exchanges: seq<Exchange>): Wire {
    if exchanges == [] then []
    else Transcript(cfg, exchanges[..|exchanges| - 1]) + Render(cfg, exchanges[|exchanges| - 1])
  }

  lemma {:induction false} TranscriptOfMore(cfg: Config, exchanges: seq<Exchange>, e: Exchange)
    ensures Transcript(cfg, exchanges + [e]) == Transcript(cfg, exchanges) + Render(cfg, e)
  {
    assert (exchanges + [e])[..|exchanges|] == exchanges;
  }

  // ---------------------------------------------------------------- one reply is like any other

  /** Two responses that differ at most in what a connection adds of its own: the date and what is announced. */
  predicate Alike(r: Response, s: Response) {
    s == r.(fields := r.fields.(connection := s.fields.connection, keepAlive := s.fields.keepAlive,
                                date := s.fields.date))
  }

  lemma {:induction false} ServerHeadersAlike(cfg: Config, v: Version, m: nat, n: nat, d: int, f: int, a: bool, b: bool,
                                              r: Response)
    ensures Alike(ServerHeaders(cfg, v, m, d, a, r), ServerHeaders(cfg, v, n, f, b, r))
  {
  }

  lemma {:induction false} RepresentedAlike(cfg: Config, request: Request, r: Response, s: Response)
    requires Alike(r, s)
    ensures Alike(Represented(cfg, request, r), Represented(cfg, request, s))
  {
  }

  lemma {:induction false} DelimitedAlike(isHead: bool, r: Response, s: Response)
    requires Alike(r, s)
    ensures Alike(Delimited(isHead, r), Delimited(isHead, s))
  {
  }

  lemma {:induction false} WithStatusAlike(cfg: Config, r: Response, s: Response)
    requires Alike(r, s)
    ensures Alike(WithStatus(cfg, r), WithStatus(cfg, s))
  {
  }

  lemma {:induction false} RegularAlike(cfg: Config, request: Request, isHead: bool, r: Response, s: Response)
    requires Alike(r, s)
    ensures Alike(RegularReply(cfg, request, isHead, r), RegularReply(cfg, request, isHead, s))
  {
    hide Represented, Delimited, WithStatus, Alike;
    RepresentedAlike(cfg, request, r, s);
    var r', s' := Represented(cfg, request, r), Represented(cfg, request, s);
    DelimitedAlike(isHead, r', s');
    WithStatusAlike(cfg, Delimited(isHead, r'), Delimited(isHead, s'));
  }

  lemma {:induction false} StreamedAlike(cfg: Config, r: Response, s: Response)
    requires Alike(r, s)
    ensures Alike(StreamedReply(cfg, r), StreamedReply(cfg, s))
    ensures Alike(ChunkedReply(cfg, r), ChunkedReply(cfg, s))
  {
  }

  /** The response of a handler or of the server itself, before the server adds its fields. */
  function Bare(cfg: Config, outcome: Outcome): Response {
    match outcome
    case Stock(status) => StockOf(cfg, status, EMPTY_RESPONSE)
    case Options => OptionsResponse(cfg)
    case Handled(_, _, response, _) => response
  }

  /** The reply depends on the request and on what its handler produced, not on what the connection did before: on a
      reused connection it is the one a fresh connection would have sent. */
  lemma {:induction false} SameReply(cfg: Config, e: Exchange, f: Exchange)
    requires e.request == f.request && e.outcome == f.outcome
    ensures Alike(FinalResponse(cfg, e), FinalResponse(cfg, f))
    ensures WireBody(cfg, e) == WireBody(cfg, f)
  {
    hide ServerHeaders, RegularReply, StreamedReply, ChunkedReply, Reuses, StockOf, OptionsResponse, NegotiateVersion;
    var v, base := AnswerVersion(e), Bare(cfg, e.outcome);
    ServerHeadersAlike(cfg, v, e.count, f.count, e.date, f.date, Reuses(e), Reuses(f), base);
    if e.outcome.Handled? {
      var r := ServerHeaders(cfg, v, e.count, e.date, Reuses(e), base);
      var s := ServerHeaders(cfg, v, f.count, f.date, Reuses(f), base);
      RegularAlike(cfg, e.outcome.given, IsHead(e), r, s);
      StreamedAlike(cfg, r, s);
    }
  }

  // ---------------------------------------------------------------- reuse is announced

  /** What a client concludes from a header section about the connection (section 9.3 of RFC 9112). */
  predicate Persists(client: Version, head: Head) {
    if Names(head.fields.connection, "close") then false
    else if client == V11 && head.version == V11 then true
    else Names(head.fields.connection, "keep-alive")
  }

  lemma {:induction false} ConnectionStays(cfg: Config, e: Exchange)
    ensures var head := HeaderSection(FinalResponse(cfg, e));
            var announced := ServerHeaders(cfg, AnswerVersion(e), e.count, e.date, Reuses(e), Bare(cfg, e.outcome));
            head.version == announced.version && head.fields.connection == announced.fields.connection &&
            head.fields.keepAlive == announced.fields.keepAlive
  {
    hide ServerHeaders, Reuses, StockOf, OptionsResponse, NegotiateVersion;
  }

  /** A chunked response carries the version that knows chunks. */
  predicate ChunksKnown(e: Exchange) {
    e.outcome.Handled? && e.outcome.response.chunked ==> e.outcome.response.version == V11
  }

  /** The reply announces in the client's own version whether the connection is reused, both ways. */
  lemma {:induction false} ReuseIsAnnounced(cfg: Config, e: Exchange)
    requires ChunksKnown(e) && !IsPassthrough(e)
    ensures Persists(AnswerVersion(e), HeaderSection(FinalResponse(cfg, e))) <==> Reuses(e)
  {
    hide FinalResponse, NegotiateVersion, HasToken, IsPassthrough, HeaderSection;
    ConnectionStays(cfg, e);
    TokenOfItself("close");
    TokenOfItself("keep-alive");
    OnlyToken("keep-alive", "close");
  }

  /** A reused connection carried no chunks to a client that does not know them. */
  lemma {:induction false} NoChunksBeforeV11(cfg: Config, e: Exchange)
    requires Reusable(cfg, e) && AnswerVersion(e) == V10 && e.outcome.Handled?
    ensures !e.outcome.response.chunked
    ensures e.outcome.response.fields.transferEncoding == None ==>
              HeaderSection(FinalResponse(cfg, e)).fields.transferEncoding == None
  {
    hide HandlerRequest, NegotiateVersion, HasToken, MayPersist, Asked100;
  }

  /** The announced number of further requests is what is left, at least one: the subtraction never wraps around. */
  lemma {:induction false} AnnouncedBudget(cfg: Config, e: Exchange)
    requires Reusable(cfg, e) && cfg.maxKeepAliveRequests > 0
    ensures AnswerVersion(e) == V10 ==>
              HeaderSection(FinalResponse(cfg, e)).fields.keepAlive ==
              Some(Hold(cfg.keepAliveTimeout, Some(cfg.maxKeepAliveRequests - e.count)))
    ensures cfg.maxKeepAliveRequests - e.count >= 1
  {
    hide FinalResponse, HandlerRequest, NegotiateVersion, HasToken, Asked100, HeaderSection, StockOf, OptionsResponse;
    ConnectionStays(cfg, e);
  }
}
