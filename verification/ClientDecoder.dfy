/** A client that reads responses off a connection (section 6.3 of RFC 9112), and what it makes of the replies of
    this server. */
module ClientDecoder {
  import opened Wrappers
  import opened Text
  import opened HeaderTokens
  import opened ChunkedCodec
  import opened Messages
  import opened Replies

  datatype Decoded = Message(status: int, body: string, rest: Wire) | NotYet | Broken

  predicate IsInterim(status: int) {
    100 <= status < 200
  }

  /** The octets up to the next header section. */
  function Payload(w: Wire): (s: string)
    ensures |s| <= |w|
  {
    if w == [] || w[0].Header? then "" else [w[0].c] + Payload(w[1..])
  }

  /** Reads one final response, passing over interim ones.  `isHead` tells whether the request was a HEAD. */
  function Decode(isHead: bool, w: Wire): Decoded
    decreases |w|
  {
    if w == [] then NotYet
    else if w[0].Byte? then Broken
    else
      var head := w[0].head;
      var rest := w[1..];
      if IsInterim(head.status) then Decode(isHead, rest)
      else if isHead || StatusHasNoBody(head.status) then Message(head.status, "", rest)
      else if head.fields.transferEncoding.Some? then
        if Lower(head.fields.transferEncoding.value) != "chunked" then NotYet  // up to the end of the connection
        else match DecodeChunked(Payload(rest))
          case Done(body, after) =>
            if |after| <= |Payload(rest)| then Message(head.status, body, rest[|Payload(rest)| - |after|..]) else Broken
          case More => NotYet
          case Bad => Broken
      else if head.fields.contentLength.Some? then
        var n := head.fields.contentLength.value;
        if n <= |Payload(rest)| then Message(head.status, Payload(rest)[..n], rest[n..]) else NotYet
      else NotYet  // up to the end of the connection
  }

  datatype Transcribed = Transcribed(messages: seq<(int, string)>, rest: Wire)

  /** Reads one final response for every request sent: nothing when one of them is not there yet, or broken. */
  function DecodeAll(heads: seq<bool>, w: Wire): Option<Transcribed>
    decreases |heads|
  {
    if heads == [] then Some(Transcribed([], w))
    else match Decode(heads[0], w)
      case Message(status, body, rest) =>
        (match DecodeAll(heads[1..], rest)
         case Some(later) => Some(Transcribed([(status, body)] + later.messages, later.rest))
         case None => None)
      case _ => None
  }

  // ---------------------------------------------------------------- what the server's replies decode to

  function AnnouncedReply(cfg: Config, e: Exchange): Response {
    ServerHeaders(cfg, AnswerVersion(e), e.count, e.date, Reuses(e), Bare(cfg, e.outcome))
  }

  /** What the library's content coding makes of a buffered response: the content to send, and the fields that go with
      it. */
  function Coded(cfg: Config, e: Exchange): (string, Headers)
    requires e.outcome.Handled?
  {
    var r := e.outcome.response;
    cfg.represent(e.outcome.given, r.streaming, r.status, r.content, cfg.decorate(r.fields.other))
  }

  /** The length that is announced for a buffered response to which the handler gave no status. */
  function AnnouncedLength(cfg: Config, e: Exchange): nat
    requires e.outcome.Handled?
  {
    |Coded(cfg, e).0|
  }

  /** What a handler has to see to: a final status; no body where there is to be none, no framing of its own where there
      is to be one; and a response without a status only if the length of its content is that of the 501 body. */
  predicate SoundResponse(cfg: Config, e: Exchange)
    requires e.outcome.Handled?
  {
    var r := e.outcome.response;
    && (r.status.Some? ==> !IsInterim(r.status.value))
    && (IsHead(e) ||
        if r.status.Some? && StatusHasNoBody(r.status.value) then InOnePiece(e) || WireBody(cfg, e) == ""
        else if !InOnePiece(e) then r.chunked || r.fields.transferEncoding == None
        else
          && r.fields.transferEncoding == None
          && (r.status == None ==> |cfg.stock(NOT_IMPLEMENTED)| == AnnouncedLength(cfg, e)))
  }

  /** The replies a client can read.  A stock reply writes its body also in answer to HEAD. */
  predicate Sound(cfg: Config, e: Exchange) {
    match e.outcome
    case Stock(status) => IsHead(e) ==> cfg.stock(status) == ""
    case Options => true
    case Handled(handler, given, response, chunks) => SoundResponse(cfg, e)
  }

  /** The status that was decided on: 501 when the handler left it open. */
  function ProducedStatus(e: Exchange): int {
    match e.outcome
    case Stock(status) => status
    case Options => NO_CONTENT
    case Handled(handler, given, response, chunks) =>
      if response.status.Some? then response.status.value else NOT_IMPLEMENTED
  }

  /** The body that was produced in answer to a request: what the handler left, as content coding made of it, or what
      its streamer delivered. */
  function ProducedBody(cfg: Config, e: Exchange): string {
    if IsHead(e) then ""
    else match e.outcome
      case Stock(status) => cfg.stock(status)
      case Options => ""
      case Handled(handler, given, response, chunks) =>
        if response.streaming then Concat(chunks)
        else if response.status == None then cfg.stock(NOT_IMPLEMENTED)
        else if StatusHasNoBody(response.status.value) then ""
        else Coded(cfg, e).0
  }

  lemma {:induction false} PayloadOfBytes(s: string, rest: Wire)
    ensures Payload(Bytes(s) + rest) == s + Payload(rest)
    decreases |s|
  {
    if s == "" {
      assert Bytes(s) + rest == rest;
    } else {
      assert (Bytes(s) + rest)[1..] == Bytes(s[1..]) + rest;
      PayloadOfBytes(s[1..], rest);
    }
  }

  lemma {:induction false} DecodeAfterInterim(isHead: bool, sent: bool, w: Wire)
    ensures Decode(isHead, Interim(sent) + w) == Decode(isHead, w)
  {
    if sent {
      assert (Interim(sent) + w)[1..] == w;
    } else {
      assert Interim(sent) + w == w;
    }
  }

  lemma {:induction false} DecodeOfLength(head: Head, body: string, rest: Wire)
    requires !IsInterim(head.status) && !StatusHasNoBody(head.status)
    requires head.fields.transferEncoding == None && head.fields.contentLength == Some(|body|)
    ensures Decode(false, [Header(head)] + Bytes(body) + rest) == Message(head.status, body, rest)
  {
    var w := [Header(head)] + Bytes(body) + rest;
    assert w[1..] == Bytes(body) + rest;
    PayloadOfBytes(body, rest);
    assert (body + Payload(rest))[..|body|] == body;
    assert w[1..][|body|..] == rest;
  }

  lemma {:induction false} DecodeOfChunks(head: Head, chunks: seq<string>, rest: Wire)
    requires !IsInterim(head.status) && !StatusHasNoBody(head.status)
    requires head.fields.transferEncoding == Some("chunked")
    ensures Decode(false, [Header(head)] + Bytes(Framed(chunks) + LAST_CHUNK) + rest) ==
            Message(head.status, Concat(chunks), rest)
  {
    hide Framed, LAST_CHUNK, DecodeChunked;
    var body := Framed(chunks) + LAST_CHUNK;
    var w := [Header(head)] + Bytes(body) + rest;
    assert w[1..] == Bytes(body) + rest;
    PayloadOfBytes(body, rest);
    RoundTrip(chunks, Payload(rest));
    assert w[1..][|body|..] == rest;
    assert Lower("chunked") == "chunked";
  }

  lemma {:induction false} DecodeOfBodyless(isHead: bool, head: Head, rest: Wire)
    requires !IsInterim(head.status) && (isHead || StatusHasNoBody(head.status))
    ensures Decode(isHead, [Header(head)] + Bytes("") + rest) == Message(head.status, "", rest)
  {
    assert ([Header(head)] + Bytes("") + rest)[1..] == rest;
  }

  /** A header section and the octets after it agree on where the body ends: `produced` is what they carry, in the
      pieces `chunks` if it is chunked. */
  predicate WellFramed(isHead: bool, head: Head, body: string, produced: string, chunks: seq<string>) {
    && !IsInterim(head.status)
    && if isHead || StatusHasNoBody(head.status) then body == produced == ""
       else if head.fields.transferEncoding == None then head.fields.contentLength == Some(|body|) && produced == body
       else
         && head.fields.transferEncoding == Some("chunked")
         && body == Framed(chunks) + LAST_CHUNK && produced == Concat(chunks)
  }

  lemma {:induction false} DecodeOfFraming(isHead: bool, head: Head, body: string, produced: string,
                                           chunks: seq<string>,
                                           rest: Wire)
    requires WellFramed(isHead, head, body, produced, chunks)
    ensures Decode(isHead, [Header(head)] + Bytes(body) + rest) == Message(head.status, produced, rest)
  {
    hide Decode, Framed, LAST_CHUNK, Concat, Bytes;
    if isHead || StatusHasNoBody(head.status) {
      DecodeOfBodyless(isHead, head, rest);
    } else if head.fields.transferEncoding == None {
      DecodeOfLength(head, body, rest);
    } else {
      DecodeOfChunks(head, chunks, rest);
    }
  }

  function Pieces(e: Exchange): seq<string> {
    if e.outcome.Handled? then e.outcome.chunks else []
  }

  /** The server's own fields are not about framing. */
  lemma {:induction false} HeadersAside(cfg: Config, v: Version, count: nat, date: int, reuse: bool, r: Response)
    ensures var s := ServerHeaders(cfg, v, count, date, reuse, r);
            s.status == r.status && s.content == r.content && ContentLength(s) == ContentLength(r) &&
            s.streaming == r.streaming && s.chunked == r.chunked && s.streamLength == r.streamLength &&
            s.fields.contentLength == r.fields.contentLength && s.fields.transferEncoding == r.fields.transferEncoding
  {
  }

  lemma {:induction false} AnnouncedAside(cfg: Config, e: Exchange)
    ensures var r, s := Bare(cfg, e.outcome), AnnouncedReply(cfg, e);
            s.status == r.status && s.content == r.content && ContentLength(s) == ContentLength(r) &&
            s.streaming == r.streaming && s.chunked == r.chunked && s.streamLength == r.streamLength &&
            s.fields.contentLength == r.fields.contentLength && s.fields.transferEncoding == r.fields.transferEncoding
  {
    hide ServerHeaders, AnswerVersion, Reuses, Bare, ContentLength;
    HeadersAside(cfg, AnswerVersion(e), e.count, e.date, Reuses(e), Bare(cfg, e.outcome));
  }

  lemma {:induction false} HeadersBeside(cfg: Config, v: Version, count: nat, date: int, reuse: bool, r: Response)
    ensures ServerHeaders(cfg, v, count, date, reuse, r).fields.other == cfg.decorate(r.fields.other)
    ensures ServerHeaders(cfg, v, count, date, reuse, r).fields.date == date
  {
  }

  /** Content coding is applied to what the handler left, and to nothing else. */
  lemma {:induction false} RepresentedIsCoded(cfg: Config, e: Exchange)
    requires e.outcome.Handled?
    ensures var r, s := e.outcome.response, Represented(cfg, e.outcome.given, AnnouncedReply(cfg, e));
            && s.content == (if r.streaming then r.content else Coded(cfg, e).0) && s.fields.other == Coded(cfg, e).1
            && s.status == r.status && s.streaming == r.streaming && s.chunked == r.chunked
            && s.streamLength == r.streamLength && s.fields.transferEncoding == r.fields.transferEncoding
            && s.fields.contentLength == r.fields.contentLength
  {
    hide ServerHeaders, AnswerVersion, Reuses, ContentLength;
    AnnouncedAside(cfg, e);
    HeadersBeside(cfg, AnswerVersion(e), e.count, e.date, Reuses(e), e.outcome.response);
  }

  lemma {:induction false} StockReplyFramed(cfg: Config, e: Exchange)
    requires Usable(cfg) && Delivered(cfg, e) && Sound(cfg, e) && e.outcome.Stock?
    ensures WellFramed(IsHead(e), HeaderSection(FinalResponse(cfg, e)), WireBody(cfg, e), ProducedBody(cfg, e),
                       Pieces(e))
  {
    hide ServerHeaders, AnswerVersion, Reuses, ContentLength, RegularReply, StreamedReply, ChunkedReply, Usable;
    AnnouncedAside(cfg, e);
    OwnStatuses(cfg);
  }

  lemma {:induction false} OwnStatuses(cfg: Config)
    requires Usable(cfg)
    ensures cfg.highLoad >= 600 && cfg.shutdown >= 600
  {
  }

  lemma {:induction false} OptionsReplyFramed(cfg: Config, e: Exchange)
    requires Delivered(cfg, e) && e.outcome.Options?
    ensures WellFramed(IsHead(e), HeaderSection(FinalResponse(cfg, e)), WireBody(cfg, e), ProducedBody(cfg, e),
                       Pieces(e))
  {
    hide ServerHeaders, AnswerVersion, Reuses, ContentLength, RegularReply, StreamedReply, ChunkedReply;
    AnnouncedAside(cfg, e);
  }

  lemma {:induction false} AnnouncedIsHandlers(cfg: Config, e: Exchange)
    requires e.outcome.Handled?
    ensures FinalResponse(cfg, e) ==
            if InOnePiece(e) then RegularReply(cfg, e.outcome.given, IsHead(e), AnnouncedReply(cfg, e))
            else if e.outcome.response.chunked then ChunkedReply(cfg, AnnouncedReply(cfg, e))
            else StreamedReply(cfg, AnnouncedReply(cfg, e))
  {
    hide ServerHeaders, AnswerVersion, Reuses, RegularReply, ChunkedReply, StreamedReply;
  }

  lemma {:induction false} WholeReplyFramed(cfg: Config, e: Exchange)
    requires Sound(cfg, e) && e.outcome.Handled? && InOnePiece(e)
    ensures WellFramed(IsHead(e), HeaderSection(FinalResponse(cfg, e)), WireBody(cfg, e), ProducedBody(cfg, e),
                       Pieces(e))
  {
    hide ServerHeaders, AnswerVersion, Reuses, StreamedReply, ChunkedReply, Represented, Coded, AnnouncedReply;
    AnnouncedIsHandlers(cfg, e);
    RepresentedIsCoded(cfg, e);
  }

  lemma {:induction false} StreamReplyFramed(cfg: Config, e: Exchange)
    requires Delivered(cfg, e) && Sound(cfg, e) && e.outcome.Handled? && !InOnePiece(e)
    ensures WellFramed(IsHead(e), HeaderSection(FinalResponse(cfg, e)), WireBody(cfg, e), ProducedBody(cfg, e),
                       Pieces(e))
  {
    hide ServerHeaders, AnswerVersion, Reuses, RegularReply, Framed, Concat, HandlerRequest, Obeyed;
    AnnouncedAside(cfg, e);
    assert |LAST_CHUNK| > 0;
  }

  /** The server's replies are framed: what was produced is what the header section delimits. */
  lemma {:induction false} ReplyFramed(cfg: Config, e: Exchange)
    requires Usable(cfg) && Delivered(cfg, e) && Sound(cfg, e)
    ensures WellFramed(IsHead(e), HeaderSection(FinalResponse(cfg, e)), WireBody(cfg, e), ProducedBody(cfg, e),
                       Pieces(e))
  {
    hide Usable, Delivered, Sound, WellFramed, FinalResponse, WireBody, ProducedBody, Pieces;
    if e.outcome.Stock? {
      StockReplyFramed(cfg, e);
    } else if e.outcome.Options? {
      OptionsReplyFramed(cfg, e);
    } else if InOnePiece(e) {
      WholeReplyFramed(cfg, e);
    } else {
      StreamReplyFramed(cfg, e);
    }
  }

  lemma {:induction false} ProducedStatusIsSent(cfg: Config, e: Exchange)
    ensures HeaderSection(FinalResponse(cfg, e)).status == ProducedStatus(e)
  {
    hide ServerHeaders, AnswerVersion, Reuses;
    AnnouncedAside(cfg, e);
  }

  // ---------------------------------------------------------------- the header section, from what the handler left

  /** The length that is announced: that of the body, or after HEAD of the one a GET would get. */
  function ProducedLength(cfg: Config, e: Exchange): Option<nat> {
    match e.outcome
    case Stock(status) => Some(|cfg.stock(status)|)
    case Options => None
    case Handled(handler, given, r, chunks) =>
      if r.streaming && !IsHead(e) then if r.chunked then None else Some(r.streamLength)
      else if r.status.Some? && StatusHasNoBody(r.status.value) then None
      else if IsHead(e) && r.chunked then None
      else if r.streaming then Some(r.streamLength)
      else Some(|Coded(cfg, e).0|)
  }

  /** The transfer coding that is announced: that of chunks, or what the handler itself put there. */
  function ProducedCoding(e: Exchange): Option<string> {
    match e.outcome
    case Handled(handler, given, r, chunks) =>
      if r.streaming && !IsHead(e) then if r.chunked then Some("chunked") else r.fields.transferEncoding
      else if r.status.Some? && StatusHasNoBody(r.status.value) then None
      else if IsHead(e) && r.chunked then None
      else r.fields.transferEncoding
    case _ => None
  }

  /** The fields that are not about framing or the connection: the handler's, with the server's own, and with those of
      content coding where the content is not streamed. */
  function ProducedFields(cfg: Config, e: Exchange): Headers {
    match e.outcome
    case Stock(status) => cfg.decorate(map[])
    case Options => cfg.decorate(cfg.optionsFields)
    case Handled(handler, given, r, chunks) =>
      if r.streaming && !IsHead(e) then cfg.decorate(r.fields.other) else Coded(cfg, e).1
  }

  /** The header section a client is to get. */
  function ProducedHead(cfg: Config, e: Exchange): Head {
    var known := NegotiateVersion(e.request.version);
    var hold := Hold(cfg.keepAliveTimeout,
                     if cfg.maxKeepAliveRequests > 0 then Some(cfg.maxKeepAliveRequests - e.count) else None);
    Head(ProducedStatus(e),
         if e.outcome.Handled? && e.outcome.response.chunked then e.outcome.response.version else known,
         Fields(ProducedLength(cfg, e), ProducedCoding(e),
                if !Reuses(e) then Some("close") else if known == V10 then Some("keep-alive") else None,
                if Reuses(e) && known == V10 then Some(hold) else None,
                e.date, ProducedFields(cfg, e)))
  }

  lemma {:induction false} AnnouncedHead(cfg: Config, e: Exchange)
    ensures var f, head := AnnouncedReply(cfg, e).fields, ProducedHead(cfg, e);
            f.connection == head.fields.connection && f.keepAlive == head.fields.keepAlive &&
            f.date == head.fields.date && AnnouncedReply(cfg, e).version == head.version &&
            f.other == cfg.decorate(Bare(cfg, e.outcome).fields.other)
  {
    hide NegotiateVersion, Reuses, ProducedLength, ProducedCoding, ProducedFields, ProducedStatus;
  }

  /** The header section that is sent is the one that follows from the response the handler left, field by field. */
  lemma {:induction false} HeadIsProduced(cfg: Config, e: Exchange)
    ensures HeaderSection(FinalResponse(cfg, e)) == ProducedHead(cfg, e)
  {
    hide NegotiateVersion, Reuses, AnnouncedReply, Coded, ServerHeaders, FinalResponse, ProducedLength, ProducedCoding,
         ProducedFields;
    ProducedStatusIsSent(cfg, e);
    AnnouncedHead(cfg, e);
    if e.outcome.Handled? {
      HandledFields(cfg, e);
    } else {
      OwnFields(cfg, e);
    }
  }

  lemma {:induction false} OwnFields(cfg: Config, e: Exchange)
    requires !e.outcome.Handled?
    ensures var r, f := FinalResponse(cfg, e), AnnouncedReply(cfg, e).fields;
            && r.version == AnnouncedReply(cfg, e).version
            && r.fields == Fields(ProducedLength(cfg, e), ProducedCoding(e), f.connection, f.keepAlive, f.date,
                                  ProducedFields(cfg, e))
  {
    hide ServerHeaders, AnswerVersion, Reuses;
    AnnouncedAside(cfg, e);
    HeadersBeside(cfg, AnswerVersion(e), e.count, e.date, Reuses(e), Bare(cfg, e.outcome));
  }

  lemma {:induction false} HandledFields(cfg: Config, e: Exchange)
    requires e.outcome.Handled?
    ensures var r, f := FinalResponse(cfg, e), AnnouncedReply(cfg, e).fields;
            && r.version == AnnouncedReply(cfg, e).version
            && r.fields == Fields(ProducedLength(cfg, e), ProducedCoding(e), f.connection, f.keepAlive, f.date,
                                  ProducedFields(cfg, e))
  {
    hide ServerHeaders, AnswerVersion, Reuses, FinalResponse, Coded, AnnouncedReply;
    AnnouncedIsHandlers(cfg, e);
    RepresentedIsCoded(cfg, e);
    AnnouncedAside(cfg, e);
    HeadersBeside(cfg, AnswerVersion(e), e.count, e.date, Reuses(e), e.outcome.response);
    assert AnnouncedReply(cfg, e).fields.other == cfg.decorate(e.outcome.response.fields.other) by {
      AnnouncedHead(cfg, e);
    }
  }

  /** A reply that is written in one piece is that header section and the body produced. */
  lemma {:induction false} WholeReplyIs(cfg: Config, e: Exchange)
    requires e.outcome.Handled? && InOnePiece(e)
    ensures Reply(cfg, e) == [Header(ProducedHead(cfg, e))] + Bytes(ProducedBody(cfg, e))
  {
    hide FinalResponse, ProducedHead, Bytes, Represented, Coded, AnnouncedReply, HeaderSection;
    HeadIsProduced(cfg, e);
    AnnouncedIsHandlers(cfg, e);
    RepresentedIsCoded(cfg, e);
  }

  /** What HEAD announces is what GET would: the status, and the length of the content (section 9.3.2 of RFC 9110).  Of
      the length that is so exactly when only a response that is streamed is marked as chunked and, under a status
      without a body, none is streamed with a length. */
  lemma {:induction false} HeadAnnouncesGet(cfg: Config, e: Exchange, f: Exchange)
    requires e.outcome == f.outcome && e.outcome.Handled? && IsHead(e) && !IsHead(f) && !IsPassthrough(f)
    ensures var head, got := HeaderSection(FinalResponse(cfg, e)), HeaderSection(FinalResponse(cfg, f));
            var r := e.outcome.response;
            && head.status == got.status
            && (head.fields.contentLength == got.fields.contentLength <==>
                if r.status.Some? && StatusHasNoBody(r.status.value) then !r.streaming || r.chunked
                else r.streaming || !r.chunked)
  {
    hide FinalResponse, HeaderSection, Reuses, NegotiateVersion, ProducedFields;
    HeadIsProduced(cfg, e);
    HeadIsProduced(cfg, f);
  }

  // ---------------------------------------------------------------- what a client reads

  lemma {:induction false} DecodeOfReply(cfg: Config, e: Exchange, rest: Wire)
    requires Usable(cfg) && Delivered(cfg, e) && Sound(cfg, e)
    ensures Decode(IsHead(e), Reply(cfg, e) + rest) ==
            Message(ProducedStatus(e), ProducedBody(cfg, e), rest)
  {
    hide Usable, Delivered, Sound, WellFramed, FinalResponse, WireBody, ProducedBody, Pieces, Decode, Bytes;
    ReplyFramed(cfg, e);
    ProducedStatusIsSent(cfg, e);
    DecodeOfFraming(IsHead(e), HeaderSection(FinalResponse(cfg, e)), WireBody(cfg, e), ProducedBody(cfg, e), Pieces(e),
                    rest);
  }

  lemma {:induction false} Regroup(a: Wire, b: Wire, c: Wire)
    ensures a + b + c == a + (b + c)
  {
  }

  /** The client recovers the produced body of a reply, and where it ends, whatever follows it. */
  lemma {:induction false} DecodeOfRender(cfg: Config, e: Exchange, rest: Wire)
    requires Usable(cfg) && Delivered(cfg, e) && Sound(cfg, e)
    ensures Decode(IsHead(e), Render(cfg, e) + rest) ==
            Message(ProducedStatus(e), ProducedBody(cfg, e), rest)
  {
    hide Decode, FinalResponse, Reply, ProducedBody;
    Regroup(Interim(e.interim), Reply(cfg, e), rest);
    DecodeAfterInterim(IsHead(e), e.interim, Reply(cfg, e) + rest);
    DecodeOfReply(cfg, e, rest);
  }

  /** The requests of a series of exchanges, as far as a decoder has to know them, and what it should find. */
  function Heads(exchanges: seq<Exchange>): seq<bool> {
    if exchanges == [] then [] else Heads(exchanges[..|exchanges| - 1]) + [IsHead(exchanges[|exchanges| - 1])]
  }

  function Expected(cfg: Config, exchanges: seq<Exchange>): seq<(int, string)>
  {
    if exchanges == [] then []
    else
      var e := exchanges[|exchanges| - 1];
      Expected(cfg, exchanges[..|exchanges| - 1]) + [(ProducedStatus(e), ProducedBody(cfg, e))]
  }

  /** Reading on: what is decoded of the requests so far, then of one more. */
  lemma {:induction false} DecodeOneMore(heads: seq<bool>, head: bool, w: Wire)
    requires DecodeAll(heads, w).Some?
    ensures DecodeAll(heads + [head], w) ==
            (var sofar := DecodeAll(heads, w).value;
             match Decode(head, sofar.rest)
             case Message(status, body, rest) => Some(Transcribed(sofar.messages + [(status, body)], rest))
             case _ => None)
    decreases |heads|
  {
    hide Decode;
    if heads == [] {
      assert heads + [head] == [head] && [head][1..] == [];
      var d := Decode(head, w);
      if d.Message? {
        assert DecodeAll([], d.rest) == Some(Transcribed([], d.rest));
        assert [(d.status, d.body)] + [] == [] + [(d.status, d.body)];
      }
    } else {
      var longer := heads + [head];
      assert longer[1..] == heads[1..] + [head];
      var d := Decode(heads[0], w);
      DecodeOneMore(heads[1..], head, d.rest);
      var later := DecodeAll(heads[1..], d.rest).value;
      forall x: (int, string)
        ensures [(d.status, d.body)] + (later.messages + [x]) == [(d.status, d.body)] + later.messages + [x]
      {
      }
    }
  }

  /** The transcript of a connection decodes to exactly one final response per request, in order, with exactly the
      produced bodies, and the decoder is left at the boundary of the next message. */
  lemma {:induction false} TranscriptDecodes(cfg: Config, exchanges: seq<Exchange>, rest: Wire)
    requires Usable(cfg) && forall e :: e in exchanges ==> Delivered(cfg, e) && Sound(cfg, e)
    ensures DecodeAll(Heads(exchanges), Transcript(cfg, exchanges) + rest) ==
            Some(Transcribed(Expected(cfg, exchanges), rest))
    decreases |exchanges|
  {
    hide Decode, Render, FinalResponse, ProducedBody, Delivered, Sound;
    if exchanges == [] {
      assert Transcript(cfg, exchanges) + rest == rest;
    } else {
      var before, e := exchanges[..|exchanges| - 1], exchanges[|exchanges| - 1];
      assert e in exchanges;
      assert Transcript(cfg, exchanges) + rest == Transcript(cfg, before) + (Render(cfg, e) + rest);
      TranscriptDecodes(cfg, before, Render(cfg, e) + rest);
      DecodeOneMore(Heads(before), IsHead(e), Transcript(cfg, exchanges) + rest);
      DecodeOfRender(cfg, e, rest);
    }
  }

  // ---------------------------------------------------------------- replies cut short

  lemma {:induction false} PayloadOf(s: string)
    ensures Payload(Bytes(s)) == s
  {
    PayloadOfBytes(s, []);
    assert Bytes(s) + [] == Bytes(s) && s + "" == s;
  }

  lemma {:induction false} CutLength(head: Head, length: nat, sent: string)
    requires !IsInterim(head.status) && !StatusHasNoBody(head.status)
    requires head.fields.transferEncoding == None && head.fields.contentLength == Some(length) && |sent| < length
    ensures Decode(false, [Header(head)] + Bytes(sent)) == NotYet
  {
    assert ([Header(head)] + Bytes(sent))[1..] == Bytes(sent);
    PayloadOf(sent);
  }

  lemma {:induction false} CutChunks(head: Head, chunks: seq<string>, sent: nat)
    requires !IsInterim(head.status) && !StatusHasNoBody(head.status)
    requires head.fields.transferEncoding == Some("chunked") && sent < |Framed(chunks) + LAST_CHUNK|
    ensures Decode(false, [Header(head)] + Bytes((Framed(chunks) + LAST_CHUNK)[..sent])) == NotYet
  {
    hide Framed, LAST_CHUNK, DecodeChunked;
    var part := (Framed(chunks) + LAST_CHUNK)[..sent];
    assert ([Header(head)] + Bytes(part))[1..] == Bytes(part);
    PayloadOf(part);
    TruncationShows(chunks, sent);
    assert Lower("chunked") == "chunked";
  }

  lemma {:induction false} CutAfterHead(head: Head, body: string, n: nat)
    requires 0 < n < 1 + |body|
    ensures ([Header(head)] + Bytes(body))[..n] == [Header(head)] + Bytes(body[..n - 1])
  {
  }

  /** No strict prefix of a reply looks complete: a client that got only a part of it waits for the rest. */
  lemma {:induction false} CutReply(cfg: Config, e: Exchange, n: nat)
    requires Usable(cfg) && Delivered(cfg, e) && Sound(cfg, e) && n < |Reply(cfg, e)|
    ensures Decode(IsHead(e), Reply(cfg, e)[..n]) == NotYet
  {
    hide Usable, Delivered, Sound, FinalResponse, WireBody, ProducedBody, Pieces, Bytes, Framed, LAST_CHUNK, Concat,
         Decode;
    ReplyFramed(cfg, e);
    var head, body := HeaderSection(FinalResponse(cfg, e)), WireBody(cfg, e);
    if n == 0 {
      assert Reply(cfg, e)[..n] == [];
      assert Decode(IsHead(e), []) == NotYet by { NothingYet(IsHead(e)); }
    } else {
      CutAfterHead(head, body, n);
      if head.fields.transferEncoding == None {
        CutLength(head, |body|, body[..n - 1]);
      } else {
        CutChunks(head, Pieces(e), n - 1);
      }
    }
  }

  lemma {:induction false} NothingYet(isHead: bool)
    ensures Decode(isHead, []) == NotYet
  {
  }

  lemma {:induction false} CutRender(cfg: Config, e: Exchange, w: Wire)
    requires Usable(cfg) && Delivered(cfg, e) && Sound(cfg, e) && w <= Render(cfg, e) && w != Render(cfg, e)
    ensures Decode(IsHead(e), w) == NotYet
  {
    hide Decode, Usable, Delivered, Sound, Reply;
    if w == [] {
      NothingYet(IsHead(e));
    } else {
      var n := |w| - |Interim(e.interim)|;
      assert w == Interim(e.interim) + Reply(cfg, e)[..n];
      DecodeAfterInterim(IsHead(e), e.interim, Reply(cfg, e)[..n]);
      CutReply(cfg, e, n);
    }
  }

  /** A client that has got only the beginning of a transcript finds the first responses, each whole and right, and then
      waits for the next one. */
  lemma {:induction false} PrefixDecodes(cfg: Config, exchanges: seq<Exchange>, next: Wire, w: Wire) returns (k: nat)
    requires Usable(cfg) && forall e :: e in exchanges ==> Delivered(cfg, e) && Sound(cfg, e)
    requires w <= Transcript(cfg, exchanges) + next
    ensures k <= |exchanges|
    ensures DecodeAll(Heads(exchanges[..k]), w).Some?
    ensures var d := DecodeAll(Heads(exchanges[..k]), w).value;
            && d.messages == Expected(cfg, exchanges[..k])
            && (if k < |exchanges| then Decode(IsHead(exchanges[k]), d.rest) == NotYet else d.rest <= next)
    decreases |exchanges|
  {
    hide Decode, DecodeAll, Render, Usable, Delivered, Sound, Heads, Expected;
    var all := Transcript(cfg, exchanges);
    if |all| <= |w| {
      k := |exchanges|;
      assert exchanges[..k] == exchanges && w == all + w[|all|..];
      TranscriptDecodes(cfg, exchanges, w[|all|..]);
    } else {
      var before, e := exchanges[..|exchanges| - 1], exchanges[|exchanges| - 1];
      var sofar := Transcript(cfg, before);
      assert e in exchanges && w <= all;
      if |sofar| <= |w| {
        k := |exchanges| - 1;
        var cut := w[|sofar|..];
        assert w == sofar + cut && cut <= Render(cfg, e);
        TranscriptDecodes(cfg, before, cut);
        CutRender(cfg, e, cut);
      } else {
        assert w <= sofar + [];
        k := PrefixDecodes(cfg, before, [], w);
        assert exchanges[..k] == before[..k];
        if k == |before| {
          NothingBehind(cfg, before, e, w);
        }
      }
    }
  }

  lemma {:induction false} NothingBehind(cfg: Config, before: seq<Exchange>, e: Exchange, w: Wire)
    requires DecodeAll(Heads(before[..|before|]), w).Some?
    requires DecodeAll(Heads(before[..|before|]), w).value.rest <= []
    ensures Decode(IsHead(e), DecodeAll(Heads(before[..|before|]), w).value.rest) == NotYet
  {
    hide Decode, DecodeAll, Heads;
    NothingYet(IsHead(e));
  }

  // ---------------------------------------------------------------- streams whose length is announced

  lemma {:induction false} CountedHead(cfg: Config, e: Exchange)
    requires IsCounted(e) && Sound(cfg, e) && Served(cfg, e)
    ensures var head := HeaderSection(FinalResponse(cfg, e));
            !IsInterim(head.status) && head.fields.contentLength == Some(e.outcome.response.streamLength) &&
            (!StatusHasNoBody(head.status) ==> head.fields.transferEncoding == None)
    ensures WireBody(cfg, e) == Concat(e.outcome.chunks) && !IsHead(e)
  {
    hide ServerHeaders, AnswerVersion, Reuses, RegularReply, ChunkedReply, HandlerRequest, Obeyed, Concat;
    AnnouncedAside(cfg, e);
  }

  predicate HasBody(cfg: Config, e: Exchange) {
    !StatusHasNoBody(HeaderSection(FinalResponse(cfg, e)).status)
  }

  /** What a client makes of a stream that delivered the octets in `body`: nothing while it fell short, itself when it
      delivered what it announced, and its beginning when there was more. */
  lemma {:induction false} CountedDecodes(cfg: Config, e: Exchange, body: string)
    requires IsCounted(e) && Sound(cfg, e) && Served(cfg, e) && HasBody(cfg, e)
    ensures var length := e.outcome.response.streamLength;
            Decode(false, [Header(HeaderSection(FinalResponse(cfg, e)))] + Bytes(body)) ==
            if |body| < length then NotYet
            else Message(ProducedStatus(e), body[..length], Bytes(body[length..]))
  {
    hide FinalResponse, Sound, Served;
    var head, length := HeaderSection(FinalResponse(cfg, e)), e.outcome.response.streamLength;
    ProducedStatusIsSent(cfg, e);
    CountedHead(cfg, e);
    if |body| < length {
      CutLength(head, length, body);
    } else {
      assert body == body[..length] + body[length..];
      BytesOfConcat(body[..length], body[length..]);
      assert [Header(head)] + Bytes(body) == [Header(head)] + Bytes(body[..length]) + Bytes(body[length..]);
      DecodeOfLength(head, body[..length], Bytes(body[length..]));
    }
  }

  // ---------------------------------------------------------------- two replies that are not framed, and when they are

  lemma {:induction false} LongerWire(s: string, rest: Wire)
    ensures Bytes(s) + rest == rest <==> s == ""
  {
    assert |Bytes(s) + rest| == |s| + |rest|;
    if s == "" {
      assert Bytes(s) + rest == rest;
    }
  }

  lemma {:induction false} DecodeOfHead(head: Head, rest: Wire)
    requires !IsInterim(head.status)
    ensures Decode(true, [Header(head)] + rest) == Message(head.status, "", rest)
  {
    assert ([Header(head)] + rest)[1..] == rest;
  }

  lemma {:induction false} StockReplyHead(cfg: Config, e: Exchange)
    requires e.outcome.Stock?
    ensures HeaderSection(FinalResponse(cfg, e)).status == e.outcome.status &&
            WireBody(cfg, e) == cfg.stock(e.outcome.status)
  {
    hide ServerHeaders, AnswerVersion, Reuses, RegularReply, StreamedReply, ChunkedReply;
    AnnouncedAside(cfg, e);
  }

  /** A stock reply writes its body also in answer to HEAD.  The client finds the next reply exactly when that body
      is empty. */
  lemma {:induction false} StockReplyToHead(cfg: Config, e: Exchange, rest: Wire)
    requires IsHead(e) && e.outcome.Stock? && !IsInterim(e.outcome.status)
    ensures Decode(IsHead(e), Reply(cfg, e) + rest) == Message(e.outcome.status, "", rest) <==>
            cfg.stock(e.outcome.status) == ""
  {
    hide FinalResponse, WireBody, Decode, Bytes;
    StockReplyHead(cfg, e);
    var head, body := HeaderSection(FinalResponse(cfg, e)), cfg.stock(e.outcome.status);
    assert Reply(cfg, e) + rest == [Header(head)] + (Bytes(body) + rest);
    DecodeOfHead(head, Bytes(body) + rest);
    LongerWire(body, rest);
  }

  lemma {:induction false} UnsetStatusHead(cfg: Config, e: Exchange)
    requires e.outcome.Handled? && !IsHead(e) && !e.outcome.response.streaming && e.outcome.response.status == None
    requires e.outcome.response.fields.transferEncoding == None
    ensures var head := HeaderSection(FinalResponse(cfg, e));
            head.status == NOT_IMPLEMENTED && head.fields.transferEncoding == None &&
            head.fields.contentLength == Some(AnnouncedLength(cfg, e)) && WireBody(cfg, e) == cfg.stock(NOT_IMPLEMENTED)
  {
    hide ServerHeaders, AnswerVersion, Reuses, StreamedReply, ChunkedReply, Represented, Coded, AnnouncedReply;
    AnnouncedIsHandlers(cfg, e);
    RepresentedIsCoded(cfg, e);
  }

  lemma {:induction false} DecodeOfWrongLength(head: Head, body: string)
    requires !IsInterim(head.status) && !StatusHasNoBody(head.status)
    requires head.fields.transferEncoding == None && head.fields.contentLength.Some?
    ensures Decode(false, [Header(head)] + Bytes(body)) == Message(head.status, body, []) <==>
            head.fields.contentLength.value == |body|
  {
    var w := [Header(head)] + Bytes(body);
    assert w[1..] == Bytes(body);
    PayloadOf(body);
    var n := head.fields.contentLength.value;
    if n < |body| {
      assert |body[..n]| < |body|;
    } else if n == |body| {
      assert body[..n] == body && Bytes(body)[n..] == [];
    }
  }

  /** A response without a status is sent as a 501 with a length of its former content: it is read right exactly
      when the two lengths are the same. */
  lemma {:induction false} UnsetStatusReply(cfg: Config, e: Exchange)
    requires e.outcome.Handled? && !IsHead(e) && !e.outcome.response.streaming && e.outcome.response.status == None
    requires e.outcome.response.fields.transferEncoding == None
    ensures Decode(false, Reply(cfg, e)) == Message(NOT_IMPLEMENTED, cfg.stock(NOT_IMPLEMENTED), []) <==>
            |cfg.stock(NOT_IMPLEMENTED)| == AnnouncedLength(cfg, e)
  {
    hide FinalResponse, WireBody, Decode, AnnouncedLength;
    UnsetStatusHead(cfg, e);
    DecodeOfWrongLength(HeaderSection(FinalResponse(cfg, e)), cfg.stock(NOT_IMPLEMENTED));
  }

  // ---------------------------------------------------------------- exactly the replies a client can read

  /** Whatever follows it, the client finds the status and the body produced, and where the reply ends. */
  ghost predicate Readable(cfg: Config, e: Exchange) {
    forall rest :: Decode(IsHead(e), Render(cfg, e) + rest) ==
                   Message(ProducedStatus(e), ProducedBody(cfg, e), rest)
  }

  lemma {:induction false} MessageIsFinal(isHead: bool, w: Wire)
    ensures Decode(isHead, w).Message? ==> !IsInterim(Decode(isHead, w).status)
    decreases |w|
  {
    if w != [] && w[0].Header? && IsInterim(w[0].head.status) {
      MessageIsFinal(isHead, w[1..]);
    }
  }

  /** A body under a header section that says there is none stays behind. */
  lemma {:induction false} BodyStaysBehind(head: Head, body: string)
    requires !IsInterim(head.status) && StatusHasNoBody(head.status)
    ensures Decode(false, [Header(head)] + Bytes(body)) == Message(head.status, "", Bytes(body))
  {
    assert ([Header(head)] + Bytes(body))[1..] == Bytes(body);
  }

  /** A body sent as it is under a coding announced by the handler is not read as itself. */
  lemma {:induction false} CodingMisleads(head: Head, body: string)
    requires !IsInterim(head.status) && !StatusHasNoBody(head.status) && head.fields.transferEncoding.Some?
    ensures Decode(false, [Header(head)] + Bytes(body)) != Message(head.status, body, [])
  {
    hide DecodeChunked;
    var w := [Header(head)] + Bytes(body);
    assert w[1..] == Bytes(body);
    PayloadOf(body);
    DecodeShrinks(body);
  }

  /** The header section and the body of a reply, for each way a handler can spoil it. */
  lemma {:induction false} SpoiltHead(cfg: Config, e: Exchange)
    requires Delivered(cfg, e) && e.outcome.Handled?
    ensures var r, head := e.outcome.response, HeaderSection(FinalResponse(cfg, e));
            && (r.status.Some? ==> head.status == r.status.value)
            && (r.status == None ==> head.status == NOT_IMPLEMENTED)
            && (!IsHead(e) && !(InOnePiece(e) && StatusHasNoBody(head.status)) && !(!InOnePiece(e) && r.chunked) ==>
                  head.fields.transferEncoding == r.fields.transferEncoding && WireBody(cfg, e) == ProducedBody(cfg, e))
  {
    hide ServerHeaders, AnswerVersion, Reuses, Framed, Concat, LAST_CHUNK, HandlerRequest, Obeyed, Represented, Coded,
         AnnouncedReply;
    AnnouncedIsHandlers(cfg, e);
    RepresentedIsCoded(cfg, e);
    AnnouncedAside(cfg, e);
  }

  lemma {:induction false} UnsoundHandled(cfg: Config, e: Exchange)
    requires Delivered(cfg, e) && e.outcome.Handled? && !SoundResponse(cfg, e)
    ensures Decode(IsHead(e), Reply(cfg, e)) != Message(ProducedStatus(e), ProducedBody(cfg, e), [])
  {
    hide Delivered, Decode, FinalResponse, WireBody, ProducedBody, Bytes, AnnouncedLength;
    var r, head := e.outcome.response, HeaderSection(FinalResponse(cfg, e));
    SpoiltHead(cfg, e);
    if r.status.Some? && IsInterim(r.status.value) {
      MessageIsFinal(IsHead(e), Reply(cfg, e));
    } else if StatusHasNoBody(head.status) {
      BodyStaysBehind(head, WireBody(cfg, e));
      assert |Bytes(WireBody(cfg, e))| == |WireBody(cfg, e)|;
    } else if r.fields.transferEncoding.Some? {
      CodingMisleads(head, WireBody(cfg, e));
    } else {
      UnsetStatusHead(cfg, e);
      DecodeOfWrongLength(head, WireBody(cfg, e));
    }
  }

  lemma {:induction false} UnsoundFails(cfg: Config, e: Exchange)
    requires Delivered(cfg, e) && Usable(cfg) && !Sound(cfg, e)
    ensures !Readable(cfg, e)
  {
    hide Delivered, Decode, FinalResponse, Reply, ProducedBody, SoundResponse;
    var rest: Wire := [];
    assert Render(cfg, e) + rest == Interim(e.interim) + Reply(cfg, e);
    DecodeAfterInterim(IsHead(e), e.interim, Reply(cfg, e));
    if e.outcome.Stock? {
      UnsoundStock(cfg, e);
    } else {
      UnsoundHandled(cfg, e);
    }
  }

  lemma {:induction false} UnsoundStock(cfg: Config, e: Exchange)
    requires Delivered(cfg, e) && Usable(cfg) && e.outcome.Stock? && !Sound(cfg, e)
    ensures Decode(IsHead(e), Reply(cfg, e)) != Message(ProducedStatus(e), ProducedBody(cfg, e), [])
  {
    hide Decode, FinalResponse, Reply, Usable;
    OwnStatuses(cfg);
    StockReplyToHead(cfg, e, []);
    StockReplyHead(cfg, e);
    assert Reply(cfg, e) + [] == Reply(cfg, e);
  }

  /** The condition on the handlers is exact: of the replies that were delivered as announced, a client reads the sound
      ones and no others. */
  lemma {:induction false} SoundExactly(cfg: Config, e: Exchange)
    requires Usable(cfg) && Delivered(cfg, e)
    ensures Sound(cfg, e) <==> Readable(cfg, e)
  {
    hide Usable, Delivered, Sound, Decode, FinalResponse, Render, ProducedBody;
    if Sound(cfg, e) {
      forall rest
        ensures Decode(IsHead(e), Render(cfg, e) + rest) ==
                Message(ProducedStatus(e), ProducedBody(cfg, e), rest)
      {
        DecodeOfRender(cfg, e, rest);
      }
    } else {
      UnsoundFails(cfg, e);
    }
  }
}
