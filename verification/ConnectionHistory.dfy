/** Nothing is taken back: what a handler can do to what happened before it. */
module ConnectionHistory {
  import opened Wrappers
  import opened Text
  import opened HeaderTokens
  import opened RequestHead
  import opened ChunkedCodec
  import opened Messages
  import opened RequestStream
  import opened Replies
  import opened ConnectionModel

  /** What a handler may do besides answering: nothing; negotiate about a request; take in octets and requests. */
  datatype Mode = Quiet | Negotiates | Reads

  /** `q` can come after `p`: what was written, received, parsed and exchanged stays; a closed socket stays closed and
      silent; unless something is read, nothing is received, parsed or found too large, and unless something is
      negotiated, what was stays; and no connection is kept by a handler that sees the server shut down. */
  ghost predicate Grows(p: Record, q: Record, mode: Mode, shutdown: bool) {
    && p.wire <= q.wire && p.received <= q.received && p.requests <= q.requests && p.exchanges <= q.exchanges
    && (!p.open ==> !q.open && q.wire == p.wire)
    && (p.timedOut ==> q.timedOut) && (p.broken ==> q.broken)
    && (!mode.Reads? ==> q.received == p.received && q.requests == p.requests && (q.tooLarge ==> p.tooLarge))
    && (mode.Quiet? ==> q.kept == p.kept)
    && (shutdown ==> q.exchanges == p.exchanges)
  }

  ghost predicate Grew(s: State, t: State, mode: Mode, shutdown: bool) {
    Grows(RecordOf(s), RecordOf(t), mode, shutdown)
  }

  lemma {:induction false} Compose(s: State, t: State, u: State, mode: Mode, shutdown: bool)
    requires Grew(s, t, mode, shutdown) && Grew(t, u, mode, shutdown)
    ensures Grew(s, u, mode, shutdown)
  {
    hide RecordOf;
  }

  lemma {:induction false} Stays(s: State, mode: Mode, shutdown: bool)
    ensures Grew(s, s, mode, shutdown)
  {
    hide RecordOf;
  }

  lemma {:induction false} Quietly(s: State, t: State, mode: Mode, shutdown: bool)
    requires Grew(s, t, Quiet, shutdown) || (Grew(s, t, Negotiates, shutdown) && mode == Reads)
    ensures Grew(s, t, mode, shutdown)
  {
    hide RecordOf;
  }

  // ---------------------------------------------------------------- replies

  lemma {:induction false} WriteGrows(s: State, w: Wire, io: Io, shutdown: bool)
    ensures Grew(s, Write(s, w, io), Quiet, shutdown)
  {
  }

  lemma {:induction false} CloseGrows(s: State, shutdown: bool)
    ensures Grew(s, Closed(s), Quiet, shutdown) && Grew(s, s.(open := false), Quiet, shutdown)
  {
  }

  lemma {:induction false} ResetRecord(s: State)
    ensures RecordOf(Reset(s)) == RecordOf(s).(exchanges := RecordOf(s).exchanges + [Current(s)])
  {
    hide Current;
  }

  lemma {:induction false} FinishGrows(cfg: Config, s: State, shutdown: bool)
    ensures Grew(s, FinishResponse(cfg, s, shutdown), Quiet, shutdown)
  {
    hide RecordOf, Listen, Reset, Concluded, Current;
    ResetRecord(s);
  }

  lemma {:induction false} SimpleGrows(cfg: Config, s: State, env: Env)
    requires s.response.status.Some?
    ensures Grew(s, SendSimpleReply(cfg, s, env), Quiet, env.atFinish)
  {
    hide Grows, RecordOf, Write, WriteOk, FinishResponse, HeaderSection, Bytes, Concluded, Closed;
    var head, body := [Header(HeaderSection(s.response))], Bytes(s.response.content);
    var afterHead := Write(s, head, env.head);
    var written := Write(afterHead, body, env.body);
    WriteGrows(s, head, env.head, env.atFinish);
    WriteGrows(afterHead, body, env.body, env.atFinish);
    Compose(s, afterHead, written, Quiet, env.atFinish);
    FinishGrows(cfg, written, env.atFinish);
    CloseGrows(written, env.atFinish);
    Compose(s, written, SendSimpleReply(cfg, s, env), Quiet, env.atFinish);
  }

  /** An answer is begun, and grows. */
  lemma {:induction false} AnswerGrows(s: State, t: State, u: State, outcome: Outcome, shutdown: bool)
    requires RecordOf(t) == RecordOf(s).(tooLarge := outcome == Stock(HEADER_FIELDS_TOO_LARGE))
    requires Grew(t, u, Quiet, shutdown)
    ensures Grew(s, u, if outcome == Stock(HEADER_FIELDS_TOO_LARGE) then Reads else Quiet, shutdown)
  {
    hide RecordOf;
  }

  lemma {:induction false} OwnGrows(cfg: Config, s: State, response: Response, outcome: Outcome, env: Env)
    requires response.status.Some?
    ensures Grew(s, SendOwnReply(cfg, s, response, outcome, env),
                 if outcome == Stock(HEADER_FIELDS_TOO_LARGE) then Reads else Quiet, env.atFinish)
  {
    hide Grows, RecordOf, SendSimpleReply, SetServerHeaders;
    var announced := SetServerHeaders(cfg, Respond(s, response, outcome), env.now);
    SimpleGrows(cfg, announced, env);
    AnswerGrows(s, announced, SendSimpleReply(cfg, announced, env), outcome, env.atFinish);
  }

  lemma {:induction false} StockGrows(cfg: Config, s: State, status: int, env: Env)
    ensures Grew(s, SendStockReply(cfg, s, status, env), if status == HEADER_FIELDS_TOO_LARGE then Reads else Quiet,
                 env.atFinish)
  {
    hide Grew, SendOwnReply;
    OwnGrows(cfg, s, StockOf(cfg, status, s.response), Stock(status), env);
  }

  /** The statuses of the library's own are not that of a head that is too large. */
  lemma {:induction false} LibraryStatuses(cfg: Config)
    requires Usable(cfg)
    ensures cfg.highLoad != HEADER_FIELDS_TOO_LARGE && cfg.shutdown != HEADER_FIELDS_TOO_LARGE
  {
  }

  lemma {:induction false} AbortGrows(cfg: Config, s: State, env: Env)
    ensures Grew(s, AbortReply(cfg, s, env), Quiet, env.atFinish)
  {
    hide Grows, RecordOf, SendStockReply, Unkept, Abandoned;
    StockGrows(cfg, Unkept(s), SERVICE_UNAVAILABLE, env);
  }

  // ---------------------------------------------------------------- a request arrives

  lemma {:induction false} DispatchGrows(cfg: Config, s: State, env: Env)
    requires Usable(cfg)
    ensures Grew(s, Dispatch(cfg, s, env), Quiet, env.atFinish)
  {
    hide Grows, RecordOf, SendOwnReply, SendStockReply, Usable, Pooled, Await, SelectedPool;
    LibraryStatuses(cfg);
    if s.request.verb == OPTIONS && s.request.resource == "*" {
      OwnGrows(cfg, s, OptionsResponse(cfg), Options, env);
    } else if env.view.NoView? {
      StockGrows(cfg, s, NOT_FOUND, env);
    } else {
      var view := env.view;
      var classified := Pooled(s, s.queryIsFast, !view.frontend && view.admin && cfg.hasAdminPool);
      var selected := Pooled(classified, view.frontend || !cfg.hasSlowPool || view.fast,
                             !view.frontend && classified.adminQuery);
      StockGrows(cfg, classified, cfg.highLoad, env);
      StockGrows(cfg, selected, if view.frontend then SERVICE_UNAVAILABLE else cfg.highLoad, env);
      Stays(s, Quiet, env.atFinish);
    }
  }

  lemma {:induction false} AfterNegotiation(s: State, t: State, u: State, kept: bool, shutdown: bool)
    requires RecordOf(t) == RecordOf(s).(kept := kept) && Grew(t, u, Quiet, shutdown)
    ensures Grew(s, u, Negotiates, shutdown) && u.trace.kept == kept
  {
    assert RecordOf(u).kept == u.trace.kept;
    hide RecordOf;
  }

  lemma {:induction false} DeclinedGrows(cfg: Config, s: State, env: Env)
    ensures var t := SendStockReply(cfg, Declined(Negotiate(cfg, s, env)), BAD_REQUEST, env);
            Grew(s, t, Negotiates, env.atFinish) && !t.trace.kept
  {
    hide Grew, RecordOf, SendStockReply, Negotiate, Declined;
    var n := Negotiate(cfg, s, env);
    StockGrows(cfg, Declined(n), BAD_REQUEST, env);
    AfterNegotiation(s, Declined(n), SendStockReply(cfg, Declined(n), BAD_REQUEST, env), false, env.atFinish);
  }

  lemma {:induction false} AcceptedGrows(cfg: Config, s: State, env: Env)
    requires Usable(cfg)
    ensures var t := Dispatch(cfg, Strip(Negotiate(cfg, s, env)), env);
            Grew(s, t, Negotiates, env.atFinish) && (env.atNegotiate ==> !t.trace.kept)
  {
    hide Grew, RecordOf, Dispatch, Negotiate, Strip, Usable;
    var n := Negotiate(cfg, s, env);
    DispatchGrows(cfg, Strip(n), env);
    AfterNegotiation(s, Strip(n), Dispatch(cfg, Strip(n), env), n.trace.kept, env.atFinish);
  }

  /** A request is answered or queued; one that is negotiated about when the server shuts down is not to be kept. */
  lemma {:induction false} ParsedGrows(cfg: Config, s: State, env: Env)
    requires Usable(cfg)
    ensures Grew(s, HandleParsedRequest(cfg, s, env), Negotiates, env.atFinish)
    ensures env.peer && env.atNegotiate ==> !HandleParsedRequest(cfg, s, env).trace.kept
  {
    hide Grew, RecordOf, Dispatch, SendStockReply, HasHeader, Negotiate, Strip, Declined, Usable;
    Stays(s, Negotiates, env.atFinish);
    DeclinedGrows(cfg, s, env);
    AcceptedGrows(cfg, s, env);
  }

  lemma {:induction false} ExpectGrows(cfg: Config, s: State, env: Env)
    ensures Grew(s, HandleExpectContinue(cfg, s, env), Quiet, env.atFinish)
  {
    hide Grows, RecordOf, SendStockReply, Write, WriteOk, ScanHead, HasToken, NegotiateVersion, Await, Examined, Told,
         Unkept;
    Stays(s, Quiet, env.atFinish);
    WriteGrows(Examined(s), [CONTINUE], env.interim, env.atFinish);
    StockGrows(cfg, Unkept(Examined(s)), EXPECTATION_FAILED, env);
  }

  lemma {:induction false} IncompleteGrows(cfg: Config, s: State, env: Env)
    ensures Grew(s, HandleIncompleteRequest(cfg, s, env), if TooLarge(cfg, s.buffer) then Reads else Quiet,
                 env.atFinish)
  {
    hide Grows, RecordOf, SendStockReply, HandleExpectContinue, TooLarge, Unkept;
    StockGrows(cfg, Unkept(s), HEADER_FIELDS_TOO_LARGE, env);
    ExpectGrows(cfg, s, env);
  }

  lemma {:induction false} TakeGrows(s: State, request: Request, consumed: nat, shutdown: bool)
    requires consumed <= |s.buffer|
    ensures Grew(s, TakeRequest(s, request, consumed), Reads, shutdown)
  {
  }

  lemma {:induction false} BufferGrows(cfg: Config, s: State, env: Env)
    requires Usable(cfg)
    ensures Grew(s, ParseBuffer(cfg, s, env), Reads, env.atFinish)
  {
    hide Grew, RecordOf, SendStockReply, HandleParsedRequest, HandleIncompleteRequest, TakeRequest, TooLarge;
    assert Consumes(cfg.parse, s.buffer);
    match cfg.parse(s.buffer)
    case Complete(request, consumed) =>
      var t := TakeRequest(s, request, consumed);
      TakeGrows(s, request, consumed, env.atFinish);
      ParsedGrows(cfg, t, env);
      Quietly(t, HandleParsedRequest(cfg, t, env), Reads, env.atFinish);
      Compose(s, t, HandleParsedRequest(cfg, t, env), Reads, env.atFinish);
    case Failed =>
      StockGrows(cfg, s, BAD_REQUEST, env);
      Quietly(s, SendStockReply(cfg, s, BAD_REQUEST, env), Reads, env.atFinish);
    case Incomplete =>
      IncompleteGrows(cfg, s, env);
      if !TooLarge(cfg, s.buffer) {
        Quietly(s, HandleIncompleteRequest(cfg, s, env), Reads, env.atFinish);
      }
  }

  lemma {:induction false} ArriveGrows(s: State, data: string, shutdown: bool)
    ensures Grew(s, Arrive(s, data), Reads, shutdown)
  {
  }

  /** A read that sees the server shut down parses nothing. */
  lemma {:induction false} ReadGrows(cfg: Config, s: State, op: Continuation, ok: bool, data: string, env: Env)
    requires Usable(cfg)
    ensures Grew(s, HandleRead(cfg, s, op, ok, data, env), if env.atRead then Quiet else Reads, env.atFinish)
  {
    hide Grows, RecordOf, Usable, SendStockReply, ParseBuffer, LeaveIdle, Arrive, Take, Tallied;
    var taken := Take(s, op);
    LibraryStatuses(cfg);
    StockGrows(cfg, taken, cfg.shutdown, env);
    if !env.atRead {
      var busy := Tallied(LeaveIdle(cfg, taken), s.receivedBytes + |data|);
      Stays(s, Reads, env.atFinish);
      StockGrows(cfg, busy, ENTITY_TOO_LARGE, env);
      Quietly(s, SendStockReply(cfg, busy, ENTITY_TOO_LARGE, env), Reads, env.atFinish);
      ArriveGrows(busy, data, env.atFinish);
      BufferGrows(cfg, Arrive(busy, data), env);
      Compose(s, Arrive(busy, data), ParseBuffer(cfg, Arrive(busy, data), env), Reads, env.atFinish);
    }
  }

  // ---------------------------------------------------------------- the timer fires

  lemma {:induction false} ExpiryGrows(s: State, shutdown: bool)
    ensures Grew(s, Expired(s), Quiet, shutdown)
  {
  }

  lemma {:induction false} TimerGrows(cfg: Config, s: State, aborted: bool, generation: nat, env: Env)
    ensures Grew(s, HandleTimer(cfg, s, aborted, generation, env), Quiet, env.atFinish)
  {
    hide Grows, RecordOf, SendStockReply, Expired, Fired, Unkept;
    var expired := Expired(Fired(s, generation));
    ExpiryGrows(Fired(s, generation), env.atFinish);
    CloseGrows(expired, env.atFinish);
    Compose(s, expired, expired.(open := false), Quiet, env.atFinish);
    StockGrows(cfg, Unkept(expired), REQUEST_TIMEOUT, env);
    Compose(s, expired, SendStockReply(cfg, Unkept(expired), REQUEST_TIMEOUT, env), Quiet, env.atFinish);
    Stays(s, Quiet, env.atFinish);
  }

  // ---------------------------------------------------------------- the reply is sent

  lemma {:induction false} FlushGrows(s: State, env: Env)
    ensures Grew(s, FlushPendingHeaders(s, env), Quiet, env.atFinish)
  {
    hide Grows, Write;
    WriteGrows(s, s.pendingHeaders, env.flush, env.atFinish);
  }

  lemma {:induction false} ScheduleGrows(cfg: Config, s: State, op: Continuation, env: Env)
    ensures Grew(s, Schedule(cfg, s, op, env), Quiet, env.atFinish)
  {
    hide Grows, RecordOf, AbortReply, Await;
    Stays(s, Quiet, env.atFinish);
    AbortGrows(cfg, s, env);
  }

  /** The end of a flush: the stream goes on, ends or breaks off. */
  lemma {:induction false} FlushedGrows(cfg: Config, s: State, op: Continuation, env: Env)
    ensures var flushed := FlushPendingHeaders(s, env);
            Grew(s, flushed, Quiet, env.atFinish) && Grew(s, Closed(flushed), Quiet, env.atFinish) &&
            Grew(s, Schedule(cfg, flushed, op, env), Quiet, env.atFinish) &&
            Grew(s, FinishResponse(cfg, CheckLength(flushed), env.atFinish), Quiet, env.atFinish)
  {
    hide Grows, RecordOf, FlushPendingHeaders, Schedule, FinishResponse, CheckLength, Closed;
    var flushed := FlushPendingHeaders(s, env);
    FlushGrows(s, env);
    CloseGrows(flushed, env.atFinish);
    Compose(s, flushed, Closed(flushed), Quiet, env.atFinish);
    ScheduleGrows(cfg, flushed, op, env);
    Compose(s, flushed, Schedule(cfg, flushed, op, env), Quiet, env.atFinish);
    FinishGrows(cfg, CheckLength(flushed), env.atFinish);
    Compose(s, flushed, FinishResponse(cfg, CheckLength(flushed), env.atFinish), Quiet, env.atFinish);
  }

  lemma {:induction false} ChunkGrows(cfg: Config, s: State, status: StreamStatus, env: Env)
    ensures Grew(s, GetNextChunk(cfg, s, status, env), Quiet, env.atFinish)
  {
    hide Grows, RecordOf, FlushPendingHeaders, FlushOk, Schedule, FinishResponse, Produced, SendPiece, CheckLength,
         SelectedPool;
    Stays(s, Quiet, env.atFinish);
    FlushedGrows(cfg, if status.StreamOk? then Produced(s, "") else s, ChunkTask(SelectedPool(s)), env);
  }

  lemma {:induction false} ChunkedGrows(cfg: Config, s: State, status: StreamStatus, env: Env)
    ensures Grew(s, GetNextChunkedChunk(cfg, s, status, env), Quiet, env.atFinish)
  {
    hide Grows, RecordOf, FlushPendingHeaders, FlushOk, Schedule, FinishResponse, Produced, SendPiece, Chunk,
         LAST_CHUNK, SelectedPool, Closed;
    Stays(s, Quiet, env.atFinish);
    FlushedGrows(cfg, if status.StreamOk? then Produced(s, "") else s, ChunkedTask(SelectedPool(s)), env);
  }

  lemma {:induction false} ReplyGrows(cfg: Config, s: State, first: StreamStatus, env: Env)
    ensures Grew(s, StartReply(cfg, s, first, env), Quiet, env.atFinish)
  {
    hide Grows, RecordOf, GetNextChunk, GetNextChunkedChunk, StartRegularReply, PreparePendingHeaders, Framing,
         ContentLength, SetServerHeaders, Unkept;
    var announced := SetServerHeaders(cfg, s, env.now);
    Stays(s, Quiet, env.atFinish);
    ChunkGrows(cfg, Unkept(s), first, env);
    var fields := announced.response.fields;
    var length := ContentLength(announced.response);
    var counted := Framing(announced, length, fields.(contentLength := Some(length)));
    var chunked := Framing(announced, announced.declaredContentLength,
                           fields.(transferEncoding := Some("chunked"), contentLength := None));
    ChunkGrows(cfg, PreparePendingHeaders(cfg, counted), first, env);
    ChunkedGrows(cfg, PreparePendingHeaders(cfg, chunked), first, env);
  }

  lemma {:induction false} CompletedGrows(cfg: Config, s: State, pool: Pool, handler: Handler, first: StreamStatus,
                                          env: Env)
    ensures Grew(s, HandleCompletedRead(cfg, s, pool, handler, first, env), Quiet, env.atFinish)
  {
    hide Grows, RecordOf, StartReply, SendStockReply, Take, Cancelled, Respond;
    var cancelled := Cancelled(Take(s, HandleTask(pool)));
    Stays(s, Quiet, env.atFinish);
    StockGrows(cfg, cancelled, BAD_REQUEST, env);
    match handler(s.request, s.response)
    case Answered(response) =>
      var outcome := Handled(handler, s.request, response, []);
      var answered := Respond(cancelled, response, outcome);
      ReplyGrows(cfg, answered, first, env);
      AnswerGrows(s, answered, StartReply(cfg, answered, first, env), outcome, env.atFinish);
    case _ =>
  }

  lemma {:induction false} AdvanceGrows(s: State, op: Continuation, n: nat, shutdown: bool)
    requires CanDeliver(s, true, n)
    ensures Grew(s, Advance(Take(s, op), n), Quiet, shutdown)
  {
  }

  lemma {:induction false} FailGrows(s: State, shutdown: bool)
    ensures Grew(s, Failing(s), Quiet, shutdown)
  {
  }

  lemma {:induction false} WrittenGrows(cfg: Config, s: State, op: Continuation, ok: bool, n: nat, env: Env)
    requires IsWrite(op) && CanDeliver(s, ok, n)
    ensures Grew(s, Written(cfg, s, op, ok, n, env), Quiet, env.atFinish)
  {
    hide Grows, RecordOf, AbortReply, Schedule, FinishResponse, SelectedPool, Await, Failing;
    var t := Written(cfg, s, op, ok, n, env);
    if !ok {
      FailGrows(Take(s, op), env.atFinish);
      AbortGrows(cfg, Failing(Take(s, op)), env);
      Compose(s, Failing(Take(s, op)), t, Quiet, env.atFinish);
    } else {
      var sent := Advance(Take(s, op), n);
      AdvanceGrows(s, op, n, env.atFinish);
      Stays(sent, Quiet, env.atFinish);
      ScheduleGrows(cfg, sent, ChunkTask(SelectedPool(s)), env);
      ScheduleGrows(cfg, sent, ChunkedTask(SelectedPool(s)), env);
      FinishGrows(cfg, sent, env.atFinish);
      Compose(s, sent, t, Quiet, env.atFinish);
    }
  }

  // ---------------------------------------------------------------- every step

  /** A step reads when it looks at octets and does not see the server shut down. */
  function ModeOf(input: Input, env: Env): Mode {
    if input.ReadDone? && !env.atRead then Reads else Quiet
  }

  lemma {:induction false} HandshakeGrows(s: State, ok: bool, shutdown: bool)
    ensures Grew(s, HandleHandshake(s, ok), Quiet, shutdown)
  {
    hide Grows, RecordOf, Take, Await;
    Stays(s, Quiet, shutdown);
    CloseGrows(Take(s, Handshake), shutdown);
  }

  /** No step takes back what was written, read, parsed or exchanged, writes to a closed socket or opens it again,
      takes anything in when it sees the server shut down, or keeps a connection when it then does. */
  lemma {:induction false} StepGrows(cfg: Config, s: State, input: Input, env: Env)
    requires Usable(cfg) && Enabled(s, input)
    ensures Grew(s, Step(cfg, s, input, env), ModeOf(input, env), env.atFinish)
  {
    hide Grows, RecordOf, Usable, HandleRead, HandleTimer, HandleCompletedRead, GetNextChunk, GetNextChunkedChunk,
         Written, HandleHandshake, Take;
    match input
    case HandshakeDone(ok) => HandshakeGrows(s, ok, env.atFinish);
    case ReadDone(op, ok, data) => ReadGrows(cfg, s, op, ok, data, env);
    case TimerFired(aborted, generation) => TimerGrows(cfg, s, aborted, generation, env);
    case TaskRun(pool, handler, first) => CompletedGrows(cfg, s, pool, handler, first, env);
    case ChunkReady(pool, status) => ChunkGrows(cfg, Take(s, ChunkTask(pool)), status, env);
    case ChunkedReady(pool, status) => ChunkedGrows(cfg, Take(s, ChunkedTask(pool)), status, env);
    case WriteDone(op, ok, n) => WrittenGrows(cfg, s, op, ok, n, env);
  }
}
