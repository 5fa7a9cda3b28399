/** Exactly when a connection is kept at the end of a reply, and what becomes of it when it is not. */
module ConnectionEnds {
  import opened Wrappers
  import opened Text
  import opened HeaderTokens
  import opened RequestHead
  import opened ChunkedCodec
  import opened Messages
  import opened RequestStream
  import opened Replies
  import opened ConnectionModel
  import opened ConnectionInvariants
  import opened ConnectionHistory
  import opened ConnectionSteps
  import opened ConnectionRuns
  import opened ConnectionTheorems
  import opened ClientDecoder

  // ---------------------------------------------------------------- a reply that is the last one has a reason

  /** The reply lets the connection be reused, and what was sent is what it announced. */
  predicate Deserves(e: Exchange) {
    Reuses(e) && AsAnnounced(e)
  }

  /** All of the reply was sent, and nothing is outstanding any more. */
  predicate IsOver(s: State) {
    s.trace.pending == multiset{} && s.trace.answered && UnderWay(s) && !s.timedOut
  }

  /** On a socket that works, and a server that does not shut down, a reply is the last one only if it has to be. */
  predicate Fair(s: State, shutdown: bool) {
    IsOver(s) && !s.broken && !shutdown ==> !Deserves(Current(s))
  }

  /** The connection is to be kept if the reply lets it. */
  predicate Meant(s: State) {
    !s.timedOut && !s.broken && Deserves(Current(s)) ==> s.keepAlive
  }

  lemma {:induction false} Occupied(s: State, op: Continuation, shutdown: bool)
    ensures Fair(Await(s, op), shutdown)
  {
    hide RecordOf;
    assert op in Await(s, op).trace.pending;
  }

  lemma {:induction false} ListensOn(cfg: Config, s: State, shutdown: bool)
    ensures Fair(Listen(cfg, s), shutdown) && Waits(Listen(cfg, s))
  {
    hide Fair, Await, ArmTimer, RecordOf;
    var pipelined := s.buffer != "";
    var armed := ArmTimer(s.(idle := !pipelined), if pipelined then cfg.timeout else cfg.keepAliveTimeout);
    Occupied(armed, if pipelined then Posted else Read, shutdown);
    assert Waits(Await(armed, if pipelined then Posted else Read)) by { AwaitedWaits(armed); }
  }

  lemma {:induction false} AwaitedWaits(s: State)
    ensures Waits(Await(s, Posted)) && Waits(Await(s, Read))
  {
  }

  lemma {:induction false} FinishFair(cfg: Config, s: State, shutdown: bool)
    requires Meant(s)
    ensures Fair(FinishResponse(cfg, s, shutdown), shutdown)
  {
    hide Deserves, Listen, Reset, RecordOf;
    if IsReused(s, shutdown) {
      ListensOn(cfg, Reset(s), shutdown);
    }
  }

  lemma {:induction false} WriteAside(s: State, w: Wire, io: Io)
    ensures var t := Write(s, w, io);
            && t.keepAlive == s.keepAlive && t.timedOut == s.timedOut && Current(t) == Current(s)
            && (!t.broken ==> !s.broken && WriteOk(s, w, io))
  {
    hide WriteOk, DeliveredPart;
  }

  lemma {:induction false} ClosedFair(s: State, shutdown: bool)
    requires Meant(s) && (s.keepAlive ==> s.broken)
    ensures Fair(Concluded(Closed(s)), shutdown)
  {
    hide Deserves, RecordOf;
    assert Current(Concluded(Closed(s))) == Current(s);
  }

  lemma {:induction false} SimpleFair(cfg: Config, s: State, env: Env)
    requires s.response.status.Some? && Meant(s)
    ensures Fair(SendSimpleReply(cfg, s, env), env.atFinish)
  {
    hide Deserves, HeaderSection, Bytes, WriteOk, Write, FinishResponse, Fair, Current, Closed, Concluded;
    var head, body := [Header(HeaderSection(s.response))], Bytes(s.response.content);
    var afterHead := Write(s, head, env.head);
    WriteAside(s, head, env.head);
    WriteAside(afterHead, body, env.body);
    FinishFair(cfg, Write(afterHead, body, env.body), env.atFinish);
    if !(s.keepAlive && WriteOk(afterHead, body, env.body)) {
      ClosedFair(Write(afterHead, body, env.body), env.atFinish);
    }
  }

  lemma {:induction false} OwnFair(cfg: Config, s: State, response: Response, outcome: Outcome, env: Env)
    requires response.status.Some?
    requires !s.timedOut && s.trace.kept ==> s.keepAlive && !Vetoes(s.responseVersion, response)
    ensures Fair(SendOwnReply(cfg, s, response, outcome, env), env.atFinish)
  {
    hide AsAnnounced, Vetoes, SendSimpleReply, ServerHeaders, RecordOf, Fair;
    SimpleFair(cfg, SetServerHeaders(cfg, Respond(s, response, outcome), env.now), env);
  }

  lemma {:induction false} ReadyStockFair(cfg: Config, s: State, status: int, env: Env)
    requires Ready(cfg, s)
    ensures Fair(SendStockReply(cfg, s, status, env), env.atFinish)
  {
    hide InRequest, HandlerRequest, Shows, SendOwnReply, Fair;
    StockHasStatus(cfg, status, s.response);
    OwnFair(cfg, s, StockOf(cfg, status, s.response), Stock(status), env);
  }

  lemma {:induction false} ReadyOptionsFair(cfg: Config, s: State, env: Env)
    requires Ready(cfg, s)
    ensures Fair(SendOptionsReply(cfg, s, env), env.atFinish)
  {
    hide InRequest, HandlerRequest, Shows, SendOwnReply, Fair;
    OwnFair(cfg, s, OptionsResponse(cfg), Options, env);
  }

  lemma {:induction false} AbortFair(cfg: Config, s: State, env: Env)
    ensures Fair(AbortReply(cfg, s, env), env.atFinish)
  {
    hide SendStockReply, Deserves, RecordOf;
  }

  /** Before a request is parsed no reply to one can come to its end. */
  lemma {:induction false} NoneUnderWay(s: State, shutdown: bool)
    requires !UnderWay(s)
    ensures Fair(s, shutdown)
  {
  }

  lemma {:induction false} Unserved(s: State, shutdown: bool)
    requires Unanswered(s)
    ensures Fair(s, shutdown)
  {
    hide Deserves;
  }

  // ---------------------------------------------------------------- a request arrives

  lemma {:induction false} ScheduleFair(cfg: Config, s: State, env: Env)
    requires Running(cfg, s) && Ready(cfg, s) && env.view.View?
    ensures Fair(ScheduleRequest(cfg, s, env), env.atFinish)
  {
    hide Running, Ready, SendStockReply, Pooled, RecordOf, Await, Fair, Timed;
    var view := env.view;
    var fast, admin := view.frontend || !cfg.hasSlowPool || view.fast, !view.frontend && s.adminQuery;
    var selected := Pooled(s, fast, admin);
    PoolKeepsReady(cfg, s, fast, admin);
    if env.scheduled {
      Occupied(selected, HandleTask(SelectedPool(selected)), env.atFinish);
    } else {
      ReadyStockFair(cfg, selected, if view.frontend then SERVICE_UNAVAILABLE else cfg.highLoad, env);
    }
  }

  lemma {:induction false} DispatchFair(cfg: Config, s: State, env: Env)
    requires Running(cfg, s) && Ready(cfg, s)
    ensures Fair(Dispatch(cfg, s, env), env.atFinish)
  {
    hide Running, Ready, SendStockReply, SendOptionsReply, ScheduleRequest, Pooled, RecordOf, Fair, Timed;
    if s.request.verb == OPTIONS && s.request.resource == "*" {
      ReadyOptionsFair(cfg, s, env);
    } else if env.view.NoView? {
      ReadyStockFair(cfg, s, NOT_FOUND, env);
    } else {
      var admin := !env.view.frontend && env.view.admin && cfg.hasAdminPool;
      PoolKeepsReady(cfg, s, s.queryIsFast, admin);
      if !admin && env.highLoad {
        ReadyStockFair(cfg, Pooled(s, s.queryIsFast, admin), cfg.highLoad, env);
      } else {
        ScheduleFair(cfg, Pooled(s, s.queryIsFast, admin), env);
      }
    }
  }

  lemma {:induction false} DeclinedFair(cfg: Config, s: State, env: Env)
    ensures Fair(SendStockReply(cfg, Declined(s), BAD_REQUEST, env), env.atFinish)
  {
    hide SendOwnReply, Fair, RecordOf, StockOf;
    StockHasStatus(cfg, BAD_REQUEST, s.response);
    OwnFair(cfg, Declined(s), StockOf(cfg, BAD_REQUEST, s.response), Stock(BAD_REQUEST), env);
  }

  lemma {:induction false} ParsedFair(cfg: Config, s: State, env: Env)
    requires Running(cfg, s) && JustParsed(cfg, s)
    ensures Fair(HandleParsedRequest(cfg, s, env), env.atFinish)
  {
    hide Base, JustParsed, Ready, SendStockReply, Dispatch, Negotiate, Strip, Declined, NegotiateVersion, HasHeader,
         Fair, RecordOf, Unanswered;
    var t := Negotiate(cfg, s, env);
    NegotiatedRuns(cfg, s, env);
    if !env.peer {
      Unserved(s, env.atFinish);
    } else if t.responseVersion == V11 && !HasHeader(s.request.headers, "Host") {
      DeclinedFair(cfg, t, env);
    } else {
      NegotiatedIsReady(cfg, s, env);
      DispatchFair(cfg, Strip(t), env);
    }
  }

  lemma {:induction false} ReadingStockFair(cfg: Config, s: State, status: int, env: Env)
    requires !s.keepAlive && !UnderWay(s)
    ensures Fair(SendStockReply(cfg, s, status, env), env.atFinish)
  {
    hide SendStockReply, Fair;
    StockCloses(cfg, s, status, env);
    NoneUnderWay(SendStockReply(cfg, s, status, env), env.atFinish);
  }

  lemma {:induction false} IncompleteFair(cfg: Config, s: State, env: Env)
    requires !UnderWay(s)
    ensures Fair(HandleIncompleteRequest(cfg, s, env), env.atFinish)
  {
    hide Grew, Fair, HandleIncompleteRequest;
    IncompleteGrows(cfg, s, env);
    IncompleteMeans(cfg, s, env);
    var t := HandleIncompleteRequest(cfg, s, env);
    GrewPlainly(s, t, if TooLarge(cfg, s.buffer) then Reads else Quiet, env.atFinish);
    NoneUnderWay(t, env.atFinish);
  }

  lemma {:induction false} BufferFair(cfg: Config, s: State, env: Env)
    requires Running(cfg, s) && Reading(cfg, s)
    ensures Fair(ParseBuffer(cfg, s, env), env.atFinish)
  {
    hide Running, Reading, Fair, SendStockReply, HandleParsedRequest, HandleIncompleteRequest, TakeRequest, Usable,
         JustParsed, UnderWay;
    ReadingIsFresh(cfg, s);
    UsableOf(cfg, s);
    ParserConsumes(cfg, s.buffer);
    match cfg.parse(s.buffer)
    case Complete(request, consumed) =>
      ParsedRuns(cfg, s, request, consumed);
      ParsedIsJust(cfg, s, request, consumed);
      ParsedFair(cfg, TakeRequest(s, request, consumed), env);
    case Failed => ReadingStockFair(cfg, s, BAD_REQUEST, env);
    case Incomplete => IncompleteFair(cfg, s, env);
  }

  lemma {:induction false} UsableOf(cfg: Config, s: State)
    requires Running(cfg, s)
    ensures Usable(cfg)
  {
  }

  lemma {:induction false} ReadFair(cfg: Config, s: State, op: Continuation, ok: bool, data: string, env: Env)
    requires Inv(cfg, s) && op in s.trace.pending && IsRead(op, ok, data) && Usable(cfg)
    ensures Fair(HandleRead(cfg, s, op, ok, data, env), env.atFinish)
  {
    hide Running, Reading, Inv, Timed, Usable, OpInv, Fresh, SendStockReply, ParseBuffer, LeaveIdle, Fair, UnderWay,
         RecordOf, Take, Tallied, Arrive;
    var taken := Take(s, op);
    TakeRuns(cfg, s, op);
    ReadInv(cfg, s, op);
    IdleAfterTake(s, op);
    ReadingIsFresh(cfg, taken);
    ReadingStockFair(cfg, taken, cfg.shutdown, env);
    NoneUnderWay(taken, env.atFinish);
    LeaveIdleKeeps(cfg, taken);
    var busy := LeaveIdle(cfg, taken);
    ReadingIsFresh(cfg, busy);
    TalliedAside(busy, s.receivedBytes + |data|);
    ReadingStockFair(cfg, Tallied(busy, s.receivedBytes + |data|), ENTITY_TOO_LARGE, env);
    assert busy.receivedBytes == s.receivedBytes by { CountAside(cfg, s, op); }
    ArriveKeeps(cfg, busy, data);
    BufferFair(cfg, Arrive(Tallied(busy, s.receivedBytes + |data|), data), env);
  }

  lemma {:induction false} IdleAfterTake(s: State, op: Continuation)
    ensures Take(s, op).idle == s.idle
  {
    hide RecordOf;
  }

  lemma {:induction false} CountAside(cfg: Config, s: State, op: Continuation)
    ensures LeaveIdle(cfg, Take(s, op)).receivedBytes == s.receivedBytes
  {
    hide RecordOf;
  }

  lemma {:induction false} TalliedAside(s: State, n: nat)
    ensures Tallied(s, n).keepAlive == s.keepAlive && UnderWay(Tallied(s, n)) == UnderWay(s)
  {
    hide RecordOf;
  }

  lemma {:induction false} HandshakeFair(cfg: Config, s: State, ok: bool, shutdown: bool)
    requires Inv(cfg, s) && Handshake in s.trace.pending
    ensures Fair(HandleHandshake(s, ok), shutdown)
  {
    hide Inv, OpInv, Running, Reading, Fresh, Fair, Grew, RecordOf, HandleHandshake;
    TakeRuns(cfg, s, Handshake);
    HandshakeReads(cfg, s);
    ReadingIsFresh(cfg, s);
    HandshakeGrows(s, ok, shutdown);
    GrewPlainly(s, HandleHandshake(s, ok), Quiet, shutdown);
    NoneUnderWay(HandleHandshake(s, ok), shutdown);
  }

  lemma {:induction false} HandshakeReads(cfg: Config, s: State)
    requires OpInv(cfg, s, Handshake)
    ensures Reading(cfg, s)
  {
    hide Reading, Timed;
  }

  // ---------------------------------------------------------------- the timer fires

  lemma {:induction false} TimerFair(cfg: Config, s: State, aborted: bool, generation: nat, env: Env)
    requires s.trace.pending != multiset{} && Enabled(s, TimerFired(aborted, generation))
    ensures Fair(HandleTimer(cfg, s, aborted, generation, env), env.atFinish)
  {
    hide HandleTimer, Deserves;
    if aborted || generation != s.timerGeneration {
      StaleAside(cfg, s, aborted, generation, env);
    } else {
      ExpiryOnlyCloses(cfg, s, generation, env);
    }
  }

  lemma {:induction false} StaleAside(cfg: Config, s: State, aborted: bool, generation: nat, env: Env)
    requires aborted || generation != s.timerGeneration
    ensures HandleTimer(cfg, s, aborted, generation, env).trace.pending == s.trace.pending
  {
    hide RecordOf, SendStockReply;
  }

  // ---------------------------------------------------------------- a stream ends

  /** Whatever the stream delivered, it lets the connection be kept exactly when it kept to what was announced. */
  lemma {:induction false} StreamMeant(cfg: Config, s: State)
    requires Replying(cfg, s) && (!s.timedOut ==> Counted(s))
    ensures Meant(CheckLength(s))
  {
    hide InRequest, HandlerRequest, Obeyed, Concat, InOnePiece, IsPassthrough, Reuses, RecordOf;
    assert Current(CheckLength(s)) == Current(s);
    assert !s.timedOut ==> IsCounted(Current(s)) || IsPassthrough(Current(s));
  }

  lemma {:induction false} FlushAside(s: State, env: Env)
    ensures var t := FlushPendingHeaders(s, env);
            && t.totalStreamedBytes == s.totalStreamedBytes && t.declaredContentLength == s.declaredContentLength
            && t.trace.answered == s.trace.answered && t.timedOut == s.timedOut
  {
    hide WriteOk, DeliveredPart;
  }

  lemma {:induction false} FlushReplies(cfg: Config, s: State, env: Env)
    requires Running(cfg, s) && Replying(cfg, s) && (!s.timedOut ==> Counted(s))
    ensures var t := FlushPendingHeaders(s, env);
            Replying(cfg, t) && (!t.timedOut ==> Counted(t))
  {
    hide Running, Counted, InChunks, Target, InRequest, Reuses, Current, HandlerRequest, SelectedPool, Obeyed;
    hide FlushPendingHeaders, FlushOk;
    FlushParts(cfg, s, env, ChunkTask(FastPool));
  }

  lemma {:induction false} PieceFair(s: State, piece: string, op: Continuation, shutdown: bool)
    ensures Fair(SendPiece(s, piece, op), shutdown)
  {
    hide Fair, Await, RecordOf, Bytes;
    Occupied(s.(responseString := s.pendingHeaders + Bytes(piece), pendingHeaders := [], sentBytes := 0), op, shutdown);
  }

  lemma {:induction false} ScheduledFair(cfg: Config, s: State, op: Continuation, env: Env)
    ensures Fair(Schedule(cfg, s, op, env), env.atFinish)
  {
    hide Fair, Await, AbortReply, RecordOf;
    Occupied(s, op, env.atFinish);
    AbortFair(cfg, s, env);
  }

  lemma {:induction false} UnansweredRuns(cfg: Config, s: State)
    requires Running(cfg, s)
    ensures Unanswered(s)
  {
    hide Base;
  }

  lemma {:induction false} ChunkFair(cfg: Config, s: State, status: StreamStatus, env: Env)
    requires Running(cfg, s) && StreamReady(cfg, s, false)
    ensures Fair(GetNextChunk(cfg, s, status, env), env.atFinish)
  {
    hide Running, Replying, Counted, InChunks, Owing, Produced, FlushPendingHeaders, FlushOk, SendPiece, Schedule,
         FinishResponse, CheckLength, Fair, Meant, RecordOf, Body, ChunkedBody;
    UnansweredRuns(cfg, s);
    if status.StreamOk? {
      PieceFair(Produced(s, status.chunk), status.chunk, WriteStream, env.atFinish);
      var produced := Produced(s, "");
      var flushed := FlushPendingHeaders(produced, env);
      ProducedAnswered(s, "");
      FlushAside(produced, env);
      Unserved(flushed, env.atFinish);
      ScheduledFair(cfg, flushed, ChunkTask(SelectedPool(s)), env);
      assert status.chunk == "" ==> Produced(s, status.chunk) == produced;
    } else {
      var flushed := FlushPendingHeaders(s, env);
      FlushAside(s, env);
      Unserved(flushed, env.atFinish);
      FlushReplies(cfg, s, env);
      StreamMeant(cfg, flushed);
      FinishFair(cfg, CheckLength(flushed), env.atFinish);
    }
  }

  lemma {:induction false} ProducedAnswered(s: State, chunk: string)
    ensures var t := Produced(s, chunk);
            t.trace.answered == s.trace.answered && t.timedOut == s.timedOut
  {
    hide RecordOf;
  }

  lemma {:induction false} ChunkedFair(cfg: Config, s: State, status: StreamStatus, env: Env)
    requires Running(cfg, s)
    ensures Fair(GetNextChunkedChunk(cfg, s, status, env), env.atFinish)
  {
    hide Running, Produced, FlushPendingHeaders, FlushOk, SendPiece, Schedule, Fair, RecordOf, Closed, Chunk,
         LAST_CHUNK;
    UnansweredRuns(cfg, s);
    match status
    case StreamOk(chunk) =>
      PieceFair(Produced(s, chunk), Chunk(chunk), WriteChunked, env.atFinish);
      var flushed := FlushPendingHeaders(Produced(s, ""), env);
      ProducedAnswered(s, "");
      FlushAside(Produced(s, ""), env);
      Unserved(flushed, env.atFinish);
      ScheduledFair(cfg, flushed, ChunkedTask(SelectedPool(s)), env);
    case ExitError =>
      FlushAside(s, env);
      ClosedUnanswered(FlushPendingHeaders(s, env));
      Unserved(Closed(FlushPendingHeaders(s, env)), env.atFinish);
    case ExitOk => PieceFair(s, LAST_CHUNK, WriteFinal, env.atFinish);
  }

  lemma {:induction false} ClosedUnanswered(s: State)
    requires Unanswered(s)
    ensures Unanswered(Closed(s))
  {
  }

  // ---------------------------------------------------------------- the handler answers

  lemma {:induction false} StartFair(cfg: Config, s: State, first: StreamStatus, env: Env)
    requires Running(cfg, s) && JustAnswered(cfg, s)
    ensures Fair(StartReply(cfg, s, first, env), env.atFinish)
  {
    hide Running, JustAnswered, SetServerHeaders, Announced, InOnePiece, IsPassthrough, Fair, RecordOf, Unkept,
         GetNextChunk, GetNextChunkedChunk, StreamReady, PreparePendingHeaders, Framing, StartRegularReply, Current;
    if PassesThrough(s) {
      UnkeptRuns(cfg, s);
      GatewayReady(cfg, s);
      ChunkFair(cfg, Unkept(s), first, env);
    } else {
      var announced := SetServerHeaders(cfg, s, env.now);
      AnnouncedKeeps(cfg, s, env.now);
      AnnouncedShape(cfg, s, env.now);
      if s.headRequest || !s.response.streaming {
        RegularFair(cfg, announced, env.atFinish);
      } else {
        StreamBegins(cfg, announced);
        if s.response.chunked {
          ChunkedFair(cfg, Prepared(cfg, announced), first, env);
        } else {
          ChunkFair(cfg, Prepared(cfg, announced), first, env);
        }
      }
    }
  }

  lemma {:induction false} RegularFair(cfg: Config, s: State, shutdown: bool)
    ensures Fair(StartRegularReply(cfg, s), shutdown)
  {
    hide Fair, Await, RecordOf, RegularReply, HeaderSection, Bytes;
    var response := RegularReply(cfg, s.request, s.headRequest, s.response);
    var body := if s.headRequest then [] else Bytes(response.content);
    Occupied(s.(response := response, responseString := [Header(HeaderSection(response))] + body), WriteRegular,
             shutdown);
  }

  lemma {:induction false} CompletedFair(cfg: Config, s: State, pool: Pool, handler: Handler, first: StreamStatus,
                                         env: Env)
    requires Inv(cfg, s) && HandleTask(pool) in s.trace.pending
    ensures Fair(HandleCompletedRead(cfg, s, pool, handler, first, env), env.atFinish)
  {
    hide Inv, Running, Ready, JustAnswered, SendStockReply, StartReply, Fair, Cancelled, Take, Respond, RecordOf;
    var cancelled := Cancelled(Take(s, HandleTask(pool)));
    CancelKeeps(cfg, s, pool);
    CancelledFacts(s, HandleTask(pool));
    UnansweredRuns(cfg, cancelled);
    Unserved(cancelled, env.atFinish);
    match handler(s.request, s.response)
    case Disconnected =>
    case Refused => ReadyStockFair(cfg, cancelled, BAD_REQUEST, env);
    case Answered(response) =>
      AnswerKeeps(cfg, cancelled, handler, response);
      StartFair(cfg, Respond(cancelled, response, Handled(handler, s.request, response, [])), first, env);
  }

  // ---------------------------------------------------------------- a write completes

  lemma {:induction false} LastPieceFair(cfg: Config, s: State, shutdown: bool)
    requires Replying(cfg, s) && s.trace.outcome.Handled?
    ensures Fair(FinishResponse(cfg, s, shutdown), shutdown)
  {
    hide FinishResponse, Fair, InRequest, HandlerRequest, Obeyed, AsAnnounced, Reuses, Current;
    FinishFair(cfg, s, shutdown);
  }

  lemma {:induction false} WrittenFair(cfg: Config, s: State, op: Continuation, ok: bool, n: nat, env: Env)
    requires Inv(cfg, s) && op in s.trace.pending && IsWrite(op) && CanDeliver(s, ok, n)
    ensures Fair(Written(cfg, s, op, ok, n, env), env.atFinish)
  {
    hide Running, Inv, Replying, Sending, Arrived, AbortReply, Schedule, FinishResponse, Fair, Await, RecordOf,
         Failing, InOnePiece, Counted, InChunks, Current;
    var taken := Take(s, op);
    if !ok {
      AbortFair(cfg, Failing(taken), env);
    } else {
      WriteTaken(cfg, s, op);
      var sent := Advance(taken, n);
      AdvanceInv(cfg, taken, n, op);
      Occupied(sent, op, env.atFinish);
      ScheduledFair(cfg, sent, ChunkTask(SelectedPool(s)), env);
      ScheduledFair(cfg, sent, ChunkedTask(SelectedPool(s)), env);
      LastPieceFair(cfg, sent, env.atFinish);
    }
  }

  /** Whatever happens next, a reply that comes to its end on a socket that works, and is the last one, is one that
      rules out the next request or was not delivered as announced, or the server was seen to shut down. */
  lemma {:induction false} StepFair(cfg: Config, s: State, input: Input, env: Env)
    requires Inv(cfg, s) && Enabled(s, input) && Usable(cfg) && s.trace.pending != multiset{}
    ensures Fair(Step(cfg, s, input, env), env.atFinish)
  {
    hide Inv, Running, StreamReady, Usable, HandleRead, HandleTimer, HandleCompletedRead, GetNextChunk,
         GetNextChunkedChunk, Written, HandleHandshake, Fair;
    match input
    case HandshakeDone(ok) => HandshakeFair(cfg, s, ok, env.atFinish);
    case ReadDone(op, ok, data) => ReadFair(cfg, s, op, ok, data, env);
    case TimerFired(aborted, generation) => TimerFair(cfg, s, aborted, generation, env);
    case TaskRun(pool, handler, first) => CompletedFair(cfg, s, pool, handler, first, env);
    case ChunkReady(pool, status) =>
      ChunkTaken(cfg, s, ChunkTask(pool));
      ChunkFair(cfg, Take(s, ChunkTask(pool)), status, env);
    case ChunkedReady(pool, status) =>
      ChunkTaken(cfg, s, ChunkedTask(pool));
      ChunkedFair(cfg, Take(s, ChunkedTask(pool)), status, env);
    case WriteDone(op, ok, n) => WrittenFair(cfg, s, op, ok, n, env);
  }

  // ---------------------------------------------------------------- exactly when the connection is kept

  lemma {:induction false} BufferAddsOne(cfg: Config, s: State, env: Env)
    requires Usable(cfg)
    ensures |ParseBuffer(cfg, s, env).trace.requests| <= |s.trace.requests| + 1
  {
    hide Usable, ParseBuffer;
    BufferMeans(cfg, s, env);
  }

  lemma {:induction false} ReadAddsOne(cfg: Config, s: State, op: Continuation, ok: bool, data: string, env: Env)
    requires Usable(cfg)
    ensures |HandleRead(cfg, s, op, ok, data, env).trace.requests| <= |s.trace.requests| + 1
  {
    hide Usable, ParseBuffer, SendStockReply, RecordOf, Grew, LeaveIdle, Tallied, Arrive, Take;
    var taken := Take(s, op);
    SameRecord(s, taken);
    LibraryStatuses(cfg);
    StockGrows(cfg, taken, cfg.shutdown, env);
    GrewPlainly(taken, SendStockReply(cfg, taken, cfg.shutdown, env), Quiet, env.atFinish);
    var busy := Tallied(LeaveIdle(cfg, taken), s.receivedBytes + |data|);
    SameRecord(s, busy);
    StockGrows(cfg, busy, ENTITY_TOO_LARGE, env);
    GrewPlainly(busy, SendStockReply(cfg, busy, ENTITY_TOO_LARGE, env), Quiet, env.atFinish);
    ArrivedState(cfg, s, op, data);
    BufferAddsOne(cfg, Arrive(busy, data), env);
  }

  lemma {:induction false} Balance(cfg: Config, s: State)
    requires Inv(cfg, s)
    ensures |s.trace.exchanges| <= |s.trace.requests| <= |s.trace.exchanges| + 1
  {
    hide OpInv, Concludes, ReadsAs, Usable, Reusable;
  }

  lemma {:induction false} ReadBalance(cfg: Config, s: State, op: Continuation)
    requires Inv(cfg, s) && op in s.trace.pending && (op == Read || op == Posted)
    ensures |s.trace.requests| == |s.trace.exchanges|
  {
    hide Base, Fresh, Timed, Shows, Concludes, Ready, Replying;
    assert OpInv(cfg, s, op);
  }

  /** A step records one exchange at most, and then no request is under way. */
  lemma {:induction false} StepRecords(cfg: Config, s: State, input: Input, env: Env)
    requires Inv(cfg, s) && Enabled(s, input) && Usable(cfg)
    ensures var t := Step(cfg, s, input, env);
            && s.trace.exchanges <= t.trace.exchanges
            && (env.atFinish ==> t.trace.exchanges == s.trace.exchanges)
            && (|t.trace.exchanges| > |s.trace.exchanges| ==>
                  !UnderWay(t) && |t.trace.exchanges| == |s.trace.exchanges| + 1)
  {
    hide Inv, Usable, Grew, HandleRead, HandleTimer, HandleCompletedRead, GetNextChunk, GetNextChunkedChunk, Written,
         HandleHandshake;
    var t := Step(cfg, s, input, env);
    StepGrows(cfg, s, input, env);
    GrewPlainly(s, t, ModeOf(input, env), env.atFinish);
    StepKeeps(cfg, s, input, env);
    Balance(cfg, s);
    Balance(cfg, t);
    if input.ReadDone? {
      ReadBalance(cfg, s, input.op);
      ReadAddsOne(cfg, s, input.op, input.ok, input.data, env);
    }
  }

  /** In the step from `s` to `t` a reply comes to its end: the exchange is recorded, or all of the reply was sent and
      nothing is outstanding any more. */
  predicate ReplyEnds(s: State, t: State) {
    s.trace.pending != multiset{} && (|t.trace.exchanges| > |s.trace.exchanges| || IsOver(t))
  }

  /** The exchange whose reply comes to its end. */
  function EndedExchange(s: State, t: State): Exchange {
    if |t.trace.exchanges| > |s.trace.exchanges| then t.trace.exchanges[|s.trace.exchanges|] else Current(t)
  }

  lemma {:induction false} Recorded(cfg: Config, s: State, t: State)
    requires Inv(cfg, t) && |t.trace.exchanges| > |s.trace.exchanges|
    ensures Deserves(EndedExchange(s, t))
  {
    hide OpInv, Concludes, ReadsAs, Usable, AsAnnounced, Reuses, Served, MayPersist, Asked100;
    assert Reusable(cfg, t.trace.exchanges[|s.trace.exchanges|]);
  }

  /** In every run, whenever a reply comes to its end on a socket that works, whatever kind of reply it is: the exchange
      is recorded and the connection kept if and only if the reply lets it be reused, what was sent is what it
      announced, and the server is not seen to shut down.  Reuse is what the reply announced to the client in its own
      version. */
  lemma {:induction false} KeptExactly(cfg: Config, run: Run, i: nat)
    requires IsRun(cfg, run) && i < |run.events|
    requires ReplyEnds(run.states[i], run.states[i + 1]) && !run.states[i + 1].timedOut && !run.states[i + 1].broken
    ensures var s, t, env := run.states[i], run.states[i + 1], run.events[i].env;
            var e := EndedExchange(s, t);
            && t.trace.exchanges == (if Reuses(e) && AsAnnounced(e) && !env.atFinish then s.trace.exchanges + [e]
                                     else s.trace.exchanges)
            && (ChunksKnown(e) && !IsPassthrough(e) ==>
                  (Persists(AnswerVersion(e), HeaderSection(FinalResponse(cfg, e))) <==> Reuses(e)))
  {
    hide Usable, StartConnection, Inv, Step, Enabled, Reuses, AsAnnounced, ChunksKnown, IsPassthrough, AnswerVersion,
         FinalResponse, Persists, HeaderSection, Current;
    EveryRun(cfg, run, i);
    EveryRun(cfg, run, i + 1);
    assert Reached(cfg, run, i + 1);
    var s, t, env := run.states[i], run.states[i + 1], run.events[i].env;
    var e := EndedExchange(s, t);
    StepRecords(cfg, s, run.events[i].input, env);
    StepFair(cfg, s, run.events[i].input, env);
    if |t.trace.exchanges| > |s.trace.exchanges| {
      Recorded(cfg, s, t);
      assert t.trace.exchanges == s.trace.exchanges + [e];
    }
    if ChunksKnown(e) && !IsPassthrough(e) {
      ReuseIsAnnounced(cfg, e);
    }
  }

  /** What announced persistence is kept: exactly on a server that is not seen to shut down, and for a stream of
      announced length exactly when it delivered that. */
  lemma {:induction false} AnnouncedMeansKept(cfg: Config, run: Run, i: nat)
    requires IsRun(cfg, run) && i < |run.events|
    requires ReplyEnds(run.states[i], run.states[i + 1]) && !run.states[i + 1].timedOut && !run.states[i + 1].broken
    requires var e := EndedExchange(run.states[i], run.states[i + 1]);
             && ChunksKnown(e) && !IsPassthrough(e)
             && Persists(AnswerVersion(e), HeaderSection(FinalResponse(cfg, e)))
    ensures var s, t, e := run.states[i], run.states[i + 1], EndedExchange(run.states[i], run.states[i + 1]);
            |t.trace.exchanges| > |s.trace.exchanges| <==>
            !run.events[i].env.atFinish &&
            (IsCounted(e) ==> |Concat(e.outcome.chunks)| == e.outcome.response.streamLength)
  {
    hide IsRun, Reuses, ChunksKnown, IsPassthrough, IsCounted, Concat, AnswerVersion, FinalResponse, Persists,
         HeaderSection, Current, ReplyEnds, EndedExchange;
    KeptExactly(cfg, run, i);
  }

  // ---------------------------------------------------------------- when a reply comes to its end

  lemma {:induction false} FinishEnds(cfg: Config, s: State, t: State, shutdown: bool)
    requires s.trace.pending != multiset{} && t.trace.pending == multiset{} && !t.timedOut && UnderWay(t)
    requires t.trace.exchanges == s.trace.exchanges
    ensures ReplyEnds(s, FinishResponse(cfg, t, shutdown))
  {
    hide Current, RecordOf, Listen;
    if IsReused(t, shutdown) {
      KeptNext(cfg, Reset(t));
    }
  }

  lemma {:induction false} ReplyingIsThere(cfg: Config, s: State, op: Continuation)
    requires Inv(cfg, s) && op in s.trace.pending && IsReplying(op) && !s.timedOut
    ensures UnderWay(s) && s.trace.pending - multiset{op} == multiset{} && s.trace.pending != multiset{}
    ensures op.ChunkTask? ==> s.pendingHeaders == []
  {
    hide Base, Concludes, Counted, InChunks, Sending, Target, Obeyed, MayPersist, HandlerRequest, Reuses;
    AloneTaken(cfg, s, op);
    assert OpInv(cfg, s, op);
  }

  lemma {:induction false} SentSame(s: State, op: Continuation, n: nat)
    requires s.sentBytes + n <= |s.responseString| == |Take(s, op).responseString|
    requires Take(s, op).sentBytes == s.sentBytes
    ensures var t := Advance(Take(s, op), n);
            && t.trace.pending == s.trace.pending - multiset{op} && t.timedOut == s.timedOut
            && t.trace.exchanges == s.trace.exchanges && UnderWay(t) == UnderWay(s)
  {
    hide RecordOf;
  }

  lemma {:induction false} TakenPiece(s: State, op: Continuation)
    ensures var t := Take(s, op);
            && t.sentBytes == s.sentBytes && t.responseString == s.responseString
            && t.pendingHeaders == s.pendingHeaders
            && t.trace.pending == s.trace.pending - multiset{op} && t.timedOut == s.timedOut
            && t.trace.exchanges == s.trace.exchanges && UnderWay(t) == UnderWay(s)
  {
    hide RecordOf;
  }

  lemma {:induction false} LastPieceEnds(cfg: Config, s: State, op: Continuation, n: nat, env: Env)
    requires Inv(cfg, s) && op in s.trace.pending && (op == WriteRegular || op == WriteFinal) && !s.timedOut
    requires CanDeliver(s, true, n) && s.sentBytes + n == |s.responseString|
    ensures ReplyEnds(s, Written(cfg, s, op, true, n, env))
  {
    hide Inv, ReplyEnds, FinishResponse, Advance, Take, RecordOf, UnderWay, AbortReply;
    ReplyingIsThere(cfg, s, op);
    TakenPiece(s, op);
    SentSame(s, op, n);
    AdvancedPlainly(s, op, n);
    FinishEnds(cfg, s, Advance(Take(s, op), n), env.atFinish);
  }

  lemma {:induction false} FlushedSame(s: State, env: Env)
    requires s.pendingHeaders == []
    ensures FlushOk(s, env)
    ensures var t := CheckLength(FlushPendingHeaders(s, env));
            && t.trace.pending == s.trace.pending && t.timedOut == s.timedOut
            && t.trace.exchanges == s.trace.exchanges && UnderWay(t) == UnderWay(s)
  {
    hide RecordOf;
  }

  lemma {:induction false} StreamerEnds(cfg: Config, s: State, pool: Pool, status: StreamStatus, env: Env)
    requires Inv(cfg, s) && ChunkTask(pool) in s.trace.pending && !status.StreamOk? && !s.timedOut
    ensures ReplyEnds(s, GetNextChunk(cfg, Take(s, ChunkTask(pool)), status, env))
  {
    hide Inv, ReplyEnds, FinishResponse, Take, RecordOf, UnderWay, FlushPendingHeaders, FlushOk, CheckLength;
    ReplyingIsThere(cfg, s, ChunkTask(pool));
    TakenPiece(s, ChunkTask(pool));
    var taken := Take(s, ChunkTask(pool));
    FlushedSame(taken, env);
    FinishEnds(cfg, s, CheckLength(FlushPendingHeaders(taken, env)), env.atFinish);
  }

  /** In every run: a reply comes to its end when the last piece of it has been written, and a stream of announced
      length, or a backend's response, when its streamer has nothing more to deliver. */
  lemma {:induction false} RepliesEnd(cfg: Config, run: Run, i: nat)
    requires IsRun(cfg, run) && i < |run.events| && !run.states[i].timedOut
    requires var s := run.states[i];
             match run.events[i].input
             case WriteDone(op, ok, n) =>
               (op == WriteRegular || op == WriteFinal) && ok && s.sentBytes + n == |s.responseString|
             case ChunkReady(pool, status) => !status.StreamOk?
             case _ => false
    ensures ReplyEnds(run.states[i], run.states[i + 1])
  {
    hide Usable, StartConnection, Inv, ReplyEnds, GetNextChunk, Written, Take;
    EveryRun(cfg, run, i);
    assert Reached(cfg, run, i + 1);
    var s, env := run.states[i], run.events[i].env;
    match run.events[i].input
    case WriteDone(op, ok, n) => LastPieceEnds(cfg, s, op, n, env);
    case ChunkReady(pool, status) => StreamerEnds(cfg, s, pool, status, env);
  }

  // ---------------------------------------------------------------- what follows the last reply

  /** Once nothing is outstanding, nothing is read, parsed or kept any more. */
  lemma {:induction false} NothingFollows(cfg: Config, run: Run, i: nat, j: nat)
    requires IsRun(cfg, run) && i <= j < |run.states| && run.states[i].trace.pending == multiset{}
    ensures var s, t := run.states[i], run.states[j];
            && t.trace.pending == multiset{} && t.trace.received == s.trace.received
            && t.trace.requests == s.trace.requests && t.trace.exchanges == s.trace.exchanges
    decreases j
  {
    hide Usable, StartConnection, Step;
    if i < j {
      NothingFollows(cfg, run, i, j - 1);
      assert Reached(cfg, run, j);
      OnlyTimer(cfg, run.states[j - 1], run.events[j - 1].input, run.events[j - 1].env);
    }
  }

  lemma {:induction false} OnlyTimer(cfg: Config, s: State, input: Input, env: Env)
    requires Usable(cfg) && Enabled(s, input) && s.trace.pending == multiset{}
    ensures var t := Step(cfg, s, input, env);
            && t.trace.pending == multiset{} && t.trace.received == s.trace.received
            && t.trace.requests == s.trace.requests && t.trace.exchanges == s.trace.exchanges
  {
    hide Usable, HandleTimer, Grew;
    assert input.TimerFired?;
    StepGrows(cfg, s, input, env);
    GrewPlainly(s, Step(cfg, s, input, env), Quiet, env.atFinish);
    if input.aborted || input.generation != s.timerGeneration {
      StaleAside(cfg, s, input.aborted, input.generation, env);
      StaleExchanges(cfg, s, input.aborted, input.generation, env);
    } else {
      ExpiryOnlyCloses(cfg, s, input.generation, env);
    }
  }

  lemma {:induction false} StaleExchanges(cfg: Config, s: State, aborted: bool, generation: nat, env: Env)
    requires aborted || generation != s.timerGeneration
    ensures HandleTimer(cfg, s, aborted, generation, env).trace.exchanges == s.trace.exchanges
  {
    hide RecordOf, SendStockReply;
  }

  /** A request that is served no further, because its reply was the last one, was broken off by its streamer, by a
      write or by a full queue, or was never begun: whatever was announced, the connection is never kept after it. */
  lemma {:induction false} LastStaysLast(cfg: Config, run: Run, i: nat, j: nat)
    requires IsRun(cfg, run) && i < |run.events| && i < j < |run.states|
    requires run.states[i + 1].trace.pending == multiset{} && UnderWay(run.states[i + 1])
    ensures run.states[j].trace.exchanges == run.states[i].trace.exchanges
    ensures run.states[j].trace.requests == run.states[i + 1].trace.requests
    ensures run.states[j].trace.pending == multiset{}
  {
    hide Usable, StartConnection, Inv, Step, Enabled;
    EveryRun(cfg, run, i);
    assert Reached(cfg, run, i + 1);
    StepRecords(cfg, run.states[i], run.events[i].input, run.events[i].env);
    NothingFollows(cfg, run, i + 1, j);
  }
}
