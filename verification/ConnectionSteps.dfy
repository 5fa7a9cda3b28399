/** What a single step of a connection does, and what it cannot do. */
module ConnectionSteps {
  import opened Wrappers
  import opened Text
  import opened HeaderTokens
  import opened RequestHead
  import opened ChunkedCodec
  import opened Messages
  import opened RequestStream
  import opened Replies
  import opened ConnectionModel
  import opened ConnectionInvariants
  import opened ConnectionHistory

  // ---------------------------------------------------------------- what a firing of the timer does

  lemma {:induction false} WorkingWrite(s: State, w: Wire, io: Io)
    ensures s.open && !s.broken && io.ok ==> WriteOk(s, w, io)
    ensures WriteOk(s, w, io) ==> DeliveredPart(s, w, io) == w
  {
  }

  /** Two writes deliver what they are given when the socket works, and otherwise a part of it. */
  lemma {:induction false} BothWritten(s: State, head: Wire, body: Wire, first: Io, second: Io)
    ensures var t := Write(Write(s, head, first), body, second);
            s.trace.wire <= t.trace.wire <= s.trace.wire + (head + body) &&
            (s.open && !s.broken && first.ok && second.ok ==> t.trace.wire == s.trace.wire + (head + body))
  {
    hide WriteOk, DeliveredPart, Write;
    var afterHead := Write(s, head, first);
    WritePart(s, head, first);
    WriteKeeps(s, head, first);
    WorkingWrite(s, head, first);
    WritePart(afterHead, body, second);
    WorkingWrite(afterHead, body, second);
    var part, more := DeliveredPart(s, head, first), DeliveredPart(afterHead, body, second);
    assert s.trace.wire + head + body == s.trace.wire + (head + body);
    if !WriteOk(s, head, first) {
      assert s.trace.wire + part + [] == s.trace.wire + part;
    }
  }

  /** A stock reply on a connection that is not kept puts itself on the wire, once, with the length of its own body and
      the word that the connection closes: all of it when the socket works, and otherwise a part. */
  lemma {:induction false} StockOnWire(cfg: Config, s: State, status: int, env: Env)
    requires !s.keepAlive
    ensures var t := SendStockReply(cfg, s, status, env);
            && t.response.status == Some(status) && t.response.content == cfg.stock(status)
            && t.response.fields.contentLength == Some(|cfg.stock(status)|)
            && t.response.fields.transferEncoding == s.response.fields.transferEncoding
            && t.response.fields.connection == Some("close")
            && (var reply := [Header(HeaderSection(t.response))] + Bytes(cfg.stock(status));
                s.trace.wire <= t.trace.wire <= s.trace.wire + reply &&
                (s.open && !s.broken && env.head.ok && env.body.ok ==> t.trace.wire == s.trace.wire + reply))
  {
    hide Write, WriteOk, HeaderSection, Bytes, FinishResponse, Vetoes;
    var announced := SetServerHeaders(cfg, Respond(s, StockOf(cfg, status, s.response), Stock(status)), env.now);
    var head, body := [Header(HeaderSection(announced.response))], Bytes(cfg.stock(status));
    BothWritten(announced, head, body, env.head, env.body);
    WriteKeeps(announced, head, env.head);
    WriteKeeps(Write(announced, head, env.head), body, env.body);
  }

  /** An expiry closes the socket, without a word when the connection is idle and otherwise with one 408 after what was
      written before, and never arms the timer again or begins anything else: what was outstanding stays so. */
  lemma {:induction false} ExpiryOnlyCloses(cfg: Config, s: State, generation: nat, env: Env)
    requires Enabled(s, TimerFired(false, generation)) && generation == s.timerGeneration
    ensures var t := HandleTimer(cfg, s, false, generation, env);
            && !t.open && t.timedOut
            && t.trace.pending == s.trace.pending && t.timerGeneration == s.timerGeneration
            && t.trace.timers == s.trace.timers - {generation}
            && t.trace.exchanges == s.trace.exchanges && t.trace.requests == s.trace.requests
            && (s.idle ==> t.trace.wire == s.trace.wire)
            && (!s.idle ==>
                  && t.response.status == Some(REQUEST_TIMEOUT) && t.response.fields.connection == Some("close")
                  && (var reply := [Header(HeaderSection(t.response))] + Bytes(cfg.stock(REQUEST_TIMEOUT));
                      s.trace.wire <= t.trace.wire <= s.trace.wire + reply &&
                      (s.open && !s.broken && env.head.ok && env.body.ok ==> t.trace.wire == s.trace.wire + reply)))
  {
    hide SendStockReply, HeaderSection, Bytes;
    var expired := Unkept(Expired(Fired(s, generation)));
    StockCloses(cfg, expired, REQUEST_TIMEOUT, env);
    StockOnWire(cfg, expired, REQUEST_TIMEOUT, env);
  }

  /** While the handler's reply is being sent, no firing does anything, however many are outstanding. */
  lemma {:induction false} TimerLeavesReplies(cfg: Config, s: State, op: Continuation, aborted: bool, generation: nat,
                                              env: Env)
    requires Inv(cfg, s) && op in s.trace.pending && Enabled(s, TimerFired(aborted, generation))
    requires op.ChunkTask? || op.ChunkedTask? || IsWrite(op)
    ensures HandleTimer(cfg, s, aborted, generation, env) == Fired(s, generation)
  {
    hide Base, InRequest, Counted, InChunks, Arrived, Sending, SendStockReply, Ready, Reading;
    assert OpInv(cfg, s, op);
  }

  /** The connection waits: for the handshake, for input, or for a thread that calls the handler. */
  predicate Bounded(op: Continuation) {
    op.Handshake? || op.Read? || op.Posted? || op.HandleTask?
  }

  /** Every wait before the handler is called is bounded: the timer runs, for the keep-alive time when the connection is
      idle, as it is only between two requests, and for the request time otherwise. */
  lemma {:induction false} WaitIsBounded(cfg: Config, s: State, op: Continuation)
    requires Inv(cfg, s) && op in s.trace.pending && Bounded(op) && !s.timedOut
    ensures s.timerGeneration in s.trace.timers
    ensures s.trace.timers[s.timerGeneration] == if s.idle then cfg.keepAliveTimeout else cfg.timeout
    ensures s.idle ==> op == Read && s.buffer == "" && s.trace.exchanges != []
  {
    hide Base, Reading, Ready, Replying;
    assert OpInv(cfg, s, op);
  }

  // ---------------------------------------------------------------- progress and conservation

  /** A partial write delivers the next items of the piece, no more and no fewer, and leaves less to send. */
  lemma {:induction false} PartialWrite(cfg: Config, s: State, op: Continuation, n: nat, env: Env)
    requires IsWrite(op) && CanDeliver(s, true, n) && s.sentBytes + n < |s.responseString|
    ensures var t := Written(cfg, s, op, true, n, env);
            && t.trace.wire + t.responseString[t.sentBytes..] == s.trace.wire + s.responseString[s.sentBytes..]
            && t.responseString == s.responseString
            && 0 < |t.responseString| - t.sentBytes < |s.responseString| - s.sentBytes
            && t.trace.pending == s.trace.pending - multiset{op} + multiset{op}
  {
    hide Schedule, FinishResponse, SendStockReply;
    Rest(s.trace.wire, s.responseString, s.sentBytes, n);
  }

  /** Between the chunks of a stream the wire holds, after what came before, the header section once and then exactly
      the octets that were counted; no header section at all when a whole response is handed through. */
  lemma {:induction false} StreamedBytesOnWire(cfg: Config, s: State, pool: Pool)
    requires Inv(cfg, s) && ChunkTask(pool) in s.trace.pending && !s.timedOut && !s.broken
    ensures s.trace.outcome.Handled? && s.pendingHeaders == []
    ensures s.trace.wire == Prologue(cfg, s.trace) +
                            (if IsPassthrough(Current(s)) then []
                             else [Header(HeaderSection(FinalResponse(cfg, Current(s))))]) +
                            Bytes(Concat(s.trace.outcome.chunks))
    ensures s.totalStreamedBytes == |Concat(s.trace.outcome.chunks)|
  {
    hide Base, InRequest, Transcript, Ready, Reading, Concat, HandlerRequest, FinalResponse, HeaderSection, Bytes;
    assert OpInv(cfg, s, ChunkTask(pool));
  }

  /** ... and so it is in a chunked body, whose octets are the chunks in their framing. */
  lemma {:induction false} ChunkedBytesOnWire(cfg: Config, s: State, pool: Pool)
    requires Inv(cfg, s) && ChunkedTask(pool) in s.trace.pending && !s.timedOut && !s.broken
    ensures s.trace.outcome.Handled?
    ensures s.trace.wire == Prologue(cfg, s.trace) + [Header(HeaderSection(FinalResponse(cfg, Current(s))))] +
                            Bytes(Framed(s.trace.outcome.chunks))
    ensures DecodeChunked(Framed(s.trace.outcome.chunks) + LAST_CHUNK) == Done(Concat(s.trace.outcome.chunks), "")
    ensures s.totalStreamedBytes == |Concat(s.trace.outcome.chunks)|
  {
    hide Base, InRequest, Transcript, Ready, Reading, Concat, HandlerRequest, FinalResponse, HeaderSection, Bytes,
         Framed,
         LAST_CHUNK, DecodeChunked;
    assert OpInv(cfg, s, ChunkedTask(pool));
    RoundTrip(s.trace.outcome.chunks, "");
    var whole := Framed(s.trace.outcome.chunks) + LAST_CHUNK;
    assert whole + "" == whole;
  }

  // ---------------------------------------------------------------- nothing parsed, nothing kept

  /** Nothing was parsed or kept on the way from `s` to `t`: the connection waits for more, with at most a 100 Continue
      sent, or it ends. */
  ghost predicate NothingCame(s: State, t: State) {
    && !t.keepAlive && t.trace.exchanges == s.trace.exchanges && t.trace.requests == s.trace.requests
    && (t.trace.pending == multiset{Read} || (t.trace.pending == multiset{} && (!t.open || t.broken)))
    && (t.trace.pending == multiset{Read} ==>
          t.trace.wire == s.trace.wire || t.trace.wire == s.trace.wire + [CONTINUE])
  }

  /** `t` is `s` but for fields that say nothing of what happened. */
  ghost predicate Still(s: State, t: State) {
    !t.keepAlive && t.trace == s.trace && t.trace.pending == multiset{} && t.broken == s.broken
  }

  lemma {:induction false} StillItself(s: State)
    requires !s.keepAlive && s.trace.pending == multiset{}
    ensures Still(s, s) && Still(s, Examined(s))
  {
  }

  lemma {:induction false} StillUnkept(s: State, t: State)
    requires Still(s, t)
    ensures Still(s, Unkept(t))
  {
  }

  lemma {:induction false} StockEnds(cfg: Config, s: State, t: State, status: int, env: Env)
    requires Still(s, t)
    ensures NothingCame(s, SendStockReply(cfg, t, status, env))
  {
    hide SendStockReply;
    StockCloses(cfg, t, status, env);
  }

  lemma {:induction false} WaitsOn(s: State, t: State)
    requires Still(s, t)
    ensures NothingCame(s, Await(t, Read))
  {
  }

  lemma {:induction false} ToldToGoOn(cfg: Config, s: State, t: State, env: Env)
    requires Still(s, t) && WriteOk(t, [CONTINUE], env.interim)
    ensures var written := Write(t, [CONTINUE], env.interim);
            NothingCame(s, Await(Told(written), Read))
  {
    hide Write, WriteOk;
    WriteKeeps(t, [CONTINUE], env.interim);
  }

  lemma {:induction false} NotTold(cfg: Config, s: State, t: State, env: Env)
    requires Still(s, t) && !WriteOk(t, [CONTINUE], env.interim)
    ensures NothingCame(s, Unkept(Write(t, [CONTINUE], env.interim)))
  {
    hide Write, WriteOk;
    WriteKeeps(t, [CONTINUE], env.interim);
  }

  lemma {:induction false} ExpectNeverKept(cfg: Config, s: State, env: Env)
    requires !s.keepAlive && s.trace.pending == multiset{}
    ensures NothingCame(s, HandleExpectContinue(cfg, s, env))
  {
    hide SendStockReply, ScanHead, HasToken, NegotiateVersion, Write, WriteOk, NothingCame, Await, Still;
    var handled := Examined(s);
    StillItself(s);
    WaitsOn(s, s);
    WaitsOn(s, handled);
    if WriteOk(handled, [CONTINUE], env.interim) {
      ToldToGoOn(cfg, s, handled, env);
    } else {
      NotTold(cfg, s, handled, env);
    }
    StillUnkept(s, handled);
    StockEnds(cfg, s, Unkept(handled), EXPECTATION_FAILED, env);
  }

  lemma {:induction false} IncompleteNeverKept(cfg: Config, s: State, env: Env)
    requires !s.keepAlive && s.trace.pending == multiset{}
    ensures NothingCame(s, HandleIncompleteRequest(cfg, s, env))
  {
    hide SendStockReply, HandleExpectContinue, FindBlankLine, NothingCame, Still;
    StillItself(s);
    StillUnkept(s, s);
    StockEnds(cfg, s, Unkept(s), HEADER_FIELDS_TOO_LARGE, env);
    ExpectNeverKept(cfg, s, env);
  }

  /** Until a request is complete the connection does not persist: no path has to see to that. */
  lemma {:induction false} UnparsedNeverKept(cfg: Config, s: State, env: Env)
    requires Usable(cfg) && !s.keepAlive && s.trace.pending == multiset{} && !cfg.parse(s.buffer).Complete?
    ensures NothingCame(s, ParseBuffer(cfg, s, env))
  {
    hide SendStockReply, HandleIncompleteRequest, Usable, NothingCame, Still;
    StillItself(s);
    StockEnds(cfg, s, s, BAD_REQUEST, env);
    IncompleteNeverKept(cfg, s, env);
  }

  // ---------------------------------------------------------------- a write failure that goes unnoticed

  lemma {:induction false} KeptMeansMore(cfg: Config, s: State, shutdown: bool)
    ensures |FinishResponse(cfg, s, shutdown).trace.exchanges| ==
            |s.trace.exchanges| + (if IsReused(s, shutdown) then 1 else 0)
  {
    hide Current, Listen;
    KeptNext(cfg, Reset(s));
  }

  lemma {:induction false} KeptNext(cfg: Config, s: State)
    ensures Listen(cfg, s).trace.exchanges == s.trace.exchanges
  {
  }

  /** Only the second write of a reply is looked at.  When the first one, of the header section, fails, the connection
      is kept all the same exactly when there is no body to fail on: so it is with the reply to OPTIONS. */
  lemma {:induction false} LostHeaderSection(cfg: Config, s: State, env: Env)
    requires s.response.status.Some? && IsReused(s, env.atFinish) && s.open && !s.broken && !env.head.ok
    ensures |SendSimpleReply(cfg, s, env).trace.exchanges| > |s.trace.exchanges| <==> s.response.content == ""
  {
    hide FinishResponse, HeaderSection;
    var head, body := [Header(HeaderSection(s.response))], Bytes(s.response.content);
    assert !WriteOk(s, head, env.head);
    var afterHead := Write(s, head, env.head);
    assert |body| == |s.response.content|;
    KeptMeansMore(cfg, Write(afterHead, body, env.body), env.atFinish);
  }

  // ---------------------------------------------------------------- where a request goes

  predicate NonePending(s: State) {
    s.trace.pending == multiset{}
  }

  /** The request waits in a queue of the pool. */
  predicate Queues(s: State, pool: Pool) {
    HandleTask(pool) in s.trace.pending
  }

  ghost predicate AnsweredAs(s: State, outcome: Outcome) {
    s.trace.outcome == outcome
  }

  lemma {:induction false} FinishOutcome(cfg: Config, s: State, shutdown: bool, pool: Pool)
    requires NonePending(s)
    ensures var t := FinishResponse(cfg, s, shutdown);
            t.trace.outcome == s.trace.outcome && !Queues(t, pool)
  {
    hide Current, Listen, Reset, RecordOf, Concluded, Queues, NonePending;
    ListenOutcome(cfg, s, pool);
    ConcludedOutcome(s, pool);
  }

  lemma {:induction false} ConcludedOutcome(s: State, pool: Pool)
    requires NonePending(s)
    ensures Concluded(s).trace.outcome == s.trace.outcome && !Queues(Concluded(s), pool)
  {
    hide RecordOf;
  }

  lemma {:induction false} ListenOutcome(cfg: Config, s: State, pool: Pool)
    requires NonePending(s)
    ensures var t := Listen(cfg, Reset(s));
            t.trace.outcome == s.trace.outcome && !Queues(t, pool)
  {
    hide Current, RecordOf;
  }

  lemma {:induction false} SimpleOutcome(cfg: Config, s: State, env: Env, pool: Pool)
    requires s.response.status.Some? && NonePending(s)
    ensures var t := SendSimpleReply(cfg, s, env);
            t.trace.outcome == s.trace.outcome && !Queues(t, pool)
  {
    hide HeaderSection, Bytes, WriteOk, DeliveredPart, FinishResponse;
    var head, body := [Header(HeaderSection(s.response))], Bytes(s.response.content);
    FinishOutcome(cfg, Write(Write(s, head, env.head), body, env.body), env.atFinish, pool);
  }

  lemma {:induction false} OwnOutcome(cfg: Config, s: State, response: Response, outcome: Outcome, env: Env, pool: Pool)
    requires response.status.Some? && NonePending(s)
    ensures var t := SendOwnReply(cfg, s, response, outcome, env);
            AnsweredAs(t, outcome) && !Queues(t, pool)
  {
    hide SendSimpleReply, Queues, ServerHeaders, Vetoes, RecordOf;
    SimpleOutcome(cfg, SetServerHeaders(cfg, Respond(s, response, outcome), env.now), env, pool);
  }

  lemma {:induction false} StockOutcome(cfg: Config, s: State, status: int, env: Env, pool: Pool)
    requires NonePending(s)
    ensures var t := SendStockReply(cfg, s, status, env);
            AnsweredAs(t, Stock(status)) && !Queues(t, pool)
  {
    hide SendOwnReply, Queues;
    OwnOutcome(cfg, s, StockOf(cfg, status, s.response), Stock(status), env, pool);
  }

  lemma {:induction false} OptionsOutcome(cfg: Config, s: State, env: Env, pool: Pool)
    requires NonePending(s)
    ensures !Queues(SendOptionsReply(cfg, s, env), pool)
  {
    hide SendOwnReply, Queues;
    OwnOutcome(cfg, s, OptionsResponse(cfg), Options, env, pool);
  }

  predicate IsAdmin(cfg: Config, view: View) {
    view.View? && !view.frontend && view.admin && cfg.hasAdminPool
  }

  /** The pool of a request that is served by the view, once it is known whether it is an administrator's. */
  function PoolOf(cfg: Config, view: View, admin: bool): Pool
    requires view.View?
  {
    if view.frontend || (!admin && (view.fast || !cfg.hasSlowPool)) then FastPool
    else if admin then AdminPool
    else SlowPool
  }

  lemma {:induction false} QueuedIn(s: State, pool: Pool)
    requires NonePending(s)
    ensures Queues(Await(s, HandleTask(SelectedPool(s))), pool) <==> pool == SelectedPool(s)
  {
  }

  lemma {:induction false} PoolIs(cfg: Config, s: State, view: View, fast: bool, admin: bool)
    requires view.View? && fast == (view.frontend || !cfg.hasSlowPool || view.fast)
    requires admin == (!view.frontend && s.adminQuery)
    ensures SelectedPool(Pooled(s, fast, admin)) == PoolOf(cfg, view, s.adminQuery)
  {
  }

  lemma {:induction false} PoolLeavesQuiet(s: State, fast: bool, admin: bool)
    requires NonePending(s)
    ensures NonePending(Pooled(s, fast, admin)) && Pooled(s, fast, admin).adminQuery == admin
  {
  }

  lemma {:induction false} ScheduledWhere(cfg: Config, s: State, env: Env, pool: Pool)
    requires NonePending(s) && env.view.View?
    ensures var t := ScheduleRequest(cfg, s, env);
            (Queues(t, pool) <==> env.scheduled && pool == PoolOf(cfg, env.view, s.adminQuery)) &&
            (!env.scheduled ==> AnsweredAs(t, Stock(if env.view.frontend then SERVICE_UNAVAILABLE else cfg.highLoad)))
  {
    hide SendStockReply, Await, SelectedPool, PoolOf, NonePending, Queues, AnsweredAs;
    var view := env.view;
    var fast, admin := view.frontend || !cfg.hasSlowPool || view.fast, !view.frontend && s.adminQuery;
    var selected := Pooled(s, fast, admin);
    PoolIs(cfg, s, view, fast, admin);
    PoolLeavesQuiet(s, fast, admin);
    QueuedIn(selected, pool);
    StockOutcome(cfg, selected, if view.frontend then SERVICE_UNAVAILABLE else cfg.highLoad, env, pool);
  }

  /** A request goes to a thread pool exactly when somebody serves it, the server is not overloaded, or it is an
      administrator's, and the queue takes it; and then to the one pool it belongs to. */
  lemma {:induction false} QueuedWhere(cfg: Config, s: State, env: Env, pool: Pool)
    requires NonePending(s)
    ensures Queues(Dispatch(cfg, s, env), pool) <==>
            && !(s.request.verb == OPTIONS && s.request.resource == "*")
            && env.view.View? && env.scheduled && (env.highLoad ==> IsAdmin(cfg, env.view))
            && pool == PoolOf(cfg, env.view, IsAdmin(cfg, env.view))
  {
    hide SendStockReply, SendOptionsReply, ScheduleRequest, PoolOf, NonePending, Queues, AnsweredAs, Pooled, RecordOf;
    OptionsOutcome(cfg, s, env, pool);
    StockOutcome(cfg, s, NOT_FOUND, env, pool);
    var admin := IsAdmin(cfg, env.view);
    PoolLeavesQuiet(s, s.queryIsFast, admin);
    StockOutcome(cfg, Pooled(s, s.queryIsFast, admin), cfg.highLoad, env, pool);
    if env.view.View? {
      ScheduledWhere(cfg, Pooled(s, s.queryIsFast, admin), env, pool);
    }
  }

  /** ... and otherwise it is refused with the status that says why. */
  lemma {:induction false} RefusedWith(cfg: Config, s: State, env: Env)
    requires NonePending(s) && !(s.request.verb == OPTIONS && s.request.resource == "*")
    ensures var t := Dispatch(cfg, s, env);
            && (env.view.NoView? ==> AnsweredAs(t, Stock(NOT_FOUND)))
            && (env.view.View? && env.highLoad && !IsAdmin(cfg, env.view) ==> AnsweredAs(t, Stock(cfg.highLoad)))
            && (env.view.View? && !(env.highLoad && !IsAdmin(cfg, env.view)) && !env.scheduled ==>
                  AnsweredAs(t, Stock(if env.view.frontend then SERVICE_UNAVAILABLE else cfg.highLoad)))
  {
    hide SendStockReply, ScheduleRequest, PoolOf, NonePending, Queues, AnsweredAs, Pooled, RecordOf;
    StockOutcome(cfg, s, NOT_FOUND, env, FastPool);
    var admin := IsAdmin(cfg, env.view);
    PoolLeavesQuiet(s, s.queryIsFast, admin);
    StockOutcome(cfg, Pooled(s, s.queryIsFast, admin), cfg.highLoad, env, FastPool);
    if env.view.View? {
      ScheduledWhere(cfg, Pooled(s, s.queryIsFast, admin), env, FastPool);
    }
  }

  // ---------------------------------------------------------------- what every handler promises

  /** Every connection kept on the way from `before` to `after` was announced as persistent in the client's version. */
  ghost predicate AnnouncedSince(cfg: Config, before: seq<Exchange>, after: seq<Exchange>) {
    && before <= after
    && forall k {:trigger Reuses(after[k])} :: |before| <= k < |after| ==>
         Reuses(after[k]) &&
         (ChunksKnown(after[k]) ==>
            Persists(AnswerVersion(after[k]), HeaderSection(FinalResponse(cfg, after[k]))))
  }

  /** What happened stays, a closed socket stays closed and silent, and no connection is kept unannounced. */
  ghost predicate Lawful(cfg: Config, s: State, t: State) {
    && s.trace.wire <= t.trace.wire && s.trace.received <= t.trace.received && s.trace.requests <= t.trace.requests
    && (!s.open ==> !t.open && t.trace.wire == s.trace.wire)
    && AnnouncedSince(cfg, s.trace.exchanges, t.trace.exchanges)
  }

  lemma {:induction false} InvAnnounces(cfg: Config, s: State, before: seq<Exchange>)
    requires Inv(cfg, s) && before <= s.trace.exchanges
    ensures AnnouncedSince(cfg, before, s.trace.exchanges)
  {
    hide OpInv, Concludes, ReadsAs, Usable, FinalResponse, Persists, HeaderSection, ChunksKnown, AnswerVersion, Reuses,
         Proper;
    var after := s.trace.exchanges;
    forall k | |before| <= k < |after|
      ensures Reuses(after[k])
      ensures ChunksKnown(after[k]) ==>
                Persists(AnswerVersion(after[k]), HeaderSection(FinalResponse(cfg, after[k])))
    {
      assert Reusable(cfg, after[k]);
      ReusedIsFramed(after[k]);
      if ChunksKnown(after[k]) {
        ReuseIsAnnounced(cfg, after[k]);
      }
    }
  }

  lemma {:induction false} GrewPlainly(s: State, t: State, mode: Mode, shutdown: bool)
    requires Grew(s, t, mode, shutdown)
    ensures && s.trace.wire <= t.trace.wire && s.trace.received <= t.trace.received
            && s.trace.requests <= t.trace.requests && s.trace.exchanges <= t.trace.exchanges
            && (!s.open ==> !t.open && t.trace.wire == s.trace.wire)
            && (s.timedOut ==> t.timedOut) && (s.broken ==> t.broken)
    ensures !mode.Reads? ==> t.trace.requests == s.trace.requests && t.trace.received == s.trace.received
    ensures mode.Quiet? ==> t.trace.kept == s.trace.kept
    ensures shutdown ==> t.trace.exchanges == s.trace.exchanges
  {
  }

  /** Every step keeps the invariant and the law. */
  lemma {:induction false} StepObeys(cfg: Config, s: State, input: Input, env: Env)
    requires Inv(cfg, s) && Enabled(s, input) && Usable(cfg)
    ensures Inv(cfg, Step(cfg, s, input, env)) && Lawful(cfg, s, Step(cfg, s, input, env))
  {
    hide Inv, Usable, Enabled, Step, Grew, AnnouncedSince;
    StepKeeps(cfg, s, input, env);
    StepGrows(cfg, s, input, env);
    GrewPlainly(s, Step(cfg, s, input, env), ModeOf(input, env), env.atFinish);
    InvAnnounces(cfg, Step(cfg, s, input, env), s.trace.exchanges);
  }

  lemma {:induction false} AloneTaken(cfg: Config, s: State, op: Continuation)
    requires Inv(cfg, s) && op in s.trace.pending
    ensures s.trace.pending - multiset{op} == multiset{}
  {
    hide Base, OpInv, Concludes;
    assert |s.trace.pending - multiset{op}| == 0;
  }

  /** The handshake leads to the first read, or to the end. */
  lemma {:induction false} HandshakeMeans(cfg: Config, s: State, ok: bool)
    requires Inv(cfg, s) && Handshake in s.trace.pending
    ensures var t := HandleHandshake(s, ok);
            && t.trace.pending == (if ok then multiset{Read} else multiset{}) && t.open == (s.open && ok)
            && t.trace.wire == s.trace.wire
  {
    hide Inv, RecordOf, Take, Await;
    AloneTaken(cfg, s, Handshake);
    TakenPlainly(s, Handshake);
    AwaitedPlainly(Take(s, Handshake), Read);
  }

  lemma {:induction false} TakenPlainly(s: State, op: Continuation)
    ensures var t := Take(s, op);
            t.trace.pending == s.trace.pending - multiset{op} && t.open == s.open && t.trace.wire == s.trace.wire
  {
    hide RecordOf;
  }

  lemma {:induction false} AwaitedPlainly(s: State, op: Continuation)
    requires s.trace.pending == multiset{}
    ensures var t := Await(s, op);
            t.trace.pending == multiset{op} && t.open == s.open && t.trace.wire == s.trace.wire
  {
    hide RecordOf;
  }

  // ---------------------------------------------------------------- reading

  lemma {:induction false} ParserConsumes(cfg: Config, buffer: string)
    requires Usable(cfg)
    ensures Consumes(cfg.parse, buffer)
  {
  }

  /** What is in the buffer together with `data` is looked at. */
  predicate LooksAt(cfg: Config, s: State, ok: bool, data: string, env: Env) {
    !env.atRead && ok && (cfg.maxRequestSize > 0 ==> s.receivedBytes + |data| <= cfg.maxRequestSize)
  }

  lemma {:induction false} BufferMeans(cfg: Config, s: State, env: Env)
    requires Usable(cfg)
    ensures var t := ParseBuffer(cfg, s, env);
            && t.trace.received == s.trace.received
            && t.trace.requests == s.trace.requests + (match cfg.parse(s.buffer)
                                                       case Complete(request, _) => [request]
                                                       case _ => [])
  {
    hide Grew, RecordOf, SendStockReply, HandleParsedRequest, HandleIncompleteRequest, TakeRequest;
    ParserConsumes(cfg, s.buffer);
    match cfg.parse(s.buffer)
    case Complete(request, consumed) =>
      var taken := TakeRequest(s, request, consumed);
      ParsedMore(s, request, consumed);
      ParsedGrows(cfg, taken, env);
      GrewPlainly(taken, HandleParsedRequest(cfg, taken, env), Negotiates, env.atFinish);
    case Failed =>
      StockGrows(cfg, s, BAD_REQUEST, env);
      GrewPlainly(s, SendStockReply(cfg, s, BAD_REQUEST, env), Quiet, env.atFinish);
    case Incomplete => IncompleteMeans(cfg, s, env);
  }

  lemma {:induction false} ParsedMore(s: State, request: Request, consumed: nat)
    requires consumed <= |s.buffer|
    ensures var t := TakeRequest(s, request, consumed);
            t.trace.received == s.trace.received && t.trace.requests == s.trace.requests + [request]
  {
  }

  lemma {:induction false} IncompleteMeans(cfg: Config, s: State, env: Env)
    ensures var t := HandleIncompleteRequest(cfg, s, env);
            t.trace.received == s.trace.received && t.trace.requests == s.trace.requests
  {
    hide Grew, RecordOf, SendStockReply, HandleExpectContinue, TooLarge;
    if TooLarge(cfg, s.buffer) {
      StockCloses(cfg, Unkept(s), HEADER_FIELDS_TOO_LARGE, env);
    } else {
      ExpectGrows(cfg, s, env);
      GrewPlainly(s, HandleExpectContinue(cfg, s, env), Quiet, env.atFinish);
    }
  }

  lemma {:induction false} ArrivedState(cfg: Config, s: State, op: Continuation, data: string)
    ensures var busy := Tallied(LeaveIdle(cfg, Take(s, op)), s.receivedBytes + |data|);
            busy.receivedBytes == s.receivedBytes + |data| &&
            Arrive(busy, data).buffer == s.buffer + data &&
            Arrive(busy, data).trace.received == s.trace.received + data &&
            Arrive(busy, data).trace.requests == s.trace.requests
  {
    hide RecordOf;
  }

  lemma {:induction false} SameRest(parse: Parser, stream: string, requests: seq<Request>, one: string, other: string)
    requires Reliable(parse) && ReadsAs(parse, stream, requests, one) && ReadsAs(parse, stream, requests, other)
    ensures one == other
    decreases |requests|
  {
    assert Consumes(parse, stream);
    if requests != [] {
      SameRest(parse, stream[parse(stream).consumed..], requests[1..], one, other);
    }
  }

  lemma {:induction false} InvStream(cfg: Config, s: State)
    requires Inv(cfg, s)
    ensures Usable(cfg) && ReadsAs(cfg.parse, s.trace.received, s.trace.requests, s.buffer)
  {
    hide Reliable, ReadsAs, OpInv, History, Concludes;
  }

  /** Octets that arrive are added to those in the buffer; a request that is then complete, one at most, is parsed off
      its front, and the rest stays. */
  lemma {:induction false} ReadMeans(cfg: Config, s: State, op: Continuation, ok: bool, data: string, env: Env)
    requires Inv(cfg, s) && op in s.trace.pending && IsRead(op, ok, data) && Usable(cfg)
    ensures var t := HandleRead(cfg, s, op, ok, data, env);
            LooksAt(cfg, s, ok, data, env) ==>
              t.trace.received == s.trace.received + data &&
              (match cfg.parse(s.buffer + data)
               case Complete(request, consumed) =>
                 consumed <= |s.buffer + data| && t.trace.requests == s.trace.requests + [request] &&
                 t.buffer == (s.buffer + data)[consumed..]
               case _ => t.trace.requests == s.trace.requests && t.buffer == s.buffer + data)
  {
    hide Inv, Usable, Reliable, ReadsAs, SendStockReply, ParseBuffer, LeaveIdle, Tallied, Take, Arrive, RecordOf;
    if LooksAt(cfg, s, ok, data, env) {
      var t := HandleRead(cfg, s, op, ok, data, env);
      ReadKeeps(cfg, s, op, ok, data, env);
      ArrivedState(cfg, s, op, data);
      BufferMeans(cfg, Arrive(Tallied(LeaveIdle(cfg, Take(s, op)), s.receivedBytes + |data|), data), env);
      InvStream(cfg, s);
      InvStream(cfg, t);
      UsableParser(cfg);
      ReadsMore(cfg.parse, s.trace.received, s.trace.requests, s.buffer, data);
      ParserConsumes(cfg, s.buffer + data);
      assert s.trace.requests + [] == s.trace.requests;
      match cfg.parse(s.buffer + data)
      case Complete(request, consumed) =>
        ReadsNext(cfg.parse, s.trace.received + data, s.trace.requests, s.buffer + data);
        SameRest(cfg.parse, t.trace.received, t.trace.requests, t.buffer, (s.buffer + data)[consumed..]);
      case _ => SameRest(cfg.parse, t.trace.received, t.trace.requests, t.buffer, s.buffer + data);
    }
  }

  lemma {:induction false} UsableParser(cfg: Config)
    requires Usable(cfg)
    ensures Reliable(cfg.parse)
  {
    hide Reliable;
  }

  // ---------------------------------------------------------------- a buffered reply

  lemma {:induction false} ReadyResponse(cfg: Config, s: State)
    requires Ready(cfg, s) && !s.timedOut
    ensures s.response == EMPTY_RESPONSE
  {
    hide InRequest, HandlerRequest, Shows;
  }

  lemma {:induction false} TaskState(cfg: Config, s: State, pool: Pool)
    requires Inv(cfg, s) && HandleTask(pool) in s.trace.pending
    ensures Ready(cfg, s) && s.trace.pending - multiset{HandleTask(pool)} == multiset{}
  {
    hide Base, Ready, Reading, Timed, Replying;
    assert OpInv(cfg, s, HandleTask(pool));
    assert |s.trace.pending - multiset{HandleTask(pool)}| == 0;
  }

  lemma {:induction false} SentFacts(cfg: Config, s: State, now: int)
    requires s.trace.pending == multiset{}
    ensures var t := StartRegularReply(cfg, SetServerHeaders(cfg, s, now));
            && t.trace.pending == multiset{WriteRegular} && t.trace.outcome == s.trace.outcome
            && t.trace.parsed == s.trace.parsed
            && Current(t) == Current(SetServerHeaders(cfg, s, now))
  {
    hide ServerHeaders, Vetoes, RegularReply, HeaderSection, Bytes, RecordOf;
  }

  /** The handler answers with a buffered response: it is put together as the reference has it, and its write begun. */
  lemma {:induction false} BufferedStep(cfg: Config, s: State, pool: Pool, handler: Handler, first: StreamStatus,
                                        env: Env)
    requires Inv(cfg, s) && HandleTask(pool) in s.trace.pending && !s.timedOut && !s.prematurelyDisconnected
    requires handler(s.request, EMPTY_RESPONSE).Answered?
    requires s.trace.parsed.verb == HEAD || !handler(s.request, EMPTY_RESPONSE).response.streaming
    ensures var t := HandleCompletedRead(cfg, s, pool, handler, first, env);
            && t.trace.pending == multiset{WriteRegular} && t.responseString == Reply(cfg, Current(t))
            && t.trace.parsed == s.trace.parsed
            && t.trace.outcome == Handled(handler, s.request, handler(s.request, EMPTY_RESPONSE).response, [])
  {
    hide Inv, Running, Ready, JustAnswered, Reply, StartRegularReply, SetServerHeaders, RecordOf, Cancelled, Take,
         StartChunkedReply, StartStreamReply, StartGatewayReply, SendStockReply, Respond, HandlerRequest;
    TaskState(cfg, s, pool);
    ReadyResponse(cfg, s);
    ReadyHead(cfg, s);
    var cancelled := Cancelled(Take(s, HandleTask(pool)));
    CancelKeeps(cfg, s, pool);
    CancelledFacts(s, HandleTask(pool));
    var response := handler(s.request, s.response).response;
    AnswerKeeps(cfg, cancelled, handler, response);
    var answered := Respond(cancelled, response, Handled(handler, s.request, response, []));
    RespondedFacts(cancelled, response, Handled(handler, s.request, response, []));
    AnnouncedKeeps(cfg, answered, env.now);
    AnnouncedShape(cfg, answered, env.now);
    AnnouncedTime(cfg, answered, env.now);
    RegularIsReply(cfg, SetServerHeaders(cfg, answered, env.now));
    SentFacts(cfg, answered, env.now);
  }

  lemma {:induction false} ReadyHead(cfg: Config, s: State)
    requires Ready(cfg, s)
    ensures s.headRequest == (s.trace.parsed.verb == HEAD)
  {
    hide InRequest, HandlerRequest, Shows;
  }

  lemma {:induction false} RespondedFacts(s: State, response: Response, outcome: Outcome)
    ensures var t := Respond(s, response, outcome);
            && t.response == response && t.trace.outcome == outcome && t.headRequest == s.headRequest
            && t.trace.pending == s.trace.pending && t.timedOut == s.timedOut && t.trace.parsed == s.trace.parsed
  {
    hide RecordOf;
  }

  lemma {:induction false} AnnouncedTime(cfg: Config, s: State, now: int)
    ensures SetServerHeaders(cfg, s, now).timedOut == s.timedOut
  {
    hide ServerHeaders, Vetoes;
  }

  lemma {:induction false} CancelledFacts(s: State, op: Continuation)
    ensures var t := Cancelled(Take(s, op));
            && t.trace.pending == s.trace.pending - multiset{op} && t.request == s.request && t.response == s.response
            && t.timedOut == s.timedOut && t.headRequest == s.headRequest && t.trace.parsed == s.trace.parsed
            && t.prematurelyDisconnected == s.prematurelyDisconnected
  {
  }

  /** The handler is called on the request it is to see and on a response nobody has touched.  A client that has left
      gets nothing; a buffered response is put together as the reference has it. */
  lemma {:induction false} CompletedMeans(cfg: Config, s: State, pool: Pool, handler: Handler, first: StreamStatus,
                                          env: Env)
    requires Inv(cfg, s) && HandleTask(pool) in s.trace.pending && !s.timedOut && !s.prematurelyDisconnected
    ensures s.request == HandlerRequest(s.trace.parsed) && s.response == EMPTY_RESPONSE
    ensures var t := HandleCompletedRead(cfg, s, pool, handler, first, env);
            var handling := handler(s.request, EMPTY_RESPONSE);
            && (handling.Disconnected? ==> t.trace.wire == s.trace.wire && t.trace.pending == multiset{})
            && (handling.Answered? && (s.trace.parsed.verb == HEAD || !handling.response.streaming) ==>
                  t.trace.pending == multiset{WriteRegular} && t.responseString == Reply(cfg, Current(t)))
  {
    hide Inv, Ready, HandleCompletedRead, Reply;
    TaskState(cfg, s, pool);
    ReadyRequest(cfg, s);
    var handling := handler(s.request, EMPTY_RESPONSE);
    if handling.Disconnected? {
      DroppedSilently(cfg, s, pool, handler, first, env);
    } else if handling.Answered? && (s.trace.parsed.verb == HEAD || !handling.response.streaming) {
      BufferedStep(cfg, s, pool, handler, first, env);
    }
  }

  lemma {:induction false} ReadyRequest(cfg: Config, s: State)
    requires Ready(cfg, s) && !s.timedOut
    ensures s.request == HandlerRequest(s.trace.parsed) && s.response == EMPTY_RESPONSE
  {
    hide InRequest, HandlerRequest, Shows;
  }

  lemma {:induction false} DroppedSilently(cfg: Config, s: State, pool: Pool, handler: Handler, first: StreamStatus,
                                           env: Env)
    requires s.trace.pending - multiset{HandleTask(pool)} == multiset{} && handler(s.request, s.response).Disconnected?
    ensures var t := HandleCompletedRead(cfg, s, pool, handler, first, env);
            t.trace.wire == s.trace.wire && t.trace.pending == multiset{}
  {
    hide StartReply, SendStockReply, RecordOf;
  }

  // ---------------------------------------------------------------- pieces

  /** The next chunk of a stream is sent as it is, behind the header section if that was held back; a stream after which
      the connection is kept has delivered what it announced. */
  lemma {:induction false} ChunkMeans(cfg: Config, s: State, pool: Pool, status: StreamStatus, env: Env)
    requires Inv(cfg, s) && ChunkTask(pool) in s.trace.pending
    ensures var t := GetNextChunk(cfg, Take(s, ChunkTask(pool)), status, env);
            && (status.StreamOk? && status.chunk != "" ==>
                  t.trace.pending == multiset{WriteStream} && t.sentBytes == 0 && t.pendingHeaders == [] &&
                  t.responseString == s.pendingHeaders + Bytes(status.chunk) &&
                  t.totalStreamedBytes == s.totalStreamedBytes + |status.chunk|)
            && (!status.StreamOk? && |t.trace.exchanges| > |s.trace.exchanges| ==>
                  s.totalStreamedBytes == s.declaredContentLength)
  {
    hide Inv, RecordOf, FlushOk, Schedule, FlushPendingHeaders, Bytes, Take, Produced, SendPiece, CheckLength,
         FinishResponse;
    AloneTaken(cfg, s, ChunkTask(pool));
    var taken := Take(s, ChunkTask(pool));
    TakenPieces(s, ChunkTask(pool));
    match status
    case StreamOk(chunk) =>
      ProducedPlainly(taken, chunk);
      PiecePlainly(Produced(taken, chunk), chunk, WriteStream);
    case _ =>
      FlushedCounts(taken, env);
      KeptAsDeclared(cfg, FlushPendingHeaders(taken, env), env.atFinish);
  }

  lemma {:induction false} KeptAsDeclared(cfg: Config, s: State, shutdown: bool)
    ensures |FinishResponse(cfg, CheckLength(s), shutdown).trace.exchanges| > |s.trace.exchanges| ==>
              s.totalStreamedBytes == s.declaredContentLength
  {
    hide RecordOf, FinishResponse;
    KeptMeansMore(cfg, CheckLength(s), shutdown);
  }

  lemma {:induction false} FlushedCounts(s: State, env: Env)
    ensures var t := FlushPendingHeaders(s, env);
            t.totalStreamedBytes == s.totalStreamedBytes && t.declaredContentLength == s.declaredContentLength &&
            t.trace.exchanges == s.trace.exchanges && t.keepAlive == s.keepAlive &&
            t.trace.pending == s.trace.pending
  {
    hide DeliveredPart, WriteOk;
  }

  /** The next chunk of a chunked stream is sent in its framing, its end as the last chunk; a stream that fails closes
      the connection and is given no end. */
  lemma {:induction false} ChunkedMeans(cfg: Config, s: State, pool: Pool, status: StreamStatus, env: Env)
    requires Inv(cfg, s) && ChunkedTask(pool) in s.trace.pending
    ensures var t := GetNextChunkedChunk(cfg, Take(s, ChunkedTask(pool)), status, env);
            && (status.StreamOk? && status.chunk != "" ==>
                  t.trace.pending == multiset{WriteChunked} && t.sentBytes == 0 && t.pendingHeaders == [] &&
                  t.responseString == s.pendingHeaders + Bytes(Chunk(status.chunk)) &&
                  t.totalStreamedBytes == s.totalStreamedBytes + |status.chunk|)
            && (status.ExitOk? ==>
                  t.trace.pending == multiset{WriteFinal} && t.sentBytes == 0 && t.pendingHeaders == [] &&
                  t.responseString == s.pendingHeaders + Bytes(LAST_CHUNK))
            && (status.ExitError? ==>
                  t.trace.pending == multiset{} && !t.open && t.trace.exchanges == s.trace.exchanges)
  {
    hide Inv, RecordOf, FlushOk, Schedule, Chunk, LAST_CHUNK, FlushPendingHeaders, Bytes, Take, Produced, SendPiece;
    AloneTaken(cfg, s, ChunkedTask(pool));
    var taken := Take(s, ChunkedTask(pool));
    TakenPieces(s, ChunkedTask(pool));
    match status
    case StreamOk(chunk) =>
      ProducedPlainly(taken, chunk);
      PiecePlainly(Produced(taken, chunk), Chunk(chunk), WriteChunked);
    case ExitOk => PiecePlainly(taken, LAST_CHUNK, WriteFinal);
    case ExitError => FlushedCounts(taken, env);
  }

  lemma {:induction false} TakenPieces(s: State, op: Continuation)
    ensures var t := Take(s, op);
            && t.pendingHeaders == s.pendingHeaders && t.totalStreamedBytes == s.totalStreamedBytes
            && t.declaredContentLength == s.declaredContentLength
            && t.trace.pending == s.trace.pending - multiset{op} && t.trace.exchanges == s.trace.exchanges
  {
    hide RecordOf;
  }

  lemma {:induction false} ProducedPlainly(s: State, chunk: string)
    ensures var t := Produced(s, chunk);
            && t.totalStreamedBytes == s.totalStreamedBytes + |chunk| && t.pendingHeaders == s.pendingHeaders
            && t.trace.pending == s.trace.pending
  {
    hide RecordOf;
  }

  lemma {:induction false} PiecePlainly(s: State, piece: string, op: Continuation)
    requires s.trace.pending == multiset{}
    ensures var t := SendPiece(s, piece, op);
            && t.trace.pending == multiset{op} && t.sentBytes == 0 && t.pendingHeaders == []
            && t.responseString == s.pendingHeaders + Bytes(piece) && t.totalStreamedBytes == s.totalStreamedBytes
  {
    hide RecordOf, Bytes;
  }

  lemma {:induction false} AdvancedPlainly(s: State, op: Continuation, n: nat)
    requires CanDeliver(s, true, n)
    ensures var t := Advance(Take(s, op), n);
            t.trace.wire == s.trace.wire + s.responseString[s.sentBytes..s.sentBytes + n] &&
            t.responseString == s.responseString && t.sentBytes == s.sentBytes + n
    ensures var t := Await(Advance(Take(s, op), n), op);
            t.trace.wire == s.trace.wire + s.responseString[s.sentBytes..s.sentBytes + n] &&
            t.responseString == s.responseString && t.sentBytes == s.sentBytes + n &&
            t.trace.pending == s.trace.pending - multiset{op} + multiset{op}
  {
    hide RecordOf;
  }

  lemma {:induction false} FailedEnds(cfg: Config, s: State, env: Env)
    requires s.trace.pending == multiset{}
    ensures var t := AbortReply(cfg, Failing(s), env);
            t.trace.pending == multiset{} && !t.open && t.trace.exchanges == s.trace.exchanges
  {
    hide RecordOf, SendStockReply;
    StockCloses(cfg, Unkept(Failing(s)), SERVICE_UNAVAILABLE, env);
  }

  lemma {:induction false} TakenExchanges(s: State, op: Continuation)
    ensures Take(s, op).trace.exchanges == s.trace.exchanges
  {
    hide RecordOf;
  }

  /** A write that succeeds puts the next items of the piece on the wire, no more and no fewer, and is followed by one
      for the rest; one that fails ends the connection. */
  lemma {:induction false} WrittenMeans(cfg: Config, s: State, op: Continuation, ok: bool, n: nat, env: Env)
    requires Inv(cfg, s) && op in s.trace.pending && IsWrite(op) && CanDeliver(s, ok, n)
    ensures var t := Written(cfg, s, op, ok, n, env);
            && (ok && s.sentBytes + n < |s.responseString| ==>
                  t.trace.wire == s.trace.wire + s.responseString[s.sentBytes..s.sentBytes + n] &&
                  t.responseString == s.responseString && t.sentBytes == s.sentBytes + n &&
                  t.trace.pending == multiset{op})
            && (!ok ==> t.trace.pending == multiset{} && !t.open && t.trace.exchanges == s.trace.exchanges)
  {
    hide Inv, RecordOf, Schedule, FinishResponse, AbortReply, Take, Await, Advance, Failing;
    AloneTaken(cfg, s, op);
    if ok {
      AdvancedPlainly(s, op, n);
    } else {
      TakenPlainly(s, op);
      TakenExchanges(s, op);
      FailedEnds(cfg, Take(s, op), env);
    }
  }

  /** The last piece of a buffered or chunked reply leaves the whole reply on the wire, after what came before it. */
  lemma {:induction false} LastPieceMeans(cfg: Config, s: State, op: Continuation, n: nat, env: Env)
    requires Inv(cfg, s) && op in s.trace.pending && (op == WriteRegular || op == WriteFinal)
    requires CanDeliver(s, true, n) && s.sentBytes + n == |s.responseString|
    ensures Written(cfg, s, op, true, n, env).trace.wire == Prologue(cfg, s.trace) + Reply(cfg, Current(s))
  {
    hide Inv, Running, RecordOf, FinishResponse, Prologue, Reply, Replying, WriteInv;
    WriteTaken(cfg, s, op);
    TakeParts(cfg, s, op);
    var taken := Take(s, op);
    AdvanceRuns(cfg, taken, n, op);
    AdvanceArrives(cfg, taken, n, op);
    FinishedWire(cfg, Advance(taken, n), env.atFinish);
    TargetOfLast(cfg, s, op);
  }

  lemma {:induction false} TargetOfLast(cfg: Config, s: State, op: Continuation)
    requires op == WriteRegular || op == WriteFinal
    ensures Target(cfg, s, op) == Prologue(cfg, s.trace) + Reply(cfg, Current(s))
  {
    hide Reply, Framed, Concat, Prologue;
  }

  lemma {:induction false} FinishedWire(cfg: Config, s: State, shutdown: bool)
    ensures FinishResponse(cfg, s, shutdown).trace.wire == s.trace.wire
  {
    hide Current, RecordOf, Listen, Reset;
    ListenWire(cfg, s);
  }

  lemma {:induction false} ListenWire(cfg: Config, s: State)
    ensures Listen(cfg, Reset(s)).trace.wire == s.trace.wire
  {
    hide Current, RecordOf;
  }
}
