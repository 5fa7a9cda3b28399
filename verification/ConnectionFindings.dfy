/** What turned out not to hold, with runs that come to it. */
module ConnectionFindings {
  import opened Wrappers
  import opened Text
  import opened HeaderTokens
  import opened RequestHead
  import opened ChunkedCodec
  import opened Messages
  import opened RequestStream
  import opened Replies
  import opened ConnectionModel
  import opened ConnectionInvariants
  import opened ConnectionSteps
  import opened ConnectionRuns
  import opened ConnectionTheorems
  import opened ConnectionLimits
  import opened ConnectionEnds
  import opened ClientDecoder

  // ---------------------------------------------------------------- a request comes in

  /** A whole request arrives that can be kept, and nothing else happens. */
  predicate Arrives(cfg: Config, s: State, data: string, env: Env) {
    && Read in s.trace.pending && !s.timedOut && !s.broken
    && (cfg.maxRequestSize > 0 ==> |s.buffer + data| <= cfg.maxRequestSize)
    && !env.atRead && !env.atNegotiate && !env.atFinish && env.peer
    && cfg.parse(s.buffer + data).Complete?
    && (var request := cfg.parse(s.buffer + data).request;
        && MayPersist(cfg, request, s.requestCount + 1)
        && (NegotiateVersion(request.version) == V11 ==> HasHeader(request.headers, "Host")))
  }

  /** The state in which the request is dispatched. */
  function Taken(cfg: Config, s: State, data: string, env: Env): State
    requires cfg.parse(s.buffer + data).Complete? && cfg.parse(s.buffer + data).consumed <= |s.buffer + data|
  {
    var parsed := cfg.parse(s.buffer + data);
    var arrived := Arrive(Tallied(LeaveIdle(cfg, Take(s, Read)), s.receivedBytes + |data|), data);
    Strip(Negotiate(cfg, TakeRequest(arrived, parsed.request, parsed.consumed), env))
  }

  lemma {:induction false} ArrivedBuffer(cfg: Config, s: State, data: string)
    ensures Arrive(Tallied(LeaveIdle(cfg, Take(s, Read)), s.receivedBytes + |data|), data).buffer == s.buffer + data
    ensures Tallied(LeaveIdle(cfg, Take(s, Read)), s.receivedBytes + |data|).receivedBytes == s.receivedBytes + |data|
  {
    hide RecordOf;
  }

  lemma {:induction false} NegotiatedVersion(cfg: Config, s: State, env: Env)
    ensures Negotiate(cfg, s, env).responseVersion == NegotiateVersion(s.request.version)
    ensures Negotiate(cfg, s, env).request == s.request
  {
  }

  /** Reading a whole request comes down to its dispatch. */
  lemma {:induction false} ReadDispatches(cfg: Config, s: State, data: string, env: Env)
    requires Usable(cfg) && Inv(cfg, s) && Arrives(cfg, s, data, env)
    ensures cfg.parse(s.buffer + data).consumed <= |s.buffer + data|
    ensures HandleRead(cfg, s, Read, true, data, env) == Dispatch(cfg, Taken(cfg, s, data, env), env)
  {
    hide Inv, Usable, Dispatch, LeaveIdle, Tallied, Take, Arrive, TakeRequest, Negotiate, Strip, MayPersist, HasHeader,
         RecordOf, NegotiateVersion;
    assert Consumes(cfg.parse, s.buffer + data) by { ParserConsumes(cfg, s.buffer + data); }
    ReadCounts(cfg, s, Read);
    ArrivedBuffer(cfg, s, data);
    var parsed := cfg.parse(s.buffer + data);
    var arrived := Arrive(Tallied(LeaveIdle(cfg, Take(s, Read)), s.receivedBytes + |data|), data);
    var taken := TakeRequest(arrived, parsed.request, parsed.consumed);
    TakenRequest(arrived, parsed.request, parsed.consumed);
    NegotiatedVersion(cfg, taken, env);
  }

  lemma {:induction false} TakenRequest(s: State, request: Request, consumed: nat)
    requires consumed <= |s.buffer|
    ensures TakeRequest(s, request, consumed).request == request
  {
  }

  /** What octets that arrive leave alone. */
  ghost predicate SameService(s: State, t: State) {
    && t.trace.exchanges == s.trace.exchanges && t.trace.wire == s.trace.wire && t.trace.interim == s.trace.interim
    && t.timedOut == s.timedOut && t.broken == s.broken && t.requestCount == s.requestCount
    && t.prematurelyDisconnected == s.prematurelyDisconnected
  }

  lemma {:induction false} TakenService(s: State, received: nat)
    ensures SameService(s, Take(s, Read)) && SameService(s, Tallied(s, received))
  {
    hide RecordOf;
  }

  lemma {:induction false} ArmedService(s: State, seconds: int)
    ensures SameService(s, ArmTimer(s, seconds)) && SameService(s, s.(idle := false))
  {
    hide RecordOf;
  }

  lemma {:induction false} BusyService(cfg: Config, s: State)
    ensures SameService(s, LeaveIdle(cfg, s))
  {
    hide RecordOf, ArmTimer;
    ArmedService(s, cfg.timeout);
    ArmedService(s.(idle := false), cfg.timeout);
  }

  lemma {:induction false} ArrivedService(s: State, data: string)
    ensures SameService(s, Arrive(s, data))
  {
  }

  lemma {:induction false} ArrivedFacts(cfg: Config, s: State, data: string)
    ensures SameService(s, Arrive(Tallied(LeaveIdle(cfg, Take(s, Read)), s.receivedBytes + |data|), data))
  {
    hide RecordOf, Take, LeaveIdle, Tallied, Arrive;
    var taken := Take(s, Read);
    TakenService(s, 0);
    BusyService(cfg, taken);
    TakenService(LeaveIdle(cfg, taken), s.receivedBytes + |data|);
    ArrivedService(Tallied(LeaveIdle(cfg, taken), s.receivedBytes + |data|), data);
  }

  lemma {:induction false} StrippedFacts(cfg: Config, s: State, request: Request, consumed: nat, env: Env)
    requires consumed <= |s.buffer| && MayPersist(cfg, request, s.requestCount + 1) && !env.atNegotiate
    ensures var t := Strip(Negotiate(cfg, TakeRequest(s, request, consumed), env));
            && t.trace.exchanges == s.trace.exchanges && t.trace.wire == s.trace.wire
            && t.trace.interim == s.trace.interim && t.timedOut == s.timedOut && t.broken == s.broken
            && t.requestCount == s.requestCount + 1 && t.keepAlive && t.trace.kept
            && t.trace.parsed == request && t.trace.arrived == s.buffer && t.request == HandlerRequest(request)
  {
    hide MayPersist, RecordOf, NegotiateVersion, HandlerRequest;
  }

  /** What is known of the connection when the request is dispatched. */
  lemma {:induction false} TakenFacts(cfg: Config, s: State, data: string, env: Env)
    requires Usable(cfg) && Inv(cfg, s) && Arrives(cfg, s, data, env)
    ensures cfg.parse(s.buffer + data).consumed <= |s.buffer + data|
    ensures var t, request := Taken(cfg, s, data, env), cfg.parse(s.buffer + data).request;
            && Running(cfg, t) && Ready(cfg, t) && !t.timedOut && !t.broken
            && t.keepAlive && t.trace.kept && t.request == HandlerRequest(request)
            && t.trace.exchanges == s.trace.exchanges && t.trace.wire == s.trace.wire
            && t.trace.interim == s.trace.interim && t.requestCount == s.requestCount + 1
            && t.trace.parsed == request && t.trace.arrived == s.buffer + data
  {
    hide Inv, Usable, Running, Ready, Reading, JustParsed, LeaveIdle, Tallied, Take, Arrive, TakeRequest, Negotiate,
         Strip, MayPersist, HasHeader, RecordOf, NegotiateVersion, OpInv, Timed, HandlerRequest;
    assert Consumes(cfg.parse, s.buffer + data) by { ParserConsumes(cfg, s.buffer + data); }
    var parsed := cfg.parse(s.buffer + data);
    TakeRuns(cfg, s, Read);
    ReadInv(cfg, s, Read);
    TakenAside(s, Read);
    IdleAfterTake(s, Read);
    LeaveIdleKeeps(cfg, Take(s, Read));
    var busy := LeaveIdle(cfg, Take(s, Read));
    CountAside(cfg, s, Read);
    ArriveKeeps(cfg, busy, data);
    ArrivedBuffer(cfg, s, data);
    ArrivedFacts(cfg, s, data);
    var arrived := Arrive(Tallied(busy, s.receivedBytes + |data|), data);
    ParsedRuns(cfg, arrived, parsed.request, parsed.consumed);
    ParsedIsJust(cfg, arrived, parsed.request, parsed.consumed);
    TakenRequest(arrived, parsed.request, parsed.consumed);
    NegotiatedIsReady(cfg, TakeRequest(arrived, parsed.request, parsed.consumed), env);
    StrippedFacts(cfg, arrived, parsed.request, parsed.consumed, env);
  }

  // ---------------------------------------------------------------- the server answers, and the connection is kept

  /** The exchange that a reply of the server's own makes. */
  function OwnExchange(s: State, outcome: Outcome, now: int): Exchange {
    var t := s.trace;
    Exchange(t.parsed, t.arrived, s.requestCount, t.interim, now, t.kept, outcome)
  }

  lemma {:induction false} OwnAnnounced(cfg: Config, s: State, response: Response, outcome: Outcome, now: int)
    requires Answerable(cfg, s) && Fits(cfg, s, response, outcome) && s.keepAlive
    ensures var t := SetServerHeaders(cfg, Respond(s, response, outcome), now);
            && t.keepAlive && t.open && t.response.status.Some? && t.response.content == response.content
            && Current(t) == OwnExchange(s, outcome, now) && t.trace.exchanges == s.trace.exchanges
            && t.timedOut == s.timedOut && t.broken == s.broken
  {
    hide InRequest, Shows, RecordOf, Announce;
  }

  lemma {:induction false} BothFacts(s: State, head: Wire, body: Wire, first: Io, second: Io)
    requires s.open && !s.broken && head != []
    ensures var afterHead := Write(s, head, first);
            var t := Write(afterHead, body, second);
            && t.keepAlive == s.keepAlive && Current(t) == Current(s) && t.trace.exchanges == s.trace.exchanges
            && t.timedOut == s.timedOut
            && (first.ok && second.ok ==> WriteOk(afterHead, body, second) && !t.broken)
            && (!first.ok && body == [] ==> WriteOk(afterHead, body, second) && t.broken)
  {
    hide DeliveredPart;
  }

  lemma {:induction false} KeptFacts(cfg: Config, s: State)
    requires s.keepAlive && !s.timedOut
    ensures var t := FinishResponse(cfg, s, false);
            && t.trace.exchanges == s.trace.exchanges + [Current(s)] && !t.trace.interim && !t.timedOut
            && t.broken == s.broken && Waits(t)
  {
    hide Current, RecordOf;
  }

  /** A reply of the server's own on a connection that is to be kept: it is recorded, and the connection waits again,
      also when its header section could not be written and there was no body to fail on. */
  lemma {:induction false} OwnReplyKept(cfg: Config, s: State, response: Response, outcome: Outcome, env: Env)
    requires Answerable(cfg, s) && Fits(cfg, s, response, outcome) && response.status.Some?
    requires s.keepAlive && !s.timedOut && !s.broken && !env.atFinish
    requires (env.head.ok && env.body.ok) || (!env.head.ok && response.content == "")
    ensures var t := SendOwnReply(cfg, s, response, outcome, env);
            && t.trace.exchanges == s.trace.exchanges + [OwnExchange(s, outcome, env.now)]
            && !t.trace.interim && !t.timedOut && t.broken == !env.head.ok && Waits(t)
  {
    hide Waits, Write, WriteOk, HeaderSection, Bytes, FinishResponse, SetServerHeaders, Current, Answerable, Fits,
         OwnExchange, RecordOf, Respond;
    var announced := SetServerHeaders(cfg, Respond(s, response, outcome), env.now);
    OwnAnnounced(cfg, s, response, outcome, env.now);
    var head, body := [Header(HeaderSection(announced.response))], Bytes(announced.response.content);
    assert announced.response.content == "" ==> body == [] by { NoBytes(); }
    BothFacts(announced, head, body, env.head, env.body);
    KeptFacts(cfg, Write(Write(announced, head, env.head), body, env.body));
  }

  lemma {:induction false} NoBytes()
    ensures Bytes("") == []
  {
  }

  lemma {:induction false} Receives(cfg: Config, run: Run, data: string)
    requires IsRun(cfg, run) && run.states != [] && Read in Last(run).trace.pending
    ensures Usable(cfg) && Enabled(Last(run), ReadDone(Read, true, data)) && Inv(cfg, Last(run))
  {
    hide IsRun, Inv, Usable;
    RunUsable(cfg, run);
    EveryRun(cfg, run, |run.states| - 1);
  }

  /** The run goes on with the arrival of `data`. */
  function WithRead(cfg: Config, run: Run, data: string, env: Env): Run
    requires Usable(cfg) && run.states != [] && Read in Last(run).trace.pending
  {
    Extended(cfg, run, ReadDone(Read, true, data), env)
  }

  lemma {:induction false} AnsweredAtOnce(cfg: Config, run: Run, data: string, env: Env, response: Response,
                                          outcome: Outcome) returns (e: Exchange)
    requires IsRun(cfg, run) && run.states != [] && Arrives(cfg, Last(run), data, env) && response.status.Some?
    requires Usable(cfg) && Reliable(cfg.parse)
    requires cfg.parse(Last(run).buffer + data).consumed <= |Last(run).buffer + data|
    requires var u := Taken(cfg, Last(run), data, env);
             Dispatch(cfg, u, env) == SendOwnReply(cfg, u, response, outcome, env) && Fits(cfg, u, response, outcome)
    requires (env.head.ok && env.body.ok) || (!env.head.ok && response.content == "")
    ensures IsRun(cfg, WithRead(cfg, run, data, env))
    ensures e.request == cfg.parse(Last(run).buffer + data).request && e.outcome == outcome
    ensures var t := Last(WithRead(cfg, run, data, env));
            && t.trace.exchanges == Last(run).trace.exchanges + [e]
            && Waits(t) && !t.timedOut && !t.trace.interim && t.broken == !env.head.ok
  {
    hide IsRun, Inv, Usable, MayPersist, HasHeader, NegotiateVersion, Dispatch, SendOwnReply, Fits, Running, Ready,
         Answerable, Taken, Waits, Step, HandleRead, Reliable;
    Receives(cfg, run, data) by { ArrivesReads(cfg, Last(run), data, env); }
    ArrivesReads(cfg, Last(run), data, env);
    ExtendedIsRun(cfg, run, ReadDone(Read, true, data), env);
    ReadDispatches(cfg, Last(run), data, env);
    TakenFacts(cfg, Last(run), data, env);
    var u := Taken(cfg, Last(run), data, env);
    ReadyAnswers(cfg, u);
    OwnReplyKept(cfg, u, response, outcome, env);
    ReadStep(cfg, Last(run), data, env);
    e := OwnExchange(u, outcome, env.now);
  }

  lemma {:induction false} ArrivesReads(cfg: Config, s: State, data: string, env: Env)
    requires Arrives(cfg, s, data, env)
    ensures Read in s.trace.pending && !env.atFinish && !s.timedOut && !s.broken
  {
    hide MayPersist, HasHeader, NegotiateVersion;
  }

  lemma {:induction false} ReadStep(cfg: Config, s: State, data: string, env: Env)
    requires Usable(cfg) && Read in s.trace.pending
    ensures Step(cfg, s, ReadDone(Read, true, data), env) == HandleRead(cfg, s, Read, true, data, env)
  {
    hide Usable, HandleRead;
  }

  // ---------------------------------------------------------------- HEAD of what nobody serves

  lemma {:induction false} HandlerVerb(request: Request)
    ensures request.verb == HEAD ==> HandlerRequest(request).verb == GET
    ensures request.verb != HEAD ==>
              HandlerRequest(request).verb == request.verb && HandlerRequest(request).resource == request.resource
  {
    hide WithoutHopByHop;
  }

  /** A request for the head of a resource that nobody serves, on any connection that waits and in any run: the 404 is
      recorded and the connection is kept, but the client, which finds the reply and no body, is left in front of the
      body of the 404, and takes it for the beginning of the next reply. */
  lemma {:induction false} HeadToNobody(cfg: Config, run: Run, data: string, env: Env)
    requires IsRun(cfg, run) && run.states != [] && Arrives(cfg, Last(run), data, env)
    requires cfg.parse(Last(run).buffer + data).request.verb == HEAD
    requires env.view.NoView? && env.head.ok && env.body.ok && AllSound(cfg, Last(run).trace.exchanges)
    ensures Usable(cfg) && IsRun(cfg, WithRead(cfg, run, data, env))
    ensures var t := Last(WithRead(cfg, run, data, env)).trace;
            && |t.exchanges| == |Last(run).trace.exchanges| + 1
            && DecodeAll(Heads(t.exchanges), t.wire) ==
               Some(Transcribed(Expected(cfg, t.exchanges), Bytes(cfg.stock(NOT_FOUND))))
  {
    hide IsRun, Inv, Usable, MayPersist, HasHeader, NegotiateVersion, SendOwnReply, Running, Ready, Taken, Waits,
         Decode, DecodeAll, Heads, Expected, Transcript, Sound, HandlerRequest, Extended, Reliable, Delivered;
    ArrivesReads(cfg, Last(run), data, env);
    Receives(cfg, run, data);
    UsableParser(cfg);
    TakenFacts(cfg, Last(run), data, env);
    HandlerVerb(cfg.parse(Last(run).buffer + data).request);
    var u := Taken(cfg, Last(run), data, env);
    assert u.response == EMPTY_RESPONSE by { ReadyResponse(cfg, u); }
    StockHasStatus(cfg, NOT_FOUND, EMPTY_RESPONSE);
    var e := AnsweredAtOnce(cfg, run, data, env, StockOf(cfg, NOT_FOUND, EMPTY_RESPONSE), Stock(NOT_FOUND));
    WithReadLength(cfg, run, data, env);
    var before, t := Last(run).trace.exchanges, Last(WithRead(cfg, run, data, env));
    EveryRun(cfg, WithRead(cfg, run, data, env), |WithRead(cfg, run, data, env).states| - 1);
    WaitingState(cfg, t);
    InvHistory(cfg, Last(run));
    KeptAreDelivered(cfg, Last(run).trace.requests, before);
    TranscriptOfMore(cfg, before, e);
    NoInterim();
    assert t.trace.wire == Transcript(cfg, before) + Interim(e.interim) + Reply(cfg, e);
    assert IsHead(e);
    DecodesAfter(cfg, before, e, Reply(cfg, e));
    HeadDecodes(cfg, e);
    HeadsOfMore(cfg, before, e);
  }

  lemma {:induction false} WithReadLength(cfg: Config, run: Run, data: string, env: Env)
    requires Usable(cfg) && run.states != [] && Read in Last(run).trace.pending
    ensures WithRead(cfg, run, data, env).states != []
  {
    hide Usable, Step;
  }

  lemma {:induction false} HeadDecodes(cfg: Config, e: Exchange)
    requires IsHead(e) && e.outcome == Stock(NOT_FOUND)
    ensures Decode(true, Reply(cfg, e)) == Message(NOT_FOUND, "", Bytes(cfg.stock(NOT_FOUND)))
    ensures FinalResponse(cfg, e).status == Some(NOT_FOUND) && ProducedBody(cfg, e) == ""
  {
    hide FinalResponse, WireBody, Decode, Bytes;
    StockReplyHead(cfg, e);
    DecodeOfHead(HeaderSection(FinalResponse(cfg, e)), Bytes(cfg.stock(NOT_FOUND)));
  }

  // ---------------------------------------------------------------- a header section that is lost

  /** OPTIONS *, on any connection that waits and in any run, when the write of the header section of its reply fails:
      the exchange is recorded and the connection waits for the next request, on a socket that does not work. */
  lemma {:induction false} OptionsLosesHeader(cfg: Config, run: Run, data: string, env: Env)
    requires IsRun(cfg, run) && run.states != [] && Arrives(cfg, Last(run), data, env)
    requires var request := cfg.parse(Last(run).buffer + data).request;
             request.verb == OPTIONS && request.resource == "*"
    requires !env.head.ok
    ensures Usable(cfg) && IsRun(cfg, WithRead(cfg, run, data, env))
    ensures var t := Last(WithRead(cfg, run, data, env));
            && |t.trace.exchanges| == |Last(run).trace.exchanges| + 1
            && t.trace.exchanges[|t.trace.exchanges| - 1].outcome == Options
            && t.broken && Waits(t)
  {
    hide IsRun, Inv, Usable, MayPersist, HasHeader, NegotiateVersion, SendOwnReply, Running, Ready, Taken, Waits,
         HandlerRequest, Extended, Reliable;
    ArrivesReads(cfg, Last(run), data, env);
    Receives(cfg, run, data);
    UsableParser(cfg);
    TakenFacts(cfg, Last(run), data, env);
    HandlerVerb(cfg.parse(Last(run).buffer + data).request);
    var e := AnsweredAtOnce(cfg, run, data, env, OptionsResponse(cfg), Options);
  }

  // ---------------------------------------------------------------- a response without a status

  /** The handler leaves a buffered response without a status. */
  predicate LeavesUnset(handling: Handling) {
    handling.Answered? && handling.response.status == None && !handling.response.streaming &&
    handling.response.fields.transferEncoding == None
  }

  /** A handler leaves the status of a buffered response unset, on any connection and in any run: what is sent is a 501
      that the client reads right exactly when its body has the length of the content it stands for. */
  lemma {:induction false} UnsetStatusIsSent(cfg: Config, run: Run, pool: Pool, handler: Handler, first: StreamStatus,
                                             env: Env)
    requires IsRun(cfg, run) && run.states != [] && Usable(cfg)
    requires HandleTask(pool) in Last(run).trace.pending
    requires !Last(run).timedOut && !Last(run).prematurelyDisconnected && Last(run).trace.parsed.verb != HEAD
    requires LeavesUnset(handler(Last(run).request, EMPTY_RESPONSE))
    ensures var later := Extended(cfg, run, TaskRun(pool, handler, first), env);
            var t := Last(later);
            && IsRun(cfg, later) && t.trace.pending == multiset{WriteRegular}
            && t.responseString == Reply(cfg, Current(t))
            && Current(t).outcome.Handled?
            && (Decode(false, Reply(cfg, Current(t))) == Message(NOT_IMPLEMENTED, cfg.stock(NOT_IMPLEMENTED), []) <==>
                |cfg.stock(NOT_IMPLEMENTED)| == AnnouncedLength(cfg, Current(t)))
  {
    hide IsRun, Inv, Usable, Reply, Decode, AnnouncedLength, HandleCompletedRead;
    EveryRun(cfg, run, |run.states| - 1);
    ExtendedIsRun(cfg, run, TaskRun(pool, handler, first), env);
    BufferedStep(cfg, Last(run), pool, handler, first, env);
    var t := HandleCompletedRead(cfg, Last(run), pool, handler, first, env);
    UnsetStatusReply(cfg, Current(t));
  }

  // ---------------------------------------------------------------- persistence that is announced and not kept

  /** The last write of a buffered reply that has said that the connection persists, in any run: the connection is kept
      if and only if the server is not seen to shut down by then. */
  lemma {:induction false} AnnouncedYetClosed(cfg: Config, run: Run, env: Env)
    requires IsRun(cfg, run) && run.states != [] && Usable(cfg) && WriteRegular in Last(run).trace.pending
    requires var s := Last(run); !s.timedOut && !s.broken && s.keepAlive && ChunksKnown(Current(s))
    ensures var s := Last(run);
            s.open && s.sentBytes < |s.responseString|
    ensures var s := Last(run);
            var later := Extended(cfg, run, WriteDone(WriteRegular, true, |s.responseString| - s.sentBytes), env);
            var e, t := Current(s), Last(later);
            && IsRun(cfg, later) && Persists(AnswerVersion(e), HeaderSection(FinalResponse(cfg, e)))
            && (|t.trace.exchanges| > |s.trace.exchanges| <==> !env.atFinish)
            && (env.atFinish ==> ReplyUnderWay(t) && Current(t) == e && t.trace.pending == multiset{} &&
                                 t.trace.exchanges == s.trace.exchanges)
  {
    hide IsRun, Inv, Usable, Current, FinalResponse, Persists, HeaderSection, ChunksKnown, AnswerVersion, Reuses,
         ReplyUnderWay, Written;
    var s := Last(run);
    EveryRun(cfg, run, |run.states| - 1);
    RegularState(cfg, s);
    ExtendedIsRun(cfg, run, WriteDone(WriteRegular, true, |s.responseString| - s.sentBytes), env);
    LastPieceFacts(cfg, s, env);
    ReusedIsFramed(Current(s));
    ReuseIsAnnounced(cfg, Current(s));
  }

  lemma {:induction false} RegularState(cfg: Config, s: State)
    requires Inv(cfg, s) && WriteRegular in s.trace.pending && !s.timedOut && !s.broken && s.keepAlive
    ensures s.open && s.sentBytes < |s.responseString| && Reuses(Current(s)) && UnderWay(s)
    ensures s.trace.pending - multiset{WriteRegular} == multiset{}
  {
    hide Base, Ready, Reading, Timed, Reuses, HandlerRequest, Target, Asked100, MayPersist;
    assert OpInv(cfg, s, WriteRegular);
    assert |s.trace.pending - multiset{WriteRegular}| == 0;
  }

  lemma {:induction false} LastPieceFacts(cfg: Config, s: State, env: Env)
    requires s.sentBytes < |s.responseString| && s.open && !s.broken && UnderWay(s) && !s.timedOut && s.keepAlive
    requires s.trace.pending - multiset{WriteRegular} == multiset{}
    ensures var t := Written(cfg, s, WriteRegular, true, |s.responseString| - s.sentBytes, env);
            && (|t.trace.exchanges| > |s.trace.exchanges| <==> !env.atFinish)
            && (env.atFinish ==> t.trace.pending == multiset{} && t.trace.exchanges == s.trace.exchanges &&
                                 Current(t) == Current(s) && ReplyUnderWay(t))
  {
    hide RecordOf, Schedule, AbortReply, Listen, Reset;
    KeptMeansMore(cfg, Advance(Take(s, WriteRegular), |s.responseString| - s.sentBytes), env.atFinish);
  }

  /** A stream of announced length that delivers nothing, although it announced something, in any run and on a server
      that does not shut down: it has said that the connection persists, and is the last reply. */
  lemma {:induction false} StreamMiscounts(cfg: Config, run: Run, pool: Pool, handler: Handler, env: Env)
    requires IsRun(cfg, run) && run.states != [] && Usable(cfg) && HandleTask(pool) in Last(run).trace.pending
    requires var s := Last(run);
             && !s.timedOut && !s.broken && !s.prematurelyDisconnected && s.trace.kept && s.trace.parsed.verb != HEAD
             && CountsWrong(handler(s.request, EMPTY_RESPONSE))
    requires env.flush.ok
    ensures var later := Extended(cfg, run, TaskRun(pool, handler, ExitOk), env);
            var s, t := Last(run), Last(later);
            && IsRun(cfg, later) && ReplyUnderWay(t) && IsCounted(Current(t))
            && Persists(AnswerVersion(Current(t)), HeaderSection(FinalResponse(cfg, Current(t))))
            && t.trace.pending == multiset{} && t.trace.exchanges == s.trace.exchanges
  {
    hide IsRun, Inv, Usable, FinalResponse, Persists, HeaderSection, HandleCompletedRead, Running, StreamReady,
         GetNextChunk;
    var s := Last(run);
    EveryRun(cfg, run, |run.states| - 1);
    ExtendedIsRun(cfg, run, TaskRun(pool, handler, ExitOk), env);
    var begun := CountedBegins(cfg, s, pool, handler, ExitOk, env);
    MiscountEnds(cfg, begun, env);
    ReuseIsAnnounced(cfg, Current(begun));
  }

  /** A stream whose announced length is not zero, on a connection that may persist. */
  predicate CountsWrong(handling: Handling) {
    handling.Answered? &&
    (var r := handling.response;
     r.streaming && !r.chunked && !r.gateway && r.streamLength > 0 && r.fields.connection == None)
  }

  /** The first look at the streamer of a response of announced length finds the header section held back. */
  lemma {:induction false} CountedBegins(cfg: Config, s: State, pool: Pool, handler: Handler, first: StreamStatus,
                                         env: Env) returns (begun: State)
    requires Inv(cfg, s) && HandleTask(pool) in s.trace.pending && !s.prematurelyDisconnected && !s.timedOut
    requires s.trace.parsed.verb != HEAD && s.trace.kept && !s.broken
    requires CountsWrong(handler(s.request, EMPTY_RESPONSE))
    ensures HandleCompletedRead(cfg, s, pool, handler, first, env) == GetNextChunk(cfg, begun, first, env)
    ensures Running(cfg, begun) && StreamReady(cfg, begun, false) && !begun.timedOut && !begun.broken
    ensures begun.trace.exchanges == s.trace.exchanges && Reuses(Current(begun)) && IsCounted(Current(begun))
    ensures begun.trace.outcome == Handled(handler, s.request, handler(s.request, EMPTY_RESPONSE).response, [])
    ensures !IsPassthrough(Current(begun))
  {
    hide Inv, Running, Ready, JustAnswered, StreamReady, Announced, Current, HandlerRequest,
         GetNextChunk, SetServerHeaders, PreparePendingHeaders, Framing, RecordOf, Cancelled, Take;
    TaskState(cfg, s, pool);
    ReadyResponse(cfg, s);
    ReadyHead(cfg, s);
    var cancelled := Cancelled(Take(s, HandleTask(pool)));
    CancelKeeps(cfg, s, pool);
    CancelledFacts(s, HandleTask(pool));
    var response := handler(s.request, s.response).response;
    AnswerKeeps(cfg, cancelled, handler, response);
    var answered := Respond(cancelled, response, Handled(handler, s.request, response, []));
    RespondedFacts(cancelled, response, Handled(handler, s.request, response, []));
    AnnouncedKeeps(cfg, answered, env.now);
    AnnouncedShape(cfg, answered, env.now);
    AnnouncedTime(cfg, answered, env.now);
    var announced := SetServerHeaders(cfg, answered, env.now);
    StreamBegins(cfg, announced);
    AnsweredHistory(cfg, s, pool, response, Handled(handler, s.request, response, []), env.now);
    begun := Prepared(cfg, announced);
  }

  /** Taking up the handler's response leaves alone what happened before it. */
  lemma {:induction false} AnsweredHistory(cfg: Config, s: State, pool: Pool, response: Response, outcome: Outcome,
                                           now: int)
    requires outcome.Handled? && outcome.chunks == [] && CountsWrong(Answered(response)) && s.trace.parsed.verb != HEAD
    requires outcome.response == response && s.trace.kept
    ensures var cancelled := Cancelled(Take(s, HandleTask(pool)));
            var t := SetServerHeaders(cfg, Respond(cancelled, response, outcome), now);
            && t.trace.exchanges == s.trace.exchanges && t.broken == s.broken && t.trace.outcome == outcome
            && Reuses(Current(t)) && IsCounted(Current(t)) && !IsPassthrough(Current(t))
  {
    hide ServerHeaders, Vetoes;
    var cancelled := Cancelled(Take(s, HandleTask(pool)));
    var t := SetServerHeaders(cfg, Respond(cancelled, response, outcome), now);
    assert !Vetoes(AnswerVersion(Current(t)), response) by { NoVeto(AnswerVersion(Current(t)), response); }
  }

  lemma {:induction false} NoVeto(version: Version, r: Response)
    requires !r.chunked && r.fields.connection == None
    ensures !Vetoes(version, r)
  {
  }

  lemma {:induction false} MiscountState(cfg: Config, s: State)
    requires Running(cfg, s) && StreamReady(cfg, s, false) && !s.timedOut
    requires IsCounted(Current(s)) && s.trace.outcome.Handled? && s.trace.outcome.chunks == []
    requires s.trace.outcome.response.streamLength > 0
    ensures s.open && s.totalStreamedBytes != s.declaredContentLength && UnderWay(s) && s.trace.pending == multiset{}
  {
    hide Base, HandlerRequest, Obeyed, Reuses, Owing, InOnePiece;
    assert Concat([]) == "";
  }

  /** A stream that miscounts is over with its header section, whatever the flag says. */
  lemma {:induction false} MiscountOver(cfg: Config, s: State, shutdown: bool)
    requires s.totalStreamedBytes != s.declaredContentLength && UnderWay(s) && s.trace.pending == multiset{}
    requires !s.timedOut
    ensures var t := FinishResponse(cfg, CheckLength(s), shutdown);
            && ReplyUnderWay(t) && t.trace.pending == multiset{} && Current(t) == Current(s)
            && t.trace.exchanges == s.trace.exchanges
  {
    hide RecordOf, Listen, Reset, Concluded, Current;
    assert !CheckLength(s).keepAlive;
    LengthAside(s);
    OverFacts(CheckLength(s));
  }

  lemma {:induction false} LengthAside(s: State)
    ensures var t := CheckLength(s);
            && t.timedOut == s.timedOut && UnderWay(t) == UnderWay(s) && t.trace == s.trace && Current(t) == Current(s)
  {
    hide RecordOf;
  }

  lemma {:induction false} OverFacts(s: State)
    requires !s.timedOut && UnderWay(s) && s.trace.pending == multiset{}
    ensures var t := Concluded(s);
            && ReplyUnderWay(t) && t.trace.pending == multiset{} && Current(t) == Current(s)
            && t.trace.exchanges == s.trace.exchanges
  {
    hide RecordOf;
  }

  lemma {:induction false} FlushedFacts(s: State, env: Env)
    requires s.open && !s.broken && env.flush.ok
    ensures var t := FlushPendingHeaders(s, env);
            && FlushOk(s, env) && t.totalStreamedBytes == s.totalStreamedBytes
            && t.declaredContentLength == s.declaredContentLength && UnderWay(t) == UnderWay(s)
            && t.trace.pending == s.trace.pending && t.timedOut == s.timedOut && Current(t) == Current(s)
            && t.trace.exchanges == s.trace.exchanges
  {
    hide DeliveredPart;
  }

  lemma {:induction false} MiscountEnds(cfg: Config, s: State, env: Env)
    requires Running(cfg, s) && StreamReady(cfg, s, false) && !s.timedOut && !s.broken && env.flush.ok
    requires IsCounted(Current(s)) && s.trace.outcome.Handled? && s.trace.outcome.chunks == []
    requires s.trace.outcome.response.streamLength > 0
    ensures var t := GetNextChunk(cfg, s, ExitOk, env);
            && ReplyUnderWay(t) && t.trace.pending == multiset{} && Current(t) == Current(s)
            && t.trace.exchanges == s.trace.exchanges
  {
    hide Running, StreamReady, IsCounted, ReplyUnderWay, FlushPendingHeaders, FlushOk, FinishResponse, CheckLength,
         UnderWay, Current;
    MiscountState(cfg, s);
    FlushedFacts(s, env);
    MiscountOver(cfg, FlushPendingHeaders(s, env), env.atFinish);
  }

  // ---------------------------------------------------------------- a server on which all of this happens

  /** A parser for requests that are a header section and nothing more. */
  function ParseHead(s: string): ParseResult {
    var end := FindBlankLine(s, 0);
    if end == |s| then Incomplete else Complete(RequestOf(s[0]), end + 4)
  }

  function RequestOf(first: char): Request {
    var verb := if first == 'H' then HEAD else if first == 'O' then OPTIONS else GET;
    Request(verb, "", "*", map["connection" := "keep-alive"], "")
  }

  const SAMPLE :=
    Config(false, 0, 2, 30, true, 10, 0, false, false, 600, 600, ParseHead, (status: int) => "sorry", map[],
           (headers: Headers) => headers,
           (request: Request, streamed: bool, status: Option<int>, content: string, other: Headers) => (content, other))

  lemma {:induction false} SampleParses(s: string, more: string)
    ensures ParseHead("").Incomplete? && Consumes(ParseHead, s)
    ensures !ParseHead(s).Incomplete? ==> ParseHead(s + more) == ParseHead(s)
  {
    if FindBlankLine(s, 0) < |s| {
      FindBlankLineOfExtension(s, more, 0);
    }
  }

  lemma {:induction false} SampleIsUsable()
    ensures Usable(SAMPLE)
  {
    forall s
      ensures Consumes(ParseHead, s) && ParseHead("").Incomplete?
    {
      SampleParses(s, "");
    }
    forall s, more | !ParseHead(s).Incomplete?
      ensures ParseHead(s + more) == ParseHead(s)
    {
      SampleParses(s, more);
    }
  }

  /** A connection of that server that was just accepted. */
  function Accepted(): Run {
    Run([StartConnection(SAMPLE, NEW_STATE)], [])
  }

  lemma {:induction false} AcceptedWaits()
    ensures IsRun(SAMPLE, Accepted()) && Usable(SAMPLE)
    ensures var s := Last(Accepted());
            && Read in s.trace.pending && s.buffer == "" && !s.timedOut && !s.broken && s.receivedBytes == 0
            && s.requestCount == 0 && s.trace.exchanges == [] && !IsRefused(s)
  {
    hide Usable;
    SampleIsUsable();
    assert Reached(SAMPLE, Accepted(), 0);
  }

  lemma {:induction false} NoBlankLine()
    ensures FindBlankLine("GET", 0) == 3
    ensures FindBlankLine("GET\r\n\r\n", 0) == 3
  {
    assert forall s: string, i: nat :: i < |s| && s[i] != '\r' ==> !BlankLineAt(s, i);
    var whole := "GET\r\n\r\n";
    assert BlankLineAt(whole, 3);
    assert FindBlankLine(whole, 3) == 3 && FindBlankLine(whole, 2) == 3 && FindBlankLine(whole, 1) == 3;
    assert FindBlankLine("GET", 3) == 3 && FindBlankLine("GET", 2) == 3 && FindBlankLine("GET", 1) == 3;
  }

  /** One stream, GET and a blank line, with a limit of two octets, in two cuts: whole it is a request, cut after the
      third octet it is answered 431. */
  lemma {:induction false} CutDecides()
    ensures Usable(SAMPLE) && Read in Last(Accepted()).trace.pending
    ensures var cut := WithRead(SAMPLE, Accepted(), "GET", CALM);
            && IsRun(SAMPLE, cut) && IsRefused(Last(cut))
    ensures var whole := WithRead(SAMPLE, Accepted(), "GET\r\n\r\n", CALM);
            && IsRun(SAMPLE, whole) && !IsRefused(Last(whole))
    ensures SAMPLE.parse("GET\r\n\r\n").Complete?
  {
    hide IsRun, Usable, HandleRead, IsRefused;
    AcceptedWaits();
    NoBlankLine();
    var s := Last(Accepted());
    assert s.buffer + "GET" == "GET" && s.buffer + "GET\r\n\r\n" == "GET\r\n\r\n";
    ExtendedIsRun(SAMPLE, Accepted(), ReadDone(Read, true, "GET"), CALM);
    ExtendedIsRun(SAMPLE, Accepted(), ReadDone(Read, true, "GET\r\n\r\n"), CALM);
    ReadRefuses(SAMPLE, s, Read, true, "GET", CALM);
    ReadRefuses(SAMPLE, s, Read, true, "GET\r\n\r\n", CALM);
    ReadStep(SAMPLE, s, "GET", CALM);
    ReadStep(SAMPLE, s, "GET\r\n\r\n", CALM);
  }

  lemma {:induction false} SamplePersists(first: char)
    ensures MayPersist(SAMPLE, RequestOf(first), 1) && NegotiateVersion(RequestOf(first).version) == V10
  {
    hide HasToken, Lower, ToNumber, NegotiateVersion;
    assert NegotiateVersion("") == V10 by { NoDot(); }
    TokenOfItself("keep-alive") by { LowerNames(); }
    LowerNames();
    assert Lookup(RequestOf(first).headers, "Connection") == Some("keep-alive");
  }

  lemma {:induction false} NoDot()
    ensures NegotiateVersion("") == V10
  {
  }

  lemma {:induction false} LowerNames()
    ensures Lower("Connection") == "connection" && Lower("keep-alive") == "keep-alive"
  {
  }

  lemma {:induction false} HeadAlone(first: char)
    requires first != '\r'
    ensures ParseHead([first] + "\r\n\r\n") == Complete(RequestOf(first), 5)
  {
    var s := [first] + "\r\n\r\n";
    assert BlankLineAt(s, 1) && !BlankLineAt(s, 0);
    assert FindBlankLine(s, 1) == 1 && FindBlankLine(s, 0) == 1;
  }

  lemma {:induction false} SampleArrives(first: char, env: Env)
    requires first != '\r'
    requires !env.atRead && !env.atNegotiate && !env.atFinish && env.peer
    ensures IsRun(SAMPLE, Accepted()) && Arrives(SAMPLE, Last(Accepted()), [first] + "\r\n\r\n", env)
    ensures SAMPLE.parse(Last(Accepted()).buffer + ([first] + "\r\n\r\n")).request == RequestOf(first)
    ensures Last(Accepted()).trace.exchanges == []
  {
    hide IsRun, Usable, MayPersist, FindBlankLine, NegotiateVersion, HasHeader;
    AcceptedWaits();
    HeadAlone(first);
    SamplePersists(first);
    assert Last(Accepted()).buffer + ([first] + "\r\n\r\n") == [first] + "\r\n\r\n";
  }

  /** The two findings about the server's own replies happen on it: after the answer to its first request, HEAD, the
      client is left in front of five octets that it takes for the next reply; and the connection is kept after an
      answer to OPTIONS that could not be sent. */
  lemma {:induction false} BothHappen(lost: Env)
    requires lost == CALM.(head := Io(false, 0))
    ensures Usable(SAMPLE) && Read in Last(Accepted()).trace.pending
    ensures var t := Last(WithRead(SAMPLE, Accepted(), "H\r\n\r\n", CALM)).trace;
            && |t.exchanges| == 1
            && DecodeAll(Heads(t.exchanges), t.wire) == Some(Transcribed(Expected(SAMPLE, t.exchanges), Bytes("sorry")))
    ensures var t := Last(WithRead(SAMPLE, Accepted(), "O\r\n\r\n", lost));
            && |t.trace.exchanges| == 1 && t.broken && Waits(t)
  {
    hide IsRun, Usable, Arrives, WithRead, DecodeAll, Heads, Expected, Waits, ParseHead, Bytes;
    AcceptedWaits();
    SampleArrives('H', CALM);
    assert ['H'] + "\r\n\r\n" == "H\r\n\r\n";
    HeadToNobody(SAMPLE, Accepted(), "H\r\n\r\n", CALM);
    SampleArrives('O', lost);
    assert ['O'] + "\r\n\r\n" == "O\r\n\r\n";
    OptionsLosesHeader(SAMPLE, Accepted(), "O\r\n\r\n", lost);
  }

  // ---------------------------------------------------------------- ... and the findings about handlers

  /** A plugin serves the request, and its queue has room. */
  const SERVED := CALM.(view := View(true, false, false))

  /** A content of one octet, a stream of one announced octet, and a content of one octet without a status. */
  const PLAIN: Handler :=
    (request: Request, response: Response) => Answered(response.(status := Some(200), content := "x"))
  const SHORT: Handler :=
    (request: Request, response: Response) =>
      Answered(response.(status := Some(200), streaming := true, streamLength := 1))
  const UNSET: Handler := (request: Request, response: Response) => Answered(response.(content := "x"))

  lemma {:induction false} QueuedFacts(cfg: Config, s: State)
    requires s.request.verb == GET
    ensures var t := Dispatch(cfg, s, SERVED);
            && HandleTask(FastPool) in t.trace.pending && t.trace.kept == s.trace.kept
            && t.trace.parsed == s.trace.parsed && t.timedOut == s.timedOut && t.broken == s.broken
            && t.trace.exchanges == s.trace.exchanges && t.prematurelyDisconnected == s.prematurelyDisconnected
  {
    hide RecordOf, SendStockReply, SendOptionsReply;
    assert HandleTask(FastPool) in multiset{HandleTask(FastPool)};
  }

  lemma {:induction false} PresentAfterParse(cfg: Config, s: State, request: Request, consumed: nat, env: Env)
    requires consumed <= |s.buffer|
    ensures var t := Strip(Negotiate(cfg, TakeRequest(s, request, consumed), env));
            t.prematurelyDisconnected == s.prematurelyDisconnected
  {
    hide RecordOf, MayPersist, NegotiateVersion, HandlerRequest;
  }

  const QUEUED := Event(ReadDone(Read, true, "G\r\n\r\n"), SERVED)

  /** The first request of the sample server, GET, waits in the queue of a plugin. */
  lemma {:induction false} SampleQueues() returns (run: Run)
    ensures Usable(SAMPLE) && IsRun(SAMPLE, run) && run.states != [] && run.events == [QUEUED]
    ensures var s := Last(run);
            && HandleTask(FastPool) in s.trace.pending && !s.timedOut && !s.broken && !s.prematurelyDisconnected
            && s.trace.kept && s.trace.parsed.verb == GET && s.trace.exchanges == []
  {
    hide IsRun, Usable, Arrives, ParseHead, Dispatch, HandleRead, Inv, Running, Ready, HandlerRequest, Taken;
    AcceptedWaits();
    SampleArrives('G', SERVED);
    var data := ['G'] + "\r\n\r\n";
    assert data == "G\r\n\r\n";
    var s := Last(Accepted());
    HeadAlone('G');
    assert s.buffer + data == data;
    ArrivesReads(SAMPLE, s, data, SERVED);
    Receives(SAMPLE, Accepted(), data);
    ExtendedIsRun(SAMPLE, Accepted(), ReadDone(Read, true, data), SERVED);
    ReadDispatches(SAMPLE, s, data, SERVED);
    TakenFacts(SAMPLE, s, data, SERVED);
    HandlerVerb(RequestOf('G'));
    SamplePresent(data);
    QueuedFacts(SAMPLE, Taken(SAMPLE, s, data, SERVED));
    ReadStep(SAMPLE, s, data, SERVED);
    run := WithRead(SAMPLE, Accepted(), data, SERVED);
  }

  lemma {:induction false} SamplePresent(data: string)
    requires SAMPLE.parse(Last(Accepted()).buffer + data).Complete?
    requires SAMPLE.parse(Last(Accepted()).buffer + data).consumed <= |Last(Accepted()).buffer + data|
    ensures !Taken(SAMPLE, Last(Accepted()), data, SERVED).prematurelyDisconnected
  {
    hide ParseHead, LeaveIdle, Tallied, Take, Arrive, TakeRequest, Negotiate, Strip, RecordOf;
    var s := Last(Accepted());
    ArrivedFacts(SAMPLE, s, data);
    ArrivedBuffer(SAMPLE, s, data);
    var arrived := Arrive(Tallied(LeaveIdle(SAMPLE, Take(s, Read)), s.receivedBytes + |data|), data);
    var parsed := SAMPLE.parse(s.buffer + data);
    PresentAfterParse(SAMPLE, arrived, parsed.request, parsed.consumed, SERVED);
  }

  /** Taking up a buffered response touches neither the socket nor what was negotiated. */
  lemma {:induction false} BufferedHistory(cfg: Config, s: State, pool: Pool, handler: Handler, first: StreamStatus,
                                           env: Env)
    requires !s.prematurelyDisconnected && handler(s.request, s.response).Answered?
    requires !s.headRequest && !handler(s.request, s.response).response.streaming
    ensures var t := HandleCompletedRead(cfg, s, pool, handler, first, env);
            && t.timedOut == s.timedOut && t.broken == s.broken && t.trace.kept == s.trace.kept
            && t.trace.exchanges == s.trace.exchanges
  {
    hide StartRegularReply, SetServerHeaders, Cancelled, Take, Respond, SendStockReply, StartChunkedReply,
         StartStreamReply, StartGatewayReply;
    var cancelled := Cancelled(Take(s, HandleTask(pool)));
    CancelledFacts(s, HandleTask(pool));
    var response := handler(s.request, s.response).response;
    var answered := Respond(cancelled, response, Handled(handler, s.request, response, []));
    RespondedFacts(cancelled, response, Handled(handler, s.request, response, []));
    assert StartReply(cfg, answered, first, env) == StartRegularReply(cfg, SetServerHeaders(cfg, answered, env.now));
  }

  /** The connection is to be kept after a buffered response that says nothing about it. */
  lemma {:induction false} RegularIsKept(cfg: Config, s: State)
    requires Inv(cfg, s) && WriteRegular in s.trace.pending && !s.timedOut && s.trace.kept && s.trace.outcome.Handled?
    requires var r := s.trace.outcome.response; !r.chunked && r.fields.connection == None && !r.streaming
    ensures s.keepAlive && ChunksKnown(Current(s))
  {
    hide Base, Ready, Reading, Timed, HandlerRequest, Target, Asked100, MayPersist, Vetoes, Sending, InRequest,
         Concludes;
    assert OpInv(cfg, s, WriteRegular);
    NoVeto(AnswerVersion(Current(s)), s.trace.outcome.response);
  }

  /** What the sample server makes of a handler. */
  function Handles(handler: Handler): Event {
    Event(TaskRun(FastPool, handler, ExitOk), CALM)
  }

  /** A buffered response that says nothing about the connection. */
  predicate SaysNothing(handling: Handling) {
    handling.Answered? &&
    (var r := handling.response; !r.streaming && !r.chunked && r.fields.connection == None)
  }

  lemma {:induction false} BufferedGoesOut(cfg: Config, s: State, pool: Pool, handler: Handler, env: Env)
    requires Inv(cfg, s) && HandleTask(pool) in s.trace.pending && !s.timedOut && !s.broken
    requires !s.prematurelyDisconnected && s.trace.kept && s.trace.parsed.verb != HEAD
    requires SaysNothing(handler(s.request, EMPTY_RESPONSE))
    ensures var t := HandleCompletedRead(cfg, s, pool, handler, ExitOk, env);
            && WriteRegular in t.trace.pending && !t.timedOut && !t.broken && t.keepAlive && ChunksKnown(Current(t))
            && t.responseString == Reply(cfg, Current(t)) && t.trace.exchanges == s.trace.exchanges
            && t.trace.parsed == s.trace.parsed
            && t.trace.outcome == Handled(handler, s.request, handler(s.request, EMPTY_RESPONSE).response, [])
  {
    hide Inv, HandleCompletedRead, Reply, Current, ChunksKnown, Ready;
    TaskState(cfg, s, pool);
    ReadyResponse(cfg, s);
    ReadyHead(cfg, s);
    BufferedStep(cfg, s, pool, handler, ExitOk, env);
    BufferedHistory(cfg, s, pool, handler, ExitOk, env);
    CompletedKeeps(cfg, s, pool, handler, ExitOk, env);
    RegularIsKept(cfg, HandleCompletedRead(cfg, s, pool, handler, ExitOk, env));
  }

  /** The buffered reply of a handler on the sample server is on its way. */
  lemma {:induction false} SampleAnswers(handler: Handler) returns (run: Run)
    requires handler == PLAIN || handler == UNSET
    ensures Usable(SAMPLE) && IsRun(SAMPLE, run) && run.states != [] && run.events == [QUEUED, Handles(handler)]
    ensures var t := Last(run);
            && WriteRegular in t.trace.pending && !t.timedOut && !t.broken && t.keepAlive && ChunksKnown(Current(t))
            && t.responseString == Reply(SAMPLE, Current(t)) && t.trace.exchanges == []
            && t.trace.parsed.verb == GET && t.trace.outcome.Handled?
            && t.trace.outcome.response == handler(t.request, EMPTY_RESPONSE).response
  {
    hide IsRun, Usable, Inv, HandleCompletedRead, Reply, Current, ChunksKnown;
    var queued := SampleQueues();
    EveryRun(SAMPLE, queued, |queued.states| - 1);
    ExtendedIsRun(SAMPLE, queued, TaskRun(FastPool, handler, ExitOk), CALM);
    BufferedGoesOut(SAMPLE, Last(queued), FastPool, handler, CALM);
    run := Extended(SAMPLE, queued, TaskRun(FastPool, handler, ExitOk), CALM);
  }

  /** The reply to the first request said that the connection persists; all of it was sent, and nothing was kept. */
  ghost predicate SaidAndEnded(cfg: Config, s: State) {
    && ReplyUnderWay(s) && s.trace.pending == multiset{} && s.trace.exchanges == []
    && Persists(AnswerVersion(Current(s)), HeaderSection(FinalResponse(cfg, Current(s))))
  }

  /** A reply that announced persistence and is the last one, because the server shuts down while it is written. */
  lemma {:induction false} ShutdownCutsIn() returns (run: Run, length: nat)
    ensures IsRun(SAMPLE, run) && run.states != [] && SaidAndEnded(SAMPLE, Last(run))
    ensures run.events == [QUEUED, Handles(PLAIN),
                           Event(WriteDone(WriteRegular, true, length), CALM.(atFinish := true))]
  {
    hide IsRun, Usable, ChunksKnown, FinalResponse, Persists, HeaderSection, Reply, Step;
    var answered := SampleAnswers(PLAIN);
    var closing := CALM.(atFinish := true);
    AnnouncedYetClosed(SAMPLE, answered, closing);
    var s := Last(answered);
    length := |s.responseString| - s.sentBytes;
    run := Extended(SAMPLE, answered, WriteDone(WriteRegular, true, length), closing);
  }

  /** ... and one with no shutdown anywhere, because its streamer ends before the octet it announced. */
  lemma {:induction false} StreamFallsShort() returns (run: Run)
    ensures IsRun(SAMPLE, run) && run.states != [] && SaidAndEnded(SAMPLE, Last(run)) && IsCounted(Current(Last(run)))
    ensures run.events == [QUEUED, Handles(SHORT)]
  {
    hide IsRun, Usable, FinalResponse, Persists, HeaderSection, Step;
    var queued := SampleQueues();
    StreamMiscounts(SAMPLE, queued, FastPool, SHORT, CALM);
    run := Extended(SAMPLE, queued, TaskRun(FastPool, SHORT, ExitOk), CALM);
  }

  /** A response without a status and with a content of one octet goes out as a 501 of which the client takes the first
      octet for the body, and the others for the beginning of the next reply. */
  lemma {:induction false} UnsetStatusMisleads() returns (run: Run)
    ensures IsRun(SAMPLE, run) && run.states != [] && run.events == [QUEUED, Handles(UNSET)]
    ensures var t := Last(run);
            && WriteRegular in t.trace.pending && t.responseString == Reply(SAMPLE, Current(t))
            && Decode(false, t.responseString) == Message(NOT_IMPLEMENTED, "s", Bytes("orry"))
  {
    hide IsRun, Usable, Reply, Decode, Current, Bytes;
    run := SampleAnswers(UNSET);
    SampleUnset(Last(run));
  }

  lemma {:induction false} SampleUnset(s: State)
    requires s.trace.outcome.Handled? && s.trace.parsed.verb == GET
    requires s.trace.outcome.response == EMPTY_RESPONSE.(content := "x")
    ensures Decode(false, Reply(SAMPLE, Current(s))) == Message(NOT_IMPLEMENTED, "s", Bytes("orry"))
  {
    hide Decode, FinalResponse, WireBody, AnnouncedLength;
    var e := Current(s);
    UnsetStatusHead(SAMPLE, e);
    assert AnnouncedLength(SAMPLE, e) == 1 by { SampleLength(e); }
    var head := HeaderSection(FinalResponse(SAMPLE, e));
    assert "sorry" == "s" + "orry";
    BytesOfConcat("s", "orry");
    assert Reply(SAMPLE, e) == [Header(head)] + Bytes("s") + Bytes("orry");
    DecodeOfLength(head, "s", Bytes("orry"));
  }

  lemma {:induction false} SampleLength(e: Exchange)
    requires e.outcome.Handled? && e.outcome.response == EMPTY_RESPONSE.(content := "x")
    ensures AnnouncedLength(SAMPLE, e) == 1
  {
    hide Reuses, AnswerVersion;
  }
}
