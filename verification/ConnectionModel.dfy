/** What the handlers of a persistent connection do, as functions from state to state: one function a handler.  The
    class in AsyncConnection.dfy carries them out step by step.  Everything the outside decides is an argument. */
module ConnectionModel {
  import opened Wrappers
  import opened Text
  import opened HeaderTokens
  import opened RequestHead
  import opened ChunkedCodec
  import opened Messages
  import opened RequestStream
  import opened Replies

  datatype Pool = AdminPool | SlowPool | FastPool

  /** What can be outstanding on behalf of a connection. */
  datatype Continuation =
    | Handshake | Read                 // on the socket
    | Posted                           // handleRead, posted to the io_context
    | HandleTask(pool: Pool) | ChunkTask(pool: Pool) | ChunkedTask(pool: Pool)   // in a thread pool
    | WriteRegular | WriteStream | WriteChunked | WriteFinal                     // on the socket

  /** Who serves a request, if anybody does. */
  datatype View = NoView | View(frontend: bool, admin: bool, fast: bool)

  datatype StreamStatus = StreamOk(chunk: string) | ExitOk | ExitError

  /** How a write that has to finish at once goes: it succeeds, or fails after a part. */
  datatype Io = Io(ok: bool, part: nat)

  /** What a step finds around it.  The shutdown flag is looked at up to three times. */
  datatype Env = Env(
    atRead: bool, atNegotiate: bool, atFinish: bool,
    peer: bool,          // the address of the peer is known
    view: View,
    highLoad: bool,
    scheduled: bool,     // the thread pool takes the task
    interim: Io, flush: Io, head: Io, body: Io,
    now: int
  )

  /** What is outstanding, and what has happened so far. */
  datatype Trace = Trace(
    pending: multiset<Continuation>,
    timers: map<nat, int>,       // waits not handled yet: the generation stamp and the seconds
    wire: Wire,                  // everything written
    received: string,            // everything read
    requests: seq<Request>,      // every request parsed
    exchanges: seq<Exchange>,    // those after which the connection was kept
    // about the request being served: as parsed, the buffer it was parsed from, whether a 100 Continue was sent,
    // what was negotiated, the date of the reply, what the reply is, and whether all of it was written
    parsed: Request, arrived: string, interim: bool, kept: bool, date: int, outcome: Outcome, answered: bool
  )

  datatype State = State(
    open: bool,
    broken: bool,                // a write to the socket has failed, so that every later one fails
    buffer: string,
    receivedBytes: nat,
    request: Request,
    response: Response,
    responseString: Wire,
    pendingHeaders: Wire,
    requestCount: nat,
    keepAlive: bool,
    responseVersion: Version,
    idle: bool,
    timedOut: bool,
    timerGeneration: nat,
    queryIsFast: bool,
    adminQuery: bool,
    sentBytes: nat,
    totalStreamedBytes: nat,
    declaredContentLength: nat,
    headRequest: bool,
    expectHandled: bool,
    prematurelyDisconnected: bool,
    trace: Trace
  )

  const NO_TRACE := Trace(multiset{}, map[], [], "", [], [], EMPTY_REQUEST, "", false, false, 0, Options, false)

  const NEW_STATE :=
    State(true, false, "", 0, EMPTY_REQUEST, EMPTY_RESPONSE, [], [], 0, false, V10, false, false, 0,
          false, false, 0, 0, 0, false, false, false, NO_TRACE)

  /** What happened so far, what became of the socket, and whether the last answer was about the size of the head. */
  datatype Record = Record(
    wire: Wire, received: string, requests: seq<Request>, exchanges: seq<Exchange>,
    open: bool, broken: bool, timedOut: bool, kept: bool, tooLarge: bool
  )

  function RecordOf(s: State): Record {
    Record(s.trace.wire, s.trace.received, s.trace.requests, s.trace.exchanges, s.open, s.broken, s.timedOut,
           s.trace.kept, s.trace.outcome == Stock(HEADER_FIELDS_TOO_LARGE))
  }

  // ---------------------------------------------------------------- the socket, the timer and what is outstanding

  function Await(s: State, op: Continuation): (t: State)
    ensures RecordOf(t) == RecordOf(s)
  {
    s.(trace := s.trace.(pending := s.trace.pending + multiset{op}))
  }

  /** A handler begins: its continuation is not outstanding any more. */
  function Take(s: State, op: Continuation): (t: State)
    ensures RecordOf(t) == RecordOf(s)
  {
    s.(trace := s.trace.(pending := s.trace.pending - multiset{op}))
  }

  /** Arms the timer for a wait: every earlier one becomes stale. */
  function ArmTimer(s: State, seconds: int): (t: State)
    ensures RecordOf(t) == RecordOf(s)
  {
    s.(timerGeneration := s.timerGeneration + 1,
       trace := s.trace.(timers := s.trace.timers[s.timerGeneration + 1 := seconds]))
  }

  /** Whether a write of all of `w` succeeds: never on a closed socket, nor on one that has failed before, but an
      empty write always does. */
  predicate WriteOk(s: State, w: Wire, io: Io) {
    |w| == 0 || (s.open && !s.broken && io.ok)
  }

  /** What a write delivers: all of it, or a part. */
  function DeliveredPart(s: State, w: Wire, io: Io): Wire {
    if WriteOk(s, w, io) then w
    else if s.open && !s.broken && io.part <= |w| then w[..io.part]
    else []
  }

  function Write(s: State, w: Wire, io: Io): State {
    s.(broken := s.broken || !WriteOk(s, w, io),
       trace := s.trace.(wire := s.trace.wire + DeliveredPart(s, w, io)))
  }

  function Unkept(s: State): (t: State)
    ensures RecordOf(t) == RecordOf(s)
  {
    s.(keepAlive := false)
  }

  function Closed(s: State): State {
    s.(keepAlive := false, open := false)
  }

  // ---------------------------------------------------------------- the end of a response

  /** The request under way and its answer. */
  function Current(s: State): Exchange {
    var t := s.trace;
    Exchange(t.parsed, t.arrived, s.requestCount, t.interim, t.date, t.kept, t.outcome)
  }

  predicate IsReused(s: State, shutdown: bool) {
    s.keepAlive && !s.timedOut && !shutdown
  }

  /** The per-request state is reset.  What is left in the buffer stays: it is the next request, or its beginning. */
  function Reset(s: State): State {
    s.(sentBytes := 0, totalStreamedBytes := 0, declaredContentLength := 0, responseString := [],
       request := EMPTY_REQUEST, response := EMPTY_RESPONSE, responseVersion := V10,
       queryIsFast := false, adminQuery := false, keepAlive := false, expectHandled := false, headRequest := false,
       trace := s.trace.(exchanges := s.trace.exchanges + [Current(s)], interim := false))
  }

  /** Goes on to the next request: the one in the buffer, or one still to come. */
  function Listen(cfg: Config, s: State): (t: State)
    ensures RecordOf(t) == RecordOf(s)
  {
    var pipelined := s.buffer != "";
    Await(ArmTimer(s.(idle := !pipelined), if pipelined then cfg.timeout else cfg.keepAliveTimeout),
          if pipelined then Posted else Read)
  }

  function Concluded(s: State): (t: State)
    ensures RecordOf(t) == RecordOf(s)
  {
    s.(trace := s.trace.(answered := true))
  }

  function FinishResponse(cfg: Config, s: State, shutdown: bool): State {
    if IsReused(s, shutdown) then Listen(cfg, Reset(s)) else Concluded(s)
  }

  // ---------------------------------------------------------------- replies written at once

  function SetServerHeaders(cfg: Config, s: State, now: int): (t: State)
    ensures RecordOf(t) == RecordOf(s) && t.response.status == s.response.status
  {
    var keep := s.keepAlive && !Vetoes(s.responseVersion, s.response);
    s.(keepAlive := keep,
       response := ServerHeaders(cfg, s.responseVersion, s.requestCount, now, keep, s.response),
       trace := s.trace.(date := now))
  }

  /** Only the outcome of the second of the two writes is looked at. */
  function SendSimpleReply(cfg: Config, s: State, env: Env): State
    requires s.response.status.Some?
  {
    var afterHead := Write(s, [Header(HeaderSection(s.response))], env.head);
    var body := Bytes(s.response.content);
    var written := Write(afterHead, body, env.body);
    if s.keepAlive && WriteOk(afterHead, body, env.body) then FinishResponse(cfg, written, env.atFinish)
    else Concluded(Closed(written))
  }

  /** The response to the request under way, and what it is. */
  function Respond(s: State, response: Response, outcome: Outcome): (t: State)
    ensures RecordOf(t) == RecordOf(s).(tooLarge := outcome == Stock(HEADER_FIELDS_TOO_LARGE))
  {
    s.(response := response, trace := s.trace.(outcome := outcome))
  }

  /** A reply of the server's own. */
  function SendOwnReply(cfg: Config, s: State, response: Response, outcome: Outcome, env: Env): State
    requires response.status.Some?
  {
    SendSimpleReply(cfg, SetServerHeaders(cfg, Respond(s, response, outcome), env.now), env)
  }

  function SendStockReply(cfg: Config, s: State, status: int, env: Env): State {
    SendOwnReply(cfg, s, StockOf(cfg, status, s.response), Stock(status), env)
  }

  function SendOptionsReply(cfg: Config, s: State, env: Env): State {
    SendOwnReply(cfg, s, OptionsResponse(cfg), Options, env)
  }

  function Abandoned(s: State): (t: State)
    ensures RecordOf(t) == RecordOf(s)
  {
    s.(trace := s.trace.(answered := false))
  }

  /** The reply under way is cut short: what follows it on the wire is no answer. */
  function AbortReply(cfg: Config, s: State, env: Env): State {
    Abandoned(SendStockReply(cfg, Unkept(s), SERVICE_UNAVAILABLE, env))
  }

  // ---------------------------------------------------------------- a request arrives

  function StartConnection(cfg: Config, s: State): State {
    Await(ArmTimer(s, cfg.timeout), if cfg.encrypted then Handshake else Read)
  }

  function RejectConnection(cfg: Config, s: State, env: Env): State {
    SendStockReply(cfg, Unkept(s).(responseVersion := V10), SERVICE_UNAVAILABLE, env)
  }

  function HandleHandshake(s: State, ok: bool): State {
    var taken := Take(s, Handshake);
    if ok then Await(taken, Read) else taken.(open := false)
  }

  function SelectedPool(s: State): Pool {
    if s.adminQuery then AdminPool else if s.queryIsFast then FastPool else SlowPool
  }

  function Pooled(s: State, fast: bool, admin: bool): (t: State)
    ensures RecordOf(t) == RecordOf(s)
  {
    s.(queryIsFast := fast, adminQuery := admin)
  }

  function ScheduleRequest(cfg: Config, s: State, env: Env): State
    requires env.view.View?
  {
    var view := env.view;
    var selected := Pooled(s, view.frontend || !cfg.hasSlowPool || view.fast, !view.frontend && s.adminQuery);
    if env.scheduled then Await(selected, HandleTask(SelectedPool(selected)))
    else SendStockReply(cfg, selected, if view.frontend then SERVICE_UNAVAILABLE else cfg.highLoad, env)
  }

  /** Counts the request and decides on the version of the reply and on the persistence of the connection. */
  function Negotiate(cfg: Config, s: State, env: Env): (t: State)
    ensures RecordOf(t) == RecordOf(s).(kept := t.trace.kept) && (env.atNegotiate ==> !t.trace.kept)
  {
    var keep := !env.atNegotiate && MayPersist(cfg, s.request, s.requestCount + 1);
    s.(requestCount := s.requestCount + 1, responseVersion := NegotiateVersion(s.request.version), keepAlive := keep,
       trace := s.trace.(kept := keep))
  }

  /** The negotiation comes to nothing. */
  function Declined(s: State): (t: State)
    ensures RecordOf(t) == RecordOf(s).(kept := false)
  {
    s.(keepAlive := false, trace := s.trace.(kept := false))
  }

  function Strip(s: State): (t: State)
    ensures RecordOf(t) == RecordOf(s)
  {
    s.(request := HandlerRequest(s.request), headRequest := s.request.verb == HEAD)
  }

  function Dispatch(cfg: Config, s: State, env: Env): State {
    if s.request.verb == OPTIONS && s.request.resource == "*" then SendOptionsReply(cfg, s, env)
    else if env.view.NoView? then SendStockReply(cfg, s, NOT_FOUND, env)
    else
      var classified := Pooled(s, s.queryIsFast, !env.view.frontend && env.view.admin && cfg.hasAdminPool);
      if !classified.adminQuery && env.highLoad then SendStockReply(cfg, classified, cfg.highLoad, env)
      else ScheduleRequest(cfg, classified, env)
  }

  function HandleParsedRequest(cfg: Config, s: State, env: Env): State {
    if !env.peer then s
    else
      var negotiated := Negotiate(cfg, s, env);
      if negotiated.responseVersion == V11 && !HasHeader(s.request.headers, "Host") then
        SendStockReply(cfg, Declined(negotiated), BAD_REQUEST, env)
      else Dispatch(cfg, Strip(negotiated), env)
  }

  function Examined(s: State): (t: State)
    ensures RecordOf(t) == RecordOf(s)
  {
    s.(expectHandled := true)
  }

  function Told(s: State): (t: State)
    ensures RecordOf(t) == RecordOf(s)
  {
    s.(trace := s.trace.(interim := true))
  }

  /** The interim reply, or the refusal, a client waits for before it sends the body of its request. */
  function HandleExpectContinue(cfg: Config, s: State, env: Env): State {
    if s.expectHandled then Await(s, Read)
    else
      var head := ScanHead(s.buffer);
      if !head.complete then Await(s, Read)
      else
        var handled := Examined(s);
        if head.expectation == "" || NegotiateVersion(head.version) != V11 then Await(handled, Read)
        else if HasToken(head.expectation, "100-continue") then
          var written := Write(handled, [CONTINUE], env.interim);
          if WriteOk(handled, [CONTINUE], env.interim) then
            Await(Told(written), Read)
          else Unkept(written)
        else SendStockReply(cfg, Unkept(handled), EXPECTATION_FAILED, env)
  }

  /** The header section is too large already, and its end is not in sight. */
  predicate TooLarge(cfg: Config, buffer: string) {
    cfg.maxHeaderSize > 0 && |buffer| > cfg.maxHeaderSize && FindBlankLine(buffer, 0) == |buffer|
  }

  function HandleIncompleteRequest(cfg: Config, s: State, env: Env): State {
    if TooLarge(cfg, s.buffer) then
      SendStockReply(cfg, Unkept(s), HEADER_FIELDS_TOO_LARGE, env)
    else HandleExpectContinue(cfg, s, env)
  }

  /** The first octets of a request end the idle time. */
  function LeaveIdle(cfg: Config, s: State): (t: State)
    ensures RecordOf(t) == RecordOf(s)
  {
    var busy := s.(idle := false);
    if s.idle && !s.timedOut then ArmTimer(busy, cfg.timeout) else busy
  }

  function Tallied(s: State, received: nat): (t: State)
    ensures RecordOf(t) == RecordOf(s)
  {
    s.(receivedBytes := received)
  }

  function Arrive(s: State, data: string): State {
    s.(buffer := s.buffer + data, trace := s.trace.(received := s.trace.received + data))
  }

  function TakeRequest(s: State, request: Request, consumed: nat): State
    requires consumed <= |s.buffer|
  {
    s.(request := request, buffer := s.buffer[consumed..], receivedBytes := |s.buffer| - consumed,
       trace := s.trace.(requests := s.trace.requests + [request], parsed := request, arrived := s.buffer,
                          answered := false))
  }

  function ParseBuffer(cfg: Config, s: State, env: Env): State
    requires Usable(cfg)
  {
    assert Consumes(cfg.parse, s.buffer);
    match cfg.parse(s.buffer)
    case Complete(request, consumed) => HandleParsedRequest(cfg, TakeRequest(s, request, consumed), env)
    case Failed => SendStockReply(cfg, s, BAD_REQUEST, env)
    case Incomplete => HandleIncompleteRequest(cfg, s, env)
  }

  predicate IsRead(op: Continuation, ok: bool, data: string) {
    op == Read || (op == Posted && ok && data == "")
  }

  function HandleRead(cfg: Config, s: State, op: Continuation, ok: bool, data: string, env: Env): State
    requires Usable(cfg)
  {
    var taken := Take(s, op);
    if env.atRead then SendStockReply(cfg, taken, cfg.shutdown, env)
    else if !ok then taken
    else
      var busy := Tallied(LeaveIdle(cfg, taken), s.receivedBytes + |data|);
      if cfg.maxRequestSize > 0 && busy.receivedBytes > cfg.maxRequestSize then
        SendStockReply(cfg, busy, ENTITY_TOO_LARGE, env)
      else ParseBuffer(cfg, Arrive(busy, data), env)
  }

  // ---------------------------------------------------------------- the timer fires

  /** A wait is over. */
  function Fired(s: State, generation: nat): (t: State)
    ensures RecordOf(t) == RecordOf(s)
  {
    s.(trace := s.trace.(timers := s.trace.timers - {generation}))
  }

  function Expired(s: State): State {
    s.(timedOut := true)
  }

  function HandleTimer(cfg: Config, s: State, aborted: bool, generation: nat, env: Env): State {
    var fired := Fired(s, generation);
    if aborted || generation != s.timerGeneration then fired
    else if s.idle then Expired(fired).(open := false)
    else SendStockReply(cfg, Unkept(Expired(fired)), REQUEST_TIMEOUT, env)
  }

  // ---------------------------------------------------------------- the handler answers

  function StartRegularReply(cfg: Config, s: State): (t: State)
    ensures RecordOf(t) == RecordOf(s)
  {
    var response := RegularReply(cfg, s.request, s.headRequest, s.response);
    var body := if s.headRequest then [] else Bytes(response.content);
    Await(s.(response := response, responseString := [Header(HeaderSection(response))] + body), WriteRegular)
  }

  function PreparePendingHeaders(cfg: Config, s: State): (t: State)
    ensures RecordOf(t) == RecordOf(s)
  {
    var response := WithStatus(cfg, s.response);
    s.(response := response, pendingHeaders := [Header(HeaderSection(response))])
  }

  function WithChunk(outcome: Outcome, chunk: string): Outcome {
    if outcome.Handled? then outcome.(chunks := outcome.chunks + [chunk]) else outcome
  }

  predicate FlushOk(s: State, env: Env) {
    WriteOk(s, s.pendingHeaders, env.flush)
  }

  function FlushPendingHeaders(s: State, env: Env): State {
    Write(s, s.pendingHeaders, env.flush).(pendingHeaders := [])
  }

  /** A piece of the reply, with the header section in front of it if that was not sent yet. */
  function SendPiece(s: State, piece: string, op: Continuation): (t: State)
    ensures RecordOf(t) == RecordOf(s)
  {
    Await(s.(responseString := s.pendingHeaders + Bytes(piece), pendingHeaders := [], sentBytes := 0), op)
  }

  function Produced(s: State, chunk: string): (t: State)
    ensures RecordOf(t) == RecordOf(s)
  {
    s.(totalStreamedBytes := s.totalStreamedBytes + |chunk|,
       trace := s.trace.(outcome := WithChunk(s.trace.outcome, chunk)))
  }

  function Schedule(cfg: Config, s: State, op: Continuation, env: Env): State {
    if env.scheduled then Await(s, op) else AbortReply(cfg, s, env)
  }

  /** A streamer that ends early, or late, leaves a body that is not framed as announced. */
  function CheckLength(s: State): (t: State)
    ensures RecordOf(t) == RecordOf(s)
  {
    if s.keepAlive && s.totalStreamedBytes != s.declaredContentLength then Unkept(s) else s
  }

  function GetNextChunk(cfg: Config, s: State, status: StreamStatus, env: Env): State {
    if status.StreamOk? && status.chunk != "" then SendPiece(Produced(s, status.chunk), status.chunk, WriteStream)
    else
      var produced := if status.StreamOk? then Produced(s, "") else s;
      var flushed := FlushPendingHeaders(produced, env);
      if !FlushOk(produced, env) then flushed
      else if status.StreamOk? then Schedule(cfg, flushed, ChunkTask(SelectedPool(s)), env)
      else FinishResponse(cfg, CheckLength(flushed), env.atFinish)
  }

  function GetNextChunkedChunk(cfg: Config, s: State, status: StreamStatus, env: Env): State {
    match status
    case StreamOk(chunk) =>
      if chunk != "" then SendPiece(Produced(s, chunk), Chunk(chunk), WriteChunked)
      else
        var produced := Produced(s, "");
        var flushed := FlushPendingHeaders(produced, env);
        if !FlushOk(produced, env) then flushed
        else Schedule(cfg, flushed, ChunkedTask(SelectedPool(s)), env)
    case ExitError => Closed(FlushPendingHeaders(s, env))
    case ExitOk => SendPiece(s, LAST_CHUNK, WriteFinal)
  }

  /** The framing of a stream is announced. */
  function Framing(s: State, length: nat, fields: Fields): (t: State)
    ensures RecordOf(t) == RecordOf(s)
  {
    s.(declaredContentLength := length, response := s.response.(fields := fields))
  }

  function StartChunkedReply(cfg: Config, s: State, first: StreamStatus, env: Env): State {
    var fields := s.response.fields.(transferEncoding := Some("chunked"), contentLength := None);
    GetNextChunkedChunk(cfg, PreparePendingHeaders(cfg, Framing(s, s.declaredContentLength, fields)), first, env)
  }

  function StartStreamReply(cfg: Config, s: State, first: StreamStatus, env: Env): State {
    var length := ContentLength(s.response);
    var fields := s.response.fields.(contentLength := Some(length));
    GetNextChunk(cfg, PreparePendingHeaders(cfg, Framing(s, length, fields)), first, env)
  }

  function StartGatewayReply(cfg: Config, s: State, first: StreamStatus, env: Env): State {
    GetNextChunk(cfg, Unkept(s), first, env)
  }

  function StartReply(cfg: Config, s: State, first: StreamStatus, env: Env): State {
    if !s.headRequest && s.response.streaming && s.response.gateway then StartGatewayReply(cfg, s, first, env)
    else
      var announced := SetServerHeaders(cfg, s, env.now);
      if s.headRequest || !s.response.streaming then StartRegularReply(cfg, announced)
      else if s.response.chunked then StartChunkedReply(cfg, announced, first, env)
      else StartStreamReply(cfg, announced, first, env)
  }

  /** The handler begins: no wait that was started before will act. */
  function Cancelled(s: State): (t: State)
    ensures RecordOf(t) == RecordOf(s)
  {
    s.(timerGeneration := s.timerGeneration + 1)
  }

  function HandleCompletedRead(cfg: Config, s: State, pool: Pool, handler: Handler, first: StreamStatus,
                               env: Env): State {
    var cancelled := Cancelled(Take(s, HandleTask(pool)));
    if s.prematurelyDisconnected then cancelled
    else
      match handler(s.request, s.response)
      case Disconnected => cancelled
      case Refused => SendStockReply(cfg, cancelled, BAD_REQUEST, env)
      case Answered(response) =>
        StartReply(cfg, Respond(cancelled, response, Handled(handler, s.request, response, [])), first, env)
  }

  // ---------------------------------------------------------------- a write completes

  predicate IsWrite(op: Continuation) {
    op.WriteRegular? || op.WriteStream? || op.WriteChunked? || op.WriteFinal?
  }

  /** `n` items of the piece being sent have arrived. */
  function Advance(s: State, n: nat): State
    requires s.sentBytes + n <= |s.responseString|
  {
    s.(sentBytes := s.sentBytes + n,
       trace := s.trace.(wire := s.trace.wire + s.responseString[s.sentBytes..s.sentBytes + n]))
  }

  /** What a write can deliver: something of what is left, and nothing when it fails. */
  predicate CanDeliver(s: State, ok: bool, n: nat) {
    ok ==> s.open && !s.broken && 0 < n && s.sentBytes + n <= |s.responseString|
  }

  function Failing(s: State): State {
    s.(broken := true)
  }

  function Written(cfg: Config, s: State, op: Continuation, ok: bool, n: nat, env: Env): State
    requires IsWrite(op) && CanDeliver(s, ok, n)
  {
    var taken := Take(s, op);
    if !ok then AbortReply(cfg, Failing(taken), env)
    else
      var sent := Advance(taken, n);
      if sent.sentBytes < |sent.responseString| then Await(sent, op)
      else match op
        case WriteStream => Schedule(cfg, sent, ChunkTask(SelectedPool(s)), env)
        case WriteChunked => Schedule(cfg, sent, ChunkedTask(SelectedPool(s)), env)
        case _ => FinishResponse(cfg, sent, env.atFinish)
  }

  // ---------------------------------------------------------------- runs

  datatype Input =
    | HandshakeDone(ok: bool)
    | ReadDone(op: Continuation, ok: bool, data: string)
    | TimerFired(aborted: bool, generation: nat)
    | TaskRun(pool: Pool, handler: Handler, first: StreamStatus)
    | ChunkReady(pool: Pool, status: StreamStatus)
    | ChunkedReady(pool: Pool, status: StreamStatus)
    | WriteDone(op: Continuation, ok: bool, n: nat)

  /** What can happen next: something that is outstanding.  A wait is aborted only by a later arming or cancel. */
  predicate Enabled(s: State, input: Input) {
    var pending := s.trace.pending;
    match input
    case HandshakeDone(ok) => Handshake in pending
    case ReadDone(op, ok, data) => op in pending && IsRead(op, ok, data)
    case TimerFired(aborted, generation) =>
      generation in s.trace.timers && (aborted ==> generation != s.timerGeneration)
    case TaskRun(pool, handler, first) => HandleTask(pool) in pending
    case ChunkReady(pool, status) => ChunkTask(pool) in pending
    case ChunkedReady(pool, status) => ChunkedTask(pool) in pending
    case WriteDone(op, ok, n) => op in pending && IsWrite(op) && CanDeliver(s, ok, n)
  }

  function Step(cfg: Config, s: State, input: Input, env: Env): State
    requires Usable(cfg) && Enabled(s, input)
  {
    hide Usable, Take;
    match input
    case HandshakeDone(ok) => HandleHandshake(s, ok)
    case ReadDone(op, ok, data) => HandleRead(cfg, s, op, ok, data, env)
    case TimerFired(aborted, generation) => HandleTimer(cfg, s, aborted, generation, env)
    case TaskRun(pool, handler, first) => HandleCompletedRead(cfg, s, pool, handler, first, env)
    case ChunkReady(pool, status) => GetNextChunk(cfg, Take(s, ChunkTask(pool)), status, env)
    case ChunkedReady(pool, status) => GetNextChunkedChunk(cfg, Take(s, ChunkedTask(pool)), status, env)
    case WriteDone(op, ok, n) => Written(cfg, s, op, ok, n, env)
  }
}
