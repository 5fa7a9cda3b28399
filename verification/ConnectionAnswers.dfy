/** What the client is sent, over every run, in terms of what the handler left. */
module ConnectionAnswers {
  import opened Wrappers
  import opened Text
  import opened HeaderTokens
  import opened RequestHead
  import opened ChunkedCodec
  import opened Messages
  import opened RequestStream
  import opened Replies
  import opened ConnectionModel
  import opened ConnectionInvariants
  import opened ConnectionHistory
  import opened ConnectionSteps
  import opened ConnectionRuns
  import opened ConnectionTheorems
  import opened ConnectionEnds
  import opened ConnectionRequests
  import opened ClientDecoder

  // ---------------------------------------------------------------- the step that puts a buffered reply together

  /** A buffered response is put together as what follows from it: the header section, field by field, and the content
      as content coding made of it. */
  lemma {:induction false} BufferedIsWhole(cfg: Config, s: State, pool: Pool, handler: Handler, first: StreamStatus,
                                           env: Env)
    requires Inv(cfg, s) && HandleTask(pool) in s.trace.pending && !s.timedOut && !s.prematurelyDisconnected
    ensures var t := HandleCompletedRead(cfg, s, pool, handler, first, env);
            var handling := handler(s.request, EMPTY_RESPONSE);
            handling.Answered? && (s.trace.parsed.verb == HEAD || !handling.response.streaming) ==>
              && t.trace.outcome == Handled(handler, s.request, handling.response, [])
              && t.responseString == [Header(ProducedHead(cfg, Current(t)))] + Bytes(ProducedBody(cfg, Current(t)))
  {
    hide Inv, HandleCompletedRead, Reply, ProducedHead, ProducedBody, Bytes;
    var handling := handler(s.request, EMPTY_RESPONSE);
    if handling.Answered? && (s.trace.parsed.verb == HEAD || !handling.response.streaming) {
      BufferedStep(cfg, s, pool, handler, first, env);
      WholeReplyIs(cfg, Current(HandleCompletedRead(cfg, s, pool, handler, first, env)));
    }
  }

  // ---------------------------------------------------------------- what the client reads

  /** A buffered response to a request other than HEAD, with a status that allows a body. */
  predicate HasContent(e: Exchange) {
    && e.outcome.Handled? && e.request.verb != HEAD && !e.outcome.response.streaming
    && e.outcome.response.status.Some? && !StatusHasNoBody(e.outcome.response.status.value)
  }

  /** The client's `message` is the status that the handler chose and the content that it left, as content coding makes
      it of the request the handler was given, the status, the content and the decorated fields: the content itself
      where coding leaves it alone. */
  ghost predicate CarriesContent(cfg: Config, e: Exchange, message: (int, string)) {
    HasContent(e) ==>
      var given, r := e.outcome.given, e.outcome.response;
      && Handed(e.request, given) && e.outcome.handler(given, EMPTY_RESPONSE) == Answered(r)
      && message.0 == r.status.value
      && message.1 == cfg.represent(given, false, r.status, r.content, cfg.decorate(r.fields.other)).0
  }

  lemma {:induction false} ExpectedAt(cfg: Config, exchanges: seq<Exchange>, k: nat)
    requires k < |exchanges|
    ensures |Expected(cfg, exchanges)| == |exchanges|
    ensures Expected(cfg, exchanges)[k] == (ProducedStatus(exchanges[k]), ProducedBody(cfg, exchanges[k]))
    decreases |exchanges|
  {
    hide ProducedStatus, ProducedBody;
    var before := exchanges[..|exchanges| - 1];
    if k < |before| {
      ExpectedAt(cfg, before, k);
    } else {
      ExpectedLength(cfg, before);
    }
  }

  lemma {:induction false} ExpectedLength(cfg: Config, exchanges: seq<Exchange>)
    ensures |Expected(cfg, exchanges)| == |exchanges|
    decreases |exchanges|
  {
    hide ProducedStatus, ProducedBody;
    if exchanges != [] {
      ExpectedLength(cfg, exchanges[..|exchanges| - 1]);
    }
  }

  lemma {:induction false} ProducedCarries(cfg: Config, e: Exchange)
    requires Served(cfg, e)
    ensures CarriesContent(cfg, e, (ProducedStatus(e), ProducedBody(cfg, e)))
  {
    hide Handed, HandlerRequest;
    HandlerIsHanded(e.request);
  }

  /** Content coding leaves what the handler left as it is. */
  predicate Plain(cfg: Config, e: Exchange)
    requires HasContent(e)
  {
    var r := e.outcome.response;
    cfg.represent(e.outcome.given, false, r.status, r.content, cfg.decorate(r.fields.other)).0 == r.content
  }

  lemma {:induction false} PlainIsItself(cfg: Config, e: Exchange, message: (int, string))
    requires CarriesContent(cfg, e, message)
    ensures HasContent(e) && Plain(cfg, e) ==> message.1 == e.outcome.response.content
  {
    hide Handed;
  }

  /** Whenever the connection waits, a client that decodes everything written so far finds for every request that a
      handler answered with a buffered response exactly the content the handler left, as it was coded, and the
      content itself where coding leaves it alone. */
  lemma {:induction false} ContentArrives(cfg: Config, run: Run, i: nat, k: nat)
    requires IsRun(cfg, run) && i < |run.states|
    requires Waits(run.states[i]) && !run.states[i].timedOut && !run.states[i].broken
    requires AllSound(cfg, run.states[i].trace.exchanges) && k < |run.states[i].trace.exchanges|
    ensures var t := run.states[i].trace;
            var decoded := DecodeAll(Heads(t.exchanges), t.wire);
            && decoded.Some? && |decoded.value.messages| == |t.exchanges| == |t.requests|
            && t.exchanges[k].request == t.requests[k]
            && CarriesContent(cfg, t.exchanges[k], decoded.value.messages[k])
            && (HasContent(t.exchanges[k]) && Plain(cfg, t.exchanges[k]) ==>
                  decoded.value.messages[k].1 == t.exchanges[k].outcome.response.content)
  {
    hide IsRun, Waits, AllSound, DecodeAll, Heads, Expected, CarriesContent, Interim, HasContent, Plain, Proper;
    var e := run.states[i].trace.exchanges[k];
    WholeConnectionDecodes(cfg, run, i);
    ExpectedAt(cfg, run.states[i].trace.exchanges, k);
    KeptExchange(cfg, run, i, k, e);
    assert Served(cfg, e) by { KeptServed(cfg, e); }
    ProducedCarries(cfg, e);
    PlainIsItself(cfg, e, (ProducedStatus(e), ProducedBody(cfg, e)));
  }

  lemma {:induction false} KeptServed(cfg: Config, e: Exchange)
    requires Reusable(cfg, e)
    ensures Served(cfg, e)
  {
    hide Served, MayPersist, Asked100, Reuses, AsAnnounced;
  }

  /** ... and so it does for the last reply of a connection. */
  lemma {:induction false} LastContentArrives(cfg: Config, run: Run, i: nat)
    requires IsRun(cfg, run) && i < |run.states|
    requires var s := run.states[i];
             && ReplyUnderWay(s) && s.trace.pending == multiset{} && !s.broken
             && AllSound(cfg, s.trace.exchanges) && Sound(cfg, Current(s)) && HasContent(Current(s))
    ensures var s := run.states[i];
            var decoded := DecodeAll(Heads(s.trace.exchanges + [Current(s)]), s.trace.wire);
            && decoded.Some? && |decoded.value.messages| == |s.trace.exchanges| + 1 && decoded.value.rest == []
            && CarriesContent(cfg, Current(s), decoded.value.messages[|s.trace.exchanges|])
  {
    hide IsRun, Inv, AllSound, DecodeAll, Heads, Expected, CarriesContent, ReplyUnderWay, Current, Sound, Served,
         InRequest, Answer, Transcript;
    EveryRun(cfg, run, i);
    var s := run.states[i];
    var e := Current(s);
    ContentInOnePiece(e);
    LastReplyDecodes(cfg, run, i);
    ExpectedAt(cfg, s.trace.exchanges + [e], |s.trace.exchanges|);
    ReplyShows(cfg, s);
    ProducedCarries(cfg, e);
  }

  lemma {:induction false} ContentInOnePiece(e: Exchange)
    requires HasContent(e)
    ensures !IsPassthrough(e) && !IsCounted(e) && AsAnnounced(e)
  {
    hide Concat;
  }

  // ---------------------------------------------------------------- the header sections on the wire

  /** Where the reply to the `k`-th exchange begins. */
  function ReplyAt(cfg: Config, exchanges: seq<Exchange>, k: nat): nat
    requires k < |exchanges|
  {
    |Transcript(cfg, exchanges[..k])| + |Interim(exchanges[k].interim)|
  }

  lemma {:induction false} TranscriptHas(cfg: Config, exchanges: seq<Exchange>, k: nat)
    requires k < |exchanges|
    ensures Transcript(cfg, exchanges[..k]) + Render(cfg, exchanges[k]) <= Transcript(cfg, exchanges)
    decreases |exchanges|
  {
    hide Render;
    var before := exchanges[..|exchanges| - 1];
    if k < |before| {
      TranscriptHas(cfg, before, k);
      assert before[..k] == exchanges[..k];
    } else {
      assert exchanges[..k] == before;
    }
  }

  lemma {:induction false} HeadOfReply(cfg: Config, before: Wire, e: Exchange, w: Wire)
    requires before + Interim(e.interim) + Reply(cfg, e) <= w
    ensures var n := |before| + |Interim(e.interim)|;
            n < |w| && w[n] == Header(ProducedHead(cfg, e))
  {
    hide Interim, ProducedHead, FinalResponse, WireBody, HeaderSection;
    HeadIsProduced(cfg, e);
    var n := |before| + |Interim(e.interim)|;
    assert (before + Interim(e.interim) + Reply(cfg, e))[n] == Reply(cfg, e)[0];
  }

  /** In every state of every run in which the connection waits or replies, the reply to each request before stands on
      the wire behind the header section that follows from what its handler left. */
  lemma {:induction false} HeadsArrive(cfg: Config, run: Run, i: nat, k: nat)
    requires IsRun(cfg, run) && i < |run.states| && k < |run.states[i].trace.exchanges|
    requires var s := run.states[i]; (Waits(s) || ReplyUnderWay(s)) && !s.timedOut && !s.broken
    ensures var t := run.states[i].trace;
            var n := ReplyAt(cfg, t.exchanges, k);
            n < |t.wire| && t.wire[n] == Header(ProducedHead(cfg, t.exchanges[k]))
  {
    hide IsRun, Inv, Waits, ReplyUnderWay, Transcript, Reply, ProducedHead, Interim, Answer, Current, InRequest, Served,
         History;
    EveryRun(cfg, run, i);
    var s := run.states[i];
    if Waits(s) {
      WaitingState(cfg, s);
    } else {
      ReplyShows(cfg, s);
    }
    var before, e := Transcript(cfg, s.trace.exchanges[..k]), s.trace.exchanges[k];
    TranscriptHas(cfg, s.trace.exchanges, k);
    assert before + Interim(e.interim) + Reply(cfg, e) == before + Render(cfg, e);
    HeadOfReply(cfg, before, e, s.trace.wire);
  }

  /** ... and when the last reply has come to its end, so does that one. */
  lemma {:induction false} LastHeadArrives(cfg: Config, run: Run, i: nat)
    requires IsRun(cfg, run) && i < |run.states|
    requires var s := run.states[i]; ReplyUnderWay(s) && !s.broken && !IsPassthrough(Current(s))
    requires var t := run.states[i].trace;
             |Transcript(cfg, t.exchanges)| + |Interim(t.interim)| < |t.wire|
    ensures var s := run.states[i];
            s.trace.wire[|Transcript(cfg, s.trace.exchanges)| + |Interim(s.trace.interim)|] ==
            Header(ProducedHead(cfg, Current(s)))
  {
    hide IsRun, ReplyUnderWay, Transcript, Reply, ProducedHead, Interim, Current, IsPassthrough;
    var s := run.states[i];
    var e, before := Current(s), Transcript(cfg, s.trace.exchanges) + Interim(s.trace.interim);
    ReplyIsOnWire(cfg, run, i);
    AnswerIsReply(cfg, e);
    HeadOfAnswer(cfg, e, before, s.trace.wire);
  }

  lemma {:induction false} HeadOfAnswer(cfg: Config, e: Exchange, before: Wire, w: Wire)
    requires |before| < |w| && w <= before + Reply(cfg, e)
    ensures w[|before|] == Header(ProducedHead(cfg, e))
  {
    hide ProducedHead, FinalResponse, WireBody, HeaderSection;
    HeadIsProduced(cfg, e);
    assert w[|before|] == (before + Reply(cfg, e))[|before|];
  }

  // ---------------------------------------------------------------- a stream goes on

  /** The streamer of a chunked response is looked at by one task, every other one by another. */
  function NextTask(chunked: bool, pool: Pool): Continuation {
    if chunked then ChunkedTask(pool) else ChunkTask(pool)
  }

  /** From `s` to `t` the streamer is to be asked for more, by the pool that serves the request, or the pool takes no
      more tasks and the reply is broken off. */
  ghost predicate AsksForMore(s: State, t: State, next: Continuation, scheduled: bool) {
    if scheduled then t.trace.pending == multiset{next} && t.open == s.open
    else
      && t.trace.pending == multiset{} && !t.open && t.trace.exchanges == s.trace.exchanges
      && t.trace.outcome == Stock(SERVICE_UNAVAILABLE)
  }

  lemma {:induction false} AwaitsNext(s: State, op: Continuation)
    requires NonePending(s)
    ensures AsksForMore(s, Await(s, op), op, true) && Await(s, op).trace.wire == s.trace.wire
  {
    hide RecordOf;
  }

  lemma {:induction false} EndsHere(s: State)
    ensures var u := Unkept(s);
            !u.keepAlive && u.trace.pending == s.trace.pending && u.trace.exchanges == s.trace.exchanges
    ensures var u := Abandoned(s);
            u.trace.pending == s.trace.pending && u.trace.exchanges == s.trace.exchanges && u.open == s.open &&
            u.trace.outcome == s.trace.outcome
  {
    hide RecordOf;
  }

  lemma {:induction false} ScheduleAsks(cfg: Config, s: State, op: Continuation, env: Env)
    requires NonePending(s)
    ensures AsksForMore(s, Schedule(cfg, s, op, env), op, env.scheduled)
    ensures env.scheduled ==> Schedule(cfg, s, op, env).trace.wire == s.trace.wire
  {
    hide SendStockReply, RecordOf, Unkept, Abandoned, Await;
    AwaitsNext(s, op);
    EndsHere(s);
    EndsHere(SendStockReply(cfg, Unkept(s), SERVICE_UNAVAILABLE, env));
    StockCloses(cfg, Unkept(s), SERVICE_UNAVAILABLE, env);
  }

  lemma {:induction false} AdvancedAside(s: State, op: Continuation, n: nat)
    requires s.trace.pending == multiset{op} && s.sentBytes + n <= |s.responseString|
    ensures var t := Advance(Take(s, op), n);
            && NonePending(t) && t.open == s.open && t.trace.exchanges == s.trace.exchanges
            && t.trace.wire == s.trace.wire + s.responseString[s.sentBytes..s.sentBytes + n]
            && t.sentBytes == s.sentBytes + n && t.responseString == s.responseString
  {
    hide RecordOf;
  }

  lemma {:induction false} PieceAsks(cfg: Config, s: State, op: Continuation, n: nat, env: Env)
    requires Inv(cfg, s) && op in s.trace.pending && (op == WriteStream || op == WriteChunked)
    requires CanDeliver(s, true, n) && s.sentBytes + n == |s.responseString|
    ensures var t := Written(cfg, s, op, true, n, env);
            && AsksForMore(s, t, NextTask(op == WriteChunked, SelectedPool(s)), env.scheduled)
            && (env.scheduled ==> t.trace.wire == s.trace.wire + s.responseString[s.sentBytes..])
  {
    hide Inv, Schedule, SelectedPool, RecordOf, Advance, Take;
    AloneOutstanding(cfg, s, op);
    AdvancedAside(s, op, n);
    TakenSame(s, op);
    ScheduleAsks(cfg, Advance(Take(s, op), n), NextTask(op == WriteChunked, SelectedPool(s)), env);
  }

  lemma {:induction false} AloneOutstanding(cfg: Config, s: State, op: Continuation)
    requires Inv(cfg, s) && op in s.trace.pending
    ensures s.trace.pending == multiset{op}
  {
    hide Inv;
    AloneTaken(cfg, s, op);
  }

  /** Nothing of the header section is held back any more, or it can be written. */
  predicate CanFlush(s: State, env: Env) {
    s.pendingHeaders == [] || (s.open && !s.broken && env.flush.ok)
  }

  lemma {:induction false} FlushedAside(s: State, env: Env)
    requires NonePending(s) && CanFlush(s, env)
    ensures var produced := Produced(s, "");
            var t := FlushPendingHeaders(produced, env);
            && FlushOk(produced, env) && NonePending(t) && t.open == s.open && t.trace.exchanges == s.trace.exchanges
            && t.trace.wire == s.trace.wire + s.pendingHeaders && SelectedPool(produced) == SelectedPool(s)
  {
    hide RecordOf;
  }

  /** A streamer that has nothing to deliver yet is asked again. */
  lemma {:induction false} EmptyAsks(cfg: Config, s: State, chunked: bool, env: Env)
    requires NonePending(s) && CanFlush(s, env)
    ensures var t := if chunked then GetNextChunkedChunk(cfg, s, StreamOk(""), env)
                     else GetNextChunk(cfg, s, StreamOk(""), env);
            && AsksForMore(s, t, NextTask(chunked, SelectedPool(s)), env.scheduled)
            && (env.scheduled ==> t.trace.wire == s.trace.wire + s.pendingHeaders)
  {
    hide Schedule, SelectedPool, RecordOf, Produced, FlushPendingHeaders, FlushOk, CanFlush;
    FlushedAside(s, env);
    ScheduleAsks(cfg, FlushPendingHeaders(Produced(s, ""), env), NextTask(chunked, SelectedPool(s)), env);
  }

  lemma {:induction false} StreamState(cfg: Config, s: State, op: Continuation)
    requires Inv(cfg, s) && op in s.trace.pending && (op.ChunkTask? || op.ChunkedTask?) && !s.timedOut
    ensures s.pendingHeaders == [] && op.pool == SelectedPool(s)
  {
    hide Base, Concludes, Replying, Counted, InChunks, Target;
    assert OpInv(cfg, s, op);
  }

  lemma {:induction false} TakenSame(s: State, op: Continuation)
    ensures var t := Take(s, op);
            && t.open == s.open && t.pendingHeaders == s.pendingHeaders && SelectedPool(t) == SelectedPool(s)
            && t.trace.exchanges == s.trace.exchanges && t.trace.wire == s.trace.wire
            && t.trace.pending == s.trace.pending - multiset{op}
            && t.sentBytes == s.sentBytes && t.responseString == s.responseString
  {
    hide RecordOf;
  }

  lemma {:induction false} EmptyTakenAsks(cfg: Config, s: State, op: Continuation, env: Env)
    requires Inv(cfg, s) && op in s.trace.pending && (op.ChunkTask? || op.ChunkedTask?) && !s.timedOut
    ensures var taken := Take(s, op);
            var t := if op.ChunkedTask? then GetNextChunkedChunk(cfg, taken, StreamOk(""), env)
                     else GetNextChunk(cfg, taken, StreamOk(""), env);
            AsksForMore(s, t, op, env.scheduled) && (env.scheduled ==> t.trace.wire == s.trace.wire)
  {
    hide Inv, RecordOf, Take, SelectedPool, GetNextChunk, GetNextChunkedChunk;
    AloneTaken(cfg, s, op);
    StreamState(cfg, s, op);
    TakenSame(s, op);
    EmptyAsks(cfg, Take(s, op), op.ChunkedTask?, env);
    assert s.trace.wire + [] == s.trace.wire;
  }

  /** In every run: after a piece of a stream that was written whole, and after an empty one, the streamer is asked for
      more by the pool that serves the request, exactly if that takes the task; otherwise the reply is broken off and
      the connection not kept. */
  lemma {:induction false} StreamGoesOn(cfg: Config, run: Run, i: nat)
    requires IsRun(cfg, run) && i < |run.events| && !run.states[i].timedOut
    ensures var s, t, env := run.states[i], run.states[i + 1], run.events[i].env;
            match run.events[i].input
            case WriteDone(op, ok, n) =>
              (op == WriteStream || op == WriteChunked) && ok && s.sentBytes + n == |s.responseString| ==>
                AsksForMore(s, t, NextTask(op == WriteChunked, SelectedPool(s)), env.scheduled) &&
                (env.scheduled ==> t.trace.wire == s.trace.wire + s.responseString[s.sentBytes..])
            case ChunkReady(pool, status) =>
              status == StreamOk("") ==>
                AsksForMore(s, t, ChunkTask(pool), env.scheduled) && (env.scheduled ==> t.trace.wire == s.trace.wire)
            case ChunkedReady(pool, status) =>
              status == StreamOk("") ==>
                AsksForMore(s, t, ChunkedTask(pool), env.scheduled) && (env.scheduled ==> t.trace.wire == s.trace.wire)
            case _ => true
  {
    hide Usable, StartConnection, Inv, AsksForMore, GetNextChunk, GetNextChunkedChunk, Written, Take, SelectedPool,
         HandleRead, HandleTimer, HandleCompletedRead, HandleHandshake;
    EveryRun(cfg, run, i);
    assert Reached(cfg, run, i + 1);
    var s, env := run.states[i], run.events[i].env;
    match run.events[i].input
    case WriteDone(op, ok, n) =>
      if (op == WriteStream || op == WriteChunked) && ok && s.sentBytes + n == |s.responseString| {
        PieceAsks(cfg, s, op, n, env);
      }
    case ChunkReady(pool, status) =>
      if status == StreamOk("") {
        EmptyTakenAsks(cfg, s, ChunkTask(pool), env);
      }
    case ChunkedReady(pool, status) =>
      if status == StreamOk("") {
        EmptyTakenAsks(cfg, s, ChunkedTask(pool), env);
      }
    case _ =>
  }

  // ---------------------------------------------------------------- a stream begins

  /** The handler answers with a response that is streamed. */
  predicate Streams(s: State, handling: Handling) {
    handling.Answered? && handling.response.streaming && s.trace.parsed.verb != HEAD
  }

  predicate InChunksIs(r: Response) {
    r.chunked && !r.gateway
  }

  /** `x` is what the streamer is first looked at in: nothing was sent, and the header section is held back. */
  ghost predicate Begun(s: State, outcome: Outcome, x: State) {
    && NonePending(x) && x.trace.outcome == outcome && SelectedPool(x) == SelectedPool(s)
    && x.open == s.open && x.broken == s.broken && x.timedOut == s.timedOut
    && x.trace.wire == s.trace.wire && x.trace.exchanges == s.trace.exchanges && x.trace.interim == s.trace.interim
    && x.trace.requests == s.trace.requests
  }

  lemma {:induction false} RespondedBegins(s: State, op: Continuation, response: Response, outcome: Outcome)
    requires s.trace.pending == multiset{op}
    ensures var x := Respond(Cancelled(Take(s, op)), response, outcome);
            Begun(s, outcome, x) && x.response == response && x.headRequest == s.headRequest
  {
    hide RecordOf;
  }

  lemma {:induction false} HeadersBegin(cfg: Config, s: State, outcome: Outcome, x: State, now: int)
    requires Begun(s, outcome, x)
    ensures var y := SetServerHeaders(cfg, x, now);
            && Begun(s, outcome, y) && y.response.chunked == x.response.chunked
            && y.response.streaming == x.response.streaming && y.headRequest == x.headRequest
  {
    hide Vetoes, ServerHeaders, RecordOf;
    var keep := x.keepAlive && !Vetoes(x.responseVersion, x.response);
    HeadersAside(cfg, x.responseVersion, x.requestCount, now, keep, x.response);
  }

  lemma {:induction false} UnkeptBegins(s: State, outcome: Outcome, x: State)
    requires Begun(s, outcome, x)
    ensures Begun(s, outcome, Unkept(x))
  {
    hide RecordOf;
  }

  lemma {:induction false} FramedBegins(s: State, outcome: Outcome, x: State, length: nat, fields: Fields)
    requires Begun(s, outcome, x)
    ensures Begun(s, outcome, Framing(x, length, fields))
  {
    hide RecordOf;
  }

  lemma {:induction false} PreparedBegins(cfg: Config, s: State, outcome: Outcome, x: State)
    requires Begun(s, outcome, x)
    ensures Begun(s, outcome, PreparePendingHeaders(cfg, x))
  {
    hide RecordOf, HeaderSection, WithStatus;
  }

  lemma {:induction false} HeldBegins(cfg: Config, s: State, outcome: Outcome, x: State)
    requires Begun(s, outcome, x)
    ensures Begun(s, outcome, Prepared(cfg, x))
  {
    hide Begun, Framing, PreparePendingHeaders, ContentLength, RecordOf;
    var fields := x.response.fields;
    var length := ContentLength(x.response);
    var chunked := fields.(transferEncoding := Some("chunked"), contentLength := None);
    FramedBegins(s, outcome, x, x.declaredContentLength, chunked);
    PreparedBegins(cfg, s, outcome, Framing(x, x.declaredContentLength, chunked));
    FramedBegins(s, outcome, x, length, fields.(contentLength := Some(length)));
    PreparedBegins(cfg, s, outcome, Framing(x, length, fields.(contentLength := Some(length))));
  }

  /** The first look at the streamer, for each kind of stream. */
  lemma {:induction false} StreamLooks(cfg: Config, s: State, pool: Pool, handler: Handler, first: StreamStatus,
                                       env: Env)
    returns (x: State)
    requires Inv(cfg, s) && HandleTask(pool) in s.trace.pending && !s.timedOut && !s.prematurelyDisconnected
    requires Streams(s, handler(s.request, EMPTY_RESPONSE))
    ensures var r := handler(s.request, EMPTY_RESPONSE).response;
            && Begun(s, Handled(handler, s.request, r, []), x)
            && HandleCompletedRead(cfg, s, pool, handler, first, env) ==
               if InChunksIs(r) then GetNextChunkedChunk(cfg, x, first, env) else GetNextChunk(cfg, x, first, env)
  {
    hide Inv, Ready, Begun, SetServerHeaders, Unkept, Respond, Cancelled, Take, PreparePendingHeaders, Framing,
         GetNextChunk, GetNextChunkedChunk, RecordOf, ContentLength;
    TaskState(cfg, s, pool);
    TaskAlone(cfg, s, pool);
    ReadyResponse(cfg, s);
    ReadyHead(cfg, s);
    var r := handler(s.request, EMPTY_RESPONSE).response;
    var outcome := Handled(handler, s.request, r, []);
    var answered := Respond(Cancelled(Take(s, HandleTask(pool))), r, outcome);
    RespondedBegins(s, HandleTask(pool), r, outcome);
    HeadersBegin(cfg, s, outcome, answered, env.now);
    if r.gateway {
      UnkeptBegins(s, outcome, answered);
      x := Unkept(answered);
    } else {
      var announced := SetServerHeaders(cfg, answered, env.now);
      HeldBegins(cfg, s, outcome, announced);
      x := Prepared(cfg, announced);
    }
  }

  /** What the first piece of a stream looks like when it is to be written. */
  function FirstPiece(cfg: Config, e: Exchange, chunk: string): Wire
    requires e.outcome.Handled?
  {
    var r := e.outcome.response;
    (if r.gateway then [] else [Header(ProducedHead(cfg, e))]) +
    Bytes(if InChunksIs(r) then Chunk(chunk) else chunk)
  }

  lemma {:induction false} FirstPieceSent(s: State, outcome: Outcome, x: State, chunk: string, op: Continuation)
    requires Begun(s, outcome, x) && outcome.Handled?
    ensures var t := SendPiece(Produced(x, chunk), if op == WriteChunked then Chunk(chunk) else chunk, op);
            && t.trace.pending == multiset{op} && t.trace.outcome == outcome.(chunks := outcome.chunks + [chunk])
            && t.sentBytes == 0 && t.trace.wire == s.trace.wire && t.timedOut == s.timedOut && t.broken == s.broken
            && t.trace.exchanges == s.trace.exchanges && t.trace.interim == s.trace.interim
  {
    hide RecordOf, Chunk, Bytes;
  }

  lemma {:induction false} OnePiece(chunk: string)
    requires chunk != ""
    ensures Concat([] + [chunk]) == chunk && Framed([] + [chunk]) == Chunk(chunk)
  {
    hide Chunk;
    var chunks := [] + [chunk];
    assert chunks[..0] == [] && chunks[|chunks| - 1] == chunk;
    assert Framed([]) == "" && Concat([]) == "";
    assert "" + Chunk(chunk) == Chunk(chunk) && "" + chunk == chunk;
  }

  /** The invariant knows what the piece being sent is. */
  lemma {:induction false} FirstPieceIs(cfg: Config, t: State, op: Continuation, chunk: string, before: Wire)
    requires Inv(cfg, t) && op in t.trace.pending && !t.timedOut && !t.broken && t.sentBytes == 0 && chunk != ""
    requires t.trace.outcome.Handled? && t.trace.outcome.chunks == [] + [chunk]
    requires op == if InChunksIs(t.trace.outcome.response) then WriteChunked else WriteStream
    requires t.trace.wire == before == Prologue(cfg, t.trace)
    ensures t.responseString == FirstPiece(cfg, Current(t), chunk)
  {
    hide Inv, Prologue, Framed, Concat, Chunk, Bytes, ProducedHead, FinalResponse, HeaderSection, Replying;
    ReplyingState(cfg, t, op);
    OnePiece(chunk);
    HeadIsProduced(cfg, Current(t));
    var piece := FirstPiece(cfg, Current(t), chunk);
    assert Target(cfg, t, op) == before + piece;
    assert t.responseString[0..] == t.responseString;
    assert before + t.responseString == before + piece;
    SameTail(before, t.responseString, piece);
  }

  lemma {:induction false} SameTail(before: Wire, one: Wire, other: Wire)
    requires before + one == before + other
    ensures one == other
  {
    assert (before + one)[|before|..] == one && (before + other)[|before|..] == other;
  }

  lemma {:induction false} WaitsBehind(cfg: Config, s: State, t: State)
    requires Ready(cfg, s) && !s.timedOut && !s.broken
    requires t.trace.exchanges == s.trace.exchanges && t.trace.interim == s.trace.interim
    ensures s.trace.wire == Prologue(cfg, t.trace)
  {
    hide InRequest, HandlerRequest, Transcript;
  }

  /** What the first look at the streamer of `r` leads to, from `s` to `t`. */
  ghost predicate StreamStarts(cfg: Config, s: State, t: State, r: Response, pool: Pool, first: StreamStatus,
                               env: Env) {
    match first
    case StreamOk(chunk) =>
      if chunk != "" then
        && t.trace.pending == multiset{if InChunksIs(r) then WriteChunked else WriteStream}
        && t.trace.wire == s.trace.wire && t.sentBytes == 0
        && t.trace.outcome.Handled? && t.trace.outcome.response == r && t.trace.outcome.chunks == [] + [chunk]
        && (!s.broken ==> t.responseString == FirstPiece(cfg, Current(t), chunk))
      else s.open && !s.broken && env.flush.ok ==> AsksForMore(s, t, NextTask(InChunksIs(r), pool), env.scheduled)
    case _ =>
      if !InChunksIs(r) then s.open && !s.broken && env.flush.ok ==> ReplyEnds(s, t)
      else first == ExitOk ==> t.trace.pending == multiset{WriteFinal}
  }

  lemma {:induction false} PieceStarts(cfg: Config, s: State, pool: Pool, handler: Handler, chunk: string, env: Env)
    requires Inv(cfg, s) && Usable(cfg) && HandleTask(pool) in s.trace.pending && !s.timedOut
    requires !s.prematurelyDisconnected && Streams(s, handler(s.request, EMPTY_RESPONSE)) && chunk != ""
    ensures StreamStarts(cfg, s, HandleCompletedRead(cfg, s, pool, handler, StreamOk(chunk), env),
                         handler(s.request, EMPTY_RESPONSE).response, pool, StreamOk(chunk), env)
  {
    hide Inv, Usable, Begun, SendPiece, Produced, HandleCompletedRead, FirstPiece, Chunk, Current, Ready, AsksForMore;
    var r := handler(s.request, EMPTY_RESPONSE).response;
    var outcome, op := Handled(handler, s.request, r, []), if InChunksIs(r) then WriteChunked else WriteStream;
    var x := StreamLooks(cfg, s, pool, handler, StreamOk(chunk), env);
    FirstPieceSent(s, outcome, x, chunk, op);
    var t := HandleCompletedRead(cfg, s, pool, handler, StreamOk(chunk), env);
    assert t == SendPiece(Produced(x, chunk), if op == WriteChunked then Chunk(chunk) else chunk, op);
    if !s.broken {
      CompletedKeeps(cfg, s, pool, handler, StreamOk(chunk), env);
      TaskState(cfg, s, pool);
      WaitsBehind(cfg, s, t);
      FirstPieceIs(cfg, t, op, chunk, s.trace.wire);
    }
  }

  lemma {:induction false} BegunFlushes(s: State, outcome: Outcome, x: State, env: Env)
    requires Begun(s, outcome, x) && s.open && !s.broken && env.flush.ok
    ensures NonePending(x) && CanFlush(x, env) && SelectedPool(x) == SelectedPool(s)
  {
  }

  lemma {:induction false} AsksFrom(s: State, outcome: Outcome, x: State, t: State, next: Continuation, scheduled: bool)
    requires Begun(s, outcome, x) && AsksForMore(x, t, next, scheduled)
    ensures AsksForMore(s, t, next, scheduled)
  {
  }

  lemma {:induction false} FlushedEnd(s: State, env: Env)
    requires CanFlush(s, env)
    ensures FlushOk(s, env)
    ensures var t := CheckLength(FlushPendingHeaders(s, env));
            && t.trace.pending == s.trace.pending && t.timedOut == s.timedOut
            && t.trace.exchanges == s.trace.exchanges && UnderWay(t) == UnderWay(s)
  {
    hide RecordOf;
  }

  lemma {:induction false} BegunUnderWay(cfg: Config, s: State, outcome: Outcome, x: State)
    requires Begun(s, outcome, x) && Ready(cfg, s)
    ensures UnderWay(x) && NonePending(x) && x.trace.exchanges == s.trace.exchanges && x.timedOut == s.timedOut
  {
    hide HandlerRequest, Shows, MayPersist;
  }

  /** A streamer that has nothing to deliver at all ends the reply. */
  lemma {:induction false} NothingToStream(cfg: Config, s: State, outcome: Outcome, x: State, first: StreamStatus,
                                           env: Env)
    requires Begun(s, outcome, x) && Ready(cfg, s) && !s.timedOut && s.trace.pending != multiset{}
    requires s.open && !s.broken && env.flush.ok && !first.StreamOk?
    ensures ReplyEnds(s, GetNextChunk(cfg, x, first, env))
  {
    hide Begun, Ready, ReplyEnds, FinishResponse, RecordOf, UnderWay, FlushPendingHeaders, FlushOk, CheckLength,
         CanFlush;
    BegunFlushes(s, outcome, x, env);
    BegunUnderWay(cfg, s, outcome, x);
    FlushedEnd(x, env);
    FinishEnds(cfg, s, CheckLength(FlushPendingHeaders(x, env)), env.atFinish);
  }

  lemma {:induction false} OtherStarts(cfg: Config, s: State, pool: Pool, handler: Handler, first: StreamStatus,
                                       env: Env)
    requires Inv(cfg, s) && HandleTask(pool) in s.trace.pending && !s.timedOut
    requires !s.prematurelyDisconnected && Streams(s, handler(s.request, EMPTY_RESPONSE))
    requires first == ExitOk || first == ExitError || first == StreamOk("")
    ensures StreamStarts(cfg, s, HandleCompletedRead(cfg, s, pool, handler, first, env),
                         handler(s.request, EMPTY_RESPONSE).response, pool, first, env)
  {
    hide Inv, Begun, SendPiece, HandleCompletedRead, Current, AsksForMore, GetNextChunk,
         SelectedPool, CanFlush, LAST_CHUNK, Bytes, ReplyEnds, Ready;
    var r := handler(s.request, EMPTY_RESPONSE).response;
    var outcome := Handled(handler, s.request, r, []);
    var x := StreamLooks(cfg, s, pool, handler, first, env);
    if !first.StreamOk? && !InChunksIs(r) {
      if s.open && !s.broken && env.flush.ok {
        TaskState(cfg, s, pool);
        NothingToStream(cfg, s, outcome, x, first, env);
      }
    } else if first == ExitOk {
      PiecePlainly(x, LAST_CHUNK, WriteFinal) by {
        assert NonePending(x) by { BegunAlone(s, outcome, x); }
      }
    } else if first.StreamOk? && s.open && !s.broken && env.flush.ok {
      BegunFlushes(s, outcome, x, env);
      EmptyAsks(cfg, x, InChunksIs(r), env);
      PoolOfTask(cfg, s, pool);
      AsksFrom(s, outcome, x, HandleCompletedRead(cfg, s, pool, handler, first, env), NextTask(InChunksIs(r), pool),
               env.scheduled);
    }
  }

  lemma {:induction false} BegunAlone(s: State, outcome: Outcome, x: State)
    requires Begun(s, outcome, x)
    ensures NonePending(x)
  {
  }

  lemma {:induction false} PoolOfTask(cfg: Config, s: State, pool: Pool)
    requires Inv(cfg, s) && HandleTask(pool) in s.trace.pending
    ensures pool == SelectedPool(s)
  {
    hide Base, Ready, Timed, Concludes, SelectedPool;
    assert OpInv(cfg, s, HandleTask(pool));
  }

  /** In every run: the first look at the streamer of a response begins the write of what it delivered, framed as the
      response says and behind the header section that follows from it, which the whole response of a backend has of
      its own; a streamer with nothing to deliver yet is asked again; and of one that has nothing to deliver at all the
      reply ends, or is given its last chunk. */
  lemma {:induction false} StreamIsBegun(cfg: Config, run: Run, i: nat)
    requires IsRun(cfg, run) && i < |run.events| && run.events[i].input.TaskRun?
    requires var s := run.states[i];
             && !s.timedOut && !s.prematurelyDisconnected
             && Streams(s, run.events[i].input.handler(s.request, EMPTY_RESPONSE))
    ensures var s, input := run.states[i], run.events[i].input;
            StreamStarts(cfg, s, run.states[i + 1], input.handler(s.request, EMPTY_RESPONSE).response, input.pool,
                         input.first, run.events[i].env)
  {
    hide Usable, StartConnection, Inv, StreamStarts, HandleCompletedRead, Streams;
    EveryRun(cfg, run, i);
    assert Reached(cfg, run, i + 1);
    var s, input, env := run.states[i], run.events[i].input, run.events[i].env;
    if input.first.StreamOk? && input.first.chunk != "" {
      PieceStarts(cfg, s, input.pool, input.handler, input.first.chunk, env);
    } else {
      OtherStarts(cfg, s, input.pool, input.handler, input.first, env);
    }
  }

  // ---------------------------------------------------------------- when the connection is kept

  /** The response lets the connection persist: no handler said otherwise, its framing is one the client knows, and it
      is not a backend's response that is handed through. */
  predicate Permits(e: Exchange) {
    e.outcome.Handled? ==>
      var r := e.outcome.response;
      && !(r.chunked && NegotiateVersion(e.request.version) == V10)
      && !(r.fields.connection.Some? && exists x :: x in Elements(r.fields.connection.value) && Lower(x) == "close")
      && !(r.streaming && r.gateway && e.request.verb != HEAD)
  }

  /** A stream whose length was announced has delivered that length. */
  predicate KeepsToLength(e: Exchange) {
    e.outcome.Handled? ==>
      var r := e.outcome.response;
      r.streaming && !r.chunked && !r.gateway && e.request.verb != HEAD ==> |Concat(e.outcome.chunks)| == r.streamLength
  }

  lemma {:induction false} ReusesIs(e: Exchange)
    ensures Reuses(e) <==> e.keep && Permits(e)
    ensures Permits(e) ==> (AsAnnounced(e) <==> KeepsToLength(e))
  {
    hide NegotiateVersion, Elements, Lower, Concat;
  }

  /** In every run, whenever a reply of whatever kind comes to its end on a socket that works: the connection is kept if
      and only if that was negotiated for the request, nothing in the response rules it out, a stream delivered the
      length it announced, and the server is not seen to shut down. */
  lemma {:induction false} KeptIff(cfg: Config, run: Run, i: nat)
    requires IsRun(cfg, run) && i < |run.events|
    requires ReplyEnds(run.states[i], run.states[i + 1]) && !run.states[i + 1].timedOut && !run.states[i + 1].broken
    ensures var s, t, e := run.states[i], run.states[i + 1], EndedExchange(run.states[i], run.states[i + 1]);
            t.trace.exchanges ==
            if e.keep && Permits(e) && KeepsToLength(e) && !run.events[i].env.atFinish then s.trace.exchanges + [e]
            else s.trace.exchanges
  {
    hide IsRun, ReplyEnds, EndedExchange, Reuses, AsAnnounced, Permits, KeepsToLength;
    KeptExactly(cfg, run, i);
    RunLength(cfg, run);
    ReusesIs(EndedExchange(run.states[i], run.states[i + 1]));
  }
}
