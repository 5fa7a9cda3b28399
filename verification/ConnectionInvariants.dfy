/** What every step of a connection keeps, whatever the outside does. */
module ConnectionInvariants {
  import opened Wrappers
  import opened Text
  import opened HeaderTokens
  import opened RequestHead
  import opened ChunkedCodec
  import opened Messages
  import opened RequestStream
  import opened Replies
  import opened ConnectionModel

  // ---------------------------------------------------------------- invariants

  /** What was written before the final reply to the request under way. */
  function Prologue(cfg: Config, t: Trace): Wire {
    Transcript(cfg, t.exchanges) + Interim(t.interim)
  }

  /** The exchanges are those of the requests, in order and numbered; at most one request is under way. */
  predicate History(cfg: Config, requests: seq<Request>, exchanges: seq<Exchange>) {
    && |exchanges| <= |requests| <= |exchanges| + 1
    && forall i {:trigger Reusable(cfg, exchanges[i])} :: 0 <= i < |exchanges| ==>
         Reusable(cfg, exchanges[i]) && exchanges[i].request == requests[i] && exchanges[i].count == i + 1
  }

  ghost predicate Base(cfg: Config, s: State) {
    && Usable(cfg)
    && ReadsAs(cfg.parse, s.trace.received, s.trace.requests, s.buffer)
    && History(cfg, s.trace.requests, s.trace.exchanges)
    && (|s.trace.requests| > |s.trace.exchanges| ==> s.trace.parsed == s.trace.requests[|s.trace.exchanges|])
    && (forall g :: g in s.trace.timers ==> g <= s.timerGeneration)
    && (s.timedOut ==> !s.open)
    && Prompted(s)
  }

  /** A request was parsed and is not one of those after which the connection was kept. */
  predicate UnderWay(s: State) {
    |s.trace.requests| > |s.trace.exchanges|
  }

  /** A 100 Continue was sent only to a request whose head, as far as it was received, asks for one. */
  predicate Prompted(s: State) {
    s.trace.interim ==> Asked100(if UnderWay(s) then s.trace.arrived else s.buffer)
  }

  /** The wire holds exactly `w`, or what of it got through before a write failed. */
  predicate Shows(s: State, w: Wire) {
    s.trace.wire <= w && (!s.broken ==> s.trace.wire == w)
  }

  /** The per-request fields are as a new connection has them. */
  predicate Fresh(s: State) {
    && s.sentBytes == s.totalStreamedBytes == s.declaredContentLength == 0
    && s.responseString == s.pendingHeaders == []
    && s.request == EMPTY_REQUEST && s.responseVersion == V10
    && !s.queryIsFast && !s.adminQuery && !s.keepAlive && !s.headRequest
  }

  /** Between requests, or in the middle of one. */
  predicate Reading(cfg: Config, s: State) {
    && Fresh(s)
    && |s.trace.requests| == |s.trace.exchanges| == s.requestCount
    && s.receivedBytes == |s.buffer|
    && (s.trace.interim ==> s.expectHandled)
    && (s.expectHandled ==> ScanHead(s.buffer).complete)
    && (!s.timedOut ==> s.open && s.response == EMPTY_RESPONSE && Shows(s, Prologue(cfg, s.trace)))
  }

  /** The wait that is under way is bounded. */
  predicate Timed(s: State, seconds: int) {
    !s.timedOut ==> s.timerGeneration in s.trace.timers && s.trace.timers[s.timerGeneration] == seconds
  }

  /** A request has been parsed. */
  predicate InRequest(cfg: Config, s: State) {
    var t := s.trace;
    && |t.requests| == |t.exchanges| + 1 == s.requestCount
    && s.receivedBytes == |s.buffer|
    && cfg.parse(t.arrived).Complete? && cfg.parse(t.arrived).request == t.parsed
    && s.responseVersion == NegotiateVersion(t.parsed.version)
    && (t.kept ==> MayPersist(cfg, t.parsed, s.requestCount))
    && (t.kept && s.responseVersion == V11 ==> HasHeader(t.parsed.headers, "Host"))
    && (s.keepAlive ==> t.kept)
  }

  /** The request is ready for its handler. */
  predicate Ready(cfg: Config, s: State) {
    && InRequest(cfg, s)
    && s.request == HandlerRequest(s.trace.parsed) && s.headRequest == (s.trace.parsed.verb == HEAD)
    && s.sentBytes == s.totalStreamedBytes == s.declaredContentLength == 0 && s.pendingHeaders == []
    && (!s.timedOut ==> s.open && s.response == EMPTY_RESPONSE && s.keepAlive == s.trace.kept &&
                        Shows(s, Prologue(cfg, s.trace)))
  }

  /** The handler has answered, and no timer can interfere with the reply. */
  predicate Replying(cfg: Config, s: State) {
    && InRequest(cfg, s)
    && s.timerGeneration !in s.trace.timers
    && (!s.timedOut ==> s.open && Obeyed(s.trace.outcome) && s.trace.outcome.given == HandlerRequest(s.trace.parsed) &&
                        (s.keepAlive <==> Reuses(Current(s))))
  }

  predicate Streaming(s: State) {
    && s.trace.outcome.Handled? && !InOnePiece(Current(s))
    && s.totalStreamedBytes == |Concat(s.trace.outcome.chunks)|
  }

  /** The reply is streamed with a length announced, or handed through as it is. */
  predicate Counted(s: State) {
    && Streaming(s)
    && (!IsPassthrough(Current(s)) ==>
          !s.trace.outcome.response.chunked && s.declaredContentLength == s.trace.outcome.response.streamLength)
    && (IsPassthrough(Current(s)) ==> !s.keepAlive)
  }

  predicate InChunks(s: State) {
    Streaming(s) && s.trace.outcome.response.chunked && !s.trace.outcome.response.gateway
  }

  /** The header section of a streamed reply: none when the content is a whole response. */
  function StreamHead(cfg: Config, e: Exchange): Wire {
    if IsPassthrough(e) then [] else [Header(HeaderSection(FinalResponse(cfg, e)))]
  }

  /** What is on the wire once the current piece of a streamed reply has arrived. */
  function StreamedSoFar(cfg: Config, t: Trace, e: Exchange, body: string): Wire {
    Prologue(cfg, t) + StreamHead(cfg, e) + Bytes(body)
  }

  /** What is on the wire once the piece being sent has arrived. */
  function Target(cfg: Config, s: State, op: Continuation): Wire {
    var chunks := if s.trace.outcome.Handled? then s.trace.outcome.chunks else [];
    if op.WriteStream? || op.ChunkTask? then StreamedSoFar(cfg, s.trace, Current(s), Concat(chunks))
    else if op.WriteChunked? || op.ChunkedTask? then StreamedSoFar(cfg, s.trace, Current(s), Framed(chunks))
    else Prologue(cfg, s.trace) + Reply(cfg, Current(s))
  }

  /** The reply has begun: what came before it is on the wire. */
  predicate Past(cfg: Config, s: State) {
    |Prologue(cfg, s.trace)| <= |s.trace.wire|
  }

  /** A piece of the reply is on its way. */
  predicate Sending(cfg: Config, s: State, op: Continuation) {
    && s.sentBytes < |s.responseString| && s.pendingHeaders == []
    && (!s.broken ==> s.trace.wire + s.responseString[s.sentBytes..] == Target(cfg, s, op) && Past(cfg, s))
  }

  /** The pieces sent so far have arrived. */
  predicate Arrived(cfg: Config, s: State, op: Continuation) {
    && s.pendingHeaders == [] && (s.keepAlive ==> !s.broken)
    && (!s.broken ==> s.trace.wire == Target(cfg, s, op))
  }

  /** A head that is complete has been looked at for what it expects. */
  predicate Examines(s: State) {
    ScanHead(s.buffer).complete ==> s.expectHandled
  }

  /** What holds while a continuation is outstanding. */
  predicate OpInv(cfg: Config, s: State, op: Continuation) {
    match op
    case Handshake => Reading(cfg, s) && !s.idle && s.buffer == "" && Timed(s, cfg.timeout)
    case Read =>
      && Reading(cfg, s) && cfg.parse(s.buffer).Incomplete? && Examines(s)
      && (s.idle ==> s.buffer == "" && s.trace.exchanges != [] && !s.expectHandled)
      && Timed(s, if s.idle then cfg.keepAliveTimeout else cfg.timeout)
    case Posted => Reading(cfg, s) && !s.idle && s.buffer != "" && !s.expectHandled && Timed(s, cfg.timeout)
    case HandleTask(pool) => Ready(cfg, s) && !s.idle && pool == SelectedPool(s) && Timed(s, cfg.timeout)
    case ChunkTask(pool) =>
      Replying(cfg, s) && pool == SelectedPool(s) && (!s.timedOut ==> Counted(s) && Arrived(cfg, s, op))
    case ChunkedTask(pool) =>
      Replying(cfg, s) && pool == SelectedPool(s) && (!s.timedOut ==> InChunks(s) && Arrived(cfg, s, op))
    case WriteRegular =>
      Replying(cfg, s) && (!s.timedOut ==> InOnePiece(Current(s)) && Sending(cfg, s, op))
    case WriteStream => Replying(cfg, s) && (!s.timedOut ==> Counted(s) && Sending(cfg, s, op))
    case WriteChunked => Replying(cfg, s) && (!s.timedOut ==> InChunks(s) && Sending(cfg, s, op))
    case WriteFinal => Replying(cfg, s) && (!s.timedOut ==> InChunks(s) && Sending(cfg, s, op))
  }

  /** All of the answer to the request under way is on the wire. */
  predicate AnswerSent(cfg: Config, s: State) {
    && InRequest(cfg, s) && Served(cfg, Current(s))
    && (!s.broken ==> s.trace.wire == Prologue(cfg, s.trace) + Answer(cfg, Current(s)))
  }

  /** When nothing is outstanding any more, what was last said to be answered was. */
  predicate Concludes(cfg: Config, s: State) {
    s.trace.answered && UnderWay(s) && !s.timedOut ==> AnswerSent(cfg, s)
  }

  predicate Unanswered(s: State) {
    !s.timedOut ==> !s.trace.answered
  }

  /** At most one continuation is outstanding, and the state is what it relies on. */
  ghost predicate Inv(cfg: Config, s: State) {
    && Base(cfg, s) && |s.trace.pending| <= 1
    && (if s.trace.pending == multiset{} then Concludes(cfg, s) else Unanswered(s))
    && forall op {:trigger OpInv(cfg, s, op)} :: op in s.trace.pending ==> OpInv(cfg, s, op)
  }

  /** A handler has begun, and nothing is outstanding. */
  ghost predicate Running(cfg: Config, s: State) {
    Base(cfg, s) && s.trace.pending == multiset{} && Unanswered(s)
  }

  lemma {:induction false} Awaiting(cfg: Config, s: State, op: Continuation)
    requires Running(cfg, s) && OpInv(cfg, Await(s, op), op)
    ensures Inv(cfg, Await(s, op))
  {
    hide OpInv, Usable, ReadsAs, History;
    assert Await(s, op).trace.pending == multiset{op};
  }

  lemma {:induction false} Ended(cfg: Config, s: State)
    requires Running(cfg, s)
    ensures Inv(cfg, s)
  {
  }

  // ---------------------------------------------------------------- the end of a response

  lemma {:induction false} KeptWire(cfg: Config, exchanges: seq<Exchange>, e: Exchange)
    ensures Transcript(cfg, exchanges) + Interim(e.interim) + Reply(cfg, e) ==
            Transcript(cfg, exchanges + [e]) + Interim(false)
  {
    hide Transcript, Reply;
    TranscriptOfMore(cfg, exchanges, e);
    assert Transcript(cfg, exchanges) + Interim(e.interim) + Reply(cfg, e) ==
           Transcript(cfg, exchanges) + (Interim(e.interim) + Reply(cfg, e));
  }

  /** The final reply to the request under way is on the wire as it was announced. */
  predicate ReplySent(cfg: Config, s: State) {
    && InRequest(cfg, s) && Delivered(cfg, Current(s)) && Reuses(Current(s))
    && s.open && s.pendingHeaders == []
    && Shows(s, Prologue(cfg, s.trace) + Reply(cfg, Current(s)))
  }

  lemma {:induction false} HistoryOfOneKept(cfg: Config, requests: seq<Request>, exchanges: seq<Exchange>, e: Exchange)
    requires History(cfg, requests, exchanges) && |requests| == |exchanges| + 1
    requires Reusable(cfg, e) && e.request == requests[|exchanges|] && e.count == |exchanges| + 1
    ensures History(cfg, requests, exchanges + [e])
  {
    hide Reusable;
    forall i | 0 <= i < |exchanges| + 1
      ensures var f := (exchanges + [e])[i]; Reusable(cfg, f) && f.request == requests[i] && f.count == i + 1
    {
      if i < |exchanges| {
        assert Reusable(cfg, exchanges[i]);
      }
    }
  }

  lemma {:induction false} RecordKeeps(cfg: Config, s: State)
    requires Running(cfg, s) && ReplySent(cfg, s) && !s.timedOut
    ensures Running(cfg, Reset(s)) && Reading(cfg, Reset(s)) && !Reset(s).trace.interim && !Reset(s).expectHandled
  {
    hide Usable, ReadsAs, Transcript, Reply, Delivered, MayPersist, Asked100, Reuses;
    KeptWire(cfg, s.trace.exchanges, Current(s));
    assert Reusable(cfg, Current(s));
    HistoryOfOneKept(cfg, s.trace.requests, s.trace.exchanges, Current(s));
  }

  lemma {:induction false} NothingIncomplete(cfg: Config, s: State)
    requires Running(cfg, s)
    ensures cfg.parse("").Incomplete?
  {
  }

  /** Arming the timer and waiting do not touch what is being read. */
  lemma {:induction false} ArmedReads(cfg: Config, s: State, seconds: int, op: Continuation)
    requires Running(cfg, s) && Reading(cfg, s)
    ensures var armed := ArmTimer(s, seconds);
            Running(cfg, armed) && Reading(cfg, Await(armed, op)) && Timed(Await(armed, op), seconds)
  {
    hide Usable, ReadsAs, Transcript, History, Asked100;
  }

  lemma {:induction false} IdleReads(cfg: Config, s: State, idle: bool)
    requires Running(cfg, s) && Reading(cfg, s)
    ensures Running(cfg, s.(idle := idle)) && Reading(cfg, s.(idle := idle))
  {
    hide Usable, ReadsAs, Transcript, History, Asked100;
  }

  lemma {:induction false} IdleKeeps(cfg: Config, s: State)
    requires Running(cfg, s) && Reading(cfg, s) && !s.expectHandled && s.trace.exchanges != [] && s.buffer == "" &&
             s.idle
    ensures Inv(cfg, Await(ArmTimer(s, cfg.keepAliveTimeout), Read))
  {
    hide Reading, Running, Timed, Inv, Ready, Replying;
    NothingIncomplete(cfg, s);
    ArmedReads(cfg, s, cfg.keepAliveTimeout, Read);
    Awaiting(cfg, ArmTimer(s, cfg.keepAliveTimeout), Read);
  }

  lemma {:induction false} PipelinedKeeps(cfg: Config, s: State)
    requires Running(cfg, s) && Reading(cfg, s) && s.buffer != "" && !s.idle && !s.expectHandled
    ensures Inv(cfg, Await(ArmTimer(s, cfg.timeout), Posted))
  {
    hide Reading, Running, Timed, Inv, Ready, Replying;
    ArmedReads(cfg, s, cfg.timeout, Posted);
    Awaiting(cfg, ArmTimer(s, cfg.timeout), Posted);
  }

  lemma {:induction false} ListenKeeps(cfg: Config, s: State)
    requires Running(cfg, s) && Reading(cfg, s) && !s.expectHandled && s.trace.exchanges != []
    ensures Inv(cfg, Listen(cfg, s))
  {
    hide Reading, Running, Inv, Await, ArmTimer;
    IdleReads(cfg, s, s.buffer == "");
    if s.buffer == "" {
      IdleKeeps(cfg, s.(idle := true));
    } else {
      PipelinedKeeps(cfg, s.(idle := false));
    }
  }

  lemma {:induction false} FinishKeeps(cfg: Config, s: State, shutdown: bool)
    requires Running(cfg, s)
    requires s.keepAlive && !s.timedOut ==> ReplySent(cfg, s)
    requires UnderWay(s) && !s.timedOut ==> AnswerSent(cfg, s)
    ensures Inv(cfg, FinishResponse(cfg, s, shutdown))
  {
    hide Reading, Running, ReplySent, AnswerSent, Inv, Listen, Concluded;
    if IsReused(s, shutdown) {
      RecordKeeps(cfg, s);
      ListenKeeps(cfg, Reset(s));
    } else {
      ConcludedKeeps(cfg, s);
    }
  }

  lemma {:induction false} ConcludedKeeps(cfg: Config, s: State)
    requires Running(cfg, s) && (UnderWay(s) && !s.timedOut ==> AnswerSent(cfg, s))
    ensures Inv(cfg, Concluded(s))
  {
    hide Base, InRequest, Served, Answer, Prologue;
    BaseOpen(cfg, s);
    SameBase(cfg, s, Concluded(s));
    if UnderWay(s) && !s.timedOut {
      SameAnswer(cfg, s, Concluded(s));
    }
  }

  lemma {:induction false} SameAnswer(cfg: Config, s: State, t: State)
    requires AnswerSent(cfg, s)
    requires t == s.(open := t.open, keepAlive := t.keepAlive, trace := s.trace.(answered := t.trace.answered,
                                                                                timers := t.trace.timers))
    requires t.keepAlive ==> s.keepAlive
    ensures AnswerSent(cfg, t)
  {
    hide Asked100, MayPersist, NegotiateVersion, HasHeader, Served, Answer, Transcript;
  }

  // ---------------------------------------------------------------- replies written at once

  /** A write adds to the wire, or breaks the connection. */
  lemma {:induction false} WriteKeeps(s: State, w: Wire, io: Io)
    ensures var t := Write(s, w, io);
            t == s.(broken := t.broken, trace := s.trace.(wire := t.trace.wire))
    ensures WriteOk(s, w, io) ==> Write(s, w, io).broken == s.broken && Write(s, w, io).trace.wire == s.trace.wire + w
    ensures !WriteOk(s, w, io) ==> Write(s, w, io).broken
  {
    hide WriteOk;
  }

  /** The reply at hand is the one the request under way is answered with, by the server itself. */
  predicate Answering(cfg: Config, s: State) {
    && InRequest(cfg, s) && Served(cfg, Current(s)) && !s.trace.outcome.Handled?
    && (s.keepAlive ==> Reuses(Current(s)))
    && s.response == FinalResponse(cfg, Current(s))
    && s.open && s.pendingHeaders == [] && Shows(s, Prologue(cfg, s.trace))
  }

  /** A write delivers a part of what it is given, and nothing once one has failed. */
  lemma {:induction false} WritePart(s: State, w: Wire, io: Io)
    ensures Write(s, w, io).trace.wire == s.trace.wire + DeliveredPart(s, w, io) && DeliveredPart(s, w, io) <= w
    ensures s.broken ==> DeliveredPart(s, w, io) == []
  {
  }

  lemma {:induction false} PrefixOfMore(w: Wire, part: Wire, sent: Wire, more: Wire)
    requires w <= sent
    ensures w <= sent + more && (part <= more ==> sent + part <= sent + more)
  {
  }

  lemma {:induction false} WrittenShows(s: State, prologue: Wire, head: Wire, body: Wire, first: Io, second: Io)
    requires Shows(s, prologue) && head != []
    ensures var afterHead := Write(s, head, first);
            var written := Write(afterHead, body, second);
            (!written.broken ==> written.trace.wire == prologue + (head + body)) &&
            (WriteOk(afterHead, body, second) ==> Shows(written, prologue + (head + body)))
  {
    hide Write, WriteOk;
    var afterHead := Write(s, head, first);
    WriteKeeps(s, head, first);
    WriteKeeps(afterHead, body, second);
    WritePart(s, head, first);
    assert prologue + head + body == prologue + (head + body);
    if WriteOk(afterHead, body, second) && !WriteOk(s, head, first) {
      NothingMore(s, head, first, body, second);
      var part := DeliveredPart(s, head, first);
      PrefixOfMore(s.trace.wire, part, prologue, head);
      PrefixOfMore(s.trace.wire + part, [], prologue + head, body);
    }
  }

  /** After a write that failed only an empty one succeeds. */
  lemma {:induction false} NothingMore(s: State, head: Wire, first: Io, body: Wire, second: Io)
    requires !WriteOk(s, head, first) && WriteOk(Write(s, head, first), body, second)
    ensures body == []
  {
  }

  /** A reply of the server's own is its header section and its content, and keeps to what it announces. */
  lemma {:induction false} OwnReplyIs(cfg: Config, e: Exchange)
    requires !e.outcome.Handled?
    ensures Reply(cfg, e) == [Header(HeaderSection(FinalResponse(cfg, e)))] + Bytes(FinalResponse(cfg, e).content)
    ensures Answer(cfg, e) == Reply(cfg, e) && Delivered(cfg, e) == Served(cfg, e)
  {
    hide FinalResponse, Served, HeaderSection, Bytes;
  }

  /** What was written is all of the reply, and everything else is as it was. */
  lemma {:induction false} ReplyStands(cfg: Config, s: State, t: State)
    requires Answering(cfg, s) && t == s.(broken := t.broken, trace := s.trace.(wire := t.trace.wire))
    requires !t.broken ==> t.trace.wire == Prologue(cfg, s.trace) + Reply(cfg, Current(s))
    ensures AnswerSent(cfg, t)
    ensures s.keepAlive && Shows(t, Prologue(cfg, s.trace) + Reply(cfg, Current(s))) ==> ReplySent(cfg, t)
  {
    hide InRequest, Served, Reuses, FinalResponse, Transcript, Shows, Reply, Answer, Delivered, Current;
    SameRequest(cfg, s, t);
    assert !Current(s).outcome.Handled? by { CurrentIs(s); }
    OwnReplyIs(cfg, Current(s));
  }

  lemma {:induction false} CurrentIs(s: State)
    ensures Current(s).outcome == s.trace.outcome
  {
  }

  lemma {:induction false} AnsweringIs(cfg: Config, s: State)
    requires Answering(cfg, s)
    ensures Shows(s, Prologue(cfg, s.trace)) && s.response == FinalResponse(cfg, Current(s))
    ensures !Current(s).outcome.Handled?
  {
    hide InRequest, Served, Reuses, FinalResponse, Prologue, Shows;
  }

  lemma {:induction false} WrittenIsAnswered(cfg: Config, s: State, head: Io, body: Io)
    requires Answering(cfg, s) && s.response.status.Some?
    ensures var afterHead := Write(s, [Header(HeaderSection(s.response))], head);
            var content := Bytes(s.response.content);
            var written := Write(afterHead, content, body);
            AnswerSent(cfg, written) && (s.keepAlive && WriteOk(afterHead, content, body) ==> ReplySent(cfg, written))
  {
    hide InRequest, Served, Reuses, FinalResponse, Prologue, Write, WriteOk, Shows, HeaderSection, Bytes, Reply,
         Current, AnswerSent, ReplySent, Answering;
    var h, b := [Header(HeaderSection(s.response))], Bytes(s.response.content);
    TwoWrites(s, h, b, head, body);
    AnsweringIs(cfg, s);
    OwnReplyIs(cfg, Current(s));
    WrittenShows(s, Prologue(cfg, s.trace), h, b, head, body);
    ReplyStands(cfg, s, Write(Write(s, h, head), b, body));
  }

  /** Two writes add to the wire, or break the connection. */
  lemma {:induction false} TwoWrites(s: State, head: Wire, body: Wire, first: Io, second: Io)
    ensures var t := Write(Write(s, head, first), body, second);
            t == s.(broken := t.broken, trace := s.trace.(wire := t.trace.wire))
  {
    hide WriteOk, DeliveredPart;
  }

  lemma {:induction false} SameRequest(cfg: Config, s: State, t: State)
    requires InRequest(cfg, s) && t == s.(broken := t.broken, trace := s.trace.(wire := t.trace.wire))
    ensures InRequest(cfg, t) && Current(t) == Current(s)
  {
    hide Asked100, MayPersist;
  }

  /** The base of the invariant depends on what was read and parsed, and on the timer. */
  lemma {:induction false} SameBase(cfg: Config, s: State, t: State)
    requires Base(cfg, s)
    requires t.trace.received == s.trace.received && t.trace.requests == s.trace.requests && t.buffer == s.buffer
    requires t.trace.exchanges == s.trace.exchanges && t.trace.parsed == s.trace.parsed
    requires t.trace.timers == s.trace.timers && t.timerGeneration == s.timerGeneration
    requires t.trace.interim == s.trace.interim && t.trace.arrived == s.trace.arrived
    requires t.timedOut ==> !t.open
    ensures Base(cfg, t)
  {
    hide Usable, ReadsAs, History;
  }

  lemma {:induction false} WriteRuns(cfg: Config, s: State, w: Wire, io: Io)
    requires Running(cfg, s)
    ensures var t := Write(s, w, io);
            Running(cfg, t) && t.keepAlive == s.keepAlive && t.timedOut == s.timedOut && UnderWay(t) == UnderWay(s)
  {
    hide Base, Write, WriteOk;
    WriteKeeps(s, w, io);
    assert s.timedOut ==> !s.open by {
      BaseOpen(cfg, s);
    }
    SameBase(cfg, s, Write(s, w, io));
  }

  lemma {:induction false} BaseOpen(cfg: Config, s: State)
    requires Base(cfg, s)
    ensures s.timedOut ==> !s.open
  {
  }

  lemma {:induction false} CloseRuns(cfg: Config, s: State)
    requires Running(cfg, s)
    ensures Running(cfg, Closed(s))
  {
    hide Base;
    SameBase(cfg, s, Closed(s));
  }

  lemma {:induction false} ClosedAnswer(cfg: Config, s: State)
    requires AnswerSent(cfg, s)
    ensures AnswerSent(cfg, Closed(s))
  {
    SameAnswer(cfg, s, Closed(s));
  }

  lemma {:induction false} SimpleKeeps(cfg: Config, s: State, env: Env)
    requires Running(cfg, s) && s.response.status.Some?
    requires s.keepAlive && !s.timedOut ==> UnderWay(s)
    requires UnderWay(s) && !s.timedOut ==> Answering(cfg, s)
    ensures Inv(cfg, SendSimpleReply(cfg, s, env))
  {
    hide Running, Inv, Answering, ReplySent, AnswerSent, Write, WriteOk, FinishResponse, HeaderSection, Bytes,
         Concluded;
    var head, body := [Header(HeaderSection(s.response))], Bytes(s.response.content);
    var afterHead := Write(s, head, env.head);
    var written := Write(afterHead, body, env.body);
    WriteRuns(cfg, s, head, env.head);
    WriteRuns(cfg, afterHead, body, env.body);
    if UnderWay(s) && !s.timedOut {
      WrittenIsAnswered(cfg, s, env.head, env.body);
      ClosedAnswer(cfg, written);
    }
    if s.keepAlive && WriteOk(afterHead, body, env.body) {
      FinishKeeps(cfg, written, env.atFinish);
    } else {
      CloseRuns(cfg, written);
      ConcludedKeeps(cfg, Closed(written));
    }
  }

  /** The request under way can be answered. */
  predicate Answerable(cfg: Config, s: State) {
    && InRequest(cfg, s) && s.keepAlive == s.trace.kept
    && s.open && s.response == EMPTY_RESPONSE && s.pendingHeaders == []
    && Shows(s, Prologue(cfg, s.trace))
  }

  /** A response of the server's own that fits the request under way. */
  predicate Fits(cfg: Config, s: State, response: Response, outcome: Outcome) {
    match outcome
    case Stock(status) => StockStatus(cfg, status) && response == StockOf(cfg, status, EMPTY_RESPONSE)
    case Options => s.trace.parsed.verb == OPTIONS && response == OptionsResponse(cfg)
    case _ => false
  }

  lemma {:induction false} OwnAnswers(cfg: Config, s: State, response: Response, outcome: Outcome, now: int)
    requires Answerable(cfg, s) && Fits(cfg, s, response, outcome)
    ensures Answering(cfg, SetServerHeaders(cfg, Respond(s, response, outcome), now))
  {
    hide Transcript, MayPersist, Asked100;
  }

  lemma {:induction false} AnnouncedRuns(cfg: Config, s: State, response: Response, outcome: Outcome, now: int)
    requires Running(cfg, s)
    ensures var t := SetServerHeaders(cfg, Respond(s, response, outcome), now);
            Running(cfg, t) && (t.keepAlive ==> s.keepAlive) && t.timedOut == s.timedOut && UnderWay(t) == UnderWay(s)
  {
    hide Usable, ReadsAs, History, Vetoes;
  }

  lemma {:induction false} OwnKeeps(cfg: Config, s: State, response: Response, outcome: Outcome, env: Env)
    requires Running(cfg, s) && response.status.Some?
    requires s.keepAlive && !s.timedOut ==> UnderWay(s)
    requires UnderWay(s) && !s.timedOut ==> Answerable(cfg, s) && Fits(cfg, s, response, outcome)
    ensures Inv(cfg, SendOwnReply(cfg, s, response, outcome, env))
  {
    hide Running, Inv, Answering, Answerable, SendSimpleReply, SetServerHeaders, Respond, Fits, UnderWay;
    AnnouncedRuns(cfg, s, response, outcome, env.now);
    if UnderWay(s) && !s.timedOut {
      OwnAnswers(cfg, s, response, outcome, env.now);
    }
    RespondsStatus(s, response, outcome);
    SimpleKeeps(cfg, SetServerHeaders(cfg, Respond(s, response, outcome), env.now), env);
  }

  lemma {:induction false} RespondsStatus(s: State, response: Response, outcome: Outcome)
    ensures Respond(s, response, outcome).response == response
  {
  }

  lemma {:induction false} StockKeeps(cfg: Config, s: State, status: int, env: Env)
    requires Running(cfg, s)
    requires s.keepAlive && !s.timedOut ==> UnderWay(s)
    requires UnderWay(s) && !s.timedOut ==> Answerable(cfg, s) && StockStatus(cfg, status)
    ensures Inv(cfg, SendStockReply(cfg, s, status, env))
  {
    hide Running, Inv, SendOwnReply, StockStatus, UnderWay, InRequest, Shows, StockOf;
    StockHasStatus(cfg, status, s.response);
    OwnKeeps(cfg, s, StockOf(cfg, status, s.response), Stock(status), env);
  }

  lemma {:induction false} StockHasStatus(cfg: Config, status: int, r: Response)
    ensures StockOf(cfg, status, r).status == Some(status)
  {
  }

  /** A stock reply on a connection that is not to be kept closes it, and touches nothing else. */
  lemma {:induction false} StockCloses(cfg: Config, s: State, status: int, env: Env)
    requires !s.keepAlive
    ensures var t := SendStockReply(cfg, s, status, env);
            t == s.(response := t.response, broken := t.broken, open := false,
                    trace := s.trace.(wire := t.trace.wire, date := env.now, outcome := Stock(status),
                                      answered := true))
  {
    hide Write, WriteOk, HeaderSection, Bytes, ServerHeaders, StockOf, Vetoes, FinishResponse;
    StockHasStatus(cfg, status, s.response);
    var announced := SetServerHeaders(cfg, Respond(s, StockOf(cfg, status, s.response), Stock(status)), env.now);
    var head := [Header(HeaderSection(announced.response))];
    WriteKeeps(announced, head, env.head);
    WriteKeeps(Write(announced, head, env.head), Bytes(announced.response.content), env.body);
  }

  /** Before a request is parsed every stock reply ends the connection. */
  lemma {:induction false} ReadingCloses(cfg: Config, s: State, status: int, env: Env)
    requires Running(cfg, s) && !s.keepAlive && !UnderWay(s)
    ensures Inv(cfg, SendStockReply(cfg, s, status, env))
  {
    hide Running, Inv, SendStockReply, Answerable, UnderWay;
    StockKeeps(cfg, s, status, env);
  }

  lemma {:induction false} AbortKeeps(cfg: Config, s: State, env: Env)
    requires Running(cfg, s)
    ensures Inv(cfg, AbortReply(cfg, s, env))
  {
    hide Base, SendStockReply, Inv;
    StockCloses(cfg, Unkept(s), SERVICE_UNAVAILABLE, env);
    BaseOpen(cfg, s);
    SameBase(cfg, s, AbortReply(cfg, s, env));
    Ended(cfg, AbortReply(cfg, s, env));
  }

  // ---------------------------------------------------------------- a request arrives

  lemma {:induction false} ReadyAnswers(cfg: Config, s: State)
    requires Ready(cfg, s)
    ensures UnderWay(s) && (!s.timedOut ==> Answerable(cfg, s))
  {
    hide MayPersist, Asked100, Transcript, HandlerRequest;
  }

  lemma {:induction false} PoolKeepsReady(cfg: Config, s: State, fast: bool, admin: bool)
    requires Running(cfg, s) && Ready(cfg, s)
    ensures var t := Pooled(s, fast, admin);
            Running(cfg, t) && Ready(cfg, t) && t.idle == s.idle && t.adminQuery == admin &&
            (Timed(s, cfg.timeout) ==> Timed(t, cfg.timeout))
  {
    hide MayPersist, Asked100, Transcript, HandlerRequest, Usable, ReadsAs, History;
  }

  lemma {:induction false} QueueKeeps(cfg: Config, s: State)
    requires Running(cfg, s) && Ready(cfg, s) && !s.idle && Timed(s, cfg.timeout)
    ensures Inv(cfg, Await(s, HandleTask(SelectedPool(s))))
  {
    hide MayPersist, Asked100, Transcript, HandlerRequest, Running, Inv, Reading, Replying;
    Awaiting(cfg, s, HandleTask(SelectedPool(s)));
  }

  lemma {:induction false} ReadyStockKeeps(cfg: Config, s: State, status: int, env: Env)
    requires Running(cfg, s) && Ready(cfg, s) && StockStatus(cfg, status)
    ensures Inv(cfg, SendStockReply(cfg, s, status, env))
  {
    hide Running, Ready, Inv, SendStockReply, Answerable, StockStatus, UnderWay;
    ReadyAnswers(cfg, s);
    StockKeeps(cfg, s, status, env);
  }

  lemma {:induction false} ScheduleKeeps(cfg: Config, s: State, env: Env)
    requires Running(cfg, s) && Ready(cfg, s) && !s.idle && Timed(s, cfg.timeout) && env.view.View?
    ensures Inv(cfg, ScheduleRequest(cfg, s, env))
  {
    hide Running, Ready, Inv, SendStockReply, Pooled, Timed, RecordOf;
    var view := env.view;
    var fast, admin := view.frontend || !cfg.hasSlowPool || view.fast, !view.frontend && s.adminQuery;
    var selected := Pooled(s, fast, admin);
    PoolKeepsReady(cfg, s, fast, admin);
    if env.scheduled {
      QueueKeeps(cfg, selected);
    } else {
      ReadyStockKeeps(cfg, selected, if view.frontend then SERVICE_UNAVAILABLE else cfg.highLoad, env);
    }
  }

  lemma {:induction false} ReadyVerb(cfg: Config, s: State)
    requires Ready(cfg, s) && s.request.verb == OPTIONS
    ensures s.trace.parsed.verb == OPTIONS
  {
  }

  lemma {:induction false} ReadyOptionsKeeps(cfg: Config, s: State, env: Env)
    requires Running(cfg, s) && Ready(cfg, s) && s.request.verb == OPTIONS
    ensures Inv(cfg, SendOptionsReply(cfg, s, env))
  {
    hide Running, Ready, Inv, SendOwnReply, Answerable, UnderWay;
    ReadyVerb(cfg, s);
    ReadyAnswers(cfg, s);
    OwnKeeps(cfg, s, OptionsResponse(cfg), Options, env);
  }

  lemma {:induction false} DispatchKeeps(cfg: Config, s: State, env: Env)
    requires Running(cfg, s) && Ready(cfg, s) && !s.idle && Timed(s, cfg.timeout)
    ensures Inv(cfg, Dispatch(cfg, s, env))
  {
    hide Running, Ready, Inv, SendStockReply, SendOptionsReply, ScheduleRequest, Pooled, Timed, RecordOf;
    if s.request.verb == OPTIONS && s.request.resource == "*" {
      ReadyOptionsKeeps(cfg, s, env);
    } else if env.view.NoView? {
      ReadyStockKeeps(cfg, s, NOT_FOUND, env);
    } else {
      var admin := !env.view.frontend && env.view.admin && cfg.hasAdminPool;
      PoolKeepsReady(cfg, s, s.queryIsFast, admin);
      if !admin && env.highLoad {
        ReadyStockKeeps(cfg, Pooled(s, s.queryIsFast, admin), cfg.highLoad, env);
      } else {
        ScheduleKeeps(cfg, Pooled(s, s.queryIsFast, admin), env);
      }
    }
  }

  /** A request has just been taken off the front of the buffer. */
  predicate JustParsed(cfg: Config, s: State) {
    var t := s.trace;
    && |t.requests| == |t.exchanges| + 1 == s.requestCount + 1
    && s.receivedBytes == |s.buffer|
    && cfg.parse(t.arrived).Complete? && cfg.parse(t.arrived).request == t.parsed == s.request
    && s.sentBytes == s.totalStreamedBytes == s.declaredContentLength == 0 && s.pendingHeaders == []
    && (!s.timedOut ==> s.open && s.response == EMPTY_RESPONSE && Shows(s, Prologue(cfg, t)))
  }

  lemma {:induction false} NegotiatedIsReady(cfg: Config, s: State, env: Env)
    requires Running(cfg, s) && JustParsed(cfg, s)
    requires NegotiateVersion(s.request.version) == V11 ==> HasHeader(s.request.headers, "Host")
    ensures var t := Strip(Negotiate(cfg, s, env));
            Running(cfg, t) && Ready(cfg, t) && t.idle == s.idle && (Timed(s, cfg.timeout) ==> Timed(t, cfg.timeout))
  {
    hide MayPersist, Asked100, Transcript, Usable, ReadsAs, History;
  }

  lemma {:induction false} NegotiatedRuns(cfg: Config, s: State, env: Env)
    requires Running(cfg, s) && JustParsed(cfg, s)
    ensures var t := Negotiate(cfg, s, env);
            var u := Declined(t);
            Running(cfg, u) && UnderWay(u) && (!u.timedOut ==> Answerable(cfg, u)) &&
            t.responseVersion == NegotiateVersion(s.request.version)
  {
    hide Base, Answerable;
    BaseOpen(cfg, s);
    SameBase(cfg, s, Declined(Negotiate(cfg, s, env)));
    DeclinedAnswers(cfg, s, env);
  }

  lemma {:induction false} DeclinedIs(cfg: Config, s: State, env: Env)
    ensures Declined(Negotiate(cfg, s, env)) ==
            s.(requestCount := s.requestCount + 1, responseVersion := NegotiateVersion(s.request.version),
               keepAlive := false, trace := s.trace.(kept := false))
  {
    hide MayPersist, RecordOf, NegotiateVersion;
  }

  lemma {:induction false} DeclinedAnswers(cfg: Config, s: State, env: Env)
    requires JustParsed(cfg, s)
    ensures var u := Declined(Negotiate(cfg, s, env));
            !u.timedOut ==> Answerable(cfg, u)
  {
    hide MayPersist, Asked100, Transcript, HasHeader, RecordOf, NegotiateVersion, Declined, Negotiate;
    DeclinedIs(cfg, s, env);
  }

  lemma {:induction false} NegotiatedRequest(cfg: Config, s: State, env: Env)
    ensures Negotiate(cfg, s, env).request == s.request
  {
  }

  lemma {:induction false} ParsedKeeps(cfg: Config, s: State, env: Env)
    requires Running(cfg, s) && JustParsed(cfg, s) && !s.idle && Timed(s, cfg.timeout)
    ensures Inv(cfg, HandleParsedRequest(cfg, s, env))
  {
    hide Running, JustParsed, Ready, Inv, SendStockReply, Dispatch, Negotiate, Strip, NegotiateVersion, HasHeader,
         Timed;
    hide Answerable, UnderWay;
    var t := Negotiate(cfg, s, env);
    NegotiatedRuns(cfg, s, env);
    if !env.peer {
      Ended(cfg, s);
    } else if t.responseVersion == V11 && !HasHeader(s.request.headers, "Host") {
      StockKeeps(cfg, Declined(t), BAD_REQUEST, env);
    } else {
      NegotiatedIsReady(cfg, s, env);
      DispatchKeeps(cfg, Strip(t), env);
    }
  }

  lemma {:induction false} ReadMore(cfg: Config, s: State)
    requires Running(cfg, s) && Reading(cfg, s) && cfg.parse(s.buffer).Incomplete? && !s.idle && Timed(s, cfg.timeout)
    requires Examines(s)
    ensures Inv(cfg, Await(s, Read))
  {
    hide Asked100, Transcript, Running, Inv, Ready, Replying;
    Awaiting(cfg, s, Read);
  }

  lemma {:induction false} InterimKeeps(cfg: Config, s: State, env: Env)
    requires Running(cfg, s) && Reading(cfg, s) && !s.expectHandled && Asked100(s.buffer)
    requires ScanHead(s.buffer).complete
    requires WriteOk(Examined(s), [CONTINUE], env.interim)
    ensures var u := Told(Write(Examined(s), [CONTINUE], env.interim));
            Running(cfg, u) && Reading(cfg, u) && (Timed(s, cfg.timeout) ==> Timed(u, cfg.timeout)) &&
            u.buffer == s.buffer && u.idle == s.idle && u.expectHandled
  {
    hide Asked100, Transcript, Usable, ReadsAs, History;
  }

  lemma {:induction false} SkipKeeps(cfg: Config, s: State)
    requires Running(cfg, s) && Reading(cfg, s) && ScanHead(s.buffer).complete
    ensures Running(cfg, Examined(s)) && Reading(cfg, Examined(s))
  {
    hide Asked100, Transcript, Usable, ReadsAs, History;
  }

  lemma {:induction false} ExpectKeeps(cfg: Config, s: State, env: Env)
    requires Running(cfg, s) && Reading(cfg, s) && cfg.parse(s.buffer).Incomplete? && !s.idle && Timed(s, cfg.timeout)
    ensures Inv(cfg, HandleExpectContinue(cfg, s, env))
  {
    hide Running, Reading, Inv, Write, WriteOk, SendStockReply, ScanHead, HasToken, NegotiateVersion, Await, Fresh;
    var head, handled := ScanHead(s.buffer), Examined(s);
    if s.expectHandled || !head.complete {
      ReadMore(cfg, s);
    }
    ReadingIsFresh(cfg, s);
    if !s.expectHandled && head.complete {
      SkipKeeps(cfg, s);
      if head.expectation == "" || NegotiateVersion(head.version) != V11 {
        ReadMore(cfg, handled);
      } else if HasToken(head.expectation, "100-continue") {
        var written := Write(handled, [CONTINUE], env.interim);
        if WriteOk(handled, [CONTINUE], env.interim) {
          InterimKeeps(cfg, s, env);
          ReadMore(cfg, Told(written));
        } else {
          WriteRuns(cfg, handled, [CONTINUE], env.interim);
          UnkeptRuns(cfg, written);
          Ended(cfg, Unkept(written));
        }
      } else {
        UnkeptRuns(cfg, handled);
        ReadingCloses(cfg, Unkept(handled), EXPECTATION_FAILED, env);
      }
    }
  }

  lemma {:induction false} UnkeptRuns(cfg: Config, s: State)
    requires Running(cfg, s)
    ensures Running(cfg, Unkept(s))
  {
    hide Usable, ReadsAs, History;
  }

  lemma {:induction false} IncompleteKeeps(cfg: Config, s: State, env: Env)
    requires Running(cfg, s) && Reading(cfg, s) && cfg.parse(s.buffer).Incomplete? && !s.idle && Timed(s, cfg.timeout)
    ensures Inv(cfg, HandleIncompleteRequest(cfg, s, env))
  {
    hide Running, Reading, Inv, SendStockReply, HandleExpectContinue, FindBlankLine, Fresh;
    UnkeptRuns(cfg, s);
    ReadingIsFresh(cfg, s);
    ReadingCloses(cfg, Unkept(s), HEADER_FIELDS_TOO_LARGE, env);
    ExpectKeeps(cfg, s, env);
  }

  // ---------------------------------------------------------------- octets arrive

  lemma {:induction false} TakeRuns(cfg: Config, s: State, op: Continuation)
    requires Inv(cfg, s) && op in s.trace.pending
    ensures Running(cfg, Take(s, op)) && OpInv(cfg, s, op)
  {
    hide Usable, ReadsAs, History, OpInv;
    assert |s.trace.pending - multiset{op}| == |s.trace.pending| - 1;
  }

  lemma {:induction false} LeaveIdleKeeps(cfg: Config, s: State)
    requires Running(cfg, s) && Reading(cfg, s) && Timed(s, if s.idle then cfg.keepAliveTimeout else cfg.timeout)
    ensures var t := LeaveIdle(cfg, s);
            Running(cfg, t) && Reading(cfg, t) && !t.idle && Timed(t, cfg.timeout) && t.buffer == s.buffer
  {
    hide Usable, ReadsAs, History, Asked100, Transcript;
  }

  lemma {:induction false} StillAsked(buffer: string, data: string)
    requires Asked100(buffer)
    ensures Asked100(buffer + data)
  {
    HeadIsStable(buffer, data);
  }

  lemma {:induction false} ArriveReads(cfg: Config, s: State, data: string)
    requires Running(cfg, s)
    ensures Running(cfg, Arrive(s, data))
  {
    hide Reliable, ReadsAs, History, Prompted;
    ReadsMore(cfg.parse, s.trace.received, s.trace.requests, s.buffer, data);
    StillPrompted(s, data);
  }

  lemma {:induction false} StillPrompted(s: State, data: string)
    requires Prompted(s)
    ensures Prompted(Arrive(s, data))
  {
    hide Asked100;
    if s.trace.interim && !UnderWay(s) {
      StillAsked(s.buffer, data);
    }
  }

  lemma {:induction false} StillComplete(buffer: string, data: string)
    ensures ScanHead(buffer).complete ==> ScanHead(buffer + data).complete
  {
    hide ScanHead;
    if ScanHead(buffer).complete {
      HeadIsStable(buffer, data);
    }
  }

  lemma {:induction false} ArrivedIsReading(cfg: Config, s: State, data: string)
    requires Reading(cfg, s)
    ensures var t := Arrive(Tallied(s, s.receivedBytes + |data|), data);
            Reading(cfg, t) && t.idle == s.idle && (Timed(s, cfg.timeout) ==> Timed(t, cfg.timeout))
  {
    hide Transcript, ScanHead, RecordOf;
    StillComplete(s.buffer, data);
  }

  lemma {:induction false} ArriveKeeps(cfg: Config, s: State, data: string)
    requires Running(cfg, s) && Reading(cfg, s)
    ensures var t := Arrive(Tallied(s, s.receivedBytes + |data|), data);
            Running(cfg, t) && Reading(cfg, t) && t.idle == s.idle && (Timed(s, cfg.timeout) ==> Timed(t, cfg.timeout))
  {
    hide Base, Reading, Timed;
    ArrivedIsReading(cfg, s, data);
    SameBase(cfg, s, Tallied(s, s.receivedBytes + |data|)) by {
      BaseOpen(cfg, s);
    }
    ArriveReads(cfg, Tallied(s, s.receivedBytes + |data|), data);
  }

  lemma {:induction false} HistoryOfOneMore(cfg: Config, requests: seq<Request>, exchanges: seq<Exchange>,
                                            request: Request)
    requires History(cfg, requests, exchanges) && |requests| == |exchanges|
    ensures History(cfg, requests + [request], exchanges)
  {
    hide Reusable;
    forall i | 0 <= i < |exchanges|
      ensures Reusable(cfg, exchanges[i]) && exchanges[i].request == (requests + [request])[i] &&
              exchanges[i].count == i + 1
    {
      assert Reusable(cfg, exchanges[i]);
    }
  }

  lemma {:induction false} ParsedRuns(cfg: Config, s: State, request: Request, consumed: nat)
    requires Running(cfg, s) && Reading(cfg, s) && cfg.parse(s.buffer) == Complete(request, consumed)
    ensures consumed <= |s.buffer| && Running(cfg, TakeRequest(s, request, consumed))
  {
    hide ReadsAs, Asked100, Transcript, History;
    assert Consumes(cfg.parse, s.buffer);
    HistoryOfOneMore(cfg, s.trace.requests, s.trace.exchanges, request);
    ReadsNext(cfg.parse, s.trace.received, s.trace.requests, s.buffer);
  }

  lemma {:induction false} ParsedIsJust(cfg: Config, s: State, request: Request, consumed: nat)
    requires Reading(cfg, s) && cfg.parse(s.buffer) == Complete(request, consumed) && consumed <= |s.buffer|
    ensures var t := TakeRequest(s, request, consumed);
            JustParsed(cfg, t) && t.idle == s.idle && (Timed(s, cfg.timeout) ==> Timed(t, cfg.timeout))
  {
    hide Asked100, Transcript;
  }

  lemma {:induction false} BufferKeeps(cfg: Config, s: State, env: Env)
    requires Running(cfg, s) && Reading(cfg, s) && !s.idle && Timed(s, cfg.timeout) && Usable(cfg)
    ensures Inv(cfg, ParseBuffer(cfg, s, env))
  {
    hide Running, Reading, Inv, JustParsed, Timed, Usable, HandleParsedRequest, SendStockReply, HandleIncompleteRequest;
    match cfg.parse(s.buffer)
    case Complete(request, consumed) =>
      ParsedRuns(cfg, s, request, consumed);
      ParsedIsJust(cfg, s, request, consumed);
      ParsedKeeps(cfg, TakeRequest(s, request, consumed), env);
    case Failed =>
      ReadingIsFresh(cfg, s);
      ReadingCloses(cfg, s, BAD_REQUEST, env);
    case Incomplete => IncompleteKeeps(cfg, s, env);
  }

  lemma {:induction false} ReadingIsFresh(cfg: Config, s: State)
    requires Reading(cfg, s)
    ensures Fresh(s) && !s.keepAlive && s.receivedBytes == |s.buffer| && !UnderWay(s)
  {
  }

  lemma {:induction false} ReadInv(cfg: Config, s: State, op: Continuation)
    requires OpInv(cfg, s, op) && (op == Read || op == Posted)
    ensures Reading(cfg, Take(s, op)) && Timed(Take(s, op), if s.idle then cfg.keepAliveTimeout else cfg.timeout)
  {
    hide Asked100, Transcript, Ready, Replying;
  }

  lemma {:induction false} ReadKeeps(cfg: Config, s: State, op: Continuation, ok: bool, data: string, env: Env)
    requires Inv(cfg, s) && op in s.trace.pending && IsRead(op, ok, data) && Usable(cfg)
    ensures Inv(cfg, HandleRead(cfg, s, op, ok, data, env))
  {
    hide Running, Reading, Inv, Timed, Usable, OpInv, Fresh, SendStockReply, ParseBuffer, LeaveIdle;
    var taken := Take(s, op);
    TakeRuns(cfg, s, op);
    ReadInv(cfg, s, op);
    ReadingIsFresh(cfg, taken);
    ReadingCloses(cfg, taken, cfg.shutdown, env);
    Ended(cfg, taken);
    LeaveIdleKeeps(cfg, taken);
    var busy := LeaveIdle(cfg, taken);
    var counted := Tallied(busy, s.receivedBytes + |data|);
    ReadingIsFresh(cfg, busy);
    CountRuns(cfg, busy, counted.receivedBytes);
    ReadingCloses(cfg, counted, ENTITY_TOO_LARGE, env);
    ArriveKeeps(cfg, busy, data);
    BufferKeeps(cfg, Arrive(counted, data), env);
  }

  lemma {:induction false} CountRuns(cfg: Config, s: State, n: nat)
    requires Running(cfg, s)
    ensures Running(cfg, Tallied(s, n))
  {
    hide Usable, ReadsAs, History;
  }

  lemma {:induction false} HandshakeKeeps(cfg: Config, s: State, ok: bool)
    requires Inv(cfg, s) && Handshake in s.trace.pending
    ensures Inv(cfg, HandleHandshake(s, ok))
  {
    hide Running, Inv, Ready, Replying, Asked100, Transcript;
    TakeRuns(cfg, s, Handshake);
    var taken := Take(s, Handshake);
    if ok {
      NothingIncomplete(cfg, taken);
      ReadMore(cfg, taken);
    } else {
      OpenRuns(cfg, taken);
      Ended(cfg, taken.(open := false));
    }
  }

  lemma {:induction false} OpenRuns(cfg: Config, s: State)
    requires Running(cfg, s)
    ensures Running(cfg, s.(open := false))
  {
    hide Usable, ReadsAs, History;
  }

  // ---------------------------------------------------------------- the timer fires

  lemma {:induction false} FiredConcludes(cfg: Config, s: State, timers: map<nat, int>)
    requires Concludes(cfg, s)
    ensures Concludes(cfg, s.(trace := s.trace.(timers := timers)))
  {
    hide AnswerSent;
    if AnswerSent(cfg, s) {
      SameAnswer(cfg, s, s.(trace := s.trace.(timers := timers)));
    }
  }

  lemma {:induction false} FiredKeeps(cfg: Config, s: State, generation: nat)
    requires Inv(cfg, s) && generation != s.timerGeneration
    ensures Inv(cfg, Fired(s, generation))
  {
    hide Usable, ReadsAs, History, OpInv, Concludes;
    var t := Fired(s, generation);
    if s.trace.pending == multiset{} {
      FiredConcludes(cfg, s, t.trace.timers);
    }
    forall op | op in t.trace.pending
      ensures OpInv(cfg, t, op)
    {
      assert OpInv(cfg, s, op);
      StaleKeepsOp(cfg, s, generation, op);
    }
  }

  /** The timers say nothing about what is read or written. */
  lemma {:induction false} TimersAside(cfg: Config, s: State, timers: map<nat, int>)
    ensures var t := s.(trace := s.trace.(timers := timers));
            Reading(cfg, t) == Reading(cfg, s) && Ready(cfg, t) == Ready(cfg, s) &&
            InRequest(cfg, t) == InRequest(cfg, s) &&
            Current(t) == Current(s) && Counted(t) == Counted(s) && InChunks(t) == InChunks(s)
  {
    hide Asked100, Transcript, MayPersist, HandlerRequest, Concat, NegotiateVersion, InOnePiece, IsPassthrough;
  }

  lemma {:induction false} TimersAsideOfWire(cfg: Config, s: State, timers: map<nat, int>, op: Continuation)
    ensures var t := s.(trace := s.trace.(timers := timers));
            Arrived(cfg, t, op) == Arrived(cfg, s, op) && Sending(cfg, t, op) == Sending(cfg, s, op)
  {
    hide Transcript, Reply, StreamHead, Framed, Concat;
  }

  lemma {:induction false} StaleKeepsOp(cfg: Config, s: State, generation: nat, op: Continuation)
    requires OpInv(cfg, s, op) && generation != s.timerGeneration
    ensures OpInv(cfg, Fired(s, generation), op)
  {
    hide Reading, Ready, InRequest, Counted, InChunks, Arrived, Sending, HandlerRequest, Reuses, Current, InOnePiece;
    TimersAside(cfg, s, s.trace.timers - {generation});
    TimersAsideOfWire(cfg, s, s.trace.timers - {generation}, op);
  }

  /** Once a connection has timed out, only what was read and counted still matters. */
  lemma {:induction false} ExpiredReads(cfg: Config, s: State, t: State)
    requires t.keepAlive ==> s.keepAlive
    requires t == s.(timedOut := true, open := false, keepAlive := t.keepAlive, response := t.response,
                     broken := t.broken,
                     trace := s.trace.(timers := t.trace.timers, wire := t.trace.wire, date := t.trace.date,
                                       outcome := t.trace.outcome, answered := t.trace.answered))
    ensures Reading(cfg, s) ==> Reading(cfg, t)
    ensures Ready(cfg, s) ==> Ready(cfg, t)
  {
    hide Asked100, Transcript, MayPersist, HandlerRequest, NegotiateVersion;
  }

  lemma {:induction false} ExpiredKeeps(cfg: Config, s: State, t: State)
    requires Inv(cfg, s) && s.timerGeneration in s.trace.timers
    requires t.keepAlive ==> s.keepAlive
    requires t == s.(timedOut := true, open := false, keepAlive := t.keepAlive, response := t.response,
                     broken := t.broken,
                     trace := s.trace.(timers := t.trace.timers, wire := t.trace.wire, date := t.trace.date,
                                       outcome := t.trace.outcome, answered := t.trace.answered))
    requires t.trace.timers == s.trace.timers - {s.timerGeneration}
    ensures Inv(cfg, t)
  {
    hide Usable, ReadsAs, History, Reading, Ready, InRequest, Counted, InChunks, Arrived, Sending, Reuses, Current;
    ExpiredReads(cfg, s, t);
    forall op | op in t.trace.pending
      ensures OpInv(cfg, t, op)
    {
      assert OpInv(cfg, s, op);
    }
  }

  lemma {:induction false} IdleExpiryKeeps(cfg: Config, s: State)
    requires Inv(cfg, s) && s.timerGeneration in s.trace.timers
    ensures Inv(cfg, Expired(Fired(s, s.timerGeneration)).(open := false))
  {
    hide Inv;
    ExpiredKeeps(cfg, s, Expired(Fired(s, s.timerGeneration)).(open := false));
  }

  lemma {:induction false} LateKeeps(cfg: Config, s: State, env: Env)
    requires Inv(cfg, s) && s.timerGeneration in s.trace.timers
    ensures Inv(cfg, SendStockReply(cfg, Unkept(Expired(Fired(s, s.timerGeneration))), REQUEST_TIMEOUT, env))
  {
    hide Inv, SendStockReply, RecordOf;
    var expired := Unkept(Expired(Fired(s, s.timerGeneration)));
    StockCloses(cfg, expired, REQUEST_TIMEOUT, env);
    ExpiredKeeps(cfg, s, SendStockReply(cfg, expired, REQUEST_TIMEOUT, env));
  }

  lemma {:induction false} TimerKeeps(cfg: Config, s: State, aborted: bool, generation: nat, env: Env)
    requires Inv(cfg, s) && Enabled(s, TimerFired(aborted, generation))
    ensures Inv(cfg, HandleTimer(cfg, s, aborted, generation, env))
  {
    hide Inv, SendStockReply, Expired, Unkept, Fired;
    if generation != s.timerGeneration {
      FiredKeeps(cfg, s, generation);
    } else if s.idle {
      IdleExpiryKeeps(cfg, s);
    } else {
      LateKeeps(cfg, s, env);
    }
  }

  // ---------------------------------------------------------------- a streamed reply

  /** The fields of a reply do not depend on what was streamed. */
  lemma {:induction false} SameHead(cfg: Config, e: Exchange, chunk: string)
    requires e.outcome.Handled?
    ensures var f := e.(outcome := WithChunk(e.outcome, chunk));
            StreamHead(cfg, f) == StreamHead(cfg, e) && Reuses(f) == Reuses(e) && InOnePiece(f) == InOnePiece(e) &&
            IsPassthrough(f) == IsPassthrough(e)
  {
    hide ServerHeaders, RegularReply, StreamedReply, ChunkedReply, Vetoes, NegotiateVersion, HeaderSection;
  }

  lemma {:induction false} OneMoreChunk(chunks: seq<string>, chunk: string)
    ensures Concat(chunks + [chunk]) == Concat(chunks) + chunk
    ensures Framed(chunks + [chunk]) == Framed(chunks) + (if chunk == "" then "" else Chunk(chunk))
  {
    assert (chunks + [chunk])[..|chunks|] == chunks;
  }

  /** The wire and what is still held back make up what was streamed so far. */
  predicate Owing(cfg: Config, s: State, body: string) {
    && (s.keepAlive && s.pendingHeaders == [] ==> !s.broken)
    && (!s.broken ==> s.trace.wire + s.pendingHeaders == StreamedSoFar(cfg, s.trace, Current(s), body) && Past(cfg, s))
  }

  function Body(s: State): string {
    if s.trace.outcome.Handled? then Concat(s.trace.outcome.chunks) else ""
  }

  function ChunkedBody(s: State): string {
    if s.trace.outcome.Handled? then Framed(s.trace.outcome.chunks) else ""
  }

  lemma {:induction false} ProducedRuns(cfg: Config, s: State, chunk: string)
    requires Running(cfg, s)
    ensures Running(cfg, Produced(s, chunk))
  {
    hide Usable, ReadsAs, History;
  }

  lemma {:induction false} ProducedInRequest(cfg: Config, s: State, chunk: string)
    requires InRequest(cfg, s)
    ensures InRequest(cfg, Produced(s, chunk))
    ensures Current(Produced(s, chunk)) == Current(s).(outcome := WithChunk(s.trace.outcome, chunk))
  {
    hide MayPersist, Asked100, NegotiateVersion, HasHeader;
  }

  lemma {:induction false} ProducedReplies(cfg: Config, s: State, chunk: string)
    requires Replying(cfg, s)
    ensures Replying(cfg, Produced(s, chunk)) && SelectedPool(Produced(s, chunk)) == SelectedPool(s)
  {
    hide InRequest, Current, HandlerRequest, Reuses;
    ProducedInRequest(cfg, s, chunk);
    if s.trace.outcome.Handled? {
      assert Current(s).outcome == s.trace.outcome by { CurrentOutcome(s); }
      SameHead(cfg, Current(s), chunk);
    }
  }

  lemma {:induction false} CurrentOutcome(s: State)
    ensures Current(s).outcome == s.trace.outcome && Current(s).request == s.trace.parsed
  {
  }

  lemma {:induction false} PoolAside(s: State, chunk: string, env: Env)
    ensures SelectedPool(FlushPendingHeaders(Produced(s, chunk), env)) == SelectedPool(s)
  {
  }

  lemma {:induction false} ProducedCounts(cfg: Config, s: State, chunk: string)
    requires Streaming(s)
    ensures Streaming(Produced(s, chunk)) && (Counted(s) ==> Counted(Produced(s, chunk))) &&
            (InChunks(s) ==> InChunks(Produced(s, chunk)))
    ensures Body(Produced(s, chunk)) == Body(s) + chunk
    ensures ChunkedBody(Produced(s, chunk)) == ChunkedBody(s) + (if chunk == "" then "" else Chunk(chunk))
  {
    hide Chunk, Concat, Framed;
    OneMoreChunk(s.trace.outcome.chunks, chunk);
  }

  lemma {:induction false} MoreBytes(w: Wire, a: Wire, b: Wire, x: string, y: string)
    requires w + a == b + Bytes(x)
    ensures w + (a + Bytes(y)) == b + Bytes(x + y)
  {
    BytesOfConcat(x, y);
    assert w + (a + Bytes(y)) == w + a + Bytes(y);
    assert b + Bytes(x + y) == b + Bytes(x) + Bytes(y);
  }

  lemma {:induction false} ProducedOwes(cfg: Config, s: State, chunk: string, body: string, piece: string)
    requires Owing(cfg, s, body) && s.trace.outcome.Handled?
    ensures var t := Produced(s, chunk);
            !s.broken ==> s.trace.wire + (s.pendingHeaders + Bytes(piece)) ==
                          StreamedSoFar(cfg, t.trace, Current(t), body + piece) && Past(cfg, t)
    ensures piece == "" ==> Owing(cfg, Produced(s, chunk), body)
  {
    hide Bytes, Prologue, StreamHead, Concat, Framed;
    SameHead(cfg, Current(s), chunk);
    var t := Produced(s, chunk);
    assert Current(t) == Current(s).(outcome := WithChunk(s.trace.outcome, chunk));
    if !s.broken {
      MoreBytes(s.trace.wire, s.pendingHeaders, Prologue(cfg, s.trace) + StreamHead(cfg, Current(s)), body, piece);
      assert Prologue(cfg, t.trace) == Prologue(cfg, s.trace) by { SamePrologue(cfg, s.trace, t.trace); }
    }
  }

  lemma {:induction false} SamePrologue(cfg: Config, t: Trace, u: Trace)
    requires t.exchanges == u.exchanges && t.interim == u.interim
    ensures Prologue(cfg, t) == Prologue(cfg, u)
  {
  }

  /** A streamed reply is under way: with a length announced, or in chunks. */
  predicate StreamReady(cfg: Config, s: State, chunked: bool) {
    Replying(cfg, s) &&
    (!s.timedOut ==>
       if chunked then InChunks(s) && Owing(cfg, s, ChunkedBody(s)) else Counted(s) && Owing(cfg, s, Body(s)))
  }

  lemma {:induction false} PieceKeeps(cfg: Config, s: State, piece: string, op: Continuation)
    requires Running(cfg, s) && Replying(cfg, s) && piece != ""
    requires op == WriteStream || op == WriteChunked || op == WriteFinal
    requires !s.timedOut ==> if op == WriteStream then Counted(s) else InChunks(s)
    requires !s.timedOut && !s.broken ==>
               s.trace.wire + (s.pendingHeaders + Bytes(piece)) == Target(cfg, s, op) && Past(cfg, s)
    ensures Inv(cfg, SendPiece(s, piece, op))
  {
    hide Running, Inv, Counted, InChunks, Target, InRequest, Reuses, Current, HandlerRequest, Reading, Ready;
    var whole := s.pendingHeaders + Bytes(piece);
    var t := s.(responseString := whole, pendingHeaders := [], sentBytes := 0);
    PieceAside(cfg, s, whole, op);
    assert whole[0..] == whole;
    Awaiting(cfg, t, op);
  }

  lemma {:induction false} PieceAside(cfg: Config, s: State, whole: Wire, op: Continuation)
    requires Running(cfg, s)
    ensures var t := s.(responseString := whole, pendingHeaders := [], sentBytes := 0);
            Running(cfg, t) && SameParts(cfg, s, Await(t, op), op)
  {
    hide Usable, ReadsAs, History, Asked100, MayPersist, NegotiateVersion, Transcript, Reply, StreamHead, Framed,
         Concat;
    hide InOnePiece, IsPassthrough;
  }

  /** Two states in which the same reply is under way. */
  ghost predicate SameParts(cfg: Config, s: State, t: State, op: Continuation) {
    && InRequest(cfg, s) == InRequest(cfg, t) && Current(s) == Current(t) && Counted(s) == Counted(t)
    && InChunks(s) == InChunks(t) && Target(cfg, s, op) == Target(cfg, t, op)
    && |Prologue(cfg, s.trace)| == |Prologue(cfg, t.trace)|
  }

  lemma {:induction false} FlushParts(cfg: Config, s: State, env: Env, op: Continuation)
    requires Running(cfg, s)
    ensures var t := FlushPendingHeaders(s, env);
            Running(cfg, t) && SameParts(cfg, s, t, op) && t.pendingHeaders == [] && t.keepAlive == s.keepAlive &&
            t.timerGeneration == s.timerGeneration && t.timedOut == s.timedOut && t.open == s.open &&
            t.trace.timers == s.trace.timers && t.trace.outcome == s.trace.outcome &&
            t.trace.parsed == s.trace.parsed &&
            SelectedPool(t) == SelectedPool(s)
    ensures var t := FlushPendingHeaders(s, env);
            FlushOk(s, env) ==> t.broken == s.broken && t.trace.wire == s.trace.wire + s.pendingHeaders &&
                                (s.pendingHeaders != [] ==> !s.broken)
  {
    hide Usable, ReadsAs, History, Asked100, MayPersist, NegotiateVersion, Transcript, Reply, StreamHead, Framed,
         Concat;
    hide InOnePiece, IsPassthrough, Write, WriteOk;
    WriteKeeps(s, s.pendingHeaders, env.flush);
    if FlushOk(s, env) && s.pendingHeaders != [] {
      SendsMeansWhole(s, s.pendingHeaders, env.flush);
    }
  }

  lemma {:induction false} SendsMeansWhole(s: State, w: Wire, io: Io)
    requires WriteOk(s, w, io) && w != []
    ensures !s.broken
  {
  }

  lemma {:induction false} Arrives(cfg: Config, s: State, op: Continuation)
    requires op.ChunkTask? || op.ChunkedTask?
    requires Owing(cfg, s, if op.ChunkTask? then Body(s) else ChunkedBody(s))
    ensures !s.broken ==> s.trace.wire + s.pendingHeaders == Target(cfg, s, op)
    ensures s.keepAlive && s.pendingHeaders == [] ==> !s.broken
  {
    hide Prologue, StreamHead;
  }

  lemma {:induction false} ScheduleChunkKeeps(cfg: Config, s: State, op: Continuation, env: Env)
    requires Running(cfg, s) && Replying(cfg, s) && s.pendingHeaders == []
    requires (op.ChunkTask? || op.ChunkedTask?) && op.pool == SelectedPool(s)
    requires !s.timedOut ==> (if op.ChunkTask? then Counted(s) else InChunks(s)) && Arrived(cfg, s, op)
    ensures Inv(cfg, Schedule(cfg, s, op, env))
  {
    hide Running, Inv, Counted, InChunks, Target, InRequest, Reuses, Current, HandlerRequest, Reading, Ready,
         SendStockReply;
    if env.scheduled {
      AwaitParts(cfg, s, op);
      Awaiting(cfg, s, op);
    } else {
      AbortKeeps(cfg, s, env);
    }
  }

  lemma {:induction false} AwaitParts(cfg: Config, s: State, op: Continuation)
    ensures SameParts(cfg, s, Await(s, op), op)
  {
    hide Asked100, MayPersist, NegotiateVersion, Transcript, Reply, StreamHead, Framed, Concat, InOnePiece,
         IsPassthrough;
  }

  /** The streamer has nothing to send yet: the header section goes out on its own. */
  lemma {:induction false} EmptyChunkKeeps(cfg: Config, s: State, op: Continuation, env: Env)
    requires Running(cfg, s) && StreamReady(cfg, s, op.ChunkedTask?)
    requires (op.ChunkTask? || op.ChunkedTask?) && op.pool == SelectedPool(s)
    ensures var flushed := FlushPendingHeaders(s, env);
            Inv(cfg, if FlushOk(s, env) then Schedule(cfg, flushed, op, env) else flushed)
  {
    hide Running, Inv, Counted, InChunks, Target, InRequest, Reuses, Current, HandlerRequest, Schedule, SelectedPool,
         Owing;
    hide FlushPendingHeaders, FlushOk, Body, ChunkedBody;
    var flushed := FlushPendingHeaders(s, env);
    FlushParts(cfg, s, env, op);
    if !FlushOk(s, env) {
      Ended(cfg, flushed);
    } else {
      if !s.timedOut {
        Arrives(cfg, s, op);
      }
      ScheduleChunkKeeps(cfg, flushed, op, env);
    }
  }

  lemma {:induction false} ProducedReady(cfg: Config, s: State, chunk: string, chunked: bool)
    requires StreamReady(cfg, s, chunked)
    ensures chunk == "" ==> StreamReady(cfg, Produced(s, chunk), chunked)
    ensures !s.timedOut ==> if chunked then InChunks(Produced(s, chunk)) else Counted(Produced(s, chunk))
    ensures Replying(cfg, Produced(s, chunk))
    ensures !s.timedOut && !s.broken && chunk != "" ==>
              var t, piece, op := Produced(s, chunk), if chunked then Chunk(chunk) else chunk,
                                  if chunked then WriteChunked else WriteStream;
              t.trace.wire + (t.pendingHeaders + Bytes(piece)) == Target(cfg, t, op) && Past(cfg, t)
  {
    hide InRequest, Reuses, Current, HandlerRequest, Chunk, Framed, Concat, StreamedSoFar, Replying;
    ProducedReplies(cfg, s, chunk);
    assert s.timedOut || s.trace.outcome.Handled? by { ReplyingHandled(cfg, s); }
    if !s.timedOut {
      ProducedCounts(cfg, s, chunk);
      if chunked {
        ProducedOwes(cfg, s, chunk, ChunkedBody(s), if chunk == "" then "" else Chunk(chunk));
      } else {
        ProducedOwes(cfg, s, chunk, Body(s), chunk);
      }
      assert chunk == "" ==> Body(s) + chunk == Body(s) && ChunkedBody(s) + "" == ChunkedBody(s);
    }
  }

  lemma {:induction false} ReplyingHandled(cfg: Config, s: State)
    requires Replying(cfg, s)
    ensures s.timedOut || s.trace.outcome.Handled?
  {
  }

  /** A streamed reply that delivered what it announced is complete. */
  lemma {:induction false} StreamIsSent(cfg: Config, s: State)
    requires Replying(cfg, s) && !s.timedOut && s.keepAlive && Counted(s) && Arrived(cfg, s, ChunkTask(SelectedPool(s)))
    requires s.totalStreamedBytes == s.declaredContentLength
    ensures ReplySent(cfg, s)
  {
    hide InRequest, Reuses, HandlerRequest, FinalResponse, Concat, Transcript;
    var head, body := [Header(HeaderSection(FinalResponse(cfg, Current(s))))], Bytes(Concat(s.trace.outcome.chunks));
    assert Prologue(cfg, s.trace) + head + body == Prologue(cfg, s.trace) + (head + body);
  }

  /** A stream that has ended, as announced or not, has left all it produced on the wire. */
  lemma {:induction false} StreamIsAnswer(cfg: Config, s: State)
    requires Replying(cfg, s) && !s.timedOut && Counted(s) && Arrived(cfg, s, ChunkTask(SelectedPool(s)))
    ensures AnswerSent(cfg, s) && AnswerSent(cfg, CheckLength(s))
  {
    hide InRequest, Reuses, HandlerRequest, FinalResponse, Concat, Transcript;
    var e := Current(s);
    var prologue, body := Prologue(cfg, s.trace), Bytes(Concat(s.trace.outcome.chunks));
    if IsPassthrough(e) {
      assert prologue + [] + body == prologue + body;
    } else {
      var head := [Header(HeaderSection(FinalResponse(cfg, e)))];
      assert prologue + head + body == prologue + (head + body);
    }
    CheckedAnswer(cfg, s);
  }

  lemma {:induction false} CheckedAnswer(cfg: Config, s: State)
    requires AnswerSent(cfg, s)
    ensures AnswerSent(cfg, CheckLength(s))
  {
    hide AnswerSent;
    SameAnswer(cfg, s, Unkept(s));
  }

  lemma {:induction false} StreamEndKeeps(cfg: Config, s: State, shutdown: bool)
    requires Running(cfg, s) && Replying(cfg, s)
    requires !s.timedOut ==> Counted(s) && Arrived(cfg, s, ChunkTask(SelectedPool(s)))
    ensures Inv(cfg, FinishResponse(cfg, CheckLength(s), shutdown))
  {
    hide Running, Inv, Counted, Arrived, Replying, FinishResponse, ReplySent, AnswerSent;
    if !s.timedOut {
      StreamIsAnswer(cfg, s);
    }
    if s.keepAlive && s.totalStreamedBytes != s.declaredContentLength {
      UnkeptRuns(cfg, s);
    } else if s.keepAlive && !s.timedOut {
      StreamIsSent(cfg, s);
    }
    FinishKeeps(cfg, CheckLength(s), shutdown);
  }

  lemma {:induction false} ExitKeeps(cfg: Config, s: State, env: Env)
    requires Running(cfg, s) && StreamReady(cfg, s, false)
    ensures var flushed := FlushPendingHeaders(s, env);
            Inv(cfg, if FlushOk(s, env) then FinishResponse(cfg, CheckLength(flushed), env.atFinish) else flushed)
  {
    hide Running, Inv, Counted, InChunks, Target, InRequest, Reuses, Current, HandlerRequest, SelectedPool, Owing;
    hide FlushPendingHeaders, FlushOk, Body, ChunkedBody, FinishResponse, CheckLength;
    var flushed := FlushPendingHeaders(s, env);
    var op := ChunkTask(SelectedPool(s));
    FlushParts(cfg, s, env, op);
    if !FlushOk(s, env) {
      Ended(cfg, flushed);
    } else {
      if !s.timedOut {
        Arrives(cfg, s, op);
      }
      StreamEndKeeps(cfg, flushed, env.atFinish);
    }
  }

  lemma {:induction false} ChunkKeeps(cfg: Config, s: State, status: StreamStatus, env: Env)
    requires Running(cfg, s) && StreamReady(cfg, s, false)
    ensures Inv(cfg, GetNextChunk(cfg, s, status, env))
  {
    hide Running, Inv, Replying, Counted, InChunks, Target, Produced, StreamReady, FlushPendingHeaders, FlushOk,
         SendPiece,
         Schedule, FinishResponse, CheckLength;
    if status.StreamOk? {
      var produced := Produced(s, status.chunk);
      ProducedRuns(cfg, s, status.chunk);
      ProducedReady(cfg, s, status.chunk, false);
      ProducedAside(s, status.chunk);
      if status.chunk != "" {
        PieceKeeps(cfg, produced, status.chunk, WriteStream);
      } else {
        EmptyChunkKeeps(cfg, produced, ChunkTask(SelectedPool(s)), env);
      }
    } else {
      ExitKeeps(cfg, s, env);
    }
  }

  lemma {:induction false} ProducedAside(s: State, chunk: string)
    ensures var t := Produced(s, chunk);
            t.timedOut == s.timedOut && t.broken == s.broken && SelectedPool(t) == SelectedPool(s)
  {
  }

  /** The stream has ended well: the last chunk ends the body. */
  lemma {:induction false} LastChunkOwes(cfg: Config, s: State)
    requires StreamReady(cfg, s, true)
    ensures !s.timedOut && !s.broken ==>
              s.trace.wire + (s.pendingHeaders + Bytes(LAST_CHUNK)) == Target(cfg, s, WriteFinal) && Past(cfg, s)
  {
    hide Prologue, LAST_CHUNK, Framed, Bytes, HeaderSection, FinalResponse, InRequest, HandlerRequest, Reuses;
    if !s.timedOut && !s.broken {
      var prologue, head := Prologue(cfg, s.trace), [Header(HeaderSection(FinalResponse(cfg, Current(s))))];
      var framed := Framed(s.trace.outcome.chunks);
      MoreBytes(s.trace.wire, s.pendingHeaders, prologue + head, framed, LAST_CHUNK);
      assert prologue + head + Bytes(framed + LAST_CHUNK) == prologue + (head + Bytes(framed + LAST_CHUNK));
    }
  }

  lemma {:induction false} BrokenOffKeeps(cfg: Config, s: State, env: Env)
    requires Running(cfg, s)
    ensures Inv(cfg, Closed(FlushPendingHeaders(s, env)))
  {
    hide Running, Inv, FlushPendingHeaders, SameParts;
    FlushParts(cfg, s, env, WriteFinal);
    CloseRuns(cfg, FlushPendingHeaders(s, env));
    Ended(cfg, Closed(FlushPendingHeaders(s, env)));
  }

  lemma {:induction false} ChunkedKeeps(cfg: Config, s: State, status: StreamStatus, env: Env)
    requires Running(cfg, s) && StreamReady(cfg, s, true)
    ensures Inv(cfg, GetNextChunkedChunk(cfg, s, status, env))
  {
    hide Running, Inv, Replying, Counted, InChunks, Target, Produced, FlushPendingHeaders, FlushOk, SendPiece, Schedule,
         Chunk, LAST_CHUNK, Owing;
    match status
    case StreamOk(chunk) =>
      var produced := Produced(s, chunk);
      ProducedRuns(cfg, s, chunk);
      ProducedReady(cfg, s, chunk, true);
      ProducedAside(s, chunk);
      if chunk != "" {
        assert Chunk(chunk) != "" by { ChunkNotEmpty(chunk); }
        PieceKeeps(cfg, produced, Chunk(chunk), WriteChunked);
      } else {
        EmptyChunkKeeps(cfg, produced, ChunkedTask(SelectedPool(s)), env);
      }
    case ExitError => BrokenOffKeeps(cfg, s, env);
    case ExitOk =>
      LastChunkOwes(cfg, s);
      assert LAST_CHUNK != "" by { LastChunkNotEmpty(); }
      PieceKeeps(cfg, s, LAST_CHUNK, WriteFinal);
  }

  lemma {:induction false} ChunkNotEmpty(chunk: string)
    ensures Chunk(chunk) != ""
  {
    assert |CRLF| == 2;
  }

  lemma {:induction false} LastChunkNotEmpty()
    ensures LAST_CHUNK != ""
  {
  }

  // ---------------------------------------------------------------- the handler answers

  /** The handler has left its response, and nothing of it was sent yet. */
  predicate JustAnswered(cfg: Config, s: State) {
    && InRequest(cfg, s)
    && s.timerGeneration !in s.trace.timers
    && s.request == HandlerRequest(s.trace.parsed) && s.headRequest == (s.trace.parsed.verb == HEAD)
    && s.sentBytes == s.totalStreamedBytes == 0 && s.pendingHeaders == []
    && s.trace.outcome.Handled? && s.trace.outcome.given == s.request && s.trace.outcome.response == s.response
    && s.trace.outcome.chunks == []
    && (!s.timedOut ==>
          s.open && Obeyed(s.trace.outcome) && s.keepAlive == s.trace.kept &&
          (!s.broken ==> s.trace.wire == Prologue(cfg, s.trace)))
  }

  /** The server's own fields are in place. */
  predicate Announced(cfg: Config, s: State) {
    && Replying(cfg, s)
    && s.request == HandlerRequest(s.trace.parsed) && s.headRequest == (s.trace.parsed.verb == HEAD)
    && s.sentBytes == s.totalStreamedBytes == 0 && s.pendingHeaders == []
    && s.trace.outcome.Handled? && s.trace.outcome.given == s.request && s.trace.outcome.chunks == []
    && s.response.streaming == s.trace.outcome.response.streaming
    && s.response.chunked == s.trace.outcome.response.chunked
    && (!s.timedOut ==>
          s.response == ServerHeaders(cfg, AnswerVersion(Current(s)), s.requestCount, s.trace.date, Reuses(Current(s)),
                                      s.trace.outcome.response))
    && (!s.timedOut && !s.broken ==> s.trace.wire == Prologue(cfg, s.trace))
  }

  predicate PassesThrough(s: State) {
    !s.headRequest && s.response.streaming && s.response.gateway
  }

  lemma {:induction false} AnnouncedKeeps(cfg: Config, s: State, now: int)
    requires Running(cfg, s) && JustAnswered(cfg, s) && !PassesThrough(s)
    ensures Running(cfg, SetServerHeaders(cfg, s, now)) && Announced(cfg, SetServerHeaders(cfg, s, now))
  {
    hide Usable, ReadsAs, History, MayPersist, Asked100, HandlerRequest, Transcript, Vetoes, Announce;
  }

  lemma {:induction false} RegularIsReply(cfg: Config, s: State)
    requires Announced(cfg, s) && !s.timedOut && InOnePiece(Current(s))
    ensures var t := StartRegularReply(cfg, s);
            t.responseString == Reply(cfg, Current(s)) && t.response == FinalResponse(cfg, Current(s))
  {
    hide HandlerRequest, ServerHeaders, RegularReply, Reuses, InRequest, NegotiateVersion, Transcript;
    assert Bytes("") == [];
  }

  lemma {:induction false} RegularKeeps(cfg: Config, s: State)
    requires Running(cfg, s) && Announced(cfg, s) && (!s.timedOut ==> InOnePiece(Current(s)))
    ensures Inv(cfg, StartRegularReply(cfg, s))
  {
    hide Inv, HandlerRequest, ServerHeaders, RegularReply, InRequest, Reuses, Reply, HeaderSection, Bytes, InOnePiece;
    hide Running, Transcript, Interim, Counted, InChunks;
    var t := StartRegularReply(cfg, s);
    if !s.timedOut {
      RegularIsReply(cfg, s);
    }
    var ready := s.(response := t.response, responseString := t.responseString);
    assert t == Await(ready, WriteRegular);
    StringRuns(cfg, s, t.response, t.responseString);
    assert ready.responseString[0..] == ready.responseString;
    Awaiting(cfg, ready, WriteRegular);
  }

  lemma {:induction false} StringRuns(cfg: Config, s: State, response: Response, whole: Wire)
    requires Running(cfg, s)
    ensures var t := s.(response := response, responseString := whole);
            Running(cfg, t) && SameParts(cfg, s, Await(t, WriteRegular), WriteRegular)
  {
    hide Base, SameParts;
    var t := s.(response := response, responseString := whole);
    BaseOpen(cfg, s);
    SameBase(cfg, s, t);
    StringParts(cfg, s, response, whole);
    AwaitParts(cfg, t, WriteRegular);
    PartsOfBoth(cfg, s, t, Await(t, WriteRegular), WriteRegular);
  }

  lemma {:induction false} StringParts(cfg: Config, s: State, response: Response, whole: Wire)
    ensures SameParts(cfg, s, s.(response := response, responseString := whole), WriteRegular)
  {
    hide Asked100, MayPersist, NegotiateVersion, Transcript, Reply, StreamHead, Framed, Concat, InOnePiece,
         IsPassthrough;
  }

  lemma {:induction false} PartsOfBoth(cfg: Config, s: State, t: State, u: State, op: Continuation)
    requires SameParts(cfg, s, t, op) && SameParts(cfg, t, u, op)
    ensures SameParts(cfg, s, u, op)
  {
    hide InRequest, Counted, InChunks, Target, Current;
  }

  /** The header section of a streamed reply is held back, and is the one the reference has. */
  lemma {:induction false} HeldBack(cfg: Config, s: State, fields: Fields, length: nat)
    requires Running(cfg, s) && Announced(cfg, s)
    requires !s.timedOut ==> !InOnePiece(Current(s)) && !IsPassthrough(Current(s))
    requires fields == if s.response.chunked then
                         s.response.fields.(transferEncoding := Some("chunked"), contentLength := None)
                       else s.response.fields.(contentLength := Some(ContentLength(s.response)))
    requires !s.response.chunked ==> length == ContentLength(s.response)
    ensures var t := PreparePendingHeaders(cfg, Framing(s, length, fields));
            Running(cfg, t) && Replying(cfg, t) && t.trace == s.trace && t.timedOut == s.timedOut &&
            t.broken == s.broken &&
            Current(t) == Current(s) && t.totalStreamedBytes == 0 && t.declaredContentLength == length &&
            (!s.timedOut ==> t.pendingHeaders == StreamHead(cfg, Current(s)))
  {
    hide Usable, ReadsAs, History, MayPersist, Asked100, HandlerRequest, Transcript, ServerHeaders, Reuses;
  }

  lemma {:induction false} HeadIsOne(cfg: Config, e: Exchange)
    ensures |StreamHead(cfg, e)| == if IsPassthrough(e) then 0 else 1
  {
  }

  lemma {:induction false} BeginsStream(cfg: Config, s: State, t: State)
    requires Announced(cfg, s) && Replying(cfg, t) && t.trace == s.trace && t.timedOut == s.timedOut &&
             t.broken == s.broken
    requires Current(t) == Current(s) && t.totalStreamedBytes == 0
    requires !s.timedOut ==> !InOnePiece(Current(s)) && !IsPassthrough(Current(s))
    requires !s.timedOut ==> t.pendingHeaders == StreamHead(cfg, Current(s))
    requires !s.timedOut && !s.response.chunked ==> t.declaredContentLength == s.trace.outcome.response.streamLength
    ensures StreamReady(cfg, t, s.response.chunked)
  {
    hide Replying, HandlerRequest, ServerHeaders, StreamHead, Transcript;
    assert Bytes("") == [];
    if !s.timedOut && !s.broken {
      var begun := Prologue(cfg, t.trace) + StreamHead(cfg, Current(s));
      assert begun + [] == begun;
    }
    assert !s.timedOut ==> |StreamHead(cfg, Current(s))| == 1 by { HeadIsOne(cfg, Current(s)); }
    assert Replying(cfg, t) && Announced(cfg, s);
  }

  lemma {:induction false} StreamedLength(cfg: Config, s: State)
    requires Announced(cfg, s) && !s.timedOut && !InOnePiece(Current(s))
    ensures ContentLength(s.response) == s.trace.outcome.response.streamLength
  {
    hide Replying, HandlerRequest;
  }

  /** A streamed reply with its framing in place and its header section held back. */
  function Prepared(cfg: Config, s: State): State {
    if s.response.chunked then
      PreparePendingHeaders(cfg, Framing(s, s.declaredContentLength, s.response.fields.(
                                           transferEncoding := Some("chunked"), contentLength := None)))
    else
      PreparePendingHeaders(cfg, Framing(s, ContentLength(s.response), s.response.fields.(
                                           contentLength := Some(ContentLength(s.response)))))
  }

  lemma {:induction false} StreamBegins(cfg: Config, s: State)
    requires Running(cfg, s) && Announced(cfg, s)
    requires !s.timedOut ==> !InOnePiece(Current(s)) && !IsPassthrough(Current(s))
    ensures var t := Prepared(cfg, s);
            Running(cfg, t) && StreamReady(cfg, t, s.response.chunked) && t.trace == s.trace &&
            t.timedOut == s.timedOut && t.broken == s.broken && Current(t) == Current(s)
  {
    hide Running, Announced, StreamReady, InOnePiece, IsPassthrough, Current, PreparePendingHeaders, ContentLength,
         Replying, Framing, RecordOf;
    var chunked := s.response.chunked;
    var fields := if chunked then s.response.fields.(transferEncoding := Some("chunked"), contentLength := None)
                  else s.response.fields.(contentLength := Some(ContentLength(s.response)));
    var length := if chunked then s.declaredContentLength else ContentLength(s.response);
    HeldBack(cfg, s, fields, length);
    if !s.timedOut {
      StreamedLength(cfg, s);
    }
    BeginsStream(cfg, s, Prepared(cfg, s));
  }

  lemma {:induction false} StreamKeeps(cfg: Config, s: State, first: StreamStatus, env: Env)
    requires Running(cfg, s) && Announced(cfg, s)
    requires !s.timedOut ==> !InOnePiece(Current(s)) && !IsPassthrough(Current(s))
    ensures Inv(cfg, if s.response.chunked then StartChunkedReply(cfg, s, first, env)
                     else StartStreamReply(cfg, s, first, env))
  {
    hide Inv, Running, Announced, StreamReady, InOnePiece, IsPassthrough, GetNextChunk, GetNextChunkedChunk, Current,
         PreparePendingHeaders, ContentLength, Framing, RecordOf;
    StreamBegins(cfg, s);
    if s.response.chunked {
      ChunkedKeeps(cfg, Prepared(cfg, s), first, env);
    } else {
      ChunkKeeps(cfg, Prepared(cfg, s), first, env);
    }
  }

  lemma {:induction false} GatewayKeeps(cfg: Config, s: State, first: StreamStatus, env: Env)
    requires Running(cfg, s) && JustAnswered(cfg, s) && PassesThrough(s)
    ensures Inv(cfg, StartGatewayReply(cfg, s, first, env))
  {
    hide Inv, Running, GetNextChunk;
    UnkeptRuns(cfg, s);
    GatewayReady(cfg, s);
    ChunkKeeps(cfg, Unkept(s), first, env);
  }

  lemma {:induction false} GatewayReady(cfg: Config, s: State)
    requires JustAnswered(cfg, s) && PassesThrough(s)
    ensures StreamReady(cfg, Unkept(s), false)
  {
    hide MayPersist, Asked100, HandlerRequest, Transcript, Interim, NegotiateVersion;
    assert Bytes("") == [];
    assert Prologue(cfg, s.trace) + [] + [] == Prologue(cfg, s.trace) + [] == Prologue(cfg, s.trace);
  }

  lemma {:induction false} TakenAside(s: State, op: Continuation)
    ensures var t := Take(s, op);
            t.timerGeneration == s.timerGeneration && t.prematurelyDisconnected == s.prematurelyDisconnected &&
            t.request == s.request && t.response == s.response && t.sentBytes == s.sentBytes &&
            t.responseString == s.responseString && t.adminQuery == s.adminQuery && t.queryIsFast == s.queryIsFast
  {
  }

  lemma {:induction false} AnnouncedKind(cfg: Config, s: State, now: int)
    ensures var t := SetServerHeaders(cfg, s, now);
            t.response.chunked == s.response.chunked && t.response.streaming == s.response.streaming &&
            t.headRequest == s.headRequest
  {
    hide Vetoes, Announce;
  }

  lemma {:induction false} StartReplyKeeps(cfg: Config, s: State, first: StreamStatus, env: Env)
    requires Running(cfg, s) && JustAnswered(cfg, s)
    ensures Inv(cfg, StartReply(cfg, s, first, env))
  {
    hide Inv, Running, StartGatewayReply, StartRegularReply, StartChunkedReply, StartStreamReply, SetServerHeaders,
         Announced,
         JustAnswered, InOnePiece, IsPassthrough;
    if PassesThrough(s) {
      GatewayKeeps(cfg, s, first, env);
    } else {
      var announced := SetServerHeaders(cfg, s, env.now);
      AnnouncedKeeps(cfg, s, env.now);
      AnnouncedShape(cfg, s, env.now);
      if s.headRequest || !s.response.streaming {
        RegularKeeps(cfg, announced);
      } else {
        StreamKeeps(cfg, announced, first, env);
      }
    }
  }

  lemma {:induction false} AnnouncedShape(cfg: Config, s: State, now: int)
    requires JustAnswered(cfg, s)
    ensures var t := SetServerHeaders(cfg, s, now);
            t.response.chunked == s.response.chunked && t.response.streaming == s.response.streaming &&
            t.headRequest == s.headRequest &&
            InOnePiece(Current(t)) == (s.headRequest || !s.response.streaming) &&
            IsPassthrough(Current(t)) == PassesThrough(s)
  {
    hide InRequest, HandlerRequest, Vetoes, Announce, Prologue;
  }

  lemma {:induction false} CancelKeeps(cfg: Config, s: State, pool: Pool)
    requires Inv(cfg, s) && HandleTask(pool) in s.trace.pending
    ensures var t := Cancelled(Take(s, HandleTask(pool)));
            Running(cfg, t) && Ready(cfg, t) && t.timerGeneration !in t.trace.timers
  {
    hide Usable, ReadsAs, History, MayPersist, Asked100, HandlerRequest, Transcript, Reading, Replying;
    TakeRuns(cfg, s, HandleTask(pool));
  }

  lemma {:induction false} AnswerKeeps(cfg: Config, s: State, handler: Handler, response: Response)
    requires Running(cfg, s) && Ready(cfg, s) && s.timerGeneration !in s.trace.timers
    requires handler(s.request, s.response) == Answered(response)
    ensures var t := Respond(s, response, Handled(handler, s.request, response, []));
            Running(cfg, t) && JustAnswered(cfg, t)
  {
    hide Usable, ReadsAs, History, MayPersist, Asked100, HandlerRequest, Transcript, NegotiateVersion;
  }

  lemma {:induction false} CompletedKeeps(cfg: Config, s: State, pool: Pool, handler: Handler, first: StreamStatus,
                                          env: Env)
    requires Inv(cfg, s) && HandleTask(pool) in s.trace.pending
    ensures Inv(cfg, HandleCompletedRead(cfg, s, pool, handler, first, env))
  {
    hide Inv, Running, Ready, JustAnswered, SendStockReply, StartReply;
    var cancelled := Cancelled(Take(s, HandleTask(pool)));
    CancelKeeps(cfg, s, pool);
    Ended(cfg, cancelled);
    match handler(s.request, s.response)
    case Disconnected =>
    case Refused => ReadyStockKeeps(cfg, cancelled, BAD_REQUEST, env);
    case Answered(response) =>
      AnswerKeeps(cfg, cancelled, handler, response);
      StartReplyKeeps(cfg, Respond(cancelled, response, Handled(handler, s.request, response, [])), first, env);
  }

  // ---------------------------------------------------------------- a write completes

  lemma {:induction false} Rest(w: Wire, piece: Wire, sent: nat, n: nat)
    requires sent + n <= |piece|
    ensures w + piece[sent..sent + n] + piece[sent + n..] == w + piece[sent..]
  {
  }

  lemma {:induction false} AdvanceRuns(cfg: Config, s: State, n: nat, op: Continuation)
    requires Running(cfg, s) && s.sentBytes + n <= |s.responseString|
    ensures Running(cfg, Advance(s, n)) && SameParts(cfg, s, Advance(s, n), op)
  {
    hide Usable, ReadsAs, History, Asked100, MayPersist, NegotiateVersion, Transcript, Reply, StreamHead, Framed,
         Concat;
    hide InOnePiece, IsPassthrough;
  }

  /** Something of the piece has arrived: the rest is still to be sent, or nothing is. */
  lemma {:induction false} AdvanceArrives(cfg: Config, s: State, n: nat, op: Continuation)
    requires Running(cfg, s) && Sending(cfg, s, op) && CanDeliver(s, true, n)
    ensures var t := Advance(s, n);
            if t.sentBytes < |t.responseString| then Sending(cfg, t, op) else Arrived(cfg, t, op)
  {
    hide Running, Target, InRequest, Current, Counted, InChunks;
    AdvanceRuns(cfg, s, n, op);
    Rest(s.trace.wire, s.responseString, s.sentBytes, n);
    var t := Advance(s, n);
    if t.sentBytes == |t.responseString| {
      assert t.trace.wire + t.responseString[t.sentBytes..] == t.trace.wire;
    }
  }

  predicate WriteInv(cfg: Config, s: State, op: Continuation) {
    && Replying(cfg, s) && s.trace.outcome.Handled?
    && (if op.WriteRegular? then InOnePiece(Current(s)) else if op.WriteStream? then Counted(s) else InChunks(s))
  }

  lemma {:induction false} WriteTaken(cfg: Config, s: State, op: Continuation)
    requires Inv(cfg, s) && op in s.trace.pending && IsWrite(op) && s.open
    ensures var t := Take(s, op);
            Running(cfg, t) && Replying(cfg, t) && s.trace.outcome.Handled? && WriteInv(cfg, t, op) &&
            Sending(cfg, t, op)
  {
    hide InRequest, Counted, InChunks, Target, HandlerRequest, Reading, Ready, Running, Reuses, InOnePiece, Current;
    TakeRuns(cfg, s, op);
    TakeParts(cfg, s, op);
    InvOpen(cfg, s);
  }

  lemma {:induction false} InvOpen(cfg: Config, s: State)
    requires Inv(cfg, s)
    ensures s.timedOut ==> !s.open
  {
    hide OpInv;
  }

  lemma {:induction false} TakeParts(cfg: Config, s: State, op: Continuation)
    ensures SameParts(cfg, s, Take(s, op), op)
  {
    hide Asked100, MayPersist, NegotiateVersion, Transcript, Reply, StreamHead, Framed, Concat, InOnePiece,
         IsPassthrough;
  }

  /** Everything of the last piece has arrived: the reply is complete. */
  lemma {:induction false} LastPieceIsSent(cfg: Config, s: State, op: Continuation)
    requires op == WriteRegular || op == WriteFinal
    requires WriteInv(cfg, s, op) && Arrived(cfg, s, op) && !s.timedOut && s.keepAlive
    ensures ReplySent(cfg, s)
  {
    hide InRequest, HandlerRequest, Reuses, Prologue, Reply, Concat;
    ReusedIsFramed(Current(s));
  }

  lemma {:induction false} ReusedIsFramed(e: Exchange)
    requires Reuses(e)
    ensures !IsPassthrough(e)
  {
    hide Vetoes, InOnePiece;
  }

  lemma {:induction false} LastPieceIsAnswer(cfg: Config, s: State, op: Continuation)
    requires op == WriteRegular || op == WriteFinal
    requires WriteInv(cfg, s, op) && Arrived(cfg, s, op) && !s.timedOut
    ensures AnswerSent(cfg, s)
  {
    hide InRequest, HandlerRequest, Reuses, Transcript, Reply, Framed, Obeyed;
  }

  lemma {:induction false} LastPieceKeeps(cfg: Config, s: State, op: Continuation, shutdown: bool)
    requires op == WriteRegular || op == WriteFinal
    requires Running(cfg, s) && WriteInv(cfg, s, op) && Arrived(cfg, s, op)
    ensures Inv(cfg, FinishResponse(cfg, s, shutdown))
  {
    hide Running, Inv, WriteInv, Arrived, ReplySent, FinishResponse, AnswerSent;
    if !s.timedOut {
      LastPieceIsAnswer(cfg, s, op);
    }
    if s.keepAlive && !s.timedOut {
      LastPieceIsSent(cfg, s, op);
    }
    FinishKeeps(cfg, s, shutdown);
  }

  lemma {:induction false} ArrivedIsTask(cfg: Config, s: State, op: Continuation, pool: Pool)
    requires Arrived(cfg, s, op)
    ensures op == WriteStream ==> Arrived(cfg, s, ChunkTask(pool))
    ensures op == WriteChunked ==> Arrived(cfg, s, ChunkedTask(pool))
  {
    hide StreamedSoFar, Reply;
  }

  lemma {:induction false} DeliveredKeeps(cfg: Config, s: State, op: Continuation, env: Env)
    requires Running(cfg, s) && WriteInv(cfg, s, op) && Arrived(cfg, s, op) && IsWrite(op)
    ensures Inv(cfg, match op
                     case WriteStream => Schedule(cfg, s, ChunkTask(SelectedPool(s)), env)
                     case WriteChunked => Schedule(cfg, s, ChunkedTask(SelectedPool(s)), env)
                     case _ => FinishResponse(cfg, s, env.atFinish))
  {
    hide Running, Inv, Replying, FinishResponse, Schedule, Target, InOnePiece, Counted, InChunks, SelectedPool;
    ArrivedIsTask(cfg, s, op, SelectedPool(s));
    match op
    case WriteStream => ScheduleChunkKeeps(cfg, s, ChunkTask(SelectedPool(s)), env);
    case WriteChunked => ScheduleChunkKeeps(cfg, s, ChunkedTask(SelectedPool(s)), env);
    case _ => LastPieceKeeps(cfg, s, op, env.atFinish);
  }

  lemma {:induction false} AdvanceInv(cfg: Config, s: State, n: nat, op: Continuation)
    requires Running(cfg, s) && WriteInv(cfg, s, op) && s.sentBytes + n <= |s.responseString|
    ensures WriteInv(cfg, Advance(s, n), op)
  {
    hide Running, Target, InRequest, Current, Counted, InChunks, HandlerRequest, Reuses, InOnePiece;
    AdvanceRuns(cfg, s, n, op);
  }

  lemma {:induction false} GoesOn(cfg: Config, s: State, op: Continuation)
    requires Running(cfg, s) && WriteInv(cfg, s, op) && Sending(cfg, s, op) && IsWrite(op)
    ensures Inv(cfg, Await(s, op))
  {
    hide Running, Inv, Target, InRequest, Current, Counted, InChunks, HandlerRequest, Reuses, InOnePiece, Reading,
         Ready;
    AwaitParts(cfg, s, op);
    Awaiting(cfg, s, op);
  }

  lemma {:induction false} BreakRuns(cfg: Config, s: State)
    requires Running(cfg, s)
    ensures Running(cfg, Failing(s))
  {
    hide Usable, ReadsAs, History;
  }

  lemma {:induction false} WrittenKeeps(cfg: Config, s: State, op: Continuation, ok: bool, n: nat, env: Env)
    requires Inv(cfg, s) && op in s.trace.pending && IsWrite(op) && CanDeliver(s, ok, n)
    ensures Inv(cfg, Written(cfg, s, op, ok, n, env))
  {
    hide Running, Inv, Replying, WriteInv, Sending, Arrived, AbortReply, Schedule, FinishResponse;
    var taken := Take(s, op);
    TakeRuns(cfg, s, op);
    if !ok {
      BreakRuns(cfg, taken);
      AbortKeeps(cfg, Failing(taken), env);
    } else {
      WriteTaken(cfg, s, op);
      var sent := Advance(taken, n);
      AdvanceRuns(cfg, taken, n, op);
      AdvanceArrives(cfg, taken, n, op);
      AdvanceInv(cfg, taken, n, op);
      if sent.sentBytes < |sent.responseString| {
        GoesOn(cfg, sent, op);
      } else {
        DeliveredKeeps(cfg, sent, op, env);
      }
    }
  }

  // ---------------------------------------------------------------- every step, every run

  lemma {:induction false} ChunkTaken(cfg: Config, s: State, op: Continuation)
    requires Inv(cfg, s) && op in s.trace.pending && (op.ChunkTask? || op.ChunkedTask?)
    ensures Running(cfg, Take(s, op)) && StreamReady(cfg, Take(s, op), op.ChunkedTask?)
  {
    hide Running, Reading, Ready, InRequest, Counted, InChunks, Current, HandlerRequest, Reuses, Arrived, Owing, Body,
         ChunkedBody, SelectedPool, Target;
    TakeRuns(cfg, s, op);
    TakeParts(cfg, s, op);
    TaskOwes(cfg, s, op);
  }

  lemma {:induction false} TaskOwes(cfg: Config, s: State, op: Continuation)
    requires op.ChunkTask? || op.ChunkedTask?
    ensures var t := Take(s, op);
            Arrived(cfg, s, op) ==> Owing(cfg, t, if op.ChunkTask? then Body(t) else ChunkedBody(t))
  {
    hide Transcript, StreamHead;
    assert s.trace.wire + [] == s.trace.wire;
  }

  lemma {:induction false} StepKeeps(cfg: Config, s: State, input: Input, env: Env)
    requires Inv(cfg, s) && Enabled(s, input) && Usable(cfg)
    ensures Inv(cfg, Step(cfg, s, input, env))
  {
    hide Inv, Running, StreamReady, Usable, HandleRead, HandleTimer, HandleCompletedRead, GetNextChunk,
         GetNextChunkedChunk,
         Written, HandleHandshake;
    match input
    case HandshakeDone(ok) => HandshakeKeeps(cfg, s, ok);
    case ReadDone(op, ok, data) => ReadKeeps(cfg, s, op, ok, data, env);
    case TimerFired(aborted, generation) => TimerKeeps(cfg, s, aborted, generation, env);
    case TaskRun(pool, handler, first) => CompletedKeeps(cfg, s, pool, handler, first, env);
    case ChunkReady(pool, status) =>
      ChunkTaken(cfg, s, ChunkTask(pool));
      ChunkKeeps(cfg, Take(s, ChunkTask(pool)), status, env);
    case ChunkedReady(pool, status) =>
      ChunkTaken(cfg, s, ChunkedTask(pool));
      ChunkedKeeps(cfg, Take(s, ChunkedTask(pool)), status, env);
    case WriteDone(op, ok, n) => WrittenKeeps(cfg, s, op, ok, n, env);
  }

  lemma {:induction false} NewRuns(cfg: Config)
    requires Usable(cfg)
    ensures Running(cfg, NEW_STATE) && Reading(cfg, NEW_STATE)
  {
    hide Reliable, Asked100, Reusable;
    assert Transcript(cfg, []) == [];
  }

  lemma {:induction false} FirstReadKeeps(cfg: Config, s: State)
    requires Running(cfg, s) && Reading(cfg, s) && !s.idle && s.buffer == ""
    ensures Inv(cfg, Await(ArmTimer(s, cfg.timeout), Read))
    ensures Inv(cfg, Await(ArmTimer(s, cfg.timeout), Handshake))
  {
    hide Running, Reading, Timed, Ready, Replying, Inv;
    NothingIncomplete(cfg, s);
    ArmedReads(cfg, s, cfg.timeout, Read);
    Awaiting(cfg, ArmTimer(s, cfg.timeout), Read);
    ArmedReads(cfg, s, cfg.timeout, Handshake);
    Awaiting(cfg, ArmTimer(s, cfg.timeout), Handshake);
  }

  lemma {:induction false} StartKeeps(cfg: Config)
    requires Usable(cfg)
    ensures Inv(cfg, StartConnection(cfg, NEW_STATE))
  {
    hide Running, Reading, Inv, Usable, Await, ArmTimer;
    NewRuns(cfg);
    FirstReadKeeps(cfg, NEW_STATE);
  }
}
