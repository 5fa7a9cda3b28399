/** Replies that end a connection before its handler is called: what event leads to which, and what the client reads. */
module ConnectionClosing {
  import opened Wrappers
  import opened Text
  import opened HeaderTokens
  import opened RequestHead
  import opened ChunkedCodec
  import opened Messages
  import opened RequestStream
  import opened Replies
  import opened ConnectionModel
  import opened ConnectionInvariants
  import opened ConnectionHistory
  import opened ConnectionSteps
  import opened ConnectionRuns
  import opened ConnectionTheorems
  import opened ClientDecoder

  // ---------------------------------------------------------------- which reply

  /** The head that has arrived asks for something the server does not do, and nothing was decided about it before. */
  predicate Unmet(s: State, buffer: string) {
    var head := ScanHead(buffer);
    && !s.expectHandled && head.complete && head.expectation != "" && NegotiateVersion(head.version) == V11
    && !HasToken(head.expectation, "100-continue")
  }

  /** The head asks for an interim reply: in a version that knows one, the list of what it expects has that element, in
      whatever case. */
  predicate AsksContinue(head: RawRequestHead) {
    && NegotiateVersion(head.version) == V11
    && exists e :: e in Elements(head.expectation) && Lower(e) == "100-continue"
  }

  /** The interim reply is due: the head that has arrived asks for it, and nothing was decided about it before. */
  predicate Due(s: State, buffer: string) {
    !s.expectHandled && ScanHead(buffer).complete && AsksContinue(ScanHead(buffer))
  }

  /** Octets arrive that complete no request, and nothing is wrong with them. */
  predicate Incompletes(cfg: Config, s: State, input: Input, env: Env) {
    && input.ReadDone? && LooksAt(cfg, s, input.ok, input.data, env)
    && cfg.parse(s.buffer + input.data).Incomplete? && !TooLarge(cfg, s.buffer + input.data)
  }

  /** The event leads to an interim reply. */
  predicate Prompts(cfg: Config, s: State, input: Input, env: Env) {
    Incompletes(cfg, s, input, env) && Due(s, s.buffer + input.data)
  }

  /** The status of the reply that ends the connection, if the event leads to one. */
  function ClosingStatus(cfg: Config, s: State, input: Input, env: Env): Option<int> {
    match input
    case TimerFired(aborted, generation) =>
      if aborted || generation != s.timerGeneration || s.idle then None else Some(REQUEST_TIMEOUT)
    case ReadDone(op, ok, data) =>
      if env.atRead then Some(cfg.shutdown)
      else if !ok then None
      else if cfg.maxRequestSize > 0 && s.receivedBytes + |data| > cfg.maxRequestSize then Some(ENTITY_TOO_LARGE)
      else if cfg.parse(s.buffer + data).Failed? then Some(BAD_REQUEST)
      else if cfg.parse(s.buffer + data).Complete? then None
      else if TooLarge(cfg, s.buffer + data) then Some(HEADER_FIELDS_TOO_LARGE)
      else if Unmet(s, s.buffer + data) then Some(EXPECTATION_FAILED)
      else None
    case _ => None
  }

  // ---------------------------------------------------------------- what it does

  /** From `s` to `t` one reply was sent that announces its length and the close, all of it when the socket works, and
      otherwise a part; the socket is closed, and nothing was parsed or kept. */
  ghost predicate ClosesWith(cfg: Config, s: State, t: State, status: int, env: Env) {
    && !t.open && t.trace.exchanges == s.trace.exchanges && t.trace.requests == s.trace.requests
    && t.response.status == Some(status)
    && t.response.fields.contentLength == Some(|cfg.stock(status)|) && t.response.fields.transferEncoding == None
    && t.response.fields.connection == Some("close")
    && (var reply := [Header(HeaderSection(t.response))] + Bytes(cfg.stock(status));
        && s.trace.wire <= t.trace.wire <= s.trace.wire + reply
        && (s.open && !s.broken && env.head.ok && env.body.ok ==> t.trace.wire == s.trace.wire + reply))
  }

  /** From `s` to `t` nothing was kept and nothing sent, but the interim reply if it was due: always when the socket
      works, and otherwise perhaps. */
  ghost predicate SaysNoMore(s: State, t: State, due: bool, env: Env) {
    && t.trace.exchanges == s.trace.exchanges
    && (t.trace.wire == s.trace.wire || (due && t.trace.wire == s.trace.wire + [CONTINUE]))
    && (due && s.open && !s.broken && env.interim.ok ==> t.trace.wire == s.trace.wire + [CONTINUE])
  }

  /** `u` is on the way from `s` to a reply: nothing was said, parsed or kept. */
  ghost predicate OnTheWay(s: State, u: State) {
    && RecordOf(u).(received := "", timedOut := false, tooLarge := false, kept := false) ==
       RecordOf(s).(received := "", timedOut := false, tooLarge := false, kept := false)
    && !u.keepAlive && u.response == EMPTY_RESPONSE
  }

  lemma {:induction false} StockClosesWith(cfg: Config, s: State, u: State, status: int, env: Env)
    requires OnTheWay(s, u)
    ensures ClosesWith(cfg, s, SendStockReply(cfg, u, status, env), status, env)
  {
    hide SendStockReply, HeaderSection, Bytes;
    StockCloses(cfg, u, status, env);
    StockOnWire(cfg, u, status, env);
  }

  lemma {:induction false} WayOn(s: State, u: State)
    requires OnTheWay(s, u)
    ensures OnTheWay(s, Unkept(u)) && OnTheWay(s, Examined(u))
  {
  }

  lemma {:induction false} WayTaken(cfg: Config, s: State, op: Continuation)
    requires !s.keepAlive && s.response == EMPTY_RESPONSE
    ensures OnTheWay(s, Take(s, op))
  {
  }

  lemma {:induction false} WayBusy(cfg: Config, s: State, u: State, received: nat)
    requires OnTheWay(s, u)
    ensures OnTheWay(s, Tallied(LeaveIdle(cfg, u), received))
  {
    hide RecordOf;
  }

  lemma {:induction false} WayArrived(cfg: Config, s: State, u: State, data: string)
    requires OnTheWay(s, u)
    ensures OnTheWay(s, Arrive(u, data))
  {
  }

  // ---------------------------------------------------------------- octets arrive

  lemma {:induction false} AsksIsToken(head: RawRequestHead)
    ensures AsksContinue(head) <==> NegotiateVersion(head.version) == V11 && HasToken(head.expectation, "100-continue")
    ensures AsksContinue(head) ==> head.expectation != ""
  {
    hide NegotiateVersion, Lower;
    assert Elements("") == [];
  }

  lemma {:induction false} ExpectSays(cfg: Config, s: State, u: State, env: Env)
    requires OnTheWay(s, u)
    ensures var t := HandleExpectContinue(cfg, u, env);
            if Unmet(u, u.buffer) then ClosesWith(cfg, s, t, EXPECTATION_FAILED, env)
            else SaysNoMore(s, t, Due(u, u.buffer), env)
  {
    hide SendStockReply, ScanHead, HasToken, NegotiateVersion, ClosesWith, OnTheWay, SaysNoMore, Write, WriteOk, Await,
         Examined, Unkept, Told, RecordOf, AsksContinue;
    AsksIsToken(ScanHead(u.buffer));
    WayOn(s, u);
    WayOn(s, Examined(u));
    Waiting(s, u, Read, env);
    Waiting(s, Examined(u), Read, env);
    StockClosesWith(cfg, s, Unkept(Examined(u)), EXPECTATION_FAILED, env);
    InterimSays(s, Examined(u), env);
  }

  lemma {:induction false} Waiting(s: State, u: State, op: Continuation, env: Env)
    requires OnTheWay(s, u)
    ensures SaysNoMore(s, Await(u, op), false, env) && SaysNoMore(s, u, false, env)
  {
  }

  lemma {:induction false} InterimSays(s: State, u: State, env: Env)
    requires OnTheWay(s, u)
    ensures var written := Write(u, [CONTINUE], env.interim);
            if WriteOk(u, [CONTINUE], env.interim) then SaysNoMore(s, Await(Told(written), Read), true, env)
            else SaysNoMore(s, Unkept(written), true, env)
  {
    WritePart(u, [CONTINUE], env.interim);
    var part := DeliveredPart(u, [CONTINUE], env.interim);
    assert part == [] || part == [CONTINUE];
    assert s.trace.wire + [] == s.trace.wire;
  }

  lemma {:induction false} BufferSays(cfg: Config, s: State, u: State, env: Env)
    requires Usable(cfg) && OnTheWay(s, u) && !cfg.parse(u.buffer).Complete?
    ensures var t := ParseBuffer(cfg, u, env);
            if cfg.parse(u.buffer).Failed? then ClosesWith(cfg, s, t, BAD_REQUEST, env)
            else if TooLarge(cfg, u.buffer) then ClosesWith(cfg, s, t, HEADER_FIELDS_TOO_LARGE, env)
            else if Unmet(u, u.buffer) then ClosesWith(cfg, s, t, EXPECTATION_FAILED, env)
            else SaysNoMore(s, t, cfg.parse(u.buffer).Incomplete? && Due(u, u.buffer), env)
  {
    hide Usable, SendStockReply, HandleExpectContinue, ClosesWith, OnTheWay, SaysNoMore, Unmet, TooLarge, Unkept,
         RecordOf, Due;
    StockClosesWith(cfg, s, u, BAD_REQUEST, env);
    WayOn(s, u);
    StockClosesWith(cfg, s, Unkept(u), HEADER_FIELDS_TOO_LARGE, env);
    ExpectSays(cfg, s, u, env);
  }

  lemma {:induction false} ArrivedLooks(cfg: Config, s: State, op: Continuation, data: string)
    ensures var u := Arrive(Tallied(LeaveIdle(cfg, Take(s, op)), s.receivedBytes + |data|), data);
            u.buffer == s.buffer + data && Unmet(u, u.buffer) == Unmet(s, s.buffer + data) &&
            Due(u, u.buffer) == Due(s, s.buffer + data)
    ensures Tallied(LeaveIdle(cfg, Take(s, op)), s.receivedBytes + |data|).receivedBytes == s.receivedBytes + |data|
  {
    hide RecordOf, ScanHead, HasToken, NegotiateVersion, AsksContinue;
  }

  /** What a read that completes no request leads to. */
  lemma {:induction false} ReadSays(cfg: Config, s: State, op: Continuation, ok: bool, data: string, env: Env)
    requires Usable(cfg) && !s.keepAlive && s.response == EMPTY_RESPONSE
    requires HandleRead(cfg, s, op, ok, data, env).trace.requests == s.trace.requests
    ensures var t := HandleRead(cfg, s, op, ok, data, env);
            match ClosingStatus(cfg, s, ReadDone(op, ok, data), env)
            case Some(status) => ClosesWith(cfg, s, t, status, env)
            case None => SaysNoMore(s, t, Prompts(cfg, s, ReadDone(op, ok, data), env), env)
  {
    hide Usable, SendStockReply, ParseBuffer, ClosesWith, OnTheWay, SaysNoMore, Unmet, TooLarge, RecordOf, Take,
         LeaveIdle, Tallied, Arrive, Due;
    var taken := Take(s, op);
    WayTaken(cfg, s, op);
    StockClosesWith(cfg, s, taken, cfg.shutdown, env);
    Waiting(s, taken, Read, env);
    var busy := Tallied(LeaveIdle(cfg, taken), s.receivedBytes + |data|);
    WayBusy(cfg, s, taken, s.receivedBytes + |data|);
    WayArrived(cfg, s, busy, data);
    ArrivedLooks(cfg, s, op, data);
    StockClosesWith(cfg, s, busy, ENTITY_TOO_LARGE, env);
    var arrived := Arrive(busy, data);
    if LooksAt(cfg, s, ok, data, env) {
      if cfg.parse(s.buffer + data).Complete? {
        ArrivedState(cfg, s, op, data);
        BufferMeans(cfg, arrived, env);
      } else {
        BufferSays(cfg, s, arrived, env);
      }
    }
  }

  // ---------------------------------------------------------------- the timer fires

  lemma {:induction false} TimerSays(cfg: Config, s: State, aborted: bool, generation: nat, env: Env)
    requires s.response == EMPTY_RESPONSE
    ensures var t := HandleTimer(cfg, s, aborted, generation, env);
            match ClosingStatus(cfg, s, TimerFired(aborted, generation), env)
            case Some(status) => ClosesWith(cfg, s, t, status, env)
            case None => SaysNoMore(s, t, Prompts(cfg, s, TimerFired(aborted, generation), env), env)
  {
    hide SendStockReply, ClosesWith, RecordOf;
    WayExpired(s, generation);
    StockClosesWith(cfg, s, Unkept(Expired(Fired(s, generation))), REQUEST_TIMEOUT, env);
  }

  lemma {:induction false} WayExpired(s: State, generation: nat)
    requires s.response == EMPTY_RESPONSE
    ensures OnTheWay(s, Unkept(Expired(Fired(s, generation))))
  {
  }

  // ---------------------------------------------------------------- over runs

  /** No handler was called yet on behalf of what is being received or waits in a queue. */
  ghost predicate BeforeHandler(s: State) {
    exists op :: op in s.trace.pending && Bounded(op)
  }

  /** The connection hears from its client or its timer. */
  predicate Hears(input: Input) {
    input.HandshakeDone? || input.ReadDone? || input.TimerFired?
  }

  lemma {:induction false} BoundedState(cfg: Config, s: State, op: Continuation)
    requires Inv(cfg, s) && op in s.trace.pending && Bounded(op) && !s.timedOut
    ensures s.response == EMPTY_RESPONSE && s.open && (!s.broken ==> s.trace.wire == Prologue(cfg, s.trace))
    ensures !op.HandleTask? ==> !s.keepAlive
  {
    hide Base, InRequest, HandlerRequest, Timed, Replying, Asked100, Concludes;
    assert OpInv(cfg, s, op);
  }

  lemma {:induction false} HearsWhat(cfg: Config, s: State, op: Continuation, input: Input)
    requires Inv(cfg, s) && op in s.trace.pending && Bounded(op) && Enabled(s, input) && Hears(input)
    ensures input.ReadDone? ==> op == input.op && !op.HandleTask?
    ensures input.HandshakeDone? ==> op == Handshake
  {
    hide Inv;
    OnlyPending(cfg, s, op);
  }

  lemma {:induction false} HandshakeSays(s: State, ok: bool, env: Env)
    ensures SaysNoMore(s, HandleHandshake(s, ok), false, env)
  {
    hide RecordOf;
  }

  lemma {:induction false} StepSays(cfg: Config, s: State, input: Input, env: Env)
    requires Inv(cfg, s) && Usable(cfg) && Enabled(s, input) && Hears(input) && BeforeHandler(s) && !s.timedOut
    requires Step(cfg, s, input, env).trace.requests == s.trace.requests
    ensures var t := Step(cfg, s, input, env);
            match ClosingStatus(cfg, s, input, env)
            case Some(status) => ClosesWith(cfg, s, t, status, env)
            case None => SaysNoMore(s, t, Prompts(cfg, s, input, env), env)
  {
    hide Inv, Usable, HandleRead, HandleTimer, HandleHandshake, ClosesWith, SaysNoMore, ClosingStatus;
    var op :| op in s.trace.pending && Bounded(op);
    BoundedState(cfg, s, op);
    HearsWhat(cfg, s, op, input);
    match input
    case HandshakeDone(ok) =>
      HandshakeSays(s, ok, env);
      NoneForHandshake(cfg, s, ok, env);
    case ReadDone(other, ok, data) => ReadSays(cfg, s, other, ok, data, env);
    case TimerFired(aborted, generation) => TimerSays(cfg, s, aborted, generation, env);
  }

  lemma {:induction false} NoneForHandshake(cfg: Config, s: State, ok: bool, env: Env)
    ensures ClosingStatus(cfg, s, HandshakeDone(ok), env).None?
  {
  }

  /** In every run, an event that completes no request while the connection waits, for its client or for a thread: it
      keeps nothing, and either leads to exactly one reply, of the status that says why, and to the close of the socket,
      or sends no final reply at all. */
  lemma {:induction false} UnparsedEvents(cfg: Config, run: Run, i: nat)
    requires IsRun(cfg, run) && i < |run.events| && Hears(run.events[i].input)
    requires BeforeHandler(run.states[i]) && !run.states[i].timedOut
    requires run.states[i + 1].trace.requests == run.states[i].trace.requests
    ensures var s, t, env := run.states[i], run.states[i + 1], run.events[i].env;
            match ClosingStatus(cfg, s, run.events[i].input, env)
            case Some(status) => ClosesWith(cfg, s, t, status, env)
            case None => SaysNoMore(s, t, Prompts(cfg, s, run.events[i].input, env), env)
  {
    hide Usable, StartConnection, Inv, Step, Enabled, ClosesWith, SaysNoMore, ClosingStatus, BeforeHandler, Prompts;
    EveryRun(cfg, run, i);
    assert Reached(cfg, run, i + 1);
    StepSays(cfg, run.states[i], run.events[i].input, run.events[i].env);
  }

  // ---------------------------------------------------------------- 100 Continue

  lemma {:induction false} NextRead(s: State)
    requires NonePending(s)
    ensures Await(s, Read).trace.pending == multiset{Read} && NonePending(Examined(s))
    ensures Examined(s).open == s.open && Examined(s).broken == s.broken
  {
    hide RecordOf;
  }

  lemma {:induction false} NextReadTold(s: State, env: Env)
    requires NonePending(s) && s.open && !s.broken && env.interim.ok
    ensures WriteOk(s, [CONTINUE], env.interim)
    ensures Await(Told(Write(s, [CONTINUE], env.interim)), Read).trace.pending == multiset{Read}
  {
    hide RecordOf;
  }

  lemma {:induction false} ToldWire(s: State, env: Env)
    ensures WriteOk(s, [CONTINUE], env.interim) ==>
              Told(Write(s, [CONTINUE], env.interim)).trace.wire == s.trace.wire + [CONTINUE]
  {
    hide RecordOf;
  }

  lemma {:induction false} ExpectAwaits(cfg: Config, s: State, env: Env)
    requires NonePending(s) && s.open && !s.broken && env.interim.ok && !Unmet(s, s.buffer)
    ensures HandleExpectContinue(cfg, s, env).trace.pending == multiset{Read}
  {
    hide SendStockReply, ScanHead, HasToken, NegotiateVersion, Write, WriteOk, Await, Examined, Told, Unkept, RecordOf;
    NextRead(s);
    NextRead(Examined(s));
    NextReadTold(Examined(s), env);
  }

  lemma {:induction false} IdleOpen(cfg: Config, s: State)
    ensures var t := LeaveIdle(cfg, s);
            t.trace.pending == s.trace.pending && t.open == s.open && t.broken == s.broken
  {
    hide RecordOf;
  }

  lemma {:induction false} TakenOpen(s: State, op: Continuation)
    requires s.trace.pending == multiset{op}
    ensures var t := Take(s, op);
            NonePending(t) && t.open == s.open && t.broken == s.broken
  {
    hide RecordOf;
  }

  lemma {:induction false} GrownOpen(s: State, received: nat, data: string)
    ensures var t := Arrive(Tallied(s, received), data);
            t.trace.pending == s.trace.pending && t.open == s.open && t.broken == s.broken
  {
    hide RecordOf;
  }

  lemma {:induction false} ArrivedOpen(cfg: Config, s: State, op: Continuation, data: string)
    requires s.trace.pending == multiset{op}
    ensures var u := Arrive(Tallied(LeaveIdle(cfg, Take(s, op)), s.receivedBytes + |data|), data);
            NonePending(u) && u.open == s.open && u.broken == s.broken
  {
    hide RecordOf, Take, LeaveIdle, Tallied, Arrive;
    TakenOpen(s, op);
    IdleOpen(cfg, Take(s, op));
    GrownOpen(LeaveIdle(cfg, Take(s, op)), s.receivedBytes + |data|, data);
  }

  lemma {:induction false} ReadAwaits(cfg: Config, s: State, op: Continuation, ok: bool, data: string, env: Env)
    requires Usable(cfg) && s.trace.pending == multiset{op} && s.open && !s.broken && env.interim.ok
    requires Incompletes(cfg, s, ReadDone(op, ok, data), env) && !Unmet(s, s.buffer + data)
    ensures HandleRead(cfg, s, op, ok, data, env).trace.pending == multiset{Read}
  {
    hide Usable, SendStockReply, HandleExpectContinue, HandleParsedRequest, Unmet, TooLarge, RecordOf, Take, LeaveIdle,
         Tallied, Arrive;
    ArrivedLooks(cfg, s, op, data);
    ArrivedOpen(cfg, s, op, data);
    ExpectAwaits(cfg, Arrive(Tallied(LeaveIdle(cfg, Take(s, op)), s.receivedBytes + |data|), data), env);
  }

  /** A head is looked at for what it expects when it is complete, and never again. */
  lemma {:induction false} LookedState(cfg: Config, s: State, op: Continuation)
    requires Inv(cfg, s) && op in s.trace.pending && (op == Read || op == Posted) && !s.timedOut
    ensures s.expectHandled <==> op == Read && ScanHead(s.buffer).complete
    ensures s.trace.pending == multiset{op} && s.open && !s.keepAlive && s.response == EMPTY_RESPONSE
  {
    hide Base, Timed, Concludes, Fresh, Shows, ScanHead;
    AloneTaken(cfg, s, op);
    assert OpInv(cfg, s, op);
    ReadingIsFresh(cfg, s);
  }

  /** The head of the request being received becomes complete with `data`, and is looked at for what it expects. */
  predicate FirstLook(s: State, op: Continuation, data: string) {
    (op == Posted || !ScanHead(s.buffer).complete) && ScanHead(s.buffer + data).complete
  }

  lemma {:induction false} ReadExpects(cfg: Config, s: State, op: Continuation, ok: bool, data: string, env: Env)
    requires Inv(cfg, s) && Usable(cfg) && op in s.trace.pending && IsRead(op, ok, data) && !s.timedOut && !s.broken
    requires Incompletes(cfg, s, ReadDone(op, ok, data), env) && env.interim.ok
    ensures var t, head := HandleRead(cfg, s, op, ok, data, env), ScanHead(s.buffer + data);
            if FirstLook(s, op, data) && AsksContinue(head) then
              t.trace.wire == s.trace.wire + [CONTINUE] && t.trace.pending == multiset{Read}
            else if FirstLook(s, op, data) && NegotiateVersion(head.version) == V11 && head.expectation != "" then
              ClosesWith(cfg, s, t, EXPECTATION_FAILED, env)
            else t.trace.wire == s.trace.wire && t.trace.pending == multiset{Read}
  {
    hide Inv, Usable, HandleRead, ClosesWith, ScanHead, HasToken, NegotiateVersion, TooLarge, AsksContinue;
    LookedState(cfg, s, op);
    AsksIsToken(ScanHead(s.buffer + data));
    ReadMeans(cfg, s, op, ok, data, env);
    ReadSays(cfg, s, op, ok, data, env);
    StillComplete(s.buffer, data);
    if !Unmet(s, s.buffer + data) {
      ReadAwaits(cfg, s, op, ok, data, env);
    }
  }

  /** In every run, on a socket that works and with no limit hit: when the head of a request becomes complete before the
      request does, the client is told to go on exactly if it asks for that in a version that knows it, and more is
      awaited; a client that expects anything else in such a version is refused; and no other octets are answered at
      all, before that event or after it. */
  lemma {:induction false} ContinueExactly(cfg: Config, run: Run, i: nat)
    requires IsRun(cfg, run) && i < |run.events|
    requires Incompletes(cfg, run.states[i], run.events[i].input, run.events[i].env)
    requires !run.states[i].timedOut && !run.states[i].broken && run.events[i].env.interim.ok
    ensures var s, t, input, env := run.states[i], run.states[i + 1], run.events[i].input, run.events[i].env;
            var first, head := FirstLook(s, input.op, input.data), ScanHead(s.buffer + input.data);
            if first && AsksContinue(head) then
              t.trace.wire == s.trace.wire + [CONTINUE] && t.trace.pending == multiset{Read}
            else if first && NegotiateVersion(head.version) == V11 && head.expectation != "" then
              ClosesWith(cfg, s, t, EXPECTATION_FAILED, env)
            else t.trace.wire == s.trace.wire && t.trace.pending == multiset{Read}
    ensures CONTINUE.head.status == 100 && CONTINUE.head.version == V11
  {
    hide Usable, StartConnection, Inv, HandleRead, ClosesWith, ScanHead, NegotiateVersion, AsksContinue, FirstLook,
         LooksAt, TooLarge;
    EveryRun(cfg, run, i);
    assert Reached(cfg, run, i + 1);
    var input := run.events[i].input;
    ReadExpects(cfg, run.states[i], input.op, input.ok, input.data, run.events[i].env);
  }

  // ---------------------------------------------------------------- what the client reads

  lemma {:induction false} ClosingDecodes(cfg: Config, isHead: bool, r: Response, body: string)
    requires r.status.Some? && !IsInterim(r.status.value) && !StatusHasNoBody(r.status.value)
    requires r.fields.contentLength == Some(|body|) && r.fields.transferEncoding == None
    ensures Decode(isHead, [Header(HeaderSection(r))] + Bytes(body)) ==
            if isHead then Message(r.status.value, "", Bytes(body)) else Message(r.status.value, body, [])
  {
    hide Decode, Bytes;
    var head := HeaderSection(r);
    assert [Header(head)] + Bytes(body) + [] == [Header(head)] + Bytes(body);
    DecodeOfLength(head, body, []);
    DecodeOfHead(head, Bytes(body));
  }

  lemma {:induction false} ClosingIsFinal(cfg: Config, s: State, input: Input, env: Env)
    requires Usable(cfg) && ClosingStatus(cfg, s, input, env).Some?
    ensures var status := ClosingStatus(cfg, s, input, env).value;
            !IsInterim(status) && !StatusHasNoBody(status)
  {
    hide ScanHead, HasToken, NegotiateVersion, Reliable, TooLarge, Unmet;
  }

  /** A client that is owed a reply when the connection is closed on it reads that reply after all earlier ones, whole
      and with nothing behind it, in every later state of the run; after a HEAD, the octets of its body stay behind. */
  lemma {:induction false} ClosingReplyDecodes(cfg: Config, run: Run, i: nat, j: nat, isHead: bool)
    requires IsRun(cfg, run) && i < |run.events| && Hears(run.events[i].input) && i < j < |run.states|
    requires BeforeHandler(run.states[i]) && !run.states[i].timedOut && !run.states[i].broken
    requires run.states[i + 1].trace.requests == run.states[i].trace.requests
    requires ClosingStatus(cfg, run.states[i], run.events[i].input, run.events[i].env).Some?
    requires run.events[i].env.head.ok && run.events[i].env.body.ok && AllSound(cfg, run.states[i].trace.exchanges)
    ensures var s := run.states[i];
            var status := ClosingStatus(cfg, s, run.events[i].input, run.events[i].env).value;
            var body := cfg.stock(status);
            DecodeAll(Heads(s.trace.exchanges) + [isHead], run.states[j].trace.wire) ==
            Some(if isHead then Transcribed(Expected(cfg, s.trace.exchanges) + [(status, "")], Bytes(body))
                 else Transcribed(Expected(cfg, s.trace.exchanges) + [(status, body)], []))
  {
    hide IsRun, Usable, Inv, ClosingStatus, BeforeHandler, Transcript, Heads, Expected, DecodeAll, Decode, Sound,
         Reusable, HeaderSection, Bytes, Interim;
    EveryRun(cfg, run, i);
    RunUsable(cfg, run);
    RunLength(cfg, run);
    UnparsedEvents(cfg, run, i);
    NothingTakenBack(cfg, run, i + 1, j);
    var s, t, env := run.states[i], run.states[i + 1], run.events[i].env;
    var status := ClosingStatus(cfg, s, run.events[i].input, env).value;
    ClosingIsFinal(cfg, s, run.events[i].input, env);
    BeforeHandlerState(cfg, s);
    var reply := [Header(HeaderSection(t.response))] + Bytes(cfg.stock(status));
    InvHistory(cfg, s);
    KeptAreDelivered(cfg, s.trace.requests, s.trace.exchanges);
    var rest := Interim(s.trace.interim) + reply;
    assert t.trace.wire == Transcript(cfg, s.trace.exchanges) + rest;
    TranscriptDecodes(cfg, s.trace.exchanges, rest);
    DecodeOneMore(Heads(s.trace.exchanges), isHead, t.trace.wire);
    DecodeAfterInterim(isHead, s.trace.interim, reply);
    ClosingDecodes(cfg, isHead, t.response, cfg.stock(status));
  }

  lemma {:induction false} BeforeHandlerState(cfg: Config, s: State)
    requires Inv(cfg, s) && BeforeHandler(s) && !s.timedOut
    ensures s.open && (!s.broken ==> s.trace.wire == Prologue(cfg, s.trace))
  {
    hide Inv, Prologue;
    var op :| op in s.trace.pending && Bounded(op);
    BoundedState(cfg, s, op);
  }
}
