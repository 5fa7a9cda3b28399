/** What becomes of a request that was parsed, over every run: whether the connection is to persist after it, where it
    goes, and what its handler is given. */
module ConnectionRequests {
  import opened Wrappers
  import opened Text
  import opened HeaderTokens
  import opened RequestHead
  import opened ChunkedCodec
  import opened Messages
  import opened RequestStream
  import opened Replies
  import opened ConnectionModel
  import opened ConnectionInvariants
  import opened ConnectionHistory
  import opened ConnectionSteps
  import opened ConnectionRuns
  import opened ConnectionTheorems
  import opened ConnectionClosing

  // ---------------------------------------------------------------- what the client asks for

  /** The list in the field has an element that is the token, in whatever case.  Both names are in lower case. */
  predicate Lists(headers: Headers, field: string, token: string) {
    field in headers && exists e :: e in Elements(headers[field]) && Lower(e) == token
  }

  /** A client that knows HTTP/1.1 keeps the connection unless it says otherwise; another one has to ask. */
  predicate AsksToPersist(version: Version, headers: Headers) {
    match version
    case V11 => !Lists(headers, "connection", "close")
    case V10 =>
      if "connection" in headers then Lists(headers, "connection", "keep-alive")
      else Lists(headers, "proxy-connection", "keep-alive")
  }

  /** A request in HTTP/1.1 has to say what host it is for. */
  predicate LacksHost(request: Request) {
    NegotiateVersion(request.version) == V11 && "host" !in request.headers
  }

  /** The connection is to persist after the `n`-th request on it, as far as can be known before it is answered. */
  predicate Grants(cfg: Config, request: Request, n: nat) {
    && cfg.keepAliveEnabled && (cfg.maxKeepAliveRequests > 0 ==> n < cfg.maxKeepAliveRequests)
    && AsksToPersist(NegotiateVersion(request.version), request.headers) && !LacksHost(request)
  }

  lemma {:induction false} LowerNames()
    ensures Lower("Connection") == "connection" && Lower("Proxy-Connection") == "proxy-connection"
    ensures Lower("Host") == "host"
  {
  }

  /** The choice of the server is that of the client. */
  lemma {:induction false} WantsIsAsks(version: Version, headers: Headers)
    ensures WantsReuse(version, headers) <==> AsksToPersist(version, headers)
    ensures HasHeader(headers, "Host") <==> "host" in headers
  {
    hide Lower, Elements;
    LowerNames();
  }

  lemma {:induction false} MayIsGrants(cfg: Config, request: Request, n: nat)
    ensures Grants(cfg, request, n) <==> MayPersist(cfg, request, n) && !LacksHost(request)
    ensures LacksHost(request) <==> NegotiateVersion(request.version) == V11 && !HasHeader(request.headers, "Host")
  {
    hide AsksToPersist, WantsReuse, NegotiateVersion;
    WantsIsAsks(NegotiateVersion(request.version), request.headers);
  }

  /** No connection is ever kept after a request that did not ask for it, or that the settings or the budget rule
      out. */
  lemma {:induction false} KeptWasGranted(cfg: Config, run: Run, i: nat, k: nat, e: Exchange)
    requires Kept(cfg, run, i, k, e)
    ensures k < |run.states[i].trace.requests| && Grants(cfg, run.states[i].trace.requests[k], k + 1)
  {
    hide Kept, MayPersist, Grants, LacksHost, NegotiateVersion, HasHeader, Delivered, Asked100;
    KeptExchange(cfg, run, i, k, e);
    MayIsGrants(cfg, e.request, k + 1);
    assert AnswerVersion(e) == NegotiateVersion(e.request.version);
  }

  // ---------------------------------------------------------------- a request is parsed

  /** `u` comes from `s` by a request that was taken off the buffer, and by nothing else that shows. */
  ghost predicate JustTaken(s: State, u: State) {
    && NonePending(u) && u.requestCount == s.requestCount && !u.keepAlive && u.response == EMPTY_RESPONSE
    && u.trace.requests == s.trace.requests + [u.request] && u.trace.parsed == u.request
    && u.trace.wire == s.trace.wire && u.trace.exchanges == s.trace.exchanges
    && u.open == s.open && u.broken == s.broken && u.timedOut == s.timedOut
  }

  lemma {:induction false} TakenIsJust(s: State, u: State, request: Request, consumed: nat)
    requires OnTheWay(s, u) && NonePending(u) && u.requestCount == s.requestCount && consumed <= |u.buffer|
    requires u.timedOut == s.timedOut
    ensures JustTaken(s, TakeRequest(u, request, consumed))
  {
  }

  lemma {:induction false} ArrivedQuietly(cfg: Config, s: State, op: Continuation, data: string)
    requires s.trace.pending == multiset{op}
    ensures var u := Arrive(Tallied(LeaveIdle(cfg, Take(s, op)), s.receivedBytes + |data|), data);
            NonePending(u) && u.requestCount == s.requestCount && u.timedOut == s.timedOut
  {
    hide RecordOf;
  }

  /** Octets that are not looked at complete no request. */
  lemma {:induction false} UnseenParsesNothing(cfg: Config, s: State, op: Continuation, ok: bool, data: string,
                                               env: Env)
    requires Usable(cfg) && !LooksAt(cfg, s, ok, data, env)
    ensures HandleRead(cfg, s, op, ok, data, env).trace.requests == s.trace.requests
  {
    hide Usable, ParseBuffer, SendStockReply, RecordOf, Grew, LeaveIdle, Tallied, Arrive, Take;
    var taken := Take(s, op);
    SameRecord(s, taken);
    LibraryStatuses(cfg);
    StockGrows(cfg, taken, cfg.shutdown, env);
    GrewPlainly(taken, SendStockReply(cfg, taken, cfg.shutdown, env), Quiet, env.atFinish);
    var busy := Tallied(LeaveIdle(cfg, taken), s.receivedBytes + |data|);
    SameRecord(s, busy);
    StockGrows(cfg, busy, ENTITY_TOO_LARGE, env);
    GrewPlainly(busy, SendStockReply(cfg, busy, ENTITY_TOO_LARGE, env), Quiet, env.atFinish);
    ArrivedState(cfg, s, op, data);
  }

  lemma {:induction false} BetweenRequests(cfg: Config, s: State, op: Continuation)
    requires Inv(cfg, s) && op in s.trace.pending && (op == Read || op == Posted) && !s.timedOut
    ensures s.trace.pending == multiset{op} && s.requestCount == |s.trace.requests| == |s.trace.exchanges|
    ensures !s.keepAlive && s.response == EMPTY_RESPONSE && s.open
  {
    hide Base, Timed, Concludes, Ready, Replying, Transcript;
    assert OpInv(cfg, s, op);
    assert |s.trace.pending - multiset{op}| == 0;
  }

  lemma {:induction false} ReadParses(cfg: Config, s: State, op: Continuation, ok: bool, data: string, env: Env)
    returns (u: State)
    requires Inv(cfg, s) && Usable(cfg) && op in s.trace.pending && IsRead(op, ok, data) && !s.timedOut
    requires HandleRead(cfg, s, op, ok, data, env).trace.requests != s.trace.requests
    ensures HandleRead(cfg, s, op, ok, data, env) == HandleParsedRequest(cfg, u, env) && JustTaken(s, u)
  {
    hide Inv, Usable, SendStockReply, HandleParsedRequest, HandleIncompleteRequest, TakeRequest, LeaveIdle, Tallied,
         Arrive, Take, OnTheWay, JustTaken, NonePending, RecordOf;
    if !LooksAt(cfg, s, ok, data, env) {
      UnseenParsesNothing(cfg, s, op, ok, data, env);
    }
    BetweenRequests(cfg, s, op);
    ReadMeans(cfg, s, op, ok, data, env);
    ArrivedState(cfg, s, op, data);
    var busy := Tallied(LeaveIdle(cfg, Take(s, op)), s.receivedBytes + |data|);
    WayTaken(cfg, s, op);
    WayBusy(cfg, s, Take(s, op), s.receivedBytes + |data|);
    WayArrived(cfg, s, busy, data);
    ArrivedQuietly(cfg, s, op, data);
    var parsed := cfg.parse(s.buffer + data);
    TakenIsJust(s, Arrive(busy, data), parsed.request, parsed.consumed);
    u := TakeRequest(Arrive(busy, data), parsed.request, parsed.consumed);
  }

  // ---------------------------------------------------------------- a reply of the server's own, whole

  lemma {:induction false} ClosedWire(s: State)
    ensures Concluded(Closed(s)).trace.wire == s.trace.wire
  {
    hide RecordOf;
  }

  /** Whether or not the connection is kept after it, a stock reply goes out whole on a socket that works. */
  lemma {:induction false} StockSent(cfg: Config, s: State, status: int, env: Env) returns (head: Head)
    requires s.open && !s.broken && env.head.ok && env.body.ok
    ensures var t := SendStockReply(cfg, s, status, env);
            t.trace.wire == s.trace.wire + [Header(head)] + Bytes(cfg.stock(status))
    ensures head.status == status && head.fields.contentLength == Some(|cfg.stock(status)|)
    ensures head.fields.transferEncoding == s.response.fields.transferEncoding
  {
    hide Write, WriteOk, HeaderSection, Bytes, FinishResponse, Vetoes, Closed, Concluded, RecordOf;
    var announced := SetServerHeaders(cfg, Respond(s, StockOf(cfg, status, s.response), Stock(status)), env.now);
    head := HeaderSection(announced.response);
    var body := Bytes(cfg.stock(status));
    BothWritten(announced, [Header(head)], body, env.head, env.body);
    var written := Write(Write(announced, [Header(head)], env.head), body, env.body);
    FinishedWire(cfg, written, env.atFinish);
    ClosedWire(written);
    assert announced.trace.wire == s.trace.wire && announced.open == s.open && announced.broken == s.broken;
    SectionIs(announced.response);
  }

  lemma {:induction false} SectionIs(r: Response)
    requires r.status.Some?
    ensures HeaderSection(r).status == r.status.value && HeaderSection(r).fields == r.fields
  {
  }

  // ---------------------------------------------------------------- where it goes

  predicate ForServer(request: Request) {
    request.verb == OPTIONS && request.resource == "*"
  }

  /** The thread pool a request is handed to, if it is. */
  function Destination(cfg: Config, request: Request, env: Env): Option<Pool> {
    if LacksHost(request) || ForServer(request) || env.view.NoView? || !env.scheduled then None
    else if env.highLoad && !IsAdmin(cfg, env.view) then None
    else Some(PoolOf(cfg, env.view, IsAdmin(cfg, env.view)))
  }

  /** The status of the reply the server gives a request that nobody serves. */
  function Unserved(cfg: Config, request: Request, env: Env): Option<int> {
    if ForServer(request) then None
    else if env.view.NoView? then Some(NOT_FOUND)
    else if env.highLoad && !IsAdmin(cfg, env.view) then Some(cfg.highLoad)
    else if env.scheduled then None
    else if env.view.frontend then Some(SERVICE_UNAVAILABLE)
    else Some(cfg.highLoad)
  }

  /** The status of the reply the server gives itself, if it does. */
  function Refusal(cfg: Config, request: Request, env: Env): Option<int> {
    if LacksHost(request) then Some(BAD_REQUEST) else Unserved(cfg, request, env)
  }

  /** From `s` to `t` the server's own reply of that status went out, whole and with the length of its body. */
  ghost predicate RepliedWith(cfg: Config, s: State, t: State, status: int) {
    exists head {:trigger Header(head)} ::
      && t.trace.wire == s.trace.wire + [Header(head)] + Bytes(cfg.stock(status))
      && head.status == status && head.fields.contentLength == Some(|cfg.stock(status)|)
      && head.fields.transferEncoding == None
  }

  /** The socket works, and goes on working. */
  predicate Works(s: State, env: Env) {
    s.open && !s.broken && env.head.ok && env.body.ok
  }

  /** `u` is on the way from `s` to a reply of the server's own. */
  ghost predicate Untouched(s: State, u: State) {
    && u.trace.wire == s.trace.wire && u.open == s.open && u.broken == s.broken && u.response == EMPTY_RESPONSE
    && NonePending(u)
  }

  lemma {:induction false} StockReplies(cfg: Config, s: State, u: State, status: int, env: Env)
    requires Untouched(s, u)
    ensures var t := SendStockReply(cfg, u, status, env);
            && AnsweredAs(t, Stock(status)) && !Queues(t, AdminPool) && !Queues(t, SlowPool) && !Queues(t, FastPool)
            && (Works(s, env) ==> RepliedWith(cfg, s, t, status))
  {
    hide SendStockReply, Bytes;
    StockOutcome(cfg, u, status, env, AdminPool);
    StockOutcome(cfg, u, status, env, SlowPool);
    StockOutcome(cfg, u, status, env, FastPool);
    if Works(s, env) {
      var head := StockSent(cfg, u, status, env);
      assert Header(head).head == head;
    }
  }

  lemma {:induction false} PoolUntouched(s: State, u: State, fast: bool, admin: bool)
    requires Untouched(s, u)
    ensures Untouched(s, Pooled(u, fast, admin)) && Pooled(u, fast, admin).adminQuery == admin
  {
    hide RecordOf;
  }

  lemma {:induction false} RefusedReplies(cfg: Config, s: State, u: State, env: Env)
    requires Untouched(s, u) && Unserved(cfg, u.request, env).Some?
    ensures var t, status := Dispatch(cfg, u, env), Unserved(cfg, u.request, env).value;
            AnsweredAs(t, Stock(status)) && (Works(s, env) ==> RepliedWith(cfg, s, t, status))
  {
    hide SendStockReply, Pooled, Works, RepliedWith, Untouched, AnsweredAs, Queues, RecordOf;
    StockReplies(cfg, s, u, NOT_FOUND, env);
    if env.view.View? {
      var admin := IsAdmin(cfg, env.view);
      var classified := Pooled(u, u.queryIsFast, admin);
      PoolUntouched(s, u, u.queryIsFast, admin);
      StockReplies(cfg, s, classified, cfg.highLoad, env);
      var fast := env.view.frontend || !cfg.hasSlowPool || env.view.fast;
      PoolUntouched(s, classified, fast, !env.view.frontend && admin);
      var selected := Pooled(classified, fast, !env.view.frontend && admin);
      StockReplies(cfg, s, selected, if env.view.frontend then SERVICE_UNAVAILABLE else cfg.highLoad, env);
    }
  }

  lemma {:induction false} StripSame(request: Request)
    ensures var given := HandlerRequest(request);
            (given.verb == OPTIONS <==> request.verb == OPTIONS) && given.resource == request.resource &&
            given.version == request.version
  {
    hide WithoutHopByHop, RemoveHeader, Lower;
  }

  lemma {:induction false} StrippedSame(cfg: Config, s: State, env: Env)
    requires env.peer
    ensures var t := Strip(Negotiate(cfg, s, env));
            && t.request == HandlerRequest(s.request)
            && t.trace.kept == (!env.atNegotiate && MayPersist(cfg, s.request, s.requestCount + 1))
            && t.response == s.response && t.trace.pending == s.trace.pending && t.trace.wire == s.trace.wire
            && t.open == s.open && t.broken == s.broken
  {
    hide HandlerRequest, MayPersist, NegotiateVersion;
  }

  lemma {:induction false} DeclinedSame(cfg: Config, s: State, env: Env)
    ensures var n := Negotiate(cfg, s, env);
            && n.responseVersion == NegotiateVersion(s.request.version)
            && (var t := Declined(n);
                && !t.trace.kept && !t.keepAlive
                && t.response == s.response && t.trace.pending == s.trace.pending && t.trace.wire == s.trace.wire
                && t.open == s.open && t.broken == s.broken && t.trace.exchanges == s.trace.exchanges)
  {
    hide MayPersist, NegotiateVersion;
  }

  /** A request without a host is refused, whatever else it is, and nothing follows it. */
  lemma {:induction false} HostlessEnds(cfg: Config, s: State, u: State, env: Env)
    requires JustTaken(s, u) && env.peer && LacksHost(u.request)
    ensures var t := HandleParsedRequest(cfg, u, env);
            && AnsweredAs(t, Stock(BAD_REQUEST)) && NonePending(t) && !t.open && !t.trace.kept
            && t.trace.exchanges == s.trace.exchanges && (Works(s, env) ==> RepliedWith(cfg, s, t, BAD_REQUEST))
  {
    hide SendStockReply, RepliedWith, AnsweredAs, Queues, RecordOf, Negotiate, Declined, Dispatch, NegotiateVersion,
         MayPersist, Lower;
    LowerNames();
    DeclinedSame(cfg, u, env);
    var declined := Declined(Negotiate(cfg, u, env));
    StockReplies(cfg, s, declined, BAD_REQUEST, env);
    DeclinedGrows(cfg, u, env);
    StockCloses(cfg, declined, BAD_REQUEST, env);
  }

  /** What the negotiation leaves to be dispatched. */
  ghost predicate Negotiated(cfg: Config, s: State, request: Request, kept: bool, ready: State) {
    Untouched(s, ready) && ready.request == HandlerRequest(request) && ready.trace.kept == kept
  }

  lemma {:induction false} NegotiationMeans(cfg: Config, s: State, u: State, env: Env)
    requires JustTaken(s, u) && env.peer && !LacksHost(u.request)
    ensures var ready := Strip(Negotiate(cfg, u, env));
            && HandleParsedRequest(cfg, u, env) == Dispatch(cfg, ready, env)
            && Negotiated(cfg, s, u.request, !env.atNegotiate && Grants(cfg, u.request, u.requestCount + 1), ready)
  {
    hide RecordOf, Negotiate, Declined, Dispatch, NegotiateVersion, MayPersist, Lower, HandlerRequest, Strip, Grants,
         SendStockReply;
    LowerNames();
    DeclinedSame(cfg, u, env);
    StrippedSame(cfg, u, env);
    MayIsGrants(cfg, u.request, u.requestCount + 1);
  }

  lemma {:induction false} DispatchGoes(cfg: Config, s: State, request: Request, kept: bool, ready: State, env: Env,
                                        pool: Pool)
    requires Usable(cfg) && Negotiated(cfg, s, request, kept, ready) && !LacksHost(request)
    ensures var t := Dispatch(cfg, ready, env);
            && t.trace.kept == kept
            && (Queues(t, pool) <==> Destination(cfg, request, env) == Some(pool))
            && (match Unserved(cfg, request, env)
                case Some(status) =>
                  AnsweredAs(t, Stock(status)) && (Works(s, env) ==> RepliedWith(cfg, s, t, status))
                case None => true)
  {
    hide RepliedWith, AnsweredAs, Queues, RecordOf, Dispatch, HandlerRequest, Usable, Works, Grew, PoolOf, LacksHost,
         IsAdmin;
    StripSame(request);
    DispatchGrows(cfg, ready, env);
    GrewPlainly(ready, Dispatch(cfg, ready, env), Quiet, env.atFinish);
    QueuedWhere(cfg, ready, env, pool);
    if Unserved(cfg, ready.request, env).Some? {
      RefusedReplies(cfg, s, ready, env);
    }
  }

  /** What becomes, from `s` to `t`, of the `n`-th request of a connection: whether it is negotiated as one after which
      the connection is kept, what queue it waits in, and what the server replies if it does so itself. */
  ghost predicate Goes(cfg: Config, s: State, t: State, request: Request, n: nat, env: Env) {
    && (t.trace.kept <==> !env.atNegotiate && Grants(cfg, request, n))
    && (forall pool :: HandleTask(pool) in t.trace.pending <==> Destination(cfg, request, env) == Some(pool))
    && (match Refusal(cfg, request, env)
        case Some(status) => t.trace.outcome == Stock(status) && (Works(s, env) ==> RepliedWith(cfg, s, t, status))
        case None => true)
    && (LacksHost(request) ==> !t.open && t.trace.pending == multiset{} && t.trace.exchanges == s.trace.exchanges)
  }

  lemma {:induction false} HostlessGoes(cfg: Config, s: State, u: State, env: Env)
    requires JustTaken(s, u) && env.peer && LacksHost(u.request)
    ensures Goes(cfg, s, HandleParsedRequest(cfg, u, env), u.request, u.requestCount + 1, env)
  {
    hide JustTaken, HandleParsedRequest, RepliedWith, Works, AsksToPersist, NegotiateVersion, Unserved;
    HostlessEnds(cfg, s, u, env);
  }

  lemma {:induction false} HostedGoes(cfg: Config, s: State, u: State, env: Env)
    requires Usable(cfg) && JustTaken(s, u) && env.peer && !LacksHost(u.request)
    ensures Goes(cfg, s, HandleParsedRequest(cfg, u, env), u.request, u.requestCount + 1, env)
  {
    hide Usable, JustTaken, HandleParsedRequest, RepliedWith, Works, Grants, LacksHost, Unserved, Negotiated, Negotiate,
         Strip, Dispatch, Destination;
    NegotiationMeans(cfg, s, u, env);
    var t := HandleParsedRequest(cfg, u, env);
    forall pool
      ensures HandleTask(pool) in t.trace.pending <==> Destination(cfg, u.request, env) == Some(pool)
    {
      DispatchGoes(cfg, s, u.request, !env.atNegotiate && Grants(cfg, u.request, u.requestCount + 1),
                   Strip(Negotiate(cfg, u, env)), env, pool);
    }
    DispatchGoes(cfg, s, u.request, !env.atNegotiate && Grants(cfg, u.request, u.requestCount + 1),
                 Strip(Negotiate(cfg, u, env)), env, FastPool);
  }

  lemma {:induction false} ParsedRequests(cfg: Config, s: State, u: State, env: Env)
    requires Usable(cfg) && JustTaken(s, u)
    ensures HandleParsedRequest(cfg, u, env).trace.requests == s.trace.requests + [u.request]
    ensures u.requestCount == s.requestCount
  {
    hide Usable, HandleParsedRequest, Grew;
    ParsedGrows(cfg, u, env);
    GrewPlainly(u, HandleParsedRequest(cfg, u, env), Negotiates, env.atFinish);
  }

  lemma {:induction false} ReadGoes(cfg: Config, s: State, op: Continuation, ok: bool, data: string, env: Env)
    requires Inv(cfg, s) && Usable(cfg) && op in s.trace.pending && IsRead(op, ok, data) && !s.timedOut && env.peer
    requires HandleRead(cfg, s, op, ok, data, env).trace.requests != s.trace.requests
    ensures var t := HandleRead(cfg, s, op, ok, data, env);
            && |t.trace.requests| == |s.trace.requests| + 1
            && Goes(cfg, s, t, t.trace.requests[|s.trace.requests|], |t.trace.requests|, env)
  {
    hide Usable, Inv, HandleRead, HandleParsedRequest, JustTaken, Goes, LacksHost;
    var u := ReadParses(cfg, s, op, ok, data, env);
    BetweenRequests(cfg, s, op);
    ParsedRequests(cfg, s, u, env);
    if LacksHost(u.request) {
      HostlessGoes(cfg, s, u, env);
    } else {
      HostedGoes(cfg, s, u, env);
    }
  }

  /** In every run: a request that is parsed, and whose peer is known, is negotiated as one after which the connection
      is kept exactly if it asks for it in its version and the settings, the budget and the shutdown flag allow it; it
      waits in a queue of the pool it belongs to and of no other, or in none; and otherwise the server replies itself,
      with the status that says why nobody serves it, whole on a socket that works. */
  lemma {:induction false} RequestGoes(cfg: Config, run: Run, i: nat)
    requires IsRun(cfg, run) && i < |run.events| && run.events[i].input.ReadDone? && run.events[i].env.peer
    requires !run.states[i].timedOut && run.states[i + 1].trace.requests != run.states[i].trace.requests
    ensures var s, t := run.states[i], run.states[i + 1];
            && |t.trace.requests| == |s.trace.requests| + 1
            && Goes(cfg, s, t, t.trace.requests[|s.trace.requests|], |t.trace.requests|, run.events[i].env)
  {
    hide Usable, StartConnection, Inv, HandleRead, Goes;
    EveryRun(cfg, run, i);
    assert Reached(cfg, run, i + 1);
    var input := run.events[i].input;
    ReadGoes(cfg, run.states[i], input.op, input.ok, input.data, run.events[i].env);
  }

  // ---------------------------------------------------------------- what the handler is given

  const HOP_FIELDS: set<string> :=
    {"connection", "keep-alive", "proxy-connection", "proxy-authenticate", "proxy-authorization", "te", "trailer"}

  /** The field is one of the hop the request arrived over, by its name or because Connection lists it. */
  predicate OfTheHop(headers: Headers, field: string) {
    field in HOP_FIELDS || Lists(headers, "connection", field)
  }

  const ORIGINAL_FIELD := "x-smartmet-original-method"

  /** `given` is what a handler is to see of `request`: the same content, resource and version; the method, with GET for
      HEAD; that and only that said in the field for the original method; no field of the hop, and every other one
      untouched. */
  ghost predicate Handed(request: Request, given: Request) {
    && given.content == request.content && given.resource == request.resource && given.version == request.version
    && given.verb == (if request.verb == HEAD then GET else request.verb)
    && (request.verb == HEAD ==> ORIGINAL_FIELD in given.headers && given.headers[ORIGINAL_FIELD] == "HEAD")
    && (request.verb != HEAD ==> ORIGINAL_FIELD !in given.headers)
    && (forall field {:trigger field in given.headers} :: field != ORIGINAL_FIELD ==>
          (field in given.headers <==> field in request.headers && !OfTheHop(request.headers, field)) &&
          (field in given.headers ==> given.headers[field] == request.headers[field]))
  }

  lemma {:induction false} LowerLong()
    ensures Lower("Proxy-Authenticate") == "proxy-authenticate" && Lower("Proxy-Authorization") == "proxy-authorization"
  {
  }

  lemma {:induction false} LowerShort()
    ensures Lower("Keep-Alive") == "keep-alive" && Lower("TE") == "te" && Lower("Trailer") == "trailer"
  {
  }

  lemma {:induction false} LowerOriginal()
    ensures Lower(ORIGINAL_METHOD) == ORIGINAL_FIELD
  {
  }

  lemma {:induction false} LowerHops()
    ensures (set name | name in HOP_BY_HOP :: Lower(name)) == HOP_FIELDS
  {
    hide Lower;
    LowerNames();
    LowerLong();
    LowerShort();
    assert HOP_BY_HOP[0] == "Connection" && HOP_BY_HOP[1] == "Keep-Alive" && HOP_BY_HOP[2] == "Proxy-Connection";
    assert HOP_BY_HOP[3] == "Proxy-Authenticate" && HOP_BY_HOP[4] == "Proxy-Authorization" && HOP_BY_HOP[5] == "TE";
    assert HOP_BY_HOP[6] == "Trailer";
  }

  lemma {:induction false} HopsAre(headers: Headers, field: string)
    ensures field in HopNames(headers) <==> OfTheHop(headers, field)
  {
    hide Lower, Elements;
    LowerHops();
    LowerNames();
  }

  lemma {:induction false} HandlerIsHanded(request: Request)
    ensures Handed(request, HandlerRequest(request))
  {
    hide HopNames, OfTheHop, Lower, HandlerRequest;
    LowerOriginal();
    var given := HandlerRequest(request);
    HandlerSees(request, "");
    forall field | field != ORIGINAL_FIELD
      ensures (field in given.headers <==> field in request.headers && !OfTheHop(request.headers, field)) &&
              (field in given.headers ==> given.headers[field] == request.headers[field])
    {
      HandlerSees(request, field);
      HopsAre(request.headers, field);
    }
  }

  /** In every run: what a handler is called on is the request last parsed, as a handler is to see it, and a response
      nobody has touched. */
  lemma {:induction false} HandlerIsGiven(cfg: Config, run: Run, i: nat)
    requires IsRun(cfg, run) && i < |run.events| && run.events[i].input.TaskRun? && !run.states[i].timedOut
    ensures var s := run.states[i];
            && s.trace.requests != [] && s.trace.parsed == s.trace.requests[|s.trace.requests| - 1]
            && Handed(s.trace.parsed, s.request) && s.response == EMPTY_RESPONSE
            && s.headRequest == (s.trace.parsed.verb == HEAD)
  {
    hide Usable, StartConnection, Inv, Step, Ready, Handed, HandlerRequest, Current, InRequest;
    EveryRun(cfg, run, i);
    assert Reached(cfg, run, i + 1);
    var s, pool := run.states[i], run.events[i].input.pool;
    TaskState(cfg, s, pool);
    ReadyRequest(cfg, s);
    ReadyHead(cfg, s);
    ReadyIsInRequest(cfg, s);
    CurrentIsNumbered(cfg, s);
    CurrentRequest(s);
    HandlerIsHanded(s.trace.parsed);
  }

  lemma {:induction false} ReadyIsInRequest(cfg: Config, s: State)
    requires Ready(cfg, s)
    ensures InRequest(cfg, s)
  {
    hide InRequest, HandlerRequest, Shows;
  }

  lemma {:induction false} CurrentRequest(s: State)
    ensures Current(s).request == s.trace.parsed
  {
  }

  lemma {:induction false} CancelledUntouched(cfg: Config, s: State, pool: Pool)
    requires Ready(cfg, s) && !s.timedOut && s.trace.pending == multiset{HandleTask(pool)}
    ensures Untouched(s, Cancelled(Take(s, HandleTask(pool))))
  {
    hide InRequest, HandlerRequest, Shows, RecordOf;
  }

  lemma {:induction false} TaskAlone(cfg: Config, s: State, pool: Pool)
    requires Inv(cfg, s) && HandleTask(pool) in s.trace.pending
    ensures s.trace.pending == multiset{HandleTask(pool)}
  {
    hide OpInv, Base, Concludes;
    assert |s.trace.pending - multiset{HandleTask(pool)}| == 0;
  }

  /** In every run: a request that its handler refuses is answered 400, whole on a socket that works. */
  lemma {:induction false} RefusalAnswers(cfg: Config, run: Run, i: nat)
    requires IsRun(cfg, run) && i < |run.events| && run.events[i].input.TaskRun?
    requires var s := run.states[i];
             && !s.timedOut && !s.prematurelyDisconnected
             && run.events[i].input.handler(s.request, EMPTY_RESPONSE).Refused?
    ensures var s, t := run.states[i], run.states[i + 1];
            && t.trace.outcome == Stock(BAD_REQUEST)
            && (Works(s, run.events[i].env) ==> RepliedWith(cfg, s, t, BAD_REQUEST))
  {
    hide Usable, StartConnection, Inv, Ready, Works, RepliedWith, SendStockReply, StartReply, Untouched, RecordOf,
         Cancelled, Take, Respond, Queues;
    EveryRun(cfg, run, i);
    assert Reached(cfg, run, i + 1);
    var s, pool := run.states[i], run.events[i].input.pool;
    TaskState(cfg, s, pool);
    TaskAlone(cfg, s, pool);
    ReadyRequest(cfg, s);
    CancelledUntouched(cfg, s, pool);
    StockReplies(cfg, s, Cancelled(Take(s, HandleTask(pool))), BAD_REQUEST, run.events[i].env);
  }

  lemma {:induction false} CancelledQuietly(s: State, op: Continuation)
    ensures var t := Cancelled(Take(s, op));
            && t.trace.pending == s.trace.pending - multiset{op} && t.trace.wire == s.trace.wire && t.open == s.open
            && t.trace.exchanges == s.trace.exchanges && t.request == s.request && t.response == s.response
            && t.prematurelyDisconnected == s.prematurelyDisconnected
  {
    hide RecordOf;
  }

  /** In every run: a client that has left, as the connection or the handler finds, is answered with nothing, and
      nothing is outstanding any more. */
  lemma {:induction false} NobodyToAnswer(cfg: Config, run: Run, i: nat)
    requires IsRun(cfg, run) && i < |run.events| && run.events[i].input.TaskRun?
    requires var s := run.states[i];
             s.prematurelyDisconnected || run.events[i].input.handler(s.request, s.response).Disconnected?
    ensures var s, t := run.states[i], run.states[i + 1];
            && t.trace.pending == multiset{} && t.trace.wire == s.trace.wire && t.open == s.open
            && t.trace.exchanges == s.trace.exchanges
  {
    hide Usable, StartConnection, Inv, SendStockReply, StartReply, RecordOf, Cancelled, Take, Respond;
    EveryRun(cfg, run, i);
    assert Reached(cfg, run, i + 1);
    var s, pool := run.states[i], run.events[i].input.pool;
    TaskAlone(cfg, s, pool);
    CancelledQuietly(s, HandleTask(pool));
  }
}
