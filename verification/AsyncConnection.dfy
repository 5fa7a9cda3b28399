/** One AsyncConnection object: its fields, updated in place by its handlers step by step.  `Now()` is the state they
    make up.  Every method says what it makes of the state it found; a handler, which the outside calls for something
    that is outstanding, also keeps the invariant and says what that comes to. */
module AsyncConnection {
  import opened Wrappers
  import opened Text
  import HeaderTokens
  import opened RequestHead
  import ChunkedCodec
  import opened Messages
  import opened RequestStream
  import opened Replies
  import opened ConnectionModel
  import Spec = ConnectionModel
  import opened ConnectionInvariants
  import opened ConnectionSteps
  import opened ConnectionRequests
  import opened ConnectionAnswers
  import opened ConnectionClosing
  import opened ClientDecoder

  class Connection {
    const cfg: Config

    var open: bool
    var broken: bool
    var buffer: string
    var receivedBytes: nat
    var request: Request
    var response: Response
    var responseString: Wire
    var pendingHeaders: Wire
    var requestCount: nat
    var keepAlive: bool
    var responseVersion: HeaderTokens.Version
    var idle: bool
    var timedOut: bool
    var timerGeneration: nat
    var queryIsFast: bool
    var adminQuery: bool
    var sentBytes: nat
    var totalStreamedBytes: nat
    var declaredContentLength: nat
    var headRequest: bool
    var expectHandled: bool
    var prematurelyDisconnected: bool

    /** What is outstanding, and what has happened so far. */
    ghost var trace: Trace

    ghost function Now(): State
      reads this
    {
      State(open, broken, buffer, receivedBytes, request, response, responseString, pendingHeaders, requestCount,
            keepAlive, responseVersion, idle, timedOut, timerGeneration, queryIsFast, adminQuery, sentBytes,
            totalStreamedBytes, declaredContentLength, headRequest, expectHandled, prematurelyDisconnected, trace)
    }

    ghost predicate Valid()
      reads this
    {
      Inv(cfg, Now()) && Usable(cfg)
    }

    constructor (settings: Config)
      ensures cfg == settings && Now() == NEW_STATE
    {
      cfg := settings;
      open, broken := true, false;
      buffer, receivedBytes := "", 0;
      request, response := EMPTY_REQUEST, EMPTY_RESPONSE;
      responseString, pendingHeaders := [], [];
      requestCount := 0;
      keepAlive := false;
      responseVersion := HeaderTokens.V10;
      idle, timedOut := false, false;
      timerGeneration := 0;
      queryIsFast, adminQuery := false, false;
      sentBytes, totalStreamedBytes, declaredContentLength := 0, 0, 0;
      headRequest, expectHandled, prematurelyDisconnected := false, false, false;
      trace := NO_TRACE;
    }

    // -------------------------------------------------------------- the socket, the timer and what is outstanding

    /** A handler begins: its continuation is not outstanding any more. */
    ghost method Take(op: Continuation)
      modifies `trace
      ensures Now() == Spec.Take(old(Now()), op)
    {
      var taken := trace.(pending := trace.pending - multiset{op});
      trace := taken;
    }

    /** Something is asked of the socket, the io_context or a thread pool. */
    ghost method Await(op: Continuation)
      modifies `trace
      ensures Now() == Spec.Await(old(Now()), op)
    {
      var awaited := trace.(pending := trace.pending + multiset{op});
      trace := awaited;
    }

    method WriteAll(w: Wire, io: Io) returns (ok: bool)
      modifies `broken, `trace
      ensures ok == WriteOk(old(Now()), w, io) && Now() == Write(old(Now()), w, io)
    {
      ok := |w| == 0 || (open && !broken && io.ok);
      ghost var written := trace.(wire := trace.wire + DeliveredPart(Now(), w, io));
      trace := written;
      broken := broken || !ok;
    }

    method CloseSocket()
      modifies `open
      ensures Now() == old(Now()).(open := false)
    {
      open := false;
    }

    method ArmTimer(seconds: int)
      modifies `timerGeneration, `trace
      ensures Now() == Spec.ArmTimer(old(Now()), seconds)
    {
      timerGeneration := timerGeneration + 1;
      ghost var armed := trace.(timers := trace.timers[timerGeneration := seconds]);
      trace := armed;
    }

    method StartRead()
      modifies `trace
      ensures Now() == Spec.Await(old(Now()), Read)
    {
      Await(Read);
    }

    method NotKept()
      modifies `keepAlive
      ensures Now() == Unkept(old(Now()))
    {
      keepAlive := false;
    }

    // -------------------------------------------------------------- the end of a response

    /** The exchange is over. */
    ghost method Record()
      modifies `trace
      ensures trace == old(trace).(exchanges := old(trace.exchanges) + [Current(old(Now()))], interim := false)
    {
      trace := trace.(exchanges := trace.exchanges + [Current(Now())], interim := false);
    }

    method ResetCounters()
      modifies `sentBytes, `totalStreamedBytes, `declaredContentLength
      ensures Now() == old(Now()).(sentBytes := 0, totalStreamedBytes := 0, declaredContentLength := 0)
    {
      sentBytes := 0;
      totalStreamedBytes := 0;
      declaredContentLength := 0;
    }

    method ResetMessages()
      modifies `responseString, `request, `response
      ensures Now() == old(Now()).(responseString := [], request := EMPTY_REQUEST, response := EMPTY_RESPONSE)
    {
      responseString := [];
      request := EMPTY_REQUEST;
      response := EMPTY_RESPONSE;
    }

    method ResetKind()
      modifies `responseVersion, `queryIsFast, `adminQuery
      ensures Now() == old(Now()).(responseVersion := HeaderTokens.V10, queryIsFast := false, adminQuery := false)
    {
      responseVersion := HeaderTokens.V10;
      queryIsFast := false;
      adminQuery := false;
    }

    method ResetFlags()
      modifies `keepAlive, `expectHandled, `headRequest
      ensures Now() == old(Now()).(keepAlive := false, expectHandled := false, headRequest := false)
    {
      keepAlive := false;
      expectHandled := false;
      headRequest := false;
    }

    method Reset()
      modifies this
      ensures Now() == Spec.Reset(old(Now()))
    {
      hide Current;
      Record();
      ResetCounters();
      ResetMessages();
      ResetKind();
      ResetFlags();
    }

    /** Goes on to the next request: the one in the buffer, or one still to come. */
    method Listen()
      modifies `idle, `timerGeneration, `trace
      ensures Now() == Spec.Listen(cfg, old(Now()))
    {
      hide Spec.ArmTimer, Spec.Await, RecordOf;
      var pipelined := buffer != "";
      idle := !pipelined;
      ArmTimer(if pipelined then cfg.timeout else cfg.keepAliveTimeout);
      if pipelined {
        Await(Posted);
      } else {
        StartRead();
      }
    }

    ghost method Conclude()
      modifies `trace
      ensures Now() == Concluded(old(Now()))
    {
      var concluded := trace.(answered := true);
      trace := concluded;
    }

    /** The single exit of a response that was delivered: the connection goes on to the next request, or is left to be
        destroyed. */
    method FinishResponse(shutdown: bool)
      modifies this
      ensures Now() == Spec.FinishResponse(cfg, old(Now()), shutdown)
    {
      hide Spec.Reset, Spec.Listen, Concluded;
      if !keepAlive || timedOut || shutdown {
        Conclude();
        return;
      }
      Reset();
      Listen();
    }

    // -------------------------------------------------------------- replies written at once

    /** The reuse of the connection, and the reply with its version and the fields that announce it. */
    method Decide() returns (keep: bool, r: Response)
      ensures keep == (keepAlive && !Vetoes(responseVersion, response))
      ensures r == response.(version := if response.chunked then response.version else responseVersion,
                             fields := Announce(cfg, responseVersion, requestCount, keep, response.fields))
    {
      keep, r := keepAlive, response;
      var fields := response.fields;
      if response.chunked {
        if responseVersion != HeaderTokens.V11 {
          keep := false;
        }
      } else {
        r := r.(version := responseVersion);
      }
      if fields.connection.Some? {
        var close := HeaderTokens.HasHeaderToken(fields.connection.value, "close");
        if close {
          keep := false;
        }
      }
      if !keep {
        fields := fields.(connection := Some("close"), keepAlive := None);
      } else if responseVersion == HeaderTokens.V11 {
        fields := fields.(connection := None, keepAlive := None);
      } else {
        var max := if cfg.maxKeepAliveRequests > 0 then Some(cfg.maxKeepAliveRequests - requestCount) else None;
        fields := fields.(connection := Some("keep-alive"), keepAlive := Some(Hold(cfg.keepAliveTimeout, max)));
      }
      r := r.(fields := fields);
    }

    method SetConnectionHeaders()
      modifies `keepAlive, `response
      ensures var keep, r := old(keepAlive) && !Vetoes(responseVersion, old(response)), old(response);
              Now() == old(Now()).(
                         keepAlive := keep,
                         response := r.(version := if r.chunked then r.version else responseVersion,
                                        fields := Announce(cfg, responseVersion, requestCount, keep, r.fields)))
    {
      hide Vetoes, Announce;
      var keep, r := Decide();
      keepAlive := keep;
      response := r;
    }

    method Stamp(now: int)
      modifies `response, `trace
      ensures var r := old(response);
              Now() == old(Now()).(
                         response := r.(fields := r.fields.(date := now, other := cfg.decorate(r.fields.other))),
                         trace := old(trace).(date := now))
    {
      var fields := response.fields.(date := now, other := cfg.decorate(response.fields.other));
      response := response.(fields := fields);
      ghost var dated := trace.(date := now);
      trace := dated;
    }

    method SetServerHeaders(now: int)
      modifies `keepAlive, `response, `trace
      ensures Now() == Spec.SetServerHeaders(cfg, old(Now()), now)
    {
      hide Announce, RecordOf;
      Stamp(now);
      SetConnectionHeaders();
    }

    /** Writes the header section and then the content.  Only the outcome of the second write is looked at. */
    method SendSimpleReply(env: Env)
      requires response.status.Some?
      modifies this
      ensures Now() == Spec.SendSimpleReply(cfg, old(Now()), env)
    {
      hide Write, WriteOk, Spec.FinishResponse, HeaderSection, Bytes, RecordOf;
      var header, content := [Header(HeaderSection(response))], Bytes(response.content);
      var ok := WriteAll(header, env.head);
      ok := WriteAll(content, env.body);
      if !ok {
        NotKept();
      }
      if keepAlive {
        FinishResponse(env.atFinish);
        return;
      }
      CloseSocket();
      Conclude();
    }

    method Respond(r: Response, ghost outcome: Outcome)
      modifies `response, `trace
      ensures Now() == Spec.Respond(old(Now()), r, outcome)
    {
      response := r;
      ghost var answered := trace.(outcome := outcome);
      trace := answered;
    }

    method SendOwnReply(r: Response, ghost outcome: Outcome, env: Env)
      requires r.status.Some?
      modifies this
      ensures Now() == Spec.SendOwnReply(cfg, old(Now()), r, outcome, env)
    {
      hide Spec.SetServerHeaders, Spec.SendSimpleReply, RecordOf;
      Respond(r, outcome);
      SetServerHeaders(env.now);
      SendSimpleReply(env);
    }

    method SendStockReply(status: int, env: Env)
      modifies this
      ensures Now() == Spec.SendStockReply(cfg, old(Now()), status, env)
    {
      hide Spec.SendOwnReply;
      var content := cfg.stock(status);
      var fields := response.fields.(contentLength := Some(|content|));
      SendOwnReply(response.(status := Some(status), content := content, streaming := false, fields := fields),
                   Stock(status), env);
    }

    ghost method Abandon()
      modifies `trace
      ensures Now() == Abandoned(old(Now()))
    {
      var abandoned := trace.(answered := false);
      trace := abandoned;
    }

    /** The reply was cut short: a client cannot tell where the next one would begin. */
    method AbortReply(env: Env)
      modifies this
      ensures Now() == Spec.AbortReply(cfg, old(Now()), env)
    {
      hide Spec.SendStockReply, Unkept, Abandoned;
      NotKept();
      SendStockReply(SERVICE_UNAVAILABLE, env);
      Abandon();
    }

    // -------------------------------------------------------------- a connection begins

    /** The connection was accepted: the request timer runs, and the handshake or the first read is outstanding. */
    method Start()
      requires Usable(cfg) && Now() == NEW_STATE
      modifies this
      ensures Now() == StartConnection(cfg, old(Now())) && Valid()
      ensures trace.pending == multiset{if cfg.encrypted then Handshake else Read}
      ensures timerGeneration in trace.timers && trace.timers[timerGeneration] == cfg.timeout
    {
      hide Inv, Usable, RecordOf;
      ArmTimer(cfg.timeout);
      if cfg.encrypted {
        Await(Handshake);
      } else {
        StartRead();
      }
      StartKeeps(cfg);
    }

    method SetVersion(version: HeaderTokens.Version)
      modifies `responseVersion
      ensures Now() == old(Now()).(responseVersion := version)
    {
      responseVersion := version;
    }

    /** The server is full.  The connection, which was never started, is answered with one 503 that announces its own
        length and the close, all of it when the socket works, and closed. */
    method RejectConnection(env: Env)
      requires Now() == NEW_STATE
      modifies this
      ensures Now() == Spec.RejectConnection(cfg, old(Now()), env)
      ensures !open && trace.pending == multiset{} && trace.timers == map[] && trace.exchanges == []
      ensures response.status == Some(SERVICE_UNAVAILABLE) && response.fields.connection == Some("close")
      ensures var reply := [Header(HeaderSection(response))] + Bytes(cfg.stock(SERVICE_UNAVAILABLE));
              trace.wire <= reply && (env.head.ok && env.body.ok ==> trace.wire == reply)
    {
      hide Spec.SendStockReply, HeaderSection, Bytes, RecordOf;
      StockCloses(cfg, Unkept(Now()).(responseVersion := HeaderTokens.V10), SERVICE_UNAVAILABLE, env);
      StockOnWire(cfg, Unkept(Now()).(responseVersion := HeaderTokens.V10), SERVICE_UNAVAILABLE, env);
      NotKept();
      SetVersion(HeaderTokens.V10);
      SendStockReply(SERVICE_UNAVAILABLE, env);
    }

    /** The handshake leads to the first read, or the connection is closed without a word. */
    method HandleHandshake(ok: bool)
      requires Valid() && Handshake in trace.pending
      modifies this
      ensures Now() == Spec.HandleHandshake(old(Now()), ok) && Valid()
      ensures trace.pending == (if ok then multiset{Read} else multiset{}) && open == (old(open) && ok)
      ensures trace.wire == old(trace.wire)
    {
      hide Inv, Usable, Spec.HandleHandshake;
      HandshakeKeeps(cfg, Now(), ok);
      HandshakeMeans(cfg, Now(), ok);
      Shake(ok);
    }

    method Shake(ok: bool)
      modifies `open, `trace
      ensures Now() == Spec.HandleHandshake(old(Now()), ok)
    {
      hide Spec.Take, Spec.Await, RecordOf;
      Take(Handshake);
      if ok {
        StartRead();
      } else {
        CloseSocket();
      }
    }

    // -------------------------------------------------------------- a request arrives

    method SelectPool(fast: bool, admin: bool)
      modifies `queryIsFast, `adminQuery
      ensures Now() == Pooled(old(Now()), fast, admin)
    {
      queryIsFast := fast;
      adminQuery := admin;
    }

    /** Frontends always use the fast pool. */
    method ScheduleRequest(env: Env)
      requires env.view.View?
      modifies this
      ensures Now() == Spec.ScheduleRequest(cfg, old(Now()), env)
    {
      hide Spec.SendStockReply, Spec.Await, RecordOf;
      if env.view.frontend {
        SelectPool(true, false);
        if env.scheduled {
          Await(HandleTask(FastPool));
        } else {
          SendStockReply(SERVICE_UNAVAILABLE, env);
        }
      } else {
        SelectPool(!cfg.hasSlowPool || env.view.fast, adminQuery);
        if env.scheduled {
          if adminQuery {
            Await(HandleTask(AdminPool));
          } else if queryIsFast {
            Await(HandleTask(FastPool));
          } else {
            Await(HandleTask(SlowPool));
          }
        } else {
          SendStockReply(cfg.highLoad, env);
        }
      }
    }

    /** Whether the settings, the budget, the shutdown flag and the request in its version let the connection persist.
        */
    method EvaluateKeepAlive(shutdown: bool) returns (keep: bool)
      ensures keep == (!shutdown && (cfg.maxKeepAliveRequests > 0 ==> requestCount < cfg.maxKeepAliveRequests) &&
                       cfg.keepAliveEnabled && WantsReuse(responseVersion, request.headers))
      ensures keep <==>
              && cfg.keepAliveEnabled && !shutdown && (cfg.maxKeepAliveRequests > 0 ==>
                                                         requestCount < cfg.maxKeepAliveRequests)
              && AsksToPersist(responseVersion, request.headers)
    {
      hide AsksToPersist;
      WantsIsAsks(responseVersion, request.headers);
      if !cfg.keepAliveEnabled {
        return false;
      }
      if shutdown {
        return false;
      }
      if cfg.maxKeepAliveRequests > 0 && requestCount >= cfg.maxKeepAliveRequests {
        return false;
      }
      var connection := Lookup(request.headers, "Connection");
      if responseVersion == HeaderTokens.V11 {
        if connection.None? {
          return true;
        }
        var close := HeaderTokens.HasHeaderToken(connection.value, "close");
        return !close;
      }
      if connection.Some? {
        keep := HeaderTokens.HasHeaderToken(connection.value, "keep-alive");
        return;
      }
      var proxyConnection := Lookup(request.headers, "Proxy-Connection");
      if proxyConnection.None? {
        return false;
      }
      keep := HeaderTokens.HasHeaderToken(proxyConnection.value, "keep-alive");
    }

    method CountRequest()
      modifies `requestCount, `responseVersion
      ensures Now() == old(Now()).(requestCount := old(requestCount) + 1,
                                   responseVersion := HeaderTokens.NegotiateVersion(request.version))
    {
      requestCount := requestCount + 1;
      responseVersion := HeaderTokens.NegotiateVersion(request.version);
    }

    method SetKeepAlive(keep: bool)
      modifies `keepAlive, `trace
      ensures Now() == old(Now()).(keepAlive := keep, trace := old(trace).(kept := keep))
    {
      ghost var negotiated := trace.(kept := keep);
      keepAlive := keep;
      trace := negotiated;
    }

    /** What the handler is not to see is removed, and HEAD is handed on as GET. */
    method StripRequest()
      modifies `request, `headRequest
      ensures Now() == Strip(old(Now()))
      ensures Handed(old(request), request) && headRequest == (old(request).verb == HEAD)
    {
      hide HeaderTokens.WithoutHopByHop, HeaderTokens.RemoveHeader, RecordOf, Handed;
      HandlerIsHanded(request);
      var headers := HeaderTokens.StripHopByHopHeaders(request.headers);
      headers := HeaderTokens.RemoveHeader(headers, ORIGINAL_METHOD);
      headRequest := request.verb == HEAD;
      if headRequest {
        request := request.(verb := GET, headers := headers[Lower(ORIGINAL_METHOD) := "HEAD"]);
      } else {
        request := request.(headers := headers);
      }
    }

    method Dispatch(env: Env)
      modifies this
      ensures Now() == Spec.Dispatch(cfg, old(Now()), env)
    {
      hide Spec.SendStockReply, Spec.SendOwnReply, Spec.ScheduleRequest, RecordOf;
      if request.verb == OPTIONS && request.resource == "*" {
        SendOwnReply(OptionsResponse(cfg), Options, env);
        return;
      }
      if env.view.NoView? {
        SendStockReply(NOT_FOUND, env);
        return;
      }
      SelectPool(queryIsFast, !env.view.frontend && env.view.admin && cfg.hasAdminPool);
      if !adminQuery && env.highLoad {
        SendStockReply(cfg.highLoad, env);
        return;
      }
      ScheduleRequest(env);
    }

    /** Counts the request and negotiates the version of the reply and the persistence of the connection. */
    method Negotiate(env: Env)
      modifies `requestCount, `responseVersion, `keepAlive, `trace
      ensures Now() == Spec.Negotiate(cfg, old(Now()), env)
    {
      hide HeaderTokens.NegotiateVersion, WantsReuse, RecordOf;
      CountRequest();
      var keep := EvaluateKeepAlive(env.atNegotiate);
      SetKeepAlive(keep);
    }

    method HandleParsedRequest(env: Env)
      modifies this
      ensures Now() == Spec.HandleParsedRequest(cfg, old(Now()), env)
    {
      hide Spec.SendStockReply, Spec.Dispatch, Spec.Negotiate, Strip, HeaderTokens.HasHeader, RecordOf;
      if !env.peer {
        return;
      }
      assert Spec.Negotiate(cfg, Now(), env).request == request by { NegotiatedRequest(cfg, Now(), env); }
      Negotiate(env);
      if responseVersion == HeaderTokens.V11 && !HeaderTokens.HasHeader(request.headers, "Host") {
        SetKeepAlive(false);
        SendStockReply(BAD_REQUEST, env);
        return;
      }
      StripRequest();
      Dispatch(env);
    }

    // -------------------------------------------------------------- more of a request is to come

    method MarkExpectHandled()
      modifies `expectHandled
      ensures Now() == Examined(old(Now()))
    {
      expectHandled := true;
    }

    ghost method MarkInterim()
      modifies `trace
      ensures Now() == Told(old(Now()))
    {
      var told := trace.(interim := true);
      trace := told;
    }

    /** The interim reply, or the end of the connection when it cannot be written. */
    method TellToGoOn(env: Env) returns (ok: bool)
      modifies `broken, `trace, `keepAlive
      ensures ok == WriteOk(old(Now()), [CONTINUE], env.interim)
      ensures Now() == (if ok then Told(Write(old(Now()), [CONTINUE], env.interim))
                        else Unkept(Write(old(Now()), [CONTINUE], env.interim)))
      ensures old(open) && !old(broken) && env.interim.ok ==> ok
      ensures ok ==> trace.wire == old(trace.wire) + [CONTINUE]
    {
      hide Write, WriteOk, RecordOf, Told, Unkept;
      WorkingWrite(Now(), [CONTINUE], env.interim);
      ToldWire(Now(), env);
      ok := WriteAll([CONTINUE], env.interim);
      if ok {
        MarkInterim();
      } else {
        NotKept();
      }
    }

    /** Whether to go on reading: decided once per request, from its raw head, read by index. */
    method HandleExpectContinue(env: Env) returns (goOn: bool)
      modifies this
      ensures (if goOn then Spec.Await(Now(), Read) else Now()) == Spec.HandleExpectContinue(cfg, old(Now()), env)
      ensures Due(old(Now()), old(buffer)) && old(open) && !old(broken) && env.interim.ok ==>
                goOn && trace.wire == old(trace.wire) + [CONTINUE]
      ensures !Due(old(Now()), old(buffer)) && !Unmet(old(Now()), old(buffer)) ==>
                goOn && trace.wire == old(trace.wire)
    {
      hide Spec.SendStockReply, Spec.Await, Write, WriteOk, HeaderTokens.NegotiateVersion, HeaderTokens.HasToken,
           ScanHead, RecordOf, AsksContinue, Told, Unkept;
      AsksIsToken(ScanHead(buffer));
      if expectHandled {
        return true;
      }
      var head := PeekRequestHead(buffer);
      if !head.complete {
        return true;
      }
      MarkExpectHandled();
      if head.expectation == "" {
        return true;
      }
      if HeaderTokens.NegotiateVersion(head.version) != HeaderTokens.V11 {
        return true;
      }
      var asked := HeaderTokens.HasHeaderToken(head.expectation, "100-continue");
      if asked {
        goOn := TellToGoOn(env);
        return;
      }
      NotKept();
      SendStockReply(EXPECTATION_FAILED, env);
      return false;
    }

    method HandleIncompleteRequest(env: Env)
      modifies this
      ensures Now() == Spec.HandleIncompleteRequest(cfg, old(Now()), env)
    {
      hide Spec.SendStockReply, Spec.HandleExpectContinue, Spec.Await, FindBlankLine, RecordOf;
      if cfg.maxHeaderSize > 0 && |buffer| > cfg.maxHeaderSize && FindBlankLine(buffer, 0) == |buffer| {
        NotKept();
        SendStockReply(HEADER_FIELDS_TOO_LARGE, env);
        return;
      }
      var goOn := HandleExpectContinue(env);
      if goOn {
        StartRead();
      }
    }

    method LeaveIdle()
      modifies `idle, `timerGeneration, `trace
      ensures Now() == Spec.LeaveIdle(cfg, old(Now()))
    {
      hide Spec.ArmTimer, RecordOf;
      var wasIdle := idle;
      idle := false;
      if wasIdle && !timedOut {
        ArmTimer(cfg.timeout);
      }
    }

    method CountReceived(n: nat)
      modifies `receivedBytes
      ensures Now() == Tallied(old(Now()), old(receivedBytes) + n)
    {
      receivedBytes := receivedBytes + n;
    }

    method Arrive(data: string)
      modifies `buffer, `trace
      ensures Now() == Spec.Arrive(old(Now()), data)
    {
      ghost var arrived := trace.(received := trace.received + data);
      buffer := buffer + data;
      trace := arrived;
    }

    method EraseRequest(parsed: Request, consumed: nat)
      requires consumed <= |buffer|
      modifies `request, `buffer, `receivedBytes
      ensures Now() == old(Now()).(request := parsed, buffer := old(buffer)[consumed..],
                                   receivedBytes := |old(buffer)| - consumed)
    {
      request := parsed;
      buffer := buffer[consumed..];
      receivedBytes := |buffer|;
    }

    /** The request is taken off the front of the buffer. */
    method TakeRequest(parsed: Request, consumed: nat)
      requires consumed <= |buffer|
      modifies `request, `buffer, `receivedBytes, `trace
      ensures Now() == Spec.TakeRequest(old(Now()), parsed, consumed)
    {
      Note(parsed, buffer);
      EraseRequest(parsed, consumed);
    }

    ghost method Note(parsed: Request, from: string)
      modifies `trace
      ensures Now() == old(Now()).(trace := old(trace).(requests := old(trace).requests + [parsed], parsed := parsed,
                                                        arrived := from, answered := false))
    {
      var noted := trace.(requests := trace.requests + [parsed], parsed := parsed, arrived := from, answered := false);
      trace := noted;
    }

    method ParseBuffer(env: Env)
      requires Usable(cfg)
      modifies this
      ensures Now() == Spec.ParseBuffer(cfg, old(Now()), env)
    {
      hide Spec.SendStockReply, Spec.HandleParsedRequest, Spec.HandleIncompleteRequest, Spec.TakeRequest;
      assert Consumes(cfg.parse, buffer);
      match cfg.parse(buffer)
      case Complete(parsed, consumed) =>
        TakeRequest(parsed, consumed);
        HandleParsedRequest(env);
      case Failed => SendStockReply(BAD_REQUEST, env);
      case Incomplete => HandleIncompleteRequest(env);
    }

    /** Octets arrive, or the octets left over from the request before are looked at.  They join those in the buffer;
        one request at most is parsed off its front, and what is left stays. */
    method HandleRead(ghost op: Continuation, ok: bool, data: string, env: Env)
      requires Valid() && op in trace.pending && IsRead(op, ok, data)
      modifies this
      ensures Now() == Spec.HandleRead(cfg, old(Now()), op, ok, data, env)
      ensures Valid() && Lawful(cfg, old(Now()), Now())
      ensures LooksAt(cfg, old(Now()), ok, data, env) ==>
                trace.received == old(trace.received) + data &&
                (match cfg.parse(old(buffer) + data)
                 case Complete(parsed, consumed) =>
                   consumed <= |old(buffer) + data| && trace.requests == old(trace.requests) + [parsed] &&
                   buffer == (old(buffer) + data)[consumed..]
                 case _ => trace.requests == old(trace.requests) && buffer == old(buffer) + data)
    {
      hide Inv, Usable, Lawful, Spec.HandleRead, LooksAt;
      StepObeys(cfg, Now(), ReadDone(op, ok, data), env);
      ReadMeans(cfg, Now(), op, ok, data, env);
      Look(op, ok, data, env);
    }

    method Look(ghost op: Continuation, ok: bool, data: string, env: Env)
      requires Usable(cfg)
      modifies this
      ensures Now() == Spec.HandleRead(cfg, old(Now()), op, ok, data, env)
    {
      hide Usable, Spec.Take, Spec.SendStockReply, Spec.ParseBuffer, Spec.LeaveIdle, Spec.Arrive, RecordOf;
      Take(op);
      if env.atRead {
        SendStockReply(cfg.shutdown, env);
        return;
      }
      if !ok {
        return;
      }
      LeaveIdle();
      CountReceived(|data|);
      if cfg.maxRequestSize > 0 && receivedBytes > cfg.maxRequestSize {
        SendStockReply(ENTITY_TOO_LARGE, env);
        return;
      }
      Arrive(data);
      ParseBuffer(env);
    }

    // -------------------------------------------------------------- the timer fires

    ghost method EndWait(generation: nat)
      modifies `trace
      ensures Now() == Fired(old(Now()), generation)
    {
      var fired := trace.(timers := trace.timers - {generation});
      trace := fired;
    }

    method Expire()
      modifies `timedOut
      ensures Now() == Expired(old(Now()))
    {
      timedOut := true;
    }

    /** A wait ends.  One that was aborted, or that is not the latest, changes nothing but the waits.  The latest one
        closes the socket: without a word when the connection is idle, and otherwise with one 408. */
    method HandleTimer(aborted: bool, generation: nat, env: Env)
      requires Valid() && Enabled(Now(), TimerFired(aborted, generation))
      modifies this
      ensures Now() == Spec.HandleTimer(cfg, old(Now()), aborted, generation, env)
      ensures Valid() && Lawful(cfg, old(Now()), Now())
      ensures aborted || generation != old(timerGeneration) ==> Now() == Fired(old(Now()), generation)
      ensures !aborted && generation == old(timerGeneration) ==>
                && !open && timedOut && trace.pending == old(trace.pending) && trace.exchanges == old(trace.exchanges)
                && (old(idle) ==> trace.wire == old(trace.wire))
                && (!old(idle) ==>
                      var reply := [Header(HeaderSection(response))] + Bytes(cfg.stock(REQUEST_TIMEOUT));
                      response.status == Some(REQUEST_TIMEOUT) && trace.wire <= old(trace.wire) + reply &&
                      (old(open) && !old(broken) && env.head.ok && env.body.ok ==>
                         trace.wire == old(trace.wire) + reply))
    {
      hide Inv, Usable, Lawful, Spec.SendStockReply, HeaderSection, Bytes, Fired, Expired, Unkept, RecordOf;
      StepObeys(cfg, Now(), TimerFired(aborted, generation), env);
      if !aborted && generation == timerGeneration {
        ExpiryOnlyCloses(cfg, Now(), generation, env);
      }
      Fire(aborted, generation, env);
    }

    method Fire(aborted: bool, generation: nat, env: Env)
      modifies this
      ensures Now() == Spec.HandleTimer(cfg, old(Now()), aborted, generation, env)
    {
      hide Spec.SendStockReply, RecordOf;
      EndWait(generation);
      if aborted {
        return;
      }
      if generation != timerGeneration {
        return;
      }
      Expire();
      if idle {
        CloseSocket();
        return;
      }
      NotKept();
      SendStockReply(REQUEST_TIMEOUT, env);
    }

    // -------------------------------------------------------------- the reply is sent

    method SetPiece(piece: Wire)
      modifies `responseString, `sentBytes, `pendingHeaders
      ensures Now() == old(Now()).(responseString := old(pendingHeaders) + piece, pendingHeaders := [], sentBytes := 0)
    {
      responseString := pendingHeaders + piece;
      pendingHeaders := [];
      sentBytes := 0;
    }

    method SendPiece(piece: string, op: Continuation)
      modifies `responseString, `sentBytes, `pendingHeaders, `trace
      ensures Now() == Spec.SendPiece(old(Now()), piece, op)
    {
      hide Spec.Await, Bytes, RecordOf;
      SetPiece(Bytes(piece));
      Await(op);
    }

    method FlushPendingHeaders(env: Env) returns (ok: bool)
      modifies `pendingHeaders, `broken, `trace
      ensures ok == FlushOk(old(Now()), env) && Now() == Spec.FlushPendingHeaders(old(Now()), env)
    {
      hide Write, WriteOk;
      ok := WriteAll(pendingHeaders, env.flush);
      pendingHeaders := [];
    }

    method Produce(chunk: string)
      modifies `totalStreamedBytes, `trace
      ensures Now() == Produced(old(Now()), chunk)
    {
      hide WithChunk, RecordOf;
      ghost var produced := trace.(outcome := WithChunk(trace.outcome, chunk));
      totalStreamedBytes := totalStreamedBytes + |chunk|;
      trace := produced;
    }

    method Schedule(ghost op: Continuation, env: Env)
      modifies this
      ensures Now() == Spec.Schedule(cfg, old(Now()), op, env)
    {
      hide Spec.AbortReply, Spec.Await;
      if env.scheduled {
        Await(op);
      } else {
        AbortReply(env);
      }
    }

    /** In the pool of the request. */
    method ScheduleChunkGetter(env: Env)
      modifies this
      ensures Now() == Spec.Schedule(cfg, old(Now()), ChunkTask(SelectedPool(old(Now()))), env)
    {
      hide Spec.Schedule;
      if adminQuery {
        Schedule(ChunkTask(AdminPool), env);
      } else if queryIsFast {
        Schedule(ChunkTask(FastPool), env);
      } else {
        Schedule(ChunkTask(SlowPool), env);
      }
    }

    method ScheduleChunkedChunkGetter(env: Env)
      modifies this
      ensures Now() == Spec.Schedule(cfg, old(Now()), ChunkedTask(SelectedPool(old(Now()))), env)
    {
      hide Spec.Schedule;
      if adminQuery {
        Schedule(ChunkedTask(AdminPool), env);
      } else if queryIsFast {
        Schedule(ChunkedTask(FastPool), env);
      } else {
        Schedule(ChunkedTask(SlowPool), env);
      }
    }

    method CheckLength()
      modifies `keepAlive
      ensures Now() == Spec.CheckLength(old(Now()))
    {
      hide RecordOf;
      if keepAlive && totalStreamedBytes != declaredContentLength {
        NotKept();
      }
    }

    method EndStream(env: Env)
      modifies this
      ensures Now() == (var flushed := Spec.FlushPendingHeaders(old(Now()), env);
                        if FlushOk(old(Now()), env)
                        then Spec.FinishResponse(cfg, Spec.CheckLength(flushed), env.atFinish) else flushed)
    {
      hide Spec.FlushPendingHeaders, FlushOk, Spec.FinishResponse, Spec.CheckLength;
      var ok := FlushPendingHeaders(env);
      if !ok {
        return;
      }
      CheckLength();
      FinishResponse(env.atFinish);
    }

    method GetNextChunk(status: StreamStatus, env: Env)
      modifies this
      ensures Now() == Spec.GetNextChunk(cfg, old(Now()), status, env)
    {
      hide Spec.FlushPendingHeaders, FlushOk, Spec.FinishResponse, Spec.CheckLength, Spec.Schedule, Spec.SendPiece,
           Produced, RecordOf;
      match status
      case StreamOk(chunk) =>
        assert SelectedPool(Spec.FlushPendingHeaders(Produced(Now(), chunk), env)) == SelectedPool(Now()) by {
          PoolAside(Now(), chunk, env);
        }
        Produce(chunk);
        if chunk != "" {
          SendPiece(chunk, WriteStream);
          return;
        }
        var ok := FlushPendingHeaders(env);
        if !ok {
          return;
        }
        ScheduleChunkGetter(env);
      case _ => EndStream(env);
    }

    method GetNextChunkedChunk(status: StreamStatus, env: Env)
      modifies this
      ensures Now() == Spec.GetNextChunkedChunk(cfg, old(Now()), status, env)
    {
      hide Spec.FlushPendingHeaders, FlushOk, Spec.Schedule, Spec.SendPiece, Produced, ChunkedCodec.Chunk,
           ChunkedCodec.LAST_CHUNK, RecordOf;
      match status
      case StreamOk(chunk) =>
        assert SelectedPool(Spec.FlushPendingHeaders(Produced(Now(), chunk), env)) == SelectedPool(Now()) by {
          PoolAside(Now(), chunk, env);
        }
        Produce(chunk);
        if chunk != "" {
          SendPiece(ChunkedCodec.Chunk(chunk), WriteChunked);
          return;
        }
        var ok := FlushPendingHeaders(env);
        if !ok {
          return;
        }
        ScheduleChunkedChunkGetter(env);
      case ExitError =>
        var _ := FlushPendingHeaders(env);
        NotKept();
        CloseSocket();
      case ExitOk => SendPiece(ChunkedCodec.LAST_CHUNK, WriteFinal);
    }

    /** A thread of the pool asks for the next chunk of a stream.  It goes out as it is, behind the header section if
        that was held back; a stream after which the connection is kept has delivered what it announced. */
    method RunChunkTask(ghost pool: Pool, status: StreamStatus, env: Env)
      requires Valid() && ChunkTask(pool) in trace.pending
      modifies this
      ensures Now() == Spec.GetNextChunk(cfg, Spec.Take(old(Now()), ChunkTask(pool)), status, env)
      ensures Valid() && Lawful(cfg, old(Now()), Now())
      ensures status.StreamOk? && status.chunk != "" ==>
                && trace.pending == multiset{WriteStream} && sentBytes == 0 && pendingHeaders == []
                && responseString == old(pendingHeaders) + Bytes(status.chunk)
                && totalStreamedBytes == old(totalStreamedBytes) + |status.chunk|
      ensures !status.StreamOk? && |trace.exchanges| > |old(trace.exchanges)| ==>
                old(totalStreamedBytes) == old(declaredContentLength)
    {
      hide Inv, Usable, Lawful, Spec.Take, Spec.GetNextChunk, Bytes;
      StepObeys(cfg, Now(), ChunkReady(pool, status), env);
      ChunkMeans(cfg, Now(), pool, status, env);
      Take(ChunkTask(pool));
      GetNextChunk(status, env);
    }

    /** ... and of a chunked one: a chunk goes out in its framing, the end of the stream as the last chunk; when the
        stream fails, the connection is closed and no end is sent. */
    method RunChunkedTask(ghost pool: Pool, status: StreamStatus, env: Env)
      requires Valid() && ChunkedTask(pool) in trace.pending
      modifies this
      ensures Now() == Spec.GetNextChunkedChunk(cfg, Spec.Take(old(Now()), ChunkedTask(pool)), status, env)
      ensures Valid() && Lawful(cfg, old(Now()), Now())
      ensures status.StreamOk? && status.chunk != "" ==>
                && trace.pending == multiset{WriteChunked} && sentBytes == 0 && pendingHeaders == []
                && responseString == old(pendingHeaders) + Bytes(ChunkedCodec.Chunk(status.chunk))
                && totalStreamedBytes == old(totalStreamedBytes) + |status.chunk|
      ensures status.ExitOk? ==>
                && trace.pending == multiset{WriteFinal} && sentBytes == 0 && pendingHeaders == []
                && responseString == old(pendingHeaders) + Bytes(ChunkedCodec.LAST_CHUNK)
      ensures status.ExitError? ==> trace.pending == multiset{} && !open && trace.exchanges == old(trace.exchanges)
    {
      hide Inv, Usable, Lawful, Spec.Take, Spec.GetNextChunkedChunk, Bytes, ChunkedCodec.Chunk, ChunkedCodec.LAST_CHUNK;
      StepObeys(cfg, Now(), ChunkedReady(pool, status), env);
      ChunkedMeans(cfg, Now(), pool, status, env);
      Take(ChunkedTask(pool));
      GetNextChunkedChunk(status, env);
    }

    // -------------------------------------------------------------- the handler answers

    method SetResponse(r: Response)
      modifies `response
      ensures Now() == old(Now()).(response := r)
    {
      response := r;
    }

    /** A response without a status is sent as a 501. */
    method EnsureStatus()
      modifies `response
      ensures Now() == old(Now()).(response := WithStatus(cfg, old(response)))
    {
      if response.status.None? {
        response := response.(status := Some(NOT_IMPLEMENTED), content := cfg.stock(NOT_IMPLEMENTED),
                              streaming := false);
      }
    }

    /** Codes and tags the content, and delimits it. */
    method Delimit()
      modifies `response
      ensures Now() == old(Now()).(response := Delimited(headRequest, Represented(cfg, request, old(response))))
    {
      var streamed := response.streaming;
      var (content, other) := cfg.represent(request, streamed, response.status, response.content,
                                            response.fields.other);
      var fields := response.fields.(other := other);
      var r := response.(content := if streamed then response.content else content, fields := fields);
      if r.status.Some? && StatusHasNoBody(r.status.value) {
        r := r.(content := "", streaming := false, fields := fields.(contentLength := None, transferEncoding := None));
      } else if headRequest && r.chunked {
        r := r.(fields := fields.(contentLength := None, transferEncoding := None));
      } else {
        r := r.(fields := fields.(contentLength := Some(ContentLength(r))));
      }
      SetResponse(r);
    }

    method SetString(whole: Wire)
      modifies `responseString
      ensures Now() == old(Now()).(responseString := whole)
    {
      responseString := whole;
    }

    /** itsSentBytes is not reset here: it is zero already. */
    method StartRegularReply()
      modifies `response, `responseString, `trace
      ensures Now() == Spec.StartRegularReply(cfg, old(Now()))
    {
      hide Spec.Await, Bytes, HeaderSection, Delimited, Represented, RecordOf;
      Delimit();
      EnsureStatus();
      var headers := [Header(HeaderSection(response))];
      if headRequest {
        SetString(headers + []);
      } else {
        SetString(headers + Bytes(response.content));
      }
      Await(WriteRegular);
    }

    method PreparePendingHeaders()
      modifies `response, `pendingHeaders
      ensures Now() == Spec.PreparePendingHeaders(cfg, old(Now()))
    {
      hide WithStatus, HeaderSection, RecordOf;
      EnsureStatus();
      pendingHeaders := [Header(HeaderSection(response))];
    }

    method Frame(length: nat, fields: Fields)
      modifies `declaredContentLength, `response
      ensures Now() == Framing(old(Now()), length, fields)
    {
      declaredContentLength := length;
      response := response.(fields := fields);
    }

    /** A message never carries both framings. */
    method StartChunkedReply(first: StreamStatus, env: Env)
      modifies this
      ensures Now() == Spec.StartChunkedReply(cfg, old(Now()), first, env)
    {
      hide Spec.PreparePendingHeaders, Spec.GetNextChunkedChunk, Framing, RecordOf;
      Frame(declaredContentLength, response.fields.(transferEncoding := Some("chunked"), contentLength := None));
      PreparePendingHeaders();
      GetNextChunkedChunk(first, env);
    }

    method StartStreamReply(first: StreamStatus, env: Env)
      modifies this
      ensures Now() == Spec.StartStreamReply(cfg, old(Now()), first, env)
    {
      hide Spec.PreparePendingHeaders, Spec.GetNextChunk, ContentLength, Framing, RecordOf;
      var length := ContentLength(response);
      Frame(length, response.fields.(contentLength := Some(length)));
      PreparePendingHeaders();
      GetNextChunk(first, env);
    }

    /** The response of a backend goes through as it is, so nobody here knows where it ends. */
    method StartGatewayReply(first: StreamStatus, env: Env)
      modifies this
      ensures Now() == Spec.StartGatewayReply(cfg, old(Now()), first, env)
    {
      hide Spec.GetNextChunk;
      NotKept();
      GetNextChunk(first, env);
    }

    method StartReply(first: StreamStatus, env: Env)
      modifies this
      ensures Now() == Spec.StartReply(cfg, old(Now()), first, env)
    {
      hide Spec.SetServerHeaders, Spec.StartRegularReply, Spec.StartChunkedReply, Spec.StartStreamReply,
           Spec.StartGatewayReply, RecordOf;
      AnnouncedKind(cfg, Now(), env.now);
      if headRequest {
        SetServerHeaders(env.now);
        StartRegularReply();
      } else if response.streaming {
        if response.gateway {
          StartGatewayReply(first, env);
        } else if response.chunked {
          SetServerHeaders(env.now);
          StartChunkedReply(first, env);
        } else {
          SetServerHeaders(env.now);
          StartStreamReply(first, env);
        }
      } else {
        SetServerHeaders(env.now);
        StartRegularReply();
      }
    }

    method CancelTimer()
      modifies `timerGeneration
      ensures Now() == Cancelled(old(Now()))
    {
      timerGeneration := timerGeneration + 1;
    }

    method CallHandler(ghost pool: Pool, handler: Handler, first: StreamStatus, env: Env)
      modifies this
      ensures Now() == Spec.HandleCompletedRead(cfg, old(Now()), pool, handler, first, env)
    {
      hide Spec.Take, Spec.SendStockReply, Spec.StartReply, Spec.Respond, RecordOf;
      TakenAside(Now(), HandleTask(pool));
      Take(HandleTask(pool));
      CancelTimer();
      if prematurelyDisconnected {
        return;
      }
      match handler(request, response)
      case Disconnected =>
      case Refused => SendStockReply(BAD_REQUEST, env);
      case Answered(r) =>
        Respond(r, Handled(handler, request, r, []));
        StartReply(first, env);
    }

    /** A thread of the pool takes the request.  The handler is called on it without what was meant for this hop, and on
        a response nobody has touched; when it answers with a buffered one, what is being written is the reply of the
        reference. */
    method HandleCompletedRead(ghost pool: Pool, handler: Handler, first: StreamStatus, env: Env)
      requires Valid() && HandleTask(pool) in trace.pending
      modifies this
      ensures Now() == Spec.HandleCompletedRead(cfg, old(Now()), pool, handler, first, env)
      ensures Valid() && Lawful(cfg, old(Now()), Now())
      ensures !old(timedOut) && !old(prematurelyDisconnected) ==>
                && Handed(old(trace.parsed), old(request)) && old(response) == EMPTY_RESPONSE
                && (var handling := handler(old(request), EMPTY_RESPONSE);
                    && (handling.Disconnected? ==> trace.wire == old(trace.wire) && trace.pending == multiset{})
                    && (handling.Answered? && (old(trace.parsed).verb == HEAD || !handling.response.streaming) ==>
                          trace.pending == multiset{WriteRegular} &&
                          responseString == [Header(ProducedHead(cfg, Current(Now())))] +
                                            Bytes(ProducedBody(cfg, Current(Now()))) &&
                          trace.outcome == Handled(handler, old(request), handling.response, [])))
    {
      hide Inv, Usable, Lawful, Spec.HandleCompletedRead, Reply, HandlerRequest, Handed, ProducedHead, ProducedBody,
           Bytes;
      StepObeys(cfg, Now(), TaskRun(pool, handler, first), env);
      if !timedOut && !prematurelyDisconnected {
        CompletedMeans(cfg, Now(), pool, handler, first, env);
        HandlerIsHanded(trace.parsed);
        BufferedIsWhole(cfg, Now(), pool, handler, first, env);
      }
      CallHandler(pool, handler, first, env);
    }

    // -------------------------------------------------------------- a write completes

    method Advance(n: nat)
      requires sentBytes + n <= |responseString|
      modifies `sentBytes, `trace
      ensures Now() == Spec.Advance(old(Now()), n)
    {
      ghost var written := trace.(wire := trace.wire + responseString[sentBytes..sentBytes + n]);
      sentBytes := sentBytes + n;
      trace := written;
    }

    method Break()
      modifies `broken
      ensures Now() == Failing(old(Now()))
    {
      broken := true;
    }

    /** A piece of a reply has been written, or could not be: what follows when all of it was. */
    method GoOn(op: Continuation, ok: bool, n: nat, env: Env)
      requires IsWrite(op) && CanDeliver(Now(), ok, n)
      modifies this
      ensures Now() == Written(cfg, old(Now()), op, ok, n, env)
    {
      hide Spec.Take, Spec.AbortReply, Spec.FinishResponse, Spec.Schedule, Spec.Await, RecordOf;
      TakenAside(Now(), op);
      Take(op);
      if !ok {
        Break();
        AbortReply(env);
        return;
      }
      Advance(n);
      if sentBytes < |responseString| {
        Await(op);
        return;
      }
      if op.WriteStream? {
        ScheduleChunkGetter(env);
      } else if op.WriteChunked? {
        ScheduleChunkedChunkGetter(env);
      } else {
        FinishResponse(env.atFinish);
      }
    }

    /** A write of a buffered reply has ended.  What arrived is on the wire, no more and no less, and the rest is
        written next; when nothing is left, the whole reply stands behind what was there before it. */
    method WriteRegularReply(ok: bool, n: nat, env: Env)
      requires Valid() && WriteRegular in trace.pending && CanDeliver(Now(), ok, n)
      modifies this
      ensures Now() == Written(cfg, old(Now()), WriteRegular, ok, n, env)
      ensures Valid() && Lawful(cfg, old(Now()), Now())
      ensures ok && old(sentBytes) + n < |old(responseString)| ==>
                && trace.wire == old(trace.wire) + old(responseString)[old(sentBytes)..old(sentBytes) + n]
                && responseString == old(responseString) && sentBytes == old(sentBytes) + n
                && trace.pending == multiset{WriteRegular}
      ensures ok && old(sentBytes) + n == |old(responseString)| ==>
                trace.wire == old(Prologue(cfg, trace) + Reply(cfg, Current(Now())))
      ensures !ok ==> trace.pending == multiset{} && !open && trace.exchanges == old(trace.exchanges)
    {
      hide Inv, Usable, Lawful, Written, Prologue, Reply;
      StepObeys(cfg, Now(), WriteDone(WriteRegular, ok, n), env);
      WrittenMeans(cfg, Now(), WriteRegular, ok, n, env);
      if ok && sentBytes + n == |responseString| {
        LastPieceMeans(cfg, Now(), WriteRegular, n, env);
      }
      GoOn(WriteRegular, ok, n, env);
    }

    /** A write of a piece of a stream has ended; when nothing of it is left, the next chunk is asked for. */
    method WriteStreamReply(ok: bool, n: nat, env: Env)
      requires Valid() && WriteStream in trace.pending && CanDeliver(Now(), ok, n)
      modifies this
      ensures Now() == Written(cfg, old(Now()), WriteStream, ok, n, env)
      ensures Valid() && Lawful(cfg, old(Now()), Now())
      ensures ok && old(sentBytes) + n < |old(responseString)| ==>
                && trace.wire == old(trace.wire) + old(responseString)[old(sentBytes)..old(sentBytes) + n]
                && responseString == old(responseString) && sentBytes == old(sentBytes) + n
                && trace.pending == multiset{WriteStream}
      ensures !ok ==> trace.pending == multiset{} && !open && trace.exchanges == old(trace.exchanges)
    {
      hide Inv, Usable, Lawful, Written;
      StepObeys(cfg, Now(), WriteDone(WriteStream, ok, n), env);
      WrittenMeans(cfg, Now(), WriteStream, ok, n, env);
      GoOn(WriteStream, ok, n, env);
    }

    /** ... and of a chunk in its framing. */
    method WriteChunkedReply(ok: bool, n: nat, env: Env)
      requires Valid() && WriteChunked in trace.pending && CanDeliver(Now(), ok, n)
      modifies this
      ensures Now() == Written(cfg, old(Now()), WriteChunked, ok, n, env)
      ensures Valid() && Lawful(cfg, old(Now()), Now())
      ensures ok && old(sentBytes) + n < |old(responseString)| ==>
                && trace.wire == old(trace.wire) + old(responseString)[old(sentBytes)..old(sentBytes) + n]
                && responseString == old(responseString) && sentBytes == old(sentBytes) + n
                && trace.pending == multiset{WriteChunked}
      ensures !ok ==> trace.pending == multiset{} && !open && trace.exchanges == old(trace.exchanges)
    {
      hide Inv, Usable, Lawful, Written;
      StepObeys(cfg, Now(), WriteDone(WriteChunked, ok, n), env);
      WrittenMeans(cfg, Now(), WriteChunked, ok, n, env);
      GoOn(WriteChunked, ok, n, env);
    }

    /** ... and of the end of a chunked reply, after which the whole reply stands on the wire. */
    method FinalizeChunkedReply(ok: bool, n: nat, env: Env)
      requires Valid() && WriteFinal in trace.pending && CanDeliver(Now(), ok, n)
      modifies this
      ensures Now() == Written(cfg, old(Now()), WriteFinal, ok, n, env)
      ensures Valid() && Lawful(cfg, old(Now()), Now())
      ensures ok && old(sentBytes) + n < |old(responseString)| ==>
                && trace.wire == old(trace.wire) + old(responseString)[old(sentBytes)..old(sentBytes) + n]
                && responseString == old(responseString) && sentBytes == old(sentBytes) + n
                && trace.pending == multiset{WriteFinal}
      ensures ok && old(sentBytes) + n == |old(responseString)| ==>
                trace.wire == old(Prologue(cfg, trace) + Reply(cfg, Current(Now())))
      ensures !ok ==> trace.pending == multiset{} && !open && trace.exchanges == old(trace.exchanges)
    {
      hide Inv, Usable, Lawful, Written, Prologue, Reply;
      StepObeys(cfg, Now(), WriteDone(WriteFinal, ok, n), env);
      WrittenMeans(cfg, Now(), WriteFinal, ok, n, env);
      if ok && sentBytes + n == |responseString| {
        LastPieceMeans(cfg, Now(), WriteFinal, n, env);
      }
      GoOn(WriteFinal, ok, n, env);
    }

    // -------------------------------------------------------------- every step

    /** Whatever happens next, if it can happen, is handled: the object makes the step of the model, its invariant holds
        again, and nothing that happened is taken back. */
    method Handle(input: Input, env: Env)
      requires Valid() && Enabled(Now(), input)
      modifies this
      ensures Now() == Step(cfg, old(Now()), input, env) && Valid() && Lawful(cfg, old(Now()), Now())
    {
      hide Inv, Usable, Lawful, Spec.HandleHandshake, Spec.HandleRead, Spec.HandleTimer, Spec.HandleCompletedRead,
           Spec.GetNextChunk, Spec.GetNextChunkedChunk, Written, Spec.Take;
      StepObeys(cfg, Now(), input, env);
      match input
      case HandshakeDone(ok) => HandleHandshake(ok);
      case ReadDone(op, ok, data) => HandleRead(op, ok, data, env);
      case TimerFired(aborted, generation) => HandleTimer(aborted, generation, env);
      case TaskRun(pool, handler, first) => HandleCompletedRead(pool, handler, first, env);
      case ChunkReady(pool, status) => RunChunkTask(pool, status, env);
      case ChunkedReady(pool, status) => RunChunkedTask(pool, status, env);
      case WriteDone(op, ok, n) =>
        match op
        case WriteRegular => WriteRegularReply(ok, n, env);
        case WriteStream => WriteStreamReply(ok, n, env);
        case WriteChunked => WriteChunkedReply(ok, n, env);
        case WriteFinal => FinalizeChunkedReply(ok, n, env);
        case _ =>
    }
  }
}
