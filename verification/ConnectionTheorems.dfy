/** What a persistent connection is for, over every run: what a client reads off it, that its replies are those of a
    fresh connection, and what they announce. */
module ConnectionTheorems {
  import opened Wrappers
  import opened Text
  import opened HeaderTokens
  import opened RequestHead
  import opened ChunkedCodec
  import opened Messages
  import opened RequestStream
  import opened Replies
  import opened ConnectionModel
  import opened ConnectionInvariants
  import opened ConnectionHistory
  import opened ConnectionRuns
  import opened ClientDecoder

  // ---------------------------------------------------------------- the client reads what was produced

  ghost predicate AllSound(cfg: Config, exchanges: seq<Exchange>) {
    forall e :: e in exchanges ==> Sound(cfg, e)
  }

  lemma {:induction false} KeptAreDelivered(cfg: Config, requests: seq<Request>, exchanges: seq<Exchange>)
    requires History(cfg, requests, exchanges)
    ensures forall e :: e in exchanges ==> Delivered(cfg, e)
  {
    hide Delivered;
    forall e | e in exchanges
      ensures Delivered(cfg, e)
    {
      var i :| 0 <= i < |exchanges| && exchanges[i] == e;
      assert Reusable(cfg, exchanges[i]);
    }
  }

  /** Whenever the connection waits, a client that decodes everything written so far finds exactly one final response
      for every request parsed, in their order and with exactly the bodies produced, and is left on the boundary of
      the next message: at most the interim reply to the request it is sending. */
  lemma {:induction false} WholeConnectionDecodes(cfg: Config, run: Run, i: nat)
    requires IsRun(cfg, run) && i < |run.states|
    requires Waits(run.states[i]) && !run.states[i].timedOut && !run.states[i].broken
    requires AllSound(cfg, run.states[i].trace.exchanges)
    ensures var t := run.states[i].trace;
            && |t.requests| == |t.exchanges|
            && (forall k :: 0 <= k < |t.requests| ==> t.exchanges[k].request == t.requests[k])
            && DecodeAll(Heads(t.exchanges), t.wire) ==
               Some(Transcribed(Expected(cfg, t.exchanges), Interim(t.interim)))
  {
    hide IsRun, Inv, Usable, Waits, Transcript, Interim, Heads, Expected, DecodeAll, Sound, Reusable;
    EveryRun(cfg, run, i);
    var s := run.states[i];
    WaitingState(cfg, s);
    forall k | 0 <= k < |s.trace.exchanges|
      ensures s.trace.exchanges[k].request == s.trace.requests[k]
    {
      assert Reusable(cfg, s.trace.exchanges[k]);
    }
    KeptAreDelivered(cfg, s.trace.requests, s.trace.exchanges);
    TranscriptDecodes(cfg, s.trace.exchanges, Interim(s.trace.interim));
  }

  /** A write has failed, and the connection still waits: the client finds the responses to the first requests, in
      order and whole, and waits for the next one. */
  lemma {:induction false} DecodesUpToFailure(cfg: Config, run: Run, i: nat) returns (k: nat)
    requires IsRun(cfg, run) && i < |run.states|
    requires Waits(run.states[i]) && !run.states[i].timedOut && AllSound(cfg, run.states[i].trace.exchanges)
    ensures var t := run.states[i].trace;
            && k <= |t.exchanges| && DecodeAll(Heads(t.exchanges[..k]), t.wire).Some?
            && (var d := DecodeAll(Heads(t.exchanges[..k]), t.wire).value;
                d.messages == Expected(cfg, t.exchanges[..k]) &&
                if k < |t.exchanges| then Decode(IsHead(t.exchanges[k]), d.rest) == NotYet
                else d.rest <= Interim(t.interim))
  {
    hide IsRun, Inv, Usable, Waits, Transcript, Interim, Heads, Expected, DecodeAll, Decode, Sound, Reusable;
    EveryRun(cfg, run, i);
    var s := run.states[i];
    WaitingState(cfg, s);
    KeptAreDelivered(cfg, s.trace.requests, s.trace.exchanges);
    k := PrefixDecodes(cfg, s.trace.exchanges, Interim(s.trace.interim), s.trace.wire);
  }

  // ---------------------------------------------------------------- the reply to the request under way

  /** A continuation of a reply. */
  predicate IsReplying(op: Continuation) {
    op.ChunkTask? || op.ChunkedTask? || IsWrite(op)
  }

  /** The reply to the request under way is being sent, or all of it was sent and nothing is outstanding any more. */
  predicate ReplyUnderWay(s: State) {
    && !s.timedOut && UnderWay(s)
    && ((exists op :: op in s.trace.pending && IsReplying(op)) || (s.trace.pending == multiset{} && s.trace.answered))
  }

  lemma {:induction false} StreamIsPartOfAnswer(cfg: Config, s: State, body: string, more: string)
    requires s.trace.outcome.Handled? && !InOnePiece(Current(s))
    requires Answer(cfg, Current(s)) == StreamHead(cfg, Current(s)) + Bytes(body + more)
    ensures StreamedSoFar(cfg, s.trace, Current(s), body) <= Prologue(cfg, s.trace) + Answer(cfg, Current(s))
  {
    hide Answer, StreamHead, Prologue, Bytes;
    var prologue, head := Prologue(cfg, s.trace), StreamHead(cfg, Current(s));
    BytesOfConcat(body, more);
    assert prologue + (head + (Bytes(body) + Bytes(more))) == prologue + head + Bytes(body) + Bytes(more);
  }

  lemma {:induction false} AnswerOfStream(cfg: Config, s: State)
    requires s.trace.outcome.Handled? && !InOnePiece(Current(s))
    ensures var chunks := s.trace.outcome.chunks;
            Answer(cfg, Current(s)) == StreamHead(cfg, Current(s)) +
                                       Bytes(if InChunks(s) then Framed(chunks) + LAST_CHUNK
                                             else if Counted(s) then Concat(chunks) + ""
                                             else if IsPassthrough(Current(s)) then Concat(chunks)
                                             else WireBody(cfg, Current(s)))
  {
    hide Framed, Concat, LAST_CHUNK, FinalResponse, Bytes, HeaderSection;
    assert Concat(s.trace.outcome.chunks) + "" == Concat(s.trace.outcome.chunks);
  }

  /** Whatever piece of a reply is under way is a part of it. */
  lemma {:induction false} TargetIsPart(cfg: Config, s: State, op: Continuation)
    requires IsReplying(op) && s.trace.outcome.Handled?
    requires op.ChunkTask? || op.WriteStream? ==> Counted(s)
    requires op.ChunkedTask? || op.WriteChunked? || op.WriteFinal? ==> InChunks(s)
    requires op.WriteRegular? ==> InOnePiece(Current(s))
    ensures Target(cfg, s, op) <= Prologue(cfg, s.trace) + Answer(cfg, Current(s))
  {
    hide Framed, Concat, LAST_CHUNK, Reply, Prologue, StreamHead, StreamedSoFar, Answer;
    var chunks := s.trace.outcome.chunks;
    if op.ChunkTask? || op.WriteStream? {
      AnswerOfStream(cfg, s);
      StreamIsPartOfAnswer(cfg, s, Concat(chunks), "");
    } else if op.ChunkedTask? || op.WriteChunked? {
      AnswerOfStream(cfg, s);
      StreamIsPartOfAnswer(cfg, s, Framed(chunks), LAST_CHUNK);
    } else {
      AnswerIsReply(cfg, Current(s));
    }
  }

  lemma {:induction false} AnswerIsReply(cfg: Config, e: Exchange)
    ensures !IsPassthrough(e) ==> Answer(cfg, e) == Reply(cfg, e)
  {
    hide Reply;
  }

  lemma {:induction false} ReplyingState(cfg: Config, s: State, op: Continuation)
    requires Inv(cfg, s) && op in s.trace.pending && IsReplying(op) && !s.timedOut
    ensures InRequest(cfg, s) && Served(cfg, Current(s)) && s.trace.outcome.Handled?
    ensures op.ChunkTask? || op.WriteStream? ==> Counted(s)
    ensures op.ChunkedTask? || op.WriteChunked? || op.WriteFinal? ==> InChunks(s)
    ensures op.WriteRegular? ==> InOnePiece(Current(s))
    ensures !s.broken && IsWrite(op) ==> Sending(cfg, s, op)
    ensures !s.broken && !IsWrite(op) ==> Arrived(cfg, s, op) && Past(cfg, s)
  {
    hide Base, InRequest, Ready, Reading, Counted, InChunks, Sending, Arrived, InOnePiece, HandlerRequest, Reuses;
    assert OpInv(cfg, s, op);
    if !IsWrite(op) && !s.broken {
      ArrivedIsPast(cfg, s, op);
    }
  }

  lemma {:induction false} ArrivedIsPast(cfg: Config, s: State, op: Continuation)
    requires Arrived(cfg, s, op) && !s.broken && (op.ChunkTask? || op.ChunkedTask?)
    ensures Past(cfg, s)
  {
    hide Prologue, StreamHead, Concat, Framed;
  }

  /** The wire holds what came before the reply and then a part of it: all of it when nothing is outstanding. */
  lemma {:induction false} ReplyShows(cfg: Config, s: State)
    requires Inv(cfg, s) && ReplyUnderWay(s)
    ensures InRequest(cfg, s) && Served(cfg, Current(s))
    ensures !s.broken ==> Prologue(cfg, s.trace) <= s.trace.wire <= Prologue(cfg, s.trace) + Answer(cfg, Current(s))
    ensures !s.broken && s.trace.pending == multiset{} ==>
              s.trace.wire == Prologue(cfg, s.trace) + Answer(cfg, Current(s))
  {
    hide Base, OpInv, InRequest, Served, Target, Answer, Prologue, Counted, InChunks, InOnePiece, Current;
    if s.trace.pending == multiset{} {
      assert AnswerSent(cfg, s);
    } else {
      var op :| op in s.trace.pending && IsReplying(op);
      ReplyingState(cfg, s, op);
      if !s.broken {
        TargetIsPart(cfg, s, op);
        PartOfTarget(s.trace.wire, if IsWrite(op) then s.responseString[s.sentBytes..] else [],
                     Target(cfg, s, op), Prologue(cfg, s.trace), Answer(cfg, Current(s)));
      }
    }
  }

  lemma {:induction false} PartOfTarget(w: Wire, more: Wire, target: Wire, prologue: Wire, answer: Wire)
    requires w + more == target && target <= prologue + answer && |prologue| <= |w|
    ensures prologue <= w <= prologue + answer
  {
    assert w == target[..|w|];
  }

  /** The last reply of a connection, the one after which it is not kept, is found by the client as every other one,
      complete and with nothing after it.  A stream of announced length is, exactly when it kept to it: when it fell
      short the client sees that the reply is not complete. */
  lemma {:induction false} LastReplyDecodes(cfg: Config, run: Run, i: nat)
    requires IsRun(cfg, run) && i < |run.states|
    requires var s := run.states[i];
             && ReplyUnderWay(s) && s.trace.pending == multiset{} && !s.broken
             && AllSound(cfg, s.trace.exchanges) && Sound(cfg, Current(s)) && !IsPassthrough(Current(s))
    ensures var s := run.states[i];
            var e, heads := Current(s), Heads(s.trace.exchanges + [Current(s)]);
            var decoded := DecodeAll(heads, s.trace.wire);
            && (AsAnnounced(e) ==> decoded == Some(Transcribed(Expected(cfg, s.trace.exchanges + [e]), [])))
            && (IsCounted(e) && HasBody(cfg, e) ==>
                  && (decoded == Some(Transcribed(Expected(cfg, s.trace.exchanges + [e]), [])) <==> AsAnnounced(e))
                  && (decoded == None <==> |Concat(e.outcome.chunks)| < e.outcome.response.streamLength))
  {
    hide IsRun, Inv, Usable, Transcript, Heads, Expected, DecodeAll, Decode, Sound, Reusable, Current, Served, Reply,
         InRequest, IsPassthrough, ReplyUnderWay, IsCounted, HasBody;
    EveryRun(cfg, run, i);
    RunUsable(cfg, run);
    var s := run.states[i];
    var e := Current(s);
    ReplyShows(cfg, s);
    InvHistory(cfg, s);
    KeptAreDelivered(cfg, s.trace.requests, s.trace.exchanges);
    AnswerIsReply(cfg, e);
    assert e.interim == s.trace.interim by { CurrentInterim(s); }
    if AsAnnounced(e) {
      LastDecodes(cfg, s.trace.exchanges, e);
    }
    if IsCounted(e) && HasBody(cfg, e) {
      LastCountedDecodes(cfg, s.trace.exchanges, e);
    }
  }

  ghost predicate AllDelivered(cfg: Config, exchanges: seq<Exchange>) {
    forall e :: e in exchanges ==> Delivered(cfg, e)
  }

  lemma {:induction false} LastDecodes(cfg: Config, exchanges: seq<Exchange>, e: Exchange)
    requires Usable(cfg) && AllDelivered(cfg, exchanges) && AllSound(cfg, exchanges)
    requires Served(cfg, e) && AsAnnounced(e) && Sound(cfg, e)
    ensures DecodeAll(Heads(exchanges + [e]), Transcript(cfg, exchanges) + Interim(e.interim) + Reply(cfg, e)) ==
            Some(Transcribed(Expected(cfg, exchanges + [e]), []))
  {
    hide Usable, Transcript, Heads, Expected, DecodeAll, Decode, Sound, Served, Reply, Interim, AsAnnounced;
    KeptWire(cfg, exchanges, e);
    assert Interim(false) == [] by { NoInterim(); }
    assert forall f :: f in exchanges + [e] ==> Delivered(cfg, f) && Sound(cfg, f);
    TranscriptDecodes(cfg, exchanges + [e], []);
  }

  lemma {:induction false} HeadsOfMore(cfg: Config, exchanges: seq<Exchange>, e: Exchange)
    ensures Heads(exchanges + [e]) == Heads(exchanges) + [IsHead(e)]
    ensures Expected(cfg, exchanges + [e]) ==
            Expected(cfg, exchanges) + [(ProducedStatus(e), ProducedBody(cfg, e))]
  {
    hide FinalResponse, ProducedBody;
    assert (exchanges + [e])[..|exchanges|] == exchanges;
  }

  /** What is decoded after the replies to the requests before. */
  lemma {:induction false} DecodesAfter(cfg: Config, exchanges: seq<Exchange>, e: Exchange, part: Wire)
    requires Usable(cfg) && AllDelivered(cfg, exchanges) && AllSound(cfg, exchanges)
    ensures DecodeAll(Heads(exchanges + [e]), Transcript(cfg, exchanges) + Interim(e.interim) + part) ==
            match Decode(IsHead(e), part)
            case Message(status, body, rest) =>
              Some(Transcribed(Expected(cfg, exchanges) + [(status, body)], rest))
            case _ => None
  {
    hide Usable, Transcript, Heads, Expected, DecodeAll, Decode, Sound, Delivered, Interim;
    var rest := Interim(e.interim) + part;
    HeadsOfMore(cfg, exchanges, e);
    assert Transcript(cfg, exchanges) + rest == Transcript(cfg, exchanges) + Interim(e.interim) + part;
    TranscriptDecodes(cfg, exchanges, rest);
    DecodeAfterInterim(IsHead(e), e.interim, part);
    DecodeOneMore(Heads(exchanges), IsHead(e), Transcript(cfg, exchanges) + rest);
  }

  lemma {:induction false} LastCountedDecodes(cfg: Config, exchanges: seq<Exchange>, e: Exchange)
    requires Usable(cfg) && AllDelivered(cfg, exchanges) && AllSound(cfg, exchanges)
    requires IsCounted(e) && HasBody(cfg, e) && Served(cfg, e) && Sound(cfg, e)
    ensures var decoded := DecodeAll(Heads(exchanges + [e]),
                                     Transcript(cfg, exchanges) + Interim(e.interim) + Reply(cfg, e));
            && (decoded == Some(Transcribed(Expected(cfg, exchanges + [e]), [])) <==> AsAnnounced(e))
            && (decoded == None <==> |Concat(e.outcome.chunks)| < e.outcome.response.streamLength)
  {
    hide Usable, Transcript, Heads, Expected, DecodeAll, Decode, Sound, Served, Interim, FinalResponse, Bytes, HasBody,
         Concat, WireBody;
    var body := Concat(e.outcome.chunks);
    DecodesAfter(cfg, exchanges, e, Reply(cfg, e));
    HeadsOfMore(cfg, exchanges, e);
    CountedHead(cfg, e);
    CountedDecodes(cfg, e, body);
    CountedProduced(cfg, e);
    var length := e.outcome.response.streamLength;
    if |body| == length {
      assert body[..length] == body && body[length..] == "" && Bytes("") == [];
    } else if |body| > length {
      assert |Bytes(body[length..])| == |body| - length;
    }
  }

  lemma {:induction false} CountedProduced(cfg: Config, e: Exchange)
    requires IsCounted(e)
    ensures ProducedBody(cfg, e) == Concat(e.outcome.chunks) && !IsHead(e) && !IsPassthrough(e)
    ensures |Bytes("")| == 0
  {
    hide FinalResponse;
  }

  lemma {:induction false} CurrentInterim(s: State)
    ensures Current(s).interim == s.trace.interim
  {
  }

  lemma {:induction false} NoInterim()
    ensures Interim(false) == []
  {
  }

  // ---------------------------------------------------------------- a reply that is not complete does not look it

  /** How many octets of the body are on the wire. */
  function BodyOnWire(cfg: Config, s: State): int {
    |s.trace.wire| - |Prologue(cfg, s.trace)| - 1
  }

  lemma {:induction false} CutWire(w: Wire, prologue: Wire, reply: Wire)
    requires prologue <= w <= prologue + reply
    ensures w == prologue + reply[..|w| - |prologue|]
  {
  }

  /** While a reply is under way a client that gets what was written so far does not take it for a complete one: of a
      stream of announced length as long as that length is not reached, of any other reply up to the very end. */
  lemma {:induction false} PartialReplyShows(cfg: Config, run: Run, i: nat)
    requires IsRun(cfg, run) && i < |run.states|
    requires var s := run.states[i];
             && ReplyUnderWay(s) && s.trace.pending != multiset{} && !s.broken
             && AllSound(cfg, s.trace.exchanges) && Sound(cfg, Current(s)) && !IsPassthrough(Current(s))
             && (IsCounted(Current(s)) ==> HasBody(cfg, Current(s)) &&
                                           BodyOnWire(cfg, s) < Current(s).outcome.response.streamLength)
    ensures var s := run.states[i];
            DecodeAll(Heads(s.trace.exchanges + [Current(s)]), s.trace.wire) == None
  {
    hide IsRun, Inv, Usable, Transcript, Heads, Expected, DecodeAll, Decode, Sound, Reusable, Current, Served, Reply,
         InRequest, IsPassthrough, ReplyUnderWay, IsCounted, HasBody;
    EveryRun(cfg, run, i);
    RunUsable(cfg, run);
    var s := run.states[i];
    var e, n := Current(s), |s.trace.wire| - |Prologue(cfg, s.trace)|;
    ReplyShows(cfg, s);
    InvHistory(cfg, s);
    KeptAreDelivered(cfg, s.trace.requests, s.trace.exchanges);
    AnswerIsReply(cfg, e);
    assert e.interim == s.trace.interim by { CurrentInterim(s); }
    CutWire(s.trace.wire, Prologue(cfg, s.trace), Reply(cfg, e));
    DecodesAfter(cfg, s.trace.exchanges, e, Reply(cfg, e)[..n]);
    if IsCounted(e) {
      CutCounted(cfg, e, n);
    } else {
      StillIncomplete(cfg, s);
      CutReply(cfg, e, n);
    }
  }

  lemma {:induction false} CutCounted(cfg: Config, e: Exchange, n: nat)
    requires IsCounted(e) && Served(cfg, e) && Sound(cfg, e) && HasBody(cfg, e) && n <= |Reply(cfg, e)|
    requires n <= e.outcome.response.streamLength
    ensures Decode(IsHead(e), Reply(cfg, e)[..n]) == NotYet
  {
    hide Decode, FinalResponse, WireBody, Served, Sound, HasBody;
    CountedHead(cfg, e);
    if n == 0 {
      NothingYet(IsHead(e));
    } else if n == |Reply(cfg, e)| {
      assert Reply(cfg, e)[..n] == Reply(cfg, e);
      CountedDecodes(cfg, e, WireBody(cfg, e));
    } else {
      CutAfterHead(HeaderSection(FinalResponse(cfg, e)), WireBody(cfg, e), n);
      CountedDecodes(cfg, e, WireBody(cfg, e)[..n - 1]);
    }
  }

  /** The pieces that are not the end of a reply, and the end while it is on its way, leave something to come. */
  lemma {:induction false} StillIncomplete(cfg: Config, s: State)
    requires Inv(cfg, s) && ReplyUnderWay(s) && s.trace.pending != multiset{} && !s.broken
    requires !IsCounted(Current(s)) && !IsPassthrough(Current(s))
    ensures Delivered(cfg, Current(s)) && |s.trace.wire| < |Prologue(cfg, s.trace)| + |Reply(cfg, Current(s))|
  {
    hide Base, OpInv, Inv, InRequest, Served, Prologue, HandlerRequest, Framed, Concat, LAST_CHUNK, Bytes,
         FinalResponse;
    var op :| op in s.trace.pending && IsReplying(op);
    ReplyingState(cfg, s, op);
    LastChunkBytes();
    if op.ChunkedTask? || op.WriteChunked? {
      ChunksToCome(cfg, s);
    }
  }

  lemma {:induction false} ChunksToCome(cfg: Config, s: State)
    requires InChunks(s)
    ensures |StreamedSoFar(cfg, s.trace, Current(s), Framed(s.trace.outcome.chunks))| <
            |Prologue(cfg, s.trace)| + |Reply(cfg, Current(s))|
  {
    hide Prologue, Framed, FinalResponse;
    assert |LAST_CHUNK| > 0;
  }

  lemma {:induction false} LastChunkBytes()
    ensures |LAST_CHUNK| > 0
  {
  }

  // ---------------------------------------------------------------- a stream that fails

  /** The streamer of a chunked reply ends with an error: at its first look or later. */
  predicate StreamFails(s: State, input: Input) {
    match input
    case ChunkedReady(pool, status) => status == ExitError
    case TaskRun(pool, handler, first) =>
      first == ExitError && !s.prematurelyDisconnected && !s.headRequest &&
      (match handler(s.request, s.response)
       case Answered(r) => r.streaming && r.chunked && !r.gateway
       case _ => false)
    case _ => false
  }

  lemma {:induction false} ChunkedState(cfg: Config, s: State)
    requires StreamReady(cfg, s, true) && !s.timedOut
    ensures InRequest(cfg, s) && Delivered(cfg, Current(s)) && !IsPassthrough(Current(s))
    ensures !s.broken ==>
              Past(cfg, s) && s.trace.wire + s.pendingHeaders ==
                              StreamedSoFar(cfg, s.trace, Current(s), Framed(s.trace.outcome.chunks))
    ensures InChunks(s) && s.trace.outcome.Handled?
  {
    hide InRequest, HandlerRequest, Reuses, Concat, Framed, StreamedSoFar, Obeyed;
  }

  lemma {:induction false} FlushedPart(s: State, env: Env)
    ensures var t := FlushPendingHeaders(s, env);
            s.trace.wire <= t.trace.wire <= s.trace.wire + s.pendingHeaders
    ensures var t := Closed(FlushPendingHeaders(s, env));
            Current(t) == Current(s) && t.trace.exchanges == s.trace.exchanges && t.trace.interim == s.trace.interim &&
            t.trace.wire == FlushPendingHeaders(s, env).trace.wire && !t.open && t.trace.pending == s.trace.pending
  {
    hide DeliveredPart, WriteOk;
    WritePart(s, s.pendingHeaders, env.flush);
  }

  /** A chunked reply that breaks off, its header section flushed or not, is not complete to the client. */
  lemma {:induction false} BrokenOffShows(cfg: Config, s: State, env: Env)
    requires Running(cfg, s) && StreamReady(cfg, s, true) && !s.timedOut && !s.broken
    requires AllSound(cfg, s.trace.exchanges) && Sound(cfg, Current(s))
    ensures var t := Closed(FlushPendingHeaders(s, env));
            !t.open && t.trace.pending == multiset{} && Current(t) == Current(s) &&
            t.trace.exchanges == s.trace.exchanges &&
            DecodeAll(Heads(t.trace.exchanges + [Current(t)]), t.trace.wire) == None
  {
    hide Usable, Transcript, Heads, Expected, DecodeAll, Decode, Sound, Reusable, Current, Served, Reply, Interim,
         StreamReady, InChunks, InRequest, Framed, StreamedSoFar, FlushPendingHeaders, Closed;
    var e, t := Current(s), Closed(FlushPendingHeaders(s, env));
    ChunkedState(cfg, s);
    FlushedPart(s, env);
    ChunksToCome(cfg, s);
    AnswerIsReply(cfg, e);
    TargetIsPart(cfg, s, ChunkedTask(FastPool)) by {
      ChunksNotCounted(s);
    }
    assert Target(cfg, s, ChunkedTask(FastPool)) == s.trace.wire + s.pendingHeaders by {
      ChunkedTarget(cfg, s, FastPool);
    }
    var n := |t.trace.wire| - |Prologue(cfg, s.trace)|;
    PartOfPart(s.trace.wire, t.trace.wire, s.trace.wire + s.pendingHeaders, Prologue(cfg, s.trace), Reply(cfg, e));
    CutWire(t.trace.wire, Prologue(cfg, s.trace), Reply(cfg, e));
    KeptAreDelivered(cfg, s.trace.requests, s.trace.exchanges);
    assert e.interim == s.trace.interim by { CurrentInterim(s); }
    DecodesAfter(cfg, s.trace.exchanges, e, Reply(cfg, e)[..n]);
    CutReply(cfg, e, n);
  }

  lemma {:induction false} ChunksNotCounted(s: State)
    requires InChunks(s)
    ensures s.trace.outcome.Handled?
  {
  }

  lemma {:induction false} ChunkedTarget(cfg: Config, s: State, pool: Pool)
    requires s.trace.outcome.Handled?
    ensures Target(cfg, s, ChunkedTask(pool)) ==
            StreamedSoFar(cfg, s.trace, Current(s), Framed(s.trace.outcome.chunks))
  {
    hide Framed, Concat, StreamedSoFar, Reply;
  }

  lemma {:induction false} PartOfPart(w: Wire, longer: Wire, target: Wire, prologue: Wire, reply: Wire)
    requires w <= longer <= target <= prologue + reply && |prologue| <= |w| && |target| < |prologue| + |reply|
    ensures prologue <= longer <= prologue + reply && |longer| - |prologue| < |reply|
  {
  }

  /** The first look at the streamer of a chunked response finds the header section held back. */
  lemma {:induction false} ChunkedBegins(cfg: Config, s: State, pool: Pool, handler: Handler, first: StreamStatus,
                                         env: Env) returns (begun: State)
    requires Inv(cfg, s) && HandleTask(pool) in s.trace.pending && !s.prematurelyDisconnected && !s.headRequest
    requires handler(s.request, s.response).Answered?
    requires var r := handler(s.request, s.response).response; r.streaming && r.chunked && !r.gateway
    ensures HandleCompletedRead(cfg, s, pool, handler, first, env) == GetNextChunkedChunk(cfg, begun, first, env)
    ensures Running(cfg, begun) && StreamReady(cfg, begun, true) && begun.timedOut == s.timedOut
    ensures begun.broken == s.broken && begun.trace.exchanges == s.trace.exchanges
  {
    hide Inv, Running, Ready, JustAnswered, StreamReady, Announced, InOnePiece, IsPassthrough, Current,
         GetNextChunkedChunk, SetServerHeaders, PreparePendingHeaders, Framing, RecordOf;
    var cancelled := Cancelled(Take(s, HandleTask(pool)));
    CancelKeeps(cfg, s, pool);
    var response := handler(s.request, s.response).response;
    AnswerKeeps(cfg, cancelled, handler, response);
    var answered := Respond(cancelled, response, Handled(handler, s.request, response, []));
    AnnouncedKeeps(cfg, answered, env.now);
    AnnouncedShape(cfg, answered, env.now);
    var announced := SetServerHeaders(cfg, answered, env.now);
    StreamBegins(cfg, announced);
    AnnouncedKeepsTime(cfg, answered, env.now);
    begun := Prepared(cfg, announced);
  }

  lemma {:induction false} AnnouncedKeepsTime(cfg: Config, s: State, now: int)
    ensures var t := SetServerHeaders(cfg, s, now);
            t.timedOut == s.timedOut && t.broken == s.broken && t.trace.exchanges == s.trace.exchanges
  {
    hide Vetoes, ServerHeaders;
  }

  /** A streamer that fails in the middle of a chunked body, or before it, leaves it without an end: the connection is
      closed, and the client sees that the reply is not complete, also when its header section could not be sent. */
  lemma {:induction false} FailedStreamShows(cfg: Config, run: Run, i: nat)
    requires IsRun(cfg, run) && i < |run.events|
    requires var s, t := run.states[i], run.states[i + 1];
             && StreamFails(s, run.events[i].input) && !s.timedOut && !s.broken
             && AllSound(cfg, t.trace.exchanges) && Sound(cfg, Current(t))
    ensures var t := run.states[i + 1];
            && !t.open && t.trace.pending == multiset{}
            && t.trace.exchanges == run.states[i].trace.exchanges
            && DecodeAll(Heads(t.trace.exchanges + [Current(t)]), t.trace.wire) == None
  {
    hide Usable, StartConnection, Inv, Running, StreamReady, DecodeAll, Heads, Sound, Current, HandleCompletedRead,
         FlushPendingHeaders, Closed, RecordOf, Take;
    EveryRun(cfg, run, i);
    assert Reached(cfg, run, i + 1);
    var s, env := run.states[i], run.events[i].env;
    match run.events[i].input
    case ChunkedReady(pool, status) =>
      ChunkTaken(cfg, s, ChunkedTask(pool));
      TakenKeepsTime(s, ChunkedTask(pool));
      FailedAt(cfg, Take(s, ChunkedTask(pool)), env);
    case TaskRun(pool, handler, first) =>
      var begun := ChunkedBegins(cfg, s, pool, handler, first, env);
      FailedAt(cfg, begun, env);
    case _ =>
  }

  lemma {:induction false} TakenKeepsTime(s: State, op: Continuation)
    ensures var t := Take(s, op);
            t.timedOut == s.timedOut && t.broken == s.broken && t.trace.exchanges == s.trace.exchanges
  {
  }

  lemma {:induction false} FailedAt(cfg: Config, s: State, env: Env)
    requires Running(cfg, s) && StreamReady(cfg, s, true) && !s.timedOut && !s.broken
    ensures var t := GetNextChunkedChunk(cfg, s, ExitError, env);
            AllSound(cfg, t.trace.exchanges) && Sound(cfg, Current(t)) ==>
              !t.open && t.trace.pending == multiset{} && t.trace.exchanges == s.trace.exchanges &&
              DecodeAll(Heads(t.trace.exchanges + [Current(t)]), t.trace.wire) == None
  {
    hide Running, StreamReady, DecodeAll, Heads, Sound, Current, FlushPendingHeaders, Closed, RecordOf;
    FlushedPart(s, env);
    var t := Closed(FlushPendingHeaders(s, env));
    if AllSound(cfg, t.trace.exchanges) && Sound(cfg, Current(t)) {
      BrokenOffShows(cfg, s, env);
    }
  }

  // ---------------------------------------------------------------- a persistent connection and fresh ones

  /** `e` is a reply of the run, as seen at its `i`-th state: one after which the connection was kept, the one that is
      being sent, or the last one. */
  ghost predicate Replied(cfg: Config, run: Run, i: nat, e: Exchange) {
    && IsRun(cfg, run) && i < |run.states|
    && (e in run.states[i].trace.exchanges || (ReplyUnderWay(run.states[i]) && e == Current(run.states[i])))
  }

  lemma {:induction false} CurrentIsNumbered(cfg: Config, s: State)
    requires Inv(cfg, s) && InRequest(cfg, s)
    ensures var e := Current(s);
            e.count == |s.trace.requests| > 0 && e.request == s.trace.requests[e.count - 1]
  {
    hide OpInv, Concludes, Reusable, ReadsAs, Usable, MayPersist, Asked100;
  }

  /** Every reply is the answer to its own request, by the server or by a handler that saw that request. */
  lemma {:induction false} RepliedExchange(cfg: Config, run: Run, i: nat, e: Exchange)
    requires Replied(cfg, run, i, e)
    ensures Served(cfg, e)
    ensures 1 <= e.count <= |run.states[i].trace.requests| && e.request == run.states[i].trace.requests[e.count - 1]
  {
    hide IsRun, Inv, Served, ReplyUnderWay, Current, Reuses, InRequest;
    EveryRun(cfg, run, i);
    var s := run.states[i];
    if e in s.trace.exchanges {
      var k :| 0 <= k < |s.trace.exchanges| && s.trace.exchanges[k] == e;
      KeptExchange(cfg, run, i, k, e);
    } else {
      ReplyShows(cfg, s);
      CurrentIsNumbered(cfg, s);
    }
  }

  /** The same request, served by the same handler, function of the request, and the same streamer, or answered by the
      server itself for the same reason. */
  ghost predicate ServedAlike(e: Exchange, f: Exchange) {
    && e.request == f.request
    && if e.outcome.Handled? && f.outcome.Handled? then
         e.outcome.handler == f.outcome.handler && e.outcome.chunks == f.outcome.chunks
       else e.outcome == f.outcome
  }

  lemma {:induction false} SameHandling(cfg: Config, e: Exchange, f: Exchange)
    requires Served(cfg, e) && Served(cfg, f) && ServedAlike(e, f)
    ensures e.outcome == f.outcome
  {
    hide HandlerRequest;
  }

  /** With handlers that are functions of the request, every reply on a reused connection, kept, under way or the last
      one, is the reply of any other connection to that request, such as a fresh one that got nothing else: same
      status, fields and body but for Date, Connection and Keep-Alive. */
  lemma {:induction false} RefinesFreshConnection(cfg: Config, run: Run, i: nat, e: Exchange,
                                                  other: Run, j: nat, f: Exchange)
    requires Replied(cfg, run, i, e) && Replied(cfg, other, j, f) && ServedAlike(e, f)
    ensures Alike(FinalResponse(cfg, e), FinalResponse(cfg, f)) && WireBody(cfg, e) == WireBody(cfg, f)
    ensures IsPassthrough(e) ==> Answer(cfg, e) == Answer(cfg, f)
  {
    hide Replied, ServedAlike, Alike, FinalResponse, WireBody, Served, Concat, Bytes, Reply;
    assert e.request == f.request by { AlikeRequest(e, f); }
    RepliedExchange(cfg, run, i, e);
    RepliedExchange(cfg, other, j, f);
    SameHandling(cfg, e, f);
    SameReply(cfg, e, f);
  }

  lemma {:induction false} AlikeRequest(e: Exchange, f: Exchange)
    requires ServedAlike(e, f)
    ensures e.request == f.request
  {
  }

  /** ... and it is what stands on the wire, after the replies before it: a part of it while it is being sent, and all
      of it when nothing is outstanding any more. */
  lemma {:induction false} ReplyIsOnWire(cfg: Config, run: Run, i: nat)
    requires IsRun(cfg, run) && i < |run.states| && ReplyUnderWay(run.states[i]) && !run.states[i].broken
    ensures var s := run.states[i];
            var before := Transcript(cfg, s.trace.exchanges) + Interim(s.trace.interim);
            && before <= s.trace.wire <= before + Answer(cfg, Current(s))
            && (s.trace.pending == multiset{} ==> s.trace.wire == before + Answer(cfg, Current(s)))
  {
    hide IsRun, Inv, ReplyUnderWay, Current, Answer, InRequest, Served, Transcript;
    EveryRun(cfg, run, i);
    ReplyShows(cfg, run.states[i]);
  }

  // ---------------------------------------------------------------- what replies announce

  /** After every kept exchange the client was told, in its own version, that the connection persists. */
  lemma {:induction false} KeptWasAnnounced(cfg: Config, run: Run, i: nat, k: nat, e: Exchange)
    requires Kept(cfg, run, i, k, e) && ChunksKnown(e)
    ensures Persists(AnswerVersion(e), HeaderSection(FinalResponse(cfg, e)))
  {
    hide Kept, FinalResponse, Persists, HeaderSection, ChunksKnown, AnswerVersion, Proper;
    KeptExchange(cfg, run, i, k, e);
    ReusedIsFramed(e);
    ReuseIsAnnounced(cfg, e);
  }

  /** A reply that is under way or the last one says, in the client's own version, that the connection persists exactly
      when it is one that lets it; and when the server was seen to shut down before the request was negotiated, it
      does not say so. */
  lemma {:induction false} ShutdownIsAnnounced(cfg: Config, run: Run, i: nat, j: nat)
    requires IsRun(cfg, run) && FlagStays(run) && i < j < |run.states|
    requires i < |run.events| && run.events[i].env.atNegotiate && run.events[i].env.peer
    requires var s := run.states[j];
             ReplyUnderWay(s) && ChunksKnown(Current(s)) && !IsPassthrough(Current(s))
    ensures var e := Current(run.states[j]);
            && (Persists(AnswerVersion(e), HeaderSection(FinalResponse(cfg, e))) <==> Reuses(e))
            && (Persists(AnswerVersion(e), HeaderSection(FinalResponse(cfg, e))) ==>
                  run.states[j].trace.requests == run.states[i].trace.requests)
            && run.states[j].trace.exchanges == run.states[i].trace.exchanges
  {
    hide IsRun, ReplyUnderWay, FinalResponse, Persists, HeaderSection, ChunksKnown, AnswerVersion, IsPassthrough;
    RunLength(cfg, run);
    assert run.events[i].env.atFinish;
    ShutdownIsFinal(cfg, run, i, j);
    ParsedUnderFlag(cfg, run, i);
    ReuseIsAnnounced(cfg, Current(run.states[j]));
  }

  // ---------------------------------------------------------------- 100 Continue

  lemma {:induction false} InterimState(cfg: Config, s: State, op: Continuation)
    requires Inv(cfg, s) && op in s.trace.pending
    ensures s.trace.interim && Waits(s) ==> s.expectHandled
    ensures !s.timedOut && !s.broken && !IsReplying(op) ==> s.trace.wire == Prologue(cfg, s.trace)
  {
    hide Base, Transcript, Reusable, Asked100, Interim, MayPersist, HandlerRequest, Reuses, Counted, InChunks, Sending,
         Arrived, InOnePiece;
    assert OpInv(cfg, s, op);
    OnlyPending(cfg, s, op);
  }

  lemma {:induction false} InterimInv(cfg: Config, s: State)
    requires Inv(cfg, s)
    ensures s.trace.interim ==> Asked100(if UnderWay(s) then s.trace.arrived else s.buffer)
  {
    hide Asked100, OpInv;
  }

  lemma {:induction false} OnlyPending(cfg: Config, s: State, op: Continuation)
    requires Inv(cfg, s) && op in s.trace.pending
    ensures forall other :: other in s.trace.pending ==> other == op
  {
    hide Base, OpInv;
    var others := s.trace.pending - multiset{op};
    assert |others| == |s.trace.pending| - 1;
    assert forall other :: other in s.trace.pending && other != op ==> other in others;
  }

  /** In every state of every run: a 100 Continue was sent to the request under way only if its head, as far as it was
      received, asks for one in a version that knows it; it was then decided on, so that none is sent again; and the
      wire holds no interim head after the replies to the requests before but that one, right behind them. The last
      is said while something is outstanding and after the last reply, as long as no write failed, and the reply is
      not itself an interim head or a backend's response, whose items are the backend's. */
  lemma {:induction false} ContinueOnlyWhenAsked(cfg: Config, run: Run, i: nat)
    requires IsRun(cfg, run) && i < |run.states|
    ensures var s := run.states[i];
            s.trace.interim ==> Asked100(if UnderWay(s) then s.trace.arrived else s.buffer)
    ensures var s := run.states[i];
            s.trace.pending != multiset{} && s.trace.interim && Waits(s) ==> s.expectHandled
    ensures var s, past := run.states[i], |Transcript(cfg, run.states[i].trace.exchanges)|;
            (s.trace.pending != multiset{} || ReplyUnderWay(s)) && !s.timedOut && !s.broken &&
            !(ReplyUnderWay(s) && IsInterim(FinalResponse(cfg, Current(s)).status.value)) &&
            !(ReplyUnderWay(s) && IsPassthrough(Current(s))) ==>
              forall k :: past <= k < |s.trace.wire| && IsInterimHead(s.trace.wire[k]) ==> s.trace.interim && k == past
  {
    hide IsRun, Inv, Waits, Asked100, FinalResponse, Transcript, InRequest, Served, ReplyUnderWay, Current, Reply,
         IsInterim, IsPassthrough;
    EveryRun(cfg, run, i);
    var s := run.states[i];
    InterimInv(cfg, s);
    if ReplyUnderWay(s) {
      InterimUnderWay(cfg, s);
    }
    if s.trace.pending != multiset{} {
      var op :| op in s.trace.pending;
      InterimState(cfg, s, op);
      if !s.timedOut && !s.broken {
        if IsReplying(op) {
          ReplyingIsUnderWay(cfg, s, op);
        } else {
          NoInterimBehind(Transcript(cfg, s.trace.exchanges), s.trace.interim);
        }
      }
    }
  }

  lemma {:induction false} InterimUnderWay(cfg: Config, s: State)
    requires Inv(cfg, s) && ReplyUnderWay(s)
    ensures var past := |Transcript(cfg, s.trace.exchanges)|;
            !s.broken && !IsInterim(FinalResponse(cfg, Current(s)).status.value) && !IsPassthrough(Current(s)) ==>
              forall k :: past <= k < |s.trace.wire| && IsInterimHead(s.trace.wire[k]) ==> s.trace.interim && k == past
  {
    hide Inv, FinalResponse, Transcript, InRequest, Served, ReplyUnderWay, Current, Reply, IsInterim, IsPassthrough;
    ReplyShows(cfg, s);
    AnswerIsReply(cfg, Current(s));
    if !s.broken && !IsInterim(FinalResponse(cfg, Current(s)).status.value) && !IsPassthrough(Current(s)) {
      NoInterimInReply(cfg, Current(s), |Transcript(cfg, s.trace.exchanges)|, s.trace.interim, s.trace.wire,
                       Transcript(cfg, s.trace.exchanges));
    }
  }

  lemma {:induction false} ReplyingIsUnderWay(cfg: Config, s: State, op: Continuation)
    requires Inv(cfg, s) && op in s.trace.pending && IsReplying(op) && !s.timedOut
    ensures ReplyUnderWay(s)
  {
    hide Inv, Served, Counted, InChunks, Sending, Arrived, MayPersist, Asked100;
    ReplyingState(cfg, s, op);
  }

  predicate IsInterimHead(item: Item) {
    item.Header? && IsInterim(item.head.status)
  }

  lemma {:induction false} NoInterimBehind(before: Wire, interim: bool)
    ensures var w := before + Interim(interim);
            forall k :: |before| <= k < |w| && IsInterimHead(w[k]) ==> interim && k == |before|
  {
  }

  lemma {:induction false} NoInterimInReply(cfg: Config, e: Exchange, past: nat, interim: bool, w: Wire, before: Wire)
    requires past == |before| && w <= before + Interim(interim) + Reply(cfg, e)
    requires !IsInterim(FinalResponse(cfg, e).status.value)
    ensures forall k :: past <= k < |w| && IsInterimHead(w[k]) ==> interim && k == past
  {
    hide FinalResponse, WireBody;
    var whole, start := before + Interim(interim) + Reply(cfg, e), past + |Interim(interim)|;
    assert forall k :: past <= k < |w| ==> w[k] == whole[k];
    assert forall k :: start <= k < |whole| ==> whole[k] == Reply(cfg, e)[k - start];
  }
}
