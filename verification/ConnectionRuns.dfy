/** Runs of a connection: any handlers, any cut of the input into reads, any partial writes, any order of events, and a
    shutdown or a timeout at any moment; and what every run keeps. */
module ConnectionRuns {
  import opened Wrappers
  import opened Text
  import opened HeaderTokens
  import opened RequestHead
  import opened ChunkedCodec
  import opened Messages
  import opened RequestStream
  import opened Replies
  import opened ConnectionModel
  import opened ConnectionInvariants
  import opened ConnectionHistory
  import opened ConnectionSteps

  datatype Event = Event(input: Input, env: Env)

  datatype Run = Run(states: seq<State>, events: seq<Event>)

  /** State number `i` of a run: the first is that of a connection just accepted, and every other one comes from the one
      before it by an event that was possible there. */
  ghost predicate Reached(cfg: Config, run: Run, i: nat) {
    && Usable(cfg) && i < |run.states|
    && if i == 0 then run.states[0] == StartConnection(cfg, NEW_STATE)
       else
         && i <= |run.events| && Enabled(run.states[i - 1], run.events[i - 1].input)
         && run.states[i] == Step(cfg, run.states[i - 1], run.events[i - 1].input, run.events[i - 1].env)
  }

  ghost predicate IsRun(cfg: Config, run: Run) {
    && |run.states| == |run.events| + 1
    && forall i: nat {:trigger Reached(cfg, run, i)} :: i < |run.states| ==> Reached(cfg, run, i)
  }

  /** In every state of every run at most one of handshake, read, posted read, pool task and write is outstanding, and
      the state is what its handler relies on. */
  lemma {:induction false} EveryRun(cfg: Config, run: Run, i: nat)
    requires IsRun(cfg, run) && i < |run.states|
    ensures Inv(cfg, run.states[i]) && |run.states[i].trace.pending| <= 1
    decreases i
  {
    hide Inv, Usable, Step, Enabled, StartConnection;
    assert Reached(cfg, run, i);
    if i == 0 {
      StartKeeps(cfg);
    } else {
      EveryRun(cfg, run, i - 1);
      StepKeeps(cfg, run.states[i - 1], run.events[i - 1].input, run.events[i - 1].env);
    }
    OnePending(cfg, run.states[i]);
  }

  lemma {:induction false} RunUsable(cfg: Config, run: Run)
    requires IsRun(cfg, run)
    ensures Usable(cfg)
  {
    hide Usable, StartConnection, Step;
    assert Reached(cfg, run, 0);
  }

  lemma {:induction false} OnePending(cfg: Config, s: State)
    requires Inv(cfg, s)
    ensures |s.trace.pending| <= 1
  {
    hide Base, OpInv;
  }

  function Last(run: Run): State
    requires run.states != []
  {
    run.states[|run.states| - 1]
  }

  /** Nothing fails, and nobody asks the server to shut down. */
  const CALM :=
    Env(false, false, false, true, NoView, false, true, Io(true, 0), Io(true, 0), Io(true, 0), Io(true, 0), 0)

  /** The run goes on with one more event. */
  function Extended(cfg: Config, run: Run, input: Input, env: Env): Run
    requires Usable(cfg) && run.states != [] && Enabled(Last(run), input)
  {
    Run(run.states + [Step(cfg, Last(run), input, env)], run.events + [Event(input, env)])
  }

  lemma {:induction false} ExtendedIsRun(cfg: Config, run: Run, input: Input, env: Env)
    requires IsRun(cfg, run) && Usable(cfg) && run.states != [] && Enabled(Last(run), input)
    ensures IsRun(cfg, Extended(cfg, run, input, env))
  {
    hide Usable, Enabled, Step, StartConnection;
    var longer := Extended(cfg, run, input, env);
    forall i: nat | i < |longer.states|
      ensures Reached(cfg, longer, i)
    {
      if i < |run.states| {
        assert Reached(cfg, run, i);
      }
    }
  }

  /** The connection waits for a request, or for more of it. */
  predicate Waits(s: State) {
    Handshake in s.trace.pending || Read in s.trace.pending || Posted in s.trace.pending
  }

  lemma {:induction false} WaitingState(cfg: Config, s: State)
    requires Inv(cfg, s) && Waits(s)
    ensures Usable(cfg) && |s.trace.requests| == |s.trace.exchanges| == s.requestCount && s.receivedBytes == |s.buffer|
    ensures !s.keepAlive && (!s.timedOut ==> s.open)
    ensures !s.timedOut ==> Shows(s, Prologue(cfg, s.trace))
    ensures History(cfg, s.trace.requests, s.trace.exchanges)
  {
    hide Asked100, Transcript, Reusable, Ready, Replying;
    var op :| op in s.trace.pending && (op == Handshake || op == Read || op == Posted);
    assert OpInv(cfg, s, op);
  }

  lemma {:induction false} InvHistory(cfg: Config, s: State)
    requires Inv(cfg, s)
    ensures History(cfg, s.trace.requests, s.trace.exchanges)
  {
    hide OpInv, Reusable, ReadsAs, Usable;
  }

  // ---------------------------------------------------------------- nothing is taken back

  /** Between any two states of a run: what was written, read, parsed and exchanged stays, and a closed socket stays
      closed and silent. */
  lemma {:induction false} NothingTakenBack(cfg: Config, run: Run, i: nat, j: nat)
    requires IsRun(cfg, run) && i <= j < |run.states|
    ensures var s, t := run.states[i], run.states[j];
            && s.trace.wire <= t.trace.wire && s.trace.received <= t.trace.received
            && s.trace.requests <= t.trace.requests && s.trace.exchanges <= t.trace.exchanges
            && (!s.open ==> !t.open && t.trace.wire == s.trace.wire)
            && (s.timedOut ==> t.timedOut) && (s.broken ==> t.broken)
  {
    hide IsRun, Grew;
    GrewBetween(cfg, run, i, j);
    GrewPlainly(run.states[i], run.states[j], Reads, false);
  }

  lemma {:induction false} GrewOver(cfg: Config, run: Run, i: nat)
    requires IsRun(cfg, run) && i < |run.events|
    ensures Grew(run.states[i], run.states[i + 1], ModeOf(run.events[i].input, run.events[i].env),
                 run.events[i].env.atFinish)
  {
    hide Usable, Enabled, Step, StartConnection, Grew;
    assert Reached(cfg, run, i + 1);
    StepGrows(cfg, run.states[i], run.events[i].input, run.events[i].env);
  }

  lemma {:induction false} GrewBetween(cfg: Config, run: Run, i: nat, j: nat)
    requires IsRun(cfg, run) && i <= j < |run.states|
    ensures Grew(run.states[i], run.states[j], Reads, false)
    decreases j - i
  {
    hide Grows, IsRun;
    RunLength(cfg, run);
    if i == j {
      Stays(run.states[i], Reads, false);
    } else {
      GrewBetween(cfg, run, i, j - 1);
      GrewOver(cfg, run, j - 1);
      Weaker(run.states[j - 1], run.states[j], ModeOf(run.events[j - 1].input, run.events[j - 1].env),
             run.events[j - 1].env.atFinish);
      Compose(run.states[i], run.states[j - 1], run.states[j], Reads, false);
    }
  }

  lemma {:induction false} RunLength(cfg: Config, run: Run)
    requires IsRun(cfg, run)
    ensures |run.states| == |run.events| + 1
  {
    hide Reached;
  }

  lemma {:induction false} Weaker(s: State, t: State, mode: Mode, shutdown: bool)
    requires Grew(s, t, mode, shutdown)
    ensures Grew(s, t, Reads, false)
  {
    hide RecordOf;
  }

  // ---------------------------------------------------------------- the server shuts down

  /** The shutdown flag, once it is set, stays set. */
  ghost predicate FlagStays(run: Run) {
    && (forall k {:trigger run.events[k]} :: 0 <= k < |run.events| ==>
          var env := run.events[k].env; (env.atRead ==> env.atNegotiate) && (env.atNegotiate ==> env.atFinish))
    && (forall k, l {:trigger run.events[k], run.events[l]} :: 0 <= k < l < |run.events| ==>
          run.events[k].env.atFinish ==> run.events[l].env.atRead)
  }

  /** After the event in which the flag is seen set no connection is kept and no request is parsed any more, and what
      was negotiated before it stays. */
  lemma {:induction false} ShutdownIsFinal(cfg: Config, run: Run, i: nat, j: nat)
    requires IsRun(cfg, run) && FlagStays(run) && i < j < |run.states|
    requires i < |run.events| && run.events[i].env.atFinish
    ensures run.states[j].trace.exchanges == run.states[i].trace.exchanges
    ensures run.states[j].trace.requests == run.states[i + 1].trace.requests
    ensures run.states[j].trace.kept == run.states[i + 1].trace.kept
    decreases j
  {
    hide IsRun, Grew, RecordOf;
    RunLength(cfg, run);
    var env, input := run.events[j - 1].env, run.events[j - 1].input;
    GrewOver(cfg, run, j - 1);
    GrewPlainly(run.states[j - 1], run.states[j], ModeOf(input, env), env.atFinish);
    if i + 1 < j {
      ShutdownIsFinal(cfg, run, i, j - 1);
      assert run.events[j - 1].env.atRead && run.events[j - 1].env.atNegotiate;
    }
  }

  lemma {:induction false} SameRecord(s: State, t: State)
    requires RecordOf(s) == RecordOf(t)
    ensures s.trace.requests == t.trace.requests && s.trace.kept == t.trace.kept
  {
  }

  lemma {:induction false} BufferUnderFlag(cfg: Config, s: State, env: Env)
    requires Usable(cfg) && env.atNegotiate && env.peer
    ensures var t := ParseBuffer(cfg, s, env);
            t.trace.requests == s.trace.requests || !t.trace.kept
  {
    hide Grew, RecordOf, SendStockReply, HandleParsedRequest, HandleIncompleteRequest, TakeRequest;
    assert Consumes(cfg.parse, s.buffer);
    match cfg.parse(s.buffer)
    case Complete(request, consumed) => ParsedGrows(cfg, TakeRequest(s, request, consumed), env);
    case Failed =>
      StockGrows(cfg, s, BAD_REQUEST, env);
      GrewPlainly(s, SendStockReply(cfg, s, BAD_REQUEST, env), Quiet, env.atFinish);
    case Incomplete => IncompleteMeans(cfg, s, env);
  }

  lemma {:induction false} ReadUnderFlag(cfg: Config, s: State, op: Continuation, ok: bool, data: string, env: Env)
    requires Usable(cfg) && env.atNegotiate && env.peer
    ensures var t := HandleRead(cfg, s, op, ok, data, env);
            t.trace.requests == s.trace.requests || !t.trace.kept
  {
    hide Grew, RecordOf, Usable, SendStockReply, ParseBuffer, LeaveIdle, Tallied, Take;
    var taken := Take(s, op);
    SameRecord(s, taken);
    LibraryStatuses(cfg);
    StockGrows(cfg, taken, cfg.shutdown, env);
    GrewPlainly(taken, SendStockReply(cfg, taken, cfg.shutdown, env), Quiet, env.atFinish);
    var busy := Tallied(LeaveIdle(cfg, taken), s.receivedBytes + |data|);
    SameRecord(s, busy);
    StockGrows(cfg, busy, ENTITY_TOO_LARGE, env);
    GrewPlainly(busy, SendStockReply(cfg, busy, ENTITY_TOO_LARGE, env), Quiet, env.atFinish);
    BufferUnderFlag(cfg, Arrive(busy, data), env);
  }

  /** A request that is parsed in the event in which the flag is set, before its negotiation, is not to be kept. */
  lemma {:induction false} ParsedUnderFlag(cfg: Config, run: Run, i: nat)
    requires IsRun(cfg, run) && i < |run.events| && run.events[i].env.atNegotiate && run.events[i].env.peer
    ensures run.states[i + 1].trace.requests == run.states[i].trace.requests || !run.states[i + 1].trace.kept
  {
    hide Usable, StartConnection, Grew, RecordOf, HandleRead, HandleTimer, HandleCompletedRead, GetNextChunk,
         GetNextChunkedChunk, Written, HandleHandshake, Take;
    assert Reached(cfg, run, i + 1);
    var s, input, env := run.states[i], run.events[i].input, run.events[i].env;
    if input.ReadDone? {
      ReadUnderFlag(cfg, s, input.op, input.ok, input.data, env);
    } else {
      GrewOver(cfg, run, i);
      GrewPlainly(s, run.states[i + 1], Quiet, env.atFinish);
    }
  }

  // ---------------------------------------------------------------- however the input is cut into reads

  /** The requests that reach the server are the ones in the stream it received, whatever the cut: all of them when
      it waits for more, a prefix of them at any time, and a prefix of those in any continuation of the stream. */
  lemma {:induction false} SegmentationIndependence(cfg: Config, run: Run, i: nat, more: string)
    requires IsRun(cfg, run) && i < |run.states| && Reliable(cfg.parse)
    ensures var s := run.states[i];
            && s.trace.requests <= ParseAll(cfg.parse, s.trace.received + more).requests
            && (Read in s.trace.pending ==> ParseAll(cfg.parse, s.trace.received) == Parsed(s.trace.requests, s.buffer))
            && (Waits(s) ==> s.receivedBytes == |s.buffer|)
  {
    hide IsRun, Inv, Reliable, ReadsAs, ParseAll, Waits;
    EveryRun(cfg, run, i);
    var s := run.states[i];
    StreamOfState(cfg, s);
    ReadsMore(cfg.parse, s.trace.received, s.trace.requests, s.buffer, more);
    ReadsPrefix(cfg.parse, s.trace.received + more, s.trace.requests, s.buffer + more);
    if Read in s.trace.pending {
      ReadState(cfg, s);
      ReadsAll(cfg.parse, s.trace.received, s.trace.requests, s.buffer);
    }
    if Waits(s) {
      WaitingState(cfg, s);
    }
  }

  lemma {:induction false} StreamOfState(cfg: Config, s: State)
    requires Inv(cfg, s)
    ensures Usable(cfg) && ReadsAs(cfg.parse, s.trace.received, s.trace.requests, s.buffer)
  {
    hide Reliable, ReadsAs, OpInv, History;
  }

  lemma {:induction false} ReadState(cfg: Config, s: State)
    requires Inv(cfg, s) && Read in s.trace.pending
    ensures cfg.parse(s.buffer).Incomplete?
  {
    hide Base, Reading, Timed;
    assert OpInv(cfg, s, Read);
  }

  /** Two connections that received the same octets, in whatever pieces, and both wait for more have parsed the same
      requests and hold the same rest. */
  lemma {:induction false} SameStreamSameRequests(cfg: Config, one: Run, i: nat, other: Run, j: nat)
    requires IsRun(cfg, one) && i < |one.states| && IsRun(cfg, other) && j < |other.states|
    requires one.states[i].trace.received == other.states[j].trace.received
    requires Read in one.states[i].trace.pending && Read in other.states[j].trace.pending
    ensures one.states[i].trace.requests == other.states[j].trace.requests
    ensures one.states[i].buffer == other.states[j].buffer
  {
    hide IsRun, Reliable, ParseAll;
    RunUsable(cfg, one);
    SegmentationIndependence(cfg, one, i, "");
    SegmentationIndependence(cfg, other, j, "");
  }

  // ---------------------------------------------------------------- kept exchanges

  /** The `k`-th exchange after which the connection was kept, as seen at the `i`-th state of a run. */
  ghost predicate Kept(cfg: Config, run: Run, i: nat, k: nat, e: Exchange) {
    IsRun(cfg, run) && i < |run.states| && k < |run.states[i].trace.exchanges| && run.states[i].trace.exchanges[k] == e
  }

  /** The kept exchanges of a run are numbered, answered from their own request by their own handler, and announced. */
  lemma {:induction false} KeptExchange(cfg: Config, run: Run, i: nat, k: nat, e: Exchange)
    requires Kept(cfg, run, i, k, e)
    ensures Reusable(cfg, e) && e.count == k + 1
    ensures k < |run.states[i].trace.requests| && e.request == run.states[i].trace.requests[k]
  {
    hide IsRun, Inv, Reusable;
    EveryRun(cfg, run, i);
    InvHistory(cfg, run.states[i]);
    assert Reusable(cfg, run.states[i].trace.exchanges[k]);
  }

  /** No more requests are parsed than the maximum, and no more follow a reply than it announced. */
  lemma {:induction false} RequestBudget(cfg: Config, run: Run, i: nat)
    requires IsRun(cfg, run) && i < |run.states| && cfg.maxKeepAliveRequests > 0
    ensures var t := run.states[i].trace;
            && |t.requests| <= cfg.maxKeepAliveRequests
            && forall k :: 0 <= k < |t.exchanges| ==>
                 |t.requests| - (k + 1) <= cfg.maxKeepAliveRequests - t.exchanges[k].count
  {
    hide IsRun, Inv, Usable, Delivered, Vetoes, IsPassthrough, WantsReuse, Asked100;
    EveryRun(cfg, run, i);
    var t := run.states[i].trace;
    InvHistory(cfg, run.states[i]);
    forall k | 0 <= k < |t.exchanges|
      ensures t.exchanges[k].count == k + 1
    {
      assert Reusable(cfg, t.exchanges[k]);
    }
    if t.exchanges != [] {
      assert Reusable(cfg, t.exchanges[|t.exchanges| - 1]);
    }
  }

}
