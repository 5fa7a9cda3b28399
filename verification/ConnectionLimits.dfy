/** The limit on header sections: it is looked at only between two reads, so that the cut of the stream decides.  When
    exactly a header section can be refused, over every run and every cut. */
module ConnectionLimits {
  import opened Wrappers
  import opened Text
  import opened HeaderTokens
  import opened Messages
  import opened RequestStream
  import opened Replies
  import opened ConnectionModel
  import opened ConnectionInvariants
  import opened ConnectionHistory
  import opened ConnectionSteps
  import opened ConnectionRuns

  predicate IsRefused(s: State) {
    s.trace.outcome == Stock(HEADER_FIELDS_TOO_LARGE)
  }

  /** The buffer holds a header section that is too large and has no end, and is not itself too large. */
  predicate Oversized(cfg: Config, buffer: string) {
    && cfg.parse(buffer).Incomplete? && TooLarge(cfg, buffer)
    && (cfg.maxRequestSize > 0 ==> |buffer| <= cfg.maxRequestSize)
  }

  // ---------------------------------------------------------------- one read

  lemma {:induction false} QuietRefuses(s: State, t: State, mode: Mode, shutdown: bool)
    requires Grew(s, t, mode, shutdown) && !mode.Reads? && IsRefused(t)
    ensures IsRefused(s)
  {
  }

  /** Octets that complete no request are answered 431 exactly when the header section among them is too large. */
  lemma {:induction false} RefusedIff(cfg: Config, s: State, env: Env)
    requires !IsRefused(s)
    ensures IsRefused(HandleIncompleteRequest(cfg, s, env)) <==> TooLarge(cfg, s.buffer)
  {
    hide SendStockReply, HandleExpectContinue, TooLarge, Grew;
    if TooLarge(cfg, s.buffer) {
      StockCloses(cfg, Unkept(s), HEADER_FIELDS_TOO_LARGE, env);
    } else {
      IncompleteGrows(cfg, s, env);
      if IsRefused(HandleIncompleteRequest(cfg, s, env)) {
        QuietRefuses(s, HandleIncompleteRequest(cfg, s, env), Quiet, env.atFinish);
      }
    }
  }

  lemma {:induction false} OtherStatus(cfg: Config, s: State, status: int, env: Env)
    requires status != HEADER_FIELDS_TOO_LARGE && !IsRefused(s)
    ensures !IsRefused(SendStockReply(cfg, s, status, env))
  {
    hide Grew, SendStockReply;
    StockGrows(cfg, s, status, env);
    if IsRefused(SendStockReply(cfg, s, status, env)) {
      QuietRefuses(s, SendStockReply(cfg, s, status, env), Quiet, env.atFinish);
    }
  }

  lemma {:induction false} BufferRefuses(cfg: Config, s: State, env: Env)
    requires Usable(cfg) && !IsRefused(s)
    ensures IsRefused(ParseBuffer(cfg, s, env)) <==> cfg.parse(s.buffer).Incomplete? && TooLarge(cfg, s.buffer)
  {
    hide Grew, SendStockReply, HandleParsedRequest, HandleIncompleteRequest, TooLarge;
    assert Consumes(cfg.parse, s.buffer);
    match cfg.parse(s.buffer)
    case Complete(request, consumed) =>
      var t := TakeRequest(s, request, consumed);
      ParsedGrows(cfg, t, env);
      if IsRefused(HandleParsedRequest(cfg, t, env)) {
        QuietRefuses(t, HandleParsedRequest(cfg, t, env), Negotiates, env.atFinish);
      }
    case Failed => OtherStatus(cfg, s, BAD_REQUEST, env);
    case Incomplete => RefusedIff(cfg, s, env);
  }

  lemma {:induction false} TakenNotRefused(s: State, op: Continuation)
    ensures Take(s, op).trace.outcome == s.trace.outcome && Take(s, op).buffer == s.buffer
  {
    hide RecordOf;
  }

  lemma {:induction false} ArmedNotRefused(s: State, seconds: int)
    ensures ArmTimer(s, seconds).trace.outcome == s.trace.outcome && ArmTimer(s, seconds).buffer == s.buffer
  {
    hide RecordOf;
  }

  lemma {:induction false} IdleNotRefused(cfg: Config, s: State, n: nat)
    ensures Tallied(LeaveIdle(cfg, s), n).trace.outcome == s.trace.outcome
    ensures Tallied(LeaveIdle(cfg, s), n).buffer == s.buffer
  {
    hide RecordOf, ArmTimer;
    ArmedNotRefused(s.(idle := false), cfg.timeout);
  }

  lemma {:induction false} BusyNotRefused(cfg: Config, s: State, op: Continuation, n: nat)
    requires !IsRefused(s)
    ensures !IsRefused(Take(s, op)) && !IsRefused(Tallied(LeaveIdle(cfg, Take(s, op)), n))
    ensures Tallied(LeaveIdle(cfg, Take(s, op)), n).buffer == s.buffer
  {
    hide RecordOf, Take, LeaveIdle, Tallied;
    TakenNotRefused(s, op);
    IdleNotRefused(cfg, Take(s, op), n);
  }

  lemma {:induction false} ArrivedNotRefused(s: State, data: string)
    requires !IsRefused(s)
    ensures !IsRefused(Arrive(s, data)) && Arrive(s, data).buffer == s.buffer + data
  {
    hide RecordOf;
  }

  /** A read is answered 431 exactly when what has then arrived is a header section that is too large. */
  lemma {:induction false} ReadRefuses(cfg: Config, s: State, op: Continuation, ok: bool, data: string, env: Env)
    requires Usable(cfg) && !IsRefused(s) && s.receivedBytes == |s.buffer|
    ensures IsRefused(HandleRead(cfg, s, op, ok, data, env)) <==>
            !env.atRead && ok && Oversized(cfg, s.buffer + data)
  {
    hide Usable, SendStockReply, ParseBuffer, TooLarge, LeaveIdle, Tallied, Take, Arrive, IsRefused;
    LibraryStatuses(cfg);
    var busy := Tallied(LeaveIdle(cfg, Take(s, op)), s.receivedBytes + |data|);
    BusyNotRefused(cfg, s, op, s.receivedBytes + |data|);
    OtherStatus(cfg, Take(s, op), cfg.shutdown, env);
    TalliedBytes(LeaveIdle(cfg, Take(s, op)), s.receivedBytes + |data|);
    OtherStatus(cfg, busy, ENTITY_TOO_LARGE, env);
    ArrivedNotRefused(busy, data);
    BufferRefuses(cfg, Arrive(busy, data), env);
  }

  lemma {:induction false} TalliedBytes(s: State, n: nat)
    ensures Tallied(s, n).receivedBytes == n
  {
  }

  /** What the connection is left with when it is refused. */
  lemma {:induction false} RefusedLeaves(cfg: Config, s: State, op: Continuation, data: string, env: Env)
    requires Usable(cfg) && !env.atRead && Oversized(cfg, s.buffer + data) && s.receivedBytes == |s.buffer|
    ensures var t := HandleRead(cfg, s, op, true, data, env);
            t.buffer == s.buffer + data && t.trace.pending == s.trace.pending - multiset{op} && !t.open &&
            t.trace.requests == s.trace.requests && t.trace.received == s.trace.received + data
  {
    hide Usable, SendStockReply, TooLarge, LeaveIdle, Tallied, Take, Arrive;
    var busy := Tallied(LeaveIdle(cfg, Take(s, op)), s.receivedBytes + |data|);
    TalliedBytes(LeaveIdle(cfg, Take(s, op)), s.receivedBytes + |data|);
    BusyLeaves(cfg, s, op, s.receivedBytes + |data|);
    ArrivedLeaves(busy, data);
    StockCloses(cfg, Unkept(Arrive(busy, data)), HEADER_FIELDS_TOO_LARGE, env);
  }

  lemma {:induction false} BusyLeaves(cfg: Config, s: State, op: Continuation, n: nat)
    ensures var t := Tallied(LeaveIdle(cfg, Take(s, op)), n);
            t.buffer == s.buffer && t.trace.pending == s.trace.pending - multiset{op} &&
            t.trace.requests == s.trace.requests && t.trace.received == s.trace.received
  {
    hide RecordOf;
  }

  lemma {:induction false} ArrivedLeaves(s: State, data: string)
    ensures var t := Arrive(s, data);
            t.buffer == s.buffer + data && t.trace.pending == s.trace.pending &&
            t.trace.requests == s.trace.requests && t.trace.received == s.trace.received + data
  {
    hide RecordOf;
  }

  // ---------------------------------------------------------------- every run

  /** A connection that was refused has such a header section in its buffer, and nothing outstanding. */
  ghost predicate RefusalShows(cfg: Config, s: State) {
    IsRefused(s) ==> s.trace.pending == multiset{} && Oversized(cfg, s.buffer)
  }

  lemma {:induction false} ReadCounts(cfg: Config, s: State, op: Continuation)
    requires Inv(cfg, s) && op in s.trace.pending && (op == Read || op == Posted)
    ensures s.receivedBytes == |s.buffer| && s.trace.pending - multiset{op} == multiset{}
  {
    hide Base, Timed, Fresh, Ready, Replying;
    assert OpInv(cfg, s, op);
    assert |s.trace.pending - multiset{op}| == 0;
  }

  lemma {:induction false} TimerShows(cfg: Config, s: State, aborted: bool, generation: nat, env: Env)
    requires RefusalShows(cfg, s)
    ensures RefusalShows(cfg, HandleTimer(cfg, s, aborted, generation, env))
  {
    hide SendStockReply, TooLarge;
    StockCloses(cfg, Unkept(Expired(Fired(s, generation))), REQUEST_TIMEOUT, env);
  }

  lemma {:induction false} StepShows(cfg: Config, s: State, input: Input, env: Env)
    requires Inv(cfg, s) && RefusalShows(cfg, s) && Enabled(s, input) && Usable(cfg)
    ensures RefusalShows(cfg, Step(cfg, s, input, env))
  {
    hide Inv, Usable, Grew, Oversized, HandleRead, HandleTimer, HandleCompletedRead, GetNextChunk, GetNextChunkedChunk,
         Written, HandleHandshake;
    match input
    case TimerFired(aborted, generation) => TimerShows(cfg, s, aborted, generation, env);
    case ReadDone(op, ok, data) =>
      ReadCounts(cfg, s, op);
      ReadRefuses(cfg, s, op, ok, data, env);
      if IsRefused(Step(cfg, s, input, env)) {
        RefusedLeaves(cfg, s, op, data, env);
      }
    case _ =>
      StepGrows(cfg, s, input, env);
      if IsRefused(Step(cfg, s, input, env)) {
        QuietRefuses(s, Step(cfg, s, input, env), Quiet, env.atFinish);
      }
  }

  /** In every run: a connection is answered 431 only when what is left of the octets it received, after the requests in
      them, is a header section that is too large. */
  lemma {:induction false} RefusedMeansTooLarge(cfg: Config, run: Run, i: nat)
    requires IsRun(cfg, run) && i < |run.states|
    ensures RefusalShows(cfg, run.states[i])
    ensures IsRefused(run.states[i]) && Reliable(cfg.parse) ==>
              Oversized(cfg, ParseAll(cfg.parse, run.states[i].trace.received).rest)
    decreases i
  {
    hide Inv, Usable, Step, Enabled, RefusalShows, Reliable, ParseAll, ReadsAs;
    assert Reached(cfg, run, i);
    if i == 0 {
      StartShows(cfg);
    } else {
      EveryRun(cfg, run, i - 1);
      RefusedMeansTooLarge(cfg, run, i - 1);
      StepShows(cfg, run.states[i - 1], run.events[i - 1].input, run.events[i - 1].env);
    }
    EveryRun(cfg, run, i);
    var s := run.states[i];
    StreamOfState(cfg, s);
    if IsRefused(s) && Reliable(cfg.parse) {
      assert Oversized(cfg, s.buffer) by { RefusedState(cfg, s); }
      ReadsAll(cfg.parse, s.trace.received, s.trace.requests, s.buffer);
    }
  }

  lemma {:induction false} RefusedState(cfg: Config, s: State)
    requires RefusalShows(cfg, s) && IsRefused(s)
    ensures Oversized(cfg, s.buffer) && s.trace.pending == multiset{}
  {
  }

  lemma {:induction false} StartShows(cfg: Config)
    ensures RefusalShows(cfg, StartConnection(cfg, NEW_STATE))
  {
  }

  // ---------------------------------------------------------------- every cut

  /** `later` goes on from where `run` ended, having received `data` but completed no further request. */
  ghost predicate GoesOnWith(cfg: Config, run: Run, later: Run, data: string) {
    && IsRun(cfg, run) && IsRun(cfg, later) && run.states <= later.states && run.events <= later.events
    && Last(later).trace.received == Last(run).trace.received + data
    && Last(later).trace.requests == Last(run).trace.requests
  }

  ghost predicate EndsRefused(cfg: Config, run: Run, later: Run, data: string) {
    GoesOnWith(cfg, run, later, data) && IsRefused(Last(later))
  }

  /** Some cut of `stream` into reads, on a connection that waits at the end of `run`, is answered 431 before the
      request that begins there is complete. */
  ghost predicate SomeCutRefused(cfg: Config, run: Run, stream: string) {
    exists later, data :: data <= stream && EndsRefused(cfg, run, later, data)
  }

  /** With the octets `data` the header section is too large, and has no end. */
  ghost predicate Blocks(cfg: Config, s: State, data: string) {
    Oversized(cfg, s.buffer + data)
  }

  ghost predicate SomePrefixBlocks(cfg: Config, s: State, stream: string) {
    exists data :: data <= stream && Blocks(cfg, s, data)
  }

  lemma {:induction false} RefusedCutBlocks(cfg: Config, run: Run, later: Run, data: string)
    requires EndsRefused(cfg, run, later, data)
    ensures Blocks(cfg, Last(run), data)
  {
    hide IsRun, Inv, Reliable, ReadsAs, RefusalShows, ParseAll, Oversized;
    RunLength(cfg, run);
    RunLength(cfg, later);
    var i, j := |run.states| - 1, |later.states| - 1;
    var s, t := run.states[i], later.states[j];
    EveryRun(cfg, run, i);
    EveryRun(cfg, later, j);
    StreamOfState(cfg, s);
    StreamOfState(cfg, t);
    ReadsMore(cfg.parse, s.trace.received, s.trace.requests, s.buffer, data);
    SameRest(cfg.parse, t.trace.received, t.trace.requests, t.buffer, s.buffer + data);
    RefusedMeansTooLarge(cfg, later, j);
    RefusedState(cfg, t);
  }

  lemma {:induction false} BlockingCutIsRefused(cfg: Config, run: Run, data: string)
    requires IsRun(cfg, run) && run.states != [] && Read in Last(run).trace.pending
    requires Blocks(cfg, Last(run), data)
    ensures exists later :: EndsRefused(cfg, run, later, data)
  {
    hide IsRun, Inv, Usable, Oversized, RefusalShows, HandleRead;
    var i := |run.states| - 1;
    var s := run.states[i];
    RunUsable(cfg, run);
    EveryRun(cfg, run, i);
    ReadCounts(cfg, s, Read);
    assert !IsRefused(s) by {
      RefusedMeansTooLarge(cfg, run, i);
      if IsRefused(s) {
        RefusedState(cfg, s);
      }
    }
    var input := ReadDone(Read, true, data);
    ExtendedIsRun(cfg, run, input, CALM);
    ReadRefuses(cfg, s, Read, true, data, CALM);
    RefusedLeaves(cfg, s, Read, data, CALM);
    assert EndsRefused(cfg, run, Extended(cfg, run, input, CALM), data);
  }

  /** The exact condition, for every run, wherever it waits, and every stream that then arrives: some cut of the stream
      is answered 431 if and only if some prefix of it leaves a header section in the buffer that is too large and has
      no end yet.  No cut of it is if and only if there is no such prefix. */
  lemma {:induction false} RefusedExactly(cfg: Config, run: Run, stream: string)
    requires IsRun(cfg, run) && run.states != [] && Read in Last(run).trace.pending
    ensures SomeCutRefused(cfg, run, stream) <==>
            SomePrefixBlocks(cfg, Last(run), stream)
  {
    hide IsRun, Blocks, EndsRefused;
    var s := Last(run);
    if SomeCutRefused(cfg, run, stream) {
      var later, data :| data <= stream && EndsRefused(cfg, run, later, data);
      RefusedCutBlocks(cfg, run, later, data);
    }
    forall data | data <= stream && Blocks(cfg, s, data)
      ensures SomeCutRefused(cfg, run, stream)
    {
      BlockingCutIsRefused(cfg, run, data);
    }
  }
}
