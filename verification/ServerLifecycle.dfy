/** run() racing any number of shutdownServer() calls: the worker count, the wait for it, the executor mutex, the
    three thread pools and the reactor, as interleaved atomic steps. */
module ServerLifecycle {

  datatype Pool = Admin | Slow | Fast

  const ORDER: seq<Pool> := [Admin, Slow, Fast]
  const ALL: set<Pool> := {Admin, Slow, Fast}

  /** How often shutdown() looks at the worker count before it stops waiting. */
  const MAX_WAITS: nat := 2000

  /** Where run() is. */
  datatype RunPc =
    | NotCalled
    | Spawning              // the count is published, workers are being spawned
    | Locked                // the executor mutex is held
    | Starting(next: nat)   // starting the pools
    | Joining               // the mutex is released

  /** Where a shutdownServer() call is.  `drained` tells how its wait ended. */
  datatype ShutPc =
    | Requested                                // the shutdown flag is set
    | Waiting(waited: nat)                     // the io_context is stopped
    | Waited(drained: bool)
    | ShutLocked(drained: bool)                // the executor mutex is held
    | Destroying(next: nat, drained: bool)     // the pools are shut down and reset one by one
    | Skipping                                 // the pools were gone already
    | Unlocked
    | Finished                                 // the reactor is shut down

  datatype Owner = Free | ByRun | ByShutdown(call: nat)

  datatype Event =
    | Started(pool: Pool)
    | TeardownBegun(drained: bool)
    | Destroyed(pool: Pool)
    | ReactorDown
    | Touched(pool: Pool)   // a completion handler uses an executor

  datatype State = State(
    requested: bool,          // *itsShutdownRequested
    stopped: bool,            // itsIoService.stop() has been called
    running: int,             // itsRunningWorkers
    spawned: set<nat>, left: set<nat>, busy: set<nat>,   // workers: started, gone, inside a completion handler
    run: RunPc,
    calls: map<nat, ShutPc>,
    mutex: Owner,
    alive: set<Pool>,         // executors whose unique_ptr is not null
    log: seq<Event>
  )

  datatype Step =
    | Publish | Spawn(w: nat) | RunLock | RunCheck | RunStart | RunUnlock
    | Enter(w: nat) | Touch(w: nat, pool: Pool) | Return(w: nat) | Leave(w: nat)
    | Request(call: nat) | StopIo(call: nat) | Look(call: nat) | ShutLock(call: nat) | ShutCheck(call: nat)
    | Destroy(call: nat) | ShutUnlock(call: nat) | StopReactor(call: nat)

  function Initial(): State {
    State(false, false, 0, {}, {}, {}, NotCalled, map[], Free, ALL, [])
  }

  function Workers(n: nat): (workers: set<nat>)
    ensures forall w :: w in workers ==> w < n
  {
    if n == 0 then {} else Workers(n - 1) + {n - 1}
  }

  predicate CallAt(s: State, call: nat, pc: ShutPc) {
    call in s.calls && s.calls[call] == pc
  }

  predicate Enabled(n: nat, s: State, step: Step) {
    match step
    case Publish => s.run.NotCalled?
    case Spawn(w) => s.run.Spawning? && w in Workers(n) && w !in s.spawned
    case RunLock => s.run.Spawning? && s.spawned == Workers(n) && s.mutex.Free?
    case RunCheck => s.run.Locked?
    case RunStart => s.run.Starting? && s.run.next < |ORDER|
    case RunUnlock => s.run.Starting? && s.run.next == |ORDER|
    // io_context::run() begins a handler only while it is not stopped
    case Enter(w) => w in s.spawned && w !in s.left && w !in s.busy && !s.stopped
    case Touch(w, pool) => w in s.busy
    case Return(w) => w in s.busy
    case Leave(w) => w in s.spawned && w !in s.left
    case Request(call) => call !in s.calls
    case StopIo(call) => CallAt(s, call, Requested)
    case Look(call) => call in s.calls && s.calls[call].Waiting?
    case ShutLock(call) => call in s.calls && s.calls[call].Waited? && s.mutex.Free?
    case ShutCheck(call) => call in s.calls && s.calls[call].ShutLocked?
    case Destroy(call) => call in s.calls && s.calls[call].Destroying? && s.calls[call].next < |ORDER|
    case ShutUnlock(call) =>
      call in s.calls && (s.calls[call].Skipping? || (s.calls[call].Destroying? && s.calls[call].next == |ORDER|))
    case StopReactor(call) => CallAt(s, call, Unlocked)
  }

  function Goto(s: State, call: nat, pc: ShutPc): State {
    s.(calls := s.calls[call := pc])
  }

  function Next(n: nat, s: State, step: Step): State
    requires Enabled(n, s, step)
  {
    match step
    case Publish => s.(running := n, run := Spawning)
    case Spawn(w) => s.(spawned := s.spawned + {w})
    case RunLock => s.(mutex := ByRun, run := Locked)
    case RunCheck => s.(run := if !s.requested && Admin in s.alive then Starting(0) else Starting(|ORDER|))
    case RunStart => s.(run := Starting(s.run.next + 1), log := s.log + [Started(ORDER[s.run.next])])
    case RunUnlock => s.(mutex := Free, run := Joining)
    case Enter(w) => s.(busy := s.busy + {w})
    case Touch(w, pool) => s.(log := s.log + [Touched(pool)])
    case Return(w) => s.(busy := s.busy - {w})
    // on normal and on exceptional exit: the guard's destructor decrements the count
    case Leave(w) => s.(busy := s.busy - {w}, left := s.left + {w}, running := s.running - 1)
    case Request(call) => Goto(s, call, Requested).(requested := true)
    case StopIo(call) => Goto(s, call, Waiting(0)).(stopped := true)
    case Look(call) =>
      var waited := s.calls[call].waited;
      Goto(s, call,
           if s.running == 0 then Waited(true) else if waited < MAX_WAITS then Waiting(waited + 1) else Waited(false))
    case ShutLock(call) => Goto(s, call, ShutLocked(s.calls[call].drained)).(mutex := ByShutdown(call))
    case ShutCheck(call) =>
      var drained := s.calls[call].drained;
      if Admin in s.alive then Goto(s, call, Destroying(0, drained)).(log := s.log + [TeardownBegun(drained)])
      else Goto(s, call, Skipping)
    case Destroy(call) =>
      var pc := s.calls[call];
      Goto(s, call, Destroying(pc.next + 1, pc.drained)).(
        alive := s.alive - {ORDER[pc.next]}, log := s.log + [Destroyed(ORDER[pc.next])])
    case ShutUnlock(call) => Goto(s, call, Unlocked).(mutex := Free)
    case StopReactor(call) => Goto(s, call, Finished).(log := s.log + [ReactorDown])
  }

  predicate IsRun(n: nat, steps: seq<Step>)
    decreases |steps|, 0
  {
    steps == [] || (IsRun(n, steps[..|steps| - 1]) && Enabled(n, After(n, steps[..|steps| - 1]), steps[|steps| - 1]))
  }

  function After(n: nat, steps: seq<Step>): State
    requires IsRun(n, steps)
    decreases |steps|, 1
  {
    if steps == [] then Initial() else Next(n, After(n, steps[..|steps| - 1]), steps[|steps| - 1])
  }

  // ---------------------------------------------------------------- workers and the wait

  predicate CountInv(n: nat, s: State) {
    && s.left <= s.spawned <= Workers(n)
    && s.busy <= s.spawned - s.left
    && (s.run.NotCalled? ==> s.running == 0 && s.spawned == {})
    && (!s.run.NotCalled? ==> s.running == n - |s.left|)
  }

  predicate DrainedPc(pc: ShutPc) {
    (pc.Waited? || pc.ShutLocked? || pc.Destroying?) && pc.drained
  }

  /** Past its wait, a call that saw the count at zero knows that no worker is, or will be, in a handler. */
  predicate WaitInv(s: State) {
    && (s.calls != map[] ==> s.requested)
    && (forall c :: c in s.calls && !s.calls[c].Requested? ==> s.stopped)
    && (forall c :: c in s.calls && DrainedPc(s.calls[c]) ==> s.busy == {})
    && (Begun(s.log) ==> s.stopped)
    && (TeardownBegun(true) in s.log ==> s.busy == {})
  }

  predicate Begun(log: seq<Event>) {
    TeardownBegun(true) in log || TeardownBegun(false) in log
  }

  lemma {:induction false} SizeOfWorkers(n: nat)
    ensures |Workers(n)| == n
  {
    if n > 0 {
      SizeOfWorkers(n - 1);
    }
  }

  lemma {:induction false} AllLeft(n: nat, s: State)
    requires CountInv(n, s) && s.running == 0
    ensures s.busy == {}
  {
    if !s.run.NotCalled? {
      SizeOfWorkers(n);
      var others := Workers(n) - s.left;
      assert Workers(n) == s.left + others;
      assert |Workers(n)| == |s.left| + |others|;
    }
  }

  predicate MovesWorker(step: Step) {
    step.Spawn? || step.Enter? || step.Return? || step.Leave?
  }

  lemma {:induction false} WorkerKeepsCount(n: nat, s: State, step: Step)
    requires CountInv(n, s) && Enabled(n, s, step) && MovesWorker(step)
    ensures CountInv(n, Next(n, s, step))
  {
  }

  lemma {:induction false} OtherKeepsCount(n: nat, s: State, step: Step)
    requires CountInv(n, s) && Enabled(n, s, step) && !MovesWorker(step)
    ensures CountInv(n, Next(n, s, step))
  {
    hide Workers;
    var t := Next(n, s, step);
    assert t.left == s.left && t.spawned == s.spawned && t.busy == s.busy;
  }

  lemma {:induction false} NextKeepsCount(n: nat, s: State, step: Step)
    requires CountInv(n, s) && Enabled(n, s, step)
    ensures CountInv(n, Next(n, s, step))
  {
    hide CountInv, Next, Enabled;
    if MovesWorker(step) {
      WorkerKeepsCount(n, s, step);
    } else {
      OtherKeepsCount(n, s, step);
    }
  }

  lemma {:induction false} LookKeepsWait(n: nat, s: State, call: nat)
    requires CountInv(n, s) && WaitInv(s) && Enabled(n, s, Look(call))
    ensures WaitInv(Next(n, s, Look(call)))
  {
    if s.running == 0 {
      AllLeft(n, s);
    }
  }

  predicate ByRunOrWorker(step: Step) {
    step.Publish? || step.Spawn? || step.RunLock? || step.RunCheck? || step.RunStart? || step.RunUnlock? ||
    step.Enter? || step.Touch? || step.Return? || step.Leave?
  }

  lemma {:induction false} RunKeepsWait(n: nat, s: State, step: Step)
    requires WaitInv(s) && Enabled(n, s, step) && ByRunOrWorker(step)
    ensures WaitInv(Next(n, s, step))
  {
    assert Next(n, s, step).busy <= s.busy || !s.stopped;
  }

  lemma {:induction false} CallKeepsWait(n: nat, s: State, step: Step)
    requires WaitInv(s) && Enabled(n, s, step) && !ByRunOrWorker(step) && !step.Look?
    ensures WaitInv(Next(n, s, step))
  {
  }

  lemma {:induction false} NextKeepsWait(n: nat, s: State, step: Step)
    requires CountInv(n, s) && WaitInv(s) && Enabled(n, s, step)
    ensures WaitInv(Next(n, s, step))
  {
    hide WaitInv, CountInv, Next, Enabled;
    if step.Look? {
      LookKeepsWait(n, s, step.call);
    } else if ByRunOrWorker(step) {
      RunKeepsWait(n, s, step);
    } else {
      CallKeepsWait(n, s, step);
    }
  }

  // ---------------------------------------------------------------- the mutex and the pools

  predicate HoldsMutex(pc: ShutPc) {
    pc.ShutLocked? || pc.Destroying? || pc.Skipping?
  }

  predicate MutexInv(s: State) {
    && ((s.run.Locked? || s.run.Starting?) <==> s.mutex == ByRun)
    && (forall c :: c in s.calls && HoldsMutex(s.calls[c]) ==> s.mutex == ByShutdown(c))
    && (s.mutex.ByShutdown? ==> s.mutex.call in s.calls && HoldsMutex(s.calls[s.mutex.call]))
    && (s.run.Starting? ==> s.run.next <= |ORDER|)
    && (forall c :: c in s.calls && s.calls[c].Destroying? ==> s.calls[c].next <= |ORDER|)
  }

  /** The executors that are left when the first `next` have been reset. */
  function Rest(next: nat): set<Pool>
    requires next <= |ORDER|
  {
    set p | p in ORDER[next..]
  }

  /** A call is between its test of the executors and its release of the mutex. */
  predicate Tearing(s: State)
    requires MutexInv(s)
  {
    s.mutex.ByShutdown? && s.calls[s.mutex.call].Destroying?
  }

  predicate PoolInv(s: State)
    requires MutexInv(s)
  {
    && (s.run.Starting? && s.run.next < |ORDER| ==> s.alive == ALL)
    && (Tearing(s) ==> s.alive == Rest(s.calls[s.mutex.call].next))
    && (!Tearing(s) ==> s.alive == ALL || s.alive == {})
    && (forall c :: c in s.calls && (s.calls[c].Skipping? || s.calls[c].Unlocked? || s.calls[c].Finished?) ==>
                      s.alive == {})
  }

  lemma {:induction false} RunKeepsMutex(n: nat, s: State, step: Step)
    requires MutexInv(s) && Enabled(n, s, step) && ByRunOrWorker(step)
    ensures MutexInv(Next(n, s, step))
  {
  }

  predicate TakesOrFrees(step: Step) {
    step.ShutLock? || step.ShutUnlock?
  }

  lemma {:induction false} LockKeepsMutex(n: nat, s: State, step: Step)
    requires MutexInv(s) && Enabled(n, s, step) && TakesOrFrees(step)
    ensures MutexInv(Next(n, s, step))
  {
  }

  lemma {:induction false} CallKeepsMutex(n: nat, s: State, step: Step)
    requires MutexInv(s) && Enabled(n, s, step) && !ByRunOrWorker(step) && !TakesOrFrees(step)
    ensures MutexInv(Next(n, s, step))
  {
  }

  lemma {:induction false} NextKeepsMutex(n: nat, s: State, step: Step)
    requires MutexInv(s) && Enabled(n, s, step)
    ensures MutexInv(Next(n, s, step))
  {
    hide MutexInv, Next, Enabled;
    if ByRunOrWorker(step) {
      RunKeepsMutex(n, s, step);
    } else if TakesOrFrees(step) {
      LockKeepsMutex(n, s, step);
    } else {
      CallKeepsMutex(n, s, step);
    }
  }

  lemma {:induction false} RestStep(next: nat)
    requires next <= |ORDER|
    ensures Rest(0) == ALL && Rest(|ORDER|) == {}
    ensures next < |ORDER| ==> Rest(next + 1) == Rest(next) - {ORDER[next]} && ORDER[next] in Rest(next)
  {
  }

  lemma {:induction false} RunKeepsPools(n: nat, s: State, step: Step)
    requires MutexInv(s) && PoolInv(s) && Enabled(n, s, step) && ByRunOrWorker(step)
    ensures MutexInv(Next(n, s, step)) && PoolInv(Next(n, s, step))
  {
    NextKeepsMutex(n, s, step);
  }

  lemma {:induction false} CallKeepsPools(n: nat, s: State, step: Step)
    requires MutexInv(s) && PoolInv(s) && Enabled(n, s, step) && !ByRunOrWorker(step) && !step.Destroy?
    ensures MutexInv(Next(n, s, step)) && PoolInv(Next(n, s, step))
  {
    hide Rest;
    NextKeepsMutex(n, s, step);
    RestStep(0);
  }

  lemma {:induction false} DestroyKeepsPools(n: nat, s: State, call: nat)
    requires MutexInv(s) && PoolInv(s) && Enabled(n, s, Destroy(call))
    ensures MutexInv(Next(n, s, Destroy(call))) && PoolInv(Next(n, s, Destroy(call)))
  {
    hide Rest;
    NextKeepsMutex(n, s, Destroy(call));
    RestStep(s.calls[call].next);
  }

  // ---------------------------------------------------------------- what may happen

  /** What must not have happened before an event, and what must have. */
  predicate MayFollow(log: seq<Event>, e: Event) {
    match e
    case Started(pool) => !Begun(log)
    case TeardownBegun(drained) => !Begun(log)
    case Destroyed(pool) => Begun(log) && Destroyed(pool) !in log && ReactorDown !in log
    case ReactorDown => forall pool :: Destroyed(pool) in log
    case Touched(pool) => TeardownBegun(true) !in log
  }

  predicate GoodLog(log: seq<Event>) {
    log == [] || (GoodLog(log[..|log| - 1]) && MayFollow(log[..|log| - 1], log[|log| - 1]))
  }

  predicate LogInv(s: State)
    requires MutexInv(s)
  {
    && GoodLog(s.log)
    && (forall pool :: pool in s.alive <==> Destroyed(pool) !in s.log)
    && (s.alive == ALL && !Tearing(s) <==> !Begun(s.log))
    && (ReactorDown in s.log ==> s.alive == {})
  }

  lemma {:induction false} Appended(log: seq<Event>, e: Event)
    requires GoodLog(log) && MayFollow(log, e)
    ensures GoodLog(log + [e])
  {
    assert (log + [e])[..|log|] == log;
  }

  predicate Writes(step: Step) {
    step.RunStart? || step.Touch? || step.ShutCheck? || step.Destroy? || step.StopReactor?
  }

  lemma {:induction false} QuietKeepsLog(n: nat, s: State, step: Step)
    requires MutexInv(s) && PoolInv(s) && LogInv(s) && Enabled(n, s, step) && !Writes(step)
    ensures MutexInv(Next(n, s, step)) && LogInv(Next(n, s, step))
  {
    hide GoodLog, Rest, Begun;
    NextKeepsMutex(n, s, step);
    RestStep(0);
  }

  lemma {:induction false} StartKeepsLog(n: nat, s: State)
    requires MutexInv(s) && PoolInv(s) && LogInv(s) && Enabled(n, s, RunStart)
    ensures MutexInv(Next(n, s, RunStart)) && LogInv(Next(n, s, RunStart))
  {
    hide GoodLog, Rest;
    NextKeepsMutex(n, s, RunStart);
    Appended(s.log, Started(ORDER[s.run.next]));
  }

  lemma {:induction false} TouchKeepsLog(n: nat, s: State, w: nat, pool: Pool)
    requires WaitInv(s) && MutexInv(s) && LogInv(s) && Enabled(n, s, Touch(w, pool))
    ensures MutexInv(Next(n, s, Touch(w, pool))) && LogInv(Next(n, s, Touch(w, pool)))
  {
    hide GoodLog;
    NextKeepsMutex(n, s, Touch(w, pool));
    Appended(s.log, Touched(pool));
  }

  lemma {:induction false} CheckKeepsLog(n: nat, s: State, call: nat)
    requires MutexInv(s) && PoolInv(s) && LogInv(s) && Enabled(n, s, ShutCheck(call))
    ensures MutexInv(Next(n, s, ShutCheck(call))) && LogInv(Next(n, s, ShutCheck(call)))
  {
    hide GoodLog, Rest;
    NextKeepsMutex(n, s, ShutCheck(call));
    RestStep(0);
    if Admin in s.alive {
      Appended(s.log, TeardownBegun(s.calls[call].drained));
      assert CallAt(Next(n, s, ShutCheck(call)), call, Destroying(0, s.calls[call].drained));
    }
  }

  lemma {:induction false} DestroyKeepsLog(n: nat, s: State, call: nat)
    requires MutexInv(s) && PoolInv(s) && LogInv(s) && Enabled(n, s, Destroy(call))
    ensures MutexInv(Next(n, s, Destroy(call))) && LogInv(Next(n, s, Destroy(call)))
  {
    hide GoodLog, Rest;
    NextKeepsMutex(n, s, Destroy(call));
    var pool := ORDER[s.calls[call].next];
    RestStep(s.calls[call].next);
    Appended(s.log, Destroyed(pool));
    assert pool !in Next(n, s, Destroy(call)).alive;
  }

  lemma {:induction false} ReactorKeepsLog(n: nat, s: State, call: nat)
    requires MutexInv(s) && PoolInv(s) && LogInv(s) && Enabled(n, s, StopReactor(call))
    ensures MutexInv(Next(n, s, StopReactor(call))) && LogInv(Next(n, s, StopReactor(call)))
  {
    hide GoodLog, Rest;
    NextKeepsMutex(n, s, StopReactor(call));
    Appended(s.log, ReactorDown);
  }

  lemma {:induction false} NextKeepsLog(n: nat, s: State, step: Step)
    requires WaitInv(s) && MutexInv(s) && PoolInv(s) && LogInv(s) && Enabled(n, s, step)
    ensures MutexInv(Next(n, s, step)) && LogInv(Next(n, s, step))
  {
    hide LogInv, PoolInv, WaitInv, MutexInv, Next;
    match step
    case RunStart => StartKeepsLog(n, s);
    case Touch(w, pool) => TouchKeepsLog(n, s, w, pool);
    case ShutCheck(call) => CheckKeepsLog(n, s, call);
    case Destroy(call) => DestroyKeepsLog(n, s, call);
    case StopReactor(call) => ReactorKeepsLog(n, s, call);
    case _ => QuietKeepsLog(n, s, step);
  }

  lemma {:induction false} NextKeepsPools(n: nat, s: State, step: Step)
    requires MutexInv(s) && PoolInv(s) && Enabled(n, s, step)
    ensures MutexInv(Next(n, s, step)) && PoolInv(Next(n, s, step))
  {
    hide MutexInv, PoolInv, Next;
    if step.Destroy? {
      DestroyKeepsPools(n, s, step.call);
    } else if ByRunOrWorker(step) {
      RunKeepsPools(n, s, step);
    } else {
      CallKeepsPools(n, s, step);
    }
  }

  predicate Inv(n: nat, s: State) {
    CountInv(n, s) && WaitInv(s) && MutexInv(s) && PoolInv(s) && LogInv(s)
  }

  lemma {:induction false} EveryRun(n: nat, steps: seq<Step>)
    requires IsRun(n, steps)
    ensures Inv(n, After(n, steps))
    decreases |steps|
  {
    if steps == [] {
      assert forall pool: Pool :: pool in ALL by {
        forall pool: Pool ensures pool in ALL {
          match pool case Admin => case Slow => case Fast =>
        }
      }
    } else {
      hide CountInv, WaitInv, MutexInv, PoolInv, LogInv, Next;
      var before, step := steps[..|steps| - 1], steps[|steps| - 1];
      EveryRun(n, before);
      var s := After(n, before);
      NextKeepsCount(n, s, step);
      NextKeepsWait(n, s, step);
      NextKeepsPools(n, s, step);
      NextKeepsLog(n, s, step);
    }
  }

  // ---------------------------------------------------------------- over every run

  lemma {:induction false} EventMayFollow(log: seq<Event>, at: nat)
    requires GoodLog(log) && at < |log|
    ensures MayFollow(log[..at], log[at])
    decreases |log|
  {
    if at < |log| - 1 {
      EventMayFollow(log[..|log| - 1], at);
      assert log[..|log| - 1][..at] == log[..at];
    }
  }

  lemma {:induction false} Earlier(log: seq<Event>, first: nat, at: nat)
    requires first < at < |log|
    ensures log[first] in log[..at]
  {
    assert log[..at][first] == log[first];
  }

  lemma {:induction false} LogOfRun(n: nat, steps: seq<Step>, at: nat)
    requires IsRun(n, steps) && at < |After(n, steps).log|
    ensures MayFollow(After(n, steps).log[..at], After(n, steps).log[at])
  {
    hide CountInv, WaitInv, MutexInv, PoolInv;
    EveryRun(n, steps);
    EventMayFollow(After(n, steps).log, at);
  }

  /** In every interleaving, no pool is started once a teardown has begun, so none while or after it is destroyed. */
  lemma {:induction false} NoStartAfterTeardown(n: nat, steps: seq<Step>, first: nat, at: nat)
    requires IsRun(n, steps) && first < at < |After(n, steps).log|
    requires After(n, steps).log[first].TeardownBegun? || After(n, steps).log[first].Destroyed?
    ensures !After(n, steps).log[at].Started?
  {
    hide IsRun, After;
    var log := After(n, steps).log;
    LogOfRun(n, steps, first);
    LogOfRun(n, steps, at);
    Earlier(log, first, at);
    assert forall e :: e in log[..first] ==> e in log[..at] by {
      assert log[..at][..first] == log[..first];
    }
  }

  /** Each pool is destroyed at most once. */
  lemma {:induction false} DestroyedOnce(n: nat, steps: seq<Step>, pool: Pool, first: nat, second: nat)
    requires IsRun(n, steps) && first < |After(n, steps).log| && second < |After(n, steps).log|
    requires After(n, steps).log[first] == After(n, steps).log[second] == Destroyed(pool)
    ensures first == second
  {
    hide IsRun, After;
    var log := After(n, steps).log;
    LogOfRun(n, steps, first);
    LogOfRun(n, steps, second);
    if first < second {
      Earlier(log, first, second);
    } else if second < first {
      Earlier(log, second, first);
    }
  }

  /** Every pool is destroyed before the reactor is shut down. */
  lemma {:induction false} PoolsBeforeReactor(n: nat, steps: seq<Step>, pool: Pool, at: nat)
    requires IsRun(n, steps) && at < |After(n, steps).log| && After(n, steps).log[at] == ReactorDown
    ensures exists k :: 0 <= k < at && After(n, steps).log[k] == Destroyed(pool)
  {
    hide IsRun, After;
    LogOfRun(n, steps, at);
    var log := After(n, steps).log;
    assert Destroyed(pool) in log[..at];
    var k :| 0 <= k < at && log[..at][k] == Destroyed(pool);
    assert log[k] == Destroyed(pool);
  }

  /** When the wait ended because the count reached zero, no completion handler uses an executor after the teardown
      has begun: none is destroyed under it, also when shutdown comes before run. */
  lemma {:induction false} NoTouchAfterDrain(n: nat, steps: seq<Step>, first: nat, at: nat)
    requires IsRun(n, steps) && first < at < |After(n, steps).log|
    requires After(n, steps).log[first] == TeardownBegun(true)
    ensures !After(n, steps).log[at].Touched?
  {
    hide IsRun, After;
    LogOfRun(n, steps, at);
    Earlier(After(n, steps).log, first, at);
  }

  // ---------------------------------------------------------------- what is started, and what is taken down

  /** The pools that were started, in that order. */
  function Starts(log: seq<Event>): seq<Pool> {
    if log == [] then []
    else
      var e := log[|log| - 1];
      Starts(log[..|log| - 1]) + (if e.Started? then [e.pool] else [])
  }

  /** The pools that were destroyed, in that order. */
  function Destroys(log: seq<Event>): seq<Pool> {
    if log == [] then []
    else
      var e := log[|log| - 1];
      Destroys(log[..|log| - 1]) + (if e.Destroyed? then [e.pool] else [])
  }

  lemma {:induction false} OneEventMore(log: seq<Event>, e: Event)
    ensures Starts(log + [e]) == Starts(log) + (if e.Started? then [e.pool] else [])
    ensures Destroys(log + [e]) == Destroys(log) + (if e.Destroyed? then [e.pool] else [])
  {
    assert (log + [e])[..|log|] == log;
  }

  /** A shutdown was requested before step number `k`. */
  predicate AskedBefore(steps: seq<Step>, k: nat) {
    exists j :: 0 <= j < k && j < |steps| && steps[j].Request?
  }

  /** run() has got as far as its check, at step number `check`. */
  predicate ChecksAt(steps: seq<Step>, check: nat) {
    check < |steps| && steps[check] == RunCheck && forall i :: 0 <= i < |steps| && steps[i] == RunCheck ==> i == check
  }

  /** run() made its check at step number `check`, and has started the pools it has come to if it found nothing against
      it. */
  ghost predicate StartedSince(steps: seq<Step>, s: State, check: nat) {
    && ChecksAt(steps, check)
    && if AskedBefore(steps, check) then Starts(s.log) == [] && (s.run.Starting? ==> s.run.next == |ORDER|)
       else Starts(s.log) == if s.run.Starting? && s.run.next <= |ORDER| then ORDER[..s.run.next] else ORDER
  }

  /** What run() has started: nothing before its check, and after that nothing if a shutdown had been requested by then;
      otherwise the pools it has come to. */
  ghost predicate StartInv(steps: seq<Step>, s: State) {
    && (s.requested <==> AskedBefore(steps, |steps|))
    && (!s.requested ==> s.alive == ALL && s.calls == map[])
    && (if s.run.Starting? || s.run.Joining? then
          exists check :: StartedSince(steps, s, check)
        else RunCheck !in steps && Starts(s.log) == [])
  }

  lemma {:induction false} AskedByOneMore(steps: seq<Step>, step: Step)
    ensures var longer := steps + [step];
            AskedBefore(longer, |longer|) <==> AskedBefore(steps, |steps|) || step.Request?
    ensures forall k: nat :: k <= |steps| ==> (AskedBefore(steps + [step], k) <==> AskedBefore(steps, k))
  {
    var longer := steps + [step];
    assert longer[|steps|] == step;
    assert forall j :: 0 <= j < |steps| ==> longer[j] == steps[j];
    if AskedBefore(steps, |steps|) {
      var j :| 0 <= j < |steps| && steps[j].Request?;
      assert longer[j].Request?;
    }
    forall k: nat | k <= |steps|
      ensures AskedBefore(longer, k) <==> AskedBefore(steps, k)
    {
      if AskedBefore(steps, k) {
        var j :| 0 <= j < k && j < |steps| && steps[j].Request?;
        assert longer[j].Request?;
      }
    }
  }

  lemma {:induction false} ChecksLater(steps: seq<Step>, check: nat, step: Step)
    requires ChecksAt(steps, check) && step != RunCheck
    ensures ChecksAt(steps + [step], check)
  {
  }

  lemma {:induction false} ChecksNow(steps: seq<Step>)
    requires RunCheck !in steps
    ensures ChecksAt(steps + [RunCheck], |steps|)
  {
    assert forall i :: 0 <= i < |steps| ==> (steps + [RunCheck])[i] == steps[i] && steps[i] in steps;
  }

  /** The check itself: without a shutdown every pool is there, and run() goes on to start them. */
  lemma {:induction false} CheckStarts(n: nat, steps: seq<Step>, s: State)
    requires StartInv(steps, s) && Enabled(n, s, RunCheck)
    ensures StartInv(steps + [RunCheck], Next(n, s, RunCheck))
  {
    hide AskedBefore;
    AskedByOneMore(steps, RunCheck);
    ChecksNow(steps);
    assert StartedSince(steps + [RunCheck], Next(n, s, RunCheck), |steps|);
  }

  lemma {:induction false} StartStarts(n: nat, steps: seq<Step>, s: State)
    requires StartInv(steps, s) && Enabled(n, s, RunStart)
    ensures StartInv(steps + [RunStart], Next(n, s, RunStart))
  {
    hide Starts, AskedBefore;
    var check :| StartedSince(steps, s, check);
    AskedByOneMore(steps, RunStart);
    ChecksLater(steps, check, RunStart);
    OneEventMore(s.log, Started(ORDER[s.run.next]));
    assert ORDER[..s.run.next] + [ORDER[s.run.next]] == ORDER[..s.run.next + 1];
    assert StartedSince(steps + [RunStart], Next(n, s, RunStart), check);
  }

  lemma {:induction false} UnlockStarts(n: nat, steps: seq<Step>, s: State)
    requires StartInv(steps, s) && Enabled(n, s, RunUnlock)
    ensures StartInv(steps + [RunUnlock], Next(n, s, RunUnlock))
  {
    hide Starts, AskedBefore;
    var check :| StartedSince(steps, s, check);
    AskedByOneMore(steps, RunUnlock);
    ChecksLater(steps, check, RunUnlock);
    assert ORDER[..|ORDER|] == ORDER;
    assert StartedSince(steps + [RunUnlock], Next(n, s, RunUnlock), check);
  }

  /** A step that is not run()'s, or that is before its check, starts nothing. */
  lemma {:induction false} OthersStartNone(n: nat, s: State, step: Step)
    requires Enabled(n, s, step) && !step.RunStart?
    ensures Starts(Next(n, s, step).log) == Starts(s.log)
  {
    hide Starts;
    var log := Next(n, s, step).log;
    if log != s.log {
      OneEventMore(s.log, log[|log| - 1]);
      assert log == s.log + [log[|log| - 1]];
    }
  }

  predicate AtPools(pc: RunPc) {
    pc.Starting? || pc.Joining?
  }

  lemma {:induction false} OthersLeave(n: nat, s: State, step: Step)
    requires Enabled(n, s, step) && !step.RunCheck? && !step.RunStart? && !step.RunUnlock?
    ensures var t := Next(n, s, step);
            && (AtPools(t.run) <==> AtPools(s.run)) && (AtPools(s.run) ==> t.run == s.run)
            && (t.requested <==> s.requested || step.Request?)
            && (!t.requested && s.calls == map[] ==> t.alive == s.alive && t.calls == map[])
  {
  }

  /** What another step leaves of it. */
  lemma {:induction false} OthersStart(n: nat, steps: seq<Step>, s: State, step: Step)
    requires StartInv(steps, s) && Enabled(n, s, step) && !step.RunCheck? && !step.RunStart? && !step.RunUnlock?
    ensures StartInv(steps + [step], Next(n, s, step))
  {
    hide Starts, AskedBefore, Next, Enabled, ChecksAt;
    var t := Next(n, s, step);
    AskedByOneMore(steps, step);
    OthersStartNone(n, s, step);
    OthersLeave(n, s, step);
    if AtPools(s.run) {
      var check :| StartedSince(steps, s, check);
      CheckIsOne(steps, check);
      ChecksLater(steps, check, step);
      assert StartedSince(steps + [step], t, check);
    } else {
      assert RunCheck !in steps + [step];
    }
  }

  lemma {:induction false} CheckIsOne(steps: seq<Step>, check: nat)
    requires ChecksAt(steps, check)
    ensures check < |steps|
  {
  }

  lemma {:induction false} StartsOfRun(n: nat, steps: seq<Step>)
    requires IsRun(n, steps)
    ensures StartInv(steps, After(n, steps))
    decreases |steps|
  {
    if steps != [] {
      hide StartInv, Next, Enabled;
      var before, step := steps[..|steps| - 1], steps[|steps| - 1];
      StartsOfRun(n, before);
      assert before + [step] == steps;
      var s := After(n, before);
      match step
      case RunCheck => CheckStarts(n, before, s);
      case RunStart => StartStarts(n, before, s);
      case RunUnlock => UnlockStarts(n, before, s);
      case _ => OthersStart(n, before, s, step);
    }
  }

  /** In every interleaving: once run() has released the mutex, each pool was started exactly once, the administrators'
      first and the fast one last, if no shutdown was requested before its check; and otherwise none was. */
  lemma {:induction false} PoolsAreStarted(n: nat, steps: seq<Step>) returns (check: nat)
    requires IsRun(n, steps) && After(n, steps).run.Joining?
    ensures ChecksAt(steps, check)
    ensures Starts(After(n, steps).log) == if AskedBefore(steps, check) then [] else [Admin, Slow, Fast]
  {
    hide Starts, IsRun, After, AskedBefore;
    StartsOfRun(n, steps);
    check :| StartedSince(steps, After(n, steps), check);
  }

  /** What is down: the pools destroyed so far, in their order, and the reactor once a call has finished. */
  ghost predicate DownInv(s: State)
    requires MutexInv(s)
  {
    && (if Tearing(s) then Destroys(s.log) == ORDER[..s.calls[s.mutex.call].next]
        else Destroys(s.log) == if s.alive == ALL then [] else ORDER)
    && (forall c :: c in s.calls && s.calls[c].Finished? ==> ReactorDown in s.log)
  }

  lemma {:induction false} OthersDestroyNone(n: nat, s: State, step: Step)
    requires Enabled(n, s, step) && !step.Destroy?
    ensures Destroys(Next(n, s, step).log) == Destroys(s.log)
  {
    hide Destroys;
    var log := Next(n, s, step).log;
    if log != s.log {
      OneEventMore(s.log, log[|log| - 1]);
      assert log == s.log + [log[|log| - 1]];
    }
  }

  lemma {:induction false} RunKeepsDown(n: nat, s: State, step: Step)
    requires MutexInv(s) && DownInv(s) && Enabled(n, s, step) && ByRunOrWorker(step)
    ensures MutexInv(Next(n, s, step)) && DownInv(Next(n, s, step))
  {
    hide Destroys;
    NextKeepsMutex(n, s, step);
    OthersDestroyNone(n, s, step);
  }

  lemma {:induction false} CallKeepsDown(n: nat, s: State, step: Step)
    requires MutexInv(s) && PoolInv(s) && DownInv(s) && Enabled(n, s, step) && !ByRunOrWorker(step) && !step.Destroy?
    ensures MutexInv(Next(n, s, step)) && DownInv(Next(n, s, step))
  {
    hide Destroys, Rest;
    NextKeepsMutex(n, s, step);
    OthersDestroyNone(n, s, step);
    RestStep(0);
    assert ORDER[..0] == [] && ORDER[..|ORDER|] == ORDER;
  }

  lemma {:induction false} DestroyKeepsDown(n: nat, s: State, call: nat)
    requires MutexInv(s) && DownInv(s) && Enabled(n, s, Destroy(call))
    ensures MutexInv(Next(n, s, Destroy(call))) && DownInv(Next(n, s, Destroy(call)))
  {
    hide Destroys;
    NextKeepsMutex(n, s, Destroy(call));
    var next := s.calls[call].next;
    OneEventMore(s.log, Destroyed(ORDER[next]));
    assert ORDER[..next] + [ORDER[next]] == ORDER[..next + 1];
  }

  lemma {:induction false} DownOfRun(n: nat, steps: seq<Step>)
    requires IsRun(n, steps)
    ensures Inv(n, After(n, steps)) && DownInv(After(n, steps))
    decreases |steps|
  {
    EveryRun(n, steps);
    if steps != [] {
      hide CountInv, WaitInv, MutexInv, PoolInv, LogInv, DownInv, Next;
      var before, step := steps[..|steps| - 1], steps[|steps| - 1];
      DownOfRun(n, before);
      var s := After(n, before);
      if step.Destroy? {
        DestroyKeepsDown(n, s, step.call);
      } else if ByRunOrWorker(step) {
        RunKeepsDown(n, s, step);
      } else {
        CallKeepsDown(n, s, step);
      }
    }
  }

  /** In every interleaving: once a shutdown call has finished, every pool has been destroyed exactly once, in their
      order, and the reactor is down. */
  lemma {:induction false} ShutdownIsComplete(n: nat, steps: seq<Step>, call: nat)
    requires IsRun(n, steps) && CallAt(After(n, steps), call, Finished)
    ensures Destroys(After(n, steps).log) == [Admin, Slow, Fast] && ReactorDown in After(n, steps).log
    ensures After(n, steps).alive == {}
  {
    hide Destroys, IsRun, After, CountInv, WaitInv, LogInv;
    DownOfRun(n, steps);
    var s := After(n, steps);
    assert ORDER[..|ORDER|] == ORDER;
    if Tearing(s) {
      RestStep(s.calls[s.mutex.call].next);
    }
  }

  // ---------------------------------------------------------------- when the wait gives up

  lemma {:induction false} Extend(n: nat, steps: seq<Step>, step: Step)
    requires IsRun(n, steps) && Enabled(n, After(n, steps), step)
    ensures IsRun(n, steps + [step]) && After(n, steps + [step]) == Next(n, After(n, steps), step)
  {
    assert (steps + [step])[..|steps|] == steps;
  }

  /** `more` is a way in which the run can go on. */
  ghost predicate GoesOn(n: nat, steps: seq<Step>, more: seq<Step>) {
    IsRun(n, steps) && IsRun(n, steps + more)
  }

  /** While the run goes on as `more`, a completion handler uses the executor `pool`. */
  ghost predicate TouchesLater(n: nat, steps: seq<Step>, more: seq<Step>, pool: Pool)
    requires GoesOn(n, steps, more)
  {
    exists k :: |After(n, steps).log| <= k < |After(n, steps + more).log| &&
                After(n, steps + more).log[k] == Touched(pool)
  }

  lemma {:induction false} OneStepLess(n: nat, steps: seq<Step>, more: seq<Step>)
    requires GoesOn(n, steps, more) && more != []
    ensures GoesOn(n, steps, more[..|more| - 1])
    ensures Enabled(n, After(n, steps + more[..|more| - 1]), more[|more| - 1])
    ensures After(n, steps + more) == Next(n, After(n, steps + more[..|more| - 1]), more[|more| - 1])
  {
    assert (steps + more)[..|steps + more| - 1] == steps + more[..|more| - 1];
  }

  lemma {:induction false} StoppedStays(n: nat, s: State, step: Step)
    requires Enabled(n, s, step) && s.stopped && s.busy == {}
    ensures var t := Next(n, s, step);
            t.stopped && t.busy == {} && s.log <= t.log &&
            forall k :: |s.log| <= k < |t.log| ==> !t.log[k].Touched?
  {
  }

  lemma {:induction false} NobodyTouches(n: nat, steps: seq<Step>, more: seq<Step>)
    requires GoesOn(n, steps, more) && After(n, steps).stopped && After(n, steps).busy == {}
    ensures var s, t := After(n, steps), After(n, steps + more);
            t.stopped && t.busy == {} && s.log <= t.log && forall k :: |s.log| <= k < |t.log| ==> !t.log[k].Touched?
    decreases |more|
  {
    hide IsRun, After, Next, Enabled;
    if more == [] {
      assert steps + more == steps;
    } else {
      var fewer := more[..|more| - 1];
      OneStepLess(n, steps, more);
      NobodyTouches(n, steps, fewer);
      StoppedStays(n, After(n, steps + fewer), more[|more| - 1]);
    }
  }

  lemma {:induction false} BusyCanTouch(n: nat, steps: seq<Step>, w: nat, pool: Pool)
    requires IsRun(n, steps) && w in After(n, steps).busy
    ensures GoesOn(n, steps, [Touch(w, pool)]) && TouchesLater(n, steps, [Touch(w, pool)], pool)
  {
    hide IsRun, After;
    Extend(n, steps, Touch(w, pool));
    var log := After(n, steps + [Touch(w, pool)]).log;
    assert log[|After(n, steps).log|] == Touched(pool);
  }

  /** For any number of workers and any run in which a teardown has begun: a completion handler can still use an
      executor, destroyed or not, exactly when one is running.  After a drain none is. */
  lemma {:induction false} TouchPossibleIff(n: nat, steps: seq<Step>, pool: Pool)
    requires IsRun(n, steps) && Begun(After(n, steps).log)
    ensures (exists more :: GoesOn(n, steps, more) && TouchesLater(n, steps, more, pool)) <==>
            After(n, steps).busy != {}
    ensures TeardownBegun(true) in After(n, steps).log ==> After(n, steps).busy == {}
  {
    hide IsRun, After, CountInv, MutexInv, PoolInv, LogInv;
    EveryRun(n, steps);
    if After(n, steps).busy == {} {
      forall more | GoesOn(n, steps, more)
        ensures !TouchesLater(n, steps, more, pool)
      {
        NobodyTouches(n, steps, more);
      }
    } else {
      var w :| w in After(n, steps).busy;
      BusyCanTouch(n, steps, w, pool);
    }
  }

  lemma {:induction false} KeepLooking(n: nat, steps: seq<Step>, call: nat, times: nat) returns (longer: seq<Step>)
    requires IsRun(n, steps) && CallAt(After(n, steps), call, Waiting(0))
    requires After(n, steps).running != 0 && times <= MAX_WAITS
    ensures IsRun(n, longer) && After(n, longer) == Goto(After(n, steps), call, Waiting(times))
    decreases times
  {
    hide IsRun, After;
    if times == 0 {
      longer := steps;
      assert After(n, steps).calls[call := Waiting(0)] == After(n, steps).calls;
    } else {
      var shorter := KeepLooking(n, steps, call, times - 1);
      Extend(n, shorter, Look(call));
      longer := shorter + [Look(call)];
      assert After(n, shorter).calls[call := Waiting(times)] == After(n, steps).calls[call := Waiting(times)];
    }
  }

  /** A worker is inside a handler, and a call has stopped the io_context and waits for it. */
  lemma {:induction false} WaitForHandler() returns (steps: seq<Step>)
    ensures IsRun(1, steps)
    ensures After(1, steps) ==
            State(true, true, 1, {0}, {}, {0}, Spawning, map[0 := Waiting(0)], Free, ALL, [])
  {
    hide After, IsRun;
    steps := [];
    Start(1);
    steps := Then(1, steps, Publish);
    steps := Then(1, steps, Spawn(0));
    steps := Then(1, steps, Enter(0));
    steps := Then(1, steps, Request(0));
    steps := Then(1, steps, StopIo(0));
    assert After(1, steps).calls == map[0 := Waiting(0)];
  }

  /** The wait gave up. */
  lemma {:induction false} GiveUp() returns (steps: seq<Step>)
    ensures IsRun(1, steps)
    ensures After(1, steps) ==
            State(true, true, 1, {0}, {}, {0}, Spawning, map[0 := Waited(false)], Free, ALL, [])
  {
    hide After, IsRun;
    steps := WaitForHandler();
    steps := KeepLooking(1, steps, 0, MAX_WAITS);
    steps := Then(1, steps, Look(0));
    assert After(1, steps).calls == map[0 := Waited(false)];
  }

  /** The bound on the wait is what the guarantee rests on: a handler that outlasts it can meet a destroyed pool. */
  lemma {:induction false} TouchAfterTimeout() returns (steps: seq<Step>)
    ensures IsRun(1, steps)
    ensures After(1, steps).log == [TeardownBegun(false), Destroyed(Admin), Touched(Admin)]
  {
    hide After, IsRun;
    steps := GiveUp();
    steps := Then(1, steps, ShutLock(0));
    steps := Then(1, steps, ShutCheck(0));
    steps := Then(1, steps, Destroy(0));
    steps := Then(1, steps, Touch(0, Admin));
  }

  lemma {:induction false} Start(n: nat)
    ensures IsRun(n, []) && After(n, []) == Initial()
  {
  }

  lemma {:induction false} Then(n: nat, steps: seq<Step>, step: Step) returns (longer: seq<Step>)
    requires IsRun(n, steps) && Enabled(n, After(n, steps), step)
    ensures IsRun(n, longer) && After(n, longer) == Next(n, After(n, steps), step)
  {
    Extend(n, steps, step);
    longer := steps + [step];
  }

  /** What a shutdown call does once its wait is over, when the pools are still there. */
  function Teardown(drained: bool): seq<Event> {
    [TeardownBegun(drained), Destroyed(Admin), Destroyed(Slow), Destroyed(Fast), ReactorDown]
  }

  lemma {:induction false} BeginsTeardown(n: nat, steps: seq<Step>, call: nat, drained: bool)
    returns (longer: seq<Step>)
    requires IsRun(n, steps) && CallAt(After(n, steps), call, Waited(drained))
    requires After(n, steps).mutex.Free? && After(n, steps).alive == ALL
    ensures IsRun(n, longer) && CallAt(After(n, longer), call, Destroying(0, drained))
    ensures After(n, longer).log == After(n, steps).log + [TeardownBegun(drained)]
  {
    hide After, IsRun;
    longer := Then(n, steps, ShutLock(call));
    longer := Then(n, longer, ShutCheck(call));
  }

  lemma {:induction false} DestroysNext(n: nat, steps: seq<Step>, call: nat, next: nat, drained: bool)
    returns (longer: seq<Step>)
    requires IsRun(n, steps) && CallAt(After(n, steps), call, Destroying(next, drained)) && next < |ORDER|
    ensures IsRun(n, longer) && CallAt(After(n, longer), call, Destroying(next + 1, drained))
    ensures After(n, longer).log == After(n, steps).log + [Destroyed(ORDER[next])]
  {
    hide After, IsRun;
    longer := Then(n, steps, Destroy(call));
  }

  lemma {:induction false} EndsTeardown(n: nat, steps: seq<Step>, call: nat, drained: bool)
    returns (longer: seq<Step>)
    requires IsRun(n, steps) && CallAt(After(n, steps), call, Destroying(|ORDER|, drained))
    ensures IsRun(n, longer) && CallAt(After(n, longer), call, Finished)
    ensures After(n, longer).log == After(n, steps).log + [ReactorDown]
  {
    hide After, IsRun;
    longer := Then(n, steps, ShutUnlock(call));
    longer := Then(n, longer, StopReactor(call));
  }

  lemma {:induction false} TearsDown(n: nat, steps: seq<Step>, call: nat, drained: bool) returns (longer: seq<Step>)
    requires IsRun(n, steps) && CallAt(After(n, steps), call, Waited(drained))
    requires After(n, steps).mutex.Free? && After(n, steps).alive == ALL
    ensures IsRun(n, longer) && CallAt(After(n, longer), call, Finished)
    ensures After(n, longer).log == After(n, steps).log + Teardown(drained)
  {
    hide After, IsRun;
    longer := BeginsTeardown(n, steps, call, drained);
    longer := DestroysNext(n, longer, call, 0, drained);
    longer := DestroysNext(n, longer, call, 1, drained);
    longer := DestroysNext(n, longer, call, 2, drained);
    longer := EndsTeardown(n, longer, call, drained);
  }

  /** Wherever a call waits and no worker is running any more, its next look ends the wait as drained, and when nobody
      holds the mutex and the pools are still there the call can go on alone to take everything down, in that order. */
  lemma {:induction false} ShutdownCanFinish(n: nat, steps: seq<Step>, call: nat, waited: nat)
    returns (longer: seq<Step>)
    requires IsRun(n, steps) && CallAt(After(n, steps), call, Waiting(waited)) && After(n, steps).running == 0
    requires After(n, steps).mutex.Free? && After(n, steps).alive == ALL
    ensures IsRun(n, longer) && CallAt(After(n, longer), call, Finished)
    ensures After(n, longer).log == After(n, steps).log + Teardown(true)
  {
    hide After, IsRun;
    longer := Then(n, steps, Look(call));
    longer := TearsDown(n, longer, call, true);
  }
}
