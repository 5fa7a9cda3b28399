/** The cap on open connections: handleAccept and registerConnection interleaved with connections that are
    destroyed on other threads.  The steps are those that touch the shared counter. */
module ConnectionCap {

  type Id = nat

  /** Where an accepted connection is on its way through handleAccept. */
  datatype Accepting = Entered | Admitted | Refused

  datatype State = State(
    count: int,                      // *itsConnectionCount
    counted: set<Id>,                // connections with itsCounted set that still exist
    accepts: nat,                    // async_accept operations outstanding
    handlers: map<Id, Accepting>,    // handleAccept calls under way, by the connection they are about
    reported: bool,                  // itsConnectionLimitReported
    log: nat                         // lines "connection limit reached" written
  )

  datatype Step =
    | StartAccept        // the constructor's startAccept
    | Accept(id: Id)     // a connection arrives: handleAccept begins
    | Fail               // an accept fails: handleAccept only goes back to listening
    | Check(id: Id)      // the test of the counter against the limit, with its report
    | Start(id: Id)      // start(): registerConnection counts the connection; then startAccept
    | Reject(id: Id)     // rejectConnection(); then startAccept
    | Destroy(id: Id)    // ~Connection of a counted connection
    | Stop(id: Id)       // handleAccept leaves because a shutdown was requested
    | StopListening      // startAccept does not listen again, for the same reason

  function Initial(): State {
    State(0, {}, 0, map[], false, 0)
  }

  predicate Enabled(s: State, step: Step) {
    match step
    case StartAccept => s.accepts == 0 && s.handlers == map[]
    case Accept(id) => s.accepts > 0 && id !in s.counted && id !in s.handlers
    case Fail => s.accepts > 0
    case Check(id) => id in s.handlers && s.handlers[id] == Entered
    case Start(id) => id in s.handlers && s.handlers[id] == Admitted
    case Reject(id) => id in s.handlers && s.handlers[id] == Refused
    case Destroy(id) => id in s.counted
    case Stop(id) => id in s.handlers && s.handlers[id] == Entered
    case StopListening => s.accepts > 0
  }

  /** One step under the limit `max`; 0 means no limit. */
  function Next(max: nat, s: State, step: Step): State
    requires Enabled(s, step)
  {
    match step
    case StartAccept => s.(accepts := s.accepts + 1)
    case Accept(id) => s.(accepts := s.accepts - 1, handlers := s.handlers[id := Entered])
    case Fail => s
    case Check(id) =>
      if max > 0 && s.count >= max then
        s.(handlers := s.handlers[id := Refused], reported := true, log := if s.reported then s.log else s.log + 1)
      else
        s.(handlers := s.handlers[id := Admitted], reported := false)
    case Start(id) =>
      s.(count := s.count + 1, counted := s.counted + {id}, handlers := s.handlers - {id}, accepts := s.accepts + 1)
    case Reject(id) => s.(handlers := s.handlers - {id}, accepts := s.accepts + 1)
    case Destroy(id) => s.(count := s.count - 1, counted := s.counted - {id})
    case Stop(id) => s.(handlers := s.handlers - {id})
    case StopListening => s.(accepts := s.accepts - 1)
  }

  /** A run: every step is enabled in the state the earlier ones lead to. */
  predicate IsRun(max: nat, steps: seq<Step>)
    decreases |steps|, 0
  {
    steps == [] || (IsRun(max, steps[..|steps| - 1]) &&
                    Enabled(After(max, steps[..|steps| - 1]), steps[|steps| - 1]))
  }

  function After(max: nat, steps: seq<Step>): State
    requires IsRun(max, steps)
    decreases |steps|, 1
  {
    if steps == [] then Initial() else Next(max, After(max, steps[..|steps| - 1]), steps[|steps| - 1])
  }

  // ---------------------------------------------------------------- invariant

  /** The accepts take turns: there is one outstanding, or one being handled, or none at all. */
  predicate OneAtATime(s: State) {
    |s.handlers.Keys| + s.accepts <= 1
  }

  predicate Safe(max: nat, s: State) {
    && OneAtATime(s)
    && s.count == |s.counted|
    && s.counted !! s.handlers.Keys
    && (max > 0 ==> s.count <= max)
    && (max > 0 ==> forall id :: id in s.handlers && s.handlers[id] == Admitted ==> s.count < max)
  }

  lemma {:induction false} OnlyHandler(s: State, a: Id, b: Id)
    requires OneAtATime(s) && a in s.handlers && b in s.handlers
    ensures a == b
  {
    if a != b {
      assert {a, b} <= s.handlers.Keys;
      SubsetSize({a, b}, s.handlers.Keys);
    }
  }

  lemma {:induction false} SubsetSize(a: set<Id>, b: set<Id>)
    requires a <= b
    ensures |a| <= |b|
  {
    assert b == a + (b - a);
  }

  lemma {:induction false} HandlerRemoved(s: State, id: Id)
    requires id in s.handlers
    ensures |(s.handlers - {id}).Keys| == |s.handlers.Keys| - 1
  {
    assert (s.handlers - {id}).Keys == s.handlers.Keys - {id};
  }

  lemma {:induction false} NextKeepsTurns(max: nat, s: State, step: Step)
    requires OneAtATime(s) && Enabled(s, step)
    ensures OneAtATime(Next(max, s, step))
  {
    match step
    case Accept(id) => assert Next(max, s, step).handlers.Keys == s.handlers.Keys + {id};
    case Check(id) => assert Next(max, s, step).handlers.Keys == s.handlers.Keys;
    case Start(id) => HandlerRemoved(s, id);
    case Reject(id) => HandlerRemoved(s, id);
    case Stop(id) => HandlerRemoved(s, id);
    case _ =>
  }

  lemma {:induction false} NextKeepsSafe(max: nat, s: State, step: Step)
    requires Safe(max, s) && Enabled(s, step)
    ensures Safe(max, Next(max, s, step))
  {
    NextKeepsTurns(max, s, step);
    var t := Next(max, s, step);
    forall id | id in t.handlers && t.handlers[id] == Admitted && max > 0
      ensures t.count < max
    {
      match step
      case Start(other) => OnlyHandler(s, id, other);
      case _ =>
    }
  }

  /** In every run, whatever is destroyed between the check and the increment: the counter is the number of live
      counted connections, so it never underflows, and it never exceeds a limit that is set. */
  lemma {:induction false} CapHolds(max: nat, steps: seq<Step>)
    requires IsRun(max, steps)
    ensures Safe(max, After(max, steps))
    decreases |steps|
  {
    if steps != [] {
      var before := steps[..|steps| - 1];
      CapHolds(max, before);
      NextKeepsSafe(max, After(max, before), steps[|steps| - 1]);
    }
  }

  /** A decrement never takes the unsigned counter below zero. */
  lemma {:induction false} NoUnderflow(max: nat, steps: seq<Step>, id: Id)
    requires IsRun(max, steps) && Enabled(After(max, steps), Destroy(id))
    ensures After(max, steps).count >= 1
  {
    CapHolds(max, steps);
    SubsetSize({id}, After(max, steps).counted);
  }

  /** A connection is refused only when the server was full at the moment of the check. */
  lemma {:induction false} RefusedOnlyWhenFull(max: nat, steps: seq<Step>, id: Id)
    requires IsRun(max, steps) && Enabled(After(max, steps), Check(id))
    ensures Next(max, After(max, steps), Check(id)).handlers[id] == Refused <==>
            max > 0 && |After(max, steps).counted| == max
  {
    CapHolds(max, steps);
  }

  // ---------------------------------------------------------------- one log line an episode

  predicate Admits(max: nat, steps: seq<Step>, k: nat)
    requires IsRun(max, steps) && k < |steps|
  {
    steps[k].Check? && (PrefixIsRun(max, steps, k + 1); After(max, steps[..k + 1]).handlers[steps[k].id] == Admitted)
  }

  predicate Logs(max: nat, steps: seq<Step>, k: nat)
    requires IsRun(max, steps) && k < |steps|
  {
    PrefixIsRun(max, steps, k);
    PrefixIsRun(max, steps, k + 1);
    After(max, steps[..k + 1]).log > After(max, steps[..k]).log
  }

  lemma {:induction false} PrefixIsRun(max: nat, steps: seq<Step>, k: nat)
    requires IsRun(max, steps) && k <= |steps|
    ensures IsRun(max, steps[..k])
    decreases |steps|
  {
    if k < |steps| {
      var before := steps[..|steps| - 1];
      assert before[..k] == steps[..k];
      PrefixIsRun(max, before, k);
    } else {
      assert steps[..k] == steps;
    }
  }

  lemma {:induction false} StepAt(max: nat, steps: seq<Step>, k: nat)
    requires IsRun(max, steps) && k < |steps|
    ensures IsRun(max, steps[..k]) && IsRun(max, steps[..k + 1]) && Enabled(After(max, steps[..k]), steps[k])
    ensures After(max, steps[..k + 1]) == Next(max, After(max, steps[..k]), steps[k])
  {
    PrefixIsRun(max, steps, k);
    PrefixIsRun(max, steps, k + 1);
    assert steps[..k + 1][..k] == steps[..k];
  }

  lemma {:induction false} ReportedStays(max: nat, steps: seq<Step>, first: nat, k: nat)
    requires IsRun(max, steps) && first < k <= |steps| && Logs(max, steps, first)
    requires forall j :: first < j < k ==> !Admits(max, steps, j)
    ensures IsRun(max, steps[..k]) && After(max, steps[..k]).reported
    decreases k
  {
    StepAt(max, steps, k - 1);
    if first < k - 1 {
      ReportedStays(max, steps, first, k - 1);
      assert !Admits(max, steps, k - 1);
    }
  }

  /** Two log lines about the limit are always separated by an admitted connection: one line an episode. */
  lemma {:induction false} OneLineAnEpisode(max: nat, steps: seq<Step>, first: nat, second: nat)
    requires IsRun(max, steps) && first < second < |steps|
    requires Logs(max, steps, first) && Logs(max, steps, second)
    ensures exists k :: first < k < second && Admits(max, steps, k)
  {
    if forall k :: first < k < second ==> !Admits(max, steps, k) {
      ReportedStays(max, steps, first, second);
      StepAt(max, steps, second);
      assert false;
    }
  }
}
