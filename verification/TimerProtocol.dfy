/** The timeout timer of a connection at the granularity of its lock: armTimer, the cancel in handleCompletedRead
    and handleTimer, interleaved in any way, with any number of firings outstanding.  A run is the sequence of the
    steps in the order in which they take the lock, or change itsIdle. */
module TimerProtocol {

  /** itsTimerGeneration is a 64-bit counter that wraps around. */
  const WRAP: nat := 0x1_0000_0000_0000_0000

  datatype Purpose = ReadRequest | KeepAlive

  datatype Step =
    | Arm(purpose: Purpose)  // armTimer
    | Cancel                 // handleCompletedRead
    | GoIdle                 // finishResponse: itsIdle is set, nothing is buffered
    | LeaveIdle              // handleRead: itsIdle.exchange(false)
    | Fire(wait: nat)        // handleTimer, for the wait that step number `wait` of the run started, which ends

  datatype Wait = Wait(stamp: nat, purpose: Purpose)

  datatype Timer = Timer(generation: nat, waits: map<nat, Wait>, idle: bool, timedOut: bool)

  function Bump(generation: nat): nat {
    (generation + 1) % WRAP
  }

  /** The state after the steps of a run. */
  function After(run: seq<Step>): Timer {
    if run == [] then Timer(0, map[], false, false)
    else
      var now := |run| - 1;
      var t := After(run[..now]);
      match run[now]
      case Arm(purpose) =>
        t.(generation := Bump(t.generation), waits := t.waits[now := Wait(Bump(t.generation), purpose)])
      case Cancel => t.(generation := Bump(t.generation))
      case GoIdle => t.(idle := true)
      case LeaveIdle => t.(idle := false)
      case Fire(wait) => t.(waits := t.waits - {wait}, timedOut := t.timedOut || Expires(t, wait))
  }

  /** The wait is outstanding, and goes past the generation test when it ends. */
  predicate Expires(t: Timer, wait: nat) {
    wait in t.waits && t.waits[wait].stamp == t.generation
  }

  /** A firing goes past the generation test, and so closes the socket or writes to it. */
  predicate Acts(run: seq<Step>, at: nat)
    requires at < |run| && run[at].Fire?
  {
    Expires(After(run[..at]), run[at].wait)
  }

  datatype Effect = Ignored | ClosedSilently | Reported408

  function EffectOf(run: seq<Step>, at: nat): Effect
    requires at < |run| && run[at].Fire?
  {
    if !Acts(run, at) then Ignored
    else if After(run[..at]).idle then ClosedSilently else Reported408
  }

  // ---------------------------------------------------------------- stale firings

  predicate Stamps(step: Step) {
    step.Arm? || step.Cancel?
  }

  /** The number of arms and cancels in a stretch of a run. */
  function Bumps(steps: seq<Step>): nat {
    if steps == [] then 0 else Bumps(steps[..|steps| - 1]) + (if Stamps(steps[|steps| - 1]) then 1 else 0)
  }

  lemma {:induction false} BumpsOfParts(steps: seq<Step>, split: nat)
    requires split <= |steps|
    ensures Bumps(steps) == Bumps(steps[..split]) + Bumps(steps[split..])
    decreases |steps|
  {
    if split == |steps| {
      assert steps[..split] == steps;
    } else {
      var init := steps[..|steps| - 1];
      BumpsOfParts(init, split);
      assert init[..split] == steps[..split];
      assert steps[split..][..|steps| - split - 1] == init[split..];
    }
  }

  lemma {:induction false} GenerationCountsBumps(run: seq<Step>)
    ensures After(run).generation == Bumps(run) % WRAP
    decreases |run|
  {
    if run != [] {
      GenerationCountsBumps(run[..|run| - 1]);
    }
  }

  /** The wait that was started by step `armed` has not ended before step `at`. */
  predicate Outstanding(run: seq<Step>, armed: nat, at: nat)
    requires at <= |run|
  {
    forall k :: armed < k < at ==> run[k] != Fire(armed)
  }

  lemma {:induction false} WaitKeepsStamp(run: seq<Step>, armed: nat)
    requires armed < |run| && run[armed].Arm?
    ensures armed in After(run).waits <==> Outstanding(run, armed, |run|)
    ensures armed in After(run).waits ==>
              After(run).waits[armed] == Wait(Bumps(run[..armed + 1]) % WRAP, run[armed].purpose)
    decreases |run|
  {
    if armed == |run| - 1 {
      assert run[..armed + 1] == run;
      GenerationCountsBumps(run);
    } else {
      var init := run[..|run| - 1];
      assert init[..armed + 1] == run[..armed + 1];
      WaitKeepsStamp(init, armed);
    }
  }

  lemma {:induction false} SameResidue(a: nat, b: nat)
    ensures a % WRAP == (a + b) % WRAP <==> b % WRAP == 0
  {
  }

  /** A firing acts exactly when its wait has not ended before and the arms and cancels since its own arming number a
      multiple of 2^64. */
  lemma {:induction false} FiringActsIff(run: seq<Step>, armed: nat, at: nat)
    requires armed < at < |run| && run[armed].Arm? && run[at] == Fire(armed)
    ensures Acts(run, at) <==> Outstanding(run, armed, at) && Bumps(run[armed + 1..at]) % WRAP == 0
  {
    var before := run[..at];
    WaitKeepsStamp(before, armed);
    GenerationCountsBumps(before);
    BumpsOfParts(before, armed + 1);
    assert before[..armed + 1] == run[..armed + 1] && before[armed + 1..] == run[armed + 1..at];
    SameResidue(Bumps(run[..armed + 1]), Bumps(run[armed + 1..at]));
  }

  lemma {:induction false} NoBumps(steps: seq<Step>)
    ensures Bumps(steps) == 0 <==> forall k :: 0 <= k < |steps| ==> !Stamps(steps[k])
    decreases |steps|
  {
    if steps != [] {
      var init := steps[..|steps| - 1];
      NoBumps(init);
      assert forall k :: 0 <= k < |init| ==> init[k] == steps[k];
    }
  }

  /** Short of a wrap-around, a firing acts exactly when its wait has not ended before and nothing armed or cancelled
      the timer after its own arming. */
  lemma {:induction false} StaleFiringsAreIgnored(run: seq<Step>, armed: nat, at: nat)
    requires armed < at < |run| && run[armed].Arm? && run[at] == Fire(armed)
    requires at - armed <= WRAP
    ensures Acts(run, at) <==> Outstanding(run, armed, at) && forall k :: armed < k < at ==> !Stamps(run[k])
  {
    var since := run[armed + 1..at];
    FiringActsIff(run, armed, at);
    BumpsAtMost(since);
    NoBumps(since);
    assert forall k :: armed < k < at ==> run[k] == since[k - armed - 1];
    assert forall k :: 0 <= k < |since| ==> since[k] == run[k + armed + 1];
  }

  lemma {:induction false} BumpsAtMost(steps: seq<Step>)
    ensures Bumps(steps) <= |steps|
    decreases |steps|
  {
    if steps != [] {
      BumpsAtMost(steps[..|steps| - 1]);
    }
  }

  /** From the cancel, when a request goes to its handler, to the next arming no firing writes to the socket or
      closes it, however many are outstanding. */
  lemma {:induction false} SilentWhileHandling(run: seq<Step>, cancelled: nat, armed: nat, at: nat)
    requires cancelled < at < |run| <= WRAP && run[cancelled].Cancel?
    requires forall k :: cancelled < k < at ==> !run[k].Arm?
    requires armed < at && run[armed].Arm? && run[at] == Fire(armed)
    ensures EffectOf(run, at) == Ignored
  {
    StaleFiringsAreIgnored(run, armed, at);
    assert armed < cancelled && Stamps(run[cancelled]);
  }

  // ---------------------------------------------------------------- what an expiry means

  predicate AtomicAt(run: seq<Step>, k: nat)
    requires k < |run|
  {
    match run[k]
    case GoIdle => k + 1 < |run| ==> run[k + 1] == Arm(KeepAlive)
    case LeaveIdle => k + 1 < |run| && !After(run[..k]).timedOut ==> run[k + 1] == Arm(ReadRequest)
    case Arm(KeepAlive) => k > 0 && run[k - 1] == GoIdle && !After(run[..k]).timedOut
    case Arm(ReadRequest) => !After(run[..k]).idle && !After(run[..k]).timedOut
    case _ => true
  }

  /** The handlers seen as atomic: the idle flag changes together with the arming that follows it, and a handler that
      finds that the timer has expired does not arm it. */
  predicate HandlersAtomic(run: seq<Step>) {
    forall k :: 0 <= k < |run| ==> AtomicAt(run, k)
  }

  lemma {:induction false} IdleUnchanged(run: seq<Step>, from: nat, upTo: nat)
    requires from <= upTo <= |run|
    requires forall k :: from <= k < upTo ==> !run[k].GoIdle? && !run[k].LeaveIdle?
    ensures After(run[..upTo]).idle == After(run[..from]).idle
    decreases upTo
  {
    if from < upTo {
      assert run[..upTo][..upTo - 1] == run[..upTo - 1];
      IdleUnchanged(run, from, upTo - 1);
    }
  }

  lemma {:induction false} ArmedBefore(run: seq<Step>, wait: nat)
    ensures wait in After(run).waits ==> wait < |run| && run[wait].Arm?
    decreases |run|
  {
    if run != [] {
      ArmedBefore(run[..|run| - 1], wait);
    }
  }

  lemma {:induction false} FiredWait(run: seq<Step>, at: nat)
    requires at < |run| && run[at].Fire? && Acts(run, at)
    ensures run[at].wait < at && run[run[at].wait].Arm?
  {
    ArmedBefore(run[..at], run[at].wait);
  }

  /** At the granularity of the lock: between two firings that act, the timer was armed. */
  lemma {:induction false} ArmedBetween(run: seq<Step>, first: nat, second: nat)
    requires first < second < |run| <= WRAP && run[first].Fire? && run[second].Fire?
    requires Acts(run, first) && Acts(run, second)
    ensures exists k :: first < k < second && run[k].Arm?
  {
    FiredWait(run, first);
    FiredWait(run, second);
    var a, b := run[first].wait, run[second].wait;
    assert Stamps(run[a]) && Stamps(run[b]) && run[first] == Fire(a) && b != first;
    StaleFiringsAreIgnored(run, a, first);
    StaleFiringsAreIgnored(run, b, second);
  }

  lemma {:induction false} TimedOutStays(run: seq<Step>, from: nat, upTo: nat)
    requires from <= upTo <= |run| && After(run[..from]).timedOut
    ensures After(run[..upTo]).timedOut
    decreases upTo
  {
    if from < upTo {
      assert run[..upTo][..upTo - 1] == run[..upTo - 1];
      TimedOutStays(run, from, upTo - 1);
    }
  }

  lemma {:induction false} ActingTimesOut(run: seq<Step>, at: nat)
    requires at < |run| && run[at].Fire? && Acts(run, at)
    ensures After(run[..at + 1]).timedOut
  {
    assert run[..at + 1][..at] == run[..at];
  }

  /** With the handlers atomic, at most one firing of a run acts: one 408, or one silent end, and no more. */
  lemma {:induction false} OneExpiry(run: seq<Step>, first: nat, second: nat)
    requires HandlersAtomic(run) && |run| <= WRAP
    requires first < |run| && run[first].Fire? && Acts(run, first)
    requires second < |run| && run[second].Fire? && Acts(run, second)
    ensures first == second
  {
    hide Acts;
    if first != second {
      var one, other := if first < second then first else second, if first < second then second else first;
      ArmedBetween(run, one, other);
      var k :| one < k < other && run[k].Arm?;
      assert AtomicAt(run, k);
      ActingTimesOut(run, one);
      TimedOutStays(run, one + 1, k);
    }
  }

  /** With the handlers atomic, an idle connection that expires is dropped without a word, a request that does not
      arrive in time is answered with a 408, and neither happens twice, nor one after the other. */
  lemma {:induction false} ExpiryMeans(run: seq<Step>, armed: nat, at: nat)
    requires HandlersAtomic(run) && |run| <= WRAP
    requires armed < at < |run| && run[armed].Arm? && run[at] == Fire(armed) && Acts(run, at)
    ensures EffectOf(run, at) == if run[armed].purpose == KeepAlive then ClosedSilently else Reported408
    ensures forall other :: 0 <= other < |run| && run[other].Fire? && other != at ==> EffectOf(run, other) == Ignored
  {
    forall other | 0 <= other < |run| && run[other].Fire? && other != at
      ensures !Acts(run, other)
    {
      if Acts(run, other) {
        OneExpiry(run, at, other);
      }
    }
    StaleFiringsAreIgnored(run, armed, at);
    forall k | armed < k < at
      ensures !run[k].GoIdle? && !run[k].LeaveIdle?
    {
      if run[k].GoIdle? || run[k].LeaveIdle? {
        assert AtomicAt(run, k);
        NotYetTimedOut(run, at, k);
        if k + 1 < at {
          assert Stamps(run[k + 1]);
        }
      }
    }
    IdleUnchanged(run, armed + 1, at);
    assert run[..armed + 1][..armed] == run[..armed];
    assert AtomicAt(run, armed);
    if run[armed].purpose == KeepAlive {
      assert run[..armed][..armed - 1] == run[..armed - 1];
      assert run[armed - 1] == GoIdle;
    }
  }

  /** What has timed out did so by a firing that acted. */
  lemma {:induction false} TimedOutBy(run: seq<Step>, upTo: nat)
    requires upTo <= |run| && After(run[..upTo]).timedOut
    ensures exists k :: 0 <= k < upTo && run[k].Fire? && Acts(run, k)
    decreases upTo
  {
    if upTo > 0 {
      assert run[..upTo][..upTo - 1] == run[..upTo - 1];
      if After(run[..upTo - 1]).timedOut {
        TimedOutBy(run, upTo - 1);
      } else {
        assert Acts(run, upTo - 1);
      }
    }
  }

  lemma {:induction false} NotYetTimedOut(run: seq<Step>, at: nat, k: nat)
    requires HandlersAtomic(run) && |run| <= WRAP
    requires k <= at < |run| && run[at].Fire? && Acts(run, at)
    ensures !After(run[..k]).timedOut
  {
    hide HandlersAtomic;
    if After(run[..k]).timedOut {
      TimedOutBy(run, k);
      var earlier :| 0 <= earlier < k && run[earlier].Fire? && Acts(run, earlier);
      OneExpiry(run, earlier, at);
    }
  }

  /** Between its two steps handleRead can be overtaken: the idle timer then expires as if a request had been
      under way, and reports a 408 to a client that has just begun to send one. */
  lemma {:induction false} IdleExpiryCanReport()
    ensures EffectOf([Arm(ReadRequest), GoIdle, Arm(KeepAlive), LeaveIdle, Fire(2)], 4) == Reported408
  {
    var run := [Arm(ReadRequest), GoIdle, Arm(KeepAlive), LeaveIdle, Fire(2)];
    assert run[..4] == [Arm(ReadRequest), GoIdle, Arm(KeepAlive), LeaveIdle];
    assert run[..4][..3] == [Arm(ReadRequest), GoIdle, Arm(KeepAlive)];
    assert run[..4][..3][..2] == [Arm(ReadRequest), GoIdle];
    assert run[..4][..3][..2][..1] == [Arm(ReadRequest)];
    assert run[..4][..3][..2][..1][..0] == [];
  }

  /** The last change of the idle flag, if there was one, was to idle. */
  predicate LastWentIdle(steps: seq<Step>) {
    exists change :: 0 <= change < |steps| && steps[change].GoIdle? &&
                     forall k :: change < k < |steps| ==> !steps[k].LeaveIdle?
  }

  lemma {:induction false} IdleIffLastWent(steps: seq<Step>)
    ensures After(steps).idle <==> LastWentIdle(steps)
    decreases |steps|
  {
    if steps != [] {
      var init, now := steps[..|steps| - 1], steps[|steps| - 1];
      IdleIffLastWent(init);
      if now.GoIdle? {
        assert steps[|steps| - 1].GoIdle?;
      } else if now.LeaveIdle? {
        assert forall change :: 0 <= change < |steps| && steps[change].GoIdle? ==> change < |steps| - 1;
      } else {
        SameLast(init, now);
      }
    }
  }

  lemma {:induction false} SameLast(init: seq<Step>, now: Step)
    requires !now.GoIdle? && !now.LeaveIdle?
    ensures LastWentIdle(init + [now]) <==> LastWentIdle(init)
  {
    var steps := init + [now];
    assert forall k :: 0 <= k < |init| ==> steps[k] == init[k];
    if LastWentIdle(init) {
      var change :| 0 <= change < |init| && init[change].GoIdle? &&
                    forall k :: change < k < |init| ==> !init[k].LeaveIdle?;
      assert steps[change].GoIdle?;
    }
    if LastWentIdle(steps) {
      var change :| 0 <= change < |steps| && steps[change].GoIdle? &&
                    forall k :: change < k < |steps| ==> !steps[k].LeaveIdle?;
      assert init[change].GoIdle?;
    }
  }

  /** At the granularity of the lock, the exact rule: an expiry is silent just when the last change of the idle flag
      before it, if there was any, was to idle. */
  lemma {:induction false} SilentIffLastWentIdle(run: seq<Step>, at: nat)
    requires at < |run| && run[at].Fire? && Acts(run, at)
    ensures EffectOf(run, at) == ClosedSilently <==> LastWentIdle(run[..at])
    ensures EffectOf(run, at) == Reported408 <==> !LastWentIdle(run[..at])
  {
    IdleIffLastWent(run[..at]);
  }
}
