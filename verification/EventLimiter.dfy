/** The sliding-window limiter of MaxEventFreq: at most so many events within the time window. */
module EventLimiter {

  predicate Sorted(times: seq<int>) {
    forall i, j :: 0 <= i <= j < |times| ==> times[i] <= times[j]
  }

  /** How many of the events are not older than `oldest`. */
  function CountFrom(times: seq<int>, oldest: int): (n: nat)
    ensures n <= |times|
  {
    if times == [] then 0
    else CountFrom(times[..|times| - 1], oldest) + (if times[|times| - 1] >= oldest then 1 else 0)
  }

  /** Any two events `max` apart lie more than the window apart: no window holds more than `max` of them. */
  predicate Spaced(times: seq<int>, max: nat, window: nat) {
    forall i :: 0 <= i && i + max < |times| ==> times[i + max] - times[i] > window
  }

  lemma {:induction false} CountOfOld(times: seq<int>, oldest: int)
    requires forall i :: 0 <= i < |times| ==> times[i] < oldest
    ensures CountFrom(times, oldest) == 0
    decreases |times|
  {
    if times != [] {
      CountOfOld(times[..|times| - 1], oldest);
    }
  }

  /** In a sorted history, the events not older than `oldest` are its last ones. */
  lemma {:induction false} CountIsSuffix(times: seq<int>, oldest: int, kept: nat)
    requires kept <= |times|
    requires forall i :: 0 <= i < |times| - kept ==> times[i] < oldest
    requires forall i :: |times| - kept <= i < |times| ==> times[i] >= oldest
    ensures CountFrom(times, oldest) == kept
    decreases |times|
  {
    if kept == 0 {
      CountOfOld(times, oldest);
    } else {
      CountIsSuffix(times[..|times| - 1], oldest, kept - 1);
    }
  }

  /** How many of the events lie between `from` and `to`, both included. */
  function CountIn(times: seq<int>, from: int, to: int): nat {
    if times == [] then 0
    else CountIn(times[..|times| - 1], from, to) + (if from <= times[|times| - 1] <= to then 1 else 0)
  }

  /** How many of them lie in the window that begins at `from`. */
  function InWindow(times: seq<int>, from: int, window: nat): nat {
    CountIn(times, from, from + window)
  }

  lemma {:induction false} CountUpTo(times: seq<int>, from: int, to: int)
    requires forall i :: 0 <= i < |times| ==> times[i] <= to
    ensures CountIn(times, from, to) == CountFrom(times, from)
    decreases |times|
  {
    if times != [] {
      CountUpTo(times[..|times| - 1], from, to);
    }
  }

  /** The events of a spaced history that lie in a window, counted one by one, are at most `max`, wherever the window
      is put. */
  lemma {:induction false} WindowHoldsAtMost(times: seq<int>, max: nat, window: nat, from: int)
    requires Sorted(times) && Spaced(times, max, window)
    ensures InWindow(times, from, window) <= max
    decreases |times|
  {
    if times != [] {
      if times[|times| - 1] > from + window {
        WindowHoldsAtMost(times[..|times| - 1], max, window, from);
      } else {
        CountUpTo(times, from, from + window);
        LatestWindowHoldsAtMost(times, max, window, from + window);
      }
    }
  }

  lemma {:induction false} LatestWindowHoldsAtMost(times: seq<int>, max: nat, window: nat, now: int)
    requires Sorted(times) && Spaced(times, max, window)
    requires forall i :: 0 <= i < |times| ==> times[i] <= now
    ensures CountFrom(times, now - window) <= max
  {
    if |times| > max {
      var split := |times| - max;
      assert times[split - 1 + max] - times[split - 1] > window;
      assert forall i :: 0 <= i < split ==> times[i] <= times[split - 1];
      CountOfPrefixAndRest(times, now - window, split);
      CountOfOld(times[..split], now - window);
    }
  }

  lemma {:induction false} CountOfPrefixAndRest(times: seq<int>, oldest: int, split: nat)
    requires split <= |times|
    ensures CountFrom(times, oldest) == CountFrom(times[..split], oldest) + CountFrom(times[split..], oldest)
    decreases |times|
  {
    if split == |times| {
      assert times[..split] == times;
    } else {
      var init := times[..|times| - 1];
      CountOfPrefixAndRest(init, oldest, split);
      assert init[..split] == times[..split];
      assert times[split..][..|times| - split - 1] == init[split..];
    }
  }

  /** What the limiter knows at `latest`: the retained events are the last accepted ones, in order; those it no
      longer retains have left the window; and the history is spaced. */
  ghost predicate Retains(accepted: seq<int>, retained: seq<int>, latest: int, window: nat, max: nat) {
    && |retained| <= max
    && |retained| <= |accepted|
    && retained == accepted[|accepted| - |retained|..]
    && Sorted(accepted)
    && (forall i :: 0 <= i < |accepted| ==> accepted[i] <= latest)
    && (forall i :: 0 <= i < |accepted| - |retained| ==> accepted[i] < latest - window)
    && Spaced(accepted, max, window)
  }

  /** Dropping what has left the window by `now` retains exactly the events inside it. */
  lemma {:induction false} DropExpired(accepted: seq<int>, retained: seq<int>, latest: int, window: nat, max: nat,
                                       now: int, i: nat)
    requires Retains(accepted, retained, latest, window, max) && (accepted != [] ==> latest <= now)
    requires i <= |retained|
    requires forall k :: 0 <= k < i ==> retained[k] < now - window
    requires i < |retained| ==> retained[i] >= now - window
    ensures Retains(accepted, retained[i..], now, window, max)
    ensures CountFrom(accepted, now - window) == |retained| - i
  {
    var first := |accepted| - |retained|;
    forall k | 0 <= k < first + i
      ensures accepted[k] < now - window
    {
      if first <= k {
        assert accepted[k] == retained[k - first];
      }
    }
    if i < |retained| {
      assert accepted[first + i] == retained[i];
    }
    CountIsSuffix(accepted, now - window, |retained| - i);
  }

  /** With room left, the event of this moment is retained and the history stays spaced. */
  lemma {:induction false} AcceptNow(accepted: seq<int>, retained: seq<int>, window: nat, max: nat, now: int)
    requires Retains(accepted, retained, now, window, max) && |retained| < max
    ensures Retains(accepted + [now], retained + [now], now, window, max)
    ensures CountFrom(accepted + [now], now - window) == CountFrom(accepted, now - window) + 1
  {
    var longer := accepted + [now];
    assert longer[..|longer| - 1] == accepted;
    forall i | 0 <= i && i + max < |longer|
      ensures longer[i + max] - longer[i] > window
    {
      if i + max == |accepted| {
        assert accepted[i] < now - window;
      }
    }
  }

  class MaxEventFreq {
    const window: nat
    const timePoints: array<int>
    var count: nat

    /** Every event accepted so far, those of them that are retained, and the time of the latest check. */
    ghost var accepted: seq<int>
    ghost var retained: seq<int>
    ghost var latest: int

    ghost predicate Shows(times: seq<int>)
      reads this, timePoints
    {
      count == |times| <= timePoints.Length && forall k :: 0 <= k < count ==> timePoints[k] == times[k]
    }

    ghost predicate Valid()
      reads this, timePoints
    {
      Shows(retained) && Retains(accepted, retained, latest, window, timePoints.Length)
    }

    constructor (maxCount: nat, timeWindowInSec: nat)
      ensures Valid() && fresh(timePoints)
      ensures accepted == retained == [] && timePoints.Length == maxCount && window == timeWindowInSec
    {
      window := timeWindowInSec;
      timePoints := new int[maxCount];
      count := 0;
      accepted, retained := [], [];
      latest := 0;
    }

    /** The index of the first retained event that is not older than `oldest`. */
    method FirstInside(oldest: int) returns (i: nat)
      requires Shows(retained)
      ensures i <= |retained|
      ensures forall k :: 0 <= k < i ==> retained[k] < oldest
      ensures i < |retained| ==> retained[i] >= oldest
    {
      i := 0;
      while i < count && timePoints[i] < oldest
        invariant i <= count
        invariant forall k :: 0 <= k < i ==> retained[k] < oldest
      {
        i := i + 1;
      }
    }

    /** Moves the retained events left, over the first `i`, in place. */
    method DropFirst(i: nat)
      requires Shows(retained) && i <= |retained|
      modifies timePoints, this`count, this`retained
      ensures retained == old(retained)[i..] && Shows(retained)
    {
      var j := 0;
      while j + i < count
        invariant 0 <= j <= count - i
        invariant retained == old(retained) && count == |retained| <= timePoints.Length
        invariant forall k :: 0 <= k < j ==> timePoints[k] == retained[i + k]
        invariant forall k :: j <= k < count ==> timePoints[k] == retained[k]
      {
        timePoints[j] := timePoints[i + j];
        j := j + 1;
      }
      count := count - i;
      retained := retained[i..];
    }

    /** Lets go of the events that have left the window. */
    method Expire(now: int)
      requires Valid() && (accepted != [] ==> latest <= now)
      modifies timePoints, this`count, this`latest, this`retained
      ensures Valid() && latest == now
      ensures count == |retained| == CountFrom(accepted, now - window)
    {
      var i := FirstInside(now - window);
      DropExpired(accepted, retained, latest, window, timePoints.Length, now, i);
      DropFirst(i);
      latest := now;
    }

    method Append(now: int)
      requires Valid() && latest == now && |retained| < timePoints.Length
      modifies timePoints, this`count, this`accepted, this`retained
      ensures Valid()
      ensures accepted == old(accepted) + [now] && retained == old(retained) + [now]
      ensures CountFrom(accepted, now - window) == CountFrom(old(accepted), now - window) + 1
    {
      hide Retains, CountFrom;
      AcceptNow(accepted, retained, window, timePoints.Length, now);
      timePoints[count] := now;
      count := count + 1;
      accepted := accepted + [now];
      retained := retained + [now];
    }

    /** Accepts the event of this moment, or refuses it when the window is full: exactly when as many accepted
        events as the array holds lie in [now - window, now].  The array then holds the latest accepted events, in
        order, and no window holds more of them than its size, wherever it is put.  The clock is monotone. */
    method Check(now: int) returns (ok: bool)
      requires Valid() && (accepted != [] ==> latest <= now)
      modifies this, timePoints
      ensures Valid() && latest == now
      ensures ok <==> CountFrom(old(accepted), now - window) < timePoints.Length
      ensures accepted == if ok then old(accepted) + [now] else old(accepted)
      ensures count == CountFrom(accepted, now - window) && count <= timePoints.Length && count <= |accepted|
      ensures timePoints[..count] == accepted[|accepted| - count..]
      ensures forall from :: InWindow(accepted, from, window) <= timePoints.Length
    {
      hide Valid, Retains, CountFrom, InWindow;
      Expire(now);
      ok := count < timePoints.Length;
      if ok {
        Append(now);
      }
      Holds();
    }

    lemma {:induction false} Holds()
      requires Valid()
      ensures count == |retained| && count <= timePoints.Length && count <= |accepted|
      ensures timePoints[..count] == accepted[|accepted| - count..]
      ensures forall from :: InWindow(accepted, from, window) <= timePoints.Length
    {
      hide InWindow;
      forall from
        ensures InWindow(accepted, from, window) <= timePoints.Length
      {
        WindowHoldsAtMost(accepted, timePoints.Length, window, from);
      }
    }
  }
}
