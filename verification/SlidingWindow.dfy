/** One key of the sliding-window limiter of `rate_limit_middleware.py`: a deque of charge times that is
    pruned on every check, against counting over the whole history of charges. */
module SlidingWindow {
  import opened Sequences

  /** `while requests and requests[0] <= cutoff: popleft()`. */
  function Prune(queue: seq<real>, cutoff: real): seq<real> {
    if queue != [] && queue[0] <= cutoff then Prune(queue[1..], cutoff) else queue
  }

  /** Pruning takes the expired charges off the front. */
  lemma {:induction false} PruneDrops(queue: seq<real>, cutoff: real)
    ensures |Prune(queue, cutoff)| <= |queue|
    ensures var n := |queue| - |Prune(queue, cutoff)|;
      queue == queue[..n] + Prune(queue, cutoff) && forall i | 0 <= i < n :: queue[i] <= cutoff
    ensures Prune(queue, cutoff) != [] ==> Prune(queue, cutoff)[0] > cutoff
  {
    if queue != [] && queue[0] <= cutoff {
      PruneDrops(queue[1..], cutoff);
      var n := |queue| - |Prune(queue, cutoff)|;
      assert queue[..n] == [queue[0]] + queue[1..][..n - 1];
    }
  }

  /** Charges in the half-open interval (from, to]. */
  function Within(from: real, to: real): real -> bool {
    c => from < c <= to
  }

  function Count(charges: seq<real>, from: real, to: real): nat {
    |Filter(Within(from, to), charges)|
  }

  predicate Sorted(s: seq<real>) {
    forall i, j | 0 <= i <= j < |s| :: s[i] <= s[j]
  }

  /** Charges at least `max` places apart are at least a window apart. */
  predicate Spaced(charges: seq<real>, window: real, max: nat) {
    forall i, j | 0 <= i && i + max <= j < |charges| :: charges[i] <= charges[j] - window
  }

  /** The deque of a key with the whole history of its charges. */
  datatype Ledger = Ledger(queue: seq<real>, charges: seq<real>) {
    function Dropped(): int { |charges| - |queue| }

    /** The deque lacks only charges that left the window by the latest check. */
    predicate Good(window: real, max: nat, latest: real) {
      && 0 <= Dropped() && charges == charges[..Dropped()] + queue
      && (forall i | 0 <= i < Dropped() :: charges[i] <= latest - window)
      && Sorted(charges) && (forall i | 0 <= i < |charges| :: charges[i] <= latest)
      && Spaced(charges, window, max)
    }
  }

  /** The check of one key: prune, then charge if there is room. */
  function Check(queue: seq<real>, max: int, cutoff: real, now: real): (seq<real>, bool) {
    var pruned := Prune(queue, cutoff);
    if |pruned| >= max then (pruned, false) else (pruned + [now], true)
  }

  function CheckLedger(l: Ledger, max: int, window: real, now: real): Ledger {
    var (queue, admitted) := Check(l.queue, max, now - window, now);
    Ledger(queue, if admitted then l.charges + [now] else l.charges)
  }

  /** Time passing keeps a ledger good. */
  lemma GoodLater(l: Ledger, window: real, max: nat, latest: real, later: real)
    requires l.Good(window, max, latest) && latest <= later
    ensures l.Good(window, max, later)
  {
  }

  /** Two successive cuts off the front of a sorted sequence, up to a bound. */
  lemma TwoCuts(s: seq<real>, a: seq<real>, rest: seq<real>, b: seq<real>, last: seq<real>, bound: real)
    requires s == a + rest && rest == b + last && Sorted(s) && (last != [] ==> last[0] > bound)
    requires (forall i | 0 <= i < |a| :: a[i] <= bound) && forall i | 0 <= i < |b| :: b[i] <= bound
    ensures var k := |s| - |last|;
      s == s[..k] + last && (forall i | 0 <= i < k :: s[i] <= bound) && forall i | 0 <= i < |last| :: last[i] > bound
  {
    var k := |s| - |last|;
    assert s == (a + b) + last && s[..k] == a + b;
    assert forall i | 0 <= i < |last| :: last[i] == s[k + i];
    if last != [] {
      assert s[k] == last[0];
    }
  }

  /** Pruning the deque leaves the charges of the history later than the cutoff. */
  lemma PruneExact(l: Ledger, window: real, max: nat, now: real)
    requires l.Good(window, max, now)
    ensures var pruned := Prune(l.queue, now - window);
      var k := |l.charges| - |pruned|;
      && 0 <= k && l.charges == l.charges[..k] + pruned
      && (forall i | 0 <= i < k :: l.charges[i] <= now - window)
      && (forall i | 0 <= i < |pruned| :: pruned[i] > now - window)
  {
    PruneDrops(l.queue, now - window);
    var pruned := Prune(l.queue, now - window);
    TwoCuts(l.charges, l.charges[..l.Dropped()], l.queue, l.queue[..|l.queue| - |pruned|], pruned, now - window);
  }

  /** In a sorted history the charges of an interval are a slice. */
  lemma CountSlice(charges: seq<real>, from: real, to: real, i: nat, j: nat)
    requires i <= j <= |charges|
    requires (forall k | 0 <= k < i :: charges[k] <= from) && (forall k | i <= k < j :: from < charges[k] <= to)
    requires forall k | j <= k < |charges| :: charges[k] > to
    ensures Filter(Within(from, to), charges) == charges[i..j]
  {
    FilterSlice(Within(from, to), charges, i, j);
  }

  /** The first index of a sorted history beyond a bound. */
  lemma Split(charges: seq<real>, bound: real) returns (k: nat)
    requires Sorted(charges)
    ensures k <= |charges| && (forall i | 0 <= i < k :: charges[i] <= bound)
    ensures forall i | k <= i < |charges| :: charges[i] > bound
  {
    k := 0;
    while k < |charges| && charges[k] <= bound
      invariant k <= |charges| && forall i | 0 <= i < k :: charges[i] <= bound
    {
      k := k + 1;
    }
  }

  /** A spaced history never has more than `max` charges in a window, whatever its end. */
  lemma WindowBound(charges: seq<real>, window: real, max: nat, t: real)
    requires Sorted(charges) && Spaced(charges, window, max)
    ensures Count(charges, t - window, t) <= max
  {
    var i := Split(charges, t - window);
    var j := Split(charges, t);
    if i <= j {
      CountSlice(charges, t - window, t, i, j);
      if max < j {
        assert charges[j - 1 - max] <= charges[j - 1] - window;
      }
    } else {
      FilterNone(Within(t - window, t), charges);
    }
  }

  /** The pruned deque is the part of the history inside the window. */
  lemma PrunedIsRecent(l: Ledger, max: nat, window: real, now: real)
    requires l.Good(window, max, now)
    ensures Prune(l.queue, now - window) == Filter(Within(now - window, now), l.charges)
  {
    var pruned := Prune(l.queue, now - window);
    PruneExact(l, window, max, now);
    var k := |l.charges| - |pruned|;
    forall i | 0 <= i < |pruned| ensures pruned[i] <= now {
      assert pruned[i] == l.charges[k + i];
    }
    FilterLater(Within(now - window, now), l.charges[..k], pruned);
  }

  /** A deque that holds what the window counts gives the verdict of counting. */
  lemma VerdictOfCount(queue: seq<real>, charges: seq<real>, max: nat, from: real, now: real)
    requires Prune(queue, from) == Filter(Within(from, now), charges)
    ensures Check(queue, max, from, now).1 <==> Count(charges, from, now) < max
  {
  }

  /** The verdict of a check is what counting over the whole history says. */
  lemma CheckCounts(l: Ledger, max: nat, window: real, now: real)
    requires l.Good(window, max, now)
    ensures Check(l.queue, max, now - window, now).1 <==> Count(l.charges, now - window, now) < max
  {
    PrunedIsRecent(l, max, window, now);
    VerdictOfCount(l.queue, l.charges, max, now - window, now);
  }

  /** A charge as late as any, a window after the one `max` places back, keeps the history spaced. */
  lemma AppendSpaced(charges: seq<real>, max: nat, window: real, now: real)
    requires max > 0 && Sorted(charges) && Spaced(charges, window, max)
    requires |charges| >= max ==> charges[|charges| - max] <= now - window
    ensures Spaced(charges + [now], window, max)
  {
    var longer := charges + [now];
    forall i, j | 0 <= i && i + max <= j < |longer| ensures longer[i] <= longer[j] - window {
      if j == |charges| {
        assert charges[i] <= charges[|charges| - max];
      }
    }
  }

  /** Refusing keeps the ledger good. */
  lemma RefuseGood(l: Ledger, max: nat, window: real, now: real)
    requires l.Good(window, max, now)
    ensures Ledger(Prune(l.queue, now - window), l.charges).Good(window, max, now)
  {
    PruneExact(l, window, max, now);
  }

  lemma AppendSorted(charges: seq<real>, now: real)
    requires Sorted(charges) && forall i | 0 <= i < |charges| :: charges[i] <= now
    ensures Sorted(charges + [now]) && forall i | 0 <= i < |charges + [now]| :: (charges + [now])[i] <= now
  {
  }

  lemma AppendGood(queue: seq<real>, charges: seq<real>, max: nat, window: real, now: real)
    requires max > 0 && Ledger(queue, charges).Good(window, max, now) && |queue| < max
    ensures Ledger(queue + [now], charges + [now]).Good(window, max, now)
  {
    AppendSpaced(charges, max, window, now);
    AppendSorted(charges, now);
    assert (charges + [now])[..|charges| - |queue|] == charges[..|charges| - |queue|];
  }

  /** Charging with room left keeps the ledger good. */
  lemma ChargeGood(l: Ledger, max: nat, window: real, now: real)
    requires max > 0 && l.Good(window, max, now) && |Prune(l.queue, now - window)| < max
    ensures Ledger(Prune(l.queue, now - window) + [now], l.charges + [now]).Good(window, max, now)
  {
    RefuseGood(l, max, window, now);
    AppendGood(Prune(l.queue, now - window), l.charges, max, window, now);
  }

  /** After a check at a later time the ledger is good again. */
  lemma CheckGood(l: Ledger, max: nat, window: real, now: real)
    requires max > 0 && l.Good(window, max, now)
    ensures CheckLedger(l, max, window, now).Good(window, max, now)
  {
    if |Prune(l.queue, now - window)| < max {
      ChargeGood(l, max, window, now);
    } else {
      RefuseGood(l, max, window, now);
    }
  }

  /** The ways one request may leave the ledger of one key. */
  predicate Moved(l: Ledger, after: Ledger, window: real, max: int, now: real) {
    var pruned := Prune(l.queue, now - window);
    || after == l
    || after == Ledger(pruned, l.charges)
    || (after == Ledger(pruned + [now], l.charges + [now]) && |pruned| < max)
  }

  lemma MovedGood(l: Ledger, after: Ledger, window: real, max: nat, now: real)
    requires max > 0 && l.Good(window, max, now) && Moved(l, after, window, max, now)
    ensures after.Good(window, max, now)
  {
    if after.charges == l.charges {
      RefuseGood(l, max, window, now);
    } else {
      ChargeGood(l, max, window, now);
    }
  }

  lemma NowIsRecent(charges: seq<real>, from: real, now: real)
    requires from < now
    ensures Filter(Within(from, now), charges + [now]) == Filter(Within(from, now), charges) + [now]
  {
    FilterAppend(Within(from, now), charges, [now]);
    FilterAll(Within(from, now), [now]);
  }

  /** After every check the deque is exactly the charges of the history later than `now - window`. */
  lemma QueueExact(l: Ledger, max: nat, window: real, now: real)
    requires l.Good(window, max, now) && window > 0.0
    ensures var after := CheckLedger(l, max, window, now);
      after.queue == Filter(Within(now - window, now), after.charges)
  {
    PrunedIsRecent(l, max, window, now);
    NowIsRecent(l.charges, now - window, now);
  }

  // ---- Runs of one key ----

  function RunKey(times: seq<real>, max: int, window: real): Ledger {
    if times == [] then Ledger([], [])
    else CheckLedger(RunKey(times[..|times| - 1], max, window), max, window, times[|times| - 1])
  }

  /** The verdict on the last of the calls. */
  predicate LastAdmitted(times: seq<real>, max: int, window: real)
    requires times != []
  {
    var last := times[|times| - 1];
    Check(RunKey(times[..|times| - 1], max, window).queue, max, last - window, last).1
  }

  lemma {:induction false} RunGood(times: seq<real>, max: nat, window: real)
    requires max > 0 && Sorted(times) && times != []
    ensures RunKey(times, max, window).Good(window, max, times[|times| - 1])
    ensures forall c | c in RunKey(times, max, window).charges :: c in times
  {
    var init, last := times[..|times| - 1], times[|times| - 1];
    if init == [] {
      assert RunKey(init, max, window) == Ledger([], []);
      CheckGood(Ledger([], []), max, window, last);
    } else {
      RunGood(init, max, window);
      GoodLater(RunKey(init, max, window), window, max, init[|init| - 1], last);
      CheckGood(RunKey(init, max, window), max, window, last);
    }
    assert last in times;
  }

  /** Consecutive calls at least `gap` apart. */
  predicate Apart(times: seq<real>, gap: real) {
    forall i, j | 0 <= i < |times| && 0 <= j < |times| && j == i + 1 :: times[j] - times[i] >= gap
  }

  lemma {:induction false} ApartSum(times: seq<real>, gap: real, i: nat, k: nat)
    requires Apart(times, gap) && k <= i < |times|
    ensures times[i] - times[i - k] >= k as real * gap
    decreases k
  {
    if k > 0 {
      ApartSum(times, gap, i - 1, k - 1);
      assert (k - 1) as real * gap + gap == k as real * gap;
    }
  }

  lemma ApartSorted(times: seq<real>, gap: real)
    requires Apart(times, gap) && gap >= 0.0
    ensures Sorted(times)
  {
    forall i, j | 0 <= i <= j < |times| ensures times[i] <= times[j] {
      ApartSum(times, gap, j, j - i);
      assert (j - i) as real * gap >= 0.0;
    }
  }

  /** A caller that keeps `max * gap >= window` is never refused: every call is charged. */
  lemma {:induction false} NeverRefused(times: seq<real>, max: nat, window: real, gap: real)
    requires max > 0 && gap >= 0.0 && Apart(times, gap) && max as real * gap >= window
    ensures RunKey(times, max, window).charges == times
    ensures times != [] ==> LastAdmitted(times, max, window)
    decreases |times|
  {
    if times != [] {
      NeverRefused(times[..|times| - 1], max, window, gap);
      RoomForLast(times, max, window, gap);
      LastCharged(times, max, window);
    }
  }

  predicate HasRoom(queue: seq<real>, max: nat, cutoff: real) {
    |Prune(queue, cutoff)| < max
  }

  lemma RoomForLast(times: seq<real>, max: nat, window: real, gap: real)
    requires max > 0 && times != [] && gap >= 0.0 && Apart(times, gap) && max as real * gap >= window
    requires RunKey(times[..|times| - 1], max, window).charges == times[..|times| - 1]
    ensures HasRoom(RunKey(times[..|times| - 1], max, window).queue, max, times[|times| - 1] - window)
  {
    var init := times[..|times| - 1];
    if init != [] {
      ApartSorted(init, gap);
      RunGood(init, max, window);
      RoomLeft(RunKey(init, max, window), times, max, window, gap);
    }
  }

  /** A last call that finds room is charged. */
  lemma LastCharged(times: seq<real>, max: nat, window: real)
    requires times != [] && RunKey(times[..|times| - 1], max, window).charges == times[..|times| - 1]
    requires HasRoom(RunKey(times[..|times| - 1], max, window).queue, max, times[|times| - 1] - window)
    ensures RunKey(times, max, window).charges == times && LastAdmitted(times, max, window)
  {
    assert times == times[..|times| - 1] + [times[|times| - 1]];
  }

  /** Room for the last of calls far enough apart. */
  lemma RoomLeft(l: Ledger, times: seq<real>, max: nat, window: real, gap: real)
    requires max > 0 && |times| > 1 && Apart(times, gap) && gap >= 0.0 && max as real * gap >= window
    requires l.charges == times[..|times| - 1] && l.Good(window, max, times[|times| - 2])
    ensures HasRoom(l.queue, max, times[|times| - 1] - window)
  {
    var last := times[|times| - 1];
    ApartSum(times, gap, |times| - 1, 1);
    GoodLater(l, window, max, times[|times| - 2], last);
    if |l.charges| >= max {
      ApartSum(times, gap, |times| - 1, max);
    }
    OldDropped(l, max, window, last);
  }

  /** If the charge `max` places back has left the window, there is room. */
  lemma OldDropped(l: Ledger, max: nat, window: real, now: real)
    requires max > 0 && l.Good(window, max, now)
    requires |l.charges| >= max ==> l.charges[|l.charges| - max] <= now - window
    ensures |Prune(l.queue, now - window)| < max
  {
    PruneExact(l, window, max, now);
  }

  /** A key that was last called a whole window ago is admitted. */
  lemma IdleAdmitted(times: seq<real>, max: nat, window: real, now: real)
    requires max > 0 && Sorted(times) && (times != [] ==> times[|times| - 1] <= now - window) && window >= 0.0
    ensures LastAdmitted(times + [now], max, window)
  {
    assert (times + [now])[..|times|] == times;
    if times != [] {
      RunGood(times, max, window);
      var l := RunKey(times, max, window);
      if |l.charges| >= max {
        assert l.charges[|l.charges| - max] <= times[|times| - 1];
      }
      GoodLater(l, window, max, times[|times| - 1], now);
      OldDropped(l, max, window, now);
    }
  }
}
