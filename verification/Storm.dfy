/** The restart-storm guard: a sliding window over the times of abnormal exits. */
module Storm {
  import opened Basics

  datatype Policy = Policy(maxFailures: nat, window: nat)

  const MILLISECOND: nat := 1_000_000

  /** `RestartStormPolicy::new`: at least one failure and one millisecond. */
  function NewPolicy(maxFailures: nat, window: nat): (p: Policy)
    ensures p.maxFailures >= 1 && p.window >= MILLISECOND
    ensures (maxFailures >= 1 ==> p.maxFailures == maxFailures) && (window >= MILLISECOND ==> p.window == window)
  {
    Policy(if maxFailures == 0 then 1 else maxFailures, if window < MILLISECOND then MILLISECOND else window)
  }

  predicate Ascending(times: seq<nat>) {
    forall i, j :: 0 <= i < j < |times| ==> times[i] <= times[j]
  }

  /** The times that lie in the closed window ending at `now`. */
  function Recent(times: seq<nat>, now: nat, window: nat): seq<nat> {
    if times == [] then []
    else (if now - times[0] <= window then [times[0]] else []) + Recent(times[1..], now, window)
  }

  /** One abnormal exit at `now`, on the deque alone. */
  function Pushed(deque: seq<nat>, now: nat, window: nat): seq<nat> {
    Expire(deque + [now], now, window)
  }

  function Expire(deque: seq<nat>, now: nat, window: nat): seq<nat> {
    if deque != [] && now - deque[0] > window then Expire(deque[1..], now, window) else deque
  }

  class StormGuard {
    const policy: Policy
    var abnormalExits: seq<nat>

    constructor (policy: Policy)
      ensures this.policy == policy && abnormalExits == []
    {
      this.policy := policy;
      abnormalExits := [];
    }

    /** Push the exit, pop what left the window, and decide. */
    method Record(now: nat) returns (giveUp: bool)
      modifies this
      ensures abnormalExits == Pushed(old(abnormalExits), now, policy.window)
      ensures giveUp <==> |abnormalExits| >= policy.maxFailures
    {
      abnormalExits := abnormalExits + [now];
      while abnormalExits != [] && now - abnormalExits[0] > policy.window
        invariant Expire(abnormalExits, now, policy.window) == Pushed(old(abnormalExits), now, policy.window)
        decreases |abnormalExits|
      {
        abnormalExits := abnormalExits[1..];
      }
      giveUp := |abnormalExits| >= policy.maxFailures;
    }
  }

  // ---- the deque refines the full history

  predicate AtMost(times: seq<nat>, bound: nat) {
    forall i :: 0 <= i < |times| ==> times[i] <= bound
  }

  /** Popping from the front finds everything outside the window, since times ascend. */
  lemma {:induction false} ExpireIsRecent(times: seq<nat>, now: nat, window: nat)
    requires Ascending(times) && AtMost(times, now)
    ensures Expire(times, now, window) == Recent(times, now, window)
  {
    if times != [] {
      if now - times[0] > window {
        ExpireIsRecent(times[1..], now, window);
      } else {
        AllRecent(times, now, window);
      }
    }
  }

  lemma {:induction false} AllRecent(times: seq<nat>, now: nat, window: nat)
    requires forall i :: 0 <= i < |times| ==> now - times[i] <= window
    ensures Recent(times, now, window) == times
  {
    if times != [] {
      AllRecent(times[1..], now, window);
    }
  }

  /** What left an earlier window is outside every later one. */
  lemma {:induction false} RecentTwice(times: seq<nat>, before: nat, now: nat, window: nat)
    requires before <= now
    ensures Recent(Recent(times, before, window) + [now], now, window) == Recent(times + [now], now, window)
  {
    if times != [] {
      assert (times + [now])[1..] == times[1..] + [now];
      RecentTwice(times[1..], before, now, window);
      var rest := Recent(times[1..], before, window) + [now];
      if before - times[0] <= window {
        assert Recent(times, before, window) + [now] == [times[0]] + rest;
        assert ([times[0]] + rest)[1..] == rest;
      } else {
        assert Recent(times, before, window) + [now] == rest;
      }
    }
  }

  lemma {:induction false} RecentStaysOrdered(times: seq<nat>, now: nat, window: nat, low: nat, high: nat)
    requires Ascending(times) && (forall i :: 0 <= i < |times| ==> low <= times[i] <= high)
    ensures Ascending(Recent(times, now, window))
    ensures forall i :: 0 <= i < |Recent(times, now, window)| ==> low <= Recent(times, now, window)[i] <= high
  {
    if times != [] {
      RecentStaysOrdered(times[1..], now, window, times[0], high);
    }
  }

  /** The deque is always the part of the whole history inside the window. */
  lemma DequeRefinesHistory(history: seq<nat>, deque: seq<nat>, before: nat, now: nat, window: nat)
    requires Ascending(history) && AtMost(history, before) && before <= now
    requires deque == Recent(history, before, window)
    ensures Pushed(deque, now, window) == Recent(history + [now], now, window)
    ensures Ascending(history + [now]) && AtMost(history + [now], now)
  {
    RecentStaysOrdered(history, before, window, 0, before);
    ExpireIsRecent(deque + [now], now, window);
    RecentTwice(history, before, now, window);
  }

  // ---- how many exits a run can survive

  /** Every exit so far left fewer than the maximum inside its window: the run continued past each. */
  predicate Survived(history: seq<nat>, p: Policy) {
    forall n :: 0 < n <= |history| ==> |Recent(history[..n], history[n - 1], p.window)| < p.maxFailures
  }

  lemma {:induction false} RecentCoversSuffix(times: seq<nat>, i: nat, now: nat, window: nat)
    requires i <= |times| && (forall j :: i <= j < |times| ==> now - times[j] <= window)
    ensures |Recent(times, now, window)| >= |times| - i
  {
    if i == 0 {
      AllRecent(times, now, window);
    } else {
      RecentCoversSuffix(times[1..], i - 1, now, window);
    }
  }

  lemma Gap(history: seq<nat>, p: Policy, i: nat)
    requires Ascending(history) && Survived(history, p) && p.maxFailures >= 1
    requires i + p.maxFailures - 1 < |history|
    ensures history[i + p.maxFailures - 1] - history[i] > p.window
  {
    var last := i + p.maxFailures - 1;
    var prefix := history[..last + 1];
    assert |Recent(history[..last + 1], history[last], p.window)| < p.maxFailures;
    if history[last] - history[i] <= p.window {
      RecentCoversSuffix(prefix, i, history[last], p.window);
    }
  }

  lemma {:induction false} Gaps(history: seq<nat>, p: Policy, k: nat)
    requires Ascending(history) && Survived(history, p) && p.maxFailures >= 1
    requires k * (p.maxFailures - 1) < |history|
    ensures history[k * (p.maxFailures - 1)] - history[0] >= k * (p.window + 1)
  {
    if k > 0 {
      var m := p.maxFailures - 1;
      assert k * m == (k - 1) * m + m;
      assert k * (p.window + 1) == (k - 1) * (p.window + 1) + p.window + 1;
      Gaps(history, p, k - 1);
      Gap(history, p, (k - 1) * m);
    }
  }

  /** A run that keeps going through a time span survives only so many abnormal exits. */
  lemma SurvivedExitsAreBounded(history: seq<nat>, p: Policy)
    requires history != [] && Ascending(history) && Survived(history, p)
    requires p.maxFailures >= 1 && p.window >= 1
    ensures |history| <= ((history[|history| - 1] - history[0]) / p.window + 1) * (p.maxFailures - 1)
  {
    var span: nat := history[|history| - 1] - history[0];
    var k := span / p.window + 1;
    SpanExceeded(span, p.window);
    if k * (p.maxFailures - 1) < |history| {
      Gaps(history, p, k);
    }
  }

  lemma SpanExceeded(span: nat, window: nat)
    requires window >= 1
    ensures (span / window + 1) * (window + 1) > span
  {
    assert span == span / window * window + span % window;
    assert (span / window + 1) * (window + 1) == span / window * window + span / window + window + 1;
  }
}
