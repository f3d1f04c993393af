/** The restart budget, the storm guard, and what cancellation still lets happen. */
module SupervisorLimits {
  import opened Basics
  import opened Supervisor
  import B = Backoff
  import Storm

  // ---- the budget

  /** The consecutive attempts a log leaves behind. */
  function Attempt(log: seq<Event>): nat {
    if log == [] then 0
    else
      var before := Attempt(log[..|log| - 1]);
      match log[|log| - 1]
      case Ready(_) => 0
      case Restarting(_, _) => before + 1
      case _ => before
  }

  /** One of the delays that the backoff can choose. */
  ghost predicate Chosen(b: B.Backoff, attempt: nat, delay: Option<nat>) {
    exists entropy: nat :: delay == B.DelayFor(b, attempt, entropy)
  }

  ghost predicate Allowed(c: Config, attempt: nat, e: Event) {
    e.Restarting? ==>
      c.policy.OnFailure? && e.attempt == attempt + 1 <= c.policy.maxRestarts && Chosen(c.backoff, attempt, e.delay)
  }

  /** Restarts are numbered from one after every `Ready`, within the budget, with delays to match. */
  ghost predicate Numbered(c: Config, log: seq<Event>) {
    forall i :: 0 <= i < |log| ==> Allowed(c, Attempt(log[..i]), log[i])
  }

  ghost predicate AttemptOk(c: Config, s: State) {
    && Numbered(c, s.world.log)
    && (s.loop.place.EmitReady? ==> s.loop.attempt == 0)
    && (!s.loop.place.EmitReady? && !s.loop.place.Returned? ==> s.loop.attempt == Attempt(s.world.log))
  }

  lemma AttemptSnoc(c: Config, log: seq<Event>, e: Event)
    requires Numbered(c, log) && Allowed(c, Attempt(log), e)
    ensures Numbered(c, log + [e])
    ensures Attempt(log + [e]) == if e.Ready? then 0 else if e.Restarting? then Attempt(log) + 1 else Attempt(log)
  {
    var longer := log + [e];
    assert longer[..|log|] == log;
    forall i | 0 <= i < |longer| ensures Allowed(c, Attempt(longer[..i]), longer[i]) {
      assert i < |log| ==> longer[..i] == log[..i];
    }
  }

  /** An event that says nothing about attempts. */
  lemma AttemptEmits(c: Config, s: State, t: State, e: Event)
    requires AttemptOk(c, s) && !s.loop.place.EmitReady? && !s.loop.place.Returned?
    requires !e.Ready? && !e.Restarting? && t.world.log == s.world.log + [e]
    requires t.loop.attempt == s.loop.attempt || t.loop.place.Returned?
    requires !t.loop.place.EmitReady?
    ensures AttemptOk(c, t)
  {
    AttemptSnoc(c, s.world.log, e);
  }

  lemma AttemptFrame(c: Config, s: State, t: State)
    requires AttemptOk(c, s) && t.world.log == s.world.log
    requires t.loop.place.Returned? || t.loop.attempt == s.loop.attempt
    requires !t.loop.place.Returned? ==>
               !s.loop.place.Returned? && (s.loop.place.EmitReady? <==> t.loop.place.EmitReady?)
    ensures AttemptOk(c, t)
  {
  }

  lemma AttemptAnnounced(c: Config, s: State, t: State, delay: Option<nat>)
    requires AttemptOk(c, s) && s.loop.place.Budget? && Allowed(c, s.loop.attempt, Restarting(t.loop.attempt, delay))
    requires t.world.log == s.world.log + [Restarting(t.loop.attempt, delay)] && t.loop.place.Sleeping?
    ensures AttemptOk(c, t)
  {
    AttemptSnoc(c, s.world.log, Restarting(t.loop.attempt, delay));
  }

  lemma AttemptBudget(c: Config, s: State, delay: Option<nat>)
    requires AttemptOk(c, s) && s.loop.place.Budget? && Chosen(c.backoff, s.loop.attempt, delay)
    ensures AttemptOk(c, AtBudget(c, s, delay))
  {
    var t := AtBudget(c, s, delay);
    if c.policy.Never? {
      AttemptFrame(c, s, t);
    } else if s.loop.attempt + 1 > c.policy.maxRestarts {
      AttemptEmits(c, s, t, GaveUp);
    } else {
      AttemptAnnounced(c, s, t, delay);
    }
  }

  lemma AttemptReady(c: Config, s: State)
    requires AttemptOk(c, s) && s.loop.place.EmitReady?
    ensures AttemptOk(c, Goto(Emit(s, Ready(s.loop.child)), Watching))
  {
    AttemptSnoc(c, s.world.log, Ready(s.loop.child));
  }

  lemma AttemptTop(c: Config, s: State)
    requires AttemptOk(c, s) && s.loop.place.Top?
    ensures AttemptOk(c, AtTop(s))
  {
    if !s.loop.hasRx && s.shared.token {
      AttemptEmits(c, s, AtTop(s), Stopped);
    } else {
      AttemptFrame(c, s, AtTop(s));
    }
  }

  lemma AttemptAfterExit(c: Config, s: State)
    requires AttemptOk(c, s) && s.loop.place.AfterExit?
    ensures AttemptOk(c, AtAfterExit(c, s))
  {
    if s.loop.cancelled || s.shared.token {
      AttemptEmits(c, s, AtAfterExit(c, s), Stopped);
    } else {
      AttemptFrame(c, s, AtAfterExit(c, s));
    }
  }

  lemma AttemptStorm(c: Config, s: State)
    requires AttemptOk(c, s) && s.loop.place.StormCheck?
    ensures AttemptOk(c, AtStormCheck(c, s))
  {
    var t := AtStormCheck(c, s);
    if t.loop.place.Returned? {
      AttemptEmits(c, s, t, GaveUp);
    } else {
      AttemptFrame(c, s, t);
    }
  }

  lemma AttemptTake(c: Config, s: State, how: Leave)
    ensures TakeCurrent(s, how).loop == s.loop && TakeCurrent(s, how).world.log == s.world.log
  {
  }

  lemma AttemptSilent(c: Config, s: State)
    requires AttemptOk(c, s)
    requires s.loop.place.Watching? || s.loop.place.TakeToStop? || s.loop.place.CheckCurrent?
             || s.loop.place.CheckToken?
             || s.loop.place.AwaitKill? || s.loop.place.ClearCurrent? || s.loop.place.ClearReady?
             || s.loop.place.Install?
             || s.loop.place.CheckStart? || s.loop.place.Arm?
    ensures AttemptOk(c, Advance(c, s))
  {
    AttemptTake(c, s, ByCancel);
    AttemptTake(c, s, ByExit);
  }

  lemma AttemptGo(c: Config, s: State)
    requires AttemptOk(c, s) && Enabled(c, s, Go)
    ensures AttemptOk(c, Advance(c, s))
  {
    var p := s.loop.place;
    if p.Top? {
      AttemptTop(c, s);
    } else if p.EmitReady? {
      AttemptReady(c, s);
    } else if p.EmitExited? {
      AttemptEmits(c, s, Advance(c, s), Exited(s.loop.payload, s.loop.child));
    } else if p.EmitStarted? {
      AttemptEmits(c, s, Advance(c, s), Started(PidOf(s), s.loop.child));
    } else if p.AfterExit? {
      AttemptAfterExit(c, s);
    } else if p.StormCheck? {
      AttemptStorm(c, s);
    } else if p.CheckRespawn? {
      AttemptRespawn(c, s);
    } else {
      AttemptSilent(c, s);
    }
  }

  lemma AttemptRespawn(c: Config, s: State)
    requires AttemptOk(c, s) && (s.loop.place.CheckRespawn? || s.loop.place.Sleeping?)
    ensures AttemptOk(c, Goto(s, Spawning)) && AttemptOk(c, Finish(s, Stopped))
  {
    AttemptFrame(c, s, Goto(s, Spawning));
    AttemptEmits(c, s, Finish(s, Stopped), Stopped);
  }

  lemma AttemptStep(c: Config, s: State, m: Move)
    requires AttemptOk(c, s)
    ensures AttemptOk(c, Step(c, s, m))
  {
    if Enabled(c, s, m) {
      match m
      case Go => AttemptGo(c, s);
      case Account(entropy) => AttemptBudget(c, s, B.DelayFor(c.backoff, s.loop.attempt, entropy));
      case SleepCancelled => AttemptRespawn(c, s);
      case _ => AttemptFrame(c, s, Fire(c, s, m));
    }
  }

  function Readys(log: seq<Event>): nat {
    if log == [] then 0 else Readys(log[..|log| - 1]) + if log[|log| - 1].Ready? then 1 else 0
  }

  function Restarts(log: seq<Event>): nat {
    if log == [] then 0 else Restarts(log[..|log| - 1]) + if log[|log| - 1].Restarting? then 1 else 0
  }

  lemma NumberedPrefix(c: Config, log: seq<Event>, n: nat)
    requires Numbered(c, log) && n <= |log|
    ensures Numbered(c, log[..n])
  {
    forall i | 0 <= i < n ensures Allowed(c, Attempt(log[..n][..i]), log[..n][i]) {
      assert log[..n][..i] == log[..i];
      assert Allowed(c, Attempt(log[..i]), log[i]);
    }
  }

  lemma {:induction false} AttemptIsBounded(c: Config, log: seq<Event>)
    requires Numbered(c, log) && c.policy.OnFailure?
    ensures Attempt(log) <= c.policy.maxRestarts
  {
    if log != [] {
      NumberedPrefix(c, log, |log| - 1);
      AttemptIsBounded(c, log[..|log| - 1]);
      assert Allowed(c, Attempt(log[..|log| - 1]), log[|log| - 1]);
    }
  }

  lemma {:induction false} RestartsPaid(c: Config, log: seq<Event>)
    requires Numbered(c, log) && c.policy.OnFailure?
    ensures Restarts(log) <= c.policy.maxRestarts * Readys(log) + Attempt(log)
  {
    if log != [] {
      var init := log[..|log| - 1];
      NumberedPrefix(c, log, |log| - 1);
      RestartsPaid(c, init);
      AttemptIsBounded(c, init);
      Distribute(c.policy.maxRestarts, Readys(init));
    }
  }

  /** Every `Ready` pays for at most `max_restarts` more restarts. */
  lemma RestartsAreBounded(c: Config, log: seq<Event>)
    requires Numbered(c, log) && c.policy.OnFailure?
    ensures Restarts(log) <= c.policy.maxRestarts * (1 + Readys(log))
  {
    RestartsPaid(c, log);
    AttemptIsBounded(c, log);
    Distribute(c.policy.maxRestarts, Readys(log));
  }

  lemma Distribute(m: nat, r: nat)
    ensures m * (1 + r) == m * r + m && m * (r + 1) == m * r + m
  {
  }

  /** Between two `Ready`s the attempt number only grows. */
  lemma {:induction false} AttemptGrows(log: seq<Event>, i: nat, j: nat)
    requires i < j <= |log| && log[i].Restarting? && (forall k :: i < k < j ==> !log[k].Ready?)
    ensures Attempt(log[..j]) >= Attempt(log[..i]) + 1
  {
    assert log[..j][..j - 1] == log[..j - 1];
    if i < j - 1 {
      AttemptGrows(log, i, j - 1);
    }
  }

  /** Without jitter the delays between two `Ready`s never get shorter. */
  lemma DelaysGrow(c: Config, log: seq<Event>, i: nat, j: nat)
    requires Numbered(c, log) && !c.backoff.jitter
    requires i < j < |log| && log[i].Restarting? && log[j].Restarting? && (forall k :: i < k < j ==> !log[k].Ready?)
    ensures log[i].delay == Some(B.Base(c.backoff, log[i].attempt - 1))
    ensures log[j].delay == Some(B.Base(c.backoff, log[j].attempt - 1))
    ensures log[i].attempt < log[j].attempt && log[i].delay.value <= log[j].delay.value <= c.backoff.max
  {
    assert Allowed(c, Attempt(log[..i]), log[i]) && Allowed(c, Attempt(log[..j]), log[j]);
    AttemptGrows(log, i, j);
    B.BaseMonotone(c.backoff, log[i].attempt - 1, log[j].attempt - 1);
  }

  // ---- the storm guard

  function Newest(times: seq<nat>): nat {
    if times == [] then 0 else times[|times| - 1]
  }

  /** The deque is the recent part of all abnormal exits, and the loop goes on only while these are few. */
  predicate StormOk(c: Config, s: State) {
    var times := s.world.abnormal;
    && Storm.Ascending(times) && Storm.AtMost(times, Newest(times)) && Newest(times) <= s.world.now
    && s.loop.abnormalExits == Storm.Recent(times, Newest(times), c.storm.window)
    && (!s.loop.place.Returned? ==> Storm.Survived(times, c.storm))
  }

  lemma StormFrame(c: Config, s: State, t: State)
    requires StormOk(c, s) && t.world.abnormal == s.world.abnormal && t.loop.abnormalExits == s.loop.abnormalExits
    requires t.world.now >= s.world.now && (s.loop.place.Returned? ==> t.loop.place.Returned?)
    ensures StormOk(c, t)
  {
  }

  lemma SurvivedSnoc(times: seq<nat>, now: nat, p: Storm.Policy)
    requires Storm.Survived(times, p)
    ensures Storm.Survived(times + [now], p) <==> |Storm.Recent(times + [now], now, p.window)| < p.maxFailures
  {
    var longer := times + [now];
    assert longer[..|longer|] == longer;
    assert Storm.Survived(longer, p) ==>
             |Storm.Recent(longer[..|longer|], longer[|longer| - 1], p.window)| < p.maxFailures;
    if |Storm.Recent(longer, now, p.window)| < p.maxFailures {
      forall n | 0 < n <= |longer| ensures |Storm.Recent(longer[..n], longer[n - 1], p.window)| < p.maxFailures {
        assert n <= |times| ==> longer[..n] == times[..n] && longer[n - 1] == times[n - 1];
        assert n <= |times| ==> |Storm.Recent(times[..n], times[n - 1], p.window)| < p.maxFailures;
      }
    }
  }

  /** The loop continues past an exit exactly when fewer than `max_failures` lie in the window. */
  lemma StormDecides(c: Config, s: State)
    requires StormOk(c, s) && s.loop.place.StormCheck?
    ensures StormOk(c, AtStormCheck(c, s))
    ensures AtStormCheck(c, s).world.abnormal == s.world.abnormal + [s.world.now]
    ensures AtStormCheck(c, s).loop.place.Budget? <==>
            |Storm.Recent(s.world.abnormal + [s.world.now], s.world.now, c.storm.window)| < c.storm.maxFailures
    ensures !AtStormCheck(c, s).loop.place.Budget? ==> AtStormCheck(c, s).world.log == s.world.log + [GaveUp]
  {
    var times, now := s.world.abnormal, s.world.now;
    Storm.DequeRefinesHistory(times, s.loop.abnormalExits, Newest(times), now, c.storm.window);
    SurvivedSnoc(times, now, c.storm);
  }

  lemma StormTake(c: Config, s: State, how: Leave)
    ensures TakeCurrent(s, how).loop == s.loop && TakeCurrent(s, how).world.abnormal == s.world.abnormal
    ensures TakeCurrent(s, how).world.now == s.world.now
  {
  }

  lemma StormGo(c: Config, s: State)
    requires StormOk(c, s) && Enabled(c, s, Go)
    ensures StormOk(c, Advance(c, s))
  {
    if s.loop.place.StormCheck? {
      StormDecides(c, s);
    } else {
      StormTake(c, s, ByCancel);
      StormTake(c, s, ByExit);
      StormFrame(c, s, Advance(c, s));
    }
  }

  lemma StormBudget(c: Config, s: State, delay: Option<nat>)
    requires StormOk(c, s) && s.loop.place.Budget?
    ensures StormOk(c, AtBudget(c, s, delay))
  {
    StormFrame(c, s, AtBudget(c, s, delay));
  }

  lemma StormStop(c: Config, s: State)
    requires StormOk(c, s)
    ensures StormOk(c, StopMove(s))
  {
    StormTake(c, s, ByStop);
    StormFrame(c, s, StopMove(s));
  }

  lemma StormStep(c: Config, s: State, m: Move)
    requires StormOk(c, s)
    ensures StormOk(c, Step(c, s, m))
  {
    if Enabled(c, s, m) {
      match m
      case Go => StormGo(c, s);
      case StopMoves => StormStop(c, s);
      case Account(entropy) => StormBudget(c, s, B.DelayFor(c.backoff, s.loop.attempt, entropy));
      case _ => StormFrame(c, s, Fire(c, s, m));
    }
  }

  /** How many exits the guard has seen, by where the loop stands. */
  predicate CountFits(l: Loop, count: nat) {
    l.place.Returned? ||
    count == l.child +
      (if l.place.Budget? || l.place.Sleeping? || l.place.CheckRespawn? || l.place.Spawning?
          || (l.place.Top? && !l.hasRx)
       then 1 else 0)
  }

  predicate RxFits(l: Loop) {
    && (l.place.Spawning? ==> !l.hasRx)
    && (l.place.CheckStart? || l.place.Arm? || l.place.EmitStarted? ==> l.hasRx)
  }

  lemma CountWatch(c: Config, s: State)
    requires CountFits(s.loop, |s.world.abnormal|)
    requires s.loop.place.Top? || s.loop.place.Watching? || s.loop.place.TakeToStop? || s.loop.place.CheckCurrent?
             || s.loop.place.CheckToken? || s.loop.place.EmitReady? || s.loop.place.AwaitKill?
             || s.loop.place.ClearCurrent?
    ensures CountFits(Advance(c, s).loop, |Advance(c, s).world.abnormal|)
  {
    StormTake(c, s, ByCancel);
    StormTake(c, s, ByExit);
  }

  lemma CountRespawn(c: Config, s: State)
    requires CountFits(s.loop, |s.world.abnormal|) && RxFits(s.loop)
    requires s.loop.place.ClearReady? || s.loop.place.EmitExited? || s.loop.place.AfterExit?
             || s.loop.place.CheckRespawn?
             || s.loop.place.Install? || s.loop.place.CheckStart? || s.loop.place.Arm? || s.loop.place.EmitStarted?
    ensures CountFits(Advance(c, s).loop, |Advance(c, s).world.abnormal|)
  {
  }

  lemma CountGo(c: Config, s: State)
    requires CountFits(s.loop, |s.world.abnormal|) && RxFits(s.loop) && Enabled(c, s, Go)
    ensures CountFits(Advance(c, s).loop, |Advance(c, s).world.abnormal|)
  {
    var p := s.loop.place;
    if p.StormCheck? {
      CountStorm(c, s);
    } else if p.ClearReady? || p.EmitExited? || p.AfterExit? || p.CheckRespawn? || p.Install? || p.CheckStart? || p.Arm?
        || p.EmitStarted? {
      CountRespawn(c, s);
    } else {
      CountWatch(c, s);
    }
  }

  lemma CountStorm(c: Config, s: State)
    requires CountFits(s.loop, |s.world.abnormal|) && s.loop.place.StormCheck?
    ensures CountFits(AtStormCheck(c, s).loop, |AtStormCheck(c, s).world.abnormal|)
  {
  }

  lemma CountBudget(c: Config, s: State, delay: Option<nat>)
    requires CountFits(s.loop, |s.world.abnormal|) && s.loop.place.Budget?
    ensures CountFits(AtBudget(c, s, delay).loop, |AtBudget(c, s, delay).world.abnormal|)
  {
  }

  lemma CountStep(c: Config, s: State, m: Move)
    requires CountFits(s.loop, |s.world.abnormal|) && RxFits(s.loop) && |s.world.pids| == s.loop.child + 1
    ensures CountFits(Step(c, s, m).loop, |Step(c, s, m).world.abnormal|)
  {
    if Enabled(c, s, m) {
      match m
      case Go => CountGo(c, s);
      case StopMoves => StormTake(c, s, ByStop);
      case Account(entropy) => CountBudget(c, s, B.DelayFor(c.backoff, s.loop.attempt, entropy));
      case _ =>
    }
  }

  // ---- after cancellation

  /** Whether the loop may still spawn or announce a restart before it looks at the token. */
  predicate Committed(p: Place) {
    p.StormCheck? || p.Budget? || p.Spawning?
  }

  predicate CancelOk(s: State) {
    && (!s.shared.token ==> s.world.spawnsAfter == 0 && s.world.restartsAfter == 0)
    && s.world.spawnsAfter + s.world.restartsAfter + (if Committed(s.loop.place) then 1 else 0) <= 1
    && (s.shared.stop.Ended? ==> s.loop.place.Returned?)
    && (!s.shared.stop.NotCalled? ==> s.shared.token)
  }

  lemma CancelTake(s: State, how: Leave)
    ensures var t := TakeCurrent(s, how);
            && t.loop == s.loop && t.shared.token == s.shared.token && t.shared.stop == s.shared.stop
            && t.world.spawnsAfter == s.world.spawnsAfter && t.world.restartsAfter == s.world.restartsAfter
  {
  }

  lemma CancelFrame(s: State, t: State)
    requires CancelOk(s) && t.world.spawnsAfter == s.world.spawnsAfter && t.world.restartsAfter == s.world.restartsAfter
    requires (s.shared.token ==> t.shared.token) && (t.shared.token == s.shared.token || t.loop == s.loop)
    requires t.shared.stop == s.shared.stop && (s.loop.place.Returned? ==> t.loop.place.Returned?)
    requires Committed(t.loop.place) ==> Committed(s.loop.place) || !s.shared.token
    ensures CancelOk(t)
  {
  }

  lemma CancelGo(c: Config, s: State)
    requires CancelOk(s) && Enabled(c, s, Go)
    ensures CancelOk(Advance(c, s))
  {
    if s.loop.place.TakeToStop? {
      CancelTake(s, ByCancel);
    } else if s.loop.place.ClearCurrent? {
      CancelTake(s, ByExit);
    }
    CancelFrame(s, Advance(c, s));
  }

  lemma CancelBudget(c: Config, s: State, delay: Option<nat>)
    requires CancelOk(s) && s.loop.place.Budget?
    ensures CancelOk(AtBudget(c, s, delay))
  {
  }

  lemma CancelStop(s: State)
    requires CancelOk(s) && !s.shared.stop.Ended? && (s.shared.stop.Joining? ==> s.loop.place.Returned?)
    ensures CancelOk(StopMove(s))
  {
    CancelTake(s, ByStop);
  }

  lemma CancelStep(c: Config, s: State, m: Move)
    requires CancelOk(s)
    ensures CancelOk(Step(c, s, m))
  {
    if Enabled(c, s, m) {
      match m
      case Go => CancelGo(c, s);
      case StopMoves => CancelStop(s);
      case Account(entropy) => CancelBudget(c, s, B.DelayFor(c.backoff, s.loop.attempt, entropy));
      case AckMoves(i) => CancelFrame(s, AckMove(s, i));
      case _ =>
    }
  }
}
