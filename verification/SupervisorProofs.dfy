/** What holds in every run of the supervisor, under every interleaving. */
module SupervisorProofs {
  import opened Basics
  import opened Supervisor
  import opened SupervisorGrammar
  import opened SupervisorSlot
  import opened SupervisorHandshake
  import L = SupervisorLimits
  import E = SupervisorEndings
  import R = SupervisorReadiness
  import A = SupervisorAcknowledgement
  import B = Backoff
  import Storm

  predicate LoopOk(c: Config, s: State) {
    GrammarOk(s) && OnceOnly(c, s.loop) && L.CancelOk(s) && L.CountFits(s.loop, |s.world.abnormal|)
  }

  predicate ChildrenOk(c: Config, s: State) {
    PidsOk(s) && SlotOk(s) && ExitOk(s) && KillOk(s) && HandOk(s) && OfferOk(s) && BeliefOk(c, s)
  }

  predicate ReadinessOk(c: Config, s: State) {
    R.TokenOk(s) && R.LateOk(s) && R.WaitOk(c, s) && A.HopeOk(c, s)
  }

  ghost predicate Inv(c: Config, s: State) {
    LoopOk(c, s) && ChildrenOk(c, s) && L.AttemptOk(c, s) && L.StormOk(c, s) && E.EndOk(c, s) && ReadinessOk(c, s)
  }

  lemma StartLoop(c: Config, pid: nat, now: nat)
    ensures LoopOk(c, Start(c, pid, now))
  {
    GrammarStart(c, pid, now);
  }

  lemma StartChildren(c: Config, pid: nat, now: nat)
    requires pid != 0
    ensures ChildrenOk(c, Start(c, pid, now))
  {
  }

  lemma StartLimits(c: Config, pid: nat, now: nat)
    ensures L.AttemptOk(c, Start(c, pid, now)) && L.StormOk(c, Start(c, pid, now))
  {
    assert [Started(pid, 0)][..0] == [];
  }

  lemma StartRest(c: Config, pid: nat, now: nat)
    ensures E.EndOk(c, Start(c, pid, now)) && ReadinessOk(c, Start(c, pid, now))
  {
  }

  lemma RxFollows(s: State)
    requires GrammarOk(s)
    ensures L.RxFits(s.loop)
  {
  }

  lemma LoopStep(c: Config, s: State, m: Move)
    requires LoopOk(c, s)
    ensures LoopOk(c, Step(c, s, m))
  {
    RxFollows(s);
    GrammarStep(c, s, m);
    OnceStep(c, s, m);
    L.CancelStep(c, s, m);
    L.CountStep(c, s, m);
  }

  lemma ChildrenStep(c: Config, s: State, m: Move)
    requires ChildrenOk(c, s) && L.RxFits(s.loop)
    ensures ChildrenOk(c, Step(c, s, m))
  {
    PidsStep(c, s, m);
    SlotStep(c, s, m);
    ExitStep(c, s, m);
    KillStep(c, s, m);
    HandStep(c, s, m);
    OfferStep(c, s, m);
    BeliefStep(c, s, m);
  }

  lemma ReadinessStep(c: Config, s: State, m: Move)
    requires ReadinessOk(c, s) && PidsOk(s) && OfferOk(s) && GrammarOk(s) && L.RxFits(s.loop)
    ensures ReadinessOk(c, Step(c, s, m))
  {
    A.HopeStep(c, s, m);
    R.TokenStep(c, s, m);
    R.LateStep(c, s, m);
    R.WaitStep(c, s, m);
  }

  lemma StepInv(c: Config, s: State, m: Move)
    requires Inv(c, s)
    ensures Inv(c, Step(c, s, m))
  {
    RxFollows(s);
    LoopStep(c, s, m);
    ChildrenStep(c, s, m);
    L.AttemptStep(c, s, m);
    L.StormStep(c, s, m);
    E.EndStep(c, s, m);
    ReadinessStep(c, s, m);
  }

  /** A run begins with one child, which has a pid. */
  predicate Begins(c: Config, s: State) {
    |s.world.pids| == 1 && s.world.pids[0] != 0 && s == Start(c, s.world.pids[0], s.world.now)
  }

  lemma {:induction false} RunInv(c: Config, s: State, script: seq<Move>)
    requires Begins(c, s)
    ensures Inv(c, Run(c, s, script))
  {
    if script == [] {
      StartLoop(c, s.world.pids[0], s.world.now);
      StartChildren(c, s.world.pids[0], s.world.now);
      StartLimits(c, s.world.pids[0], s.world.now);
      StartRest(c, s.world.pids[0], s.world.now);
    } else {
      RunInv(c, s, script[..|script| - 1]);
      StepInv(c, Run(c, s, script[..|script| - 1]), script[|script| - 1]);
    }
  }

  // ---- events and children

  lemma GoneFits(s: State)
    requires GrammarOk(s)
    ensures Parse(s.world.log) != Wrong
    ensures s.loop.place.Returned? ==> Gone(Parse(s.world.log)) == |s.world.pids|
    ensures Gone(Parse(s.world.log)) <= |s.world.pids| <= Gone(Parse(s.world.log)) + 1
  {
  }

  /** Every log is accepted, and a loop that has returned has seen every child exit. */
  lemma EventsFollowTheGrammar(c: Config, s: State, script: seq<Move>)
    requires Begins(c, s)
    ensures var t := Run(c, s, script);
            && Parse(t.world.log) != Wrong && AllInPlace(t.world.log)
            && Exits(t.world.log) <= |t.world.pids| <= Exits(t.world.log) + 1
            && (t.loop.place.Returned? ==> t.shared.current == None && Exits(t.world.log) == |t.world.pids|)
  {
    RunInv(c, s, script);
    GoneFits(Run(c, s, script));
    ExitsCount(Run(c, s, script).world.log);
    AcceptedMeansInPlace(Run(c, s, script).world.log);
  }

  /**
   * Every handle leaves the slot exactly once, in the order of the spawns: those
   * that have not are in the slot or in the hand of the loop. Whoever left by
   * the exit path had ended; all others were handed to exactly one stopper.
   */
  lemma EveryHandleLeavesOnce(c: Config, s: State, script: seq<Move>)
    requires Begins(c, s)
    ensures var t := Run(c, s, script); var d := t.world.departures;
            && (forall k :: 0 <= k < |d| ==> d[k].child == k)
            && |d| == |t.world.pids| - (if t.shared.current.Some? || t.loop.place.Install? then 1 else 0)
            && (t.shared.current.Some? ==> t.shared.current.value == |d|)
            && (forall k :: 0 <= k < |d| && d[k].how.ByExit? ==> k < |t.world.lives| && !t.world.lives[k].Alive?)
            && (Watched(t.loop.place) ==> t.loop.killTask == if Cancelled(t) then Some(t.loop.child) else None)
            && (t.shared.stop.Stopping? && t.shared.stop.child.Some? ==> StoppedBy(d, t.shared.stop.child.value))
            && (t.loop.place.Returned? ==> |d| == |t.world.pids|)
  {
    RunInv(c, s, script);
  }

  /** `stop` comes back only after cancelling, when the loop is done and no child is left. */
  lemma StopWaits(c: Config, s: State, script: seq<Move>)
    requires Begins(c, s) && Run(c, s, script).shared.stop.Ended?
    ensures var t := Run(c, s, script);
            t.shared.token && t.loop.place.Returned? && t.shared.current == None
                && |t.world.departures| == |t.world.pids|
  {
    RunInv(c, s, script);
  }

  /**
   * The last event of a loop that has returned says why: `Stopped` after
   * cancellation, `GaveUp` with the budget spent or too many exits in the window,
   * or a clean exit, or any exit under a policy that never restarts. Nothing else
   * ends it: only an abnormal exit under a restarting policy is followed by a
   * restart or by giving up.
   */
  lemma EndingIsExplained(c: Config, s: State, script: seq<Move>)
    requires Begins(c, s)
    ensures var t := Run(c, s, script);
            && (t.loop.place.Returned? ==> E.Explained(c, t.world, t.shared.token))
            && (forall i :: 0 < i < |t.world.log| ==> E.Persists(c, t.world.log[i - 1], t.world.log[i]))
  {
    RunInv(c, s, script);
  }

  // ---- cancellation

  /** A child whose spawn completed after cancellation is never announced as started. */
  lemma LateChildIsNotAnnounced(c: Config, s: State, script: seq<Move>, n: nat, k: nat)
    requires Begins(c, s) && n <= |script| && Run(c, s, script[..n]).shared.token
    requires |Run(c, s, script).world.pids| > |Run(c, s, script[..n]).world.pids|
    requires k < |Run(c, s, script).world.log| && Run(c, s, script).world.log[k].Started?
    ensures Run(c, s, script).world.log[k].child < |Run(c, s, script).world.pids| - 1
  {
    CountedRun(c, s, script, n);
    RunLate(c, s, script);
    assert R.Earlier(Run(c, s, script).world.log[k], Run(c, s, script).loop.child);
  }

  lemma RunLate(c: Config, s: State, script: seq<Move>)
    requires Begins(c, s)
    ensures R.LateOk(Run(c, s, script)) && |Run(c, s, script).world.pids| == Run(c, s, script).loop.child + 1
  {
    RunInv(c, s, script);
  }

  predicate CountedFrom(s: State, t: State) {
    s.shared.token ==>
      && t.shared.token
      && |t.world.pids| - t.world.spawnsAfter == |s.world.pids| - s.world.spawnsAfter
      && L.Restarts(t.world.log) - t.world.restartsAfter == L.Restarts(s.world.log) - s.world.restartsAfter
  }

  lemma RestartsSnoc(log: seq<Event>, e: Event)
    ensures L.Restarts(log + [e]) == L.Restarts(log) + if e.Restarting? then 1 else 0
  {
    assert (log + [e])[..|log|] == log;
  }

  lemma CountedBudget(c: Config, s: State, delay: Option<nat>)
    ensures CountedFrom(s, AtBudget(c, s, delay))
  {
    RestartsSnoc(s.world.log, Restarting(s.loop.attempt + 1, delay));
    RestartsSnoc(s.world.log, GaveUp);
  }

  lemma GoKeepsCounts(c: Config, s: State)
    ensures Advance(c, s).world.spawnsAfter == s.world.spawnsAfter
    ensures Advance(c, s).world.restartsAfter == s.world.restartsAfter
    ensures Advance(c, s).world.pids == s.world.pids && Advance(c, s).shared.token == s.shared.token
  {
    L.CancelTake(s, ByCancel);
    L.CancelTake(s, ByExit);
    TakeKeepsLog(s, ByCancel);
    TakeKeepsLog(s, ByExit);
  }

  lemma CountedGo(c: Config, s: State)
    requires Enabled(c, s, Go)
    ensures CountedFrom(s, Advance(c, s))
  {
    var e := LogGrows(c, s);
    GoKeepsCounts(c, s);
    RestartsGrow(s.world.log, Advance(c, s).world.log, e);
  }

  lemma RestartsGrow(log: seq<Event>, longer: seq<Event>, e: Option<Event>)
    requires Grown(log, longer, e)
    ensures L.Restarts(longer) == L.Restarts(log) + if e.Some? && e.value.Restarting? then 1 else 0
  {
    if e.Some? {
      RestartsSnoc(log, e.value);
    }
  }

  lemma CountedStep(c: Config, s: State, m: Move)
    ensures CountedFrom(s, Step(c, s, m))
  {
    if Enabled(c, s, m) {
      match m
      case Go => CountedGo(c, s);
      case Account(entropy) => CountedBudget(c, s, B.DelayFor(c.backoff, s.loop.attempt, entropy));
      case SleepCancelled => RestartsSnoc(s.world.log, Stopped);
      case _ =>
    }
  }

  lemma {:induction false} CountedRun(c: Config, s: State, script: seq<Move>, n: nat)
    requires n <= |script|
    ensures CountedFrom(Run(c, s, script[..n]), Run(c, s, script))
    decreases |script|
  {
    if n == |script| {
      assert script[..n] == script;
    } else {
      var init := script[..|script| - 1];
      assert init[..n] == script[..n];
      CountedRun(c, s, init, n);
      CountedStep(c, Run(c, s, init), script[|script| - 1]);
    }
  }

  /** After cancellation at most one more spawn completes or one more restart is announced, not both. */
  lemma CancellationSettles(c: Config, s: State, script: seq<Move>, n: nat)
    requires Begins(c, s) && n <= |script| && Run(c, s, script[..n]).shared.token
    ensures var a, b := Run(c, s, script[..n]), Run(c, s, script);
            b.shared.token &&
            (|b.world.pids| - |a.world.pids|) + (L.Restarts(b.world.log) - L.Restarts(a.world.log)) <= 1
  {
    RunInv(c, s, script);
    CountedRun(c, s, script, n);
  }

  // ---- limits

  lemma RunLimits(c: Config, s: State, script: seq<Move>)
    requires Begins(c, s)
    ensures L.AttemptOk(c, Run(c, s, script)) && L.StormOk(c, Run(c, s, script)) && LoopOk(c, Run(c, s, script))
  {
    RunInv(c, s, script);
  }

  lemma RunNumbers(c: Config, s: State, script: seq<Move>)
    requires Begins(c, s)
    ensures L.Numbered(c, Run(c, s, script).world.log)
  {
    RunLimits(c, s, script);
  }

  lemma BudgetKept(c: Config, log: seq<Event>)
    requires L.Numbered(c, log)
    ensures c.policy.OnFailure? ==> L.Restarts(log) <= c.policy.maxRestarts * (1 + L.Readys(log))
    ensures c.policy.Never? ==> L.Restarts(log) == 0
  {
    if c.policy.OnFailure? {
      L.RestartsAreBounded(c, log);
    } else {
      NoRestarts(c, log);
    }
  }

  /**
   * Restarts are numbered, budgeted and delayed as configured, and each `Ready`
   * pays for at most `max_restarts` more.
   */
  lemma RestartsKeepTheBudget(c: Config, s: State, script: seq<Move>)
    requires Begins(c, s)
    ensures var log := Run(c, s, script).world.log;
            && L.Numbered(c, log)
            && (c.policy.OnFailure? ==> L.Restarts(log) <= c.policy.maxRestarts * (1 + L.Readys(log)))
            && (c.policy.Never? ==> L.Restarts(log) == 0)
  {
    RunNumbers(c, s, script);
    BudgetKept(c, Run(c, s, script).world.log);
  }

  lemma {:induction false} NoRestarts(c: Config, log: seq<Event>)
    requires L.Numbered(c, log) && c.policy.Never?
    ensures L.Restarts(log) == 0
  {
    if log != [] {
      L.NumberedPrefix(c, log, |log| - 1);
      NoRestarts(c, log[..|log| - 1]);
      assert L.Allowed(c, L.Attempt(log[..|log| - 1]), log[|log| - 1]);
    }
  }

  /**
   * At every moment the deque of the storm guard holds exactly the abnormal exits
   * of the whole run that lay in the closed window when the last of them came.
   */
  lemma GuardHoldsTheWindow(c: Config, s: State, script: seq<Move>)
    requires Begins(c, s)
    ensures var t := Run(c, s, script); var times := t.world.abnormal;
            && Storm.Ascending(times) && Storm.AtMost(times, t.world.now)
            && t.loop.abnormalExits == Storm.Recent(times, L.Newest(times), c.storm.window)
  {
    RunLimits(c, s, script);
  }

  /**
   * In every run the loop counts an abnormal exit and continues exactly when
   * fewer than the maximum of all exits so far lie in its window; otherwise it
   * gives up.
   */
  lemma GuardDecidesOnTheWindow(c: Config, s: State, script: seq<Move>)
    requires Begins(c, s) && Run(c, s, script).loop.place.StormCheck?
    ensures var t, u := Run(c, s, script), Step(c, Run(c, s, script), Go);
            var times := t.world.abnormal + [t.world.now];
            && u.world.abnormal == times
            && (u.loop.place.Budget? <==> |Storm.Recent(times, t.world.now, c.storm.window)| < c.storm.maxFailures)
            && (!u.loop.place.Budget? ==> u.loop.place.Returned? && u.world.log == t.world.log + [GaveUp])
  {
    RunLimits(c, s, script);
    L.StormDecides(c, Run(c, s, script));
  }

  /** A run that goes on has survived only so many abnormal exits, however often a `Ready` renewed its budget. */
  lemma StormsAreBounded(c: Config, s: State, script: seq<Move>)
    requires Begins(c, s) && !Run(c, s, script).loop.place.Returned?
    requires c.storm.maxFailures >= 1 && c.storm.window >= 1
    ensures var t := Run(c, s, script);
            |t.world.abnormal| <= Exits(t.world.log) <= |t.world.abnormal| + 1
                && Weathered(c, t.world.abnormal, t.world.now)
  {
    RunLimits(c, s, script);
    ExitsFollow(c, Run(c, s, script));
    Weathers(c, Run(c, s, script));
  }

  /** So many abnormal exits and no more fit into the time between the first and the last. */
  predicate Weathered(c: Config, times: seq<nat>, now: nat)
    requires c.storm.window >= 1
  {
    && Storm.Ascending(times) && Storm.AtMost(times, now)
    && (times != [] ==> |times| <= ((times[|times| - 1] - times[0]) / c.storm.window + 1) * (c.storm.maxFailures - 1))
  }

  lemma Weathers(c: Config, t: State)
    requires L.StormOk(c, t) && !t.loop.place.Returned? && c.storm.maxFailures >= 1 && c.storm.window >= 1
    ensures Weathered(c, t.world.abnormal, t.world.now)
  {
    if t.world.abnormal != [] {
      Storm.SurvivedExitsAreBounded(t.world.abnormal, c.storm);
    }
  }

  lemma ExitsFollow(c: Config, t: State)
    requires LoopOk(c, t) && !t.loop.place.Returned?
    ensures |t.world.abnormal| <= Exits(t.world.log) <= |t.world.abnormal| + 1
  {
    GoneFits(t);
    ExitsCount(t.world.log);
    GoneCounts(t);
  }

  lemma GoneCounts(t: State)
    requires GrammarOk(t) && L.CountFits(t.loop, |t.world.abnormal|) && !t.loop.place.Returned?
    ensures |t.world.abnormal| <= Gone(Parse(t.world.log)) <= |t.world.abnormal| + 1
  {
  }

  // ---- readiness

  /**
   * While a child is watched, supervision is not cancelled and the child has not
   * ended, its handle is in the slot, and its readiness is awaited or has been
   * reported.
   */
  lemma ReadinessIsPursued(c: Config, s: State, script: seq<Move>)
    requires Begins(c, s)
    ensures var t := Run(c, s, script);
            (t.loop.place.Watching? || t.loop.place.Polling?) && R.Undisturbed(t) ==>
              && t.shared.current == Some(t.loop.child)
              && (t.loop.readinessPending || E.Latest(t.world.log) == Some(Ready(t.loop.child)))
    ensures var t := Run(c, s, script); t.loop.cancelled && R.Deliberating(t.loop.place) ==> !t.loop.readinessPending
  {
    RunPursuit(c, s, script);
    LastIsReady(Run(c, s, script).world.log);
  }

  lemma RunPursuit(c: Config, s: State, script: seq<Move>)
    requires Begins(c, s)
    ensures R.WaitOk(c, Run(c, s, script)) && R.TokenOk(Run(c, s, script)) && Run(c, s, script).world.log != []
  {
    RunInv(c, s, script);
  }

  lemma LastIsReady(log: seq<Event>)
    requires log != []
    ensures Parse(log).Running? && Parse(log).ready ==> log[|log| - 1] == Ready(Parse(log).child)
  {
  }

  /**
   * While the loop runs, what is on offer for acknowledgement is the latest
   * child's pid; from the exit of one child to the start of the next nothing is.
   */
  lemma OnlyTheLatestIsOffered(c: Config, s: State, script: seq<Move>)
    requires Begins(c, s)
    ensures var t := Run(c, s, script);
            t.shared.readyPending != 0 && !t.loop.place.Returned? ==>
              t.loop.child == |t.world.pids| - 1 && t.shared.readyPending == t.world.pids[t.loop.child]
                  && Offering(t.loop)
  {
    RunInv(c, s, script);
  }

  /** However many calls race, at most one is told that it made a given child ready. */
  lemma AcknowledgedOnce(c: Config, s: State, script: seq<Move>, i: nat, j: nat)
    requires Begins(c, s) && i < j < |Run(c, s, script).shared.calls|
    requires Run(c, s, script).shared.calls[i].stage == Done(true)
    requires Run(c, s, script).shared.calls[j].stage == Done(true)
    ensures Run(c, s, script).shared.calls[i].pid != Run(c, s, script).shared.calls[j].pid
    ensures Run(c, s, script).shared.calls[i].pid in Run(c, s, script).world.pids
  {
    RunInv(c, s, script);
    var t := Run(c, s, script);
    assert Holds(t.shared.calls[i]) && Holds(t.shared.calls[j]);
  }

  /**
   * In acknowledged mode a child is ready only because a call with its own pid
   * was told so; a pid queued for an earlier child never makes a later one ready.
   */
  lemma ReadyWasAcknowledged(c: Config, s: State, script: seq<Move>, k: nat)
    requires Begins(c, s) && c.acknowledged && k < |Run(c, s, script).world.log|
    requires Run(c, s, script).world.log[k].Ready?
    ensures var t := Run(c, s, script); var child := t.world.log[k].child;
            && child < |t.world.pids| && k > 0 && t.world.log[k - 1] == Started(t.world.pids[child], child)
            && exists i :: 0 <= i < |t.shared.calls| && t.shared.calls[i] == Call(t.world.pids[child], Done(true))
  {
    RunReadiness(c, s, script);
    EventsFollowTheGrammar(c, s, script);
    ReadyHasItsCall(c, Run(c, s, script), k);
  }

  lemma RunReadiness(c: Config, s: State, script: seq<Move>)
    requires Begins(c, s)
    ensures PidsOk(Run(c, s, script)) && BeliefOk(c, Run(c, s, script))
  {
    RunInv(c, s, script);
  }

  lemma ReadyHasItsCall(c: Config, t: State, k: nat)
    requires c.acknowledged && PidsOk(t) && BeliefOk(c, t) && AllInPlace(t.world.log)
    requires k < |t.world.log| && t.world.log[k].Ready?
    ensures var child := t.world.log[k].child;
            && child < |t.world.pids| && k > 0 && t.world.log[k - 1] == Started(t.world.pids[child], child)
            && exists i :: 0 <= i < |t.shared.calls| && t.shared.calls[i] == Call(t.world.pids[child], Done(true))
  {
    ReadyFollows(t.world.log, k);
    assert Announces(t.world.pids, t.world.log[k - 1]) && ReadyVouched(t, t.world.log[k]);
    var child := t.world.log[k].child;
    assert t.shared.calls[t.world.acked[t.world.pids[child]]] == Call(t.world.pids[child], Done(true));
  }

  /**
   * An acknowledgement cannot get lost: while a child's readiness is awaited in
   * acknowledged mode, its pid is on offer, held by one call, queued, or being
   * looked at.
   */
  lemma AcknowledgementIsNotLost(c: Config, s: State, script: seq<Move>)
    requires Begins(c, s) && c.acknowledged
    ensures var t := Run(c, s, script); R.Undisturbed(t) && A.Awaited(t.loop) ==> A.OnItsWay(t, PidOf(t))
  {
    RunInv(c, s, script);
  }

  lemma {:induction false} PastRun(c: Config, s: State, script: seq<Move>, n: nat, child: nat, from: nat)
    requires Begins(c, s) && n <= |script| && A.Past(Run(c, s, script[..n]), child, from)
    requires from <= |Run(c, s, script[..n]).shared.calls|
    ensures A.Past(Run(c, s, script), child, from) && from <= |Run(c, s, script).shared.calls|
    decreases |script|
  {
    if n == |script| {
      assert script[..n] == script;
    } else {
      var init := script[..|script| - 1];
      assert init[..n] == script[..n];
      PastRun(c, s, init, n, child, from);
      RunChildren(c, s, init);
      A.PastStep(c, Run(c, s, init), child, from, script[|script| - 1]);
      CallsStay(c, Run(c, s, init), script[|script| - 1]);
    }
  }

  lemma RunChildren(c: Config, s: State, script: seq<Move>)
    requires Begins(c, s)
    ensures PidsOk(Run(c, s, script)) && SlotOk(Run(c, s, script))
  {
    RunInv(c, s, script);
  }

  lemma CallsStay(c: Config, s: State, m: Move)
    ensures |Step(c, s, m).shared.calls| >= |s.shared.calls|
  {
    if Enabled(c, s, m) {
      if m.Go? {
        GoKeepsShared(c, s);
      } else if m.Account? {
        CallsBudget(c, s, B.DelayFor(c.backoff, s.loop.attempt, m.entropy));
      } else if m.AckMoves? {
        A.PastCall(s, m.call, m.call);
      } else if m.StopMoves? {
        R.TokenTake(s, ByStop);
      }
    }
  }

  lemma CallsBudget(c: Config, s: State, delay: Option<nat>)
    ensures AtBudget(c, s, delay).shared == s.shared
  {
  }

  /**
   * Once a child has announced its end, undecided and not ready by then, it is
   * never reported ready, and no call begun later about it is told so.
   */
  lemma EndedChildIsNeverReady(c: Config, s: State, script: seq<Move>, n: nat)
    requires Begins(c, s) && n <= |script|
    requires var a := Run(c, s, script[..n]);
             && a.loop.child < |a.world.lives| && a.world.lives[a.loop.child].Announced? && !Deciding(a.loop.place)
             && (forall k :: 0 <= k < |a.world.log| ==> a.world.log[k] != Ready(a.loop.child))
    ensures var a, t := Run(c, s, script[..n]), Run(c, s, script);
            && (forall k :: 0 <= k < |t.world.log| ==> t.world.log[k] != Ready(a.loop.child))
            && a.loop.child < |t.world.pids|
            && (forall i :: |a.shared.calls| <= i < |t.shared.calls| ==>
                  A.Refused(t.shared.calls[i], t.world.pids[a.loop.child]))
  {
    var a := Run(c, s, script[..n]);
    RunChildren(c, s, script[..n]);
    PastRun(c, s, script, n, a.loop.child, |a.shared.calls|);
  }
}
