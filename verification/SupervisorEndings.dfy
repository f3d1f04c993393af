/** Why a supervisor goes on, and why it ends. */
module SupervisorEndings {
  import opened Basics
  import opened Supervisor
  import L = SupervisorLimits
  import B = Backoff
  import Storm

  function Latest(log: seq<Event>): Option<Event> {
    if log == [] then None else Some(log[|log| - 1])
  }

  /** Only an abnormal exit under a restarting policy leads on. */
  predicate LeadsOn(c: Config, e: Event) {
    c.policy.OnFailure? && (e.Exited? ==> e.payload.code != Some(0))
  }

  predicate Persists(c: Config, before: Event, e: Event) {
    e.Restarting? || e.GaveUp? ==> LeadsOn(c, before)
  }

  predicate BudgetSpent(c: Config, log: seq<Event>) {
    c.policy.OnFailure? && L.Attempt(log) >= c.policy.maxRestarts
  }

  predicate Stormy(c: Config, times: seq<nat>) {
    |Storm.Recent(times, L.Newest(times), c.storm.window)| >= c.storm.maxFailures
  }

  /** The last event says why the loop returned. */
  predicate Explained(c: Config, w: World, token: bool) {
    match Latest(w.log)
    case None => false
    case Some(e) =>
      || (e.Stopped? && token)
      || (e.GaveUp? && (BudgetSpent(c, w.log) || Stormy(c, w.abnormal)))
      || (e.Exited? && (e.payload.code == Some(0) || c.policy.Never?))
  }

  predicate EndOk(c: Config, s: State) {
    && s.world.log != []
    && (forall i :: 0 < i < |s.world.log| ==> Persists(c, s.world.log[i - 1], s.world.log[i]))
    && (s.loop.place.AfterExit? ==> Latest(s.world.log) == Some(Exited(s.loop.payload, s.loop.child)))
    && (s.loop.place.StormCheck? || s.loop.place.Budget? ==> LeadsOn(c, s.world.log[|s.world.log| - 1]))
    && (Waits(s.loop) ==> s.world.log[|s.world.log| - 1].Restarting? && c.policy.OnFailure?)
    && (s.loop.place.Returned? ==> Explained(c, s.world, s.shared.token))
  }

  /** Between a restart's announcement and the next child. */
  predicate Waits(l: Loop) {
    l.place.Sleeping? || l.place.CheckRespawn? || l.place.Spawning? || (l.place.Top? && !l.hasRx)
  }

  predicate Counts(p: Place) {
    p.AfterExit? || p.StormCheck? || p.Budget?
  }

  lemma EndFrame(c: Config, s: State, t: State)
    requires EndOk(c, s) && t.world.log == s.world.log && t.world.abnormal == s.world.abnormal
    requires s.shared.token ==> t.shared.token
    requires t.loop.place.Returned? ==> s.loop.place.Returned?
    requires Counts(t.loop.place) ==> t.loop.place == s.loop.place || (t.loop.place.Budget? && Waits(s.loop))
    requires t.loop.place.AfterExit? ==> t.loop.payload == s.loop.payload && t.loop.child == s.loop.child
    requires Waits(t.loop) ==> Waits(s.loop)
    ensures EndOk(c, t)
  {
  }

  lemma EndEmits(c: Config, s: State, t: State, e: Event)
    requires EndOk(c, s) && t.world.log == s.world.log + [e] && Persists(c, s.world.log[|s.world.log| - 1], e)
    requires Counts(t.loop.place) ==> t.loop.place.AfterExit? && e == Exited(t.loop.payload, t.loop.child)
    requires Waits(t.loop) ==> e.Restarting? && c.policy.OnFailure?
    requires t.loop.place.Returned? ==> Explained(c, t.world, t.shared.token)
    ensures EndOk(c, t)
  {
  }

  lemma EndStopped(c: Config, s: State)
    requires EndOk(c, s) && s.shared.token
    ensures EndOk(c, Finish(s, Stopped))
  {
    EndEmits(c, s, Finish(s, Stopped), Stopped);
  }

  lemma EndGaveUp(c: Config, s: State, t: State)
    requires EndOk(c, s) && LeadsOn(c, s.world.log[|s.world.log| - 1])
    requires t.world.log == s.world.log + [GaveUp] && t.loop.place.Returned?
    requires BudgetSpent(c, s.world.log) || Stormy(c, t.world.abnormal)
    ensures EndOk(c, t)
  {
    assert t.world.log[..|s.world.log|] == s.world.log;
    EndEmits(c, s, t, GaveUp);
  }

  lemma EndTop(c: Config, s: State)
    requires EndOk(c, s) && s.loop.place.Top?
    ensures EndOk(c, AtTop(s))
  {
    if !s.loop.hasRx && s.shared.token {
      EndStopped(c, s);
    } else {
      EndFrame(c, s, AtTop(s));
    }
  }

  lemma EndAfterExit(c: Config, s: State)
    requires EndOk(c, s) && s.loop.place.AfterExit? && (s.loop.cancelled ==> s.shared.token)
    ensures EndOk(c, AtAfterExit(c, s))
  {
    if s.loop.cancelled || s.shared.token {
      EndStopped(c, s);
    }
  }

  lemma EndStorm(c: Config, s: State)
    requires EndOk(c, s) && L.StormOk(c, s) && s.loop.place.StormCheck?
    ensures EndOk(c, AtStormCheck(c, s))
  {
    var t := AtStormCheck(c, s);
    L.StormDecides(c, s);
    assert L.Newest(t.world.abnormal) == s.world.now;
    if t.loop.place.Returned? {
      EndGaveUp(c, s, t);
    }
  }

  lemma EndBudget(c: Config, s: State, delay: Option<nat>)
    requires EndOk(c, s) && L.AttemptOk(c, s) && s.loop.place.Budget?
    ensures EndOk(c, AtBudget(c, s, delay))
  {
    var t := AtBudget(c, s, delay);
    if s.loop.attempt + 1 > c.policy.maxRestarts {
      EndGaveUp(c, s, t);
    } else {
      EndEmits(c, s, t, Restarting(s.loop.attempt + 1, delay));
    }
  }

  lemma EndExited(c: Config, s: State)
    requires EndOk(c, s) && s.loop.place.EmitExited?
    ensures EndOk(c, Goto(Emit(s, Exited(s.loop.payload, s.loop.child)), AfterExit))
  {
    EndEmits(c, s, Goto(Emit(s, Exited(s.loop.payload, s.loop.child)), AfterExit),
        Exited(s.loop.payload, s.loop.child));
  }

  lemma EndStarted(c: Config, s: State)
    requires EndOk(c, s) && s.loop.place.EmitStarted? && s.loop.hasRx
    ensures EndOk(c, Goto(Emit(s, Started(PidOf(s), s.loop.child)), Top))
  {
    EndEmits(c, s, Goto(Emit(s, Started(PidOf(s), s.loop.child)), Top), Started(PidOf(s), s.loop.child));
  }

  lemma EndReady(c: Config, s: State)
    requires EndOk(c, s) && s.loop.place.EmitReady?
    ensures EndOk(c, Goto(Emit(s, Ready(s.loop.child)), Watching))
  {
    EndEmits(c, s, Goto(Emit(s, Ready(s.loop.child)), Watching), Ready(s.loop.child));
  }

  lemma EndTake(s: State, how: Leave)
    ensures TakeCurrent(s, how).loop == s.loop && TakeCurrent(s, how).world.log == s.world.log
    ensures TakeCurrent(s, how).world.abnormal == s.world.abnormal && TakeCurrent(s, how).shared.token == s.shared.token
  {
  }

  lemma EndWatch(c: Config, s: State)
    requires EndOk(c, s)
    requires s.loop.place.Watching? || s.loop.place.TakeToStop? || s.loop.place.CheckCurrent?
             || s.loop.place.CheckToken?
             || s.loop.place.AwaitKill? || s.loop.place.ClearCurrent? || s.loop.place.ClearReady?
    ensures EndOk(c, Advance(c, s))
  {
    EndTake(s, ByCancel);
    EndTake(s, ByExit);
    EndFrame(c, s, Advance(c, s));
  }

  lemma EndInstall(c: Config, s: State)
    requires EndOk(c, s) && L.RxFits(s.loop) && (s.loop.place.Install? || s.loop.place.CheckStart? || s.loop.place.Arm?)
    ensures EndOk(c, Advance(c, s))
  {
    EndFrame(c, s, Advance(c, s));
  }

  lemma EndGo(c: Config, s: State)
    requires EndOk(c, s) && L.StormOk(c, s) && L.RxFits(s.loop) && (s.loop.cancelled ==> s.shared.token)
    requires Enabled(c, s, Go)
    ensures EndOk(c, Advance(c, s))
  {
    var p := s.loop.place;
    if p.Top? {
      EndTop(c, s);
    } else if p.EmitReady? {
      EndReady(c, s);
    } else if p.EmitExited? {
      EndExited(c, s);
    } else if p.EmitStarted? {
      EndStarted(c, s);
    } else if p.AfterExit? {
      EndAfterExit(c, s);
    } else if p.StormCheck? {
      EndStorm(c, s);
    } else if p.CheckRespawn? {
      EndRespawn(c, s);
    } else if p.Install? || p.CheckStart? || p.Arm? {
      EndInstall(c, s);
    } else {
      EndWatch(c, s);
    }
  }

  lemma EndRespawn(c: Config, s: State)
    requires EndOk(c, s) && s.loop.place.CheckRespawn?
    ensures EndOk(c, if s.shared.token then Finish(s, Stopped) else Goto(s, Spawning))
  {
    if s.shared.token {
      EndStopped(c, s);
    }
  }

  lemma EndStop(c: Config, s: State)
    requires EndOk(c, s)
    ensures EndOk(c, StopMove(s))
  {
    EndTake(s, ByStop);
    EndFrame(c, s, StopMove(s));
  }

  /** The select arms and the spawn. */
  lemma EndBranch(c: Config, s: State, m: Move)
    requires EndOk(c, s) && L.RxFits(s.loop) && Enabled(c, s, m)
    requires Quiet(m)
    ensures EndOk(c, Fire(c, s, m))
  {
    EndFrame(c, s, Fire(c, s, m));
  }

  /** What callers, children and time do. */
  lemma EndOutside(c: Config, s: State, m: Move)
    requires EndOk(c, s) && Enabled(c, s, m)
    requires FromOutside(m) && !m.StopMoves?
    ensures EndOk(c, Fire(c, s, m))
  {
    EndFrame(c, s, Fire(c, s, m));
  }

  lemma EndStep(c: Config, s: State, m: Move)
    requires EndOk(c, s) && L.StormOk(c, s) && L.AttemptOk(c, s) && L.RxFits(s.loop)
    requires (s.loop.cancelled ==> s.shared.token)
    ensures EndOk(c, Step(c, s, m))
  {
    if Enabled(c, s, m) {
      if m.Go? {
        EndGo(c, s);
      } else if m.Account? {
        EndBudget(c, s, B.DelayFor(c.backoff, s.loop.attempt, m.entropy));
      } else if m.SleepCancelled? {
        EndStopped(c, s);
      } else if m.StopMoves? {
        EndStop(c, s);
      } else if Quiet(m) {
        EndBranch(c, s, m);
      } else {
        EndOutside(c, s, m);
      }
    }
  }
}
