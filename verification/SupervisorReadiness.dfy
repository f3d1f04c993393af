/** How long a child is given to become ready, and what cancellation takes away from it. */
module SupervisorReadiness {
  import opened Basics
  import opened Supervisor
  import opened SupervisorGrammar
  import opened SupervisorHandshake
  import L = SupervisorLimits
  import B = Backoff

  // ---- cancellation reaches the loop through the token alone

  predicate TokenOk(s: State) {
    && (s.loop.cancelled ==> s.shared.token)
    && (s.shared.sendersGone ==> s.shared.token)
    && (s.loop.place.TakeToStop? ==> s.shared.token)
    && (s.shared.stop.Taking? ==> s.shared.token)
    && (s.loop.cancelled && Deliberating(s.loop.place) ==> !s.loop.readinessPending)
  }

  /** Inside the select that watches a child. */
  predicate Deliberating(p: Place) {
    p.Watching? || p.TakeToStop? || p.Polling? || p.CheckCurrent? || p.CheckToken? || p.EmitReady?
  }

  lemma TokenTake(s: State, how: Leave)
    ensures var t := TakeCurrent(s, how);
            && t.loop == s.loop && t.shared == s.shared.(current := None)
            && t.world == s.world.(departures := t.world.departures)
  {
  }

  lemma TokenGo(c: Config, s: State)
    requires TokenOk(s) && Enabled(c, s, Go)
    ensures TokenOk(Advance(c, s))
  {
    if s.loop.place.TakeToStop? {
      TokenTake(s, ByCancel);
    } else if s.loop.place.ClearCurrent? {
      TokenTake(s, ByExit);
    }
  }

  lemma TokenBudget(c: Config, s: State, delay: Option<nat>)
    requires TokenOk(s)
    ensures TokenOk(AtBudget(c, s, delay))
  {
  }

  lemma TokenAck(s: State, i: nat)
    requires TokenOk(s) && i < |s.shared.calls|
    ensures TokenOk(AckMove(s, i))
  {
  }

  lemma TokenStep(c: Config, s: State, m: Move)
    requires TokenOk(s)
    ensures TokenOk(Step(c, s, m))
  {
    if Enabled(c, s, m) {
      match m
      case Go => TokenGo(c, s);
      case Account(entropy) => TokenBudget(c, s, B.DelayFor(c.backoff, s.loop.attempt, entropy));
      case AckMoves(i) => TokenAck(s, i);
      case StopMoves => TokenTake(s, ByStop);
      case _ =>
    }
  }

  // ---- a child spawned after cancellation is never announced

  predicate LateOk(s: State) {
    s.world.spawnsAfter > 0 ==>
      && s.shared.token && !s.loop.place.Arm? && !s.loop.place.EmitStarted?
      && (forall k :: 0 <= k < |s.world.log| ==> Earlier(s.world.log[k], s.loop.child))
  }

  predicate Earlier(e: Event, child: nat) {
    e.Started? ==> e.child < child
  }

  lemma LateFrame(s: State, t: State, e: Option<Event>)
    requires LateOk(s) && Grown(s.world.log, t.world.log, e) && (e.Some? ==> !e.value.Started?)
    requires t.world.spawnsAfter == s.world.spawnsAfter && (s.shared.token ==> t.shared.token)
    requires t.loop.child == s.loop.child
    requires t.loop.place.Arm? || t.loop.place.EmitStarted? ==>
               !s.shared.token || s.loop.place.Arm? || s.loop.place.EmitStarted?
    ensures LateOk(t)
  {
  }

  lemma LateStarts(c: Config, s: State)
    requires Enabled(c, s, Go) && s.shared.token
    ensures Advance(c, s).loop.place.Arm? || Advance(c, s).loop.place.EmitStarted? ==>
              s.loop.place.Arm? || s.loop.place.EmitStarted?
  {
  }

  lemma LateGo(c: Config, s: State)
    requires LateOk(s) && Enabled(c, s, Go)
    ensures LateOk(Advance(c, s))
  {
    var e := LogGrows(c, s);
    L.CancelTake(s, ByCancel);
    L.CancelTake(s, ByExit);
    LateKeeps(c, s);
    GoKeepsChild(c, s);
    if s.shared.token {
      LateStarts(c, s);
    }
    if s.world.spawnsAfter > 0 {
      LateFrame(s, Advance(c, s), e);
    }
  }

  lemma LateKeeps(c: Config, s: State)
    ensures Advance(c, s).world.spawnsAfter == s.world.spawnsAfter && Advance(c, s).shared.token == s.shared.token
  {
    L.CancelTake(s, ByCancel);
    L.CancelTake(s, ByExit);
  }

  lemma LateBudget(c: Config, s: State, delay: Option<nat>)
    requires LateOk(s) && s.loop.place.Budget?
    ensures LateOk(AtBudget(c, s, delay))
  {
    var e := BudgetGrows(c, s, delay);
    LateFrame(s, AtBudget(c, s, delay), e);
  }

  lemma LateSpawn(s: State, pid: nat)
    requires LateOk(s) && PidsOk(s)
    ensures LateOk(AtSpawning(s, pid))
  {
    forall k | 0 <= k < |s.world.log| ensures Earlier(s.world.log[k], |s.world.pids|) {
      assert Announces(s.world.pids, s.world.log[k]);
    }
  }

  lemma LateStop(s: State)
    requires LateOk(s)
    ensures LateOk(StopMove(s))
  {
    TokenTake(s, ByStop);
    LateFrame(s, StopMove(s), None);
  }

  lemma LateStep(c: Config, s: State, m: Move)
    requires LateOk(s) && PidsOk(s)
    ensures LateOk(Step(c, s, m))
  {
    if Enabled(c, s, m) {
      if m.Go? {
        LateGo(c, s);
      } else if m.Account? {
        LateBudget(c, s, B.DelayFor(c.backoff, s.loop.attempt, m.entropy));
      } else if m.Spawns? {
        LateSpawn(s, m.pid);
      } else if m.StopMoves? {
        LateStop(s);
      } else {
        LateOther(c, s, m);
      }
    }
  }

  lemma LateOther(c: Config, s: State, m: Move)
    requires LateOk(s) && Enabled(c, s, m) && !m.Go? && !m.Account? && !m.Spawns? && !m.StopMoves?
    ensures LateOk(Fire(c, s, m))
  {
    LateFrame(s, Fire(c, s, m), if m.SleepCancelled? then Some(Stopped) else None);
  }

  // ---- readiness is pursued as long as it can be reached

  /** Not cancelled, and the child has not announced its end. */
  predicate Undisturbed(s: State) {
    !s.shared.token && s.loop.child < |s.world.lives| && !s.world.lives[s.loop.child].Announced?
  }

  /** The latest child is installed and has not ended. */
  predicate Held(l: Loop) {
    || l.place.CheckStart? || l.place.Arm? || l.place.EmitStarted? || (l.place.Top? && l.hasRx)
    || l.place.Watching? || l.place.Polling? || l.place.CheckCurrent? || l.place.CheckToken? || l.place.EmitReady?
  }

  predicate WaitOk(c: Config, s: State) {
    && (Held(s.loop) && !s.shared.token ==> s.shared.current == Some(s.loop.child))
    && (s.loop.place.CheckCurrent? && c.acknowledged ==> s.loop.readinessPending)
    && ((s.loop.place.Watching? || s.loop.place.Polling?) && Undisturbed(s) ==>
          s.loop.readinessPending || Parse(s.world.log) == Running(s.loop.child, true))
  }

  lemma WaitFrame(c: Config, s: State, t: State)
    requires WaitOk(c, s) && t.world.log == s.world.log && t.loop == s.loop
    requires Undisturbed(t) ==> Undisturbed(s)
    requires !t.shared.token ==> !s.shared.token && t.shared.current == s.shared.current
    ensures WaitOk(c, t)
  {
  }

  lemma WaitCheck(c: Config, s: State)
    requires WaitOk(c, s) && PidsOk(s) && s.loop.place.CheckCurrent?
    ensures WaitOk(c, AtCheckCurrent(c, s))
  {
  }

  lemma ReadyNext(g: Progress, child: nat)
    ensures g == Running(child, false) ==> Next(g, Ready(child)) == Running(child, true)
  {
  }

  lemma WaitReady(c: Config, s: State)
    requires WaitOk(c, s) && GrammarOk(s) && s.loop.place.EmitReady?
    ensures WaitOk(c, Goto(Emit(s, Ready(s.loop.child)), Watching))
  {
    ReadyNext(Parse(s.world.log), s.loop.child);
    ParseSnoc(s.world.log, Ready(s.loop.child));
  }

  lemma WaitWatch(c: Config, s: State)
    requires WaitOk(c, s) && TokenOk(s)
    requires s.loop.place.Top? || s.loop.place.Watching? || s.loop.place.TakeToStop? || s.loop.place.CheckToken?
    ensures WaitOk(c, Advance(c, s))
  {
    TokenTake(s, ByCancel);
  }

  lemma WaitExit(c: Config, s: State)
    requires s.loop.place.EmitExited? || s.loop.place.AfterExit? || s.loop.place.StormCheck?
             || s.loop.place.CheckRespawn?
    ensures WaitOk(c, Advance(c, s))
  {
  }

  lemma WaitClear(c: Config, s: State)
    requires s.loop.place.AwaitKill? || s.loop.place.ClearCurrent? || s.loop.place.ClearReady?
    ensures WaitOk(c, Advance(c, s))
  {
    TokenTake(s, ByExit);
  }

  lemma WaitInstall(c: Config, s: State)
    requires WaitOk(c, s) && L.RxFits(s.loop)
    requires s.loop.place.Install? || s.loop.place.CheckStart? || s.loop.place.Arm? || s.loop.place.EmitStarted?
    ensures WaitOk(c, Advance(c, s))
  {
  }

  lemma WaitGo(c: Config, s: State)
    requires WaitOk(c, s) && TokenOk(s) && PidsOk(s) && GrammarOk(s) && L.RxFits(s.loop) && Enabled(c, s, Go)
    ensures WaitOk(c, Advance(c, s))
  {
    var p := s.loop.place;
    if p.CheckCurrent? {
      WaitCheck(c, s);
    } else if p.EmitReady? {
      WaitReady(c, s);
    } else if p.Top? || p.Watching? || p.TakeToStop? || p.CheckToken? {
      WaitWatch(c, s);
    } else if p.Install? || p.CheckStart? || p.Arm? || p.EmitStarted? {
      WaitInstall(c, s);
    } else if p.AwaitKill? || p.ClearCurrent? || p.ClearReady? {
      WaitClear(c, s);
    } else {
      WaitExit(c, s);
    }
  }

  /** The select arms and the spawn. */
  lemma WaitBranch(c: Config, s: State, m: Move)
    requires WaitOk(c, s) && TokenOk(s) && L.RxFits(s.loop) && Enabled(c, s, m)
    requires Quiet(m) || m.SleepCancelled?
    ensures WaitOk(c, Fire(c, s, m))
  {
  }

  lemma WaitBudget(c: Config, s: State, delay: Option<nat>)
    requires s.loop.place.Budget?
    ensures WaitOk(c, AtBudget(c, s, delay))
  {
  }

  lemma WaitStop(c: Config, s: State)
    requires WaitOk(c, s) && TokenOk(s)
    ensures WaitOk(c, StopMove(s))
  {
    TokenTake(s, ByStop);
    WaitFrame(c, s, StopMove(s));
  }

  lemma WaitStep(c: Config, s: State, m: Move)
    requires WaitOk(c, s) && TokenOk(s) && PidsOk(s) && GrammarOk(s) && L.RxFits(s.loop)
    ensures WaitOk(c, Step(c, s, m))
  {
    if Enabled(c, s, m) {
      match m
      case Go => WaitGo(c, s);
      case Account(entropy) => WaitBudget(c, s, B.DelayFor(c.backoff, s.loop.attempt, entropy));
      case StopMoves => WaitStop(c, s);
      case AckMoves(i) => WaitFrame(c, s, AckMove(s, i));
      case AckBegins(_) =>
      case Cancel =>
      case DropSupervisor =>
      case Dies(_, _) => WaitFrame(c, s, Fire(c, s, m));
      case Elapse(_) =>
      case _ => WaitBranch(c, s, m);
    }
  }
}
