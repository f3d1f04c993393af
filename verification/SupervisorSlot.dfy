/** Every child's handle leaves the shared slot exactly once. */
module SupervisorSlot {
  import opened Basics
  import opened Supervisor
  import B = Backoff

  /** The loop has taken what there was to take from the slot, or not yet filled it. */
  predicate SlotEmptied(l: Loop) {
    || l.place.ClearReady? || l.place.EmitExited? || l.place.AfterExit? || l.place.StormCheck? || l.place.Budget?
    || l.place.Sleeping? || l.place.CheckRespawn? || l.place.Spawning? || l.place.Install? || l.place.Returned?
    || (l.place.Top? && !l.hasRx) || (l.cancelled && !l.place.TakeToStop?)
  }

  /** Not yet past the exit of the latest child, so not cancelled by an earlier one. */
  predicate Restarts(l: Loop) {
    || l.place.Top? || l.place.StormCheck? || l.place.Budget? || l.place.Sleeping? || l.place.CheckRespawn?
    || l.place.Spawning? || l.place.Install? || l.place.CheckStart? || l.place.Arm? || l.place.EmitStarted?
  }

  predicate InOrder(departures: seq<Departure>) {
    forall k :: 0 <= k < |departures| ==> departures[k].child == k
  }

  predicate SlotFits(l: Loop, current: Option<nat>, left: nat) {
    && (current.Some? ==> current.value == l.child)
    && left == l.child + (if current.Some? || l.place.Install? then 0 else 1)
    && (SlotEmptied(l) ==> current.None?)
    && (Restarts(l) ==> !l.cancelled)
    && (l.place.CheckStart? || l.place.Arm? || l.place.EmitStarted? ==> l.hasRx)
  }

  predicate SlotOk(s: State) {
    InOrder(s.world.departures) && SlotFits(s.loop, s.shared.current, |s.world.departures|)
  }

  lemma SlotTake(s: State, how: Leave)
    requires SlotOk(s)
    ensures SlotOk(TakeCurrent(s, how))
    ensures TakeCurrent(s, how).shared.current == None && TakeCurrent(s, how).loop == s.loop
  {
  }

  lemma SlotTakeToStop(s: State)
    requires SlotOk(s) && s.loop.place.TakeToStop?
    ensures SlotOk(AtTakeToStop(s))
  {
    SlotTake(s, ByCancel);
  }

  lemma SlotClear(s: State)
    requires SlotOk(s) && s.loop.place.ClearCurrent?
    ensures SlotOk(Goto(TakeCurrent(s, ByExit), ClearReady))
  {
    SlotTake(s, ByExit);
  }

  lemma SlotInstall(s: State)
    requires SlotOk(s) && s.loop.place.Install?
    ensures SlotOk(AtInstall(s))
  {
  }

  /** The slot and the departures are left alone. */
  lemma SlotFrame(s: State, t: State)
    requires SlotOk(s) && t.shared.current == s.shared.current && t.world.departures == s.world.departures
    requires SlotFits(t.loop, s.shared.current, |s.world.departures|)
    ensures SlotOk(t)
  {
  }

  lemma SlotWatch(c: Config, s: State)
    requires SlotOk(s)
    requires s.loop.place.Top? || s.loop.place.Watching? || s.loop.place.CheckCurrent? || s.loop.place.CheckToken?
             || s.loop.place.EmitReady? || s.loop.place.AwaitKill?
    ensures SlotOk(Advance(c, s))
  {
    SlotFrame(s, Advance(c, s));
  }

  lemma SlotExit(c: Config, s: State)
    requires SlotOk(s)
    requires s.loop.place.ClearReady? || s.loop.place.EmitExited? || s.loop.place.AfterExit? || s.loop.place.StormCheck?
    ensures SlotOk(Advance(c, s))
  {
    SlotFrame(s, Advance(c, s));
  }

  lemma SlotRespawn(c: Config, s: State)
    requires SlotOk(s)
    requires s.loop.place.CheckRespawn? || s.loop.place.CheckStart? || s.loop.place.Arm? || s.loop.place.EmitStarted?
    ensures SlotOk(Advance(c, s))
  {
    SlotFrame(s, Advance(c, s));
  }

  lemma SlotGo(c: Config, s: State)
    requires SlotOk(s) && Enabled(c, s, Go)
    ensures SlotOk(Advance(c, s))
  {
    var p := s.loop.place;
    if p.TakeToStop? {
      SlotTakeToStop(s);
    } else if p.ClearCurrent? {
      SlotClear(s);
    } else if p.Install? {
      SlotInstall(s);
    } else if p.ClearReady? || p.EmitExited? || p.AfterExit? || p.StormCheck? {
      SlotExit(c, s);
    } else if p.CheckRespawn? || p.CheckStart? || p.Arm? || p.EmitStarted? {
      SlotRespawn(c, s);
    } else {
      SlotWatch(c, s);
    }
  }

  lemma SlotBudget(c: Config, s: State, delay: Option<nat>)
    requires SlotOk(s) && s.loop.place.Budget?
    ensures SlotOk(AtBudget(c, s, delay))
  {
    SlotFrame(s, AtBudget(c, s, delay));
  }

  lemma SlotStop(s: State)
    requires SlotOk(s)
    ensures SlotOk(StopMove(s))
  {
    SlotTake(s, ByStop);
  }

  lemma SlotQuiet(c: Config, s: State, m: Move)
    requires SlotOk(s) && |s.world.pids| == s.loop.child + 1 && Enabled(c, s, m) && Quiet(m)
    ensures SlotOk(Fire(c, s, m))
  {
    SlotFrame(s, Fire(c, s, m));
  }

  lemma SlotStep(c: Config, s: State, m: Move)
    requires SlotOk(s) && |s.world.pids| == s.loop.child + 1
    ensures SlotOk(Step(c, s, m))
  {
    if Enabled(c, s, m) {
      if m.Go? {
        SlotGo(c, s);
      } else if m.StopMoves? {
        SlotStop(s);
      } else if m.Account? {
        SlotBudget(c, s, B.DelayFor(c.backoff, s.loop.attempt, m.entropy));
      } else if Quiet(m) {
        SlotQuiet(c, s, m);
      } else {
        SlotFrame(s, Fire(c, s, m));
      }
    }
  }

  /** A handle dropped on the exit path belonged to a child that had ended, or whose pump had. */
  predicate ExitOk(s: State) {
    && |s.world.lives| == s.loop.child + 1 && |s.world.departures| <= s.loop.child + 1
    && (s.loop.place.AwaitKill? || s.loop.place.ClearCurrent? ==> !s.world.lives[s.loop.child].Alive?)
    && (forall k :: 0 <= k < |s.world.departures| && s.world.departures[k].how.ByExit? ==> !s.world.lives[k].Alive?)
  }

  lemma ExitTake(s: State, how: Leave)
    requires ExitOk(s) && SlotOk(s) && (how.ByExit? ==> s.loop.place.ClearCurrent?)
    ensures ExitOk(TakeCurrent(s, how))
  {
  }

  /** The places keep to the order in which they lead to the exit. */
  lemma ExitFrame(s: State, t: State)
    requires ExitOk(s) && t.world.departures == s.world.departures && t.world.lives == s.world.lives
    requires t.loop.child == s.loop.child
    requires t.loop.place.AwaitKill? || t.loop.place.ClearCurrent? ==>
               s.loop.place.AwaitKill? || s.loop.place.ClearCurrent?
    ensures ExitOk(t)
  {
  }

  lemma ExitGo(c: Config, s: State)
    requires ExitOk(s) && SlotOk(s) && Enabled(c, s, Go)
    ensures ExitOk(Advance(c, s))
  {
    if s.loop.place.TakeToStop? {
      ExitTake(s, ByCancel);
    } else if s.loop.place.ClearCurrent? {
      ExitTake(s, ByExit);
    } else {
      ExitFrame(s, Advance(c, s));
    }
  }

  lemma ExitBudget(c: Config, s: State, delay: Option<nat>)
    requires ExitOk(s) && s.loop.place.Budget?
    ensures ExitOk(AtBudget(c, s, delay))
  {
    ExitFrame(s, AtBudget(c, s, delay));
  }

  lemma ExitStop(s: State)
    requires ExitOk(s) && SlotOk(s)
    ensures ExitOk(StopMove(s))
  {
    ExitTake(s, ByStop);
  }

  lemma ExitStep(c: Config, s: State, m: Move)
    requires ExitOk(s) && SlotOk(s) && |s.world.pids| == s.loop.child + 1
    ensures ExitOk(Step(c, s, m))
  {
    if Enabled(c, s, m) {
      match m
      case Go => ExitGo(c, s);
      case StopMoves => ExitStop(s);
      case Account(entropy) => ExitBudget(c, s, B.DelayFor(c.backoff, s.loop.attempt, entropy));
      case _ =>
    }
  }

  /** The cancel branch took the latest child. */
  predicate Cancelled(s: State) {
    |s.world.departures| == s.loop.child + 1 && s.world.departures[s.loop.child].how.ByCancel?
  }

  predicate Watched(p: Place) {
    p.Watching? || p.TakeToStop? || p.Polling? || p.CheckCurrent? || p.CheckToken? || p.EmitReady? || p.AwaitKill?
  }

  predicate NotYetWatched(l: Loop) {
    l.place.CheckStart? || l.place.Arm? || l.place.EmitStarted? || (l.place.Top? && l.hasRx)
  }

  /** Until its exit is reported, a child taken by the cancel branch has its kill task, and no other child has. */
  predicate KillOk(s: State) {
    && (Watched(s.loop.place) ==> s.loop.killTask == if Cancelled(s) then Some(s.loop.child) else None)
    && (NotYetWatched(s.loop) ==> !Cancelled(s))
    && (s.shared.stop.Stopping? && s.shared.stop.child.Some? ==>
          StoppedBy(s.world.departures, s.shared.stop.child.value))
  }

  predicate StoppedBy(departures: seq<Departure>, child: nat) {
    child < |departures| && departures[child] == Departure(child, ByStop)
  }

  lemma KillFrame(s: State, t: State)
    requires KillOk(s) && t.world.departures == s.world.departures && t.loop.child == s.loop.child
    requires Watched(t.loop.place) ==> Watched(s.loop.place) && t.loop.killTask == s.loop.killTask
    requires NotYetWatched(t.loop) ==> NotYetWatched(s.loop)
    requires t.shared.stop == s.shared.stop
    ensures KillOk(t)
  {
  }

  lemma KillTop(s: State)
    requires KillOk(s) && s.loop.place.Top?
    ensures KillOk(AtTop(s))
  {
  }

  lemma KillTakeToStop(s: State)
    requires KillOk(s) && SlotOk(s) && s.loop.place.TakeToStop?
    ensures KillOk(AtTakeToStop(s))
  {
  }

  lemma KillGo(c: Config, s: State)
    requires KillOk(s) && SlotOk(s) && Enabled(c, s, Go)
    ensures KillOk(Advance(c, s))
  {
    if s.loop.place.Top? {
      KillTop(s);
    } else if s.loop.place.TakeToStop? {
      KillTakeToStop(s);
    } else if s.loop.place.ClearCurrent? {
      KillClear(s);
    } else if s.loop.place.Install? {
      KillInstall(s);
    } else if Watched(s.loop.place) || s.loop.place.ClearReady? || s.loop.place.EmitExited? {
      KillWatch(c, s);
    } else {
      KillRest(c, s);
    }
  }

  lemma KillClear(s: State)
    requires KillOk(s)
    ensures KillOk(Goto(TakeCurrent(s, ByExit), ClearReady))
  {
  }

  lemma KillInstall(s: State)
    requires KillOk(s) && SlotOk(s) && s.loop.place.Install?
    ensures KillOk(AtInstall(s))
  {
  }

  lemma KillWatch(c: Config, s: State)
    requires KillOk(s)
    requires s.loop.place.Watching? || s.loop.place.CheckCurrent? || s.loop.place.CheckToken? || s.loop.place.EmitReady?
             || s.loop.place.AwaitKill? || s.loop.place.ClearReady? || s.loop.place.EmitExited?
    ensures KillOk(Advance(c, s))
  {
    KillFrame(s, Advance(c, s));
  }

  lemma KillRest(c: Config, s: State)
    requires KillOk(s)
    requires s.loop.place.AfterExit? || s.loop.place.StormCheck? || s.loop.place.CheckRespawn?
             || s.loop.place.CheckStart?
             || s.loop.place.Arm? || s.loop.place.EmitStarted?
    ensures KillOk(Advance(c, s))
  {
    KillFrame(s, Advance(c, s));
  }

  lemma KillStop(s: State)
    requires KillOk(s) && SlotOk(s)
    ensures KillOk(StopMove(s))
  {
  }

  lemma KillBudget(c: Config, s: State, delay: Option<nat>)
    requires KillOk(s) && s.loop.place.Budget?
    ensures KillOk(AtBudget(c, s, delay))
  {
    KillFrame(s, AtBudget(c, s, delay));
  }

  lemma KillBranch(c: Config, s: State, m: Move)
    requires KillOk(s) && (s.loop.place.Spawning? ==> !s.loop.hasRx) && Enabled(c, s, m) && Quiet(m)
    ensures KillOk(Fire(c, s, m))
  {
    if !m.Spawns? {
      KillFrame(s, Fire(c, s, m));
    }
  }

  lemma KillStep(c: Config, s: State, m: Move)
    requires KillOk(s) && SlotOk(s) && (s.loop.place.Spawning? ==> !s.loop.hasRx)
    ensures KillOk(Step(c, s, m))
  {
    if Enabled(c, s, m) {
      if m.Go? {
        KillGo(c, s);
      } else if m.StopMoves? {
        KillStop(s);
      } else if m.Account? {
        KillBudget(c, s, B.DelayFor(c.backoff, s.loop.attempt, m.entropy));
      } else if Quiet(m) {
        KillBranch(c, s, m);
      } else {
        KillFrame(s, Fire(c, s, m));
      }
    }
  }
}
