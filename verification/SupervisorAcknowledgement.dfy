/** What becomes of an offered pid, and of calls about a child that has ended. */
module SupervisorAcknowledgement {
  import opened Basics
  import opened Supervisor
  import opened SupervisorHandshake
  import SupervisorSlot
  import R = SupervisorReadiness
  import L = SupervisorLimits
  import B = Backoff

  // ---- an acknowledgement is never lost on the way

  /** The latest child is announced and its readiness awaited. */
  predicate Awaited(l: Loop) {
    || l.place.EmitStarted? || (l.place.Top? && l.hasRx)
    || ((l.place.Watching? || l.place.Polling? || l.place.CheckCurrent?) && l.readinessPending)
  }

  predicate SentBy(calls: seq<Call>, i: nat, pid: nat) {
    i < |calls| && calls[i] == Call(pid, Sending)
  }

  predicate Queued(queue: seq<nat>, k: nat, pid: nat) {
    k < |queue| && queue[k] == pid
  }

  /** Still on offer, in the hands of a call, in the queue, or being looked at. */
  predicate OnItsWay(s: State, pid: nat) {
    || s.shared.readyPending == pid
    || (exists i :: 0 <= i < |s.shared.calls| && SentBy(s.shared.calls, i, pid))
    || (exists k :: 0 <= k < |s.shared.queue| && Queued(s.shared.queue, k, pid))
    || (s.loop.place.CheckCurrent? && s.loop.received == pid)
  }

  predicate HopeOk(c: Config, s: State) {
    c.acknowledged && R.Undisturbed(s) && Awaited(s.loop) ==> OnItsWay(s, PidOf(s))
  }

  /** The way to the loop is left alone. */
  lemma HopeFrame(c: Config, s: State, t: State)
    requires HopeOk(c, s) && t.shared.calls == s.shared.calls && t.shared.queue == s.shared.queue
    requires t.shared.readyPending == s.shared.readyPending && PidOf(t) == PidOf(s)
    requires R.Undisturbed(t) ==> R.Undisturbed(s)
    requires R.Undisturbed(t) && Awaited(t.loop) ==> Awaited(s.loop)
    requires s.loop.place.CheckCurrent? ==> t.loop.place.CheckCurrent? && t.loop.received == s.loop.received
    ensures HopeOk(c, t)
  {
  }

  lemma HopeCheck(c: Config, s: State)
    requires HopeOk(c, s) && PidsOk(s) && R.WaitOk(c, s) && s.loop.place.CheckCurrent?
    ensures HopeOk(c, AtCheckCurrent(c, s))
  {
    var t := AtCheckCurrent(c, s);
    if c.acknowledged && R.Undisturbed(t) && Awaited(t.loop) {
      assert s.shared.current == Some(s.loop.child);
      assert s.loop.received != PidOf(s);
      assert OnItsWay(s, PidOf(s));
    }
  }

  lemma HopeTop(c: Config, s: State)
    requires HopeOk(c, s) && s.loop.place.Top?
    ensures HopeOk(c, AtTop(s))
  {
    HopeFrame(c, s, AtTop(s));
  }

  lemma HopeWatch(c: Config, s: State)
    requires HopeOk(c, s) && R.TokenOk(s)
    requires s.loop.place.Watching? || s.loop.place.TakeToStop? || s.loop.place.CheckToken? || s.loop.place.EmitReady?
    requires s.loop.place.EmitReady? ==> !s.loop.readinessPending
    ensures HopeOk(c, Advance(c, s))
  {
    R.TokenTake(s, ByCancel);
    HopeFrame(c, s, Advance(c, s));
  }

  lemma HopeIdle(c: Config, s: State)
    requires s.loop.place.AwaitKill? || s.loop.place.ClearCurrent? || s.loop.place.ClearReady?
             || s.loop.place.EmitExited?
             || s.loop.place.AfterExit? || s.loop.place.StormCheck? || s.loop.place.CheckRespawn?
             || s.loop.place.Install?
    ensures HopeOk(c, Advance(c, s))
  {
    R.TokenTake(s, ByExit);
  }

  lemma HopeStart(c: Config, s: State)
    requires HopeOk(c, s) && (s.loop.place.CheckStart? || s.loop.place.Arm? || s.loop.place.EmitStarted?)
    ensures HopeOk(c, Advance(c, s))
  {
    if s.loop.place.EmitStarted? {
      HopeFrame(c, s, Advance(c, s));
    }
  }

  lemma HopeGo(c: Config, s: State)
    requires HopeOk(c, s) && PidsOk(s) && R.WaitOk(c, s) && R.TokenOk(s) && Enabled(c, s, Go)
    requires s.loop.place.EmitReady? ==> !s.loop.readinessPending
    ensures HopeOk(c, Advance(c, s))
  {
    var p := s.loop.place;
    if p.CheckCurrent? {
      HopeCheck(c, s);
    } else if p.Top? {
      HopeTop(c, s);
    } else if p.Watching? || p.TakeToStop? || p.CheckToken? || p.EmitReady? {
      HopeWatch(c, s);
    } else if p.CheckStart? || p.Arm? || p.EmitStarted? {
      HopeStart(c, s);
    } else {
      HopeIdle(c, s);
    }
  }

  lemma HopeReceives(c: Config, s: State)
    requires HopeOk(c, s) && Enabled(c, s, Receives)
    ensures HopeOk(c, Fire(c, s, Receives))
  {
    var t, pid := Fire(c, s, Receives), PidOf(s);
    if R.Undisturbed(s) {
      assert OnItsWay(s, pid);
      if k :| 0 <= k < |s.shared.queue| && Queued(s.shared.queue, k, pid) {
        assert k > 0 ==> Queued(t.shared.queue, k - 1, pid);
      }
    }
  }

  lemma HopeQuiet(c: Config, s: State, m: Move)
    requires HopeOk(c, s) && L.RxFits(s.loop) && R.TokenOk(s) && Enabled(c, s, m) && Quiet(m) && !m.Receives?
    ensures HopeOk(c, Fire(c, s, m))
  {
    if !m.Spawns? {
      HopeFrame(c, s, Fire(c, s, m));
    }
  }

  lemma HopeBudget(c: Config, s: State, delay: Option<nat>)
    requires s.loop.place.Budget?
    ensures HopeOk(c, AtBudget(c, s, delay))
  {
  }

  lemma HopeStop(c: Config, s: State)
    requires HopeOk(c, s)
    ensures HopeOk(c, StopMove(s))
  {
    R.TokenTake(s, ByStop);
    HopeFrame(c, s, StopMove(s));
  }

  /** One call moves, and what it held is passed on. */
  lemma HopeStaged(c: Config, s: State, t: State, i: nat)
    requires HopeOk(c, s) && i < |s.shared.calls| == |t.shared.calls| && t.loop == s.loop
    requires t.world.pids == s.world.pids && t.world.lives == s.world.lives && t.shared.token == s.shared.token
    requires forall j :: 0 <= j < |s.shared.calls| && j != i ==> t.shared.calls[j] == s.shared.calls[j]
    requires s.shared.queue <= t.shared.queue
    requires s.shared.calls[i].stage.Sending? && !s.loop.place.Returned? ==>
               |t.shared.queue| > |s.shared.queue| && t.shared.queue[|s.shared.queue|] == s.shared.calls[i].pid
    requires t.shared.readyPending != s.shared.readyPending && !s.loop.place.Returned? ==>
               t.shared.calls[i] == Call(s.shared.readyPending, Sending)
    ensures HopeOk(c, t)
  {
    var pid := PidOf(s);
    if c.acknowledged && R.Undisturbed(s) && Awaited(s.loop) {
      if s.shared.readyPending == pid {
        assert t.shared.readyPending != pid ==> SentBy(t.shared.calls, i, pid);
      } else if j :| 0 <= j < |s.shared.calls| && SentBy(s.shared.calls, j, pid) {
        if j == i {
          assert Queued(t.shared.queue, |s.shared.queue|, pid);
        } else {
          assert SentBy(t.shared.calls, j, pid);
        }
      } else if k :| 0 <= k < |s.shared.queue| && Queued(s.shared.queue, k, pid) {
        assert Queued(t.shared.queue, k, pid);
      }
    }
  }

  lemma HopeAck(c: Config, s: State, i: nat)
    requires HopeOk(c, s) && OfferOk(s) && i < |s.shared.calls|
    ensures HopeOk(c, AckMove(s, i))
  {
    match s.shared.calls[i].stage
    case Locking => HopeStaged(c, s, AckMove(s, i), i);
    case Exchanging => HopeStaged(c, s, AckMove(s, i), i);
    case Sending => HopeStaged(c, s, AckMove(s, i), i);
    case Restoring => HopeStaged(c, s, AckMove(s, i), i);
    case Done(_) =>
  }

  lemma HopeBegins(c: Config, s: State, pid: nat)
    requires HopeOk(c, s)
    ensures HopeOk(c, s.(shared := s.shared.(calls := s.shared.calls + [Call(pid, Locking)])))
  {
    var t := s.(shared := s.shared.(calls := s.shared.calls + [Call(pid, Locking)]));
    if i :| 0 <= i < |s.shared.calls| && SentBy(s.shared.calls, i, PidOf(s)) {
      assert SentBy(t.shared.calls, i, PidOf(s));
    }
  }

  lemma HopeOther(c: Config, s: State, m: Move)
    requires HopeOk(c, s) && Enabled(c, s, m)
    requires m.SleepCancelled? || m.Cancel? || m.DropSupervisor? || m.Dies? || m.Elapse?
    ensures HopeOk(c, Fire(c, s, m))
  {
    HopeFrame(c, s, Fire(c, s, m));
  }

  lemma HopeStep(c: Config, s: State, m: Move)
    requires HopeOk(c, s) && OfferOk(s) && PidsOk(s) && R.WaitOk(c, s) && R.TokenOk(s) && L.RxFits(s.loop)
    requires s.loop.place.EmitReady? ==> !s.loop.readinessPending
    ensures HopeOk(c, Step(c, s, m))
  {
    if Enabled(c, s, m) {
      if m.Go? {
        HopeGo(c, s);
      } else if m.Receives? {
        HopeReceives(c, s);
      } else if Quiet(m) {
        HopeQuiet(c, s, m);
      } else if m.Account? {
        HopeBudget(c, s, B.DelayFor(c.backoff, s.loop.attempt, m.entropy));
      } else if m.StopMoves? {
        HopeStop(c, s);
      } else if m.AckMoves? {
        HopeAck(c, s, m.call);
      } else if m.AckBegins? {
        HopeBegins(c, s, m.pid);
      } else {
        HopeOther(c, s, m);
      }
    }
  }

  // ---- a child that has ended

  predicate Refused(call: Call, pid: nat) {
    call.pid == pid ==> call.stage.Locking? || call.stage == Done(false)
  }

  /** The child's end is announced, nothing more is decided about it, and calls from the given one on are refused. */
  predicate Past(s: State, child: nat, from: nat) {
    && child < |s.world.pids| && child < |s.world.lives| && s.world.lives[child].Announced?
    && (s.loop.child == child ==> !Deciding(s.loop.place))
    && (forall k :: 0 <= k < |s.world.log| ==> s.world.log[k] != Ready(child))
    && (forall i :: from <= i < |s.shared.calls| ==> Refused(s.shared.calls[i], s.world.pids[child]))
  }

  lemma PastFrame(s: State, t: State, child: nat, from: nat, e: Option<Event>)
    requires Past(s, child, from) && t.shared.calls == s.shared.calls
    requires s.world.pids <= t.world.pids && s.world.lives <= t.world.lives
    requires Grown(s.world.log, t.world.log, e) && e != Some(Ready(child))
    requires t.loop.child == child && Deciding(t.loop.place) ==> s.loop.child == child && Deciding(s.loop.place)
    ensures Past(t, child, from)
  {
  }

  lemma PastGo(c: Config, s: State, child: nat, from: nat)
    requires Past(s, child, from) && SupervisorSlot.SlotOk(s) && Enabled(c, s, Go)
    ensures Past(Advance(c, s), child, from)
  {
    var e := LogGrows(c, s);
    GoKeepsPids(c, s);
    GoKeepsChild(c, s);
    GoKeepsShared(c, s);
    GoDecides(c, s);
    GoKeepsLives(c, s);
    PastCheck(c, s, child);
    PastFrame(s, Advance(c, s), child, from, e);
  }

  lemma GoKeepsLives(c: Config, s: State)
    ensures Advance(c, s).world.lives == s.world.lives
  {
    R.TokenTake(s, ByCancel);
    R.TokenTake(s, ByExit);
  }

  lemma PastCheck(c: Config, s: State, child: nat)
    requires SupervisorSlot.SlotOk(s) && child < |s.world.lives| && s.world.lives[child].Announced?
    ensures s.loop.place.CheckCurrent? && s.loop.child == child ==> AtCheckCurrent(c, s).loop.place.Watching?
  {
  }

  /** Only the ended child's own pid could pass, and it is not alive. */
  lemma PastAlive(s: State, child: nat)
    requires PidsOk(s) && child < |s.world.pids| && child < |s.world.lives| && s.world.lives[child].Announced?
    ensures !CurrentAlive(s, Some(s.world.pids[child]))
  {
  }

  lemma PastAck(s: State, child: nat, from: nat, i: nat)
    requires Past(s, child, from) && PidsOk(s) && i < |s.shared.calls|
    ensures Past(AckMove(s, i), child, from)
  {
    PastAlive(s, child);
    var t := AckMove(s, i);
    forall j | from <= j < |t.shared.calls| ensures Refused(t.shared.calls[j], t.world.pids[child]) {
      assert Refused(s.shared.calls[j], s.world.pids[child]);
      PastCall(s, i, j);
    }
    PastRest(s, i);
  }

  lemma PastCall(s: State, i: nat, j: nat)
    requires i < |s.shared.calls| && j < |s.shared.calls|
    ensures var t := AckMove(s, i);
            && |t.shared.calls| == |s.shared.calls| && t.shared.calls[j].pid == s.shared.calls[j].pid
            && (j != i ==> t.shared.calls[j] == s.shared.calls[j])
            && (s.shared.calls[i].stage.Locking? && !CurrentAlive(s, Some(s.shared.calls[i].pid)) ==>
                  t.shared.calls[i].stage == Done(false))
            && (s.shared.calls[i].stage.Done? ==> t == s)
  {
  }

  lemma PastRest(s: State, i: nat)
    requires i < |s.shared.calls|
    ensures var t := AckMove(s, i);
            t.loop == s.loop && t.world.log == s.world.log && t.world.pids == s.world.pids
                && t.world.lives == s.world.lives
  {
  }

  lemma PastBudget(c: Config, s: State, child: nat, from: nat, delay: Option<nat>)
    requires Past(s, child, from) && s.loop.place.Budget?
    ensures Past(AtBudget(c, s, delay), child, from)
  {
    var e := BudgetGrows(c, s, delay);
    PastFrame(s, AtBudget(c, s, delay), child, from, e);
  }

  lemma PastStop(s: State, child: nat, from: nat)
    requires Past(s, child, from)
    ensures Past(StopMove(s), child, from)
  {
    R.TokenTake(s, ByStop);
    PastFrame(s, StopMove(s), child, from, None);
  }

  lemma PastOther(c: Config, s: State, child: nat, from: nat, m: Move)
    requires Past(s, child, from) && Enabled(c, s, m)
    requires Quiet(m) || m.SleepCancelled? || m.Cancel? || m.DropSupervisor? || m.Elapse?
    ensures Past(Fire(c, s, m), child, from)
  {
    PastFrame(s, Fire(c, s, m), child, from, if m.SleepCancelled? then Some(Stopped) else None);
  }

  lemma PastStep(c: Config, s: State, child: nat, from: nat, m: Move)
    requires Past(s, child, from) && PidsOk(s) && SupervisorSlot.SlotOk(s) && from <= |s.shared.calls|
    ensures Past(Step(c, s, m), child, from)
  {
    if Enabled(c, s, m) {
      if m.Go? {
        PastGo(c, s, child, from);
      } else if m.Account? {
        PastBudget(c, s, child, from, B.DelayFor(c.backoff, s.loop.attempt, m.entropy));
      } else if m.AckMoves? {
        PastAck(s, child, from, m.call);
      } else if m.StopMoves? {
        PastStop(s, child, from);
      } else if m.AckBegins? || m.Dies? {
        assert Past(Fire(c, s, m), child, from);
      } else {
        PastOther(c, s, child, from, m);
      }
    }
  }
}
