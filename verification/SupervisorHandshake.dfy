/** The readiness handshake: which pids are offered, acknowledged, and believed. */
module SupervisorHandshake {
  import opened Basics
  import opened Supervisor
  import SupervisorSlot
  import B = Backoff

  predicate Grown(log: seq<Event>, longer: seq<Event>, e: Option<Event>) {
    match e case None => longer == log case Some(e) => longer == log + [e]
  }

  lemma TakeKeepsLog(s: State, how: Leave)
    ensures TakeCurrent(s, how).world.log == s.world.log && TakeCurrent(s, how).world.pids == s.world.pids
    ensures TakeCurrent(s, how).world.acked == s.world.acked && TakeCurrent(s, how).world.armed == s.world.armed
  {
  }

  /** Only two places announce a child as started or ready. */
  lemma LogGrows(c: Config, s: State) returns (e: Option<Event>)
    requires Enabled(c, s, Go)
    ensures Grown(s.world.log, Advance(c, s).world.log, e)
    ensures e.Some? && e.value.Started? ==> s.loop.place.EmitStarted? && e.value == Started(PidOf(s), s.loop.child)
    ensures e.Some? ==> !e.value.Restarting?
    ensures e.Some? && e.value.Ready? ==> s.loop.place.EmitReady? && e.value == Ready(s.loop.child)
  {
    match s.loop.place
    case Top => e := if !s.loop.hasRx && s.shared.token then Some(Stopped) else None;
    case EmitReady => e := Some(Ready(s.loop.child));
    case EmitExited => e := Some(Exited(s.loop.payload, s.loop.child));
    case AfterExit => e := if s.loop.cancelled || s.shared.token then Some(Stopped) else None;
    case StormCheck => e := if AtStormCheck(c, s).loop.place.Returned? then Some(GaveUp) else None;
    case CheckRespawn => e := if s.shared.token then Some(Stopped) else None;
    case EmitStarted => e := Some(Started(PidOf(s), s.loop.child));
    case TakeToStop => TakeKeepsLog(s, ByCancel); e := None;
    case ClearCurrent => TakeKeepsLog(s, ByExit); e := None;
    case _ => e := None;
  }

  lemma BudgetGrows(c: Config, s: State, delay: Option<nat>) returns (e: Option<Event>)
    ensures Grown(s.world.log, AtBudget(c, s, delay).world.log, e)
    ensures e.Some? ==> !e.value.Started? && !e.value.Ready?
    ensures AtBudget(c, s, delay).world.pids == s.world.pids && AtBudget(c, s, delay).world.acked == s.world.acked
    ensures AtBudget(c, s, delay).world.armed == s.world.armed
  {
    e := if c.policy.Never? then None
         else if s.loop.attempt + 1 > c.policy.maxRestarts then Some(GaveUp)
         else Some(Restarting(s.loop.attempt + 1, delay));
  }

  lemma GoKeepsPids(c: Config, s: State)
    ensures Advance(c, s).world.pids == s.world.pids && Advance(c, s).world.acked == s.world.acked
  {
    TakeKeepsLog(s, ByCancel);
    TakeKeepsLog(s, ByExit);
  }

  // ---- pids

  /** Pids are never zero and never repeat, and `Started` announces the right one. */
  predicate PidsOk(s: State) {
    && |s.world.pids| == s.loop.child + 1
    && (forall i :: 0 <= i < |s.world.pids| ==> s.world.pids[i] != 0)
    && (forall i, j :: 0 <= i < j < |s.world.pids| ==> s.world.pids[i] != s.world.pids[j])
    && (forall k :: 0 <= k < |s.world.log| ==> Announces(s.world.pids, s.world.log[k]))
  }

  predicate Announces(pids: seq<nat>, e: Event) {
    e.Started? ==> e.child < |pids| && e.pid == pids[e.child]
  }

  lemma PidsFrame(s: State, t: State, e: Option<Event>)
    requires PidsOk(s) && t.world.pids == s.world.pids && t.loop.child == s.loop.child
    requires Grown(s.world.log, t.world.log, e) && (e.Some? ==> Announces(s.world.pids, e.value))
    ensures PidsOk(t)
  {
  }

  lemma PidsSpawned(c: Config, s: State, pid: nat)
    requires PidsOk(s) && Enabled(c, s, Spawns(pid))
    ensures PidsOk(AtSpawning(s, pid))
  {
    var t := AtSpawning(s, pid);
    forall k | 0 <= k < |t.world.log| ensures Announces(t.world.pids, t.world.log[k]) {
      assert Announces(s.world.pids, s.world.log[k]);
    }
  }

  lemma GoKeepsChild(c: Config, s: State)
    ensures Advance(c, s).loop.child == s.loop.child
  {
  }

  lemma PidsGo(c: Config, s: State)
    requires PidsOk(s) && Enabled(c, s, Go)
    ensures PidsOk(Advance(c, s))
  {
    var e := LogGrows(c, s);
    GoKeepsPids(c, s);
    GoKeepsChild(c, s);
    PidsFrame(s, Advance(c, s), e);
  }

  lemma PidsStep(c: Config, s: State, m: Move)
    requires PidsOk(s)
    ensures PidsOk(Step(c, s, m))
  {
    if Enabled(c, s, m) {
      match m
      case Go => PidsGo(c, s);
      case Spawns(pid) => PidsSpawned(c, s, pid);
      case Account(entropy) =>
        var delay := B.DelayFor(c.backoff, s.loop.attempt, entropy);
        var e := BudgetGrows(c, s, delay);
        PidsFrame(s, AtBudget(c, s, delay), e);
      case SleepCancelled => PidsFrame(s, Finish(s, Stopped), Some(Stopped));
      case StopMoves =>
        TakeKeepsLog(s, ByStop);
        PidsFrame(s, StopMove(s), None);
      case _ => PidsFrame(s, Fire(c, s, m), None);
    }
  }

  // ---- who holds the offer

  /** A call past its compare-exchange: it holds the offer, or has passed it on. */
  predicate Holds(call: Call) {
    call.stage.Sending? || call.stage.Restoring? || call.stage == Done(true)
  }

  /**
   * An offered pid is held at one place: the atomic, or one call that exchanged
   * it away. A call that answered true keeps it for good.
   */
  predicate HoldersOk(calls: seq<Call>, readyPending: nat, armed: set<nat>) {
    && (forall i :: 0 <= i < |calls| && Holds(calls[i]) ==>
          calls[i].pid in armed && calls[i].pid != readyPending && calls[i].pid != 0)
    && (forall i :: 0 <= i < |calls| && calls[i].stage.Exchanging? ==> calls[i].pid != 0)
    && (forall i, j :: 0 <= i < j < |calls| && Holds(calls[i]) && Holds(calls[j]) ==> calls[i].pid != calls[j].pid)
    && (readyPending != 0 ==> readyPending in armed)
  }

  predicate Unoffered(p: Place) {
    p.Install? || p.CheckStart? || p.Arm?
  }

  /** Only pids of children are ever offered, and each once. */
  predicate ArmedOk(s: State) {
    && (forall p :: p in s.world.armed ==> p in s.world.pids)
    && (Unoffered(s.loop.place) ==> PidOf(s) !in s.world.armed)
  }

  predicate HandOk(s: State) {
    HoldersOk(s.shared.calls, s.shared.readyPending, s.world.armed) && ArmedOk(s)
  }

  lemma HandFrame(s: State, t: State)
    requires HandOk(s) && t.shared.calls == s.shared.calls && t.shared.readyPending == s.shared.readyPending
    requires t.world.armed == s.world.armed && t.world.pids == s.world.pids && t.loop.child == s.loop.child
    requires Unoffered(t.loop.place) ==> Unoffered(s.loop.place)
    ensures HandOk(t)
  {
  }

  lemma HandTake(s: State, how: Leave)
    requires HandOk(s)
    ensures HandOk(TakeCurrent(s, how))
    ensures TakeCurrent(s, how).loop == s.loop
  {
  }

  lemma HandArm(s: State)
    requires HandOk(s) && PidsOk(s) && s.loop.place.Arm?
    ensures HandOk(AtArm(s))
  {
  }

  lemma HandClear(s: State)
    requires HandOk(s) && s.loop.place.ClearReady?
    ensures HandOk(Goto(s.(shared := s.shared.(readyPending := 0)), EmitExited))
  {
  }

  lemma HandSilent(c: Config, s: State)
    requires Enabled(c, s, Go) && !s.loop.place.Arm? && !s.loop.place.ClearReady?
    ensures var t := Advance(c, s);
            && t.shared.calls == s.shared.calls && t.shared.readyPending == s.shared.readyPending
            && t.world.armed == s.world.armed && t.world.pids == s.world.pids && t.loop.child == s.loop.child
    ensures Unoffered(Advance(c, s).loop.place) ==> Unoffered(s.loop.place)
  {
  }

  lemma HandGo(c: Config, s: State)
    requires HandOk(s) && PidsOk(s) && Enabled(c, s, Go)
    ensures HandOk(Advance(c, s))
  {
    if s.loop.place.Arm? {
      HandArm(s);
    } else if s.loop.place.TakeToStop? {
      HandTake(s, ByCancel);
    } else if s.loop.place.ClearCurrent? {
      HandTake(s, ByExit);
    } else if s.loop.place.ClearReady? {
      HandClear(s);
    } else {
      HandSilent(c, s);
      HandFrame(s, Advance(c, s));
    }
  }

  lemma HandSpawned(c: Config, s: State, pid: nat)
    requires HandOk(s) && PidsOk(s) && Enabled(c, s, Spawns(pid))
    ensures HandOk(AtSpawning(s, pid))
  {
    assert pid !in s.world.pids;
  }

  lemma HandBudget(c: Config, s: State, delay: Option<nat>)
    requires HandOk(s) && s.loop.place.Budget?
    ensures HandOk(AtBudget(c, s, delay))
  {
    HandFrame(s, AtBudget(c, s, delay));
  }

  lemma HandBegins(s: State, pid: nat)
    requires HandOk(s)
    ensures HandOk(s.(shared := s.shared.(calls := s.shared.calls + [Call(pid, Locking)])))
  {
  }

  /** A call moves without touching the atomic. */
  lemma HandStaged(s: State, i: nat, stage: Stage)
    requires HandOk(s) && i < |s.shared.calls|
    requires Holds(Call(s.shared.calls[i].pid, stage)) ==> Holds(s.shared.calls[i])
    requires stage.Exchanging? ==> s.shared.calls[i].pid != 0
    ensures HandOk(Staged(s, i, stage))
  {
  }

  lemma HandLock(s: State, i: nat)
    requires HandOk(s) && PidsOk(s) && i < |s.shared.calls| && s.shared.calls[i].stage.Locking?
    ensures HandOk(AckMove(s, i))
  {
    HandStaged(s, i, if CurrentAlive(s, Some(s.shared.calls[i].pid)) then Exchanging else Done(false));
  }

  lemma HandExchange(s: State, i: nat)
    requires HandOk(s) && i < |s.shared.calls| && s.shared.calls[i].stage.Exchanging?
    ensures HandOk(AckExchange(s, i))
  {
    if s.shared.readyPending != s.shared.calls[i].pid {
      HandStaged(s, i, Done(false));
    }
  }

  lemma HandSend(s: State, i: nat)
    requires HandOk(s) && i < |s.shared.calls| && s.shared.calls[i].stage.Sending?
    ensures HandOk(AckSend(s, i))
  {
    HandStaged(s, i, if s.loop.place.Returned? then Restoring else Done(true));
  }

  lemma HandRestore(s: State, i: nat)
    requires HandOk(s) && i < |s.shared.calls| && s.shared.calls[i].stage.Restoring?
    ensures HandOk(AckMove(s, i))
  {
    HandStaged(s, i, Done(false));
  }

  lemma HandAck(s: State, i: nat)
    requires HandOk(s) && PidsOk(s) && i < |s.shared.calls|
    ensures HandOk(AckMove(s, i))
  {
    match s.shared.calls[i].stage
    case Locking => HandLock(s, i);
    case Exchanging => HandExchange(s, i);
    case Sending => HandSend(s, i);
    case Restoring => HandRestore(s, i);
    case Done(_) =>
  }

  lemma HandStop(s: State)
    requires HandOk(s)
    ensures HandOk(StopMove(s))
  {
    HandTake(s, ByStop);
  }

  lemma HandStep(c: Config, s: State, m: Move)
    requires HandOk(s) && PidsOk(s)
    ensures HandOk(Step(c, s, m))
  {
    if Enabled(c, s, m) {
      match m
      case Go => HandGo(c, s);
      case Spawns(pid) => HandSpawned(c, s, pid);
      case Account(entropy) => HandBudget(c, s, B.DelayFor(c.backoff, s.loop.attempt, entropy));
      case StopMoves => HandStop(s);
      case AckBegins(pid) => HandBegins(s, pid);
      case AckMoves(i) => HandAck(s, i);
      case _ => HandFrame(s, Fire(c, s, m));
    }
  }

  // ---- what is on offer

  /** From the announcement of a child to its exit path. */
  predicate Offering(l: Loop) {
    || l.place.Watching? || l.place.TakeToStop? || l.place.Polling? || l.place.CheckCurrent? || l.place.CheckToken?
    || l.place.EmitReady? || l.place.AwaitKill? || l.place.ClearCurrent? || l.place.ClearReady? || l.place.EmitStarted?
    || (l.place.Top? && l.hasRx)
  }

  /**
   * While the loop runs, only the latest child's pid is on offer, and nothing is
   * between one child's exit and the next one.
   */
  predicate OfferOk(s: State) {
    && (s.shared.readyPending != 0 && !s.loop.place.Returned? ==> Offering(s.loop) && s.shared.readyPending == PidOf(s))
    && (forall i :: 0 <= i < |s.shared.calls| && s.shared.calls[i].stage.Restoring? ==> s.loop.place.Returned?)
  }

  lemma OfferFrame(s: State, t: State)
    requires OfferOk(s) && t.shared.calls == s.shared.calls
    requires t.shared.readyPending == s.shared.readyPending || t.shared.readyPending == 0
    requires t.world.pids == s.world.pids && t.loop.child == s.loop.child
    requires s.loop.place.Returned? ==> t.loop.place.Returned?
    requires t.shared.readyPending != 0 && Offering(s.loop) ==> Offering(t.loop) || t.loop.place.Returned?
    ensures OfferOk(t)
  {
  }

  lemma OfferArm(s: State)
    requires OfferOk(s) && s.loop.place.Arm?
    ensures OfferOk(AtArm(s))
  {
  }

  lemma OfferTake(s: State, how: Leave)
    ensures TakeCurrent(s, how).loop == s.loop && TakeCurrent(s, how).world.pids == s.world.pids
    ensures TakeCurrent(s, how).shared.calls == s.shared.calls
    ensures TakeCurrent(s, how).shared.readyPending == s.shared.readyPending
  {
  }

  lemma OfferGo(c: Config, s: State)
    requires OfferOk(s) && SupervisorSlot.SlotOk(s) && Enabled(c, s, Go)
    ensures OfferOk(Advance(c, s))
  {
    if s.loop.place.Arm? {
      OfferArm(s);
    } else if s.loop.place.TakeToStop? {
      OfferTake(s, ByCancel);
      OfferFrame(s, AtTakeToStop(s));
    } else if s.loop.place.ClearCurrent? {
      OfferTake(s, ByExit);
      OfferFrame(s, Goto(TakeCurrent(s, ByExit), ClearReady));
    } else if s.loop.place.ClearReady? {
      OfferFrame(s, Goto(s.(shared := s.shared.(readyPending := 0)), EmitExited));
    } else {
      OfferSilent(c, s);
    }
  }

  lemma OfferSilent(c: Config, s: State)
    requires OfferOk(s) && SupervisorSlot.SlotOk(s) && Enabled(c, s, Go)
    requires !s.loop.place.Arm? && !s.loop.place.TakeToStop? && !s.loop.place.ClearCurrent? && !s.loop.place.ClearReady?
    ensures OfferOk(Advance(c, s))
  {
    HandSilent(c, s);
    OfferFrame(s, Advance(c, s));
  }

  lemma OfferAck(s: State, i: nat)
    requires OfferOk(s) && i < |s.shared.calls|
    ensures OfferOk(AckMove(s, i))
  {
    match s.shared.calls[i].stage
    case Locking =>
    case Exchanging =>
    case Sending =>
    case Restoring =>
    case Done(_) =>
  }

  lemma OfferStop(s: State)
    requires OfferOk(s)
    ensures OfferOk(StopMove(s))
  {
    OfferTake(s, ByStop);
    OfferFrame(s, StopMove(s));
  }

  lemma OfferBudget(c: Config, s: State, delay: Option<nat>)
    requires OfferOk(s) && s.loop.place.Budget?
    ensures OfferOk(AtBudget(c, s, delay))
  {
    OfferFrame(s, AtBudget(c, s, delay));
  }

  lemma OfferStep(c: Config, s: State, m: Move)
    requires OfferOk(s) && SupervisorSlot.SlotOk(s)
    ensures OfferOk(Step(c, s, m))
  {
    if Enabled(c, s, m) {
      match m
      case Go => OfferGo(c, s);
      case Spawns(pid) => assert s.shared.readyPending == 0;
      case Account(entropy) => OfferBudget(c, s, B.DelayFor(c.backoff, s.loop.attempt, entropy));
      case StopMoves => OfferStop(s);
      case AckBegins(pid) =>
      case AckMoves(i) => OfferAck(s, i);
      case _ => OfferFrame(s, Fire(c, s, m));
    }
  }

  // ---- what the loop believes

  /** A pid was acknowledged: this call answered true. */
  predicate Vouched(calls: seq<Call>, acked: map<nat, nat>, pid: nat) {
    pid in acked && acked[pid] < |calls| && calls[acked[pid]] == Call(pid, Done(true))
  }

  predicate Deciding(p: Place) {
    p.CheckToken? || p.EmitReady?
  }

  predicate ReadyVouched(s: State, e: Event) {
    e.Ready? ==> e.child < |s.world.pids| && Vouched(s.shared.calls, s.world.acked, s.world.pids[e.child])
  }

  /** In acknowledged mode whatever leads to `Ready` began with a call that answered true. */
  predicate BeliefOk(c: Config, s: State) {
    c.acknowledged ==>
      && (forall k :: 0 <= k < |s.shared.queue| ==> Vouched(s.shared.calls, s.world.acked, s.shared.queue[k]))
      && (s.loop.place.CheckCurrent? ==> Vouched(s.shared.calls, s.world.acked, s.loop.received))
      && (Deciding(s.loop.place) ==> Vouched(s.shared.calls, s.world.acked, PidOf(s)))
      && (forall k :: 0 <= k < |s.world.log| ==> ReadyVouched(s, s.world.log[k]))
  }

  lemma BeliefFrame(c: Config, s: State, t: State, e: Option<Event>)
    requires BeliefOk(c, s) && t.shared.calls == s.shared.calls && t.world.acked == s.world.acked
    requires t.world.pids == s.world.pids
    requires t.shared.queue == s.shared.queue && t.loop.child == s.loop.child && t.loop.received == s.loop.received
    requires Grown(s.world.log, t.world.log, e) && (c.acknowledged && e.Some? ==> ReadyVouched(s, e.value))
    requires t.loop.place.CheckCurrent? ==> s.loop.place.CheckCurrent?
    requires Deciding(t.loop.place) ==> Deciding(s.loop.place)
    ensures BeliefOk(c, t)
  {
    if c.acknowledged {
      forall k | 0 <= k < |t.world.log| ensures ReadyVouched(t, t.world.log[k]) {
        assert k < |s.world.log| ==> ReadyVouched(s, s.world.log[k]);
      }
    }
  }

  lemma BeliefCheck(c: Config, s: State)
    requires BeliefOk(c, s) && PidsOk(s) && SupervisorSlot.SlotOk(s) && s.loop.place.CheckCurrent?
    ensures BeliefOk(c, AtCheckCurrent(c, s))
  {
    var t := AtCheckCurrent(c, s);
    if c.acknowledged {
      forall k | 0 <= k < |t.world.log| ensures ReadyVouched(t, t.world.log[k]) {
        assert ReadyVouched(s, s.world.log[k]);
      }
    }
  }

  lemma GoKeepsShared(c: Config, s: State)
    requires Enabled(c, s, Go)
    ensures Advance(c, s).shared.calls == s.shared.calls && Advance(c, s).shared.queue == s.shared.queue
    ensures Advance(c, s).loop.received == s.loop.received
  {
  }

  lemma GoDecides(c: Config, s: State)
    requires Enabled(c, s, Go)
    ensures !Advance(c, s).loop.place.CheckCurrent?
    ensures Deciding(Advance(c, s).loop.place) ==> Deciding(s.loop.place) || s.loop.place.CheckCurrent?
  {
    if s.loop.place.TakeToStop? {
      TakeKeepsLog(s, ByCancel);
    } else if s.loop.place.ClearCurrent? {
      TakeKeepsLog(s, ByExit);
    } else if s.loop.place.StormCheck? {
      assert AtStormCheck(c, s).loop.place.Budget? || AtStormCheck(c, s).loop.place.Returned?;
    }
  }

  lemma BeliefGo(c: Config, s: State)
    requires BeliefOk(c, s) && PidsOk(s) && SupervisorSlot.SlotOk(s) && Enabled(c, s, Go)
    ensures BeliefOk(c, Advance(c, s))
  {
    if s.loop.place.CheckCurrent? {
      BeliefCheck(c, s);
    } else {
      var e := LogGrows(c, s);
      GoKeepsPids(c, s);
      GoKeepsChild(c, s);
      GoKeepsShared(c, s);
      GoDecides(c, s);
      BeliefFrame(c, s, Advance(c, s), e);
    }
  }

  lemma BeliefReceives(c: Config, s: State)
    requires BeliefOk(c, s) && Enabled(c, s, Receives)
    ensures BeliefOk(c, Fire(c, s, Receives))
  {
    var t := Fire(c, s, Receives);
    forall k | 0 <= k < |t.world.log| ensures ReadyVouched(t, t.world.log[k]) {
      assert ReadyVouched(s, s.world.log[k]);
    }
  }

  lemma BeliefSpawned(c: Config, s: State, pid: nat)
    requires BeliefOk(c, s) && Enabled(c, s, Spawns(pid))
    ensures BeliefOk(c, AtSpawning(s, pid))
  {
    var t := AtSpawning(s, pid);
    if c.acknowledged {
      forall k | 0 <= k < |t.world.log| ensures ReadyVouched(t, t.world.log[k]) {
        assert ReadyVouched(s, s.world.log[k]);
      }
    }
  }

  /** Calls and acknowledgements that only grow keep every pid vouched for. */
  lemma BeliefGrows(c: Config, s: State, t: State)
    requires BeliefOk(c, s) && t.world.log == s.world.log && t.world.pids == s.world.pids && t.loop == s.loop
    requires forall p :: Vouched(s.shared.calls, s.world.acked, p) ==> Vouched(t.shared.calls, t.world.acked, p)
    requires |t.shared.queue| >= |s.shared.queue|
    requires forall k :: 0 <= k < |t.shared.queue| ==>
               if k < |s.shared.queue| then t.shared.queue[k] == s.shared.queue[k]
               else Vouched(t.shared.calls, t.world.acked, t.shared.queue[k])
    ensures BeliefOk(c, t)
  {
    if c.acknowledged {
      forall k | 0 <= k < |t.world.log| ensures ReadyVouched(t, t.world.log[k]) {
        assert ReadyVouched(s, s.world.log[k]);
      }
    }
  }

  lemma BeliefStaged(c: Config, s: State, i: nat, stage: Stage)
    requires BeliefOk(c, s) && i < |s.shared.calls| && !s.shared.calls[i].stage.Done?
    ensures BeliefOk(c, Staged(s, i, stage))
  {
    BeliefGrows(c, s, Staged(s, i, stage));
  }

  lemma BeliefSend(c: Config, s: State, i: nat)
    requires BeliefOk(c, s) && HandOk(s) && i < |s.shared.calls| && s.shared.calls[i].stage.Sending?
    ensures BeliefOk(c, AckSend(s, i))
  {
    if s.loop.place.Returned? {
      BeliefStaged(c, s, i, Restoring);
    } else {
      BeliefGrows(c, s, AckSend(s, i));
    }
  }

  lemma BeliefAck(c: Config, s: State, i: nat)
    requires BeliefOk(c, s) && HandOk(s) && i < |s.shared.calls| && !s.shared.calls[i].stage.Done?
    ensures BeliefOk(c, AckMove(s, i))
  {
    match s.shared.calls[i].stage
    case Locking =>
      BeliefStaged(c, s, i, if CurrentAlive(s, Some(s.shared.calls[i].pid)) then Exchanging else Done(false));
    case Exchanging =>
      BeliefStaged(c, s, i, Sending);
      BeliefStaged(c, s, i, Done(false));
    case Sending => BeliefSend(c, s, i);
    case Restoring => BeliefStaged(c, s, i, Done(false));
  }

  lemma BeliefBegins(c: Config, s: State, pid: nat)
    requires BeliefOk(c, s)
    ensures BeliefOk(c, s.(shared := s.shared.(calls := s.shared.calls + [Call(pid, Locking)])))
  {
    BeliefGrows(c, s, s.(shared := s.shared.(calls := s.shared.calls + [Call(pid, Locking)])));
  }

  lemma BeliefBudget(c: Config, s: State, delay: Option<nat>)
    requires BeliefOk(c, s) && s.loop.place.Budget?
    ensures BeliefOk(c, AtBudget(c, s, delay))
  {
    var e := BudgetGrows(c, s, delay);
    BeliefFrame(c, s, AtBudget(c, s, delay), e);
  }

  lemma BeliefStop(c: Config, s: State)
    requires BeliefOk(c, s)
    ensures BeliefOk(c, StopMove(s))
  {
    TakeKeepsLog(s, ByStop);
    BeliefFrame(c, s, StopMove(s), None);
  }

  lemma BeliefTimer(c: Config, s: State)
    requires BeliefOk(c, s) && Enabled(c, s, TimerFires)
    ensures BeliefOk(c, Fire(c, s, TimerFires))
  {
  }

  lemma BeliefQuiet(c: Config, s: State, m: Move)
    requires BeliefOk(c, s) && Enabled(c, s, m) && Quiet(m)
    ensures BeliefOk(c, Fire(c, s, m))
  {
    if m.TimerFires? {
      BeliefTimer(c, s);
    } else if m.Receives? {
      BeliefReceives(c, s);
    } else if m.Spawns? {
      BeliefSpawned(c, s, m.pid);
    } else {
      BeliefFrame(c, s, Fire(c, s, m), None);
    }
  }

  lemma BeliefStep(c: Config, s: State, m: Move)
    requires BeliefOk(c, s) && HandOk(s) && PidsOk(s) && SupervisorSlot.SlotOk(s)
    ensures BeliefOk(c, Step(c, s, m))
  {
    if Enabled(c, s, m) {
      if m.Go? {
        BeliefGo(c, s);
      } else if Quiet(m) {
        BeliefQuiet(c, s, m);
      } else if m.Account? {
        BeliefBudget(c, s, B.DelayFor(c.backoff, s.loop.attempt, m.entropy));
      } else if m.StopMoves? {
        BeliefStop(c, s);
      } else if m.AckBegins? {
        BeliefBegins(c, s, m.pid);
      } else if m.AckMoves? {
        BeliefAck(c, s, m.call);
      } else {
        BeliefFrame(c, s, Fire(c, s, m), if m.SleepCancelled? then Some(Stopped) else None);
      }
    }
  }
}
