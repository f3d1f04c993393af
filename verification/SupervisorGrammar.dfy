/** The order of the events a supervisor emits. */
module SupervisorGrammar {
  import opened Basics
  import opened Supervisor
  import B = Backoff

  /** How far a log has come. Children exit in order; `next` is the one to come. */
  datatype Progress =
    | Fresh
    | Running(child: nat, ready: bool)
    | Idle(next: nat)
    | Pausing(next: nat)
    | MustStop(next: nat)
    | Over(next: nat)
    | Wrong

  function Next(p: Progress, e: Event): Progress {
    match p
    case Fresh => if e.Started? && e.child == 0 then Running(0, false) else Wrong
    case Running(k, ready) =>
      if e.Ready? && e.child == k && !ready then Running(k, true)
      else if e.Exited? && e.child == k then Idle(k + 1)
      else Wrong
    case Idle(k) => if e.Restarting? then Pausing(k) else if e.GaveUp? || e.Stopped? then Over(k) else Wrong
    case Pausing(k) =>
      if e.Started? && e.child == k then Running(k, false)
      else if e.Restarting? then Pausing(k)
      else if e.GaveUp? || e.Stopped? then Over(k)
      else if e.Exited? && e.child == k then MustStop(k + 1)
      else Wrong
    case MustStop(k) => if e.Stopped? then Over(k) else Wrong
    case Over(_) => Wrong
    case Wrong => Wrong
  }

  function Parse(log: seq<Event>): Progress {
    if log == [] then Fresh else Next(Parse(log[..|log| - 1]), log[|log| - 1])
  }

  lemma ParseSnoc(log: seq<Event>, e: Event)
    ensures Parse(log + [e]) == Next(Parse(log), e)
  {
    assert (log + [e])[..|log|] == log;
  }

  /** The latest child runs, or was spawned too late to be announced. */
  predicate AtHand(g: Progress, child: nat, token: bool, unready: bool) {
    g == Running(child, false) || (g == Running(child, true) && !unready) || (g == Pausing(child) && token)
  }

  /** The log, against where the loop stands. */
  predicate Fits(l: Loop, g: Progress, token: bool) {
    match l.place
    case Top => if l.hasRx then AtHand(g, l.child, token, true) else g == Pausing(l.child + 1)
    case Watching => !l.hasRx && AtHand(g, l.child, token, l.readinessPending)
    case TakeToStop => !l.hasRx && AtHand(g, l.child, token, l.readinessPending)
    case Polling => !l.hasRx && AtHand(g, l.child, token, l.readinessPending)
    case CheckCurrent => !l.hasRx && AtHand(g, l.child, token, true)
    case CheckToken => !l.hasRx && AtHand(g, l.child, token, true)
    case EmitReady => !l.hasRx && !l.readinessPending && g == Running(l.child, false)
    case AwaitKill => !l.hasRx && AtHand(g, l.child, token, false)
    case ClearCurrent => !l.hasRx && AtHand(g, l.child, token, false)
    case ClearReady => !l.hasRx && AtHand(g, l.child, token, false)
    case EmitExited => !l.hasRx && AtHand(g, l.child, token, false)
    case AfterExit => !l.hasRx && (g == Idle(l.child + 1) || (g == MustStop(l.child + 1) && token))
    case StormCheck => !l.hasRx && g == Idle(l.child + 1)
    case Budget => !l.hasRx && (g == Idle(l.child + 1) || g == Pausing(l.child + 1))
    case Sleeping => !l.hasRx && g == Pausing(l.child + 1)
    case CheckRespawn => !l.hasRx && g == Pausing(l.child + 1)
    case Spawning => !l.hasRx && g == Pausing(l.child + 1)
    case Install => !l.hasRx && g == Pausing(l.child)
    case CheckStart => l.hasRx && g == Pausing(l.child)
    case Arm => l.hasRx && g == Pausing(l.child)
    case EmitStarted => l.hasRx && g == Pausing(l.child)
    case Returned => g == Idle(l.child + 1) || g == Over(l.child + 1)
  }

  predicate GrammarOk(s: State) {
    && |s.world.pids| == |s.world.lives| == s.loop.child + 1
    && Fits(s.loop, Parse(s.world.log), s.shared.token)
  }

  lemma GrammarStart(c: Config, pid: nat, now: nat)
    ensures GrammarOk(Start(c, pid, now))
  {
    var log := [Started(pid, 0)];
    assert log[..0] == [];
    assert Parse(log) == Running(0, false);
  }

  lemma GrammarTake(s: State, how: Leave)
    ensures TakeCurrent(s, how).loop == s.loop
    ensures TakeCurrent(s, how).world.log == s.world.log && TakeCurrent(s, how).world.pids == s.world.pids
    ensures TakeCurrent(s, how).world.lives == s.world.lives && TakeCurrent(s, how).shared.token == s.shared.token
  {
  }

  // what each event does to the progress

  lemma StoppedFits(l: Loop, g: Progress, token: bool, l': Loop)
    requires Fits(l, g, token) && l'.place.Returned? && l'.child == l.child
    requires l.place.CheckRespawn? || l.place.Sleeping? || l.place.AfterExit? || (l.place.Top? && !l.hasRx)
    ensures Fits(l', Next(g, Stopped), token)
  {
  }

  lemma GaveUpFits(l: Loop, g: Progress, token: bool, l': Loop)
    requires Fits(l, g, token) && l'.place.Returned? && l'.child == l.child && (l.place.StormCheck? || l.place.Budget?)
    ensures Fits(l', Next(g, GaveUp), token)
  {
  }

  lemma RestartingFits(l: Loop, g: Progress, token: bool, l': Loop, delay: Option<nat>)
    requires Fits(l, g, token) && l.place.Budget? && l' == l.(place := Sleeping)
    ensures Fits(l', Next(g, Restarting(l.attempt, delay)), token)
  {
  }

  lemma ReadyFits(l: Loop, g: Progress, token: bool, l': Loop)
    requires Fits(l, g, token) && l.place.EmitReady? && l' == l.(place := Watching)
    ensures Fits(l', Next(g, Ready(l.child)), token)
  {
  }

  lemma ExitedFits(l: Loop, g: Progress, token: bool, l': Loop)
    requires Fits(l, g, token) && l.place.EmitExited? && l' == l.(place := AfterExit)
    ensures Fits(l', Next(g, Exited(l.payload, l.child)), token)
  {
  }

  lemma StartedFits(l: Loop, g: Progress, token: bool, l': Loop, pid: nat)
    requires Fits(l, g, token) && l.place.EmitStarted? && l' == l.(place := Top)
    ensures Fits(l', Next(g, Started(pid, l.child)), token)
  {
  }

  lemma GrammarEmit(s: State, t: State, e: Event)
    requires |t.world.pids| == |t.world.lives| == t.loop.child + 1 && t.world.log == s.world.log + [e]
    requires Fits(t.loop, Next(Parse(s.world.log), e), t.shared.token)
    ensures GrammarOk(t)
  {
    ParseSnoc(s.world.log, e);
  }

  lemma GrammarTop(s: State)
    requires GrammarOk(s) && s.loop.place.Top?
    ensures GrammarOk(AtTop(s))
  {
    if !s.loop.hasRx && s.shared.token {
      StoppedFits(s.loop, Parse(s.world.log), s.shared.token, AtTop(s).loop);
      GrammarEmit(s, AtTop(s), Stopped);
    }
  }

  lemma GrammarWatching(s: State)
    requires GrammarOk(s) && s.loop.place.Watching?
    ensures GrammarOk(AtWatching(s))
  {
  }

  lemma GrammarTakeToStop(s: State)
    requires GrammarOk(s) && s.loop.place.TakeToStop?
    ensures GrammarOk(AtTakeToStop(s))
  {
    GrammarTake(s, ByCancel);
  }

  lemma GrammarCheckToken(s: State)
    requires GrammarOk(s) && s.loop.place.CheckToken?
    ensures GrammarOk(AtCheckToken(s))
  {
  }

  lemma GrammarReady(s: State)
    requires GrammarOk(s) && s.loop.place.EmitReady?
    ensures GrammarOk(Goto(Emit(s, Ready(s.loop.child)), Watching))
  {
    var t := Goto(Emit(s, Ready(s.loop.child)), Watching);
    ReadyFits(s.loop, Parse(s.world.log), s.shared.token, t.loop);
    GrammarEmit(s, t, Ready(s.loop.child));
  }

  lemma GrammarClear(s: State)
    requires GrammarOk(s) && s.loop.place.ClearCurrent?
    ensures GrammarOk(Goto(TakeCurrent(s, ByExit), ClearReady))
  {
    GrammarTake(s, ByExit);
  }

  lemma GrammarExited(s: State)
    requires GrammarOk(s) && s.loop.place.EmitExited?
    ensures GrammarOk(Goto(Emit(s, Exited(s.loop.payload, s.loop.child)), AfterExit))
  {
    var e := Exited(s.loop.payload, s.loop.child);
    var t := Goto(Emit(s, e), AfterExit);
    ExitedFits(s.loop, Parse(s.world.log), s.shared.token, t.loop);
    GrammarEmit(s, t, e);
  }

  lemma GrammarAfterExit(c: Config, s: State)
    requires GrammarOk(s) && s.loop.place.AfterExit?
    ensures GrammarOk(AtAfterExit(c, s))
  {
    if s.loop.cancelled || s.shared.token {
      StoppedFits(s.loop, Parse(s.world.log), s.shared.token, AtAfterExit(c, s).loop);
      GrammarEmit(s, AtAfterExit(c, s), Stopped);
    }
  }

  lemma GrammarStorm(c: Config, s: State)
    requires GrammarOk(s) && s.loop.place.StormCheck?
    ensures GrammarOk(AtStormCheck(c, s))
  {
    var t := AtStormCheck(c, s);
    if t.loop.place.Returned? {
      GaveUpFits(s.loop, Parse(s.world.log), s.shared.token, t.loop);
      GrammarEmit(s, t, GaveUp);
    }
  }

  lemma GrammarInstall(s: State)
    requires GrammarOk(s) && s.loop.place.Install?
    ensures GrammarOk(AtInstall(s))
  {
  }

  lemma GrammarArm(s: State)
    requires GrammarOk(s) && s.loop.place.Arm?
    ensures GrammarOk(AtArm(s))
  {
  }

  lemma GrammarStarted(s: State)
    requires GrammarOk(s) && s.loop.place.EmitStarted?
    ensures GrammarOk(Goto(Emit(s, Started(PidOf(s), s.loop.child)), Top))
  {
    var e := Started(PidOf(s), s.loop.child);
    var t := Goto(Emit(s, e), Top);
    StartedFits(s.loop, Parse(s.world.log), s.shared.token, t.loop, PidOf(s));
    GrammarEmit(s, t, e);
  }

  lemma GrammarGo(c: Config, s: State)
    requires GrammarOk(s) && Enabled(c, s, Go)
    ensures GrammarOk(Advance(c, s))
  {
    match s.loop.place
    case Top => GrammarTop(s);
    case Watching => GrammarWatching(s);
    case TakeToStop => GrammarTakeToStop(s);
    case CheckToken => GrammarCheckToken(s);
    case EmitReady => GrammarReady(s);
    case ClearCurrent => GrammarClear(s);
    case EmitExited => GrammarExited(s);
    case AfterExit => GrammarAfterExit(c, s);
    case StormCheck => GrammarStorm(c, s);
    case CheckRespawn => GrammarEnds(s);
    case Install => GrammarInstall(s);
    case Arm => GrammarArm(s);
    case EmitStarted => GrammarStarted(s);
    case _ =>
  }

  lemma GrammarRestarting(s: State, delay: Option<nat>)
    requires GrammarOk(s) && s.loop.place.Budget?
    ensures GrammarOk(AnnounceRestart(s, delay))
  {
    var t := AnnounceRestart(s, delay);
    RestartingFits(s.loop, Parse(s.world.log), s.shared.token, t.loop, delay);
    GrammarEmit(s, t, Restarting(s.loop.attempt, delay));
  }

  lemma GrammarGaveUp(s: State)
    requires GrammarOk(s) && s.loop.place.Budget?
    ensures GrammarOk(Finish(s, GaveUp))
  {
    GaveUpFits(s.loop, Parse(s.world.log), s.shared.token, Finish(s, GaveUp).loop);
    GrammarEmit(s, Finish(s, GaveUp), GaveUp);
  }

  lemma GrammarBudget(c: Config, s: State, delay: Option<nat>)
    requires GrammarOk(s) && s.loop.place.Budget? && c.policy.OnFailure?
    ensures GrammarOk(AtBudget(c, s, delay))
  {
    GrammarAttempt(s);
    GrammarCharge(c, NextAttempt(s), delay);
  }

  lemma GrammarCharge(c: Config, s: State, delay: Option<nat>)
    requires GrammarOk(s) && s.loop.place.Budget? && c.policy.OnFailure?
    ensures GrammarOk(Charge(c, s, delay))
  {
    GrammarRestarting(s, delay);
    GrammarGaveUp(s);
  }

  lemma GrammarAttempt(s: State)
    requires GrammarOk(s) && s.loop.place.Budget?
    ensures GrammarOk(NextAttempt(s)) && NextAttempt(s).loop.place.Budget?
  {
  }

  /** A policy that never restarts returns before the budget is looked at. */
  predicate OnceOnly(c: Config, l: Loop) {
    c.policy.Never? ==>
      && (l.place.Top? ==> l.hasRx)
      && !(l.place.StormCheck? || l.place.Budget? || l.place.Sleeping? || l.place.CheckRespawn? || l.place.Spawning?)
      && !(l.place.Install? || l.place.CheckStart? || l.place.Arm? || l.place.EmitStarted?)
  }

  lemma OnceGo(c: Config, s: State)
    requires OnceOnly(c, s.loop) && Enabled(c, s, Go)
    ensures OnceOnly(c, Advance(c, s).loop)
  {
  }

  lemma OnceStep(c: Config, s: State, m: Move)
    requires OnceOnly(c, s.loop)
    ensures OnceOnly(c, Step(c, s, m).loop)
  {
    if Enabled(c, s, m) {
      match m
      case Go => OnceGo(c, s);
      case _ =>
    }
  }

  lemma GrammarEnds(s: State)
    requires GrammarOk(s) && (s.loop.place.CheckRespawn? || s.loop.place.Sleeping?)
    ensures GrammarOk(Finish(s, Stopped))
  {
    StoppedFits(s.loop, Parse(s.world.log), s.shared.token, Finish(s, Stopped).loop);
    GrammarEmit(s, Finish(s, Stopped), Stopped);
  }

  /** Whatever leaves the loop and the log alone. */
  lemma GrammarFrame(s: State, t: State)
    requires GrammarOk(s) && t.loop == s.loop && t.world.log == s.world.log && t.world.pids == s.world.pids
    requires |t.world.lives| == |s.world.lives| && (s.shared.token ==> t.shared.token)
    ensures GrammarOk(t)
  {
  }

  /** The select arms and the spawn. */
  lemma GrammarBranch(c: Config, s: State, m: Move)
    requires GrammarOk(s) && Enabled(c, s, m)
    requires Quiet(m)
    ensures GrammarOk(Fire(c, s, m))
  {
  }

  /** What callers, children and time do. */
  lemma GrammarOutside(c: Config, s: State, m: Move)
    requires GrammarOk(s) && Enabled(c, s, m)
    requires FromOutside(m)
    ensures GrammarOk(Fire(c, s, m))
  {
    GrammarFrame(s, Fire(c, s, m));
  }

  lemma GrammarStep(c: Config, s: State, m: Move)
    requires GrammarOk(s) && OnceOnly(c, s.loop)
    ensures GrammarOk(Step(c, s, m))
  {
    if Enabled(c, s, m) {
      if m.Go? {
        GrammarGo(c, s);
      } else if m.Account? {
        GrammarBudget(c, s, B.DelayFor(c.backoff, s.loop.attempt, m.entropy));
      } else if m.SleepCancelled? {
        GrammarEnds(s);
      } else if FromOutside(m) {
        GrammarOutside(c, s, m);
      } else {
        GrammarBranch(c, s, m);
      }
    }
  }

  // ---- the same, event by event

  function Exits(log: seq<Event>): nat {
    if log == [] then 0 else Exits(log[..|log| - 1]) + if log[|log| - 1].Exited? then 1 else 0
  }

  /** An exit of a child whose start had been announced. */
  predicate OwnExit(log: seq<Event>, i: nat)
    requires i < |log|
  {
    log[i].Exited? && i > 0 && !log[i - 1].Restarting?
  }

  /**
   * What may stand in the place before an event, and which child it is about:
   * the one after those that have exited.
   */
  predicate InPlace(log: seq<Event>, i: nat)
    requires i < |log|
  {
    match log[i]
    case Started(_, child) => child == Exits(log[..i]) && (i == 0 || log[i - 1].Restarting?)
    case Ready(child) => child == Exits(log[..i]) && i > 0 && log[i - 1].Started?
    case Exited(_, child) =>
      child == Exits(log[..i]) && i > 0 && (log[i - 1].Started? || log[i - 1].Ready? || log[i - 1].Restarting?)
    case Restarting(_, _) => i > 0 && (log[i - 1].Restarting? || OwnExit(log, i - 1))
    case GaveUp => i > 0 && (log[i - 1].Restarting? || OwnExit(log, i - 1))
    case Stopped => i > 0 && (log[i - 1].Restarting? || log[i - 1].Exited?)
  }

  predicate AllInPlace(log: seq<Event>) {
    forall i :: 0 <= i < |log| ==> InPlace(log, i)
  }

  /** The progress that the last events of a log amount to. */
  function ProgressOf(log: seq<Event>): Progress {
    if log == [] then Fresh
    else match log[|log| - 1]
      case Started(_, _) => Running(Exits(log), false)
      case Ready(_) => Running(Exits(log), true)
      case Exited(_, _) => if OwnExit(log, |log| - 1) then Idle(Exits(log)) else MustStop(Exits(log))
      case Restarting(_, _) => Pausing(Exits(log))
      case GaveUp => Over(Exits(log))
      case Stopped => Over(Exits(log))
  }

  lemma ExitsSnoc(log: seq<Event>, e: Event)
    ensures Exits(log + [e]) == Exits(log) + if e.Exited? then 1 else 0
  {
    assert (log + [e])[..|log|] == log;
  }

  /** An event fits behind a log exactly when it continues its progress. */
  lemma NextFits(log: seq<Event>, e: Event)
    ensures InPlace(log + [e], |log|) <==> Next(ProgressOf(log), e) != Wrong
    ensures InPlace(log + [e], |log|) ==> ProgressOf(log + [e]) == Next(ProgressOf(log), e)
  {
    var longer := log + [e];
    assert longer[..|log|] == log;
    ExitsSnoc(log, e);
    if log != [] {
      assert longer[|log| - 1] == log[|log| - 1];
      assert OwnExit(longer, |log| - 1) == OwnExit(log, |log| - 1);
    }
  }

  lemma PlacesExtend(log: seq<Event>, e: Event)
    ensures AllInPlace(log + [e]) <==> AllInPlace(log) && InPlace(log + [e], |log|)
  {
    forall i | 0 <= i < |log| ensures InPlace(log + [e], i) <==> InPlace(log, i) {
      assert (log + [e])[..i] == log[..i];
    }
    if AllInPlace(log + [e]) {
      forall i | 0 <= i < |log| ensures InPlace(log, i) {
        assert InPlace(log + [e], i);
      }
    }
  }

  /** A log is accepted exactly when each of its events is in place. */
  lemma {:induction false} AcceptedMeansInPlace(log: seq<Event>)
    ensures Parse(log) != Wrong <==> AllInPlace(log)
    ensures Parse(log) != Wrong ==> Parse(log) == ProgressOf(log)
  {
    if log != [] {
      var init, e := log[..|log| - 1], log[|log| - 1];
      assert log == init + [e];
      AcceptedMeansInPlace(init);
      NextFits(init, e);
      PlacesExtend(init, e);
    }
  }

  function Gone(p: Progress): nat {
    match p
    case Fresh => 0
    case Running(k, _) => k
    case Idle(k) => k
    case Pausing(k) => k
    case MustStop(k) => k
    case Over(k) => k
    case Wrong => 0
  }

  /** The children that an accepted log has let go are those that exited. */
  lemma ExitsCount(log: seq<Event>)
    requires Parse(log) != Wrong
    ensures Exits(log) == Gone(Parse(log))
  {
    AcceptedMeansInPlace(log);
  }

  /** `Ready` comes directly after the start of the same child, so at most once and before its exit. */
  lemma ReadyFollows(log: seq<Event>, i: nat)
    requires AllInPlace(log) && i < |log| && log[i].Ready?
    ensures i > 0 && log[i - 1].Started? && log[i - 1].child == log[i].child
  {
    assert InPlace(log, i) && InPlace(log, i - 1);
    ExitsSnoc(log[..i - 1], log[i - 1]);
    assert log[..i - 1] + [log[i - 1]] == log[..i];
  }

  /** Nothing follows the end, and only `Stopped` an exit without its own start. */
  lemma EndsAreFinal(log: seq<Event>, i: nat)
    requires AllInPlace(log) && i < |log|
    ensures log[i].GaveUp? || log[i].Stopped? ==> i == |log| - 1
    ensures log[i].Exited? && i > 0 && log[i - 1].Restarting? && i + 1 < |log| ==>
              log[i + 1] == Stopped && i + 2 == |log|
  {
    assert i + 1 < |log| ==> InPlace(log, i + 1);
    assert i + 2 < |log| ==> InPlace(log, i + 2);
  }
}
