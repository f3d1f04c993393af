/** What every interleaving of the pump keeps. */
module PumpProofs {
  import opened Basics
  import opened Pump
  import Decimal

  function Opt(e: Option<Event>): seq<Event> {
    match e case Some(e) => [e] case None => []
  }

  predicate IsOutput(e: Event) {
    e.Stdout? || e.Stderr?
  }

  // ---- the joint invariant

  /** Output lines in order, and every one of them accounted for. */
  predicate OutputOk(s: State) {
    && s.outputs <= |s.sent| && s.sent[..s.outputs] <= s.read
    && (forall i :: 0 <= i < |s.read| ==> IsOutput(s.read[i]))
    && (s.phase.Draining? || s.phase.Finishing? || s.phase.CleaningUp? ==> s.outputs == |s.sent|)
    && (s.eventsOpen && s.phase.Draining? ==>
          s.sent + Opt(s.pending) <= s.read && |s.read| == s.outputs + |Opt(s.pending)| + s.dropped)
    && (s.eventsOpen && !s.phase.Draining? ==> |s.read| == s.outputs + s.dropped)
    && (!s.eventsOpen || !s.phase.Draining? || s.dropOutput ==> s.pending.None?)
    && (s.dropped > 0 ==> s.dropOutput)
  }

  function TerminalSent(s: State): seq<Event> {
    if s.outputs <= |s.sent| then s.sent[s.outputs..] else []
  }

  function AllTerminal(s: State): seq<Event> {
    if s.finish.Some? then TerminalEvents(s.finish.value, s.dropped) else []
  }

  predicate TerminalOk(s: State) {
    && (s.phase.CleaningUp? || s.phase.Flushing? || s.phase.Stopped? ==> s.finish.Some?)
    && (s.phase.Flushing? ==> s.eventsOpen && s.pidFileCleaned && TerminalSent(s) + s.terminal == AllTerminal(s))
    && (s.phase.Stopped? ==> s.pidFileCleaned && TerminalSent(s) <= AllTerminal(s))
    && (s.phase.Flushing? || (s.phase.Stopped? && TerminalSent(s) != []) ==> |s.read| == s.outputs + s.dropped)
  }

  predicate WatchOk(s: State) {
    && s.watchWrites == (if s.finish.Some? then 1 else 0)
    && s.watch == (if s.finish.Some? then Some(OutcomeOf(s.finish.value)) else None)
  }

  /** The stall timer runs exactly while the pump is dying with an event pending. */
  predicate StallOk(s: State) {
    && (s.phase.Draining? ==> (s.dropPendingAt.Some? <==> s.dying && s.pending.Some?))
    && (!s.phase.Draining? ==> s.dropPendingAt.None?)
    && (s.dropPendingAt.Some? ==> s.now <= s.dropPendingAt.value <= s.now + DYING_EVENT_STALL)
  }

  predicate FlushOk(s: State) {
    && (s.phase.Flushing? ==>
          && s.flushStart <= s.now <= s.flushDeadline
          && s.flushDeadline <= s.flushStart + DYING_EVENT_STALL * (|TerminalSent(s)| + 1))
    && (s.phase.Flushing? ==> s.terminal != [])
    && (s.phase.Stopped? ==> s.flushStart <= s.stoppedAt <= s.flushStart + DYING_EVENT_STALL * |AllTerminal(s)|)
  }

  predicate ChannelOk(s: State) {
    s.received <= |s.sent| && |s.sent| - s.received <= s.capacity
  }

  predicate AbandonOk(s: State) {
    && s.abandonKills == (if s.abandoned then 1 else 0) && s.abandonKills <= s.kills
    && (s.abandoned ==> !s.eventsOpen && !s.ctrlOpen)
  }

  /** While output is still read, a finished or killed process counts as dying. */
  predicate DyingOk(s: State) {
    s.phase.Draining? && (s.finish.Some? || s.kills > 0) ==> s.dying
  }

  predicate Inv(s: State) {
    OutputOk(s) && TerminalOk(s) && WatchOk(s) && StallOk(s) && FlushOk(s) && ChannelOk(s) && AbandonOk(s)
  }

  lemma StartInv(now: nat, timeoutAt: Option<nat>, killGrace: nat, capacity: nat)
    ensures Inv(Start(now, timeoutAt, killGrace, capacity))
  {
  }

  lemma HeadInv(s: State)
    requires Inv(s)
    ensures Inv(Head(s))
  {
  }

  /** The states differ in the kill bookkeeping at most. */
  predicate SameButKills(s: State, t: State) {
    t.kills >= s.kills && t == s.(hardKillAt := t.hardKillAt, kills := t.kills)
  }

  lemma KillsFrame(s: State, t: State)
    requires Inv(s) && SameButKills(s, t)
    ensures Inv(t) && t.phase == s.phase
  {
  }

  lemma DyingInv(s: State)
    requires Inv(s) && s.phase.Draining?
    ensures Inv(Dying(s))
  {
  }

  lemma HandleCtrlFrame(s: State, ctrl: Ctrl)
    ensures SameButKills(s, HandleCtrl(s, ctrl))
  {
    match ctrl
    case Kill => assert HandleCtrl(s, Kill) == s.(hardKillAt := None, kills := s.kills + 1);
    case GracefulKill(termOk) =>
    case WriteStdin =>
  }

  lemma FireCtrl(s: State, ctrl: Ctrl)
    requires Inv(s) && Enabled(s, CtrlMessage(ctrl))
    ensures Inv(OnCtrl(s, ctrl))
  {
    HandleCtrlFrame(s, ctrl);
    KillsFrame(s, HandleCtrl(s, ctrl));
    if s.phase.Draining? && !ctrl.WriteStdin? {
      DyingInv(HandleCtrl(s, ctrl));
    }
  }

  lemma FireCtrlClosed(s: State)
    requires Inv(s) && Enabled(s, CtrlClosed)
    ensures Inv(s.(ctrlOpen := false))
  {
  }

  lemma FireHardKill(s: State)
    requires Inv(s) && Enabled(s, HardKillDue)
    ensures Inv(OnHardKill(s))
  {
    var s' := KillAll(s).(hardKillAt := None);
    KillsFrame(s, s');
    if s.phase.Draining? {
      DyingInv(s');
    }
  }

  lemma PublishInv(s: State, out: FinishOutput)
    requires Inv(s) && s.phase.Draining? && s.finish.None?
    ensures Inv(Publish(s, out))
  {
  }

  lemma PublishLate(s: State, out: FinishOutput)
    requires Inv(s) && s.phase.Finishing? && s.finish.None?
    ensures Inv(Publish(s, out).(phase := CleaningUp))
  {
  }

  lemma FireFinish(s: State, result: Finished)
    requires Inv(s) && Enabled(s, FinishReady(result))
    ensures Inv(OnFinish(s, result))
  {
    var out := NormalizeFinish(result);
    if s.phase.Draining? {
      DyingInv(s);
      PublishInv(Dying(s), out);
    } else {
      PublishLate(s, out);
    }
  }

  lemma FireDrop(s: State)
    requires Inv(s) && Enabled(s, DropDue)
    ensures Inv(OnDrop(s))
  {
  }

  lemma CloseEventsInv(s: State)
    requires Inv(s) && s.phase.Draining?
    ensures Inv(CloseEvents(s))
  {
  }

  lemma SendPending(s: State)
    requires Inv(s) && Enabled(s, PermitReady) && s.phase.Draining? && !s.receiverGone
    ensures Inv(OnPermit(s))
  {
    assert s.sent + [s.pending.value] == s.sent + Opt(s.pending);
  }

  lemma AbortFlush(s: State)
    requires Inv(s) && s.phase.Flushing?
    ensures Inv(Stop(s.(eventsOpen := false)))
  {
    assert TerminalSent(s) <= AllTerminal(s) && |TerminalSent(s)| < |AllTerminal(s)|;
  }

  lemma SendShifts(s: State)
    requires Inv(s) && s.phase.Flushing?
    ensures var s' := AfterSend(s);
            && s'.sent[..s'.outputs] == s.sent[..s.outputs]
            && TerminalSent(s') == TerminalSent(s) + [s.terminal[0]]
            && TerminalSent(s') + s'.terminal == AllTerminal(s')
            && |TerminalSent(s')| + |s'.terminal| == |AllTerminal(s')|
  {
    var s' := AfterSend(s);
    assert s.terminal == [s.terminal[0]] + s.terminal[1..];
    assert TerminalSent(s') + s'.terminal == TerminalSent(s) + s.terminal;
  }

  lemma SendTerminal(s: State)
    requires Inv(s) && s.phase.Flushing? && RoomFor(s)
    ensures Inv(FlushOn(AfterSend(s)))
  {
    var s' := AfterSend(s);
    SendShifts(s);
    assert AllTerminal(s') == AllTerminal(s);
    if s'.terminal == [] {
      SentAll(s, s');
    }
  }

  lemma SentAll(s: State, s': State)
    requires Inv(s) && s.phase.Flushing? && RoomFor(s) && s' == AfterSend(s) && s'.terminal == []
    requires s'.sent[..s'.outputs] == s.sent[..s.outputs] && AllTerminal(s') == AllTerminal(s)
    requires TerminalSent(s') + s'.terminal == AllTerminal(s')
    requires |TerminalSent(s')| + |s'.terminal| == |AllTerminal(s')|
    ensures Inv(Stop(s'))
  {
    assert TerminalSent(s') == AllTerminal(s');
    assert TerminalSent(Stop(s')) == TerminalSent(s') && AllTerminal(Stop(s')) == AllTerminal(s');
  }

  lemma FirePermit(s: State)
    requires Inv(s) && Enabled(s, PermitReady)
    ensures Inv(OnPermit(s))
  {
    if s.phase.Draining? {
      if s.receiverGone {
        CloseEventsInv(s);
      } else {
        SendPending(s);
      }
    } else if s.receiverGone {
      AbortFlush(s);
    } else {
      SendTerminal(s);
    }
  }

  lemma FireReceiverClosed(s: State)
    requires Inv(s) && Enabled(s, ReceiverClosed)
    ensures Inv(OnReceiverClosed(s))
  {
    if s.phase.Draining? {
      CloseEventsInv(s);
    } else if s.phase.Flushing? {
      AbortFlush(s);
    }
  }

  lemma TakeInv(s: State, e: Event)
    requires Inv(s) && s.phase.Draining? && s.pending.None? && IsOutput(e)
    ensures Inv(Take(s, e))
  {
  }

  lemma FireOutput(s: State, output: Output)
    requires Inv(s) && Enabled(s, OutputReady(output))
    ensures Inv(OnOutput(s, output))
  {
    if EventOf(output).Some? {
      TakeInv(s, EventOf(output).value);
    }
  }

  lemma FireEnd(s: State)
    requires Inv(s) && Enabled(s, OutputEnded)
    ensures Inv(OnEnd(s))
  {
  }

  /** The pid file is clean and the terminal events are queued; the loop's condition has not been looked at. */
  lemma QueuedShape(s: State)
    requires Inv(s) && s.phase.CleaningUp?
    ensures var t := Queued(Cleaned(s), s.finish.value);
            && TerminalSent(t) == [] && AllTerminal(t) == AllTerminal(s) == t.terminal && |t.terminal| > 0
            && t == s.(pidFileCleaned := true, phase := Flushing, terminal := AllTerminal(s),
                       flushStart := s.now, flushDeadline := s.now + DYING_EVENT_STALL)
  {
  }

  lemma BeginFlushInv(s: State, t: State)
    requires Inv(s) && s.phase.CleaningUp?
    requires t == s.(pidFileCleaned := true, phase := Flushing, terminal := AllTerminal(s),
                     flushStart := s.now, flushDeadline := s.now + DYING_EVENT_STALL)
    requires TerminalSent(t) == [] && AllTerminal(t) == AllTerminal(s) && |AllTerminal(s)| > 0
    ensures Inv(FlushOn(t))
  {
    if !s.eventsOpen {
      assert TerminalSent(Stop(t)) == [] && AllTerminal(Stop(t)) == AllTerminal(s);
    }
  }

  lemma FireCleaned(s: State)
    requires Inv(s) && Enabled(s, PidFileCleaned)
    ensures Inv(BeginFlush(s))
  {
    QueuedShape(s);
    BeginFlushInv(s, Queued(Cleaned(s), s.finish.value));
  }

  lemma FireFlushDue(s: State)
    requires Inv(s) && Enabled(s, FlushDue)
    ensures Inv(OnFlushDue(s))
  {
    AbortFlush(s);
  }

  lemma FireElapse(s: State, dt: nat)
    requires Inv(s) && Enabled(s, Elapse(dt))
    ensures Inv(s.(now := s.now + dt))
  {
  }

  lemma FireReceive(s: State)
    requires Inv(s) && Enabled(s, Receive)
    ensures Inv(s.(received := s.received + 1))
  {
  }

  lemma FireDropReceiver(s: State)
    requires Inv(s) && Enabled(s, DropReceiver)
    ensures Inv(s.(receiverGone := true))
  {
  }

  /** Wake-ups that change one field each. */
  lemma FireSimple(s: State, w: Wake)
    requires Inv(s) && Enabled(s, w)
    requires w.CtrlClosed? || w.Receive? || w.DropReceiver?
    ensures Inv(Fire(s, w))
  {
    match w
    case CtrlClosed => FireCtrlClosed(s);
    case Receive => FireReceive(s);
    case DropReceiver => FireDropReceiver(s);
  }

  /** Arms that all three loops have, or the first two. */
  lemma FireControl(s: State, w: Wake)
    requires Inv(s) && Enabled(s, w)
    requires w.CtrlMessage? || w.HardKillDue? || w.FinishReady? || w.ReceiverClosed?
    ensures Inv(Fire(s, w))
  {
    match w
    case CtrlMessage(ctrl) => FireCtrl(s, ctrl);
    case HardKillDue => FireHardKill(s);
    case FinishReady(result) => FireFinish(s, result);
    case ReceiverClosed => FireReceiverClosed(s);
  }

  lemma FireEvents(s: State, w: Wake)
    requires Inv(s) && Enabled(s, w)
    requires w.DropDue? || w.PermitReady? || w.OutputReady? || w.OutputEnded?
    ensures Inv(Fire(s, w))
  {
    match w
    case DropDue => FireDrop(s);
    case PermitReady => FirePermit(s);
    case OutputReady(output) => FireOutput(s, output);
    case OutputEnded => FireEnd(s);
  }

  lemma FireLate(s: State, w: Wake)
    requires Inv(s) && Enabled(s, w)
    requires w.PidFileCleaned? || w.FlushDue? || w.Elapse?
    ensures Inv(Fire(s, w))
  {
    match w
    case PidFileCleaned => FireCleaned(s);
    case FlushDue => FireFlushDue(s);
    case Elapse(dt) => FireElapse(s, dt);
  }

  lemma FireInv(s: State, w: Wake)
    requires Inv(s) && Enabled(s, w)
    ensures Inv(Fire(s, w))
  {
    if w.CtrlMessage? || w.HardKillDue? || w.FinishReady? || w.ReceiverClosed? {
      FireControl(s, w);
    } else if w.DropDue? || w.PermitReady? || w.OutputReady? || w.OutputEnded? {
      FireEvents(s, w);
    } else if w.PidFileCleaned? || w.FlushDue? || w.Elapse? {
      FireLate(s, w);
    } else {
      FireSimple(s, w);
    }
  }

  // ---- one step

  predicate Watching(s: State) {
    s.phase.Draining? || s.phase.Finishing?
  }

  /** What never goes back between a state and a later one. */
  predicate Later(s: State, t: State) {
    && t.kills >= s.kills && (s.abandoned ==> t.abandoned)
    && (s.hardKillAt.Some? && t.kills == s.kills ==> t.hardKillAt.Some?)
    && (s.hardKillAt.Some? && t.hardKillAt.Some? ==> t.hardKillAt.value <= s.hardKillAt.value)
    && (Watching(t) ==> Watching(s))
    && (Watching(t) && t.kills == s.kills && s.hardKillAt.Some? && s.now <= s.hardKillAt.value ==>
          t.now <= t.hardKillAt.value)
    && (s.watch.Some? ==> t.watch == s.watch)
    && (s.dropOutput ==> t.dropOutput && t.outputs == s.outputs)
    && (s.dropPendingAt.Some? ==> t.pending.None? || (t.pending == s.pending && t.dropPendingAt == s.dropPendingAt))
  }

  lemma HeadLater(s: State)
    requires Inv(s)
    ensures Later(s, Head(s))
  {
  }

  lemma KillLater(s: State)
    ensures Later(s, HandleCtrl(s, Kill))
  {
  }

  lemma GracefulLater(s: State, termOk: bool)
    ensures Later(s, HandleCtrl(s, GracefulKill(termOk)))
  {
  }

  lemma HandleCtrlLater(s: State, ctrl: Ctrl)
    ensures Later(s, HandleCtrl(s, ctrl))
    ensures HandleCtrl(s, ctrl).dropPendingAt == s.dropPendingAt && HandleCtrl(s, ctrl).pending == s.pending
  {
    match ctrl
    case Kill => KillLater(s);
    case GracefulKill(termOk) => GracefulLater(s, termOk);
    case WriteStdin =>
  }

  lemma DyingLater(s: State, t: State)
    requires Later(s, t) && t.dropPendingAt == s.dropPendingAt && t.pending == s.pending
    ensures Later(s, Dying(t))
  {
  }

  lemma CtrlLater(s: State, ctrl: Ctrl)
    ensures Later(s, OnCtrl(s, ctrl))
  {
    HandleCtrlLater(s, ctrl);
    DyingLater(s, HandleCtrl(s, ctrl));
  }

  lemma HardKillLater(s: State)
    requires WatchOk(s) && StallOk(s) && Enabled(s, HardKillDue)
    ensures Later(s, OnHardKill(s))
  {
    var killed := KillAll(s).(hardKillAt := None);
    assert Later(s, killed);
    DyingLater(s, killed);
  }

  lemma PublishLater(s: State, t: State, out: FinishOutput)
    requires Later(s, t) && s.watch.None?
    ensures Later(s, Publish(t, out))
    ensures s.phase.Finishing? && s.dropPendingAt.None? ==> Later(s, Publish(t, out).(phase := CleaningUp))
  {
  }

  lemma FinishLater(s: State, result: Finished)
    requires WatchOk(s) && StallOk(s) && Enabled(s, FinishReady(result))
    ensures Later(s, OnFinish(s, result))
  {
    var out := NormalizeFinish(result);
    if s.phase.Draining? {
      DyingLater(s, s);
      PublishLater(s, Dying(s), out);
    } else {
      PublishLater(s, s, out);
    }
  }

  lemma StopLater(s: State)
    requires s.phase.Flushing? && StallOk(s)
    ensures Later(s, Stop(s.(eventsOpen := false)))
  {
  }

  lemma SendLater(s: State)
    requires s.phase.Flushing? && StallOk(s) && s.terminal != []
    ensures Later(s, FlushOn(AfterSend(s)))
  {
    FlushOnLater(s, AfterSend(s));
  }

  lemma DrainLater(s: State)
    requires s.phase.Draining? && Enabled(s, PermitReady)
    ensures Later(s, OnPermit(s))
  {
  }

  lemma PermitLater(s: State)
    requires WatchOk(s) && StallOk(s) && Enabled(s, PermitReady)
    ensures Later(s, OnPermit(s))
  {
    if s.phase.Draining? {
      DrainLater(s);
    } else if s.receiverGone || s.terminal == [] {
      StopLater(s);
    } else {
      SendLater(s);
    }
  }

  lemma ReceiverClosedLater(s: State)
    requires WatchOk(s) && StallOk(s) && Enabled(s, ReceiverClosed)
    ensures Later(s, OnReceiverClosed(s))
  {
  }

  lemma TakeLater(s: State, e: Event)
    requires s.pending.None? && s.dropPendingAt.None?
    ensures Later(s, Take(s, e))
  {
  }

  lemma OutputLater(s: State, output: Output)
    requires WatchOk(s) && StallOk(s) && Enabled(s, OutputReady(output))
    ensures Later(s, OnOutput(s, output))
  {
    match EventOf(output)
    case Some(e) => TakeLater(s, e);
    case None =>
  }

  lemma FlushOnLater(s: State, t: State)
    requires Later(s, t) && t.phase.Flushing?
    ensures Later(s, FlushOn(t))
  {
  }

  lemma CleanedLater(s: State)
    requires WatchOk(s) && StallOk(s) && Enabled(s, PidFileCleaned)
    ensures Later(s, BeginFlush(s))
  {
    if s.finish.Some? {
      QueuedLater(s, s.finish.value);
      FlushOnLater(s, Queued(Cleaned(s), s.finish.value));
    }
  }

  lemma QueuedLater(s: State, out: FinishOutput)
    requires StallOk(s) && s.phase.CleaningUp?
    ensures Later(s, Queued(Cleaned(s), out))
  {
  }

  lemma ElapseLater(s: State, dt: nat)
    requires WatchOk(s) && StallOk(s) && Enabled(s, Elapse(dt))
    ensures Later(s, s.(now := s.now + dt))
  {
  }

  lemma LaterControl(s: State, w: Wake)
    requires WatchOk(s) && StallOk(s) && Enabled(s, w)
    requires w.CtrlMessage? || w.HardKillDue? || w.FinishReady? || w.ReceiverClosed?
    ensures Later(s, Fire(s, w))
  {
    match w
    case CtrlMessage(ctrl) => CtrlLater(s, ctrl);
    case HardKillDue => HardKillLater(s);
    case FinishReady(result) => FinishLater(s, result);
    case ReceiverClosed => ReceiverClosedLater(s);
  }

  lemma LaterEvents(s: State, w: Wake)
    requires WatchOk(s) && StallOk(s) && Enabled(s, w)
    requires w.DropDue? || w.PermitReady? || w.OutputReady? || w.OutputEnded?
    ensures Later(s, Fire(s, w))
  {
    match w
    case DropDue =>
    case PermitReady => PermitLater(s);
    case OutputReady(output) => OutputLater(s, output);
    case OutputEnded =>
  }

  lemma LaterSimple(s: State, w: Wake)
    requires WatchOk(s) && StallOk(s) && Enabled(s, w)
    requires w.CtrlClosed? || w.FlushDue? || w.Receive? || w.DropReceiver?
    ensures Later(s, Fire(s, w))
  {
  }

  lemma LaterLate(s: State, w: Wake)
    requires WatchOk(s) && StallOk(s) && Enabled(s, w) && (w.PidFileCleaned? || w.Elapse?)
    ensures Later(s, Fire(s, w))
  {
    match w
    case PidFileCleaned => CleanedLater(s);
    case Elapse(dt) => ElapseLater(s, dt);
  }

  lemma FireLater(s: State, w: Wake)
    requires WatchOk(s) && StallOk(s) && Enabled(s, w)
    ensures Later(s, Fire(s, w))
  {
    if w.CtrlMessage? || w.HardKillDue? || w.FinishReady? || w.ReceiverClosed? {
      LaterControl(s, w);
    } else if w.DropDue? || w.PermitReady? || w.OutputReady? || w.OutputEnded? {
      LaterEvents(s, w);
    } else if w.PidFileCleaned? || w.Elapse? {
      LaterLate(s, w);
    } else {
      LaterSimple(s, w);
    }
  }

  /** Only a graceful kill sets a deadline where there was none. */
  lemma NoNewDeadline(s: State, w: Wake)
    requires Enabled(s, w) && !w.CtrlMessage? && s.hardKillAt.None?
    ensures Fire(s, w).hardKillAt.None?
  {
    match w
    case HardKillDue =>
    case FinishReady(result) => FinishKeepsDeadline(s, result);
    case PermitReady => PermitKeepsDeadline(s);
    case OutputReady(output) => OutputKeepsDeadline(s, output);
    case PidFileCleaned => CleanedKeepsDeadline(s);
    case _ =>
  }

  lemma FinishKeepsDeadline(s: State, result: Finished)
    ensures OnFinish(s, result).hardKillAt == s.hardKillAt
  {
    var t := if s.phase.Draining? then Dying(s) else s;
    assert t.hardKillAt == s.hardKillAt && Publish(t, NormalizeFinish(result)).hardKillAt == t.hardKillAt;
  }

  lemma PermitKeepsDeadline(s: State)
    ensures OnPermit(s).hardKillAt == s.hardKillAt
  {
    if !s.phase.Draining? && !s.receiverGone && s.terminal != [] {
      assert AfterSend(s).hardKillAt == s.hardKillAt;
    }
  }

  lemma OutputKeepsDeadline(s: State, output: Output)
    ensures OnOutput(s, output).hardKillAt == s.hardKillAt
  {
  }

  lemma CleanedKeepsDeadline(s: State)
    ensures BeginFlush(s).hardKillAt == s.hardKillAt
  {
  }

  /** After desertion there are no more requests, so nothing sets the deadline it cleared. */
  lemma DesertedLater(s: State, w: Wake)
    requires Inv(s) && Head(s) != s && Enabled(Head(s), w)
    ensures Later(s, Fire(Head(s), w))
  {
    HeadInv(s);
    HeadLater(s);
    NoNewDeadline(Head(s), w);
    FireLater(Head(s), w);
  }

  lemma StepLater(s: State, w: Wake)
    requires Inv(s)
    ensures Later(s, Step(s, w))
  {
    if Head(s) != s {
      HeadLater(s);
      if Enabled(Head(s), w) {
        DesertedLater(s, w);
      }
    } else if Enabled(s, w) {
      FireLater(s, w);
    }
  }

  // ---- whole runs

  predicate IsStart(s: State) {
    s == Start(s.now, s.hardKillAt, s.killGrace, s.capacity)
  }

  lemma StepInv(s: State, w: Wake)
    requires Inv(s)
    ensures Inv(Step(s, w))
  {
    HeadInv(s);
    if Enabled(Head(s), w) {
      FireInv(Head(s), w);
    }
  }

  lemma {:induction false} RunInv(s: State, script: seq<Wake>)
    requires IsStart(s)
    ensures Inv(Run(s, script))
  {
    if script == [] {
      StartInv(s.now, s.hardKillAt, s.killGrace, s.capacity);
    } else {
      RunInv(s, script[..|script| - 1]);
      StepInv(Run(s, script[..|script| - 1]), script[|script| - 1]);
    }
  }

  /** One more wake-up at the end of a script. */
  lemma RunLater(s: State, script: seq<Wake>)
    requires IsStart(s) && script != []
    ensures Later(Run(s, script[..|script| - 1]), Run(s, script))
  {
    RunInv(s, script[..|script| - 1]);
    StepLater(Run(s, script[..|script| - 1]), script[|script| - 1]);
  }

  /**
   * Order and loss. What was sent is a prefix of the output read, followed by a
   * prefix of the terminal events; the latter only once the output has ended,
   * and then the drop count is exactly what is missing of the output.
   */
  lemma SentInOrder(s: State, script: seq<Wake>)
    requires IsStart(s)
    ensures var t := Run(s, script);
            && t.outputs <= |t.sent| && t.sent[..t.outputs] <= t.read
            && t.sent[t.outputs..] <= AllTerminal(t)
            && (t.outputs < |t.sent| ==> !t.phase.Draining? && |t.read| == t.outputs + t.dropped)
            && t.received <= |t.sent| <= t.received + t.capacity
  {
    RunInv(s, script);
    var t := Run(s, script);
    assert t.sent[t.outputs..] == TerminalSent(t);
    if t.phase.Flushing? {
      assert TerminalSent(t) <= TerminalSent(t) + t.terminal;
    }
  }

  /** `Terminated` is sent at most once and last, behind everything else that was promised. */
  lemma TerminatedComesLast(s: State, script: seq<Wake>, i: nat)
    requires IsStart(s) && i < |Run(s, script).sent| && Run(s, script).sent[i].Terminated?
    ensures var t := Run(s, script);
            && i == |t.sent| - 1
            && t.finish.Some? && t.outputs + t.dropped == |t.read|
            && t.sent == t.read[..t.outputs] + TerminalEvents(t.finish.value, t.dropped)
            && Delivers(t.sent[t.outputs..], t.finish.value, t.dropped)
  {
    SentInOrder(s, script);
    RunInv(s, script);
    var t := Run(s, script);
    TerminatedIn(t, i);
    assert t.sent[t.outputs..] == TerminalEvents(t.finish.value, t.dropped);
    AllDelivered(t.finish.value, t.dropped);
  }

  /** Every line of the tail, a report of what was dropped if anything was, the error if there was one, and the end. */
  predicate Delivers(events: seq<Event>, out: FinishOutput, dropped: nat) {
    var lines := |out.stderrTail|;
    && |events| == lines + (if dropped > 0 then 1 else 0) + (if out.error.Some? then 1 else 0) + 1
    && (forall i :: 0 <= i < lines ==> events[i] == Stderr(out.stderrTail[i]))
    && (dropped > 0 ==> events[lines] == Error(DropReport(dropped)))
    && (out.error.Some? ==> events[|events| - 2] == Error(out.error.value))
    && events[|events| - 1] == Terminated(out.payload)
  }

  lemma AllDelivered(out: FinishOutput, dropped: nat)
    ensures Delivers(TerminalEvents(out, dropped), out, dropped)
  {
  }

  lemma TerminatedIn(t: State, i: nat)
    requires OutputOk(t) && TerminalSent(t) <= AllTerminal(t) && i < |t.sent| && t.sent[i].Terminated?
    requires t.outputs < |t.sent| ==> |t.read| == t.outputs + t.dropped
    ensures i == |t.sent| - 1
    ensures t.finish.Some? && t.outputs + t.dropped == |t.read|
    ensures t.sent == t.read[..t.outputs] + TerminalEvents(t.finish.value, t.dropped)
  {
    var front, rest := t.sent[..t.outputs], t.sent[t.outputs..];
    assert t.sent == front + rest;
    assert front == t.read[..t.outputs];
    assert i >= t.outputs;
    assert rest[i - t.outputs] == t.sent[i];
    assert t.finish.Some?;
    OnlyLastTerminates(t.finish.value, t.dropped);
    assert AllTerminal(t)[i - t.outputs] == rest[i - t.outputs];
    assert rest == AllTerminal(t);
  }

  lemma OnlyLastTerminates(out: FinishOutput, dropped: nat)
    ensures forall k :: 0 <= k < |TerminalEvents(out, dropped)| - 1 ==> !TerminalEvents(out, dropped)[k].Terminated?
  {
  }

  /** The drop report names the number it reports. */
  lemma DropReportTells(m: nat, n: nat)
    requires DropReport(m) == DropReport(n)
    ensures m == n
  {
    var suffix := " buffered output events: receiver not draining";
    var a, b := Decimal.Digits(m), Decimal.Digits(n);
    assert DropReport(m) == "dropped " + (a + suffix) && DropReport(n) == "dropped " + (b + suffix);
    assert |a| == |b|;
    assert a == DropReport(m)[|"dropped "|..|"dropped "| + |a|] == b;
    Decimal.DigitsInjective(m, n);
  }

  // ---- one outcome

  /** The outcome is announced once, and before any terminal event. */
  lemma OneOutcome(s: State, script: seq<Wake>)
    requires IsStart(s)
    ensures var t := Run(s, script);
            && t.watchWrites == (if t.watch.Some? then 1 else 0)
            && (t.outputs < |t.sent| || t.phase.Stopped? ==> t.watch.Some? && t.pidFileCleaned)
  {
    RunInv(s, script);
    var t := Run(s, script);
    assert t.outputs < |t.sent| ==> TerminalSent(t) != [];
  }

  /** When the announced outcome is an exit, `Terminated` carries the same payload. */
  lemma TerminatedAgrees(s: State, script: seq<Wake>, i: nat)
    requires IsStart(s) && i < |Run(s, script).sent| && Run(s, script).sent[i].Terminated?
    ensures var t := Run(s, script);
            t.watch.Some? && (t.watch.value.Exited? ==> t.watch.value.payload == t.sent[i].payload)
  {
    TerminatedComesLast(s, script, i);
    RunInv(s, script);
  }

  lemma {:induction false} OutcomeStays(s: State, script: seq<Wake>, n: nat)
    requires IsStart(s) && n <= |script| && Run(s, script[..n]).watch.Some?
    ensures Run(s, script).watch == Run(s, script[..n]).watch
    decreases |script|
  {
    if n == |script| {
      assert script[..n] == script;
    } else {
      var init := script[..|script| - 1];
      assert init[..n] == script[..n];
      OutcomeStays(s, init, n);
      RunLater(s, script);
    }
  }

  // ---- the stall timer

  /**
   * An event pending while the pump is dying is resolved within the stall time of
   * being put on the timer, however many kill requests arrive meanwhile.
   */
  lemma {:induction false} PendingIsResolvedInTime(s: State, script: seq<Wake>, n: nat)
    requires IsStart(s) && n <= |script|
    requires var a := Run(s, script[..n]); a.phase.Draining? && a.dying && a.pending.Some?
    ensures || (exists k :: n < k <= |script| && Run(s, script[..k]).pending.None?)
            || SamePending(Run(s, script[..n]), Run(s, script))
    decreases |script|
  {
    if n == |script| {
      assert script[..n] == script;
      RunInv(s, script);
    } else {
      var init := script[..|script| - 1];
      assert init[..n] == script[..n];
      PendingIsResolvedInTime(s, init, n);
      if k :| n < k <= |init| && Run(s, init[..k]).pending.None? {
        assert init[..k] == script[..k];
      } else {
        RunLater(s, script);
        RunInv(s, script);
        StillPending(Run(s, script[..n]), Run(s, init), Run(s, script));
        assert script[..|script|] == script;
      }
    }
  }

  /** The event still pending is the same, and so is its deadline, which is not far and not past. */
  predicate SamePending(a: State, b: State) {
    && b.pending == a.pending && b.dropPendingAt == a.dropPendingAt && a.dropPendingAt.Some?
    && b.now <= a.dropPendingAt.value <= a.now + DYING_EVENT_STALL
  }

  lemma StillPending(a: State, b: State, c: State)
    requires SamePending(a, b) && Later(b, c) && StallOk(c)
    ensures c.pending.None? || SamePending(a, c)
  {
  }

  /** After the first stall no later output waits, and none is sent. */
  lemma {:induction false} NothingWaitsAfterStall(s: State, script: seq<Wake>, n: nat)
    requires IsStart(s) && n <= |script| && Run(s, script[..n]).dropOutput
    ensures Run(s, script).dropOutput && Run(s, script).pending.None?
    ensures Run(s, script).outputs == Run(s, script[..n]).outputs
    decreases |script|
  {
    RunInv(s, script);
    if n == |script| {
      assert script[..n] == script;
    } else {
      var init := script[..|script| - 1];
      assert init[..n] == script[..n];
      NothingWaitsAfterStall(s, init, n);
      RunLater(s, script);
    }
  }

  /** The final flush ends within one stall time per terminal event, whatever the receiver does. */
  lemma FlushEndsInTime(s: State, script: seq<Wake>)
    requires IsStart(s)
    ensures var t := Run(s, script);
            && (t.phase.Flushing? ==> t.now <= t.flushStart + DYING_EVENT_STALL * |AllTerminal(t)|)
            && (t.phase.Stopped? ==> t.stoppedAt <= t.flushStart + DYING_EVENT_STALL * |AllTerminal(t)|)
  {
    RunInv(s, script);
  }

  // ---- the hard-kill deadline

  /** Somewhere between the two points the tree was killed and no deadline was left. */
  predicate ClearedBetween(s: State, script: seq<Wake>, n: nat)
    requires n <= |script|
  {
    exists k :: n < k <= |script| && Run(s, script[..k]).hardKillAt.None?
        && Run(s, script[..k]).kills > Run(s, script[..n]).kills
  }

  /** The later deadline, if there still is one, is not later. */
  predicate NotPostponed(a: State, b: State) {
    && b.kills >= a.kills && (b.kills == a.kills ==> b.hardKillAt.Some?)
    && (a.hardKillAt.Some? && b.hardKillAt.Some? ==> b.hardKillAt.value <= a.hardKillAt.value)
  }

  /** One step never moves a deadline later, whatever kills it makes, and drops it only when it kills. */
  lemma DeadlineStep(s: State, script: seq<Wake>)
    requires IsStart(s) && script != [] && Run(s, script[..|script| - 1]).hardKillAt.Some?
    ensures NotPostponed(Run(s, script[..|script| - 1]), Run(s, script))
  {
    RunLater(s, script);
  }

  /**
   * A hard-kill deadline stays and never moves later, also across kills that
   * leave it set, until a kill of the tree clears it.
   */
  lemma {:induction false} DeadlineNeverPostponed(s: State, script: seq<Wake>, n: nat)
    requires IsStart(s) && n <= |script| && Run(s, script[..n]).hardKillAt.Some?
    ensures Run(s, script).kills >= Run(s, script[..n]).kills
    ensures ClearedBetween(s, script, n)
            || (Run(s, script).hardKillAt.Some?
                  && Run(s, script).hardKillAt.value <= Run(s, script[..n]).hardKillAt.value)
    ensures Run(s, script).kills == Run(s, script[..n]).kills ==>
              Run(s, script).hardKillAt.Some? && Run(s, script).hardKillAt.value <= Run(s, script[..n]).hardKillAt.value
    decreases |script|
  {
    if n == |script| {
      assert script[..n] == script;
    } else {
      var init := script[..|script| - 1];
      assert init[..n] == script[..n] && script[..|script|] == script;
      DeadlineNeverPostponed(s, init, n);
      RunLater(s, script);
      if ClearedBetween(s, init, n) {
        ClearedStays(s, script, n);
      } else {
        DeadlineStep(s, script);
      }
    }
  }

  lemma ClearedStays(s: State, script: seq<Wake>, n: nat)
    requires n < |script| && ClearedBetween(s, script[..|script| - 1], n)
    ensures ClearedBetween(s, script, n)
  {
    var init := script[..|script| - 1];
    assert init[..n] == script[..n];
    var k :| n < k <= |init| && Run(s, init[..k]).hardKillAt.None? && Run(s, init[..k]).kills > Run(s, init[..n]).kills;
    assert init[..k] == script[..k];
  }

  /** Between `a` and `b`: either `kill_all` was called, or the deadline still lies ahead. */
  predicate Ahead(a: State, b: State) {
    b.kills > a.kills || (a.hardKillAt.Some? && b.kills == a.kills && b.hardKillAt.Some?
        && b.now <= b.hardKillAt.value <= a.hardKillAt.value)
  }

  lemma AheadLater(a: State, b: State, c: State)
    requires Ahead(a, b) && Later(b, c) && Watching(c)
    ensures Ahead(a, c)
  {
  }

  /** While the process is still watched, no time passes a deadline without `kill_all`. */
  lemma {:induction false} DeadlineForcesKill(s: State, script: seq<Wake>, n: nat)
    requires IsStart(s) && n <= |script| && Watching(Run(s, script))
    requires Ahead(Run(s, script[..n]), Run(s, script[..n]))
    ensures Ahead(Run(s, script[..n]), Run(s, script))
    decreases |script|
  {
    if n == |script| {
      assert script[..n] == script;
    } else {
      var init := script[..|script| - 1];
      assert init[..n] == script[..n];
      RunLater(s, script);
      DeadlineForcesKill(s, init, n);
      AheadLater(Run(s, script[..n]), Run(s, init), Run(s, script));
    }
  }

  /** Dropping all handles and the receiver kills the tree, exactly once. */
  lemma DesertionKillsOnce(s: State, script: seq<Wake>, w: Wake)
    requires IsStart(s)
    requires var t := Run(s, script); Watching(t) && !t.eventsOpen && !t.ctrlOpen
    ensures var t, u := Run(s, script), Step(Run(s, script), w);
            && u.abandonKills == 1
            && (t.abandonKills == 0 ==> u.kills > t.kills)
            && (t.abandonKills == 1 ==> t.kills >= 1)
  {
    RunInv(s, script);
    Deserted(Run(s, script), w);
  }

  lemma Deserted(t: State, w: Wake)
    requires Inv(t) && Watching(t) && !t.eventsOpen && !t.ctrlOpen
    ensures var u := Step(t, w);
            u.abandonKills == 1 && (t.abandonKills == 0 ==> u.kills > t.kills) && (t.abandonKills == 1 ==> t.kills >= 1)
  {
    StepInv(t, w);
    HeadInv(t);
    if Enabled(Head(t), w) {
      FireLater(Head(t), w);
    }
  }

  lemma AbandonKillsAtMostOnce(s: State, script: seq<Wake>)
    requires IsStart(s)
    ensures Run(s, script).abandonKills <= 1
  {
    RunInv(s, script);
  }

  // ---- the stderr tail

  function Join(lines: seq<string>): string {
    if lines == [] then "" else if |lines| == 1 then lines[0] else lines[0] + "\n" + Join(lines[1..])
  }

  lemma {:induction false} SplitOfConcat(a: string, b: string)
    requires '\n' !in a
    ensures Split(a + "\n" + b) == [a] + Split(b)
    ensures Split(a) == [a]
  {
    if a == "" {
      assert (a + "\n" + b)[1..] == b;
    } else {
      assert (a + "\n" + b)[1..] == a[1..] + "\n" + b;
      assert a == [a[0]] + a[1..];
      SplitOfConcat(a[1..], b);
    }
  }

  lemma {:induction false} SplitOfJoin(lines: seq<string>)
    requires lines != [] && forall l <- lines :: '\n' !in l
    ensures Split(Join(lines)) == lines
  {
    if |lines| == 1 {
      SplitOfConcat(lines[0], "");
    } else {
      SplitOfConcat(lines[0], Join(lines[1..]));
      SplitOfJoin(lines[1..]);
    }
  }

  /** The tail is reconstructed from its joined form exactly unless it was one empty line. */
  lemma TailReconstructed(lines: seq<string>)
    requires forall l <- lines :: '\n' !in l
    ensures SplitStderrTail(Join(lines)) == lines <==> lines != [""]
  {
    if lines != [] {
      SplitOfJoin(lines);
      if Join(lines) == "" {
        assert |lines| == 1;
      }
    }
  }
}
