/** What requests and timers achieve, and that no timer strikes early. */
module PumpProgress {
  import opened Basics
  import opened Pump
  import opened PumpProofs

  // ---- dying

  lemma DyingHead(s: State)
    requires DyingOk(s)
    ensures DyingOk(Head(s))
  {
  }

  lemma DyingCtrl(s: State, ctrl: Ctrl)
    requires DyingOk(s)
    ensures DyingOk(OnCtrl(s, ctrl))
    ensures s.phase.Draining? && !ctrl.WriteStdin? ==> OnCtrl(s, ctrl).dying
  {
    HandleCtrlFrame(s, ctrl);
    if ctrl.WriteStdin? {
      assert HandleCtrl(s, ctrl) == s;
    }
  }

  lemma DyingFrame(s: State, t: State)
    requires DyingOk(s) && t.kills == s.kills && t.finish == s.finish && t.dying == s.dying
    requires t.phase.Draining? ==> s.phase.Draining?
    ensures DyingOk(t)
  {
  }

  /** The kill and finish bookkeeping and the clock are the same. */
  predicate SameBookkeeping(s: State, t: State) {
    t.kills == s.kills && t.finish == s.finish && t.dying == s.dying && t.now == s.now
    && (t.phase.Draining? ==> s.phase.Draining?)
  }

  lemma PermitFrame(s: State)
    ensures SameBookkeeping(s, OnPermit(s))
  {
    if s.phase.Draining? {
      DrainFrame(s);
    } else if !s.receiverGone && s.terminal != [] {
      SendFrame(s);
    }
  }

  lemma DrainFrame(s: State)
    requires s.phase.Draining?
    ensures SameBookkeeping(s, OnPermit(s))
  {
  }

  lemma SendFrame(s: State)
    requires !s.phase.Draining? && s.terminal != []
    ensures SameBookkeeping(s, FlushOn(AfterSend(s)))
  {
    assert SameBookkeeping(s, AfterSend(s));
  }

  lemma DyingPermit(s: State)
    requires DyingOk(s)
    ensures DyingOk(OnPermit(s))
  {
    PermitFrame(s);
    DyingFrame(s, OnPermit(s));
  }

  lemma DyingCleaned(s: State)
    requires DyingOk(s) && s.phase.CleaningUp?
    ensures DyingOk(BeginFlush(s))
  {
    DyingFrame(s, BeginFlush(s));
  }

  lemma DyingOutput(s: State, output: Output)
    requires DyingOk(s)
    ensures DyingOk(OnOutput(s, output))
  {
    DyingFrame(s, OnOutput(s, output));
  }

  lemma DyingOther(s: State, w: Wake)
    requires DyingOk(s) && Enabled(s, w)
    requires w.CtrlClosed? || w.DropDue? || w.ReceiverClosed? || w.OutputEnded? || w.FlushDue? || w.Elapse?
             || w.Receive? || w.DropReceiver?
    ensures DyingOk(Fire(s, w))
  {
    DyingFrame(s, Fire(s, w));
  }

  lemma DyingStep(s: State, w: Wake)
    requires DyingOk(s)
    ensures DyingOk(Step(s, w))
  {
    DyingHead(s);
    var h := Head(s);
    if Enabled(h, w) {
      if w.CtrlMessage? {
        DyingCtrl(h, w.ctrl);
      } else if w.HardKillDue? {
        assert DyingOk(OnHardKill(h));
      } else if w.FinishReady? {
        assert DyingOk(OnFinish(h, w.result));
      } else if w.PermitReady? {
        DyingPermit(h);
      } else if w.PidFileCleaned? {
        DyingCleaned(h);
      } else if w.OutputReady? {
        DyingOutput(h, w.output);
      } else {
        DyingOther(h, w);
      }
    }
  }

  /** In the first loop a process that finished, was killed or hit its deadline is treated as dying. */
  lemma {:induction false} FinishedOrKilledIsDying(s: State, script: seq<Wake>)
    requires IsStart(s)
    ensures DyingOk(Run(s, script))
  {
    if script != [] {
      FinishedOrKilledIsDying(s, script[..|script| - 1]);
      DyingStep(Run(s, script[..|script| - 1]), script[|script| - 1]);
    }
  }

  // ---- requests to kill

  /** Between the two states the tree was killed, or a deadline no later than this is set. */
  predicate KillBy(kills: nat, t: State, deadline: nat) {
    t.kills > kills || (t.kills == kills && t.hardKillAt.Some? && t.hardKillAt.value <= deadline)
  }

  lemma RequestCounts(h: State, ctrl: Ctrl)
    requires !ctrl.WriteStdin?
    ensures ctrl.Kill? ==> OnCtrl(h, ctrl).kills > h.kills
    ensures KillBy(h.kills, OnCtrl(h, ctrl), h.now + h.killGrace) && OnCtrl(h, ctrl).now == h.now
    ensures OnCtrl(h, ctrl).phase == h.phase && (h.phase.Draining? ==> OnCtrl(h, ctrl).dying)
  {
    HandleRequest(h, ctrl);
  }

  lemma HandleRequest(h: State, ctrl: Ctrl)
    requires !ctrl.WriteStdin?
    ensures var t := HandleCtrl(h, ctrl);
            && (ctrl.Kill? ==> t.kills > h.kills)
            && KillBy(h.kills, t, h.now + h.killGrace) && t.now == h.now && t.phase == h.phase && t.pending == h.pending
  {
    match ctrl
    case Kill =>
    case GracefulKill(_) =>
  }

  /** Time does not pass a deadline that the select waits for. */
  predicate NotPast(s: State, t: State) {
    Watching(t) && t.kills == s.kills && s.hardKillAt.Some? ==>
      t.now <= if s.now <= s.hardKillAt.value then s.hardKillAt.value else s.now
  }

  lemma NowStays(s: State, w: Wake)
    requires Enabled(s, w) && !w.Elapse?
    ensures Fire(s, w).now == s.now
  {
    if w.CtrlMessage? {
      HandleCtrlFrame(s, w.ctrl);
    } else if w.PermitReady? {
      PermitFrame(s);
    } else if w.PidFileCleaned? {
      CleanedKeepsNow(s);
    } else {
      OtherKeepsNow(s, w);
    }
  }

  lemma OtherKeepsNow(s: State, w: Wake)
    requires !w.Elapse? && !w.CtrlMessage? && !w.PermitReady? && !w.PidFileCleaned?
    ensures Fire(s, w).now == s.now
  {
    match w
    case FinishReady(result) => FinishKeepsNow(s, result);
    case OutputReady(output) => OutputKeepsNow(s, output);
    case _ =>
  }

  lemma FinishKeepsNow(s: State, result: Finished)
    ensures OnFinish(s, result).now == s.now
  {
    PublishFrame(if s.phase.Draining? then Dying(s) else s, NormalizeFinish(result));
  }

  lemma PublishFrame(s: State, out: FinishOutput)
    ensures var t := Publish(s, out);
            t.now == s.now && t.dropPendingAt == s.dropPendingAt && t.dropOutput == s.dropOutput
  {
  }

  lemma OutputKeepsNow(s: State, output: Output)
    ensures OnOutput(s, output).now == s.now
  {
  }

  lemma CleanedKeepsNow(s: State)
    ensures BeginFlush(s).now == s.now
  {
  }

  lemma StepNotPast(s: State, w: Wake)
    requires Inv(s)
    ensures NotPast(s, Step(s, w))
  {
    var h := Head(s);
    if Enabled(h, w) && !w.Elapse? {
      NowStays(h, w);
    } else if Enabled(h, w) {
      ElapseNotPast(s, h, w.dt);
    }
  }

  lemma ElapseNotPast(s: State, h: State, dt: nat)
    requires h == Head(s) && MayElapse(h, dt)
    ensures NotPast(s, h.(now := h.now + dt))
  {
  }

  /**
   * A request to kill takes effect while the process is watched: a hard one has
   * killed the tree when it is handled, a graceful one at the latest when its
   * grace is over, signals failing or not.
   */
  lemma KillRequestsTakeEffect(s: State, script: seq<Wake>, n: nat, ctrl: Ctrl)
    requires IsStart(s) && n < |script| && script[n] == CtrlMessage(ctrl) && !ctrl.WriteStdin?
    requires Enabled(Head(Run(s, script[..n])), script[n])
    ensures var a, b := Run(s, script[..n]), Run(s, script);
            && (ctrl.Kill? ==> b.kills > a.kills)
            && (Watching(b) ==> b.kills > a.kills || b.now <= a.now + a.killGrace)
            && (a.phase.Draining? ==> Run(s, script[..n + 1]).dying)
  {
    var a := Run(s, script[..n]);
    assert script[..n + 1][..n] == script[..n];
    RequestCounts(Head(a), ctrl);
    KillByStays(s, script, n + 1, a.kills, a.now + a.killGrace);
  }

  lemma {:induction false} KillByStays(s: State, script: seq<Wake>, n: nat, kills: nat, deadline: nat)
    requires IsStart(s) && n <= |script|
    requires KillBy(kills, Run(s, script[..n]), deadline) && Run(s, script[..n]).now <= deadline
    ensures Run(s, script[..n]).kills > kills ==> Run(s, script).kills > kills
    ensures KillBy(kills, Run(s, script), deadline)
    ensures Watching(Run(s, script)) ==> Run(s, script).kills > kills || Run(s, script).now <= deadline
    decreases |script|
  {
    if n == |script| {
      assert script[..n] == script;
    } else {
      var init, w := script[..|script| - 1], script[|script| - 1];
      assert init[..n] == script[..n];
      KillByStays(s, init, n, kills, deadline);
      RunInv(s, init);
      RunLater(s, script);
      StepNotPast(Run(s, init), w);
      KillByLater(Run(s, init), Run(s, script), kills, deadline);
    }
  }

  lemma KillByLater(b: State, c: State, kills: nat, deadline: nat)
    requires KillBy(kills, b, deadline) && Later(b, c) && NotPast(b, c)
    requires Watching(b) ==> b.kills > kills || b.now <= deadline
    ensures c.kills >= b.kills && KillBy(kills, c, deadline)
    ensures Watching(c) ==> c.kills > kills || c.now <= deadline
  {
  }

  // ---- the flush is patient

  /** Since the time of the last progress the flush gives the receiver its full five seconds. */
  predicate Patient(t: State, since: nat) {
    && since <= t.now && (t.phase.Flushing? || t.phase.Stopped?)
    && (t.phase.Flushing? ==> t.flushDeadline >= since + DYING_EVENT_STALL)
    && (t.phase.Stopped? ==> t.stoppedAt >= since + DYING_EVENT_STALL || t.terminal == [] || t.receiverGone)
  }

  lemma PatientCtrl(s: State, ctrl: Ctrl, since: nat)
    requires Patient(s, since)
    ensures Patient(OnCtrl(s, ctrl), since)
  {
    HandleCtrlFrame(s, ctrl);
  }

  lemma PatientPermit(s: State, since: nat)
    requires Patient(s, since) && s.phase.Flushing? && s.eventsOpen && Enabled(s, PermitReady)
    ensures Patient(OnPermit(s), since)
    ensures !s.receiverGone && s.terminal != [] ==> Patient(OnPermit(s), s.now)
  {
  }

  lemma PatientOther(s: State, w: Wake, since: nat)
    requires Patient(s, since) && Enabled(s, w) && !w.CtrlMessage? && !w.PermitReady?
    ensures Patient(Fire(s, w), since)
  {
  }

  lemma PatientStep(s: State, w: Wake, since: nat)
    requires Patient(s, since) && Inv(s)
    ensures Patient(Step(s, w), since)
  {
    assert Head(s) == s;
    if Enabled(s, w) {
      if w.CtrlMessage? {
        PatientCtrl(s, w.ctrl, since);
      } else if w.PermitReady? {
        PatientPermit(s, since);
      } else {
        PatientOther(s, w, since);
      }
    }
  }

  lemma {:induction false} PatientRun(s: State, script: seq<Wake>, n: nat, since: nat)
    requires IsStart(s) && n <= |script| && Patient(Run(s, script[..n]), since)
    ensures Patient(Run(s, script), since)
    decreases |script|
  {
    if n == |script| {
      assert script[..n] == script;
    } else {
      var init := script[..|script| - 1];
      assert init[..n] == script[..n];
      PatientRun(s, init, n, since);
      RunInv(s, init);
      PatientStep(Run(s, init), script[|script| - 1], since);
    }
  }

  /**
   * The deadline of the flush starts anew with every event sent: the pump ends
   * earlier only when everything is sent or the receiver is gone.
   */
  lemma FlushIsPatient(s: State, script: seq<Wake>, n: nat)
    requires IsStart(s) && n < |script| && Run(s, script[..n]).phase.Flushing?
    requires script[n] == PermitReady && Enabled(Run(s, script[..n]), PermitReady) && !Run(s, script[..n]).receiverGone
    ensures Patient(Run(s, script), Run(s, script[..n]).now)
  {
    var a := Run(s, script[..n]);
    assert script[..n + 1][..n] == script[..n];
    RunInv(s, script[..n]);
    assert Head(a) == a;
    PatientSend(a);
    PatientRun(s, script, n + 1, a.now);
  }

  lemma PatientSend(a: State)
    requires a.phase.Flushing? && a.eventsOpen && a.terminal != [] && !a.receiverGone && Enabled(a, PermitReady)
    ensures Patient(OnPermit(a), a.now)
  {
  }

  // ---- the stall timer is not early

  /** A new stall deadline lies five seconds ahead, and output is dropped only at one. */
  predicate Timely(s: State, t: State) {
    && (t.dropPendingAt.Some? && t.dropPendingAt != s.dropPendingAt ==>
          t.dropPendingAt.value == t.now + DYING_EVENT_STALL)
    && (t.dropOutput && !s.dropOutput ==> s.dropPendingAt.Some? && s.now >= s.dropPendingAt.value)
  }

  lemma TimelyCtrl(s: State, ctrl: Ctrl)
    ensures Timely(s, OnCtrl(s, ctrl))
  {
    HandleCtrlFrame(s, ctrl);
  }

  lemma TimelyPermit(s: State)
    requires Enabled(s, PermitReady)
    ensures Timely(s, OnPermit(s))
  {
  }

  lemma TimelyCleaned(s: State)
    ensures Timely(s, BeginFlush(s))
  {
  }

  lemma TimelyHardKill(s: State)
    ensures Timely(s, OnHardKill(s))
  {
  }

  lemma TimelyFinish(s: State, result: Finished)
    ensures Timely(s, OnFinish(s, result))
  {
    PublishFrame(if s.phase.Draining? then Dying(s) else s, NormalizeFinish(result));
    TimelyDying(s);
  }

  lemma TimelyDying(s: State)
    ensures Timely(s, Dying(s)) && Dying(s).now == s.now
  {
  }

  lemma TimelyOutput(s: State, output: Output)
    ensures Timely(s, OnOutput(s, output))
  {
  }

  lemma TimelyOther(s: State, w: Wake)
    requires Enabled(s, w)
    requires w.CtrlClosed? || w.DropDue? || w.ReceiverClosed? || w.OutputEnded? || w.FlushDue? || w.Elapse?
             || w.Receive? || w.DropReceiver?
    ensures Timely(s, Fire(s, w))
  {
  }

  lemma TimelyStep(s: State, w: Wake)
    ensures Timely(s, Step(s, w))
  {
    var h := Head(s);
    TimelyHead(s);
    if Enabled(h, w) {
      if w.CtrlMessage? {
        TimelyCtrl(h, w.ctrl);
      } else if w.PermitReady? {
        TimelyPermit(h);
      } else if w.PidFileCleaned? {
        TimelyCleaned(h);
      } else if w.HardKillDue? {
        TimelyHardKill(h);
      } else if w.FinishReady? {
        TimelyFinish(h, w.result);
      } else if w.OutputReady? {
        TimelyOutput(h, w.output);
      } else {
        TimelyOther(h, w);
      }
    }
  }

  lemma TimelyHead(s: State)
    ensures var h := Head(s);
            && h.dropPendingAt == s.dropPendingAt && h.dropOutput == s.dropOutput
            && h.dropped == s.dropped && h.now == s.now
  {
  }

  /** The event pending now was so then, and its deadline lies five seconds after that. */
  predicate Waited(a: State, b: State) {
    b.dropPendingAt == Some(a.now + DYING_EVENT_STALL) && a.pending.Some? && a.pending == b.pending
  }

  lemma StillWaits(a: State, b: State, c: State)
    requires Waited(a, b) && Later(b, c) && StallOk(c) && c.dropPendingAt == b.dropPendingAt
    ensures Waited(a, c)
  {
  }

  lemma NewlyWaits(b: State, c: State)
    requires Timely(b, c) && StallOk(c) && c.dropPendingAt.Some? && c.dropPendingAt != b.dropPendingAt
    ensures Waited(c, c)
  {
  }

  lemma RunStep(s: State, script: seq<Wake>)
    requires IsStart(s) && script != []
    ensures var b, c := Run(s, script[..|script| - 1]), Run(s, script); Later(b, c) && Timely(b, c) && StallOk(c)
  {
    RunLater(s, script);
    RunInv(s, script);
    TimelyStep(Run(s, script[..|script| - 1]), script[|script| - 1]);
  }

  lemma {:induction false} DeadlineWasEarned(s: State, script: seq<Wake>) returns (n: nat)
    requires IsStart(s) && Run(s, script).dropPendingAt.Some?
    ensures n <= |script| && Waited(Run(s, script[..n]), Run(s, script))
  {
    n := |script|;
    assert script[..|script|] == script;
    var init := script[..|script| - 1];
    RunStep(s, script);
    if Run(s, script).dropPendingAt == Run(s, init).dropPendingAt {
      n := DeadlineWasEarned(s, init);
      assert init[..n] == script[..n];
      StillWaits(Run(s, script[..n]), Run(s, init), Run(s, script));
    } else {
      NewlyWaits(Run(s, init), Run(s, script));
    }
  }

  /**
   * Output is dropped only after an event has been pending for five seconds in a
   * dying pump without room for it.
   */
  lemma OnlyAStallDrops(s: State, script: seq<Wake>, w: Wake) returns (n: nat)
    requires IsStart(s) && !Run(s, script).dropOutput && Step(Run(s, script), w).dropOutput
    ensures n <= |script| && Waited(Run(s, script[..n]), Run(s, script))
    ensures Run(s, script).now >= Run(s, script[..n]).now + DYING_EVENT_STALL
  {
    TimelyStep(Run(s, script), w);
    n := DeadlineWasEarned(s, script);
  }
}
