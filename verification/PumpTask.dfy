/**
 * The pump as the source runs it: variables updated in place, one arm per
 * wake-up, three select loops in a row. Each method changes the state exactly as
 * the functional description says.
 */
module PumpTask {
  import opened Basics
  import P = Pump
  import Proofs = PumpProofs

  /**
   * What the pump changes outside its own variables: the clock it reads, the
   * event channel, the outcome slot, the process group; and the history that the
   * properties speak of.
   */
  datatype Surroundings = Surroundings(
    now: nat, sent: seq<P.Event>, received: nat, receiverGone: bool,
    watch: Option<P.Outcome>, watchWrites: nat, pidFileCleaned: bool, kills: nat, abandonKills: nat,
    read: seq<P.Event>, outputs: nat, flushStart: nat, stoppedAt: nat)

  class PumpTask {
    var phase: P.Phase
    var pendingEvent: Option<P.Event>
    var hardKillAt: Option<nat>
    var dropPendingAt: Option<nat>
    var eventsOpen: bool
    var ctrlOpen: bool
    var dying: bool
    var dropOutput: bool
    var abandoned: bool
    var droppedOutputEvents: nat
    var finishOutput: Option<P.FinishOutput>
    var terminalEvents: seq<P.Event>
    var flushDeadline: nat
    const killGrace: nat
    const capacity: nat
    var out: Surroundings

    function View(): P.State
      reads this
    {
      P.State(phase, pendingEvent, hardKillAt, dropPendingAt, eventsOpen, ctrlOpen, dying, dropOutput, abandoned,
              droppedOutputEvents, finishOutput, terminalEvents, flushDeadline, killGrace, capacity,
              out.now, out.sent, out.received, out.receiverGone, out.watch, out.watchWrites, out.pidFileCleaned,
              out.kills, out.abandonKills, out.read, out.outputs, out.flushStart, out.stoppedAt)
    }

    constructor (now: nat, timeoutAt: Option<nat>, killGrace: nat, capacity: nat)
      ensures View() == P.Start(now, timeoutAt, killGrace, capacity)
      ensures Proofs.IsStart(View()) && Proofs.Inv(View())
    {
      phase, pendingEvent, hardKillAt, dropPendingAt := P.Draining, None, timeoutAt, None;
      eventsOpen, ctrlOpen, dying, dropOutput, abandoned := true, true, false, false, false;
      droppedOutputEvents, finishOutput, terminalEvents, flushDeadline := 0, None, [], 0;
      this.killGrace, this.capacity := killGrace, capacity;
      out := Surroundings(now, [], 0, false, None, 0, false, 0, 0, [], 0, 0, 0);
      new;
      Proofs.StartInv(now, timeoutAt, killGrace, capacity);
    }

    method KillAll()
      modifies `out
      ensures View() == P.KillAll(old(View()))
    {
      out := out.(kills := out.kills + 1);
    }

    /** The check at the head of the first two loops. */
    method AbandonIfDeserted()
      modifies this
      ensures View() == P.Head(old(View()))
    {
      if (phase.Draining? || phase.Finishing?) && !eventsOpen && !ctrlOpen && !abandoned {
        abandoned := true;
        if phase.Draining? {
          dying := true;
        }
        hardKillAt := None;
        KillAll();
        out := out.(abandonKills := out.abandonKills + 1);
      }
    }

    /** Returns whether the process is now dying. */
    method HandleCtrl(ctrl: P.Ctrl) returns (kill: bool)
      modifies `hardKillAt, `out
      ensures View() == P.HandleCtrl(old(View()), ctrl)
      ensures kill <==> !ctrl.WriteStdin?
    {
      match ctrl {
        case Kill =>
          hardKillAt := None;
          KillAll();
          kill := true;
        case GracefulKill(termOk) =>
          if termOk {
            var graceDeadline := out.now + killGrace;
            if hardKillAt.None? || graceDeadline < hardKillAt.value {
              hardKillAt := Some(graceDeadline);
            }
          } else {
            KillAll();
          }
          kill := true;
        case WriteStdin => kill := false;
      }
    }

    method MarkDying()
      modifies `dying, `dropPendingAt
      ensures View() == P.Dying(old(View()))
    {
      dying := true;
      if pendingEvent.Some? && dropPendingAt.None? {
        dropPendingAt := Some(out.now + P.DYING_EVENT_STALL);
      }
    }

    method OnCtrl(ctrl: P.Ctrl)
      modifies this
      ensures View() == P.OnCtrl(old(View()), ctrl)
    {
      var kill := HandleCtrl(ctrl);
      if phase.Draining? && kill {
        MarkDying();
      }
    }

    method OnHardKill()
      modifies this
      ensures View() == P.OnHardKill(old(View()))
    {
      hardKillAt := None;
      KillAll();
      if phase.Draining? {
        MarkDying();
      }
    }

    /** Writes the slot that `wait` watches. */
    method Announce(outcome: P.Outcome)
      modifies `out
      ensures out == old(out).(watch := Some(outcome), watchWrites := old(out).watchWrites + 1)
    {
      out := out.(watch := Some(outcome), watchWrites := out.watchWrites + 1);
    }

    method OnFinish(result: P.Finished)
      modifies this
      ensures View() == P.OnFinish(old(View()), result)
    {
      var finished := P.NormalizeFinish(result);
      if phase.Draining? {
        MarkDying();
      } else {
        phase := P.CleaningUp;
      }
      Announce(match finished.error case Some(error) => P.Broke(error) case None => P.Exited(finished.payload));
      finishOutput := Some(finished);
    }

    method OnDrop()
      requires pendingEvent.Some?
      modifies this
      ensures View() == P.OnDrop(old(View()))
    {
      dropPendingAt := None;
      pendingEvent := None;
      droppedOutputEvents := droppedOutputEvents + 1;
      dropOutput := true;
    }

    method CloseEvents()
      modifies this
      ensures View() == P.CloseEvents(old(View()))
    {
      eventsOpen := false;
      pendingEvent := None;
      dropPendingAt := None;
    }

    method SendPending()
      requires phase.Draining? && pendingEvent.Some?
      modifies this
      ensures View() == P.OnPermit(old(View()))
    {
      if out.receiverGone {
        CloseEvents();
      } else {
        out := out.(sent := out.sent + [pendingEvent.value], outputs := out.outputs + 1);
        pendingEvent := None;
        dropPendingAt := None;
      }
    }

    method OnOutput(output: P.Output)
      modifies this
      ensures View() == P.OnOutput(old(View()), output)
    {
      var event := P.EventOf(output);
      if event.Some? {
        out := out.(read := out.read + [event.value]);
        if dropOutput {
          droppedOutputEvents := droppedOutputEvents + 1;
        } else if eventsOpen {
          pendingEvent := event;
          if dying {
            dropPendingAt := Some(out.now + P.DYING_EVENT_STALL);
          }
        }
      }
    }

    method OnEnd()
      modifies this
      ensures View() == P.OnEnd(old(View()))
    {
      phase := if finishOutput.Some? then P.CleaningUp else P.Finishing;
    }

    method Stop()
      modifies this
      ensures View() == P.Stop(old(View()).(eventsOpen := false))
    {
      eventsOpen := false;
      phase := P.Stopped;
      out := out.(stoppedAt := out.now);
    }

    /** Leave the flush loop once its condition fails. */
    method CheckFlush()
      modifies this
      ensures View() == P.FlushOn(old(View()))
    {
      if !(eventsOpen && terminalEvents != []) {
        phase := P.Stopped;
        out := out.(stoppedAt := out.now);
      }
    }

    method CleanPidFile()
      modifies `out
      ensures View() == P.Cleaned(old(View()))
    {
      out := out.(pidFileCleaned := true, flushStart := out.now);
    }

    method QueueTerminalEvents(finished: P.FinishOutput)
      modifies `phase, `terminalEvents, `flushDeadline
      ensures View() == P.Queued(old(View()), finished)
    {
      phase := P.Flushing;
      terminalEvents := P.TerminalEvents(finished, droppedOutputEvents);
      flushDeadline := out.now + P.DYING_EVENT_STALL;
    }

    /** Between the pid file's cleanup and the flush loop. */
    method BeginFlush()
      modifies this
      ensures View() == P.BeginFlush(old(View()))
    {
      match finishOutput {
        case None =>
        case Some(finished) =>
          CleanPidFile();
          QueueTerminalEvents(finished);
          CheckFlush();
      }
    }

    method SendFirst()
      requires terminalEvents != []
      modifies `out, `terminalEvents, `flushDeadline
      ensures View() == P.AfterSend(old(View()))
    {
      out := out.(sent := out.sent + [terminalEvents[0]]);
      terminalEvents := terminalEvents[1..];
      flushDeadline := out.now + P.DYING_EVENT_STALL;
    }

    method SendTerminal()
      requires phase.Flushing?
      modifies this
      ensures View() == P.OnPermit(old(View()))
    {
      if out.receiverGone || terminalEvents == [] {
        Stop();
      } else {
        SendFirst();
        CheckFlush();
      }
    }

    /** What happens around the pump. */
    method Around(w: P.Wake)
      requires w.Elapse? || w.Receive? || w.DropReceiver?
      modifies `out
      ensures View() == P.Fire(old(View()), w)
    {
      match w {
        case Elapse(dt) => out := out.(now := out.now + dt);
        case Receive => out := out.(received := out.received + 1);
        case DropReceiver => out := out.(receiverGone := true);
      }
    }

    method DrainArm(w: P.Wake)
      requires phase.Draining? && P.Enabled(View(), w)
      modifies this
      ensures View() == P.Fire(old(View()), w)
    {
      match w {
        case CtrlMessage(ctrl) => OnCtrl(ctrl);
        case CtrlClosed => ctrlOpen := false;
        case HardKillDue => OnHardKill();
        case FinishReady(result) => OnFinish(result);
        case DropDue => OnDrop();
        case PermitReady => SendPending();
        case ReceiverClosed => CloseEvents();
        case OutputReady(output) => OnOutput(output);
        case OutputEnded => OnEnd();
        case Elapse(_) => Around(w);
        case Receive => Around(w);
        case DropReceiver => Around(w);
      }
    }

    method FinishArm(w: P.Wake)
      requires phase.Finishing? && P.Enabled(View(), w)
      modifies this
      ensures View() == P.Fire(old(View()), w)
    {
      match w {
        case CtrlMessage(ctrl) => OnCtrl(ctrl);
        case CtrlClosed => ctrlOpen := false;
        case HardKillDue => OnHardKill();
        case ReceiverClosed => eventsOpen := false;
        case FinishReady(result) => OnFinish(result);
        case Elapse(_) => Around(w);
        case Receive => Around(w);
        case DropReceiver => Around(w);
      }
    }

    method FlushArm(w: P.Wake)
      requires phase.Flushing? && P.Enabled(View(), w)
      modifies this
      ensures View() == P.Fire(old(View()), w)
    {
      match w {
        case CtrlMessage(ctrl) => OnCtrl(ctrl);
        case CtrlClosed => ctrlOpen := false;
        case HardKillDue => OnHardKill();
        case ReceiverClosed => Stop();
        case PermitReady => SendTerminal();
        case FlushDue => Stop();
        case Elapse(_) => Around(w);
        case Receive => Around(w);
        case DropReceiver => Around(w);
      }
    }

    /** One turn of the first select loop. */
    method DrainTurn(w: P.Wake)
      requires phase.Draining?
      modifies this
      ensures View() == P.Step(old(View()), w)
    {
      AbandonIfDeserted();
      if P.Enabled(View(), w) {
        DrainArm(w);
      }
    }

    /** One turn of the second. */
    method FinishTurn(w: P.Wake)
      requires phase.Finishing?
      modifies this
      ensures View() == P.Step(old(View()), w)
    {
      AbandonIfDeserted();
      if P.Enabled(View(), w) {
        FinishArm(w);
      }
    }

    /** While the pid file is cleaned up nothing else is looked at. */
    method CleanUpTurn(w: P.Wake)
      requires phase.CleaningUp?
      modifies this
      ensures View() == P.Step(old(View()), w)
    {
      if w.PidFileCleaned? {
        BeginFlush();
      } else if (w.Elapse? || w.Receive? || w.DropReceiver?) && P.Enabled(View(), w) {
        Around(w);
      }
    }

    /** One turn of the third. */
    method FlushTurn(w: P.Wake)
      requires phase.Flushing?
      modifies this
      ensures View() == P.Step(old(View()), w)
    {
      if P.Enabled(View(), w) {
        FlushArm(w);
      }
    }

    /** The pump has returned. */
    method IdleTurn(w: P.Wake)
      requires phase.Stopped?
      modifies `out
      ensures View() == P.Step(old(View()), w)
    {
      if (w.Elapse? || w.Receive? || w.DropReceiver?) && P.Enabled(View(), w) {
        Around(w);
      }
    }

    /** The state is where the first `i` wake-ups of the script lead. */
    ghost predicate At(start: P.State, script: seq<P.Wake>, i: nat)
      reads this
    {
      i <= |script| && View() == P.Run(start, script[..i])
    }

    /** The first loop: output flows. */
    method Drain(script: seq<P.Wake>, from: nat, ghost start: P.State) returns (i: nat)
      requires At(start, script, from)
      modifies this
      ensures At(start, script, i)
      ensures i < |script| ==> Rank(phase) >= 1
    {
      i := from;
      while i < |script| && phase.Draining?
        invariant At(start, script, i)
      {
        RunSnoc(start, script, i, View());
        DrainTurn(script[i]);
        i := i + 1;
      }
    }

    /** The second loop: the output has ended, the process has not. */
    method AwaitFinish(script: seq<P.Wake>, from: nat, ghost start: P.State) returns (i: nat)
      requires At(start, script, from)
      requires from < |script| ==> Rank(phase) >= 1
      modifies this
      ensures At(start, script, i)
      ensures i < |script| ==> Rank(phase) >= 2
    {
      i := from;
      while i < |script| && phase.Finishing?
        invariant At(start, script, i)
        invariant i < |script| ==> Rank(phase) >= 1
      {
        RunSnoc(start, script, i, View());
        PhasesGoForward(View(), script[i]);
        FinishTurn(script[i]);
        i := i + 1;
      }
    }

    /** The pid file is being cleaned up. */
    method CleanUp(script: seq<P.Wake>, from: nat, ghost start: P.State) returns (i: nat)
      requires At(start, script, from)
      requires from < |script| ==> Rank(phase) >= 2
      modifies this
      ensures At(start, script, i)
      ensures i < |script| ==> Rank(phase) >= 3
    {
      i := from;
      while i < |script| && phase.CleaningUp?
        invariant At(start, script, i)
        invariant i < |script| ==> Rank(phase) >= 2
      {
        RunSnoc(start, script, i, View());
        PhasesGoForward(View(), script[i]);
        CleanUpTurn(script[i]);
        i := i + 1;
      }
    }

    /** The third loop: the terminal events are flushed. */
    method Flush(script: seq<P.Wake>, from: nat, ghost start: P.State) returns (i: nat)
      requires At(start, script, from)
      requires from < |script| ==> Rank(phase) >= 3
      modifies this
      ensures At(start, script, i)
      ensures i < |script| ==> phase.Stopped?
    {
      i := from;
      while i < |script| && phase.Flushing?
        invariant At(start, script, i)
        invariant i < |script| ==> Rank(phase) >= 3
      {
        RunSnoc(start, script, i, View());
        PhasesGoForward(View(), script[i]);
        FlushTurn(script[i]);
        i := i + 1;
      }
    }

    /** After the pump has returned. */
    method Rest(script: seq<P.Wake>, from: nat, ghost start: P.State) returns (i: nat)
      requires At(start, script, from)
      requires from < |script| ==> phase.Stopped?
      modifies `out
      ensures At(start, script, i)
      ensures i == |script|
    {
      i := from;
      while i < |script| && phase.Stopped?
        invariant At(start, script, i)
        invariant i < |script| ==> phase.Stopped?
      {
        RunSnoc(start, script, i, View());
        IdleTurn(script[i]);
        i := i + 1;
      }
    }

    /** The whole pump over a script of wake-ups; a script may end at any point. */
    method Run(script: seq<P.Wake>)
      modifies this
      ensures View() == P.Run(old(View()), script)
      ensures Proofs.IsStart(old(View())) ==> Proofs.Inv(View())
    {
      RunKeeps(View(), script);
      ghost var start := View();
      var i := Drain(script, 0, start);
      i := AwaitFinish(script, i, start);
      i := CleanUp(script, i, start);
      i := Flush(script, i, start);
      i := Rest(script, i, start);
      assert script[..i] == script;
    }
  }

  /** The order of the loops. */
  function Rank(phase: P.Phase): nat {
    match phase
    case Draining => 0
    case Finishing => 1
    case CleaningUp => 2
    case Flushing => 3
    case Stopped => 4
  }

  lemma CtrlKeepsPhase(s: P.State, ctrl: P.Ctrl)
    ensures P.OnCtrl(s, ctrl).phase == s.phase
  {
    HandleCtrlKeepsPhase(s, ctrl);
  }

  lemma HandleCtrlKeepsPhase(s: P.State, ctrl: P.Ctrl)
    ensures P.HandleCtrl(s, ctrl).phase == s.phase
  {
    match ctrl
    case Kill =>
    case GracefulKill(_) =>
    case WriteStdin =>
  }

  lemma PermitGoesForward(s: P.State)
    ensures Rank(P.OnPermit(s).phase) >= Rank(s.phase)
  {
  }

  lemma FinishGoesForward(s: P.State, result: P.Finished)
    requires s.phase.Draining? || s.phase.Finishing?
    ensures Rank(P.OnFinish(s, result).phase) >= Rank(s.phase)
  {
  }

  lemma CleanedGoesForward(s: P.State)
    requires s.phase.CleaningUp?
    ensures Rank(P.BeginFlush(s).phase) >= Rank(s.phase)
  {
  }

  lemma FireGoesForward(s: P.State, w: P.Wake)
    requires P.Enabled(s, w)
    ensures Rank(P.Fire(s, w).phase) >= Rank(s.phase)
  {
    match w
    case OutputReady(output) => assert P.OnOutput(s, output).phase == s.phase;
    case CtrlMessage(ctrl) => CtrlKeepsPhase(s, ctrl);
    case PermitReady => PermitGoesForward(s);
    case FinishReady(result) => FinishGoesForward(s, result);
    case PidFileCleaned => CleanedGoesForward(s);
    case HardKillDue => assert P.OnHardKill(s).phase == s.phase;
    case _ =>
  }

  lemma PhasesGoForward(s: P.State, w: P.Wake)
    ensures Rank(P.Step(s, w).phase) >= Rank(s.phase)
  {
    if P.Enabled(P.Head(s), w) {
      FireGoesForward(P.Head(s), w);
    }
  }

  lemma RunKeeps(s: P.State, script: seq<P.Wake>)
    ensures Proofs.IsStart(s) ==> Proofs.Inv(P.Run(s, script))
  {
    if Proofs.IsStart(s) {
      Proofs.RunInv(s, script);
    }
  }

  lemma RunSnoc(s: P.State, script: seq<P.Wake>, i: nat, before: P.State)
    requires i < |script| && before == P.Run(s, script[..i])
    ensures P.Run(s, script[..i + 1]) == P.Step(before, script[i])
  {
    assert script[..i + 1][..i] == script[..i];
  }
}
