/**
 * The event pump, described as a state and what each wake-up does to it.
 *
 * Phases follow the three select loops of the source and the wait for the pid
 * file in between. A script of wake-ups is an arbitrary interleaving; one that
 * its select guard excludes at that point has no effect. Handling a wake-up
 * takes no time, and time does not pass a timer that is being waited for.
 */
module Pump {
  import opened Basics
  import Decimal

  datatype Payload = Payload(code: Option<int>, signal: Option<int>)

  datatype Event = Stdout(line: string) | Stderr(line: string) | Error(text: string) | Terminated(payload: Payload)

  /** An output event of the engine; the enumeration is open, and other kinds are ignored. */
  datatype Output = OutLine(line: string) | ErrLine(line: string) | OtherOutput

  datatype Finished = Finished(payload: Payload, stderr: string) | FinishFailed(error: string)

  datatype FinishOutput = FinishOutput(payload: Payload, stderrTail: seq<string>, error: Option<string>)

  /** What `wait` is told. */
  datatype Outcome = Exited(payload: Payload) | Broke(error: string)

  /** `split('\n')`: one more piece than there are line feeds. */
  function Split(s: string): (pieces: seq<string>)
    ensures |pieces| > 0
  {
    if s == "" then [""]
    else
      var rest := Split(s[1..]);
      if s[0] == '\n' then [""] + rest else [[s[0]] + rest[0]] + rest[1..]
  }

  function SplitStderrTail(stderr: string): seq<string> {
    if stderr == "" then [] else Split(stderr)
  }

  function NormalizeFinish(result: Finished): FinishOutput {
    match result
    case Finished(payload, stderr) => FinishOutput(payload, SplitStderrTail(stderr), None)
    case FinishFailed(error) => FinishOutput(Payload(None, None), [], Some(error))
  }

  function OutcomeOf(out: FinishOutput): Outcome {
    match out.error case Some(error) => Broke(error) case None => Exited(out.payload)
  }

  const DYING_EVENT_STALL: nat := 5

  datatype Phase = Draining | Finishing | CleaningUp | Flushing | Stopped

  /**
   * The first group are the pump's own variables. The second is what surrounds
   * it: the clock, the event channel, how often `kill_all` was called (and how
   * often because of abandonment). The third is history: the output lines read,
   * how many of the sent events are output, and when flushing began and ended.
   */
  datatype State = State(
    phase: Phase, pending: Option<Event>, hardKillAt: Option<nat>, dropPendingAt: Option<nat>,
    eventsOpen: bool, ctrlOpen: bool, dying: bool, dropOutput: bool, abandoned: bool, dropped: nat,
    finish: Option<FinishOutput>, terminal: seq<Event>, flushDeadline: nat,
    killGrace: nat, capacity: nat, now: nat, sent: seq<Event>, received: nat, receiverGone: bool,
    watch: Option<Outcome>, watchWrites: nat, pidFileCleaned: bool, kills: nat, abandonKills: nat,
    read: seq<Event>, outputs: nat, flushStart: nat, stoppedAt: nat)

  function Start(now: nat, timeoutAt: Option<nat>, killGrace: nat, capacity: nat): State {
    State(Draining, None, timeoutAt, None, true, true, false, false, false, 0,
          None, [], 0, killGrace, capacity, now, [], 0, false,
          None, 0, false, 0, 0, [], 0, 0, 0)
  }

  /** `termOk` says whether the terminate signal could be sent. */
  datatype Ctrl = Kill | GracefulKill(termOk: bool) | WriteStdin

  datatype Wake =
    | CtrlMessage(ctrl: Ctrl)
    | CtrlClosed
    | HardKillDue
    | FinishReady(result: Finished)
    | DropDue
    | PermitReady
    | ReceiverClosed
    | OutputReady(output: Output)
    | OutputEnded
    | PidFileCleaned
    | FlushDue
    | Elapse(dt: nat)
    | Receive
    | DropReceiver

  predicate Due(s: State, deadline: Option<nat>) {
    deadline.Some? && s.now >= deadline.value
  }

  predicate RoomFor(s: State) {
    s.received <= |s.sent| && |s.sent| - s.received < s.capacity
  }

  predicate DropTimerWaits(s: State) {
    s.phase.Draining? && s.dying && !s.dropOutput && s.pending.Some?
  }

  /** Which timers the current select waits for. */
  predicate MayElapse(s: State, dt: nat) {
    && (s.hardKillAt.Some? && (s.phase.Draining? || s.phase.Finishing? || s.phase.Flushing?) ==>
          s.now + dt <= s.hardKillAt.value)
    && (DropTimerWaits(s) && s.dropPendingAt.Some? ==> s.now + dt <= s.dropPendingAt.value)
    && (s.phase.Flushing? ==> s.now + dt <= s.flushDeadline)
  }

  /** The select guards. */
  predicate Enabled(s: State, w: Wake) {
    var selects := s.phase.Draining? || s.phase.Finishing? || s.phase.Flushing?;
    match w
    case CtrlMessage(_) => selects && s.ctrlOpen
    case CtrlClosed => selects && s.ctrlOpen
    case HardKillDue => selects && Due(s, s.hardKillAt)
    case FinishReady(_) => (s.phase.Draining? || s.phase.Finishing?) && s.finish.None?
    case DropDue => DropTimerWaits(s) && Due(s, s.dropPendingAt)
    case PermitReady =>
      && (s.receiverGone || RoomFor(s))
      && ((s.phase.Draining? && s.eventsOpen && s.pending.Some? && !s.dropOutput) || s.phase.Flushing?)
    case ReceiverClosed => selects && s.eventsOpen && s.receiverGone
    case OutputReady(_) => s.phase.Draining? && s.pending.None?
    case OutputEnded => s.phase.Draining? && s.pending.None?
    case PidFileCleaned => s.phase.CleaningUp?
    case FlushDue => s.phase.Flushing? && s.now >= s.flushDeadline
    case Elapse(dt) => MayElapse(s, dt)
    case Receive => !s.receiverGone && s.received < |s.sent|
    case DropReceiver => true
  }

  // ---- what the arms do

  /** `kill_all`; its error only matters to whoever asked for it. */
  function KillAll(s: State): State {
    s.(kills := s.kills + 1)
  }

  /** The check at the head of the first two loops. */
  function Head(s: State): State {
    if (s.phase.Draining? || s.phase.Finishing?) && !s.eventsOpen && !s.ctrlOpen && !s.abandoned then
      KillAll(s.(abandoned := true, dying := s.dying || s.phase.Draining?, hardKillAt := None,
          abandonKills := s.abandonKills + 1))
    else s
  }

  /** A grace deadline only ever brings the hard kill forward. */
  function Earlier(deadline: Option<nat>, grace: nat): nat {
    if deadline.None? || grace < deadline.value then grace else deadline.value
  }

  /** `handle_ctrl` on Unix. */
  function HandleCtrl(s: State, ctrl: Ctrl): State {
    match ctrl
    case Kill => KillAll(s).(hardKillAt := None)
    case GracefulKill(termOk) =>
      if termOk then s.(hardKillAt := Some(Earlier(s.hardKillAt, s.now + s.killGrace))) else KillAll(s)
    case WriteStdin => s
  }

  /** In the first loop a dying process puts a deadline on the event still pending. */
  function Dying(s: State): State {
    s.(dying := true,
       dropPendingAt := if s.pending.Some? && s.dropPendingAt.None? then Some(s.now + DYING_EVENT_STALL)
           else s.dropPendingAt)
  }

  function CloseEvents(s: State): State {
    s.(eventsOpen := false, pending := None, dropPendingAt := None)
  }

  function EventOf(output: Output): Option<Event> {
    match output case OutLine(l) => Some(Stdout(l)) case ErrLine(l) => Some(Stderr(l)) case OtherOutput => None
  }

  /** A line read: dropped, kept until there is room for it, or discarded. */
  function Take(s: State, e: Event): State {
    var s := s.(read := s.read + [e]);
    if s.dropOutput then s.(dropped := s.dropped + 1)
    else if s.eventsOpen then
      s.(pending := Some(e), dropPendingAt := if s.dying then Some(s.now + DYING_EVENT_STALL) else s.dropPendingAt)
    else s
  }

  function Publish(s: State, out: FinishOutput): State {
    s.(watch := Some(OutcomeOf(out)), watchWrites := s.watchWrites + 1, finish := Some(out))
  }

  function DropReport(dropped: nat): string {
    "dropped " + Decimal.Digits(dropped) + " buffered output events: receiver not draining"
  }

  function Tail(lines: seq<string>): seq<Event> {
    seq(|lines|, i requires 0 <= i < |lines| => Stderr(lines[i]))
  }

  /** Everything that follows the output. */
  function TerminalEvents(out: FinishOutput, dropped: nat): seq<Event> {
    Tail(out.stderrTail)
    + (if dropped > 0 then [Error(DropReport(dropped))] else [])
    + (if out.error.Some? then [Error(out.error.value)] else [])
    + [Terminated(out.payload)]
  }

  function Stop(s: State): State {
    s.(phase := Stopped, stoppedAt := s.now)
  }

  /** The flush loop's condition. */
  function FlushOn(s: State): State {
    if s.eventsOpen && s.terminal != [] then s else Stop(s)
  }

  function OnCtrl(s: State, ctrl: Ctrl): State {
    var s' := HandleCtrl(s, ctrl);
    if s.phase.Draining? && !ctrl.WriteStdin? then Dying(s') else s'
  }

  function OnHardKill(s: State): State {
    var s' := KillAll(s).(hardKillAt := None);
    if s.phase.Draining? then Dying(s') else s'
  }

  function OnFinish(s: State, result: Finished): State {
    var out := NormalizeFinish(result);
    if s.phase.Draining? then Publish(Dying(s), out) else Publish(s, out).(phase := CleaningUp)
  }

  function OnDrop(s: State): State {
    s.(dropPendingAt := None, pending := None, dropped := s.dropped + 1, dropOutput := true)
  }

  function OnPermit(s: State): State {
    if s.phase.Draining? then
      if s.receiverGone || s.pending.None? then CloseEvents(s)
      else s.(sent := s.sent + [s.pending.value], outputs := s.outputs + 1, pending := None, dropPendingAt := None)
    else if s.receiverGone || s.terminal == [] then Stop(s.(eventsOpen := false))
    else FlushOn(AfterSend(s))
  }

  function AfterSend(s: State): State
    requires s.terminal != []
  {
    s.(sent := s.sent + [s.terminal[0]], terminal := s.terminal[1..], flushDeadline := s.now + DYING_EVENT_STALL)
  }

  function OnReceiverClosed(s: State): State {
    if s.phase.Draining? then CloseEvents(s)
    else if s.phase.Flushing? then Stop(s.(eventsOpen := false))
    else s.(eventsOpen := false)
  }

  function OnOutput(s: State, output: Output): State {
    match EventOf(output) case Some(e) => Take(s, e) case None => s
  }

  function OnEnd(s: State): State {
    s.(phase := if s.finish.Some? then CleaningUp else Finishing)
  }

  function OnFlushDue(s: State): State {
    Stop(s.(eventsOpen := false))
  }

  function Fire(s: State, w: Wake): State {
    match w
    case CtrlMessage(ctrl) => OnCtrl(s, ctrl)
    case CtrlClosed => s.(ctrlOpen := false)
    case HardKillDue => OnHardKill(s)
    case FinishReady(result) => OnFinish(s, result)
    case DropDue => OnDrop(s)
    case PermitReady => OnPermit(s)
    case ReceiverClosed => OnReceiverClosed(s)
    case OutputReady(output) => OnOutput(s, output)
    case OutputEnded => OnEnd(s)
    case PidFileCleaned => BeginFlush(s)
    case FlushDue => OnFlushDue(s)
    case Elapse(dt) => s.(now := s.now + dt)
    case Receive => s.(received := s.received + 1)
    case DropReceiver => s.(receiverGone := true)
  }

  function Cleaned(s: State): State {
    s.(pidFileCleaned := true, flushStart := s.now)
  }

  function Queued(s: State, out: FinishOutput): State {
    s.(phase := Flushing, terminal := TerminalEvents(out, s.dropped), flushDeadline := s.now + DYING_EVENT_STALL)
  }

  function BeginFlush(s: State): State {
    match s.finish
    case None => s
    case Some(out) => FlushOn(Queued(Cleaned(s), out))
  }

  function Step(s: State, w: Wake): State {
    var h := Head(s);
    if Enabled(h, w) then Fire(h, w) else h
  }

  function Run(s: State, script: seq<Wake>): State {
    if script == [] then s else Step(Run(s, script[..|script| - 1]), script[|script| - 1])
  }
}
