/** Handles to a child: waiting for its outcome and asking for its end. */
module Handle {
  import opened Basics
  import P = Pump
  import PumpProofs
  import PumpProgress

  datatype Error = Engine(text: string) | AlreadyExited | StdinUnavailable

  /** `Waiting` where the observed run of the pump ends before the call does. */
  datatype Answer<+T> = Done(value: T) | Failed(error: Error) | Waiting

  /**
   * A child, as its handles see it: the run of its pump. A run may be observed
   * up to any point; `dropped` says that the pump's task ended there, whether it
   * had returned or not.
   */
  datatype Child = Child(start: P.State, script: seq<P.Wake>, dropped: bool)

  ghost predicate Valid(c: Child) {
    PumpProofs.IsStart(c.start)
  }

  function At(c: Child, n: nat): P.State
    requires n <= |c.script|
  {
    P.Run(c.start, c.script[..n])
  }

  function Last(c: Child): P.State {
    P.Run(c.start, c.script)
  }

  /** The pump's ends of the channels are gone. */
  predicate Gone(c: Child, n: nat)
    requires n <= |c.script|
  {
    At(c, n).phase.Stopped? || (c.dropped && n == |c.script|)
  }

  function Told(outcome: P.Outcome): Answer<P.Payload> {
    match outcome case Exited(payload) => Done(payload) case Broke(error) => Failed(Engine(error))
  }

  const PUMP_DROPPED := "process pump task dropped"

  /** What the whole run has to say, from whichever point it is asked. */
  function Verdict(c: Child): Answer<P.Payload> {
    match Last(c).watch
    case Some(outcome) => Told(outcome)
    case None => if c.dropped then Failed(Engine(PUMP_DROPPED)) else Waiting
  }

  // ---- the watch slot never changes its mind

  lemma SlotIsFinal(c: Child, n: nat)
    requires Valid(c) && n <= |c.script|
    ensures At(c, n).watch.Some? ==> Last(c).watch == At(c, n).watch
    ensures At(c, n).watchWrites == (if At(c, n).watch.Some? then 1 else 0)
    ensures At(c, n).phase.Stopped? ==> At(c, n).watch.Some?
  {
    PumpProofs.OneOutcome(c.start, c.script[..n]);
    if At(c, n).watch.Some? {
      PumpProofs.OutcomeStays(c.start, c.script, n);
    }
  }

  lemma AtLast(c: Child)
    ensures At(c, |c.script|) == Last(c)
  {
    assert c.script[..|c.script|] == c.script;
  }

  /**
   * `wait`, called on any clone when the run has come to `at`. The receiver has
   * seen `seen` versions of the slot; looking at the slot does not count.
   */
  method Wait(c: Child, at: nat) returns (answer: Answer<P.Payload>)
    requires Valid(c) && at <= |c.script|
    ensures answer == Verdict(c)
  {
    var n, seen := at, 0;
    AtLast(c);
    while true
      invariant n <= |c.script|
      invariant seen <= 1 && (seen > 0 ==> At(c, n).watch.Some?)
      decreases |c.script| - n, 1 - seen
    {
      SlotIsFinal(c, n);
      if At(c, n).watch.Some? {
        return Told(At(c, n).watch.value);
      }
      n := Changed(c, n, seen);
      SlotIsFinal(c, n);
      if At(c, n).watchWrites != seen {
        seen := At(c, n).watchWrites;
      } else if Gone(c, n) {
        return Failed(Engine(PUMP_DROPPED));
      } else {
        return Waiting;
      }
    }
  }

  /** A receiver that has seen this many versions does not wait any longer. */
  predicate Wakes(c: Child, n: nat, seen: nat)
    requires n <= |c.script|
  {
    At(c, n).watchWrites != seen || Gone(c, n)
  }

  /** Nothing woke the receiver in between. */
  predicate Asleep(c: Child, from: nat, to: nat, seen: nat)
    requires to <= |c.script|
  {
    forall k :: from <= k < to ==> !Wakes(c, k, seen)
  }

  lemma StillAsleep(c: Child, from: nat, n: nat, seen: nat)
    requires n < |c.script| && Asleep(c, from, n, seen) && !Wakes(c, n, seen)
    ensures Asleep(c, from, n + 1, seen)
  {
  }

  /** The next point at which a receiver is woken, if there is one. */
  method Changed(c: Child, from: nat, seen: nat) returns (n: nat)
    requires from <= |c.script|
    ensures from <= n <= |c.script| && (Wakes(c, n, seen) || n == |c.script|)
    ensures Asleep(c, from, n, seen)
  {
    n := from;
    while n < |c.script| && !Wakes(c, n, seen)
      invariant from <= n <= |c.script| && Asleep(c, from, n, seen)
    {
      StillAsleep(c, from, n, seen);
      n := n + 1;
    }
  }

  // ---- control messages

  datatype Request = HardKillRequest | GracefulKillRequest | WriteRequest

  /** A request that is idempotent: what has ended needs no killing. */
  predicate AsksToKill(request: Request) {
    !request.WriteRequest?
  }

  /**
   * What becomes of a control message: refused, handled by the pump as a certain
   * move of its run, or lost with it. A handled one comes with the outcome of
   * `kill_all` and of the write, where it needs them.
   */
  datatype Fate =
    | Refused(at: nat)
    | Handled(at: nat, killError: Option<string>, written: bool)
    | Lost(at: nat)

  predicate Carries(ctrl: P.Ctrl, request: Request) {
    match request
    case HardKillRequest => ctrl.Kill?
    case GracefulKillRequest => ctrl.GracefulKill?
    case WriteRequest => ctrl.WriteStdin?
  }

  /**
   * A reply exists only for a message of this kind that the pump's run takes from
   * the channel; a message is refused or lost only when the pump is gone.
   */
  predicate Possible(c: Child, request: Request, fate: Fate) {
    match fate
    case Handled(at, _, _) =>
      && at < |c.script| && c.script[at].CtrlMessage? && Carries(c.script[at].ctrl, request)
      && P.Enabled(P.Head(At(c, at)), c.script[at])
    case _ => fate.at <= |c.script| && Gone(c, fate.at)
  }

  /** What `handle_ctrl` sends back, and the writer of stdin for it. */
  function Reply(ctrl: P.Ctrl, killError: Option<string>, written: bool): Answer<()> {
    var killed := match killError case None => Done(()) case Some(text) => Failed(Engine(text));
    match ctrl
    case Kill => killed
    case GracefulKill(termOk) => if termOk then Done(()) else killed
    case WriteStdin => if written then Done(()) else Failed(StdinUnavailable)
  }

  function ReplyTo(c: Child, fate: Fate): Answer<()>
    requires fate.Handled? && fate.at < |c.script| && c.script[fate.at].CtrlMessage?
  {
    Reply(c.script[fate.at].ctrl, fate.killError, fate.written)
  }

  /**
   * `send_ctrl`, whose two ways of losing a message are treated alike: killing
   * what has already ended is a success.
   */
  method SendCtrl(c: Child, request: Request, fate: Fate) returns (answer: Answer<()>)
    requires Valid(c) && Possible(c, request, fate)
    ensures fate.Handled? ==> answer == ReplyTo(c, fate)
    ensures !fate.Handled? && request.WriteRequest? ==> answer == Failed(StdinUnavailable)
    ensures !fate.Handled? && AsksToKill(request) ==>
              answer == if Last(c).watch.Some? then Done(()) else Failed(AlreadyExited)
    ensures AsksToKill(request) && answer == Failed(AlreadyExited) ==> Verdict(c) == Failed(Engine(PUMP_DROPPED))
  {
    AtLast(c);
    if fate.Handled? {
      return ReplyTo(c, fate);
    }
    SlotIsFinal(c, fate.at);
    if AsksToKill(request) && At(c, fate.at).watch.Some? {
      return Done(());
    } else if AsksToKill(request) {
      return Failed(AlreadyExited);
    } else {
      return Failed(StdinUnavailable);
    }
  }

  /**
   * A reply comes from a pump that still runs its loops. A kill it replied to
   * takes effect: a hard one at once, also when `kill_all` reported an error to
   * the caller, a graceful one when its grace is over at the latest.
   */
  lemma HandledKillsTakeEffect(c: Child, request: Request, fate: Fate)
    requires Valid(c) && Possible(c, request, fate) && fate.Handled? && AsksToKill(request)
    ensures !Gone(c, fate.at)
    ensures request.HardKillRequest? ==> Last(c).kills > At(c, fate.at).kills
    ensures PumpProofs.Watching(Last(c)) ==>
              Last(c).kills > At(c, fate.at).kills || Last(c).now <= At(c, fate.at).now + At(c, fate.at).killGrace
  {
    PumpProgress.KillRequestsTakeEffect(c.start, c.script, fate.at, c.script[fate.at].ctrl);
  }

  /**
   * `kill` and `graceful_kill`: ask, then wait. Success means that the child's
   * exit has been announced, and whoever waits is told of the same exit. A child
   * whose end was announced is never reported as having exited already.
   */
  method Kill(c: Child, request: Request, fate: Fate, at: nat) returns (answer: Answer<()>)
    requires AsksToKill(request) && Valid(c) && Possible(c, request, fate) && at <= |c.script|
    ensures answer.Done? ==> Verdict(c).Done? && Last(c).watch == Some(P.Exited(Verdict(c).value))
    ensures Last(c).watch.Some? && !(fate.Handled? && ReplyTo(c, fate).Failed?) ==>
              (answer.Done? <==> Verdict(c).Done?) && answer != Failed(AlreadyExited)
    ensures answer == Failed(AlreadyExited) <==> !fate.Handled? && Last(c).watch.None?
  {
    var sent := SendCtrl(c, request, fate);
    if !sent.Done? {
      return sent;
    }
    var ended := Wait(c, at);
    match ended {
      case Done(_) => return Done(());
      case Failed(error) => return Failed(error);
      case Waiting => return Waiting;
    }
  }

  /** All clones, whenever they ask, are told the same; a completed run has told them. */
  lemma EveryWaitAgrees(c: Child, longer: Child)
    requires Valid(c) && longer.start == c.start && c.script <= longer.script
    ensures Last(c).watch.Some? ==> Verdict(longer) == Verdict(c)
    ensures Last(c).phase.Stopped? ==> Last(c).watch.Some? && Verdict(c) == Told(Last(c).watch.value)
  {
    assert longer.script[..|c.script|] == c.script;
    AtLast(c);
    SlotIsFinal(c, |c.script|);
    if Last(c).watch.Some? {
      PumpProofs.OutcomeStays(c.start, longer.script, |c.script|);
    }
  }
}
