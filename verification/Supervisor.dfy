/**
 * The supervision loop and everything that runs beside it: concurrent
 * `acknowledge_ready` calls, `stop`, cancellation from outside, and children
 * that end when they like.
 *
 * A move is one access to something shared (the slot, the atomic, the queue, the
 * token) or one emitted event. Timers may fire at any moment.
 */
module Supervisor {
  import opened Basics
  import P = Pump
  import B = Backoff
  import Storm

  datatype RestartPolicy = Never | OnFailure(maxRestarts: nat)

  datatype Config = Config(policy: RestartPolicy, backoff: B.Backoff, acknowledged: bool, storm: Storm.Policy)

  /** Supervisor events; those about a child say which one, counted from zero. */
  datatype Event =
    | Started(pid: nat, child: nat)
    | Ready(child: nat)
    | Exited(payload: P.Payload, child: nat)
    | Restarting(attempt: nat, delay: Option<nat>)
    | GaveUp
    | Stopped

  /** Where the loop stands. */
  datatype Place =
    | Top
    | Watching
    | TakeToStop
    | Polling
    | CheckCurrent
    | CheckToken
    | EmitReady
    | AwaitKill
    | ClearCurrent
    | ClearReady
    | EmitExited
    | AfterExit
    | StormCheck
    | Budget
    | Sleeping
    | CheckRespawn
    | Spawning
    | Install
    | CheckStart
    | Arm
    | EmitStarted
    | Returned

  /** The loop's own variables. `child` is the latest child, whose events are received. */
  datatype Loop = Loop(
    place: Place, child: nat, hasRx: bool, attempt: nat, readinessPending: bool, cancelled: bool,
    killTask: Option<nat>, received: nat, payload: P.Payload, abnormalExits: seq<nat>)

  /** Whether the pump of a child has announced its outcome, or is gone without. */
  datatype Life = Alive | Announced | Lost

  datatype Stage = Locking | Exchanging | Sending | Restoring | Done(answer: bool)

  /** A call of `acknowledge_ready`. */
  datatype Call = Call(pid: nat, stage: Stage)

  datatype Stop = NotCalled | Taking | Stopping(child: Option<nat>) | Joining | Ended

  datatype Shared = Shared(
    current: Option<nat>, readyPending: nat, queue: seq<nat>, token: bool, sendersGone: bool,
    calls: seq<Call>, stop: Stop)

  datatype Leave = ByStop | ByCancel | ByExit

  /** How a child's handle left the slot. */
  datatype Departure = Departure(child: nat, how: Leave)

  /**
   * The children, the clock, and what happened: emitted events, departures from
   * the slot, pids that were ever offered for acknowledgement, which call
   * acknowledged which pid, times of abnormal exits, and how many spawns
   * completed and how many restarts were announced after cancellation.
   */
  datatype World = World(
    pids: seq<nat>, lives: seq<Life>, now: nat, log: seq<Event>, departures: seq<Departure>, armed: set<nat>,
    acked: map<nat, nat>, abnormal: seq<nat>, spawnsAfter: nat, restartsAfter: nat)

  datatype State = State(loop: Loop, shared: Shared, world: World)

  /** What `spawn` leaves behind when it starts the loop: one child, already announced. */
  function Start(c: Config, pid: nat, now: nat): State {
    State(Loop(Top, 0, true, 0, false, false, None, 0, P.Payload(None, None), []),
          Shared(Some(0), if c.acknowledged then pid else 0, [], false, false, [], NotCalled),
          World([pid], [Alive], now, [Started(pid, 0)], [], if c.acknowledged then {pid} else {}, map[], [], 0, 0))
  }

  datatype Move =
    | Go
    | TimerFires
    | Receives
    | QueueEnds
    | PollAgain
    | ChildEnds(payload: P.Payload)
    | Account(entropy: nat)
    | SleepCancelled
    | SleepEnds
    | SpawnFails
    | Spawns(pid: nat)
    | AckBegins(pid: nat)
    | AckMoves(call: nat)
    | Cancel
    | DropSupervisor
    | StopMoves
    | Dies(child: nat, life: Life)
    | Elapse(dt: nat)

  /** The select arms and the spawn, which emit nothing. */
  predicate Quiet(m: Move) {
    m.TimerFires? || m.Receives? || m.QueueEnds? || m.PollAgain? || m.ChildEnds? || m.SleepEnds? || m.SpawnFails?
        || m.Spawns?
  }

  /** What callers, children and time do. */
  predicate FromOutside(m: Move) {
    m.AckBegins? || m.AckMoves? || m.Cancel? || m.DropSupervisor? || m.StopMoves? || m.Dies? || m.Elapse?
  }

  /** When a move can happen. Pids of children are never zero and never repeat. */
  predicate Enabled(c: Config, s: State, m: Move) {
    var l := s.loop;
    match m
    case Go => !(l.place.Polling? || l.place.Budget? || l.place.Sleeping? || l.place.Spawning? || l.place.Returned?)
    case TimerFires => l.place.Polling? && l.readinessPending && !c.acknowledged
    case Receives => l.place.Polling? && l.readinessPending && c.acknowledged && s.shared.queue != []
    case QueueEnds =>
      l.place.Polling? && l.readinessPending && c.acknowledged && s.shared.queue == [] && s.shared.sendersGone
    case PollAgain => l.place.Polling?
    case ChildEnds(payload) =>
      && l.place.Polling? && l.child < |s.world.lives| && !s.world.lives[l.child].Alive?
      && (s.world.lives[l.child].Lost? ==> payload == P.Payload(None, None))
    case Account(_) => l.place.Budget?
    case SleepCancelled => l.place.Sleeping? && s.shared.token
    case SleepEnds => l.place.Sleeping?
    case SpawnFails => l.place.Spawning?
    case Spawns(pid) =>
      l.place.Spawning? && pid != 0 && (forall i :: 0 <= i < |s.world.pids| ==> s.world.pids[i] != pid)
    case AckBegins(_) => true
    case AckMoves(i) => i < |s.shared.calls| && !s.shared.calls[i].stage.Done?
    case Cancel => true
    case DropSupervisor => true
    case StopMoves => !s.shared.stop.Ended? && (s.shared.stop.Joining? ==> l.place.Returned?)
    case Dies(child, life) => child < |s.world.lives| && s.world.lives[child].Alive? && !life.Alive?
    case Elapse(_) => true
  }

  // ---- pieces

  function Goto(s: State, place: Place): State {
    s.(loop := s.loop.(place := place))
  }

  function Emit(s: State, event: Event): State {
    s.(world := s.world.(log := s.world.log + [event]))
  }

  function Finish(s: State, event: Event): State {
    Goto(Emit(s, event), Returned)
  }

  /** `current.lock().await.take()`. */
  function TakeCurrent(s: State, how: Leave): State {
    match s.shared.current
    case None => s
    case Some(child) =>
      s.(shared := s.shared.(current := None),
         world := s.world.(departures := s.world.departures + [Departure(child, how)]))
  }

  /** The slot holds a child that has not announced its end, and it has this pid where one is given. */
  predicate CurrentAlive(s: State, pid: Option<nat>) {
    match s.shared.current
    case None => false
    case Some(child) =>
      && child < |s.world.pids| && child < |s.world.lives|
      && !s.world.lives[child].Announced? && (pid.Some? ==> s.world.pids[child] == pid.value)
  }

  // ---- the loop

  function AtTop(s: State): State {
    if s.loop.hasRx then
      s.(loop := s.loop.(place := Watching, hasRx := false, readinessPending := true, cancelled := false,
          killTask := None))
    else if s.shared.token then Finish(s, Stopped)
    else Goto(s, Budget)
  }

  /** The select looks at the token first, at everything else afterwards. */
  function AtWatching(s: State): State {
    if s.shared.token && !s.loop.cancelled then
      s.(loop := s.loop.(place := TakeToStop, cancelled := true, readinessPending := false))
    else Goto(s, Polling)
  }

  function AtTakeToStop(s: State): State {
    var t := TakeCurrent(s, ByCancel);
    var killTask := if s.shared.current.Some? then s.shared.current else t.loop.killTask;
    t.(loop := t.loop.(place := Watching, killTask := killTask))
  }

  function AtCheckCurrent(c: Config, s: State): State {
    Goto(s, if CurrentAlive(s, if c.acknowledged then Some(s.loop.received) else None) then CheckToken else Watching)
  }

  function AtCheckToken(s: State): State {
    if s.shared.token then Goto(s, Watching)
    else s.(loop := s.loop.(place := EmitReady, readinessPending := false, attempt := 0))
  }

  /** After the exit event: stop, return, or count the exit. */
  function AtAfterExit(c: Config, s: State): State {
    if s.loop.cancelled || s.shared.token then Finish(s, Stopped)
    else if s.loop.payload.code == Some(0) || c.policy.Never? then Goto(s, Returned)
    else Goto(s, StormCheck)
  }

  function AtStormCheck(c: Config, s: State): State {
    var deque := Storm.Pushed(s.loop.abnormalExits, s.world.now, c.storm.window);
    var t := s.(loop := s.loop.(abnormalExits := deque, place := Budget),
                world := s.world.(abnormal := s.world.abnormal + [s.world.now]));
    if |deque| >= c.storm.maxFailures then Finish(t, GaveUp) else t
  }

  function AnnounceRestart(s: State, delay: Option<nat>): State {
    s.(loop := s.loop.(place := Sleeping),
       world := s.world.(log := s.world.log + [Restarting(s.loop.attempt, delay)],
                         restartsAfter := s.world.restartsAfter + if s.shared.token then 1 else 0))
  }

  function NextAttempt(s: State): State {
    s.(loop := s.loop.(attempt := s.loop.attempt + 1))
  }

  function Charge(c: Config, s: State, delay: Option<nat>): State {
    match c.policy
    case Never => Goto(s, Returned)
    case OnFailure(maxRestarts) => if s.loop.attempt > maxRestarts then Finish(s, GaveUp) else AnnounceRestart(s, delay)
  }

  function AtBudget(c: Config, s: State, delay: Option<nat>): State {
    Charge(c, NextAttempt(s), delay)
  }

  function AtSpawning(s: State, pid: nat): State {
    s.(loop := s.loop.(place := Install, child := |s.world.pids|),
       world := s.world.(pids := s.world.pids + [pid], lives := s.world.lives + [Alive],
                         spawnsAfter := s.world.spawnsAfter + if s.shared.token then 1 else 0))
  }

  function AtInstall(s: State): State {
    s.(loop := s.loop.(place := CheckStart, hasRx := true), shared := s.shared.(current := Some(s.loop.child)))
  }

  function PidOf(s: State): nat {
    if s.loop.child < |s.world.pids| then s.world.pids[s.loop.child] else 0
  }

  function AtArm(s: State): State {
    s.(loop := s.loop.(place := EmitStarted), shared := s.shared.(readyPending := PidOf(s)),
       world := s.world.(armed := s.world.armed + {PidOf(s)}))
  }

  function Advance(c: Config, s: State): State {
    match s.loop.place
    case Top => AtTop(s)
    case Watching => AtWatching(s)
    case TakeToStop => AtTakeToStop(s)
    case CheckCurrent => AtCheckCurrent(c, s)
    case CheckToken => AtCheckToken(s)
    case EmitReady => Goto(Emit(s, Ready(s.loop.child)), Watching)
    case AwaitKill => s.(loop := s.loop.(place := ClearCurrent, killTask := None))
    case ClearCurrent => Goto(TakeCurrent(s, ByExit), ClearReady)
    case ClearReady => Goto(s.(shared := s.shared.(readyPending := 0)), EmitExited)
    case EmitExited => Goto(Emit(s, Exited(s.loop.payload, s.loop.child)), AfterExit)
    case AfterExit => AtAfterExit(c, s)
    case StormCheck => AtStormCheck(c, s)
    case CheckRespawn => if s.shared.token then Finish(s, Stopped) else Goto(s, Spawning)
    case Install => AtInstall(s)
    case CheckStart => Goto(s, if s.shared.token then Top else if c.acknowledged then Arm else EmitStarted)
    case Arm => AtArm(s)
    case EmitStarted => Goto(Emit(s, Started(PidOf(s), s.loop.child)), Top)
    case _ => s
  }

  // ---- the others

  function Staged(s: State, i: nat, stage: Stage): State
    requires i < |s.shared.calls|
  {
    s.(shared := s.shared.(calls := s.shared.calls[i := s.shared.calls[i].(stage := stage)]))
  }

  /** `acknowledge_ready`, one access at a time. The queue's receiver goes with the loop. */
  function AckMove(s: State, i: nat): State
    requires i < |s.shared.calls|
  {
    var pid := s.shared.calls[i].pid;
    match s.shared.calls[i].stage
    case Locking => Staged(s, i, if CurrentAlive(s, Some(pid)) then Exchanging else Done(false))
    case Exchanging => AckExchange(s, i)
    case Sending => AckSend(s, i)
    case Restoring =>
      var t := Staged(s, i, Done(false));
      t.(shared := t.shared.(readyPending := pid))
    case Done(_) => s
  }

  function AckExchange(s: State, i: nat): State
    requires i < |s.shared.calls|
  {
    if s.shared.readyPending != s.shared.calls[i].pid then Staged(s, i, Done(false))
    else
      var t := Staged(s, i, Sending);
      t.(shared := t.shared.(readyPending := 0))
  }

  function AckSend(s: State, i: nat): State
    requires i < |s.shared.calls|
  {
    var pid := s.shared.calls[i].pid;
    if s.loop.place.Returned? then Staged(s, i, Restoring)
    else
      var t := Staged(s, i, Done(true));
      t.(shared := t.shared.(queue := t.shared.queue + [pid]), world := t.world.(acked := t.world.acked[pid := i]))
  }

  /** `stop`: cancel, take, stop what was taken, wait for the loop. */
  function StopMove(s: State): State {
    match s.shared.stop
    case NotCalled => s.(shared := s.shared.(token := true, stop := Taking))
    case Taking =>
      var t := TakeCurrent(s, ByStop);
      t.(shared := t.shared.(stop := Stopping(s.shared.current)))
    case Stopping(_) => s.(shared := s.shared.(stop := Joining))
    case Joining => s.(shared := s.shared.(stop := Ended))
    case Ended => s
  }

  function Fire(c: Config, s: State, m: Move): State
    requires Enabled(c, s, m)
  {
    match m
    case Go => Advance(c, s)
    case TimerFires => s.(loop := s.loop.(place := CheckCurrent, readinessPending := false))
    case Receives =>
      s.(loop := s.loop.(place := CheckCurrent, received := s.shared.queue[0]),
          shared := s.shared.(queue := s.shared.queue[1..]))
    case QueueEnds => s.(loop := s.loop.(place := Watching, readinessPending := false))
    case PollAgain => Goto(s, Watching)
    case ChildEnds(payload) => s.(loop := s.loop.(place := AwaitKill, payload := payload))
    case Account(entropy) => AtBudget(c, s, B.DelayFor(c.backoff, s.loop.attempt, entropy))
    case SleepCancelled => Finish(s, Stopped)
    case SleepEnds => Goto(s, CheckRespawn)
    case SpawnFails => Goto(s, Top)
    case Spawns(pid) => AtSpawning(s, pid)
    case AckBegins(pid) => s.(shared := s.shared.(calls := s.shared.calls + [Call(pid, Locking)]))
    case AckMoves(i) => AckMove(s, i)
    case Cancel => s.(shared := s.shared.(token := true))
    case DropSupervisor => s.(shared := s.shared.(token := true, sendersGone := true))
    case StopMoves => StopMove(s)
    case Dies(child, life) => s.(world := s.world.(lives := s.world.lives[child := life]))
    case Elapse(dt) => s.(world := s.world.(now := s.world.now + dt))
  }

  function Step(c: Config, s: State, m: Move): State {
    if Enabled(c, s, m) then Fire(c, s, m) else s
  }

  function Run(c: Config, s: State, script: seq<Move>): State {
    if script == [] then s else Step(c, Run(c, s, script[..|script| - 1]), script[|script| - 1])
  }
}
