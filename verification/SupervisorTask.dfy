/**
 * The supervisor as the source runs it: an outer loop over children, a select
 * loop that watches one, the exit path and the way to the next child, with the
 * shared slot, the atomic and the queue updated in place.
 *
 * A schedule says which access comes next, the loop's own or somebody else's.
 * The loop goes its own way through its code and takes from the schedule what
 * the point it has reached can take; a schedule may end anywhere.
 */
module SupervisorTask {
  import opened Basics
  import S = Supervisor
  import Proofs = SupervisorProofs
  import P = Pump
  import B = Backoff
  import Storm

  /** What a point of the loop waits for: to be scheduled, or for an arm of its select. */
  datatype Wait = ForTurn | ForArm | ForBudget | ForSleep | ForSpawn

  ghost predicate Suits(wait: Wait, place: S.Place) {
    match wait
    case ForArm => place.Polling?
    case ForBudget => place.Budget?
    case ForSleep => place.Sleeping?
    case ForSpawn => place.Spawning?
    case ForTurn => !place.Polling? && !place.Budget? && !place.Sleeping? && !place.Spawning? && !place.Returned?
  }

  class Supervisor {
    const config: S.Config
    const schedule: seq<S.Move>
    ghost const start: S.State
    var next: nat
    // the loop
    ghost var place: S.Place
    var running: bool
    var child: nat
    var hasRx: bool
    var attempt: nat
    var readinessPending: bool
    var cancelled: bool
    var killTask: Option<nat>
    var received: nat
    var payload: P.Payload
    const guard: Storm.StormGuard
    // shared with callers
    var current: Option<nat>
    var readyPending: nat
    var queue: seq<nat>
    var token: bool
    var sendersGone: bool
    var calls: seq<S.Call>
    var stop: S.Stop
    // what surrounds them
    var world: S.World

    ghost function View(): S.State
      reads this, guard
    {
      S.State(S.Loop(place, child, hasRx, attempt, readinessPending, cancelled, killTask, received, payload,
          guard.abnormalExits),
              S.Shared(current, readyPending, queue, token, sendersGone, calls, stop),
              world)
    }

    /** The state is the one to which the schedule so far leads from the beginning. */
    ghost predicate Valid()
      reads this, guard
    {
      && guard.policy == config.storm && Proofs.Begins(config, start) && next <= |schedule|
      && View() == S.Run(config, start, schedule[..next])
      && (running <==> !place.Returned?)
    }

    /** It is the loop's turn. */
    ghost predicate OwnTurn()
      reads this, guard
    {
      Valid() && next < |schedule| && schedule[next].Go?
    }

    ghost predicate Over()
      reads this
    {
      next == |schedule|
    }

    constructor (config: S.Config, pid: nat, now: nat, schedule: seq<S.Move>)
      requires pid != 0
      ensures Valid() && fresh(guard) && this.config == config && this.schedule == schedule
      ensures next == 0 && place.Top? && View() == start == S.Start(config, pid, now)
      ensures Proofs.Inv(config, View())
    {
      this.config, this.schedule, next := config, schedule, 0;
      start := S.Start(config, pid, now);
      place, running, child, hasRx, attempt, readinessPending, cancelled := S.Top, true, 0, true, 0, false, false;
      killTask, received, payload := None, 0, P.Payload(None, None);
      var g := new Storm.StormGuard(config.storm);
      guard := g;
      current, queue, token, sendersGone := Some(0), [], false, false;
      readyPending := if config.acknowledged then pid else 0;
      calls, stop := [], S.NotCalled;
      var armed := if config.acknowledged then {pid} else {};
      world := S.World([pid], [S.Alive], now, [S.Started(pid, 0)], [], armed, map[], [], 0, 0);
      new;
      assert schedule[..0] == [];
      Proofs.RunInv(config, start, []);
    }

    /** The next entry of the schedule has been carried out. */
    method Took(ghost before: S.State)
      requires guard.policy == config.storm && Proofs.Begins(config, start) && (running <==> !place.Returned?)
      requires next < |schedule| && before == S.Run(config, start, schedule[..next])
      requires View() == S.Step(config, before, schedule[next])
      modifies `next
      ensures Valid() && next == old(next) + 1
    {
      RunSnoc(config, start, schedule, next);
      next := next + 1;
    }

    // ---- the others

    method Stage(i: nat, stage: S.Stage)
      requires i < |calls|
      modifies `calls
      ensures View() == S.Staged(old(View()), i, stage)
    {
      calls := calls[i := calls[i].(stage := stage)];
    }

    /** A handle in the slot whose child has not announced its end, with this pid where one is given. */
    function CurrentAlive(pid: Option<nat>): (alive: bool)
      reads this, guard
      ensures alive == S.CurrentAlive(View(), pid)
    {
      match current
      case None => false
      case Some(child) =>
        && child < |world.pids| && child < |world.lives|
        && !world.lives[child].Announced? && (pid.Some? ==> world.pids[child] == pid.value)
    }

    method AckExchange(i: nat)
      requires i < |calls|
      modifies `readyPending, `calls
      ensures View() == S.AckExchange(old(View()), i)
    {
      if readyPending == calls[i].pid {
        readyPending := 0;
        Stage(i, S.Sending);
      } else {
        Stage(i, S.Done(false));
      }
    }

    method AckSend(i: nat)
      requires i < |calls| && (running <==> !place.Returned?)
      modifies `queue, `calls, `world
      ensures View() == S.AckSend(old(View()), i)
    {
      var pid := calls[i].pid;
      if !running {
        Stage(i, S.Restoring);
      } else {
        queue := queue + [pid];
        world := world.(acked := world.acked[pid := i]);
        Stage(i, S.Done(true));
      }
    }

    /** The next access of a call of `acknowledge_ready`. */
    method AckMove(i: nat)
      requires i < |calls| && (running <==> !place.Returned?)
      modifies `readyPending, `queue, `calls, `world
      ensures View() == S.AckMove(old(View()), i)
    {
      match calls[i].stage {
        case Locking =>
          var isCurrent := CurrentAlive(Some(calls[i].pid));
          Stage(i, if isCurrent then S.Exchanging else S.Done(false));
        case Exchanging => AckExchange(i);
        case Sending => AckSend(i);
        case Restoring =>
          readyPending := calls[i].pid;
          Stage(i, S.Done(false));
        case Done(_) =>
      }
    }

    /** Whoever locks the slot takes its handle, if there is one. */
    method TakeCurrent(how: S.Leave) returns (taken: Option<nat>)
      modifies `current, `world
      ensures View() == S.TakeCurrent(old(View()), how) && taken == old(current)
    {
      taken := current;
      if taken.Some? {
        current := None;
        world := world.(departures := world.departures + [S.Departure(taken.value, how)]);
      }
    }

    /** The next access of `stop`. */
    method StopMove()
      modifies `token, `stop, `current, `world
      ensures View() == S.StopMove(old(View()))
    {
      match stop {
        case NotCalled =>
          token := true;
          stop := S.Taking;
        case Taking =>
          var taken := TakeCurrent(S.ByStop);
          stop := S.Stopping(taken);
        case Stopping(_) => stop := S.Joining;
        case Joining => stop := S.Ended;
        case Ended =>
      }
    }

    function CanHappen(m: S.Move): (can: bool)
      reads this, guard
      ensures S.FromOutside(m) && (running <==> !place.Returned?) ==> can == S.Enabled(config, View(), m)
    {
      if m.AckMoves? then m.call < |calls| && !calls[m.call].stage.Done?
      else if m.StopMoves? then !stop.Ended? && (stop.Joining? ==> !running)
      else if m.Dies? then m.child < |world.lives| && world.lives[m.child].Alive? && !m.life.Alive?
      else true
    }

    /** What callers, children and time do. */
    method Outside(m: S.Move)
      requires S.FromOutside(m) && S.Enabled(config, View(), m) && (running <==> !place.Returned?)
      modifies `current, `readyPending, `queue, `token, `sendersGone, `calls, `stop, `world
      ensures View() == S.Fire(config, old(View()), m)
    {
      match m {
        case AckBegins(pid) => calls := calls + [S.Call(pid, S.Locking)];
        case AckMoves(i) => AckMove(i);
        case Cancel => token := true;
        case DropSupervisor =>
          token := true;
          sendersGone := true;
        case StopMoves => StopMove();
        case Dies(who, life) => world := world.(lives := world.lives[who := life]);
        case Elapse(dt) => world := world.(now := world.now + dt);
      }
    }

    // ---- waiting

    /** What the point reached takes from the schedule. */
    function Offers(wait: Wait, m: S.Move): (offers: bool)
      reads this, guard
      ensures Suits(wait, place) && !S.FromOutside(m) ==> offers == S.Enabled(config, View(), m)
    {
      match wait
      case ForTurn => m.Go?
      case ForArm => OffersArm(m)
      case ForBudget => m.Account?
      case ForSleep => m.SleepEnds? || (m.SleepCancelled? && token)
      case ForSpawn =>
        m.SpawnFails? || (m.Spawns? && m.pid != 0 && forall i :: 0 <= i < |world.pids| ==> world.pids[i] != m.pid)
    }

    /** The guards of the select that watches a child. */
    function OffersArm(m: S.Move): (offers: bool)
      reads this, guard
      ensures place.Polling? && !S.FromOutside(m) ==> offers == S.Enabled(config, View(), m)
    {
      match m
      case TimerFires => readinessPending && !config.acknowledged
      case Receives => readinessPending && config.acknowledged && queue != []
      case QueueEnds => readinessPending && config.acknowledged && queue == [] && sendersGone
      case PollAgain => true
      case ChildEnds(ended) =>
        && child < |world.lives| && !world.lives[child].Alive?
        && (world.lives[child].Lost? ==> ended == P.Payload(None, None))
      case _ => false
    }

    /** One entry that is not the loop's, or that the point reached does not take. */
    method Pass(wait: Wait)
      requires Valid() && next < |schedule| && Suits(wait, place)
      requires S.FromOutside(schedule[next]) || !Offers(wait, schedule[next])
      modifies `next, `current, `readyPending, `queue, `token, `sendersGone, `calls, `stop, `world
      ensures Valid() && next == old(next) + 1
    {
      ghost var before := View();
      var m := schedule[next];
      if S.FromOutside(m) && CanHappen(m) {
        Outside(m);
      }
      Took(before);
    }

    /** Until the schedule has something for the point reached; without it, the schedule is over. */
    method Await(wait: Wait) returns (more: bool)
      requires Valid() && Suits(wait, place)
      modifies `next, `current, `readyPending, `queue, `token, `sendersGone, `calls, `stop, `world
      ensures Valid() && next >= old(next)
      ensures if more then next < |schedule| && !S.FromOutside(schedule[next]) && Offers(wait, schedule[next])
                else Over()
    {
      while next < |schedule| && (S.FromOutside(schedule[next]) || !Offers(wait, schedule[next]))
        invariant Valid() && next >= old(next)
        decreases |schedule| - next
      {
        Pass(wait);
      }
      more := next < |schedule|;
    }

    // ---- events

    method Emit(event: S.Event)
      modifies `world
      ensures View() == S.Emit(old(View()), event)
    {
      world := world.(log := world.log + [event]);
    }

    /** The last event, and return. */
    method Finish(event: S.Event)
      modifies `world, `place, `running
      ensures View() == S.Finish(old(View()), event) && !running
    {
      Emit(event);
      place, running := S.Returned, false;
    }

    function OwnPid(): (pid: nat)
      reads this, guard
      ensures pid == S.PidOf(View())
    {
      if child < |world.pids| then world.pids[child] else 0
    }

    // ---- watching a child

    /** The token, looked at before the other arms. */
    method LookForCancellation() returns (noticed: bool)
      requires OwnTurn() && place.Watching?
      modifies `next, `place, `cancelled, `readinessPending
      ensures Valid() && next == old(next) + 1
      ensures if noticed then place.TakeToStop? else place.Polling?
    {
      ghost var before := View();
      noticed := token && !cancelled;
      if noticed {
        cancelled := true;
        readinessPending := false;
        place := S.TakeToStop;
      } else {
        place := S.Polling;
      }
      Took(before);
    }

    /** Hand the current child to a kill task. */
    method StopCurrent()
      requires OwnTurn() && place.TakeToStop?
      modifies `next, `place, `killTask, `current, `world
      ensures Valid() && next == old(next) + 1 && place.Watching?
    {
      ghost var before := View();
      var handle := TakeCurrent(S.ByCancel);
      if handle.Some? {
        killTask := handle;
      }
      place := S.Watching;
      Took(before);
    }

    method LookForChild() returns (alive: bool)
      requires OwnTurn() && place.CheckCurrent?
      modifies `next, `place
      ensures Valid() && next == old(next) + 1
      ensures if alive then place.CheckToken? else place.Watching?
    {
      ghost var before := View();
      alive := CurrentAlive(if config.acknowledged then Some(received) else None);
      place := if alive then S.CheckToken else S.Watching;
      Took(before);
    }

    method LookAtToken() returns (ready: bool)
      requires OwnTurn() && place.CheckToken?
      modifies `next, `place, `readinessPending, `attempt
      ensures Valid() && next == old(next) + 1
      ensures if ready then place.EmitReady? else place.Watching?
    {
      ghost var before := View();
      ready := !token;
      if ready {
        readinessPending := false;
        attempt := 0;
        place := S.EmitReady;
      } else {
        place := S.Watching;
      }
      Took(before);
    }

    method AnnounceReady()
      requires OwnTurn() && place.EmitReady?
      modifies `next, `place, `world
      ensures Valid() && next == old(next) + 1 && place.Watching?
    {
      ghost var before := View();
      Emit(S.Ready(child));
      place := S.Watching;
      Took(before);
    }

    /** A readiness arm has fired: is the child the right one, alive, and not to be stopped? */
    method CheckReady()
      requires Valid() && place.CheckCurrent?
      modifies this
      ensures Valid() && next >= old(next) && (Over() || place.Watching?)
    {
      var more := Await(ForTurn);
      if !more {
        return;
      }
      var alive := LookForChild();
      if !alive {
        return;
      }
      more := Await(ForTurn);
      if !more {
        return;
      }
      var ready := LookAtToken();
      if !ready {
        return;
      }
      more := Await(ForTurn);
      if more {
        AnnounceReady();
      }
    }

    /** An arm that leaves the select as it was, but for readiness, which is no longer awaited. */
    method StopAwaiting(following: S.Place)
      requires Valid() && place.Polling? && next < |schedule|
      requires (schedule[next].TimerFires? && following.CheckCurrent?)
                 || (schedule[next].QueueEnds? && following.Watching?)
      requires Offers(ForArm, schedule[next])
      modifies `next, `place, `readinessPending
      ensures Valid() && next == old(next) + 1 && place == following
    {
      ghost var before := View();
      readinessPending := false;
      place := following;
      Took(before);
    }

    method ReceivePid()
      requires Valid() && place.Polling? && next < |schedule| && schedule[next].Receives?
      requires Offers(ForArm, schedule[next])
      modifies `next, `place, `received, `queue
      ensures Valid() && next == old(next) + 1 && place.CheckCurrent?
    {
      ghost var before := View();
      received, queue := queue[0], queue[1..];
      place := S.CheckCurrent;
      Took(before);
    }

    method PassOn()
      requires Valid() && place.Polling? && next < |schedule| && schedule[next].PollAgain?
      modifies `next, `place
      ensures Valid() && next == old(next) + 1 && place.Watching?
    {
      ghost var before := View();
      place := S.Watching;
      Took(before);
    }

    method EndChild()
      requires Valid() && place.Polling? && next < |schedule| && schedule[next].ChildEnds?
      requires Offers(ForArm, schedule[next])
      modifies `next, `place, `payload
      ensures Valid() && next == old(next) + 1 && place.AwaitKill?
    {
      ghost var before := View();
      payload := schedule[next].payload;
      place := S.AwaitKill;
      Took(before);
    }

    /** One of the other arms of the select. */
    method TakeArm() returns (ended: bool)
      requires Valid() && place.Polling? && next < |schedule| && Offers(ForArm, schedule[next])
      modifies this
      ensures Valid() && next > old(next)
      ensures Over() || if ended then place.AwaitKill? else place.Watching?
    {
      ended := false;
      match schedule[next] {
        case TimerFires =>
          StopAwaiting(S.CheckCurrent);
          CheckReady();
        case Receives =>
          ReceivePid();
          CheckReady();
        case QueueEnds => StopAwaiting(S.Watching);
        case PollAgain => PassOn();
        case ChildEnds(_) =>
          EndChild();
          ended := true;
      }
    }

    /** The select loop. It ends with the child's events. */
    method Watch()
      requires Valid() && place.Watching?
      modifies this
      ensures Valid() && next >= old(next) && (Over() || place.AwaitKill?)
    {
      var ended := false;
      while !ended
        invariant Valid() && next >= old(next)
        invariant if ended then place.AwaitKill? || Over() else place.Watching?
        decreases !ended, |schedule| - next
      {
        var more := Await(ForTurn);
        if !more {
          return;
        }
        var noticed := LookForCancellation();
        more := Await(if noticed then ForTurn else ForArm);
        if !more {
          return;
        }
        if noticed {
          StopCurrent();
        } else {
          ended := TakeArm();
          if next == |schedule| {
            return;
          }
        }
      }
    }

    // ---- the exit path

    method AwaitKillTask()
      requires OwnTurn() && place.AwaitKill?
      modifies `next, `place, `killTask
      ensures Valid() && next == old(next) + 1 && place.ClearCurrent?
    {
      ghost var before := View();
      killTask := None;
      place := S.ClearCurrent;
      Took(before);
    }

    method ClearSlot()
      requires OwnTurn() && place.ClearCurrent?
      modifies `next, `place, `current, `world
      ensures Valid() && next == old(next) + 1 && place.ClearReady?
    {
      ghost var before := View();
      var _ := TakeCurrent(S.ByExit);
      place := S.ClearReady;
      Took(before);
    }

    method WithdrawOffer()
      requires OwnTurn() && place.ClearReady?
      modifies `next, `place, `readyPending
      ensures Valid() && next == old(next) + 1 && place.EmitExited?
    {
      ghost var before := View();
      readyPending := 0;
      place := S.EmitExited;
      Took(before);
    }

    method ReportExit()
      requires OwnTurn() && place.EmitExited?
      modifies `next, `place, `world
      ensures Valid() && next == old(next) + 1 && place.AfterExit?
    {
      ghost var before := View();
      Emit(S.Exited(payload, child));
      place := S.AfterExit;
      Took(before);
    }

    method StopOrReturn() returns (goesOn: bool)
      requires OwnTurn() && place.AfterExit?
      modifies `next, `place, `running, `world
      ensures Valid() && next == old(next) + 1
      ensures if goesOn then place.StormCheck? else place.Returned?
    {
      ghost var before := View();
      var cleanExit := payload.code == Some(0);
      goesOn := false;
      if cancelled || token {
        Finish(S.Stopped);
      } else if cleanExit || config.policy.Never? {
        place, running := S.Returned, false;
      } else {
        place := S.StormCheck;
        goesOn := true;
      }
      Took(before);
    }

    method CountExit() returns (goesOn: bool)
      requires OwnTurn() && place.StormCheck?
      modifies `next, `place, `running, `world, guard
      ensures Valid() && next == old(next) + 1
      ensures if goesOn then place.Budget? else place.Returned?
    {
      ghost var before := View();
      var giveUp := guard.Record(world.now);
      world := world.(abnormal := world.abnormal + [world.now]);
      place := S.Budget;
      goesOn := !giveUp;
      if giveUp {
        Finish(S.GaveUp);
      }
      Took(before);
    }

    /** From the end of the child's events to the report of its exit. */
    method LetGo()
      requires Valid() && place.AwaitKill?
      modifies this
      ensures Valid() && next >= old(next) && (Over() || place.AfterExit?)
    {
      var more := Await(ForTurn);
      if more {
        AwaitKillTask();
        more := Await(ForTurn);
      }
      if more {
        ClearSlot();
        more := Await(ForTurn);
      }
      if more {
        WithdrawOffer();
        more := Await(ForTurn);
      }
      if more {
        ReportExit();
      }
    }

    /** What follows the end of a child; the loop goes on only to restart. */
    method Leave() returns (goesOn: bool)
      requires Valid() && place.AwaitKill?
      modifies this, guard
      ensures Valid() && next >= old(next)
      ensures if goesOn then place.Budget? else Over() || place.Returned?
    {
      goesOn := false;
      LetGo();
      if next == |schedule| {
        return;
      }
      var more := Await(ForTurn);
      if !more {
        return;
      }
      var abnormal := StopOrReturn();
      if abnormal {
        more := Await(ForTurn);
        if more {
          goesOn := CountExit();
        }
      }
    }

    // ---- the next child

    method AnnounceRestart(delay: Option<nat>)
      modifies `world, `place
      ensures View() == S.AnnounceRestart(old(View()), delay) && place.Sleeping?
    {
      world := world.(log := world.log + [S.Restarting(attempt, delay)],
                      restartsAfter := world.restartsAfter + if token then 1 else 0);
      place := S.Sleeping;
    }

    method CountAttempt()
      modifies `attempt
      ensures View() == S.NextAttempt(old(View())) && attempt == old(attempt) + 1
    {
      attempt := attempt + 1;
    }

    method SpendAttempt() returns (goesOn: bool)
      requires Valid() && place.Budget? && next < |schedule| && schedule[next].Account?
      modifies `next, `place, `running, `attempt, `world
      ensures Valid() && next == old(next) + 1
      ensures if goesOn then place.Sleeping? else place.Returned?
    {
      ghost var before := View();
      CountAttempt();
      goesOn := config.policy.OnFailure? && attempt <= config.policy.maxRestarts;
      if goesOn {
        AnnounceRestart(B.DelayFor(config.backoff, attempt - 1, schedule[next].entropy));
      } else if config.policy.OnFailure? {
        Finish(S.GaveUp);
      } else {
        place, running := S.Returned, false;
      }
      Took(before);
    }

    method Sleep() returns (goesOn: bool)
      requires Valid() && place.Sleeping? && next < |schedule| && Offers(ForSleep, schedule[next])
      modifies `next, `place, `running, `world
      ensures Valid() && next == old(next) + 1
      ensures if goesOn then place.CheckRespawn? else place.Returned?
    {
      ghost var before := View();
      goesOn := schedule[next].SleepEnds?;
      if goesOn {
        place := S.CheckRespawn;
      } else {
        Finish(S.Stopped);
      }
      Took(before);
    }

    method LookBeforeSpawn() returns (goesOn: bool)
      requires OwnTurn() && place.CheckRespawn?
      modifies `next, `place, `running, `world
      ensures Valid() && next == old(next) + 1
      ensures if goesOn then place.Spawning? else place.Returned?
    {
      ghost var before := View();
      goesOn := !token;
      if goesOn {
        place := S.Spawning;
      } else {
        Finish(S.Stopped);
      }
      Took(before);
    }

    method Bear(pid: nat)
      modifies `place, `child, `world
      ensures View() == S.AtSpawning(old(View()), pid) && place.Install?
    {
      child := |world.pids|;
      world := world.(pids := world.pids + [pid], lives := world.lives + [S.Alive],
                      spawnsAfter := world.spawnsAfter + if token then 1 else 0);
      place := S.Install;
    }

    method Spawn() returns (spawned: bool)
      requires Valid() && place.Spawning? && next < |schedule| && Offers(ForSpawn, schedule[next])
      modifies `next, `place, `child, `world
      ensures Valid() && next == old(next) + 1
      ensures if spawned then place.Install? else place.Top?
    {
      ghost var before := View();
      spawned := schedule[next].Spawns?;
      if spawned {
        Bear(schedule[next].pid);
      } else {
        place := S.Top;
      }
      Took(before);
    }

    method FillSlot()
      modifies `place, `current, `hasRx
      ensures View() == S.AtInstall(old(View())) && place.CheckStart?
    {
      current := Some(child);
      hasRx := true;
      place := S.CheckStart;
    }

    method InstallChild()
      requires OwnTurn() && place.Install?
      modifies `next, `place, `current, `hasRx
      ensures Valid() && next == old(next) + 1 && place.CheckStart?
    {
      ghost var before := View();
      FillSlot();
      Took(before);
    }

    method LookBeforeStart() returns (announce: bool)
      requires OwnTurn() && place.CheckStart?
      modifies `next, `place
      ensures Valid() && next == old(next) + 1
      ensures if !announce then place.Top? else if config.acknowledged then place.Arm? else place.EmitStarted?
    {
      ghost var before := View();
      announce := !token;
      place := if token then S.Top else if config.acknowledged then S.Arm else S.EmitStarted;
      Took(before);
    }

    method StoreOffer()
      modifies `place, `readyPending, `world
      ensures View() == S.AtArm(old(View())) && place.EmitStarted?
    {
      readyPending := OwnPid();
      world := world.(armed := world.armed + {readyPending});
      place := S.EmitStarted;
    }

    method OfferPid()
      requires OwnTurn() && place.Arm?
      modifies `next, `place, `readyPending, `world
      ensures Valid() && next == old(next) + 1 && place.EmitStarted?
    {
      ghost var before := View();
      StoreOffer();
      Took(before);
    }

    method AnnounceStart()
      requires OwnTurn() && place.EmitStarted?
      modifies `next, `place, `world
      ensures Valid() && next == old(next) + 1 && place.Top?
    {
      ghost var before := View();
      Emit(S.Started(OwnPid(), child));
      place := S.Top;
      Took(before);
    }

    /** The attempt is charged, announced and waited for. */
    method BackOff() returns (goesOn: bool)
      requires Valid() && place.Budget?
      modifies this
      ensures Valid() && next >= old(next)
      ensures if goesOn then place.Spawning? else Over() || place.Returned?
    {
      goesOn := false;
      var more := Await(ForBudget);
      if !more {
        return;
      }
      var affordable := SpendAttempt();
      if !affordable {
        return;
      }
      more := Await(ForSleep);
      if !more {
        return;
      }
      var slept := Sleep();
      if !slept {
        return;
      }
      more := Await(ForTurn);
      if more {
        goesOn := LookBeforeSpawn();
      }
    }

    /** The new child goes into the slot, and is announced unless supervision was cancelled meanwhile. */
    method Introduce()
      requires Valid() && place.Install?
      modifies this
      ensures Valid() && next >= old(next) && (Over() || place.Top?)
    {
      var more := Await(ForTurn);
      if !more {
        return;
      }
      InstallChild();
      more := Await(ForTurn);
      if !more {
        return;
      }
      var announce := LookBeforeStart();
      if !announce {
        return;
      }
      if config.acknowledged {
        more := Await(ForTurn);
        if !more {
          return;
        }
        OfferPid();
      }
      more := Await(ForTurn);
      if more {
        AnnounceStart();
      }
    }

    /** From the budget to the next child, or back to the budget after a failed spawn. */
    method Respawn() returns (goesOn: bool)
      requires Valid() && place.Budget?
      modifies this
      ensures Valid() && next >= old(next)
      ensures if goesOn then place.Top? else Over() || place.Returned?
    {
      goesOn := BackOff();
      if !goesOn {
        return;
      }
      goesOn := false;
      var more := Await(ForSpawn);
      if !more {
        return;
      }
      var spawned := Spawn();
      if spawned {
        Introduce();
      }
      goesOn := next < |schedule|;
    }

    // ---- the loop

    /** Take the receiver of a new child, stop, or go on to the budget. */
    method BeginRound() returns (watches: bool)
      requires OwnTurn() && place.Top?
      modifies `next, `place, `running, `hasRx, `readinessPending, `cancelled, `killTask, `world
      ensures Valid() && next == old(next) + 1
      ensures if watches then place.Watching? else place.Returned? || place.Budget?
      ensures !watches ==> (running <==> place.Budget?)
    {
      ghost var before := View();
      watches := hasRx;
      if hasRx {
        hasRx := false;
        readinessPending, cancelled, killTask := true, false, None;
        place := S.Watching;
      } else if token {
        Finish(S.Stopped);
      } else {
        place := S.Budget;
      }
      Took(before);
    }

    /** One round: a child is watched until it ends, unless its spawn failed, and the next one is spawned. */
    method Round() returns (goesOn: bool)
      requires Valid() && place.Top?
      modifies this, guard
      ensures Valid() && next >= old(next)
      ensures if goesOn then place.Top? && next > old(next) else Over() || place.Returned?
    {
      goesOn := false;
      var more := Await(ForTurn);
      if !more {
        return;
      }
      var watches := BeginRound();
      if watches {
        Watch();
        if next == |schedule| {
          return;
        }
        var restarts := Leave();
        if !restarts {
          return;
        }
      } else if !running {
        return;
      }
      goesOn := Respawn();
    }

    /** After the loop has returned the others carry on. */
    method Rest()
      requires Valid() && (Over() || place.Returned?)
      modifies `next, `current, `readyPending, `queue, `token, `sendersGone, `calls, `stop, `world
      ensures Valid() && Over()
    {
      while next < |schedule|
        invariant Valid() && (Over() || place.Returned?)
        decreases |schedule| - next
      {
        ghost var before := View();
        var m := schedule[next];
        if S.FromOutside(m) && CanHappen(m) {
          Outside(m);
        }
        Took(before);
      }
    }

    /** The whole schedule: the supervision loop, and what others do beside and after it. */
    method Run()
      requires Valid() && place.Top?
      modifies this, guard
      ensures Valid() && View() == S.Run(config, start, schedule)
      ensures Proofs.Inv(config, View())
    {
      var goesOn := true;
      while goesOn
        invariant Valid() && if goesOn then place.Top? else Over() || place.Returned?
        decreases goesOn, |schedule| - next
      {
        goesOn := Round();
      }
      Rest();
      assert schedule[..next] == schedule;
      Proofs.RunInv(config, start, schedule);
    }
  }

  lemma RunSnoc(c: S.Config, s: S.State, schedule: seq<S.Move>, i: nat)
    requires i < |schedule|
    ensures S.Run(c, s, schedule[..i + 1]) == S.Step(c, S.Run(c, s, schedule[..i]), schedule[i])
  {
    assert schedule[..i + 1][..i] == schedule[..i];
  }
}
