/**
 * Orphan reaping: find out whether a recorded process still runs, kill exactly
 * that one, and report success only once it is gone.
 */
module Reaper {
  import opened Basics
  import opened Processes
  import RecordCodec
  import Descendants
  import StartToken

  datatype Outcome = NotFound | AlreadyExited | Killed

  const IDENTITY_WAIT_ATTEMPTS: nat := 20
  const KILL_WAIT_ATTEMPTS: nat := 100

  /** What the reaper compares: the pid, the executable's name and the start token. */
  datatype Target = Target(pid: Pid, identity: Identity)

  ghost predicate Is(bootId: seq<Byte>, target: Target, p: Process) {
    IdentityOf(bootId, p) == Some(target.identity)
  }

  /** Every process the target can stand for that had appeared by `since` is dead from `t` on. */
  ghost predicate AllDead(k: Kernel, target: Target, since: nat, t: nat) {
    forall p :: SeenBy(k.world, since, target.pid, p) && Is(k.bootId, target, p) ==> Dead(k.world, t, target.pid, p)
  }

  ghost predicate Vacated(k: Kernel, pid: Pid, since: nat, t: nat) {
    forall p :: SeenBy(k.world, since, pid, p) ==> Dead(k.world, t, pid, p)
  }

  /** A witness for an identity: a process that ran at a moment between `from` and `to`. */
  ghost predicate Witness(k: Kernel, target: Target, from: nat, to: nat, at: nat, p: Process) {
    from <= at <= to && Running(k.world, at, target.pid, p) && Is(k.bootId, target, p)
  }

  ghost predicate Observed(k: Kernel, target: Target, from: nat, to: nat) {
    exists at: nat, p :: Witness(k, target, from, to, at, p)
  }

  /** What one identity query promises about the time between `from` and `to`. */
  ghost predicate Answers(k: Kernel, pid: Pid, r: Result<Option<Identity>>, from: nat, to: nat) {
    && from <= to
    && (r.Ok? && r.value.Some? ==> Observed(k, Target(pid, r.value.value), from, to))
    && (r.Ok? && r.value.None? ==> Vacated(k, pid, from, to))
  }

  /** What ticks, executable and ticks read at these three moments add up to. */
  function IdentityRead(w: Timeline, bootId: seq<Byte>, pid: Pid, first: nat, second: nat,
                        third: nat): Option<Identity> {
    if pid in w(first) && pid in w(second) && pid in w(third) && !w(second)[pid].zombie
       && w(first)[pid].process.ticks == w(third)[pid].process.ticks && w(second)[pid].process.exe.Some?
    then Some(Identity(w(second)[pid].process.exe.value, StartToken.Token(bootId, w(first)[pid].process.ticks)))
    else None
  }

  ghost predicate ReadBetween(k: Kernel, pid: Pid, identity: Identity, from: nat, to: nat, first: nat, second: nat,
                              third: nat) {
    from <= first <= second <= third <= to
    && IdentityRead(k.world, k.bootId, pid, first, second, third) == Some(identity)
  }

  ghost predicate WasRead(k: Kernel, pid: Pid, identity: Identity, from: nat, to: nat) {
    exists first: nat, second: nat, third: nat :: ReadBetween(k, pid, identity, from, to, first, second, third)
  }

  /** Linux `process_identity`. */
  method ProcessIdentity(k: Kernel, pid: Pid) returns (r: Result<Option<Identity>>)
    requires WellFormed(k.world)
    modifies k`now, k`asked
    ensures Answers(k, pid, r, old(k.now), k.now)
    ensures r.Ok? && r.value.Some? ==> WasRead(k, pid, r.value.value, old(k.now), k.now)
    ensures k.asked == old(k.asked) + [Query(pid, r)]
  {
    r := ReadProcess(k, pid);
    k.asked := k.asked + [Query(pid, r)];
  }

  /** Ticks, executable, ticks again. */
  method ReadProcess(k: Kernel, pid: Pid) returns (r: Result<Option<Identity>>)
    requires WellFormed(k.world)
    modifies k`now
    ensures Answers(k, pid, r, old(k.now), k.now)
    ensures r.Ok? && r.value.Some? ==> WasRead(k, pid, r.value.value, old(k.now), k.now)
  {
    ghost var begun := k.now;
    var ticks := k.StartTicks(pid);
    if ticks.Err? {
      return Err(ticks.kind);
    }
    ghost var first := k.now;
    if ticks.value.None? {
      NobodyThere(k, pid, begun, first, k.now);
      return Ok(None);
    }
    var exe := k.ReadExe(pid);
    if exe.Err? {
      return Err(exe.kind);
    }
    ghost var second := k.now;
    if exe.value.None? {
      NobodyThere(k, pid, begun, second, k.now);
      return Ok(None);
    }
    var again := k.StartTicks(pid);
    if again.Err? {
      return Err(again.kind);
    }
    ghost var third := k.now;
    if again.value.None? {
      NobodyThere(k, pid, begun, third, k.now);
      return Ok(None);
    }
    if ticks.value != again.value {
      Replaced(k, pid, begun, first, third);
      return Ok(None);
    }
    ghost var p := k.world(first)[pid].process;
    Sandwich(k.world, pid, first, second, third);
    if exe.value.value.None? {
      return Err(PermissionDenied);
    }
    var boot := k.ReadBootId();
    if boot.Err? {
      return Err(boot.kind);
    }
    var token := StartToken.BootBoundStartToken(boot.value, ticks.value.value);
    r := Ok(Some(Identity(exe.value.value.value, token)));
    assert ReadBetween(k, pid, r.value.value, begun, k.now, first, second, third);
    assert Witness(k, Target(pid, r.value.value), begun, k.now, second, p);
  }

  /** Equal ticks on both sides pin the executable in between to one incarnation. */
  lemma Sandwich(w: Timeline, pid: Pid, first: nat, second: nat, third: nat)
    requires WellFormed(w) && first <= second <= third
    requires pid in w(first) && pid in w(second) && pid in w(third)
    requires w(first)[pid].process.ticks == w(third)[pid].process.ticks
    ensures w(first)[pid].process == w(second)[pid].process == w(third)[pid].process
  {
    var p := w(first)[pid].process;
    assert Holds(w, first, pid, p) && Holds(w, third, pid, w(third)[pid].process);
    assert Holds(w, second, pid, p);
  }

  lemma NobodyThere(k: Kernel, pid: Pid, since: nat, at: nat, t: nat)
    requires WellFormed(k.world) && since <= at <= t
    requires pid !in k.world(at) || k.world(at)[pid].zombie
    ensures Vacated(k, pid, since, t)
  {
    AllDeadFrom(k.world, since, at, pid);
  }

  lemma Replaced(k: Kernel, pid: Pid, since: nat, first: nat, third: nat)
    requires WellFormed(k.world) && since <= first <= third
    requires pid in k.world(first) && pid in k.world(third)
    requires k.world(first)[pid].process.ticks != k.world(third)[pid].process.ticks
    ensures Vacated(k, pid, since, third)
  {
    var w := k.world;
    forall p | SeenBy(w, since, pid, p) ensures Dead(w, third, pid, p) {
      var s: nat :| s <= since && Holds(w, s, pid, p);
      forall u: nat | u >= third ensures !Running(w, u, pid, p) {
        assert Running(w, u, pid, p) ==> Holds(w, first, pid, p) && Holds(w, third, pid, p);
      }
    }
  }

  /** An answer about a part of a time span is an answer about the span. */
  lemma AnswersWiden(k: Kernel, pid: Pid, r: Result<Option<Identity>>, from: nat, mid: nat, to: nat)
    requires from <= mid && Answers(k, pid, r, mid, to)
    ensures Answers(k, pid, r, from, to)
  {
    if r.Ok? {
      match r.value
      case Some(identity) =>
        var at: nat, p :| Witness(k, Target(pid, identity), mid, to, at, p);
        assert Witness(k, Target(pid, identity), from, to, at, p);
      case None =>
        forall p | SeenBy(k.world, from, pid, p) ensures Dead(k.world, to, pid, p) {
          var s: nat :| s <= from && Holds(k.world, s, pid, p);
          assert SeenBy(k.world, mid, pid, p);
        }
    }
  }

  predicate Provisional(kind: ErrorKind) {
    kind == PermissionDenied
  }

  /** All queries made were about this pid. */
  ghost predicate OnlyAsks(pid: Pid, before: seq<Query>, after: seq<Query>) {
    before <= after && forall i :: |before| <= i < |after| ==> after[i].pid == pid
  }

  /** So they were, and there was one. */
  ghost predicate AsksAbout(pid: Pid, before: seq<Query>, after: seq<Query>) {
    OnlyAsks(pid, before, after) && |before| < |after|
  }

  /** `identity_for_reap`: retry while the query is denied. */
  method IdentityForReap(k: Kernel, pid: Pid) returns (r: Result<Option<Identity>>)
    requires WellFormed(k.world)
    modifies k`now, k`asked
    ensures Answers(k, pid, r, old(k.now), k.now)
    ensures AsksAbout(pid, old(k.asked), k.asked) && Final(k.asked) == r
  {
    var accessError := PermissionDenied;
    ghost var before := k.asked;
    for attempt := 0 to IDENTITY_WAIT_ATTEMPTS
      invariant k.now >= old(k.now)
      invariant attempt == 0 ==> k.asked == before
      invariant attempt > 0 ==> AsksAbout(pid, before, k.asked) && Final(k.asked) == Err(accessError)
    {
      ghost var mid := k.now;
      r := ProcessIdentity(k, pid);
      AnswersWiden(k, pid, r, old(k.now), mid, k.now);
      if r.Ok? || !Provisional(r.kind) {
        return;
      }
      accessError := r.kind;
      if attempt + 1 < IDENTITY_WAIT_ATTEMPTS {
        k.Pass();
      }
    }
    r := Err(accessError);
  }

  /**
   * Each signal since `before` went to the target's pid between the two moments,
   * and with process handles it hit a process the target stands for.
   */
  ghost predicate OnlyHits(k: Kernel, target: Target, from: nat, to: nat, before: seq<Delivery>, after: seq<Delivery>) {
    && before <= after
    && forall i :: |before| <= i < |after| ==> Hits(k, target, from, to, after[i])
  }

  ghost predicate Hits(k: Kernel, target: Target, from: nat, to: nat, d: Delivery) {
    && d.pid == target.pid && from <= d.at <= to && Holds(k.world, d.at, d.pid, d.process)
    && (k.hasPidFds ==> Is(k.bootId, target, d.process))
  }

  /** Someone held the pid in the meantime and has left it. */
  ghost predicate Left(k: Kernel, pid: Pid, from: nat, to: nat) {
    exists s: nat, p :: from <= s <= to && Holds(k.world, s, pid, p) && !Holds(k.world, to, pid, p)
  }

  /** `kill_recorded_process`: open the handle, validate, then signal through the handle. */
  method KillRecordedProcess(k: Kernel, target: Target) returns (r: Result<()>)
    requires WellFormed(k.world)
    modifies k`now, k`asked, k`delivered
    ensures k.now >= old(k.now)
    ensures OnlyHits(k, target, old(k.now), k.now, old(k.delivered), k.delivered)
    ensures OnlyAsks(target.pid, old(k.asked), k.asked)
    ensures |k.delivered| <= |old(k.delivered)| + 1
    ensures r.Ok? ==> |k.delivered| == |old(k.delivered)| + 1 || Left(k, target.pid, old(k.now), k.now)
  {
    var handle := k.PidFdOpen(target.pid);
    if handle.Err? {
      if handle.kind == Unsupported {
        r := KillRevalidatedByPid(k, target);
      } else {
        r := Err(handle.kind);
      }
      return;
    }
    r := KillThroughHandle(k, target, handle.value, old(k.now));
  }

  /** Validate by pid while holding the handle, then signal through it. */
  method KillThroughHandle(k: Kernel, target: Target, handle: PidFd, ghost from: nat) returns (r: Result<()>)
    requires WellFormed(k.world) && from <= k.now && handle.pid == target.pid
    requires Holds(k.world, k.now, target.pid, handle.process)
    modifies k`now, k`asked, k`delivered
    ensures k.now >= old(k.now)
    ensures OnlyHits(k, target, from, k.now, old(k.delivered), k.delivered)
    ensures OnlyAsks(target.pid, old(k.asked), k.asked)
    ensures |k.delivered| <= |old(k.delivered)| + 1
    ensures r.Ok? ==> |k.delivered| == |old(k.delivered)| + 1 || Left(k, target.pid, from, k.now)
  {
    var identity := ProcessIdentity(k, target.pid);
    if identity.Err? {
      return Err(identity.kind);
    }
    if identity.value.None? {
      return Err(ErrorKind.NotFound);
    }
    if identity.value.value != target.identity {
      return Err(PermissionDenied);
    }
    ghost var validated := k.now;
    r := k.PidFdKill(handle);
    HandleHits(k, target, handle.process, from, old(k.now), validated, k.now, old(k.delivered), k.delivered);
  }

  lemma HandleHits(k: Kernel, target: Target, handle: Process, from: nat, openedAt: nat, validatedBy: nat, to: nat,
                   before: seq<Delivery>, after: seq<Delivery>)
    requires WellFormed(k.world) && from <= openedAt <= validatedBy <= to
    requires Holds(k.world, openedAt, target.pid, handle)
    requires Observed(k, target, openedAt, validatedBy)
    requires after == before || (after == before + [Delivery(to, target.pid, handle)]
               && Holds(k.world, to, target.pid, handle))
    ensures OnlyHits(k, target, from, to, before, after)
    ensures Holds(k.world, to, target.pid, handle) || Left(k, target.pid, from, to)
  {
    var at: nat, p :| Witness(k, target, openedAt, validatedBy, at, p);
    if Holds(k.world, to, target.pid, handle) {
      HandleIsWitness(k.world, target.pid, handle, p, openedAt, at, to);
      assert Hits(k, target, from, to, Delivery(to, target.pid, handle));
    }
  }

  /** A handle that still reaches its process after the validation reaches the validated one. */
  lemma HandleIsWitness(w: Timeline, pid: Pid, handle: Process, validated: Process, openedAt: nat, at: nat,
                        signalledAt: nat)
    requires WellFormed(w) && openedAt <= at <= signalledAt
    requires Holds(w, openedAt, pid, handle) && Holds(w, signalledAt, pid, handle) && Holds(w, at, pid, validated)
    ensures handle == validated
  {
    assert Holds(w, at, pid, handle);
  }

  /** The signal of the fallback, when its three reads and its `kill` come at these moments and nothing fails. */
  function FallbackSignal(w: Timeline, bootId: seq<Byte>, target: Target, first: nat, second: nat, third: nat,
                          fourth: nat): Option<Delivery> {
    if IdentityRead(w, bootId, target.pid, first, second, third) == Some(target.identity) && target.pid in w(fourth)
    then Some(Delivery(fourth, target.pid, w(fourth)[target.pid].process))
    else None
  }

  ghost predicate FallbackRun(k: Kernel, target: Target, from: nat, to: nat, first: nat, second: nat, third: nat,
                              fourth: nat, d: Delivery) {
    && from <= first <= second <= third <= fourth <= to
    && FallbackSignal(k.world, k.bootId, target, first, second, third, fourth) == Some(d)
  }

  ghost predicate IsFallbackRun(k: Kernel, target: Target, from: nat, to: nat, d: Delivery) {
    exists t1: nat, t2: nat, t3: nat, t4: nat :: FallbackRun(k, target, from, to, t1, t2, t3, t4, d)
  }

  /** A process was validated, and the signal went to it if it still held the pid. */
  ghost predicate HitsOrMisses(k: Kernel, target: Target, from: nat, to: nat, d: Delivery) {
    && d.pid == target.pid && from <= d.at <= to && Holds(k.world, d.at, d.pid, d.process)
    && exists at: nat, p ::
          Witness(k, target, from, d.at, at, p) && (Holds(k.world, d.at, target.pid, p) ==> d.process == p)
  }

  /**
   * The fallback without handles. The signal goes to whoever holds the pid by
   * then: to the validated process if it still holds the pid, and otherwise to
   * a stranger or to nobody.
   */
  method KillRevalidatedByPid(k: Kernel, target: Target) returns (r: Result<()>)
    requires WellFormed(k.world)
    modifies k`now, k`asked, k`delivered
    ensures k.now >= old(k.now)
    ensures old(k.delivered) <= k.delivered
    ensures |k.delivered| <= |old(k.delivered)| + 1 && (r.Ok? ==> |k.delivered| == |old(k.delivered)| + 1)
    ensures k.delivered != old(k.delivered) ==>
              && HitsOrMisses(k, target, old(k.now), k.now, k.delivered[|old(k.delivered)|])
              && IsFallbackRun(k, target, old(k.now), k.now, k.delivered[|old(k.delivered)|])
    ensures !k.hasPidFds ==> OnlyHits(k, target, old(k.now), k.now, old(k.delivered), k.delivered)
    ensures OnlyAsks(target.pid, old(k.asked), k.asked)
  {
    var identity := ProcessIdentity(k, target.pid);
    if identity.Err? {
      return Err(identity.kind);
    }
    if identity.value.None? {
      return Err(ErrorKind.NotFound);
    }
    if identity.value.value != target.identity {
      return Err(PermissionDenied);
    }
    ghost var at: nat, p :| Witness(k, target, old(k.now), k.now, at, p);
    ghost var first: nat, second: nat, third: nat :|
      ReadBetween(k, target.pid, target.identity, old(k.now), k.now, first, second, third);
    r := k.KillByPid(target.pid);
    assert Witness(k, target, old(k.now), k.now, at, p);
    if k.delivered != old(k.delivered) {
      ghost var d := k.delivered[|old(k.delivered)|];
      assert FallbackRun(k, target, old(k.now), k.now, first, second, third, k.now, d);
      assert HitsOrMisses(k, target, old(k.now), k.now, d);
    }
  }

  /** Someone else was seen under the pid: whatever the target stands for is gone. */
  lemma StrangerMeansDead(k: Kernel, target: Target, seen: Identity, since: nat, from: nat, to: nat)
    requires WellFormed(k.world) && since <= from
    requires Observed(k, Target(target.pid, seen), from, to) && seen != target.identity
    ensures AllDead(k, target, since, to)
  {
    var at: nat, q :| Witness(k, Target(target.pid, seen), from, to, at, q);
    var w := k.world;
    forall p | SeenBy(w, since, target.pid, p) && Is(k.bootId, target, p) ensures Dead(w, to, target.pid, p) {
      var s: nat :| s <= since && Holds(w, s, target.pid, p);
      assert Holds(w, at, target.pid, q) && !Running(w, at, target.pid, p);
      DeadFrom(w, s, at, target.pid, p);
    }
  }

  lemma StaysDead(k: Kernel, target: Target, since: nat, t: nat, later: nat)
    requires AllDead(k, target, since, t) && t <= later
    ensures AllDead(k, target, since, later)
  {
  }

  lemma VacatedMeansDead(k: Kernel, target: Target, since: nat, from: nat, to: nat)
    requires since <= from && Vacated(k, target.pid, from, to)
    ensures AllDead(k, target, since, to)
  {
    forall p | SeenBy(k.world, since, target.pid, p) ensures Dead(k.world, to, target.pid, p) {
      var s: nat :| s <= since && Holds(k.world, s, target.pid, p);
      assert SeenBy(k.world, from, target.pid, p);
    }
  }

  /** It was seen running after the last signal sent to its pid. */
  ghost predicate Survived(k: Kernel, target: Target, before: seq<Delivery>, after: seq<Delivery>, to: nat) {
    exists since: nat :: Observed(k, target, since, to) && StruckBefore(target.pid, before, after, since)
  }

  ghost predicate StruckBefore(pid: Pid, before: seq<Delivery>, after: seq<Delivery>, since: nat) {
    forall i :: |before| <= i < |after| && after[i].pid == pid ==> after[i].at <= since
  }

  /**
   * What reaping one process promises. Signals hit only the target, and none is
   * sent nor a kill reported unless it was seen running. Success means that an
   * owned target is dead; a failed descendant outlived the signals sent to it.
   */
  ghost predicate Reaped(k: Kernel, target: Target, unownedIsDead: bool, r: Result<Outcome>, from: nat, to: nat,
                         before: seq<Delivery>, after: seq<Delivery>) {
    && from <= to && OnlyHits(k, target, from, to, before, after)
    && (r.Ok? ==> r.value != Outcome.NotFound && (!unownedIsDead ==> AllDead(k, target, from, to)))
    && (r == Ok(Killed) || after != before ==> Observed(k, target, from, to))
    && (unownedIsDead && r.Err? ==> Survived(k, target, before, after, to))
  }

  /**
   * `reap_record_with_kill`: validate, kill, then watch the pid until the target
   * is seen to be gone. `unownedIsDead` is set for descendants, where anything
   * unreadable counts as gone; then only a target still seen at the last look is
   * a failure.
   */
  method ReapRecordWithKill(k: Kernel, target: Target, unownedIsDead: bool) returns (r: Result<Outcome>)
    requires WellFormed(k.world)
    modifies k`now, k`asked, k`delivered
    ensures k.now >= old(k.now)
    ensures Reaped(k, target, unownedIsDead, r, old(k.now), k.now, old(k.delivered), k.delivered)
    ensures AsksAbout(target.pid, old(k.asked), k.asked)
    ensures unownedIsDead ==> (r.Err? <==> Sighted(Final(k.asked), target.identity))
  {
    var settled := SettledBefore(k, target, unownedIsDead);
    if settled.Some? {
      return settled.value;
    }
    ghost var askedBy := k.asked;
    r := KillAndConfirm(k, target, unownedIsDead, old(k.now));
    AsksMore(target.pid, old(k.asked), askedBy, k.asked);
  }

  /** The look before the kill: it may settle the matter, and otherwise the target was seen. */
  method SettledBefore(k: Kernel, target: Target, unownedIsDead: bool) returns (settled: Option<Result<Outcome>>)
    requires WellFormed(k.world)
    modifies k`now, k`asked
    ensures k.now >= old(k.now) && AsksAbout(target.pid, old(k.asked), k.asked)
    ensures settled.None? ==> Observed(k, target, old(k.now), k.now)
    ensures settled.Some? && settled.value.Ok? ==>
              settled.value == Ok(AlreadyExited) && (!unownedIsDead ==> AllDead(k, target, old(k.now), k.now))
    ensures settled.Some? && unownedIsDead ==> settled.value.Ok? && !Sighted(Final(k.asked), target.identity)
  {
    var identity := IdentityForReap(k, target.pid);
    if identity.Err? {
      return Some(if unownedIsDead then Ok(AlreadyExited) else Err(identity.kind));
    }
    if identity.value.None? {
      VacatedMeansDead(k, target, old(k.now), old(k.now), k.now);
      return Some(Ok(AlreadyExited));
    }
    if identity.value.value != target.identity {
      return Some(if unownedIsDead then Ok(AlreadyExited) else Err(PermissionDenied));
    }
    return None;
  }

  lemma AsksMore(pid: Pid, before: seq<Query>, mid: seq<Query>, after: seq<Query>)
    requires OnlyAsks(pid, before, mid) && AsksAbout(pid, mid, after)
    ensures AsksAbout(pid, before, after)
  {
  }

  /** The target has been seen running: kill it, whatever becomes of that, and wait. */
  method KillAndConfirm(k: Kernel, target: Target, unownedIsDead: bool, ghost since: nat) returns (r: Result<Outcome>)
    requires WellFormed(k.world) && since <= k.now && Observed(k, target, since, k.now)
    modifies k`now, k`asked, k`delivered
    ensures Reaped(k, target, unownedIsDead, r, since, k.now, old(k.delivered), k.delivered)
    ensures k.now >= old(k.now) && AsksAbout(target.pid, old(k.asked), k.asked)
    ensures unownedIsDead ==> (r.Err? <==> Sighted(Final(k.asked), target.identity))
  {
    var killed := KillRecordedProcess(k, target);
    ghost var struckBy, askedBy := k.now, k.asked;
    r := ConfirmDeath(k, target, unownedIsDead, killed, since);
    AsksMore(target.pid, old(k.asked), askedBy, k.asked);
    StruckBy(k, target, since, old(k.now), struckBy, k.now, old(k.delivered), k.delivered);
    ObservedWidens(k, target, since, old(k.now), since, k.now);
  }

  /** Signals sent by one moment were sent by a later one, and none came after it. */
  lemma StruckBy(k: Kernel, target: Target, since: nat, from: nat, mid: nat, to: nat, before: seq<Delivery>,
                 after: seq<Delivery>)
    requires OnlyHits(k, target, from, mid, before, after) && since <= from && mid <= to
    ensures OnlyHits(k, target, since, to, before, after) && StruckBefore(target.pid, before, after, mid)
  {
    forall i | |before| <= i < |after| ensures Hits(k, target, since, to, after[i]) && after[i].at <= mid {
      assert Hits(k, target, from, mid, after[i]);
    }
  }

  /** The answer is this identity. */
  predicate Sighted(answer: Result<Option<Identity>>, identity: Identity) {
    answer.Ok? && answer.value.Some? && answer.value.value == identity
  }

  /** The last answer of all. */
  function Final(asked: seq<Query>): Result<Option<Identity>> {
    if asked == [] then Ok(None) else asked[|asked| - 1].answer
  }

  /** Keeps the wait after a kill going: the target is seen, or an owned one cannot be looked at for now. */
  predicate Undecided(answer: Result<Option<Identity>>, target: Target, unownedIsDead: bool) {
    match answer
    case Ok(_) => Sighted(answer, target.identity)
    case Err(kind) => !unownedIsDead && Provisional(kind)
  }

  /** What the last answer of the wait means: a kill error counts only if nothing was decided, and comes first then. */
  function Judge(last: Result<Option<Identity>>, target: Target, unownedIsDead: bool,
                 killed: Result<()>): Result<Outcome> {
    if Undecided(last, target, unownedIsDead) then
      if killed.Err? then Err(killed.kind) else if last.Err? then Err(last.kind) else Err(TimedOut)
    else if last.Err? && !unownedIsDead then Err(last.kind)
    else Ok(Killed)
  }

  /** The queries of the wait: undecided ones up to the last, which is decided or the hundredth. */
  ghost predicate Waited(target: Target, unownedIsDead: bool, before: seq<Query>, after: seq<Query>) {
    && AsksAbout(target.pid, before, after) && |after| <= |before| + KILL_WAIT_ATTEMPTS
    && AllUndecided(target, unownedIsDead, before, after[..|after| - 1])
    && (Undecided(Final(after), target, unownedIsDead) ==> |after| == |before| + KILL_WAIT_ATTEMPTS)
  }

  /** One look of the wait. Unless undecided, an owned target that could be looked at is dead. */
  method LookAgain(k: Kernel, target: Target, ghost since: nat) returns (answer: Result<Option<Identity>>)
    requires WellFormed(k.world) && since <= k.now
    modifies k`now, k`asked
    ensures k.now >= old(k.now)
    ensures k.asked == old(k.asked) + [Query(target.pid, answer)]
    ensures answer.Ok? && !Sighted(answer, target.identity) ==> AllDead(k, target, since, k.now)
    ensures Sighted(answer, target.identity) ==> Observed(k, target, old(k.now), k.now)
  {
    answer := ProcessIdentity(k, target.pid);
    if answer == Ok(None) {
      VacatedMeansDead(k, target, since, old(k.now), k.now);
    } else if answer.Ok? && answer.value.value != target.identity {
      StrangerMeansDead(k, target, answer.value.value, since, old(k.now), k.now);
    }
  }

  /** The bounded wait after the kill: a kill error is only provisional. */
  method ConfirmDeath(k: Kernel, target: Target, unownedIsDead: bool, killed: Result<()>, ghost since: nat)
    returns (r: Result<Outcome>)
    requires WellFormed(k.world) && since <= k.now
    modifies k`now, k`asked
    ensures k.now >= old(k.now)
    ensures Waited(target, unownedIsDead, old(k.asked), k.asked)
    ensures r == Judge(Final(k.asked), target, unownedIsDead, killed)
    ensures r.Ok? && !unownedIsDead ==> AllDead(k, target, since, k.now)
    ensures Sighted(Final(k.asked), target.identity) ==> Observed(k, target, old(k.now), k.now)
  {
    var identityError: Option<ErrorKind> := None;
    ghost var before := k.asked;
    ghost var begun: nat, seenBy: nat := k.now, k.now;
    for attempt := 0 to KILL_WAIT_ATTEMPTS
      invariant old(k.now) <= begun <= seenBy <= k.now
      invariant |k.asked| == |before| + attempt
      invariant AllUndecided(target, unownedIsDead, before, k.asked)
      invariant attempt > 0 ==> identityError == KindOf(Final(k.asked))
      invariant attempt > 0 && identityError.None? ==> Observed(k, target, begun, seenBy)
    {
      ghost var asked := k.asked;
      begun := k.now;
      var current := LookAgain(k, target, since);
      OneMoreAnswer(target, unownedIsDead, before, asked, k.asked, current);
      match current {
        case Ok(None) => return Ok(Killed);
        case Ok(Some(seen)) =>
          if seen != target.identity {
            return Ok(Killed);
          }
          seenBy := k.now;
          identityError := None;
        case Err(kind) =>
          if unownedIsDead {
            return Ok(Killed);
          }
          if !Provisional(kind) {
            return Err(kind);
          }
          seenBy := k.now;
          identityError := Some(kind);
      }
      if attempt + 1 < KILL_WAIT_ATTEMPTS {
        k.Pass();
      }
    }
    assert k.asked[..|k.asked| - 1] <= k.asked;
    if identityError.None? {
      ObservedWidens(k, target, begun, seenBy, old(k.now), k.now);
    }
    if killed.Err? {
      return Err(killed.kind);
    }
    return if identityError.Some? then Err(identityError.value) else Err(TimedOut);
  }

  /** All queries made were about the target, and left open whether it is gone. */
  ghost predicate AllUndecided(target: Target, unownedIsDead: bool, before: seq<Query>, after: seq<Query>) {
    && OnlyAsks(target.pid, before, after)
    && forall i :: |before| <= i < |after| ==> Undecided(after[i].answer, target, unownedIsDead)
  }

  lemma OneMoreAnswer(target: Target, unownedIsDead: bool, before: seq<Query>, asked: seq<Query>, after: seq<Query>,
                      answer: Result<Option<Identity>>)
    requires AllUndecided(target, unownedIsDead, before, asked) && after == asked + [Query(target.pid, answer)]
    requires |asked| < |before| + KILL_WAIT_ATTEMPTS
    ensures if Undecided(answer, target, unownedIsDead) then AllUndecided(target, unownedIsDead, before, after)
            else Waited(target, unownedIsDead, before, after)
  {
    assert after[..|after| - 1] == asked;
  }

  function KindOf(answer: Result<Option<Identity>>): Option<ErrorKind> {
    match answer case Ok(_) => None case Err(kind) => Some(kind)
  }

  // ---- descendants

  /**
   * How a pid and an identity came to be captured. Where the second listing has
   * the pid below the root, the identity was read after it; otherwise the first
   * one has it there, and the identity was read between the two.
   */
  ghost predicate CapturedIn(k: Kernel, root: Pid, first: Listing, second: Listing, target: Target, to: nat) {
    if Descendants.Descends(second.parents, root, target.pid) then Observed(k, target, second.at, to)
    else Descendants.Descends(first.parents, root, target.pid) && Observed(k, target, first.at, second.at)
  }

  function TargetIn(c: Descendants.Captured<Identity>): Target {
    Target(c.pid, c.identity)
  }

  predicate DistinctPids(captured: seq<Descendants.Captured<Identity>>) {
    forall i, j :: 0 <= i < j < |captured| ==> captured[i].pid != captured[j].pid
  }

  /** The processes that a listing has below the root. */
  ghost function Below(parents: map<Pid, Pid>, root: Pid): set<Pid> {
    set pid | pid in parents && Descendants.Descends(parents, root, pid)
  }

  /** The answers to the first `n` queries from a position on. */
  function Look(asked: seq<Query>, from: nat, n: nat): seq<Query> {
    if from + n <= |asked| then asked[from..from + n] else []
  }

  /** A snapshot holds what the reaper was told, one query for each pid. */
  predicate Records(look: seq<Query>, identities: map<Pid, Option<Identity>>) {
    && |look| == |identities.Keys|
    && forall pid <- identities :: AsTold(LastAnswer(look, pid), identities[pid])
  }

  predicate AsTold(answer: Option<Result<Option<Identity>>>, identity: Option<Identity>) {
    answer.Some? && if identity.Some? then Sighted(answer.value, identity.value)
        else !(answer.value.Ok? && answer.value.value.Some?)
  }

  /**
   * A captured identity is the one the reaper was told right after the listing
   * that decides about the pid: the second one if it has the pid below the root,
   * the first one otherwise.
   */
  ghost predicate Recorded(asked: seq<Query>, root: Pid, first: Listing, second: Listing,
                           c: Descendants.Captured<Identity>) {
    if c.pid in Below(second.parents, root) then StillThere(Look(asked, second.asked, |Below(second.parents, root)|), c)
    else c.pid in Below(first.parents, root) && StillThere(Look(asked, first.asked, |Below(first.parents, root)|), c)
  }

  lemma ListedBelow(parents: map<Pid, Pid>, root: Pid, pids: set<Pid>)
    requires forall pid :: pid in pids <==> Descendants.Descends(parents, root, pid)
    ensures pids == Below(parents, root)
  {
    forall pid | pid in pids ensures pid in parents {
      var n: nat :| n > 0 && Descendants.Climb(parents, pid, n) == Some(root);
    }
  }

  /** As many queries followed the listing as it has pids below the root. */
  ghost predicate Told(root: Pid, l: Listing, asked: seq<Query>) {
    l.asked + |Below(l.parents, root)| <= |asked|
  }

  /** What a snapshot made after a listing holds: who was below the root, what was seen and what was told. */
  ghost predicate Looked(k: Kernel, root: Pid, l: Listing, identities: map<Pid, Option<Identity>>, to: nat,
                         asked: seq<Query>) {
    && l.at <= to && identities.Keys == Below(l.parents, root) && AllObserved(k, identities, l.at, to)
    && l.asked + |identities.Keys| <= |asked| && Records(Look(asked, l.asked, |identities.Keys|), identities)
  }

  lemma LookedStays(k: Kernel, root: Pid, l: Listing, identities: map<Pid, Option<Identity>>, to: nat, later: nat,
                    asked: seq<Query>, askedLater: seq<Query>)
    requires Looked(k, root, l, identities, to, asked) && to <= later && asked <= askedLater
    ensures Looked(k, root, l, identities, later, askedLater)
  {
    AllObservedWidens(k, identities, l.at, to, later);
    var n := |identities.Keys|;
    assert Look(askedLater, l.asked, n) == Look(asked, l.asked, n);
  }

  /** One snapshot: a listing, and an identity read for each pid that it has below the root. */
  method ListAndLook(k: Kernel, root: Pid) returns (identities: map<Pid, Option<Identity>>, ghost l: Listing)
    requires WellFormed(k.world)
    modifies k`now, k`asked, k`listings
    ensures k.now >= l.at >= old(k.now) && old(k.asked) <= k.asked && k.listings == old(k.listings) + [l]
    ensures Looked(k, root, l, identities, k.now, k.asked)
  {
    var parents := k.List();
    l := k.listings[|old(k.listings)|];
    var pids := Descendants.DescendantPids(parents, root);
    ListedBelow(parents, root, pids);
    identities := ReadIdentities(k, pids);
    assert Look(k.asked, |old(k.asked)|, |identities.Keys|) == k.asked[|old(k.asked)|..];
  }

  /** `capture_descendants`: two listings, with an identity read for each listed pid. */
  method CaptureDescendants(k: Kernel, root: Pid) returns (captured: seq<Descendants.Captured<Identity>>)
    requires WellFormed(k.world)
    modifies k`now, k`asked, k`listings
    ensures k.now >= old(k.now) && DistinctPids(captured) && old(k.asked) <= k.asked
    ensures old(k.listings) <= k.listings && |k.listings| == |old(k.listings)| + 2
    ensures Captures(k, root, k.listings[|old(k.listings)|], k.listings[|old(k.listings)| + 1], k.asked, captured,
              k.now)
    ensures Told(root, k.listings[|old(k.listings)|], k.asked) && Told(root, k.listings[|old(k.listings)| + 1], k.asked)
  {
    var first, second;
    ghost var l1, l2;
    first, l1 := ListAndLook(k, root);
    ghost var mid, askedFirst := k.now, k.asked;
    second, l2 := ListAndLook(k, root);
    captured := Descendants.MergeDescendantCaptures(Known(first), second);
    LookedStays(k, root, l1, first, mid, l2.at, askedFirst, k.asked);
    MergedIsCaptured(k, root, l1, l2, first, second, k.asked, captured, k.now);
    assert k.listings == old(k.listings) + [l1, l2];
  }

  /**
   * What was captured: exactly the identities recorded, each of a process that
   * ran after the deciding listing.
   */
  ghost predicate Captures(k: Kernel, root: Pid, first: Listing, second: Listing, asked: seq<Query>,
                           captured: seq<Descendants.Captured<Identity>>, to: nat) {
    && (forall i :: 0 <= i < |captured| ==> CapturedIn(k, root, first, second, TargetIn(captured[i]), to))
    && (forall i :: 0 <= i < |captured| ==> Recorded(asked, root, first, second, captured[i]))
    && (forall c :: Recorded(asked, root, first, second, c) ==> c in captured)
  }

  /** Every identity of a snapshot is that of a process that ran meanwhile. */
  ghost predicate AllObserved(k: Kernel, identities: map<Pid, Option<Identity>>, from: nat, to: nat) {
    forall pid <- identities :: identities[pid].Some? ==> Observed(k, Target(pid, identities[pid].value), from, to)
  }

  lemma AllObservedWidens(k: Kernel, identities: map<Pid, Option<Identity>>, from: nat, to: nat, to': nat)
    requires AllObserved(k, identities, from, to) && to <= to'
    ensures AllObserved(k, identities, from, to')
  {
    forall pid <- identities | identities[pid].Some?
        ensures Observed(k, Target(pid, identities[pid].value), from, to') {
      ObservedWidens(k, Target(pid, identities[pid].value), from, to, from, to');
    }
  }

  function Known(identities: map<Pid, Option<Identity>>): map<Pid, Identity> {
    map pid | pid in identities && identities[pid].Some? :: identities[pid].value
  }

  /** The second snapshot lists exactly what its listing has below the root, and is authoritative there. */
  lemma MergedIsCaptured(k: Kernel, root: Pid, l1: Listing, l2: Listing, first: map<Pid, Option<Identity>>,
                         second: map<Pid, Option<Identity>>, asked: seq<Query>,
                         captured: seq<Descendants.Captured<Identity>>, to: nat)
    requires Looked(k, root, l1, first, l2.at, asked) && Looked(k, root, l2, second, to, asked)
    requires forall i :: 0 <= i < |captured| ==>
               Descendants.Merged(Known(first), second, captured[i].pid) == Some(captured[i].identity)
    requires forall pid :: Descendants.Merged(Known(first), second, pid).Some? ==>
               exists i :: 0 <= i < |captured| && captured[i].pid == pid
    ensures Captures(k, root, l1, l2, asked, captured, to)
  {
    forall i | 0 <= i < |captured|
      ensures CapturedIn(k, root, l1, l2, TargetIn(captured[i]), to) && Recorded(asked, root, l1, l2, captured[i])
    {
      MergedIsRecorded(k, root, l1, l2, first, second, asked, captured[i], to);
    }
    forall c | Recorded(asked, root, l1, l2, c) ensures c in captured {
      RecordedIsMerged(root, l1, l2, first, second, asked, c);
      var i :| 0 <= i < |captured| && captured[i].pid == c.pid;
      assert captured[i] == c;
    }
  }

  lemma MergedIsRecorded(k: Kernel, root: Pid, l1: Listing, l2: Listing, first: map<Pid, Option<Identity>>,
                         second: map<Pid, Option<Identity>>, asked: seq<Query>,
                         c: Descendants.Captured<Identity>, to: nat)
    requires Looked(k, root, l1, first, l2.at, asked) && Looked(k, root, l2, second, to, asked)
    requires Descendants.Merged(Known(first), second, c.pid) == Some(c.identity)
    ensures CapturedIn(k, root, l1, l2, TargetIn(c), to) && Recorded(asked, root, l1, l2, c)
  {
    if c.pid in second {
      assert second[c.pid] == Some(c.identity);
    } else {
      assert !Descendants.Descends(l2.parents, root, c.pid) by {
        if Descendants.Descends(l2.parents, root, c.pid) {
          DescendantIsListed(l2.parents, root, c.pid);
        }
      }
      assert first[c.pid] == Some(c.identity);
    }
  }

  lemma DescendantIsListed(parents: map<Pid, Pid>, root: Pid, pid: Pid)
    requires Descendants.Descends(parents, root, pid)
    ensures pid in Below(parents, root)
  {
    var n: nat :| n > 0 && Descendants.Climb(parents, pid, n) == Some(root);
  }

  lemma RecordedIsMerged(root: Pid, l1: Listing, l2: Listing, first: map<Pid, Option<Identity>>,
                         second: map<Pid, Option<Identity>>, asked: seq<Query>, c: Descendants.Captured<Identity>)
    requires first.Keys == Below(l1.parents, root) && second.Keys == Below(l2.parents, root)
    requires Records(Look(asked, l1.asked, |first.Keys|), first)
    requires Records(Look(asked, l2.asked, |second.Keys|), second)
    requires Recorded(asked, root, l1, l2, c)
    ensures Descendants.Merged(Known(first), second, c.pid) == Some(c.identity)
  {
  }

  lemma ObservedWidens(k: Kernel, target: Target, from: nat, to: nat, from': nat, to': nat)
    requires Observed(k, target, from, to) && from' <= from && to <= to'
    ensures Observed(k, target, from', to')
  {
    var at: nat, p :| Witness(k, target, from, to, at, p);
    assert Witness(k, target, from', to', at, p);
  }

  /** So far: who has been looked at, and what was seen and told since. */
  ghost predicate Snapshot(k: Kernel, pids: set<Pid>, todo: set<Pid>, identities: map<Pid, Option<Identity>>,
                           from: nat, now: nat, before: seq<Query>, after: seq<Query>) {
    && from <= now && before <= after && todo <= pids && identities.Keys == pids - todo
    && AllObserved(k, identities, from, now) && Records(after[|before|..], identities)
  }

  /** Look at one more process. */
  method ReadOneMore(k: Kernel, todo: set<Pid>, identities: map<Pid, Option<Identity>>,
                     ghost pids: set<Pid>, ghost from: nat, ghost before: seq<Query>)
    returns (left: set<Pid>, more: map<Pid, Option<Identity>>)
    requires WellFormed(k.world) && todo != {} && Snapshot(k, pids, todo, identities, from, k.now, before, k.asked)
    modifies k`now, k`asked
    ensures Snapshot(k, pids, left, more, from, k.now, before, k.asked) && left < todo
  {
    var pid :| pid in todo;
    var r := ProcessIdentity(k, pid);
    more := identities[pid := if r.Ok? then r.value else None];
    left := todo - {pid};
    ObservesMore(k, identities, pid, r, from, old(k.now), k.now);
    TellsMore(before, old(k.asked), identities, pid, r);
  }

  lemma ObservesMore(k: Kernel, identities: map<Pid, Option<Identity>>, pid: Pid, r: Result<Option<Identity>>,
                     from: nat, mid: nat, to: nat)
    requires AllObserved(k, identities, from, mid) && from <= mid && Answers(k, pid, r, mid, to)
    ensures AllObserved(k, identities[pid := if r.Ok? then r.value else None], from, to)
  {
    AllObservedWidens(k, identities, from, mid, to);
    AnswersWiden(k, pid, r, from, mid, to);
  }

  lemma TellsMore(before: seq<Query>, asked: seq<Query>, identities: map<Pid, Option<Identity>>, pid: Pid,
                  r: Result<Option<Identity>>)
    requires before <= asked && Records(asked[|before|..], identities) && pid !in identities
    ensures before <= asked + [Query(pid, r)]
    ensures Records((asked + [Query(pid, r)])[|before|..], identities[pid := if r.Ok? then r.value else None])
  {
    RecordsMore(asked[|before|..], identities, pid, r);
    assert (asked + [Query(pid, r)])[|before|..] == asked[|before|..] + [Query(pid, r)];
  }

  /** One identity per listed pid; unreadable and vanished ones become `None`. */
  method ReadIdentities(k: Kernel, pids: set<Pid>) returns (identities: map<Pid, Option<Identity>>)
    requires WellFormed(k.world)
    modifies k`now, k`asked
    ensures k.now >= old(k.now) && old(k.asked) <= k.asked
    ensures identities.Keys == pids && AllObserved(k, identities, old(k.now), k.now)
    ensures Records(k.asked[|old(k.asked)|..], identities)
  {
    identities := map[];
    var todo := pids;
    while todo != {}
      invariant Snapshot(k, pids, todo, identities, old(k.now), k.now, old(k.asked), k.asked)
    {
      todo, identities := ReadOneMore(k, todo, identities, pids, old(k.now), old(k.asked));
    }
  }

  lemma RecordsMore(look: seq<Query>, identities: map<Pid, Option<Identity>>, pid: Pid, r: Result<Option<Identity>>)
    requires Records(look, identities) && pid !in identities
    ensures Records(look + [Query(pid, r)], identities[pid := if r.Ok? then r.value else None])
  {
    var more, known := look + [Query(pid, r)], identities[pid := if r.Ok? then r.value else None];
    assert known.Keys == identities.Keys + {pid};
    forall p | p in known ensures AsTold(LastAnswer(more, p), known[p]) {
      if p != pid {
        OthersAsked(look, more, p);
      }
    }
  }

  // ---- whole reaps

  /** The last answer about a pid. */
  function LastAnswer(asked: seq<Query>, pid: Pid): Option<Result<Option<Identity>>> {
    LastBefore(asked, |asked|, pid)
  }

  function LastBefore(asked: seq<Query>, n: nat, pid: Pid): Option<Result<Option<Identity>>>
    requires n <= |asked|
  {
    if n == 0 then None
    else if asked[n - 1].pid == pid then Some(asked[n - 1].answer)
    else LastBefore(asked, n - 1, pid)
  }

  lemma {:induction false} SameBefore(asked: seq<Query>, later: seq<Query>, n: nat, pid: Pid)
    requires n <= |asked| && asked <= later
    ensures LastBefore(later, n, pid) == LastBefore(asked, n, pid)
  {
    if n > 0 {
      SameBefore(asked, later, n - 1, pid);
    }
  }

  lemma {:induction false} NoneBetween(asked: seq<Query>, from: nat, to: nat, pid: Pid)
    requires from <= to <= |asked| && forall i :: from <= i < to ==> asked[i].pid != pid
    ensures LastBefore(asked, to, pid) == LastBefore(asked, from, pid)
  {
    if from < to {
      NoneBetween(asked, from, to - 1, pid);
    }
  }

  lemma OthersAsked(before: seq<Query>, after: seq<Query>, pid: Pid)
    requires before <= after && forall i :: |before| <= i < |after| ==> after[i].pid != pid
    ensures LastAnswer(after, pid) == LastAnswer(before, pid)
  {
    NoneBetween(after, |before|, |after|, pid);
    SameBefore(before, after, |before|, pid);
  }

  /** At the last look the descendant was there. */
  predicate StillThere(asked: seq<Query>, c: Descendants.Captured<Identity>) {
    match LastAnswer(asked, c.pid) case Some(answer) => Sighted(answer, c.identity) case None => false
  }

  predicate AnyStillThere(asked: seq<Query>, captured: seq<Descendants.Captured<Identity>>, n: nat)
    requires n <= |captured|
  {
    exists i :: 0 <= i < n && StillThere(asked, captured[i])
  }

  ghost predicate HitsCaptured(k: Kernel, captured: seq<Descendants.Captured<Identity>>, n: nat, from: nat, to: nat,
                               d: Delivery)
    requires n <= |captured|
  {
    exists i :: 0 <= i < n && Hits(k, TargetIn(captured[i]), from, to, d)
  }

  /** Every signal since `before` hits one of the first `n` captured descendants. */
  ghost predicate OnlyHitsCaptured(k: Kernel, captured: seq<Descendants.Captured<Identity>>, n: nat, from: nat, to: nat,
                                   before: seq<Delivery>, after: seq<Delivery>)
    requires n <= |captured|
  {
    before <= after && forall i :: |before| <= i < |after| ==> HitsCaptured(k, captured, n, from, to, after[i])
  }

  lemma OneMoreHit(k: Kernel, captured: seq<Descendants.Captured<Identity>>, n: nat, from: nat, mid: nat, to: nat,
                   before: seq<Delivery>, after: seq<Delivery>, later: seq<Delivery>)
    requires from <= mid <= to && n < |captured| && OnlyHitsCaptured(k, captured, n, from, mid, before, after)
    requires OnlyHits(k, TargetIn(captured[n]), mid, to, after, later)
    ensures OnlyHitsCaptured(k, captured, n + 1, from, to, before, later)
  {
    forall i | |before| <= i < |later| ensures HitsCaptured(k, captured, n + 1, from, to, later[i]) {
      if i < |after| {
        assert later[i] == after[i];
        var j :| 0 <= j < n && Hits(k, TargetIn(captured[j]), from, mid, after[i]);
        assert Hits(k, TargetIn(captured[j]), from, to, later[i]);
      } else {
        assert Hits(k, TargetIn(captured[n]), from, to, later[i]);
      }
    }
  }

  /** Whoever survived its own signals has survived when only others were signalled since. */
  lemma SurvivedStays(k: Kernel, target: Target, other: Target, before: seq<Delivery>, after: seq<Delivery>,
                      later: seq<Delivery>,
                      from: nat, mid: nat, to: nat)
    requires Survived(k, target, before, after, mid) && mid <= to && before <= after
    requires OnlyHits(k, other, from, to, after, later) && other.pid != target.pid
    ensures Survived(k, target, before, later, to)
  {
    var since: nat :| Observed(k, target, since, mid) && StruckBefore(target.pid, before, after, since);
    ObservedWidens(k, target, since, mid, since, to);
    forall i | |before| <= i < |later| && later[i].pid == target.pid ensures later[i].at <= since {
      assert i < |after| by {
        assert i >= |after| ==> Hits(k, other, from, to, later[i]);
      }
      assert later[i] == after[i];
    }
    assert StruckBefore(target.pid, before, later, since);
  }

  /** One descendant more has been asked about, and only that one. */
  lemma OneMoreAsked(before: seq<Query>, after: seq<Query>, captured: seq<Descendants.Captured<Identity>>, i: nat)
    requires i < |captured| && DistinctPids(captured) && AsksAbout(captured[i].pid, before, after)
    ensures forall j :: 0 <= j < i ==> (StillThere(after, captured[j]) <==> StillThere(before, captured[j]))
    ensures StillThere(after, captured[i]) <==> Sighted(Final(after), captured[i].identity)
    ensures AnyStillThere(after, captured, i + 1) <==>
              AnyStillThere(before, captured, i) || StillThere(after, captured[i])
  {
    forall j | 0 <= j < i ensures StillThere(after, captured[j]) <==> StillThere(before, captured[j]) {
      OthersAsked(before, after, captured[j].pid);
    }
  }

  /** Signals to others do not count against a survivor. */
  lemma SurvivedSince(k: Kernel, captured: seq<Descendants.Captured<Identity>>, i: nat, from: nat, mid: nat, to: nat,
                      before: seq<Delivery>, after: seq<Delivery>, later: seq<Delivery>)
    requires i < |captured| && DistinctPids(captured) && after <= later
    requires OnlyHitsCaptured(k, captured, i, from, mid, before, after)
    requires Survived(k, TargetIn(captured[i]), after, later, to)
    ensures Survived(k, TargetIn(captured[i]), before, later, to)
  {
    var target := TargetIn(captured[i]);
    var since: nat :| Observed(k, target, since, to) && StruckBefore(target.pid, after, later, since);
    forall n | |before| <= n < |after| ensures later[n].pid != target.pid {
      assert later[n] == after[n] && HitsCaptured(k, captured, i, from, mid, after[n]);
    }
    assert StruckBefore(target.pid, before, later, since);
  }

  lemma OneMoreSurvived(k: Kernel, captured: seq<Descendants.Captured<Identity>>, i: nat, asked: seq<Query>,
                        askedLater: seq<Query>,
                        from: nat, mid: nat, to: nat, before: seq<Delivery>, after: seq<Delivery>, later: seq<Delivery>)
    requires i < |captured| && DistinctPids(captured) && AsksAbout(captured[i].pid, asked, askedLater) && mid <= to
    requires forall j :: 0 <= j < i && StillThere(asked, captured[j]) ==>
               Survived(k, TargetIn(captured[j]), before, after, mid)
    requires OnlyHitsCaptured(k, captured, i, from, mid, before, after)
    requires OnlyHits(k, TargetIn(captured[i]), mid, to, after, later)
    requires StillThere(askedLater, captured[i]) ==> Survived(k, TargetIn(captured[i]), after, later, to)
    ensures forall j :: 0 <= j < i + 1 && StillThere(askedLater, captured[j]) ==>
              Survived(k, TargetIn(captured[j]), before, later, to)
  {
    OneMoreAsked(asked, askedLater, captured, i);
    forall j | 0 <= j < i + 1 && StillThere(askedLater, captured[j])
      ensures Survived(k, TargetIn(captured[j]), before, later, to)
    {
      if j < i {
        SurvivedStays(k, TargetIn(captured[j]), TargetIn(captured[i]), before, after, later, mid, mid, to);
      } else {
        SurvivedSince(k, captured, i, from, mid, to, before, after, later);
      }
    }
  }

  /**
   * The loop over captured descendants, after the root has been confirmed dead.
   * It fails exactly when one of them was still there at the last look, and each
   * such one outlived the signals sent to it.
   */
  method ReapDescendants(k: Kernel, captured: seq<Descendants.Captured<Identity>>, rootOutcome: Outcome)
    returns (r: Result<Outcome>)
    requires WellFormed(k.world) && rootOutcome != Outcome.NotFound && DistinctPids(captured)
    modifies k`now, k`asked, k`delivered
    ensures k.now >= old(k.now)
    ensures OnlyHitsCaptured(k, captured, |captured|, old(k.now), k.now, old(k.delivered), k.delivered)
    ensures old(k.asked) <= k.asked
    ensures r.Err? <==> AnyStillThere(k.asked, captured, |captured|)
    ensures forall i :: 0 <= i < |captured| && StillThere(k.asked, captured[i]) ==>
              Survived(k, TargetIn(captured[i]), old(k.delivered), k.delivered, k.now)
    ensures r.Ok? ==> r.value != Outcome.NotFound && (rootOutcome == Killed ==> r.value == Killed)
  {
    var killedDescendant, failures := false, 0;
    for i := 0 to |captured|
      invariant k.now >= old(k.now)
      invariant OnlyHitsCaptured(k, captured, i, old(k.now), k.now, old(k.delivered), k.delivered)
      invariant old(k.asked) <= k.asked
      invariant failures > 0 <==> AnyStillThere(k.asked, captured, i)
      invariant forall j :: 0 <= j < i && StillThere(k.asked, captured[j]) ==>
                  Survived(k, TargetIn(captured[j]), old(k.delivered), k.delivered, k.now)
    {
      ghost var mid, struck, asked := k.now, k.delivered, k.asked;
      var one := ReapRecordWithKill(k, TargetIn(captured[i]), true);
      OneMoreHit(k, captured, i, old(k.now), mid, k.now, old(k.delivered), struck, k.delivered);
      OneMoreAsked(asked, k.asked, captured, i);
      OneMoreSurvived(k, captured, i, asked, k.asked, old(k.now), mid, k.now, old(k.delivered), struck, k.delivered);
      match one {
        case Ok(Killed) => killedDescendant := true;
        case Ok(_) =>
        case Err(_) => failures := failures + 1;
      }
    }
    if failures > 0 {
      return Err(Other);
    }
    return Ok(if killedDescendant then Killed else rootOutcome);
  }

  function TargetOf(r: RecordCodec.EpochPidRecord): Target {
    Target(r.pid, Identity(r.executable, r.startToken))
  }

  /**
   * Where the targets of a whole reap come from: without listings there are
   * none, and with two they are what was captured by that moment.
   */
  ghost predicate Attributed(k: Kernel, root: Pid, listings: seq<Listing>, asked: seq<Query>,
                             captured: seq<Descendants.Captured<Identity>>, capturedBy: nat) {
    || (listings == [] && captured == [])
    || (|listings| == 2 && DistinctPids(captured)
          && Captures(k, root, listings[0], listings[1], asked, captured, capturedBy))
  }

  /** A signal of a whole reap hits the recorded root or one of the captured descendants, after the capture. */
  ghost predicate Justified(k: Kernel, root: Target, captured: seq<Descendants.Captured<Identity>>, from: nat, to: nat,
                            d: Delivery) {
    Hits(k, root, from, to, d) || HitsCaptured(k, captured, |captured|, from, to, d)
  }

  ghost predicate AllJustified(k: Kernel, root: Target, captured: seq<Descendants.Captured<Identity>>, from: nat,
                               to: nat,
                               before: seq<Delivery>, after: seq<Delivery>) {
    before <= after && forall i :: |before| <= i < |after| ==> Justified(k, root, captured, from, to, after[i])
  }

  lemma RootHitsAreJustified(k: Kernel, root: Target, captured: seq<Descendants.Captured<Identity>>, from: nat, to: nat,
                             before: seq<Delivery>, after: seq<Delivery>)
    requires OnlyHits(k, root, from, to, before, after)
    ensures AllJustified(k, root, captured, from, to, before, after)
  {
    forall i | |before| <= i < |after| ensures Justified(k, root, captured, from, to, after[i]) {
      assert Hits(k, root, from, to, after[i]);
    }
  }

  lemma CapturedHitsAreJustified(k: Kernel, root: Target, captured: seq<Descendants.Captured<Identity>>, from: nat,
                                 mid: nat, to: nat,
                                 before: seq<Delivery>, struck: seq<Delivery>, after: seq<Delivery>)
    requires AllJustified(k, root, captured, from, mid, before, struck) && from <= mid <= to
    requires OnlyHitsCaptured(k, captured, |captured|, mid, to, struck, after)
    ensures AllJustified(k, root, captured, from, to, before, after)
  {
    forall n | |before| <= n < |after| ensures Justified(k, root, captured, from, to, after[n]) {
      if n < |struck| {
        assert after[n] == struck[n] && Justified(k, root, captured, from, mid, struck[n]);
        JustifiedLater(k, root, captured, from, mid, from, to, struck[n]);
      } else {
        assert HitsCaptured(k, captured, |captured|, mid, to, after[n]);
        JustifiedLater(k, root, captured, mid, to, from, to, after[n]);
      }
    }
  }

  lemma JustifiedLater(k: Kernel, root: Target, captured: seq<Descendants.Captured<Identity>>, from: nat, to: nat,
                       from': nat, to': nat, d: Delivery)
    requires Justified(k, root, captured, from, to, d) && from' <= from && to <= to'
    ensures Justified(k, root, captured, from', to', d)
  {
    if i :| 0 <= i < |captured| && Hits(k, TargetIn(captured[i]), from, to, d) {
      assert Hits(k, TargetIn(captured[i]), from', to', d);
    }
  }

  /**
   * A stranger is not justified: neither one whose pid was not captured, nor one
   * that took a captured pid and does not have the identity told for it then.
   */
  lemma StrangersAreNotJustified(k: Kernel, root: Target, listings: seq<Listing>, asked: seq<Query>,
                                 captured: seq<Descendants.Captured<Identity>>, capturedBy: nat, to: nat, d: Delivery)
    requires k.hasPidFds && Attributed(k, root.pid, listings, asked, captured, capturedBy) && d.pid != root.pid
    requires |listings| == 2 ==>
               forall c: Descendants.Captured<Identity> ::
                 c.pid == d.pid && Recorded(asked, root.pid, listings[0], listings[1], c) ==>
                   !Is(k.bootId, TargetIn(c), d.process)
    ensures !Justified(k, root, captured, capturedBy, to, d)
  {
    forall i | 0 <= i < |captured| ensures !Hits(k, TargetIn(captured[i]), capturedBy, to, d) {
      assert Recorded(asked, root.pid, listings[0], listings[1], captured[i]);
    }
  }

  /** What was told right after the listings is not changed by later queries. */
  lemma CapturesStay(k: Kernel, root: Pid, first: Listing, second: Listing, asked: seq<Query>, later: seq<Query>,
                     captured: seq<Descendants.Captured<Identity>>, to: nat)
    requires Captures(k, root, first, second, asked, captured, to) && asked <= later
    requires Told(root, first, asked) && Told(root, second, asked)
    ensures Captures(k, root, first, second, later, captured, to)
  {
    assert Look(later, first.asked, |Below(first.parents, root)|) ==
        Look(asked, first.asked, |Below(first.parents, root)|);
    assert Look(later, second.asked, |Below(second.parents, root)|) ==
        Look(asked, second.asked, |Below(second.parents, root)|);
    forall c ensures Recorded(later, root, first, second, c) <==> Recorded(asked, root, first, second, c) {
    }
  }

  /**
   * `reap_record`. Success means that the recorded root is dead, whatever became
   * of the kill call; every signal on the way goes to the root or to a captured
   * descendant.
   */
  method ReapRecord(k: Kernel, record: RecordCodec.EpochPidRecord)
    returns (r: Result<Outcome>, ghost captured: seq<Descendants.Captured<Identity>>, ghost capturedBy: nat)
    requires WellFormed(k.world)
    modifies k
    ensures k.now >= capturedBy >= old(k.now)
    ensures r.Ok? ==> r.value != Outcome.NotFound && AllDead(k, TargetOf(record), old(k.now), k.now)
    ensures old(k.listings) <= k.listings
    ensures Attributed(k, record.pid, k.listings[|old(k.listings)|..], k.asked, captured, capturedBy)
    ensures AllJustified(k, TargetOf(record), captured, capturedBy, k.now, old(k.delivered), k.delivered)
  {
    var root := TargetOf(record);
    var identity := IdentityForReap(k, root.pid);
    captured, capturedBy := [], k.now;
    if identity.Err? {
      r := Err(identity.kind);
      return;
    }
    if identity.value.None? {
      VacatedMeansDead(k, root, old(k.now), old(k.now), k.now);
      r := Ok(AlreadyExited);
      return;
    }
    if identity.value.value != root.identity {
      r := Err(PermissionDenied);
      return;
    }
    r, captured, capturedBy := ReapOwned(k, root, old(k.now));
  }

  /** The root is the recorded process: capture its descendants, kill it, and then them. */
  method ReapOwned(k: Kernel, root: Target, ghost since: nat)
    returns (r: Result<Outcome>, ghost captured: seq<Descendants.Captured<Identity>>, ghost capturedBy: nat)
    requires WellFormed(k.world) && since <= k.now
    modifies k
    ensures k.now >= capturedBy >= old(k.now)
    ensures r.Ok? ==> r.value != Outcome.NotFound && AllDead(k, root, since, k.now)
    ensures old(k.listings) <= k.listings
    ensures Attributed(k, root.pid, k.listings[|old(k.listings)|..], k.asked, captured, capturedBy)
    ensures AllJustified(k, root, captured, capturedBy, k.now, old(k.delivered), k.delivered)
  {
    var descendants := CaptureDescendants(k, root.pid);
    captured, capturedBy := descendants, k.now;
    ghost var listings, asked := k.listings[|old(k.listings)|..], k.asked;
    r := ReapRecordWithKill(k, root, false);
    RootHitsAreJustified(k, root, captured, capturedBy, k.now, old(k.delivered), k.delivered);
    if r.Ok? {
      SeenEarlier(k, root, since, capturedBy, k.now);
      ghost var rootGone, struck := k.now, k.delivered;
      r := ReapDescendants(k, descendants, r.value);
      StaysDead(k, root, since, rootGone, k.now);
      CapturedHitsAreJustified(k, root, captured, capturedBy, rootGone, k.now, old(k.delivered), struck, k.delivered);
    }
    CapturesStay(k, root.pid, listings[0], listings[1], asked, k.asked, captured, capturedBy);
  }

  lemma SeenEarlier(k: Kernel, target: Target, since: nat, later: nat, t: nat)
    requires AllDead(k, target, later, t) && since <= later
    ensures AllDead(k, target, since, t)
  {
    forall p | SeenBy(k.world, since, target.pid, p) && Is(k.bootId, target, p)
        ensures Dead(k.world, t, target.pid, p) {
      var s: nat :| s <= since && Holds(k.world, s, target.pid, p);
      assert SeenBy(k.world, later, target.pid, p);
    }
  }

  // ---- what an identity match means

  /**
   * Where start ticks agree above their low four bytes, a hit on the target is a
   * hit on the very process that was recorded.
   */
  lemma HitsTheRecordedProcess(k: Kernel, target: Target, from: nat, to: nat, d: Delivery, seen: nat, recorded: Process)
    requires WellFormed(k.world) && k.hasPidFds && Hits(k, target, from, to, d)
    requires Holds(k.world, seen, target.pid, recorded) && Is(k.bootId, target, recorded)
    requires recorded.ticks / 0x1_0000_0000 == d.process.ticks / 0x1_0000_0000
    ensures d.process == recorded
  {
    IdentityIsUnique(k.world, k.bootId, target.pid, seen, recorded, d.at, d.process);
  }

  /**
   * Without handles the pid can change hands between the validation and the
   * signal: a run of the fallback that validates its target and hits another
   * process, of another identity.
   */
  lemma FallbackWindow(bootId: seq<Byte>, pid: Pid) returns (w: Timeline, target: Target, d: Delivery)
    ensures WellFormed(w) && pid in w(0) && Running(w, 0, pid, w(0)[pid].process) && target.pid == pid
    ensures FallbackSignal(w, bootId, target, 0, 0, 0, 1) == Some(d)
    ensures Running(w, 1, pid, d.process) && !Is(bootId, target, d.process)
  {
    var validated, stranger := Process(0, 5, Some([97])), Process(1, 6, Some([98]));
    w := Handover(pid, validated, stranger);
    HandoverIsWellFormed(pid, validated, stranger);
    target := Target(pid, IdentityOf(bootId, validated).value);
    d := Delivery(1, pid, stranger);
  }

  /** One process holds the pid at first, another from the next moment on. */
  function Handover(pid: Pid, one: Process, other: Process): Timeline {
    t => map[pid := Slot(if t == 0 then one else other, false)]
  }

  lemma HandoverIsWellFormed(pid: Pid, one: Process, other: Process)
    requires one.ticks != other.ticks
    ensures WellFormed(Handover(pid, one, other))
  {
  }
}
