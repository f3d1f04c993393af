/**
 * A world of processes in which pids die and are reused at any moment, and what
 * the `/proc` reads and signals of the Linux path can see and do in it.
 */
module Processes {
  import opened Basics
  import RecordCodec
  import StartToken

  type Pid = nat

  /**
   * One incarnation of a pid. `number` tells incarnations apart; the start ticks
   * and the executable's base name (absent when it is not UTF-8) never change.
   */
  datatype Process = Process(number: nat, ticks: StartToken.U64, exe: Option<RecordCodec.Utf8>)

  /** A zombie keeps its pid and its `stat` file, but runs no longer. */
  datatype Slot = Slot(process: Process, zombie: bool)

  /** The process table at every moment. */
  type Timeline = nat -> map<Pid, Slot>

  ghost predicate Holds(w: Timeline, t: nat, pid: Pid, p: Process) {
    pid in w(t) && w(t)[pid].process == p
  }

  ghost predicate Running(w: Timeline, t: nat, pid: Pid, p: Process) {
    Holds(w, t, pid, p) && !w(t)[pid].zombie
  }

  /** The process runs neither at `t` nor ever again. */
  ghost predicate Dead(w: Timeline, t: nat, pid: Pid, p: Process) {
    forall u: nat :: u >= t ==> !Running(w, u, pid, p)
  }

  ghost predicate SeenBy(w: Timeline, t: nat, pid: Pid, p: Process) {
    exists s: nat :: s <= t && Holds(w, s, pid, p)
  }

  /** A process that left its pid does not return to it. */
  ghost predicate NoReturn(w: Timeline) {
    forall s: nat, t: nat, u: nat, pid, p ::
      s <= t <= u && Holds(w, s, pid, p) && Holds(w, u, pid, p) ==> Holds(w, t, pid, p)
  }

  ghost predicate ZombiesStay(w: Timeline) {
    forall s: nat, t: nat, pid, p :: s <= t && Holds(w, s, pid, p) && Running(w, t, pid, p) ==> Running(w, s, pid, p)
  }

  /** Two incarnations of one pid have different start ticks. */
  ghost predicate TicksTell(w: Timeline) {
    forall s: nat, t: nat, pid, p, q :: Holds(w, s, pid, p) && Holds(w, t, pid, q) && p.ticks == q.ticks ==> p == q
  }

  ghost predicate WellFormed(w: Timeline) {
    NoReturn(w) && ZombiesStay(w) && TicksTell(w)
  }

  /** Not running now and seen before: dead for good. */
  lemma DeadFrom(w: Timeline, seen: nat, t: nat, pid: Pid, p: Process)
    requires WellFormed(w) && seen <= t && Holds(w, seen, pid, p) && !Running(w, t, pid, p)
    ensures Dead(w, t, pid, p)
  {
    forall u: nat | u >= t ensures !Running(w, u, pid, p) {
      assert Running(w, u, pid, p) ==> Holds(w, t, pid, p);
    }
  }

  /** Everything seen under the pid by `seen` that does not run at `t` is dead from `t` on. */
  lemma AllDeadFrom(w: Timeline, seen: nat, t: nat, pid: Pid)
    requires WellFormed(w) && seen <= t
    ensures forall p :: SeenBy(w, seen, pid, p) && !Running(w, t, pid, p) ==> Dead(w, t, pid, p)
  {
    forall p | SeenBy(w, seen, pid, p) && !Running(w, t, pid, p) ensures Dead(w, t, pid, p) {
      var s: nat :| s <= seen && Holds(w, s, pid, p);
      DeadFrom(w, s, t, pid, p);
    }
  }

  // ---- identities

  datatype Identity = Identity(executable: RecordCodec.Utf8, startToken: StartToken.U64)

  function IdentityOf(bootId: seq<Byte>, p: Process): Option<Identity> {
    if p.exe.Some? then Some(Identity(p.exe.value, StartToken.Token(bootId, p.ticks))) else None
  }

  /**
   * While start ticks stay below 2^32, or agree above it, an identity belongs to
   * one incarnation of its pid only.
   */
  lemma IdentityIsUnique(w: Timeline, bootId: seq<Byte>, pid: Pid, s: nat, p: Process, t: nat, q: Process)
    requires WellFormed(w) && Holds(w, s, pid, p) && Holds(w, t, pid, q)
    requires IdentityOf(bootId, p).Some? && IdentityOf(bootId, p) == IdentityOf(bootId, q)
    requires p.ticks / 0x1_0000_0000 == q.ticks / 0x1_0000_0000
    ensures p == q
  {
    StartToken.TicksSeparate(bootId, p.ticks, q.ticks);
  }

  /** A signal that reached a process. */
  datatype Delivery = Delivery(at: nat, pid: Pid, process: Process)

  /** A process listing, when it was made, and how many identities had been asked for by then. */
  datatype Listing = Listing(at: nat, parents: map<Pid, Pid>, asked: nat)

  /** An identity query and its answer. */
  datatype Query = Query(pid: Pid, answer: Result<Option<Identity>>)

  datatype PidFd = PidFd(pid: Pid, process: Process)

  /**
   * The system calls of the reaper. Before each of them any amount of time may
   * pass, and each of them may fail for reasons of its own. Signals delivered,
   * listings made and identities asked for are remembered.
   */
  class Kernel {
    const world: Timeline
    const bootId: seq<Byte>
    const hasPidFds: bool
    var now: nat
    ghost var delivered: seq<Delivery>
    ghost var listings: seq<Listing>
    ghost var asked: seq<Query>

    constructor (world: Timeline, bootId: seq<Byte>, hasPidFds: bool)
      ensures this.world == world && this.bootId == bootId && this.hasPidFds == hasPidFds
      ensures delivered == [] && listings == [] && asked == []
    {
      this.world, this.bootId, this.hasPidFds := world, bootId, hasPidFds;
      now, delivered, listings, asked := 0, [], [], [];
    }

    method Pass()
      modifies `now
      ensures now >= old(now)
    {
      var d: int := *;
      if d > 0 {
        now := now + d;
      }
    }

    /** Whether a call fails for a reason outside this model. */
    method Fault() returns (fault: Option<ErrorKind>)
    {
      fault := *;
    }

    /** `linux_start_ticks`: `None` when `/proc/pid/stat` does not exist. */
    method StartTicks(pid: Pid) returns (r: Result<Option<StartToken.U64>>)
      modifies `now
      ensures now >= old(now)
      ensures r.Ok? ==> r.value == if pid in world(now) then Some(world(now)[pid].process.ticks) else None
    {
      Pass();
      var fault := Fault();
      if fault.Some? {
        return Err(fault.value);
      }
      r := Ok(if pid in world(now) then Some(world(now)[pid].process.ticks) else None);
    }

    /** `readlink /proc/pid/exe`: gone for a zombie; the base name may not be UTF-8. */
    method ReadExe(pid: Pid) returns (r: Result<Option<Option<RecordCodec.Utf8>>>)
      modifies `now
      ensures now >= old(now)
      ensures r.Ok? ==>
                if pid in world(now) && !world(now)[pid].zombie then r.value == Some(world(now)[pid].process.exe)
                else r.value == None
    {
      Pass();
      var fault := Fault();
      if fault.Some? {
        return Err(fault.value);
      }
      r := Ok(if pid in world(now) && !world(now)[pid].zombie then Some(world(now)[pid].process.exe) else None);
    }

    method ReadBootId() returns (r: Result<seq<Byte>>)
      modifies `now
      ensures now >= old(now)
      ensures r.Ok? ==> r.value == bootId
    {
      Pass();
      var fault := Fault();
      r := if fault.Some? then Err(fault.value) else Ok(bootId);
    }

    /** A process listing: any relation between pids and parents. */
    method List() returns (parents: map<Pid, Pid>)
      modifies `now, `listings
      ensures now >= old(now)
      ensures listings == old(listings) + [Listing(now, parents, |asked|)]
    {
      Pass();
      parents := *;
      listings := listings + [Listing(now, parents, |asked|)];
    }

    /** `pidfd_open`: a handle on the incarnation that holds the pid at this moment. */
    method PidFdOpen(pid: Pid) returns (r: Result<PidFd>)
      modifies `now
      ensures now >= old(now)
      ensures r == Err(Unsupported) <==> !hasPidFds
      ensures r.Ok? ==> r.value.pid == pid && Holds(world, now, pid, r.value.process)
    {
      Pass();
      var fault := Fault();
      if !hasPidFds {
        r := Err(Unsupported);
      } else if fault.Some? {
        r := Err(if fault.value.Unsupported? then Other else fault.value);
      } else {
        r := if pid in world(now) then Ok(PidFd(pid, world(now)[pid].process)) else Err(Other);
      }
    }

    /** `LinuxPidFd::kill`: reaches the handle's own incarnation or nothing; `ESRCH` counts as success. */
    method PidFdKill(fd: PidFd) returns (r: Result<()>)
      modifies `now, `delivered
      ensures now >= old(now)
      ensures delivered == old(delivered) ||
              (delivered == old(delivered) + [Delivery(now, fd.pid, fd.process)]
                  && Holds(world, now, fd.pid, fd.process))
      ensures r.Ok? && Holds(world, now, fd.pid, fd.process) ==> |delivered| == |old(delivered)| + 1
    {
      Pass();
      var fault := Fault();
      if fault.Some? {
        return Err(fault.value);
      }
      if fd.pid in world(now) && world(now)[fd.pid].process == fd.process {
        delivered := delivered + [Delivery(now, fd.pid, fd.process)];
      }
      r := Ok(());
    }

    /** `kill(2)` by number: reaches whichever incarnation holds the pid at this moment. */
    method KillByPid(pid: Pid) returns (r: Result<()>)
      modifies `now, `delivered
      ensures now >= old(now)
      ensures delivered == old(delivered) ||
              (pid in world(now) && delivered == old(delivered) + [Delivery(now, pid, world(now)[pid].process)])
      ensures r.Ok? ==> |delivered| == |old(delivered)| + 1
    {
      Pass();
      var fault := Fault();
      if fault.Some? {
        return Err(fault.value);
      }
      if pid !in world(now) {
        return Err(Other);
      }
      delivered := delivered + [Delivery(now, pid, world(now)[pid].process)];
      r := Ok(());
    }
  }
}
