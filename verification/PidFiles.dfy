/**
 * The epoch pid file around the reaper: a record is removed only when what it
 * names is dead, and nothing is signalled on the word of a record that does not
 * belong where it was found. One process uses the file at a time here.
 */
module PidFiles {
  import opened Basics
  import opened Processes
  import opened Reaper
  import RecordCodec
  import Descendants

  type Path = seq<Byte>

  type EpochPidRecord = RecordCodec.EpochPidRecord

  /** What a name refers to; a regular file may not even be UTF-8. */
  datatype FileState = Absent | Irregular | Regular(text: Option<string>)

  function RecordIn(state: FileState): Option<EpochPidRecord> {
    match state
    case Regular(Some(raw)) => (match RecordCodec.Parse(raw) case Ok(r) => Some(r) case Err(_) => None)
    case _ => None
  }

  method Fault() returns (fault: Option<ErrorKind>)
  {
    fault := *;
  }

  class PidFile {
    var state: FileState

    constructor (state: FileState)
      ensures this.state == state
    {
      this.state := state;
    }

    /** `read_epoch_pid_file`. */
    method Read() returns (r: Result<Option<EpochPidRecord>>)
      ensures r.Ok? ==> r.value == RecordIn(state) && (r.value.None? ==> state == Absent)
    {
      var fault := Fault();
      if fault.Some? {
        return Err(fault.value);
      }
      match state {
        case Absent => r := Ok(None);
        case Irregular => r := Err(InvalidInput);
        case Regular(None) => r := Err(InvalidData);
        case Regular(Some(raw)) =>
          var parsed := RecordCodec.ParseEpochRecord(raw);
          r := match parsed case Ok(record) => Ok(Some(record)) case Err(kind) => Err(kind);
      }
    }

    /** `validate_pid_target` and `validate_runtime_target`: absent or a regular file. */
    method ValidateTarget() returns (r: Result<()>)
      ensures r.Ok? ==> state != Irregular
    {
      var fault := Fault();
      r := if fault.Some? then Err(fault.value) else if state == Irregular then Err(InvalidInput) else Ok(());
    }

    method Remove() returns (r: Result<()>)
      modifies this
      ensures if r.Ok? then state == Absent else state == old(state)
    {
      var fault := Fault();
      if fault.Some? && fault.value != ErrorKind.NotFound {
        return Err(fault.value);
      }
      state := Absent;
      r := Ok(());
    }

    /** `remove_record_if_matches`: only the expected record goes, and an error leaves everything. */
    method RemoveIfMatches(expected: EpochPidRecord) returns (r: Result<()>)
      modifies this
      ensures state == if r.Ok? && RecordIn(old(state)) == Some(expected) then Absent else old(state)
    {
      var current := Read();
      if current.Err? {
        return Err(current.kind);
      }
      if current.value != Some(expected) {
        return Ok(());
      }
      r := Remove();
    }

    /**
     * `write_epoch_record`, undisturbed: never over an existing file. An error
     * does not say that nothing was published.
     */
    method Write(record: EpochPidRecord) returns (r: Result<()>)
      modifies this
      ensures old(state) != Absent ==> r.Err? && state == old(state)
      ensures state != old(state) ==> RecordIn(state) == Some(record)
      ensures r.Ok? ==> RecordIn(state) == Some(record)
    {
      var target := ValidateTarget();
      if target.Err? {
        return target;
      }
      if state != Absent {
        return Err(AlreadyExists);
      }
      var text := RecordCodec.Serialize(record);
      var beforeLink := Fault();
      if text.Err? || beforeLink.Some? {
        return Err(if text.Err? then text.kind else beforeLink.value);
      }
      RecordCodec.RoundTrip(record);
      state := Regular(Some(text.value));
      var unlink := Fault();
      r := if unlink.Some? then Err(unlink.value) else Ok(());
    }
  }

  /** The path operations of the standard library and `canonicalize`, as they answer here. */
  datatype Paths = Paths(
    parent: Path -> Option<Path>,
    fileName: Path -> Option<string>,
    canonical: Path -> Result<Path>,
    join: (Path, string) -> Path)

  function CanonicalParent(fs: Paths, path: Path): Result<Path> {
    match fs.parent(path) case Some(dir) => fs.canonical(dir) case None => Err(InvalidInput)
  }

  function PidEpoch(fs: Paths, path: Path): Result<nat> {
    match RecordCodec.EpochFromFileName(fs.fileName(path), "core-", ".pid") case Ok(e) => Ok(e) case Err(k) => Err(k)
  }

  function ConfigEpoch(fs: Paths, path: Path): Result<nat> {
    match RecordCodec.EpochFromFileName(fs.fileName(path), "config-", ".yaml") case Ok(e) => Ok(e) case Err(k) => Err(k)
  }

  /** The record lies in the runtime directory, and so does its configuration, all of one epoch. */
  predicate Belongs(fs: Paths, path: Path, runtimeDir: Path, record: EpochPidRecord) {
    && fs.canonical(runtimeDir).Ok?
    && CanonicalParent(fs, path) == fs.canonical(runtimeDir) == CanonicalParent(fs, record.runtimeConfig)
    && PidEpoch(fs, path) == Ok(record.epoch) == ConfigEpoch(fs, record.runtimeConfig)
  }

  /** Whoever appeared under the record's identity by `since` is dead at `t`. */
  ghost predicate RecordDead(k: Kernel, record: EpochPidRecord, since: nat, t: nat) {
    AllDead(k, TargetOf(record), since, t)
  }

  /** `reap_epoch_pid_file`. */
  method ReapEpochPidFile(k: Kernel, file: PidFile, config: PidFile, fs: Paths, path: Path, runtimeDir: Path)
    returns (r: Result<Outcome>, ghost captured: seq<Descendants.Captured<Identity>>, ghost capturedBy: nat)
    requires WellFormed(k.world) && file != config
    modifies k, file
    ensures r.Err? ==> file.state == old(file.state)
    ensures r.Ok? ==> file.state == Absent && (r.value == Outcome.NotFound <==> old(file.state) == Absent)
    ensures file.state != old(file.state) ==>
              RecordIn(old(file.state)).Some? && RecordDead(k, RecordIn(old(file.state)).value, old(k.now), k.now)
    ensures file.state != old(file.state) || k.delivered != old(k.delivered) ==>
              RecordIn(old(file.state)).Some? && Belongs(fs, path, runtimeDir, RecordIn(old(file.state)).value)
    ensures old(k.listings) <= k.listings && old(k.delivered) <= k.delivered && k.now >= capturedBy >= old(k.now)
    ensures RecordIn(old(file.state)).Some? ==>
              var root := TargetOf(RecordIn(old(file.state)).value);
              && Attributed(k, root.pid, k.listings[|old(k.listings)|..], k.asked, captured, capturedBy)
              && AllJustified(k, root, captured, capturedBy, k.now, old(k.delivered), k.delivered)
  {
    captured, capturedBy := [], k.now;
    var dir := fs.canonical(runtimeDir);
    if dir.Err? {
      r := Err(dir.kind);
      return;
    }
    var parent := CanonicalParent(fs, path);
    if parent != dir {
      r := Err(if parent.Err? then parent.kind else InvalidInput);
      return;
    }
    var epoch := PidEpoch(fs, path);
    if epoch.Err? {
      r := Err(epoch.kind);
      return;
    }
    var read := file.Read();
    if read.Err? {
      r := Err(read.kind);
      return;
    }
    if read.value.None? {
      r := Ok(Outcome.NotFound);
      return;
    }
    var record := read.value.value;
    if record.epoch != epoch.value {
      r := Err(InvalidData);
      return;
    }
    var runtimeParent := CanonicalParent(fs, record.runtimeConfig);
    if runtimeParent != dir {
      r := Err(if runtimeParent.Err? then runtimeParent.kind else InvalidInput);
      return;
    }
    var runtimeEpoch := ConfigEpoch(fs, record.runtimeConfig);
    if runtimeEpoch != epoch {
      r := Err(if runtimeEpoch.Err? then runtimeEpoch.kind else InvalidData);
      return;
    }
    var target := config.ValidateTarget();
    if target.Err? {
      r := Err(target.kind);
      return;
    }
    r, captured, capturedBy := ReapRecord(k, record);
    if r.Err? {
      return;
    }
    var removed := file.RemoveIfMatches(record);
    if removed.Err? {
      r := Err(removed.kind);
    }
  }

  datatype EpochPidFile = EpochPidFile(path: Path, epoch: RecordCodec.U64, runtimeConfig: Path)

  /** `normalize_epoch_spec`. */
  method NormalizeEpochSpec(fs: Paths, config: PidFile, spec: EpochPidFile) returns (r: Result<EpochPidFile>)
    ensures r.Ok? ==>
              && PidEpoch(fs, spec.path) == Ok(spec.epoch) == ConfigEpoch(fs, spec.runtimeConfig)
              && CanonicalParent(fs, spec.path) == CanonicalParent(fs, spec.runtimeConfig)
              && CanonicalParent(fs, spec.path).Ok?
              && r.value == Normalized(fs, CanonicalParent(fs, spec.path).value, spec.epoch)
  {
    var pidEpoch, configEpoch := PidEpoch(fs, spec.path), ConfigEpoch(fs, spec.runtimeConfig);
    if pidEpoch != Ok(spec.epoch) || configEpoch != Ok(spec.epoch) {
      return Err(InvalidInput);
    }
    var pidParent, configParent := CanonicalParent(fs, spec.path), CanonicalParent(fs, spec.runtimeConfig);
    if pidParent.Err? || configParent.Err? {
      return Err(if pidParent.Err? then pidParent.kind else configParent.kind);
    }
    if pidParent.value != configParent.value {
      return Err(InvalidInput);
    }
    var target := config.ValidateTarget();
    if target.Err? {
      return Err(target.kind);
    }
    r := Ok(Normalized(fs, pidParent.value, spec.epoch));
  }

  function Normalized(fs: Paths, dir: Path, epoch: RecordCodec.U64): EpochPidFile {
    EpochPidFile(fs.join(dir, RecordCodec.EpochFileName("core-", epoch, ".pid")), epoch,
                 fs.join(dir, RecordCodec.EpochFileName("config-", epoch, ".yaml")))
  }

  /** `validate_record_for_spec`. */
  predicate FitsSpec(record: EpochPidRecord, spec: EpochPidFile, expectedExe: seq<Byte>) {
    record.epoch == spec.epoch && record.runtimeConfig == spec.runtimeConfig && record.executable == expectedExe
  }

  /** The epoch variant of `PidFileGuard`. */
  class PidFileGuard {
    const spec: EpochPidFile
    const expectedExe: seq<Byte>
    var record: Option<EpochPidRecord>

    constructor (spec: EpochPidFile, expectedExe: seq<Byte>)
      ensures this.spec == spec && this.expectedExe == expectedExe && record == None
    {
      this.spec, this.expectedExe, record := spec, expectedExe, None;
    }

    /** `write`: record the identity of the spawned child, once it can be read. */
    method Write(k: Kernel, file: PidFile, pid: RecordCodec.U32) returns (r: Result<()>)
      requires WellFormed(k.world)
      modifies k, file, this
      ensures old(file.state) != Absent ==> file.state == old(file.state) && r.Err?
      ensures r.Ok? ==> record.Some? && RecordIn(file.state) == record
      ensures r.Err? ==> record == old(record)
      ensures file.state != old(file.state) ==>
                && RecordIn(file.state).Some?
                && RecordIn(file.state).value.pid == pid
                && FitsSpec(RecordIn(file.state).value, spec, expectedExe)
                && Observed(k, TargetOf(RecordIn(file.state).value), old(k.now), k.now)
    {
      var waited := WaitForProcessIdentity(k, pid);
      if waited.Err? {
        return Err(waited.kind);
      }
      if waited.value.None? || waited.value.value.executable != expectedExe {
        return Err(PermissionDenied);
      }
      var identity := waited.value.value;
      var value := RecordCodec.EpochPidRecord(pid, spec.epoch, identity.executable, identity.startToken,
          spec.runtimeConfig);
      r := file.Write(value);
      if r.Ok? {
        record := Some(value);
      }
    }

    /** `cleanup`: removes this guard's own record and no other. */
    method Cleanup(file: PidFile)
      modifies file
      ensures file.state != old(file.state) ==>
                file.state == Absent && record.Some? && RecordIn(old(file.state)) == record
    {
      match record {
        case None =>
        case Some(value) => var _ := file.RemoveIfMatches(value);
      }
    }
  }

  /** `prepare_epoch`: a leftover of the same epoch is reaped before its record is replaced. */
  method PrepareEpoch(k: Kernel, file: PidFile, config: PidFile, fs: Paths, spec: EpochPidFile, expectedExe: seq<Byte>)
    returns (r: Result<PidFileGuard>, ghost captured: seq<Descendants.Captured<Identity>>, ghost capturedBy: nat)
    requires WellFormed(k.world) && file != config
    modifies k, file
    ensures r.Err? ==> file.state == old(file.state)
    ensures r.Ok? ==> file.state == Absent && r.value.record == None && r.value.expectedExe == expectedExe
    ensures file.state != old(file.state) ==>
              && RecordIn(old(file.state)).Some?
              && RecordDead(k, RecordIn(old(file.state)).value, old(k.now), k.now)
    ensures file.state != old(file.state) || k.delivered != old(k.delivered) ==>
              && CanonicalParent(fs, spec.path).Ok?
              && RecordIn(old(file.state)).Some?
              && FitsSpec(RecordIn(old(file.state)).value,
                    Normalized(fs, CanonicalParent(fs, spec.path).value, spec.epoch), expectedExe)
    ensures old(k.listings) <= k.listings && old(k.delivered) <= k.delivered && k.now >= capturedBy >= old(k.now)
    ensures RecordIn(old(file.state)).Some? ==>
              var root := TargetOf(RecordIn(old(file.state)).value);
              && Attributed(k, root.pid, k.listings[|old(k.listings)|..], k.asked, captured, capturedBy)
              && AllJustified(k, root, captured, capturedBy, k.now, old(k.delivered), k.delivered)
  {
    captured, capturedBy := [], k.now;
    var normalized := NormalizeEpochSpec(fs, config, spec);
    if normalized.Err? {
      r := Err(normalized.kind);
      return;
    }
    var target := file.ValidateTarget();
    if target.Err? {
      r := Err(target.kind);
      return;
    }
    var read := file.Read();
    if read.Err? {
      r := Err(read.kind);
      return;
    }
    if read.value.Some? {
      var record := read.value.value;
      if !FitsSpec(record, normalized.value, expectedExe) {
        r := Err(PermissionDenied);
        return;
      }
      var reaped;
      reaped, captured, capturedBy := ReapRecord(k, record);
      if reaped.Err? {
        r := Err(reaped.kind);
        return;
      }
      var removed := file.RemoveIfMatches(record);
      if removed.Err? {
        r := Err(removed.kind);
        return;
      }
    }
    var guard := new PidFileGuard(normalized.value, expectedExe);
    r := Ok(guard);
  }

  /** `wait_for_process_identity`: also waits for a process that is not there yet. */
  method WaitForProcessIdentity(k: Kernel, pid: Pid) returns (r: Result<Option<Identity>>)
    requires WellFormed(k.world)
    modifies k`now, k`asked
    ensures k.now >= old(k.now)
    ensures r.Ok? && r.value.Some? ==> Observed(k, Target(pid, r.value.value), old(k.now), k.now)
  {
    var accessError: Option<ErrorKind> := None;
    for attempt := 0 to IDENTITY_WAIT_ATTEMPTS
      invariant k.now >= old(k.now)
    {
      ghost var mid := k.now;
      r := ProcessIdentity(k, pid);
      AnswersWiden(k, pid, r, old(k.now), mid, k.now);
      match r {
        case Ok(Some(_)) => return;
        case Ok(None) =>
        case Err(kind) =>
          if !Provisional(kind) {
            return;
          }
          accessError := Some(kind);
      }
      if attempt + 1 < IDENTITY_WAIT_ATTEMPTS {
        k.Pass();
      }
    }
    r := if accessError.Some? then Err(accessError.value) else Ok(None);
  }

  /** The process whose identity was recorded is dead once a later reap has removed the record. */
  lemma RecordedProcessIsDead(k: Kernel, record: EpochPidRecord, from: nat, recordedBy: nat, reapedFrom: nat, t: nat,
                              at: nat, p: Process)
    requires Witness(k, TargetOf(record), from, recordedBy, at, p)
    requires recordedBy <= reapedFrom && RecordDead(k, record, reapedFrom, t)
    ensures Dead(k.world, t, record.pid, p)
  {
    assert SeenBy(k.world, reapedFrom, record.pid, p);
  }

  /** A reap of a file known to hold this record. */
  method ReapRecorded(k: Kernel, file: PidFile, config: PidFile, fs: Paths, path: Path, runtimeDir: Path,
                      ghost record: EpochPidRecord)
    returns (reaped: Result<Outcome>)
    requires WellFormed(k.world) && file != config && RecordIn(file.state).Some? && RecordIn(file.state).value == record
    modifies k, file
    ensures k.now >= old(k.now)
    ensures if reaped.Ok? then file.state == Absent && reaped.value != Outcome.NotFound
              else file.state == old(file.state)
    ensures reaped.Ok? ==> RecordDead(k, record, old(k.now), k.now)
  {
    ghost var captured, capturedBy;
    reaped, captured, capturedBy := ReapEpochPidFile(k, file, config, fs, path, runtimeDir);
  }

  /**
   * From publication to reaping: a child is recorded, time passes, and somebody
   * later reaps the file. When both succeed, the process whose identity was
   * recorded is dead, and so is everyone who carried that identity by then; the
   * file is gone.
   */
  method RecordThenReap(k: Kernel, guard: PidFileGuard, file: PidFile, config: PidFile, fs: Paths, path: Path,
                        runtimeDir: Path, pid: RecordCodec.U32)
    returns (recorded: Result<()>, reaped: Result<Outcome>)
    requires WellFormed(k.world) && file != config
    modifies k, file, guard
    ensures recorded.Ok? && reaped.Ok? ==>
              && old(file.state) == Absent && file.state == Absent && guard.record.Some?
                    && guard.record.value.pid == pid
              && reaped.value != Outcome.NotFound && RecordedAndDead(k, guard.record.value, old(k.now), k.now)
    ensures recorded.Ok? && reaped.Err? ==> guard.record.Some? && RecordIn(file.state) == guard.record
  {
    recorded := guard.Write(k, file, pid);
    reaped := Err(Other);
    if recorded.Ok? {
      ghost var record, recordedBy := guard.record.value, k.now;
      k.Pass();
      ghost var reapedFrom := k.now;
      reaped := ReapRecorded(k, file, config, fs, path, runtimeDir, record);
      if reaped.Ok? {
        RecordedIsDead(k, record, old(k.now), recordedBy, reapedFrom, k.now);
      }
    }
  }

  /**
   * A process with the recorded identity ran at some moment since then, and all
   * such that appeared by that time are dead.
   */
  ghost predicate RecordedAndDead(k: Kernel, record: EpochPidRecord, since: nat, t: nat) {
    exists at: nat, p :: Witness(k, TargetOf(record), since, t, at, p) && Dead(k.world, t, record.pid, p)
                         && AllDead(k, TargetOf(record), at, t)
  }

  lemma RecordedIsDead(k: Kernel, record: EpochPidRecord, from: nat, recordedBy: nat, reapedFrom: nat, t: nat)
    requires Observed(k, TargetOf(record), from, recordedBy) && recordedBy <= reapedFrom <= t
    requires RecordDead(k, record, reapedFrom, t)
    ensures RecordedAndDead(k, record, from, t)
  {
    var at: nat, p :| Witness(k, TargetOf(record), from, recordedBy, at, p);
    RecordedProcessIsDead(k, record, from, recordedBy, reapedFrom, t, at, p);
    SeenEarlier(k, TargetOf(record), at, reapedFrom, t);
    assert Witness(k, TargetOf(record), from, t, at, p);
  }
}
