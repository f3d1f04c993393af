/**
 * Publishing epoch records: any number of publishers run `write_epoch_record`
 * against one directory, interleaved at every system call. A publisher, or the
 * whole machine, may stop between any two steps.
 */
module Publication {
  import opened Basics
  import RecordCodec

  /** The record's own name, and the staging names built from a process id and a counter. */
  datatype Name = Target | Staging(process: nat, counter: nat)

  type Ino = nat

  /** `synced` is what has reached the disk. */
  datatype Inode = Inode(content: string, synced: string)

  datatype Dir = Dir(names: map<Name, Ino>, inodes: map<Ino, Inode>)

  // ---- directory operations

  predicate Fresh(dir: Dir, ino: Ino) {
    ino !in dir.inodes && forall n <- dir.names :: dir.names[n] != ino
  }

  function Link(dir: Dir, source: Name, target: Name): Result<Dir> {
    if source !in dir.names then Err(NotFound)
    else if target in dir.names then Err(AlreadyExists)
    else Ok(dir.(names := dir.names[target := dir.names[source]]))
  }

  function Unlink(dir: Dir, name: Name): Dir {
    dir.(names := dir.names - {name})
  }

  /** `hard_link`, or its failure for a reason outside this model. */
  function TryLink(dir: Dir, source: Name, target: Name, fails: bool): (Dir, Result<()>) {
    if fails then (dir, Err(Other))
    else match Link(dir, source, target) case Ok(linked) => (linked, Ok(())) case Err(kind) => (dir, Err(kind))
  }

  /** `remove_file`, likewise. */
  function TryUnlink(dir: Dir, name: Name, fails: bool): (Dir, Result<()>) {
    if fails then (dir, Err(Other)) else if name !in dir.names then (dir, Err(NotFound))
        else (Unlink(dir, name), Ok(()))
  }

  /** Link, then unlink what was linked. */
  function Moved(dir: Dir, source: Name, target: Name, linkFails: bool, unlinkFails: bool): (Dir, Result<()>) {
    var (linked, r) := TryLink(dir, source, target, linkFails);
    if r.Err? then (linked, r) else TryUnlink(linked, source, unlinkFails)
  }

  class Directory {
    var dir: Dir

    constructor (dir: Dir)
      ensures this.dir == dir
    {
      this.dir := dir;
    }

    method Fault() returns (fault: bool)
    {
      fault := *;
    }

    method HardLink(source: Name, target: Name) returns (r: Result<()>, ghost fails: bool)
      modifies this
      ensures (dir, r) == TryLink(old(dir), source, target, fails)
    {
      var fault := Fault();
      fails := fault;
      if fault {
        return Err(Other), fails;
      }
      var linked := Link(dir, source, target);
      if linked.Err? {
        return Err(linked.kind), fails;
      }
      dir := linked.value;
      r := Ok(());
    }

    method RemoveFile(name: Name) returns (r: Result<()>, ghost fails: bool)
      modifies this
      ensures (dir, r) == TryUnlink(old(dir), name, fails)
    {
      var fault := Fault();
      fails := fault;
      if fault || name !in dir.names {
        return Err(if fault then Other else NotFound), fails;
      }
      dir := Unlink(dir, name);
      r := Ok(());
    }

    /**
     * Unix `atomic_move_new`: link without clobbering, then unlink. Success
     * renames; `AlreadyExists` changes nothing; any other error may already have
     * published, with both names left.
     */
    method AtomicMoveNew(source: Name, target: Name)
      returns (r: Result<()>, ghost linkFails: bool, ghost unlinkFails: bool)
      requires source != target
      modifies this
      ensures (dir, r) == Moved(old(dir), source, target, linkFails, unlinkFails)
      ensures r.Ok? ==> source in old(dir).names && target !in old(dir).names &&
                        dir.names == (old(dir).names - {source})[target := old(dir).names[source]]
      ensures r == Err(AlreadyExists) ==> dir == old(dir) && target in dir.names
      ensures r.Err? ==> dir == old(dir) || Link(old(dir), source, target) == Ok(dir)
      ensures target in old(dir).names ==> r.Err? && dir == old(dir)
      ensures dir.inodes == old(dir).inodes
    {
      unlinkFails := false;
      r, linkFails := HardLink(source, target);
      if r.Err? {
        return;
      }
      r, unlinkFails := RemoveFile(source);
    }
  }

  // ---- one publisher

  datatype Pc =
    | Start
    | Checked
    | Named
    | Writing
    | Synced
    | Linked
    | CleanUp(result: Result<()>)
    | Done(result: Result<()>)

  /** `published` records that this publisher's link succeeded, `cleanUpFailed` that its last unlink failed. */
  datatype Publisher = Publisher(
    process: nat, text: string, pc: Pc, temp: Option<Name>, ino: Ino, published: bool, cleanUpFailed: bool)

  /**
   * Have the next system call fail, write some more characters, or proceed; a
   * file created on the way gets the inode number `ino` if that is free.
   */
  datatype Action = Proceed(ino: Ino) | Fail | Write(length: nat)

  /** `counters` holds each process's `TEMP_COUNTER`. */
  datatype State = State(dir: Dir, counters: map<nat, nat>, publishers: seq<Publisher>)

  function Counter(s: State, process: nat): nat {
    if process in s.counters then s.counters[process] else 0
  }

  function Put(s: State, i: nat, dir: Dir, p: Publisher): State
    requires i < |s.publishers|
  {
    s.(dir := dir, publishers := s.publishers[i := p])
  }

  /** The next system call of publisher `i`, or its failure. */
  function Step(s: State, i: nat, a: Action): State {
    if i >= |s.publishers| then s
    else
      var p := s.publishers[i];
      match p.pc
      case Start => Check(s, i, a)
      case Checked => TakeName(s, i)
      case Named => Create(s, i, a)
      case Writing => if a.Write? then WriteSome(s, i, a.length) else Sync(s, i, a)
      case Synced => Publish(s, i, a)
      case Linked => Unstage(s, i, a)
      case CleanUp(_) => Finish(s, i, a)
      case Done(_) => s
  }

  /** `validate_pid_target` and `try_exists`. */
  function Check(s: State, i: nat, a: Action): State
    requires i < |s.publishers|
  {
    var p := s.publishers[i];
    if a.Fail? then Put(s, i, s.dir, p.(pc := Done(Err(Other))))
    else if Target in s.dir.names then Put(s, i, s.dir, p.(pc := Done(Err(AlreadyExists))))
    else Put(s, i, s.dir, p.(pc := Checked))
  }

  /** `TEMP_COUNTER.fetch_add` names the staging file. */
  function TakeName(s: State, i: nat): State
    requires i < |s.publishers|
  {
    var p := s.publishers[i];
    var c := Counter(s, p.process);
    Put(s, i, s.dir, p.(pc := Named, temp := Some(Staging(p.process, c)))).(counters := s.counters[p.process := c + 1])
  }

  /** `create_new`: exclusive, and empty. */
  function Create(s: State, i: nat, a: Action): State
    requires i < |s.publishers|
  {
    var p := s.publishers[i];
    if a.Fail? || p.temp.None? then Put(s, i, s.dir, p.(pc := CleanUp(Err(Other))))
    else if p.temp.value in s.dir.names then Put(s, i, s.dir, p.(pc := CleanUp(Err(AlreadyExists))))
    else if a.Write? || !Fresh(s.dir, a.ino) then s
    else Put(s, i, Dir(s.dir.names[p.temp.value := a.ino], s.dir.inodes[a.ino := Inode("", "")]),
        p.(pc := Writing, ino := a.ino))
  }

  /** One of the writes behind `write_all`: the file grows towards the whole text. */
  function WriteSome(s: State, i: nat, length: nat): State
    requires i < |s.publishers|
  {
    var p := s.publishers[i];
    if p.ino in s.dir.inodes && |s.dir.inodes[p.ino].content| <= length <= |p.text| then
      var inode := s.dir.inodes[p.ino].(content := p.text[..length]);
      Put(s, i, s.dir.(inodes := s.dir.inodes[p.ino := inode]), p)
    else s
  }

  /** `flush` and `sync_all`, once everything is written. */
  function Sync(s: State, i: nat, a: Action): State
    requires i < |s.publishers|
  {
    var p := s.publishers[i];
    if a.Fail? then Put(s, i, s.dir, p.(pc := CleanUp(Err(Other))))
    else if p.ino in s.dir.inodes && s.dir.inodes[p.ino].content == p.text then
      Put(s, i, s.dir.(inodes := s.dir.inodes[p.ino := Inode(p.text, p.text)]), p.(pc := Synced))
    else s
  }

  /** `hard_link` to the record's name. */
  function Publish(s: State, i: nat, a: Action): State
    requires i < |s.publishers|
  {
    var p := s.publishers[i];
    if a.Fail? || p.temp.None? then Put(s, i, s.dir, p.(pc := CleanUp(Err(Other))))
    else match Link(s.dir, p.temp.value, Target)
      case Ok(dir) => Put(s, i, dir, p.(pc := Linked, published := true))
      case Err(kind) => Put(s, i, s.dir, p.(pc := CleanUp(Err(kind))))
  }

  /** The unlink inside `atomic_move_new`. */
  function Unstage(s: State, i: nat, a: Action): State
    requires i < |s.publishers|
  {
    var p := s.publishers[i];
    if a.Fail? || p.temp.None? then Put(s, i, s.dir, p.(pc := CleanUp(Err(Other))))
    else Put(s, i, Unlink(s.dir, p.temp.value), p.(pc := CleanUp(Ok(()))))
  }

  /** The last `remove_file`, whose outcome is ignored. */
  function Finish(s: State, i: nat, a: Action): State
    requires i < |s.publishers| && s.publishers[i].pc.CleanUp?
  {
    var p := s.publishers[i];
    if a.Fail? || p.temp.None? then Put(s, i, s.dir, p.(pc := Done(p.pc.result), cleanUpFailed := true))
    else Put(s, i, Unlink(s.dir, p.temp.value), p.(pc := Done(p.pc.result)))
  }

  datatype Move = Move(publisher: nat, action: Action)

  function Run(s: State, moves: seq<Move>): State {
    if moves == [] then s
    else
      var m := moves[|moves| - 1];
      Step(Run(s, moves[..|moves| - 1]), m.publisher, m.action)
  }

  /** Where publishing begins: the record and stale staging files may or may not be there. */
  ghost predicate Init(s: State) {
    && (forall i :: 0 <= i < |s.publishers| ==>
          var p := s.publishers[i]; p.pc == Start && p.temp == None && !p.published && !p.cleanUpFailed)
    && (forall n <- s.dir.names :: s.dir.names[n] in s.dir.inodes)
    && (Target in s.dir.names ==>
          s.dir.inodes[s.dir.names[Target]].synced == s.dir.inodes[s.dir.names[Target]].content)
  }

  // ---- the invariant, relative to the directory publishing began with

  /** Still entitled to its staging name. */
  predicate Active(p: Publisher) {
    p.pc.Named? || p.pc.Writing? || p.pc.Synced? || p.pc.Linked? || p.pc.CleanUp?
  }

  predicate Staged(p: Publisher) {
    p.pc.Writing? || p.pc.Synced? || p.pc.Linked?
  }

  /** Has an inode of its own that matters. */
  predicate Owns(p: Publisher) {
    Staged(p) || p.published
  }

  ghost predicate NameOk(s: State, p: Publisher) {
    && (Active(p) ==> p.temp.Some?)
    && (p.pc.Start? || p.pc.Checked? ==> p.temp.None?)
    && (p.temp.Some? ==>
          p.temp.value.Staging? && p.temp.value.process == p.process && p.temp.value.counter < Counter(s, p.process))
  }

  ghost predicate InodeOk(dir: Dir, first: Dir, p: Publisher) {
    && (Owns(p) ==> p.ino in dir.inodes && p.ino !in first.inodes && dir.inodes[p.ino].content <= p.text)
    && (Staged(p) && p.temp.Some? ==> p.temp.value in dir.names && dir.names[p.temp.value] == p.ino)
    && (p.pc.Synced? || p.published ==> p.ino in dir.inodes && dir.inodes[p.ino] == Inode(p.text, p.text))
  }

  ghost predicate OutcomeOk(dir: Dir, first: Dir, p: Publisher) {
    && (p.published ==> Target in dir.names && dir.names[Target] == p.ino && Target !in first.names)
    && (p.pc.Linked? ==> p.published)
    && (p.published ==> p.pc.Linked? || p.pc.CleanUp? || p.pc.Done?)
    && (p.pc.CleanUp? || p.pc.Done? ==>
          (p.pc.result.Ok? ==> p.published) && (p.pc.result == Err(AlreadyExists) ==> !p.published))
    && (p.pc.Done? && p.temp.Some? && !p.cleanUpFailed ==> p.temp.value !in dir.names)
    && (!p.pc.Done? ==> !p.cleanUpFailed)
  }

  ghost predicate PublisherOk(s: State, first: Dir, p: Publisher) {
    NameOk(s, p) && InodeOk(s.dir, first, p) && OutcomeOk(s.dir, first, p)
  }

  ghost predicate Apart(p: Publisher, q: Publisher) {
    && (p.temp.Some? && q.temp.Some? ==> p.temp != q.temp)
    && (Owns(p) && Owns(q) ==> p.ino != q.ino)
    && !(p.published && q.published)
  }

  ghost predicate DirOk(s: State, first: Dir) {
    && (forall n <- s.dir.names :: s.dir.names[n] in s.dir.inodes)
    && (forall k <- first.inodes :: k in s.dir.inodes && s.dir.inodes[k] == first.inodes[k])
    && (Target in first.names ==>
          Target in s.dir.names && s.dir.names[Target] == first.names[Target] && first.names[Target] in first.inodes)
    && (Target in s.dir.names && Target !in first.names ==> HasWinner(s))
  }

  ghost predicate HasWinner(s: State) {
    exists i :: 0 <= i < |s.publishers| && s.publishers[i].published
  }

  ghost predicate Inv(s: State, first: Dir) {
    && DirOk(s, first)
    && (forall i :: 0 <= i < |s.publishers| ==> PublisherOk(s, first, s.publishers[i]))
    && (forall i, j :: 0 <= i < j < |s.publishers| ==> Apart(s.publishers[i], s.publishers[j]))
  }

  /** Publisher `i` became `p` and the directory `dir`: enough for the invariant to survive. */
  lemma Rebuild(s: State, first: Dir, i: nat, s': State)
    requires Inv(s, first) && i < |s.publishers| == |s'.publishers|
    requires forall j :: 0 <= j < |s.publishers| && j != i ==> s'.publishers[j] == s.publishers[j]
    requires DirOk(s', first) && PublisherOk(s', first, s'.publishers[i])
    requires forall j :: 0 <= j < |s.publishers| && j != i ==>
               PublisherOk(s', first, s.publishers[j]) && Apart(s'.publishers[i], s.publishers[j])
    ensures Inv(s', first)
  {
    forall j | 0 <= j < |s'.publishers| ensures PublisherOk(s', first, s'.publishers[j]) {
      if j != i { assert s'.publishers[j] == s.publishers[j]; }
    }
    forall j, k | 0 <= j < k < |s'.publishers| ensures Apart(s'.publishers[j], s'.publishers[k]) {
      if j != i && k != i {
        assert s'.publishers[j] == s.publishers[j] && s'.publishers[k] == s.publishers[k];
      } else if j == i {
        assert s'.publishers[k] == s.publishers[k];
      } else {
        assert s'.publishers[j] == s.publishers[j];
      }
    }
  }

  lemma ApartFrom(s: State, first: Dir, i: nat)
    requires Inv(s, first) && i < |s.publishers|
    ensures forall j :: 0 <= j < |s.publishers| && j != i ==> Apart(s.publishers[i], s.publishers[j])
  {
    forall j | 0 <= j < |s.publishers| && j != i ensures Apart(s.publishers[i], s.publishers[j]) {
      if j < i { assert Apart(s.publishers[j], s.publishers[i]); }
    }
  }

  lemma InitInv(s: State)
    requires Init(s)
    ensures Inv(s, s.dir)
  {
  }

  lemma CheckInv(s: State, first: Dir, i: nat, a: Action)
    requires Inv(s, first) && i < |s.publishers| && s.publishers[i].pc.Start?
    ensures Inv(Check(s, i, a), first)
  {
    ApartFrom(s, first, i);
    Winner(s, Check(s, i, a), i);
    Rebuild(s, first, i, Check(s, i, a));
  }

  lemma Winner(s: State, s': State, i: nat)
    requires i < |s.publishers| == |s'.publishers|
    requires forall j :: 0 <= j < |s.publishers| && j != i ==> s'.publishers[j] == s.publishers[j]
    requires s.publishers[i].published ==> s'.publishers[i].published
    ensures HasWinner(s) ==> HasWinner(s')
  {
    if HasWinner(s) {
      var j :| 0 <= j < |s.publishers| && s.publishers[j].published;
      assert s'.publishers[j].published;
    }
  }

  lemma TakeNameInv(s: State, first: Dir, i: nat)
    requires Inv(s, first) && i < |s.publishers| && s.publishers[i].pc.Checked?
    ensures Inv(TakeName(s, i), first)
  {
    ApartFrom(s, first, i);
    var s' := TakeName(s, i);
    Winner(s, s', i);
    forall j | 0 <= j < |s.publishers| && j != i
      ensures PublisherOk(s', first, s.publishers[j]) && Apart(s'.publishers[i], s.publishers[j])
    {
      assert PublisherOk(s, first, s.publishers[j]);
      assert Apart(s.publishers[i], s.publishers[j]);
    }
    Rebuild(s, first, i, s');
  }

  lemma CreateInv(s: State, first: Dir, i: nat, a: Action)
    requires Inv(s, first) && i < |s.publishers| && s.publishers[i].pc.Named?
    ensures Inv(Create(s, i, a), first)
  {
    ApartFrom(s, first, i);
    var s' := Create(s, i, a);
    if s' != s {
      Winner(s, s', i);
      forall j | 0 <= j < |s.publishers| && j != i
        ensures PublisherOk(s', first, s.publishers[j]) && Apart(s'.publishers[i], s.publishers[j])
      {
        assert PublisherOk(s, first, s.publishers[j]);
        assert Apart(s.publishers[i], s.publishers[j]);
      }
      Rebuild(s, first, i, s');
    }
  }

  lemma WriteInv(s: State, first: Dir, i: nat, a: Action)
    requires Inv(s, first) && i < |s.publishers| && s.publishers[i].pc.Writing?
    ensures Inv(if a.Write? then WriteSome(s, i, a.length) else Sync(s, i, a), first)
  {
    ApartFrom(s, first, i);
    var s' := if a.Write? then WriteSome(s, i, a.length) else Sync(s, i, a);
    if s' != s {
      Winner(s, s', i);
      forall j | 0 <= j < |s.publishers| && j != i
        ensures PublisherOk(s', first, s.publishers[j]) && Apart(s'.publishers[i], s.publishers[j])
      {
        assert PublisherOk(s, first, s.publishers[j]);
        assert Apart(s.publishers[i], s.publishers[j]);
      }
      Rebuild(s, first, i, s');
    }
  }

  lemma PublishInv(s: State, first: Dir, i: nat, a: Action)
    requires Inv(s, first) && i < |s.publishers| && s.publishers[i].pc.Synced?
    ensures Inv(Publish(s, i, a), first)
  {
    ApartFrom(s, first, i);
    var s' := Publish(s, i, a);
    Winner(s, s', i);
    assert s'.publishers[i].published ==> HasWinner(s');
    forall j | 0 <= j < |s.publishers| && j != i
      ensures PublisherOk(s', first, s.publishers[j]) && Apart(s'.publishers[i], s.publishers[j])
    {
      assert PublisherOk(s, first, s.publishers[j]);
      assert Apart(s.publishers[i], s.publishers[j]);
    }
    Rebuild(s, first, i, s');
  }

  lemma UnstageInv(s: State, first: Dir, i: nat, a: Action)
    requires Inv(s, first) && i < |s.publishers| && s.publishers[i].pc.Linked?
    ensures Inv(Unstage(s, i, a), first)
  {
    ApartFrom(s, first, i);
    var s' := Unstage(s, i, a);
    Winner(s, s', i);
    forall j | 0 <= j < |s.publishers| && j != i
      ensures PublisherOk(s', first, s.publishers[j]) && Apart(s'.publishers[i], s.publishers[j])
    {
      assert PublisherOk(s, first, s.publishers[j]);
      assert Apart(s.publishers[i], s.publishers[j]);
    }
    Rebuild(s, first, i, s');
  }

  lemma FinishInv(s: State, first: Dir, i: nat, a: Action)
    requires Inv(s, first) && i < |s.publishers| && s.publishers[i].pc.CleanUp?
    ensures Inv(Finish(s, i, a), first)
  {
    ApartFrom(s, first, i);
    var s' := Finish(s, i, a);
    Winner(s, s', i);
    forall j | 0 <= j < |s.publishers| && j != i
      ensures PublisherOk(s', first, s.publishers[j]) && Apart(s'.publishers[i], s.publishers[j])
    {
      assert PublisherOk(s, first, s.publishers[j]);
      assert Apart(s.publishers[i], s.publishers[j]);
    }
    Rebuild(s, first, i, s');
  }

  lemma StepInv(s: State, first: Dir, i: nat, a: Action)
    requires Inv(s, first)
    ensures Inv(Step(s, i, a), first)
  {
    if i < |s.publishers| {
      match s.publishers[i].pc
      case Start => CheckInv(s, first, i, a);
      case Checked => TakeNameInv(s, first, i);
      case Named => CreateInv(s, first, i, a);
      case Writing => WriteInv(s, first, i, a);
      case Synced => PublishInv(s, first, i, a);
      case Linked => UnstageInv(s, first, i, a);
      case CleanUp(_) => FinishInv(s, first, i, a);
      case Done(_) =>
    }
  }

  lemma {:induction false} RunInv(s: State, moves: seq<Move>)
    requires Init(s)
    ensures Inv(Run(s, moves), s.dir)
  {
    if moves == [] {
      InitInv(s);
    } else {
      var init, m := moves[..|moves| - 1], moves[|moves| - 1];
      RunInv(s, init);
      StepInv(Run(s, init), s.dir, m.publisher, m.action);
    }
  }

  // ---- the two steps of a publisher are the move

  /** Linking and unlinking, with others in between or not, are the two system calls of `atomic_move_new`. */
  lemma PublishIsTryLink(s: State, i: nat, a: Action)
    requires i < |s.publishers| && s.publishers[i].pc.Synced? && s.publishers[i].temp.Some?
    ensures var (dir, r) := TryLink(s.dir, s.publishers[i].temp.value, Target, a.Fail?);
            var t := Step(s, i, a);
            t.dir == dir && |t.publishers| == |s.publishers|
            && t.publishers[i].pc == if r.Ok? then Linked else CleanUp(r)
  {
  }

  lemma UnstageIsTryUnlink(s: State, first: Dir, i: nat, a: Action)
    requires Inv(s, first) && i < |s.publishers| && s.publishers[i].pc.Linked?
    ensures s.publishers[i].temp.Some?
    ensures var (dir, r) := TryUnlink(s.dir, s.publishers[i].temp.value, a.Fail?);
            var t := Step(s, i, a);
            t.dir == dir && |t.publishers| == |s.publishers| && t.publishers[i].pc == CleanUp(r)
  {
    assert PublisherOk(s, first, s.publishers[i]);
  }

  /** A publisher that is not interrupted between the two does exactly what `atomic_move_new` does. */
  lemma PublisherMoves(s: State, first: Dir, i: nat, a: Action, b: Action)
    requires Inv(s, first) && i < |s.publishers| && s.publishers[i].pc.Synced?
    ensures s.publishers[i].temp.Some?
    ensures var (dir, r) := Moved(s.dir, s.publishers[i].temp.value, Target, a.Fail?, b.Fail?);
            var t := Step(s, i, a);
            var u := if i < |t.publishers| && t.publishers[i].pc.Linked? then Step(t, i, b) else t;
            u.dir == dir && |u.publishers| == |s.publishers| && u.publishers[i].pc == CleanUp(r)
  {
    assert PublisherOk(s, first, s.publishers[i]);
    PublishIsTryLink(s, i, a);
    StepInv(s, first, i, a);
    if Step(s, i, a).publishers[i].pc.Linked? {
      UnstageIsTryUnlink(Step(s, i, a), first, i, b);
      assert Step(s, i, a).publishers[i].temp == s.publishers[i].temp;
    }
  }

  // ---- what every run guarantees

  /** At most one of the publishers ever wins, and none does if the record was there. */
  lemma AtMostOneWinner(s: State, moves: seq<Move>, i: nat, j: nat)
    requires Init(s)
    requires i < |Run(s, moves).publishers| && j < |Run(s, moves).publishers|
    requires Run(s, moves).publishers[i].published && Run(s, moves).publishers[j].published
    ensures i == j && Target !in s.dir.names
  {
    RunInv(s, moves);
    var ps := Run(s, moves).publishers;
    ApartFrom(Run(s, moves), s.dir, i);
    assert PublisherOk(Run(s, moves), s.dir, ps[i]);
  }

  /** The record under the target name, once it is there. */
  ghost predicate Keeps(before: Dir, after: Dir) {
    Target in before.names ==>
      && Target in after.names && after.names[Target] == before.names[Target]
      && before.names[Target] in before.inodes && before.names[Target] in after.inodes
      && after.inodes[before.names[Target]].content == before.inodes[before.names[Target]].content
  }

  lemma StepKeepsTarget(s: State, first: Dir, i: nat, a: Action)
    requires Inv(s, first)
    ensures Keeps(s.dir, Step(s, i, a).dir)
  {
    if i < |s.publishers| {
      var p := s.publishers[i];
      assert PublisherOk(s, first, p);
      if p.pc.Writing? && Target in s.dir.names {
        WriterIsElsewhere(s, first, i);
      }
    }
  }

  /** Nobody writes to the published inode. */
  lemma WriterIsElsewhere(s: State, first: Dir, i: nat)
    requires Inv(s, first) && i < |s.publishers| && s.publishers[i].pc.Writing? && Target in s.dir.names
    ensures s.dir.names[Target] != s.publishers[i].ino
  {
    assert PublisherOk(s, first, s.publishers[i]);
    if Target !in first.names {
      var w :| 0 <= w < |s.publishers| && s.publishers[w].published;
      assert PublisherOk(s, first, s.publishers[w]);
      ApartFrom(s, first, i);
    }
  }

  /** A published record never changes, whatever happens later. */
  lemma {:induction false} TargetNeverChanges(s: State, moves: seq<Move>, n: nat)
    requires Init(s) && n <= |moves|
    ensures Keeps(Run(s, moves[..n]).dir, Run(s, moves).dir)
    decreases |moves|
  {
    RunInv(s, moves);
    if n == |moves| {
      assert moves[..n] == moves;
    } else {
      var init, m := moves[..|moves| - 1], moves[|moves| - 1];
      assert init[..n] == moves[..n];
      TargetNeverChanges(s, init, n);
      RunInv(s, init);
      StepKeepsTarget(Run(s, init), s.dir, m.publisher, m.action);
    }
  }

  /** Whoever finds the target name finds a whole record, safe on disk: the old one or the winner's. */
  lemma ReaderSeesWholeRecord(s: State, moves: seq<Move>)
    requires Init(s) && Target in Run(s, moves).dir.names
    ensures var t := Run(s, moves);
            var ino := t.dir.names[Target];
            && ino in t.dir.inodes && t.dir.inodes[ino].synced == t.dir.inodes[ino].content
            && if Target in s.dir.names then t.dir.inodes[ino] == s.dir.inodes[s.dir.names[Target]]
               else
                 exists i ::
                   && 0 <= i < |t.publishers| && t.publishers[i].published
                   && t.dir.inodes[ino].content == t.publishers[i].text
  {
    RunInv(s, moves);
    var t := Run(s, moves);
    if Target !in s.dir.names {
      var w :| 0 <= w < |t.publishers| && t.publishers[w].published;
      assert PublisherOk(t, s.dir, t.publishers[w]);
    }
  }

  // ---- what was there stays what it was

  /** A staging name nobody has tried to create yet. */
  ghost predicate Untried(s: State, n: Name) {
    n.Staging? && (n.counter >= Counter(s, n.process) || Reserved(s, n))
  }

  ghost predicate Reserved(s: State, n: Name) {
    exists i :: 0 <= i < |s.publishers| && s.publishers[i].pc.Named? && s.publishers[i].temp == Some(n)
  }

  /** Names that were there are removed at most, and not before somebody stumbled over them. */
  ghost predicate Kept(s: State, first: Dir) {
    && (forall n <- first.names :: n in s.dir.names ==> s.dir.names[n] == first.names[n])
    && (forall n <- first.names :: Untried(s, n) ==> n in s.dir.names)
  }

  /** Only the publisher that moves can come to reserve a name. */
  lemma ReservedBefore(s: State, s': State, i: nat, n: Name)
    requires i < |s.publishers| == |s'.publishers|
    requires forall j :: 0 <= j < |s.publishers| && j != i ==> s'.publishers[j] == s.publishers[j]
    requires s'.publishers[i].pc.Named? && s'.publishers[i].temp == Some(n) ==>
               s.publishers[i].pc.Named? && s.publishers[i].temp == Some(n)
    ensures Reserved(s', n) ==> Reserved(s, n)
  {
    if Reserved(s', n) {
      var j :| 0 <= j < |s'.publishers| && s'.publishers[j].pc.Named? && s'.publishers[j].temp == Some(n);
      assert s.publishers[j].pc.Named? && s.publishers[j].temp == Some(n);
    }
  }

  lemma KeptTakeName(s: State, first: Dir, i: nat)
    requires Kept(s, first) && i < |s.publishers| && s.publishers[i].pc.Checked?
    ensures Kept(TakeName(s, i), first)
  {
    var s' := TakeName(s, i);
    forall n | n in first.names && Untried(s', n) ensures n in s'.dir.names {
      if s'.publishers[i].temp != Some(n) {
        ReservedBefore(s, s', i, n);
      }
      assert Untried(s, n);
    }
  }

  lemma KeptCreate(s: State, first: Dir, i: nat, a: Action)
    requires Kept(s, first) && Inv(s, first) && i < |s.publishers| && s.publishers[i].pc.Named?
    ensures Kept(Create(s, i, a), first)
  {
    var s' := Create(s, i, a);
    assert PublisherOk(s, first, s.publishers[i]);
    assert Reserved(s, s.publishers[i].temp.value);
    forall n | n in first.names && Untried(s', n) ensures n in s'.dir.names {
      ReservedBefore(s, s', i, n);
    }
  }

  /** Removing its own staging name is not removing an untried one. */
  lemma KeptUnlink(s: State, first: Dir, i: nat, s': State)
    requires Kept(s, first) && Inv(s, first) && i < |s.publishers| == |s'.publishers|
    requires s.publishers[i].temp.Some? && !s.publishers[i].pc.Named? && !s'.publishers[i].pc.Named?
    requires forall j :: 0 <= j < |s.publishers| && j != i ==> s'.publishers[j] == s.publishers[j]
    requires s'.dir == Unlink(s.dir, s.publishers[i].temp.value) && s'.counters == s.counters
    ensures Kept(s', first)
  {
    var temp := s.publishers[i].temp.value;
    assert PublisherOk(s, first, s.publishers[i]);
    ApartFrom(s, first, i);
    forall n | n in first.names && Untried(s', n) ensures n in s'.dir.names {
      ReservedBefore(s, s', i, n);
      assert n != temp by {
        if Reserved(s, temp) {
          var j :| 0 <= j < |s.publishers| && s.publishers[j].pc.Named? && s.publishers[j].temp == Some(temp);
          assert Apart(s.publishers[i], s.publishers[j]);
        }
      }
    }
  }

  /** Only the content or the publisher changes, or the record's name is added. */
  lemma KeptFrame(s: State, first: Dir, i: nat, s': State)
    requires Kept(s, first) && Inv(s, first) && i < |s.publishers| == |s'.publishers| && s'.counters == s.counters
    requires forall j :: 0 <= j < |s.publishers| && j != i ==> s'.publishers[j] == s.publishers[j]
    requires !s.publishers[i].pc.Named? && !s'.publishers[i].pc.Named?
    requires forall n <- s.dir.names :: n in s'.dir.names && s'.dir.names[n] == s.dir.names[n]
    requires forall n <- s'.dir.names :: n in s.dir.names || (n == Target && Target !in s.dir.names)
    ensures Kept(s', first)
  {
    forall n | n in first.names && Untried(s', n) ensures n in s'.dir.names {
      ReservedBefore(s, s', i, n);
    }
  }

  lemma KeptStep(s: State, first: Dir, i: nat, a: Action)
    requires Kept(s, first) && Inv(s, first)
    ensures Kept(Step(s, i, a), first)
  {
    if i < |s.publishers| {
      assert PublisherOk(s, first, s.publishers[i]);
      var p := s.publishers[i];
      match p.pc
      case Checked => KeptTakeName(s, first, i);
      case Named => KeptCreate(s, first, i, a);
      case Linked => if a.Fail? { KeptFrame(s, first, i, Step(s, i, a)); }
          else { KeptUnlink(s, first, i, Step(s, i, a)); }
      case CleanUp(_) => if a.Fail? { KeptFrame(s, first, i, Step(s, i, a)); }
          else { KeptUnlink(s, first, i, Step(s, i, a)); }
      case _ => KeptFrame(s, first, i, Step(s, i, a));
    }
  }

  lemma {:induction false} RunKept(s: State, moves: seq<Move>)
    requires Init(s)
    ensures Kept(Run(s, moves), s.dir)
  {
    if moves != [] {
      var init, m := moves[..|moves| - 1], moves[|moves| - 1];
      RunKept(s, init);
      RunInv(s, init);
      KeptStep(Run(s, init), s.dir, m.publisher, m.action);
    }
  }

  /**
   * No name ever comes to mean another file, and a file that was there keeps its
   * content: stale staging files are removed at most.
   */
  lemma NothingIsOverwritten(s: State, moves: seq<Move>, n: Name)
    requires Init(s) && n in s.dir.names && n in Run(s, moves).dir.names
    ensures Run(s, moves).dir.names[n] == s.dir.names[n]
    ensures s.dir.names[n] in Run(s, moves).dir.inodes
    ensures Run(s, moves).dir.inodes[s.dir.names[n]] == s.dir.inodes[s.dir.names[n]]
  {
    RunKept(s, moves);
    RunInv(s, moves);
  }

  /** Over an existing record no publisher touches the directory at all. */
  lemma {:induction false} ExistingRecordStopsEveryone(s: State, moves: seq<Move>)
    requires Init(s) && Target in s.dir.names
    ensures var t := Run(s, moves);
            && t.dir == s.dir
            && (forall i :: 0 <= i < |t.publishers| ==>
                  t.publishers[i].pc.Start? || (t.publishers[i].pc.Done? && t.publishers[i].pc.result.Err?))
  {
    if moves != [] {
      ExistingRecordStopsEveryone(s, moves[..|moves| - 1]);
    }
  }

  /**
   * After a power loss some names and some unsynced content are gone; what was
   * synced in full is intact.
   */
  ghost predicate PowerLoss(before: Dir, after: Dir) {
    && (forall n <- after.names :: n in before.names && after.names[n] == before.names[n])
    && (forall k <- after.inodes :: k in before.inodes &&
          (before.inodes[k].synced == before.inodes[k].content ==> after.inodes[k].content == before.inodes[k].content))
    && (forall n <- after.names :: after.names[n] in after.inodes)
  }

  /** Also after a power loss a reader sees no record or a whole one, and parses the winner's. */
  lemma WholeAfterPowerLoss(s: State, moves: seq<Move>, after: Dir, records: seq<RecordCodec.EpochPidRecord>)
    requires Init(s) && Target !in s.dir.names && PowerLoss(Run(s, moves).dir, after) && Target in after.names
    requires |records| == |Run(s, moves).publishers|
    requires forall i :: 0 <= i < |records| ==>
               RecordCodec.Serialize(records[i]) == Ok(Run(s, moves).publishers[i].text)
    ensures exists i :: 0 <= i < |records| && Run(s, moves).publishers[i].published &&
                        RecordCodec.Parse(after.inodes[after.names[Target]].content) == Ok(records[i])
  {
    ReaderSeesWholeRecord(s, moves);
    var t := Run(s, moves);
    var i :| 0 <= i < |t.publishers| && t.publishers[i].published &&
             t.dir.inodes[t.dir.names[Target]].content == t.publishers[i].text;
    RecordCodec.RoundTrip(records[i]);
  }

  /** What a finished publisher's result says, and that it cleaned up after itself unless that failed. */
  lemma OutcomeTells(s: State, moves: seq<Move>, i: nat)
    requires Init(s) && i < |Run(s, moves).publishers| && Run(s, moves).publishers[i].pc.Done?
    ensures var t := Run(s, moves);
            var p := t.publishers[i];
            && (p.pc.result.Ok? ==>
                  Target in t.dir.names && t.dir.names[Target] in t.dir.inodes
                      && t.dir.inodes[t.dir.names[Target]].content == p.text)
            && (p.pc.result == Err(AlreadyExists) ==> !p.published)
            && (p.temp.Some? && !p.cleanUpFailed ==> p.temp.value !in t.dir.names)
  {
    RunInv(s, moves);
    assert PublisherOk(Run(s, moves), s.dir, Run(s, moves).publishers[i]);
  }

  // ---- a race without failures

  ghost predicate NoFailures(moves: seq<Move>) {
    forall m <- moves :: !m.action.Fail?
  }

  /** Staging names are stale or belong to publishers past their creation, and every refusal has a reason. */
  ghost predicate Tidy(s: State, first: Dir) {
    && (forall n <- s.dir.names :: n == Target || n in first.names || HasMaker(s, n))
    && (forall i :: 0 <= i < |s.publishers| ==> Explained(s, first, s.publishers[i]))
  }

  /** It drew a name under which a stale file lay. */
  ghost predicate Stumbled(first: Dir, p: Publisher) {
    p.temp.Some? && p.temp.value in first.names
  }

  ghost predicate HasMaker(s: State, n: Name) {
    exists j :: 0 <= j < |s.publishers| && s.publishers[j].temp == Some(n) && !s.publishers[j].pc.Named?
  }

  ghost predicate Explained(s: State, first: Dir, p: Publisher) {
    p.pc.CleanUp? || p.pc.Done? ==>
      p.pc.result == Ok(()) || (p.pc.result == Err(AlreadyExists) && (Target in s.dir.names || Stumbled(first, p)))
  }

  lemma StepTidy(s: State, first: Dir, i: nat, a: Action)
    requires Inv(s, first) && Tidy(s, first) && !a.Fail?
    ensures Tidy(Step(s, i, a), first)
  {
    if i < |s.publishers| {
      assert PublisherOk(s, first, s.publishers[i]);
      forall n | n in Step(s, i, a).dir.names && n != Target && n !in first.names ensures HasMaker(Step(s, i, a), n) {
        StepMakers(s, i, a, n);
      }
      AllExplained(s, first, i, a);
    }
  }

  lemma AllExplained(s: State, first: Dir, i: nat, a: Action)
    requires Inv(s, first) && Tidy(s, first) && !a.Fail? && i < |s.publishers|
    ensures forall j :: 0 <= j < |s.publishers| ==> Explained(Step(s, i, a), first, Step(s, i, a).publishers[j])
  {
    StepKeepsTarget(s, first, i, a);
    StepExplained(s, first, i, a);
    forall j | 0 <= j < |s.publishers| ensures Explained(Step(s, i, a), first, Step(s, i, a).publishers[j]) {
      assert Explained(s, first, s.publishers[j]);
      OthersStay(s, i, a, j);
    }
  }

  lemma OthersStay(s: State, i: nat, a: Action, j: nat)
    requires i < |s.publishers| && j < |s.publishers|
    ensures |Step(s, i, a).publishers| == |s.publishers|
    ensures j != i ==> Step(s, i, a).publishers[j] == s.publishers[j]
  {
  }

  /** One step leaves the other publishers alone and never takes a made name back. */
  lemma StepKeepsMaker(s: State, i: nat, a: Action, j: nat)
    requires i < |s.publishers| && j < |s.publishers|
    requires s.publishers[i].pc.Checked? ==> s.publishers[i].temp.None?
    requires s.publishers[j].temp.Some? && !s.publishers[j].pc.Named?
    ensures Step(s, i, a).publishers[j].temp == s.publishers[j].temp && !Step(s, i, a).publishers[j].pc.Named?
  {
  }

  lemma StepMakers(s: State, i: nat, a: Action, n: Name)
    requires i < |s.publishers| && n in Step(s, i, a).dir.names && n != Target
    requires s.publishers[i].pc.Checked? ==> s.publishers[i].temp.None?
    requires n in s.dir.names ==> HasMaker(s, n)
    ensures HasMaker(Step(s, i, a), n)
  {
    if n in s.dir.names {
      var j :| 0 <= j < |s.publishers| && s.publishers[j].temp == Some(n) && !s.publishers[j].pc.Named?;
      StepKeepsMaker(s, i, a, j);
    } else {
      var p := Step(s, i, a).publishers[i];
      assert p.temp == Some(n) && !p.pc.Named?;
    }
  }

  lemma StepExplained(s: State, first: Dir, i: nat, a: Action)
    requires Inv(s, first) && Tidy(s, first) && !a.Fail? && i < |s.publishers|
    ensures Explained(Step(s, i, a), first, Step(s, i, a).publishers[i])
  {
    assert PublisherOk(s, first, s.publishers[i]) && Explained(s, first, s.publishers[i]);
    if s.publishers[i].pc.Named? {
      NamedIsUnmade(s, first, i);
    }
  }

  /** A staging name just taken is not in the directory, unless it is stale. */
  lemma NamedIsUnmade(s: State, first: Dir, i: nat)
    requires Inv(s, first) && Tidy(s, first) && i < |s.publishers| && s.publishers[i].pc.Named?
    ensures s.publishers[i].temp.Some?
    ensures (s.publishers[i].temp.value in s.dir.names ==> Stumbled(first, s.publishers[i]))
  {
    var p := s.publishers[i];
    assert PublisherOk(s, first, p);
    if p.temp.value in s.dir.names && p.temp.value !in first.names {
      assert HasMaker(s, p.temp.value);
      var j :| 0 <= j < |s.publishers| && s.publishers[j].temp == p.temp && !s.publishers[j].pc.Named?;
      ApartFrom(s, first, i);
    }
  }

  lemma {:induction false} RunTidy(s: State, moves: seq<Move>)
    requires Init(s) && NoFailures(moves)
    ensures Tidy(Run(s, moves), s.dir) && |Run(s, moves).publishers| == |s.publishers|
  {
    if moves != [] {
      var init, m := moves[..|moves| - 1], moves[|moves| - 1];
      RunTidy(s, init);
      RunInv(s, init);
      StepTidy(Run(s, init), s.dir, m.publisher, m.action);
    }
  }

  // ---- which staging names are drawn

  /** How many publishers belong to a process, or how many of them have drawn a name. */
  function Count(publishers: seq<Publisher>, process: nat, drawn: bool): nat {
    if publishers == [] then 0
    else Count(publishers[..|publishers| - 1], process, drawn) + Counts(publishers[|publishers| - 1], process, drawn)
  }

  function Counts(p: Publisher, process: nat, drawn: bool): nat {
    if p.process == process && (drawn ==> p.temp.Some?) then 1 else 0
  }

  lemma {:induction false} CountUpdate(ps: seq<Publisher>, i: nat, q: Publisher, process: nat, drawn: bool)
    requires i < |ps|
    ensures Count(ps[i := q], process, drawn) + Counts(ps[i], process, drawn) ==
              Count(ps, process, drawn) + Counts(q, process, drawn)
  {
    var init := ps[..|ps| - 1];
    if i == |ps| - 1 {
      assert ps[i := q][..|ps| - 1] == init;
    } else {
      assert ps[i := q][..|ps| - 1] == init[i := q];
      CountUpdate(init, i, q, process, drawn);
    }
  }

  /** A publisher still without a name is one of the process that has not drawn. */
  lemma {:induction false} DrawnBelow(ps: seq<Publisher>, process: nat)
    ensures Count(ps, process, true) <= Count(ps, process, false)
    ensures (exists i :: 0 <= i < |ps| && ps[i].process == process && ps[i].temp.None?) ==>
              Count(ps, process, true) < Count(ps, process, false)
    ensures (forall i :: 0 <= i < |ps| ==> ps[i].temp.Some?) ==> Count(ps, process, true) == Count(ps, process, false)
  {
    if ps != [] {
      var init := ps[..|ps| - 1];
      DrawnBelow(init, process);
      if i :| 0 <= i < |ps| && ps[i].process == process && ps[i].temp.None? {
        assert i < |init| ==> init[i] == ps[i];
      }
    }
  }

  lemma {:induction false} SameMembers(ps: seq<Publisher>, qs: seq<Publisher>, process: nat)
    requires |ps| == |qs| && forall i :: 0 <= i < |ps| ==> ps[i].process == qs[i].process
    ensures Count(ps, process, false) == Count(qs, process, false)
  {
    if ps != [] {
      SameMembers(ps[..|ps| - 1], qs[..|qs| - 1], process);
    }
  }

  ghost predicate TakenBy(s: State, n: Name) {
    exists i :: 0 <= i < |s.publishers| && s.publishers[i].temp == Some(n)
  }

  /** Counters run from where they stood, one step for each name drawn, and every number passed was drawn. */
  ghost predicate Booked(s: State, began: State) {
    && |s.publishers| == |began.publishers|
    && (forall i :: 0 <= i < |s.publishers| ==> s.publishers[i].process == began.publishers[i].process)
    && (forall p: nat :: Counter(s, p) == Counter(began, p) + Count(s.publishers, p, true))
    && (forall p: nat, c: nat :: Counter(began, p) <= c < Counter(s, p) ==> TakenBy(s, Staging(p, c)))
  }

  lemma NoneDrawn(ps: seq<Publisher>, process: nat)
    requires forall i :: 0 <= i < |ps| ==> ps[i].temp.None?
    ensures Count(ps, process, true) == 0
  {
  }

  lemma BookedStart(s: State)
    requires Init(s)
    ensures Booked(s, s)
  {
    forall p: nat ensures Count(s.publishers, p, true) == 0 {
      NoneDrawn(s.publishers, p);
    }
  }

  /** Everything but drawing a name leaves names and counters alone. */
  lemma StepKeepsNames(s: State, i: nat, a: Action)
    requires i < |s.publishers| && !s.publishers[i].pc.Checked?
    ensures var t := Step(s, i, a);
            && t.counters == s.counters && |t.publishers| == |s.publishers|
            && t.publishers[i].temp == s.publishers[i].temp && t.publishers[i].process == s.publishers[i].process
            && t.publishers == s.publishers[i := t.publishers[i]]
  {
    var t := Step(s, i, a);
    OthersStay(s, i, a, i);
    forall j | 0 <= j < |s.publishers| && j != i ensures t.publishers[j] == s.publishers[j] {
      OthersStay(s, i, a, j);
    }
    assert t.publishers == s.publishers[i := t.publishers[i]];
  }

  lemma BookedFrame(s: State, began: State, i: nat, t: State)
    requires Booked(s, began) && i < |s.publishers| == |t.publishers| && t.counters == s.counters
    requires t.publishers == s.publishers[i := t.publishers[i]]
    requires t.publishers[i].temp == s.publishers[i].temp && t.publishers[i].process == s.publishers[i].process
    ensures Booked(t, began)
  {
    forall p: nat ensures Counter(t, p) == Counter(began, p) + Count(t.publishers, p, true) {
      CountUpdate(s.publishers, i, t.publishers[i], p, true);
    }
    forall p: nat, c: nat | Counter(began, p) <= c < Counter(t, p) ensures TakenBy(t, Staging(p, c)) {
      TakenStays(s, t, Staging(p, c));
    }
  }

  lemma TakenStays(s: State, t: State, n: Name)
    requires |s.publishers| == |t.publishers|
    requires forall i :: 0 <= i < |s.publishers| && s.publishers[i].temp.Some? ==>
               t.publishers[i].temp == s.publishers[i].temp
    ensures TakenBy(s, n) ==> TakenBy(t, n)
  {
    if i :| 0 <= i < |s.publishers| && s.publishers[i].temp == Some(n) {
      assert t.publishers[i].temp == Some(n);
    }
  }

  lemma BookedTakeName(s: State, began: State, i: nat)
    requires Booked(s, began) && i < |s.publishers| && s.publishers[i].temp.None?
    ensures Booked(TakeName(s, i), began)
  {
    var t := TakeName(s, i);
    var process := s.publishers[i].process;
    forall p: nat ensures Counter(t, p) == Counter(began, p) + Count(t.publishers, p, true) {
      CountUpdate(s.publishers, i, t.publishers[i], p, true);
    }
    forall p: nat, c: nat | Counter(began, p) <= c < Counter(t, p) ensures TakenBy(t, Staging(p, c)) {
      if p == process && c == Counter(s, process) {
        assert t.publishers[i].temp == Some(Staging(p, c));
      } else {
        TakenStays(s, t, Staging(p, c));
      }
    }
  }

  lemma BookedStep(s: State, began: State, i: nat, a: Action)
    requires Booked(s, began) && Inv(s, began.dir)
    ensures Booked(Step(s, i, a), began)
  {
    if i < |s.publishers| {
      assert PublisherOk(s, began.dir, s.publishers[i]);
      if s.publishers[i].pc.Checked? {
        BookedTakeName(s, began, i);
      } else {
        StepKeepsNames(s, i, a);
        BookedFrame(s, began, i, Step(s, i, a));
      }
    }
  }

  lemma {:induction false} RunBooked(s: State, moves: seq<Move>)
    requires Init(s)
    ensures Booked(Run(s, moves), s)
  {
    if moves == [] {
      BookedStart(s);
    } else {
      var init, m := moves[..|moves| - 1], moves[|moves| - 1];
      RunBooked(s, init);
      RunInv(s, init);
      BookedStep(Run(s, init), s, m.publisher, m.action);
    }
  }

  /** A staging name that some publisher would draw if all of them came that far. */
  predicate Drawable(s: State, n: Name) {
    n.Staging? && Counter(s, n.process) <= n.counter < Counter(s, n.process) + Count(s.publishers, n.process, false)
  }

  ghost predicate SomeNameIsFree(s: State) {
    exists n :: Drawable(s, n) && n !in s.dir.names
  }

  // ---- when every name to be drawn is taken

  /** Nobody gets beyond the exclusive creation of its staging file. */
  ghost predicate Blocked(p: Publisher, first: Dir) {
    && !p.published && (p.temp.Some? ==> p.temp.value in first.names)
    && (p.pc.Start? || p.pc.Checked? || p.pc.Named? || p.pc == CleanUp(Err(AlreadyExists))
          || p.pc == Done(Err(AlreadyExists)))
  }

  ghost predicate AllBlocked(s: State, first: Dir) {
    forall i :: 0 <= i < |s.publishers| ==> Blocked(s.publishers[i], first)
  }

  /** The next name of a process whose publishers have not all drawn is one to be drawn. */
  lemma NextIsDrawable(s: State, began: State, i: nat)
    requires Booked(s, began) && i < |s.publishers| && s.publishers[i].temp.None?
    ensures Drawable(began, Staging(s.publishers[i].process, Counter(s, s.publishers[i].process)))
  {
    DrawnBelow(s.publishers, s.publishers[i].process);
    SameMembers(s.publishers, began.publishers, s.publishers[i].process);
  }

  lemma BlockedStep(s: State, began: State, i: nat, a: Action)
    requires Inv(s, began.dir) && Kept(s, began.dir) && Booked(s, began) && AllBlocked(s, began.dir)
    requires !SomeNameIsFree(began) && Target !in began.dir.names && !a.Fail?
    ensures AllBlocked(Step(s, i, a), began.dir)
  {
    if i < |s.publishers| {
      var t := Step(s, i, a);
      forall j | 0 <= j < |t.publishers| ensures Blocked(t.publishers[j], began.dir) {
        OthersStay(s, i, a, j);
        assert Blocked(s.publishers[j], began.dir);
        if j == i {
          BlockedOne(s, began, i, a);
        }
      }
    }
  }

  lemma BlockedOne(s: State, began: State, i: nat, a: Action)
    requires Inv(s, began.dir) && Kept(s, began.dir) && Booked(s, began) && AllBlocked(s, began.dir)
    requires i < |s.publishers|
    requires !SomeNameIsFree(began) && Target !in began.dir.names && !a.Fail?
    ensures i < |Step(s, i, a).publishers| && Blocked(Step(s, i, a).publishers[i], began.dir)
  {
    var p := s.publishers[i];
    assert PublisherOk(s, began.dir, p) && Blocked(p, began.dir);
    if p.pc.Checked? {
      NextIsDrawable(s, began, i);
    } else if p.pc.Named? {
      assert Reserved(s, p.temp.value) && Untried(s, p.temp.value);
    }
  }

  lemma {:induction false} RunBlocked(s: State, moves: seq<Move>)
    requires Init(s) && NoFailures(moves) && Target !in s.dir.names && !SomeNameIsFree(s)
    ensures AllBlocked(Run(s, moves), s.dir)
  {
    if moves != [] {
      var init, m := moves[..|moves| - 1], moves[|moves| - 1];
      RunBlocked(s, init);
      RunInv(s, init);
      RunKept(s, init);
      RunBooked(s, init);
      BlockedStep(Run(s, init), s, m.publisher, m.action);
    }
  }

  // ---- the outcome of a race

  ghost predicate AllDone(s: State) {
    forall i :: 0 <= i < |s.publishers| ==> s.publishers[i].pc.Done?
  }

  /** This one publisher succeeded, and all others were told that the record exists. */
  ghost predicate Wins(s: State, w: nat) {
    w < |s.publishers| &&
    forall i :: 0 <= i < |s.publishers| ==> s.publishers[i].pc == Done(if i == w then Ok(()) else Err(AlreadyExists))
  }

  /** Whoever is published has won a finished race without failures. */
  lemma PublishedWins(t: State, first: Dir, w: nat)
    requires Inv(t, first) && Tidy(t, first) && AllDone(t) && w < |t.publishers| && t.publishers[w].published
    ensures Wins(t, w)
  {
    forall i | 0 <= i < |t.publishers| ensures
      t.publishers[i].pc == Done(if i == w then Ok(()) else Err(AlreadyExists))
    {
      assert PublisherOk(t, first, t.publishers[i]) && Explained(t, first, t.publishers[i]);
      ApartFrom(t, first, w);
    }
  }

  /** Where a name to be drawn is free, not everybody can have stumbled. */
  lemma SomebodyPasses(s: State, t: State, n: Name) returns (i: nat)
    requires Booked(t, s) && Drawable(s, n) && n !in s.dir.names
    ensures i < |t.publishers| && !Stumbled(s.dir, t.publishers[i])
  {
    DrawnBelow(t.publishers, n.process);
    SameMembers(t.publishers, s.publishers, n.process);
    if j :| 0 <= j < |t.publishers| && t.publishers[j].temp.None? {
      i := j;
    } else {
      assert TakenBy(t, n);
      i :| 0 <= i < |t.publishers| && t.publishers[i].temp == Some(n);
    }
  }

  /** Who did not stumble and is done has published, or found the record published. */
  lemma NotStumbledMeansWinner(s: State, t: State, i: nat)
    requires Inv(t, s.dir) && Tidy(t, s.dir) && AllDone(t) && Target !in s.dir.names
    requires i < |t.publishers| && !Stumbled(s.dir, t.publishers[i])
    ensures HasWinner(t)
  {
    assert PublisherOk(t, s.dir, t.publishers[i]) && Explained(t, s.dir, t.publishers[i]);
  }

  /**
   * A finished race without failures over a free name has exactly one winner, and
   * all others are told that the record exists, exactly when one of the staging
   * names to be drawn is free. Otherwise everybody is told so, and there is none.
   */
  lemma RaceHasOneWinner(s: State, moves: seq<Move>)
    requires Init(s) && Target !in s.dir.names && NoFailures(moves) && AllDone(Run(s, moves))
    ensures SomeNameIsFree(s) <==> exists w: nat :: Wins(Run(s, moves), w)
    ensures !SomeNameIsFree(s) ==>
              && Target !in Run(s, moves).dir.names
              && (forall i :: 0 <= i < |Run(s, moves).publishers| ==>
                    Run(s, moves).publishers[i].pc == Done(Err(AlreadyExists)))
  {
    RunInv(s, moves);
    RunTidy(s, moves);
    RunBooked(s, moves);
    var t := Run(s, moves);
    if SomeNameIsFree(s) {
      var n :| Drawable(s, n) && n !in s.dir.names;
      var i := SomebodyPasses(s, t, n);
      NotStumbledMeansWinner(s, t, i);
      var w :| 0 <= w < |t.publishers| && t.publishers[w].published;
      PublishedWins(t, s.dir, w);
    } else {
      RunBlocked(s, moves);
      assert forall i :: 0 <= i < |t.publishers| ==> Blocked(t.publishers[i], s.dir);
      forall w: nat ensures !Wins(t, w) {
        assert w < |t.publishers| ==> Blocked(t.publishers[w], s.dir);
      }
    }
  }

  lemma {:induction false} CountsItself(ps: seq<Publisher>, i: nat)
    requires i < |ps|
    ensures Count(ps, ps[i].process, false) > 0
  {
    if i < |ps| - 1 {
      CountsItself(ps[..|ps| - 1], i);
    }
  }

  /** As long as no stale file lies ahead of a process's counter, its publishers cannot all stumble. */
  lemma FreshCounterIsEnough(s: State, i: nat)
    requires i < |s.publishers|
    requires forall n <- s.dir.names :: n.Staging? && n.process == s.publishers[i].process ==>
               n.counter < Counter(s, n.process)
    ensures SomeNameIsFree(s)
  {
    var process := s.publishers[i].process;
    CountsItself(s.publishers, i);
    assert Drawable(s, Staging(process, Counter(s, process)));
  }

  /**
   * A process that died left a staging file, and a later one with its process id
   * begins counting anew: the file name is free, nothing fails, and yet nothing
   * is published. The stale file is gone afterwards.
   */
  lemma StaleFileStopsThePublisher(text: string) returns (s: State, moves: seq<Move>)
    ensures Init(s) && Target !in s.dir.names && |s.publishers| == 1 && NoFailures(moves)
    ensures s.dir.names.Keys == {Staging(5, 0)} && Counter(s, 5) == 0 && !SomeNameIsFree(s)
    ensures Run(s, moves).publishers[..] == [s.publishers[0].(pc := Done(Err(AlreadyExists)),
              temp := Some(Staging(5, 0)))]
    ensures Run(s, moves).dir.names == map[]
  {
    var p := Publisher(5, text, Start, None, 0, false, false);
    s := State(Dir(map[Staging(5, 0) := 0], map[0 := Inode("", "")]), map[], [p]);
    var go := Move(0, Proceed(1));
    moves := [go, go, go, go];
    var s1 := Step(s, 0, Proceed(1));
    var s2 := Step(s1, 0, Proceed(1));
    var s3 := Step(s2, 0, Proceed(1));
    var s4 := Step(s3, 0, Proceed(1));
    assert moves[..3] == [go, go, go] && [go, go, go][..2] == [go, go] && [go, go][..1] == [go] && [go][..0] == [];
    assert Run(s, [go]) == s1;
    assert Run(s, [go, go]) == s2;
    assert Run(s, [go, go, go]) == s3;
    assert Run(s, moves) == s4;
    assert s1.publishers == [p.(pc := Checked)];
    assert s2.publishers == [p.(pc := Named, temp := Some(Staging(5, 0)))];
    assert s3.publishers == [p.(pc := CleanUp(Err(AlreadyExists)), temp := Some(Staging(5, 0)))];
    OnePublisher(p);
  }

  lemma OnePublisher(p: Publisher)
    ensures forall process: nat :: Count([p], process, false) == if p.process == process then 1 else 0
  {
    assert [p][..0] == [];
  }
}
