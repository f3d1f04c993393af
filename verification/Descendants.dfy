/** The descendant closure of a process listing, and the merge of two captures of it. */
module Descendants {
  import opened Basics

  type Pid = nat

  /** Follow `n` parent links upwards. */
  function Climb(parents: map<Pid, Pid>, pid: Pid, n: nat): Option<Pid>
    decreases n
  {
    if n == 0 then Some(pid)
    else if pid in parents then Climb(parents, parents[pid], n - 1)
    else None
  }

  /** `root` is reached from `pid` by one or more parent links. */
  ghost predicate Descends(parents: map<Pid, Pid>, root: Pid, pid: Pid) {
    exists n: nat :: n > 0 && Climb(parents, pid, n) == Some(root)
  }

  lemma ChildDescends(parents: map<Pid, Pid>, root: Pid, parent: Pid, child: Pid)
    requires child in parents && parents[child] == parent
    requires parent == root || Descends(parents, root, parent)
    ensures Descends(parents, root, child)
  {
    if parent == root {
      assert Climb(parents, child, 1) == Climb(parents, root, 0);
    } else {
      var n: nat :| n > 0 && Climb(parents, parent, n) == Some(root);
      assert Climb(parents, child, n + 1) == Some(root);
    }
  }

  /** Every child of the root or of a member is a member. */
  ghost predicate Closed(parents: map<Pid, Pid>, root: Pid, members: set<Pid>) {
    forall c :: c in parents && (parents[c] == root || parents[c] in members) ==> c in members
  }

  lemma {:induction false} ClosedContainsDescendants(parents: map<Pid, Pid>, root: Pid, members: set<Pid>, pid: Pid,
                                                     n: nat)
    requires Closed(parents, root, members)
    requires n > 0 && Climb(parents, pid, n) == Some(root)
    ensures pid in members
    decreases n
  {
    if n > 1 {
      ClosedContainsDescendants(parents, root, members, parents[pid], n - 1);
    }
  }

  ghost predicate Inverts(children: map<Pid, seq<Pid>>, parents: map<Pid, Pid>, listed: set<Pid>) {
    forall p, c :: (p in children && c in children[p]) <==> (c in listed && c in parents && parents[c] == p)
  }

  /** Group the listed processes under their parents, in whatever order they are listed. */
  method GroupByParent(parents: map<Pid, Pid>) returns (children: map<Pid, seq<Pid>>)
    ensures Inverts(children, parents, parents.Keys)
  {
    children := map[];
    var unlisted := parents.Keys;
    while unlisted != {}
      invariant unlisted <= parents.Keys
      invariant Inverts(children, parents, parents.Keys - unlisted)
    {
      var pid :| pid in unlisted;
      var parent := parents[pid];
      var siblings := if parent in children then children[parent] else [];
      children := children[parent := siblings + [pid]];
      unlisted := unlisted - {pid};
    }
  }

  /** What the work list promises: an unfinished process is still pending. */
  ghost predicate Covered(parents: map<Pid, Pid>, root: Pid, members: set<Pid>, pending: seq<Pid>) {
    forall c :: c in parents && (parents[c] == root || parents[c] in members) ==> c in members || parents[c] in pending
  }

  ghost predicate Sound(parents: map<Pid, Pid>, root: Pid, members: set<Pid>, pending: seq<Pid>) {
    && (forall d <- members :: d in parents && Descends(parents, root, d))
    && (forall p <- pending :: p == root || p in members)
  }

  /** `descendant_pids`: exactly the processes below the root, also when parent links form cycles. */
  method DescendantPids(parents: map<Pid, Pid>, root: Pid) returns (descendants: set<Pid>)
    ensures forall pid :: pid in descendants <==> Descends(parents, root, pid)
  {
    var children := GroupByParent(parents);
    descendants := {};
    var pending := [root];
    while pending != []
      invariant Sound(parents, root, descendants, pending)
      invariant Covered(parents, root, descendants, pending)
      decreases parents.Keys - descendants, |pending|
    {
      var parent := pending[|pending| - 1];
      var rest := pending[..|pending| - 1];
      assert pending == rest + [parent];
      var direct := if parent in children then children[parent] else [];
      descendants, pending := Visit(parents, root, parent, direct, descendants, rest);
    }
    forall pid | Descends(parents, root, pid) ensures pid in descendants {
      var n: nat :| n > 0 && Climb(parents, pid, n) == Some(root);
      ClosedContainsDescendants(parents, root, descendants, pid, n);
    }
  }

  /** The inner loop: take in the children of one process. */
  method Visit(ghost parents: map<Pid, Pid>, ghost root: Pid, parent: Pid, direct: seq<Pid>, members: set<Pid>,
               rest: seq<Pid>)
    returns (descendants: set<Pid>, pending: seq<Pid>)
    requires Sound(parents, root, members, rest + [parent])
    requires Covered(parents, root, members, rest + [parent])
    requires forall c :: c in direct <==> c in parents && parents[c] == parent
    ensures Sound(parents, root, descendants, pending)
    ensures Covered(parents, root, descendants, pending)
    ensures members <= descendants <= parents.Keys
    ensures descendants == members ==> pending == rest
  {
    assert parent in rest + [parent];
    descendants, pending := members, rest;
    for i := 0 to |direct|
      invariant members <= descendants && (descendants == members ==> pending == rest)
      invariant Sound(parents, root, descendants, pending)
      invariant Covered(parents, root, descendants, pending + [parent])
      invariant forall j :: 0 <= j < i ==> direct[j] in descendants
    {
      var pid := direct[i];
      if pid !in descendants {
        ChildDescends(parents, root, parent, pid);
        assert forall p :: p in pending + [parent] ==> p in pending + [pid] + [parent];
        descendants := descendants + {pid};
        pending := pending + [pid];
      }
    }
  }

  // ---- merging two captures

  datatype Captured<T> = Captured(pid: Pid, identity: T)

  /** The second snapshot decides wherever it lists the pid. */
  function Merged<T>(first: map<Pid, T>, second: map<Pid, Option<T>>, pid: Pid): Option<T> {
    if pid in second then second[pid]
    else if pid in first then Some(first[pid])
    else None
  }

  /** `merge_descendant_captures`: update the first capture in place, then list it in pid order. */
  method MergeDescendantCaptures<T>(first: map<Pid, T>, second: map<Pid, Option<T>>) returns (merged: seq<Captured<T>>)
    ensures forall i, j :: 0 <= i < j < |merged| ==> merged[i].pid < merged[j].pid
    ensures forall i :: 0 <= i < |merged| ==> Merged(first, second, merged[i].pid) == Some(merged[i].identity)
    ensures forall pid :: Merged(first, second, pid).Some? ==> exists i :: 0 <= i < |merged| && merged[i].pid == pid
  {
    var captured := first;
    var todo := second.Keys;
    while todo != {}
      invariant todo <= second.Keys
      invariant forall pid :: pid in captured <==>
                  if pid in second && pid !in todo then second[pid].Some? else pid in first
      invariant forall pid <- captured ::
                  captured[pid] == if pid in second && pid !in todo then second[pid].value else first[pid]
    {
      var pid :| pid in todo;
      match second[pid] {
        case Some(identity) => captured := captured[pid := identity];
        case None => captured := captured - {pid};
      }
      todo := todo - {pid};
    }
    assert forall pid :: Merged(first, second, pid) == if pid in captured then Some(captured[pid]) else None;
    merged := InPidOrder(captured);
  }

  /** A `BTreeMap` is listed in key order. */
  method InPidOrder<T>(m: map<Pid, T>) returns (listed: seq<Captured<T>>)
    ensures forall i, j :: 0 <= i < j < |listed| ==> listed[i].pid < listed[j].pid
    ensures forall i :: 0 <= i < |listed| ==> listed[i].pid in m && listed[i].identity == m[listed[i].pid]
    ensures forall pid <- m :: exists i :: 0 <= i < |listed| && listed[i].pid == pid
  {
    listed := [];
    var left := m.Keys;
    while left != {}
      invariant left <= m.Keys
      invariant forall i, j :: 0 <= i < j < |listed| ==> listed[i].pid < listed[j].pid
      invariant forall i :: 0 <= i < |listed| ==> listed[i].pid in m && listed[i].identity == m[listed[i].pid]
      invariant forall i, k :: 0 <= i < |listed| && k in left ==> listed[i].pid < k
      invariant forall pid <- m :: pid in left || exists i :: 0 <= i < |listed| && listed[i].pid == pid
    {
      var pid := Least(left);
      ghost var before := listed;
      listed := listed + [Captured(pid, m[pid])];
      assert listed[|before|].pid == pid;
      assert forall i :: 0 <= i < |before| ==> listed[i] == before[i];
      left := left - {pid};
    }
  }

  method Least(s: set<Pid>) returns (least: Pid)
    requires s != {}
    ensures least in s && forall k <- s :: least <= k
  {
    least :| least in s;
    var others := s - {least};
    while others != {}
      invariant least in s && others <= s
      invariant forall k :: k in s && k !in others ==> least <= k
    {
      var k :| k in others;
      least := if k < least then k else least;
      others := others - {k};
    }
  }
}
