/** When `Collect` respects the hazard pointers, over every run. */
module ProtectionTheorems {
  import opened Protection

  // ---- Preservation ----

  /** A client step on its own node that neither starts nor ends a retirement. */
  lemma OwnNodeKeeps(s: State, n: Node, r: Record)
    requires Inv(s) && n < |s.nodes| && RecordOk(s, r)
    requires r.gcPointer == s.nodes[n].gcPointer && r.client.OnGc? == s.nodes[n].client.OnGc?
    requires r.client.Valid? && r.pointer in s.atScan ==> s.nodes[n].client.Valid? && r.pointer == s.nodes[n].pointer
    ensures Inv(Update(s, n, r))
  {
    var s' := Update(s, n, r);
    forall m | 0 <= m < |s'.nodes| && s'.nodes[m].client.Valid? && s'.nodes[m].pointer in s'.atScan
      ensures Seen(s', m)
    {
      assert Seen(s, m);
    }
  }

  /** Only a linked object can become validated, and a retired one is linked nowhere. */
  lemma RecheckKeeps(s: State, n: Node)
    requires Inv(s) && Enabled(s, Recheck(n))
    ensures Inv(Apply(s, Recheck(n)))
  {
    assert RecordOk(s, s.nodes[n]);
    assert s.loc[s.nodes[n].client.l] !in s.atScan;
    OwnNodeKeeps(s, n, Apply(s, Recheck(n)).nodes[n]);
  }

  lemma DeleteKeeps(s: State, n: Node)
    requires Inv(s) && Enabled(s, Delete(n))
    ensures Inv(Apply(s, Delete(n)))
  {
    var s', o := Apply(s, Delete(n)), s.nodes[n].pointer;
    assert RecordOk(s, s.nodes[n]);
    forall m | 0 <= m < |s'.nodes|
      ensures RecordOk(s', s'.nodes[m]) && (m != n ==> s'.nodes[m].gcPointer != o)
    {
      assert RecordOk(s, s.nodes[m]);
    }
    forall m | 0 <= m < |s'.nodes| && s'.nodes[m].client.Valid? && s'.nodes[m].pointer in s'.atScan
      ensures Seen(s', m)
    {
      assert Seen(s, m);
    }
  }

  lemma PushGcKeeps(s: State, n: Node)
    requires Inv(s) && Enabled(s, PushGc(n))
    ensures Inv(Apply(s, PushGc(n)))
  {
    var s' := Apply(s, PushGc(n));
    assert RecordOk(s, s.nodes[n]);
    assert forall m :: m in s'.gc <==> m == n || m in s.gc;
    forall m | 0 <= m < |s'.nodes| && s'.nodes[m].client.Valid? && s'.nodes[m].pointer in s'.atScan
      ensures Seen(s', m)
    {
      assert Seen(s, m);
    }
  }

  lemma NewNodeKeeps(s: State)
    requires Inv(s)
    ensures Inv(Apply(s, NewNode))
  {
    var s' := Apply(s, NewNode);
    forall m | 0 <= m < |s'.nodes|
      ensures RecordOk(s', s'.nodes[m])
    {
      assert m < |s.nodes| ==> RecordOk(s, s.nodes[m]);
    }
    forall m | 0 <= m < |s'.nodes| && s'.nodes[m].client.Valid? && s'.nodes[m].pointer in s'.atScan
      ensures Seen(s', m)
    {
      assert Seen(s, m);
    }
  }

  lemma {:induction false} DropContents(l: seq<Node>, n: Node)
    requires NoDup(l)
    ensures NoDup(Drop(l, n)) && forall m :: m in Drop(l, n) <==> m in l && m != n
  {
    if l != [] {
      var tail := l[1..];
      DropContents(tail, n);
      assert l == [l[0]] + tail;
      assert l[0] !in tail;
      assert forall m :: m in l <==> m == l[0] || m in tail;
      if l[0] != n {
        assert forall m :: m in Drop(l, n) <==> m == l[0] || m in Drop(tail, n);
      }
    }
  }

  lemma ReclaimKeeps(s: State, n: Node)
    requires NodesOk(s) && GcOk(s) && ObjectsOk(s) && n in s.gc
    ensures var s' := Reclaim(s, n); NodesOk(s') && GcOk(s') && ObjectsOk(s')
  {
    var s' := Reclaim(s, n);
    DropContents(s.gc, n);
    assert RecordOk(s, s.nodes[n]);
    forall m | 0 <= m < |s'.nodes|
      ensures RecordOk(s', s'.nodes[m])
    {
      assert RecordOk(s, s.nodes[m]);
    }
  }

  /** Reclaiming a record disturbs no validated hazard. */
  lemma WalkScanOk(s: State)
    requires GcOk(s) && ScanOk(s) && WalkOk(s) && s.collector.Walk?
    ensures ScanOk(CollectStep(s))
  {
    var s' := CollectStep(s);
    forall m | 0 <= m < |s'.nodes| && s'.nodes[m].client.Valid? && s'.nodes[m].pointer in s'.atScan
      ensures Seen(s', m)
    {
      assert Seen(s, m);
    }
  }

  lemma WalkKeeps(s: State)
    requires Inv(s) && s.collector.Walk?
    ensures Inv(CollectStep(s))
  {
    var todo := s.collector.todo;
    WalkScanOk(s);
    hide ScanOk;
    if todo != [] {
      assert todo[0] in todo && forall n :: n in todo[1..] ==> n in todo && n != todo[0];
      ReclaimKeeps(s, todo[0]);
      DropContents(s.gc, todo[0]);
    }
  }

  lemma ScanKeeps(s: State)
    requires Inv(s) && !s.collector.Walk? && !s.collector.Resting?
    ensures Inv(CollectStep(s))
  {
    var s' := CollectStep(s);
    forall m | 0 <= m < |s'.nodes| && s'.nodes[m].client.Valid? && s'.nodes[m].pointer in s'.atScan
      ensures Seen(s', m)
    {
      assert Seen(s, m);
      assert RecordOk(s, s.nodes[m]);
    }
  }

  lemma StartCollectKeeps(s: State)
    requires Inv(s) && Enabled(s, StartCollect)
    ensures Inv(Apply(s, StartCollect))
  {
    var s' := Apply(s, StartCollect);
    forall o | o in s'.atScan
      ensures o in s'.retired
    {
      var n :| n in s.gc && n < |s.nodes| && o == s.nodes[n].gcPointer;
      assert RecordOk(s, s.nodes[n]);
    }
    forall n | 0 <= n < |s'.nodes|
      ensures RecordOk(s', s'.nodes[n])
    {
      assert RecordOk(s, s.nodes[n]);
    }
  }

  lemma ApplyKeeps(s: State, a: Action)
    requires Inv(s) && Enabled(s, a)
    ensures Inv(Apply(s, a))
  {
    match a
    case Write(_, _) =>
      var s' := Apply(s, a);
      assert forall n :: 0 <= n < |s.nodes| ==> RecordOk(s', s.nodes[n]) == RecordOk(s, s.nodes[n]);
      assert forall n :: 0 <= n < |s.nodes| ==> Seen(s', n) == Seen(s, n);
    case NewNode => NewNodeKeeps(s);
    case Recheck(n) => RecheckKeeps(s, n);
    case Delete(n) => DeleteKeeps(s, n);
    case PushGc(n) => PushGcKeeps(s, n);
    case StartCollect => StartCollectKeeps(s);
    case Collect => if s.collector.Walk? { WalkKeeps(s); } else { ScanKeeps(s); }
    case TakeFree(n) => ClientKeeps(s, a);
    case Load(n, _) => ClientKeeps(s, a);
    case Publish(n) => ClientKeeps(s, a);
    case Clear(n) => ClientKeeps(s, a);
    case Release(n) => ClientKeeps(s, a);
    case PushFree(n) => ClientKeeps(s, a);
    case ClearHazard(n) => ClientKeeps(s, a);
  }

  lemma ClientKeeps(s: State, a: Action)
    requires Inv(s) && Enabled(s, a)
    requires a.TakeFree? || a.Load? || a.Publish? || a.Clear? || a.Release? || a.PushFree? || a.ClearHazard?
    ensures Inv(Apply(s, a))
  {
    assert RecordOk(s, s.nodes[a.n]);
    OwnNodeKeeps(s, a.n, Apply(s, a).nodes[a.n]);
  }

  lemma {:induction false} RunsKeep(s: State, run: seq<Action>)
    requires Inv(s) && Runs(s, run)
    ensures Inv(After(s, run))
    decreases |run|
  {
    if run != [] {
      ApplyKeeps(s, run[0]);
      RunsKeep(Apply(s, run[0]), run[1..]);
    }
  }

  ghost predicate Reachable(s: State) {
    exists s0, run :: Init(s0) && Runs(s0, run) && After(s0, run) == s
  }

  lemma ReachableInv(s: State)
    requires Reachable(s)
    ensures Inv(s)
  {
    var s0, run :| Init(s0) && Runs(s0, run) && After(s0, run) == s;
    RunsKeep(s0, run);
  }

  // ---- Protection ----

  /** The object the collector is about to delete, if any. */
  function Doomed(s: State): set<Obj> {
    if s.collector.Walk? && s.collector.todo != [] && s.collector.todo[0] < |s.nodes|
       && s.nodes[s.collector.todo[0]].gcPointer !in s.snap
    then {s.nodes[s.collector.todo[0]].gcPointer} else {}
  }

  /** `Collect` never deletes an object that was on the gc list when its scan began while some client
      still holds it validated. */
  lemma OldRecordsAreProtected(s: State, o: Obj)
    requires Reachable(s) && o in Doomed(s) && o in s.atScan
    ensures !InUse(s, o) && Apply(s, Collect).freed == s.freed + {o}
  {
    ReachableInv(s);
    forall n | 0 <= n < |s.nodes| && s.nodes[n].client.Valid?
      ensures s.nodes[n].pointer != o
    {
      assert s.nodes[n].pointer in s.atScan ==> Seen(s, n);
    }
  }

  /** Each object is deleted at most once, and only after it was retired. */
  lemma DeletedOnce(s: State, o: Obj)
    requires Reachable(s) && o in Doomed(s)
    ensures o in s.retired && o !in s.freed && o != 0
  {
    ReachableInv(s);
    var n := s.collector.todo[0];
    assert n in s.collector.todo;
    assert RecordOk(s, s.nodes[n]);
  }

  /** No leak: in every reachable state a retired object has been deleted, or exactly one node still
      carries it; nothing else is deleted or carried. */
  lemma RetiredIsCarriedOrDeleted(s: State, o: Obj)
    requires Reachable(s) && o != 0
    ensures o in s.retired <==> o in s.freed || Carried(s, o)
    ensures !(o in s.freed && Carried(s, o))
    ensures forall n, m | 0 <= n < |s.nodes| && 0 <= m < |s.nodes| ::
              s.nodes[n].gcPointer == o && s.nodes[m].gcPointer == o ==> n == m
  {
    ReachableInv(s);
    if n :| 0 <= n < |s.nodes| && s.nodes[n].gcPointer == o {
      assert RecordOk(s, s.nodes[n]);
    }
  }

  // ---- Safety of whole runs ----

  /** A record joins the gc list between the start of a scan and the read of the gc head. */
  predicate LatePush(s: State, a: Action) {
    a.PushGc? && (s.collector.ScanTest? || s.collector.ScanRead? || s.collector.ReadGc?)
  }

  predicate NoLatePush(s: State, run: seq<Action>)
    requires Runs(s, run)
    decreases |run|
  {
    run == [] || (!LatePush(s, run[0]) && NoLatePush(Apply(s, run[0]), run[1..]))
  }

  /** No object that a client holds validated has been deleted. */
  predicate NoUseAfterFree(s: State) {
    forall n :: 0 <= n < |s.nodes| && s.nodes[n].client.Valid? ==> s.nodes[n].pointer !in s.freed
  }

  predicate SafeThroughout(s: State, run: seq<Action>)
    requires Runs(s, run)
    decreases |run|
  {
    NoUseAfterFree(s) && (run != [] ==> SafeThroughout(Apply(s, run[0]), run[1..]))
  }

  /** Every record the current pass will judge was there when its scan began. */
  predicate OnlyOld(s: State) {
    match s.collector
    case Resting => true
    case Walk(todo) => forall n :: n in todo && n < |s.nodes| ==> s.nodes[n].gcPointer in s.atScan
    case _ => forall n :: n in s.gc && n < |s.nodes| ==> s.nodes[n].gcPointer in s.atScan
  }

  lemma QuietKeepsOld(s: State, a: Action)
    requires Inv(s) && OnlyOld(s) && Enabled(s, a) && !LatePush(s, a)
    ensures OnlyOld(Apply(s, a))
  {
    match a
    case Collect =>
      if s.collector.Walk? && s.collector.todo != [] {
        assert forall n :: n in s.collector.todo[1..] ==> n in s.collector.todo && n != s.collector.todo[0];
      }
    case StartCollect =>
    case NewNode =>
    case Write(_, _) =>
    case _ => QuietClientKeepsOld(s, a);
  }

  lemma QuietClientKeepsOld(s: State, a: Action)
    requires Inv(s) && OnlyOld(s) && Enabled(s, a) && !LatePush(s, a)
    requires !a.Collect? && !a.StartCollect? && !a.NewNode? && !a.Write?
    ensures OnlyOld(Apply(s, a))
  {
    assert RecordOk(s, s.nodes[a.n]);
  }

  lemma SafeStep(s: State, a: Action)
    requires Inv(s) && OnlyOld(s) && NoUseAfterFree(s) && Enabled(s, a)
    ensures NoUseAfterFree(Apply(s, a))
  {
    match a
    case Collect =>
      forall n | 0 <= n < |s.nodes| && s.nodes[n].client.Valid? && s.nodes[n].pointer in s.atScan
        ensures Seen(s, n)
      {
      }
    case Recheck(n) => assert s.loc[s.nodes[n].client.l] !in s.freed;
    case _ =>
  }

  lemma {:induction false} QuietRunIsSafe(s: State, run: seq<Action>)
    requires Inv(s) && OnlyOld(s) && NoUseAfterFree(s) && Runs(s, run) && NoLatePush(s, run)
    ensures SafeThroughout(s, run)
    decreases |run|
  {
    if run != [] {
      ApplyKeeps(s, run[0]);
      QuietKeepsOld(s, run[0]);
      SafeStep(s, run[0]);
      QuietRunIsSafe(Apply(s, run[0]), run[1..]);
    }
  }

  /** If no record joins the gc list between a scan's start and its read of the gc head, no client
      ever holds a deleted object, in any interleaving. */
  lemma ProtectionWithoutLatePush(s: State, run: seq<Action>)
    requires Init(s) && Runs(s, run) && NoLatePush(s, run)
    ensures SafeThroughout(s, run)
  {
    QuietRunIsSafe(s, run);
  }
}
