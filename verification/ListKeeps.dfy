/** Preservation of the list invariant by every step except a wrong removal. */
module ListKeeps {
  import opened ListSteps
  import opened ListInvariant
  import opened FixedList

  predicate OnlyThread(s: State, s': State, t: Tid) {
    && |s'.threads| == |s.threads| && t < |s.threads|
    && forall u :: 0 <= u < |s.threads| && u != t ==> s'.threads[u] == s.threads[u]
  }

  predicate SameHand(c: Client, c': Client) {
    HasNode(c) == HasNode(c') && (HasNode(c) ==> c'.n == c.n)
  }

  /** Links of free nodes, and of nodes in hands other than `t`'s, are as before. */
  predicate SameLinks(s: State, s': State, t: Tid) {
    && |s.next| <= |s'.next|
    && (forall n :: n in s.free && n < |s.next| ==> s'.next[n] == s.next[n])
    && (forall u :: 0 <= u < |s.threads| && u != t && HasNode(s.threads[u]) && s.threads[u].n < |s.next| ==>
          s'.next[s.threads[u].n] == s.next[s.threads[u].n])
  }

  lemma KeepsClients(s: State, s': State, t: Tid)
    requires ClientsOk(s) && PlacesOk(s) && OnlyThread(s, s', t) && SameLinks(s, s', t)
    requires (forall n :: n in s.free ==> n in s'.free) || InPop(s.threads[t])
    requires ClientOk(s', s'.threads[t])
    requires InPop(s'.threads[t]) ==> forall u :: 0 <= u < |s.threads| && u != t ==> !InPop(s.threads[u])
    ensures ClientsOk(s')
  {
    forall u | 0 <= u < |s'.threads|
      ensures ClientOk(s', s'.threads[u])
    {
      if u != t {
        assert ClientOk(s, s.threads[u]);
      }
    }
  }

  /** The same when only the collector moved. */
  lemma KeepsClientsAlone(s: State, s': State)
    requires ClientsOk(s) && PlacesOk(s) && s'.threads == s.threads && |s.next| <= |s'.next|
    requires forall n :: n in s.free ==> n in s'.free
    requires forall n :: n in s.free && n < |s.next| ==> s'.next[n] == s.next[n]
    requires forall u :: 0 <= u < |s.threads| && HasNode(s.threads[u]) && s.threads[u].n < |s.next| ==>
               s'.next[s.threads[u].n] == s.next[s.threads[u].n]
    ensures ClientsOk(s')
  {
    forall u | 0 <= u < |s'.threads|
      ensures ClientOk(s', s'.threads[u])
    {
      assert ClientOk(s, s.threads[u]);
    }
  }

  // ---- The collector's view of the gc list ----

  lemma SuffixPush(rest: seq<Node>, l: seq<Node>, n: Node)
    requires IsSuffix(rest, l)
    ensures IsSuffix(rest, [n] + l)
  {
  }

  /** A push in front leaves the walk and a pending removal where they were. */
  lemma KeepsCollectorOnPush(s: State, s': State, n: Node)
    requires CollectorOk(s) && n !in s.gc
    requires s'.gc == [n] + s.gc && s'.gcHead == To(n) && s'.next == s.next
    requires s'.collector == s.collector && s'.snapshot == s.snapshot && s'.visited == s.visited
    ensures CollectorOk(s')
  {
    match s.collector
    case Visit(_) => SuffixPush(Rest(s), s.gc, n);
    case Judge(g, _) => SuffixPush([g] + Rest(s), s.gc, n);
    case Remove(g, _, pp, stage) =>
      SuffixPush([g] + Rest(s), s.gc, n);
      KeepsRemoveOnPush(s, s', n, g, pp, stage);
    case Clear(_, _) => SuffixPush(Rest(s), s.gc, n);
    case FreeRead(_, _) => SuffixPush(Rest(s), s.gc, n);
    case FreeCas(_, _) => SuffixPush(Rest(s), s.gc, n);
    case _ =>
  }

  lemma KeepsRemoveOnPush(s: State, s': State, n: Node, g: Node, pp: Place, stage: Stage)
    requires g in s.gc && RemoveOk(s.gcHead, s.next, s.gc, g, pp, stage) && n !in s.gc
    requires s'.gc == [n] + s.gc && s'.gcHead == To(n) && s'.next == s.next
    ensures g in s'.gc && RemoveOk(s'.gcHead, s'.next, s'.gc, g, pp, stage)
  {
    assert s'.gc[1..] == s.gc;
    assert IndexOf(s'.gc, g) == 1 + IndexOf(s.gc, g);
    if pp.At? {
      assert IndexOf(s'.gc, pp.p) == 1 + IndexOf(s.gc, pp.p);
    }
    match stage
    case Next(e) => assert e.To? ==> IndexOf(s'.gc, e.n) == if e.n == n then 0 else 1 + IndexOf(s.gc, e.n);
    case Cas(e, _) => assert e.To? ==> IndexOf(s'.gc, e.n) == if e.n == n then 0 else 1 + IndexOf(s.gc, e.n);
    case _ =>
  }

  /** Links of gc nodes are as before, and so is everything the collector looks at. */
  lemma KeepsCollectorFrame(s: State, s': State)
    requires CollectorOk(s)
    requires s'.gc == s.gc && s'.gcHead == s.gcHead && |s.next| <= |s'.next|
    requires forall n :: n in s.gc ==> n < |s.next| && s'.next[n] == s.next[n]
    requires s'.collector == s.collector && s'.snapshot == s.snapshot && s'.visited == s.visited
    ensures CollectorOk(s')
  {
  }

  // ---- Client steps ----

  lemma PushGcKeeps(s: State, t: Tid)
    requires Lists(s) && t < |s.threads|
    requires s.threads[t].PushCas? && s.threads[t].gc && NextOf(s, To(s.threads[t].n)) == s.gcHead
    ensures Lists(ClientStep(s, t))
  {
    var n := s.threads[t].n;
    var s' := ClientStep(s, t);
    assert InHand(s.threads[t], n);
    ChainPush(s.gcHead, s.gc, s.next, n);
    PlacesAfterPushGc(s, s', t, n);
    KeepsClients(s, s', t);
    KeepsCollectorOnPush(s, s', n);
  }

  lemma PlacesAfterPushGc(s: State, s': State, t: Tid, n: Node)
    requires PlacesOk(s) && t < |s.threads| && InHand(s.threads[t], n) && n < |s.place|
    requires s' == SetThread(s.(gcHead := To(n), gc := [n] + s.gc, place := s.place[n := OnGc]), t, Empty)
    ensures PlacesOk(s')
  {
    assert n !in s.gc && n !in s.free && !CollectorHas(s.collector, n);
    assert forall i :: i in s'.gc <==> i == n || i in s.gc;
  }

  lemma PushFreeKeeps(s: State, t: Tid)
    requires Lists(s) && t < |s.threads|
    requires s.threads[t].PushCas? && !s.threads[t].gc && NextOf(s, To(s.threads[t].n)) == s.freeHead
    ensures Lists(ClientStep(s, t))
  {
    var n := s.threads[t].n;
    var s' := ClientStep(s, t);
    assert InHand(s.threads[t], n);
    ChainPush(s.freeHead, s.free, s.next, n);
    PlacesAfterPushFree(s, s', t, n);
    KeepsClients(s, s', t);
    KeepsCollectorFrame(s, s');
  }

  lemma PlacesAfterPushFree(s: State, s': State, t: Tid, n: Node)
    requires PlacesOk(s) && t < |s.threads| && InHand(s.threads[t], n) && n < |s.place|
    requires s' == SetThread(s.(freeHead := To(n), free := [n] + s.free, place := s.place[n := OnFree]), t, Empty)
    ensures PlacesOk(s')
  {
    assert n !in s.gc && n !in s.free && !CollectorHas(s.collector, n);
    assert forall i :: i in s'.free <==> i == n || i in s.free;
  }

  /** A write to the link of the node in `t`'s own hand. */
  lemma OwnLinkKeeps(s: State, s': State, t: Tid, n: Node, v: Link, c: Client)
    requires Lists(s) && t < |s.threads| && InHand(s.threads[t], n) && InHand(c, n)
    requires n < |s.next| && s' == SetThread(s.(next := s.next[n := v]), t, c)
    requires ClientOk(s', c) && !InPop(c)
    ensures Lists(s')
  {
    assert InHand(s.threads[t], n);
    assert s.place[n] == With(t);
    ChainFrame(s.gcHead, s.gc, s.next, n, v);
    ChainFrame(s.freeHead, s.free, s.next, n, v);
    KeepsClients(s, s', t);
    KeepsCollectorFrame(s, s');
  }

  /** A client step that writes nothing shared. */
  lemma LocalKeeps(s: State, s': State, t: Tid, c: Client)
    requires Lists(s) && t < |s.threads| && SameHand(s.threads[t], c)
    requires s' == SetThread(s, t, c) && ClientOk(s', c)
    requires InPop(c) ==> forall u :: 0 <= u < |s.threads| && u != t ==> !InPop(s.threads[u])
    ensures Lists(s')
  {
    KeepsClients(s, s', t);
    KeepsCollectorFrame(s, s');
  }

  lemma PopTakesKeeps(s: State, t: Tid)
    requires Lists(s) && t < |s.threads| && s.threads[t].PopCas?
    requires s.threads[t].node.To? && s.freeHead == s.threads[t].node
    ensures Lists(ClientStep(s, t))
  {
    var n := s.threads[t].node.n;
    var s' := ClientStep(s, t);
    assert ClientOk(s, s.threads[t]);
    ChainPop(s.free, s.next, n);
    assert s'.free == s.free[1..] && s'.freeHead == s.next[n];
    PlacesAfterPop(s, s', t, n);
    KeepsClients(s, s', t);
    KeepsCollectorFrame(s, s');
  }

  lemma PlacesAfterPop(s: State, s': State, t: Tid, n: Node)
    requires PlacesOk(s) && t < |s.threads| && !HasNode(s.threads[t])
    requires s.free != [] && s.free[0] == n && n < |s.place|
    requires s'.place == s.place[n := With(t)] && s'.free == s.free[1..] && s'.gc == s.gc && s'.next == s.next
    requires s'.threads == s.threads[t := PopClear(n)] && s'.collector == s.collector
    ensures PlacesOk(s')
  {
    assert n in s.free;
    assert forall i :: i in s'.free <==> i in s.free && i != n;
  }

  lemma AllocateKeeps(s: State, t: Tid)
    requires Lists(s) && t < |s.threads| && s.threads[t].PopCas?
    requires s.threads[t].node.End? && s.freeHead == End
    ensures Lists(ClientStep(s, t))
  {
    var s' := ClientStep(s, t);
    assert s'.next[|s.next|] == Null;
    PlacesAfterAllocate(s, s', t);
    KeepsClients(s, s', t);
    KeepsCollectorFrame(s, s');
  }

  lemma PlacesAfterAllocate(s: State, s': State, t: Tid)
    requires PlacesOk(s) && t < |s.threads| && !HasNode(s.threads[t])
    requires s'.next == s.next + [Null] && s'.place == s.place + [With(t)] && s'.threads == s.threads[t := AddRead(|s.next|)]
    requires s'.gc == s.gc && s'.free == s.free && s'.collector == s.collector
    ensures PlacesOk(s')
  {
  }

  lemma PopStepKeeps(s: State, t: Tid)
    requires Lists(s) && t < |s.threads| && InPop(s.threads[t])
    ensures Lists(ClientStep(s, t))
  {
    var s' := ClientStep(s, t);
    assert ClientOk(s, s.threads[t]);
    match s.threads[t]
    case PopHead => LocalKeeps(s, s', t, PopNext(s.freeHead));
    case PopNext(node) => LocalKeeps(s, s', t, PopCas(node, NextOf(s, node)));
    case PopCas(node, desired) =>
      if s.freeHead != node {
        LocalKeeps(s, s', t, PopHead);
      } else if node.To? {
        PopTakesKeeps(s, t);
      } else {
        AllocateKeeps(s, t);
      }
    case PopClear(n) =>
      assert InHand(s.threads[t], n);
      OwnLinkKeeps(s, s', t, n, Null, Holding(n));
  }

  /** The fixed list is none of the other lists' business. */
  lemma AddStepKeeps(s: State, t: Tid)
    requires Lists(s) && t < |s.threads| && Adding(s.threads[t])
    ensures Lists(ClientStep(s, t))
  {
    var s' := ClientStep(s, t);
    assert ClientOk(s, s.threads[t]);
    assert SameHand(s.threads[t], s'.threads[t]) && ClientOk(s', s'.threads[t]);
    var s1 := SetThread(s, t, s'.threads[t]);
    LocalKeeps(s, s1, t, s'.threads[t]);
    assert s' == s1.(fixedHead := s'.fixedHead, fixedLink := s'.fixedLink, fixed := s'.fixed);
    hide ClientStep;
    FixedWritesKeep(s1, s');
  }

  lemma FixedWritesKeep(s: State, s': State)
    requires Lists(s) && s' == s.(fixedHead := s'.fixedHead, fixedLink := s'.fixedLink, fixed := s'.fixed)
    ensures Lists(s')
  {
    KeepsClientsAlone(s, s');
  }

  lemma PushStepKeeps(s: State, t: Tid)
    requires Lists(s) && t < |s.threads| && (s.threads[t].PushRead? || s.threads[t].PushCas?)
    ensures Lists(ClientStep(s, t))
  {
    var s' := ClientStep(s, t);
    var n := s.threads[t].n;
    assert InHand(s.threads[t], n);
    match s.threads[t]
    case PushRead(_, gc) =>
      OwnLinkKeeps(s, s', t, n, if gc then s.gcHead else s.freeHead, PushCas(n, gc));
    case PushCas(_, gc) =>
      if s.next[n] != (if gc then s.gcHead else s.freeHead) {
        LocalKeeps(s, s', t, PushRead(n, gc));
      } else if gc {
        PushGcKeeps(s, t);
      } else {
        PushFreeKeeps(s, t);
      }
  }

  // ---- Collector steps ----

  /** A collector step that writes nothing shared and leaves its hand as it was. */
  lemma CollectorLocalKeeps(s: State, s': State)
    requires Lists(s) && CollectorOk(s')
    requires s' == s.(collector := s'.collector, snapshot := s'.snapshot, visited := s'.visited,
                      present := s'.present, scanned := s'.scanned)
    requires HasRecord(s'.collector) == HasRecord(s.collector)
    requires HasRecord(s.collector) ==> s'.collector.n == s.collector.n
    ensures Lists(s')
  {
    KeepsClientsAlone(s, s');
  }

  /** A write to the link of the node in the collector's hand. */
  lemma CollectorLinkKeeps(s: State, s': State, n: Node, v: Link)
    requires Lists(s) && CollectorHas(s.collector, n) && CollectorHas(s'.collector, n)
    requires n < |s.next| && s' == s.(next := s.next[n := v], collector := s'.collector)
    requires s.collector.Clear? || s.collector.FreeRead?
    requires s'.collector == (if s.collector.Clear? then FreeRead(n, s.collector.nxt) else FreeCas(n, s.collector.nxt))
    ensures Lists(s')
  {
    assert CollectorHas(s.collector, n);
    ChainFrame(s.gcHead, s.gc, s.next, n, v);
    ChainFrame(s.freeHead, s.free, s.next, n, v);
    KeepsClientsAlone(s, s');
  }

  lemma FreeCasKeeps(s: State)
    requires Lists(s) && s.collector.FreeCas?
    ensures Lists(CollectorStep(s))
  {
    var n, s' := s.collector.n, CollectorStep(s);
    assert CollectorHas(s.collector, n);
    if s.next[n] == s.freeHead {
      ChainPush(s.freeHead, s.free, s.next, n);
      PlacesAfterFreeCas(s, s', n);
      KeepsClientsAlone(s, s');
    } else {
      CollectorLocalKeeps(s, s');
    }
  }

  lemma PlacesAfterFreeCas(s: State, s': State, n: Node)
    requires PlacesOk(s) && s.collector.FreeCas? && s.collector.n == n && n < |s.place|
    requires s' == s.(freeHead := To(n), free := [n] + s.free, place := s.place[n := OnFree],
                      collector := Visit(s.collector.nxt))
    ensures PlacesOk(s')
  {
    assert CollectorHas(s.collector, n);
    assert forall i :: i in s'.free <==> i == n || i in s.free;
  }

  /** All the collector's own position depends on. */
  predicate GcView(s: State) {
    GcIntact(s) && NoDup(s.gc) && CollectorOk(s)
  }

  lemma VisitOk(s: State)
    requires GcView(s) && s.collector.Visit? && s.collector.cur.To?
    ensures CollectorOk(CollectorStep(s))
  {
    var n, s', rest := s.collector.cur.n, CollectorStep(s), Rest(s);
    assert rest[0] == n && rest[1..] == Rest(s');
    var k := |s.gc| - |rest|;
    assert s.gc[k] == s.gc[k..][0] == n;
    assert s.gc[k + 1..] == s.gc[k..][1..] == rest[1..];
    assert [n] + Rest(s') == rest;
    assert NextOf(s, To(s.gc[k])) == LinkAt(s.gc, k + 1);
    assert LinkAt(s.gc, k + 1) == LinkAt(rest[1..], 0);
    assert s'.visited == s.snapshot[..|s'.visited|];
  }

  /** The record being removed sits right in front of what is left of the walk. */
  lemma RemoveIndex(s: State)
    requires GcView(s) && s.collector.Remove?
    ensures var n, k := s.collector.n, |s.gc| - |Rest(s)| - 1;
            0 <= k < |s.gc| && s.gc[k] == n && IndexOf(s.gc, n) == k && s.gc[k + 1..] == Rest(s)
  {
    var n, k := s.collector.n, |s.gc| - |Rest(s)| - 1;
    assert s.gc[k..] == [n] + Rest(s);
    assert s.gc[k] == s.gc[k..][0];
    assert s.gc[k + 1..] == s.gc[k..][1..];
  }

  /** What `*ppnode` holds: a record no later than the one searched for. */
  lemma LoadInRange(s: State)
    requires GcView(s) && s.collector.Remove?
    ensures var v := Load(s, s.collector.pp);
            v.To? && v.n in s.gc && IndexOf(s.gc, v.n) <= IndexOf(s.gc, s.collector.n)
  {
    var pp := s.collector.pp;
    RemoveIndex(s);
    var i := if pp.At? then IndexOf(s.gc, pp.p) + 1 else 0;
    assert pp.At? ==> s.gc[i - 1] == pp.p;
    assert Load(s, pp) == LinkAt(s.gc, i);
    assert IndexOf(s.gc, s.gc[i]) == i;
  }

  /** The search moves strictly towards the record. */
  lemma MoveOk(s: State)
    requires GcView(s) && s.collector.Remove? && s.collector.stage == Move
    ensures CollectorOk(CollectorStep(s))
  {
    LoadInRange(s);
    RemoveIndex(s);
    var v := Load(s, s.collector.pp);
    assert v.n != s.collector.n;
  }

  /** The stage after a read, given what the read can return. */
  lemma ReadStage(gcHead: Link, next: seq<Link>, gc: seq<Node>, n: Node, pp: Place, stage: Stage, stage': Stage)
    requires n in gc && RemoveOk(gcHead, next, gc, n, pp, stage)
    requires var v := LoadFrom(gcHead, next, pp);
             && v.To? && v.n in gc && IndexOf(gc, v.n) <= IndexOf(gc, n)
             && match stage
                case Test => stage' == if v == To(n) then Check else TestEnd
                case TestEnd => stage' == Move
                case Check => stage' == Expect
                case Expect => stage' == Next(v)
                case Next(e) => stage' == Cas(e, NextIn(next, e))
                case _ => false
    ensures RemoveOk(gcHead, next, gc, n, pp, stage')
  {
  }

  lemma ReadStageOk(s: State)
    requires GcView(s) && s.collector.Remove? && !s.collector.stage.Move? && !s.collector.stage.Cas?
    ensures CollectorOk(CollectorStep(s))
  {
    LoadInRange(s);
    var s' := CollectorStep(s);
    ReadStage(s.gcHead, s.next, s.gc, s.collector.n, s.collector.pp, s.collector.stage, s'.collector.stage);
  }

  lemma RetryOk(s: State)
    requires GcView(s) && s.collector.Remove? && s.collector.stage.Cas?
    requires Load(s, s.collector.pp) != s.collector.stage.expected
    ensures CollectorOk(CollectorStep(s))
  {
  }

  lemma SearchKeeps(s: State)
    requires Lists(s) && s.collector.Remove?
    requires s.collector.stage.Cas? ==> Load(s, s.collector.pp) != s.collector.stage.expected
    ensures Lists(CollectorStep(s))
  {
    if s.collector.stage.Move? {
      MoveOk(s);
    } else if s.collector.stage.Cas? {
      RetryOk(s);
    } else {
      ReadStageOk(s);
    }
    CollectorLocalKeeps(s, CollectorStep(s));
  }

  /** A removal that hits the record it was meant for. */
  lemma RightRemovalKeeps(s: State)
    requires Lists(s) && s.collector.Remove? && s.collector.stage.Cas?
    requires Load(s, s.collector.pp) == s.collector.stage.expected == To(s.collector.n)
    ensures Lists(CollectorStep(s))
  {
    var n := s.collector.n;
    var s' := RemoveStep(s);
    RightRemovalOk(s);
    assert CollectorStep(s) == s';
    hide RemoveStep;
    hide CollectorStep;
    PlacesAfterRemoval(s, s', n);
    KeepsClientsAlone(s, s');
  }

  /** Cutting out the record in front of `rest` leaves `rest` a suffix. */
  lemma CutKeepsSuffix(l: seq<Node>, rest: seq<Node>, k: nat)
    requires NoDup(l) && k < |l| && l[k + 1..] == rest
    ensures IsSuffix(rest, Without(l, l[k]))
    ensures Without(l, l[k]) == l[..k] + l[k + 1..] && NoDup(Without(l, l[k]))
    ensures forall i :: i in Without(l, l[k]) <==> i in l && i != l[k]
  {
    WithoutAt(l, k);
  }

  /** Unlinking the record that `pp` leads to. */
  lemma CutAt(gcHead: Link, gc: seq<Node>, next: seq<Link>, pp: Place, k: nat)
    requires Chain(gcHead, gc, next) && NoDup(gc) && k < |gc| && LoadFrom(gcHead, next, pp) == To(gc[k])
    requires pp.At? ==> pp.p in gc
    ensures pp.Head? ==> k == 0 && Chain(next[gc[k]], gc[..k] + gc[k + 1..], next)
    ensures pp.At? ==> pp.p < |next| && Chain(gcHead, gc[..k] + gc[k + 1..], next[pp.p := next[gc[k]]])
  {
    if pp.Head? {
      assert gc[0] == gc[k];
      ChainPop(gc, next, gc[k]);
      assert gc[..0] + gc[1..] == gc[1..];
    } else {
      var i := IndexOf(gc, pp.p);
      assert gc[i] == pp.p && next[gc[i]] == LinkAt(gc, i + 1);
      assert i + 1 == k;
      ChainCut(gcHead, gc, next, k);
    }
  }

  /** The words a successful exchange writes. */
  lemma RemovalWrites(s: State)
    requires s.collector.Remove? && s.collector.stage.Cas? && s.collector.n < |s.place|
    requires Load(s, s.collector.pp) == s.collector.stage.expected
    ensures var s', pp, d := RemoveStep(s), s.collector.pp, s.collector.stage.desired;
            && s'.collector == Clear(s.collector.n, s.collector.nxt)
            && s'.gc == Without(s.gc, s.collector.n) && s'.place == s.place[s.collector.n := WithCollector]
            && s'.free == s.free && s'.freeHead == s.freeHead && s'.snapshot == s.snapshot && s'.visited == s.visited
            && s'.threads == s.threads
            && s'.gcHead == (if pp.Head? then d else s.gcHead)
            && s'.next == if pp.At? && pp.p < |s.next| then s.next[pp.p := d] else s.next
  {
    hide Without;
  }

  /** Both chains after a removal that hits its record at index `k`. */
  lemma RightRemovalChain(s: State, s': State, k: nat)
    requires GcIntact(s) && NoDup(s.gc) && FreeIntact(s) && PlacesOk(s) && s.collector.Remove?
    requires k < |s.gc| && s.gc[k] == s.collector.n < |s.next|
    requires var pp, d := s.collector.pp, s.next[s.collector.n];
             && Load(s, pp) == To(s.collector.n) && (pp.At? ==> pp.p in s.gc)
             && s'.gcHead == (if pp.Head? then d else s.gcHead)
             && s'.next == (if pp.At? && pp.p < |s.next| then s.next[pp.p := d] else s.next)
    requires s'.gc == s.gc[..k] + s.gc[k + 1..] && s'.free == s.free && s'.freeHead == s.freeHead
    ensures GcIntact(s') && FreeIntact(s')
    ensures |s'.next| == |s.next| && forall m :: 0 <= m < |s.next| && m !in s.gc ==> s'.next[m] == s.next[m]
  {
    var pp := s.collector.pp;
    assert pp.At? ==> pp.p !in s.free;
    hide PlacesOk;
    hide Chain;
    CutAt(s.gcHead, s.gc, s.next, pp, k);
    if pp.At? {
      ChainFrame(s.freeHead, s.free, s.next, pp.p, s.next[s.collector.n]);
    }
  }

  lemma AboutToCut(s: State)
    requires GcView(s) && |s.place| == |s.next| && s.collector.Remove? && s.collector.stage.Cas?
    requires s.collector.stage.expected == To(s.collector.n)
    ensures var n, pp := s.collector.n, s.collector.pp;
            && n in s.gc && n < |s.next| && n < |s.place|
            && s.collector.stage.desired == s.next[n] && (pp.At? ==> pp.p in s.gc)
  {
    RemoveIndex(s);
    assert s.gc[IndexOf(s.gc, s.collector.n)] < |s.next|;
  }

  lemma RightRemovalOk(s: State)
    requires GcView(s) && FreeIntact(s) && PlacesOk(s) && s.collector.Remove? && s.collector.stage.Cas?
    requires Load(s, s.collector.pp) == s.collector.stage.expected == To(s.collector.n)
    ensures var s', n := RemoveStep(s), s.collector.n;
            && n < |s.place| && s'.place == s.place[n := WithCollector] && s'.collector == Clear(n, s.collector.nxt)
            && s'.free == s.free && s'.threads == s.threads
            && GcView(s') && FreeIntact(s')
            && (forall i :: i in s'.gc <==> i in s.gc && i != n)
            && |s'.next| == |s.next| && forall m :: 0 <= m < |s.next| && m !in s.gc ==> s'.next[m] == s.next[m]
  {
    var s', k := RemoveStep(s), IndexOf(s.gc, s.collector.n);
    RemoveIndex(s);
    AboutToCut(s);
    RemovalWrites(s);
    hide RemoveStep;
    hide Chain;
    hide RemoveOk;
    CutKeepsSuffix(s.gc, Rest(s), k);
    hide Without;
    hide IndexOf;
    RightRemovalChain(s, s', k);
    hide PlacesOk;
    CutKeepsWalk(s, s');
    hide CollectorOk;
  }

  /** Behind the record, the walk finds what it expects. */
  lemma CutKeepsWalk(s: State, s': State)
    requires CollectorOk(s) && s.collector.Remove? && IsSuffix(Rest(s), s'.gc)
    requires s'.collector == Clear(s.collector.n, s.collector.nxt)
    requires s'.snapshot == s.snapshot && s'.visited == s.visited
    ensures CollectorOk(s')
  {
    assert Rest(s') == Rest(s);
  }

  lemma PlacesAfterRemoval(s: State, s': State, n: Node)
    requires PlacesOk(s) && s.collector.Remove? && n in s.gc
    requires s'.place == s.place[n := WithCollector] && |s'.next| == |s.next|
    requires s'.threads == s.threads && s'.free == s.free && s'.collector == Clear(n, s.collector.nxt)
    requires NoDup(s'.gc) && forall i :: i in s'.gc <==> i in s.gc && i != n
    ensures PlacesOk(s')
  {
  }

  lemma CollectKeeps(s: State)
    requires Lists(s) && ScanOk(s) && Enabled(s, Collect) && !WrongRemoval(s, Collect)
    ensures Lists(CollectorStep(s))
  {
    var s' := CollectorStep(s);
    match s.collector
    case ScanHead => CollectorLocalKeeps(s, s');
    case Scan(_) => CollectorLocalKeeps(s, s');
    case ReadHead =>
      assert Rest(s') == s.gc;
      CollectorLocalKeeps(s, s');
    case Visit(cur) =>
      if cur.To? {
        VisitOk(s);
      }
      CollectorLocalKeeps(s, s');
    case Remove(n, _, pp, stage) =>
      if stage.Cas? && Load(s, pp) == stage.expected {
        RightRemovalKeeps(s);
      } else {
        SearchKeeps(s);
      }
    case Clear(n, _) =>
      assert CollectorHas(s.collector, n);
      CollectorLinkKeeps(s, s', n, Null);
    case FreeRead(n, _) =>
      assert CollectorHas(s.collector, n);
      CollectorLinkKeeps(s, s', n, s.freeHead);
    case FreeCas(_, _) => FreeCasKeeps(s);
  }

  lemma ListsKeep(s: State, a: Action)
    requires Lists(s) && ScanOk(s) && Enabled(s, a) && !WrongRemoval(s, a)
    ensures Lists(Apply(s, a))
  {
    match a
    case StartPop(t) => LocalKeeps(s, Apply(s, a), t, PopHead);
    case StartPush(t, gc) => LocalKeeps(s, Apply(s, a), t, PushRead(s.threads[t].n, gc));
    case Step(t) => StepKeeps(s, t);
    case StartCollect => CollectorLocalKeeps(s, Apply(s, a));
    case Decide(protected) => DecideKeeps(s, protected);
    case Collect => CollectKeeps(s);
  }

  lemma StepKeeps(s: State, t: Tid)
    requires Lists(s) && Enabled(s, Step(t))
    ensures Lists(ClientStep(s, t))
  {
    hide Lists;
    if InPop(s.threads[t]) {
      PopStepKeeps(s, t);
    } else if Adding(s.threads[t]) {
      AddStepKeeps(s, t);
    } else {
      PushStepKeeps(s, t);
    }
  }

  lemma ApplyKeeps(s: State, a: Action)
    requires Inv(s) && Enabled(s, a) && !WrongRemoval(s, a)
    ensures Inv(Apply(s, a))
  {
    hide Lists;
    hide FixedOk;
    hide ScanOk;
    ListsKeep(s, a);
    FixedKeeps(s, a);
    ScanKeeps(s, a);
  }

  lemma DecideKeeps(s: State, protected: bool)
    requires Lists(s) && s.collector.Judge?
    ensures Lists(Apply(s, Decide(protected)))
  {
    var n, s' := s.collector.n, Apply(s, Decide(protected));
    var l := [n] + Rest(s);
    assert l[1..] == Rest(s);
    var k := |s.gc| - |l|;
    assert s.gc[k] == s.gc[k..][0] == n;
    assert s.gc[k + 1..] == s.gc[k..][1..];
    CollectorLocalKeeps(s, s');
  }
}
