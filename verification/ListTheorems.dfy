/** When the gc and free lists stay whole, over every run. */
module ListTheorems {
  import opened ListSteps
  import opened ListInvariant
  import opened ListKeeps

  predicate IntactThroughout(s: State, run: seq<Action>)
    requires Runs(s, run)
    decreases |run|
  {
    GcIntact(s) && (run != [] ==> IntactThroughout(Apply(s, run[0]), run[1..]))
  }

  predicate NoWrongRemoval(s: State, run: seq<Action>)
    requires Runs(s, run)
    decreases |run|
  {
    run == [] || (!WrongRemoval(s, run[0]) && NoWrongRemoval(Apply(s, run[0]), run[1..]))
  }

  // ---- Exactly when the list stays whole ----

  /** No link of a chain leads back to its first node. */
  lemma NothingLinksToHead(h: Link, l: seq<Node>, next: seq<Link>)
    requires Chain(h, l, next) && NoDup(l) && l != []
    ensures forall p :: p in l ==> NextIn(next, To(p)) != To(l[0])
  {
    forall p | p in l
      ensures NextIn(next, To(p)) != To(l[0])
    {
      var i :| 0 <= i < |l| && l[i] == p;
      assert next[l[i]] == LinkAt(l, i + 1);
    }
  }

  lemma CutBehindHead(l: seq<Node>, n: Node)
    requires l != [] && l[0] != n
    ensures Without(l, n) != [] && Without(l, n)[0] == l[0]
    ensures forall p :: p in Without(l, n) ==> p in l
  {
  }

  /** The search position was the head, and the head holds a record in front of the wanted one. */
  lemma WrongRemovalAtHead(s: State)
    requires GcView(s) && WrongRemoval(s, Collect)
    ensures s.collector.pp.Head? && s.gc != [] && s.gcHead == To(s.gc[0]) && s.gc[0] != s.collector.n
    ensures s.collector.stage.desired == LinkAt(s.gc, 1)
    ensures s.collector.n < |s.next|
  {
    RemoveIndex(s);
    assert s.next[s.gc[0]] == LinkAt(s.gc, 1);
    assert s.gc[IndexOf(s.gc, s.collector.n)] < |s.next|;
  }

  /** What a wrong removal does to the links and to the record of the list. */
  lemma WrongRemovalEffect(s: State)
    requires GcView(s) && |s.place| == |s.next| && WrongRemoval(s, Collect)
    ensures s.gc != [] && s.gcHead == To(s.gc[0]) && s.gc[0] != s.collector.n
    ensures var s' := CollectorStep(s);
            && s'.gcHead == LinkAt(s.gc, 1) && s'.next == s.next
            && s'.gc != [] && s'.gc[0] == s.gc[0] && forall p :: p in s'.gc ==> p in s.gc
  {
    WrongRemovalAtHead(s);
    CutBehindHead(s.gc, s.collector.n);
  }

  /** A wrong removal unlinks a record nobody asked to remove: it is still pending, but neither the
      head nor any link of the list leads to it. */
  lemma WrongRemovalLosesRecord(s: State)
    requires Inv(s) && Enabled(s, Collect) && WrongRemoval(s, Collect)
    ensures s.gcHead.To?
    ensures var s', m := Apply(s, Collect), s.gcHead.n;
            && m in s'.gc && m != s.collector.n
            && s'.gcHead != To(m)
            && (forall p :: p in s'.gc ==> NextOf(s', To(p)) != To(m))
            && !GcIntact(s')
  {
    WrongRemovalEffect(s);
    NothingLinksToHead(s.gcHead, s.gc, s.next);
  }

  /** The words after the removal and the three steps that recycle the record, with nobody in between. */
  lemma RecycleWrites(s: State, n: Node)
    requires s.collector.Clear? && s.collector.n == n && n < |s.next| && |s.place| == |s.next|
    ensures var s' := CollectorStep(CollectorStep(CollectorStep(s)));
            && s'.next == s.next[n := s.freeHead] && s'.freeHead == To(n) && s'.gcHead == s.gcHead
  {
    var s1 := CollectorStep(s);
    assert s1 == s.(next := s.next[n := Null], collector := FreeRead(n, s.collector.nxt));
    var s2 := CollectorStep(s1);
    assert s2.next == s.next[n := s.freeHead] && s2.freeHead == s.freeHead && s2.collector == FreeCas(n, s.collector.nxt);
  }

  /** A chain cut short at `l[k]`, whose link now leads into the chain `f`. */
  lemma ChainSplice(l: seq<Node>, f: seq<Node>, h: Link, next: seq<Link>, k: nat)
    requires Chain(LinkAt(l, 0), l, next) && Chain(h, f, next) && NoDup(l) && 1 <= k < |l|
    requires forall n :: n in f ==> n != l[k]
    ensures Chain(LinkAt(l, 1), l[1..k + 1] + f, next[l[k] := h])
  {
    var l', next' := l[1..k + 1] + f, next[l[k] := h];
    forall i | 0 <= i < |l'|
      ensures l'[i] < |next'| && next'[l'[i]] == LinkAt(l', i + 1)
    {
      if i < k - 1 {
        assert l'[i] == l[i + 1] && next[l[i + 1]] == LinkAt(l, i + 2) && l[i + 1] != l[k];
        assert l'[i + 1] == l[i + 2];
      } else if i == k - 1 {
        assert l'[i] == l[k] && LinkAt(l', k) == LinkAt(f, 0);
      } else {
        var j := i - k;
        assert l'[i] == f[j] && next[f[j]] == LinkAt(f, j + 1) && f[j] in f;
        assert LinkAt(l', i + 1) == LinkAt(f, j + 1);
      }
    }
  }

  /** And it does worse.  The record it was asked to remove is still linked, and goes on to the free
      list: from then on one node is on both lists and the free list is the tail of the gc list. */
  lemma WrongRemovalMergesLists(s: State)
    requires Inv(s) && Enabled(s, Collect) && WrongRemoval(s, Collect)
    ensures var n, k := s.collector.n, IndexOf(s.gc, s.collector.n);
            var s' := CollectorStep(CollectorStep(CollectorStep(CollectorStep(s))));
            && 1 <= k < |s.gc| && s.gc[k] == n
            && Chain(s'.freeHead, [n] + s.free, s'.next)
            && Chain(s'.gcHead, s.gc[1..k + 1] + s.free, s'.next)
  {
    var n, k, s1 := s.collector.n, IndexOf(s.gc, s.collector.n), CollectorStep(s);
    WrongRemovalAtHead(s);
    WrongRemovalEffect(s);
    RemovalWrites(s);
    assert n in s.gc && n !in s.free && n < |s.next|;
    hide PlacesOk;
    hide CollectorStep;
    hide RemoveStep;
    assert s1.collector == Clear(n, s.collector.nxt) && s1.freeHead == s.freeHead && s1.next == s.next;
    RecycleWrites(s1, n);
    ChainSplice(s.gc, s.free, s.freeHead, s.next, k);
    ChainFrame(s.freeHead, s.free, s.next, n, s.freeHead);
    ChainPush(s.freeHead, s.free, s.next[n := s.freeHead], n);
  }

  lemma {:induction false} IntactIff(s: State, run: seq<Action>)
    requires Inv(s) && Runs(s, run)
    ensures IntactThroughout(s, run) <==> NoWrongRemoval(s, run)
    decreases |run|
  {
    if run != [] {
      if WrongRemoval(s, run[0]) {
        WrongRemovalLosesRecord(s);
      } else {
        ApplyKeeps(s, run[0]);
        IntactIff(Apply(s, run[0]), run[1..]);
      }
    }
  }

  lemma InitInv(s: State)
    requires Init(s)
    ensures Inv(s)
  {
  }

  /** The gc list is whole in every state of a run if and only if no removal in it hits a record
      other than its own, which is the test `expected == node` that `remove` does not make. */
  lemma GcListIntactExactly(s: State, run: seq<Action>)
    requires Init(s) && Runs(s, run)
    ensures IntactThroughout(s, run) <==> NoWrongRemoval(s, run)
  {
    InitInv(s);
    IntactIff(s, run);
  }

  // ---- What holds while the list is whole ----

  ghost predicate SoundlyReached(s: State) {
    exists s0, run :: Init(s0) && Runs(s0, run) && NoWrongRemoval(s0, run) && After(s0, run) == s
  }

  lemma {:induction false} SoundRunsKeep(s: State, run: seq<Action>)
    requires Inv(s) && Runs(s, run) && NoWrongRemoval(s, run)
    ensures Inv(After(s, run))
    decreases |run|
  {
    if run != [] {
      ApplyKeeps(s, run[0]);
      SoundRunsKeep(Apply(s, run[0]), run[1..]);
    }
  }

  lemma SoundInv(s: State)
    requires SoundlyReached(s)
    ensures Inv(s)
  {
    var s0, run :| Init(s0) && Runs(s0, run) && NoWrongRemoval(s0, run) && After(s0, run) == s;
    InitInv(s0);
    SoundRunsKeep(s0, run);
  }

  /** `remove` always finds its node, and a finished walk has visited exactly the records that were
      on the list when it read the head, each once and in order. */
  lemma WalkIsExact(s: State)
    requires SoundlyReached(s)
    ensures !s.collector.Failed?
    ensures NoDup(s.snapshot) && s.visited <= s.snapshot
    ensures s.collector.Resting? ==> s.visited == s.snapshot
  {
    SoundInv(s);
  }

  /** Where a node is, read off the links and the program counters alone. */
  ghost function Homes(s: State, n: Node): nat {
    (if n in s.gc then 1 else 0) + (if n in s.free then 1 else 0)
    + (if CollectorHas(s.collector, n) then 1 else 0)
    + |set t | 0 <= t < |s.threads| && InHand(s.threads[t], n)|
  }

  /** Partition: the lists are acyclic chains to end_node, and every node is on exactly one of the gc and
      free lists or in exactly one hand; the fixed list holds every node but those still being
      added; a node held between operations has a NULL link, a queued one does not. */
  lemma Partition(s: State, n: Node)
    requires SoundlyReached(s) && n < |s.next|
    ensures Chain(s.gcHead, s.gc, s.next) && Chain(s.freeHead, s.free, s.next)
    ensures NoDup(s.gc) && NoDup(s.free)
    ensures Homes(s, n) == 1
    ensures Chain(s.fixedHead, s.fixed, s.fixedLink) && NoDup(s.fixed)
    ensures n in s.fixed <==> !SomeoneAdds(s, n)
    ensures n in s.gc || n in s.free ==> n in s.fixed
    ensures n in s.gc || n in s.free ==> s.next[n] != Null
    ensures forall t :: 0 <= t < |s.threads| && s.threads[t] == Holding(n) ==> s.next[n] == Null
  {
    SoundInv(s);
    var hands := set t | 0 <= t < |s.threads| && InHand(s.threads[t], n);
    if s.place[n].With? {
      assert hands == {s.place[n].t};
    } else {
      assert hands == {};
    }
    if t :| 0 <= t < |s.threads| && Adding(s.threads[t]) && s.threads[t].n == n {
      assert InHand(s.threads[t], n);
    }
    if i :| 0 <= i < |s.gc| && s.gc[i] == n {
      assert s.next[s.gc[i]] == LinkAt(s.gc, i + 1);
    }
    if i :| 0 <= i < |s.free| && s.free[i] == n {
      assert s.next[s.free[i]] == LinkAt(s.free, i + 1);
    }
    forall t | 0 <= t < |s.threads| && s.threads[t] == Holding(n)
      ensures s.next[n] == Null
    {
      assert ClientOk(s, s.threads[t]);
    }
  }
}
