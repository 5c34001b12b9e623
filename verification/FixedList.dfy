/** The fixed list under concurrency: adders race at its head while the collector scans it.  Nothing here
    depends on the state of the gc and free lists. */
module FixedList {
  import opened ListSteps
  import opened ListInvariant

  // ---- Preservation ----

  predicate SameFixed(s: State, s': State) {
    s'.fixedHead == s.fixedHead && s'.fixedLink == s.fixedLink && s'.fixed == s.fixed && |s'.next| == |s.next|
  }

  predicate SameAdders(s: State, s': State) {
    && |s'.threads| == |s.threads|
    && forall t :: 0 <= t < |s.threads| ==>
         Adding(s'.threads[t]) == Adding(s.threads[t]) && (Adding(s.threads[t]) ==> s'.threads[t].n == s.threads[t].n)
  }

  lemma FixedFrame(s: State, s': State)
    requires FixedOk(s) && SameFixed(s, s') && SameAdders(s, s')
    ensures FixedOk(s')
  {
    forall n | 0 <= n < |s'.fixedLink|
      ensures n in s'.fixed || SomeoneAdds(s', n)
    {
      if n !in s.fixed {
        var t :| 0 <= t < |s.threads| && Adding(s.threads[t]) && s.threads[t].n == n;
        assert Adding(s'.threads[t]) && s'.threads[t].n == n;
      }
    }
  }

  /** A new node starts out in its creator's hands. */
  lemma AllocateFixed(s: State, s': State, t: Tid)
    requires FixedOk(s) && t < |s.threads| && !Adding(s.threads[t])
    requires s'.threads == s.threads[t := AddRead(|s.next|)] && |s'.next| == |s.next| + 1
    requires s'.fixedHead == s.fixedHead && s'.fixed == s.fixed && s'.fixedLink == s.fixedLink + [Null]
    ensures FixedOk(s')
  {
    var m := |s.next|;
    forall n | 0 <= n < |s'.fixedLink|
      ensures n in s'.fixed || SomeoneAdds(s', n)
    {
      if n == m {
        assert s'.threads[t].n == n && Adding(s'.threads[t]);
      } else if n !in s.fixed {
        var u :| 0 <= u < |s.threads| && Adding(s.threads[u]) && s.threads[u].n == n;
        assert s'.threads[u] == s.threads[u];
      }
    }
    assert m !in s.fixed;
  }

  /** The link of a node that is still being added. */
  lemma AddReadFixed(s: State, s': State, t: Tid, n: Node)
    requires FixedOk(s) && t < |s.threads| && s.threads[t] == AddRead(n) && n < |s.fixedLink|
    requires s'.fixedLink == s.fixedLink[n := s.fixedHead] && s'.threads == s.threads[t := AddCas(n)]
    requires s'.fixedHead == s.fixedHead && s'.fixed == s.fixed && |s'.next| == |s.next|
    ensures FixedOk(s')
  {
    assert Adding(s.threads[t]);
    ChainFrame(s.fixedHead, s.fixed, s.fixedLink, n, s.fixedHead);
    var s1 := s.(fixedLink := s'.fixedLink);
    assert FixedOk(s1) by {
      assert forall m :: SomeoneAdds(s, m) ==> SomeoneAdds(s1, m);
    }
    FixedFrame(s1, s');
  }

  /** The node becomes the head of the list. */
  lemma AddCasFixed(s: State, s': State, t: Tid, n: Node)
    requires FixedOk(s) && t < |s.threads| && s.threads[t] == AddCas(n)
    requires n < |s.fixedLink| && s.fixedHead == s.fixedLink[n]
    requires s'.fixedHead == To(n) && s'.fixed == [n] + s.fixed && s'.threads == s.threads[t := Holding(n)]
    requires s'.fixedLink == s.fixedLink && |s'.next| == |s.next|
    ensures FixedOk(s')
  {
    assert Adding(s.threads[t]);
    ChainPush(s.fixedHead, s.fixed, s.fixedLink, n);
    forall u | 0 <= u < |s'.threads| && Adding(s'.threads[u])
      ensures s'.threads[u].n < |s'.fixedLink| && s'.threads[u].n !in s'.fixed
    {
      assert s'.threads[u] == s.threads[u] && s.threads[u].n != n;
    }
    forall m | 0 <= m < |s'.fixedLink|
      ensures m in s'.fixed || SomeoneAdds(s', m)
    {
      if m != n && m !in s.fixed {
        var u :| 0 <= u < |s.threads| && Adding(s.threads[u]) && s.threads[u].n == m;
        assert s'.threads[u] == s.threads[u];
      }
    }
  }

  lemma ClientFixed(s: State, t: Tid)
    requires FixedOk(s) && t < |s.threads|
    ensures FixedOk(ClientStep(s, t))
  {
    var s' := ClientStep(s, t);
    match s.threads[t]
    case PopCas(node, _) =>
      if s.freeHead == node && !(node.To? && node.n < |s.place|) {
        AllocateFixed(s, s', t);
      } else {
        hide FixedOk;
        FixedFrame(s, s');
      }
    case AddRead(n) =>
      assert Adding(s.threads[t]);
      AddReadFixed(s, s', t, n);
    case AddCas(n) =>
      assert Adding(s.threads[t]);
      if s.fixedHead == s.fixedLink[n] {
        AddCasFixed(s, s', t, n);
      } else {
        hide FixedOk;
        FixedFrame(s, s');
      }
    case _ =>
      hide FixedOk;
      FixedFrame(s, s');
  }

  /** The collector only reads the fixed list. */
  lemma CollectorLeavesFixed(s: State)
    ensures SameFixed(s, CollectorStep(s)) && CollectorStep(s).threads == s.threads
  {
  }

  lemma FixedKeeps(s: State, a: Action)
    requires FixedOk(s) && Enabled(s, a)
    ensures FixedOk(Apply(s, a))
  {
    hide FixedOk;
    match a
    case Step(t) => ClientFixed(s, t);
    case Collect =>
      CollectorLeavesFixed(s);
      hide CollectorStep;
      FixedFrame(s, Apply(s, a));
    case _ => FixedFrame(s, Apply(s, a));
  }

  predicate Grown(l: seq<Node>, l': seq<Node>) {
    l' == l || (l' != [] && l'[1..] == l)
  }

  lemma ClientGrows(s: State, t: Tid)
    requires t < |s.threads|
    ensures var s' := ClientStep(s, t);
            && Grown(s.fixed, s'.fixed) && s'.present == s.present && s'.scanned == s.scanned
            && s'.collector == s.collector
  {
  }

  /** The fixed list changes only by growing at its head. */
  lemma FixedStep(s: State, a: Action)
    requires Enabled(s, a)
    ensures var s' := Apply(s, a);
            && Grown(s.fixed, s'.fixed)
            && (!a.Collect? ==> s'.present == s.present && s'.scanned == s.scanned)
            && (!a.Collect? ==> s'.collector.Scan? == s.collector.Scan? && (s.collector.Scan? ==> s'.collector == s.collector))
  {
    match a
    case Step(t) =>
      ClientGrows(s, t);
      hide ClientStep;
    case Collect =>
      CollectorLeavesFixed(s);
      hide CollectorStep;
    case _ =>
  }

  /** The link of the k-th node of a suffix leads to the next one. */
  lemma SuffixLink(h: Link, l: seq<Node>, link: seq<Link>, rest: seq<Node>, k: nat)
    requires Chain(h, l, link) && IsSuffix(rest, l) && k < |rest|
    ensures NextIn(link, To(rest[k])) == LinkAt(rest, k + 1)
  {
    var d := |l| - |rest|;
    assert rest[k] == l[d..][k] == l[d + k];
    assert link[l[d + k]] == LinkAt(l, d + k + 1);
    if k + 1 < |rest| {
      assert rest[k + 1] == l[d..][k + 1];
    }
  }

  lemma ScanStepKeeps(s: State)
    requires FixedOk(s) && ScanOk(s) && Enabled(s, Collect)
    ensures ScanOk(CollectorStep(s))
  {
    if s.collector.Scan? {
      hide FixedOk;
      if s.collector.cur.To? {
        ScanOne(s);
      }
    } else if s.collector.ScanHead? {
      assert IsSuffix(s.fixed, s.fixed);
    } else {
      NoScan(s);
      hide CollectorStep;
    }
  }

  lemma ScanOne(s: State)
    requires FixedOk(s) && ScanOk(s) && s.collector.Scan? && s.collector.cur.To?
    ensures ScanOk(CollectorStep(s))
  {
    SuffixLink(s.fixedHead, s.fixed, s.fixedLink, s.present, |s.scanned|);
  }

  lemma NoScan(s: State)
    requires !s.collector.Scan? && !s.collector.ScanHead?
    ensures var s' := CollectorStep(s); !s'.collector.Scan? && s'.present == s.present && s'.scanned == s.scanned
  {
  }

  lemma ScanKeeps(s: State, a: Action)
    requires FixedOk(s) && ScanOk(s) && Enabled(s, a)
    ensures ScanOk(Apply(s, a))
  {
    if a.Collect? {
      hide FixedOk;
      hide ScanOk;
      ScanStepKeeps(s);
    } else {
      FixedStep(s, a);
      var s' := Apply(s, a);
      hide FixedOk;
      hide Apply;
      if s'.fixed != s.fixed && s.collector.Scan? {
        assert s'.fixed == [s'.fixed[0]] + s.fixed;
      }
    }
  }

  // ---- Every run ----

  ghost predicate Reachable(s: State) {
    exists s0, run :: Init(s0) && Runs(s0, run) && After(s0, run) == s
  }

  lemma {:induction false} FixedRuns(s: State, run: seq<Action>)
    requires FixedOk(s) && ScanOk(s) && Runs(s, run)
    ensures FixedOk(After(s, run)) && ScanOk(After(s, run))
    ensures IsSuffix(s.fixed, After(s, run).fixed)
    decreases |run|
  {
    if run != [] {
      var s1 := Apply(s, run[0]);
      FixedKeeps(s, run[0]);
      ScanKeeps(s, run[0]);
      FixedStep(s, run[0]);
      hide FixedOk;
      hide ScanOk;
      hide Apply;
      FixedRuns(s1, run[1..]);
      SuffixTransitive(s.fixed, s1.fixed, After(s, run).fixed);
    }
  }

  lemma SuffixTransitive(a: seq<Node>, b: seq<Node>, c: seq<Node>)
    requires IsSuffix(b, c) && |a| <= |b| && b[|b| - |a|..] == a
    ensures IsSuffix(a, c)
  {
    assert c[|c| - |a|..] == c[|c| - |b|..][|b| - |a|..];
  }

  /** Whatever the lists go through, the fixed list is an acyclic chain to end_node that holds every
      node except those still being added, each of them once. */
  lemma FixedListIsWhole(s: State, n: Node)
    requires Reachable(s) && n < |s.next|
    ensures Chain(s.fixedHead, s.fixed, s.fixedLink) && NoDup(s.fixed)
    ensures n in s.fixed <==> !SomeoneAdds(s, n)
  {
    var s0, run :| Init(s0) && Runs(s0, run) && After(s0, run) == s;
    FixedRuns(s0, run);
  }

  /** Over every run the fixed list only grows at its head. */
  lemma FixedListGrows(s: State, run: seq<Action>)
    requires Reachable(s) && Runs(s, run)
    ensures IsSuffix(s.fixed, After(s, run).fixed)
  {
    var s0, before :| Init(s0) && Runs(s0, before) && After(s0, before) == s;
    FixedRuns(s0, before);
    FixedRuns(s, run);
  }

  /** A scan meets exactly the nodes that were on the list when it read the head, each once and in
      order, however many are added meanwhile. */
  lemma ScanIsExact(s: State)
    requires Reachable(s)
    ensures NoDup(s.present) && s.scanned <= s.present
    ensures !s.collector.Scan? ==> s.scanned == s.present
    ensures s.collector == ScanHead ==> CollectorStep(s).present == s.fixed
  {
    var s0, run :| Init(s0) && Runs(s0, run) && After(s0, run) == s;
    FixedRuns(s0, run);
  }

  /** The collector scans until `run` ends at its read of the gc head. */
  predicate UntilScanned(s: State, run: seq<Action>)
    requires Runs(s, run)
    decreases |run|
  {
    if run == [] then s.collector.ReadHead?
    else !s.collector.ReadHead? && UntilScanned(Apply(s, run[0]), run[1..])
  }

  lemma {:induction false} ScanRun(s: State, run: seq<Action>, l: seq<Node>)
    requires FixedOk(s) && ScanOk(s) && Runs(s, run) && UntilScanned(s, run)
    requires || (s.collector.ScanHead? && IsSuffix(l, s.fixed))
             || ((s.collector.Scan? || s.collector.ReadHead?) && IsSuffix(l, s.present))
    ensures var s' := After(s, run); s'.scanned == s'.present && IsSuffix(l, s'.present)
    decreases |run|
  {
    if run != [] {
      var s' := Apply(s, run[0]);
      FixedKeeps(s, run[0]);
      ScanKeeps(s, run[0]);
      ScanMoves(s, run[0], l);
      hide FixedOk;
      hide ScanOk;
      hide Apply;
      ScanRun(s', run[1..], l);
    }
  }

  lemma ScanMoves(s: State, a: Action, l: seq<Node>)
    requires FixedOk(s) && ScanOk(s) && Enabled(s, a)
    requires || (s.collector.ScanHead? && IsSuffix(l, s.fixed))
             || (s.collector.Scan? && IsSuffix(l, s.present))
    ensures var s' := Apply(s, a);
            || (s'.collector.ScanHead? && IsSuffix(l, s'.fixed))
            || ((s'.collector.Scan? || s'.collector.ReadHead?) && IsSuffix(l, s'.present))
  {
    var s' := Apply(s, a);
    if a.Collect? {
      hide FixedOk;
    } else {
      FixedStep(s, a);
      ScanStaysPut(s, a);
      hide Apply;
      hide FixedOk;
      hide ScanOk;
      if s.collector.ScanHead? && s'.fixed != s.fixed {
        SuffixTransitive(l, s.fixed, s'.fixed);
      }
    }
  }

  lemma ScanStaysPut(s: State, a: Action)
    requires Enabled(s, a) && !a.Collect? && (s.collector.ScanHead? || s.collector.Scan?)
    ensures Apply(s, a).collector == s.collector
  {
    if a.Step? {
      ClientGrows(s, a.t);
      hide ClientStep;
    }
  }

  /** Every collection scans before it reads the gc head: the nodes it has then met are exactly those on
      the fixed list at some point after the collection began, all the earlier ones included. */
  lemma ScanComesFirst(s: State, run: seq<Action>)
    requires Reachable(s) && Enabled(s, StartCollect)
    requires Runs(Apply(s, StartCollect), run) && UntilScanned(Apply(s, StartCollect), run)
    ensures var s' := After(Apply(s, StartCollect), run); s'.scanned == s'.present && IsSuffix(s.fixed, s'.present)
  {
    var s0, before :| Init(s0) && Runs(s0, before) && After(s0, before) == s;
    FixedRuns(s0, before);
    FixedKeeps(s, StartCollect);
    ScanKeeps(s, StartCollect);
    ScanRun(Apply(s, StartCollect), run, s.fixed);
  }
}
