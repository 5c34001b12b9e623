/** A run of two clients and the collector in which `remove` unlinks the wrong record. */
module ListFlaw {
  import opened ListSteps
  import opened ListInvariant
  import opened ListTheorems
  import opened FixedList

  lemma {:induction false} RunAppend(s: State, run: seq<Action>, a: Action)
    requires Runs(s, run) && Enabled(After(s, run), a)
    ensures Runs(s, run + [a]) && After(s, run + [a]) == Apply(After(s, run), a)
    decreases |run|
  {
    if run != [] {
      assert (run + [a])[1..] == run[1..] + [a];
      RunAppend(Apply(s, run[0]), run[1..], a);
    }
  }

  lemma Goes(s: State, a: Action) returns (s': State)
    requires Reachable(s) && Enabled(s, a)
    ensures Reachable(s') && s' == Apply(s, a)
  {
    var s0, run :| Init(s0) && Runs(s0, run) && After(s0, run) == s;
    RunAppend(s0, run, a);
    s' := Apply(s, a);
  }

  /** Two clients with the free list empty: what the run below depends on. */
  predicate Scene(s: State, next: seq<Link>, gcHead: Link, gc: seq<Node>, c0: Client, c1: Client, c: Collector) {
    && s.threads == [c0, c1] && s.collector == c
    && s.next == next && s.gcHead == gcHead && s.gc == gc
    && s.freeHead == End && s.free == [] && |s.place| == |next| == |s.fixedLink|
  }

  /** A client finds the free list empty and makes a new node. */
  lemma PopsNothing(s: State, t: Tid) returns (s': State)
    requires Reachable(s) && Enabled(s, StartPop(t)) && s.freeHead == End && |s.fixedLink| == |s.next|
    ensures Reachable(s')
    ensures s' == SetThread(s.(next := s.next + [Null], fixedLink := s.fixedLink + [Null], place := s.place + [With(t)]),
                            t, AddRead(|s.next|))
  {
    var s1 := Goes(s, StartPop(t));
    var s2 := Goes(s1, Step(t));
    assert s2 == SetThread(s, t, PopNext(End));
    var s3 := Goes(s2, Step(t));
    assert s3 == SetThread(s, t, PopCas(End, End));
    s' := Goes(s3, Step(t));
  }

  /** It adds the node to the fixed list. */
  lemma Adds(s: State, t: Tid, n: Node) returns (s': State)
    requires Reachable(s) && t < |s.threads| && s.threads[t] == AddRead(n) && n < |s.fixedLink|
    ensures Reachable(s')
    ensures s' == SetThread(s.(fixedHead := s'.fixedHead, fixedLink := s'.fixedLink, fixed := s'.fixed), t, Holding(n))
    ensures |s'.fixedLink| == |s.fixedLink|
  {
    var s1 := Goes(s, Step(t));
    s' := Goes(s1, Step(t));
  }

  /** It starts to retire through it. */
  lemma StartsPush(s: State, t: Tid, n: Node) returns (s': State)
    requires Reachable(s) && t < |s.threads| && s.threads[t] == Holding(n)
    ensures Reachable(s') && s' == SetThread(s, t, PushRead(n, true))
  {
    s' := Goes(s, StartPush(t, true));
  }

  /** The push, with nobody in between. */
  lemma Pushes(s: State, t: Tid, n: Node) returns (s': State)
    requires Reachable(s) && t < |s.threads| && s.threads[t] == PushRead(n, true) && n < |s.next| && n < |s.place|
    ensures Reachable(s')
    ensures s' == SetThread(s.(next := s.next[n := s.gcHead], gcHead := To(n), gc := [n] + s.gc, place := s.place[n := OnGc]), t, Empty)
  {
    var s1 := Goes(s, Step(t));
    s' := Goes(s1, Step(t));
  }

  lemma Starts() returns (s: State)
    ensures Reachable(s) && Scene(s, [], End, [], Empty, Empty, Resting)
  {
    s := State(End, End, [], End, [], [Empty, Empty], Resting, [], [], [], [], [], [], [], []);
    assert Runs(s, []) && After(s, []) == s;
  }

  /** Client 0 retires a record through node 0. */
  lemma FirstRetires() returns (s: State)
    ensures Reachable(s) && Scene(s, [End], To(0), [0], Empty, Empty, Resting)
  {
    var s0 := Starts();
    hide Reachable;
    var s1 := PopsNothing(s0, 0);
    var s2 := Adds(s1, 0, 0);
    var s3 := StartsPush(s2, 0, 0);
    s := Pushes(s3, 0, 0);
  }

  /** Client 1 has acquired node 1 and is about to push it. */
  lemma SecondStarts() returns (s: State)
    ensures Reachable(s) && Scene(s, [End, Null], To(0), [0], Empty, PushRead(1, true), Resting)
  {
    var s0 := FirstRetires();
    var s1 := PopsNothing(s0, 1);
    var s2 := Adds(s1, 1, 1);
    s := StartsPush(s2, 1, 1);
  }

  /** The collector's scan of the fixed list comes to its end. */
  lemma {:induction false} Scans(s: State) returns (s': State)
    requires Reachable(s) && s.collector.Scan? && FixedOk(s) && ScanOk(s)
    ensures Reachable(s') && s' == s.(collector := ReadHead, scanned := s'.scanned)
    decreases |s.present| - |s.scanned|
  {
    s' := Goes(s, Collect);
    if s.collector.cur.To? {
      FixedKeeps(s, Collect);
      ScanKeeps(s, Collect);
      s' := Scans(s');
    }
  }

  lemma CollectorScans(s: State) returns (s': State)
    requires Reachable(s) && s.collector.Resting?
    ensures Reachable(s') && s' == s.(collector := ReadHead, present := s'.present, scanned := s'.scanned)
  {
    var s0, run :| Init(s0) && Runs(s0, run) && After(s0, run) == s;
    FixedRuns(s0, run);
    FixedKeeps(s, StartCollect);
    ScanKeeps(s, StartCollect);
    var s1 := Goes(s, StartCollect);
    FixedKeeps(s1, Collect);
    ScanKeeps(s1, Collect);
    var s2 := Goes(s1, Collect);
    s' := Scans(s2);
  }

  /** While client 1 is about to push. */
  predicate Before(s: State, c: Collector) {
    Scene(s, [End, Null], To(0), [0], Empty, PushRead(1, true), c)
  }

  lemma CollectorVisits() returns (s: State)
    ensures Reachable(s) && Before(s, Judge(0, End))
  {
    var s0 := SecondStarts();
    var s1 := CollectorScans(s0);
    hide Reachable;
    var s2 := Goes(s1, Collect);
    assert Before(s2, Visit(To(0)));
    s := Goes(s2, Collect);
  }

  /** The collector is to remove node 0 and has passed its loop test at the head. */
  lemma CollectorFinds() returns (s: State)
    ensures Reachable(s) && Before(s, Remove(0, End, Head, Check))
  {
    var s0 := CollectorVisits();
    hide Reachable;
    var s1 := Goes(s0, Decide(false));
    assert Before(s1, Remove(0, End, Head, Test));
    s := Goes(s1, Collect);
  }

  /** After client 1's push: node 1 is in front of node 0. */
  predicate Late(s: State, stage: Stage) {
    Scene(s, [End, To(0)], To(1), [1, 0], Empty, Empty, Remove(0, End, Head, stage))
  }

  lemma PushLands() returns (s: State)
    ensures Reachable(s) && Late(s, Check)
  {
    var s0 := CollectorFinds();
    s := Pushes(s0, 1, 1);
  }

  lemma CollectorReads() returns (s: State)
    ensures Reachable(s) && Late(s, Next(To(1)))
  {
    var s0 := PushLands();
    hide Reachable;
    var s1 := Goes(s0, Collect);
    assert Late(s1, Expect);
    s := Goes(s1, Collect);
  }

  /** The flaw is real: a reachable state whose next step unlinks node 1, which was just retired,
      while `remove` was asked for node 0. */
  lemma WrongRemovalIsReachable() returns (s: State)
    ensures Reachable(s) && Late(s, Cas(To(1), To(0))) && WrongRemoval(s, Collect)
    ensures !GcIntact(Apply(s, Collect)) && 1 in Apply(s, Collect).gc
  {
    var s0 := CollectorReads();
    hide Reachable;
    s := Goes(s0, Collect);
    CutBehindHead(s.gc, 0);
  }

  /** The record it was asked for is unlinked from nothing, and then also pushed on the free list. */
  lemma OneNodeOnTwoLists() returns (s: State)
    ensures Reachable(s)
    ensures Chain(s.gcHead, [0], s.next) && Chain(s.freeHead, [0], s.next)
  {
    var s0 := WrongRemovalIsReachable();
    hide Reachable;
    var s1 := Goes(s0, Collect);
    assert s1.gcHead == To(0) && s1.next == [End, To(0)] && s1.collector == Clear(0, End) && s1.freeHead == End;
    assert |s1.place| == 2;
    var s2 := Goes(s1, Collect);
    var s3 := Goes(s2, Collect);
    s := Goes(s3, Collect);
    RecycleWrites(s1, 0);
  }
}
