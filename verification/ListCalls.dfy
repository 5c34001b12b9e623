/** What the operations on the gc and free lists do from their call to their return, over every run. */
module ListCalls {
  import opened ListSteps
  import opened ListInvariant
  import opened ListKeeps
  import opened ListTheorems
  import opened FixedList

  /** No step but its own changes what a client is doing. */
  lemma OtherClient(s: State, a: Action, t: Tid)
    requires Enabled(s, a) && t < |s.threads|
    requires a != Step(t) && a != StartPop(t) && !(a.StartPush? && a.t == t)
    ensures |Apply(s, a).threads| == |s.threads| && Apply(s, a).threads[t] == s.threads[t]
  {
    match a
    case Step(u) =>
      OwnThreadOnly(s, u);
      hide ClientStep;
    case Collect =>
      CollectorLeavesFixed(s);
      hide CollectorStep;
    case _ =>
  }

  lemma OwnThreadOnly(s: State, u: Tid)
    requires u < |s.threads|
    ensures |ClientStep(s, u).threads| == |s.threads|
    ensures forall t :: 0 <= t < |s.threads| && t != u ==> ClientStep(s, u).threads[t] == s.threads[t]
  {
  }

  // ---- push ----

  predicate Pushing(c: Client, n: Node, gc: bool) {
    c == PushRead(n, gc) || c == PushCas(n, gc)
  }

  /** Client `t` is inside push until `run` ends. */
  predicate UntilPushed(s: State, run: seq<Action>, t: Tid)
    requires Runs(s, run)
    decreases |run|
  {
    && t < |s.threads|
    && if run == [] then s.threads[t].Empty?
       else !s.threads[t].Empty? && UntilPushed(Apply(s, run[0]), run[1..], t)
  }

  /** The node is the first of the list it was meant for. */
  predicate OnTop(s: State, n: Node, gc: bool) {
    if gc then s.gcHead == To(n) && s.gc != [] && s.gc[0] == n
    else s.freeHead == To(n) && s.free != [] && s.free[0] == n
  }

  lemma PushStep(s: State, a: Action, t: Tid, n: Node, gc: bool)
    requires Enabled(s, a) && t < |s.threads| && Pushing(s.threads[t], n, gc)
    ensures var s' := Apply(s, a);
            && |s'.threads| == |s.threads|
            && (Pushing(s'.threads[t], n, gc) || (s'.threads[t].Empty? && OnTop(s', n, gc)))
  {
    if a != Step(t) {
      OtherClient(s, a, t);
      hide Apply;
    }
  }

  lemma {:induction false} PushRun(s: State, run: seq<Action>, t: Tid, n: Node, gc: bool)
    requires Runs(s, run) && UntilPushed(s, run, t)
    requires Pushing(s.threads[t], n, gc) || (s.threads[t].Empty? && OnTop(s, n, gc))
    ensures OnTop(After(s, run), n, gc)
    decreases |run|
  {
    if run != [] {
      PushStep(s, run[0], t, n, gc);
      PushRun(Apply(s, run[0]), run[1..], t, n, gc);
    }
  }

  /** Every run from a call of push to its return: the node is then on top of the list it was pushed on,
      the gc list when it was retired and the free list when it was released. */
  lemma PushEndsOnTop(s: State, t: Tid, toGc: bool, run: seq<Action>)
    requires Enabled(s, StartPush(t, toGc))
    requires Runs(Apply(s, StartPush(t, toGc)), run) && UntilPushed(Apply(s, StartPush(t, toGc)), run, t)
    ensures run != [] && OnTop(After(Apply(s, StartPush(t, toGc)), run), s.threads[t].n, toGc)
  {
    PushRun(Apply(s, StartPush(t, toGc)), run, t, s.threads[t].n, toGc);
  }

  // ---- AcquireNode ----

  /** Client `t` is inside AcquireNode until `run` ends. */
  predicate UntilAcquired(s: State, run: seq<Action>, t: Tid)
    requires Runs(s, run)
    decreases |run|
  {
    && t < |s.threads|
    && if run == [] then s.threads[t].Holding?
       else !s.threads[t].Holding? && UntilAcquired(Apply(s, run[0]), run[1..], t)
  }

  /** In some step of `run` client `t` takes node `n` from the head of the free list. */
  predicate TakesHead(s: State, run: seq<Action>, t: Tid, n: Node)
    requires Runs(s, run)
    decreases |run|
  {
    && run != []
    && var s' := Apply(s, run[0]);
       || (run[0] == Step(t) && s.free != [] && s.free[0] == n && s'.free == s.free[1..])
       || TakesHead(s', run[1..], t, n)
  }

  /** In some step of `run` client `t` finds the free list empty and makes node `n`. */
  predicate MakesNode(s: State, run: seq<Action>, t: Tid, n: Node)
    requires Runs(s, run)
    decreases |run|
  {
    && run != []
    && var s' := Apply(s, run[0]);
       || (run[0] == Step(t) && s.free == [] && n == |s.next| && |s'.next| == |s.next| + 1)
       || MakesNode(s', run[1..], t, n)
  }

  predicate HasNew(c: Client, n: Node) {
    c == PopClear(n) || c == AddRead(n) || c == AddCas(n) || c == Holding(n)
  }

  predicate Popping(c: Client) {
    c.PopHead? || c.PopNext? || c.PopCas?
  }

  lemma HasNewStep(s: State, a: Action, t: Tid, n: Node)
    requires Enabled(s, a) && t < |s.threads| && HasNew(s.threads[t], n) && !s.threads[t].Holding?
    ensures |Apply(s, a).threads| == |s.threads| && HasNew(Apply(s, a).threads[t], n)
  {
    if a != Step(t) {
      OtherClient(s, a, t);
      hide Apply;
    }
  }

  lemma {:induction false} HasNewRun(s: State, run: seq<Action>, t: Tid, n: Node)
    requires Runs(s, run) && UntilAcquired(s, run, t) && HasNew(s.threads[t], n)
    ensures t < |After(s, run).threads| && After(s, run).threads[t] == Holding(n)
    decreases |run|
  {
    if run != [] {
      HasNewStep(s, run[0], t, n);
      HasNewRun(Apply(s, run[0]), run[1..], t, n);
    }
  }

  /** The decisive step of pop. */
  lemma PopStep(s: State, t: Tid)
    requires Lists(s) && t < |s.threads| && Popping(s.threads[t])
    ensures var s' := ClientStep(s, t);
            && |s'.threads| == |s.threads|
            && (|| Popping(s'.threads[t])
                || (s.free != [] && s'.free == s.free[1..] && HasNew(s'.threads[t], s.free[0]))
                || (s.free == [] && |s'.next| == |s.next| + 1 && HasNew(s'.threads[t], |s.next|)))
  {
    assert ClientOk(s, s.threads[t]);
    if s.threads[t].PopCas? && s.freeHead == s.threads[t].node && s.freeHead.To? {
      ChainPop(s.free, s.next, s.freeHead.n);
    }
  }

  lemma {:induction false} PopRun(s: State, run: seq<Action>, t: Tid)
    requires Inv(s) && Runs(s, run) && NoWrongRemoval(s, run) && UntilAcquired(s, run, t) && Popping(s.threads[t])
    ensures t < |After(s, run).threads| && After(s, run).threads[t].Holding?
    ensures var n := After(s, run).threads[t].n; TakesHead(s, run, t, n) || MakesNode(s, run, t, n)
    decreases |run|
  {
    var s' := Apply(s, run[0]);
    ApplyKeeps(s, run[0]);
    if run[0] == Step(t) {
      PopStep(s, t);
    } else {
      OtherClient(s, run[0], t);
    }
    hide Inv;
    hide Apply;
    if Popping(s'.threads[t]) {
      PopRun(s', run[1..], t);
    } else {
      HasNewRun(s', run[1..], t, s'.threads[t].n);
    }
  }

  /** Every run from a call of AcquireNode to its return: the node was the head of the free list when it
      was taken, or the free list was empty and the node is new. */
  lemma AcquiresHeadOrNew(s: State, t: Tid, run: seq<Action>)
    requires Inv(s) && Enabled(s, StartPop(t))
    requires Runs(Apply(s, StartPop(t)), run) && NoWrongRemoval(Apply(s, StartPop(t)), run)
    requires UntilAcquired(Apply(s, StartPop(t)), run, t)
    ensures var s1 := Apply(s, StartPop(t));
            var s' := After(s1, run);
            && t < |s'.threads| && s'.threads[t].Holding?
            && (TakesHead(s1, run, t, s'.threads[t].n) || MakesNode(s1, run, t, s'.threads[t].n))
  {
    ApplyKeeps(s, StartPop(t));
    PopRun(Apply(s, StartPop(t)), run, t);
  }

  // ---- The judgement of a record ----

  /** The collector deals with one record until `run` ends. */
  predicate UntilMovedOn(s: State, run: seq<Action>)
    requires Runs(s, run)
    decreases |run|
  {
    if run == [] then s.collector.Visit? else !s.collector.Visit? && UntilMovedOn(Apply(s, run[0]), run[1..])
  }

  /** The collector is taking record `n` off the gc list, or has put it on the free list. */
  predicate Recycling(s: State, n: Node, nxt: Link) {
    match s.collector
    case Remove(m, x, _, _) => m == n && x == nxt
    case Clear(m, x) => m == n && x == nxt
    case FreeRead(m, x) => m == n && x == nxt
    case FreeCas(m, x) => m == n && x == nxt
    case _ => false
  }

  predicate Recycled(s: State, n: Node, nxt: Link) {
    s.collector == Visit(nxt) && s.free != [] && s.free[0] == n && s.freeHead == To(n)
  }

  lemma RecycleStep(s: State, n: Node, nxt: Link)
    requires Recycling(s, n, nxt)
    ensures var s' := CollectorStep(s); Recycling(s', n, nxt) || Recycled(s', n, nxt) || s'.collector.Failed?
  {
  }

  lemma {:induction false} RecycleRun(s: State, run: seq<Action>, n: Node, nxt: Link)
    requires Inv(s) && Runs(s, run) && NoWrongRemoval(s, run) && UntilMovedOn(s, run)
    requires Recycling(s, n, nxt) || Recycled(s, n, nxt)
    ensures Inv(After(s, run)) && Recycled(After(s, run), n, nxt)
    decreases |run|
  {
    if run != [] {
      var s' := Apply(s, run[0]);
      ApplyKeeps(s, run[0]);
      NotFailed(s');
      hide Inv;
      if run[0].Collect? {
        RecycleStep(s, n, nxt);
        hide CollectorStep;
      } else {
        CollectorUntouched(s, run[0]);
        hide Apply;
      }
      hide Recycled;
      RecycleRun(s', run[1..], n, nxt);
    }
  }

  lemma NotFailed(s: State)
    requires Inv(s)
    ensures !s.collector.Failed?
  {
  }

  lemma CollectorUntouched(s: State, a: Action)
    requires Enabled(s, a) && !a.Collect? && !s.collector.Resting? && !s.collector.Judge?
    ensures Apply(s, a).collector == s.collector
  {
  }

  /** From the judgement of a record to the collector's next visit: a protected record is still on the gc
      list, and nothing has happened to it; any other has left the gc list for the top of the free list. */
  lemma JudgedRecord(s: State, protected: bool, run: seq<Action>)
    requires Inv(s) && s.collector.Judge?
    requires Runs(Apply(s, Decide(protected)), run) && NoWrongRemoval(Apply(s, Decide(protected)), run)
    requires UntilMovedOn(Apply(s, Decide(protected)), run)
    ensures var n, s' := s.collector.n, After(Apply(s, Decide(protected)), run);
            && s'.collector == Visit(s.collector.nxt)
            && (protected ==> run == [] && n in s'.gc && s'.gc == s.gc && s'.next == s.next)
            && (!protected ==> n !in s'.gc && s'.free != [] && s'.free[0] == n)
  {
    var n, s1 := s.collector.n, Apply(s, Decide(protected));
    if protected {
      JudgedIsListed(s);
    } else {
      ApplyKeeps(s, Decide(false));
      RecycleRun(s1, run, n, s.collector.nxt);
      var s' := After(s1, run);
      assert n in s'.free;
    }
  }

  lemma JudgedIsListed(s: State)
    requires Lists(s) && s.collector.Judge?
    ensures s.collector.n in s.gc
  {
    var l := [s.collector.n] + Rest(s);
    assert s.gc[|s.gc| - |l|..][0] == s.collector.n;
  }
}
