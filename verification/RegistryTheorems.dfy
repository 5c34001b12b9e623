/** What the registry and the collection pass guarantee, over every run. */
module RegistryTheorems {
  import opened Registry
  import opened RegistryInvariant
  import opened RegistryKeeps

  // ---- Collecting clients stay registered ----

  /** A client in the collecting state is in the vectors and being served; its deregistration cannot
      get past its compare-exchange. */
  lemma CollectingStaysRegistered(s: State, c: Cid)
    requires Reachable(s) && c < |s.pc|
    ensures c < |s.state| && (s.state[c] == Collecting <==> Serving(s.collector, c))
    ensures s.state[c] == Collecting ==> c in s.clients && Live(s.pc[c])
    ensures s.state[c] == Collecting && s.pc[c] == DeregCas && Shape(s) ==> ClientStep(s, c) == s
  {
    ReachableInv(s);
    assert StateOk(s, c);
  }

  /** None of the later assertions fires: a failing compare-exchange of DeregisterClient sees
      k_COLLECTING, its search finds the client, and the pass never fails.  A client that registers
      is unregistered; its collector_thread is NULL exactly if this is its first registration. */
  lemma AssertionsHold(s: State, c: Cid)
    requires Reachable(s) && c < |s.pc|
    ensures c < |s.state| && c < |s.bound| && !s.collector.Failed?
    ensures s.pc[c] in {Outside, Gone} ==> s.state[c] == Unregistered && (s.bound[c] <==> s.pc[c] == Gone)
    ensures s.pc[c] == DeregCas && s.state[c] != Registered ==> s.state[c] == Collecting
    ensures s.pc[c] == DeregErase ==> c in s.clients && |s.clients| == |s.ids|
  {
    ReachableInv(s);
    assert StateOk(s, c);
  }

  // ---- The pass ----

  /** When the scan runs off the end, every id then listed has been examined: in particular every
      client registered during the whole pass.  Each was examined once, in increasing order, however
      erasures shifted the indices, and none was collected twice. */
  lemma PassIsComplete(s: State)
    requires Reachable(s) && s.collector.Scan? && s.collector.ix >= |s.ids|
    ensures |s.clients| == |s.ids| && Increasing(s.ids)
    ensures forall id :: id in s.ids ==> id in s.examined
    ensures Increasing(s.examined) && Increasing(s.collected)
    ensures forall id :: id in s.collected ==> id in s.examined
  {
    ReachableInv(s);
    forall id | id in s.ids
      ensures id in s.examined
    {
      var i :| 0 <= i < |s.ids| && s.ids[i] == id;
      assert s.ids[i] <= s.collector.curr;
    }
  }

  // ---- Termination ----

  /** Strictly increasing positive ids up to `max` are at most `max` many. */
  lemma {:induction false} CountIds(l: seq<nat>, max: nat)
    requires Increasing(l) && forall i :: 0 <= i < |l| ==> 0 < l[i] <= max
    ensures |l| <= max
    decreases |l|
  {
    if l != [] {
      var k := |l| - 1;
      assert forall i :: 0 <= i < k ==> l[..k][i] < l[k];
      CountIds(l[..k], l[k] - 1);
    }
  }

  /** Ids still to come if `max` is the last one, and whether the current one is being dealt with. */
  function Major(s: State, max: nat): int
    requires InPass(s.collector)
  {
    2 * (max - s.collector.curr) + if s.collector.LockWait? || s.collector.Scan? then 0 else 1
  }

  function Minor(s: State, max: nat): int
    requires InPass(s.collector)
  {
    match s.collector
    case LockWait(_, _) => max + 3
    case Scan(_, _, ix) => |s.ids| - ix + 1
    case Have(_, _, _) => 5
    case Cas(_, _, _) => 4
    case Work(_, _, _) => 3
    case Check(_, _, _) => 2
    case Reset(_, _, _) => 1
    case _ => 0
  }

  /** The pair (a, b) as one number, for b below `w`. */
  function Pack(a: int, b: int, w: int): int {
    a * w + b
  }

  /** An upper bound on the collector's remaining steps in this pass if no id above `max` is given out. */
  function Rank(s: State, max: nat): int {
    if InPass(s.collector) then Pack(Major(s, max), Minor(s, max), max + 6) else 0
  }

  lemma RankBounds(s: State, max: nat)
    requires Inv(s) && InPass(s.collector) && s.idValue <= max
    ensures Major(s, max) >= 0 && 0 < Minor(s, max) <= max + 5 && |s.ids| <= max
  {
    CountIds(s.ids, s.idValue);
    assert s.examined != [] ==> Last(s.examined) in s.examined;
  }

  lemma Scale(x: int, y: int, w: int)
    requires x <= y && 0 < w
    ensures x * w <= y * w
  {
  }

  /** Packing keeps the lexicographic order. */
  lemma Lexicographic(a: int, b: int, a': int, b': int, w: int)
    requires 0 < w && ((a' < a && 0 <= b && b' < w) || (a' == a && b' < b))
    ensures Pack(a', b', w) < Pack(a, b, w)
  {
    if a' < a {
      Scale(a' + 1, a, w);
      assert (a' + 1) * w == a' * w + w;
    }
  }

  lemma PackPositive(a: int, b: int, w: int)
    requires 0 <= a && 0 < b && 0 < w
    ensures 0 < Pack(a, b, w)
  {
    Scale(0, a, w);
  }

  /** The collector waits only where the source does: for the lock or for the semaphore. */
  predicate Blocked(s: State) {
    (s.collector.LockWait? && !s.lock.Nobody?) || (s.collector.Wait? && !s.sem)
  }

  lemma PassStepOrder(s: State, left: bool, max: nat)
    requires Inv(s) && InPass(s.collector) && !Blocked(s) && s.idValue <= max && |s.ids| <= max
    ensures var s' := CollectorStep(s, left);
            && s'.idValue == s.idValue
            && (InPass(s'.collector) ==>
                  || Major(s', max) < Major(s, max)
                  || (Major(s', max) == Major(s, max) && Minor(s', max) < Minor(s, max)))
  {
  }

  lemma PassStepDecreases(s: State, left: bool, max: nat)
    requires Inv(s) && InPass(s.collector) && !Blocked(s) && s.idValue <= max
    ensures Rank(CollectorStep(s, left), max) < Rank(s, max)
  {
    var s' := CollectorStep(s, left);
    RankBounds(s, max);
    PassStepOrder(s, left, max);
    CollectKeeps(s, left);
    if InPass(s'.collector) {
      RankBounds(s', max);
    }
    hide Inv;
    hide CollectorStep;
    hide Major;
    hide Minor;
    hide Pack;
    hide Blocked;
    if InPass(s'.collector) {
      Lexicographic(Major(s, max), Minor(s, max), Major(s', max), Minor(s', max), max + 6);
    } else {
      PackPositive(Major(s, max), Minor(s, max), max + 6);
    }
  }

  lemma RankFrame(s: State, s': State, max: nat)
    requires s'.collector == s.collector && (s.collector.Scan? ==> |s'.ids| == |s.ids|)
    ensures Rank(s', max) == Rank(s, max)
  {
  }

  lemma ClientStepRank(s: State, c: Cid, max: nat)
    requires Shape(s) && LockOk(s) && c < |s.pc|
    ensures Rank(ClientStep(s, c), max) == Rank(s, max)
  {
    ClientFrame(s, c);
    if s.pc[c] == DeregErase || s.pc[c] == RegPush {
      Excludes(s, c);
    } else {
      ClientVectors(s, c);
    }
    hide ClientStep;
    RankFrame(s, ClientStep(s, c), max);
  }

  /** No step of a client, not even a registration up to id `max`, pushes the end of the pass away. */
  lemma ClientsDoNotDelay(s: State, a: Action, max: nat)
    requires Inv(s) && Enabled(s, a) && !a.Collect?
    ensures Rank(Apply(s, a), max) == Rank(s, max)
  {
    if a.Step? {
      hide LockOk;
      hide Rank;
      ClientStepRank(s, a.c, max);
    } else {
      hide Inv;
      RankFrame(s, Apply(s, a), max);
    }
  }

  /** Steps the collector takes in `run`. */
  function CollectorSteps(s: State, run: seq<Action>): nat
    requires Runs(s, run)
    decreases |run|
  {
    if run == [] then 0
    else (if run[0].Collect? && !Blocked(s) then 1 else 0) + CollectorSteps(Apply(s, run[0]), run[1..])
  }

  /** The collector is in one and the same pass until `run` ends. */
  predicate OnePass(s: State, run: seq<Action>)
    requires Runs(s, run)
    decreases |run|
  {
    run == [] || (InPass(s.collector) && OnePass(Apply(s, run[0]), run[1..]))
  }

  lemma IdsGrow(s: State, a: Action)
    requires Enabled(s, a)
    ensures s.idValue <= Apply(s, a).idValue
  {
    if a.Step? {
      if s.pc[a.c] != RegPush && s.pc[a.c] != DeregErase {
        ClientVectors(s, a.c);
        hide ClientStep;
      }
    } else if a.Collect? {
      CollectorFrame(s, a.left);
      hide CollectorStep;
    }
  }

  lemma {:induction false} IdsGrowAlong(s: State, run: seq<Action>)
    requires Runs(s, run)
    ensures s.idValue <= After(s, run).idValue
    decreases |run|
  {
    if run != [] {
      IdsGrow(s, run[0]);
      IdsGrowAlong(Apply(s, run[0]), run[1..]);
    }
  }

  /** Every pass ends unless registrations never stop: however clients interleave, it takes a number of
      steps that depends only on where it starts and on the last id given out before it ends. */
  lemma {:induction false} PassTerminates(s: State, run: seq<Action>, max: nat)
    requires Inv(s) && Runs(s, run) && OnePass(s, run) && After(s, run).idValue <= max
    ensures CollectorSteps(s, run) <= Rank(s, max)
    decreases |run|
  {
    IdsGrowAlong(s, run);
    RankNotNegative(s, max);
    if run != [] {
      var s' := Apply(s, run[0]);
      ApplyKeeps(s, run[0]);
      PassTerminates(s', run[1..], max);
      if run[0].Collect? {
        if !Blocked(s) {
          PassStepDecreases(s, run[0].left, max);
        } else {
          assert s' == s;
        }
      } else {
        ClientsDoNotDelay(s, run[0], max);
      }
    }
  }

  lemma RankNotNegative(s: State, max: nat)
    requires Inv(s) && s.idValue <= max
    ensures Rank(s, max) >= 0
  {
    if InPass(s.collector) {
      RankBounds(s, max);
      PackPositive(Major(s, max), Minor(s, max), max + 6);
    }
  }

  lemma HolderStep(s: State, c: Cid)
    requires Shape(s) && LockOk(s) && VectorsOk(s) && c < |s.pc| && s.lock == ByClient(c)
    ensures var s' := ClientStep(s, c);
            && Enabled(s, Step(c))
            && (s'.lock == Nobody || s'.lock == ByClient(c))
            && (s'.lock == ByClient(c) ==> 0 < StepsHolding(s'.pc[c]))
            && 0 < StepsHolding(s.pc[c]) && StepsHolding(s'.pc[c]) < StepsHolding(s.pc[c])
  {
    assert Locking(s.pc[c]);
    assert s.pc[c] == DeregErase ==> c in s.clients;
  }

  /** The pass is never blocked for good: whoever holds the lock can step, and gives it up within
      three of its own steps. */
  lemma {:induction false} LockIsReleased(s: State, c: Cid) returns (run: seq<Action>)
    requires Inv(s) && s.lock == ByClient(c) && c < |s.pc|
    ensures |run| <= StepsHolding(s.pc[c]) <= 3 && (forall a :: a in run ==> a == Step(c))
    ensures Runs(s, run) && After(s, run).lock == Nobody
    decreases StepsHolding(s.pc[c])
  {
    HolderStep(s, c);
    ClientStepKeeps(s, c);
    hide Inv;
    var s1 := ClientStep(s, c);
    assert Apply(s, Step(c)) == s1;
    hide ClientStep;
    if s1.lock == Nobody {
      run := [Step(c)];
      assert run[1..] == [] && Runs(s1, []);
    } else {
      var rest := LockIsReleased(s1, c);
      run := [Step(c)] + rest;
      assert run[1..] == rest;
    }
  }

  function StepsHolding(p: ClientPc): nat {
    match p
    case RegPush => 3
    case RegStore => 2
    case RegBind => 1
    case DeregErase => 2
    case DeregStore => 1
    case _ => 0
  }

  // ---- Registering again ----

  lemma OutsideStep(s: State, a: Action, c: Cid)
    requires Enabled(s, a)
    ensures |Apply(s, a).pc| == |s.pc|
    ensures c < |s.pc| ==> (Apply(s, a).pc[c] == Outside <==> s.pc[c] == Outside && a != Register(c))
  {
    if a.Step? {
      ClientMoves(s, a.c);
      hide ClientStep;
    }
  }

  lemma {:induction false} OutsideUntilRegistered(s: State, run: seq<Action>, c: Cid)
    requires Runs(s, run)
    ensures |After(s, run).pc| == |s.pc|
    ensures c < |s.pc| ==> (After(s, run).pc[c] == Outside <==> s.pc[c] == Outside && Register(c) !in run)
    decreases |run|
  {
    if run != [] {
      OutsideStep(s, run[0], c);
      OutsideUntilRegistered(Apply(s, run[0]), run[1..], c);
      assert run == [run[0]] + run[1..];
    }
  }

  /** The checks at the start of RegisterClient pass if and only if the client was never registered
      before: deregistration leaves collector_thread as it was. */
  lemma RegistersOnce(s0: State, run: seq<Action>, c: Cid)
    requires Init(s0) && Runs(s0, run) && Enabled(After(s0, run), Register(c))
    ensures var s' := Apply(After(s0, run), Register(c));
            && (s'.pc[c] == RegWait <==> Register(c) !in run)
            && (s'.pc[c] == Rejected <==> Register(c) in run)
  {
    var s := After(s0, run);
    OutsideUntilRegistered(s0, run, c);
    assert Reachable(s);
    ReachableInv(s);
    RegisterSees(s, c);
  }

  // ---- Lost collections ----

  /** While the collector waits on its semaphore, a live client with records has a post pending: the
      semaphore is raised, or a retiring thread is between its push and its signal.  The one exception
      is a client that was registered with records while the collector was at rest. */
  lemma NoLostCollection(s: State, c: Cid)
    requires Reachable(s) && s.collector.Wait? && c < |s.pc| && Live(s.pc[c])
    ensures Shape(s)
    ensures s.gc[c] ==> s.sem || s.tests[c] > 0 || s.owes[c] > 0 || s.stranded[c]
  {
    ReachableInv(s);
    var i :| 0 <= i < |s.clients| && s.clients[i] == c;
    assert s.gc[c] ==> Covered(s, i);
  }

  /** Somebody posts on the semaphore. */
  predicate Posts(s: State, a: Action) {
    a.Signal? || (a.Collect? && s.collector == Finish(true))
  }

  predicate NoPost(s: State, run: seq<Action>)
    requires Runs(s, run)
    decreases |run|
  {
    run == [] || (!Posts(s, run[0]) && NoPost(Apply(s, run[0]), run[1..]))
  }

  /** The registration of `c` takes effect while its gc list has records and the collector is at rest. */
  predicate RegistersAtRest(s: State, a: Action, c: Cid)
    requires Shape(s) && c < |s.pc|
  {
    a == Step(c) && s.pc[c] == RegBind && s.gc[c] && AtRest(s)
  }

  /** Such a registration occurs in `run`, and nobody posts afterwards. */
  predicate LeftBehind(s: State, run: seq<Action>, c: Cid)
    requires Runs(s, run)
    decreases |run|
  {
    && run != []
    && var s' := Apply(s, run[0]);
       || (c < |s.pc| && RegistersAtRest(s, run[0], c) && NoPost(s', run[1..]))
       || LeftBehind(s', run[1..], c)
  }

  lemma StrandedStep(s: State, a: Action, c: Cid)
    requires Inv(s) && Enabled(s, a) && c < |s.pc|
    ensures |Apply(s, a).pc| == |s.pc|
    ensures Apply(s, a).stranded[c] <==> RegistersAtRest(s, a, c) || (s.stranded[c] && !Posts(s, a))
  {
    hide LockOk;
    hide VectorsOk;
    hide PassOk;
    hide CoverOk;
    hide StatesOk;
    hide NewestOk;
    if a.Step? && s.pc[a.c] != RegBind {
      ClientVectors(s, a.c);
      hide ClientStep;
    }
  }

  lemma {:induction false} StrandedMeans(s: State, run: seq<Action>, c: Cid)
    requires Inv(s) && Runs(s, run) && c < |s.pc|
    ensures Shape(After(s, run)) && |After(s, run).pc| == |s.pc|
    ensures After(s, run).stranded[c] <==> LeftBehind(s, run, c) || (s.stranded[c] && NoPost(s, run))
    decreases |run|
  {
    if run != [] {
      StrandedStep(s, run[0], c);
      ApplyKeeps(s, run[0]);
      StrandedMeans(Apply(s, run[0]), run[1..], c);
    }
  }

  /** Exactly when a collection is lost: with the collector waiting and nothing posted or about to be
      posted, a live client has records if and only if it was registered with records while the
      collector was at rest, and nobody has posted since. */
  lemma LostExactly(s0: State, run: seq<Action>, c: Cid)
    requires Init(s0) && Runs(s0, run) && c < |s0.pc|
    ensures var s := After(s0, run);
            && Shape(s) && |s.pc| == |s0.pc|
            && (s.collector.Wait? && !s.sem && Live(s.pc[c]) && s.tests[c] == 0 && s.owes[c] == 0 ==>
                  (s.gc[c] <==> LeftBehind(s0, run, c)))
  {
    var s := After(s0, run);
    InitInv(s0);
    RunsKeep(s0, run);
    StrandedMeans(s0, run, c);
    assert Reachable(s);
    if s.collector.Wait? && Live(s.pc[c]) {
      NoLostCollection(s, c);
    }
  }
}
