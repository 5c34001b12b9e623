/** Which clients a collection pass collects, over every run. */
module RegistryPass {
  import opened Registry
  import opened RegistryInvariant
  import opened RegistryKeeps
  import opened RegistryTheorems

  // ---- Exactly who is collected ----

  /** The pass looks for records at the client with id `id`, and there are some. */
  predicate FindsRecords(s: State, a: Action, id: nat) {
    && a.Collect? && s.collector.Have? && s.collector.curr == id
    && s.collector.ix < |s.clients| && s.clients[s.collector.ix] < |s.gc| && s.gc[s.clients[s.collector.ix]]
  }

  /** The collector's next step in `run` finds client `c` registered. */
  predicate NextSees(s: State, run: seq<Action>, c: Cid)
    requires Runs(s, run)
    decreases |run|
  {
    && run != []
    && if run[0].Collect? then c < |s.state| && s.state[c] == Registered else NextSees(Apply(s, run[0]), run[1..], c)
  }

  /** At some point of `run` the pass finds records at id `id`, and then the client registered. */
  predicate Due(s: State, run: seq<Action>, id: nat)
    requires Runs(s, run)
    decreases |run|
  {
    && run != []
    && var s' := Apply(s, run[0]);
       || (FindsRecords(s, run[0], id) && NextSees(s', run[1..], s.clients[s.collector.ix]))
       || Due(s', run[1..], id)
  }

  /** The pass has found records at id `id` and is about to claim the client. */
  predicate Claiming(s: State, run: seq<Action>, id: nat)
    requires Runs(s, run)
  {
    && s.collector.Cas? && s.collector.curr == id && s.collector.ix < |s.clients|
    && NextSees(s, run, s.clients[s.collector.ix])
  }

  /** While the pass holds the lock, clients change neither the vectors nor the collector's position. */
  lemma ClientAction(s: State, a: Action)
    requires Inv(s) && Enabled(s, a) && !a.Collect?
    ensures var s' := Apply(s, a);
            s'.collector == s.collector && s'.collected == s.collected
            && (PassLocks(s.collector) ==> s'.clients == s.clients && s'.ids == s.ids)
  {
    if a.Step? {
      ClientFrame(s, a.c);
      ClientVectors(s, a.c);
      if Locking(s.pc[a.c]) {
        Excludes(s, a.c);
      }
      hide ClientStep;
    }
  }

  /** One step of the pass: what it adds to `collected`, and when it goes on to claim a client. */
  lemma PassAction(s: State, left: bool)
    requires Inv(s) && InPass(s.collector)
    ensures var s' := CollectorStep(s, left);
            && s'.clients == s.clients
            && (s.collector.Cas? ==> s.collector.ix < |s.clients| && s.clients[s.collector.ix] < |s.state|)
            && s'.collected == (if s.collector.Cas? && s.state[s.clients[s.collector.ix]] == Registered
                                then s.collected + [s.collector.curr] else s.collected)
            && (s'.collector.Cas? <==> s.collector.Have? && FindsRecords(s, Collect(left), s.collector.curr))
            && (s'.collector.Cas? ==> s'.collector.curr == s.collector.curr && s'.collector.ix == s.collector.ix)
  {
    if s.collector.Cas? {
      CasSees(s);
    }
  }

  /** One action of anybody: who is then collected or about to be. */
  lemma CollectedStep(s: State, run: seq<Action>, id: nat)
    requires Inv(s) && Runs(s, run) && run != [] && InPass(s.collector)
    ensures var s' := Apply(s, run[0]);
            id in s'.collected || Claiming(s', run[1..], id) <==>
              || id in s.collected || Claiming(s, run, id)
              || (FindsRecords(s, run[0], id) && NextSees(s', run[1..], s.clients[s.collector.ix]))
  {
    if run[0].Collect? {
      PassAction(s, run[0].left);
    } else {
      ClientAction(s, run[0]);
    }
    hide Inv;
    hide Apply;
  }

  lemma {:induction false} CollectedIff(s: State, run: seq<Action>, id: nat)
    requires Inv(s) && Runs(s, run) && OnePass(s, run)
    ensures id in After(s, run).collected <==> id in s.collected || Claiming(s, run, id) || Due(s, run, id)
    decreases |run|
  {
    if run != [] {
      ApplyKeeps(s, run[0]);
      CollectedStep(s, run, id);
      hide Inv;
      hide Apply;
      hide Claiming;
      CollectedIff(Apply(s, run[0]), run[1..], id);
    }
  }

  /** The state in which a pass begins. */
  predicate PassBegins(s: State) {
    s.collector == LockWait(0, false) && s.examined == [] && s.collected == []
  }

  /** In every run within one pass, an id is collected if and only if the pass found records at its
      client and, at its next step, the client registered. */
  lemma CollectedExactly(s: State, run: seq<Action>, id: nat)
    requires Reachable(s) && PassBegins(s) && Runs(s, run) && OnePass(s, run)
    ensures id in After(s, run).collected <==> Due(s, run, id)
  {
    ReachableInv(s);
    CollectedIff(s, run, id);
  }

  // ---- Nobody waiting is passed over ----

  /** Client `c` stays registered with records until its id is collected. */
  predicate Waits(s: State, run: seq<Action>, c: Cid, id: nat)
    requires Runs(s, run)
    decreases |run|
  {
    || id in s.collected
    || (&& c < |s.pc| && c < |s.gc| && s.pc[c] == Inside && s.gc[c]
        && (run != [] ==> Waits(Apply(s, run[0]), run[1..], c, id)))
  }

  /** The entry of client `c` in the vectors. */
  predicate Entry(s: State, c: Cid, id: nat) {
    exists i :: 0 <= i < |s.clients| && i < |s.ids| && s.clients[i] == c && s.ids[i] == id
  }

  /** A waiting client is ahead of the pass, or the pass is at it. */
  predicate NotPassed(s: State, c: Cid, id: nat) {
    || id in s.collected
    || (&& Entry(s, c, id)
        && match s.collector
           case LockWait(curr, _) => curr < id
           case Scan(curr, _, _) => curr < id
           case Have(curr, _, ix) => curr < id || (ix < |s.clients| && s.clients[ix] == c && curr == id)
           case Cas(curr, _, ix) => curr < id || (ix < |s.clients| && s.clients[ix] == c && curr == id)
           case Work(curr, _, _) => curr < id
           case Check(curr, _, _) => curr < id
           case Reset(curr, _, _) => curr < id
           case _ => false)
  }

  lemma EntryKept(s: State, a: Action, c: Cid, id: nat)
    requires Inv(s) && Enabled(s, a) && c < |s.pc| && s.pc[c] == Inside && Entry(s, c, id)
    ensures Entry(Apply(s, a), c, id)
  {
    var i :| 0 <= i < |s.clients| && i < |s.ids| && s.clients[i] == c && s.ids[i] == id;
    var s' := Apply(s, a);
    if a.Collect? {
      CollectorFrame(s, a.left);
      hide CollectorStep;
      assert s'.clients[i] == c && s'.ids[i] == id;
    } else if a.Step? && s.pc[a.c] == DeregErase {
      ErasedEntry(s, a.c, i);
    } else if a.Step? && s.pc[a.c] == RegPush {
      assert s'.clients[i] == c && s'.ids[i] == id;
    } else if a.Step? {
      ClientVectors(s, a.c);
      hide ClientStep;
      assert s'.clients[i] == c && s'.ids[i] == id;
    } else {
      assert s'.clients[i] == c && s'.ids[i] == id;
    }
  }

  lemma ErasedEntry(s: State, d: Cid, i: nat)
    requires Shape(s) && VectorsOk(s) && d < |s.pc| && s.pc[d] == DeregErase && i < |s.clients| && s.clients[i] != d
    ensures Entry(ClientStep(s, d), s.clients[i], s.ids[i])
  {
    var k, s' := IndexOf(s.clients, d), ClientStep(s, d);
    assert d in s.clients;
    hide VectorsOk;
    EraseVectors(s, s', d, k);
    hide *;
    ShiftedEntry(s, s', k, i);
  }

  lemma ShiftedEntry(s: State, s': State, k: nat, i: nat)
    requires Shifted(s, s', k) && i < |s.clients| && i != k && k < |s.clients|
    ensures Entry(s', s.clients[i], s.ids[i])
  {
    var j := if i < k then i else i - 1;
    assert s'.clients[j] == s.clients[i] && s'.ids[j] == s.ids[i];
  }

  lemma NotPassedClient(s: State, a: Action, c: Cid, id: nat)
    requires Inv(s) && Enabled(s, a) && !a.Collect? && c < |s.pc| && s.pc[c] == Inside && NotPassed(s, c, id)
    ensures NotPassed(Apply(s, a), c, id)
  {
    ClientAction(s, a);
    if id !in s.collected {
      EntryKept(s, a, c, id);
    }
    hide Inv;
    hide Apply;
  }

  /** The scan stops at the next id in order, so it does not jump over `c`. */
  lemma NotPassedScan(s: State, c: Cid, id: nat)
    requires Shape(s) && VectorsOk(s) && s.collector.Scan? && NotPassed(s, c, id) && id !in s.collected
    requires s.collector.ix < |s.ids| && forall j :: 0 <= j < s.collector.ix ==> s.ids[j] <= s.collector.curr
    ensures NotPassed(CollectorStep(s, false), c, id)
  {
    var i :| 0 <= i < |s.clients| && i < |s.ids| && s.clients[i] == c && s.ids[i] == id;
    var ix, s' := s.collector.ix, CollectorStep(s, false);
    assert s'.clients[i] == c && s'.ids[i] == id;
    assert ix < i ==> s.ids[ix] < s.ids[i];
  }

  /** With records and registered, the client the pass is at is claimed. */
  lemma NotPassedAt(s: State, c: Cid, id: nat)
    requires Inv(s) && (s.collector.Have? || s.collector.Cas?) && NotPassed(s, c, id) && id !in s.collected
    requires c < |s.pc| && s.pc[c] == Inside && s.gc[c]
    ensures NotPassed(CollectorStep(s, false), c, id)
  {
    var i :| 0 <= i < |s.clients| && i < |s.ids| && s.clients[i] == c && s.ids[i] == id;
    var s' := CollectorStep(s, false);
    CollectorFrame(s, false);
    assert s'.clients[i] == c && s'.ids[i] == id;
    assert StateOk(s, c);
    if s.collector.Cas? {
      CasSees(s);
    }
  }

  lemma NotPassedOther(s: State, left: bool, c: Cid, id: nat)
    requires Inv(s) && InPass(s.collector) && !PassLocks(s.collector) && NotPassed(s, c, id) && id !in s.collected
    ensures NotPassed(CollectorStep(s, left), c, id)
  {
    var i :| 0 <= i < |s.clients| && i < |s.ids| && s.clients[i] == c && s.ids[i] == id;
    var s' := CollectorStep(s, left);
    NeverFails(s, left);
    CollectorFrame(s, left);
    assert s'.clients[i] == c && s'.ids[i] == id;
  }

  /** The scan is at its end. */
  predicate Scanned(s: State) {
    s.collector.Scan? && s.collector.ix >= |s.ids|
  }

  lemma NotPassedCollector(s: State, left: bool, c: Cid, id: nat)
    requires Inv(s) && InPass(s.collector) && !Scanned(s) && NotPassed(s, c, id) && id !in s.collected
    requires c < |s.pc| && s.pc[c] == Inside && s.gc[c]
    ensures NotPassed(CollectorStep(s, left), c, id)
  {
    hide NotPassed;
    if s.collector.Scan? {
      NotPassedScan(s, c, id);
    } else if PassLocks(s.collector) {
      NotPassedAt(s, c, id);
    } else {
      NotPassedOther(s, left, c, id);
    }
  }

  /** The collector is in this pass, its scan not yet at the end, until `run` ends. */
  predicate Scanning(s: State, run: seq<Action>)
    requires Runs(s, run)
    decreases |run|
  {
    run == [] || (InPass(s.collector) && !(run[0].Collect? && Scanned(s)) && Scanning(Apply(s, run[0]), run[1..]))
  }

  lemma CollectedStays(s: State, a: Action, id: nat)
    requires Inv(s) && Enabled(s, a) && InPass(s.collector) && id in s.collected
    ensures id in Apply(s, a).collected
  {
    if a.Collect? {
      PassAction(s, a.left);
    } else {
      ClientAction(s, a);
    }
    hide Inv;
    hide Apply;
  }

  lemma NotPassedStep(s: State, a: Action, c: Cid, id: nat)
    requires Inv(s) && Enabled(s, a) && InPass(s.collector) && !(a.Collect? && Scanned(s)) && NotPassed(s, c, id)
    requires id in s.collected || (c < |s.pc| && s.pc[c] == Inside && s.gc[c])
    ensures NotPassed(Apply(s, a), c, id)
  {
    if id in s.collected {
      CollectedStays(s, a, id);
      hide Inv;
      hide Apply;
    } else {
      hide NotPassed;
      if a.Collect? {
        NotPassedCollector(s, a.left, c, id);
      } else {
        NotPassedClient(s, a, c, id);
      }
    }
  }

  lemma {:induction false} NotPassedRun(s: State, run: seq<Action>, c: Cid, id: nat)
    requires Inv(s) && Runs(s, run) && Scanning(s, run) && Waits(s, run, c, id) && NotPassed(s, c, id)
    ensures NotPassed(After(s, run), c, id)
    decreases |run|
  {
    if run != [] {
      var s' := Apply(s, run[0]);
      NotPassedStep(s, run[0], c, id);
      if id in s.collected {
        CollectedStays(s, run[0], id);
        CollectedWaits(s', run[1..], c, id);
      }
      ApplyKeeps(s, run[0]);
      hide Inv;
      hide NotPassed;
      hide Apply;
      NotPassedRun(s', run[1..], c, id);
    }
  }

  lemma CollectedWaits(s: State, run: seq<Action>, c: Cid, id: nat)
    requires Runs(s, run) && id in s.collected
    ensures Waits(s, run, c, id) && NotPassed(s, c, id)
  {
  }

  /** A client that is registered when a pass begins, and stays registered with records until it is
      collected, has been collected, once, when the scan reaches its end. */
  lemma WaitingIsCollected(s: State, run: seq<Action>, c: Cid, id: nat)
    requires Reachable(s) && PassBegins(s) && Entry(s, c, id)
    requires Runs(s, run) && Scanning(s, run) && Scanned(After(s, run)) && Waits(s, run, c, id)
    ensures id in After(s, run).collected && Increasing(After(s, run).collected)
  {
    ReachableInv(s);
    var i :| 0 <= i < |s.clients| && i < |s.ids| && s.clients[i] == c && s.ids[i] == id;
    assert NotPassed(s, c, id);
    NotPassedRun(s, run, c, id);
    RunsKeep(s, run);
    if Entry(After(s, run), c, id) {
      BehindScan(After(s, run), c, id);
    }
  }

  lemma BehindScan(s: State, c: Cid, id: nat)
    requires PassOk(s) && Scanned(s) && Entry(s, c, id)
    ensures id <= s.collector.curr
  {
  }

  // ---- What the pass reports ----

  /** In some step of `run` the closing test of a client's collection finds records left. */
  predicate LeavesRecords(s: State, run: seq<Action>)
    requires Runs(s, run)
    decreases |run|
  {
    && run != []
    && (|| (run[0].Collect? && s.collector.Check? && s.collector.c < |s.gc| && s.gc[s.collector.c])
        || LeavesRecords(Apply(s, run[0]), run[1..]))
  }

  predicate Pending(p: CollectorPc) {
    !p.Begin? && !p.Wait? && !p.Failed? && p.pending
  }

  lemma PendingStep(s: State, left: bool)
    requires Inv(s) && InPass(s.collector)
    ensures Pending(CollectorStep(s, left).collector) <==>
              Pending(s.collector) || (s.collector.Check? && s.collector.c < |s.gc| && s.gc[s.collector.c])
  {
    NeverFails(s, left);
  }

  lemma {:induction false} PendingRun(s: State, run: seq<Action>)
    requires Inv(s) && Runs(s, run) && OnePass(s, run)
    ensures Pending(After(s, run).collector) <==> Pending(s.collector) || LeavesRecords(s, run)
    decreases |run|
  {
    if run != [] {
      ApplyKeeps(s, run[0]);
      if run[0].Collect? {
        PendingStep(s, run[0].left);
      } else {
        ClientAction(s, run[0]);
      }
      hide Inv;
      hide Apply;
      PendingRun(Apply(s, run[0]), run[1..]);
    }
  }

  /** A pass ends with a post if and only if some client it collected still had records afterwards. */
  lemma PostsExactly(s: State, run: seq<Action>)
    requires Reachable(s) && PassBegins(s) && Runs(s, run) && OnePass(s, run) && After(s, run).collector.Finish?
    ensures var s' := After(s, run);
            && Posts(s', Collect(false)) == LeavesRecords(s, run)
            && Shape(s') && CollectorStep(s', false).sem == (s'.sem || LeavesRecords(s, run))
  {
    ReachableInv(s);
    PendingRun(s, run);
    RunsKeep(s, run);
  }

  /** Nobody retires anything in `run`, and every collection empties its client's list. */
  predicate Undisturbed(run: seq<Action>) {
    forall i :: 0 <= i < |run| ==> !run[i].Retire? && run[i] != Collect(true)
  }

  /** A client that has just been collected has no records. */
  predicate CheckedEmpty(s: State) {
    s.collector.Check? ==> s.collector.c < |s.gc| && !s.gc[s.collector.c]
  }

  lemma CheckedStep(s: State, a: Action)
    requires Inv(s) && Enabled(s, a) && CheckedEmpty(s) && !a.Retire? && a != Collect(true)
    ensures CheckedEmpty(Apply(s, a))
  {
    if a.Collect? {
      NeverFails(s, false);
    } else {
      ClientAction(s, a);
      if a.Step? {
        ClientFrame(s, a.c);
        hide ClientStep;
      }
    }
  }

  lemma {:induction false} UndisturbedRun(s: State, run: seq<Action>)
    requires Inv(s) && Runs(s, run) && CheckedEmpty(s) && Undisturbed(run)
    ensures !LeavesRecords(s, run)
    decreases |run|
  {
    if run != [] {
      CheckedStep(s, run[0]);
      ApplyKeeps(s, run[0]);
      hide Inv;
      UndisturbedRun(Apply(s, run[0]), run[1..]);
    }
  }

  /** A pass in which every collection succeeds and nobody retires ends without a post. */
  lemma UndisturbedPassRests(s: State, run: seq<Action>)
    requires Reachable(s) && PassBegins(s) && Runs(s, run) && OnePass(s, run) && Undisturbed(run)
    requires After(s, run).collector.Finish?
    ensures After(s, run).collector == Finish(false)
  {
    ReachableInv(s);
    UndisturbedRun(s, run);
    PendingRun(s, run);
  }

  // ---- The collector does not spin ----

  /** Passes begun in `run` (`passes`), or posts made. */
  function Tally(s: State, run: seq<Action>, passes: bool): nat
    requires Runs(s, run)
    decreases |run|
  {
    if run == [] then 0
    else
      var now := if passes then run[0].Collect? && s.collector.Begin? else Posts(s, run[0]);
      (if now then 1 else 0) + Tally(Apply(s, run[0]), run[1..], passes)
  }

  /** What may still be begun without another post. */
  function Credit(s: State): nat {
    (if s.collector.Begin? then 1 else 0) + (if s.sem then 1 else 0)
  }

  lemma CreditStep(s: State, a: Action)
    requires Enabled(s, a)
    ensures Credit(Apply(s, a)) + (if a.Collect? && s.collector.Begin? then 1 else 0)
            <= Credit(s) + (if Posts(s, a) then 1 else 0)
  {
    if a.Step? {
      ClientFrame(s, a.c);
      hide ClientStep;
    }
  }

  lemma {:induction false} CreditRun(s: State, run: seq<Action>)
    requires Runs(s, run)
    ensures Credit(After(s, run)) + Tally(s, run, true) <= Credit(s) + Tally(s, run, false)
    decreases |run|
  {
    if run != [] {
      CreditStep(s, run[0]);
      CreditRun(Apply(s, run[0]), run[1..]);
    }
  }

  /** Every pass but the first is paid for by a post. */
  lemma PassesArePaidFor(s: State, run: seq<Action>)
    requires Init(s) && Runs(s, run)
    ensures Tally(s, run, true) <= 1 + Tally(s, run, false)
  {
    CreditRun(s, run);
  }
}
