/** Two runs a client of the collector should know about: one in which it registers with records and is
    left behind, and one in which it is rejected because it was registered before. */
module RegistryFlaw {
  import opened Registry
  import opened RegistryInvariant
  import opened RegistryKeeps
  import opened RegistryTheorems

  lemma {:induction false} RunAppend(s: State, run: seq<Action>, a: Action)
    requires Runs(s, run) && Enabled(After(s, run), a)
    ensures Runs(s, run + [a]) && After(s, run + [a]) == Apply(After(s, run), a)
    decreases |run|
  {
    if run != [] {
      assert (run + [a])[1..] == run[1..] + [a];
      RunAppend(Apply(s, run[0]), run[1..], a);
    }
  }

  lemma Goes(s: State, a: Action)
    requires Reachable(s) && Enabled(s, a)
    ensures Reachable(Apply(s, a))
  {
    var s0, run :| Init(s0) && Runs(s0, run) && After(s0, run) == s;
    RunAppend(s0, run, a);
  }

  /** Nobody is registered; `p` is where the collector is in its first pass. */
  function Quiet(lock: Holder, p: CollectorPc): State {
    State([], [], 0, lock, [Unregistered], [Outside], [false], [false], [0], [0], false, p, [], [], [false])
  }

  lemma CollectorGoes(lock: Holder, p: CollectorPc, lock': Holder, p': CollectorPc)
    requires Reachable(Quiet(lock, p)) && !p.Failed? && Quiet(lock', p') == CollectorStep(Quiet(lock, p), false)
    ensures Reachable(Quiet(lock', p'))
  {
    Goes(Quiet(lock, p), Collect(false));
  }

  lemma FirstPassStarts()
    ensures Reachable(Quiet(Nobody, Begin))
  {
    var s0 := Quiet(Nobody, Begin);
    assert Init(s0) && Runs(s0, []) && After(s0, []) == s0;
  }

  lemma FirstPassScans()
    ensures Reachable(Quiet(ByPass, Scan(0, false, 0)))
  {
    FirstPassStarts();
    CollectorGoes(Nobody, Begin, Nobody, LockWait(0, false));
    CollectorGoes(Nobody, LockWait(0, false), ByPass, Scan(0, false, 0));
  }

  /** The first pass finds nothing, and the collector goes to sleep. */
  lemma FirstPass()
    ensures Reachable(Quiet(Nobody, Wait))
  {
    FirstPassScans();
    CollectorGoes(ByPass, Scan(0, false, 0), Nobody, Finish(false));
    CollectorGoes(Nobody, Finish(false), Nobody, Wait);
  }

  /** RegisterClient up to its first store, with nobody in the way. */
  lemma TakesLock(s: State, c: Cid) returns (s': State)
    requires Reachable(s) && Shape(s) && c < |s.pc| && s.pc[c] == Outside && MayRegister(s, c) && s.lock == Nobody
    ensures Reachable(s') && s' == SetPc(s.(lock := ByClient(c)), c, RegPush)
  {
    Goes(s, Register(c));
    var s1 := SetPc(s, c, RegWait);
    Goes(s1, Step(c));
    s' := Apply(s1, Step(c));
  }

  lemma ClientGoes(s: State, c: Cid) returns (s': State)
    requires Reachable(s) && Shape(s) && c < |s.pc| && s.pc[c] !in {Outside, Inside, Gone, Rejected}
    ensures s' == ClientStep(s, c) && Reachable(s')
  {
    Goes(s, Step(c));
    s' := Apply(s, Step(c));
  }

  lemma Registers(s: State, c: Cid) returns (s': State)
    requires Reachable(s) && Shape(s) && c < |s.pc| && s.pc[c] == Outside && MayRegister(s, c) && s.lock == Nobody
    ensures Reachable(s') && Shape(s') && |s'.pc| == |s.pc| && s'.pc[c] == Inside && s'.lock == Nobody
    ensures s'.collector == s.collector && s'.sem == s.sem
    ensures s'.gc == s.gc && s'.tests == s.tests && s'.owes == s.owes
  {
    hide Reachable;
    var s1 := TakesLock(s, c);
    var s2 := ClientGoes(s1, c);
    var s3 := ClientGoes(s2, c);
    s' := ClientGoes(s3, c);
  }

  /** A record is retired through the client, which has no collector_thread to signal yet. */
  lemma RetiresEarly() returns (s: State)
    ensures Reachable(s) && s == Quiet(Nobody, Wait).(gc := [true])
  {
    FirstPass();
    var s0 := Quiet(Nobody, Wait);
    Goes(s0, Retire(0));
    var s1 := s0.(gc := [true], tests := [1]);
    assert s1 == Apply(s0, Retire(0));
    hide Reachable;
    Goes(s1, Test(0));
    s := s0.(gc := [true]);
    assert s == Apply(s1, Test(0));
  }

  /** A client that already has a record registers while the collector sleeps.  Nothing is posted and
      nobody is about to post, so the collector does not move. */
  lemma CollectionCanBeLost() returns (s: State)
    ensures Reachable(s) && Shape(s) && |s.pc| == 1
    ensures s.pc[0] == Inside && s.gc[0] && s.collector.Wait? && !s.sem && s.tests[0] == 0 && s.owes[0] == 0
    ensures forall left :: CollectorStep(s, left) == s
  {
    var s1 := RetiresEarly();
    hide Reachable;
    s := Registers(s1, 0);
  }

  /** DeregisterClient with nobody in the way, up to the erasure. */
  lemma LeaveLocked(s: State, c: Cid) returns (s': State)
    requires Reachable(s) && Shape(s) && c < |s.pc| && s.pc[c] == Inside && s.state[c] == Registered && s.lock == Nobody
    ensures Reachable(s') && Shape(s') && |s'.pc| == |s.pc|
    ensures s'.pc[c] == DeregErase && s'.clients == s.clients && s'.ids == s.ids
  {
    Goes(s, Deregister(c));
    var s1 := ClientGoes(Apply(s, Deregister(c)), c);
    s' := ClientGoes(s1, c);
  }

  lemma LeaveErased(s: State, c: Cid) returns (s': State)
    requires Reachable(s) && Shape(s) && c < |s.pc| && s.pc[c] == DeregErase && c in s.clients && |s.ids| == |s.clients|
    ensures Reachable(s') && Shape(s') && |s'.pc| == |s.pc| && s'.pc[c] == Gone
  {
    hide Reachable;
    var s1 := ClientGoes(s, c);
    assert s1.pc[c] == DeregStore;
    s' := ClientGoes(s1, c);
  }

  lemma Leaves(s: State, c: Cid) returns (s': State)
    requires Reachable(s) && Shape(s) && c < |s.pc| && s.pc[c] == Inside && s.state[c] == Registered && s.lock == Nobody
    requires c in s.clients && |s.ids| == |s.clients|
    ensures Reachable(s') && Shape(s') && |s'.pc| == |s.pc| && s'.pc[c] == Gone
  {
    hide Reachable;
    var s1 := LeaveLocked(s, c);
    s' := LeaveErased(s1, c);
  }

  /** A client that has left cannot register again: the assertion on collector_thread fires. */
  lemma SecondRegistrationFails() returns (s: State)
    ensures Reachable(s) && Enabled(s, Register(0)) && s.state[0] == Unregistered
    ensures Apply(s, Register(0)).pc[0] == Rejected
  {
    FirstPass();
    var s1 := Registers(Quiet(Nobody, Wait), 0);
    ReachableInv(s1);
    assert StateOk(s1, 0);
    s := Leaves(s1, 0);
    ReachableInv(s);
    assert StateOk(s, 0);
  }
}
