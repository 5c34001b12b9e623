/** No reachable state of the read/write lock is a trap: some schedule always empties it. */
module RwLockProgress {
  import opened RwLock
  import opened RwLockInvariant

  /** An upper bound on the steps a thread still needs when nobody gets in its way. */
  function Weight(pc: Pc): nat {
    match pc
    case Idle => 0
    case UnlockWake => 1
    case Reading => 2
    case LeaveWake(x) => if x.AfterRead? then 3 else 1
    case LeaveStore(x) => if x.AfterRead? then 4 else 2
    case LeaveSub(x) => if x.AfterRead? then 5 else 3
    case ReadAdd => 6
    case Writing(_) => 4
    case WriteLoad(_) => 5
    case WriteSleep(_) => 6
    case WriteWait(_, _) => 7
    case WriteSub(_) => 8
    case TryDrop => 9
    case GateSlow(_) => 10
    case GateSleep(_) => 11
    case GateWait(_) => 12
    case GateMark(_, _) => 13
    case GateFast(_) => 14
    case ModifyWake => 15
  }

  function Total(threads: seq<Thread>): nat {
    if threads == [] then 0 else Weight(threads[0].pc) + Total(threads[1..])
  }

  lemma {:induction false} TotalUpdate(threads: seq<Thread>, t: Tid, th: Thread)
    requires t < |threads|
    ensures Total(threads[t := th]) == Total(threads) - Weight(threads[t].pc) + Weight(th.pc)
  {
    if t == 0 {
      assert threads[t := th][1..] == threads[1..];
    } else {
      assert threads[t := th][1..] == threads[1..][t - 1 := th];
      TotalUpdate(threads[1..], t - 1, th);
    }
  }

  predicate AllIdle(s: State) {
    forall t :: 0 <= t < |s.threads| ==> s.threads[t].pc.Idle?
  }

  lemma StepDecreases(s: State, s': State, t: Tid)
    requires OnlyThread(s, s', t) && Weight(s'.threads[t].pc) < Weight(s.threads[t].pc)
    ensures Total(s'.threads) < Total(s.threads)
  {
    assert s'.threads == s.threads[t := s'.threads[t]];
    TotalUpdate(s.threads, t, s'.threads[t]);
  }

  lemma WakesDecrease(s: State, u: Tid)
    ensures Total(WakeGate(s, u).threads) <= Total(s.threads)
    ensures Total(WakeCount(s, u).threads) <= Total(s.threads)
  {
    if u < |s.threads| && s.threads[u].pc.GateSleep? {
      StepDecreases(s, WakeGate(s, u), u);
    }
    if u < |s.threads| && s.threads[u].pc.WriteSleep? {
      StepDecreases(s, WakeCount(s, u), u);
    }
  }

  /** An enabled action, other than a spurious wake, that brings the threads closer to idle. */
  ghost predicate Helps(s: State, a: Action) {
    !a.Spurious? && Enabled(s, a) && Total(Apply(s, a).threads) < Total(s.threads)
  }

  /** Program counters whose next step needs nothing from anyone else. */
  predicate Unobstructed(pc: Pc) {
    pc.ReadAdd? || pc.LeaveSub? || pc.LeaveStore? || pc.TryDrop? || pc.WriteSub?
  }

  lemma GateWakeStep(s: State, t: Tid) returns (a: Action)
    requires t < |s.threads| && s.threads[t].pc.LeaveWake?
    ensures Helps(s, a)
  {
    var u: Tid := t;
    if v :| 0 <= v < |s.threads| && s.threads[v].pc.GateSleep? { u := v; }
    StepDecreases(WakeGate(s, u), Advance(s, t, u), t);
    WakesDecrease(s, u);
    a := Step(t, u);
  }

  lemma CountWakeStep(s: State, t: Tid) returns (a: Action)
    requires t < |s.threads| && OwesCountWake(s.threads[t].pc)
    ensures Helps(s, a)
  {
    var u: Tid := t;
    if v :| 0 <= v < |s.threads| && s.threads[v].pc.WriteSleep? { u := v; }
    StepDecreases(WakeCount(s, u), Advance(s, t, u), t);
    WakesDecrease(s, u);
    a := Step(t, u);
  }

  lemma ReleaseStep(s: State, t: Tid) returns (a: Action)
    requires t < |s.threads| && SessionOk(s.threads[t])
    requires s.threads[t].pc.Reading? || s.threads[t].pc.Writing?
    ensures Helps(s, a)
  {
    var th := s.threads[t];
    var c := if th.session.Modifiable? then SessionUnlock else if th.pc.Reading? then ReadUnlock else WriteUnlock;
    a := Start(t, c);
    StepDecreases(s, Apply(s, a), t);
  }

  /** Once no reader is left, a waiting writer can proceed. */
  lemma DrainedStep(s: State, t: Tid) returns (a: Action)
    requires Inv(s) && t < |s.threads| && Marked(s.threads[t].pc) && Readers(s) == {}
    requires forall i :: 0 <= i < |s.threads| ==> !OwesCountWake(s.threads[i].pc)
    requires !s.threads[t].pc.Writing?
    ensures Helps(s, a)
  {
    OneWriter(s, t);
    assert LocalsOk(s.threads[t].pc);
    a := Step(t, t);
    StepDecreases(s, Apply(s, a), t);
  }

  lemma FreeGateStep(s: State, t: Tid) returns (a: Action)
    requires t < |s.threads| && s.gate == 0 && LocalsOk(s.threads[t].pc)
    requires s.threads[t].pc.GateFast? || InContendedLoop(s.threads[t].pc)
    ensures Helps(s, a)
  {
    a := Step(t, t);
    StepDecreases(s, Apply(s, a), t);
  }

  lemma UnobstructedStep(s: State, t: Tid) returns (a: Action)
    requires t < |s.threads| && Unobstructed(s.threads[t].pc)
    ensures Helps(s, a)
  {
    a := Step(t, t);
    StepDecreases(s, Apply(s, a), t);
  }

  lemma FindProgress(s: State) returns (a: Action)
    requires Inv(s) && !AllIdle(s)
    ensures Helps(s, a)
  {
    if t :| 0 <= t < |s.threads| && s.threads[t].pc.LeaveWake? {
      a := GateWakeStep(s, t);
    } else if t :| 0 <= t < |s.threads| && OwesCountWake(s.threads[t].pc) {
      a := CountWakeStep(s, t);
    } else if t :| 0 <= t < |s.threads| && Unobstructed(s.threads[t].pc) {
      a := UnobstructedStep(s, t);
    } else if t :| 0 <= t < |s.threads| && (s.threads[t].pc.Reading? || s.threads[t].pc.Writing?) {
      a := ReleaseStep(s, t);
    } else {
      a := FindWaiterStep(s);
    }
  }

  /** With no lock held and no wake pending, either a drained writer or a thread at the gate moves. */
  lemma FindWaiterStep(s: State) returns (a: Action)
    requires Inv(s) && !AllIdle(s)
    requires forall t :: 0 <= t < |s.threads| ==>
      var pc := s.threads[t].pc;
      !Unobstructed(pc) && !pc.LeaveWake? && !OwesCountWake(pc) && !pc.Reading? && !pc.Writing?
    ensures Helps(s, a)
  {
    if t :| 0 <= t < |s.threads| && Marked(s.threads[t].pc) {
      assert Readers(s) == {};
      a := DrainedStep(s, t);
    } else {
      a := FindGateStep(s);
    }
  }

  /** With no owner and no pending wake, the gate is free and somebody at it is awake. */
  lemma FindGateStep(s: State) returns (a: Action)
    requires Inv(s) && !AllIdle(s)
    requires forall t :: 0 <= t < |s.threads| ==>
      var pc := s.threads[t].pc; !Owns(pc) && !pc.LeaveWake? && !OwesCountWake(pc) && !pc.Reading?
    ensures Helps(s, a)
  {
    assert s.gate == 0;
    var t :| 0 <= t < |s.threads| && !s.threads[t].pc.Idle?;
    if s.threads[t].pc.GateSleep? {
      var u :| 0 <= u < |s.threads| && InContendedLoop(s.threads[u].pc);
      a := FreeGateStep(s, u);
    } else {
      a := FreeGateStep(s, t);
    }
  }

  lemma {:induction false} DrainRun(s: State) returns (run: seq<Action>)
    requires Inv(s)
    ensures Runs(s, run) && AllIdle(After(s, run))
    ensures forall a :: a in run ==> !a.Spurious?
    decreases Total(s.threads)
  {
    if AllIdle(s) {
      run := [];
    } else {
      var a := FindProgress(s);
      ApplyKeeps(s, a);
      var rest := DrainRun(Apply(s, a));
      run := [a] + rest;
      assert run[1..] == rest;
    }
  }

  /** Deadlock freedom: every reachable state has a continuation in which every call returns and
      every lock is released, without the help of spurious wakes. */
  lemma AlwaysDrainable(s: State)
    requires Reachable(s)
    ensures exists run: seq<Action> :: Runs(s, run) && AllIdle(After(s, run)) && forall a :: a in run ==> !a.Spurious?
  {
    ReachableInv(s);
    var run := DrainRun(s);
  }

  /** If some thread sleeps, another is awake inside an operation or holds a lock. */
  lemma NoStuckState(s: State, t: Tid)
    requires Reachable(s) && t < |s.threads| && Asleep(s.threads[t].pc)
    ensures exists u :: 0 <= u < |s.threads| && !Asleep(s.threads[u].pc) && !s.threads[u].pc.Idle?
  {
    ReachableInv(s);
    NoStuckSleeper(s, t);
  }

  lemma NoStuckSleeper(s: State, t: Tid)
    requires Inv(s) && t < |s.threads| && Asleep(s.threads[t].pc)
    ensures exists u :: 0 <= u < |s.threads| && !Asleep(s.threads[u].pc) && !s.threads[u].pc.Idle?
  {
    if s.threads[t].pc.WriteSleep? {
      WriteSleeperNotStuck(s, t);
    } else if s.gate == 2 {
      var o :| 0 <= o < |s.threads| && Owns(s.threads[o].pc);
      if s.threads[o].pc.WriteSleep? {
        WriteSleeperNotStuck(s, o);
      }
    }
  }

  lemma WriteSleeperNotStuck(s: State, t: Tid)
    requires CountWakeInv(s) && t < |s.threads| && s.threads[t].pc.WriteSleep?
    ensures exists u :: 0 <= u < |s.threads| && !Asleep(s.threads[u].pc) && !s.threads[u].pc.Idle?
  {
    if u :| u in Readers(s) {
      assert !Asleep(s.threads[u].pc);
    }
  }
}
