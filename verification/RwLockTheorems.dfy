/** What clients of the read/write lock may rely on, over every run. */
module RwLockTheorems {
  import opened RwLock
  import opened RwLockInvariant
  import opened RwLockRefinement
  import opened RwLockProgress

  // ---- Extending runs ----

  lemma {:induction false} RunAppend(s: State, run: seq<Action>, a: Action)
    requires Runs(s, run) && Enabled(After(s, run), a)
    ensures Runs(s, run + [a]) && After(s, run + [a]) == Apply(After(s, run), a)
    decreases |run|
  {
    if run != [] {
      assert (run + [a])[1..] == run[1..] + [a];
      RunAppend(Apply(s, run[0]), run[1..], a);
    }
  }

  lemma ReachableStep(s: State, a: Action)
    requires Reachable(s) && Enabled(s, a)
    ensures Reachable(Apply(s, a))
  {
    var s0, run :| Init(s0) && Runs(s0, run) && After(s0, run) == s;
    RunAppend(s0, run, a);
  }

  /** A run given with the states it passes through. */
  lemma {:induction false} Chained(s: State, run: seq<Action>, states: seq<State>)
    requires |states| == |run| + 1 && states[0] == s
    requires forall i :: 0 <= i < |run| ==> Enabled(states[i], run[i]) && Apply(states[i], run[i]) == states[i + 1]
    ensures Runs(s, run) && After(s, run) == states[|run|]
    decreases |run|
  {
    if run != [] {
      Chained(states[1], run[1..], states[1..]);
    }
  }

  // ---- Gate ----

  /** The gate is a mutex: its values, its unique owner, and no forgotten sleeper. */
  lemma GateSafety(s: State, t: Tid, u: Tid)
    requires Reachable(s) && t < |s.threads| && u < |s.threads|
    ensures s.gate in {0, 1, 2} && (s.gate != 0 <==> GateOwned(s))
    ensures Owns(s.threads[t].pc) && Owns(s.threads[u].pc) ==> t == u
    ensures s.threads[t].pc.GateSleep? ==>
              || s.gate == 2
              || (exists v :: 0 <= v < |s.threads| && OwesGateWake(s.threads[v].pc))
              || (exists v :: 0 <= v < |s.threads| && InContendedLoop(s.threads[v].pc))
  {
    ReachableInv(s);
  }

  // ---- Counting ----

  /** `nreaders` is the number of live read holds, less one exactly while a writer is marked; an
      active writer is alone. */
  lemma CountingAndExclusion(s: State, t: Tid)
    requires Reachable(s) && t < |s.threads|
    ensures s.nreaders == |Readers(s)| - Bit(Writers(s) != {})
    ensures s.threads[t].pc.Writing? ==> Readers(s) == {} && Writers(s) == {t} && s.nreaders == -1
  {
    ReachableInv(s);
    AtMostOneWriter(s);
    if s.threads[t].pc.Writing? {
      OneWriter(s, t);
    }
  }

  /** read_unlock's assertion never fails, and it wakes exactly when it was the last reader in the
      way of a marked writer. */
  lemma ReadUnlockAssertion(s: State, t: Tid)
    requires Reachable(s) && t < |s.threads| && s.threads[t].pc.Reading?
    ensures var s' := StartReadUnlock(s, t);
            && (s'.nreaders < 0 ==> s'.nreaders == -1)
            && (s'.threads[t].pc.UnlockWake? <==> Readers(s) == {t} && Writers(s) != {})
  {
    ReachableInv(s);
    LastReader(s, t);
  }

  // ---- Writer drain ----

  ghost predicate MarkedThroughout(s: State, run: seq<Action>, t: Tid)
    requires Runs(s, run)
    decreases |run|
  {
    && t < |s.threads| && Marked(s.threads[t].pc)
    && (run != [] ==> MarkedThroughout(Apply(s, run[0]), run[1..], t))
  }

  lemma MarkedStepShrinksReaders(s: State, a: Action, t: Tid)
    requires Inv(s) && Enabled(s, a) && t < |s.threads| && Marked(s.threads[t].pc)
    ensures Readers(Apply(s, a)) <= Readers(s)
  {
    ApplyRefines(s, a);
    var ev := EventOf(s, a);
    assert Owns(s.threads[t].pc) && (Owns(s.threads[a.t].pc) ==> a.t == t);
    assert Abs(s).readers == Readers(s) && Abs(Apply(s, a)).readers == Readers(Apply(s, a));
  }

  /** From a writer's decrement to its write_unlock the set of live readers only shrinks. */
  lemma {:induction false} WriterDrain(s: State, run: seq<Action>, t: Tid)
    requires Inv(s) && Runs(s, run) && MarkedThroughout(s, run, t)
    ensures Readers(After(s, run)) <= Readers(s)
    decreases |run|
  {
    if run != [] {
      MarkedStepShrinksReaders(s, run[0], t);
      ApplyKeeps(s, run[0]);
      WriterDrain(Apply(s, run[0]), run[1..], t);
    }
  }

  /** A writer asleep on `nreaders` has a live reader or a pending wake. */
  lemma WriterWakeSafety(s: State, t: Tid)
    requires Reachable(s) && t < |s.threads| && s.threads[t].pc.WriteSleep?
    ensures Readers(s) != {} || exists u :: 0 <= u < |s.threads| && OwesCountWake(s.threads[u].pc)
  {
    ReachableInv(s);
  }

  // ---- Atomic upgrade ----

  /** Write sections begun in `run` by thread `t` (`mine`), or by anybody else. */
  ghost function WritesBegun(s: State, run: seq<Action>, t: Tid, mine: bool): nat
    requires Runs(s, run)
    decreases |run|
  {
    if run == [] then 0
    else
      var ev := EventOf(s, run[0]);
      Bit(ev.AcquireWrite? && (ev.t == t) == mine) + WritesBegun(Apply(s, run[0]), run[1..], t, mine)
  }

  /** Thread `t` does not start another read section in `run`. */
  ghost predicate NoNewRead(s: State, run: seq<Action>, t: Tid)
    requires Runs(s, run)
    decreases |run|
  {
    run == [] || (EventOf(s, run[0]) != AcquireRead(t) && NoNewRead(Apply(s, run[0]), run[1..], t))
  }

  /** The bookkeeping fields mean what they say. */
  lemma StepVersion(s: State, a: Action)
    requires Enabled(s, a)
    ensures var s' := Apply(s, a);
            |s'.threads| == |s.threads| && s'.version == s.version + Bit(EventOf(s, a).AcquireWrite?)
  {
    match a
    case Start(_, _) =>
    case Step(_, _) =>
    case Spurious(_) =>
  }

  /** What a futex_wake may do to a thread. */
  predicate Woken(th: Thread, th': Thread) {
    || (th.pc.GateSleep? && th' == th.(pc := GateSlow(th.pc.e)))
    || (th.pc.WriteSleep? && th' == th.(pc := WriteLoad(th.pc.w)))
  }

  /** A step leaves the other threads alone, except that it may wake one. */
  lemma OthersKeep(s: State, a: Action, v: Tid)
    requires a.t < |s.threads| && v < |s.threads| && v != a.t
    ensures |Apply(s, a).threads| == |s.threads|
    ensures var th' := Apply(s, a).threads[v]; th' == s.threads[v] || Woken(s.threads[v], th')
  {
    match a
    case Start(_, _) =>
    case Step(_, _) =>
    case Spurious(_) =>
  }

  lemma OwnStepSeen(s: State, t: Tid, u: Tid)
    requires t < |s.threads| && Runnable(s.threads[t].pc)
    ensures var s', ev := Advance(s, t, u), EventOf(s, Step(t, u));
            && |s'.threads| == |s.threads|
            && (ev != AcquireRead(t) ==> s'.threads[t].seen == s.threads[t].seen)
            && (s'.threads[t].pc.Writing? ==> ev == AcquireWrite(t))
  {
  }

  lemma OwnStartSeen(s: State, t: Tid, c: Call)
    requires t < |s.threads| && MayCall(s.threads[t], c)
    ensures var s' := StartCall(s, t, c);
            && |s'.threads| == |s.threads| && s'.threads[t].seen == s.threads[t].seen
            && (s'.threads[t].pc.Writing? ==> s.threads[t].pc.Writing?)
  {
  }

  lemma StepSeen(s: State, a: Action, t: Tid)
    requires Enabled(s, a) && t < |s.threads| && t < |Apply(s, a).threads|
    ensures var s', ev := Apply(s, a), EventOf(s, a);
            && (ev != AcquireRead(t) ==> s'.threads[t].seen == s.threads[t].seen)
            && (s'.threads[t].pc.Writing? && !s.threads[t].pc.Writing? ==> ev == AcquireWrite(t))
  {
    if a.t != t {
      hide Apply;
      OthersKeep(s, a, t);
    } else {
      match a
      case Start(_, c) => OwnStartSeen(s, t, c);
      case Step(_, u) => OwnStepSeen(s, t, u);
      case Spurious(_) =>
    }
  }

  lemma {:induction false} RunBooks(s: State, run: seq<Action>, t: Tid)
    requires Runs(s, run) && t < |s.threads|
    ensures var s' := After(s, run);
            && |s'.threads| == |s.threads|
            && s'.version == s.version + WritesBegun(s, run, t, true) + WritesBegun(s, run, t, false)
            && (NoNewRead(s, run, t) ==> s'.threads[t].seen == s.threads[t].seen)
            && (s'.threads[t].pc.Writing? && !s.threads[t].pc.Writing? ==> WritesBegun(s, run, t, true) > 0)
    decreases |run|
  {
    if run != [] {
      StepVersion(s, run[0]);
      StepSeen(s, run[0], t);
      RunBooks(Apply(s, run[0]), run[1..], t);
    }
  }

  /** try_write_modify that returns true: no other thread wrote since the caller's read_lock. */
  lemma AtomicUpgrade(s: State, run: seq<Action>, t: Tid)
    requires Reachable(s) && Runs(s, run) && t < |s.threads|
    requires Holds(s.threads[t].pc) && NoNewRead(s, run, t)
    ensures t < |After(s, run).threads|
    ensures After(s, run).threads[t].pc == Writing(ByTry) ==> WritesBegun(s, run, t, false) == 0
  {
    ReachableInv(s);
    RunsKeep(s, run);
    RunBooks(s, run, t);
    assert ThreadOk(s.threads[t], s.version);
    assert ThreadOk(After(s, run).threads[t], After(s, run).version);
  }

  /** try_write_modify that returns false changes nothing, so the caller still reads; it returns
      false exactly when another thread owns the gate. */
  lemma FailedUpgrade(s: State, t: Tid)
    requires Reachable(s) && t < |s.threads| && s.threads[t].pc.Reading?
    ensures var s' := StartTryModify(s, t);
            && (s'.threads[t].pc.Reading? <==> s' == s)
            && (s' == s <==> exists u :: 0 <= u < |s.threads| && u != t && Owns(s.threads[u].pc))
  {
    ReachableInv(s);
    var s' := StartTryModify(s, t);
    if s.gate != 0 {
      var u :| 0 <= u < |s.threads| && Owns(s.threads[u].pc);
      assert u != t;
    } else {
      assert s'.gate == 1;
    }
  }

  /** write_modify gives no such guarantee: here another thread writes between the caller's
      read_lock and its write section. */
  lemma ModifyCanMissAWrite() returns (s: State)
    ensures Reachable(s) && |s.threads| == 2
    ensures s.threads[0].pc == Writing(ByModify) && s.version > s.threads[0].seen + 1
  {
    ReaderStartsModify();
    OtherBeginsWrite();
    OtherEndsWrite();
    var gate := Pair(GateFast(ForModify), Idle, 0, 0, 1);
    var sub := Pair(WriteSub(ByModify), Idle, 1, 0, 1);
    s := Pair(Writing(ByModify), Idle, 1, -1, 2);
    Goes(gate, Step(0, 0), sub);
    Goes(sub, Step(0, 0), s);
  }

  /** Two threads that last read at version 0. */
  function Pair(p0: Pc, p1: Pc, gate: int, nreaders: int, version: nat): State {
    State(gate, nreaders, [Thread(p0, 0, Plain), Thread(p1, 0, Plain)], version)
  }

  lemma Goes(s: State, a: Action, s': State)
    requires Reachable(s) && Enabled(s, a)
    requires s'.gate == Apply(s, a).gate && s'.nreaders == Apply(s, a).nreaders
    requires s'.version == Apply(s, a).version && s'.threads == Apply(s, a).threads
    ensures Reachable(s')
  {
    ReachableStep(s, a);
    assert s' == Apply(s, a);
  }

  lemma ReaderStarts()
    ensures Reachable(Pair(GateFast(ForRead), Idle, 0, 0, 0))
  {
    var s0 := Pair(Idle, Idle, 0, 0, 0);
    assert Runs(s0, []) && After(s0, []) == s0;
    Goes(s0, Start(0, ReadLock), Pair(GateFast(ForRead), Idle, 0, 0, 0));
  }

  lemma ReaderReads()
    ensures Reachable(Pair(Reading, Idle, 0, 1, 0))
  {
    ReaderStarts();
    Goes(Pair(GateFast(ForRead), Idle, 0, 0, 0), Step(0, 0), Pair(ReadAdd, Idle, 1, 0, 0));
    Goes(Pair(ReadAdd, Idle, 1, 0, 0), Step(0, 0), Pair(LeaveSub(AfterRead), Idle, 1, 1, 0));
    Goes(Pair(LeaveSub(AfterRead), Idle, 1, 1, 0), Step(0, 0), Pair(Reading, Idle, 0, 1, 0));
  }

  lemma ReaderStartsModify()
    ensures Reachable(Pair(GateFast(ForModify), Idle, 0, 0, 0))
  {
    ReaderReads();
    Goes(Pair(Reading, Idle, 0, 1, 0), Start(0, Modify), Pair(GateFast(ForModify), Idle, 0, 0, 0));
  }

  lemma OtherBeginsWrite()
    requires Reachable(Pair(GateFast(ForModify), Idle, 0, 0, 0))
    ensures Reachable(Pair(GateFast(ForModify), Writing(ByLock), 1, -1, 1))
  {
    var g := GateFast(ForModify);
    Goes(Pair(g, Idle, 0, 0, 0), Start(1, WriteLock), Pair(g, GateFast(ForWrite), 0, 0, 0));
    Goes(Pair(g, GateFast(ForWrite), 0, 0, 0), Step(1, 1), Pair(g, WriteSub(ByLock), 1, 0, 0));
    Goes(Pair(g, WriteSub(ByLock), 1, 0, 0), Step(1, 1), Pair(g, Writing(ByLock), 1, -1, 1));
  }

  lemma OtherEndsWrite()
    requires Reachable(Pair(GateFast(ForModify), Writing(ByLock), 1, -1, 1))
    ensures Reachable(Pair(GateFast(ForModify), Idle, 0, 0, 1))
  {
    var g := GateFast(ForModify);
    Goes(Pair(g, Writing(ByLock), 1, -1, 1), Start(1, WriteUnlock), Pair(g, LeaveSub(AfterWrite), 1, 0, 1));
    Goes(Pair(g, LeaveSub(AfterWrite), 1, 0, 1), Step(1, 1), Pair(g, Idle, 0, 0, 1));
  }

  // ---- Sessions and destruction ----

  /** unlock on a fu_read_modifiable_lock releases the kind of hold the session has. */
  lemma SessionUnlockMatches(s: State, t: Tid)
    requires Reachable(s) && t < |s.threads| && MayCall(s.threads[t], SessionUnlock)
    ensures EventOf(s, Start(t, SessionUnlock))
            == if s.threads[t].pc.Writing? then ReleaseWrite(t) else ReleaseRead(t)
  {
    ReachableInv(s);
    assert SessionOk(s.threads[t]);
  }

  /** The two checks of the control's destructor. */
  predicate DestructorPasses(s: State) {
    s.nreaders == 0 && s.gate == 0
  }

  /** The destructor accepts exactly the states without a live read hold and without a gate owner. */
  lemma DestructorExact(s: State)
    requires Reachable(s)
    ensures DestructorPasses(s) <==> Readers(s) == {} && !GateOwned(s)
    ensures AllIdle(s) ==> DestructorPasses(s)
  {
    ReachableInv(s);
    if !GateOwned(s) {
      assert Writers(s) == {} by {
        forall w ensures w !in Writers(s) {
          assert w in Writers(s) ==> Owns(s.threads[w].pc);
        }
      }
    }
    if AllIdle(s) {
      assert Readers(s) == {};
    }
  }
}
