/** What every step of the read/write lock keeps. */
module RwLockInvariant {
  import opened RwLock

  /** The thread owns the gate: from its winning compare-exchange up to the write of 0. */
  predicate Owns(pc: Pc) {
    pc.ReadAdd? || pc.LeaveSub? || pc.LeaveStore? || pc.TryDrop? || pc.WriteSub? || Marked(pc)
  }

  /** The thread has decremented `nreaders` as a writer and not yet stored 0. */
  predicate Marked(pc: Pc) {
    pc.WriteWait? || pc.WriteSleep? || pc.WriteLoad? || pc.Writing?
  }

  /** A live read hold: from the increment of `nreaders` up to the matching decrement. */
  predicate Holds(pc: Pc) {
    || pc.Reading? || pc.TryDrop?
    || pc == LeaveSub(AfterRead) || pc == LeaveStore(AfterRead) || pc == LeaveWake(AfterRead)
  }

  /** try_write_modify has dropped its read count and not yet begun its write section. */
  predicate Upgrading(pc: Pc) {
    (pc.WriteSub? || pc.WriteWait? || pc.WriteSleep? || pc.WriteLoad?) && pc.w == ByTry
  }

  /** A releaser of the gate that has not yet issued its wake. */
  predicate OwesGateWake(pc: Pc) {
    pc.LeaveStore? || pc.LeaveWake?
  }

  /** Awake inside the contended loop of `enter_gate`. */
  predicate InContendedLoop(pc: Pc) {
    pc.GateMark? || pc.GateWait? || pc.GateSlow?
  }

  predicate OwesCountWake(pc: Pc) {
    pc.UnlockWake? || pc.ModifyWake?
  }

  ghost function Readers(s: State): set<Tid> {
    set t | 0 <= t < |s.threads| && Holds(s.threads[t].pc)
  }

  ghost function Writers(s: State): set<Tid> {
    set t | 0 <= t < |s.threads| && Marked(s.threads[t].pc)
  }

  ghost predicate GateOwned(s: State) {
    exists t :: 0 <= t < |s.threads| && Owns(s.threads[t].pc)
  }

  /** Gate safety: values, at most one owner, and non-zero exactly while owned. */
  ghost predicate GateInv(s: State) {
    && s.gate in {0, 1, 2}
    && (forall t, u | 0 <= t < |s.threads| && 0 <= u < |s.threads| ::
          Owns(s.threads[t].pc) && Owns(s.threads[u].pc) ==> t == u)
    && (s.gate != 0 <==> GateOwned(s))
  }

  /** No gate sleeper is forgotten. */
  ghost predicate GateWakeInv(s: State) {
    forall t :: 0 <= t < |s.threads| && s.threads[t].pc.GateSleep? ==>
      || s.gate == 2
      || (exists u :: 0 <= u < |s.threads| && OwesGateWake(s.threads[u].pc))
      || (exists u :: 0 <= u < |s.threads| && InContendedLoop(s.threads[u].pc))
  }

  ghost predicate CountInv(s: State) {
    && s.nreaders == |Readers(s)| - |Writers(s)|
    && (forall t :: 0 <= t < |s.threads| && s.threads[t].pc.Writing? ==> Readers(s) == {})
  }

  /** A writer asleep on `nreaders` has a live reader or a pending wake. */
  ghost predicate CountWakeInv(s: State) {
    forall t :: 0 <= t < |s.threads| && s.threads[t].pc.WriteSleep? ==>
      || Readers(s) != {}
      || (exists u :: 0 <= u < |s.threads| && OwesCountWake(s.threads[u].pc))
  }

  /** Ranges of the saved locals. */
  predicate LocalsOk(pc: Pc) {
    match pc
    case GateMark(_, expected) => expected == 1 || expected == 2
    case WriteWait(_, val) => val >= 0
    case _ => true
  }

  /** A reader, or a reader upgrading with try_write_modify, has missed no write section. */
  predicate VersionOk(th: Thread, version: nat) {
    && (Holds(th.pc) || Upgrading(th.pc) ==> th.seen == version)
    && (th.pc == Writing(ByTry) ==> th.seen + 1 == version)
  }

  /** Program counters a fu_read_modifiable_lock session passes through. */
  predicate SessionPc(pc: Pc) {
    match pc
    case GateFast(e) => e != ForWrite
    case GateMark(e, _) => e != ForWrite
    case GateWait(e) => e != ForWrite
    case GateSleep(e) => e != ForWrite
    case GateSlow(e) => e != ForWrite
    case LeaveSub(x) => x == AfterRead
    case LeaveStore(x) => x == AfterRead
    case LeaveWake(x) => x == AfterRead
    case WriteSub(w) => w != ByLock
    case WriteWait(w, _) => w != ByLock
    case WriteSleep(w) => w != ByLock
    case WriteLoad(w) => w != ByLock
    case Writing(w) => w != ByLock
    case Idle => false
    case UnlockWake => false
    case _ => true
  }

  /** The write_modified flag tells which lock a session holds. */
  predicate SessionOk(th: Thread) {
    th.session.Modifiable? ==> SessionPc(th.pc) && th.session.modified == th.pc.Writing?
  }

  ghost predicate ThreadsOk(s: State) {
    forall t :: 0 <= t < |s.threads| ==>
      && LocalsOk(s.threads[t].pc)
      && VersionOk(s.threads[t], s.version)
      && SessionOk(s.threads[t])
  }

  ghost predicate Inv(s: State) {
    GateInv(s) && GateWakeInv(s) && CountInv(s) && CountWakeInv(s) && ThreadsOk(s)
  }

  // ---- Preservation ----

  /** Only thread `t` may differ between the two states. */
  ghost predicate OnlyThread(s: State, s': State, t: Tid) {
    && |s'.threads| == |s.threads|
    && t < |s.threads|
    && forall i :: 0 <= i < |s.threads| && i != t ==> s'.threads[i] == s.threads[i]
  }

  function Bit(b: bool): nat { if b then 1 else 0 }

  lemma CardAfter(a: set<Tid>, t: Tid, now: bool)
    ensures |if now then a + {t} else a - {t}| == |a| + Bit(now) - Bit(t in a)
  {
    if now {
      if t in a {
        assert a + {t} == a;
      }
    } else {
      if t !in a {
        assert a - {t} == a;
      }
    }
  }

  lemma ReadersAfter(s: State, s': State, t: Tid)
    requires OnlyThread(s, s', t)
    ensures Readers(s') == if Holds(s'.threads[t].pc) then Readers(s) + {t} else Readers(s) - {t}
    ensures |Readers(s')| == |Readers(s)| + Bit(Holds(s'.threads[t].pc)) - Bit(Holds(s.threads[t].pc))
  {
    var r' := if Holds(s'.threads[t].pc) then Readers(s) + {t} else Readers(s) - {t};
    assert Readers(s') == r' by {
      forall i ensures i in Readers(s') <==> i in r' {
      }
    }
    CardAfter(Readers(s), t, Holds(s'.threads[t].pc));
    assert t in Readers(s) <==> Holds(s.threads[t].pc);
  }

  lemma WritersAfter(s: State, s': State, t: Tid)
    requires OnlyThread(s, s', t)
    ensures Writers(s') == if Marked(s'.threads[t].pc) then Writers(s) + {t} else Writers(s) - {t}
    ensures |Writers(s')| == |Writers(s)| + Bit(Marked(s'.threads[t].pc)) - Bit(Marked(s.threads[t].pc))
  {
    var w' := if Marked(s'.threads[t].pc) then Writers(s) + {t} else Writers(s) - {t};
    assert Writers(s') == w' by {
      forall i ensures i in Writers(s') <==> i in w' {
      }
    }
    CardAfter(Writers(s), t, Marked(s'.threads[t].pc));
    assert t in Writers(s) <==> Marked(s.threads[t].pc);
  }

  /** Writers own the gate, so there is at most one. */
  lemma OneWriter(s: State, t: Tid)
    requires GateInv(s) && t < |s.threads| && Owns(s.threads[t].pc)
    ensures Writers(s) == if Marked(s.threads[t].pc) then {t} else {}
    ensures |Writers(s)| == Bit(Marked(s.threads[t].pc))
  {
    if Marked(s.threads[t].pc) {
      assert Writers(s) == {t};
    } else {
      assert Writers(s) == {};
    }
  }

  lemma AtMostOneWriter(s: State)
    requires GateInv(s)
    ensures |Writers(s)| <= 1
  {
    if w :| w in Writers(s) {
      OneWriter(s, w);
    }
  }

  /** GateInv survives a step that changes neither the owner nor whether the gate is free. */
  lemma KeepsOwners(s: State, s': State, t: Tid)
    requires GateInv(s) && OnlyThread(s, s', t)
    requires s'.gate in {0, 1, 2} && (s'.gate == 0 <==> s.gate == 0)
    requires Owns(s'.threads[t].pc) == Owns(s.threads[t].pc)
    ensures GateInv(s')
  {
    if GateOwned(s) {
      var o :| 0 <= o < |s.threads| && Owns(s.threads[o].pc);
      assert Owns(s'.threads[o].pc);
    }
  }

  lemma TakesGate(s: State, s': State, t: Tid)
    requires GateInv(s) && OnlyThread(s, s', t)
    requires s.gate == 0 && s'.gate in {1, 2} && Owns(s'.threads[t].pc)
    ensures GateInv(s')
  {
  }

  lemma DropsGate(s: State, s': State, t: Tid)
    requires GateInv(s) && OnlyThread(s, s', t)
    requires Owns(s.threads[t].pc) && s'.gate == 0 && !Owns(s'.threads[t].pc)
    ensures GateInv(s')
  {
  }

  /** GateWakeInv survives a step after which every former excuse, or a fresh one, still stands. */
  lemma KeepsGateWake(s: State, s': State, t: Tid)
    requires GateWakeInv(s) && OnlyThread(s, s', t)
    requires s'.threads[t].pc.GateSleep? ==> s.gate == 2
    requires || (s.gate == 2 ==> s'.gate == 2)
             || OwesGateWake(s'.threads[t].pc)
    requires OwesGateWake(s.threads[t].pc) ==> OwesGateWake(s'.threads[t].pc)
    requires InContendedLoop(s.threads[t].pc) ==> InContendedLoop(s'.threads[t].pc) || s'.gate == 2
    ensures GateWakeInv(s')
  {
    forall i | 0 <= i < |s'.threads| && s'.threads[i].pc.GateSleep?
      ensures || s'.gate == 2
              || (exists u :: 0 <= u < |s'.threads| && OwesGateWake(s'.threads[u].pc))
              || (exists u :: 0 <= u < |s'.threads| && InContendedLoop(s'.threads[u].pc))
    {
      if i != t {
        assert s.threads[i].pc.GateSleep?;
        if u :| 0 <= u < |s.threads| && OwesGateWake(s.threads[u].pc) {
          assert OwesGateWake(s'.threads[u].pc);
        } else if u :| 0 <= u < |s.threads| && InContendedLoop(s.threads[u].pc) {
          assert InContendedLoop(s'.threads[u].pc) || s'.gate == 2;
        }
      }
    }
  }

  lemma KeepsCount(s: State, s': State, t: Tid)
    requires CountInv(s) && OnlyThread(s, s', t)
    requires s'.nreaders - s.nreaders == Bit(Holds(s'.threads[t].pc)) - Bit(Holds(s.threads[t].pc))
                                         - Bit(Marked(s'.threads[t].pc)) + Bit(Marked(s.threads[t].pc))
    requires s'.threads[t].pc.Writing? ==> Readers(s') == {}
    requires Holds(s'.threads[t].pc) && !Holds(s.threads[t].pc) ==> Writers(s) == {}
    ensures CountInv(s')
  {
    ReadersAfter(s, s', t);
    WritersAfter(s, s', t);
    forall i | 0 <= i < |s'.threads| && s'.threads[i].pc.Writing?
      ensures Readers(s') == {}
    {
      if i != t {
        assert i in Writers(s);
        assert Readers(s) == {};
        assert t !in Readers(s);
      }
    }
  }

  lemma KeepsCountWake(s: State, s': State, t: Tid)
    requires CountWakeInv(s) && OnlyThread(s, s', t)
    requires s'.threads[t].pc.WriteSleep? ==> Readers(s') != {}
    requires Readers(s) != {} ==> Readers(s') != {} || OwesCountWake(s'.threads[t].pc) || Writers(s') == {}
    requires OwesCountWake(s.threads[t].pc) ==> OwesCountWake(s'.threads[t].pc)
    ensures CountWakeInv(s')
  {
    forall i | 0 <= i < |s'.threads| && s'.threads[i].pc.WriteSleep?
      ensures || Readers(s') != {}
              || (exists u :: 0 <= u < |s'.threads| && OwesCountWake(s'.threads[u].pc))
    {
      if i != t {
        assert s.threads[i].pc.WriteSleep?;
        assert i in Writers(s');
        if u :| 0 <= u < |s.threads| && OwesCountWake(s.threads[u].pc) {
          assert OwesCountWake(s'.threads[u].pc);
        }
      }
    }
  }

  predicate ThreadOk(th: Thread, version: nat) {
    LocalsOk(th.pc) && VersionOk(th, version) && SessionOk(th)
  }

  lemma KeepsThreads(s: State, s': State, t: Tid)
    requires ThreadsOk(s) && OnlyThread(s, s', t)
    requires s'.version == s.version
    requires ThreadOk(s'.threads[t], s'.version)
    ensures ThreadsOk(s')
  {
  }

  /** Counting is untouched by a step that changes no hold and no mark. */
  lemma KeepsCounts(s: State, s': State, t: Tid)
    requires CountInv(s) && CountWakeInv(s) && OnlyThread(s, s', t)
    requires s'.nreaders == s.nreaders
    requires Holds(s'.threads[t].pc) == Holds(s.threads[t].pc)
    requires Marked(s'.threads[t].pc) == Marked(s.threads[t].pc)
    requires !s'.threads[t].pc.WriteSleep? && !s'.threads[t].pc.Writing?
    requires !OwesCountWake(s.threads[t].pc)
    ensures CountInv(s') && CountWakeInv(s')
  {
    ReadersAfter(s, s', t);
    KeepsCount(s, s', t);
    KeepsCountWake(s, s', t);
  }

  lemma WakeGateKeeps(s: State, u: Tid)
    requires Inv(s)
    ensures Inv(WakeGate(s, u))
  {
    var s' := WakeGate(s, u);
    if s' != s {
      KeepsOwners(s, s', u);
      KeepsGateWake(s, s', u);
      KeepsCounts(s, s', u);
      KeepsThreads(s, s', u);
    }
  }

  lemma WakeCountKeeps(s: State, u: Tid)
    requires Inv(s)
    ensures Inv(WakeCount(s, u))
  {
    var s' := WakeCount(s, u);
    if s' != s {
      KeepsOwners(s, s', u);
      KeepsGateWake(s, s', u);
      KeepsCounts(s, s', u);
      KeepsThreads(s, s', u);
    }
  }

  /** One step of `enter_gate` that does not take the gate. */
  lemma ContendKeeps(s: State, s': State, t: Tid)
    requires Inv(s) && OnlyThread(s, s', t)
    requires s'.gate == s.gate || (s.gate == 1 && s'.gate == 2)
    requires s'.nreaders == s.nreaders && s'.version == s.version
    requires var pc := s.threads[t].pc; pc.GateFast? || InContendedLoop(pc)
    requires var pc' := s'.threads[t].pc; InContendedLoop(pc') || (pc'.GateSleep? && s.gate == 2)
    requires ThreadOk(s'.threads[t], s'.version)
    ensures Inv(s')
  {
    KeepsOwners(s, s', t);
    KeepsGateWake(s, s', t);
    KeepsCounts(s, s', t);
    KeepsThreads(s, s', t);
  }

  /** The winning compare-exchange of `enter_gate` or `try_enter_gate`. */
  lemma TakeKeeps(s: State, s': State, t: Tid)
    requires Inv(s) && OnlyThread(s, s', t)
    requires s.gate == 0 && s'.gate in {1, 2} && (InContendedLoop(s.threads[t].pc) ==> s'.gate == 2)
    requires s'.nreaders == s.nreaders && s'.version == s.version
    requires var pc := s.threads[t].pc; pc.GateFast? || pc.GateSlow? || pc.Reading?
    requires var pc' := s'.threads[t].pc;
             if s.threads[t].pc.Reading? then pc'.TryDrop? else pc'.ReadAdd? || pc'.WriteSub?
    requires ThreadOk(s'.threads[t], s'.version)
    ensures Inv(s')
  {
    TakesGate(s, s', t);
    KeepsGateWake(s, s', t);
    KeepsCounts(s, s', t);
    KeepsThreads(s, s', t);
  }

  lemma EnterGateKeeps(s: State, t: Tid, u: Tid)
    requires Inv(s) && t < |s.threads|
    requires var pc := s.threads[t].pc; pc.GateFast? || InContendedLoop(pc)
    ensures Inv(Advance(s, t, u))
  {
    var s' := Advance(s, t, u);
    assert ThreadOk(s.threads[t], s.version);
    if Owns(s'.threads[t].pc) {
      TakeKeeps(s, s', t);
    } else {
      ContendKeeps(s, s', t);
    }
  }

  lemma ReadAddKeepsCounts(s: State, s': State, t: Tid)
    requires GateInv(s) && CountInv(s) && CountWakeInv(s) && OnlyThread(s, s', t)
    requires s.threads[t].pc.ReadAdd? && s'.threads[t].pc == LeaveSub(AfterRead)
    requires s'.nreaders == s.nreaders + 1
    ensures CountInv(s') && CountWakeInv(s')
  {
    OneWriter(s, t);
    ReadersAfter(s, s', t);
    KeepsCount(s, s', t);
    KeepsCountWake(s, s', t);
  }

  lemma ReadAddKeeps(s: State, t: Tid, u: Tid)
    requires Inv(s) && t < |s.threads| && s.threads[t].pc.ReadAdd?
    ensures Inv(Advance(s, t, u))
  {
    var s' := Advance(s, t, u);
    assert ThreadOk(s.threads[t], s.version);
    ReadAddKeepsCounts(s, s', t);
    KeepsOwners(s, s', t);
    KeepsGateWake(s, s', t);
    KeepsThreads(s, s', t);
  }

  lemma LeaveGateKeeps(s: State, t: Tid, u: Tid)
    requires Inv(s) && t < |s.threads| && (s.threads[t].pc.LeaveSub? || s.threads[t].pc.LeaveStore?)
    ensures Inv(Advance(s, t, u))
  {
    var s' := Advance(s, t, u);
    assert ThreadOk(s.threads[t], s.version);
    assert s.gate != 0;
    if Owns(s'.threads[t].pc) {
      KeepsOwners(s, s', t);
    } else {
      DropsGate(s, s', t);
    }
    KeepsGateWake(s, s', t);
    KeepsCounts(s, s', t);
    KeepsThreads(s, s', t);
  }

  /** A releaser may stop owing its wake once an awake thread is in the contended loop, or nobody
      sleeps on the gate. */
  lemma SpendGateWake(s: State, s': State, t: Tid)
    requires Inv(s) && OnlyThread(s, s', t) && s.threads[t].pc.LeaveWake?
    requires || (exists v :: 0 <= v < |s.threads| && InContendedLoop(s.threads[v].pc))
             || (forall v :: 0 <= v < |s.threads| ==> !s.threads[v].pc.GateSleep?)
    requires s'.gate == s.gate && s'.nreaders == s.nreaders && s'.version == s.version
    requires s'.threads[t].pc == Left(s.threads[t].pc.x) && ThreadOk(s'.threads[t], s'.version)
    ensures Inv(s')
  {
    KeepsOwners(s, s', t);
    if v :| 0 <= v < |s.threads| && InContendedLoop(s.threads[v].pc) {
      assert InContendedLoop(s'.threads[v].pc);
    }
    KeepsCounts(s, s', t);
    KeepsThreads(s, s', t);
  }

  /** Waking one sleeper puts it in the contended loop, unless there is none to wake. */
  lemma WakeMeetsSleepers(s: State, t: Tid, u: Tid)
    requires t < |s.threads| && s.threads[t].pc.LeaveWake? && WakeChoiceOk(s, t, u)
    ensures var s1 := WakeGate(s, u);
            || (exists v :: 0 <= v < |s1.threads| && InContendedLoop(s1.threads[v].pc))
            || (forall v :: 0 <= v < |s1.threads| ==> !s1.threads[v].pc.GateSleep?)
  {
    var s1 := WakeGate(s, u);
    if v :| 0 <= v < |s1.threads| && s1.threads[v].pc.GateSleep? {
      assert s.threads[v].pc.GateSleep?;
      assert InContendedLoop(s1.threads[u].pc);
    }
  }

  lemma LeaveWakeKeeps(s: State, t: Tid, u: Tid)
    requires Inv(s) && t < |s.threads| && s.threads[t].pc.LeaveWake? && WakeChoiceOk(s, t, u)
    ensures Inv(Advance(s, t, u))
  {
    WakeGateKeeps(s, u);
    WakeMeetsSleepers(s, t, u);
    var s1 := WakeGate(s, u);
    assert ThreadOk(s1.threads[t], s1.version);
    SpendGateWake(s1, Advance(s, t, u), t);
  }

  /** Once nobody sleeps on the reader count, a thread may stop owing its wake. */
  lemma SpendCountWake(s: State, s': State, t: Tid)
    requires Inv(s) && OnlyThread(s, s', t) && OwesCountWake(s.threads[t].pc)
    requires forall i :: 0 <= i < |s.threads| ==> !s.threads[i].pc.WriteSleep?
    requires s'.gate == s.gate && s'.nreaders == s.nreaders && s'.version == s.version
    requires s'.threads[t].pc.Idle? || s'.threads[t].pc.GateFast?
    requires ThreadOk(s'.threads[t], s'.version)
    ensures Inv(s')
  {
    KeepsOwners(s, s', t);
    KeepsGateWake(s, s', t);
    KeepsCount(s, s', t);
    KeepsThreads(s, s', t);
  }

  /** The only thread that can sleep on the reader count is the one woken. */
  lemma CountWakeKeeps(s: State, t: Tid, u: Tid)
    requires Inv(s) && t < |s.threads| && OwesCountWake(s.threads[t].pc) && WakeChoiceOk(s, t, u)
    ensures Inv(Advance(s, t, u))
  {
    WakeCountKeeps(s, u);
    var s1, s' := WakeCount(s, u), Advance(s, t, u);
    assert ThreadOk(s1.threads[t], s1.version);
    forall i | 0 <= i < |s1.threads|
      ensures !s1.threads[i].pc.WriteSleep?
    {
      assert s.threads[i].pc.WriteSleep? ==> u < |s.threads| && Owns(s.threads[u].pc) && i == u;
    }
    SpendCountWake(s1, s', t);
  }

  lemma TryDropKeeps(s: State, t: Tid, u: Tid)
    requires Inv(s) && t < |s.threads| && s.threads[t].pc.TryDrop?
    ensures Inv(Advance(s, t, u))
  {
    var s' := Advance(s, t, u);
    assert ThreadOk(s.threads[t], s.version);
    OneWriter(s, t);
    WritersAfter(s, s', t);
    KeepsOwners(s, s', t);
    KeepsGateWake(s, s', t);
    KeepsCount(s, s', t);
    KeepsCountWake(s, s', t);
    KeepsThreads(s, s', t);
  }

  /** A marked writer whose count went negative has seen every reader leave. */
  lemma BeginWriteKeeps(s: State, t: Tid, w: Writer)
    requires GateInv(s) && GateWakeInv(s) && ThreadsOk(s) && CountWakeInv(s)
    requires t < |s.threads| && Owns(s.threads[t].pc) && !Holds(s.threads[t].pc)
    requires !s.threads[t].pc.LeaveStore? && !s.threads[t].pc.WriteSleep?
    requires Readers(s) == {} && s.nreaders == -1
    requires s.threads[t].pc == WriteSub(w) || s.threads[t].pc == WriteLoad(w)
    ensures Inv(BeginWrite(s, t, w))
  {
    var s' := BeginWrite(s, t, w);
    assert ThreadOk(s.threads[t], s.version);
    KeepsOwners(s, s', t);
    KeepsGateWake(s, s', t);
    ReadersAfter(s, s', t);
    OneWriter(s', t);
    KeepsCountWake(s, s', t);
    forall i | 0 <= i < |s'.threads|
      ensures ThreadOk(s'.threads[i], s'.version)
    {
      if i != t {
        assert i !in Readers(s);
        assert !Owns(s.threads[i].pc);
        assert ThreadOk(s.threads[i], s.version);
      }
    }
  }

  /** A writer that marks itself, or an already marked one, with readers still to wait for. */
  lemma DrainKeepsCounts(s: State, s': State, t: Tid)
    requires GateInv(s) && CountInv(s) && CountWakeInv(s) && OnlyThread(s, s', t)
    requires var pc := s.threads[t].pc; pc.WriteSub? || pc.WriteWait? || pc.WriteLoad?
    requires s'.nreaders == s.nreaders - Bit(s.threads[t].pc.WriteSub?)
    requires var pc' := s'.threads[t].pc; pc'.WriteLoad? || pc'.WriteWait? || (pc'.WriteSleep? && Readers(s) != {})
    ensures CountInv(s') && CountWakeInv(s')
  {
    ReadersAfter(s, s', t);
    KeepsCount(s, s', t);
    assert t !in Readers(s);
    assert Readers(s') == Readers(s);
    KeepsCountWake(s, s', t);
  }

  lemma DrainKeeps(s: State, s': State, t: Tid)
    requires Inv(s) && OnlyThread(s, s', t)
    requires var pc := s.threads[t].pc; pc.WriteSub? || pc.WriteWait? || pc.WriteLoad?
    requires s'.gate == s.gate && s'.nreaders == s.nreaders - Bit(s.threads[t].pc.WriteSub?) && s'.version == s.version
    requires var pc' := s'.threads[t].pc; pc'.WriteLoad? || pc'.WriteWait? || (pc'.WriteSleep? && Readers(s) != {})
    requires ThreadOk(s'.threads[t], s'.version)
    ensures Inv(s')
  {
    KeepsOwners(s, s', t);
    KeepsGateWake(s, s', t);
    DrainKeepsCounts(s, s', t);
    KeepsThreads(s, s', t);
  }

  lemma WriteSubKeeps(s: State, t: Tid, u: Tid)
    requires Inv(s) && t < |s.threads| && s.threads[t].pc.WriteSub?
    ensures Inv(Advance(s, t, u))
  {
    var s1 := s.(nreaders := s.nreaders - 1);
    assert ThreadOk(s.threads[t], s.version);
    OneWriter(s, t);
    if 0 <= s1.nreaders {
      DrainKeeps(s, Advance(s, t, u), t);
    } else {
      assert Readers(s1) == Readers(s);
      BeginWriteKeeps(s1, t, s.threads[t].pc.w);
    }
  }

  lemma WriteWaitKeeps(s: State, t: Tid, u: Tid)
    requires Inv(s) && t < |s.threads| && (s.threads[t].pc.WriteWait? || s.threads[t].pc.WriteLoad?)
    ensures Inv(Advance(s, t, u))
  {
    var s' := Advance(s, t, u);
    assert ThreadOk(s.threads[t], s.version);
    OneWriter(s, t);
    if s'.threads[t].pc.Writing? {
      BeginWriteKeeps(s, t, s.threads[t].pc.w);
    } else {
      DrainKeeps(s, s', t);
    }
  }

  lemma AdvanceKeeps(s: State, t: Tid, u: Tid)
    requires Inv(s) && t < |s.threads| && Runnable(s.threads[t].pc) && WakeChoiceOk(s, t, u)
    ensures Inv(Advance(s, t, u))
  {
    match s.threads[t].pc
    case GateFast(_) => EnterGateKeeps(s, t, u);
    case GateMark(_, _) => EnterGateKeeps(s, t, u);
    case GateWait(_) => EnterGateKeeps(s, t, u);
    case GateSlow(_) => EnterGateKeeps(s, t, u);
    case ReadAdd => ReadAddKeeps(s, t, u);
    case LeaveSub(_) => LeaveGateKeeps(s, t, u);
    case LeaveStore(_) => LeaveGateKeeps(s, t, u);
    case LeaveWake(_) => LeaveWakeKeeps(s, t, u);
    case UnlockWake => CountWakeKeeps(s, t, u);
    case ModifyWake => CountWakeKeeps(s, t, u);
    case TryDrop => TryDropKeeps(s, t, u);
    case WriteSub(_) => WriteSubKeeps(s, t, u);
    case WriteWait(_, _) => WriteWaitKeeps(s, t, u);
    case WriteLoad(_) => WriteWaitKeeps(s, t, u);
  }

  /** A call that only moves an idle thread to the gate. */
  lemma StartLockKeeps(s: State, s': State, t: Tid)
    requires Inv(s) && OnlyThread(s, s', t) && s.threads[t].pc.Idle?
    requires s'.gate == s.gate && s'.nreaders == s.nreaders && s'.version == s.version
    requires s'.threads[t].pc.GateFast? && ThreadOk(s'.threads[t], s'.version)
    ensures Inv(s')
  {
    KeepsOwners(s, s', t);
    KeepsGateWake(s, s', t);
    KeepsCounts(s, s', t);
    KeepsThreads(s, s', t);
  }

  /** A decrement by a live reader goes negative only for the last reader of a marked writer. */
  lemma LastReader(s: State, t: Tid)
    requires GateInv(s) && CountInv(s) && t < |s.threads| && s.threads[t].pc.Reading?
    ensures s.nreaders - 1 >= -1
    ensures s.nreaders - 1 < 0 <==> Readers(s) == {t} && Writers(s) != {}
  {
    AtMostOneWriter(s);
    assert t in Readers(s);
    assert Readers(s) == {t} + (Readers(s) - {t});
  }

  /** A reader gives up its count, and owes a wake if that leaves the count negative. */
  predicate DropsCount(s: State, s': State, t: Tid)
    requires t < |s.threads| && t < |s'.threads|
  {
    var pc' := s'.threads[t].pc;
    && s.threads[t].pc.Reading? && s'.nreaders == s.nreaders - 1
    && if s'.nreaders < 0 then OwesCountWake(pc') else pc'.Idle? || pc'.GateFast?
  }

  lemma DropCountKeepsCount(s: State, s': State, t: Tid)
    requires CountInv(s) && OnlyThread(s, s', t) && DropsCount(s, s', t)
    ensures CountInv(s')
  {
    KeepsCount(s, s', t);
  }

  /** If it was the last reader, either it owes the wake or there is nobody to wake. */
  lemma DropCountKeepsWake(s: State, s': State, t: Tid)
    requires GateInv(s) && CountInv(s) && CountWakeInv(s) && OnlyThread(s, s', t) && DropsCount(s, s', t)
    ensures CountWakeInv(s')
  {
    LastReader(s, t);
    ReadersAfter(s, s', t);
    WritersAfter(s, s', t);
    assert Readers(s') == {} ==> Readers(s) == {t};
    hide GateInv;
    hide CountInv;
    hide Readers;
    hide Writers;
    KeepsCountWake(s, s', t);
  }

  /** read_unlock and write_modify: the dropped count is one this thread held. */
  lemma DropCountKeeps(s: State, s': State, t: Tid)
    requires Inv(s) && OnlyThread(s, s', t) && DropsCount(s, s', t)
    requires s'.gate == s.gate && s'.version == s.version
    requires ThreadOk(s'.threads[t], s'.version)
    ensures Inv(s')
  {
    KeepsOwners(s, s', t);
    KeepsGateWake(s, s', t);
    DropCountKeepsCount(s, s', t);
    DropCountKeepsWake(s, s', t);
    KeepsThreads(s, s', t);
  }

  lemma WriteUnlockKeeps(s: State, s': State, t: Tid)
    requires Inv(s) && OnlyThread(s, s', t) && s.threads[t].pc.Writing?
    requires s'.gate == s.gate && s'.nreaders == 0 && s'.version == s.version
    requires s'.threads[t].pc == LeaveSub(AfterWrite) && ThreadOk(s'.threads[t], s'.version)
    ensures Inv(s')
  {
    OneWriter(s, t);
    WritersAfter(s, s', t);
    KeepsOwners(s, s', t);
    KeepsGateWake(s, s', t);
    KeepsCount(s, s', t);
    KeepsCountWake(s, s', t);
    KeepsThreads(s, s', t);
  }

  lemma StartKeeps(s: State, t: Tid, c: Call)
    requires Inv(s) && t < |s.threads| && MayCall(s.threads[t], c)
    ensures Inv(StartCall(s, t, c))
  {
    var s' := StartCall(s, t, c);
    assert ThreadOk(s.threads[t], s.version);
    if s' == s {
    } else if s.threads[t].pc.Idle? {
      StartLockKeeps(s, s', t);
    } else if s.threads[t].pc.Writing? {
      WriteUnlockKeeps(s, s', t);
    } else if s'.threads[t].pc.TryDrop? {
      TakeKeeps(s, s', t);
    } else {
      DropCountKeeps(s, s', t);
    }
  }

  lemma ApplyKeeps(s: State, a: Action)
    requires Inv(s) && Enabled(s, a)
    ensures Inv(Apply(s, a))
  {
    match a
    case Start(t, c) => StartKeeps(s, t, c);
    case Step(t, u) => AdvanceKeeps(s, t, u);
    case Spurious(t) =>
      WakeGateKeeps(s, t);
      WakeCountKeeps(WakeGate(s, t), t);
  }

  lemma InitInv(s: State)
    requires Init(s)
    ensures Inv(s)
  {
    assert Readers(s) == {};
    assert Writers(s) == {};
  }

  lemma {:induction false} RunsKeep(s: State, run: seq<Action>)
    requires Inv(s) && Runs(s, run)
    ensures Inv(After(s, run))
    decreases |run|
  {
    if run != [] {
      ApplyKeeps(s, run[0]);
      RunsKeep(Apply(s, run[0]), run[1..]);
    }
  }

  /** The invariant holds in every reachable state. */
  lemma ReachableInv(s: State)
    requires Reachable(s)
    ensures Inv(s)
  {
    var s0, run :| Init(s0) && Runs(s0, run) && After(s0, run) == s;
    InitInv(s0);
    RunsKeep(s0, run);
  }
}
