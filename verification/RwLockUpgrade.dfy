/** When the two upgrades from a read to a write lock are atomic, over every run. */
module RwLockUpgrade {
  import opened RwLock
  import opened RwLockInvariant
  import opened RwLockRefinement
  import opened RwLockTheorems

  /** The thread owns the gate in order to write: nothing but a write section lets it go. */
  predicate WriteOwner(pc: Pc) {
    pc.TryDrop? || pc.WriteSub? || Marked(pc)
  }

  ghost predicate ForeignWriter(s: State, t: Tid) {
    exists u :: 0 <= u < |s.threads| && u != t && WriteOwner(s.threads[u].pc)
  }

  /** In some state of `run` a thread other than `t` owns the gate in order to write. */
  ghost predicate MeetsWriter(s: State, run: seq<Action>, t: Tid)
    requires Runs(s, run)
    decreases |run|
  {
    ForeignWriter(s, t) || (run != [] && MeetsWriter(Apply(s, run[0]), run[1..], t))
  }

  ghost predicate NobodyElseWrites(s: State, t: Tid) {
    forall u :: 0 <= u < |s.threads| && u != t ==> !s.threads[u].pc.Writing?
  }

  lemma OwnWriterStep(s: State, u: Tid, v: Tid)
    requires u < |s.threads| && WriteOwner(s.threads[u].pc) && !s.threads[u].pc.Writing?
    requires EventOf(s, Step(u, v)) != AcquireWrite(u)
    ensures var s' := Advance(s, u, v);
            |s'.threads| == |s.threads| && WriteOwner(s'.threads[u].pc) && !s'.threads[u].pc.Writing?
  {
  }

  /** A thread that owns the gate to write, and has not begun, begins or still owns it. */
  lemma WriterStep(s: State, a: Action, u: Tid)
    requires Enabled(s, a) && u < |s.threads|
    requires WriteOwner(s.threads[u].pc) && !s.threads[u].pc.Writing?
    requires EventOf(s, a) != AcquireWrite(u)
    ensures var s' := Apply(s, a);
            |s'.threads| == |s.threads| && WriteOwner(s'.threads[u].pc) && !s'.threads[u].pc.Writing?
  {
    if a.t != u {
      hide Apply;
      OthersKeep(s, a, u);
    } else if a.Step? {
      OwnWriterStep(s, u, a.u);
    }
  }

  /** Such a thread must write before `t` can. */
  lemma {:induction false} ForeignWriterWrites(s: State, run: seq<Action>, t: Tid, u: Tid)
    requires Inv(s) && Runs(s, run) && t < |s.threads| && u < |s.threads| && u != t
    requires WriteOwner(s.threads[u].pc) && !s.threads[u].pc.Writing?
    requires t < |After(s, run).threads| && After(s, run).threads[t].pc.Writing?
    ensures WritesBegun(s, run, t, false) > 0
    decreases |run|
  {
    if run == [] {
      assert Owns(s.threads[t].pc) && Owns(s.threads[u].pc);
    } else if EventOf(s, run[0]) != AcquireWrite(u) {
      WriterStep(s, run[0], u);
      ApplyKeeps(s, run[0]);
      ForeignWriterWrites(Apply(s, run[0]), run[1..], t, u);
    }
  }

  /** Only such a thread begins to write. */
  lemma BeginnerOwned(s: State, a: Action)
    requires Enabled(s, a) && EventOf(s, a).AcquireWrite?
    ensures EventOf(s, a).t == a.t && WriteOwner(s.threads[a.t].pc)
  {
  }

  /** With no such thread around, nobody else begins to write in this step. */
  lemma NoWriterStep(s: State, a: Action, t: Tid)
    requires Enabled(s, a) && t < |s.threads| && !ForeignWriter(s, t) && NobodyElseWrites(s, t)
    ensures NobodyElseWrites(Apply(s, a), t) && |Apply(s, a).threads| == |s.threads|
    ensures EventOf(s, a).AcquireWrite? ==> EventOf(s, a).t == t
  {
    hide Apply;
    hide EventOf;
    StepVersion(s, a);
    if EventOf(s, a).AcquireWrite? {
      BeginnerOwned(s, a);
    }
    forall u | 0 <= u < |s.threads| && u != t
      ensures !Apply(s, a).threads[u].pc.Writing?
    {
      StepSeen(s, a, u);
    }
  }

  lemma {:induction false} WritesMeanWriter(s: State, run: seq<Action>, t: Tid)
    requires Inv(s) && Runs(s, run) && t < |s.threads| && NobodyElseWrites(s, t)
    requires t < |After(s, run).threads| && After(s, run).threads[t].pc.Writing?
    ensures WritesBegun(s, run, t, false) > 0 <==> MeetsWriter(s, run, t)
    decreases |run|
  {
    if u :| 0 <= u < |s.threads| && u != t && WriteOwner(s.threads[u].pc) {
      ForeignWriterWrites(s, run, t, u);
    } else if run != [] {
      NoWriterStep(s, run[0], t);
      ApplyKeeps(s, run[0]);
      WritesMeanWriter(Apply(s, run[0]), run[1..], t);
    }
  }

  /** write_modify, from the decrement that starts it to the write section it ends in: another thread
      wrote in between if and only if some other thread owned the gate to write at the decrement or
      at some later point of the run. */
  lemma ModifyAtomicity(s: State, run: seq<Action>, t: Tid)
    requires Reachable(s) && Runs(s, run) && run != []
    requires t < |s.threads| && (run[0] == Start(t, Modify) || run[0] == Start(t, SessionModify))
    requires t < |After(s, run).threads| && After(s, run).threads[t].pc == Writing(ByModify)
    ensures WritesBegun(s, run, t, false) > 0 <==> MeetsWriter(s, run, t)
  {
    ReachableInv(s);
    assert t in Readers(s);
    WritesMeanWriter(s, run, t);
  }
}
