/** What each operation of the read/write lock returns with, over every run. */
module RwLockCalls {
  import opened RwLock
  import opened RwLockInvariant
  import opened RwLockRefinement
  import opened RwLockTheorems

  /** The thread is outside every operation. */
  predicate Returned(pc: Pc) {
    pc.Idle? || pc.Reading? || pc.Writing?
  }

  /** Thread `t` is inside its operation in every state of `run` but the last, in which it has returned. */
  ghost predicate UntilReturn(s: State, run: seq<Action>, t: Tid)
    requires Runs(s, run)
    decreases |run|
  {
    && t < |s.threads|
    && if run == [] then Returned(s.threads[t].pc)
       else !Returned(s.threads[t].pc) && UntilReturn(Apply(s, run[0]), run[1..], t)
  }

  /** The events of thread `t` in `run`, in order. */
  ghost function OwnEvents(s: State, run: seq<Action>, t: Tid): seq<Event>
    requires Runs(s, run)
    decreases |run|
  {
    if run == [] then []
    else
      var ev := EventOf(s, run[0]);
      (if run[0].t == t && ev != Silent then [ev] else []) + OwnEvents(Apply(s, run[0]), run[1..], t)
  }

  // ---- What is left to do ----

  function EntryEnd(e: Entry): Pc {
    match e
    case ForRead => Reading
    case ForWrite => Writing(ByLock)
    case ForModify => Writing(ByModify)
  }

  function EntryEvent(e: Entry, t: Tid): Event {
    if e.ForRead? then AcquireRead(t) else AcquireWrite(t)
  }

  /** Where the operation a thread is in will return. */
  function End(pc: Pc): Pc {
    match pc
    case GateFast(e) => EntryEnd(e)
    case GateMark(e, _) => EntryEnd(e)
    case GateWait(e) => EntryEnd(e)
    case GateSleep(e) => EntryEnd(e)
    case GateSlow(e) => EntryEnd(e)
    case ReadAdd => Reading
    case LeaveSub(x) => Left(x)
    case LeaveStore(x) => Left(x)
    case LeaveWake(x) => Left(x)
    case UnlockWake => Idle
    case ModifyWake => Writing(ByModify)
    case TryDrop => Writing(ByTry)
    case WriteSub(w) => Writing(w)
    case WriteWait(w, _) => Writing(w)
    case WriteSleep(w) => Writing(w)
    case WriteLoad(w) => Writing(w)
    case Idle => Idle
    case Reading => Reading
    case Writing(w) => Writing(w)
  }

  /** The events it will still cause. */
  function Ahead(pc: Pc, t: Tid): seq<Event> {
    match pc
    case GateFast(e) => [EntryEvent(e, t)]
    case GateMark(e, _) => [EntryEvent(e, t)]
    case GateWait(e) => [EntryEvent(e, t)]
    case GateSleep(e) => [EntryEvent(e, t)]
    case GateSlow(e) => [EntryEvent(e, t)]
    case ReadAdd => [AcquireRead(t)]
    case ModifyWake => [AcquireWrite(t)]
    case TryDrop => [BeginUpgrade(t), AcquireWrite(t)]
    case WriteSub(_) => [AcquireWrite(t)]
    case WriteWait(_, _) => [AcquireWrite(t)]
    case WriteSleep(_) => [AcquireWrite(t)]
    case WriteLoad(_) => [AcquireWrite(t)]
    case _ => []
  }

  lemma OwnStepAhead(s: State, t: Tid, u: Tid)
    requires t < |s.threads| && Runnable(s.threads[t].pc)
    ensures var s', ev := Advance(s, t, u), EventOf(s, Step(t, u));
            && |s'.threads| == |s.threads|
            && End(s'.threads[t].pc) == End(s.threads[t].pc)
            && Ahead(s.threads[t].pc, t) == (if ev != Silent then [ev] else []) + Ahead(s'.threads[t].pc, t)
            && s'.threads[t].session.Modifiable? == s.threads[t].session.Modifiable?
  {
  }

  /** Whoever moves, the operation of `t` keeps its course. */
  lemma StepAhead(s: State, a: Action, t: Tid)
    requires Enabled(s, a) && t < |s.threads| && !Returned(s.threads[t].pc)
    ensures var s', ev := Apply(s, a), EventOf(s, a);
            && |s'.threads| == |s.threads|
            && End(s'.threads[t].pc) == End(s.threads[t].pc)
            && Ahead(s.threads[t].pc, t) == (if a.t == t && ev != Silent then [ev] else []) + Ahead(s'.threads[t].pc, t)
            && s'.threads[t].session.Modifiable? == s.threads[t].session.Modifiable?
  {
    if a.t != t {
      hide Apply;
      OthersKeep(s, a, t);
    } else if a.Step? {
      OwnStepAhead(s, t, a.u);
    }
  }

  lemma {:induction false} RunAhead(s: State, run: seq<Action>, t: Tid)
    requires Runs(s, run) && UntilReturn(s, run, t)
    ensures var s' := After(s, run);
            && |s'.threads| == |s.threads|
            && s'.threads[t].pc == End(s.threads[t].pc)
            && OwnEvents(s, run, t) == Ahead(s.threads[t].pc, t)
            && s'.threads[t].session.Modifiable? == s.threads[t].session.Modifiable?
    decreases |run|
  {
    if run != [] {
      StepAhead(s, run[0], t);
      RunAhead(Apply(s, run[0]), run[1..], t);
    }
  }

  // ---- The operations ----

  /** How operation `c`, called by thread `t` in state `th`, may return: where the thread is then, what it
      has done to the abstract lock on the way, and the session it is left in. */
  predicate Outcome(c: Call, t: Tid, th: Thread, pc: Pc, events: seq<Event>, session: Session) {
    match c
    case ReadLock => pc == Reading && events == [AcquireRead(t)] && session.Plain?
    case WriteLock => pc == Writing(ByLock) && events == [AcquireWrite(t)] && session.Plain?
    case ReadUnlock => pc == Idle && events == [ReleaseRead(t)] && session.Plain?
    case WriteUnlock => pc == Idle && events == [ReleaseWrite(t)] && session.Plain?
    case Modify => pc == Writing(ByModify) && events == [ReleaseRead(t), AcquireWrite(t)] && session.Plain?
    case TryModify =>
      && session.Plain?
      && ((pc == Writing(ByTry) && events == [BeginUpgrade(t), AcquireWrite(t)]) || (pc == Reading && events == []))
    case SessionLock => pc == Reading && events == [AcquireRead(t)] && session == Modifiable(false)
    case SessionUnlock =>
      pc == Idle && session.Plain? && events == [if th.pc.Writing? then ReleaseWrite(t) else ReleaseRead(t)]
    case SessionModify =>
      pc == Writing(ByModify) && events == [ReleaseRead(t), AcquireWrite(t)] && session == Modifiable(true)
    case SessionTryModify =>
      if th.pc.Writing? then pc == th.pc && events == [] && session == Modifiable(true)
      else || (pc == Writing(ByTry) && events == [BeginUpgrade(t), AcquireWrite(t)] && session == Modifiable(true))
           || (pc == Reading && events == [] && session == Modifiable(false))
  }

  /** The first atomic operation of a call sets the course. */
  lemma StartAhead(s: State, t: Tid, c: Call)
    requires t < |s.threads| && MayCall(s.threads[t], c) && SessionOk(s.threads[t])
    ensures var s', ev := StartCall(s, t, c), EventOf(s, Start(t, c));
            var th' := s'.threads[t];
            var session := if th'.session.Plain? then Plain else Modifiable(End(th'.pc).Writing?);
            && |s'.threads| == |s.threads|
            && Outcome(c, t, s.threads[t], End(th'.pc), (if ev != Silent then [ev] else []) + Ahead(th'.pc, t), session)
  {
  }

  /** Every run from a call to its return, with any interference: the caller returns with the hold the
      operation is for, having acquired and released exactly what the operation should, in order. */
  lemma CallReturns(s: State, t: Tid, c: Call, run: seq<Action>)
    requires Reachable(s) && Enabled(s, Start(t, c))
    requires Runs(Apply(s, Start(t, c)), run) && UntilReturn(Apply(s, Start(t, c)), run, t)
    ensures var s', first := After(Apply(s, Start(t, c)), run), EventOf(s, Start(t, c));
            && t < |s'.threads|
            && Outcome(c, t, s.threads[t], s'.threads[t].pc,
                       (if first != Silent then [first] else []) + OwnEvents(Apply(s, Start(t, c)), run, t),
                       s'.threads[t].session)
  {
    var s1 := Apply(s, Start(t, c));
    ReachableInv(s);
    assert SessionOk(s.threads[t]);
    StartAhead(s, t, c);
    RunAhead(s1, run, t);
    ApplyKeeps(s, Start(t, c));
    RunsKeep(s1, run);
    assert SessionOk(After(s1, run).threads[t]);
  }

  /** A reader's try_write_modify is refused if and only if somebody owns the gate; then it returns at
      once and has changed nothing. */
  lemma UpgradeRefused(s: State, t: Tid, c: Call, run: seq<Action>)
    requires Reachable(s) && (c == TryModify || c == SessionTryModify) && Enabled(s, Start(t, c)) && s.threads[t].pc.Reading?
    requires Runs(Apply(s, Start(t, c)), run) && UntilReturn(Apply(s, Start(t, c)), run, t)
    ensures var s' := After(Apply(s, Start(t, c)), run);
            && t < |s'.threads|
            && (s'.threads[t].pc.Reading? <==> GateOwned(s))
            && (s'.threads[t].pc.Reading? ==> run == [] && s' == s)
  {
    var s1 := Apply(s, Start(t, c));
    ReachableInv(s);
    assert SessionOk(s.threads[t]);
    RunAhead(s1, run, t);
  }

  // ---- What the calls cost ----

  /** Through a free gate read_lock takes three steps after its call, no futex call among them, and adds
      one reader. */
  lemma UncontendedRead(s: State, t: Tid)
    requires t < |s.threads| && s.threads[t].pc.Idle? && s.gate == 0
    ensures var run := [Start(t, ReadLock), Step(t, t), Step(t, t), Step(t, t)];
            && Runs(s, run)
            && After(s, run) == s.(nreaders := s.nreaders + 1,
                                   threads := s.threads[t := s.threads[t].(pc := Reading, seen := s.version)])
  {
    var s1 := Set(s, t, GateFast(ForRead));
    var s2 := Set(s.(gate := 1), t, ReadAdd);
    var th := s.threads[t].(pc := LeaveSub(AfterRead), seen := s.version);
    var s3 := s.(gate := 1, nreaders := s.nreaders + 1, threads := s.threads[t := th]);
    var s4 := Set(s3.(gate := 0), t, Reading);
    assert Apply(s1, Step(t, t)) == s2;
    assert Apply(s2, Step(t, t)) == s3;
    Chained(s, [Start(t, ReadLock), Step(t, t), Step(t, t), Step(t, t)], [s, s1, s2, s3, s4]);
  }

  /** Through a free gate write_lock marks the caller in two steps; it then writes if there is no reader,
      and otherwise sleeps after one more. */
  lemma WriteMarks(s: State, t: Tid)
    requires Inv(s) && t < |s.threads| && s.threads[t].pc.Idle? && s.gate == 0
    ensures var run := [Start(t, WriteLock), Step(t, t), Step(t, t)];
            && Runs(s, run)
            && var s' := After(s, run);
               && |s'.threads| == |s.threads| && s'.gate == 1 && s'.nreaders == s.nreaders - 1
               && (s'.threads[t].pc == Writing(ByLock) <==> Readers(s) == {})
               && (Readers(s) != {} ==> s'.threads[t].pc == WriteWait(ByLock, s'.nreaders) && Enabled(s', Step(t, t))
                                        && Advance(s', t, t).threads[t].pc == WriteSleep(ByLock))
  {
    UnownedCount(s);
    var s1 := Set(s, t, GateFast(ForWrite));
    var s2 := Set(s.(gate := 1), t, WriteSub(ByLock));
    var s3 := Advance(s2, t, t);
    assert Apply(s1, Step(t, t)) == s2;
    Chained(s, [Start(t, WriteLock), Step(t, t), Step(t, t)], [s, s1, s2, s3]);
  }

  lemma UnownedCount(s: State)
    requires Inv(s) && s.gate == 0
    ensures s.nreaders == |Readers(s)|
  {
    forall w
      ensures w !in Writers(s)
    {
      assert w in Writers(s) ==> Owns(s.threads[w].pc);
    }
    assert Writers(s) == {};
  }

  lemma MayStep(s: State, t: Tid)
    requires t < |s.threads| && (s.threads[t].pc.GateFast? || InContendedLoop(s.threads[t].pc))
    ensures Enabled(s, Step(t, t))
  {
  }

  lemma ThreeSteps(s: State, t: Tid, s1: State, s2: State, s3: State)
    requires t < |s.threads| && Enabled(s, Step(t, t)) && Apply(s, Step(t, t)) == s1
    requires Enabled(s1, Step(t, t)) && Apply(s1, Step(t, t)) == s2
    requires Enabled(s2, Step(t, t)) && Apply(s2, Step(t, t)) == s3
    ensures Runs(s, [Step(t, t), Step(t, t), Step(t, t)])
    ensures After(s, [Step(t, t), Step(t, t), Step(t, t)]) == s3
  {
    hide Apply;
    hide Enabled;
    Chained(s, [Step(t, t), Step(t, t), Step(t, t)], [s, s1, s2, s3]);
  }

  lemma ContendedMark(s: State, t: Tid, e: Entry)
    requires t < |s.threads| && s.threads[t].pc == GateFast(e) && (s.gate == 1 || s.gate == 2)
    ensures Apply(s, Step(t, t)) == Set(s, t, GateMark(e, s.gate))
    ensures Apply(Set(s, t, GateMark(e, s.gate)), Step(t, t)) == Set(s.(gate := 2), t, GateWait(e))
    ensures Apply(Set(s.(gate := 2), t, GateWait(e)), Step(t, t)) == Set(s.(gate := 2), t, GateSleep(e))
  {
  }

  /** At a gate that somebody owns a caller marks it contended and goes to sleep, in three steps. */
  lemma ContendedSleeps(s: State, t: Tid)
    requires Inv(s) && t < |s.threads| && s.threads[t].pc.GateFast? && s.gate != 0
    ensures var run := [Step(t, t), Step(t, t), Step(t, t)];
            Runs(s, run) && After(s, run) == Set(s.(gate := 2), t, GateSleep(s.threads[t].pc.e))
  {
    var e := s.threads[t].pc.e;
    ContendedMark(s, t, e);
    hide Inv;
    hide Apply;
    hide Enabled;
    var s1, s2 := Set(s, t, GateMark(e, s.gate)), Set(s.(gate := 2), t, GateWait(e));
    MayStep(s, t);
    MayStep(s1, t);
    MayStep(s2, t);
    hide Runs;
    hide After;
    ThreeSteps(s, t, s1, s2, Set(s.(gate := 2), t, GateSleep(e)));
  }
}
