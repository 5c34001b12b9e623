/** The step machine refines a lock that is just a set of readers and at most one writer. */
module RwLockRefinement {
  import opened RwLock
  import opened RwLockInvariant

  /** `upgrading` holds the reader that has given up its read hold to become the next writer. */
  datatype Abstract = Abstract(readers: set<Tid>, writers: set<Tid>, upgrading: set<Tid>)

  datatype Event =
    | Silent
    | AcquireRead(t: Tid) | ReleaseRead(t: Tid)
    | BeginUpgrade(t: Tid)
    | AcquireWrite(t: Tid) | ReleaseWrite(t: Tid)

  /** The reference lock: what a client may observe, with no gate, no counter and no futex. */
  predicate AbstractStep(a: Abstract, ev: Event, a': Abstract) {
    match ev
    case Silent => a' == a
    case AcquireRead(t) =>
      t !in a.readers && a.writers == {} && a.upgrading == {} && a' == a.(readers := a.readers + {t})
    case ReleaseRead(t) =>
      t in a.readers && a' == a.(readers := a.readers - {t})
    case BeginUpgrade(t) =>
      && t in a.readers && a.writers == {} && a.upgrading == {}
      && a' == a.(readers := a.readers - {t}, upgrading := {t})
    case AcquireWrite(t) =>
      a.readers == {} && a.writers == {} && a.upgrading <= {t} && a' == Abstract({}, {t}, {})
    case ReleaseWrite(t) =>
      a.writers == {t} && a' == a.(writers := {})
  }

  ghost function Active(s: State): set<Tid> {
    set t | 0 <= t < |s.threads| && s.threads[t].pc.Writing?
  }

  ghost function Upgraders(s: State): set<Tid> {
    set t | 0 <= t < |s.threads| && Upgrading(s.threads[t].pc)
  }

  ghost function Abs(s: State): Abstract {
    Abstract(Readers(s), Active(s), Upgraders(s))
  }

  function DropEvent(th: Thread, t: Tid): Event {
    if th.session.Modifiable? && th.session.modified then ReleaseWrite(t) else ReleaseRead(t)
  }

  /** The client-visible event of an action.  write_modify is a ReleaseRead now and an AcquireWrite
      later; try_write_modify is a BeginUpgrade followed by the AcquireWrite. */
  function EventOf(s: State, a: Action): Event
    requires a.t < |s.threads|
  {
    match a
    case Spurious(_) => Silent
    case Start(t, c) => (
      match c
      case ReadUnlock | Modify | SessionModify => ReleaseRead(t)
      case WriteUnlock => ReleaseWrite(t)
      case SessionUnlock => DropEvent(s.threads[t], t)
      case _ => Silent
    )
    case Step(t, _) => (
      match s.threads[t].pc
      case ReadAdd => AcquireRead(t)
      case TryDrop => BeginUpgrade(t)
      case WriteSub(_) => if s.nreaders - 1 < 0 then AcquireWrite(t) else Silent
      case WriteLoad(_) => if s.nreaders < 0 then AcquireWrite(t) else Silent
      case _ => Silent
    )
  }

  lemma ActiveAfter(s: State, s': State, t: Tid)
    requires OnlyThread(s, s', t)
    ensures Active(s') == if s'.threads[t].pc.Writing? then Active(s) + {t} else Active(s) - {t}
    ensures Upgraders(s') == if Upgrading(s'.threads[t].pc) then Upgraders(s) + {t} else Upgraders(s) - {t}
  {
    var w' := if s'.threads[t].pc.Writing? then Active(s) + {t} else Active(s) - {t};
    assert Active(s') == w' by {
      forall i ensures i in Active(s') <==> i in w' {
      }
    }
    var u' := if Upgrading(s'.threads[t].pc) then Upgraders(s) + {t} else Upgraders(s) - {t};
    assert Upgraders(s') == u' by {
      forall i ensures i in Upgraders(s') <==> i in u' {
      }
    }
  }

  /** While `t` owns the gate it alone can be writing or upgrading. */
  lemma OwnerAlone(s: State, t: Tid)
    requires GateInv(s) && t < |s.threads| && Owns(s.threads[t].pc)
    ensures Active(s) == if s.threads[t].pc.Writing? then {t} else {}
    ensures Upgraders(s) == if Upgrading(s.threads[t].pc) then {t} else {}
  {
    forall i ensures i in Active(s) <==> i == t && s.threads[t].pc.Writing? {
      assert i in Active(s) ==> Owns(s.threads[i].pc);
    }
    forall i ensures i in Upgraders(s) <==> i == t && Upgrading(s.threads[t].pc) {
      assert i in Upgraders(s) ==> Owns(s.threads[i].pc);
    }
  }

  /** A step that changes no hold, no write section and no upgrade is invisible. */
  lemma SilentStep(s: State, s': State, t: Tid)
    requires OnlyThread(s, s', t)
    requires Holds(s'.threads[t].pc) == Holds(s.threads[t].pc)
    requires s'.threads[t].pc.Writing? == s.threads[t].pc.Writing?
    requires Upgrading(s'.threads[t].pc) == Upgrading(s.threads[t].pc)
    ensures Abs(s') == Abs(s)
  {
    ReadersAfter(s, s', t);
    ActiveAfter(s, s', t);
    assert t in Readers(s) <==> Holds(s.threads[t].pc);
    assert t in Active(s) <==> s.threads[t].pc.Writing?;
    assert t in Upgraders(s) <==> Upgrading(s.threads[t].pc);
    assert Abs(s').readers == Abs(s).readers;
    assert Abs(s').writers == Abs(s).writers;
    assert Abs(s').upgrading == Abs(s).upgrading;
  }

  lemma WakesAreSilent(s: State, u: Tid)
    ensures Abs(WakeGate(s, u)) == Abs(s)
    ensures Abs(WakeCount(s, u)) == Abs(s)
  {
    if u < |s.threads| {
      SilentStep(s, WakeGate(s, u), u);
      SilentStep(s, WakeCount(s, u), u);
    }
  }

  lemma ReadAddRefines(s: State, s': State, t: Tid)
    requires GateInv(s) && OnlyThread(s, s', t)
    requires s.threads[t].pc.ReadAdd? && s'.threads[t].pc == LeaveSub(AfterRead)
    ensures AbstractStep(Abs(s), AcquireRead(t), Abs(s'))
  {
    OwnerAlone(s, t);
    ReadersAfter(s, s', t);
    ActiveAfter(s, s', t);
    assert Abs(s').writers == {};
    assert Abs(s').upgrading == {};
  }

  lemma TryDropRefines(s: State, s': State, t: Tid)
    requires GateInv(s) && OnlyThread(s, s', t)
    requires s.threads[t].pc.TryDrop? && s'.threads[t].pc == WriteSub(ByTry)
    ensures AbstractStep(Abs(s), BeginUpgrade(t), Abs(s'))
  {
    OwnerAlone(s, t);
    ReadersAfter(s, s', t);
    ActiveAfter(s, s', t);
    assert Abs(s').writers == {};
    assert Abs(s').upgrading == {t};
  }

  lemma BeginWriteRefines(s: State, s': State, t: Tid)
    requires Inv(s) && OnlyThread(s, s', t)
    requires var pc := s.threads[t].pc;
             (pc.WriteSub? && s.nreaders - 1 < 0) || (pc.WriteLoad? && s.nreaders < 0)
    requires s'.threads[t].pc.Writing?
    ensures AbstractStep(Abs(s), AcquireWrite(t), Abs(s'))
  {
    OneWriter(s, t);
    assert |Readers(s)| == 0;
    OwnerAlone(s, t);
    ReadersAfter(s, s', t);
    ActiveAfter(s, s', t);
    assert Abs(s').readers == {};
    assert Abs(s').writers == {t};
    assert Abs(s').upgrading == {};
  }

  lemma ReleaseReadRefines(s: State, s': State, t: Tid)
    requires OnlyThread(s, s', t) && s.threads[t].pc.Reading?
    requires var pc' := s'.threads[t].pc; pc'.Idle? || OwesCountWake(pc') || pc'.GateFast?
    ensures AbstractStep(Abs(s), ReleaseRead(t), Abs(s'))
  {
    ReadersAfter(s, s', t);
    ActiveAfter(s, s', t);
    assert t in Readers(s) && t !in Active(s) && t !in Upgraders(s);
    assert Abs(s').writers == Abs(s).writers && Abs(s').upgrading == Abs(s).upgrading;
  }

  lemma ReleaseWriteRefines(s: State, s': State, t: Tid)
    requires Inv(s) && OnlyThread(s, s', t) && s.threads[t].pc.Writing?
    requires s'.threads[t].pc == LeaveSub(AfterWrite)
    ensures AbstractStep(Abs(s), ReleaseWrite(t), Abs(s'))
  {
    OwnerAlone(s, t);
    ReadersAfter(s, s', t);
    ActiveAfter(s, s', t);
    assert t !in Readers(s);
    assert Abs(s').readers == Abs(s).readers;
    assert Abs(s').writers == {};
    assert Abs(s').upgrading == Abs(s).upgrading;
  }

  lemma WakeStepRefines(s: State, t: Tid, u: Tid)
    requires t < |s.threads| && (s.threads[t].pc.LeaveWake? || OwesCountWake(s.threads[t].pc))
    ensures Abs(Advance(s, t, u)) == Abs(s)
  {
    WakesAreSilent(s, u);
    var s1 := if s.threads[t].pc.LeaveWake? then WakeGate(s, u) else WakeCount(s, u);
    SilentStep(s1, Advance(s, t, u), t);
  }

  lemma WriteStepRefines(s: State, t: Tid, u: Tid)
    requires Inv(s) && t < |s.threads| && (s.threads[t].pc.WriteSub? || s.threads[t].pc.WriteLoad?)
    ensures AbstractStep(Abs(s), EventOf(s, Step(t, u)), Abs(Advance(s, t, u)))
  {
    var s' := Advance(s, t, u);
    if EventOf(s, Step(t, u)).Silent? {
      SilentStep(s, s', t);
    } else {
      BeginWriteRefines(s, s', t);
    }
  }

  lemma GateStepRefines(s: State, t: Tid, u: Tid)
    requires t < |s.threads|
    requires var pc := s.threads[t].pc; pc.GateFast? || InContendedLoop(pc)
    ensures Abs(Advance(s, t, u)) == Abs(s)
  {
    SilentStep(s, Advance(s, t, u), t);
  }

  lemma WaitStepRefines(s: State, t: Tid, u: Tid)
    requires t < |s.threads|
    requires var pc := s.threads[t].pc; pc.LeaveSub? || pc.LeaveStore? || pc.WriteWait?
    ensures Abs(Advance(s, t, u)) == Abs(s)
  {
    SilentStep(s, Advance(s, t, u), t);
  }

  lemma AdvanceRefines(s: State, t: Tid, u: Tid)
    requires Inv(s) && t < |s.threads| && Runnable(s.threads[t].pc)
    ensures AbstractStep(Abs(s), EventOf(s, Step(t, u)), Abs(Advance(s, t, u)))
  {
    match s.threads[t].pc
    case ReadAdd => ReadAddRefines(s, Advance(s, t, u), t);
    case TryDrop => TryDropRefines(s, Advance(s, t, u), t);
    case LeaveWake(_) => WakeStepRefines(s, t, u);
    case UnlockWake => WakeStepRefines(s, t, u);
    case ModifyWake => WakeStepRefines(s, t, u);
    case WriteSub(_) => WriteStepRefines(s, t, u);
    case WriteLoad(_) => WriteStepRefines(s, t, u);
    case GateFast(_) => GateStepRefines(s, t, u);
    case GateMark(_, _) => GateStepRefines(s, t, u);
    case GateWait(_) => GateStepRefines(s, t, u);
    case GateSlow(_) => GateStepRefines(s, t, u);
    case LeaveSub(_) => WaitStepRefines(s, t, u);
    case LeaveStore(_) => WaitStepRefines(s, t, u);
    case WriteWait(_, _) => WaitStepRefines(s, t, u);
  }

  lemma StartRefines(s: State, t: Tid, c: Call)
    requires Inv(s) && t < |s.threads| && MayCall(s.threads[t], c)
    ensures AbstractStep(Abs(s), EventOf(s, Start(t, c)), Abs(StartCall(s, t, c)))
  {
    var s' := StartCall(s, t, c);
    assert SessionOk(s.threads[t]);
    match EventOf(s, Start(t, c))
    case Silent => SilentStep(s, s', t);
    case ReleaseRead(_) => ReleaseReadRefines(s, s', t);
    case ReleaseWrite(_) => ReleaseWriteRefines(s, s', t);
  }

  /** One concrete action is one abstract event or nothing at all. */
  lemma ApplyRefines(s: State, a: Action)
    requires Inv(s) && Enabled(s, a)
    ensures AbstractStep(Abs(s), EventOf(s, a), Abs(Apply(s, a)))
  {
    match a
    case Start(t, c) => StartRefines(s, t, c);
    case Step(t, u) => AdvanceRefines(s, t, u);
    case Spurious(t) =>
      WakesAreSilent(s, t);
      WakesAreSilent(WakeGate(s, t), t);
  }

  ghost function Events(s: State, run: seq<Action>): seq<Event>
    requires Runs(s, run)
    decreases |run|
  {
    if run == [] then [] else [EventOf(s, run[0])] + Events(Apply(s, run[0]), run[1..])
  }

  /** `a'` is what the reference lock reaches from `a` by exactly these events. */
  ghost predicate AbstractRuns(a: Abstract, events: seq<Event>, a': Abstract)
    decreases |events|
  {
    if events == [] then a' == a
    else exists mid :: AbstractStep(a, events[0], mid) && AbstractRuns(mid, events[1..], a')
  }

  lemma {:induction false} RunRefines(s: State, run: seq<Action>)
    requires Inv(s) && Runs(s, run)
    ensures AbstractRuns(Abs(s), Events(s, run), Abs(After(s, run)))
    decreases |run|
  {
    if run != [] {
      var s1 := Apply(s, run[0]);
      ApplyKeeps(s, run[0]);
      ApplyRefines(s, run[0]);
      RunRefines(s1, run[1..]);
      var events := Events(s, run);
      assert events[0] == EventOf(s, run[0]) && events[1..] == Events(s1, run[1..]);
      assert AbstractStep(Abs(s), events[0], Abs(s1));
    }
  }

  /** Refinement: every run of a fresh lock is a run of the reference lock from its empty state. */
  lemma Refinement(s: State, run: seq<Action>)
    requires Init(s) && Runs(s, run)
    ensures AbstractRuns(Abstract({}, {}, {}), Events(s, run), Abs(After(s, run)))
  {
    InitInv(s);
    assert Abs(s).readers == {};
    assert Abs(s).writers == {};
    assert Abs(s).upgrading == {};
    RunRefines(s, run);
  }
}
