/** What happens when a fu_read_modifiable_lock object is used again: nothing clears write_modified,
    so after an upgraded session a new one starts with the flag set. */
module RwLockReuse {
  import opened RwLock
  import opened RwLockInvariant
  import opened RwLockProgress
  import opened RwLockTheorems

  // ---- The machine with reuse ----

  /** `spent` holds the threads whose object has been through an upgraded session. */
  datatype Reuse = Reuse(s: State, spent: set<Tid>)

  /** `Relock` is lock() on a spent object; everything else is as before. */
  datatype Move = Do(a: Action) | Relock(t: Tid)

  ghost predicate Can(r: Reuse, m: Move) {
    match m
    case Do(a) => Enabled(r.s, a)
    case Relock(t) => t in r.spent && t < |r.s.threads| && r.s.threads[t].pc.Idle?
  }

  predicate EndsUpgraded(s: State, a: Action)
    requires a.t < |s.threads|
  {
    a.Start? && a.call == SessionUnlock && s.threads[a.t].session == Modifiable(true)
  }

  ghost function Make(r: Reuse, m: Move): Reuse
    requires Can(r, m)
  {
    match m
    case Do(a) => Reuse(Apply(r.s, a), if EndsUpgraded(r.s, a) then r.spent + {a.t} else r.spent)
    case Relock(t) => r.(s := SetSession(Set(r.s, t, GateFast(ForRead)), t, Modifiable(true)))
  }

  ghost predicate Moves(r: Reuse, ms: seq<Move>)
    decreases |ms|
  {
    ms == [] || (Can(r, ms[0]) && Moves(Make(r, ms[0]), ms[1..]))
  }

  ghost function Final(r: Reuse, ms: seq<Move>): Reuse
    requires Moves(r, ms)
    decreases |ms|
  {
    if ms == [] then r else Final(Make(r, ms[0]), ms[1..])
  }

  ghost predicate Arises(r: Reuse) {
    exists s0, ms :: Init(s0) && Moves(Reuse(s0, {}), ms) && Final(Reuse(s0, {}), ms) == r
  }

  lemma {:induction false} MovesAppend(r: Reuse, ms: seq<Move>, m: Move)
    requires Moves(r, ms) && Can(Final(r, ms), m)
    ensures Moves(r, ms + [m]) && Final(r, ms + [m]) == Make(Final(r, ms), m)
    decreases |ms|
  {
    if ms != [] {
      assert (ms + [m])[1..] == ms[1..] + [m];
      MovesAppend(Make(r, ms[0]), ms[1..], m);
    }
  }

  lemma Moved(r: Reuse, m: Move)
    requires Arises(r) && Can(r, m)
    ensures Arises(Make(r, m))
  {
    var s0, ms :| Init(s0) && Moves(Reuse(s0, {}), ms) && Final(Reuse(s0, {}), ms) == r;
    MovesAppend(Reuse(s0, {}), ms, m);
  }

  /** Ordinary runs are runs here too. */
  lemma {:induction false} RunArises(r: Reuse, run: seq<Action>) returns (r': Reuse)
    requires Arises(r) && Runs(r.s, run)
    ensures Arises(r') && r'.s == After(r.s, run) && r.spent <= r'.spent
    decreases |run|
  {
    if run == [] {
      r' := r;
    } else {
      Moved(r, Do(run[0]));
      r' := RunArises(Make(r, Do(run[0])), run[1..]);
    }
  }

  // ---- The finished release ----

  /** Only thread `t` moves. */
  predicate AllBy(run: seq<Action>, t: Tid) {
    forall i :: 0 <= i < |run| ==> run[i].Step? && run[i].t == t
  }

  /** A reader that unlocks through an object whose flag is `stale`, run to its end by itself. */
  ghost predicate Released(s: State, t: Tid, stale: bool, run: seq<Action>, s': State)
    requires t < |s.threads|
  {
    var s0 := SetSession(s, t, Modifiable(stale));
    && run != [] && run[0] == Start(t, SessionUnlock) && AllBy(run[1..], t)
    && Runs(s0, run) && s' == After(s0, run)
    && t < |s'.threads| && s'.threads[t].pc.Idle?
  }

  /** No other thread differs, except for gate sleepers that were woken. */
  predicate OnlyWakes(s: State, s': State, t: Tid) {
    && |s'.threads| == |s.threads|
    && forall v :: 0 <= v < |s.threads| && v != t ==>
         || s'.threads[v] == s.threads[v]
         || (s.threads[v].pc.GateSleep? && s'.threads[v] == s.threads[v].(pc := GateSlow(s.threads[v].pc.e)))
  }

  predicate Leaving(s: State, t: Tid)
    requires t < |s.threads|
  {
    match s.threads[t].pc
    case LeaveSub(x) => x == AfterWrite
    case LeaveStore(x) => x == AfterWrite
    case LeaveWake(x) => x == AfterWrite && s.gate == 0
    case Idle => s.gate == 0
    case _ => false
  }

  lemma LeaveStep(s: State, t: Tid, u: Tid)
    requires t < |s.threads| && Leaving(s, t) && Runnable(s.threads[t].pc)
    ensures var s' := Advance(s, t, u);
            && OnlyWakes(s, s', t) && Leaving(s', t)
            && s'.nreaders == s.nreaders && s'.version == s.version && s'.threads[t].session == s.threads[t].session
  {
  }

  /** However it got into leave_gate, a thread leaves the gate at 0. */
  lemma {:induction false} LeaveAlone(s: State, run: seq<Action>, t: Tid)
    requires Runs(s, run) && AllBy(run, t) && t < |s.threads| && Leaving(s, t)
    requires t < |After(s, run).threads| && After(s, run).threads[t].pc.Idle?
    ensures var s' := After(s, run);
            && OnlyWakes(s, s', t) && s'.gate == 0
            && s'.nreaders == s.nreaders && s'.version == s.version && s'.threads[t].session == s.threads[t].session
    decreases |run|
  {
    if run != [] {
      LeaveStep(s, t, run[0].u);
      LeaveAlone(Apply(s, run[0]), run[1..], t);
    }
  }

  /** Where the wrong release ends: both words are 0, whatever they should be. */
  lemma StaleEnd(s: State, t: Tid, run: seq<Action>, s': State)
    requires t < |s.threads| && s.threads[t].pc.Reading? && Released(s, t, true, run, s')
    ensures OnlyWakes(s, s', t) && s'.gate == 0 && s'.nreaders == 0 && s'.version == s.version
    ensures s'.threads[t].session.Plain?
  {
    var s0 := SetSession(s, t, Modifiable(true));
    var s1 := Apply(s0, run[0]);
    LeaveAlone(s1, run[1..], t);
  }

  ghost predicate Alone(s: State, t: Tid) {
    Readers(s) == {t} && !GateOwned(s)
  }

  lemma SameSets(s: State, s': State, t: Tid)
    requires OnlyWakes(s, s', t) && t < |s.threads| && s.threads[t].pc.Reading? && s'.threads[t].pc.Idle?
    ensures Readers(s') == Readers(s) - {t} && Writers(s') == Writers(s)
    ensures GateOwned(s') <==> GateOwned(s)
  {
    if u :| 0 <= u < |s.threads| && Owns(s.threads[u].pc) {
      assert Owns(s'.threads[u].pc);
    }
    assert Readers(s') == Readers(s) - {t};
    assert Writers(s') == Writers(s);
  }

  lemma UnownedUnmarked(s: State)
    requires !GateOwned(s)
    ensures Writers(s) == {} && forall v :: 0 <= v < |s.threads| ==> !Marked(s.threads[v].pc)
  {
    forall v | 0 <= v < |s.threads|
      ensures !Marked(s.threads[v].pc)
    {
      assert !Owns(s.threads[v].pc);
    }
  }

  /** Alone, the wrong release happens to leave the lock as the right one would. */
  lemma AloneIsHarmless(s: State, s': State, t: Tid)
    requires Inv(s) && t < |s.threads| && s.threads[t].pc.Reading? && Alone(s, t)
    requires OnlyWakes(s, s', t) && s'.gate == 0 && s'.nreaders == 0 && s'.version == s.version
    requires s'.threads[t].pc.Idle? && s'.threads[t].session.Plain?
    ensures Inv(s')
  {
    SameSets(s, s', t);
    UnownedUnmarked(s);
    UnownedUnmarked(s');
    forall v | 0 <= v < |s'.threads| && s'.threads[v].pc.GateSleep?
      ensures (exists u :: 0 <= u < |s'.threads| && OwesGateWake(s'.threads[u].pc))
              || (exists u :: 0 <= u < |s'.threads| && InContendedLoop(s'.threads[u].pc))
    {
      assert s.threads[v].pc.GateSleep?;
      if u :| 0 <= u < |s.threads| && OwesGateWake(s.threads[u].pc) {
        assert OwesGateWake(s'.threads[u].pc);
      } else {
        var u :| 0 <= u < |s.threads| && InContendedLoop(s.threads[u].pc);
        assert InContendedLoop(s'.threads[u].pc);
      }
    }
    forall v | 0 <= v < |s'.threads|
      ensures LocalsOk(s'.threads[v].pc) && VersionOk(s'.threads[v], s'.version) && SessionOk(s'.threads[v])
    {
      assert LocalsOk(s.threads[v].pc) && VersionOk(s.threads[v], s.version) && SessionOk(s.threads[v]);
    }
  }

  lemma ConsistentMeansAlone(s: State, s': State, t: Tid)
    requires Inv(s') && t < |s.threads| && s.threads[t].pc.Reading?
    requires OnlyWakes(s, s', t) && s'.gate == 0 && s'.nreaders == 0 && s'.threads[t].pc.Idle?
    ensures Alone(s, t)
  {
    SameSets(s, s', t);
    UnownedUnmarked(s');
    assert Readers(s') == {};
    assert t in Readers(s);
    assert Readers(s) == Readers(s') + {t};
  }

  lemma CleanFlag(s: State, t: Tid)
    requires Inv(s) && t < |s.threads| && s.threads[t].pc.Reading?
    ensures Inv(SetSession(s, t, Modifiable(false)))
  {
    var s0 := SetSession(s, t, Modifiable(false));
    assert OnlyThread(s, s0, t);
    KeepsOwners(s, s0, t);
    KeepsGateWake(s, s0, t);
    KeepsCounts(s, s0, t);
    assert VersionOk(s.threads[t], s.version);
    KeepsThreads(s, s0, t);
  }

  /** The release, run to its end, leaves the lock consistent if and only if the flag was not left
      set, or the caller was the only reader and nobody owned the gate. */
  lemma StaleRelease(s: State, t: Tid, stale: bool, run: seq<Action>, s': State)
    requires Inv(s) && t < |s.threads| && s.threads[t].pc.Reading? && Released(s, t, stale, run, s')
    ensures Inv(s') <==> !stale || Alone(s, t)
  {
    if !stale {
      CleanFlag(s, t);
      RunsKeep(SetSession(s, t, Modifiable(false)), run);
    } else {
      StaleEnd(s, t, run, s');
      SameSets(s, s', t);
      if Alone(s, t) {
        AloneIsHarmless(s, s', t);
      }
      if Inv(s') {
        ConsistentMeansAlone(s, s', t);
      }
    }
  }

  lemma {:induction false} FinishLeave(s: State, t: Tid) returns (run: seq<Action>)
    requires t < |s.threads| && Leaving(s, t)
    ensures Runs(s, run) && AllBy(run, t)
    ensures t < |After(s, run).threads| && After(s, run).threads[t].pc.Idle?
    decreases Weight(s.threads[t].pc)
  {
    if s.threads[t].pc.Idle? {
      run := [];
    } else {
      var u := t;
      if v :| 0 <= v < |s.threads| && s.threads[v].pc.GateSleep? {
        u := v;
      }
      LeaveStep(s, t, u);
      var rest := FinishLeave(Apply(s, Step(t, u)), t);
      run := [Step(t, u)] + rest;
      assert run[1..] == rest;
    }
  }

  /** The wrong release can always be run to its end. */
  lemma StaleReleaseEnds(s: State, t: Tid) returns (run: seq<Action>, s': State)
    requires t < |s.threads| && s.threads[t].pc.Reading?
    ensures Released(s, t, true, run, s')
  {
    var s0 := SetSession(s, t, Modifiable(true));
    var rest := FinishLeave(Apply(s0, Start(t, SessionUnlock)), t);
    run := [Start(t, SessionUnlock)] + rest;
    assert run[1..] == rest;
    s' := After(s0, run);
  }

  // ---- The harm ----

  /** Mutual exclusion is broken: a writer is not alone. */
  predicate Overlap(s: State) {
    exists w, v :: 0 <= w < |s.threads| && 0 <= v < |s.threads| && w != v
      && s.threads[w].pc.Writing? && (s.threads[v].pc.Writing? || Holds(s.threads[v].pc))
  }

  lemma InvExcludes(s: State)
    requires Inv(s)
    ensures !Overlap(s)
  {
    forall w, v | 0 <= w < |s.threads| && 0 <= v < |s.threads| && w != v && s.threads[w].pc.Writing?
      ensures !s.threads[v].pc.Writing? && !Holds(s.threads[v].pc)
    {
      assert Owns(s.threads[w].pc);
      assert Holds(s.threads[v].pc) ==> v in Readers(s);
    }
  }

  ghost predicate CanOverlap(s: State) {
    exists run :: Runs(s, run) && Overlap(After(s, run))
  }

  lemma OverlapNow(s: State)
    requires Overlap(s)
    ensures CanOverlap(s)
  {
    assert Runs(s, []) && After(s, []) == s;
  }

  lemma OverlapLater(s: State, a: Action)
    requires Enabled(s, a) && CanOverlap(Apply(s, a))
    ensures CanOverlap(s)
  {
    var run :| Runs(Apply(s, a), run) && Overlap(After(Apply(s, a), run));
    assert ([a] + run)[1..] == run;
    assert Runs(s, [a] + run) && After(s, [a] + run) == After(Apply(s, a), run);
  }

  /** With the count below 0, a second writer on its way in gets there. */
  lemma {:induction false} SecondWriterEnters(s: State, w: Tid, o: Tid)
    requires w < |s.threads| && o < |s.threads| && w != o && s.threads[w].pc.Writing? && s.nreaders < 0
    requires s.threads[o].pc.WriteSub? || Marked(s.threads[o].pc)
    requires LocalsOk(s.threads[o].pc)
    ensures CanOverlap(s)
    decreases Weight(s.threads[o].pc)
  {
    if s.threads[o].pc.Writing? {
      OverlapNow(s);
    } else {
      var a := if s.threads[o].pc.WriteSleep? then Spurious(o) else Step(o, o);
      SecondWriterEnters(Apply(s, a), w, o);
      OverlapLater(s, a);
    }
  }

  /** A thread that finds both words at most 0 becomes a writer. */
  lemma IdleEnters(s: State, w: Tid, o: Tid)
    requires w < |s.threads| && o < |s.threads| && w != o && s.threads[w].pc.Writing?
    requires s.gate == 0 && s.nreaders < 0 && s.threads[o].pc.Idle?
    ensures CanOverlap(s)
  {
    var s1 := Apply(s, Start(o, WriteLock));
    var s2 := Apply(s1, Step(o, o));
    SecondWriterEnters(s2, w, o);
    OverlapLater(s1, Step(o, o));
    OverlapLater(s, Start(o, WriteLock));
  }

  /** A writer that is still leaving opens the gate behind which the other one writes. */
  lemma {:induction false} LeaverOpens(s: State, w: Tid, o: Tid)
    requires w < |s.threads| && o < |s.threads| && w != o && s.threads[w].pc.Writing? && s.nreaders < 0
    requires Leaving(s, o) && (s.threads[o].pc.LeaveSub? ==> s.gate == 1)
    ensures CanOverlap(s)
    decreases Weight(s.threads[o].pc)
  {
    if s.threads[o].pc.Idle? {
      IdleEnters(s, w, o);
    } else {
      var u := o;
      if v :| 0 <= v < |s.threads| && s.threads[v].pc.GateSleep? {
        u := v;
      }
      LeaveStep(s, o, u);
      LeaverOpens(Apply(s, Step(o, u)), w, o);
      OverlapLater(s, Step(o, u));
    }
  }

  /** Any gate owner, or any reader, beside a writer: exclusion breaks. */
  lemma NotAloneOverlaps(s: State, w: Tid, o: Tid)
    requires w < |s.threads| && o < |s.threads| && w != o
    requires s.threads[w].pc.Writing? && s.gate == 1 && s.nreaders < 0 && LocalsOk(s.threads[o].pc)
    requires Owns(s.threads[o].pc) || Holds(s.threads[o].pc)
    ensures CanOverlap(s)
  {
    if Holds(s.threads[o].pc) {
      OverlapNow(s);
    } else if s.threads[o].pc.ReadAdd? {
      var s1 := Apply(s, Step(o, o));
      assert s1.threads[w].pc.Writing? && Holds(s1.threads[o].pc);
      OverlapNow(s1);
      OverlapLater(s, Step(o, o));
    } else if s.threads[o].pc.LeaveSub? || s.threads[o].pc.LeaveStore? {
      LeaverOpens(s, w, o);
    } else {
      SecondWriterEnters(s, w, o);
    }
  }

  /** After the wrong release the caller, or anyone, can take the write lock at once. */
  lemma WriterEnters(s: State, t: Tid) returns (s': State)
    requires t < |s.threads| && s.threads[t].pc.Idle? && s.gate == 0 && s.nreaders == 0
    ensures s'.gate == 1 && s'.nreaders == -1 && OnlyThread(s, s', t) && s'.threads[t].pc.Writing?
    ensures CanOverlap(s') ==> CanOverlap(s)
  {
    var s1 := Apply(s, Start(t, WriteLock));
    var s2 := Apply(s1, Step(t, t));
    s' := Apply(s2, Step(t, t));
    if CanOverlap(s') {
      OverlapLater(s2, Step(t, t));
      OverlapLater(s1, Step(t, t));
      OverlapLater(s, Start(t, WriteLock));
    }
  }

  lemma NotAlone(s: State, t: Tid) returns (o: Tid)
    requires t < |s.threads| && s.threads[t].pc.Reading? && !Alone(s, t)
    ensures o < |s.threads| && o != t && (Owns(s.threads[o].pc) || Holds(s.threads[o].pc))
  {
    assert t in Readers(s);
    if GateOwned(s) {
      o :| 0 <= o < |s.threads| && Owns(s.threads[o].pc);
    } else {
      assert exists v :: v in Readers(s) && v != t;
      o :| o in Readers(s) && o != t;
    }
  }

  /** The exact harm: after the finished release some continuation breaks mutual exclusion if and only
      if the flag was left set and the caller was not alone. */
  lemma StaleHarm(s: State, t: Tid, stale: bool, run: seq<Action>, s': State)
    requires Inv(s) && t < |s.threads| && s.threads[t].pc.Reading? && Released(s, t, stale, run, s')
    ensures CanOverlap(s') <==> stale && !Alone(s, t)
  {
    StaleRelease(s, t, stale, run, s');
    if stale && !Alone(s, t) {
      StaleEnd(s, t, run, s');
      var o := NotAlone(s, t);
      assert LocalsOk(s.threads[o].pc);
      var s2 := WriterEnters(s', t);
      NotAloneOverlaps(s2, t, o);
    } else {
      forall more | Runs(s', more)
        ensures !Overlap(After(s', more))
      {
        RunsKeep(s', more);
        InvExcludes(After(s', more));
      }
    }
  }

  // ---- With interference ----

  lemma {:induction false} OverlapAfterRun(s: State, run: seq<Action>)
    requires Runs(s, run) && CanOverlap(After(s, run))
    ensures CanOverlap(s)
    decreases |run|
  {
    if run != [] {
      OverlapAfterRun(Apply(s, run[0]), run[1..]);
      OverlapLater(s, run[0]);
    }
  }

  /** The wrong release takes the gate away from whoever has just entered it. */
  lemma OwnerRobbed(s: State, t: Tid, u: Tid)
    requires t < |s.threads| && u < |s.threads| && t != u
    requires s.threads[t].pc == LeaveSub(AfterWrite) && s.nreaders == 0
    requires Owns(s.threads[u].pc) && LocalsOk(s.threads[u].pc)
    ensures CanOverlap(s)
  {
    var run := FinishLeave(s, t);
    LeaveAlone(s, run, t);
    var s1 := After(s, run);
    var s2 := WriterEnters(s1, t);
    NotAloneOverlaps(s2, t, u);
    OverlapAfterRun(s, run);
  }

  /** How far a thread outside the gate is from its next attempt on it. */
  function Approach(pc: Pc): nat {
    match pc
    case GateFast(_) => 0
    case GateSlow(_) => 0
    case GateSleep(_) => 1
    case GateWait(_) => 1
    case GateMark(_, _) => 2
    case ModifyWake => 1
    case Idle => 1
    case _ => 2
  }

  /** The next action of such a thread, with `v` to be woken. */
  function Toward(pc: Pc, u: Tid, v: Tid): Action {
    if pc.Idle? then Start(u, WriteLock) else if pc.GateSleep? then Spurious(u) else Step(u, v)
  }

  /** What it does to the thread itself and to the two words. */
  lemma ApproachEffect(s: State, u: Tid, v: Tid)
    requires u < |s.threads| && s.gate == 0 && LocalsOk(s.threads[u].pc)
    requires !Owns(s.threads[u].pc) && !Holds(s.threads[u].pc) && Approach(s.threads[u].pc) > 0
    ensures var s' := Apply(s, Toward(s.threads[u].pc, u, v));
            && |s'.threads| == |s.threads| && s'.gate == 0 && s'.nreaders == s.nreaders
            && LocalsOk(s'.threads[u].pc) && !Owns(s'.threads[u].pc) && !Holds(s'.threads[u].pc)
            && Approach(s'.threads[u].pc) < Approach(s.threads[u].pc)
  {
  }

  lemma ApproachStep(s: State, t: Tid, u: Tid) returns (a: Action)
    requires t < |s.threads| && u < |s.threads| && t != u && s.gate == 0
    requires s.threads[t].pc == LeaveSub(AfterWrite) && LocalsOk(s.threads[u].pc)
    requires !Owns(s.threads[u].pc) && !Holds(s.threads[u].pc) && Approach(s.threads[u].pc) > 0
    ensures Enabled(s, a)
    ensures var s' := Apply(s, a);
            && |s'.threads| == |s.threads| && s'.gate == 0 && s'.nreaders == s.nreaders
            && s'.threads[t].pc == LeaveSub(AfterWrite) && LocalsOk(s'.threads[u].pc)
            && !Owns(s'.threads[u].pc) && !Holds(s'.threads[u].pc)
            && Approach(s'.threads[u].pc) < Approach(s.threads[u].pc)
  {
    var pc, v := s.threads[u].pc, u;
    if pc.LeaveWake? {
      if x :| 0 <= x < |s.threads| && s.threads[x].pc.GateSleep? {
        v := x;
      }
    } else if x :| 0 <= x < |s.threads| && s.threads[x].pc.WriteSleep? {
      v := x;
    }
    a := Toward(pc, u, v);
    hide Apply;
    ApproachEffect(s, u, v);
    OthersKeep(s, a, t);
  }

  lemma {:induction false} OtherTakesGate(s: State, t: Tid, u: Tid)
    requires t < |s.threads| && u < |s.threads| && t != u
    requires s.threads[t].pc == LeaveSub(AfterWrite) && s.gate == 0 && s.nreaders == 0
    requires LocalsOk(s.threads[u].pc) && !Owns(s.threads[u].pc) && !Holds(s.threads[u].pc)
    ensures CanOverlap(s)
    decreases Approach(s.threads[u].pc)
  {
    if Approach(s.threads[u].pc) > 0 {
      var a := ApproachStep(s, t, u);
      OtherTakesGate(Apply(s, a), t, u);
      OverlapLater(s, a);
    } else {
      OwnerRobbed(Apply(s, Step(u, u)), t, u);
      OverlapLater(s, Step(u, u));
    }
  }

  /** With other threads free to step in, being alone at the start does not help: from the first step of
      the wrong release on, mutual exclusion can be broken if and only if there is another thread. */
  lemma StaleUnlockExactly(s: State, t: Tid)
    requires Inv(s) && t < |s.threads| && s.threads[t].pc.Reading?
    ensures CanOverlap(Apply(SetSession(s, t, Modifiable(true)), Start(t, SessionUnlock))) <==> |s.threads| > 1
  {
    var s0 := SetSession(s, t, Modifiable(true));
    var s1 := Apply(s0, Start(t, SessionUnlock));
    if |s.threads| > 1 {
      if Alone(s, t) {
        var u := if t == 0 then 1 else 0;
        assert LocalsOk(s.threads[u].pc) && !Owns(s.threads[u].pc);
        assert u !in Readers(s);
        OtherTakesGate(s1, t, u);
      } else {
        var run, s' := StaleReleaseEnds(s, t);
        StaleHarm(s, t, true, run, s');
        OverlapAfterRun(s1, run[1..]);
      }
    } else {
      forall more | Runs(s1, more)
        ensures !Overlap(After(s1, more))
      {
        SameThreads(s1, more);
      }
    }
  }

  lemma {:induction false} SameThreads(s: State, run: seq<Action>)
    requires Runs(s, run)
    ensures |After(s, run).threads| == |s.threads|
    decreases |run|
  {
    if run != [] {
      StepVersion(s, run[0]);
      SameThreads(Apply(s, run[0]), run[1..]);
    }
  }

  // ---- A run that gets there ----

  /** read_lock through a free gate. */
  lemma ReadsAlone(s: State, t: Tid) returns (run: seq<Action>)
    requires t < |s.threads| && s.gate == 0 && s.threads[t].pc == GateFast(ForRead)
    ensures Runs(s, run)
    ensures After(s, run) == s.(nreaders := s.nreaders + 1,
                                threads := s.threads[t := s.threads[t].(pc := Reading, seen := s.version)])
  {
    var s1 := Set(s.(gate := 1), t, ReadAdd);
    var th := s.threads[t].(pc := LeaveSub(AfterRead), seen := s.version);
    var s2 := s.(gate := 1, nreaders := s.nreaders + 1, threads := s.threads[t := th]);
    var s3 := Set(s2.(gate := 0), t, Reading);
    assert Apply(s, Step(t, t)) == s1;
    assert Apply(s1, Step(t, t)) == s2;
    assert Apply(s2, Step(t, t)) == s3;
    run := [Step(t, t), Step(t, t), Step(t, t)];
    Chained(s, run, [s, s1, s2, s3]);
  }

  /** try_write_modify by the only reader. */
  lemma UpgradesAlone(s: State, t: Tid) returns (run: seq<Action>)
    requires t < |s.threads| && s.gate == 0 && s.nreaders == 1
    requires s.threads[t].pc.Reading? && s.threads[t].session == Modifiable(false)
    ensures Runs(s, run)
    ensures var th := s.threads[t].(pc := Writing(ByTry), session := Modifiable(true));
            After(s, run) == State(1, -1, s.threads[t := th], s.version + 1)
  {
    var s1 := Set(s.(gate := 1), t, TryDrop);
    var s2 := Set(s.(gate := 1, nreaders := 0), t, WriteSub(ByTry));
    var th := s.threads[t].(pc := Writing(ByTry), session := Modifiable(true));
    var s3 := State(1, -1, s.threads[t := th], s.version + 1);
    assert Apply(s, Start(t, SessionTryModify)) == s1;
    assert Apply(s1, Step(t, t)) == s2;
    assert Apply(s2, Step(t, t)) == s3;
    run := [Start(t, SessionTryModify), Step(t, t), Step(t, t)];
    Chained(s, run, [s, s1, s2, s3]);
  }

  lemma StartArises(s: State)
    requires Init(s)
    ensures Arises(Reuse(s, {}))
  {
    assert Moves(Reuse(s, {}), []) && Final(Reuse(s, {}), []) == Reuse(s, {});
  }

  lemma FirstStarts() returns (r: Reuse)
    ensures Arises(r)
    ensures r.s == State(0, 0, [Thread(GateFast(ForRead), 0, Modifiable(false)), Thread(Idle, 0, Plain)], 0)
  {
    var s0 := State(0, 0, [Thread(Idle, 0, Plain), Thread(Idle, 0, Plain)], 0);
    StartArises(s0);
    hide Arises;
    Moved(Reuse(s0, {}), Do(Start(0, SessionLock)));
    r := Make(Reuse(s0, {}), Do(Start(0, SessionLock)));
  }

  /** Thread 0 reads through a new object. */
  lemma FirstReads() returns (r: Reuse)
    ensures Arises(r) && |r.s.threads| == 2 && r.s.gate == 0 && r.s.nreaders == 1
    ensures r.s.threads[0].pc.Reading? && r.s.threads[0].session == Modifiable(false)
    ensures r.s.threads[1] == Thread(Idle, 0, Plain)
  {
    var r1 := FirstStarts();
    hide Arises;
    var run := ReadsAlone(r1.s, 0);
    r := RunArises(r1, run);
  }

  /** It upgrades, and ends the session. */
  lemma FirstEnds() returns (r: Reuse)
    ensures Arises(r) && |r.s.threads| == 2 && r.s.gate == 0 && r.s.nreaders == 0
    ensures r.s.threads[0].pc.Idle? && 0 in r.spent && r.s.threads[1] == Thread(Idle, 0, Plain)
  {
    var r1 := FirstReads();
    hide Arises;
    var run := UpgradesAlone(r1.s, 0);
    var r2 := RunArises(r1, run);
    Moved(r2, Do(Start(0, SessionUnlock)));
    var r3 := Make(r2, Do(Start(0, SessionUnlock)));
    Moved(r3, Do(Step(0, 0)));
    r := Make(r3, Do(Step(0, 0)));
  }

  /** It locks again through the same object. */
  lemma SecondReads() returns (r: Reuse)
    ensures Arises(r) && |r.s.threads| == 2 && r.s.gate == 0 && r.s.nreaders == 1
    ensures r.s.threads[0] == Thread(Reading, r.s.version, Modifiable(true)) && r.s.threads[1] == Thread(Idle, 0, Plain)
  {
    var r1 := FirstEnds();
    Moved(r1, Relock(0));
    var r2 := Make(r1, Relock(0));
    var run := ReadsAlone(r2.s, 0);
    r := RunArises(r2, run);
  }

  /** Thread 1 joins as a second reader. */
  lemma BothRead() returns (r: Reuse)
    ensures Arises(r) && r.s.gate == 0 && r.s.nreaders == 2
    ensures r.s.threads == [Thread(Reading, r.s.version, Modifiable(true)), Thread(Reading, r.s.version, Plain)]
  {
    var r1 := SecondReads();
    Moved(r1, Do(Start(1, ReadLock)));
    var r2 := Make(r1, Do(Start(1, ReadLock)));
    var run := ReadsAlone(r2.s, 1);
    r := RunArises(r2, run);
  }

  lemma BothReadInv(s: State)
    requires s.gate == 0 && s.nreaders == 2
    requires s.threads == [Thread(Reading, s.version, Plain), Thread(Reading, s.version, Plain)]
    ensures Inv(s) && !Alone(s, 0)
  {
    assert Readers(s) == {0, 1};
    assert Writers(s) == {};
    assert 1 in Readers(s);
  }

  /** Reuse is not harmless: a writer and a reader, or two writers, at the same time. */
  lemma ReuseBreaksExclusion() returns (r: Reuse)
    ensures Arises(r) && Overlap(r.s)
  {
    var r1 := BothRead();
    var s := SetSession(r1.s, 0, Plain);
    BothReadInv(s);
    var run, s' := StaleReleaseEnds(s, 0);
    StaleHarm(s, 0, true, run, s');
    assert SetSession(s, 0, Modifiable(true)) == r1.s;
    var r2 := RunArises(r1, run);
    var more :| Runs(s', more) && Overlap(After(s', more));
    r := RunArises(r2, more);
  }
}
