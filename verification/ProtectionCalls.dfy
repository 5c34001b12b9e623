/** What publishing, giving up and collecting do from start to end, over every run. */
module ProtectionCalls {
  import opened Protection
  import opened ProtectionTheorems

  // ---- Acquire ----

  /** The action is not one of the client of node `n`. */
  predicate Foreign(a: Action, n: Node) {
    match a
    case Write(_, _) => true
    case NewNode => true
    case StartCollect => true
    case Collect => true
    case _ => a.n != n
  }

  predicate AllForeign(run: seq<Action>, n: Node) {
    forall i :: 0 <= i < |run| ==> Foreign(run[i], n)
  }

  predicate NeverWrites(run: seq<Action>, l: nat) {
    forall i :: 0 <= i < |run| ==> !(run[i].Write? && run[i].l == l)
  }

  lemma ForeignStep(s: State, a: Action, n: Node)
    requires Inv(s) && Enabled(s, a) && Foreign(a, n) && n < |s.nodes| && !s.nodes[n].client.OnGc?
    ensures var s' := Apply(s, a);
            && n < |s'.nodes| && s'.nodes[n] == s.nodes[n] && |s'.loc| == |s.loc|
            && forall l :: 0 <= l < |s.loc| && !(a.Write? && a.l == l) ==> s'.loc[l] == s.loc[l]
  {
    if a.Collect? && s.collector.Walk? && s.collector.todo != [] {
      assert s.collector.todo[0] in s.gc;
    }
  }

  /** What others do leaves a client's node alone, and the locations they do not write. */
  lemma {:induction false} ForeignRun(s: State, run: seq<Action>, n: Node)
    requires Inv(s) && Runs(s, run) && AllForeign(run, n) && n < |s.nodes| && !s.nodes[n].client.OnGc?
    ensures var s' := After(s, run);
            && Inv(s') && n < |s'.nodes| && s'.nodes[n] == s.nodes[n] && |s'.loc| == |s.loc|
            && forall l :: 0 <= l < |s.loc| && NeverWrites(run, l) ==> s'.loc[l] == s.loc[l]
    decreases |run|
  {
    if run != [] {
      ForeignStep(s, run[0], n);
      ApplyKeeps(s, run[0]);
      hide Inv;
      ForeignRun(Apply(s, run[0]), run[1..], n);
      forall l | 0 <= l < |s.loc| && NeverWrites(run, l)
        ensures After(s, run).loc[l] == s.loc[l]
      {
        assert !(run[0].Write? && run[0].l == l) && NeverWrites(run[1..], l);
      }
    }
  }

  /** Acquire and the client's re-check, with whatever others do before each of its steps: the node
      publishes what was at the given location, and the client may use it if and only if that was an
      object and the location holds the same object at the re-check. */
  lemma AcquireValidates(s: State, n: Node, l: nat, before: seq<Action>, after: seq<Action>)
    requires Inv(s) && Enabled(s, Load(n, l)) && AllForeign(before, n) && AllForeign(after, n)
    requires Runs(Apply(s, Load(n, l)), before)
    requires Enabled(After(Apply(s, Load(n, l)), before), Publish(n))
    requires Runs(Apply(After(Apply(s, Load(n, l)), before), Publish(n)), after)
    requires Enabled(After(Apply(After(Apply(s, Load(n, l)), before), Publish(n)), after), Recheck(n))
    ensures var s3 := After(Apply(After(Apply(s, Load(n, l)), before), Publish(n)), after);
            var s' := Apply(s3, Recheck(n));
            && n < |s'.nodes| && s'.nodes[n].pointer == s.loc[l] && |s3.loc| == |s.loc|
            && (s'.nodes[n].client.Valid? <==> s.loc[l] != 0 && s3.loc[l] == s.loc[l])
            && (!s'.nodes[n].client.Valid? ==> s'.nodes[n].client.Held?)
            && (s.loc[l] != 0 && NeverWrites(before, l) && NeverWrites(after, l) ==> s'.nodes[n].client.Valid?)
  {
    var s1 := Apply(s, Load(n, l));
    ApplyKeeps(s, Load(n, l));
    ForeignRun(s1, before, n);
    var s2 := After(s1, before);
    ApplyKeeps(s2, Publish(n));
    ForeignRun(Apply(s2, Publish(n)), after, n);
  }

  /** These steps are always open to the client. */
  lemma AcquireGoesOn(s: State, n: Node, l: nat, before: seq<Action>, after: seq<Action>)
    requires Inv(s) && Enabled(s, Load(n, l)) && AllForeign(before, n) && AllForeign(after, n)
    requires Runs(Apply(s, Load(n, l)), before)
    ensures Enabled(After(Apply(s, Load(n, l)), before), Publish(n))
    ensures var s2 := Apply(After(Apply(s, Load(n, l)), before), Publish(n));
            Runs(s2, after) ==> Enabled(After(s2, after), Recheck(n))
  {
    var s1 := Apply(s, Load(n, l));
    ApplyKeeps(s, Load(n, l));
    ForeignRun(s1, before, n);
    ApplyKeeps(After(s1, before), Publish(n));
    var s2 := Apply(After(s1, before), Publish(n));
    if Runs(s2, after) {
      ForeignRun(s2, after, n);
    }
  }

  /** Once given up by Clear, Release or the second half of Delete, a node protects nothing, whatever
      others do. */
  lemma GivesUpProtection(s: State, a: Action, n: Node, run: seq<Action>)
    requires Inv(s) && Enabled(s, a) && (a == Clear(n) || a == Release(n) || a == ClearHazard(n))
    requires Runs(Apply(s, a), run) && AllForeign(run, n)
    ensures n < |After(Apply(s, a), run).nodes| && After(Apply(s, a), run).nodes[n].pointer == 0
  {
    ApplyKeeps(s, a);
    ForeignRun(Apply(s, a), run, n);
  }

  /** Release from its call to its return: the node is then free and protects nothing. */
  lemma ReleaseFrees(s: State, n: Node, run: seq<Action>)
    requires Inv(s) && Enabled(s, Release(n)) && Runs(Apply(s, Release(n)), run) && AllForeign(run, n)
    ensures var s1 := After(Apply(s, Release(n)), run);
            && Enabled(s1, PushFree(n))
            && Apply(s1, PushFree(n)).nodes[n] == Record(0, 0, OnFree)
  {
    ApplyKeeps(s, Release(n));
    ForeignRun(Apply(s, Release(n)), run, n);
    var s1 := After(Apply(s, Release(n)), run);
    assert RecordOk(s1, s1.nodes[n]);
  }

  /** Delete from its call to its return: the node is then first on the gc list, protects nothing, and
      carries the object it protected before. */
  lemma DeleteQueues(s: State, n: Node, before: seq<Action>, after: seq<Action>)
    requires Inv(s) && Enabled(s, Delete(n)) && AllForeign(before, n) && AllForeign(after, n)
    requires Runs(Apply(s, Delete(n)), before)
    ensures Enabled(After(Apply(s, Delete(n)), before), ClearHazard(n))
    ensures var s2 := Apply(After(Apply(s, Delete(n)), before), ClearHazard(n));
            Runs(s2, after) ==>
              && Enabled(After(s2, after), PushGc(n))
              && var s' := Apply(After(s2, after), PushGc(n));
                 && s'.nodes[n] == Record(0, s.nodes[n].pointer, OnGc) && s'.gc != [] && s'.gc[0] == n
                 && Inv(s')
  {
    var s1 := Apply(s, Delete(n));
    ApplyKeeps(s, Delete(n));
    ForeignRun(s1, before, n);
    ApplyKeeps(After(s1, before), ClearHazard(n));
    var s2 := Apply(After(s1, before), ClearHazard(n));
    if Runs(s2, after) {
      ForeignRun(s2, after, n);
      ApplyKeeps(After(s2, after), PushGc(n));
    }
  }

  // ---- What a pass does ----

  /** Some node held `o` as its hazard in some state of `run`. */
  predicate WasHazard(s: State, run: seq<Action>, o: Obj)
    requires Runs(s, run)
    decreases |run|
  {
    || (exists n :: 0 <= n < |s.nodes| && s.nodes[n].pointer == o)
    || (run != [] && WasHazard(Apply(s, run[0]), run[1..], o))
  }

  /** The collector does not come to rest in `run`. */
  predicate SamePass(s: State, run: seq<Action>)
    requires Runs(s, run)
    decreases |run|
  {
    !s.collector.Resting? && (run != [] ==> SamePass(Apply(s, run[0]), run[1..]))
  }

  lemma SnapStep(s: State, a: Action, o: Obj)
    requires Inv(s) && Enabled(s, a) && !s.collector.Resting? && o in Apply(s, a).snap && o !in s.snap
    ensures exists n :: 0 <= n < |s.nodes| && s.nodes[n].pointer == o
  {
    assert s.collector.ScanRead?;
    assert s.nodes[s.collector.i - 1].pointer == o;
  }

  lemma {:induction false} SnapRun(s: State, run: seq<Action>, o: Obj)
    requires Inv(s) && Runs(s, run) && SamePass(s, run) && o in After(s, run).snap
    ensures o in s.snap || WasHazard(s, run, o)
    decreases |run|
  {
    if run != [] {
      ApplyKeeps(s, run[0]);
      SnapRun(Apply(s, run[0]), run[1..], o);
      if o !in s.snap && o in Apply(s, run[0]).snap {
        SnapStep(s, run[0], o);
      }
    }
  }

  /** A pass spares only what was a hazard while it ran: nothing is carried over from earlier passes. */
  lemma SnapIsFresh(s: State, run: seq<Action>, o: Obj)
    requires Inv(s) && Enabled(s, StartCollect)
    requires Runs(Apply(s, StartCollect), run) && SamePass(Apply(s, StartCollect), run)
    requires o in After(Apply(s, StartCollect), run).snap
    ensures WasHazard(Apply(s, StartCollect), run, o)
  {
    ApplyKeeps(s, StartCollect);
    SnapRun(Apply(s, StartCollect), run, o);
  }

  /** The hazards of the first `i` nodes. */
  function HazardsBelow(nodes: seq<Record>, i: nat): set<Obj> {
    set n | 0 <= n < i && n < |nodes| && nodes[n].pointer != 0 :: nodes[n].pointer
  }

  /** A scan that nobody disturbs gathers exactly the non-null hazards. */
  lemma {:induction false} ScanAlone(s: State) returns (run: seq<Action>)
    requires s.collector.ScanTest? && s.collector.i <= |s.nodes|
    ensures Runs(s, run) && forall a :: a in run ==> a == Collect
    ensures After(s, run) == s.(collector := ReadGc, snap := s.snap + HazardsBelow(s.nodes, s.collector.i))
    decreases s.collector.i
  {
    var i := s.collector.i;
    var s1 := Apply(s, Collect);
    if i == 0 {
      run := [Collect];
      assert Runs(s1, []) && run[1..] == [];
      assert HazardsBelow(s.nodes, 0) == {};
    } else {
      var p := s.nodes[i - 1].pointer;
      assert HazardsBelow(s.nodes, i) == HazardsBelow(s.nodes, i - 1) + if p != 0 then {p} else {};
      if p == 0 {
        var rest := ScanAlone(s1);
        run := [Collect] + rest;
        assert run[1..] == rest;
      } else {
        var rest := ScanAlone(Apply(s1, Collect));
        run := [Collect, Collect] + rest;
        assert run[1..] == [Collect] + rest && ([Collect] + rest)[1..] == rest;
      }
    }
  }

  /** The walk runs until `run` ends. */
  predicate UntilRested(s: State, run: seq<Action>)
    requires Runs(s, run)
    decreases |run|
  {
    if run == [] then s.collector.Resting? else !s.collector.Resting? && UntilRested(Apply(s, run[0]), run[1..])
  }

  /** Record `n`, carrying `o`, is still to be judged, or `o` has been dealt with as it should be. */
  predicate ToBeJudged(s: State, n: Node, o: Obj) {
    && n in s.gc && n < |s.nodes| && s.nodes[n].gcPointer == o
    && (s.collector.ReadGc? || (s.collector.Walk? && n in s.collector.todo))
  }

  lemma JudgeStep(s: State, a: Action, n: Node, o: Obj)
    requires Inv(s) && Enabled(s, a) && ToBeJudged(s, n, o)
    ensures var s' := Apply(s, a);
            s'.snap == s.snap && (ToBeJudged(s', n, o) || (if o in s.snap then n in s'.gc else o in s'.freed))
  {
    assert RecordOk(s, s.nodes[n]) && s.nodes[n].client.OnGc?;
    if a.Collect? && s.collector.Walk? {
      JudgeWalk(s, n, o);
    }
  }

  lemma JudgeWalk(s: State, n: Node, o: Obj)
    requires Inv(s) && ToBeJudged(s, n, o) && s.collector.Walk?
    ensures var s' := CollectStep(s);
            s'.snap == s.snap && (ToBeJudged(s', n, o) || (if o in s.snap then n in s'.gc else o in s'.freed))
  {
    var todo := s.collector.todo;
    DropContents(s.gc, todo[0]);
    assert todo == [todo[0]] + todo[1..];
  }

  lemma {:induction false} JudgeRun(s: State, run: seq<Action>, n: Node, o: Obj)
    requires Inv(s) && Runs(s, run) && UntilRested(s, run) && ToBeJudged(s, n, o) && o !in s.snap
    ensures o in After(s, run).freed
    decreases |run|
  {
    ApplyKeeps(s, run[0]);
    JudgeStep(s, run[0], n, o);
    if ToBeJudged(Apply(s, run[0]), n, o) {
      JudgeRun(Apply(s, run[0]), run[1..], n, o);
    } else {
      FreedStays(Apply(s, run[0]), run[1..], o);
    }
  }

  lemma {:induction false} FreedStays(s: State, run: seq<Action>, o: Obj)
    requires Runs(s, run) && o in s.freed
    ensures o in After(s, run).freed
    decreases |run|
  {
    if run != [] {
      FreedStays(Apply(s, run[0]), run[1..], o);
    }
  }

  lemma SpareStep(s: State, a: Action, o: Obj)
    requires Enabled(s, a) && (s.collector.ReadGc? || s.collector.Walk?) && o in s.snap && o !in s.freed
    ensures var s' := Apply(s, a);
            && o !in s'.freed && o in s'.snap && (s'.collector.ReadGc? || s'.collector.Walk? || s'.collector.Resting?)
  {
  }

  lemma {:induction false} SpareRun(s: State, run: seq<Action>, o: Obj)
    requires Runs(s, run) && UntilRested(s, run) && o in s.snap && o !in s.freed
    requires s.collector.ReadGc? || s.collector.Walk? || s.collector.Resting?
    ensures o !in After(s, run).freed
    decreases |run|
  {
    if run != [] {
      SpareStep(s, run[0], o);
      SpareRun(Apply(s, run[0]), run[1..], o);
    }
  }

  /** From the read of the gc head to the end of the pass, with any interference: the object of a record
      on the list is deleted if and only if the scan did not see it. */
  lemma PassDecides(s: State, run: seq<Action>, n: Node)
    requires Inv(s) && s.collector.ReadGc? && n in s.gc && Runs(s, run) && UntilRested(s, run)
    ensures n < |s.nodes|
    ensures s.nodes[n].gcPointer in After(s, run).freed <==> s.nodes[n].gcPointer !in s.snap
  {
    assert RecordOk(s, s.nodes[n]);
    var o := s.nodes[n].gcPointer;
    if o in s.snap {
      SpareRun(s, run, o);
    } else {
      JudgeRun(s, run, n, o);
    }
  }
}
