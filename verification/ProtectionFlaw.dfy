/** Why records that join the gc list during a scan are not covered: the scan is over before the gc
    head is read. */
module ProtectionFlaw {
  import opened Protection
  import opened ProtectionTheorems
  import opened ProtectionCalls

  lemma {:induction false} RunAppend(s: State, run: seq<Action>, a: Action)
    requires Runs(s, run) && Enabled(After(s, run), a)
    ensures Runs(s, run + [a]) && After(s, run + [a]) == Apply(After(s, run), a)
    decreases |run|
  {
    if run != [] {
      assert (run + [a])[1..] == run[1..] + [a];
      RunAppend(Apply(s, run[0]), run[1..], a);
    }
  }

  /** `s'` follows from `s` within the current pass. */
  ghost predicate Leads(s: State, s': State) {
    exists run :: Runs(s, run) && SamePass(s, run) && After(s, run) == s'
  }

  lemma LeadsNowhere(s: State)
    requires !s.collector.Resting?
    ensures Leads(s, s)
  {
    assert Runs(s, []) && SamePass(s, []) && After(s, []) == s;
  }

  lemma {:induction false} PassAppend(s: State, run: seq<Action>, a: Action)
    requires Runs(s, run) && SamePass(s, run) && Runs(s, run + [a])
    requires After(s, run + [a]).collector != Resting
    ensures SamePass(s, run + [a])
    decreases |run|
  {
    assert (run + [a])[0] == if run == [] then a else run[0];
    if run == [] {
      assert (run + [a])[1..] == [];
    } else {
      assert (run + [a])[1..] == run[1..] + [a];
      PassAppend(Apply(s, run[0]), run[1..], a);
    }
  }

  lemma Then(s: State, s1: State, a: Action)
    requires Leads(s, s1) && Enabled(s1, a) && !Apply(s1, a).collector.Resting?
    ensures Leads(s, Apply(s1, a))
  {
    var run :| Runs(s, run) && SamePass(s, run) && After(s, run) == s1;
    RunAppend(s, run, a);
    PassAppend(s, run, a);
  }

  lemma {:induction false} JoinRuns(s: State, run: seq<Action>, more: seq<Action>)
    requires Runs(s, run) && Runs(After(s, run), more)
    ensures Runs(s, run + more) && After(s, run + more) == After(After(s, run), more)
    ensures SamePass(s, run) && SamePass(After(s, run), more) ==> SamePass(s, run + more)
    decreases |run|
  {
    if run == [] {
      assert run + more == more;
    } else {
      assert (run + more)[1..] == run[1..] + more;
      JoinRuns(Apply(s, run[0]), run[1..], more);
    }
  }

  // ---- The scan decides ----

  predicate Holds(s: State, m: Node, o: Obj) {
    m < |s.nodes| && s.nodes[m].client.Valid? && s.nodes[m].pointer == o
  }

  /** The scan has ended and the client of node `m` validly holds `o`. */
  predicate HeldAfterScan(s: State, m: Node, o: Obj) {
    s.collector.ReadGc? && Holds(s, m, o)
  }

  lemma LeadsTransitive(s: State, s1: State, s2: State)
    requires Leads(s, s1) && Leads(s1, s2)
    ensures Leads(s, s2)
  {
    var run :| Runs(s, run) && SamePass(s, run) && After(s, run) == s1;
    var more :| Runs(s1, more) && SamePass(s1, more) && After(s1, more) == s2;
    JoinRuns(s, run, more);
  }

  /** A client links `o` at location 0; another acquires a new node and publishes `o` in it. */
  lemma SecondHolder(s: State, o: Obj) returns (s': State)
    requires s.collector.ReadGc? && s.loc != [] && o !in s.retired
    ensures Leads(s, s')
    ensures s' == s.(loc := s.loc[0 := o], nodes := s.nodes + [Record(o, 0, Published(0))])
  {
    var d := |s.nodes|;
    LeadsNowhere(s);
    Then(s, s, Write(0, o));
    var s1 := Apply(s, Write(0, o));
    Then(s, s1, NewNode);
    var s2 := Apply(s1, NewNode);
    Then(s, s2, Load(d, 0));
    var s3 := Apply(s2, Load(d, 0));
    Then(s, s3, Publish(d));
    s' := Apply(s3, Publish(d));
    assert s'.nodes == s.nodes + [Record(o, 0, Published(0))];
  }

  /** The first `k` locations are cleared. */
  lemma {:induction false} Unlink(s: State, k: nat) returns (s': State)
    requires s.collector.ReadGc? && k <= |s.loc| && 0 !in s.retired
    ensures Leads(s, s') && s' == s.(loc := s'.loc)
    ensures |s'.loc| == |s.loc| && forall i :: 0 <= i < k ==> s'.loc[i] == 0
  {
    if k == 0 {
      LeadsNowhere(s);
      s' := s;
    } else {
      var s1 := Unlink(s, k - 1);
      Then(s, s1, Write(k - 1, 0));
      s' := Apply(s1, Write(k - 1, 0));
    }
  }

  /** With `o` unlinked, the client of node `d` calls Delete. */
  lemma Retire(s: State, d: Node, o: Obj) returns (s': State)
    requires s.collector.ReadGc? && d < |s.nodes| && s.nodes[d] == Record(o, 0, Published(0))
    requires o != 0 && o !in s.retired && o !in s.loc
    ensures Leads(s, s')
    ensures s' == s.(nodes := s.nodes[d := Record(o, o, Retiring)], retired := s.retired + {o})
  {
    LeadsNowhere(s);
    Then(s, s, Delete(d));
    s' := Apply(s, Delete(d));
  }

  /** A record on its way to the gc list gets there. */
  lemma Enqueue(s: State, d: Node, o: Obj) returns (s': State)
    requires Inv(s) && s.collector.ReadGc? && d < |s.nodes| && s.nodes[d].gcPointer == o != 0
    ensures Leads(s, s') && Inv(s') && s'.collector.ReadGc? && s'.snap == s.snap
    ensures |s'.nodes| == |s.nodes| && d in s'.gc && s'.nodes[d].gcPointer == o
    ensures forall m :: 0 <= m < |s.nodes| && m != d ==> s'.nodes[m] == s.nodes[m]
  {
    LeadsNowhere(s);
    assert RecordOk(s, s.nodes[d]);
    s' := s;
    if s'.nodes[d].client.Retiring? {
      Then(s, s', ClearHazard(d));
      ApplyKeeps(s', ClearHazard(d));
      s' := Apply(s', ClearHazard(d));
    }
    if s'.nodes[d].client.Retired? {
      Then(s, s', PushGc(d));
      ApplyKeeps(s', PushGc(d));
      s' := Apply(s', PushGc(d));
    }
  }

  /** The walk reaches record `d` and deletes its object, whatever it does on the way. */
  lemma {:induction false} WalkTo(s: State, d: Node, m: Node, o: Obj) returns (s': State)
    requires Inv(s) && s.collector.Walk? && d in s.collector.todo && d < |s.nodes|
    requires s.nodes[d].gcPointer == o && o !in s.snap && Holds(s, m, o)
    ensures Leads(s, s') && Holds(s', m, o) && o in s'.freed
    decreases |s.collector.todo|
  {
    var todo := s.collector.todo;
    assert todo[0] in s.gc && todo[0] != m;
    LeadsNowhere(s);
    Then(s, s, Collect);
    s' := Apply(s, Collect);
    if todo[0] != d {
      ApplyKeeps(s, Collect);
      var s1 := s';
      s' := WalkTo(s1, d, m, o);
      LeadsTransitive(s, s1, s');
    }
  }

  /** A record that carries `o`, queued or about to be, is deleted in this pass. */
  lemma CarriedIsDeleted(s: State, d: Node, m: Node, o: Obj) returns (s': State)
    requires Inv(s) && HeldAfterScan(s, m, o) && o !in s.snap
    requires d < |s.nodes| && s.nodes[d].gcPointer == o
    ensures Leads(s, s') && Holds(s', m, o) && o in s'.freed
  {
    assert RecordOk(s, s.nodes[m]) && RecordOk(s, s.nodes[d]);
    var s1 := Enqueue(s, d, o);
    LeadsNowhere(s1);
    Then(s1, s1, Collect);
    ApplyKeeps(s1, Collect);
    var s2 := Apply(s1, Collect);
    s' := WalkTo(s2, d, m, o);
    LeadsTransitive(s, s1, s2);
    LeadsTransitive(s, s2, s');
  }

  lemma LeadsKeep(s: State, s': State)
    requires Inv(s) && Leads(s, s')
    ensures Inv(s')
  {
    var run :| Runs(s, run) && SamePass(s, run) && After(s, run) == s';
    RunsKeep(s, run);
  }

  /** An object not yet retired can be retired now, by another client. */
  lemma BecomesCarried(s: State, m: Node, o: Obj) returns (s': State, d: Node)
    requires Inv(s) && HeldAfterScan(s, m, o) && o !in s.retired
    ensures Leads(s, s') && Inv(s') && HeldAfterScan(s', m, o) && s'.snap == s.snap
    ensures d < |s'.nodes| && s'.nodes[d].gcPointer == o
  {
    assert RecordOk(s, s.nodes[m]);
    d := |s.nodes|;
    var s1 := SecondHolder(s, o);
    var s2 := Unlink(s1, |s1.loc|);
    s' := Retire(s2, d, o);
    LeadsTransitive(s, s1, s2);
    LeadsTransitive(s, s2, s');
    LeadsKeep(s, s');
  }

  /** An object the scan missed can be deleted under its holder, be it linked, unlinked or retired. */
  lemma MissedCanBeDeleted(s: State, m: Node, o: Obj) returns (s': State)
    requires Inv(s) && HeldAfterScan(s, m, o) && o !in s.snap
    ensures Leads(s, s') && Holds(s', m, o) && o in s'.freed
  {
    if o in s.freed {
      LeadsNowhere(s);
      s' := s;
    } else if o in s.retired {
      var d :| 0 <= d < |s.nodes| && s.nodes[d].gcPointer == o;
      s' := CarriedIsDeleted(s, d, m, o);
    } else {
      var s1, d := BecomesCarried(s, m, o);
      s' := CarriedIsDeleted(s1, d, m, o);
      LeadsTransitive(s, s1, s');
    }
  }

  /** An object the scan did see survives the rest of the pass, whoever retires it. */
  lemma {:induction false} SeenSurvivesPass(s: State, run: seq<Action>, o: Obj)
    requires (s.collector.ReadGc? || s.collector.Walk?) && o in s.snap && o !in s.freed
    requires Runs(s, run) && SamePass(s, run)
    ensures o !in After(s, run).freed
    decreases |run|
  {
    if run != [] {
      SpareStep(s, run[0], o);
      if run[1..] == [] {
        assert After(Apply(s, run[0]), run[1..]) == Apply(s, run[0]);
      } else {
        SeenSurvivesPass(Apply(s, run[0]), run[1..], o);
      }
    }
  }

  /** Exactly when the rest of the pass is safe for an object a client holds validated: if and only if
      the scan saw its hazard and no earlier pass deleted it. */
  lemma ScanDecides(s: State, m: Node, o: Obj)
    requires Inv(s) && HeldAfterScan(s, m, o)
    ensures (exists s' :: Leads(s, s') && Holds(s', m, o) && o in s'.freed) <==> o !in s.snap || o in s.freed
  {
    if o !in s.snap {
      var s' := MissedCanBeDeleted(s, m, o);
    } else if o in s.freed {
      LeadsNowhere(s);
    } else {
      forall s' | Leads(s, s')
        ensures o !in s'.freed
      {
        var run :| Runs(s, run) && SamePass(s, run) && After(s, run) == s';
        SeenSurvivesPass(s, run, o);
      }
    }
  }

  // ---- A run that gets there ----

  lemma Goes(s: State, a: Action, s': State)
    requires Reachable(s) && Enabled(s, a) && s' == Apply(s, a)
    ensures Reachable(s')
  {
    var s0, run :| Init(s0) && Runs(s0, run) && After(s0, run) == s;
    RunAppend(s0, run, a);
  }

  /** One location; the collector has not started. */
  function Early(o: Obj, nodes: seq<Record>, gc: seq<Node>, retired: set<Obj>): State {
    State([o], nodes, gc, Resting, {}, {}, retired, {})
  }

  /** Object 5 is linked and a client publishes it. */
  lemma PublishFirst()
    ensures Reachable(Early(5, [Record(5, 0, Published(0))], [], {}))
  {
    var s0 := Early(0, [], [], {});
    assert Runs(s0, []) && After(s0, []) == s0;
    Goes(s0, Write(0, 5), Early(5, [], [], {}));
    Goes(Early(5, [], [], {}), NewNode, Early(5, [Record(0, 0, Held)], [], {}));
    Goes(Early(5, [Record(0, 0, Held)], [], {}), Load(0, 0), Early(5, [Record(0, 0, Loaded(0, 5))], [], {}));
    Goes(Early(5, [Record(0, 0, Loaded(0, 5))], [], {}), Publish(0), Early(5, [Record(5, 0, Published(0))], [], {}));
  }

  /** Object 7 replaces it and object 5 is retired. */
  lemma RetireFirst()
    ensures Reachable(Early(7, [Record(0, 5, OnGc)], [0], {5}))
  {
    PublishFirst();
    Goes(Early(5, [Record(5, 0, Published(0))], [], {}), Write(0, 7), Early(7, [Record(5, 0, Published(0))], [], {}));
    Goes(Early(7, [Record(5, 0, Published(0))], [], {}), Delete(0), Early(7, [Record(5, 5, Retiring)], [], {5}));
    Goes(Early(7, [Record(5, 5, Retiring)], [], {5}), ClearHazard(0), Early(7, [Record(0, 5, Retired)], [], {5}));
    Goes(Early(7, [Record(0, 5, Retired)], [], {5}), PushGc(0), Early(7, [Record(0, 5, OnGc)], [0], {5}));
  }

  /** During the pass that is to collect object 5; node 1 belongs to a reader. */
  function Mid(reader: Record, c: Collector): State {
    State([7], [Record(0, 5, OnGc), reader], [0], c, {}, {5}, {5}, {})
  }

  /** The scan runs to its end while the reader's node is still empty. */
  lemma ScanEnds()
    ensures Reachable(Mid(Record(0, 0, Held), ReadGc))
  {
    RetireFirst();
    var r := Record(0, 0, Held);
    var s1 := Early(7, [Record(0, 5, OnGc), r], [0], {5});
    Goes(Early(7, [Record(0, 5, OnGc)], [0], {5}), NewNode, s1);
    assert GcObjects(s1) == {5} by {
      assert s1.nodes[0].gcPointer == 5 && 0 in s1.gc;
    }
    Goes(s1, StartCollect, Mid(r, ScanTest(2)));
    Goes(Mid(r, ScanTest(2)), Collect, Mid(r, ScanTest(1)));
    Goes(Mid(r, ScanTest(1)), Collect, Mid(r, ScanTest(0)));
    Goes(Mid(r, ScanTest(0)), Collect, Mid(r, ReadGc));
  }

  /** The reader then publishes and validates object 7. */
  lemma ReaderValidates()
    ensures Reachable(Mid(Record(7, 0, Valid), ReadGc))
  {
    ScanEnds();
    Goes(Mid(Record(0, 0, Held), ReadGc), Load(1, 0), Mid(Record(0, 0, Loaded(0, 7)), ReadGc));
    Goes(Mid(Record(0, 0, Loaded(0, 7)), ReadGc), Publish(1), Mid(Record(7, 0, Published(0)), ReadGc));
    Goes(Mid(Record(7, 0, Published(0)), ReadGc), Recheck(1), Mid(Record(7, 0, Valid), ReadGc));
  }

  /** A client that published and re-checked as the interface asks can still see its object deleted. */
  lemma DeletedWhileInUse()
    ensures exists s :: Reachable(s) && !NoUseAfterFree(s)
  {
    ReaderValidates();
    var s := Mid(Record(7, 0, Valid), ReadGc);
    ReachableInv(s);
    var s' := MissedCanBeDeleted(s, 1, 7);
    var more :| Runs(s, more) && SamePass(s, more) && After(s, more) == s';
    var s0, run :| Init(s0) && Runs(s0, run) && After(s0, run) == s;
    JoinRuns(s0, run, more);
    assert Reachable(s');
    assert s'.nodes[1].pointer in s'.freed;
  }
}
