/** Preservation of the registry invariant, conjunct by conjunct. */
module RegistryKeeps {
  import opened Registry
  import opened RegistryInvariant

  // ---- What a step leaves alone ----

  /** A client step touches only its own entries, and the vectors only in two places. */
  lemma ClientFrame(s: State, c: Cid)
    requires Shape(s) && c < |s.pc|
    ensures var s' := ClientStep(s, c);
            && s'.collector == s.collector && s'.examined == s.examined && s'.collected == s.collected
            && s'.sem == s.sem && s'.gc == s.gc && s'.tests == s.tests && s'.owes == s.owes
  {
    hide Erase;
  }

  lemma ClientVectors(s: State, c: Cid)
    requires Shape(s) && c < |s.pc|
    ensures var s' := ClientStep(s, c);
            && (s.pc[c] != RegBind ==> s'.stranded == s.stranded)
            && (s.pc[c] != RegPush && s.pc[c] != DeregErase ==>
                  s'.clients == s.clients && s'.ids == s.ids && s'.idValue == s.idValue)
  {
    hide Erase;
  }

  lemma OtherClients(s: State, c: Cid)
    requires Shape(s) && c < |s.pc|
    ensures var s' := ClientStep(s, c);
            forall d :: 0 <= d < |s.pc| && d != c ==> s'.pc[d] == s.pc[d] && s'.state[d] == s.state[d]
  {
    hide Erase;
  }

  lemma ClientMoves(s: State, c: Cid)
    requires Shape(s) && c < |s.pc|
    ensures var s' := ClientStep(s, c);
            forall d :: 0 <= d < |s.pc| && d != c ==> s'.pc[d] == s.pc[d] && s'.state[d] == s.state[d]
    ensures var p, p' := s.pc[c], ClientStep(s, c).pc[c];
            && (p != RegBind && Live(p') ==> Live(p))
            && (p != RegPush && p != DeregErase ==> Listed(p') == Listed(p))
            && (p != RegPush && Newest(p') ==> Newest(p))
            && (p' == Outside <==> p == Outside)
  {
    OtherClients(s, c);
    hide Erase;
  }

  lemma CollectorFrame(s: State, left: bool)
    requires Shape(s)
    ensures var s' := CollectorStep(s, left);
            && s'.bound == s.bound && s'.tests == s.tests && s'.owes == s.owes
            && s'.clients == s.clients && s'.ids == s.ids && s'.idValue == s.idValue
            && (s.collector.Scan? || s.collector.Begin? || s'.examined == s.examined)
  {
  }

  // ---- The lock ----

  lemma LockClient(s: State, c: Cid)
    requires Shape(s) && LockOk(s) && c < |s.pc|
    ensures LockOk(ClientStep(s, c))
  {
  }

  lemma LockCollector(s: State, left: bool)
    requires Shape(s) && LockOk(s) && !CollectorStep(s, left).collector.Failed?
    ensures LockOk(CollectorStep(s, left))
  {
  }

  /** A client that holds the lock keeps the pass and all other clients out. */
  lemma Excludes(s: State, c: Cid)
    requires LockOk(s) && c < |s.pc| && Locking(s.pc[c])
    ensures !PassLocks(s.collector)
    ensures forall d :: 0 <= d < |s.pc| && d != c ==> !Locking(s.pc[d])
  {
  }

  // ---- The vectors ----

  lemma WithoutOne(clients: seq<Cid>, ids: seq<nat>, k: nat)
    requires |clients| == |ids| && k < |clients| && NoDup(clients) && Increasing(ids)
    ensures var clients', ids' := clients[..k] + clients[k + 1..], ids[..k] + ids[k + 1..];
            && NoDup(clients') && Increasing(ids') && |clients'| == |ids'|
            && (forall i :: 0 <= i < |clients'| ==>
                  var j := if i < k then i else i + 1; clients'[i] == clients[j] && ids'[i] == ids[j])
            && (forall c :: c in clients' <==> c in clients && c != clients[k])
  {
    var clients' := clients[..k] + clients[k + 1..];
    forall c
      ensures c in clients' <==> c in clients && c != clients[k]
    {
      if c in clients && c != clients[k] {
        var i :| 0 <= i < |clients| && clients[i] == c;
        assert c == if i < k then clients'[i] else clients'[i - 1];
      }
    }
  }

  lemma RegPushVectors(s: State, s': State, c: Cid)
    requires Shape(s) && VectorsOk(s) && c < |s.pc| && s.pc[c] == RegPush
    requires s' == ClientStep(s, c)
    ensures VectorsOk(s')
  {
    assert c !in s.clients;
    assert s'.clients[|s.clients|] == c;
    forall d | 0 <= d < |s'.pc| && Listed(s'.pc[d])
      ensures d in s'.clients
    {
      if d != c {
        assert d in s.clients;
      }
    }
  }

  /** Erasing the entry at `k` shifts the later ones down. */
  predicate Shifted(s: State, s': State, k: nat) {
    && |s'.clients| + 1 == |s.clients| && |s.ids| == |s.clients| && |s'.ids| == |s'.clients|
    && forall i :: 0 <= i < |s'.clients| ==>
         var j := if i < k then i else i + 1; s'.clients[i] == s.clients[j] && s'.ids[i] == s.ids[j]
  }

  lemma EraseVectors(s: State, s': State, c: Cid, k: nat)
    requires Shape(s) && VectorsOk(s) && c < |s.pc| && s.pc[c] == DeregErase
    requires k < |s.clients| && s.clients[k] == c
    requires s' == SetPc(s.(clients := s.clients[..k] + s.clients[k + 1..], ids := s.ids[..k] + s.ids[k + 1..]), c, DeregStore)
    ensures VectorsOk(s') && Shifted(s, s', k)
  {
    WithoutOne(s.clients, s.ids, k);
    forall d | 0 <= d < |s'.pc| && Listed(s'.pc[d])
      ensures d in s'.clients
    {
      assert d in s.clients;
    }
  }

  lemma VectorsFrame(s: State, s': State, c: Cid)
    requires VectorsOk(s) && c < |s.pc| && s'.clients == s.clients && s'.ids == s.ids && s'.idValue == s.idValue
    requires |s'.pc| == |s.pc| && Listed(s'.pc[c]) == Listed(s.pc[c])
    requires forall d :: 0 <= d < |s.pc| && d != c ==> s'.pc[d] == s.pc[d]
    ensures VectorsOk(s')
  {
  }

  lemma VectorsClient(s: State, c: Cid)
    requires Shape(s) && VectorsOk(s) && c < |s.pc|
    ensures VectorsOk(ClientStep(s, c))
  {
    var s' := ClientStep(s, c);
    if s.pc[c] == RegPush {
      RegPushVectors(s, s', c);
    } else if s.pc[c] == DeregErase {
      assert c in s.clients;
      EraseVectors(s, s', c, IndexOf(s.clients, c));
    } else {
      hide VectorsOk;
      ClientFrame(s, c);
      ClientVectors(s, c);
      ClientMoves(s, c);
      hide ClientStep;
      VectorsFrame(s, s', c);
    }
  }

  // ---- Client states ----

  /** The states of all clients but `c` are as they were. */
  lemma OtherStates(s: State, s': State, c: Cid)
    requires Shape(s) && StatesOk(s) && Shape(s') && |s'.pc| == |s.pc| && c < |s.pc|
    requires s'.collector == s.collector && StateOk(s', c)
    requires forall d :: 0 <= d < |s.pc| && d != c ==> s'.pc[d] == s.pc[d] && s'.state[d] == s.state[d]
    ensures StatesOk(s')
  {
    forall d | 0 <= d < |s'.pc|
      ensures StateOk(s', d)
    {
      assert StateOk(s, d);
    }
  }

  lemma OwnState(s: State, c: Cid)
    requires Shape(s) && c < |s.pc| && StateOk(s, c)
    ensures Shape(ClientStep(s, c)) && |ClientStep(s, c).pc| == |s.pc| && StateOk(ClientStep(s, c), c)
  {
  }

  lemma StatesClient(s: State, c: Cid)
    requires Shape(s) && StatesOk(s) && c < |s.pc|
    ensures StatesOk(ClientStep(s, c))
  {
    OwnState(s, c);
    hide StatesOk;
    ClientFrame(s, c);
    ClientVectors(s, c);
    ClientMoves(s, c);
    hide ClientStep;
    OtherStates(s, ClientStep(s, c), c);
  }

  /** The pass has found a client: it is registered, or its deregistration is under way. */
  lemma CasSees(s: State)
    requires Shape(s) && LockOk(s) && VectorsOk(s) && StatesOk(s) && PassOk(s) && s.collector.Cas?
    ensures s.collector.ix < |s.clients|
    ensures var c := s.clients[s.collector.ix];
            c < |s.pc| && ((s.state[c] == Registered && Live(s.pc[c])) || (s.state[c] == Deleting && !Live(s.pc[c])))
  {
    var c := s.clients[s.collector.ix];
    assert Listed(s.pc[c]) && StateOk(s, c);
    assert Newest(s.pc[c]) ==> s.lock == ByClient(c);
  }

  lemma NeverFails(s: State, left: bool)
    requires Shape(s) && LockOk(s) && VectorsOk(s) && StatesOk(s) && PassOk(s)
    ensures !CollectorStep(s, left).collector.Failed?
  {
    if s.collector.Cas? {
      CasSees(s);
    } else if s.collector.Reset? {
      assert StateOk(s, s.collector.c);
    }
  }

  lemma StatesServe(s: State, s': State, c: Cid)
    requires Shape(s) && StatesOk(s) && s.collector.Cas? && c < |s.pc| && Live(s.pc[c])
    requires Shape(s') && s'.pc == s.pc && s'.state == s.state[c := Collecting] && s'.collector.Work? && s'.collector.c == c
    ensures StatesOk(s')
  {
    forall d | 0 <= d < |s'.pc|
      ensures StateOk(s', d)
    {
      assert StateOk(s, d);
    }
  }

  lemma StatesReset(s: State)
    requires Shape(s) && StatesOk(s) && s.collector.Reset?
    ensures StatesOk(CollectorStep(s, false))
  {
    var s' := CollectorStep(s, false);
    assert StateOk(s, s.collector.c);
    forall d | 0 <= d < |s'.pc|
      ensures StateOk(s', d)
    {
      assert StateOk(s, d);
    }
  }

  /** The client the pass serves, if any, is the same. */
  lemma StatesFrame(s: State, s': State)
    requires Shape(s) && StatesOk(s) && Shape(s') && s'.pc == s.pc && s'.state == s.state
    requires forall c :: 0 <= c < |s.pc| ==> Serving(s'.collector, c) == Serving(s.collector, c)
    requires s'.collector.Work? || s'.collector.Check? || s'.collector.Reset? ==> s'.collector.c < |s.pc|
    ensures StatesOk(s')
  {
    forall d | 0 <= d < |s'.pc|
      ensures StateOk(s', d)
    {
      assert StateOk(s, d);
    }
  }

  lemma StatesCollector(s: State, left: bool)
    requires Shape(s) && LockOk(s) && VectorsOk(s) && StatesOk(s) && PassOk(s)
    ensures StatesOk(CollectorStep(s, left))
  {
    var s' := CollectorStep(s, left);
    if s.collector.Cas? {
      CasSees(s);
    }
    hide LockOk;
    hide VectorsOk;
    hide PassOk;
    if s.collector.Cas? && s.state[s.clients[s.collector.ix]] == Registered {
      StatesServe(s, s', s.clients[s.collector.ix]);
    } else if s.collector.Reset? {
      StatesReset(s);
    } else {
      StatesFrame(s, s');
    }
  }

  // ---- The pass ----

  /** A new id lies above everything the pass has examined. */
  lemma RegPushPass(s: State, s': State)
    requires PassOk(s) && !PassLocks(s.collector)
    requires s'.ids == s.ids + [s.idValue + 1] && s'.idValue == s.idValue + 1
    requires s'.collector == s.collector && s'.examined == s.examined && s'.collected == s.collected
    ensures PassOk(s')
  {
    assert Last(s.examined) <= s.idValue by {
      assert s.examined != [] ==> Last(s.examined) in s.examined;
    }
    forall i | 0 <= i < |s'.ids| && s'.ids[i] <= Last(s.examined)
      ensures i < |s.ids| && s'.ids[i] == s.ids[i]
    {
    }
  }

  lemma ErasePass(s: State, s': State, k: nat)
    requires PassOk(s) && Shifted(s, s', k) && !PassLocks(s.collector)
    requires s'.collector == s.collector && s'.idValue == s.idValue
    requires s'.examined == s.examined && s'.collected == s.collected
    ensures PassOk(s')
  {
    forall i | 0 <= i < |s'.ids|
      ensures s'.ids[i] == s.ids[if i < k then i else i + 1]
    {
    }
  }

  lemma ErasesPass(s: State, c: Cid)
    requires Shape(s) && LockOk(s) && VectorsOk(s) && PassOk(s) && c < |s.pc| && s.pc[c] == DeregErase
    ensures PassOk(ClientStep(s, c))
  {
    var s', k := ClientStep(s, c), IndexOf(s.clients, c);
    Excludes(s, c);
    assert c in s.clients;
    EraseVectors(s, s', c, k);
    hide *;
    ErasePass(s, s', k);
  }

  lemma RegPushesPass(s: State, c: Cid)
    requires Shape(s) && LockOk(s) && PassOk(s) && c < |s.pc| && s.pc[c] == RegPush
    ensures PassOk(ClientStep(s, c))
  {
    Excludes(s, c);
    hide LockOk;
    hide PassOk;
    RegPushPass(s, ClientStep(s, c));
  }

  lemma PassClient(s: State, c: Cid)
    requires Shape(s) && LockOk(s) && VectorsOk(s) && PassOk(s) && c < |s.pc|
    ensures PassOk(ClientStep(s, c))
  {
    if s.pc[c] == RegPush {
      RegPushesPass(s, c);
    } else if s.pc[c] == DeregErase {
      ErasesPass(s, c);
    } else {
      hide PassOk;
      hide LockOk;
      hide VectorsOk;
      ClientFrame(s, c);
      ClientVectors(s, c);
      hide ClientStep;
      PassFrame(s, ClientStep(s, c));
    }
  }

  lemma PassFrame(s: State, s': State)
    requires PassOk(s) && s'.ids == s.ids && s'.idValue == s.idValue && s'.collector == s.collector
    requires s'.examined == s.examined && s'.collected == s.collected
    ensures PassOk(s')
  {
  }

  /** The next id is the smallest one above `curr`, so nothing is skipped. */
  lemma ExaminePass(s: State, s': State)
    requires VectorsOk(s) && PassOk(s) && s.collector.Scan? && s.collector.ix < |s.ids| && s.ids[s.collector.ix] > s.collector.curr
    requires s' == s.(collector := Have(s.ids[s.collector.ix], s.collector.pending, s.collector.ix),
                      examined := s.examined + [s.ids[s.collector.ix]])
    ensures PassOk(s')
  {
    var ix, id := s.collector.ix, s.ids[s.collector.ix];
    forall j | 0 <= j < |s.examined|
      ensures s.examined[j] < id
    {
    }
    assert Last(s'.examined) == id;
    forall i | 0 <= i < |s'.ids| && s'.ids[i] <= id
      ensures s'.ids[i] in s'.examined
    {
      assert i <= ix;
      if i < ix {
        assert s.ids[i] in s.examined;
      } else if i == ix {
        assert s'.examined[|s.examined|] == id;
      }
    }
    assert id in s.collected ==> id in s.examined;
  }

  /** Going on behind index `ix`, whose id is `curr`. */
  lemma NextPass(s: State, s': State)
    requires VectorsOk(s) && PassOk(s) && (s.collector.Have? || s.collector.Cas?)
    requires s' == s.(collector := Scan(s.collector.curr, s.collector.pending, s.collector.ix + 1))
    ensures PassOk(s')
  {
    var ix := s.collector.ix;
    assert forall j :: 0 <= j < ix ==> s.ids[j] < s.ids[ix];
  }

  lemma ServePass(s: State, s': State)
    requires PassOk(s) && s.collector.Cas? && s'.collector.Work? && s'.collector.curr == s.collector.curr
    requires s'.ids == s.ids && s'.idValue == s.idValue && s'.examined == s.examined
    requires s'.collected == s.collected + [s.collector.curr]
    ensures PassOk(s')
  {
    var curr := s.collector.curr;
    forall j | 0 <= j < |s.collected|
      ensures s.collected[j] < curr
    {
      assert s.collected[j] in s.collected && s.collected[j] in s.examined;
      var e :| 0 <= e < |s.examined| && s.examined[e] == s.collected[j];
      assert s.examined[e] <= Last(s.examined);
    }
    assert curr in s.examined;
  }

  lemma ScanPass(s: State)
    requires Shape(s) && VectorsOk(s) && PassOk(s) && s.collector.Scan?
    ensures PassOk(CollectorStep(s, false))
  {
    if s.collector.ix < |s.ids| && s.ids[s.collector.ix] > s.collector.curr {
      ExaminePass(s, CollectorStep(s, false));
    }
  }

  lemma HavePass(s: State)
    requires Shape(s) && VectorsOk(s) && PassOk(s) && s.collector.Have?
    ensures PassOk(CollectorStep(s, false))
  {
    var s' := CollectorStep(s, false);
    if s'.collector.Scan? {
      NextPass(s, s');
    }
  }

  lemma CasPass(s: State)
    requires Shape(s) && LockOk(s) && VectorsOk(s) && StatesOk(s) && PassOk(s) && s.collector.Cas?
    ensures PassOk(CollectorStep(s, false))
  {
    var s' := CollectorStep(s, false);
    CasSees(s);
    hide LockOk;
    hide VectorsOk;
    hide StatesOk;
    hide PassOk;
    if s'.collector.Scan? {
      NextPass(s, s');
    } else {
      ServePass(s, s');
    }
  }

  /** The steps in which no id is looked at. */
  lemma OtherPass(s: State, left: bool)
    requires Shape(s) && VectorsOk(s) && PassOk(s) && !PassLocks(s.collector) && !CollectorStep(s, left).collector.Failed?
    ensures PassOk(CollectorStep(s, left))
  {
  }

  lemma PassCollector(s: State, left: bool)
    requires Shape(s) && LockOk(s) && VectorsOk(s) && StatesOk(s) && PassOk(s)
    ensures PassOk(CollectorStep(s, left))
  {
    NeverFails(s, left);
    hide LockOk;
    hide VectorsOk;
    hide StatesOk;
    hide PassOk;
    if s.collector.Scan? {
      ScanPass(s);
    } else if s.collector.Have? {
      HavePass(s);
    } else if s.collector.Cas? {
      CasPass(s);
    } else {
      OtherPass(s, left);
    }
  }

  // ---- Registration records ----

  lemma BoundClient(s: State, c: Cid)
    requires Shape(s) && BoundOk(s) && c < |s.pc|
    ensures BoundOk(ClientStep(s, c))
  {
  }

  lemma NewestPush(s: State, c: Cid)
    requires Shape(s) && LockOk(s) && VectorsOk(s) && PassOk(s) && c < |s.pc| && s.pc[c] == RegPush
    ensures NewestOk(ClientStep(s, c))
  {
    var s' := ClientStep(s, c);
    Excludes(s, c);
    assert s'.idValue !in s'.examined;
    assert forall d :: 0 <= d < |s'.pc| && Newest(s'.pc[d]) ==> d == c;
  }

  lemma NewestFrame(s: State, s': State)
    requires Shape(s) && NewestOk(s) && Shape(s') && |s'.pc| == |s.pc|
    requires s'.clients == s.clients && s'.ids == s.ids && s'.idValue == s.idValue && s'.examined == s.examined
    requires forall d :: 0 <= d < |s.pc| && Newest(s'.pc[d]) ==> Newest(s.pc[d])
    ensures NewestOk(s')
  {
  }

  lemma NewestNobody(s: State, s': State)
    requires Shape(s) && Shape(s') && |s'.pc| == |s.pc|
    requires forall d :: 0 <= d < |s.pc| ==> !Newest(s'.pc[d])
    ensures NewestOk(s')
  {
  }

  lemma NewestClient(s: State, c: Cid)
    requires Shape(s) && LockOk(s) && VectorsOk(s) && PassOk(s) && NewestOk(s) && c < |s.pc|
    ensures NewestOk(ClientStep(s, c))
  {
    if s.pc[c] == RegPush {
      NewestPush(s, c);
    } else {
      ClientFrame(s, c);
      ClientVectors(s, c);
      ClientMoves(s, c);
      hide ClientStep;
      hide VectorsOk;
      hide PassOk;
      hide NewestOk;
      if s.pc[c] == DeregErase {
        Excludes(s, c);
        hide LockOk;
        NewestNobody(s, ClientStep(s, c));
      } else {
        hide LockOk;
        NewestFrame(s, ClientStep(s, c));
      }
    }
  }

  lemma NewestCollector(s: State, left: bool)
    requires Shape(s) && LockOk(s) && NewestOk(s)
    ensures NewestOk(CollectorStep(s, left))
  {
    var s' := CollectorStep(s, left);
    if s.collector.Scan? {
      assert forall d :: 0 <= d < |s.pc| ==> !Newest(s.pc[d]);
    }
    CollectorFrame(s, left);
    if !s.collector.Begin? {
      hide CollectorStep;
      hide LockOk;
      hide NewestOk;
      if s.collector.Scan? {
        NewestNobody(s, s');
      } else {
        NewestFrame(s, s');
      }
    }
  }

  lemma StrandedClient(s: State, c: Cid)
    requires Shape(s) && StrandedOk(s) && c < |s.pc|
    ensures StrandedOk(ClientStep(s, c))
  {
    ClientFrame(s, c);
    ClientVectors(s, c);
    if s.pc[c] != RegBind {
      hide ClientStep;
    }
  }

  lemma StrandedCollector(s: State, left: bool)
    requires Shape(s) && StrandedOk(s)
    ensures StrandedOk(CollectorStep(s, left))
  {
    if !AtRest(s) {
      assert forall c :: 0 <= c < |s.pc| ==> !s.stranded[c];
    }
  }

  // ---- Coverage ----

  /** What coverage of the client at index `i` looks at, apart from the collector. */
  predicate SameRecords(s: State, s': State) {
    s'.sem == s.sem && s'.gc == s.gc && s'.tests == s.tests && s'.owes == s.owes && s'.stranded == s.stranded
  }

  lemma CoverFrame(s: State, s': State)
    requires Shape(s) && VectorsOk(s) && CoverOk(s) && Shape(s') && VectorsOk(s')
    requires SameRecords(s, s') && s'.collector == s.collector && s'.clients == s.clients && s'.ids == s.ids
    requires |s'.pc| == |s.pc| && forall c :: 0 <= c < |s.pc| && Live(s'.pc[c]) ==> Live(s.pc[c])
    ensures CoverOk(s')
  {
    forall i | 0 <= i < |s'.clients| && Live(s'.pc[s'.clients[i]]) && s'.gc[s'.clients[i]]
      ensures Covered(s', i)
    {
      assert Covered(s, i);
    }
  }

  lemma RegPushCover(s: State, c: Cid)
    requires Shape(s) && LockOk(s) && VectorsOk(s) && CoverOk(s) && c < |s.pc| && s.pc[c] == RegPush
    requires VectorsOk(ClientStep(s, c))
    ensures CoverOk(ClientStep(s, c))
  {
    var s' := ClientStep(s, c);
    Excludes(s, c);
    forall i | 0 <= i < |s'.clients| && Live(s'.pc[s'.clients[i]]) && s'.gc[s'.clients[i]]
      ensures Covered(s', i)
    {
      assert i < |s.clients| && s'.clients[i] == s.clients[i] && s'.ids[i] == s.ids[i];
      assert Covered(s, i);
    }
  }

  lemma EraseCover(s: State, s': State, k: nat)
    requires Shape(s) && VectorsOk(s) && CoverOk(s) && Shape(s') && VectorsOk(s')
    requires SameRecords(s, s') && s'.collector == s.collector && |s'.pc| == |s.pc|
    requires !PassLocks(s.collector) && Shifted(s, s', k)
    requires forall c :: 0 <= c < |s.pc| && Live(s'.pc[c]) ==> Live(s.pc[c])
    ensures CoverOk(s')
  {
    forall i | 0 <= i < |s'.clients| && Live(s'.pc[s'.clients[i]]) && s'.gc[s'.clients[i]]
      ensures Covered(s', i)
    {
      var j := if i < k then i else i + 1;
      assert s'.clients[i] == s.clients[j] && s'.ids[i] == s.ids[j];
      assert Covered(s, j);
    }
  }

  /** A newly registered client is ahead of the pass, or the collector is at rest. */
  lemma NewestCovered(s: State, c: Cid)
    requires Shape(s) && LockOk(s) && VectorsOk(s) && PassOk(s) && NewestOk(s) && c < |s.pc| && s.pc[c] == RegBind && s.gc[c]
    ensures VectorsOk(ClientStep(s, c)) && Covered(ClientStep(s, c), |s.clients| - 1)
  {
    Excludes(s, c);
    VectorsClient(s, c);
    var id := s.ids[|s.ids| - 1];
    assert Last(s.examined) < id by {
      assert s.examined != [] ==> Last(s.examined) in s.examined;
    }
  }

  lemma RegBindCover(s: State, c: Cid)
    requires Shape(s) && LockOk(s) && VectorsOk(s) && PassOk(s) && CoverOk(s) && NewestOk(s)
    requires c < |s.pc| && s.pc[c] == RegBind && VectorsOk(ClientStep(s, c))
    ensures CoverOk(ClientStep(s, c))
  {
    var s' := ClientStep(s, c);
    forall i | 0 <= i < |s'.clients| && Live(s'.pc[s'.clients[i]]) && s'.gc[s'.clients[i]]
      ensures Covered(s', i)
    {
      if s.clients[i] == c {
        assert i == |s.clients| - 1;
        NewestCovered(s, c);
      } else {
        assert Covered(s, i);
      }
    }
  }

  lemma DeregEraseCover(s: State, c: Cid)
    requires Shape(s) && LockOk(s) && VectorsOk(s) && CoverOk(s) && c < |s.pc| && s.pc[c] == DeregErase
    ensures VectorsOk(ClientStep(s, c)) && CoverOk(ClientStep(s, c))
  {
    var s', k := ClientStep(s, c), IndexOf(s.clients, c);
    assert c in s.clients;
    EraseVectors(s, s', c, k);
    Excludes(s, c);
    ClientFrame(s, c);
    ClientVectors(s, c);
    ClientMoves(s, c);
    hide *;
    EraseCover(s, s', k);
  }

  lemma CoverClient(s: State, c: Cid)
    requires Shape(s) && LockOk(s) && VectorsOk(s) && PassOk(s) && CoverOk(s) && NewestOk(s) && c < |s.pc|
    requires VectorsOk(ClientStep(s, c))
    ensures CoverOk(ClientStep(s, c))
  {
    ClientFrame(s, c);
    ClientVectors(s, c);
    ClientMoves(s, c);
    hide ClientStep;
    hide CoverOk;
    hide VectorsOk;
    hide LockOk;
    hide PassOk;
    hide NewestOk;
    if s.pc[c] == RegPush {
      RegPushCover(s, c);
    } else if s.pc[c] == RegBind {
      RegBindCover(s, c);
    } else if s.pc[c] == DeregErase {
      DeregEraseCover(s, c);
    } else {
      CoverFrame(s, ClientStep(s, c));
    }
  }

  lemma RetireCover(s: State, c: Cid)
    requires Shape(s) && VectorsOk(s) && CoverOk(s) && Enabled(s, Retire(c))
    ensures CoverOk(Apply(s, Retire(c)))
  {
    var s' := Apply(s, Retire(c));
    forall i | 0 <= i < |s'.clients| && Live(s'.pc[s'.clients[i]]) && s'.gc[s'.clients[i]]
      ensures Covered(s', i)
    {
      if s.clients[i] != c {
        assert Covered(s, i);
      }
    }
  }

  /** A registered client has a collector_thread, so its retiring threads go on to signal. */
  lemma TestCover(s: State, c: Cid)
    requires Shape(s) && VectorsOk(s) && CoverOk(s) && BoundOk(s) && Enabled(s, Test(c))
    ensures CoverOk(Apply(s, Test(c)))
  {
    var s' := Apply(s, Test(c));
    forall i | 0 <= i < |s'.clients| && Live(s'.pc[s'.clients[i]]) && s'.gc[s'.clients[i]]
      ensures Covered(s', i)
    {
      if s.clients[i] != c {
        assert Covered(s, i);
      }
    }
  }

  /** The record test of the client at `i`, which the pass is about to make or has made. */
  lemma CoverCollectorAt(s: State, left: bool, i: nat)
    requires Shape(s) && VectorsOk(s) && PassOk(s) && CoverOk(s) && i < |s.clients| && Live(s.pc[s.clients[i]])
    requires s.collector.Begin? || s.collector.LockWait? || s.collector.Scan? || s.collector.Have?
    requires s.gc[s.clients[i]]
    ensures Covered(CollectorStep(s, left), i)
  {
    assert Covered(s, i);
    if s.collector.Scan? && s.collector.ix < |s.ids| {
      var ix := s.collector.ix;
      assert i < ix ==> s.ids[i] <= s.collector.curr;
      assert ix < i ==> s.ids[ix] < s.ids[i];
    }
  }

  lemma CasCoverAt(s: State, i: nat)
    requires Shape(s) && LockOk(s) && VectorsOk(s) && StatesOk(s) && PassOk(s) && CoverOk(s) && s.collector.Cas?
    requires i < |s.clients| && Live(s.pc[s.clients[i]]) && s.gc[s.clients[i]]
    ensures Covered(CollectorStep(s, false), i)
  {
    assert Covered(s, i);
    CasSees(s);
  }

  lemma ServedCoverAt(s: State, left: bool, i: nat)
    requires Shape(s) && VectorsOk(s) && StrandedOk(s) && CoverOk(s) && i < |s.clients|
    requires s.collector.Work? || s.collector.Check? || s.collector.Reset? || s.collector.Finish? || s.collector.Wait?
    requires var s' := CollectorStep(s, left);
             !s'.collector.Failed? && Live(s.pc[s.clients[i]]) && s'.gc[s.clients[i]]
    ensures Covered(CollectorStep(s, left), i)
  {
    if s.gc[s.clients[i]] {
      assert Covered(s, i);
    }
  }

  lemma CoverCollector(s: State, left: bool)
    requires Shape(s) && LockOk(s) && VectorsOk(s) && StatesOk(s) && PassOk(s) && CoverOk(s) && StrandedOk(s)
    requires VectorsOk(CollectorStep(s, left))
    ensures CoverOk(CollectorStep(s, left))
  {
    var s' := CollectorStep(s, left);
    NeverFails(s, left);
    CollectorFrame(s, left);
    assert s.collector.Cas? ==> CollectorStep(s, left) == CollectorStep(s, false);
    assert !s.collector.Work? ==> s'.gc == s.gc;
    hide CollectorStep;
    hide LockOk;
    hide StatesOk;
    hide PassOk;
    hide StrandedOk;
    forall i | 0 <= i < |s'.clients| && Live(s'.pc[s'.clients[i]]) && s'.gc[s'.clients[i]]
      ensures Covered(s', i)
    {
      hide CoverOk;
      hide Covered;
      if s.collector.Cas? {
        CasCoverAt(s, i);
      } else if s.collector.Begin? || s.collector.LockWait? || s.collector.Scan? || s.collector.Have? {
        CoverCollectorAt(s, left, i);
      } else {
        ServedCoverAt(s, left, i);
      }
    }
  }

  // ---- All together ----

  lemma ClientStepKeeps(s: State, c: Cid)
    requires Inv(s) && c < |s.pc|
    ensures Inv(ClientStep(s, c))
  {
    hide LockOk;
    hide VectorsOk;
    hide StatesOk;
    hide PassOk;
    hide CoverOk;
    hide BoundOk;
    hide NewestOk;
    hide StrandedOk;
    ClientFrame(s, c);
    ClientVectors(s, c);
    ClientMoves(s, c);
    hide ClientStep;
    LockClient(s, c);
    VectorsClient(s, c);
    StatesClient(s, c);
    PassClient(s, c);
    CoverClient(s, c);
    BoundClient(s, c);
    NewestClient(s, c);
    StrandedClient(s, c);
  }

  lemma CollectKeeps(s: State, left: bool)
    requires Inv(s)
    ensures Inv(CollectorStep(s, left))
  {
    var s' := CollectorStep(s, left);
    CollectorFrame(s, left);
    hide CollectorStep;
    assert VectorsOk(s') && BoundOk(s') && Shape(s');
    hide LockOk;
    hide VectorsOk;
    hide StatesOk;
    hide PassOk;
    hide CoverOk;
    hide BoundOk;
    hide NewestOk;
    hide StrandedOk;
    NeverFails(s, left);
    LockCollector(s, left);
    StatesCollector(s, left);
    PassCollector(s, left);
    CoverCollector(s, left);
    NewestCollector(s, left);
    StrandedCollector(s, left);
  }

  /** The first step of RegisterClient or DeregisterClient. */
  predicate Starts(p: ClientPc, p': ClientPc) {
    (p == Outside && p' == RegWait) || (p == Gone && p' == Rejected) || (p == Inside && p' == DeregCas)
  }

  lemma StartKeeps(s: State, c: Cid, p: ClientPc)
    requires Inv(s) && c < |s.pc| && Starts(s.pc[c], p)
    ensures Inv(SetPc(s, c, p))
  {
    var s' := SetPc(s, c, p);
    hide ClientsOk;
    hide LockOk;
    hide VectorsOk;
    hide PassOk;
    hide CoverOk;
    hide StatesOk;
    StartClients(s, c, p);
    StartStates(s, c, p);
    VectorsFrame(s, s', c);
    PassFrame(s, s');
    CoverFrame(s, s');
  }

  lemma StartStates(s: State, c: Cid, p: ClientPc)
    requires Shape(s) && StatesOk(s) && c < |s.pc| && Starts(s.pc[c], p)
    ensures StatesOk(SetPc(s, c, p))
  {
    assert StateOk(s, c);
    assert StateOk(SetPc(s, c, p), c);
    hide StatesOk;
    hide StateOk;
    OtherStates(s, SetPc(s, c, p), c);
  }

  lemma StartClients(s: State, c: Cid, p: ClientPc)
    requires Shape(s) && LockOk(s) && ClientsOk(s) && c < |s.pc| && Starts(s.pc[c], p)
    ensures LockOk(SetPc(s, c, p)) && ClientsOk(SetPc(s, c, p))
  {
  }

  lemma RegisterKeeps(s: State, c: Cid)
    requires Inv(s) && Enabled(s, Register(c))
    ensures Inv(Apply(s, Register(c)))
    ensures MayRegister(s, c) <==> s.pc[c] == Outside
  {
    RegisterSees(s, c);
    hide Inv;
    StartKeeps(s, c, if s.pc[c] == Outside then RegWait else Rejected);
  }

  lemma RegisterSees(s: State, c: Cid)
    requires Shape(s) && StatesOk(s) && BoundOk(s) && Enabled(s, Register(c))
    ensures MayRegister(s, c) <==> s.pc[c] == Outside
  {
    assert StateOk(s, c);
  }

  /** Only the records of a client, or the semaphore, change. */
  lemma RecordsKeep(s: State, s': State)
    requires Inv(s) && Shape(s') && s' == s.(sem := s'.sem, gc := s'.gc, tests := s'.tests, owes := s'.owes, stranded := s'.stranded)
    requires CoverOk(s') && StrandedOk(s')
    ensures Inv(s')
  {
    hide CoverOk;
    hide StrandedOk;
    assert LockOk(s') && BoundOk(s') && NewestOk(s');
    hide LockOk;
    hide VectorsOk;
    PassFrame(s, s');
    StatesFrame(s, s');
  }

  lemma RetireKeeps(s: State, c: Cid)
    requires Inv(s) && Enabled(s, Retire(c))
    ensures Inv(Apply(s, Retire(c)))
  {
    RetireCover(s, c);
    RecordsKeep(s, Apply(s, Retire(c)));
  }

  lemma TestKeeps(s: State, c: Cid)
    requires Inv(s) && Enabled(s, Test(c))
    ensures Inv(Apply(s, Test(c)))
  {
    TestCover(s, c);
    RecordsKeep(s, Apply(s, Test(c)));
  }

  lemma SignalKeeps(s: State, c: Cid)
    requires Inv(s) && Enabled(s, Signal(c))
    ensures Inv(Apply(s, Signal(c)))
  {
    RecordsKeep(s, Apply(s, Signal(c)));
  }

  lemma ApplyKeeps(s: State, a: Action)
    requires Inv(s) && Enabled(s, a)
    ensures Inv(Apply(s, a))
  {
    hide Inv;
    match a
    case Register(c) => RegisterKeeps(s, c);
    case Deregister(c) => StartKeeps(s, c, DeregCas);
    case Step(c) => ClientStepKeeps(s, c);
    case Retire(c) => RetireKeeps(s, c);
    case Test(c) => TestKeeps(s, c);
    case Signal(c) => SignalKeeps(s, c);
    case Collect(left) => CollectKeeps(s, left);
  }

  lemma {:induction false} RunsKeep(s: State, run: seq<Action>)
    requires Inv(s) && Runs(s, run)
    ensures Inv(After(s, run))
    decreases |run|
  {
    if run != [] {
      ApplyKeeps(s, run[0]);
      RunsKeep(Apply(s, run[0]), run[1..]);
    }
  }

  ghost predicate Reachable(s: State) {
    exists s0, run :: Init(s0) && Runs(s0, run) && After(s0, run) == s
  }

  lemma InitInv(s: State)
    requires Init(s)
    ensures Inv(s)
  {
  }

  lemma ReachableInv(s: State)
    requires Reachable(s)
    ensures Inv(s)
  {
    var s0, run :| Init(s0) && Runs(s0, run) && After(s0, run) == s;
    InitInv(s0);
    hide Inv;
    RunsKeep(s0, run);
  }
}
