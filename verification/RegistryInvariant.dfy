/** What every step of the registry and the collection pass keeps. */
module RegistryInvariant {
  import opened Registry

  predicate Increasing(l: seq<nat>) {
    forall i, j :: 0 <= i < j < |l| ==> l[i] < l[j]
  }

  predicate NoDup(l: seq<Cid>) {
    forall i, j :: 0 <= i < j < |l| ==> l[i] != l[j]
  }

  /** The client is in the vectors. */
  predicate Listed(p: ClientPc) {
    p == RegStore || p == RegBind || p == Inside || p == DeregCas || p == DeregWait || p == DeregErase
  }

  /** The client is registered and its deregistration has not passed its compare-exchange. */
  predicate Live(p: ClientPc) {
    p == Inside || p == DeregCas
  }

  predicate Locking(p: ClientPc) {
    p == RegPush || p == RegStore || p == RegBind || p == DeregErase || p == DeregStore
  }

  /** The client has been registered, now or before. */
  predicate HasThread(p: ClientPc) {
    Live(p) || p == DeregWait || p == DeregErase || p == DeregStore || p == Gone || p == Rejected
  }

  /** The client's id is the newest one. */
  predicate Newest(p: ClientPc) {
    p == RegStore || p == RegBind
  }

  predicate PassLocks(p: CollectorPc) {
    p.Scan? || p.Have? || p.Cas?
  }

  /** The collector is inside the Collect of client `c`. */
  predicate Serving(p: CollectorPc, c: Cid) {
    (p.Work? || p.Check? || p.Reset?) && p.c == c
  }

  predicate LockOk(s: State) {
    && (s.lock.ByPass? <==> PassLocks(s.collector))
    && (forall c :: 0 <= c < |s.pc| ==> (Locking(s.pc[c]) <==> s.lock == ByClient(c)))
  }

  /** The two vectors: equally long, ids strictly increasing, each listed client once. */
  predicate VectorsOk(s: State) {
    && |s.clients| == |s.ids| && Increasing(s.ids) && NoDup(s.clients)
    && (forall i :: 0 <= i < |s.ids| ==> 0 < s.ids[i] <= s.idValue)
    && (forall i :: 0 <= i < |s.clients| ==> s.clients[i] < |s.pc| && Listed(s.pc[s.clients[i]]))
    && (forall c :: 0 <= c < |s.pc| && Listed(s.pc[c]) ==> c in s.clients)
  }

  /** The client state agrees with where its thread and the collector are. */
  predicate StateOk(s: State, c: Cid)
    requires Shape(s) && c < |s.pc|
  {
    match s.pc[c]
    case RegBind => s.state[c] == Registered && !Serving(s.collector, c)
    case Inside => s.state[c] == if Serving(s.collector, c) then Collecting else Registered
    case DeregCas => s.state[c] == if Serving(s.collector, c) then Collecting else Registered
    case DeregWait => s.state[c] == Deleting && !Serving(s.collector, c)
    case DeregErase => s.state[c] == Deleting && !Serving(s.collector, c)
    case DeregStore => s.state[c] == Deleting && !Serving(s.collector, c)
    case _ => s.state[c] == Unregistered && !Serving(s.collector, c)
  }

  predicate StatesOk(s: State)
    requires Shape(s)
  {
    && (forall c :: 0 <= c < |s.pc| ==> StateOk(s, c))
    && (s.collector.Work? || s.collector.Check? || s.collector.Reset? ==> s.collector.c < |s.pc|)
  }

  predicate InPass(p: CollectorPc) {
    !p.Begin? && !p.Finish? && !p.Wait? && !p.Failed?
  }

  function Last(l: seq<nat>): nat {
    if l == [] then 0 else l[|l| - 1]
  }

  /** Everything listed with an id up to `curr` has been examined, in increasing order. */
  predicate PassOk(s: State) {
    && !s.collector.Failed?
    && Increasing(s.examined) && Increasing(s.collected)
    && (forall id :: id in s.collected ==> id in s.examined)
    && (forall id :: id in s.examined ==> id <= s.idValue)
    && (InPass(s.collector) ==>
          && s.collector.curr == Last(s.examined)
          && (forall i :: 0 <= i < |s.ids| && s.ids[i] <= s.collector.curr ==> s.ids[i] in s.examined))
    && (s.collector.Finish? ==> forall i :: 0 <= i < |s.ids| && s.ids[i] <= Last(s.examined) ==> s.ids[i] in s.examined)
    && (s.collector.Scan? ==> s.collector.ix <= |s.ids| && forall j :: 0 <= j < s.collector.ix ==> s.ids[j] <= s.collector.curr)
    && (s.collector.Have? || s.collector.Cas? ==>
          && s.collector.ix < |s.ids| && s.ids[s.collector.ix] == s.collector.curr
          && s.collector.curr !in s.collected)
  }

  /** Somebody will see to the records of the client at index `i`. */
  predicate Covered(s: State, i: nat)
    requires Shape(s) && i < |s.clients| == |s.ids| && s.clients[i] < |s.pc|
  {
    || s.sem || s.tests[s.clients[i]] > 0 || s.owes[s.clients[i]] > 0 || s.stranded[s.clients[i]]
    || match s.collector
       case Begin => true
       case LockWait(curr, pending) => pending || s.ids[i] > curr
       case Scan(curr, pending, _) => pending || s.ids[i] > curr
       case Have(curr, pending, ix) => pending || s.ids[i] > curr || ix == i
       case Cas(curr, pending, ix) => pending || s.ids[i] > curr || ix == i
       case Work(curr, pending, c) => pending || s.ids[i] > curr || c == s.clients[i]
       case Check(curr, pending, c) => pending || s.ids[i] > curr || c == s.clients[i]
       case Reset(curr, pending, _) => pending || s.ids[i] > curr
       case Finish(pending) => pending
       case Wait => false
       case Failed => true
  }

  predicate CoverOk(s: State)
    requires Shape(s) && VectorsOk(s)
  {
    forall i :: 0 <= i < |s.clients| && Live(s.pc[s.clients[i]]) && s.gc[s.clients[i]] ==> Covered(s, i)
  }

  /** collector_thread is set by the first registration and never cleared. */
  predicate BoundOk(s: State)
    requires Shape(s)
  {
    forall c :: 0 <= c < |s.pc| ==> (s.bound[c] <==> HasThread(s.pc[c]))
  }

  /** A client that is being registered comes last and has an id the pass has not seen. */
  predicate NewestOk(s: State)
    requires Shape(s)
  {
    forall c :: 0 <= c < |s.pc| && Newest(s.pc[c]) ==>
      && s.clients != [] && s.clients[|s.clients| - 1] == c
      && s.ids != [] && s.ids[|s.ids| - 1] == s.idValue && s.idValue !in s.examined
  }

  predicate StrandedOk(s: State)
    requires Shape(s)
  {
    forall c :: 0 <= c < |s.pc| && s.stranded[c] ==> s.gc[c] && s.bound[c] && AtRest(s)
  }

  predicate ClientsOk(s: State)
    requires Shape(s)
  {
    BoundOk(s) && NewestOk(s) && StrandedOk(s)
  }

  predicate Inv(s: State) {
    Shape(s) && LockOk(s) && VectorsOk(s) && StatesOk(s) && PassOk(s) && CoverOk(s) && ClientsOk(s)
  }
}
