/** Hazard pointers against the collector: who may still use an object when `Collect` deletes it.

Clients publish, re-check, release and retire through their nodes while the collector scans the
hazards, reads the gc head and judges the records it finds.  Pushes and removals on the lists are
single steps here; `ListSteps` takes those apart. */
module Protection {

  type Node = nat
  type Obj = nat  // an object's address; 0 is NULL

  datatype Client =
    | OnFree                    // the node is on the free list
    | Held                      // in a client's hands, protecting nothing it may rely on
    | Loaded(l: nat, v: Obj)    // Acquire has read location `l` and not yet stored
    | Published(l: nat)         // Acquire has stored; the client has not re-checked
    | Valid                     // the re-check found `l` unchanged: the object may be used
    | Releasing                 // Release has cleared the pointer, not yet pushed
    | Retiring                  // Delete has set gc_pointer, pointer not yet cleared
    | Retired                   // pointer cleared, not yet pushed
    | OnGc                      // the node is on the gc list

  datatype Record = Record(pointer: Obj, gcPointer: Obj, client: Client)

  datatype Collector =
    | Resting
    | ScanTest(i: nat)          // if (node->pointer), for node i - 1
    | ScanRead(i: nat)          // push_back(node->pointer), for node i - 1
    | ReadGc                    // gc_node = gc_list
    | Walk(todo: seq<Node>)

  /** Nodes are numbered in the order they joined the fixed list, so that list, newest first, is
      the numbers downwards.  `retired` and `freed` record what Delete and Collect have done; `atScan`
      is the set of objects on the gc list when the current scan began. */
  datatype State = State(
    loc: seq<Obj>, nodes: seq<Record>, gc: seq<Node>, collector: Collector,
    snap: set<Obj>, atScan: set<Obj>, retired: set<Obj>, freed: set<Obj>)

  datatype Action =
    | Write(l: nat, o: Obj)     // a client stores into a location: links `o`, unlinks what was there
    | NewNode
    | TakeFree(n: Node)
    | Load(n: Node, l: nat)
    | Publish(n: Node)
    | Recheck(n: Node)
    | Clear(n: Node)
    | Release(n: Node)
    | PushFree(n: Node)
    | Delete(n: Node)
    | ClearHazard(n: Node)
    | PushGc(n: Node)
    | StartCollect
    | Collect

  predicate Usable(c: Client) {
    c.Held? || c.Published? || c.Valid?
  }

  /** The callers' side of the bargain: `Write` never links a retired object, and `Delete` is called
      once per object, after it has been unlinked everywhere. */
  predicate Enabled(s: State, a: Action) {
    match a
    case Write(l, o) => l < |s.loc| && o !in s.retired
    case NewNode => true
    case TakeFree(n) => n < |s.nodes| && s.nodes[n].client.OnFree?
    case Load(n, l) => n < |s.nodes| && Usable(s.nodes[n].client) && l < |s.loc|
    case Publish(n) => n < |s.nodes| && s.nodes[n].client.Loaded?
    case Recheck(n) => n < |s.nodes| && s.nodes[n].client.Published? && s.nodes[n].client.l < |s.loc|
    case Clear(n) => n < |s.nodes| && Usable(s.nodes[n].client)
    case Release(n) => n < |s.nodes| && Usable(s.nodes[n].client) && s.nodes[n].pointer != 0
    case PushFree(n) => n < |s.nodes| && s.nodes[n].client.Releasing?
    case Delete(n) =>
      && n < |s.nodes| && Usable(s.nodes[n].client) && s.nodes[n].pointer != 0
      && s.nodes[n].pointer !in s.loc && s.nodes[n].pointer !in s.retired
    case ClearHazard(n) => n < |s.nodes| && s.nodes[n].client.Retiring?
    case PushGc(n) => n < |s.nodes| && s.nodes[n].client.Retired?
    case StartCollect => s.collector.Resting? && s.gc != []
    case Collect => !s.collector.Resting?
  }

  function Update(s: State, n: Node, r: Record): State
    requires n < |s.nodes|
  {
    s.(nodes := s.nodes[n := r])
  }

  function GcObjects(s: State): set<Obj> {
    set n | n in s.gc && n < |s.nodes| :: s.nodes[n].gcPointer
  }

  function Drop(l: seq<Node>, n: Node): seq<Node> {
    if l == [] then [] else if l[0] == n then l[1..] else [l[0]] + Drop(l[1..], n)
  }

  /** The collector deletes the object of record `n` and recycles the node. */
  function Reclaim(s: State, n: Node): State
    requires n < |s.nodes|
  {
    Update(s, n, s.nodes[n].(gcPointer := 0, client := OnFree))
      .(freed := s.freed + {s.nodes[n].gcPointer}, gc := Drop(s.gc, n))
  }

  function CollectStep(s: State): State {
    match s.collector
    case Resting => s
    case ScanTest(i) =>
      if i == 0 then s.(collector := ReadGc)
      else if i <= |s.nodes| && s.nodes[i - 1].pointer != 0 then s.(collector := ScanRead(i))
      else s.(collector := ScanTest(i - 1))
    case ScanRead(i) =>
      if 0 < i <= |s.nodes| then s.(collector := ScanTest(i - 1), snap := s.snap + {s.nodes[i - 1].pointer})
      else s.(collector := ReadGc)
    case ReadGc => s.(collector := Walk(s.gc))
    case Walk(todo) =>
      if todo == [] then s.(collector := Resting)
      else if todo[0] < |s.nodes| && s.nodes[todo[0]].gcPointer !in s.snap then
        Reclaim(s, todo[0]).(collector := Walk(todo[1..]))
      else s.(collector := Walk(todo[1..]))
  }

  function Apply(s: State, a: Action): State
    requires Enabled(s, a)
  {
    match a
    case Write(l, o) => s.(loc := s.loc[l := o])
    case NewNode => s.(nodes := s.nodes + [Record(0, 0, Held)])
    case TakeFree(n) => Update(s, n, s.nodes[n].(client := Held))
    case Load(n, l) => Update(s, n, s.nodes[n].(client := Loaded(l, s.loc[l])))
    case Publish(n) =>
      Update(s, n, s.nodes[n].(pointer := s.nodes[n].client.v, client := Published(s.nodes[n].client.l)))
    case Recheck(n) =>
      var p := s.nodes[n].pointer;
      Update(s, n, s.nodes[n].(client := if p != 0 && s.loc[s.nodes[n].client.l] == p then Valid else Held))
    case Clear(n) => Update(s, n, s.nodes[n].(pointer := 0, client := Held))
    case Release(n) => Update(s, n, s.nodes[n].(pointer := 0, client := Releasing))
    case PushFree(n) => Update(s, n, s.nodes[n].(client := OnFree))
    case Delete(n) =>
      Update(s, n, s.nodes[n].(gcPointer := s.nodes[n].pointer, client := Retiring))
        .(retired := s.retired + {s.nodes[n].pointer})
    case ClearHazard(n) => Update(s, n, s.nodes[n].(pointer := 0, client := Retired))
    case PushGc(n) => Update(s, n, s.nodes[n].(client := OnGc)).(gc := [n] + s.gc)
    case StartCollect => s.(collector := ScanTest(|s.nodes|), snap := {}, atScan := GcObjects(s))
    case Collect => CollectStep(s)
  }

  predicate Init(s: State) {
    && s.nodes == [] && s.gc == [] && s.collector == Resting
    && s.snap == {} && s.atScan == {} && s.retired == {} && s.freed == {}
    && forall l :: 0 <= l < |s.loc| ==> s.loc[l] == 0
  }

  predicate Runs(s: State, run: seq<Action>)
    decreases |run|
  {
    run == [] || (Enabled(s, run[0]) && Runs(Apply(s, run[0]), run[1..]))
  }

  function After(s: State, run: seq<Action>): State
    requires Runs(s, run)
    decreases |run|
  {
    if run == [] then s else After(Apply(s, run[0]), run[1..])
  }

  // ---- Invariant ----

  /** Some client has validated `o` and may be using it. */
  predicate InUse(s: State, o: Obj) {
    exists n :: 0 <= n < |s.nodes| && s.nodes[n].client.Valid? && s.nodes[n].pointer == o
  }

  predicate HasGcPointer(c: Client) {
    c.Retiring? || c.Retired? || c.OnGc?
  }

  predicate RecordOk(s: State, r: Record) {
    && (HasGcPointer(r.client) ==> r.gcPointer != 0 && r.gcPointer in s.retired && r.gcPointer !in s.freed)
    && (!HasGcPointer(r.client) ==> r.gcPointer == 0)
    && (r.client.Valid? ==> r.pointer != 0 && s.loc != [])
    && (r.client.OnFree? || r.client.Releasing? || r.client.Retired? || r.client.OnGc? ==> r.pointer == 0)
  }

  predicate NodesOk(s: State) {
    && (forall n :: 0 <= n < |s.nodes| ==> RecordOk(s, s.nodes[n]))
    && (forall n, m | 0 <= n < |s.nodes| && 0 <= m < |s.nodes| ::
          s.nodes[n].gcPointer != 0 && s.nodes[n].gcPointer == s.nodes[m].gcPointer ==> n == m)
  }

  predicate NoDup(l: seq<Node>) {
    forall i, j :: 0 <= i < j < |l| ==> l[i] != l[j]
  }

  predicate GcOk(s: State) {
    && NoDup(s.gc)
    && (forall n :: n in s.gc ==> n < |s.nodes|)
    && (forall n :: 0 <= n < |s.nodes| ==> (n in s.gc <==> s.nodes[n].client.OnGc?))
  }

  predicate ObjectsOk(s: State) {
    && s.freed <= s.retired && s.atScan <= s.retired && 0 !in s.retired
    && (forall l :: 0 <= l < |s.loc| ==> s.loc[l] !in s.retired)
  }

  /** Some node carries `o` as its retired object. */
  predicate Carried(s: State, o: Obj) {
    exists n :: 0 <= n < |s.nodes| && s.nodes[n].gcPointer == o
  }

  /** No retired object is forgotten before it is deleted. */
  predicate NoLeak(s: State) {
    forall o :: o in s.retired && o !in s.freed ==> Carried(s, o)
  }

  /** Has the scan accounted for node `n` if it protects an object of `atScan`? */
  predicate Seen(s: State, n: Node)
    requires n < |s.nodes|
  {
    match s.collector
    case Resting => true
    case ScanTest(i) => n < i || s.nodes[n].pointer in s.snap
    case ScanRead(i) => n < i || s.nodes[n].pointer in s.snap
    case ReadGc => s.nodes[n].pointer in s.snap
    case Walk(_) => s.nodes[n].pointer in s.snap
  }

  predicate ScanOk(s: State) {
    && (s.collector.ScanTest? ==> s.collector.i <= |s.nodes|)
    && (s.collector.ScanRead? ==> 0 < s.collector.i <= |s.nodes|)
    && (forall n :: 0 <= n < |s.nodes| && s.nodes[n].client.Valid? && s.nodes[n].pointer in s.atScan ==> Seen(s, n))
  }

  predicate WalkOk(s: State) {
    s.collector.Walk? ==> NoDup(s.collector.todo) && forall n :: n in s.collector.todo ==> n in s.gc
  }

  predicate Inv(s: State) {
    NodesOk(s) && GcOk(s) && ObjectsOk(s) && NoLeak(s) && ScanOk(s) && WalkOk(s)
  }
}
