/** The three lists of HazardPointerList at the level of their links, as a step machine.

Any number of client threads acquire nodes, adding new ones to the fixed list, release them to the free
list and retire them to the gc list; one collector, the holder of collector_client_lock, walks the
fixed list and then the gc list, from which it removes records.
One step is one shared read, one write or one compare-exchange.  Pops are serialised: at most one
client is inside `pop`. */
module ListSteps {

  type Tid = nat
  type Node = nat

  /** A value of `next`, `gc_list` or `free_list`; `End` is end_node. */
  datatype Link = Null | End | To(n: Node)

  /** What `ppnode` points at: the list head, or the `next` field of a node. */
  datatype Place = Head | At(p: Node)

  datatype Client =
    | Empty
    | PopHead                              // node = *head
    | PopNext(node: Link)                  // desired = node->next
    | PopCas(node: Link, desired: Link)
    | PopClear(n: Node)                    // node->next = NULL
    | AddRead(n: Node)                     // a new node: node->fixed_link = nodes
    | AddCas(n: Node)
    | Holding(n: Node)                     // an unqueued node in hand
    | PushRead(n: Node, gc: bool)          // node->next = *head
    | PushCas(n: Node, gc: bool)

  /** The statements of `remove`, in order. */
  datatype Stage =
    | Test                                 // *ppnode != node
    | TestEnd                              // *ppnode != end_node
    | Move                                 // ppnode = &(*ppnode)->next
    | Check                                // *ppnode == end_node
    | Expect                               // expected = *ppnode
    | Next(expected: Link)                 // desired = expected->next
    | Cas(expected: Link, desired: Link)

  datatype Collector =
    | Resting
    | ScanHead                                                // node = nodes
    | Scan(cur: Link)                                         // loop test and node = node->fixed_link
    | ReadHead                                                // gc_node = gc_list
    | Visit(cur: Link)                                        // loop test and next_gc_node = gc_node->next
    | Judge(n: Node, nxt: Link)                               // protected or not
    | Remove(n: Node, nxt: Link, pp: Place, stage: Stage)
    | Clear(n: Node, nxt: Link)                               // node->next = NULL
    | FreeRead(n: Node, nxt: Link)                            // push onto the free list
    | FreeCas(n: Node, nxt: Link)
    | Failed                                                  // remove's CHECK_ASSERT(false)

  datatype Where = OnGc | OnFree | With(t: Tid) | WithCollector

  /** `next` and `fixedLink` are indexed by node.  The remaining fields are bookkeeping that no branch
      reads: `gc`, `free` and `fixed` are the lists as sequences, `place` says where each node is,
      `snapshot` is the gc list when the walk read its head and `visited` the records seen since;
      `present` is the fixed list when the scan read its head and `scanned` the nodes seen since. */
  datatype State = State(
    gcHead: Link, freeHead: Link, next: seq<Link>, fixedHead: Link, fixedLink: seq<Link>,
    threads: seq<Client>, collector: Collector,
    gc: seq<Node>, free: seq<Node>, place: seq<Where>, snapshot: seq<Node>, visited: seq<Node>,
    fixed: seq<Node>, present: seq<Node>, scanned: seq<Node>)

  datatype Action =
    | StartPop(t: Tid)
    | StartPush(t: Tid, toGc: bool)
    | Step(t: Tid)
    | StartCollect
    | Decide(protected: bool)
    | Collect

  function SetThread(s: State, t: Tid, c: Client): State
    requires t < |s.threads|
  {
    s.(threads := s.threads[t := c])
  }

  function LoadFrom(gcHead: Link, next: seq<Link>, pp: Place): Link {
    match pp
    case Head => gcHead
    case At(p) => if p < |next| then next[p] else Null
  }

  function Load(s: State, pp: Place): Link {
    LoadFrom(s.gcHead, s.next, pp)
  }

  function Store(s: State, pp: Place, v: Link): State {
    match pp
    case Head => s.(gcHead := v)
    case At(p) => if p < |s.next| then s.(next := s.next[p := v]) else s
  }

  /** end_node->next is end_node. */
  function NextIn(next: seq<Link>, l: Link): Link {
    match l
    case Null => Null
    case End => End
    case To(n) => if n < |next| then next[n] else Null
  }

  function NextOf(s: State, l: Link): Link {
    NextIn(s.next, l)
  }

  function IndexOf(l: seq<Node>, n: Node): (i: nat)
    ensures i <= |l| && (i < |l| ==> l[i] == n) && (n in l ==> i < |l|)
    ensures forall j :: 0 <= j < i ==> l[j] != n
  {
    if l == [] then 0 else if l[0] == n then 0 else 1 + IndexOf(l[1..], n)
  }

  function Without(l: seq<Node>, n: Node): seq<Node> {
    var i := IndexOf(l, n);
    if i < |l| then l[..i] + l[i + 1..] else l
  }

  function ClientStep(s: State, t: Tid): State
    requires t < |s.threads|
  {
    match s.threads[t]
    case PopHead => SetThread(s, t, PopNext(s.freeHead))
    case PopNext(node) => SetThread(s, t, PopCas(node, NextOf(s, node)))
    case PopCas(node, desired) =>
      if s.freeHead != node then SetThread(s, t, PopHead)
      else if node.To? && node.n < |s.place| then
        SetThread(s.(freeHead := desired, free := Without(s.free, node.n), place := s.place[node.n := With(t)]),
                  t, PopClear(node.n))
      else // the list was empty: AcquireNode makes a new node
        SetThread(s.(next := s.next + [Null], fixedLink := s.fixedLink + [Null], place := s.place + [With(t)]),
                  t, AddRead(|s.next|))
    case AddRead(n) =>
      if n < |s.fixedLink| then SetThread(s.(fixedLink := s.fixedLink[n := s.fixedHead]), t, AddCas(n)) else s
    case AddCas(n) =>
      if n < |s.fixedLink| && s.fixedHead == s.fixedLink[n]
      then SetThread(s.(fixedHead := To(n), fixed := [n] + s.fixed), t, Holding(n))
      else SetThread(s, t, AddRead(n))
    case PopClear(n) =>
      if n < |s.next| then SetThread(s.(next := s.next[n := Null]), t, Holding(n)) else s
    case PushRead(n, gc) =>
      if n < |s.next| then
        SetThread(s.(next := s.next[n := if gc then s.gcHead else s.freeHead]), t, PushCas(n, gc))
      else s
    case PushCas(n, gc) =>
      if n >= |s.next| || n >= |s.place| then s
      else if s.next[n] != (if gc then s.gcHead else s.freeHead) then SetThread(s, t, PushRead(n, gc))
      else if gc then
        SetThread(s.(gcHead := To(n), gc := [n] + s.gc, place := s.place[n := OnGc]), t, Empty)
      else
        SetThread(s.(freeHead := To(n), free := [n] + s.free, place := s.place[n := OnFree]), t, Empty)
    case _ => s
  }

  /** One statement of `remove(n, &gc_list)`. */
  function RemoveStep(s: State): State
    requires s.collector.Remove?
  {
    var Remove(n, nxt, pp, stage) := s.collector;
    var v := Load(s, pp);
    match stage
    case Test => s.(collector := Remove(n, nxt, pp, if v == To(n) then Check else TestEnd))
    case TestEnd => s.(collector := Remove(n, nxt, pp, if v == End then Check else Move))
    case Move => s.(collector := if v.To? then Remove(n, nxt, At(v.n), Test) else Failed)
    case Check => s.(collector := if v == End then Failed else Remove(n, nxt, pp, Expect))
    case Expect => s.(collector := Remove(n, nxt, pp, Next(v)))
    case Next(expected) => s.(collector := Remove(n, nxt, pp, Cas(expected, NextOf(s, expected))))
    case Cas(expected, desired) =>
      if v == expected && n < |s.place| then
        Store(s, pp, desired).(collector := Clear(n, nxt), gc := Without(s.gc, n), place := s.place[n := WithCollector])
      else s.(collector := Remove(n, nxt, Head, Test))
  }

  function CollectorStep(s: State): State {
    match s.collector
    case ScanHead => s.(collector := Scan(s.fixedHead), present := s.fixed, scanned := [])
    case Scan(cur) =>
      if cur.To? then s.(collector := Scan(NextIn(s.fixedLink, cur)), scanned := s.scanned + [cur.n])
      else if cur.End? then s.(collector := ReadHead) else s.(collector := Failed)
    case ReadHead => s.(collector := Visit(s.gcHead), snapshot := s.gc, visited := [])
    case Visit(cur) =>
      if cur.To? then s.(collector := Judge(cur.n, NextOf(s, cur)), visited := s.visited + [cur.n])
      else if cur.End? then s.(collector := Resting) else s.(collector := Failed)
    case Remove(_, _, _, _) => RemoveStep(s)
    case Clear(n, nxt) =>
      if n < |s.next| then s.(next := s.next[n := Null], collector := FreeRead(n, nxt)) else s
    case FreeRead(n, nxt) =>
      if n < |s.next| then s.(next := s.next[n := s.freeHead], collector := FreeCas(n, nxt)) else s
    case FreeCas(n, nxt) =>
      if n >= |s.next| || n >= |s.place| then s
      else if s.next[n] != s.freeHead then s.(collector := FreeRead(n, nxt))
      else s.(freeHead := To(n), free := [n] + s.free, place := s.place[n := OnFree], collector := Visit(nxt))
    case _ => s
  }

  predicate InPop(c: Client) {
    c.PopHead? || c.PopNext? || c.PopCas? || c.PopClear?
  }

  predicate Enabled(s: State, a: Action) {
    match a
    case StartPop(t) =>
      && t < |s.threads| && s.threads[t].Empty?
      && forall u :: 0 <= u < |s.threads| ==> !InPop(s.threads[u])
    case StartPush(t, _) => t < |s.threads| && s.threads[t].Holding?
    case Step(t) => t < |s.threads| && !s.threads[t].Empty? && !s.threads[t].Holding?
    case StartCollect => s.collector.Resting?
    case Decide(_) => s.collector.Judge?
    case Collect => !s.collector.Resting? && !s.collector.Judge? && !s.collector.Failed?
  }

  function Apply(s: State, a: Action): State
    requires Enabled(s, a)
  {
    match a
    case StartPop(t) => SetThread(s, t, PopHead)
    case StartPush(t, gc) => SetThread(s, t, PushRead(s.threads[t].n, gc))
    case Step(t) => ClientStep(s, t)
    case StartCollect => s.(collector := ScanHead)
    case Decide(protected) =>
      var Judge(n, nxt) := s.collector;
      s.(collector := if protected then Visit(nxt) else Remove(n, nxt, Head, Test))
    case Collect => CollectorStep(s)
  }

  predicate Init(s: State) {
    && s.gcHead == End && s.freeHead == End && s.next == [] && s.collector == Resting
    && s.gc == [] && s.free == [] && s.place == [] && s.snapshot == [] && s.visited == []
    && s.fixedHead == End && s.fixedLink == [] && s.fixed == [] && s.present == [] && s.scanned == []
    && forall t :: 0 <= t < |s.threads| ==> s.threads[t].Empty?
  }

  predicate Runs(s: State, run: seq<Action>)
    decreases |run|
  {
    run == [] || (Enabled(s, run[0]) && Runs(Apply(s, run[0]), run[1..]))
  }

  function After(s: State, run: seq<Action>): State
    requires Runs(s, run)
    decreases |run|
  {
    if run == [] then s else After(Apply(s, run[0]), run[1..])
  }
}
