/** The collector thread, its registry of clients and its collection pass, as a step machine.

Any number of clients register, retire objects before and after, and deregister, while one collector
thread runs passes.  `data_lock` is a mutex; the semaphore is the one-bit semaphore of `Semaphore`. */
module Registry {

  type Cid = nat

  datatype ClientState = Unregistered | Registered | Collecting | Deleting

  datatype ClientPc =
    | Outside
    | RegWait      // state checked, waiting for data_lock
    | RegPush      // locked: push_back on both vectors
    | RegStore     // locked: store k_REGISTERED
    | RegBind      // locked: store collector_thread, then unlock
    | Inside
    | DeregCas     // compare-exchange k_REGISTERED to k_DELETING, retried while collecting
    | DeregWait    // waiting for data_lock
    | DeregErase   // locked: find and erase
    | DeregStore   // locked: store k_UNREGISTERED, then unlock
    | Gone
    | Rejected     // a CHECK_ASSERT of RegisterClient fired

  datatype CollectorPc =
    | Begin                                         // Run calls Collect
    | LockWait(curr: nat, pending: bool)
    | Scan(curr: nat, pending: bool, ix: nat)       // locked: loop head
    | Have(curr: nat, pending: bool, ix: nat)       // locked: HaveDeletes
    | Cas(curr: nat, pending: bool, ix: nat)        // locked: k_REGISTERED to k_COLLECTING
    | Work(curr: nat, pending: bool, c: Cid)        // the client's Collect
    | Check(curr: nat, pending: bool, c: Cid)       // its closing test of the gc list
    | Reset(curr: nat, pending: bool, c: Cid)       // k_COLLECTING back to k_REGISTERED
    | Finish(pending: bool)                         // Collect returns
    | Wait                                          // sema.Wait
    | Failed                                        // a CHECK_ASSERT fired

  datatype Holder = Nobody | ByClient(c: Cid) | ByPass

  /** Client `c` has `state[c]`, runs at `pc[c]`, has a collector_thread if `bound[c]` and a non-empty
      gc list if `gc[c]`; `tests[c]` retiring threads are between their push and their test of
      collector_thread, `owes[c]` between that test and their signal.  The rest is bookkeeping:
      `examined` and `collected` list the ids of this pass that were looked at and collected, and
      `stranded[c]` says that `c` was registered with records on its gc list while the collector
      was at rest with nothing posted, and that nobody has posted since. */
  datatype State = State(
    clients: seq<Cid>, ids: seq<nat>, idValue: nat, lock: Holder,
    state: seq<ClientState>, pc: seq<ClientPc>, bound: seq<bool>, gc: seq<bool>, tests: seq<nat>, owes: seq<nat>,
    sem: bool, collector: CollectorPc, examined: seq<nat>, collected: seq<nat>, stranded: seq<bool>)

  datatype Action =
    | Register(c: Cid) | Deregister(c: Cid) | Step(c: Cid)
    | Retire(c: Cid) | Test(c: Cid) | Signal(c: Cid)
    | Collect(left: bool)   // `left`: whether the client's Collect leaves records behind

  predicate Shape(s: State) {
    |s.pc| == |s.state| == |s.bound| == |s.gc| == |s.tests| == |s.owes| == |s.stranded|
  }

  function IndexOf(l: seq<Cid>, c: Cid): (i: nat)
    ensures i <= |l| && (i < |l| ==> l[i] == c) && (c in l ==> i < |l|)
    ensures forall j :: 0 <= j < i ==> l[j] != c
  {
    if l == [] then 0 else if l[0] == c then 0 else 1 + IndexOf(l[1..], c)
  }

  function SetPc(s: State, c: Cid, p: ClientPc): State
    requires c < |s.pc|
  {
    s.(pc := s.pc[c := p])
  }

  /** The collector will not look at anything until somebody posts. */
  predicate AtRest(s: State) {
    !s.sem && (s.collector.Wait? || s.collector == Finish(false))
  }

  /** sema.Post */
  function Post(s: State): State {
    s.(sem := true, stranded := seq(|s.stranded|, _ => false))
  }

  /** The search of DeregisterClient and the two erasures. */
  function Erase(s: State, c: Cid): (s': State)
    ensures s' == s.(clients := s'.clients, ids := s'.ids, pc := s'.pc) && |s'.pc| == |s.pc|
    ensures forall d :: 0 <= d < |s.pc| && d != c ==> s'.pc[d] == s.pc[d]
    ensures c < |s.pc| ==> s'.pc[c] == s.pc[c] || s'.pc[c] == DeregStore
  {
    var i := IndexOf(s.clients, c);
    if i < |s.clients| && i < |s.ids| && c < |s.pc| then
      SetPc(s.(clients := s.clients[..i] + s.clients[i + 1..], ids := s.ids[..i] + s.ids[i + 1..]), c, DeregStore)
    else s  // CHECK_ASSERT(false)
  }

  function ClientStep(s: State, c: Cid): (s': State)
    requires Shape(s) && c < |s.pc|
    ensures Shape(s') && |s'.pc| == |s.pc|
  {
    match s.pc[c]
    case RegWait => if s.lock.Nobody? then SetPc(s.(lock := ByClient(c)), c, RegPush) else s
    case RegPush =>
      SetPc(s.(clients := s.clients + [c], ids := s.ids + [s.idValue + 1], idValue := s.idValue + 1), c, RegStore)
    case RegStore => SetPc(s.(state := s.state[c := Registered]), c, RegBind)
    case RegBind =>
      SetPc(s.(bound := s.bound[c := true], stranded := s.stranded[c := s.gc[c] && AtRest(s)], lock := Nobody), c, Inside)
    case DeregCas =>
      if s.state[c] == Registered then SetPc(s.(state := s.state[c := Deleting]), c, DeregWait)
      else s  // asserts that the state is k_COLLECTING, then retries
    case DeregWait => if s.lock.Nobody? then SetPc(s.(lock := ByClient(c)), c, DeregErase) else s
    case DeregErase => Erase(s, c)
    case DeregStore => SetPc(s.(state := s.state[c := Unregistered], lock := Nobody), c, Gone)
    case _ => s
  }

  function CollectorStep(s: State, left: bool): (s': State)
    requires Shape(s)
    ensures Shape(s') && s'.pc == s.pc
  {
    match s.collector
    case Begin => s.(collector := LockWait(0, false), examined := [], collected := [])
    case LockWait(curr, pending) =>
      if s.lock.Nobody? then s.(lock := ByPass, collector := Scan(curr, pending, 0)) else s
    case Scan(curr, pending, ix) =>
      if ix >= |s.ids| then s.(lock := Nobody, collector := Finish(pending))
      else if s.ids[ix] <= curr then s.(collector := Scan(curr, pending, ix + 1))
      else s.(collector := Have(s.ids[ix], pending, ix), examined := s.examined + [s.ids[ix]])
    case Have(curr, pending, ix) =>
      if ix < |s.clients| && s.clients[ix] < |s.gc| && s.gc[s.clients[ix]]
      then s.(collector := Cas(curr, pending, ix))
      else s.(collector := Scan(curr, pending, ix + 1))
    case Cas(curr, pending, ix) =>
      if ix >= |s.clients| || s.clients[ix] >= |s.state| then s.(collector := Failed)
      else if s.state[s.clients[ix]] == Registered then
        s.(state := s.state[s.clients[ix] := Collecting], lock := Nobody,
           collector := Work(curr, pending, s.clients[ix]), collected := s.collected + [curr])
      else if s.state[s.clients[ix]] == Deleting then s.(collector := Scan(curr, pending, ix + 1))
      else s.(collector := Failed)
    case Work(curr, pending, c) =>
      if c < |s.gc| then s.(gc := s.gc[c := left], collector := Check(curr, pending, c)) else s.(collector := Failed)
    case Check(curr, pending, c) =>
      s.(collector := Reset(curr, pending || (c < |s.gc| && s.gc[c]), c))
    case Reset(curr, pending, c) =>
      if c < |s.state| && s.state[c] == Collecting
      then s.(state := s.state[c := Registered], collector := LockWait(curr, pending))
      else s.(collector := Failed)
    case Finish(pending) => (if pending then Post(s) else s).(collector := Wait)
    case Wait => if s.sem then s.(sem := false, collector := Begin) else s
    case Failed => s
  }

  /** RegisterClient's two checks, made before it takes the lock. */
  predicate MayRegister(s: State, c: Cid)
    requires Shape(s) && c < |s.pc|
  {
    s.state[c] == Unregistered && !s.bound[c]
  }

  /** Nobody retires through a client once its destructor has started. */
  predicate Enabled(s: State, a: Action) {
    && Shape(s)
    && match a
       case Register(c) => c < |s.pc| && s.pc[c] in {Outside, Gone}
       case Deregister(c) => c < |s.pc| && s.pc[c] == Inside
       case Step(c) => c < |s.pc| && s.pc[c] !in {Outside, Inside, Gone, Rejected}
       case Retire(c) => c < |s.pc| && s.pc[c] in {Outside, RegWait, RegPush, RegStore, RegBind, Inside}
       case Test(c) => c < |s.pc| && s.tests[c] > 0
       case Signal(c) => c < |s.pc| && s.owes[c] > 0
       case Collect(_) => !s.collector.Failed?
  }

  function Apply(s: State, a: Action): State
    requires Enabled(s, a)
  {
    match a
    case Register(c) => SetPc(s, c, if MayRegister(s, c) then RegWait else Rejected)
    case Deregister(c) => SetPc(s, c, DeregCas)
    case Step(c) => ClientStep(s, c)
    case Retire(c) => s.(gc := s.gc[c := true], tests := s.tests[c := s.tests[c] + 1])
    case Test(c) =>
      s.(tests := s.tests[c := s.tests[c] - 1], owes := s.owes[c := s.owes[c] + if s.bound[c] then 1 else 0])
    case Signal(c) => Post(s).(owes := s.owes[c := s.owes[c] - 1])
    case Collect(left) => CollectorStep(s, left)
  }

  predicate Init(s: State) {
    && Shape(s) && s.clients == [] && s.ids == [] && s.idValue == 0 && s.lock == Nobody
    && !s.sem && s.collector == Begin && s.examined == [] && s.collected == []
    && forall c :: 0 <= c < |s.pc| ==>
         && s.pc[c] == Outside && s.state[c] == Unregistered && !s.bound[c]
         && !s.gc[c] && s.tests[c] == 0 && s.owes[c] == 0 && !s.stranded[c]
  }

  predicate Runs(s: State, run: seq<Action>)
    decreases |run|
  {
    run == [] || (Enabled(s, run[0]) && Runs(Apply(s, run[0]), run[1..]))
  }

  function After(s: State, run: seq<Action>): State
    requires Runs(s, run)
    decreases |run|
  {
    if run == [] then s else After(Apply(s, run[0]), run[1..])
  }
}
