/** The futex read/write lock as a sequentially consistent step machine.

One step is one atomic operation, one plain shared access or one futex call.  Any number of
threads run; thread `t` is index `t` of `State.threads`. */
module RwLock {

  type Tid = nat

  /** Which operation is passing through `enter_gate`. */
  datatype Entry = ForRead | ForWrite | ForModify

  /** Which operation made its caller a writer. */
  datatype Writer = ByLock | ByModify | ByTry

  /** Which operation is passing through `leave_gate`. */
  datatype Exit = AfterRead | AfterWrite

  /** Program counter, with the locals `expected` and `val_nreaders` where they are live. */
  datatype Pc =
    | Idle
    | GateFast(e: Entry)                // first compare-exchange, 0 to 1
    | GateMark(e: Entry, expected: int) // contended: test for 2, or compare-exchange to 2
    | GateWait(e: Entry)                // about to call futex_wait(gate, 2)
    | GateSleep(e: Entry)               // asleep on the gate
    | GateSlow(e: Entry)                // closing compare-exchange of the loop, 0 to 2
    | ReadAdd                           // increment of nreaders, gate held
    | LeaveSub(x: Exit)                 // fetch_sub of the gate
    | LeaveStore(x: Exit)               // store of 0 into a contended gate
    | LeaveWake(x: Exit)                // futex_wake(gate, 1)
    | Reading
    | UnlockWake                        // read_unlock's futex_wake(nreaders, 1)
    | ModifyWake                        // write_modify's futex_wake(nreaders, 1)
    | TryDrop                           // try_write_modify drops the caller's read count
    | WriteSub(w: Writer)               // the decrement that marks a writer
    | WriteWait(w: Writer, val: int)    // about to call futex_wait(nreaders, val)
    | WriteSleep(w: Writer)             // asleep on nreaders
    | WriteLoad(w: Writer)              // reload of nreaders
    | Writing(w: Writer)

  /** `Modifiable` is a fu_read_modifiable_lock object in use, with its write_modified flag. */
  datatype Session = Plain | Modifiable(modified: bool)

  /** `seen` records the version at the thread's latest read_lock increment. */
  datatype Thread = Thread(pc: Pc, seen: nat, session: Session)

  /** `version` counts the write sections begun so far; no branch depends on it. */
  datatype State = State(gate: int, nreaders: int, threads: seq<Thread>, version: nat)

  datatype Call =
    | ReadLock | WriteLock | ReadUnlock | WriteUnlock | TryModify | Modify
    | SessionLock | SessionUnlock | SessionTryModify | SessionModify

  /** `u` is the thread a futex_wake picks, if any thread sleeps on its word. */
  datatype Action =
    | Start(t: Tid, call: Call)
    | Step(t: Tid, u: Tid)
    | Spurious(t: Tid)

  // ---- Steps ----

  function Set(s: State, t: Tid, pc: Pc): State
    requires t < |s.threads|
  {
    s.(threads := s.threads[t := s.threads[t].(pc := pc)])
  }

  /** Where a thread goes once it owns the gate. */
  function Entered(e: Entry): Pc {
    match e
    case ForRead => ReadAdd
    case ForWrite => WriteSub(ByLock)
    case ForModify => WriteSub(ByModify)
  }

  /** Where a thread goes once `leave_gate` has returned. */
  function Left(x: Exit): Pc {
    match x
    case AfterRead => Reading
    case AfterWrite => Idle
  }

  function WakeGate(s: State, u: Tid): State {
    if u < |s.threads| && s.threads[u].pc.GateSleep? then Set(s, u, GateSlow(s.threads[u].pc.e)) else s
  }

  function WakeCount(s: State, u: Tid): State {
    if u < |s.threads| && s.threads[u].pc.WriteSleep? then Set(s, u, WriteLoad(s.threads[u].pc.w)) else s
  }

  /** The caller becomes the active writer; a session records a successful upgrade. */
  function BeginWrite(s: State, t: Tid, w: Writer): State
    requires t < |s.threads|
  {
    var th := s.threads[t];
    var session := if th.session.Modifiable? && w != ByLock then Modifiable(true) else th.session;
    s.(version := s.version + 1, threads := s.threads[t := th.(pc := Writing(w), session := session)])
  }

  /** read_unlock's first step, also write_modify's: drop a count, wake a writer if it went negative. */
  function DropCount(s: State, t: Tid, wake: Pc, done: Pc): State
    requires t < |s.threads|
  {
    var result := s.nreaders - 1;
    Set(s.(nreaders := result), t, if 0 > result then wake else done)
  }

  function StartReadUnlock(s: State, t: Tid): State
    requires t < |s.threads|
  {
    DropCount(s, t, UnlockWake, Idle)
  }

  function StartWriteUnlock(s: State, t: Tid): State
    requires t < |s.threads|
  {
    Set(s.(nreaders := 0), t, LeaveSub(AfterWrite))
  }

  function StartTryModify(s: State, t: Tid): State
    requires t < |s.threads|
  {
    if s.gate == 0 then Set(s.(gate := 1), t, TryDrop) else s
  }

  function SetSession(s: State, t: Tid, session: Session): State
    requires t < |s.threads|
  {
    s.(threads := s.threads[t := s.threads[t].(session := session)])
  }

  /** The first atomic operation of a call. */
  function StartCall(s: State, t: Tid, c: Call): State
    requires t < |s.threads|
  {
    match c
    case ReadLock => Set(s, t, GateFast(ForRead))
    case WriteLock => Set(s, t, GateFast(ForWrite))
    case ReadUnlock => StartReadUnlock(s, t)
    case WriteUnlock => StartWriteUnlock(s, t)
    case TryModify => StartTryModify(s, t)
    case Modify => DropCount(s, t, ModifyWake, GateFast(ForModify))
    case SessionLock => SetSession(Set(s, t, GateFast(ForRead)), t, Modifiable(false))
    case SessionUnlock =>
      var s1 := SetSession(s, t, Plain);
      if s.threads[t].session.Modifiable? && s.threads[t].session.modified
      then StartWriteUnlock(s1, t) else StartReadUnlock(s1, t)
    case SessionTryModify =>
      if s.threads[t].session.Modifiable? && !s.threads[t].session.modified then StartTryModify(s, t) else s
    case SessionModify => DropCount(s, t, ModifyWake, GateFast(ForModify))
  }

  /** What the lock's own rules demand of callers: no recursion, and release what is held. */
  predicate MayCall(th: Thread, c: Call) {
    match c
    case ReadLock | WriteLock | SessionLock => th.pc.Idle?
    case ReadUnlock | TryModify | Modify => th.pc.Reading? && th.session.Plain?
    case WriteUnlock => th.pc.Writing? && th.session.Plain?
    case SessionUnlock | SessionTryModify => (th.pc.Reading? || th.pc.Writing?) && th.session.Modifiable?
    case SessionModify => th.pc.Reading? && th.session == Modifiable(false)
  }

  /** Everything after the first operation of a call. */
  function Advance(s: State, t: Tid, u: Tid): State
    requires t < |s.threads|
  {
    var th := s.threads[t];
    match th.pc
    case GateFast(e) =>
      if s.gate == 0 then Set(s.(gate := 1), t, Entered(e)) else Set(s, t, GateMark(e, s.gate))
    case GateMark(e, expected) =>
      if expected == 2 then Set(s, t, GateWait(e))
      else if s.gate == expected then Set(s.(gate := 2), t, GateWait(e))
      else Set(s, t, GateSlow(e))
    case GateWait(e) => Set(s, t, if s.gate == 2 then GateSleep(e) else GateSlow(e))
    case GateSlow(e) =>
      if s.gate == 0 then Set(s.(gate := 2), t, Entered(e)) else Set(s, t, GateMark(e, s.gate))
    case ReadAdd =>
      s.(nreaders := s.nreaders + 1,
         threads := s.threads[t := th.(pc := LeaveSub(AfterRead), seen := s.version)])
    case LeaveSub(x) => Set(s.(gate := s.gate - 1), t, if s.gate != 1 then LeaveStore(x) else Left(x))
    case LeaveStore(x) => Set(s.(gate := 0), t, LeaveWake(x))
    case LeaveWake(x) => Set(WakeGate(s, u), t, Left(x))
    case UnlockWake => Set(WakeCount(s, u), t, Idle)
    case ModifyWake => Set(WakeCount(s, u), t, GateFast(ForModify))
    case TryDrop => Set(s.(nreaders := s.nreaders - 1), t, WriteSub(ByTry))
    case WriteSub(w) =>
      var val := s.nreaders - 1;
      var s1 := s.(nreaders := val);
      if 0 <= val then Set(s1, t, WriteWait(w, val)) else BeginWrite(s1, t, w)
    case WriteWait(w, val) => Set(s, t, if s.nreaders == val then WriteSleep(w) else WriteLoad(w))
    case WriteLoad(w) =>
      if s.nreaders >= 0 then Set(s, t, WriteWait(w, s.nreaders)) else BeginWrite(s, t, w)
    case _ => s
  }

  predicate Runnable(pc: Pc) {
    !pc.Idle? && !pc.Reading? && !pc.Writing? && !Asleep(pc)
  }

  predicate Asleep(pc: Pc) {
    pc.GateSleep? || pc.WriteSleep?
  }

  /** futex_wake wakes a sleeper whenever there is one. */
  ghost predicate WakeChoiceOk(s: State, t: Tid, u: Tid)
    requires t < |s.threads|
  {
    match s.threads[t].pc
    case LeaveWake(_) => (exists v :: 0 <= v < |s.threads| && s.threads[v].pc.GateSleep?) ==>
                           u < |s.threads| && s.threads[u].pc.GateSleep?
    case UnlockWake => (exists v :: 0 <= v < |s.threads| && s.threads[v].pc.WriteSleep?) ==>
                         u < |s.threads| && s.threads[u].pc.WriteSleep?
    case ModifyWake => (exists v :: 0 <= v < |s.threads| && s.threads[v].pc.WriteSleep?) ==>
                         u < |s.threads| && s.threads[u].pc.WriteSleep?
    case _ => true
  }

  ghost predicate Enabled(s: State, a: Action) {
    && a.t < |s.threads|
    && match a
       case Start(t, c) => MayCall(s.threads[t], c)
       case Step(t, u) => Runnable(s.threads[t].pc) && WakeChoiceOk(s, t, u)
       case Spurious(t) => Asleep(s.threads[t].pc)
  }

  function Apply(s: State, a: Action): State
    requires a.t < |s.threads|
  {
    match a
    case Start(t, c) => StartCall(s, t, c)
    case Step(t, u) => Advance(s, t, u)
    case Spurious(t) => WakeCount(WakeGate(s, t), t)
  }

  /** A fresh lock: nobody holds or wants it. */
  predicate Init(s: State) {
    && s.gate == 0 && s.nreaders == 0
    && forall t :: 0 <= t < |s.threads| ==> s.threads[t].pc.Idle? && s.threads[t].session.Plain?
  }

  ghost predicate Runs(s: State, run: seq<Action>)
    decreases |run|
  {
    run == [] || (Enabled(s, run[0]) && Runs(Apply(s, run[0]), run[1..]))
  }

  ghost function After(s: State, run: seq<Action>): State
    requires Runs(s, run)
    decreases |run|
  {
    if run == [] then s else After(Apply(s, run[0]), run[1..])
  }

  ghost predicate Reachable(s: State) {
    exists s0, run :: Init(s0) && Runs(s0, run) && After(s0, run) == s
  }
}
