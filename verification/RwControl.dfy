/** futex_rw_control as an object: the atomic statements of the source, updating the two shared words
    in place, each proved to be the corresponding step of `RwLock`. */
module RwControl {
  import opened RwLock
  import opened RwLockInvariant

  class FutexRwControl {
    var gate: int
    var nreaders: int
    var threads: seq<Thread>
    var version: nat  // write sections begun; bookkeeping, no branch reads it

    ghost function View(): State
      reads this
    {
      State(gate, nreaders, threads, version)
    }

    /** Everything `RwLockInvariant` proves of reachable states. */
    ghost predicate Valid()
      reads this
    {
      Inv(View())
    }

    constructor (n: nat)
      ensures Init(View()) && Valid() && |threads| == n
    {
      gate, nreaders, version := 0, 0, 0;
      threads := seq(n, _ => Thread(Idle, 0, Plain));
      new;
      InitInv(View());
    }

    // ---- Atomic operations on the shared words ----

    method CompareExchangeGate(expected: int, desired: int) returns (ok: bool, seen: int)
      modifies `gate
      ensures seen == old(gate) && ok == (seen == expected)
      ensures gate == if ok then desired else old(gate)
    {
      seen := gate;
      ok := seen == expected;
      if ok {
        gate := desired;
      }
    }

    method AddFetchReaders(delta: int) returns (result: int)
      modifies `nreaders
      ensures result == nreaders == old(nreaders) + delta
    {
      nreaders := nreaders + delta;
      result := nreaders;
    }

    method Goto(t: Tid, pc: Pc)
      requires t < |threads|
      modifies `threads
      ensures threads == old(threads)[t := old(threads)[t].(pc := pc)]
    {
      threads := threads[t := threads[t].(pc := pc)];
    }

    method WakeSleeper(u: Tid, onGate: bool)
      modifies `threads
      ensures View() == if onGate then WakeGate(old(View()), u) else WakeCount(old(View()), u)
    {
      if u < |threads| {
        if onGate && threads[u].pc.GateSleep? {
          Goto(u, GateSlow(threads[u].pc.e));
        } else if !onGate && threads[u].pc.WriteSleep? {
          Goto(u, WriteLoad(threads[u].pc.w));
        }
      }
    }

    // ---- The functions of the source, one statement at a time ----

    method EnterGate(t: Tid, ghost u: Tid)
      requires t < |threads| && (threads[t].pc.GateFast? || InContendedLoop(threads[t].pc))
      modifies `gate, `threads
      ensures View() == Advance(old(View()), t, u)
    {
      match threads[t].pc
      case GateFast(e) =>
        var ok, seen := CompareExchangeGate(0, 1);
        Goto(t, if ok then Entered(e) else GateMark(e, seen));
      case GateMark(e, expected) =>
        var wait := expected == 2;
        if !wait {
          var seen;
          wait, seen := CompareExchangeGate(expected, 2);
        }
        Goto(t, if wait then GateWait(e) else GateSlow(e));
      case GateWait(e) =>
        Goto(t, if gate == 2 then GateSleep(e) else GateSlow(e));
      case GateSlow(e) =>
        var ok, seen := CompareExchangeGate(0, 2);
        Goto(t, if ok then Entered(e) else GateMark(e, seen));
    }

    method LeaveGate(t: Tid, u: Tid)
      requires t < |threads|
      requires threads[t].pc.LeaveSub? || threads[t].pc.LeaveStore? || threads[t].pc.LeaveWake?
      modifies `gate, `threads
      ensures View() == Advance(old(View()), t, u)
    {
      match threads[t].pc
      case LeaveSub(x) =>
        var sampled := gate;
        gate := gate - 1;
        Goto(t, if sampled != 1 then LeaveStore(x) else Left(x));
      case LeaveStore(x) =>
        gate := 0;
        Goto(t, LeaveWake(x));
      case LeaveWake(x) =>
        WakeSleeper(u, true);
        Goto(t, Left(x));
    }

    method BeginWriting(t: Tid, w: Writer)
      requires t < |threads|
      modifies `threads, `version
      ensures View() == BeginWrite(old(View()), t, w)
    {
      var th := threads[t];
      var session := if th.session.Modifiable? && w != ByLock then Modifiable(true) else th.session;
      threads := threads[t := th.(pc := Writing(w), session := session)];
      version := version + 1;
    }

    /** The common tail of write_lock, try_write_modify and write_modify. */
    method DrainReaders(t: Tid, ghost u: Tid)
      requires t < |threads| && (threads[t].pc.WriteSub? || threads[t].pc.WriteWait? || threads[t].pc.WriteLoad?)
      modifies `nreaders, `threads, `version
      ensures View() == Advance(old(View()), t, u)
    {
      match threads[t].pc
      case WriteSub(w) =>
        var val := AddFetchReaders(-1);
        if 0 <= val {
          Goto(t, WriteWait(w, val));
        } else {
          BeginWriting(t, w);
        }
      case WriteWait(w, val) =>
        Goto(t, if nreaders == val then WriteSleep(w) else WriteLoad(w));
      case WriteLoad(w) =>
        var val := nreaders;
        if val >= 0 {
          Goto(t, WriteWait(w, val));
        } else {
          BeginWriting(t, w);
        }
    }

    /** The remaining statements of read_lock, read_unlock, try_write_modify and write_modify. */
    method ReaderStep(t: Tid, u: Tid)
      requires t < |threads|
      requires threads[t].pc.ReadAdd? || threads[t].pc.TryDrop? || OwesCountWake(threads[t].pc)
      modifies `nreaders, `threads
      ensures View() == Advance(old(View()), t, u)
    {
      match threads[t].pc
      case ReadAdd =>
        var _ := AddFetchReaders(1);
        threads := threads[t := threads[t].(pc := LeaveSub(AfterRead), seen := version)];
      case TryDrop =>
        var _ := AddFetchReaders(-1);
        Goto(t, WriteSub(ByTry));
      case UnlockWake =>
        WakeSleeper(u, false);
        Goto(t, Idle);
      case ModifyWake =>
        WakeSleeper(u, false);
        Goto(t, GateFast(ForModify));
    }

    /** One step of thread `t`, keeping everything proved of the lock. */
    method Step(t: Tid, u: Tid)
      requires Valid() && Enabled(View(), RwLock.Step(t, u))
      modifies this
      ensures Valid() && View() == Apply(old(View()), RwLock.Step(t, u))
    {
      ApplyKeeps(View(), RwLock.Step(t, u));
      var pc := threads[t].pc;
      if pc.GateFast? || InContendedLoop(pc) {
        EnterGate(t, u);
      } else if pc.LeaveSub? || pc.LeaveStore? || pc.LeaveWake? {
        LeaveGate(t, u);
      } else if pc.WriteSub? || pc.WriteWait? || pc.WriteLoad? {
        DrainReaders(t, u);
      } else {
        ReaderStep(t, u);
      }
    }

    /** read_unlock's decrement, with its assertion. */
    method ReadUnlock(t: Tid)
      requires Valid() && t < |threads| && threads[t].pc.Reading? && threads[t].session.Plain?
      modifies `nreaders, `threads
      ensures Valid() && View() == Apply(old(View()), Start(t, Call.ReadUnlock))
    {
      ApplyKeeps(View(), Start(t, Call.ReadUnlock));
      LastReader(View(), t);
      var result := AddFetchReaders(-1);
      assert 0 > result ==> result == -1;  // the assertion in read_unlock
      Goto(t, if 0 > result then UnlockWake else Idle);
    }

    method TryWriteModify(t: Tid) returns (entered: bool)
      requires Valid() && t < |threads| && threads[t].pc.Reading? && threads[t].session.Plain?
      modifies `gate, `threads
      ensures Valid() && View() == Apply(old(View()), Start(t, TryModify))
      ensures (entered <==> old(gate) == 0) && (!entered ==> View() == old(View()))
    {
      ApplyKeeps(View(), Start(t, TryModify));
      var seen;
      entered, seen := CompareExchangeGate(0, 1);
      if entered {
        Goto(t, TryDrop);
      }
    }

    method WriteUnlock(t: Tid)
      requires Valid() && t < |threads| && threads[t].pc.Writing? && threads[t].session.Plain?
      modifies `nreaders, `threads
      ensures Valid() && View() == Apply(old(View()), Start(t, Call.WriteUnlock))
    {
      ApplyKeeps(View(), Start(t, Call.WriteUnlock));
      nreaders := 0;
      Goto(t, LeaveSub(AfterWrite));
    }

    /** write_modify's decrement; it then enters the gate like any writer. */
    method WriteModify(t: Tid)
      requires Valid() && t < |threads| && threads[t].pc.Reading? && threads[t].session.Plain?
      modifies `nreaders, `threads
      ensures Valid() && View() == Apply(old(View()), Start(t, Modify))
    {
      ApplyKeeps(View(), Start(t, Modify));
      var result := AddFetchReaders(-1);
      Goto(t, if 0 > result then ModifyWake else GateFast(ForModify));
    }

    // ---- fu_read_modifiable_lock, whose flag is `threads[t].session.modified` ----

    method EndSession(t: Tid)
      requires t < |threads|
      modifies `threads
      ensures threads == old(threads)[t := old(threads)[t].(session := Plain)]
    {
      threads := threads[t := threads[t].(session := Plain)];
    }

    /** unlock: the flag picks the release, and it is the release of the hold the session has. */
    method SessionUnlock(t: Tid)
      requires Valid() && t < |threads| && MayCall(threads[t], Call.SessionUnlock)
      modifies `nreaders, `threads
      ensures Valid() && View() == Apply(old(View()), Start(t, Call.SessionUnlock))
      ensures old(threads[t].pc).Writing? <==> threads[t].pc == LeaveSub(AfterWrite)
    {
      ApplyKeeps(View(), Start(t, Call.SessionUnlock));
      assert SessionOk(threads[t]);
      var modified := threads[t].session.modified;
      EndSession(t);
      if modified {
        nreaders := 0;
        Goto(t, LeaveSub(AfterWrite));
      } else {
        var result := AddFetchReaders(-1);
        Goto(t, if 0 > result then UnlockWake else Idle);
      }
    }

    /** try_write_modify of a session: true once upgraded or upgrading, with nothing to do in the first
        case; false, with nothing changed, when somebody owns the gate. */
    method SessionTryWriteModify(t: Tid) returns (writeModified: bool)
      requires Valid() && t < |threads| && MayCall(threads[t], SessionTryModify)
      modifies `gate, `threads
      ensures Valid() && View() == Apply(old(View()), Start(t, SessionTryModify))
      ensures writeModified <==> old(threads[t].pc).Writing? || old(gate) == 0
      ensures writeModified <==> threads[t].pc.Writing? || threads[t].pc.TryDrop?
      ensures old(threads[t].pc).Writing? || !writeModified ==> View() == old(View())
    {
      ApplyKeeps(View(), Start(t, SessionTryModify));
      assert SessionOk(threads[t]);
      writeModified := threads[t].session.modified;
      if !writeModified {
        var seen;
        writeModified, seen := CompareExchangeGate(0, 1);
        if writeModified {
          Goto(t, TryDrop);
        }
      }
    }
  }
}
