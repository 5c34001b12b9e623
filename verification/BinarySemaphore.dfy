/** binary_semaphore as an object whose gate is changed in place, each method one atomic statement of
    the source and one step of `Semaphore`. */
module BinarySemaphoreObject {
  import opened Semaphore

  class BinarySemaphore {
    var gate: int
    var threads: seq<Pc>
    ghost var initial: int
    ghost var posts: nat
    ghost var takes: nat

    ghost function View(): State
      reads this
    {
      State(gate, initial, posts, takes, threads)
    }

    ghost predicate Valid()
      reads this
    {
      Inv(View())
    }

    constructor (initialState: bool, n: nat)
      ensures Init(View()) && Valid() && (gate == 1 <==> initialState) && |threads| == n
    {
      gate := if initialState then 1 else 0;
      initial := if initialState then 1 else 0;
      posts, takes := 0, 0;
      threads := seq(n, _ => Idle);
    }

    method CompareExchange(expected: int, desired: int) returns (ok: bool)
      modifies `gate
      ensures ok == (old(gate) == expected) && gate == if ok then desired else old(gate)
    {
      ok := gate == expected;
      if ok {
        gate := desired;
      }
    }

    /** post's compare-exchange: a post on a raised gate collapses into the one already there. */
    method Post(t: Tid)
      requires Valid() && t < |threads| && threads[t].Idle?
      modifies this
      ensures Valid() && View() == Apply(old(View()), Action.Post(t))
      ensures gate == 1 && posts == old(posts) + (if old(gate) == 0 then 1 else 0)
    {
      ApplyKeeps(View(), Action.Post(t));
      var ok := CompareExchange(0, 1);
      if ok {
        threads, posts := threads[t := PostWake], posts + 1;
      }
    }

    method TryWait(t: Tid) returns (ok: bool)
      requires Valid() && t < |threads| && threads[t].Idle?
      modifies this
      ensures Valid() && View() == Apply(old(View()), Action.TryWait(t))
      ensures (ok <==> old(gate) == 1) && gate == 0 && takes == old(takes) + (if ok then 1 else 0)
    {
      ApplyKeeps(View(), Action.TryWait(t));
      ok := CompareExchange(1, 0);
      if ok {
        takes := takes + 1;
        assert threads[t := Idle] == threads;
      }
    }

    /** One turn of wait's retry loop, or post's wake of sleeper `u`. */
    method Step(t: Tid, u: Tid)
      requires Valid() && Enabled(View(), Action.Step(t, u))
      modifies this
      ensures Valid() && View() == Apply(old(View()), Action.Step(t, u))
      ensures |threads| == |old(threads)|
      ensures Waiting(old(threads)[t]) && threads[t].Idle? ==> old(gate) == 1 && gate == 0 && takes == old(takes) + 1
    {
      ApplyKeeps(View(), Action.Step(t, u));
      match threads[t]
      case PostWake =>
        if u < |threads| && threads[u].WaitSleep? {
          threads := threads[u := WaitTry];
        }
        threads := threads[t := Idle];
      case WaitTry =>
        var ok := CompareExchange(1, 0);
        if ok {
          threads, takes := threads[t := Idle], takes + 1;
        } else {
          threads := threads[t := WaitFutex];
        }
      case WaitFutex =>
        threads := threads[t := if gate == 0 then WaitSleep else WaitTry];
    }
  }
}
