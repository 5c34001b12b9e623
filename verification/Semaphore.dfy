/** The binary semaphore over a futex, as a step machine for any number of threads. */
module Semaphore {

  type Tid = nat

  datatype Pc =
    | Idle
    | PostWake  // post raised the gate and owes futex_wake(gate, 1)
    | WaitTry   // wait's compare-exchange, 1 to 0
    | WaitFutex // about to call futex_wait(gate, 0)
    | WaitSleep // asleep on the gate

  /** `initial`, `posts` and `takes` are bookkeeping: the starting value, the posts that raised the
      gate and the waits that lowered it. */
  datatype State = State(gate: int, initial: int, posts: nat, takes: nat, threads: seq<Pc>)

  /** `u` is the sleeper that a futex_wake picks, if there is one. */
  datatype Action = Post(t: Tid) | Wait(t: Tid) | TryWait(t: Tid) | Step(t: Tid, u: Tid) | Spurious(t: Tid)

  function Set(s: State, t: Tid, pc: Pc): State
    requires t < |s.threads|
  {
    s.(threads := s.threads[t := pc])
  }

  function Wake(s: State, u: Tid): State {
    if u < |s.threads| && s.threads[u].WaitSleep? then Set(s, u, WaitTry) else s
  }

  function Take(s: State, t: Tid): State
    requires t < |s.threads|
  {
    Set(s.(gate := 0, takes := s.takes + 1), t, Idle)
  }

  function Apply(s: State, a: Action): State
    requires a.t < |s.threads|
  {
    match a
    case Post(t) => if s.gate == 0 then Set(s.(gate := 1, posts := s.posts + 1), t, PostWake) else s
    case Wait(t) => Set(s, t, WaitTry)
    case TryWait(t) => if s.gate == 1 then Take(s, t) else s
    case Spurious(t) => Wake(s, t)
    case Step(t, u) => (
      match s.threads[t]
      case PostWake => Set(Wake(s, u), t, Idle)
      case WaitTry => if s.gate == 1 then Take(s, t) else Set(s, t, WaitFutex)
      case WaitFutex => Set(s, t, if s.gate == 0 then WaitSleep else WaitTry)
      case _ => s
    )
  }

  ghost predicate Enabled(s: State, a: Action) {
    && a.t < |s.threads|
    && match a
       case Post(t) => s.threads[t].Idle?
       case Wait(t) => s.threads[t].Idle?
       case TryWait(t) => s.threads[t].Idle?
       case Spurious(t) => s.threads[t].WaitSleep?
       case Step(t, u) =>
         && (s.threads[t].PostWake? || s.threads[t].WaitTry? || s.threads[t].WaitFutex?)
         && (s.threads[t].PostWake? && WaitSleep in s.threads ==> u < |s.threads| && s.threads[u].WaitSleep?)
  }

  predicate Init(s: State) {
    && s.gate in {0, 1} && s.initial == s.gate && s.posts == 0 && s.takes == 0
    && forall t :: 0 <= t < |s.threads| ==> s.threads[t].Idle?
  }

  ghost predicate Runs(s: State, run: seq<Action>)
    decreases |run|
  {
    run == [] || (Enabled(s, run[0]) && Runs(Apply(s, run[0]), run[1..]))
  }

  ghost function After(s: State, run: seq<Action>): State
    requires Runs(s, run)
    decreases |run|
  {
    if run == [] then s else After(Apply(s, run[0]), run[1..])
  }

  // ---- Invariant ----

  /** A raised gate with a sleeper has somebody on the way to claim it. */
  ghost predicate NotForgotten(s: State) {
    s.gate == 1 && WaitSleep in s.threads ==>
      exists t :: 0 <= t < |s.threads| && (s.threads[t].PostWake? || s.threads[t].WaitTry? || s.threads[t].WaitFutex?)
  }

  ghost predicate Inv(s: State) {
    && s.gate in {0, 1}
    && s.gate == s.initial + s.posts - s.takes
    && NotForgotten(s)
  }

  lemma WakeKeeps(s: State, u: Tid)
    requires Inv(s)
    ensures Inv(Wake(s, u))
    ensures Wake(s, u) != s ==> Wake(s, u).threads[u].WaitTry?
  {
    var s' := Wake(s, u);
    if s' != s {
      assert s'.threads[u].WaitTry?;
    }
  }

  /** Changing one awake thread keeps the claim as long as its successor, or another, still has it. */
  lemma SetKeeps(s: State, t: Tid, pc: Pc)
    requires Inv(s) && t < |s.threads|
    requires s.gate == 0 || !pc.WaitSleep?
    requires s.gate == 0 || s.threads[t].Idle? || pc.WaitTry? || pc.WaitFutex? || pc.PostWake?
    ensures Inv(Set(s, t, pc))
  {
    var s' := Set(s, t, pc);
    if s'.gate == 1 && WaitSleep in s'.threads {
      var i :| 0 <= i < |s'.threads| && s'.threads[i].WaitSleep?;
      assert s.threads[i].WaitSleep?;
      var c :| 0 <= c < |s.threads| && (s.threads[c].PostWake? || s.threads[c].WaitTry? || s.threads[c].WaitFutex?);
      if c == t {
        assert !s'.threads[t].WaitSleep?;
      } else {
        assert s'.threads[c] == s.threads[c];
      }
    }
  }

  /** The woken thread carries the claim on once the poster is done. */
  lemma PostWakeKeeps(s: State, t: Tid, u: Tid)
    requires Inv(s) && Enabled(s, Step(t, u)) && s.threads[t].PostWake?
    ensures Inv(Apply(s, Step(t, u)))
  {
    WakeKeeps(s, u);
    var s' := Apply(s, Step(t, u));
    if s'.gate == 1 && WaitSleep in s'.threads {
      var i :| 0 <= i < |s'.threads| && s'.threads[i].WaitSleep?;
      assert s.threads[i].WaitSleep?;
      assert s'.threads[u].WaitTry?;
    }
  }

  lemma ApplyKeeps(s: State, a: Action)
    requires Inv(s) && Enabled(s, a)
    ensures Inv(Apply(s, a))
  {
    match a
    case Post(t) =>
      if s.gate == 0 {
        assert Apply(s, a).threads[t].PostWake?;
      }
    case Wait(t) => SetKeeps(s, t, WaitTry);
    case TryWait(t) =>
    case Spurious(t) => WakeKeeps(s, t);
    case Step(t, u) =>
      if s.threads[t].PostWake? {
        PostWakeKeeps(s, t, u);
      } else if s.threads[t].WaitTry? {
        if s.gate == 0 {
          SetKeeps(s, t, WaitFutex);
        }
      } else {
        SetKeeps(s, t, if s.gate == 0 then WaitSleep else WaitTry);
      }
  }

  lemma {:induction false} RunsKeep(s: State, run: seq<Action>)
    requires Inv(s) && Runs(s, run)
    ensures Inv(After(s, run))
    decreases |run|
  {
    if run != [] {
      ApplyKeeps(s, run[0]);
      RunsKeep(Apply(s, run[0]), run[1..]);
    }
  }

  // ---- Theorems ----

  ghost predicate Reachable(s: State) {
    exists s0, run :: Init(s0) && Runs(s0, run) && After(s0, run) == s
  }

  /** Conservation: the gate is the initial value plus effective posts minus successful waits, and
      it is one bit. */
  lemma TokenConservation(s: State)
    requires Reachable(s)
    ensures s.gate == s.initial + s.posts - s.takes
    ensures s.gate in {0, 1}
  {
    ReachableInv(s);
  }

  lemma ReachableInv(s: State)
    requires Reachable(s)
    ensures Inv(s)
  {
    var s0, run :| Init(s0) && Runs(s0, run) && After(s0, run) == s;
    RunsKeep(s0, run);
  }

  /** No lost post: while the gate is raised and somebody sleeps, a wake is pending or an awake
      waiter is in the retry loop. */
  lemma NoLostPost(s: State)
    requires Reachable(s) && s.gate == 1 && WaitSleep in s.threads
    ensures exists t :: 0 <= t < |s.threads|
                        && (s.threads[t].PostWake? || s.threads[t].WaitTry? || s.threads[t].WaitFutex?)
  {
    ReachableInv(s);
  }

  lemma TryTakes(s: State, t: Tid)
    requires t < |s.threads| && s.threads[t].WaitTry? && s.gate == 1
    ensures Runs(s, [Step(t, t)]) && After(s, [Step(t, t)]).takes == s.takes + 1
  {
    var s1 := Apply(s, Step(t, t));
    assert Runs(s1, []) && After(s1, []) == s1;
    assert [Step(t, t)][1..] == [];
  }

  lemma ThenTry(s: State, a: Action, t: Tid)
    requires Enabled(s, a)
    requires var s1 := Apply(s, a); t < |s1.threads| && s1.threads[t].WaitTry? && s1.gate == 1 && s1.takes == s.takes
    ensures Runs(s, [a, Step(t, t)]) && After(s, [a, Step(t, t)]).takes == s.takes + 1
  {
    TryTakes(Apply(s, a), t);
    assert [a, Step(t, t)][1..] == [Step(t, t)];
  }

  /** A post is never wasted on sleepers: at most two steps of threads already inside the semaphore,
      and no spurious wake, hand the raised gate to a waiter. */
  lemma RaisedGateIsClaimed(s: State) returns (run: seq<Action>)
    requires Reachable(s) && s.gate == 1 && WaitSleep in s.threads
    ensures |run| <= 2 && (forall a :: a in run ==> a.Step?)
    ensures Runs(s, run) && After(s, run).takes == s.takes + 1
  {
    NoLostPost(s);
    var t :| 0 <= t < |s.threads| && (s.threads[t].PostWake? || s.threads[t].WaitTry? || s.threads[t].WaitFutex?);
    if s.threads[t].WaitTry? {
      TryTakes(s, t);
      run := [Step(t, t)];
    } else if s.threads[t].WaitFutex? {
      ThenTry(s, Step(t, t), t);
      run := [Step(t, t), Step(t, t)];
    } else {
      var u :| 0 <= u < |s.threads| && s.threads[u].WaitSleep?;
      ThenTry(s, Step(t, u), u);
      run := [Step(t, u), Step(u, u)];
    }
  }

  // ---- What the operations return with ----

  predicate Waiting(pc: Pc) {
    pc.WaitTry? || pc.WaitFutex? || pc.WaitSleep?
  }

  /** A wait returns in this step, or a try_wait that finds the gate raised is made. */
  predicate Returns(s: State, a: Action)
    requires a.t < |s.threads|
  {
    match a
    case Step(t, _) => Waiting(s.threads[t]) && t < |Apply(s, a).threads| && Apply(s, a).threads[t].Idle?
    case TryWait(_) => s.gate == 1
    case Wait(t) => t < |Apply(s, a).threads| && Apply(s, a).threads[t].Idle?
    case _ => false
  }

  predicate Raises(s: State, a: Action) {
    a.Post? && s.gate == 0
  }

  /** post leaves the gate raised, whatever it was, and counts exactly if it was not. */
  lemma PostRaises(s: State, t: Tid)
    requires Inv(s) && Enabled(s, Post(t))
    ensures var s' := Apply(s, Post(t));
            && s'.gate == 1 && s'.takes == s.takes
            && s'.posts == s.posts + (if s.gate == 0 then 1 else 0)
            && |s'.threads| == |s.threads| && (s'.threads[t].PostWake? <==> s.gate == 0)
  {
  }

  /** A waiting thread leaves the semaphore only with a token: it found the gate raised and lowered it. */
  lemma WaitReturnsWithToken(s: State, a: Action, t: Tid)
    requires Inv(s) && Enabled(s, a) && t < |s.threads| && Waiting(s.threads[t])
    ensures |Apply(s, a).threads| == |s.threads|
    ensures var s' := Apply(s, a);
            && (Waiting(s'.threads[t]) || s'.threads[t].Idle?)
            && (s'.threads[t].Idle? ==> a.Step? && a.t == t && s.gate == 1 && s'.gate == 0 && s'.takes == s.takes + 1)
  {
  }

  /** How many waits return in `run` (`waits`), or how many posts raise the gate. */
  ghost function Count(s: State, run: seq<Action>, waits: bool): nat
    requires Runs(s, run)
    decreases |run|
  {
    if run == [] then 0
    else
      var now := if waits then Returns(s, run[0]) else Raises(s, run[0]);
      (if now then 1 else 0) + Count(Apply(s, run[0]), run[1..], waits)
  }

  lemma StepCounts(s: State, a: Action)
    requires Inv(s) && Enabled(s, a)
    ensures var s' := Apply(s, a);
            && |s'.threads| == |s.threads|
            && s'.takes == s.takes + (if Returns(s, a) then 1 else 0)
            && s'.posts == s.posts + (if Raises(s, a) then 1 else 0)
  {
  }

  /** Conservation over every run: the gate is what it was, plus the posts that found it lowered, minus
      the waits and successful try_waits that returned. */
  lemma {:induction false} RunConservation(s: State, run: seq<Action>)
    requires Inv(s) && Runs(s, run)
    ensures var s' := After(s, run);
            && s'.gate == s.gate + Count(s, run, false) - Count(s, run, true)
            && s'.posts == s.posts + Count(s, run, false) && s'.takes == s.takes + Count(s, run, true)
    decreases |run|
  {
    if run != [] {
      StepCounts(s, run[0]);
      ApplyKeeps(s, run[0]);
      RunConservation(Apply(s, run[0]), run[1..]);
    }
  }

  /** Thread `t` is inside its operation in every state of `run` but the last. */
  ghost predicate UntilReturn(s: State, run: seq<Action>, t: Tid)
    requires Runs(s, run)
    decreases |run|
  {
    && t < |s.threads|
    && if run == [] then s.threads[t].Idle?
       else !s.threads[t].Idle? && UntilReturn(Apply(s, run[0]), run[1..], t)
  }

  /** The tokens `t` takes in `run`. */
  ghost function OwnTakes(s: State, run: seq<Action>, t: Tid): int
    requires Runs(s, run)
    decreases |run|
  {
    if run == [] then 0
    else (if run[0].t == t then Apply(s, run[0]).takes - s.takes else 0) + OwnTakes(Apply(s, run[0]), run[1..], t)
  }

  lemma {:induction false} WaitingTakes(s: State, run: seq<Action>, t: Tid)
    requires Inv(s) && Runs(s, run) && UntilReturn(s, run, t) && (Waiting(s.threads[t]) || s.threads[t].Idle?)
    ensures OwnTakes(s, run, t) == if s.threads[t].Idle? then 0 else 1
    decreases |run|
  {
    if run != [] {
      WaitReturnsWithToken(s, run[0], t);
      StepCounts(s, run[0]);
      ApplyKeeps(s, run[0]);
      WaitingTakes(Apply(s, run[0]), run[1..], t);
    }
  }

  /** Every run from a call of wait to its return: the caller does not return at once, and takes exactly
      one token. */
  lemma WaitTakesOne(s: State, t: Tid, run: seq<Action>)
    requires Reachable(s) && Enabled(s, Wait(t))
    requires Runs(Apply(s, Wait(t)), run) && UntilReturn(Apply(s, Wait(t)), run, t)
    ensures run != [] && OwnTakes(Apply(s, Wait(t)), run, t) == 1
  {
    ReachableInv(s);
    ApplyKeeps(s, Wait(t));
    WaitingTakes(Apply(s, Wait(t)), run, t);
  }

  /** On a lowered gate wait goes to sleep in two steps, and on a raised one it returns in one. */
  lemma WaitSleepsOrTakes(s: State, t: Tid)
    requires Inv(s) && t < |s.threads| && s.threads[t].Idle?
    ensures var s1 := Apply(s, Wait(t));
            && Enabled(s, Wait(t)) && Enabled(s1, Step(t, t))
            && var s2 := Apply(s1, Step(t, t));
               && t < |s2.threads|
               && (s.gate == 1 ==> s2.threads[t].Idle? && s2.gate == 0)
               && (s.gate == 0 ==> Enabled(s2, Step(t, t))
                                   && Apply(s2, Step(t, t)) == s.(threads := s.threads[t := WaitSleep]))
  {
    var s1 := Apply(s, Wait(t));
    if s.gate == 0 {
      assert Apply(s1, Step(t, t)) == s.(threads := s.threads[t := WaitFutex]);
    }
  }
}
