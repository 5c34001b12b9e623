/** What registration, deregistration and retiring amount to from their call to their return, over every run. */
module RegistryCalls {
  import opened Registry
  import opened RegistryInvariant
  import opened RegistryKeeps
  import opened RegistryTheorems

  /** The client's thread is outside RegisterClient and DeregisterClient. */
  predicate Returned(p: ClientPc) {
    p == Outside || p == Inside || p == Gone || p == Rejected
  }

  /** The client is inside its call in every state of `run` but the last. */
  predicate UntilReturn(s: State, run: seq<Action>, c: Cid)
    requires Runs(s, run)
    decreases |run|
  {
    && c < |s.pc|
    && if run == [] then Returned(s.pc[c]) else !Returned(s.pc[c]) && UntilReturn(Apply(s, run[0]), run[1..], c)
  }

  /** Where the call returns. */
  function End(p: ClientPc): ClientPc {
    match p
    case RegWait => Inside
    case RegPush => Inside
    case RegStore => Inside
    case RegBind => Inside
    case DeregCas => Gone
    case DeregWait => Gone
    case DeregErase => Gone
    case DeregStore => Gone
    case Outside => Outside
    case Inside => Inside
    case Gone => Gone
    case Rejected => Rejected
  }

  lemma OwnStepEnd(s: State, c: Cid)
    requires Shape(s) && c < |s.pc| && !Returned(s.pc[c])
    ensures End(ClientStep(s, c).pc[c]) == End(s.pc[c])
  {
    hide Erase;
  }

  lemma StepEnd(s: State, a: Action, c: Cid)
    requires Enabled(s, a) && c < |s.pc| && !Returned(s.pc[c])
    ensures |Apply(s, a).pc| == |s.pc| && End(Apply(s, a).pc[c]) == End(s.pc[c])
  {
    if a.Step? {
      OwnStepEnd(s, c);
      OtherClients(s, a.c);
      hide ClientStep;
    } else if a.Collect? {
      hide CollectorStep;
    }
  }

  lemma {:induction false} RunEnd(s: State, run: seq<Action>, c: Cid)
    requires Runs(s, run) && UntilReturn(s, run, c)
    ensures c < |After(s, run).pc| && After(s, run).pc[c] == End(s.pc[c])
    decreases |run|
  {
    if run != [] {
      StepEnd(s, run[0], c);
      RunEnd(Apply(s, run[0]), run[1..], c);
    }
  }

  /** RegisterClient returns with the client listed, registered (or already being collected) and bound to
      the collector, unless its checks reject it; in that case it returns at once. */
  lemma RegisterReturns(s: State, c: Cid, run: seq<Action>)
    requires Reachable(s) && Enabled(s, Register(c))
    requires Runs(Apply(s, Register(c)), run) && UntilReturn(Apply(s, Register(c)), run, c)
    ensures var s' := After(Apply(s, Register(c)), run);
            && Shape(s') && c < |s'.pc|
            && (MayRegister(s, c) ==> && s'.pc[c] == Inside && c in s'.clients && s'.bound[c]
                                      && (s'.state[c] == Registered || s'.state[c] == Collecting))
            && (!MayRegister(s, c) ==> run == [] && s'.pc[c] == Rejected)
  {
    var s1 := Apply(s, Register(c));
    ReachableInv(s);
    ApplyKeeps(s, Register(c));
    RunsKeep(s1, run);
    RunEnd(s1, run, c);
    assert StateOk(After(s1, run), c);
  }

  /** DeregisterClient returns with the client in neither vector and unregistered. */
  lemma DeregisterReturns(s: State, c: Cid, run: seq<Action>)
    requires Reachable(s) && Enabled(s, Deregister(c))
    requires Runs(Apply(s, Deregister(c)), run) && UntilReturn(Apply(s, Deregister(c)), run, c)
    ensures var s' := After(Apply(s, Deregister(c)), run);
            && Shape(s') && c < |s'.pc| && run != []
            && s'.pc[c] == Gone && c !in s'.clients && s'.state[c] == Unregistered && |s'.clients| == |s'.ids|
  {
    var s1 := Apply(s, Deregister(c));
    ReachableInv(s);
    ApplyKeeps(s, Deregister(c));
    RunsKeep(s1, run);
    RunEnd(s1, run, c);
    assert StateOk(After(s1, run), c);
  }

  // ---- Who signals ----

  predicate OnlyBoundOwe(s: State) {
    Shape(s) && forall c :: 0 <= c < |s.pc| && s.owes[c] > 0 ==> s.bound[c]
  }

  lemma OweStep(s: State, a: Action)
    requires OnlyBoundOwe(s) && Enabled(s, a)
    ensures OnlyBoundOwe(Apply(s, a))
  {
    if a.Step? {
      ClientFrame(s, a.c);
      BoundStays(s, a.c);
      hide ClientStep;
    } else if a.Collect? {
      CollectorFrame(s, a.left);
      hide CollectorStep;
    }
  }

  lemma BoundStays(s: State, c: Cid)
    requires Shape(s) && c < |s.pc|
    ensures forall d :: 0 <= d < |s.pc| && s.bound[d] ==> ClientStep(s, c).bound[d]
  {
    hide Erase;
  }

  lemma {:induction false} OweRun(s: State, run: seq<Action>)
    requires OnlyBoundOwe(s) && Runs(s, run)
    ensures OnlyBoundOwe(After(s, run))
    decreases |run|
  {
    if run != [] {
      OweStep(s, run[0]);
      OweRun(Apply(s, run[0]), run[1..]);
    }
  }

  /** Nobody signals on behalf of a client that has no collector. */
  lemma UnboundStaysSilent(s: State, c: Cid)
    requires Reachable(s) && c < |s.pc|
    ensures Shape(s) && (!s.bound[c] ==> s.owes[c] == 0 && !Enabled(s, Signal(c)))
  {
    var s0, run :| Init(s0) && Runs(s0, run) && After(s0, run) == s;
    OweRun(s0, run);
  }
}
