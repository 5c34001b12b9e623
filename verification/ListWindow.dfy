/** The gc list and its pushers: which pushes make `remove` unlink the wrong record. */
module ListWindow {
  import opened ListSteps
  import opened ListInvariant
  import opened ListKeeps
  import opened ListTheorems

  /** A push lands on the gc list. */
  predicate GcPush(s: State, a: Action) {
    && a.Step? && a.t < |s.threads| && s.threads[a.t].PushCas? && s.threads[a.t].gc
    && NextOf(s, To(s.threads[a.t].n)) == s.gcHead
  }

  predicate AtHead(s: State) {
    s.collector.Remove? && s.collector.pp.Head?
  }

  /** `remove`, positioned at the head, is between its loop test and its re-read. */
  predicate InWindow(s: State) {
    AtHead(s) && (s.collector.stage.Check? || s.collector.stage.Expect?)
  }

  /** `remove` is about to make its compare-exchange. */
  predicate AtExchange(s: State, a: Action) {
    a.Collect? && s.collector.Remove? && s.collector.stage.Cas?
  }

  /** Whether the latest gc push of this attempt fell into the window, given that before `a`. */
  predicate HitAfter(s: State, hit: bool, a: Action) {
    if GcPush(s, a) then InWindow(s) else hit && !AtExchange(s, a)
  }

  /** In some attempt of the run a push lands in the window, no further push lands on the gc list,
      and the exchange is made at the head. */
  predicate PushedInWindow(s: State, hit: bool, run: seq<Action>)
    requires Runs(s, run)
    decreases |run|
  {
    && run != []
    && ((hit && AtExchange(s, run[0]) && AtHead(s))
        || PushedInWindow(Apply(s, run[0]), HitAfter(s, hit, run[0]), run[1..]))
  }

  // ---- What a hit means ----

  predicate HitMeans(gcHead: Link, n: Node, stage: Stage, hit: bool) {
    match stage
    case Check => hit <==> gcHead != To(n)
    case Expect => hit <==> gcHead != To(n)
    case Next(e) => hit <==> e == gcHead && e != To(n)
    case Cas(e, _) => hit <==> e == gcHead && e != To(n)
    case _ => !hit
  }

  predicate Tracks(s: State, hit: bool) {
    if AtHead(s) then HitMeans(s.gcHead, s.collector.n, s.collector.stage, hit) else !hit
  }

  lemma ClientEffect(s: State, t: Tid)
    requires t < |s.threads| && |s.place| == |s.next|
    ensures ClientStep(s, t).collector == s.collector
    ensures if GcPush(s, Step(t)) && s.threads[t].n < |s.next|
            then ClientStep(s, t).gcHead == To(s.threads[t].n)
            else ClientStep(s, t).gcHead == s.gcHead
  {
  }

  /** A pushed node is new to the list, so what `remove` has read is no longer the head. */
  lemma PushTracks(s: State, t: Tid, hit: bool)
    requires Lists(s) && Tracks(s, hit) && Enabled(s, Step(t)) && GcPush(s, Step(t))
    ensures Tracks(ClientStep(s, t), InWindow(s))
  {
    var m := s.threads[t].n;
    assert InHand(s.threads[t], m);
    assert m !in s.gc && m < |s.next|;
    ClientEffect(s, t);
    hide ClientStep;
  }

  lemma ClientTracks(s: State, t: Tid, hit: bool)
    requires Lists(s) && Tracks(s, hit) && Enabled(s, Step(t))
    ensures Tracks(ClientStep(s, t), HitAfter(s, hit, Step(t)))
  {
    if GcPush(s, Step(t)) {
      hide Lists;
      PushTracks(s, t, hit);
    } else {
      ClientEffect(s, t);
      hide Lists;
      hide ClientStep;
    }
  }

  lemma RemoveTracks(s: State, hit: bool)
    requires GcView(s) && Tracks(s, hit) && s.collector.Remove?
    ensures Tracks(RemoveStep(s), hit && !s.collector.stage.Cas?)
  {
    LoadInRange(s);
    hide GcView;
    if s.collector.stage.Cas? {
      ExchangeEnds(s);
      hide RemoveStep;
    } else if s.collector.pp.Head? {
      hide Store;
    }
  }

  /** Won or lost, after the exchange a new attempt starts at the loop test. */
  lemma ExchangeEnds(s: State)
    requires s.collector.Remove? && s.collector.stage.Cas?
    ensures var c := RemoveStep(s).collector; c.Remove? ==> c.stage.Test?
  {
  }

  lemma CollectTracks(s: State, hit: bool)
    requires GcView(s) && Tracks(s, hit)
    ensures Tracks(CollectorStep(s), HitAfter(s, hit, Collect))
  {
    hide GcView;
    if s.collector.Remove? {
      hide RemoveStep;
      RemoveTracks(s, hit);
    } else {
      hide CollectorStep;
      StartsNoRemoval(s);
    }
  }

  lemma StartsNoRemoval(s: State)
    requires !s.collector.Remove?
    ensures !CollectorStep(s).collector.Remove?
  {
  }

  lemma StepTracks(s: State, a: Action, hit: bool)
    requires Inv(s) && Tracks(s, hit) && Enabled(s, a)
    ensures Tracks(Apply(s, a), HitAfter(s, hit, a))
  {
    match a
    case Step(t) =>
      hide Inv;
      ClientTracks(s, t, hit);
    case Collect =>
      assert GcView(s);
      hide Inv;
      CollectTracks(s, hit);
    case _ =>
      hide Inv;
  }

  /** An exchange goes wrong exactly when the latest push of the attempt fell into the window. */
  lemma HitIsWrong(s: State, a: Action, hit: bool)
    requires GcView(s) && Tracks(s, hit)
    ensures WrongRemoval(s, a) <==> hit && AtExchange(s, a) && AtHead(s)
  {
  }

  // ---- Theorems ----

  lemma {:induction false} WrongIffPushed(s: State, hit: bool, run: seq<Action>)
    requires Inv(s) && Tracks(s, hit) && Runs(s, run)
    ensures NoWrongRemoval(s, run) <==> !PushedInWindow(s, hit, run)
    decreases |run|
  {
    if run != [] {
      assert GcView(s);
      HitIsWrong(s, run[0], hit);
      if !WrongRemoval(s, run[0]) {
        StepTracks(s, run[0], hit);
        ApplyKeeps(s, run[0]);
        hide Inv;
        WrongIffPushed(Apply(s, run[0]), HitAfter(s, hit, run[0]), run[1..]);
      }
    }
  }

  /** The same condition in terms of the pushers alone: the gc list is whole in every state of a run if
      and only if no exchange at the head follows a push that landed in its window with no further
      push in between. */
  lemma IntactExactlyByPushes(s: State, run: seq<Action>)
    requires Init(s) && Runs(s, run)
    ensures IntactThroughout(s, run) <==> !PushedInWindow(s, false, run)
  {
    InitInv(s);
    IntactIff(s, run);
    WrongIffPushed(s, false, run);
  }

  predicate QuietWindow(s: State, run: seq<Action>)
    requires Runs(s, run)
    decreases |run|
  {
    run == [] || (!(InWindow(s) && GcPush(s, run[0])) && QuietWindow(Apply(s, run[0]), run[1..]))
  }

  lemma {:induction false} QuietIsNotPushed(s: State, run: seq<Action>)
    requires Runs(s, run) && QuietWindow(s, run)
    ensures !PushedInWindow(s, false, run)
    decreases |run|
  {
    if run != [] {
      QuietIsNotPushed(Apply(s, run[0]), run[1..]);
    }
  }

  /** If no push lands in the window, the gc list stays whole however the steps interleave. */
  lemma QuietRunsStayIntact(s: State, run: seq<Action>)
    requires Init(s) && Runs(s, run) && QuietWindow(s, run)
    ensures IntactThroughout(s, run)
  {
    QuietIsNotPushed(s, run);
    IntactExactlyByPushes(s, run);
  }
}
