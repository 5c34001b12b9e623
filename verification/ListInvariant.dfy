/** What the steps on the gc and free lists keep, and the one step that can break it. */
module ListInvariant {
  import opened ListSteps

  // ---- Linked chains ----

  function LinkAt(l: seq<Node>, i: nat): Link {
    if i < |l| then To(l[i]) else End
  }

  /** Following `next` from `h` yields exactly `l` and then end_node. */
  predicate Chain(h: Link, l: seq<Node>, next: seq<Link>) {
    && h == LinkAt(l, 0)
    && (forall i :: 0 <= i < |l| ==> l[i] < |next|)
    && (forall i {:trigger next[l[i]]} :: 0 <= i < |l| ==> next[l[i]] == LinkAt(l, i + 1))
  }

  predicate NoDup(l: seq<Node>) {
    forall i, j :: 0 <= i < j < |l| ==> l[i] != l[j]
  }

  lemma ChainPush(h: Link, l: seq<Node>, next: seq<Link>, n: Node)
    requires Chain(h, l, next) && n < |next| && next[n] == h
    ensures Chain(To(n), [n] + l, next)
  {
    var l' := [n] + l;
    forall i | 0 <= i < |l'|
      ensures l'[i] < |next| && next[l'[i]] == LinkAt(l', i + 1)
    {
      if i > 0 {
        assert l'[i] == l[i - 1];
      }
    }
  }

  lemma ChainPop(l: seq<Node>, next: seq<Link>, n: Node)
    requires Chain(To(n), l, next)
    ensures l != [] && l[0] == n && n < |next| && Without(l, n) == l[1..] && Chain(next[n], l[1..], next)
  {
  }

  lemma WithoutAt(l: seq<Node>, k: nat)
    requires NoDup(l) && k < |l|
    ensures Without(l, l[k]) == l[..k] + l[k + 1..]
    ensures NoDup(Without(l, l[k]))
    ensures forall n :: n in Without(l, l[k]) <==> n in l && n != l[k]
  {
    assert IndexOf(l, l[k]) == k;
    var l' := l[..k] + l[k + 1..];
    forall n
      ensures n in l' <==> n in l && n != l[k]
    {
      if n in l && n != l[k] {
        var i :| 0 <= i < |l| && l[i] == n;
        assert n == if i < k then l'[i] else l'[i - 1];
      }
    }
  }

  /** Unlinking the element behind `l[k - 1]`. */
  lemma ChainCut(h: Link, l: seq<Node>, next: seq<Link>, k: nat)
    requires Chain(h, l, next) && NoDup(l) && 0 < k < |l|
    ensures Chain(h, l[..k] + l[k + 1..], next[l[k - 1] := next[l[k]]])
  {
    var l' := l[..k] + l[k + 1..];
    var next' := next[l[k - 1] := next[l[k]]];
    forall i | 0 <= i < |l'|
      ensures l'[i] < |next'| && next'[l'[i]] == LinkAt(l', i + 1)
    {
      if i < k - 1 {
        assert l'[i] == l[i] && l'[i + 1] == l[i + 1];
      } else if i == k - 1 {
        assert l'[i] == l[i] && LinkAt(l', k) == LinkAt(l, k + 1);
      } else {
        assert l'[i] == l[i + 1] && LinkAt(l', i + 1) == LinkAt(l, i + 2);
      }
    }
  }

  /** Writing a field of a node outside the chain. */
  lemma ChainFrame(h: Link, l: seq<Node>, next: seq<Link>, n: Node, v: Link)
    requires Chain(h, l, next) && n < |next| && n !in l
    ensures Chain(h, l, next[n := v])
  {
  }

  // ---- Invariant ----

  /** The client has a new node that is not on the fixed list yet. */
  predicate Adding(c: Client) {
    c.AddRead? || c.AddCas?
  }

  /** The client has a node in hand: on no list, not yet or no longer. */
  predicate HasNode(c: Client) {
    Adding(c) || c.PopClear? || c.Holding? || c.PushRead? || c.PushCas?
  }

  predicate InHand(c: Client, n: Node) {
    HasNode(c) && c.n == n
  }

  predicate HasRecord(c: Collector) {
    c.Clear? || c.FreeRead? || c.FreeCas?
  }

  predicate CollectorHas(c: Collector, n: Node) {
    HasRecord(c) && c.n == n
  }

  /** The gc list is linked as recorded: nothing lost, nothing twice, ending at end_node. */
  predicate GcIntact(s: State) {
    Chain(s.gcHead, s.gc, s.next)
  }

  predicate FreeIntact(s: State) {
    Chain(s.freeHead, s.free, s.next)
  }

  /** Every node is in exactly one place: on the gc list, on the free list, or in one hand. */
  predicate PlacesOk(s: State) {
    && |s.place| == |s.next|
    && NoDup(s.gc) && NoDup(s.free)
    && (forall n :: n in s.gc ==> n < |s.place|)
    && (forall n :: n in s.free ==> n < |s.place|)
    && (forall n :: 0 <= n < |s.place| ==> (s.place[n].OnGc? <==> n in s.gc))
    && (forall n :: 0 <= n < |s.place| ==> (s.place[n].OnFree? <==> n in s.free))
    && (forall n :: 0 <= n < |s.place| ==> (s.place[n].WithCollector? <==> CollectorHas(s.collector, n)))
    && (HasRecord(s.collector) ==> s.collector.n < |s.place|)
    && (forall n :: 0 <= n < |s.place| && s.place[n].With? ==>
          s.place[n].t < |s.threads| && InHand(s.threads[s.place[n].t], n))
    && (forall t :: 0 <= t < |s.threads| && HasNode(s.threads[t]) ==>
          s.threads[t].n < |s.place| && s.place[s.threads[t].n] == With(t))
  }

  /** What the one client inside `pop` has read is still true; an unqueued node's link is NULL. */
  predicate ClientOk(s: State, c: Client) {
    match c
    case PopNext(node) => node.End? || (node.To? && node.n in s.free)
    case PopCas(node, desired) =>
      (node.End? && desired.End?) || (node.To? && node.n in s.free && desired == NextOf(s, node))
    case AddRead(n) => n < |s.next| && s.next[n] == Null
    case AddCas(n) => n < |s.next| && s.next[n] == Null
    case Holding(n) => n < |s.next| && s.next[n] == Null
    case _ => true
  }

  predicate ClientsOk(s: State) {
    && (forall t :: 0 <= t < |s.threads| ==> ClientOk(s, s.threads[t]))
    && (forall t, u | 0 <= t < |s.threads| && 0 <= u < |s.threads| ::
          InPop(s.threads[t]) && InPop(s.threads[u]) ==> t == u)
  }

  predicate IsSuffix(rest: seq<Node>, l: seq<Node>) {
    |rest| <= |l| && l[|l| - |rest|..] == rest
  }

  /** The records of the snapshot that the walk has still to visit. */
  function Rest(s: State): seq<Node>
    requires |s.visited| <= |s.snapshot|
  {
    s.snapshot[|s.visited|..]
  }

  /** `remove` is looking for a record still on the list; `pp` is somewhere in front of it. */
  predicate RemoveOk(gcHead: Link, next: seq<Link>, gc: seq<Node>, n: Node, pp: Place, stage: Stage)
    requires n in gc
  {
    var v := LoadFrom(gcHead, next, pp);
    && (pp.At? ==> pp.p in gc && IndexOf(gc, pp.p) < IndexOf(gc, n))
    && match stage
       case Test => true
       case TestEnd => v != To(n)
       case Move => v != To(n)
       case Check => pp.At? ==> v == To(n)
       case Expect => pp.At? ==> v == To(n)
       case Next(expected) => ExpectedOk(gc, n, pp, v, expected)
       case Cas(expected, desired) => ExpectedOk(gc, n, pp, v, expected) && desired == NextIn(next, expected)
  }

  /** Behind a node, the re-read finds the record again; at the head it may find a newer one. */
  predicate ExpectedOk(gc: seq<Node>, n: Node, pp: Place, v: Link, expected: Link)
    requires n in gc
  {
    match pp
    case At(_) => expected == To(n) && v == To(n)
    case Head => expected.To? && expected.n in gc && IndexOf(gc, expected.n) <= IndexOf(gc, n)
  }

  predicate CollectorOk(s: State) {
    && s.visited <= s.snapshot && NoDup(s.snapshot)
    && match s.collector
       case Resting => s.visited == s.snapshot
       case ScanHead => true
       case Scan(_) => true
       case ReadHead => true
       case Visit(cur) => IsSuffix(Rest(s), s.gc) && cur == LinkAt(Rest(s), 0)
       case Judge(n, nxt) => IsSuffix([n] + Rest(s), s.gc) && nxt == LinkAt(Rest(s), 0)
       case Remove(n, nxt, pp, stage) =>
         && IsSuffix([n] + Rest(s), s.gc) && nxt == LinkAt(Rest(s), 0)
         && n in s.gc && RemoveOk(s.gcHead, s.next, s.gc, n, pp, stage)
       case Clear(n, nxt) => IsSuffix(Rest(s), s.gc) && nxt == LinkAt(Rest(s), 0)
       case FreeRead(n, nxt) => IsSuffix(Rest(s), s.gc) && nxt == LinkAt(Rest(s), 0)
       case FreeCas(n, nxt) => IsSuffix(Rest(s), s.gc) && nxt == LinkAt(Rest(s), 0)
       case Failed => false
  }

  /** The gc and free lists, and everybody working on them. */
  predicate Lists(s: State) {
    GcIntact(s) && FreeIntact(s) && PlacesOk(s) && ClientsOk(s) && CollectorOk(s)
  }

  // ---- The fixed list ----

  /** Every node is on the fixed list or about to be added to it by exactly one client. */
  predicate FixedOk(s: State) {
    && |s.fixedLink| == |s.next| && Chain(s.fixedHead, s.fixed, s.fixedLink) && NoDup(s.fixed)
    && (forall t :: 0 <= t < |s.threads| && Adding(s.threads[t]) ==>
          s.threads[t].n < |s.fixedLink| && s.threads[t].n !in s.fixed)
    && (forall t, u | 0 <= t < |s.threads| && 0 <= u < |s.threads| && Adding(s.threads[t]) && Adding(s.threads[u]) ::
          s.threads[t].n == s.threads[u].n ==> t == u)
    && (forall n :: 0 <= n < |s.fixedLink| ==> n in s.fixed || SomeoneAdds(s, n))
  }

  predicate SomeoneAdds(s: State, n: Node) {
    exists t :: 0 <= t < |s.threads| && Adding(s.threads[t]) && s.threads[t].n == n
  }

  /** The scan has come some way along the list it found; what was added since is in front of it. */
  predicate ScanOk(s: State) {
    && s.scanned <= s.present && NoDup(s.present)
    && (if s.collector.Scan?
        then IsSuffix(s.present, s.fixed) && s.collector.cur == LinkAt(s.present, |s.scanned|)
        else s.scanned == s.present)
  }

  predicate Inv(s: State) {
    Lists(s) && FixedOk(s) && ScanOk(s)
  }

  /** The flaw in `remove`: its compare-exchange succeeds on a record other than the one it was
      asked to remove, because a push changed the head between the loop test and the re-read. */
  predicate WrongRemoval(s: State, a: Action) {
    && a.Collect? && s.collector.Remove? && s.collector.stage.Cas?
    && Load(s, s.collector.pp) == s.collector.stage.expected
    && s.collector.stage.expected != To(s.collector.n)
  }
}
