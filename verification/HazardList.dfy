/** HazardPointerList on the heap, run by one thread at a time.

The list heads and node links are updated in place; ghost sequences say what the three lists hold.
Without interference a compare-exchange loop succeeds at its first attempt. */
module HazardList {
  import opened Sorting

  /** Object pointers are addresses, 0 being NULL. */
  class HazardNode {
    var pointer: nat
    var gcPointer: nat
    var fixedLink: HazardNode?
    var next: HazardNode?

    constructor ()
      ensures pointer == 0 && gcPointer == 0 && fixedLink == null && next == null
    {
      pointer, gcPointer, fixedLink, next := 0, 0, null, null;
    }
  }

  function At(l: seq<HazardNode>, i: nat, end: HazardNode): HazardNode {
    if i < |l| then l[i] else end
  }

  /** Following `next` from `head` yields `l` and then the end node. */
  ghost predicate NextChain(head: HazardNode, l: seq<HazardNode>, end: HazardNode)
    reads (set n | n in l)`next
  {
    && head == At(l, 0, end)
    && forall i {:trigger l[i].next} :: 0 <= i < |l| ==> l[i].next == At(l, i + 1, end)
  }

  ghost predicate FixedChain(head: HazardNode, l: seq<HazardNode>, end: HazardNode)
    reads (set n | n in l)`fixedLink
  {
    && head == At(l, 0, end)
    && forall i {:trigger l[i].fixedLink} :: 0 <= i < |l| ==> l[i].fixedLink == At(l, i + 1, end)
  }

  predicate NoDup(l: seq<HazardNode>) {
    forall i, j :: 0 <= i < j < |l| ==> l[i] != l[j]
  }

  // ---- What Collect should do, record by record ----

  /** The records whose object is hazardous, in order. */
  function Kept(l: seq<HazardNode>, objs: seq<nat>, haz: set<nat>): seq<HazardNode>
    requires |l| == |objs|
  {
    if l == [] then [] else (if objs[0] in haz then [l[0]] else []) + Kept(l[1..], objs[1..], haz)
  }

  function KeptObjects(objs: seq<nat>, haz: set<nat>): seq<nat> {
    if objs == [] then [] else (if objs[0] in haz then [objs[0]] else []) + KeptObjects(objs[1..], haz)
  }

  /** The other records, in the order the free list receives them: the last one first. */
  function Recycled(l: seq<HazardNode>, objs: seq<nat>, haz: set<nat>): seq<HazardNode>
    requires |l| == |objs|
  {
    if l == [] then [] else Recycled(l[1..], objs[1..], haz) + if objs[0] in haz then [] else [l[0]]
  }

  /** The objects nobody protects, in order. */
  function Unprotected(objs: seq<nat>, haz: set<nat>): seq<nat> {
    if objs == [] then [] else (if objs[0] in haz then [] else [objs[0]]) + Unprotected(objs[1..], haz)
  }

  /** Every retired object is pending or deleted, as often as it was retired. */
  ghost predicate Balanced(retired: seq<nat>, pending: seq<nat>, deleted: seq<nat>) {
    multiset(retired) == multiset(pending) + multiset(deleted)
  }

  /** The records `l` carry the retired objects `objs` and protect nothing themselves. */
  ghost predicate RecordsOk(l: seq<HazardNode>, objs: seq<nat>, ex: set<HazardNode>)
    reads (set n | n in l)`pointer, (set n | n in l)`gcPointer
  {
    && |objs| == |l|
    && (forall i :: 0 <= i < |l| ==> objs[i] != 0 && l[i].pointer == 0)
    && (forall i :: 0 <= i < |l| && l[i] !in ex ==> l[i].gcPointer == objs[i])
  }

  lemma RecordsPush(l: seq<HazardNode>, objs: seq<nat>, node: HazardNode, obj: nat)
    requires RecordsOk(l, objs, {node}) && node !in l && node.pointer == 0 && node.gcPointer == obj != 0
    ensures RecordsOk([node] + l, [obj] + objs, {})
  {
  }

  lemma RecordsCut(l: seq<HazardNode>, objs: seq<nat>, k: nat)
    requires k < |l| && RecordsOk(l, objs, {l[k]}) && NoDup(l)
    ensures RecordsOk(l[..k] + l[k + 1..], objs[..k] + objs[k + 1..], {})
  {
  }

  class HazardPointerList {
    var endNode: HazardNode
    var nodes: HazardNode
    var gcList: HazardNode
    var freeList: HazardNode
    var allHazPtrs: seq<nat>

    ghost var fixed: seq<HazardNode>
    ghost var gc: seq<HazardNode>
    ghost var free: seq<HazardNode>
    ghost var pending: seq<nat>   // the retired objects of `gc`, record by record
    ghost var retired: seq<nat>   // every object ever given to Delete
    ghost var deleted: seq<nat>   // every object deleted so far

    /** The fixed list and end_node. */
    ghost predicate FixedOk()
      reads `endNode, `nodes, `fixed, endNode, (set n | n in fixed)`fixedLink
    {
      && endNode !in fixed && NoDup(fixed)
      && FixedChain(nodes, fixed, endNode)
      && endNode.next == endNode && endNode.fixedLink == endNode && endNode.pointer == 0
    }

    /** The gc and free lists: disjoint, acyclic, ending at end_node; `next` is NULL exactly off them. */
    ghost predicate QueuesOk()
      reads `endNode, `fixed, `gc, `free, `gcList, `freeList
      reads (set n | n in fixed)`next, (set n | n in gc)`next, (set n | n in free)`next
    {
      && NoDup(gc) && NoDup(free)
      && (forall n :: n in gc ==> n in fixed && n !in free)
      && (forall n :: n in free ==> n in fixed)
      && NextChain(gcList, gc, endNode) && NextChain(freeList, free, endNode)
      && (forall n :: n in fixed && n !in gc && n !in free ==> n.next == null)
    }

    /** What each node's fields say about where it is; `ex` are nodes in the middle of an operation. */
    ghost predicate FieldsOk(ex: set<HazardNode>)
      reads `fixed, `gc, `free, `pending
      reads (set n | n in fixed)`pointer, (set n | n in gc)`pointer, (set n | n in free)`pointer
      reads (set n | n in fixed)`gcPointer, (set n | n in gc)`gcPointer, (set n | n in free)`gcPointer
    {
      && RecordsOk(gc, pending, ex)
      && (forall n :: n in free ==> n.pointer == 0 && n.gcPointer == 0)
      && (forall n :: n in fixed && n !in gc && n !in ex ==> n.gcPointer == 0)
    }

    /** Conservation: every retired object is pending or has been deleted, once. */
    ghost predicate BooksOk()
      reads `retired, `pending, `deleted
    {
      Balanced(retired, pending, deleted)
    }

    ghost predicate Sound()
      reads this, endNode, fixed, gc, free
    {
      FixedOk() && QueuesOk() && FieldsOk({}) && BooksOk()
    }

    ghost predicate Valid()
      reads this, endNode, fixed, gc, free
    {
      Sound() && allHazPtrs == []
    }

    /** The objects some node protects. */
    ghost function Hazards(): set<nat>
      reads `fixed, (set n | n in fixed)`pointer
    {
      set n | n in fixed && n.pointer != 0 :: n.pointer
    }

    constructor ()
      ensures Valid() && fresh(endNode)
      ensures fixed == [] && gc == [] && free == [] && retired == [] && deleted == []
    {
      var end := new HazardNode();
      end.fixedLink, end.next := end, end;
      endNode, nodes, gcList, freeList := end, end, end, end;
      allHazPtrs := [];
      fixed, gc, free, pending, retired, deleted := [], [], [], [], [], [];
    }

    /** The fixed list grows at its head. */
    method Add(node: HazardNode)
      requires FixedOk() && QueuesOk() && FieldsOk({}) && BooksOk()
      requires node !in fixed && node != endNode && node.next == null && node.gcPointer == 0
      modifies this`nodes, this`fixed, node`fixedLink
      ensures FixedOk() && QueuesOk() && FieldsOk({}) && BooksOk()
      ensures fixed == [node] + old(fixed)
    {
      hide Balanced;
      hide RecordsOk;
      hide NextChain;
      node.fixedLink := nodes;
      nodes := node;
      fixed := [node] + fixed;
      assert forall i :: 1 <= i < |fixed| ==> fixed[i] == old(fixed)[i - 1];
    }

    method PushFree(node: HazardNode, ghost ex: set<HazardNode>)
      requires FixedOk() && QueuesOk() && FieldsOk(ex) && BooksOk()
      requires node in fixed && node !in gc && node !in free && node.pointer == 0 && node.gcPointer == 0
      modifies this`freeList, this`free, node`next
      ensures FixedOk() && QueuesOk() && FieldsOk(ex) && BooksOk()
      ensures free == [node] + old(free)
    {
      assert node.next == null;  // CHECK_ASSERT(node->IsUnqueued())
      node.next := freeList;
      freeList := node;
      free := [node] + free;
      assert forall i :: 1 <= i < |free| ==> free[i] == old(free)[i - 1];
    }

    /** push(node, &gc_list), links only. */
    method LinkGc(node: HazardNode)
      requires FixedOk() && QueuesOk() && node in fixed && node !in gc && node !in free
      modifies this`gcList, this`gc, node`next
      ensures FixedOk() && QueuesOk() && gc == [node] + old(gc)
    {
      assert node.next == null;  // CHECK_ASSERT(node->IsUnqueued())
      node.next := gcList;
      gcList := node;
      gc := [node] + gc;
      assert forall i :: 1 <= i < |gc| ==> gc[i] == old(gc)[i - 1];
    }

    method EnqueueRecordForCollection(node: HazardNode, ghost obj: nat)
      requires FixedOk() && QueuesOk() && FieldsOk({node}) && BooksOk()
      requires node in fixed && node !in gc && node !in free
      requires node.pointer == 0 && node.gcPointer == obj != 0
      modifies this`gcList, this`gc, this`pending, this`retired, node`next
      ensures FixedOk() && QueuesOk() && FieldsOk({}) && BooksOk()
      ensures gc == [node] + old(gc) && pending == [obj] + old(pending) && retired == old(retired) + [obj]
    {
      ghost var l := gc;
      assert FieldsOk({node});
      hide FixedOk;
      hide QueuesOk;
      LinkGc(node);
      NoteRetired(node, obj, l);
    }

    /** The bookkeeping of a record that has just joined the gc list. */
    ghost method NoteRetired(node: HazardNode, obj: nat, l: seq<HazardNode>)
      requires gc == [node] + l && RecordsOk(l, pending, {node}) && BooksOk() && node !in l
      requires node.pointer == 0 && node.gcPointer == obj != 0
      requires forall n :: n in free ==> n.pointer == 0 && n.gcPointer == 0
      requires forall n :: n in fixed && n !in gc ==> n.gcPointer == 0
      modifies `pending, `retired
      ensures FieldsOk({}) && BooksOk() && pending == [obj] + old(pending) && retired == old(retired) + [obj]
    {
      BooksRetire(retired, pending, deleted, obj);
      hide Balanced;
      RecordsPush(l, pending, node, obj);
      hide RecordsOk;
      pending, retired := [obj] + pending, retired + [obj];
    }

    /** remove's search: the record in front of `node`, or null at the head. */
    method FindBefore(node: HazardNode, ghost k: nat) returns (prev: HazardNode?)
      requires FixedOk() && QueuesOk() && k < |gc| && gc[k] == node
      ensures prev == if k == 0 then null else gc[k - 1]
    {
      prev := null;
      var cur := gcList;
      ghost var i := 0;
      while cur != node && cur != endNode
        invariant 0 <= i <= k && cur == gc[i]
        invariant prev == if i == 0 then null else gc[i - 1]
        decreases k - i
      {
        assert gc[i].next == At(gc, i + 1, endNode);
        prev := cur;
        cur := cur.next;
        i := i + 1;
      }
      assert cur == node;  // otherwise CHECK_ASSERT(false)
    }

    /** remove's compare-exchange and the reset of the removed node's link. */
    method UnlinkGc(node: HazardNode, prev: HazardNode?, ghost k: nat)
      requires FixedOk() && QueuesOk() && k < |gc| && gc[k] == node
      requires prev == if k == 0 then null else gc[k - 1]
      modifies this`gcList, this`gc, (set n | n in fixed)`next
      ensures FixedOk() && QueuesOk() && gc == old(gc)[..k] + old(gc)[k + 1..]
    {
      assert gc[k].next == At(gc, k + 1, endNode);
      var desired := node.next;
      if prev == null {
        gcList := desired;
      } else {
        prev.next := desired;
      }
      node.next := null;
      gc := gc[..k] + gc[k + 1..];
      CutFacts(old(gc), k);
      assert NextChain(gcList, gc, endNode) by {
        assert gcList == At(gc, 0, endNode);
        forall i | 0 <= i < |gc|
          ensures gc[i].next == At(gc, i + 1, endNode)
        {
          assert gc[i] == old(gc)[if i < k then i else i + 1];
          assert At(gc, i + 1, endNode) == At(old(gc), if i + 1 < k then i + 1 else i + 2, endNode);
        }
      }
    }

    /** remove(node, &gc_list) of a record whose object has just been deleted. */
    method RemoveGc(node: HazardNode, ghost k: nat)
      requires FixedOk() && QueuesOk() && FieldsOk({node}) && node.gcPointer == 0
      requires k < |gc| && gc[k] == node
      modifies this`gcList, this`gc, this`pending, (set n | n in fixed)`next
      ensures FixedOk() && QueuesOk() && FieldsOk({})
      ensures gc == old(gc)[..k] + old(gc)[k + 1..] && pending == old(pending)[..k] + old(pending)[k + 1..]
    {
      CutFacts(gc, k);
      hide FixedOk;
      hide QueuesOk;
      ghost var l := gc;
      var prev := FindBefore(node, k);
      UnlinkGc(node, prev, k);
      RecordsCut(l, pending, k);
      hide RecordsOk;
      pending := pending[..k] + pending[k + 1..];
    }

    method PopFree() returns (node: HazardNode)
      requires FixedOk() && QueuesOk() && FieldsOk({})
      modifies this`freeList, this`free, (set n | n in free)`next
      ensures FixedOk() && QueuesOk() && FieldsOk({})
      ensures old(free) == [] ==> node == endNode && free == []
      ensures old(free) != [] ==> node == old(free)[0] && free == old(free)[1..]
    {
      node := freeList;
      var desired := node.next;
      freeList := desired;
      if node != endNode {
        node.next := null;
        free := free[1..];
      }
    }

    // ---- Node acquisition ----

    /** `new` followed by Add. */
    method NewNode() returns (node: HazardNode)
      requires Valid()
      modifies this`nodes, this`fixed
      ensures Valid() && fresh(node) && fixed == [node] + old(fixed)
      ensures node.pointer == 0
    {
      node := new HazardNode();
      Add(node);
    }

    /** A node that is nobody's: recycled from the free list, or new. */
    method AcquireNode() returns (node: HazardNode)
      requires Valid()
      modifies this`nodes, this`fixed, this`freeList, this`free, (set n | n in free)`next
      ensures Valid()
      ensures node in fixed && node !in gc && node !in free && node.next == null && node.pointer == 0
      ensures old(free) != [] ==> node == old(free)[0] && free == old(free)[1..] && fixed == old(fixed)
      ensures old(free) == [] ==> fresh(node) && free == [] && fixed == [node] + old(fixed)
    {
      node := PopFree();
      if node == endNode {
        node := NewNode();
      }
    }

    method PrimeOne() returns (node: HazardNode)
      requires Valid()
      modifies this`nodes, this`fixed, this`freeList, this`free
      ensures Valid() && fresh(node)
      ensures fixed == [node] + old(fixed) && free == [node] + old(free)
    {
      node := NewNode();
      PushFree(node, {});
    }

    /** Puts `count` new nodes at the head of both the fixed and the free list. */
    method Prime(count: nat) returns (ghost made: seq<HazardNode>)
      requires Valid()
      modifies this`nodes, this`fixed, this`freeList, this`free
      ensures Valid() && |made| == count && (forall n :: n in made ==> fresh(n))
      ensures fixed == made + old(fixed) && free == made + old(free)
    {
      hide *;
      made := [];
      for i := 0 to count
        invariant Valid() && |made| == i && (forall n :: n in made ==> fresh(n))
        invariant fixed == made + old(fixed) && free == made + old(free)
      {
        var node := PrimeOne();
        Regroup(node, made, old(fixed));
        Regroup(node, made, old(free));
        made := [node] + made;
      }
    }

    // ---- Operations on an acquired node ----

    /** Publishes the object found at location `l` of `memory`. */
    method Acquire(node: HazardNode, memory: array<nat>, l: nat) returns (ok: bool)
      requires Valid() && node in fixed && node !in gc && node !in free && l < memory.Length
      modifies node`pointer
      ensures Valid() && ok && node.pointer == memory[l]
    {
      assert node.next == null && node.gcPointer == 0;  // the CHECK_ASSERTs
      node.pointer := memory[l];
      ok := true;
    }

    method Release(node: HazardNode) returns (ok: bool)
      requires Valid() && node in fixed && node !in gc && node !in free
      modifies this`freeList, this`free, node`next, node`pointer
      ensures Valid() && node.pointer == 0
      ensures ok == (old(node.pointer) != 0)
      ensures free == if ok then [node] + old(free) else old(free)
    {
      assert node.gcPointer == 0;  // CHECK_ASSERT
      if node.pointer == 0 {
        return false;
      }
      node.pointer := 0;
      PushFree(node, {});
      ok := true;
    }

    /** Retires the object: from here on it is pending until a collection deletes it. */
    method Delete(node: HazardNode) returns (ok: bool)
      requires Valid() && node in fixed && node !in gc && node !in free
      modifies this`gcList, this`gc, this`pending, this`retired, node
      ensures Valid() && node.pointer == 0
      ensures ok == (old(node.pointer) != 0)
      ensures !ok ==> gc == old(gc) && pending == old(pending) && retired == old(retired)
      ensures ok ==> gc == [node] + old(gc) && retired == old(retired) + [old(node.pointer)]
      ensures ok ==> pending == [old(node.pointer)] + old(pending)
    {
      assert node.gcPointer == 0;  // CHECK_ASSERT
      if node.pointer == 0 {
        return false;
      }
      var obj := node.pointer;
      node.gcPointer, node.pointer := node.pointer, node.gcPointer;
      EnqueueRecordForCollection(node, obj);
      ok := true;
    }

    // ---- Collection ----

    /** The first loop of Collect. */
    method ScanHazards()
      requires FixedOk() && allHazPtrs == []
      modifies this`allHazPtrs
      ensures forall x :: x in allHazPtrs <==> x in Hazards()
    {
      var node := nodes;
      ghost var i := 0;
      while node != endNode
        invariant 0 <= i <= |fixed| && node == At(fixed, i, endNode)
        invariant forall x :: x in allHazPtrs <==> exists j :: 0 <= j < i && fixed[j].pointer == x != 0
        decreases |fixed| - i
      {
        assert node == fixed[i] && fixed[i].fixedLink == At(fixed, i + 1, endNode);
        if node.pointer != 0 {
          allHazPtrs := allHazPtrs + [node.pointer];
        }
        node := node.fixedLink;
        i := i + 1;
      }
      assert i == |fixed|;
    }

    /** Deletes the object of record `k`. */
    method ClearObject(node: HazardNode, ghost k: nat)
      requires Sound() && k < |gc| && gc[k] == node
      modifies this`deleted, node`gcPointer
      ensures FixedOk() && QueuesOk() && FieldsOk({node}) && node.gcPointer == 0
      ensures deleted == old(deleted) + [pending[k]]
      ensures Balanced(retired, pending[..k] + pending[k + 1..], deleted)
    {
      var obj := node.gcPointer;
      assert obj != 0 && node.pointer == 0;  // the CHECK_ASSERTs
      BooksDelete(retired, pending, deleted, k);
      assert node !in free;
      hide Balanced;
      hide FixedOk;
      hide QueuesOk;
      node.gcPointer := 0;
      deleted := deleted + [obj];
    }

    /** Deletes the object of record `k` and takes the record off the gc list. */
    method DeleteObject(node: HazardNode, ghost k: nat)
      requires Sound() && k < |gc| && gc[k] == node
      modifies this`gcList, this`gc, this`pending, this`deleted, (set n | n in fixed)`next, node`gcPointer
      ensures Sound() && node !in gc && node.gcPointer == 0
      ensures gc == old(gc)[..k] + old(gc)[k + 1..] && pending == old(pending)[..k] + old(pending)[k + 1..]
      ensures deleted == old(deleted) + [old(pending)[k]]
    {
      CutFacts(gc, k);
      hide Balanced;
      hide FixedOk;
      hide QueuesOk;
      ClearObject(node, k);
      RemoveGc(node, k);
    }

    /** The same, and the node is recycled. */
    method Reclaim(node: HazardNode, ghost k: nat)
      requires Sound() && k < |gc| && gc[k] == node
      modifies this`gcList, this`gc, this`pending, this`deleted, this`freeList, this`free
      modifies (set n | n in fixed)`next, node`gcPointer
      ensures Sound()
      ensures gc == old(gc)[..k] + old(gc)[k + 1..] && pending == old(pending)[..k] + old(pending)[k + 1..]
      ensures deleted == old(deleted) + [old(pending)[k]] && free == [node] + old(free)
    {
      DeleteObject(node, k);
      PushFree(node, {});
    }

    /** One turn of the second loop: binary search decides the fate of record `k`. */
    method SweepOne(gcNode: HazardNode, ghost haz: set<nat>, ghost k: nat) returns (nextNode: HazardNode)
      requires Sound() && Sorted(allHazPtrs) && forall x :: x in allHazPtrs <==> x in haz
      requires k < |gc| && gc[k] == gcNode
      modifies this`gcList, this`gc, this`pending, this`deleted, this`freeList, this`free
      modifies (set n | n in fixed)`next, (set n | n in fixed)`gcPointer
      ensures Sound() && nextNode == At(old(gc), k + 1, endNode) && k < |old(pending)|
      ensures if old(pending)[k] in haz
              then gc == old(gc) && pending == old(pending) && free == old(free) && deleted == old(deleted)
              else && gc == old(gc)[..k] + old(gc)[k + 1..] && pending == old(pending)[..k] + old(pending)[k + 1..]
                   && free == [gcNode] + old(free) && deleted == old(deleted) + [old(pending)[k]]
    {
      assert gc[k].next == At(gc, k + 1, endNode);
      nextNode := gcNode.next;
      var objPtr := gcNode.gcPointer;
      assert objPtr == pending[k];
      var found := BinarySearch(allHazPtrs, objPtr);
      if !found {
        Reclaim(gcNode, k);
      }
    }

    /** The same turn, seen from the whole loop: `kept` and `keptObjs` come from earlier turns. */
    method SweepRound(gcNode: HazardNode, ghost haz: set<nat>, ghost l: seq<HazardNode>, ghost objs: seq<nat>, ghost i: nat,
                      ghost kept: seq<HazardNode>, ghost keptObjs: seq<nat>, ghost goal: Lists)
      returns (nextNode: HazardNode, ghost kept': seq<HazardNode>, ghost keptObjs': seq<nat>)
      requires Sound() && Sorted(allHazPtrs) && forall x :: x in allHazPtrs <==> x in haz
      requires OnCourse(Lists(gc, pending, free, deleted), goal, l, objs, haz, i, kept, keptObjs)
      requires i < |l| && gcNode == l[i]
      modifies this`gcList, this`gc, this`pending, this`deleted, this`freeList, this`free
      modifies (set n | n in fixed)`next, (set n | n in fixed)`gcPointer
      ensures Sound() && nextNode == At(l, i + 1, endNode)
      ensures OnCourse(Lists(gc, pending, free, deleted), goal, l, objs, haz, i + 1, kept', keptObjs')
    {
      SweepTurn(l, objs, haz, i, kept, keptObjs, free, deleted, endNode);
      hide Sound;
      hide Swept;
      nextNode := SweepOne(gcNode, haz, |kept|);
      kept', keptObjs' := kept, keptObjs;
      if objs[i] in haz {
        kept', keptObjs' := kept + [l[i]], keptObjs + [objs[i]];
      }
      assert free == if objs[i] in haz then old(free) else [l[i]] + old(free);
      assert deleted == if objs[i] in haz then old(deleted) else old(deleted) + [objs[i]];
    }

    /** The second loop of Collect. */
    method Sweep(ghost haz: set<nat>)
      requires Sound() && Sorted(allHazPtrs) && forall x :: x in allHazPtrs <==> x in haz
      modifies this`gcList, this`gc, this`pending, this`deleted, this`freeList, this`free
      modifies (set n | n in fixed)`next, (set n | n in fixed)`gcPointer
      ensures Sound() && |old(gc)| == |old(pending)|
      ensures gc == Kept(old(gc), old(pending), haz) && pending == KeptObjects(old(pending), haz)
      ensures free == Recycled(old(gc), old(pending), haz) + old(free)
      ensures deleted == old(deleted) + Unprotected(old(pending), haz)
    {
      ghost var l, objs, kept, keptObjs := gc, pending, [], [];
      var gcNode := gcList;
      ghost var i := 0;
      assert endNode !in l && |l| == |objs| && gcNode == At(l, 0, endNode);
      ghost var goal := SweepSpec(free, deleted, l, objs, haz);
      hide *;
      while gcNode != endNode
        invariant Sound() && 0 <= i <= |l| && gcNode == At(l, i, endNode)
        invariant OnCourse(Lists(gc, pending, free, deleted), goal, l, objs, haz, i, kept, keptObjs)
        decreases |l| - i
      {
        AtFacts(l, i, endNode);
        gcNode, kept, keptObjs := SweepRound(gcNode, haz, l, objs, i, kept, keptObjs, goal);
        i := i + 1;
      }
      AtFacts(l, i, endNode);
      Arrived(Lists(gc, pending, free, deleted), goal, l, objs, haz, kept, keptObjs);
    }

    /** The scan and the sort: all_haz_ptrs ends up sorted and holds exactly the hazards. */
    method SnapshotHazards()
      requires FixedOk() && allHazPtrs == []
      modifies this`allHazPtrs
      ensures Sorted(allHazPtrs) && forall x :: x in allHazPtrs <==> x in Hazards()
    {
      ScanHazards();
      var sorted := Sort(allHazPtrs);
      assert forall x :: x in sorted <==> x in multiset(sorted);
      assert forall x :: x in allHazPtrs <==> x in multiset(allHazPtrs);
      allHazPtrs := sorted;
    }

    method HaveDeletes() returns (any: bool)
      requires Sound()
      ensures any <==> gc != []
    {
      any := gcList != endNode;
      assert gc != [] ==> gcList == gc[0] && gc[0] in fixed;
    }

    /** all_haz_ptrs is emptied and the gc list looked at once more. */
    method FinishCollect() returns (done: bool)
      requires Sound()
      modifies this`allHazPtrs
      ensures Valid() && (done <==> gc == [])
    {
      var any := HaveDeletes();
      allHazPtrs := [];
      done := !any;
    }

    /** A collection without interference.  Exactly the records whose object no node protects leave
        the gc list, last one first, for the free list, and their objects are deleted in list order;
        protected records stay in order.  The early exit on an empty list reports false. */
    method Collect() returns (done: bool)
      requires Valid()
      modifies this`gcList, this`gc, this`pending, this`deleted, this`freeList, this`free, this`allHazPtrs
      modifies (set n | n in fixed)`next, (set n | n in fixed)`gcPointer
      ensures Valid() && |old(gc)| == |old(pending)|
      ensures gc == Kept(old(gc), old(pending), old(Hazards())) && pending == KeptObjects(old(pending), old(Hazards()))
      ensures free == Recycled(old(gc), old(pending), old(Hazards())) + old(free)
      ensures deleted == old(deleted) + Unprotected(old(pending), old(Hazards()))
      ensures done <==> old(gc) != [] && gc == []
    {
      assert |gc| == |pending|;
      ghost var haz := Hazards();
      EmptySweep(free, deleted, haz);
      hide FixedOk;
      hide QueuesOk;
      hide FieldsOk;
      hide BooksOk;
      hide Hazards;
      hide Sorted;
      hide Kept;
      hide KeptObjects;
      hide Recycled;
      hide Unprotected;
      var any := HaveDeletes();
      if !any {
        return false;
      }
      SnapshotHazards();
      Sweep(haz);
      done := FinishCollect();
    }

    // ---- Destruction ----

    /** The destructor's first loop: whatever is still protected is released. */
    method ReleaseAll()
      requires Valid()
      modifies this`freeList, this`free, (set n | n in fixed)`next, (set n | n in fixed)`pointer
      ensures Valid() && forall n :: n in fixed ==> n.pointer == 0
    {
      var node := nodes;
      ghost var i := 0;
      while node != endNode
        invariant Valid() && 0 <= i <= |fixed| && node == At(fixed, i, endNode)
        invariant forall j :: 0 <= j < i ==> fixed[j].pointer == 0
        decreases |fixed| - i
      {
        node := ReleaseNext(node, i);
        i := i + 1;
      }
      assert i == |fixed|;
    }

    method ReleaseNext(node: HazardNode, ghost i: nat) returns (following: HazardNode)
      requires Valid() && i < |fixed| && node == fixed[i]
      modifies this`freeList, this`free, node`next, node`pointer
      ensures Valid() && following == At(fixed, i + 1, endNode) && node.pointer == 0
    {
      assert fixed[i].fixedLink == At(fixed, i + 1, endNode);
      if node.pointer != 0 {
        assert node !in gc && node !in free;
        var _ := Release(node);
      }
      following := node.fixedLink;
    }

    /** The destructor's collection: nothing is protected any more, so nothing stays pending. */
    method CollectAll()
      requires Valid() && forall n :: n in fixed ==> n.pointer == 0
      modifies this`gcList, this`gc, this`pending, this`deleted, this`freeList, this`free, this`allHazPtrs
      modifies (set n | n in fixed)`next, (set n | n in fixed)`gcPointer
      ensures FixedOk() && multiset(deleted) == multiset(retired) && old(deleted) <= deleted
    {
      assert Hazards() == {};
      NothingHeld(gc, pending);
      hide FixedOk;
      hide QueuesOk;
      hide FieldsOk;
      var _ := Collect();
    }

    method ResetQueues()
      requires FixedOk()
      modifies this`gcList, this`freeList
      ensures FixedOk() && gcList == endNode && freeList == endNode
    {
      gcList, freeList := endNode, endNode;
    }

    /** The destructor's last loop: every node of the fixed list, then end_node. */
    method FreeNodes() returns (freed: seq<HazardNode>)
      requires FixedOk()
      modifies this`nodes
      ensures freed == fixed + [endNode]
    {
      freed := [];
      ghost var i := 0;
      var node := nodes;
      nodes := endNode;
      while node != endNode
        invariant 0 <= i <= |fixed| && node == At(fixed, i, endNode) && freed == fixed[..i]
        decreases |fixed| - i
      {
        var delNode := node;
        assert fixed[i].fixedLink == At(fixed, i + 1, endNode);
        node := node.fixedLink;
        freed := freed + [delNode];
        i := i + 1;
      }
      assert fixed[..i] == fixed;
      freed := freed + [endNode];
    }

    /** ~HazardPointerList: over the list's whole life every retired object has been deleted exactly as
        often as it was retired, and every node is freed exactly once. */
    method Destroy() returns (freed: seq<HazardNode>)
      requires Valid()
      modifies this, (set n | n in fixed)
      ensures multiset(deleted) == multiset(old(retired)) && old(deleted) <= deleted
      ensures freed == old(fixed) + [old(endNode)] && NoDup(freed)
    {
      assert endNode !in fixed && NoDup(fixed);
      hide Valid;
      hide FixedOk;
      ReleaseAll();
      CollectAll();
      ResetQueues();
      freed := FreeNodes();
    }
  }

  // ---- What the specification of Collect says ----

  /** With no hazards everything goes. */
  lemma {:induction false} NothingHeld(l: seq<HazardNode>, objs: seq<nat>)
    requires |l| == |objs|
    ensures Kept(l, objs, {}) == [] && KeptObjects(objs, {}) == [] && Unprotected(objs, {}) == objs
    decreases |l|
  {
    if l != [] {
      NothingHeld(l[1..], objs[1..]);
      assert objs == [objs[0]] + objs[1..];
    }
  }

  /** A record stays exactly when its object is hazardous, and is recycled exactly when it is not. */
  lemma {:induction false} KeptExactly(l: seq<HazardNode>, objs: seq<nat>, haz: set<nat>, i: nat)
    requires |l| == |objs| && NoDup(l) && i < |l|
    ensures l[i] in Kept(l, objs, haz) <==> objs[i] in haz
    ensures l[i] in Recycled(l, objs, haz) <==> objs[i] !in haz
    decreases |l|
  {
    KeptFrom(l[1..], objs[1..], haz);
    assert l == [l[0]] + l[1..];
    if i > 0 {
      KeptExactly(l[1..], objs[1..], haz, i - 1);
      assert l[1..][i - 1] == l[i];
    } else {
      assert l[0] !in l[1..];
    }
  }

  lemma {:induction false} KeptFrom(l: seq<HazardNode>, objs: seq<nat>, haz: set<nat>)
    requires |l| == |objs|
    ensures forall n :: n in Kept(l, objs, haz) ==> n in l
    ensures forall n :: n in Recycled(l, objs, haz) ==> n in l
    decreases |l|
  {
    if l != [] {
      KeptFrom(l[1..], objs[1..], haz);
    }
  }

  /** No object is lost or invented: those kept and those deleted make up those pending, and exactly
      the unprotected ones are deleted. */
  lemma {:induction false} DeletedExactly(objs: seq<nat>, haz: set<nat>)
    ensures multiset(KeptObjects(objs, haz)) + multiset(Unprotected(objs, haz)) == multiset(objs)
    ensures forall o :: o in KeptObjects(objs, haz) ==> o in haz
    ensures forall o :: o in Unprotected(objs, haz) ==> o !in haz
  {
    if objs != [] {
      DeletedExactly(objs[1..], haz);
      assert objs == [objs[0]] + objs[1..];
    }
  }

  /** Kept records keep their order. */
  ghost predicate Subsequence(a: seq<HazardNode>, b: seq<HazardNode>)
    decreases |b|
  {
    a == [] || (b != [] && ((a[0] == b[0] && Subsequence(a[1..], b[1..])) || Subsequence(a, b[1..])))
  }

  lemma {:induction false} KeptInOrder(l: seq<HazardNode>, objs: seq<nat>, haz: set<nat>)
    requires |l| == |objs|
    ensures Subsequence(Kept(l, objs, haz), l)
    decreases |l|
  {
    if l != [] {
      KeptInOrder(l[1..], objs[1..], haz);
      var k := Kept(l, objs, haz);
      if objs[0] in haz {
        assert k[1..] == Kept(l[1..], objs[1..], haz);
      } else {
        assert k == Kept(l[1..], objs[1..], haz);
      }
    }
  }

  datatype Lists = Lists(gc: seq<HazardNode>, pending: seq<nat>, free: seq<HazardNode>, deleted: seq<nat>)

  /** Sweeping the records `l` one after the other, given what earlier turns have produced. */
  function Swept(kept: seq<HazardNode>, keptObjs: seq<nat>, free: seq<HazardNode>, deleted: seq<nat>,
                 l: seq<HazardNode>, objs: seq<nat>, haz: set<nat>): Lists
    requires |l| == |objs|
    decreases |l|
  {
    if l == [] then Lists(kept, keptObjs, free, deleted)
    else if objs[0] in haz then Swept(kept + [l[0]], keptObjs + [objs[0]], free, deleted, l[1..], objs[1..], haz)
    else Swept(kept, keptObjs, [l[0]] + free, deleted + [objs[0]], l[1..], objs[1..], haz)
  }

  /** Turn by turn or all at once, the result is the same. */
  lemma {:induction false} SweptResult(kept: seq<HazardNode>, keptObjs: seq<nat>, free: seq<HazardNode>, deleted: seq<nat>,
                                       l: seq<HazardNode>, objs: seq<nat>, haz: set<nat>)
    requires |l| == |objs|
    ensures Swept(kept, keptObjs, free, deleted, l, objs, haz)
            == Lists(kept + Kept(l, objs, haz), keptObjs + KeptObjects(objs, haz),
                     Recycled(l, objs, haz) + free, deleted + Unprotected(objs, haz))
    decreases |l|
  {
    if l != [] {
      if objs[0] in haz {
        SweptResult(kept + [l[0]], keptObjs + [objs[0]], free, deleted, l[1..], objs[1..], haz);
      } else {
        SweptResult(kept, keptObjs, [l[0]] + free, deleted + [objs[0]], l[1..], objs[1..], haz);
      }
    }
  }

  lemma AtFacts(l: seq<HazardNode>, i: nat, end: HazardNode)
    requires i <= |l| && end !in l
    ensures At(l, i, end) == end <==> i == |l|
    ensures i < |l| ==> At(l, i, end) == l[i]
  {
  }

  /** After `i` turns: the gc list is what was kept plus what is left, and the rest of the sweep leads
      to `goal`. */
  ghost predicate OnCourse(now: Lists, goal: Lists, l: seq<HazardNode>, objs: seq<nat>, haz: set<nat>, i: nat,
                           kept: seq<HazardNode>, keptObjs: seq<nat>) {
    && i <= |l| == |objs| && |kept| == |keptObjs|
    && now.gc == kept + l[i..] && now.pending == keptObjs + objs[i..]
    && Swept(kept, keptObjs, now.free, now.deleted, l[i..], objs[i..], haz) == goal
  }

  lemma EmptySweep(free: seq<HazardNode>, deleted: seq<nat>, haz: set<nat>)
    ensures Kept([], [], haz) == [] && KeptObjects([], haz) == []
    ensures Recycled([], [], haz) + free == free && deleted + Unprotected([], haz) == deleted
  {
  }

  lemma SweepSpec(free: seq<HazardNode>, deleted: seq<nat>, l: seq<HazardNode>, objs: seq<nat>, haz: set<nat>)
    returns (goal: Lists)
    requires |l| == |objs|
    ensures OnCourse(Lists(l, objs, free, deleted), goal, l, objs, haz, 0, [], [])
    ensures goal == Lists(Kept(l, objs, haz), KeptObjects(objs, haz),
                          Recycled(l, objs, haz) + free, deleted + Unprotected(objs, haz))
  {
    SweptResult([], [], free, deleted, l, objs, haz);
    goal := Swept([], [], free, deleted, l, objs, haz);
    assert l[0..] == l && objs[0..] == objs;
  }

  lemma Arrived(now: Lists, goal: Lists, l: seq<HazardNode>, objs: seq<nat>, haz: set<nat>,
                kept: seq<HazardNode>, keptObjs: seq<nat>)
    requires OnCourse(now, goal, l, objs, haz, |l|, kept, keptObjs)
    ensures now == goal
  {
    assert l[|l|..] == [] && objs[|l|..] == [];
  }

  /** What one turn of the loop does to the sequences. */
  lemma SweepTurn(l: seq<HazardNode>, objs: seq<nat>, haz: set<nat>, i: nat,
                  kept: seq<HazardNode>, keptObjs: seq<nat>, free: seq<HazardNode>, deleted: seq<nat>, end: HazardNode)
    requires i < |l| == |objs| && |kept| == |keptObjs|
    ensures var gc, pending, k := kept + l[i..], keptObjs + objs[i..], |kept|;
            && k < |gc| && gc[k] == l[i] && pending[k] == objs[i] && At(gc, k + 1, end) == At(l, i + 1, end)
            && gc == kept + [l[i]] + l[i + 1..] && gc[..k] + gc[k + 1..] == kept + l[i + 1..]
            && pending == keptObjs + [objs[i]] + objs[i + 1..] && pending[..k] + pending[k + 1..] == keptObjs + objs[i + 1..]
    ensures Swept(kept, keptObjs, free, deleted, l[i..], objs[i..], haz)
            == if objs[i] in haz
               then Swept(kept + [l[i]], keptObjs + [objs[i]], free, deleted, l[i + 1..], objs[i + 1..], haz)
               else Swept(kept, keptObjs, [l[i]] + free, deleted + [objs[i]], l[i + 1..], objs[i + 1..], haz)
  {
    assert l[i..][1..] == l[i + 1..] && objs[i..][1..] == objs[i + 1..];
    assert kept + l[i..] == kept + [l[i]] + l[i + 1..];
    assert keptObjs + objs[i..] == keptObjs + [objs[i]] + objs[i + 1..];
  }

  lemma Regroup(n: HazardNode, a: seq<HazardNode>, b: seq<HazardNode>)
    ensures [n] + (a + b) == [n] + a + b
  {
  }

  lemma BooksRetire(retired: seq<nat>, pending: seq<nat>, deleted: seq<nat>, obj: nat)
    requires Balanced(retired, pending, deleted)
    ensures Balanced(retired + [obj], [obj] + pending, deleted)
  {
  }

  lemma BooksDelete(retired: seq<nat>, pending: seq<nat>, deleted: seq<nat>, k: nat)
    requires Balanced(retired, pending, deleted) && k < |pending|
    ensures Balanced(retired, pending[..k] + pending[k + 1..], deleted + [pending[k]])
  {
    assert pending == pending[..k] + [pending[k]] + pending[k + 1..];
  }

  lemma CutFacts(l: seq<HazardNode>, k: nat)
    requires NoDup(l) && k < |l|
    ensures NoDup(l[..k] + l[k + 1..])
    ensures forall n :: n in l[..k] + l[k + 1..] <==> n in l && n != l[k]
  {
    var c := l[..k] + l[k + 1..];
    forall n
      ensures n in c <==> n in l && n != l[k]
    {
      if n in l && n != l[k] {
        var i :| 0 <= i < |l| && l[i] == n;
        assert n == if i < k then c[i] else c[i - 1];
      }
    }
  }
}
