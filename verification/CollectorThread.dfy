/** CollectorThread and its two vectors, updated in place while data_lock is held. */
module CollectorThreadObject {
  import opened Registry
  import opened RegistryInvariant

  /** A client as the collector sees it; `collections` counts the calls of its Collect. */
  class Client {
    var state: ClientState
    var collectorThread: CollectorThread?
    var haveDeletes: bool
    ghost var collections: nat

    constructor ()
      ensures state == Unregistered && collectorThread == null && !haveDeletes && collections == 0
    {
      state, collectorThread, haveDeletes, collections := Unregistered, null, false, 0;
    }

    /** Whether records stay behind differs from call to call; the result reports it. */
    method Collect() returns (emptied: bool)
      modifies `haveDeletes, `collections
      ensures emptied == !haveDeletes && collections == old(collections) + 1
    {
      emptied := *;
      haveDeletes, collections := !emptied, collections + 1;
    }
  }

  predicate Distinct(l: seq<Client>) {
    forall i, j :: 0 <= i < j < |l| ==> l[i] != l[j]
  }

  class CollectorThread {
    var clients: seq<Client>
    var clientsID: seq<nat>
    var idValue: nat

    ghost predicate Valid()
      reads this
    {
      && |clients| == |clientsID| && Distinct(clients) && Increasing(clientsID)
      && forall i :: 0 <= i < |clientsID| ==> 0 < clientsID[i] <= idValue
    }

    /** No client is being collected, and none in the vectors is unregistered. */
    ghost predicate Quiet()
      reads this, clients
    {
      forall c :: c in clients ==> c.state == Registered || c.state == Deleting
    }

    constructor ()
      ensures Valid() && clients == [] && clientsID == [] && idValue == 0
    {
      clients, clientsID, idValue := [], [], 0;
    }

    method RegisterClient(client: Client)
      requires Valid() && client !in clients
      requires client.state == Unregistered && client.collectorThread == null
      modifies this, client`state, client`collectorThread
      ensures Valid() && client.state == Registered && client.collectorThread == this
      ensures idValue == old(idValue) + 1
      ensures clients == old(clients) + [client] && clientsID == old(clientsID) + [idValue]
    {
      clients := clients + [client];
      idValue := idValue + 1;
      clientsID := clientsID + [idValue];
      client.state := Registered;
      client.collectorThread := this;
    }

    /** The locked part of DeregisterClient: search, erase from both vectors, reset the state. */
    method EraseClient(client: Client)
      requires Valid() && client in clients && client.state == Deleting
      modifies `clients, `clientsID, client`state
      ensures Valid() && client !in clients && client.state == Unregistered
      ensures exists k ::
          && 0 <= k < |old(clients)| && old(clients)[k] == client
          && clients == old(clients)[..k] + old(clients)[k + 1..]
          && clientsID == old(clientsID)[..k] + old(clientsID)[k + 1..]
    {
      var k := 0;
      while k < |clients| && clients[k] != client
        invariant 0 <= k <= |clients| && client !in clients[..k]
      {
        k := k + 1;
      }
      assert k < |clients|;  // otherwise CHECK_ASSERT(false)
      clients := clients[..k] + clients[k + 1..];
      clientsID := clientsID[..k] + clientsID[k + 1..];
      client.state := Unregistered;
    }

    /** A client the pass should stop at: later than `curr`, with records, and not being deleted. */
    ghost predicate Candidate(i: nat, curr: nat)
      requires Valid() && i < |clients|
      reads this, clients
    {
      clientsID[i] > curr && clients[i].haveDeletes && clients[i].state == Registered
    }

    /** The scan under the lock: it stops at the first candidate and claims it, or passes them all. */
    method NextCandidate(curr: nat) returns (next: nat, ghost k: nat, found: Client?)
      requires Valid() && Quiet()
      modifies (set c | c in clients)`state
      ensures curr <= next && (next == curr || next in clientsID) && k <= |clients|
      ensures forall i :: 0 <= i < k ==> !old(Candidate(i, curr))
      ensures found == null ==> k == |clients| && forall i :: 0 <= i < k ==> clientsID[i] <= next
      ensures found != null ==> k < |clients| && clients[k] == found && clientsID[k] == next
      ensures found != null ==> old(Candidate(k, curr)) && found.state == Collecting
      ensures forall c :: c in clients && c != found ==> c.state == old(c.state)
    {
      next, k, found := curr, 0, null;
      var ix := 0;
      while ix < |clientsID| && found == null
        invariant 0 <= k <= ix <= |clientsID| && curr <= next && (next == curr || next in clientsID)
        invariant forall i :: 0 <= i < ix ==> clientsID[i] <= next
        invariant forall i :: ix <= i < |clientsID| && found == null && clientsID[i] > curr ==> clientsID[i] > next
        invariant forall i :: 0 <= i < k ==> !old(Candidate(i, curr))
        invariant found == null ==> k == ix
        invariant found != null ==> k + 1 == ix && clients[k] == found && clientsID[k] == next
        invariant found != null ==> old(Candidate(k, curr)) && found.state == Collecting
        invariant forall c :: c in clients && c != found ==> c.state == old(c.state)
      {
        if clientsID[ix] > next {
          next := clientsID[ix];
          var client := clients[ix];
          if client.haveDeletes && client.state == Registered {
            client.state := Collecting;
            found := client;
          }
        }
        ix := ix + 1;
        k := if found == null then ix else ix - 1;
      }
    }

    /** One round of the loop: claim the next candidate, collect it without the lock, give it back. */
    method CollectNext(curr: nat) returns (next: nat, ghost k: nat, found: Client?)
      requires Valid() && Quiet()
      modifies (set c | c in clients)
      ensures curr <= next && (next == curr || next in clientsID) && k <= |clients|
      ensures forall i :: 0 <= i < k ==> !old(Candidate(i, curr))
      ensures found == null ==> k == |clients| && forall i :: 0 <= i < k ==> clientsID[i] <= next
      ensures found != null ==> k < |clients| && clients[k] == found && clientsID[k] == next && old(Candidate(k, curr))
      ensures forall c :: c in clients ==> c.state == old(c.state)
      ensures forall c :: c in clients && c != found ==>
          c.haveDeletes == old(c.haveDeletes) && c.collections == old(c.collections)
      ensures found != null ==> found.collections == old(found.collections) + 1
    {
      next, k, found := NextCandidate(curr);
      if found != null {
        var emptied := found.Collect();
        assert found.state == Collecting;  // otherwise CHECK_ASSERT(false)
        found.state := Registered;
      }
    }

    // ---- The whole pass ----

    ghost function Have(): (h: seq<bool>)
      reads this, clients
      ensures |h| == |clients| && forall i :: 0 <= i < |h| ==> h[i] == clients[i].haveDeletes
    {
      seq(|clients|, i requires 0 <= i < |clients| reads this, clients => clients[i].haveDeletes)
    }

    ghost function Counts(): (n: seq<nat>)
      reads this, clients
      ensures |n| == |clients| && forall i :: 0 <= i < |n| ==> n[i] == clients[i].collections
    {
      seq(|clients|, i requires 0 <= i < |clients| reads this, clients => clients[i].collections)
    }

    /** The clients a pass has to serve. */
    ghost function Due(): (d: seq<bool>)
      reads this, clients
      ensures |d| == |clients|
      ensures forall i :: 0 <= i < |d| ==> d[i] == (clients[i].haveDeletes && clients[i].state == Registered)
    {
      seq(|clients|, i requires 0 <= i < |clients| reads this, clients =>
          clients[i].haveDeletes && clients[i].state == Registered)
    }

    /** The same round in terms of these sequences. */
    method CollectRound(curr: nat) returns (next: nat, ghost k: nat, more: bool, left: bool)
      requires Valid() && Quiet()
      modifies (set c | c in clients)
      ensures forall c :: c in clients ==> c.state == old(c.state)
      ensures curr <= next && (next == curr || next in clientsID)
      ensures Round(clientsID, old(Due()), old(Have()), old(Counts()), Have(), Counts(), curr, next, k, more, left)
    {
      var found;
      next, k, found := CollectNext(curr);
      more := found != null;
      left := found != null && found.haveDeletes;
      assert forall i :: 0 <= i < |clients| && clients[i] == found ==> i == k;
      forall i | 0 <= i < k && clientsID[i] > curr
        ensures !old(Due())[i]
      {
        assert !old(Candidate(i, curr));
      }
      assert more ==> Have() == old(Have())[k := left] && Counts() == old(Counts())[k := old(Counts())[k] + 1];
      assert !more ==> Have() == old(Have()) && Counts() == old(Counts());
    }

    /**
     * A whole pass with no other thread in between: every client that had records and was not
     * being deleted is collected exactly once, no other client is, all states come back, and the
     * result says whether a collected client still has records.
     */
    method Collect() returns (pending: bool)
      requires Valid() && Quiet()
      modifies (set c | c in clients)
      ensures forall c :: c in clients ==> c.state == old(c.state)
      ensures forall i :: 0 <= i < |clients| ==>
          clients[i].collections == old(clients[i].collections) + (if old(Candidate(i, 0)) then 1 else 0)
      ensures pending <==> exists i :: 0 <= i < |clients| && old(Candidate(i, 0)) && clients[i].haveDeletes
    {
      ghost var due, had, counts := Due(), Have(), Counts();
      var curr, more := 0, true;
      pending := false;
      while more
        invariant curr <= idValue && Progress(clientsID, due, had, counts, Have(), Counts(), curr, pending)
        invariant forall c :: c in clients ==> c.state == old(c.state)
        invariant !more ==> forall i :: 0 <= i < |clients| ==> clientsID[i] <= curr
        decreases more, idValue - curr
      {
        ghost var due0, have, now := Due(), Have(), Counts();
        ghost var k;
        var next, left;
        next, k, more, left := CollectRound(curr);
        RoundKeeps(clientsID, due, had, counts, due0, have, now, Have(), Counts(), curr, next, k, more, left, pending);
        curr, pending := next, pending || left;
      }
      assert pending <==> exists i :: 0 <= i < |clients| && due[i] && clients[i].haveDeletes;
    }
  }

  /** What one round does: it serves index `k`, the first one due after `curr`, or finds none. */
  ghost predicate Round(ids: seq<nat>, due: seq<bool>, have: seq<bool>, now: seq<nat>, have': seq<bool>, now': seq<nat>,
                        curr: nat, next: nat, k: nat, more: bool, left: bool) {
    && |due| == |have| == |now| == |ids| && k <= |ids|
    && (forall i :: 0 <= i < k && ids[i] > curr ==> !due[i])
    && if more
       then k < |ids| && ids[k] == next > curr && due[k] && have' == have[k := left] && now' == now[k := now[k] + 1]
       else k == |ids| && have' == have && now' == now && !left && forall i :: 0 <= i < k ==> ids[i] <= next
  }

  /** Where a pass stands: ids up to `curr` have been dealt with, the others are as at the start. */
  ghost predicate Progress(ids: seq<nat>, due: seq<bool>, had: seq<bool>, counts: seq<nat>, have: seq<bool>, now: seq<nat>,
                           curr: nat, pending: bool) {
    && |due| == |had| == |counts| == |have| == |now| == |ids|
    && (forall i :: 0 <= i < |ids| && ids[i] <= curr ==> now[i] == counts[i] + (if due[i] then 1 else 0))
    && (forall i :: 0 <= i < |ids| && ids[i] > curr ==> now[i] == counts[i] && have[i] == had[i])
    && (pending <==> exists i :: 0 <= i < |ids| && ids[i] <= curr && due[i] && have[i])
  }

  lemma RoundKeeps(ids: seq<nat>, due: seq<bool>, had: seq<bool>, counts: seq<nat>, due0: seq<bool>, have: seq<bool>, now: seq<nat>,
                   have': seq<bool>, now': seq<nat>, curr: nat, next: nat, k: nat, more: bool, left: bool, pending: bool)
    requires Increasing(ids) && curr <= next && Progress(ids, due, had, counts, have, now, curr, pending)
    requires Round(ids, due0, have, now, have', now', curr, next, k, more, left)
    requires forall i :: 0 <= i < |ids| && ids[i] > curr ==> due0[i] == due[i]
    ensures Progress(ids, due, had, counts, have', now', next, pending || left)
  {
    forall i | 0 <= i < |ids| && curr < ids[i] <= next
      ensures due[i] <==> more && i == k
    {
      assert more ==> i <= k;
    }
    if i :| 0 <= i < |ids| && ids[i] <= curr && due[i] && have[i] {
      assert have'[i];
    }
  }
}
