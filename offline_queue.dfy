/** The client's durable offline queue: an IndexedDB object store with auto-incremented
    keys, and the dispatcher that replays its snapshot against the API one request at a
    time, deleting an entry only once its request has succeeded. */
module OfflineQueue {
  import opened Common

  datatype HttpMethod = POST | PUT | PATCH | DELETE

  /** A request body: a JSON object. */
  type Payload = map<string, Value>

  /** What `addToQueue` is given: the request without key and timestamp. */
  datatype Request = Request(url: string, verb: HttpMethod, data: Payload)

  /** A stored entry: the request, the key the store assigned, the time it was written. */
  datatype Entry = Entry(id: nat, request: Request, timestamp: int)

  /** Every stored entry sits under its own key. */
  ghost predicate KeyedById(m: map<nat, Entry>) {
    forall k :: k in m ==> m[k].id == k
  }

  /** The entries of `m` with key below `n`, in ascending key order: what `getAll` returns. */
  function InKeyOrder(m: map<nat, Entry>, n: nat): seq<Entry> {
    if n == 0 then [] else InKeyOrder(m, n - 1) + (if n - 1 in m then [m[n - 1]] else [])
  }

  /** The keys of the snapshot entries whose request succeeded. */
  function SucceededKeys(q: seq<Entry>, ok: seq<bool>): set<nat>
    requires |q| == |ok|
  {
    if q == [] then {}
    else SucceededKeys(q[..|q| - 1], ok[..|ok| - 1]) + (if ok[|ok| - 1] then {q[|q| - 1].id} else {})
  }

  /** `InKeyOrder` lists exactly the stored entries below `n`, each once, keys strictly increasing. */
  lemma {:induction false} InKeyOrderExact(m: map<nat, Entry>, n: nat)
    requires KeyedById(m)
    ensures forall i :: 0 <= i < |InKeyOrder(m, n)| ==>
      InKeyOrder(m, n)[i].id in m && m[InKeyOrder(m, n)[i].id] == InKeyOrder(m, n)[i] && InKeyOrder(m, n)[i].id < n
    ensures forall k :: k in m && k < n ==> m[k] in InKeyOrder(m, n)
    ensures forall i, j :: 0 <= i < j < |InKeyOrder(m, n)| ==> InKeyOrder(m, n)[i].id < InKeyOrder(m, n)[j].id
  {
    if n > 0 {
      InKeyOrderExact(m, n - 1);
      var s := InKeyOrder(m, n - 1);
      assert InKeyOrder(m, n) == s + (if n - 1 in m then [m[n - 1]] else []);
      forall k | k in m && k < n ensures m[k] in InKeyOrder(m, n) {
        if k < n - 1 {
          assert m[k] in s;
        } else {
          assert InKeyOrder(m, n)[|InKeyOrder(m, n)| - 1] == m[k];
        }
      }
    }
  }

  lemma SucceededKeysSnoc(q: seq<Entry>, ok: seq<bool>, e: Entry, b: bool)
    requires |q| == |ok|
    ensures SucceededKeys(q + [e], ok + [b]) == SucceededKeys(q, ok) + (if b then {e.id} else {})
  {
    assert (q + [e])[..|q|] == q;
    assert (ok + [b])[..|ok|] == ok;
  }

  lemma RemoveBoth(m: map<nat, Entry>, a: set<nat>, b: set<nat>)
    ensures (m - a) - b == m - (a + b)
  {
  }

  /** A key that succeeded belongs to the snapshot. */
  lemma {:induction false} SucceededKeysIn(q: seq<Entry>, ok: seq<bool>, k: nat)
    requires |q| == |ok|
    requires k in SucceededKeys(q, ok)
    ensures exists i :: 0 <= i < |q| && q[i].id == k && ok[i]
  {
    if q != [] {
      var n := |q| - 1;
      if k in SucceededKeys(q[..n], ok[..n]) {
        SucceededKeysIn(q[..n], ok[..n], k);
        var i :| 0 <= i < n && q[..n][i].id == k && ok[..n][i];
        assert q[i].id == k && ok[i];
      } else {
        assert q[n].id == k && ok[n];
      }
    }
  }

  /** With distinct keys, an entry's key succeeded exactly when its own request did. */
  lemma {:induction false} SucceededKeysExact(q: seq<Entry>, ok: seq<bool>, i: nat)
    requires |q| == |ok| && i < |q|
    requires forall a, b :: 0 <= a < b < |q| ==> q[a].id < q[b].id
    ensures q[i].id in SucceededKeys(q, ok) <==> ok[i]
  {
    var n := |q| - 1;
    if i < n {
      SucceededKeysExact(q[..n], ok[..n], i);
      assert q[..n][i] == q[i] && ok[..n][i] == ok[i];
      assert q[i].id != q[n].id;
    } else if q[i].id in SucceededKeys(q[..n], ok[..n]) {
      SucceededKeysIn(q[..n], ok[..n], q[i].id);
      assert false;
    }
  }

  /** After a replay, a snapshot entry is still stored exactly when its request failed. */
  lemma FailedStay(q: seq<Entry>, ok: seq<bool>, before: map<nat, Entry>, after: map<nat, Entry>)
    requires |q| == |ok|
    requires forall a, b :: 0 <= a < b < |q| ==> q[a].id < q[b].id
    requires forall i :: 0 <= i < |q| ==> q[i].id in before
    requires after == before - SucceededKeys(q, ok)
    ensures forall i :: 0 <= i < |q| ==> (q[i].id in after <==> !ok[i])
  {
    forall i | 0 <= i < |q| ensures (q[i].id in after <==> !ok[i]) {
      SucceededKeysExact(q, ok, i);
    }
  }

  class OfflineStore {
    /** The object store 'offline-queue' of database 'frontlinesafe-db'. */
    var entries: map<nat, Entry>
    /** The store's key generator: the key the next `add` receives. */
    var nextKey: nat

    ghost predicate Valid()
      reads this
    {
      && 1 <= nextKey
      && KeyedById(entries)
      && forall k :: k in entries ==> 1 <= k < nextKey
    }

    /** The store as `getAll` sees it: every entry, in key order. */
    function Snapshot(): seq<Entry>
      reads this
    {
      InKeyOrder(entries, nextKey)
    }

    /** `createObjectStore(..., { keyPath: 'id', autoIncrement: true })`: empty, keys from 1. */
    constructor ()
      ensures Valid() && entries == map[] && nextKey == 1
    {
      entries := map[];
      nextKey := 1;
    }

    /** `addToQueue`: stores the request with the current time under a fresh key. */
    method AddToQueue(r: Request, now: int)
      requires Valid()
      modifies this
      ensures Valid()
      ensures old(nextKey) !in old(entries)
      ensures entries == old(entries)[old(nextKey) := Entry(old(nextKey), r, now)]
      ensures nextKey == old(nextKey) + 1
    {
      entries := entries[nextKey := Entry(nextKey, r, now)];
      nextKey := nextKey + 1;
    }

    /** `getQueue`: every stored entry, each once, in key order; nothing is removed. */
    method GetQueue() returns (q: seq<Entry>)
      requires Valid()
      ensures forall i :: 0 <= i < |q| ==> q[i].id in entries && entries[q[i].id] == q[i]
      ensures forall k :: k in entries ==> entries[k] in q
      ensures forall i, j :: 0 <= i < j < |q| ==> q[i].id < q[j].id
      ensures q == Snapshot()
    {
      q := InKeyOrder(entries, nextKey);
      InKeyOrderExact(entries, nextKey);
    }

    /** `removeFromQueue`: deletes entry `id` only; an absent id leaves the store as it is. */
    method RemoveFromQueue(id: nat)
      requires Valid()
      modifies this
      ensures Valid()
      ensures entries == old(entries) - {id}
      ensures id !in old(entries) ==> entries == old(entries)
      ensures nextKey == old(nextKey)
    {
      entries := entries - {id};
    }

    /** `clearQueue`: empties the store. IndexedDB's clear keeps the key generator. */
    method ClearQueue()
      requires Valid()
      modifies this
      ensures Valid()
      ensures entries == map[] && nextKey == old(nextKey)
    {
      entries := map[];
    }

    /** One iteration of `processQueue`'s loop: `await api({ method, url, data })`, whose
        outcome is nondeterministic, then `if (id) await removeFromQueue(id)` on success. */
    method Replay(e: Entry) returns (ok: bool)
      requires Valid()
      modifies this
      ensures Valid() && nextKey == old(nextKey)
      ensures entries == old(entries) - (if ok then {e.id} else {})
    {
      ok := *;
      if ok && e.id != 0 {
        RemoveFromQueue(e.id);
      }
    }

    /** `processQueue`: replays the snapshot in key order, one request at a time. The
        network's answer to each request is nondeterministic; `issued` lists the requests
        sent and `succeeded` the answers. Only succeeded entries are removed, and a
        failure does not stop the loop. */
    method ProcessQueue() returns (issued: seq<Request>, succeeded: seq<bool>)
      requires Valid()
      modifies this
      ensures Valid()
      ensures |issued| == |succeeded| == |old(Snapshot())|
      ensures forall i :: 0 <= i < |issued| ==> issued[i] == old(Snapshot())[i].request
      ensures entries == old(entries) - SucceededKeys(old(Snapshot()), succeeded)
      ensures forall i :: 0 <= i < |issued| ==> (old(Snapshot())[i].id in entries <==> !succeeded[i])
      ensures forall k :: k in entries ==> k in old(entries) && entries[k] == old(entries)[k]
      ensures nextKey == old(nextKey)
    {
      var queue := GetQueue();
      ghost var stored := entries;
      ghost var done: set<nat> := {};
      issued, succeeded := [], [];
      if |queue| == 0 {
        return;
      }
      var i := 0;
      while i < |queue|
        invariant 0 <= i <= |queue|
        invariant Valid() && nextKey == old(nextKey)
        invariant |issued| == |succeeded| == i
        invariant forall j :: 0 <= j < i ==> issued[j] == queue[j].request
        invariant done == SucceededKeys(queue[..i], succeeded)
        invariant entries == stored - done
        decreases |queue| - i
      {
        var request := queue[i];
        ghost var answered := succeeded;
        var ok := Replay(request);
        issued := issued + [request.request];
        succeeded := succeeded + [ok];
        RemoveBoth(stored, done, if ok then {request.id} else {});
        done := done + (if ok then {request.id} else {});
        SucceededKeysSnoc(queue[..i], answered, request, ok);
        assert queue[..i + 1] == queue[..i] + [request];
        i := i + 1;
      }
      assert queue[..i] == queue;
      FailedStay(queue, succeeded, old(entries), entries);
    }
  }
}
