/** `unregister_entries` and `cancel_pending_for_upstream` collect their keys from hash maps. The
    order they find them in does not matter. */
module GateOrders {
  import opened Orders
  import opened GateModel
  import GateConsistency

  // ---- Telling the retired buses' channels ----

  ghost predicate Tells(w: World, buses: seq<BusId>, tx: Sender)
  {
    exists b :: b in buses && tx in Channels(w.BusOf(b).subs)
  }

  lemma {:induction false} BroadcastSlots(w: World, buses: seq<BusId>, tx: Sender)
    ensures var w' := BroadcastAll(w, buses);
            && w' == w.(slot := w'.slot)
            && (tx in w'.slot <==> tx in w.slot || Tells(w, buses, tx))
            && (tx in w'.slot ==> w'.slot[tx] == if Tells(w, buses, tx) then UpstreamGone else w.slot[tx])
    decreases |buses|
  {
    if buses != [] {
      var l := |buses| - 1;
      BroadcastSlots(w, buses[..l], tx);
      assert buses == buses[..l] + [buses[l]];
      assert Tells(w, buses, tx) <==> Tells(w, buses[..l], tx) || tx in Channels(w.BusOf(buses[l]).subs);
    }
  }

  lemma BroadcastOrder(w: World, a: seq<BusId>, b: seq<BusId>)
    requires forall x :: x in a <==> x in b
    ensures BroadcastAll(w, a) == BroadcastAll(w, b)
  {
    var s, t := BroadcastAll(w, a), BroadcastAll(w, b);
    forall tx ensures (tx in s.slot <==> tx in t.slot) && (tx in s.slot ==> s.slot[tx] == t.slot[tx]) {
      BroadcastSlots(w, a, tx);
      BroadcastSlots(w, b, tx);
    }
    assert s.slot == t.slot;
    BroadcastSlots(w, a, 0);
    BroadcastSlots(w, b, 0);
  }

  lemma RetireOrder(w: World, a: seq<BusKey>, b: seq<BusKey>)
    requires (forall k :: k in a <==> k in b) && forall k :: k in a ==> k in w.buses
    ensures Retire(w, a) == Retire(w, b)
  {
    var ka := set k | k in a;
    var kb := set k | k in b;
    assert ka == kb;
    RetiredMembers(w.buses, a, b);
    RetiredMembers(w.buses, b, a);
    BroadcastOrder(w.(buses := w.buses - ka), Retired(w.buses, a), Retired(w.buses, b));
  }

  lemma RetiredMembers(buses: map<BusKey, BusId>, a: seq<BusKey>, b: seq<BusKey>)
    requires (forall k :: k in a <==> k in b) && forall k :: k in a ==> k in buses
    ensures forall x :: x in Retired(buses, a) ==> x in Retired(buses, b)
  {
    forall x | x in Retired(buses, a) ensures x in Retired(buses, b) {
      var i :| 0 <= i < |a| && Retired(buses, a)[i] == x;
      assert a[i] in b;
      var j :| 0 <= j < |b| && b[j] == a[i];
      assert Retired(buses, b)[j] == x;
    }
  }

  // ---- Requeueing the rows ----

  /** A live record of the rows of `keys`. */
  ghost predicate Rowed(w: World, keys: set<BusKey>, k: BusKey, i: int)
  {
    k in keys && k in w.subscribers && 0 <= i < |w.subscribers[k]| && Live(w, w.subscribers[k][i].stats)
  }

  /** None of them has this id, or this channel. */
  ghost predicate NoId(w: World, keys: set<BusKey>, id: HandleId)
  {
    forall k, i :: Rowed(w, keys, k, i) ==> w.subscribers[k][i].handleId != id
  }

  ghost predicate NoChannel(w: World, keys: set<BusKey>, tx: Sender)
  {
    forall k, i :: Rowed(w, keys, k, i) ==> w.subscribers[k][i].sender != tx
  }

  /** `w'` is `w` with the live records of those rows back among the waiters, and told; and nothing
      else touched. */
  ghost predicate Moved(w: World, keys: set<BusKey>, w': World)
  {
    && w'.buses == w.buses && w'.bus == w.bus && w'.stats == w.stats && w'.subscribers == w.subscribers - keys
    && (forall k, i :: Rowed(w, keys, k, i) ==> Waits(w', w.subscribers[k][i], k))
    && (forall id :: NoId(w, keys, id) ==> SamePending(w, w', id))
    && (forall tx :: NoChannel(w, keys, tx) ==> SameSlot(w, w', tx))
  }

  predicate Waits(w: World, r: Subscriber, k: BusKey)
  {
    && r.handleId in w.pending && w.pending[r.handleId] == r.ToWaiter(k)
    && r.sender in w.slot && w.slot[r.sender] == UpstreamGone
  }

  predicate SamePending(w: World, w': World, id: HandleId)
  {
    (id in w'.pending <==> id in w.pending) && (id in w.pending ==> w'.pending[id] == w.pending[id])
  }

  predicate SameSlot(w: World, w': World, tx: Sender)
  {
    (tx in w'.slot <==> tx in w.slot) && (tx in w.slot ==> w'.slot[tx] == w.slot[tx])
  }

  /** That says all there is to say. */
  lemma MovedDetermines(w: World, keys: set<BusKey>, a: World, b: World)
    requires Moved(w, keys, a) && Moved(w, keys, b)
    ensures a == b
  {
    forall id ensures (id in a.pending <==> id in b.pending) && (id in a.pending ==> a.pending[id] == b.pending[id]) {
      if k, i :| Rowed(w, keys, k, i) && w.subscribers[k][i].handleId == id {
        assert Waits(a, w.subscribers[k][i], k) && Waits(b, w.subscribers[k][i], k);
      } else {
        assert NoId(w, keys, id);
        assert SamePending(w, a, id) && SamePending(w, b, id);
      }
    }
    forall tx ensures (tx in a.slot <==> tx in b.slot) && (tx in a.slot ==> a.slot[tx] == b.slot[tx]) {
      if k, i :| Rowed(w, keys, k, i) && w.subscribers[k][i].sender == tx {
        assert Waits(a, w.subscribers[k][i], k) && Waits(b, w.subscribers[k][i], k);
      } else {
        assert NoChannel(w, keys, tx);
        assert SameSlot(w, a, tx) && SameSlot(w, b, tx);
      }
    }
    assert a.pending == b.pending && a.slot == b.slot;
  }

  ghost predicate AllApart(refs: seq<Subscriber>)
  {
    forall i, j :: 0 <= i < j < |refs| ==> Apart(refs[i], refs[j])
  }

  /** The same of one row. */
  ghost predicate RowMoved(w: World, key: BusKey, refs: seq<Subscriber>, w': World)
  {
    && w'.buses == w.buses && w'.bus == w.bus && w'.stats == w.stats && w'.subscribers == w.subscribers
    && (forall i :: 0 <= i < |refs| && Live(w, refs[i].stats) ==> Waits(w', refs[i], key))
    && (forall id :: NoRowId(w, refs, id) ==> SamePending(w, w', id))
    && (forall tx :: NoRowChannel(w, refs, tx) ==> SameSlot(w, w', tx))
  }

  ghost predicate NoRowId(w: World, refs: seq<Subscriber>, id: HandleId)
  {
    forall i :: 0 <= i < |refs| && Live(w, refs[i].stats) ==> refs[i].handleId != id
  }

  ghost predicate NoRowChannel(w: World, refs: seq<Subscriber>, tx: Sender)
  {
    forall i :: 0 <= i < |refs| && Live(w, refs[i].stats) ==> refs[i].sender != tx
  }

  lemma {:induction false} RequeueRowMoved(w: World, key: BusKey, refs: seq<Subscriber>)
    requires AllApart(refs)
    ensures RowMoved(w, key, refs, RequeueRow(w, key, refs))
    decreases |refs|
  {
    if refs != [] {
      var l := |refs| - 1;
      RequeueRowMoved(w, key, refs[..l]);
      LastMoved(w, RequeueRow(w, key, refs[..l]), key, refs);
    }
  }

  lemma LastMoved(w: World, s: World, key: BusKey, refs: seq<Subscriber>)
    requires refs != [] && AllApart(refs) && RowMoved(w, key, refs[..|refs| - 1], s)
    ensures RowMoved(w, key, refs, RequeueOne(s, key, refs[|refs| - 1]))
  {
    var l := |refs| - 1;
    var w', init := RequeueOne(s, key, refs[l]), refs[..l];
    forall i | 0 <= i < |refs| && Live(w, refs[i].stats) ensures Waits(w', refs[i], key) {
      LastLeaves(w, s, key, refs, i);
    }
    forall id | NoRowId(w, refs, id) ensures SamePending(w, w', id) {
      assert NoRowId(w, init, id) && SamePending(w, s, id);
    }
    forall tx | NoRowChannel(w, refs, tx) ensures SameSlot(w, w', tx) {
      assert NoRowChannel(w, init, tx) && SameSlot(w, s, tx);
    }
  }

  lemma LastLeaves(w: World, s: World, key: BusKey, refs: seq<Subscriber>, i: nat)
    requires i < |refs| && AllApart(refs) && RowMoved(w, key, refs[..|refs| - 1], s) && Live(w, refs[i].stats)
    ensures Waits(RequeueOne(s, key, refs[|refs| - 1]), refs[i], key)
  {
    var l := |refs| - 1;
    if i < l {
      assert refs[..l][i] == refs[i] && Waits(s, refs[i], key) && Apart(refs[i], refs[l]);
    }
  }

  lemma {:induction false} RequeueMoved(w: World, keys: seq<BusKey>)
    requires Consistent(w) && NoDuplicates(keys)
    ensures Moved(w, (set k | k in keys), Requeue(w, keys))
    decreases |keys|
  {
    if keys != [] {
      var l := |keys| - 1;
      RequeueMoved(w, keys[..l]);
      var before := set k | k in keys[..l];
      var all := set k | k in keys;
      assert keys == keys[..l] + [keys[l]];
      assert all == before + {keys[l]} && keys[l] !in before;
      KeyMoved(w, before, Requeue(w, keys[..l]), keys[l]);
    }
  }

  /** One more key. */
  lemma KeyMoved(w: World, keys: set<BusKey>, s: World, key: BusKey)
    requires Consistent(w) && Moved(w, keys, s) && key !in keys
    ensures Moved(w, keys + {key}, RequeueKey(s, key))
  {
    assert w.subscribers - (keys + {key}) == w.subscribers - keys - {key};
    if key in w.subscribers {
      var refs := w.subscribers[key];
      assert s.subscribers[key] == refs && AllApart(refs);
      var s0 := s.(subscribers := s.subscribers - {key});
      RequeueRowMoved(s0, key, refs);
      MovedOn(w, keys, s, key, s0, RequeueKey(s, key));
    } else {
      NoSuchRow(w, keys, s, key);
    }
  }

  lemma NoSuchRow(w: World, keys: set<BusKey>, s: World, key: BusKey)
    requires Moved(w, keys, s) && key !in w.subscribers
    ensures Moved(w, keys + {key}, s)
  {
    assert forall k, i :: Rowed(w, keys + {key}, k, i) <==> Rowed(w, keys, k, i);
    forall id | NoId(w, keys + {key}, id) ensures SamePending(w, s, id) {
      assert NoId(w, keys, id);
    }
    forall tx | NoChannel(w, keys + {key}, tx) ensures SameSlot(w, s, tx) {
      assert NoChannel(w, keys, tx);
    }
  }

  lemma MovedOn(w: World, keys: set<BusKey>, s: World, key: BusKey, s0: World, s': World)
    requires Consistent(w) && Moved(w, keys, s) && key !in keys && key in w.subscribers
    requires s0 == s.(subscribers := s.subscribers - {key}) && RowMoved(s0, key, w.subscribers[key], s')
    ensures Moved(w, keys + {key}, s')
  {
    forall k, i | Rowed(w, keys + {key}, k, i) ensures Waits(s', w.subscribers[k][i], k) {
      StillWaits(w, keys, s, key, s0, s', k, i);
    }
    var refs := w.subscribers[key];
    assert forall i :: 0 <= i < |refs| && Live(w, refs[i].stats) ==> Rowed(w, keys + {key}, key, i);
    assert forall k, i :: Rowed(w, keys, k, i) ==> Rowed(w, keys + {key}, k, i);
    forall id | NoId(w, keys + {key}, id) ensures SamePending(w, s', id) {
      assert NoId(w, keys, id) && NoRowId(s0, refs, id);
      assert SamePending(w, s, id) && SamePending(s0, s', id);
    }
    forall tx | NoChannel(w, keys + {key}, tx) ensures SameSlot(w, s', tx) {
      assert NoChannel(w, keys, tx) && NoRowChannel(s0, refs, tx);
      assert SameSlot(w, s, tx) && SameSlot(s0, s', tx);
    }
  }

  lemma StillWaits(w: World, keys: set<BusKey>, s: World, key: BusKey, s0: World, s': World, k: BusKey, i: int)
    requires Consistent(w) && Moved(w, keys, s) && key !in keys && key in w.subscribers
    requires s0 == s.(subscribers := s.subscribers - {key}) && RowMoved(s0, key, w.subscribers[key], s')
    requires Rowed(w, keys + {key}, k, i)
    ensures Waits(s', w.subscribers[k][i], k)
  {
    var r, refs := w.subscribers[k][i], w.subscribers[key];
    if k != key {
      assert Rowed(w, keys, k, i) && Waits(s, r, k);
      forall j | 0 <= j < |refs| ensures Apart(r, refs[j]) {
        assert Apart(w.subscribers[k][i], w.subscribers[key][j]);
      }
      assert NoRowId(s0, refs, r.handleId) && NoRowChannel(s0, refs, r.sender);
      assert SamePending(s0, s', r.handleId) && SameSlot(s0, s', r.sender);
    }
  }

  /** Any two orders of the removed keys give the same registry, to the last field. */
  lemma UnregisterOrderIrrelevant(w: World, name: string, entries: set<string>, a: seq<BusKey>, b: seq<BusKey>)
    requires Consistent(w) && Enumerates(a, Removed(w, name, entries)) && Enumerates(b, Removed(w, name, entries))
    ensures (forall k :: k in a ==> k in w.buses) && (forall k :: k in b ==> k in w.buses)
    ensures Unregister(w, a) == Unregister(w, b)
  {
    EnumeratesMembers(a, Removed(w, name, entries));
    EnumeratesMembers(b, Removed(w, name, entries));
    RetireOrder(w, a, b);
    var r := Retire(w, a);
    GateConsistency.RetireConsistent(w, a);
    var ka := set k | k in a;
    var kb := set k | k in b;
    assert ka == kb;
    RequeueMoved(r, a);
    RequeueMoved(r, b);
    MovedDetermines(r, ka, Requeue(r, a), Requeue(r, b));
  }

  // ---- Cancelling ----

  ghost predicate CancelsOn(w: World, order: seq<HandleId>, tx: Sender)
  {
    exists i :: 0 <= i < |order| && order[i] in w.pending && w.pending[order[i]].sender == tx
  }

  ghost predicate CancelsStats(w: World, order: seq<HandleId>, st: StatsId)
  {
    exists i :: 0 <= i < |order| && order[i] in w.pending && w.pending[order[i]].stats == st
  }

  function SettledStats(s: Stats): Stats
  {
    if s.state.Finished? then s else s.(state := RunState.Unresolved)
  }

  /** What a cancellation leaves, map by map. */
  lemma {:induction false} CancelLeaves(w: World, order: seq<HandleId>)
    requires NoDuplicates(order) && forall id :: id in order ==> id in w.pending
    ensures var w' := Cancel(w, order);
            && w'.buses == w.buses && w'.subscribers == w.subscribers && w'.bus == w.bus
            && (forall id :: id in w'.pending <==> id in w.pending && id !in order)
            && (forall id :: id in w'.pending ==> w'.pending[id] == w.pending[id])
    decreases |order|
  {
    if order != [] {
      var l := |order| - 1;
      CancelLeaves(w, order[..l]);
      assert order == order[..l] + [order[l]];
      CancelTakes(Cancel(w, order[..l]), order[l]);
    }
  }

  lemma CancelTakes(w: World, id: HandleId)
    ensures var w' := CancelOne(w, id);
            && w'.buses == w.buses && w'.subscribers == w.subscribers && w'.bus == w.bus
            && w'.pending == w.pending - {id}
  {
  }

  lemma {:induction false} CancelSlot(w: World, order: seq<HandleId>, tx: Sender)
    requires NoDuplicates(order) && forall id :: id in order ==> id in w.pending
    ensures var w' := Cancel(w, order);
            && (tx in w'.slot <==> tx in w.slot || CancelsOn(w, order, tx))
            && (tx in w'.slot ==> w'.slot[tx] == if CancelsOn(w, order, tx) then UpstreamGone else w.slot[tx])
    decreases |order|
  {
    if order != [] {
      var s, id := CancelLast(w, order);
      CancelSlot(w, order[..|order| - 1], tx);
      assert CancelsOn(w, order, tx) <==> CancelsOn(w, order[..|order| - 1], tx) || w.pending[id].sender == tx;
    }
  }

  lemma {:induction false} CancelStats(w: World, order: seq<HandleId>, st: StatsId)
    requires NoDuplicates(order) && forall id :: id in order ==> id in w.pending
    ensures var w' := Cancel(w, order);
            && (st in w'.stats <==> st in w.stats)
            && (st in w.stats ==>
                  w'.stats[st] == if CancelsStats(w, order, st) then SettledStats(w.stats[st]) else w.stats[st])
    decreases |order|
  {
    if order != [] {
      var s, id := CancelLast(w, order);
      CancelStats(w, order[..|order| - 1], st);
      assert CancelsStats(w, order, st) <==> CancelsStats(w, order[..|order| - 1], st) || w.pending[id].stats == st;
    }
  }

  /** The last visit of a cancellation finds its waiter as it was. */
  lemma CancelLast(w: World, order: seq<HandleId>) returns (s: World, id: HandleId)
    requires NoDuplicates(order) && order != [] && forall id :: id in order ==> id in w.pending
    ensures s == Cancel(w, order[..|order| - 1]) && id == order[|order| - 1]
    ensures order == order[..|order| - 1] + [id] && id in w.pending && id in s.pending && s.pending[id] == w.pending[id]
    ensures Cancel(w, order) == CancelOne(s, id)
  {
    s, id := Cancel(w, order[..|order| - 1]), order[|order| - 1];
    CancelLeaves(w, order[..|order| - 1]);
    assert id in order && id !in order[..|order| - 1];
  }

  /** Any two orders of the matching waiters give the same registry. */
  lemma CancelOrderIrrelevant(w: World, key: BusKey, a: seq<HandleId>, b: seq<HandleId>)
    requires Enumerates(a, Waiting(w, key)) && Enumerates(b, Waiting(w, key))
    ensures Cancel(w, a) == Cancel(w, b)
  {
    EnumeratesMembers(a, Waiting(w, key));
    EnumeratesMembers(b, Waiting(w, key));
    var s, t := Cancel(w, a), Cancel(w, b);
    assert forall tx :: CancelsOn(w, a, tx) <==> CancelsOn(w, b, tx) by {
      SameCancels(w, a, b);
      SameCancels(w, b, a);
    }
    assert forall st :: CancelsStats(w, a, st) <==> CancelsStats(w, b, st) by {
      SameCancels(w, a, b);
      SameCancels(w, b, a);
    }
    forall tx ensures (tx in s.slot <==> tx in t.slot) && (tx in s.slot ==> s.slot[tx] == t.slot[tx]) {
      CancelSlot(w, a, tx);
      CancelSlot(w, b, tx);
    }
    forall st ensures (st in s.stats <==> st in t.stats) && (st in s.stats ==> s.stats[st] == t.stats[st]) {
      CancelStats(w, a, st);
      CancelStats(w, b, st);
    }
    assert s.slot == t.slot && s.stats == t.stats;
    CancelLeaves(w, a);
    CancelLeaves(w, b);
    assert s.pending == t.pending;
  }

  lemma SameCancels(w: World, a: seq<HandleId>, b: seq<HandleId>)
    requires forall id :: id in a ==> id in b
    ensures forall tx :: CancelsOn(w, a, tx) ==> CancelsOn(w, b, tx)
    ensures forall st :: CancelsStats(w, a, st) ==> CancelsStats(w, b, st)
  {
    forall i | 0 <= i < |a| ensures exists j :: 0 <= j < |b| && b[j] == a[i] {
      assert a[i] in b;
    }
  }
}
