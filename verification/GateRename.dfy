/** `rename_handle` to a fresh id is a symmetry of the registry: it commutes with a sweep, an
    unregistration and an upstream cancellation. */
module GateRename {
  import opened Orders
  import opened GateModel
  import GateSweep

  function RenameOrder(order: seq<HandleId>, o: HandleId, n: HandleId): (r: seq<HandleId>)
  {
    seq(|order|, i requires 0 <= i < |order| => RenamedId(order[i], o, n))
  }

  function RenameSub(s: Subscriber, o: HandleId, n: HandleId): Subscriber
  {
    s.(handleId := RenamedId(s.handleId, o, n))
  }

  lemma RenameOrderSnoc(order: seq<HandleId>, o: HandleId, n: HandleId)
    requires order != []
    ensures var l := |order| - 1;
            var r := RenameOrder(order, o, n);
            |r| == |order| && r[..l] == RenameOrder(order[..l], o, n) && r[l] == RenamedId(order[l], o, n)
  {
  }

  lemma RenameRowSnoc(row: seq<Subscriber>, s: Subscriber, o: HandleId, n: HandleId)
    ensures RenameRow(row + [s], o, n) == RenameRow(row, o, n) + [RenameSub(s, o, n)]
  {
  }

  lemma RenameKeysMatch(w: World, o: HandleId, n: HandleId)
    requires KeysMatch(w)
    ensures KeysMatch(Rename(w, o, n))
  {
  }

  // ---- The maps ----

  lemma RenameRowsUpdate(rows: map<BusKey, seq<Subscriber>>, k: BusKey, row: seq<Subscriber>, o: HandleId, n: HandleId)
    ensures RenameRows(rows[k := row], o, n) == RenameRows(rows, o, n)[k := RenameRow(row, o, n)]
  {
  }

  lemma RenameRowsRemove(rows: map<BusKey, seq<Subscriber>>, k: BusKey, o: HandleId, n: HandleId)
    ensures RenameRows(rows - {k}, o, n) == RenameRows(rows, o, n) - {k}
  {
  }

  lemma RenamePendingRemove(pending: map<HandleId, Waiter>, id: HandleId, o: HandleId, n: HandleId)
    requires o != n && n !in pending && id != n
    ensures RenamePending(pending - {id}, o, n) == RenamePending(pending, o, n) - {RenamedId(id, o, n)}
  {
  }

  lemma RenamePendingInsert(pending: map<HandleId, Waiter>, p: Waiter, o: HandleId, n: HandleId)
    requires o != n && n !in pending && p.handleId != n
    ensures var id := RenamedId(p.handleId, o, n);
            RenamePending(pending[p.handleId := p], o, n) ==
              RenamePending(pending, o, n)[id := p.(handleId := id)]
  {
  }

  // ---- Sweep ----

  lemma RenameSweepOne(w: World, id: HandleId, o: HandleId, n: HandleId)
    requires KeysMatch(w) && o != n && n !in w.pending && id != n
    ensures KeysMatch(Rename(w, o, n))
    ensures Rename(SweepOne(w, id), o, n) == SweepOne(Rename(w, o, n), RenamedId(id, o, n))
    ensures n !in SweepOne(w, id).pending
  {
    RenameKeysMatch(w, o, n);
    var r, id' := Rename(w, o, n), RenamedId(id, o, n);
    assert id in w.pending <==> id' in r.pending;
    if id in w.pending {
      var p := w.pending[id];
      var p' := r.pending[id'];
      assert p' == p.(handleId := id');
      RenamePendingRemove(w.pending, id, o, n);
      if Ready(w, p) {
        RenameRowsUpdate(w.subscribers, p.Key(), w.Row(p.Key()) + [Promoted(p)], o, n);
        RenameRowSnoc(w.Row(p.Key()), Promoted(p), o, n);
        assert RenameRow(w.Row(p.Key()), o, n) == r.Row(p.Key());
      }
    }
  }

  /** Renaming before or after a sweep gives the same registry. */
  lemma {:induction false} RenameThenSweep(w: World, order: seq<HandleId>, o: HandleId, n: HandleId)
    requires KeysMatch(w) && o != n && n !in w.pending && n !in order
    ensures KeysMatch(Rename(w, o, n))
    ensures Rename(Sweep(w, order), o, n) == Sweep(Rename(w, o, n), RenameOrder(order, o, n))
    ensures n !in Sweep(w, order).pending
    decreases |order|
  {
    RenameKeysMatch(w, o, n);
    if order != [] {
      var l := |order| - 1;
      RenameThenSweep(w, order[..l], o, n);
      RenameSweepOne(Sweep(w, order[..l]), order[l], o, n);
      RenameOrderSnoc(order, o, n);
    }
  }

  /** Renaming a visit visits the renamed set. */
  lemma RenamedEnumeration(order: seq<HandleId>, ids: set<HandleId>, o: HandleId, n: HandleId)
    requires Enumerates(order, ids) && n !in ids
    ensures Enumerates(RenameOrder(order, o, n), set id | id in ids :: RenamedId(id, o, n))
  {
    var r := RenameOrder(order, o, n);
    var image := set id | id in ids :: RenamedId(id, o, n);
    EnumeratesMembers(order, ids);
    assert NoDuplicates(r) by {
      forall i, j | 0 <= i < j < |r| ensures r[i] != r[j] {
        assert order[i] != order[j] && order[i] in order && order[j] in order;
      }
    }
    forall x | x in image ensures x in r {
      var id :| id in ids && RenamedId(id, o, n) == x;
      var i :| 0 <= i < |order| && order[i] == id;
      assert r[i] == x;
    }
    forall i | 0 <= i < |r| ensures r[i] in image {
      assert order[i] in order;
    }
    var visited := set x | x in r;
    assert visited == image;
  }

  /** The renamed order visits the renamed pending map. */
  lemma RenameEnumerates(w: World, order: seq<HandleId>, o: HandleId, n: HandleId)
    requires KeysMatch(w) && o != n && n !in w.pending && Enumerates(order, w.pending.Keys)
    ensures Enumerates(RenameOrder(order, o, n), Rename(w, o, n).pending.Keys)
  {
    RenamedEnumeration(order, w.pending.Keys, o, n);
    RenamePendingKeys(w, o, n);
  }

  lemma RenamePendingKeys(w: World, o: HandleId, n: HandleId)
    requires o != n && n !in w.pending
    ensures Rename(w, o, n).pending.Keys == set id | id in w.pending.Keys :: RenamedId(id, o, n)
  {
    forall x | x in Rename(w, o, n).pending ensures x in set id | id in w.pending.Keys :: RenamedId(id, o, n) {
      var y := if x == n then o else x;
      assert y in w.pending.Keys && RenamedId(y, o, n) == x;
    }
  }

  lemma RenameReadyIds(w: World, o: HandleId, n: HandleId)
    requires KeysMatch(w) && o != n && n !in w.pending
    ensures GateSweep.ReadyIds(Rename(w, o, n)) ==
            if o in GateSweep.ReadyIds(w) then GateSweep.ReadyIds(w) - {o} + {n} else GateSweep.ReadyIds(w)
  {
  }

  /** A sweep promotes, and so returns, the same number before and after a rename. */
  lemma RenameKeepsPromoted(w: World, o: HandleId, n: HandleId)
    requires KeysMatch(w) && o != n && n !in w.pending
    ensures |GateSweep.ReadyIds(Rename(w, o, n))| == |GateSweep.ReadyIds(w)|
  {
    RenameReadyIds(w, o, n);
    if o in GateSweep.ReadyIds(w) {
      assert n !in GateSweep.ReadyIds(w) - {o};
    }
  }

  // ---- Unregister ----

  lemma {:induction false} RenameBroadcast(w: World, buses: seq<BusId>, o: HandleId, n: HandleId)
    ensures Rename(BroadcastAll(w, buses), o, n) == BroadcastAll(Rename(w, o, n), buses)
    ensures BroadcastAll(w, buses).pending == w.pending
    ensures BroadcastAll(w, buses).subscribers == w.subscribers
    decreases |buses|
  {
    if buses != [] {
      RenameBroadcast(w, buses[..|buses| - 1], o, n);
    }
  }

  ghost predicate NotIn(refs: seq<Subscriber>, id: HandleId)
  {
    forall i :: 0 <= i < |refs| ==> refs[i].handleId != id
  }

  lemma {:induction false} RenameRequeueRow(w: World, key: BusKey, refs: seq<Subscriber>, o: HandleId, n: HandleId)
    requires o != n && n !in w.pending && NotIn(refs, n)
    ensures Rename(RequeueRow(w, key, refs), o, n) == RequeueRow(Rename(w, o, n), key, RenameRow(refs, o, n))
    ensures n !in RequeueRow(w, key, refs).pending
    ensures RequeueRow(w, key, refs).subscribers == w.subscribers
    decreases |refs|
  {
    if refs != [] {
      var l := |refs| - 1;
      RenameRequeueRow(w, key, refs[..l], o, n);
      assert RenameRow(refs, o, n)[..l] == RenameRow(refs[..l], o, n);
      RenamePendingInsert(RequeueRow(w, key, refs[..l]).pending, refs[l].ToWaiter(key), o, n);
    }
  }

  lemma {:induction false} RenameRequeue(w: World, keys: seq<BusKey>, o: HandleId, n: HandleId)
    requires o != n && Fresh(w, n)
    ensures Rename(Requeue(w, keys), o, n) == Requeue(Rename(w, o, n), keys)
    ensures Fresh(Requeue(w, keys), n)
    decreases |keys|
  {
    if keys != [] {
      var l := |keys| - 1;
      RenameRequeue(w, keys[..l], o, n);
      var s, key := Requeue(w, keys[..l]), keys[l];
      if key in s.subscribers {
        RenameRequeueRow(s.(subscribers := s.subscribers - {key}), key, s.subscribers[key], o, n);
        RenameRowsRemove(s.subscribers, key, o, n);
      }
    }
  }

  /** Renaming before or after an unregistration gives the same registry. */
  lemma RenameThenUnregister(w: World, keys: seq<BusKey>, o: HandleId, n: HandleId)
    requires o != n && Fresh(w, n)
    requires forall k :: k in keys ==> k in w.buses
    ensures Rename(Unregister(w, keys), o, n) == Unregister(Rename(w, o, n), keys)
  {
    var w1 := w.(buses := w.buses - set k | k in keys);
    RenameBroadcast(w1, Retired(w.buses, keys), o, n);
    assert Rename(w, o, n).(buses := Rename(w, o, n).buses - set k | k in keys) == Rename(w1, o, n);
    RenameRequeue(Retire(w, keys), keys, o, n);
  }

  // ---- Cancel ----

  lemma RenameCancelOne(w: World, id: HandleId, o: HandleId, n: HandleId)
    requires o != n && n !in w.pending && id != n
    ensures Rename(CancelOne(w, id), o, n) == CancelOne(Rename(w, o, n), RenamedId(id, o, n))
    ensures n !in CancelOne(w, id).pending
  {
    RenamePendingRemove(w.pending, id, o, n);
  }

  /** Renaming before or after an upstream cancellation gives the same registry. */
  lemma {:induction false} RenameThenCancel(w: World, order: seq<HandleId>, o: HandleId, n: HandleId)
    requires o != n && n !in w.pending && n !in order
    ensures Rename(Cancel(w, order), o, n) == Cancel(Rename(w, o, n), RenameOrder(order, o, n))
    ensures n !in Cancel(w, order).pending
    decreases |order|
  {
    if order != [] {
      var l := |order| - 1;
      RenameThenCancel(w, order[..l], o, n);
      RenameCancelOne(Cancel(w, order[..l]), order[l], o, n);
      RenameOrderSnoc(order, o, n);
    }
  }

  lemma RenameWaiting(w: World, key: BusKey, o: HandleId, n: HandleId)
    requires o != n && n !in w.pending
    ensures Waiting(Rename(w, o, n), key) == set id | id in Waiting(w, key) :: RenamedId(id, o, n)
  {
    var r := Rename(w, o, n);
    forall x | x in Waiting(r, key) ensures x in set id | id in Waiting(w, key) :: RenamedId(id, o, n) {
      var y := if x == n then o else x;
      assert y in Waiting(w, key) && RenamedId(y, o, n) == x;
    }
  }

  /** The cancellation of the renamed registry visits the renamed waiters, and returns the same
      errors in the same order. */
  lemma RenameKeepsCancelled(w: World, key: BusKey, order: seq<HandleId>, o: HandleId, n: HandleId)
    requires o != n && n !in w.pending && Enumerates(order, Waiting(w, key))
    ensures Enumerates(RenameOrder(order, o, n), Waiting(Rename(w, o, n), key))
    ensures forall id :: id in order ==> id in w.pending
    ensures forall id :: id in RenameOrder(order, o, n) ==> id in Rename(w, o, n).pending
    ensures CancelErrors(Rename(w, o, n), RenameOrder(order, o, n)) == CancelErrors(w, order)
  {
    var r, renamed := Rename(w, o, n), RenameOrder(order, o, n);
    EnumeratesMembers(order, Waiting(w, key));
    assert n !in order;
    RenameWaiting(w, key, o, n);
    RenamedEnumeration(order, Waiting(w, key), o, n);
    EnumeratesMembers(renamed, Waiting(r, key));
    forall i | 0 <= i < |order|
      ensures CancelErrors(r, renamed)[i] == CancelErrors(w, order)[i]
    {
      assert order[i] in order && renamed[i] == RenamedId(order[i], o, n);
    }
  }

  /** Renaming to a fresh id keeps the registry consistent. */
  lemma RenameConsistent(w: World, o: HandleId, n: HandleId)
    requires Consistent(w) && Fresh(w, n)
    ensures Consistent(Rename(w, o, n))
  {
  }

  /** Renaming there and back is no change. */
  lemma RenameBack(w: World, o: HandleId, n: HandleId)
    requires KeysMatch(w) && Fresh(w, n) && o != n
    ensures Rename(Rename(w, o, n), n, o) == w
  {
    var r := Rename(Rename(w, o, n), n, o);
    assert r.pending == w.pending;
    forall k | k in w.subscribers ensures r.subscribers[k] == w.subscribers[k] {
    }
  }
}
