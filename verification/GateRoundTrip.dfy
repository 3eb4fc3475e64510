/** An upstream that leaves and comes back: unregister, register again, sweep. */
module GateRoundTrip {
  import opened Orders
  import opened GateModel
  import opened GateSweep

  /** The record a live subscriber comes back as: one more attempt, nothing else changed. */
  function Returned(w: World): Subscriber -> Option<Subscriber>
  {
    (s: Subscriber) => if Live(w, s.stats) then Some(s.(attempts := OneMore(s.attempts))) else None
  }

  function LiveId(w: World): Subscriber -> Option<HandleId>
  {
    (s: Subscriber) => if Live(w, s.stats) then Some(s.handleId) else None
  }

  /** A row whose records are pairwise of different handles. */
  ghost predicate RowApart(refs: seq<Subscriber>)
  {
    forall i, j :: 0 <= i < j < |refs| ==> Apart(refs[i], refs[j])
  }

  /** The live records of `refs` wait in `w'`, told that their upstream is gone, and whoever else
      waited in `w` does so still. */
  ghost predicate RowWaits(w: World, key: BusKey, refs: seq<Subscriber>, w': World)
  {
    && w'.buses == w.buses && w'.subscribers == w.subscribers && w'.stats == w.stats && w'.bus == w.bus
    && (forall i :: 0 <= i < |refs| && Live(w, refs[i].stats) ==>
          && refs[i].handleId in w'.pending && w'.pending[refs[i].handleId] == refs[i].ToWaiter(key)
          && refs[i].sender in w'.slot && w'.slot[refs[i].sender] == UpstreamGone)
    && (forall id :: id !in Collect(refs, LiveId(w)) ==>
          (id in w'.pending <==> id in w.pending) && (id in w.pending ==> w'.pending[id] == w.pending[id]))
  }

  /** Requeueing a row adds one waiter per live record, under its handle id. */
  lemma {:induction false} RequeueRowAdds(w: World, key: BusKey, refs: seq<Subscriber>)
    requires RowApart(refs)
    ensures RowWaits(w, key, refs, RequeueRow(w, key, refs))
    decreases |refs|
  {
    if refs != [] {
      var l := |refs| - 1;
      RequeueRowAdds(w, key, refs[..l]);
      if Live(w, refs[l].stats) {
        RowWaitsLast(w, key, refs, RequeueRow(w, key, refs[..l]));
      }
    }
  }

  lemma RowWaitsLast(w: World, key: BusKey, refs: seq<Subscriber>, s: World)
    requires refs != [] && RowApart(refs) && RowWaits(w, key, refs[..|refs| - 1], s) && Live(w, refs[|refs| - 1].stats)
    ensures RowWaits(w, key, refs, RequeueOne(s, key, refs[|refs| - 1]))
  {
    var l := |refs| - 1;
    assert Collect(refs, LiveId(w)) == Collect(refs[..l], LiveId(w)) + [refs[l].handleId];
    forall i | 0 <= i < l ensures refs[..l][i] == refs[i] && Apart(refs[i], refs[l]) {
    }
  }

  lemma {:induction false} BroadcastKeeps(w: World, buses: seq<BusId>)
    ensures var w' := BroadcastAll(w, buses);
            w' == w.(slot := w'.slot)
    decreases |buses|
  {
    if buses != [] {
      BroadcastKeeps(w, buses[..|buses| - 1]);
    }
  }

  /** The upstream `key` leaves and a new bus `b` registers under it. */
  function Bounce(w: World, key: BusKey, b: BusId): World
    requires key in w.buses
  {
    Register(Unregister(w, [key]), key, b).0
  }

  /** `w1` is `w` after its upstream `key` left and came back on bus `b`: the key's row is
      empty, its live subscribers wait under their ids, and nothing else moved. */
  ghost predicate Bounced(w: World, key: BusKey, b: BusId, w1: World)
  {
    var refs := w.Row(key);
    && w1.buses == w.buses[key := b] && w1.subscribers == w.subscribers - {key}
    && w1.stats == w.stats && w1.bus == w.bus
    && (forall i :: 0 <= i < |refs| && Live(w, refs[i].stats) ==>
          && refs[i].handleId in w1.pending && w1.pending[refs[i].handleId] == refs[i].ToWaiter(key)
          && refs[i].sender in w1.slot && w1.slot[refs[i].sender] == UpstreamGone)
    && (forall id :: id !in Collect(refs, LiveId(w)) ==>
          (id in w1.pending <==> id in w.pending) && (id in w.pending ==> w1.pending[id] == w.pending[id]))
  }

  /** Retiring one key takes its bus away and sends on it; all else stays. */
  lemma RetireOnly(w: World, key: BusKey)
    requires key in w.buses
    ensures var r := Retire(w, [key]);
            r == w.(buses := w.buses - {key}, slot := r.slot)
  {
    var gone := set k | k in [key];
    assert gone == {key};
    BroadcastKeeps(w.(buses := w.buses - gone), Retired(w.buses, [key]));
  }

  lemma UnregisterOnly(w: World, key: BusKey)
    requires key in w.buses
    ensures Unregister(w, [key]) == RequeueKey(Retire(w, [key]), key)
  {
    RequeueOnly(Retire(w, [key]), key);
  }

  lemma RequeueOnly(r: World, key: BusKey)
    ensures Requeue(r, [key]) == RequeueKey(r, key)
  {
    assert [key][..0] == [];
    assert Requeue(r, []) == r;
  }

  /** `w1` is `w` with the row of `key` requeued. */
  ghost predicate Requeued(w: World, key: BusKey, w1: World)
  {
    Bounced(w, key, 0, w1.(buses := w.buses[key := 0])) && w1.buses == w.buses
  }

  lemma RequeueKeyAdds(w: World, key: BusKey)
    requires RowApart(w.Row(key))
    ensures Requeued(w, key, RequeueKey(w, key))
  {
    if key in w.subscribers {
      var w' := w.(subscribers := w.subscribers - {key});
      RequeueRowAdds(w', key, w.subscribers[key]);
      CollectSame(w.Row(key), LiveId(w), LiveId(w'));
    }
  }

  /** What the requeue says of a world holds of any that differs in buses and slots only. */
  lemma RequeuedFrom(w: World, r: World, key: BusKey, b: BusId, w1: World)
    requires r == w.(buses := r.buses, slot := r.slot) && Requeued(r, key, w1) && r.buses == w.buses - {key}
    ensures Bounced(w, key, b, w1.(buses := w1.buses[key := b]))
  {
    CollectSame(w.Row(key), LiveId(w), LiveId(r));
  }

  lemma BounceFacts(w: World, key: BusKey, b: BusId)
    requires Consistent(w) && key in w.buses
    ensures Bounced(w, key, b, Bounce(w, key, b))
    ensures Register(Unregister(w, [key]), key, b).1.None?
  {
    var r := Retire(w, [key]);
    RetireOnly(w, key);
    UnregisterOnly(w, key);
    assert RowApart(r.Row(key));
    RequeueKeyAdds(r, key);
    RequeuedFrom(w, r, key, b, RequeueKey(r, key));
  }

  lemma LiveIdMember(w: World, refs: seq<Subscriber>, id: HandleId)
    ensures id in Collect(refs, LiveId(w)) <==>
            exists i :: 0 <= i < |refs| && Live(w, refs[i].stats) && refs[i].handleId == id
  {
    CollectMember(refs, LiveId(w), id);
    if id in Collect(refs, LiveId(w)) {
      var s :| s in refs && LiveId(w)(s) == Some(id);
    }
    if i :| 0 <= i < |refs| && Live(w, refs[i].stats) && refs[i].handleId == id {
      assert refs[i] in refs && LiveId(w)(refs[i]) == Some(id);
    }
  }

  lemma {:induction false} LiveIdsDistinct(w: World, refs: seq<Subscriber>)
    requires RowApart(refs)
    ensures NoDuplicates(Collect(refs, LiveId(w)))
  {
    if refs != [] {
      var l := |refs| - 1;
      LiveIdsDistinct(w, refs[..l]);
      LiveIdMember(w, refs[..l], refs[l].handleId);
    }
  }

  lemma NoDuplicatesConcat<T>(a: seq<T>, b: seq<T>)
    requires NoDuplicates(a) && NoDuplicates(b) && forall x :: x in a ==> x !in b
    ensures NoDuplicates(a + b)
  {
    var c := a + b;
    forall i, j | 0 <= i < j < |c| ensures c[i] != c[j] {
      assert i < |a| ==> c[i] in a;
      assert j >= |a| ==> c[j] in b;
    }
  }

  /** The waiters of the bounced registry: those it had, then the live subscribers. */
  lemma BounceOrder(w: World, key: BusKey, b: BusId, w1: World, before: seq<HandleId>, order: seq<HandleId>)
    requires Consistent(w) && Bounced(w, key, b, w1)
    requires Enumerates(before, w.pending.Keys) && Enumerates(order, w1.pending.Keys)
    ensures multiset(order) == multiset(before + Collect(w.Row(key), LiveId(w)))
    ensures forall id :: id in before <==> id in w.pending
    ensures forall id :: id in before ==> id !in Collect(w.Row(key), LiveId(w))
  {
    var refs, ids := w.Row(key), Collect(w.Row(key), LiveId(w));
    LiveIdsDistinct(w, refs);
    EnumeratesMembers(before, w.pending.Keys);
    forall id | id in ids ensures id in w1.pending && id !in w.pending {
      LiveIdMember(w, refs, id);
    }
    NoDuplicatesConcat(before, ids);
    var all := before + ids;
    forall x ensures x in all <==> x in w1.pending {
      assert x in all <==> x in before || x in ids;
    }
    assert (set x | x in all) == w1.pending.Keys;
    EnumerationsPermute(order, all, w1.pending.Keys);
  }

  /** The requeued records of `key`'s row, promoted again in row order. */
  lemma {:induction false} ReturnedRow(w: World, w1: World, key: BusKey, refs: seq<Subscriber>, k: BusKey)
    requires key in w1.buses && w1.stats == w.stats
    requires forall i :: 0 <= i < |refs| && Live(w, refs[i].stats) ==>
               refs[i].handleId in w1.pending && w1.pending[refs[i].handleId] == refs[i].ToWaiter(key)
    ensures Collect(Collect(refs, LiveId(w)), RowItem(w1, k)) ==
            if k == key then Collect(refs, Returned(w)) else []
    decreases |refs|
  {
    if refs != [] {
      var l := |refs| - 1;
      ReturnedRow(w, w1, key, refs[..l], k);
      var s, ids := refs[l], Collect(refs[..l], LiveId(w));
      if Live(w, s.stats) {
        assert Collect(refs, LiveId(w)) == ids + [s.handleId];
        CollectConcat(ids, [s.handleId], RowItem(w1, k));
        CollectOne(s.handleId, RowItem(w1, k));
        assert RowItem(w1, k)(s.handleId) == if k == key then Returned(w)(s) else None;
      }
    }
  }

  lemma BounceKeysMatch(w: World, key: BusKey, b: BusId, w1: World)
    requires Consistent(w) && Bounced(w, key, b, w1)
    ensures KeysMatch(w1)
  {
    forall id | id in w1.pending ensures w1.pending[id].handleId == id {
      LiveIdMember(w, w.Row(key), id);
    }
  }

  /** Whoever waited before the bounce is promoted to the same rows as without it. */
  lemma SameItems(w: World, key: BusKey, b: BusId, w1: World, before: seq<HandleId>, k: BusKey)
    requires key in w.buses && Bounced(w, key, b, w1)
    requires forall id :: id in before ==> id in w.pending && id !in Collect(w.Row(key), LiveId(w))
    ensures Collect(before, RowItem(w1, k)) == Collect(before, RowItem(w, k))
  {
    forall id | id in before ensures RowItem(w1, k)(id) == RowItem(w, k)(id) {
      assert w1.pending[id] == w.pending[id];
    }
    CollectSame(before, RowItem(w1, k), RowItem(w, k));
  }

  lemma SweepRowSplit(w1: World, order: seq<HandleId>, x: seq<HandleId>, y: seq<HandleId>, k: BusKey)
    requires Visits(w1, order) && multiset(order) == multiset(x + y)
    ensures multiset(Sweep(w1, order).Row(k)) ==
            multiset(w1.Row(k)) + multiset(Collect(x, RowItem(w1, k))) + multiset(Collect(y, RowItem(w1, k)))
  {
    SweepRow(w1, order, k);
    CollectOrder(order, x + y, RowItem(w1, k));
    CollectConcat(x, y, RowItem(w1, k));
  }

  lemma BounceRow(w: World, key: BusKey, b: BusId, w1: World, before: seq<HandleId>, order: seq<HandleId>, k: BusKey)
    requires Consistent(w) && key in w.buses && Bounced(w, key, b, w1) && KeysMatch(w1)
    requires Enumerates(before, w.pending.Keys) && Enumerates(order, w1.pending.Keys)
    ensures multiset(Sweep(w1, order).Row(k)) ==
            (if k == key then multiset(Collect(w.Row(key), Returned(w))) else multiset(w.Row(k)))
            + multiset(Collect(before, RowItem(w, k)))
  {
    var ids := Collect(w.Row(key), LiveId(w));
    BounceOrder(w, key, b, w1, before, order);
    assert multiset(Sweep(w1, order).Row(k)) ==
           multiset(w1.Row(k)) + multiset(Collect(before, RowItem(w1, k))) + multiset(Collect(ids, RowItem(w1, k))) by {
      SweepPending(w1, order);
      SweepRowSplit(w1, order, before, ids, k);
    }
    assert Collect(before, RowItem(w1, k)) == Collect(before, RowItem(w, k)) by {
      SameItems(w, key, b, w1, before, k);
    }
    assert Collect(ids, RowItem(w1, k)) == if k == key then Collect(w.Row(key), Returned(w)) else [] by {
      ReturnedRow(w, w1, key, w.Row(key), k);
    }
    EmptiedRow(w, key, b, w1, k);
  }

  lemma EmptiedRow(w: World, key: BusKey, b: BusId, w1: World, k: BusKey)
    requires Bounced(w, key, b, w1)
    ensures w1.Row(k) == if k == key then [] else w.Row(k)
  {
  }

  /** Bouncing an upstream changes nobody's claim to wait. */
  lemma BouncePending(w: World, key: BusKey, b: BusId, w1: World)
    requires Consistent(w) && key in w.buses && Bounced(w, key, b, w1)
    ensures (map id | id in w1.pending && Waits(w1, w1.pending[id]) :: w1.pending[id]) ==
            (map id | id in w.pending && Waits(w, w.pending[id]) :: w.pending[id])
  {
    forall id ensures id in w1.pending && Waits(w1, w1.pending[id]) <==> id in w.pending && Waits(w, w.pending[id]) {
      LiveIdMember(w, w.Row(key), id);
    }
    forall id | id in w.pending && Waits(w, w.pending[id]) ensures w1.pending[id] == w.pending[id] {
      LiveIdMember(w, w.Row(key), id);
    }
  }

  /** The buses the bounce does not concern. */
  ghost predicate OtherBus(w: World, key: BusKey, b: BusId, i: BusId)
  {
    i != b && !(key in w.buses && w.buses[key] == i)
  }

  lemma SameBusItems(w: World, key: BusKey, b: BusId, w1: World, before: seq<HandleId>, i: BusId)
    requires key in w.buses && Bounced(w, key, b, w1) && OtherBus(w, key, b, i)
    requires forall id :: id in before ==> id in w.pending && id !in Collect(w.Row(key), LiveId(w))
    ensures Collect(before, BusItem(w1, i)) == Collect(before, BusItem(w, i))
  {
    forall id | id in before ensures BusItem(w1, i)(id) == BusItem(w, i)(id) {
      assert w1.pending[id] == w.pending[id];
    }
    CollectSame(before, BusItem(w1, i), BusItem(w, i));
  }

  lemma {:induction false} CollectNothing<T, U>(order: seq<T>, f: T -> Option<U>)
    requires forall x :: x in order ==> f(x).None?
    ensures Collect(order, f) == []
  {
    if order != [] {
      var n := |order| - 1;
      assert order[n] in order && forall x :: x in order[..n] ==> x in order;
      CollectNothing(order[..n], f);
    }
  }

  lemma NoReturns(w: World, key: BusKey, b: BusId, w1: World, i: BusId)
    requires key in w.buses && Bounced(w, key, b, w1) && OtherBus(w, key, b, i)
    ensures Collect(Collect(w.Row(key), LiveId(w)), BusItem(w1, i)) == []
  {
    var ids := Collect(w.Row(key), LiveId(w));
    forall id | id in ids ensures BusItem(w1, i)(id).None? {
      LiveIdMember(w, w.Row(key), id);
    }
    CollectNothing(ids, BusItem(w1, i));
  }

  /** Any other bus ends with the value and the subscriptions a plain sweep gives it. */
  lemma BounceBus(w: World, key: BusKey, b: BusId, w1: World, before: seq<HandleId>, order: seq<HandleId>, i: BusId)
    requires Consistent(w) && key in w.buses && Bounced(w, key, b, w1) && KeysMatch(w1) && OtherBus(w, key, b, i)
    requires Enumerates(before, w.pending.Keys) && Enumerates(order, w1.pending.Keys)
    ensures Sweep(w1, order).BusOf(i).value == Sweep(w, before).BusOf(i).value
    ensures multiset(Sweep(w1, order).BusOf(i).subs) == multiset(Sweep(w, before).BusOf(i).subs)
  {
    var ids := Collect(w.Row(key), LiveId(w));
    BounceOrder(w, key, b, w1, before, order);
    SweepPending(w, before);
    SweepPending(w1, order);
    SweepBus(w, before, i);
    SweepBus(w1, order, i);
    CollectOrder(order, before + ids, BusItem(w1, i));
    CollectConcat(before, ids, BusItem(w1, i));
    SameBusItems(w, key, b, w1, before, i);
    NoReturns(w, key, b, w1, i);
  }

  /** The statistics of a live subscriber of the bounced key. */
  ghost predicate Returns(w: World, key: BusKey, st: StatsId)
  {
    exists i :: 0 <= i < |w.Row(key)| && w.Row(key)[i].stats == st
  }

  /** They count one attempt more; all others are as after a plain sweep. */
  lemma BounceStats(w: World, key: BusKey, b: BusId, w1: World, before: seq<HandleId>, order: seq<HandleId>,
                    st: StatsId)
    requires Consistent(w) && key in w.buses && Bounced(w, key, b, w1) && KeysMatch(w1) && st in w.stats
    requires Enumerates(before, w.pending.Keys) && Enumerates(order, w1.pending.Keys)
    ensures var stats, plain := Sweep(w1, order).stats, Sweep(w, before).stats;
            && st in stats && st in plain
            && stats[st] == if Returns(w, key, st) then Stats(OneMore(w.stats[st].attempts), w.stats[st].state)
                            else plain[st]
  {
    SweepPending(w, before);
    SweepPending(w1, order);
    SweepLeaves(w, before);
    EnumeratesMembers(before, w.pending.Keys);
    EnumeratesMembers(order, w1.pending.Keys);
    BouncePendingApart(w, key, b, w1);
    if i :| 0 <= i < |w.Row(key)| && w.Row(key)[i].stats == st {
      SweepStatsBumped(w1, order, w.Row(key)[i].handleId, st);
    } else if id :| id in before && BumpsStats(w, id, st) {
      StillBumps(w, key, b, w1, id, st);
      SweepStatsBumped(w, before, id, st);
      SweepStatsBumped(w1, order, id, st);
    } else {
      forall id | id in order ensures !BumpsStats(w1, id, st) {
        if BumpsStats(w1, id, st) {
          NoNewBump(w, key, b, w1, id, st);
          assert false;
        }
      }
      SweepStatsKept(w, before, st);
      SweepStatsKept(w1, order, st);
    }
  }

  lemma StillBumps(w: World, key: BusKey, b: BusId, w1: World, id: HandleId, st: StatsId)
    requires Consistent(w) && key in w.buses && Bounced(w, key, b, w1) && id in w.pending && BumpsStats(w, id, st)
    ensures id in w1.pending && BumpsStats(w1, id, st)
  {
    LiveIdMember(w, w.Row(key), id);
  }

  lemma NoNewBump(w: World, key: BusKey, b: BusId, w1: World, id: HandleId, st: StatsId)
    requires Consistent(w) && key in w.buses && Bounced(w, key, b, w1) && id in w1.pending && !Returns(w, key, st)
    requires BumpsStats(w1, id, st)
    ensures id in w.pending && BumpsStats(w, id, st)
  {
    LiveIdMember(w, w.Row(key), id);
  }

  /** Unregister, register and sweep, against a plain sweep of the same registry: the row of
      the bounced key holds its live subscribers again, each with one more attempt and every
      other field unchanged, and whoever was waiting; every other row gains exactly what a
      plain sweep gives it; the same waiters keep waiting; every bus but the old and the new one
      has the value and subscriptions of the plain sweep; and of the statistics only those of
      the subscribers that came back differ from it, by one attempt. */
  lemma BounceAndSweep(w: World, key: BusKey, b: BusId, before: seq<HandleId>, order: seq<HandleId>)
    requires Consistent(w) && key in w.buses && Enumerates(before, w.pending.Keys)
    requires Enumerates(order, Bounce(w, key, b).pending.Keys)
    ensures KeysMatch(Bounce(w, key, b))
    ensures var w' := Sweep(Bounce(w, key, b), order);
            && multiset(w'.Row(key)) ==
                 multiset(Collect(w.Row(key), Returned(w))) + multiset(Collect(before, RowItem(w, key)))
            && (forall k :: k != key ==> multiset(w'.Row(k)) == multiset(Sweep(w, before).Row(k)))
            && w'.pending == Sweep(w, before).pending
            && w'.buses == w.buses[key := b]
            && (forall i :: OtherBus(w, key, b, i) ==>
                  && w'.BusOf(i).value == Sweep(w, before).BusOf(i).value
                  && multiset(w'.BusOf(i).subs) == multiset(Sweep(w, before).BusOf(i).subs))
            && w'.stats.Keys == Sweep(w, before).stats.Keys == w.stats.Keys
            && (forall st :: st in w.stats ==>
                  w'.stats[st] ==
                    if Returns(w, key, st) then Stats(OneMore(w.stats[st].attempts), w.stats[st].state)
                    else Sweep(w, before).stats[st])
  {
    BounceFacts(w, key, b);
    var w1 := Bounce(w, key, b);
    BounceKeysMatch(w, key, b, w1);
    SweepPending(w, before);
    SweepPending(w1, order);
    BounceRow(w, key, b, w1, before, order, key);
    forall k | k != key ensures multiset(Sweep(w1, order).Row(k)) == multiset(Sweep(w, before).Row(k)) {
      BounceRow(w, key, b, w1, before, order, k);
      SweepRow(w, before, k);
    }
    BouncePending(w, key, b, w1);
    SweepLeaves(w, before);
    SweepLeaves(w1, order);
    forall i | OtherBus(w, key, b, i)
      ensures Sweep(w1, order).BusOf(i).value == Sweep(w, before).BusOf(i).value
      ensures multiset(Sweep(w1, order).BusOf(i).subs) == multiset(Sweep(w, before).BusOf(i).subs)
    {
      BounceBus(w, key, b, w1, before, order, i);
    }
    forall st | st in w.stats
      ensures st in Sweep(w1, order).stats && st in Sweep(w, before).stats
      ensures Sweep(w1, order).stats[st] ==
              if Returns(w, key, st) then Stats(OneMore(w.stats[st].attempts), w.stats[st].state)
              else Sweep(w, before).stats[st]
    {
      BounceStats(w, key, b, w1, before, order, st);
    }
  }

  /** The bounced registry's waiters still have nothing in common. */
  lemma BouncePendingApart(w: World, key: BusKey, b: BusId, w1: World)
    requires Consistent(w) && Bounced(w, key, b, w1)
    ensures PendingApart(w1)
  {
    forall i, j | i in w1.pending && j in w1.pending && i != j
      ensures Apart(w1.pending[i].ToSubscriber(), w1.pending[j].ToSubscriber())
    {
      LiveIdMember(w, w.Row(key), i);
      LiveIdMember(w, w.Row(key), j);
    }
  }

  /** Every live subscriber hears of the new upstream: the gate's state if the new bus has a
      value, and otherwise still that the old one is gone. */
  lemma BounceSignals(w: World, key: BusKey, b: BusId, order: seq<HandleId>, i: nat)
    requires Consistent(w) && key in w.buses && i < |w.Row(key)| && Live(w, w.Row(key)[i].stats)
    requires Enumerates(order, Bounce(w, key, b).pending.Keys) && KeysMatch(Bounce(w, key, b))
    ensures var slot := Sweep(Bounce(w, key, b), order).slot;
            var s := w.Row(key)[i];
            var value := w.BusOf(b).value;
            && s.sender in slot
            && slot[s.sender] == if value.Some? then EdgeAt(value.value, s.spec) else UpstreamGone
  {
    BounceFacts(w, key, b);
    var w1, s := Bounce(w, key, b), w.Row(key)[i];
    BouncePendingApart(w, key, b, w1);
    SweepPending(w1, order);
    EnumeratesMembers(order, w1.pending.Keys);
    if w.BusOf(b).value.Some? {
      SweepSlotSet(w1, order, s.handleId);
    } else {
      forall id | id in order ensures !SignalsOn(w1, id, s.sender) {
        if id != s.handleId {
          assert Apart(w1.pending[id].ToSubscriber(), w1.pending[s.handleId].ToSubscriber());
        }
      }
      SweepSlotKept(w1, order, s.sender);
    }
  }
}
