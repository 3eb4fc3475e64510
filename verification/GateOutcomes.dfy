/** What each call on the registry leaves, field by field and for every order its hash maps can be
    visited in. The predicates here say it in terms of the maps alone. */
module GateOutcomes {
  import opened Orders
  import opened GateModel
  import opened GateSweep
  import GateConsistency
  import GateOrders

  function KeyOf(p: Waiter): BusKey { BusKey(p.scenarioName, p.entryId) }

  function RowIn(w: World, k: BusKey): seq<Subscriber>
  {
    if k in w.subscribers then w.subscribers[k] else []
  }

  function SubsOf(w: World, b: BusId): seq<Subscription>
  {
    if b in w.bus then w.bus[b].subs else []
  }

  function ValueOf(w: World, b: BusId): Option<Value>
  {
    if b in w.bus then w.bus[b].value else None
  }

  predicate SameSlot(w: World, w': World, tx: Sender)
  {
    (tx in w'.slot <==> tx in w.slot) && (tx in w.slot ==> w'.slot[tx] == w.slot[tx])
  }

  predicate SameWaiter(w: World, w': World, id: HandleId)
  {
    (id in w'.pending <==> id in w.pending) && (id in w.pending ==> w'.pending[id] == w.pending[id])
  }

  predicate SameStats(w: World, w': World, st: StatsId)
  {
    (st in w'.stats <==> st in w.stats) && (st in w.stats ==> w'.stats[st] == w.stats[st])
  }

  // ---- register ----

  /** The first registration of a key stands: a second one is refused and changes nothing. */
  lemma FirstRegistrationStands(w: World, key: BusKey, a: BusId, b: BusId)
    ensures var (w1, first) := Register(w, key, a);
            && Register(w1, key, b) == (w1, Some(DuplicateScenarioName(key.scenarioName)))
            && (first.None? <==> key !in w.buses)
            && key in w1.buses && w1.buses[key] == (if key in w.buses then w.buses[key] else a)
            && w1 == w.(buses := w1.buses) && w1.buses - {key} == w.buses - {key}
  {
  }

  /** A key whose bus is unregistered can be registered again. */
  lemma UnregisteredKeyIsFree(w: World, keys: seq<BusKey>, key: BusKey, b: BusId)
    requires NoDuplicates(keys) && key in keys && forall k :: k in keys ==> k in w.buses
    ensures var (w', err) := Register(Unregister(w, keys), key, b);
            err == None && key in w'.buses && w'.buses[key] == b
  {
    RetiredSlots(w, keys, 0);
    RequeueSlots(Retire(w, keys), keys, 0);
  }

  // ---- sweep_pending ----

  /** A waiter whose stats are alive and whose upstream is registered. */
  predicate Promotes(w: World, id: HandleId)
  {
    id in w.pending && w.pending[id].stats in w.stats && KeyOf(w.pending[id]) in w.buses
  }

  predicate PromotesTo(w: World, id: HandleId, k: BusKey)
  {
    Promotes(w, id) && KeyOf(w.pending[id]) == k
  }

  predicate PromotesOn(w: World, id: HandleId, b: BusId)
  {
    Promotes(w, id) && w.buses[KeyOf(w.pending[id])] == b
  }

  /** A live waiter whose upstream is not registered. */
  predicate Stays(w: World, id: HandleId)
  {
    id in w.pending && w.pending[id].stats in w.stats && KeyOf(w.pending[id]) !in w.buses
  }

  ghost predicate SweptPending(w: World, w': World)
  {
    forall id :: (id in w'.pending <==> Stays(w, id)) && (Stays(w, id) ==> w'.pending[id] == w.pending[id])
  }

  /** `r` is what waiter `id` becomes: the same fields, and one attempt more up to 2^64 - 1. */
  predicate RecordOf(w: World, id: HandleId, r: Subscriber)
    requires id in w.pending
  {
    var p := w.pending[id];
    && r.handleId == p.handleId && r.stats == p.stats && r.sender == p.sender && r.spec == p.spec
    && r.ifUnresolved == p.ifUnresolved && r.registeredAt == p.registeredAt
    && r.attempts == if p.attempts < 0xffff_ffff_ffff_ffff then p.attempts + 1 else p.attempts
  }

  /** A row keeps its records and gains one for each waiter promoted to it. */
  ghost predicate SweptRow(w: World, w': World, k: BusKey)
  {
    var n := |RowIn(w, k)|;
    && RowIn(w, k) <= RowIn(w', k) && NoDuplicates(RowIn(w', k)[n..])
    && (forall r :: r in RowIn(w', k)[n..] ==> exists id :: PromotesTo(w, id, k) && RecordOf(w, id, r))
    && (forall id :: PromotesTo(w, id, k) ==> exists r :: r in RowIn(w', k)[n..] && RecordOf(w, id, r))
  }

  /** A bus keeps its value and its subscriptions and gains one for each waiter promoted on it. */
  ghost predicate SweptBus(w: World, w': World, b: BusId)
  {
    var n := |SubsOf(w, b)|;
    && ValueOf(w', b) == ValueOf(w, b)
    && SubsOf(w, b) <= SubsOf(w', b) && NoDuplicates(SubsOf(w', b)[n..])
    && (forall s :: s in SubsOf(w', b)[n..] ==> exists id :: PromotesOn(w, id, b) && SubscriptionOf(w, id, s))
    && (forall id :: PromotesOn(w, id, b) ==> exists s :: s in SubsOf(w', b)[n..] && SubscriptionOf(w, id, s))
  }

  /** `s` gates waiter `id`: its spec and channel, and nothing to tell after a fire. */
  predicate SubscriptionOf(w: World, id: HandleId, s: Subscription)
    requires id in w.pending
  {
    s.spec == Some(w.pending[id].spec) && s.whileTx == Some(w.pending[id].sender) && s.afterTx == None
  }

  /** The gate of a promoted waiter, on the value its bus has. */
  predicate OpenNow(w: World, id: HandleId)
    requires Promotes(w, id)
  {
    match ValueOf(w, w.buses[KeyOf(w.pending[id])])
    case Some(Number(n)) =>
      if w.pending[id].spec.op.LessThan? then n < w.pending[id].spec.threshold
      else n > w.pending[id].spec.threshold
    case _ => false
  }

  predicate Told(w: World, id: HandleId)
  {
    Promotes(w, id) && ValueOf(w, w.buses[KeyOf(w.pending[id])]).Some?
  }

  /** Each promoted waiter whose bus has a value is told at once whether its gate is open; no other
      channel is touched. */
  ghost predicate SweptSlots(w: World, w': World)
  {
    && (forall id :: Told(w, id) ==>
          && w.pending[id].sender in w'.slot
          && w'.slot[w.pending[id].sender] == if OpenNow(w, id) then WhileOpen else WhileClose)
    && (forall tx :: (forall id :: Told(w, id) ==> w.pending[id].sender != tx) ==> SameSlot(w, w', tx))
  }

  /** The stats of each promoted waiter count one attempt more, up to 2^64 - 1; no others change. */
  ghost predicate SweptStats(w: World, w': World)
  {
    && (forall id :: Promotes(w, id) ==>
          && var st := w.pending[id].stats;
          && st in w'.stats && w'.stats[st].state == w.stats[st].state
          && (w.stats[st].attempts < 0xffff_ffff_ffff_ffff ==> w'.stats[st].attempts == w.stats[st].attempts + 1)
          && (w.stats[st].attempts >= 0xffff_ffff_ffff_ffff ==> w'.stats[st].attempts == w.stats[st].attempts))
    && (forall st :: (forall id :: Promotes(w, id) ==> w.pending[id].stats != st) ==> SameStats(w, w', st))
  }

  ghost predicate Swept(w: World, w': World)
  {
    && w'.buses == w.buses && SweptPending(w, w') && SweptSlots(w, w') && SweptStats(w, w')
    && (forall k :: SweptRow(w, w', k)) && forall b :: SweptBus(w, w', b)
  }

  lemma {:induction false} CollectDistinct<T, U>(order: seq<T>, f: T -> Option<U>)
    requires NoDuplicates(order)
    requires forall x, y :: x in order && y in order && f(x).Some? && f(x) == f(y) ==> x == y
    ensures NoDuplicates(Collect(order, f))
  {
    if order != [] {
      var n := |order| - 1;
      CollectDistinct(order[..n], f);
      assert order == order[..n] + [order[n]];
      if f(order[n]).Some? {
        CollectMember(order[..n], f, f(order[n]).value);
        NoDuplicatesSnoc(Collect(order[..n], f), f(order[n]).value);
      }
    }
  }

  lemma SweepRowOutcome(w: World, order: seq<HandleId>, k: BusKey)
    requires KeysMatch(w) && Enumerates(order, w.pending.Keys)
    ensures SweptRow(w, Sweep(w, order), k)
  {
    SweepPending(w, order);
    EnumeratesMembers(order, w.pending.Keys);
    SweepRow(w, order, k);
    var f, n := RowItem(w, k), |RowIn(w, k)|;
    var gained := Collect(order, f);
    assert RowIn(Sweep(w, order), k)[n..] == gained;
    CollectDistinct(order, f);
    RowItemsAre(w, order, k);
  }

  lemma RowItemsAre(w: World, order: seq<HandleId>, k: BusKey)
    requires forall id :: id in order <==> id in w.pending
    ensures var gained := Collect(order, RowItem(w, k));
            && (forall r :: r in gained ==> exists id :: PromotesTo(w, id, k) && RecordOf(w, id, r))
            && (forall id :: PromotesTo(w, id, k) ==> exists r :: r in gained && RecordOf(w, id, r))
  {
    var f := RowItem(w, k);
    var gained := Collect(order, f);
    forall r | r in gained ensures exists id :: PromotesTo(w, id, k) && RecordOf(w, id, r) {
      CollectMember(order, f, r);
      var id :| id in order && f(id) == Some(r);
      assert PromotesTo(w, id, k) && RecordOf(w, id, r);
    }
    forall id | PromotesTo(w, id, k) ensures exists r :: r in gained && RecordOf(w, id, r) {
      CollectMember(order, f, Tracked(w.pending[id]));
      assert id in order && f(id) == Some(Tracked(w.pending[id]));
    }
  }

  lemma SweepBusOutcome(w: World, order: seq<HandleId>, b: BusId)
    requires Consistent(w) && Enumerates(order, w.pending.Keys)
    ensures SweptBus(w, Sweep(w, order), b)
  {
    SweepPending(w, order);
    EnumeratesMembers(order, w.pending.Keys);
    SweepBus(w, order, b);
    var f, n := BusItem(w, b), |SubsOf(w, b)|;
    var gained := Collect(order, f);
    assert SubsOf(Sweep(w, order), b)[n..] == gained;
    BusItemsDiffer(w, order, b);
    CollectDistinct(order, f);
    BusItemsAre(w, order, b);
  }

  lemma BusItemsAre(w: World, order: seq<HandleId>, b: BusId)
    requires forall id :: id in order <==> id in w.pending
    ensures var gained := Collect(order, BusItem(w, b));
            && (forall s :: s in gained ==> exists id :: PromotesOn(w, id, b) && SubscriptionOf(w, id, s))
            && (forall id :: PromotesOn(w, id, b) ==> exists s :: s in gained && SubscriptionOf(w, id, s))
  {
    var f := BusItem(w, b);
    var gained := Collect(order, f);
    forall s | s in gained ensures exists id :: PromotesOn(w, id, b) && SubscriptionOf(w, id, s) {
      CollectMember(order, f, s);
      var id :| id in order && f(id) == Some(s);
      assert PromotesOn(w, id, b) && SubscriptionOf(w, id, s);
    }
    forall id | PromotesOn(w, id, b) ensures exists s :: s in gained && SubscriptionOf(w, id, s) {
      var s := Subscription(Some(w.pending[id].spec), Some(w.pending[id].sender), None);
      assert id in order && f(id) == Some(s);
      CollectMember(order, f, s);
    }
  }

  lemma BusItemsDiffer(w: World, order: seq<HandleId>, b: BusId)
    requires PendingApart(w) && forall id :: id in order ==> id in w.pending
    ensures var f := BusItem(w, b);
            forall x, y :: x in order && y in order && f(x).Some? && f(x) == f(y) ==> x == y
  {
  }

  lemma SweepSlotsOutcome(w: World, order: seq<HandleId>)
    requires Consistent(w) && Enumerates(order, w.pending.Keys)
    ensures SweptSlots(w, Sweep(w, order))
  {
    SweepPending(w, order);
    EnumeratesMembers(order, w.pending.Keys);
    var w' := Sweep(w, order);
    forall id | Told(w, id)
      ensures w.pending[id].sender in w'.slot
      ensures w'.slot[w.pending[id].sender] == if OpenNow(w, id) then WhileOpen else WhileClose
    {
      SweepSlotSet(w, order, id);
    }
    forall tx | forall id :: Told(w, id) ==> w.pending[id].sender != tx ensures SameSlot(w, w', tx) {
      forall id | id in order ensures !SignalsOn(w, id, tx) {
        assert Told(w, id) ==> w.pending[id].sender != tx;
      }
      SweepSlotKept(w, order, tx);
    }
  }

  lemma SweepStatsOutcome(w: World, order: seq<HandleId>)
    requires Consistent(w) && Enumerates(order, w.pending.Keys)
    ensures SweptStats(w, Sweep(w, order))
  {
    SweepPending(w, order);
    EnumeratesMembers(order, w.pending.Keys);
    SweepLeaves(w, order);
    var w' := Sweep(w, order);
    forall id | Promotes(w, id)
      ensures var st := w.pending[id].stats;
              st in w'.stats && w'.stats[st] == Stats(OneMore(w.stats[st].attempts), w.stats[st].state)
    {
      SweepStatsBumped(w, order, id, w.pending[id].stats);
    }
    forall st | forall id :: Promotes(w, id) ==> w.pending[id].stats != st ensures SameStats(w, w', st) {
      assert st in w.stats.Keys <==> st in w'.stats.Keys;
      if st in w.stats {
        forall id | id in order ensures !BumpsStats(w, id, st) {
          assert Promotes(w, id) ==> w.pending[id].stats != st;
        }
        SweepStatsKept(w, order, st);
      }
    }
  }

  lemma SweepOutcome(w: World, order: seq<HandleId>)
    requires Consistent(w) && Enumerates(order, w.pending.Keys)
    ensures Swept(w, Sweep(w, order))
  {
    SweepPending(w, order);
    SweepSlotsOutcome(w, order);
    SweepStatsOutcome(w, order);
    forall k ensures SweptRow(w, Sweep(w, order), k) {
      SweepRowOutcome(w, order, k);
    }
    forall b ensures SweptBus(w, Sweep(w, order), b) {
      SweepBusOutcome(w, order, b);
    }
  }

  // ---- unregister_entries ----

  predicate Goes(w: World, name: string, entries: set<string>, k: BusKey)
  {
    k in w.buses && k.scenarioName == name && k.entryId in entries
  }

  /** Subscription `i` of the bus of a key that goes has `tx` for its `while:` or its `after:` channel. */
  predicate Listens(w: World, name: string, entries: set<string>, k: BusKey, i: int, tx: Sender)
  {
    && Goes(w, name, entries, k) && 0 <= i < |SubsOf(w, w.buses[k])|
    && (SubsOf(w, w.buses[k])[i].whileTx == Some(tx) || SubsOf(w, w.buses[k])[i].afterTx == Some(tx))
  }

  /** Record `i` in the row of a key that goes, if its stats are alive. */
  predicate Returns(w: World, name: string, entries: set<string>, k: BusKey, i: int)
  {
    Goes(w, name, entries, k) && 0 <= i < |RowIn(w, k)| && RowIn(w, k)[i].stats in w.stats
  }

  ghost predicate Hears(w: World, name: string, entries: set<string>, tx: Sender)
  {
    || (exists k, i :: Listens(w, name, entries, k, i, tx))
    || (exists k, i :: Returns(w, name, entries, k, i) && RowIn(w, k)[i].sender == tx)
  }

  predicate GoneIf(w: World, told: bool, tx: Sender, w': World)
  {
    if told then tx in w'.slot && w'.slot[tx] == UpstreamGone else SameSlot(w, w', tx)
  }

  /** Both kinds of channels hear that their upstream is gone, and no other channel is touched. */
  ghost predicate UnregisteredSlots(w: World, name: string, entries: set<string>, w': World)
  {
    forall tx :: GoneIf(w, Hears(w, name, entries, tx), tx, w')
  }

  /** The buses and rows of the keys that go are taken out, and nothing else of the two maps. */
  ghost predicate UnregisteredMaps(w: World, name: string, entries: set<string>, w': World)
  {
    && w'.bus == w.bus && w'.stats == w.stats
    && (forall k :: (k in w'.buses <==> k in w.buses && !Goes(w, name, entries, k))
                    && (k in w'.buses ==> w'.buses[k] == w.buses[k]))
    && (forall k :: (k in w'.subscribers <==> k in w.subscribers && !Goes(w, name, entries, k))
                    && (k in w'.subscribers ==> w'.subscribers[k] == w.subscribers[k]))
  }

  /** `p` is record `r` of row `k`, waiting again with every field it had. */
  predicate WaiterOf(r: Subscriber, k: BusKey, p: Waiter)
  {
    && p.handleId == r.handleId && p.stats == r.stats && p.sender == r.sender && p.spec == r.spec
    && p.ifUnresolved == r.ifUnresolved && p.registeredAt == r.registeredAt && p.attempts == r.attempts
    && p.scenarioName == k.scenarioName && p.entryId == k.entryId
  }

  ghost predicate UnregisteredPending(w: World, name: string, entries: set<string>, w': World)
  {
    && (forall k, i :: Returns(w, name, entries, k, i) ==>
          RowIn(w, k)[i].handleId in w'.pending && WaiterOf(RowIn(w, k)[i], k, w'.pending[RowIn(w, k)[i].handleId]))
    && (forall id :: (forall k, i :: Returns(w, name, entries, k, i) ==> RowIn(w, k)[i].handleId != id)
                     ==> SameWaiter(w, w', id))
  }

  lemma GoesAre(w: World, name: string, entries: set<string>, keys: seq<BusKey>)
    requires Enumerates(keys, Removed(w, name, entries))
    ensures forall k :: k in keys <==> Goes(w, name, entries, k)
    ensures forall k :: k in keys ==> k in w.buses
  {
    EnumeratesMembers(keys, Removed(w, name, entries));
  }

  lemma RetiredSlots(w: World, keys: seq<BusKey>, tx: Sender)
    requires forall k :: k in keys ==> k in w.buses
    ensures var w' := Retire(w, keys);
            && w' == w.(buses := w.buses - (set k | k in keys), slot := w'.slot)
            && GoneIf(w, BusesTell(w, keys, tx), tx, w')
  {
    var taken, retired := w.(buses := w.buses - set k | k in keys), Retired(w.buses, keys);
    GateOrders.BroadcastSlots(taken, retired, tx);
    assert BusesTell(w, keys, tx) <==> GateOrders.Tells(taken, retired, tx) by {
      forall k | k in keys ensures w.buses[k] in retired {
        var i :| 0 <= i < |keys| && keys[i] == k;
        assert retired[i] == w.buses[k];
      }
      forall b | b in retired ensures exists k :: k in keys && w.buses[k] == b {
        var i :| 0 <= i < |retired| && retired[i] == b;
        assert keys[i] in keys;
      }
      forall b ensures OnBus(w, b, tx) <==> tx in Channels(taken.BusOf(b).subs) {
        OnBusChannels(w, b, tx);
      }
    }
  }

  /** Some subscription of bus `b` has `tx` for one of its channels. */
  predicate OnBus(w: World, b: BusId, tx: Sender)
  {
    exists i :: 0 <= i < |SubsOf(w, b)| && (SubsOf(w, b)[i].whileTx == Some(tx) || SubsOf(w, b)[i].afterTx == Some(tx))
  }

  ghost predicate BusesTell(w: World, keys: seq<BusKey>, tx: Sender)
  {
    exists k :: k in keys && k in w.buses && OnBus(w, w.buses[k], tx)
  }

  lemma OnBusChannels(w: World, b: BusId, tx: Sender)
    ensures OnBus(w, b, tx) <==> tx in Channels(w.BusOf(b).subs)
  {
    var subs := w.BusOf(b).subs;
    assert subs == SubsOf(w, b);
    if s :| s in subs && (s.whileTx == Some(tx) || s.afterTx == Some(tx)) {
      var i :| 0 <= i < |subs| && subs[i] == s;
      assert OnBus(w, b, tx);
    }
  }

  /** A live record of one of the rows has this channel. */
  ghost predicate RowSends(w: World, refs: seq<Subscriber>, tx: Sender)
  {
    exists i :: 0 <= i < |refs| && refs[i].stats in w.stats && refs[i].sender == tx
  }

  ghost predicate RowsSend(w: World, keys: seq<BusKey>, tx: Sender)
  {
    exists k :: k in keys && RowSends(w, RowIn(w, k), tx)
  }

  lemma {:induction false} RequeueRowSlots(w: World, key: BusKey, refs: seq<Subscriber>, tx: Sender)
    ensures var w' := RequeueRow(w, key, refs);
            && GoneIf(w, RowSends(w, refs, tx), tx, w')
            && w' == w.(slot := w'.slot, pending := w'.pending)
    decreases |refs|
  {
    if refs != [] {
      var l := |refs| - 1;
      RequeueRowSlots(w, key, refs[..l], tx);
      assert RowSends(w, refs, tx) <==>
             RowSends(w, refs[..l], tx) || (refs[l].stats in w.stats && refs[l].sender == tx);
    }
  }

  /** `s` is `w` without the rows of `keys`, as far as slots and waiters do not tell. */
  ghost predicate RowsTaken(w: World, keys: seq<BusKey>, s: World)
  {
    s == w.(slot := s.slot, pending := s.pending, subscribers := w.subscribers - set k | k in keys)
  }

  lemma {:induction false} RequeueSlots(w: World, keys: seq<BusKey>, tx: Sender)
    requires NoDuplicates(keys)
    ensures RowsTaken(w, keys, Requeue(w, keys)) && GoneIf(w, RowsSend(w, keys, tx), tx, Requeue(w, keys))
    decreases |keys|
  {
    if keys != [] {
      var l := |keys| - 1;
      assert keys == keys[..l] + [keys[l]];
      RequeueSlots(w, keys[..l], tx);
      RequeueKeySlots(w, keys[..l], keys[l], Requeue(w, keys[..l]), tx, keys);
    }
  }

  lemma RequeueKeySlots(w: World, init: seq<BusKey>, key: BusKey, s: World, tx: Sender, keys: seq<BusKey>)
    requires key !in init && keys == init + [key]
    requires RowsTaken(w, init, s) && GoneIf(w, RowsSend(w, init, tx), tx, s)
    ensures RowsTaken(w, keys, RequeueKey(s, key)) && GoneIf(w, RowsSend(w, keys, tx), tx, RequeueKey(s, key))
  {
    TakeOneMore(w.subscribers, init, key, keys);
    RowsSendOneMore(w, init, key, keys, tx);
    assert RowIn(s, key) == RowIn(w, key);
    if key in s.subscribers {
      RequeueRowSlots(s.(subscribers := s.subscribers - {key}), key, s.subscribers[key], tx);
    }
  }

  lemma TakeOneMore(rows: map<BusKey, seq<Subscriber>>, init: seq<BusKey>, key: BusKey, keys: seq<BusKey>)
    requires keys == init + [key]
    ensures rows - (set k | k in keys) == rows - (set k | k in init) - {key}
    ensures key !in rows ==> rows - (set k | k in keys) == rows - (set k | k in init)
  {
    assert (set k | k in keys) == (set k | k in init) + {key};
  }

  lemma RowsSendOneMore(w: World, init: seq<BusKey>, key: BusKey, keys: seq<BusKey>, tx: Sender)
    requires keys == init + [key]
    ensures RowsSend(w, keys, tx) <==> RowsSend(w, init, tx) || RowSends(w, RowIn(w, key), tx)
  {
    assert forall k :: k in keys <==> k in init || k == key;
  }

  /** For every registry, consistent or not. */
  lemma UnregisterSlotsOutcome(w: World, name: string, entries: set<string>, keys: seq<BusKey>)
    requires Enumerates(keys, Removed(w, name, entries))
    ensures forall k :: k in keys ==> k in w.buses
    ensures UnregisteredSlots(w, name, entries, Unregister(w, keys))
  {
    GoesAre(w, name, entries, keys);
    var w' := Unregister(w, keys);
    forall tx ensures GoneIf(w, Hears(w, name, entries, tx), tx, w') {
      RetiredSlots(w, keys, tx);
      RequeueSlots(Retire(w, keys), keys, tx);
      HearsAre(w, name, entries, keys, tx);
    }
  }

  lemma HearsAre(w: World, name: string, entries: set<string>, keys: seq<BusKey>, tx: Sender)
    requires (forall k :: k in keys ==> k in w.buses) && forall k :: k in keys <==> Goes(w, name, entries, k)
    ensures Hears(w, name, entries, tx) <==>
            BusesTell(w, keys, tx) || RowsSend(w, keys, tx)
  {
    if k, i :| Listens(w, name, entries, k, i, tx) {
      assert k in keys && OnBus(w, w.buses[k], tx);
    }
    if k, i :| Returns(w, name, entries, k, i) && RowIn(w, k)[i].sender == tx {
      assert k in keys && RowSends(w, RowIn(w, k), tx);
    }
    if k :| k in keys && k in w.buses && OnBus(w, w.buses[k], tx) {
      var i :| 0 <= i < |SubsOf(w, w.buses[k])|
               && (SubsOf(w, w.buses[k])[i].whileTx == Some(tx) || SubsOf(w, w.buses[k])[i].afterTx == Some(tx));
      assert Listens(w, name, entries, k, i, tx);
    }
    if k :| k in keys && RowSends(w, RowIn(w, k), tx) {
      var i :| 0 <= i < |RowIn(w, k)| && RowIn(w, k)[i].stats in w.stats && RowIn(w, k)[i].sender == tx;
      assert Returns(w, name, entries, k, i);
    }
  }

  lemma UnregisterMapsOutcome(w: World, name: string, entries: set<string>, keys: seq<BusKey>)
    requires Enumerates(keys, Removed(w, name, entries))
    ensures forall k :: k in keys ==> k in w.buses
    ensures UnregisteredMaps(w, name, entries, Unregister(w, keys))
  {
    GoesAre(w, name, entries, keys);
    RetiredSlots(w, keys, 0);
    RequeueSlots(Retire(w, keys), keys, 0);
  }

  lemma UnregisterPendingOutcome(w: World, name: string, entries: set<string>, keys: seq<BusKey>)
    requires Consistent(w) && Enumerates(keys, Removed(w, name, entries))
    ensures forall k :: k in keys ==> k in w.buses
    ensures UnregisteredPending(w, name, entries, Unregister(w, keys))
  {
    GoesAre(w, name, entries, keys);
    RetiredSlots(w, keys, 0);
    var u, gone := Retire(w, keys), set k | k in keys;
    GateConsistency.RetireConsistent(w, keys);
    GateOrders.RequeueMoved(u, keys);
    var w' := Unregister(w, keys);
    forall k, i | Returns(w, name, entries, k, i)
      ensures RowIn(w, k)[i].handleId in w'.pending
      ensures WaiterOf(RowIn(w, k)[i], k, w'.pending[RowIn(w, k)[i].handleId])
    {
      assert GateOrders.Rowed(u, gone, k, i);
    }
    forall id | forall k, i :: Returns(w, name, entries, k, i) ==> RowIn(w, k)[i].handleId != id
      ensures SameWaiter(w, w', id)
    {
      forall k, i | GateOrders.Rowed(u, gone, k, i) ensures u.subscribers[k][i].handleId != id {
        assert Returns(w, name, entries, k, i);
      }
      assert GateOrders.NoId(u, gone, id);
      assert GateOrders.SamePending(u, w', id);
    }
  }

  // ---- cancel_pending_for_upstream ----

  predicate Cancels(w: World, key: BusKey, id: HandleId)
  {
    id in w.pending && w.pending[id].scenarioName == key.scenarioName && w.pending[id].entryId == key.entryId
  }

  /** The waiters on `key` are taken out and told; those of their stats that have not finished read
      unresolved; and nothing else changes. */
  ghost predicate Cancelled(w: World, key: BusKey, w': World)
  {
    && w'.buses == w.buses && w'.subscribers == w.subscribers && w'.bus == w.bus
    && (forall id :: if Cancels(w, key, id) then id !in w'.pending else SameWaiter(w, w', id))
    && (forall id :: Cancels(w, key, id) ==>
          w.pending[id].sender in w'.slot && w'.slot[w.pending[id].sender] == UpstreamGone)
    && (forall tx :: (forall id :: Cancels(w, key, id) ==> w.pending[id].sender != tx) ==> SameSlot(w, w', tx))
    && (forall id :: Cancels(w, key, id) && w.pending[id].stats in w.stats ==>
          && var st := w.pending[id].stats;
          && st in w'.stats && w'.stats[st].attempts == w.stats[st].attempts
          && w'.stats[st].state == if w.stats[st].state == Finished then Finished else RunState.Unresolved)
    && (forall st :: (forall id :: Cancels(w, key, id) ==> w.pending[id].stats != st) ==> SameStats(w, w', st))
  }

  lemma CancelOutcome(w: World, key: BusKey, order: seq<HandleId>)
    requires Enumerates(order, Waiting(w, key))
    ensures Cancelled(w, key, Cancel(w, order))
  {
    EnumeratesMembers(order, Waiting(w, key));
    assert forall id :: id in order <==> Cancels(w, key, id);
    var w' := Cancel(w, order);
    GateOrders.CancelLeaves(w, order);
    forall id | Cancels(w, key, id)
      ensures w.pending[id].sender in w'.slot && w'.slot[w.pending[id].sender] == UpstreamGone
      ensures w.pending[id].stats in w.stats ==>
                && var st := w.pending[id].stats;
                && st in w'.stats && w'.stats[st].attempts == w.stats[st].attempts
                && w'.stats[st].state == if w.stats[st].state == Finished then Finished else RunState.Unresolved
    {
      var i :| 0 <= i < |order| && order[i] == id;
      assert GateOrders.CancelsOn(w, order, w.pending[id].sender);
      GateOrders.CancelSlot(w, order, w.pending[id].sender);
      assert GateOrders.CancelsStats(w, order, w.pending[id].stats);
      GateOrders.CancelStats(w, order, w.pending[id].stats);
    }
    forall tx | forall id :: Cancels(w, key, id) ==> w.pending[id].sender != tx ensures SameSlot(w, w', tx) {
      assert !GateOrders.CancelsOn(w, order, tx);
      GateOrders.CancelSlot(w, order, tx);
    }
    forall st | forall id :: Cancels(w, key, id) ==> w.pending[id].stats != st ensures SameStats(w, w', st) {
      assert !GateOrders.CancelsStats(w, order, st);
      GateOrders.CancelStats(w, order, st);
    }
  }

  // ---- rename_handle ----

  /** Every record of `o` is one of `n`, in its place and with its other fields; a record that waited
      under `n` gives way to a renamed one; and nothing else changes. */
  ghost predicate Renamed(w: World, o: HandleId, n: HandleId, w': World)
  {
    && w'.buses == w.buses && w'.bus == w.bus && w'.slot == w.slot && w'.stats == w.stats
    && (o == n || o !in w.pending ==> w'.pending == w.pending)
    && (o != n && o in w.pending ==>
          && o !in w'.pending && n in w'.pending && w'.pending[n] == w.pending[o].(handleId := n)
          && forall id :: id != o && id != n ==> SameWaiter(w, w', id))
    && w'.subscribers.Keys == w.subscribers.Keys
    && (forall k :: k in w.subscribers ==> |w'.subscribers[k]| == |w.subscribers[k]|)
    && (forall k, i :: k in w.subscribers && 0 <= i < |w.subscribers[k]| ==>
          RenamedRecord(w.subscribers[k][i], o, n, w'.subscribers[k][i]))
  }

  predicate RenamedRecord(r: Subscriber, o: HandleId, n: HandleId, r': Subscriber)
  {
    && r'.handleId == (if r.handleId == o then n else r.handleId)
    && r'.stats == r.stats && r'.sender == r.sender && r'.spec == r.spec && r'.ifUnresolved == r.ifUnresolved
    && r'.registeredAt == r.registeredAt && r'.attempts == r.attempts
  }

  lemma RenameOutcome(w: World, o: HandleId, n: HandleId)
    ensures Renamed(w, o, n, Rename(w, o, n))
  {
  }
}
