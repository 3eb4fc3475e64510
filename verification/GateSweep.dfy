/** What `sweep_pending` does, for every order in which it can visit the pending map. */
module GateSweep {
  import opened Orders
  import opened GateModel

  /** One attempt more; the counters are 64-bit words that stop at their largest value. */
  function OneMore(n: nat): nat
  {
    if n < 0xffff_ffff_ffff_ffff then n + 1 else n
  }

  /** The record `p` is tracked as once it is promoted. */
  function Tracked(p: Waiter): Subscriber
  {
    Subscriber(p.handleId, p.stats, p.sender, p.spec, p.ifUnresolved, p.registeredAt, OneMore(p.attempts))
  }

  /** What a gate `spec` on an upstream value is: open strictly beyond the threshold, and closed on NaN. */
  function EdgeAt(v: Value, spec: WhileSpec): Edge
  {
    if v.NaN? then WhileClose
    else if spec.op.LessThan? then if v.n < spec.threshold then WhileOpen else WhileClose
    else if spec.threshold < v.n then WhileOpen else WhileClose
  }

  /** The record `id` adds to row `key` when it is promoted. */
  function RowItem(w: World, key: BusKey): HandleId -> Option<Subscriber>
  {
    (id: HandleId) =>
      if id in w.pending && Ready(w, w.pending[id]) && w.pending[id].Key() == key
      then Some(Tracked(w.pending[id])) else None
  }

  /** The subscription `id` adds to bus `b` when it is promoted. */
  function BusItem(w: World, b: BusId): HandleId -> Option<Subscription>
  {
    (id: HandleId) =>
      if id in w.pending && Ready(w, w.pending[id]) && w.buses[w.pending[id].Key()] == b
      then Some(Subscription(Some(w.pending[id].spec), Some(w.pending[id].sender), None)) else None
  }

  /** The waiters of `w` the sweep promotes. */
  function ReadyIds(w: World): set<HandleId>
  {
    set id | id in w.pending && Ready(w, w.pending[id])
  }

  /** The waiter `id` and what its promotion sends on its channel. */
  predicate Signals(w: World, id: HandleId)
  {
    id in w.pending && Ready(w, w.pending[id]) && w.BusOf(w.buses[w.pending[id].Key()]).value.Some?
  }

  function SignalOf(w: World, id: HandleId): Edge
    requires Signals(w, id)
  {
    EdgeAt(w.BusOf(w.buses[w.pending[id].Key()]).value.value, w.pending[id].spec)
  }

  /** A visit of waiters of `w`, each at most once. */
  ghost predicate Visits(w: World, order: seq<HandleId>)
  {
    KeysMatch(w) && NoDuplicates(order) && forall id :: id in order ==> id in w.pending
  }

  lemma VisitsPrefix(w: World, order: seq<HandleId>)
    requires Visits(w, order) && order != []
    ensures var n := |order| - 1;
            Visits(w, order[..n]) && order[n] !in order[..n] && order == order[..n] + [order[n]]
  {
  }

  // ---- One component of the result at a time ----

  lemma {:induction false} SweepLeaves(w: World, order: seq<HandleId>)
    requires Visits(w, order)
    ensures var w' := Sweep(w, order);
            && w'.buses == w.buses
            && w'.stats.Keys == w.stats.Keys
            && w'.pending == Left(w, order)
    decreases |order|
  {
    if order != [] {
      VisitsPrefix(w, order);
      SweepLeaves(w, order[..|order| - 1]);
      LeftSnoc(w, order[..|order| - 1], order[|order| - 1], order);
    }
  }

  /** What visiting `order` leaves pending: every waiter not visited, and of the visited ones those
      that go on waiting. */
  ghost function Left(w: World, order: seq<HandleId>): map<HandleId, Waiter>
  {
    map id | id in w.pending && (id in order ==> Waits(w, w.pending[id])) :: w.pending[id]
  }

  lemma LeftSnoc(w: World, order: seq<HandleId>, id: HandleId, all: seq<HandleId>)
    requires id in w.pending && id !in order && all == order + [id]
    ensures Left(w, all) == if Waits(w, w.pending[id]) then Left(w, order) else Left(w, order) - {id}
  {
    assert forall x :: x in all <==> x in order || x == id;
  }

  /** The last visit of a sweep: promotes its waiter if it was ready at the start, and
      otherwise touches the pending map only. */
  lemma SweepLast(w: World, order: seq<HandleId>) returns (s: World, p: Waiter)
    requires Visits(w, order) && order != []
    ensures var n := |order| - 1;
            && Visits(w, order[..n]) && s == Sweep(w, order[..n]) && p == w.pending[order[n]]
            && order == order[..n] + [order[n]] && order[n] !in order[..n]
            && s.buses == w.buses && s.stats.Keys == w.stats.Keys
            && (Ready(w, p) ==> Ready(s, p) && Sweep(w, order) == Promote(s, p))
            && (!Ready(w, p) ==> Sweep(w, order) == s.(pending := Sweep(w, order).pending))
  {
    var n := |order| - 1;
    VisitsPrefix(w, order);
    SweepLeaves(w, order[..n]);
    s, p := Sweep(w, order[..n]), w.pending[order[n]];
    assert s.pending[order[n]] == p;
  }

  lemma {:induction false} SweepRow(w: World, order: seq<HandleId>, key: BusKey)
    requires Visits(w, order)
    ensures Sweep(w, order).Row(key) == w.Row(key) + Collect(order, RowItem(w, key))
    decreases |order|
  {
    if order != [] {
      var s, p := SweepLast(w, order);
      SweepRow(w, order[..|order| - 1], key);
      assert RowItem(w, key)(order[|order| - 1]) ==
             if Ready(w, p) && p.Key() == key then Some(Tracked(p)) else None;
    }
  }

  lemma {:induction false} SweepBus(w: World, order: seq<HandleId>, b: BusId)
    requires Visits(w, order)
    ensures var b' := Sweep(w, order).BusOf(b);
            && b'.subs == w.BusOf(b).subs + Collect(order, BusItem(w, b))
            && b'.value == w.BusOf(b).value
    decreases |order|
  {
    if order != [] {
      var s, p := SweepLast(w, order);
      SweepBus(w, order[..|order| - 1], b);
      assert BusItem(w, b)(order[|order| - 1]) ==
             if Ready(w, p) && w.buses[p.Key()] == b
             then Some(Subscription(Some(p.spec), Some(p.sender), None)) else None;
    }
  }

  lemma PromoteSlot(s: World, p: Waiter, tx: Sender)
    requires Ready(s, p)
    ensures var slot := Promote(s, p).slot;
            var value := s.BusOf(s.buses[p.Key()]).value;
            && (tx in slot <==> tx in s.slot || (value.Some? && tx == p.sender))
            && (tx in slot ==>
                  slot[tx] == if value.Some? && tx == p.sender then EdgeAt(value.value, p.spec) else s.slot[tx])
  {
  }

  /** The waiter `id` signals on channel `tx`. */
  predicate SignalsOn(w: World, id: HandleId, tx: Sender)
  {
    Signals(w, id) && w.pending[id].sender == tx
  }

  /** A channel holds its waiter's initial edge if the waiter was visited and signals. */
  lemma {:induction false} SweepSlotSet(w: World, order: seq<HandleId>, id: HandleId)
    requires Visits(w, order) && PendingApart(w) && id in order && Signals(w, id)
    ensures var slot := Sweep(w, order).slot;
            var tx := w.pending[id].sender;
            tx in slot && slot[tx] == SignalOf(w, id)
    decreases |order|
  {
    var n := |order| - 1;
    var s, p := SweepLast(w, order);
    var tx := w.pending[id].sender;
    if order[n] != id {
      SweepSlotSet(w, order[..n], id);
    }
    if Ready(w, p) {
      PromoteSlot(s, p, tx);
      SweepBus(w, order[..n], w.buses[p.Key()]);
    }
  }

  /** Any other channel is as before. */
  lemma {:induction false} SweepSlotKept(w: World, order: seq<HandleId>, tx: Sender)
    requires Visits(w, order) && forall id :: id in order ==> !SignalsOn(w, id, tx)
    ensures var slot := Sweep(w, order).slot;
            (tx in slot <==> tx in w.slot) && (tx in slot ==> slot[tx] == w.slot[tx])
    decreases |order|
  {
    if order != [] {
      var n := |order| - 1;
      var s, p := SweepLast(w, order);
      SweepSlotKept(w, order[..n], tx);
      assert !SignalsOn(w, order[n], tx);
      if Ready(w, p) {
        PromoteSlot(s, p, tx);
        SweepBus(w, order[..n], w.buses[p.Key()]);
      }
    }
  }

  predicate BumpsStats(w: World, id: HandleId, st: StatsId)
  {
    id in w.pending && Ready(w, w.pending[id]) && w.pending[id].stats == st
  }

  /** The attempt counter goes up once for the waiter that owns the stats. */
  lemma {:induction false} SweepStatsBumped(w: World, order: seq<HandleId>, id: HandleId, st: StatsId)
    requires Visits(w, order) && PendingApart(w) && id in order && BumpsStats(w, id, st)
    ensures var s := Sweep(w, order);
            st in s.stats && s.stats[st] == Stats(OneMore(w.stats[st].attempts), w.stats[st].state)
    decreases |order|
  {
    var n := |order| - 1;
    var s, p := SweepLast(w, order);
    if order[n] == id {
      forall i | i in order[..n] ensures !BumpsStats(w, i, st) {
      }
      SweepStatsKept(w, order[..n], st);
    } else {
      SweepStatsBumped(w, order[..n], id, st);
    }
  }

  /** Any other counter is as before. */
  lemma {:induction false} SweepStatsKept(w: World, order: seq<HandleId>, st: StatsId)
    requires Visits(w, order) && st in w.stats && forall id :: id in order ==> !BumpsStats(w, id, st)
    ensures var s := Sweep(w, order);
            st in s.stats && s.stats[st] == w.stats[st]
    decreases |order|
  {
    if order != [] {
      var n := |order| - 1;
      var s, p := SweepLast(w, order);
      SweepStatsKept(w, order[..n], st);
      assert !BumpsStats(w, order[n], st);
    }
  }

  // ---- The whole sweep ----

  /** Equal, except for the order of records in a row and of subscriptions on a bus. */
  ghost predicate SameUpToOrder(a: World, b: World)
  {
    && a.buses == b.buses && a.pending == b.pending && a.slot == b.slot && a.stats == b.stats
    && a.subscribers.Keys == b.subscribers.Keys
    && (forall k :: k in a.subscribers ==> multiset(a.subscribers[k]) == multiset(b.subscribers[k]))
    && (forall i :: a.BusOf(i).value == b.BusOf(i).value && multiset(a.BusOf(i).subs) == multiset(b.BusOf(i).subs))
  }

  /** What is left after a full sweep: exactly the live waiters without a bus. */
  lemma SweepPending(w: World, order: seq<HandleId>)
    requires KeysMatch(w) && Enumerates(order, w.pending.Keys)
    ensures Visits(w, order)
    ensures Sweep(w, order).buses == w.buses
    ensures Sweep(w, order).pending == map id | id in w.pending && Waits(w, w.pending[id]) :: w.pending[id]
  {
    EnumeratesMembers(order, w.pending.Keys);
    SweepLeaves(w, order);
  }

  lemma {:induction false} SweepRowKeys(w: World, order: seq<HandleId>, key: BusKey)
    requires Visits(w, order)
    ensures key in Sweep(w, order).subscribers <==> key in w.subscribers || Collect(order, RowItem(w, key)) != []
    decreases |order|
  {
    if order != [] {
      var s, p := SweepLast(w, order);
      SweepRowKeys(w, order[..|order| - 1], key);
      assert RowItem(w, key)(order[|order| - 1]) ==
             if Ready(w, p) && p.Key() == key then Some(Tracked(p)) else None;
    }
  }

  /** Every visiting order of the hash map leaves the same registry, up to the order inside
      rows. */
  lemma SweepOrderIrrelevant(w: World, a: seq<HandleId>, b: seq<HandleId>)
    requires Consistent(w) && Enumerates(a, w.pending.Keys) && Enumerates(b, w.pending.Keys)
    ensures SameUpToOrder(Sweep(w, a), Sweep(w, b))
  {
    EnumerationsPermute(a, b, w.pending.Keys);
    SweepPending(w, a);
    SweepPending(w, b);
    SweepLeaves(w, a);
    SweepLeaves(w, b);
    SameSlots(w, a, b);
    SameStats(w, a, b);
    SameRows(w, a, b);
    SameBuses(w, a, b);
  }

  lemma SameMembers(w: World, a: seq<HandleId>, b: seq<HandleId>)
    requires Enumerates(a, w.pending.Keys) && Enumerates(b, w.pending.Keys)
    ensures forall id :: id in a <==> id in b
  {
    EnumeratesMembers(a, w.pending.Keys);
    EnumeratesMembers(b, w.pending.Keys);
  }

  lemma SameSlots(w: World, a: seq<HandleId>, b: seq<HandleId>)
    requires Consistent(w) && Visits(w, a) && Visits(w, b)
    requires Enumerates(a, w.pending.Keys) && Enumerates(b, w.pending.Keys)
    ensures Sweep(w, a).slot == Sweep(w, b).slot
  {
    SameMembers(w, a, b);
    var s, t := Sweep(w, a).slot, Sweep(w, b).slot;
    forall tx: Sender
      ensures (tx in s <==> tx in t) && (tx in s ==> s[tx] == t[tx])
    {
      if id :| id in a && SignalsOn(w, id, tx) {
        SweepSlotSet(w, a, id);
        SweepSlotSet(w, b, id);
      } else {
        SweepSlotKept(w, a, tx);
        SweepSlotKept(w, b, tx);
      }
    }
  }

  lemma SameStats(w: World, a: seq<HandleId>, b: seq<HandleId>)
    requires Consistent(w) && Visits(w, a) && Visits(w, b)
    requires Enumerates(a, w.pending.Keys) && Enumerates(b, w.pending.Keys)
    ensures Sweep(w, a).stats == Sweep(w, b).stats
  {
    SameMembers(w, a, b);
    SweepLeaves(w, a);
    SweepLeaves(w, b);
    var s, t := Sweep(w, a).stats, Sweep(w, b).stats;
    forall st | st in s ensures st in t && s[st] == t[st] {
      assert st in w.stats.Keys;
      if id :| id in a && BumpsStats(w, id, st) {
        SweepStatsBumped(w, a, id, st);
        SweepStatsBumped(w, b, id, st);
      } else {
        SweepStatsKept(w, a, st);
        SweepStatsKept(w, b, st);
      }
    }
    assert s.Keys == t.Keys;
  }

  lemma SameRows(w: World, a: seq<HandleId>, b: seq<HandleId>)
    requires Visits(w, a) && Visits(w, b) && multiset(a) == multiset(b)
    ensures var s, t := Sweep(w, a).subscribers, Sweep(w, b).subscribers;
            s.Keys == t.Keys && forall k :: k in s ==> multiset(s[k]) == multiset(t[k])
  {
    var s, t := Sweep(w, a).subscribers, Sweep(w, b).subscribers;
    forall k: BusKey
      ensures (k in s <==> k in t) && (k in s ==> multiset(s[k]) == multiset(t[k]))
    {
      CollectOrder(a, b, RowItem(w, k));
      SweepRow(w, a, k);
      SweepRow(w, b, k);
      SweepRowKeys(w, a, k);
      SweepRowKeys(w, b, k);
      var ca, cb := Collect(a, RowItem(w, k)), Collect(b, RowItem(w, k));
      assert |multiset(ca)| == |ca| && |multiset(cb)| == |cb|;
    }
  }

  lemma SameBuses(w: World, a: seq<HandleId>, b: seq<HandleId>)
    requires Visits(w, a) && Visits(w, b) && multiset(a) == multiset(b)
    ensures forall i :: Sweep(w, a).BusOf(i).value == Sweep(w, b).BusOf(i).value
                        && multiset(Sweep(w, a).BusOf(i).subs) == multiset(Sweep(w, b).BusOf(i).subs)
  {
    forall i: BusId
      ensures Sweep(w, a).BusOf(i).value == Sweep(w, b).BusOf(i).value
              && multiset(Sweep(w, a).BusOf(i).subs) == multiset(Sweep(w, b).BusOf(i).subs)
    {
      CollectOrder(a, b, BusItem(w, i));
      SweepBus(w, a, i);
      SweepBus(w, b, i);
    }
  }

  /** A second sweep with nothing new changes nothing and promotes nobody. */
  lemma SweepTwice(w: World, order: seq<HandleId>, again: seq<HandleId>)
    requires KeysMatch(w) && Enumerates(order, w.pending.Keys)
    requires Enumerates(again, Sweep(w, order).pending.Keys)
    ensures ReadyIds(Sweep(w, order)) == {}
    ensures Sweep(Sweep(w, order), again) == Sweep(w, order)
  {
    SweepPending(w, order);
    SweepLeaves(w, order);
    SweepIdle(Sweep(w, order), again);
  }

  lemma {:induction false} SweepIdle(w: World, order: seq<HandleId>)
    requires KeysMatch(w) && forall id :: id in w.pending ==> Waits(w, w.pending[id])
    ensures Sweep(w, order) == w
    decreases |order|
  {
    if order != [] {
      SweepIdle(w, order[..|order| - 1]);
    }
  }
}
