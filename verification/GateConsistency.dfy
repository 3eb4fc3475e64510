/** Every operation of the registry keeps it consistent, and exactly which newcomers may enter. */
module GateConsistency {
  import opened Orders
  import opened GateModel
  import GateSweep

  // ---- Entering ----

  ghost predicate ApartFromRows(w: World, r: Subscriber)
  {
    forall k, i :: k in w.subscribers && 0 <= i < |w.subscribers[k]| ==> Apart(r, w.subscribers[k][i])
  }

  /** `r` has nothing in common with a waiter, the one under its own id aside. */
  ghost predicate ApartFromOthers(w: World, r: Subscriber)
  {
    forall id :: id in w.pending && id != r.handleId ==> Apart(r, w.pending[id].ToSubscriber())
  }

  /** A newcomer: its id, stats and channel belong to no record. */
  ghost predicate Newcomer(w: World, r: Subscriber)
  {
    r.handleId !in w.pending && ApartFromOthers(w, r) && ApartFromRows(w, r)
  }

  /** Inserting keeps the registry consistent exactly when the record is a newcomer or takes the
      place of the one waiting under its id. */
  lemma InsertConsistent(w: World, p: Waiter)
    requires Consistent(w)
    ensures Consistent(InsertPending(w, p)) <==>
            ApartFromOthers(w, p.ToSubscriber()) && ApartFromRows(w, p.ToSubscriber())
  {
    var w', r := InsertPending(w, p), p.ToSubscriber();
    assert w'.pending[p.handleId] == p;
    if Consistent(w') {
      forall id | id in w.pending && id != p.handleId ensures Apart(r, w.pending[id].ToSubscriber()) {
        assert w'.pending[id] == w.pending[id];
      }
    }
  }

  /** Tracking keeps it so exactly when the record is a newcomer. */
  lemma TrackConsistent(w: World, p: Waiter)
    requires Consistent(w)
    ensures Consistent(TrackSubscriber(w, p)) <==> Newcomer(w, p.ToSubscriber())
  {
    if Consistent(TrackSubscriber(w, p)) {
      TrackNeedsNewcomer(w, p);
    }
    if Newcomer(w, p.ToSubscriber()) {
      TrackKeeps(w, p);
    }
  }

  lemma TrackNeedsNewcomer(w: World, p: Waiter)
    requires Consistent(TrackSubscriber(w, p))
    ensures Newcomer(w, p.ToSubscriber())
  {
    var w', r, key := TrackSubscriber(w, p), p.ToSubscriber(), p.Key();
    var last := |w.Row(key)|;
    assert w'.subscribers[key][last] == r;
    forall id | id in w.pending ensures Apart(r, w.pending[id].ToSubscriber()) {
      assert Apart(w'.pending[id].ToSubscriber(), w'.subscribers[key][last]);
    }
    forall k, i | k in w.subscribers && 0 <= i < |w.subscribers[k]| ensures Apart(r, w.subscribers[k][i]) {
      assert w'.subscribers[k][i] == w.subscribers[k][i];
      assert Apart(w'.subscribers[key][last], w'.subscribers[k][i]);
    }
  }

  /** A record at the end of a row is the pushed one or an old one. */
  lemma PushedRow(w: World, key: BusKey, r: Subscriber, k: BusKey, i: nat)
    requires k in w.subscribers[key := w.Row(key) + [r]] && i < |w.subscribers[key := w.Row(key) + [r]][k]|
    ensures var rows := w.subscribers[key := w.Row(key) + [r]];
            if k == key && i == |w.Row(key)| then rows[k][i] == r
            else k in w.subscribers && i < |w.subscribers[k]| && rows[k][i] == w.subscribers[k][i]
  {
  }

  lemma PushKeepsRows(w: World, key: BusKey, r: Subscriber)
    requires RowsApart(w) && ApartFromRows(w, r)
    ensures RowsApart(w.(subscribers := w.subscribers[key := w.Row(key) + [r]]))
  {
    var rows := w.subscribers[key := w.Row(key) + [r]];
    forall k, l, i, j
      | k in rows && l in rows && 0 <= i < |rows[k]| && 0 <= j < |rows[l]| && (k != l || i != j)
      ensures Apart(rows[k][i], rows[l][j])
    {
      PushedRow(w, key, r, k, i);
      PushedRow(w, key, r, l, j);
    }
  }

  lemma TrackKeeps(w: World, p: Waiter)
    requires Consistent(w) && Newcomer(w, p.ToSubscriber())
    ensures Consistent(TrackSubscriber(w, p))
  {
    var w', r, key := TrackSubscriber(w, p), p.ToSubscriber(), p.Key();
    PushKeepsRows(w, key, r);
    forall id, k, i | id in w'.pending && k in w'.subscribers && 0 <= i < |w'.subscribers[k]|
      ensures Apart(w'.pending[id].ToSubscriber(), w'.subscribers[k][i])
    {
      PushedRow(w, key, r, k, i);
    }
  }

  /** A newcomer that waits for a registered upstream and is swept is tracked, one attempt later. */
  lemma WaitingThenSweptIsTracked(w: World, p: Waiter)
    requires KeysMatch(w) && p.handleId !in w.pending && Ready(w, p)
    ensures KeysMatch(InsertPending(w, p))
    ensures var w' := Sweep(InsertPending(w, p), [p.handleId]);
            && w'.pending == w.pending
            && w'.subscribers == w.subscribers[p.Key() := w.Row(p.Key()) + [GateSweep.Tracked(p)]]
  {
    assert [p.handleId][..0] == [];
    assert InsertPending(w, p).pending - {p.handleId} == w.pending;
  }

  // ---- Sweep ----

  lemma SweepOneConsistent(w: World, id: HandleId)
    requires Consistent(w)
    ensures Consistent(SweepOne(w, id))
  {
    if id in w.pending && Ready(w, w.pending[id]) {
      PromoteConsistent(w, w.pending[id]);
    }
  }

  lemma PromoteConsistent(w: World, p: Waiter)
    requires Consistent(w) && p.handleId in w.pending && w.pending[p.handleId] == p && Ready(w, p)
    ensures Consistent(Promote(w, p))
  {
    var u := w.(pending := w.pending - {p.handleId});
    var q := p.(attempts := SaturatingInc(p.attempts));
    assert Newcomer(u, q.ToSubscriber());
    TrackKeeps(u, q);
    SameRecords(TrackSubscriber(u, q), Promote(w, p));
  }

  /** Consistency is about the two maps of records alone. */
  lemma SameRecords(w: World, w': World)
    requires Consistent(w) && w'.pending == w.pending && w'.subscribers == w.subscribers
    ensures Consistent(w')
  {
  }

  lemma {:induction false} SweepConsistent(w: World, order: seq<HandleId>)
    requires Consistent(w)
    ensures Consistent(Sweep(w, order))
    decreases |order|
  {
    if order != [] {
      SweepConsistent(w, order[..|order| - 1]);
      SweepOneConsistent(Sweep(w, order[..|order| - 1]), order[|order| - 1]);
    }
  }

  // ---- Unregister ----

  ghost predicate Newcomers(w: World, refs: seq<Subscriber>)
  {
    && (forall i :: 0 <= i < |refs| ==> Newcomer(w, refs[i]))
    && (forall i, j :: 0 <= i < j < |refs| ==> Apart(refs[i], refs[j]))
  }

  /** Requeueing records that were newcomers, and who is still one afterwards. */
  lemma {:induction false} RequeueRowConsistent(w: World, key: BusKey, refs: seq<Subscriber>, r: Subscriber)
    requires Consistent(w) && Newcomers(w, refs)
    ensures Consistent(RequeueRow(w, key, refs))
    ensures Newcomer(w, r) && (forall i :: 0 <= i < |refs| ==> Apart(refs[i], r)) ==>
            Newcomer(RequeueRow(w, key, refs), r)
    decreases |refs|
  {
    if refs != [] {
      var l := |refs| - 1;
      RequeueRowConsistent(w, key, refs[..l], refs[l]);
      RequeueRowConsistent(w, key, refs[..l], r);
      RequeueOneConsistent(RequeueRow(w, key, refs[..l]), key, refs[l], r);
    }
  }

  lemma RequeueOneConsistent(w: World, key: BusKey, sub: Subscriber, r: Subscriber)
    requires Consistent(w) && Newcomer(w, sub)
    ensures Consistent(RequeueOne(w, key, sub))
    ensures Newcomer(w, r) && Apart(sub, r) ==> Newcomer(RequeueOne(w, key, sub), r)
  {
    if Live(w, sub.stats) {
      var p := sub.ToWaiter(key);
      assert p.ToSubscriber() == sub;
      InsertConsistent(w, p);
      SameRecords(InsertPending(w, p), RequeueOne(w, key, sub));
    }
  }

  lemma RequeueKeyConsistent(w: World, key: BusKey)
    requires Consistent(w)
    ensures Consistent(RequeueKey(w, key))
  {
    if key in w.subscribers {
      var u, refs := w.(subscribers := w.subscribers - {key}), w.subscribers[key];
      RowsLeft(w, key);
      forall i | 0 <= i < |refs| ensures Newcomer(u, refs[i]) {
        RowLeaves(w, key, i);
      }
      if refs != [] {
        RequeueRowConsistent(u, key, refs, refs[0]);
      }
    }
  }

  lemma RowsLeft(w: World, key: BusKey)
    requires Consistent(w)
    ensures Consistent(w.(subscribers := w.subscribers - {key}))
  {
    var u := w.(subscribers := w.subscribers - {key});
    forall k, l, i, j
      | k in u.subscribers && l in u.subscribers
        && 0 <= i < |u.subscribers[k]| && 0 <= j < |u.subscribers[l]| && (k != l || i != j)
      ensures Apart(u.subscribers[k][i], u.subscribers[l][j])
    {
      assert Apart(w.subscribers[k][i], w.subscribers[l][j]);
    }
  }

  lemma RowLeaves(w: World, key: BusKey, i: nat)
    requires Consistent(w) && key in w.subscribers && i < |w.subscribers[key]|
    ensures Newcomer(w.(subscribers := w.subscribers - {key}), w.subscribers[key][i])
  {
    var r := w.subscribers[key][i];
    forall id | id in w.pending ensures id != r.handleId && Apart(r, w.pending[id].ToSubscriber()) {
      assert Apart(w.pending[id].ToSubscriber(), w.subscribers[key][i]);
    }
  }

  lemma {:induction false} RequeueConsistent(w: World, keys: seq<BusKey>)
    requires Consistent(w)
    ensures Consistent(Requeue(w, keys))
    decreases |keys|
  {
    if keys != [] {
      RequeueConsistent(w, keys[..|keys| - 1]);
      RequeueKeyConsistent(Requeue(w, keys[..|keys| - 1]), keys[|keys| - 1]);
    }
  }

  lemma {:induction false} BroadcastConsistent(w: World, buses: seq<BusId>)
    requires Consistent(w)
    ensures Consistent(BroadcastAll(w, buses))
    decreases |buses|
  {
    if buses != [] {
      BroadcastConsistent(w, buses[..|buses| - 1]);
      SameRecords(BroadcastAll(w, buses[..|buses| - 1]), BroadcastAll(w, buses));
    }
  }

  lemma RetireConsistent(w: World, keys: seq<BusKey>)
    requires Consistent(w) && forall k :: k in keys ==> k in w.buses
    ensures Consistent(Retire(w, keys))
  {
    var u := w.(buses := w.buses - set k | k in keys);
    SameRecords(w, u);
    BroadcastConsistent(u, Retired(w.buses, keys));
  }

  lemma UnregisterConsistent(w: World, keys: seq<BusKey>)
    requires Consistent(w) && forall k :: k in keys ==> k in w.buses
    ensures Consistent(Unregister(w, keys))
  {
    RetireConsistent(w, keys);
    RequeueConsistent(Retire(w, keys), keys);
  }

  // ---- Cancel ----

  lemma {:induction false} CancelConsistent(w: World, order: seq<HandleId>)
    requires Consistent(w)
    ensures Consistent(Cancel(w, order))
    decreases |order|
  {
    if order != [] {
      CancelConsistent(w, order[..|order| - 1]);
      CancelOneConsistent(Cancel(w, order[..|order| - 1]), order[|order| - 1]);
    }
  }

  lemma CancelOneConsistent(w: World, id: HandleId)
    requires Consistent(w)
    ensures Consistent(CancelOne(w, id))
  {
  }
}
