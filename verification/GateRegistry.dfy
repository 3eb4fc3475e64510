/** `GateBusRegistry` as an object: the methods of `sonda-server/src/gate_registry.rs`, with
    their loops, each proved to compute its function of the registry's value. */
module GateRegistry {
  import opened Orders
  import C = GateConsistency
  import M = GateModel
  import O = GateOutcomes
  import R = GateRename
  import opened GateSweep

  type BusKey = M.BusKey
  type HandleId = M.HandleId

  class GateBusRegistry {
    var buses: map<BusKey, M.BusId>
    var subscribers: map<BusKey, seq<M.Subscriber>>
    var pending: map<HandleId, M.Waiter>

    // What the maps refer to: the buses, the channels' slots, and the stats that are alive.
    var bus: map<M.BusId, M.Bus>
    var slot: map<M.Sender, M.Edge>
    var stats: map<M.StatsId, M.Stats>

    ghost function W(): M.World
      reads this
    {
      M.World(buses, subscribers, pending, bus, slot, stats)
    }

    constructor ()
      ensures W() == M.World(map[], map[], map[], map[], map[], map[])
      ensures M.Consistent(W())
    {
      buses, subscribers, pending := map[], map[], map[];
      bus, slot, stats := map[], map[], map[];
    }

    method Register(key: BusKey, b: M.BusId) returns (err: Option<M.RegistryError>)
      modifies this`buses
      ensures (W(), err) == M.Register(old(W()), key, b)
      ensures key in old(buses) ==> buses == old(buses) && err == Some(M.DuplicateScenarioName(key.scenarioName))
      ensures key !in old(buses) ==> buses == old(buses)[key := b] && err == None
      ensures M.Consistent(old(W())) ==> M.Consistent(W())
    {
      if key in buses {
        return Some(M.DuplicateScenarioName(key.scenarioName));
      }
      buses := buses[key := b];
      err := None;
    }

    /** A registry in which no handle has two records stays one exactly when the record is a
        newcomer, or replaces the one that waits under its id. */
    method InsertPending(p: M.Waiter)
      modifies this`pending
      ensures W() == M.InsertPending(old(W()), p) && pending == old(pending)[p.handleId := p]
      ensures M.Consistent(old(W())) ==>
                (M.Consistent(W()) <==>
                  C.ApartFromOthers(old(W()), p.ToSubscriber()) && C.ApartFromRows(old(W()), p.ToSubscriber()))
    {
      ghost var w := W();
      pending := pending[p.handleId := p];
      if M.Consistent(w) {
        C.InsertConsistent(w, p);
      }
    }

    /** The same, exactly when the record is a newcomer. */
    method TrackSubscriber(p: M.Waiter)
      modifies this`subscribers
      ensures W() == M.TrackSubscriber(old(W()), p)
      ensures var key := M.BusKey(p.scenarioName, p.entryId);
              subscribers == old(subscribers)[key := O.RowIn(old(W()), key) +
                [M.Subscriber(p.handleId, p.stats, p.sender, p.spec, p.ifUnresolved, p.registeredAt, p.attempts)]]
      ensures M.Consistent(old(W())) ==> (M.Consistent(W()) <==> C.Newcomer(old(W()), p.ToSubscriber()))
    {
      ghost var w := W();
      var key, sub := p.Key(), p.ToSubscriber();
      PushSubscriber(key, sub);
      if M.Consistent(w) {
        C.TrackConsistent(w, p);
      }
    }

    /** `subs.entry(key).or_default().push(sub)`. */
    method PushSubscriber(key: BusKey, sub: M.Subscriber)
      modifies this`subscribers
      ensures subscribers == old(subscribers)[key := old(W()).Row(key) + [sub]]
    {
      if key !in subscribers {
        subscribers := subscribers[key := []];
      }
      subscribers := subscribers[key := subscribers[key] + [sub]];
    }

    method BroadcastUpstreamGone(b: M.BusId)
      modifies this`slot
      ensures W() == M.Broadcast(old(W()), b)
    {
      var subs := if b in bus then bus[b].subs else [];
      ghost var start := slot;
      for i := 0 to |subs|
        invariant slot == ToldUpTo(start, subs, i)
      {
        ToldNext(start, subs, i);
        if subs[i].whileTx.Some? {
          slot := slot[subs[i].whileTx.value := M.UpstreamGone];
        }
        if subs[i].afterTx.Some? {
          slot := slot[subs[i].afterTx.value := M.UpstreamGone];
        }
      }
      assert subs[..|subs|] == subs;
    }

    /** `buses.keys().filter(..).collect()`. */
    method MatchingBuses(name: string, entryIds: seq<string>) returns (keys: seq<BusKey>)
      ensures Enumerates(keys, M.Removed(W(), name, set e | e in entryIds))
    {
      ghost var entries := set e | e in entryIds;
      keys := [];
      var rest := buses.Keys;
      while rest != {}
        invariant rest <= buses.Keys
        invariant NoDuplicates(keys)
        invariant forall k :: k in keys <==> k in M.Removed(W(), name, entries) && k !in rest
      {
        var k :| k in rest;
        rest := rest - {k};
        assert k !in keys;
        NoDuplicatesSnoc(keys, k);
        if k.scenarioName == name && k.entryId in entryIds {
          keys := keys + [k];
        }
      }
    }

    /** The removal loop: the keys that were there, with their buses. */
    method TakeBuses(keys: seq<BusKey>) returns (removed: seq<BusKey>, retired: seq<M.BusId>)
      requires NoDuplicates(keys) && forall k :: k in keys ==> k in buses
      modifies this`buses
      ensures removed == keys && retired == M.Retired(old(buses), keys)
      ensures buses == old(buses) - set k | k in keys
    {
      removed, retired := [], [];
      for i := 0 to |keys|
        invariant removed == keys[..i]
        invariant |retired| == i && forall j :: 0 <= j < i ==> retired[j] == old(buses)[keys[j]]
        invariant forall k :: k in buses <==> k in old(buses) && k !in keys[..i]
        invariant forall k :: k in buses ==> buses[k] == old(buses)[k]
      {
        assert keys[..i + 1] == keys[..i] + [keys[i]];
        assert keys[i] in keys && keys[i] !in keys[..i];
        if keys[i] in buses {
          removed, retired := removed + [keys[i]], retired + [buses[keys[i]]];
          buses := buses - {keys[i]};
        }
      }
      assert keys[..|keys|] == keys;
    }

    method RetireBuses(name: string, entryIds: seq<string>) returns (removed: seq<BusKey>)
      modifies this`buses, this`slot
      ensures Enumerates(removed, M.Removed(old(W()), name, set e | e in entryIds))
      ensures forall k :: k in removed ==> k in old(buses)
      ensures W() == M.Retire(old(W()), removed)
      ensures forall tx :: O.GoneIf(old(W()), O.BusesTell(old(W()), removed, tx), tx, W())
    {
      var keys := MatchingBuses(name, entryIds);
      EnumeratedKeys(W(), keys, name, set e | e in entryIds);
      ghost var w := W();
      var retired;
      removed, retired := TakeBuses(keys);
      ghost var w1 := W();
      for i := 0 to |retired|
        invariant W() == M.BroadcastAll(w1, retired[..i])
      {
        assert retired[..i + 1][..i] == retired[..i];
        BroadcastUpstreamGone(retired[i]);
      }
      assert retired[..|retired|] == retired;
      forall tx ensures O.GoneIf(w, O.BusesTell(w, keys, tx), tx, W()) {
        O.RetiredSlots(w, keys, tx);
      }
    }

    method RequeueSubscribers(keys: seq<BusKey>)
      modifies this`subscribers, this`pending, this`slot
      ensures W() == M.Requeue(old(W()), keys)
    {
      for i := 0 to |keys|
        invariant W() == M.Requeue(old(W()), keys[..i])
      {
        assert keys[..i + 1][..i] == keys[..i];
        var key := keys[i];
        if key in subscribers {
          var refs := subscribers[key];
          subscribers := subscribers - {key};
          ghost var w1 := W();
          for j := 0 to |refs|
            invariant W() == M.RequeueRow(w1, key, refs[..j])
          {
            assert refs[..j + 1][..j] == refs[..j];
            var sub := refs[j];
            if sub.stats in stats {
              slot := slot[sub.sender := M.UpstreamGone];
              pending := pending[sub.handleId := sub.ToWaiter(key)];
            }
          }
          assert refs[..|refs|] == refs;
        }
      }
      assert keys[..|keys|] == keys;
    }

    /** Every channel of a removed bus and of a live record in its row hears that its upstream is gone,
        and no other; the live records wait again. */
    method UnregisterEntries(name: string, entryIds: seq<string>) returns (ghost removed: seq<BusKey>)
      modifies this`buses, this`subscribers, this`pending, this`slot
      ensures Enumerates(removed, M.Removed(old(W()), name, set e | e in entryIds))
      ensures forall k :: k in removed ==> k in old(buses)
      ensures W() == M.Unregister(old(W()), removed)
      ensures O.UnregisteredSlots(old(W()), name, (set e | e in entryIds), W())
      ensures O.UnregisteredMaps(old(W()), name, (set e | e in entryIds), W())
      ensures M.Consistent(old(W())) ==>
                M.Consistent(W()) && O.UnregisteredPending(old(W()), name, (set e | e in entryIds), W())
    {
      ghost var w := W();
      var keys := RetireBuses(name, entryIds);
      RequeueSubscribers(keys);
      removed := keys;
      ghost var entries := set e | e in entryIds;
      O.UnregisterSlotsOutcome(w, name, entries, keys);
      O.UnregisterMapsOutcome(w, name, entries, keys);
      if M.Consistent(w) {
        O.UnregisterPendingOutcome(w, name, entries, keys);
        C.UnregisterConsistent(w, keys);
      }
    }

    /** `pending.keys().cloned().collect()`, in whatever order the hash map has. */
    method PendingKeys() returns (keys: seq<HandleId>)
      ensures Enumerates(keys, pending.Keys)
    {
      keys := [];
      var rest := pending.Keys;
      while rest != {}
        invariant rest <= pending.Keys
        invariant NoDuplicates(keys)
        invariant forall id :: id in keys <==> id in pending.Keys - rest
      {
        var id :| id in rest;
        assert id !in keys;
        NoDuplicatesSnoc(keys, id);
        rest, keys := rest - {id}, keys + [id];
      }
    }

    /** One iteration of the sweep. Both of the source's lookups of `id` must succeed. */
    method SweepEntry(id: HandleId) returns (promotes: bool)
      requires M.KeysMatch(W()) && id in pending
      modifies this`subscribers, this`pending, this`bus, this`slot, this`stats
      ensures W() == M.SweepOne(old(W()), id)
      ensures promotes == M.Ready(old(W()), old(pending[id]))
    {
      promotes := false;
      var entry := pending[id];
      if entry.stats !in stats {
        pending := pending - {id};
        return;
      }
      var key := entry.Key();
      if key !in buses {
        return;
      }
      var b := buses[key];
      pending := pending - {id};
      entry := entry.(attempts := M.SaturatingInc(entry.attempts));
      stats := stats[entry.stats := stats[entry.stats].(attempts := M.SaturatingInc(stats[entry.stats].attempts))];
      SubscribeWithWhileSender(b, entry.spec, entry.sender);
      PushSubscriber(key, entry.ToSubscriber());
      promotes := true;
    }

    /** Each live waiter whose upstream is registered is promoted: one attempt more, up to the largest
        64-bit word, in its record and in its stats. */
    method SweepPending() returns (promoted: nat, ghost order: seq<HandleId>)
      requires M.KeysMatch(W())
      modifies this`subscribers, this`pending, this`bus, this`slot, this`stats
      ensures Enumerates(order, old(pending).Keys)
      ensures W() == M.Sweep(old(W()), order)
      ensures promoted == |ReadyIds(old(W()))|
      ensures M.Consistent(old(W())) ==> M.Consistent(W()) && O.Swept(old(W()), W())
    {
      ghost var w := W();
      var keys := PendingKeys();
      order := keys;
      promoted := SweepKeys(keys);
      if M.Consistent(w) {
        C.SweepConsistent(w, keys);
        O.SweepOutcome(w, keys);
      }
    }

    /** The loop over the snapshot of the pending keys. */
    method SweepKeys(keys: seq<HandleId>) returns (promoted: nat)
      requires M.KeysMatch(W()) && Enumerates(keys, pending.Keys)
      modifies this`subscribers, this`pending, this`bus, this`slot, this`stats
      ensures W() == M.Sweep(old(W()), keys)
      ensures promoted == |ReadyIds(old(W()))|
    {
      ghost var w0 := W();
      promoted := 0;
      for i := 0 to |keys|
        invariant M.KeysMatch(W()) && W() == M.Sweep(w0, keys[..i])
        invariant promoted == |ReadyAmong(w0, keys[..i])|
      {
        assert keys[..i + 1] == keys[..i] + [keys[i]] && keys[..i + 1][..i] == keys[..i];
        VisitOne(w0, keys, i);
        ReadyAmongSnoc(w0, keys[..i], keys[i]);
        var promotes := SweepEntry(keys[i]);
        if promotes {
          promoted := promoted + 1;
        }
      }
      assert keys[..|keys|] == keys;
      ReadyAmongAll(w0, keys);
    }

    method SubscribeWithWhileSender(b: M.BusId, spec: M.WhileSpec, tx: M.Sender)
      modifies this`bus, this`slot
      ensures var was := old(W()).BusOf(b);
              && bus == old(bus)[b := was.(subs := was.subs + [M.WhileSubscription(spec, tx)])]
              && slot == (if was.value.Some? then old(slot)[tx := M.InitialEdge(was, spec).value] else old(slot))
    {
      var inner := if b in bus then bus[b] else M.Bus([], None);
      if inner.value.Some? {
        var open := M.StrictEval(inner.value.value, spec);
        slot := slot[tx := if open then M.WhileOpen else M.WhileClose];
      }
      bus := bus[b := inner.(subs := inner.subs + [M.WhileSubscription(spec, tx)])];
    }

    /** `pending.iter().filter(..).map(..).collect()`. */
    method MatchingWaiters(name: string, entryId: string) returns (matching: seq<HandleId>)
      ensures Enumerates(matching, M.Waiting(W(), M.BusKey(name, entryId)))
    {
      matching := [];
      var rest := pending.Keys;
      while rest != {}
        invariant rest <= pending.Keys
        invariant NoDuplicates(matching)
        invariant forall id :: id in matching <==> id in M.Waiting(W(), M.BusKey(name, entryId)) && id !in rest
      {
        var id :| id in rest;
        rest := rest - {id};
        assert id !in matching;
        NoDuplicatesSnoc(matching, id);
        if pending[id].scenarioName == name && pending[id].entryId == entryId {
          matching := matching + [id];
        }
      }
    }

    method CancelEntry(id: HandleId) returns (error: M.RegistryError)
      requires id in pending
      modifies this`pending, this`slot, this`stats
      ensures W() == M.CancelOne(old(W()), id)
      ensures error == M.UpstreamCancelled(old(pending[id]).scenarioName, old(pending[id]).entryId)
    {
      var entry := pending[id];
      pending := pending - {id};
      slot := slot[entry.sender := M.UpstreamGone];
      if entry.stats in stats {
        var s := stats[entry.stats];
        if !s.state.Finished? {
          stats := stats[entry.stats := s.(state := M.RunState.Unresolved)];
        }
      }
      error := M.UpstreamCancelled(entry.scenarioName, entry.entryId);
    }

    /** Tells exactly the waiters on this upstream that it is gone, and returns one error each. */
    method CancelPendingForUpstream(name: string, entryId: string)
      returns (errors: seq<M.RegistryError>, ghost order: seq<HandleId>)
      modifies this`pending, this`slot, this`stats
      ensures Enumerates(order, M.Waiting(old(W()), M.BusKey(name, entryId)))
      ensures W() == M.Cancel(old(W()), order) && O.Cancelled(old(W()), M.BusKey(name, entryId), W())
      ensures |errors| == |order| && forall e :: e in errors ==> e == M.UpstreamCancelled(name, entryId)
      ensures (forall id :: id in order ==> id in old(pending)) && errors == M.CancelErrors(old(W()), order)
      ensures M.Consistent(old(W())) ==> M.Consistent(W())
    {
      ghost var w0 := W();
      var matching := MatchingWaiters(name, entryId);
      order := matching;
      errors := [];
      for i := 0 to |matching|
        invariant W() == M.Cancel(w0, matching[..i])
        invariant |errors| == i && forall e :: e in errors ==> e == M.UpstreamCancelled(name, entryId)
      {
        assert matching[..i + 1][..i] == matching[..i];
        CancelLeaves(w0, matching, M.BusKey(name, entryId), i);
        var error := CancelEntry(matching[i]);
        errors := errors + [error];
      }
      assert matching[..|matching|] == matching;
      ErrorsOfWaiting(w0, name, entryId, matching, errors);
      O.CancelOutcome(w0, M.BusKey(name, entryId), matching);
      if M.Consistent(w0) {
        C.CancelConsistent(w0, matching);
      }
    }

    method RenameHandle(oldId: HandleId, newId: HandleId)
      modifies this`pending, this`subscribers
      ensures W() == M.Rename(old(W()), oldId, newId) && O.Renamed(old(W()), oldId, newId, W())
      ensures M.Consistent(old(W())) && (oldId == newId || M.Fresh(old(W()), newId)) ==> M.Consistent(W())
    {
      ghost var w := W();
      O.RenameOutcome(w, oldId, newId);
      if oldId == newId {
        RenameSame(subscribers, oldId);
        return;
      }
      if oldId in pending {
        var entry := pending[oldId];
        pending := pending - {oldId};
        entry := entry.(handleId := newId);
        pending := pending[newId := entry];
      }
      RenameInRows(oldId, newId);
      if M.Consistent(w) && M.Fresh(w, newId) {
        R.RenameConsistent(w, oldId, newId);
      }
    }

    method RenameInRows(oldId: HandleId, newId: HandleId)
      modifies this`subscribers
      ensures subscribers == M.RenameRows(old(subscribers), oldId, newId)
    {
      var rest := subscribers.Keys;
      while rest != {}
        invariant rest <= old(subscribers).Keys && subscribers.Keys == old(subscribers).Keys
        invariant forall k :: k in old(subscribers) ==>
          subscribers[k] == if k in rest then old(subscribers)[k] else M.RenameRow(old(subscribers)[k], oldId, newId)
      {
        var k :| k in rest;
        rest := rest - {k};
        var row := RenameInRow(subscribers[k], oldId, newId);
        subscribers := subscribers[k := row];
      }
    }
  }

  method RenameInRow(row: seq<M.Subscriber>, oldId: HandleId, newId: HandleId) returns (refs: seq<M.Subscriber>)
    ensures refs == M.RenameRow(row, oldId, newId)
  {
    refs := row;
    for i := 0 to |refs|
      invariant |refs| == |row|
      invariant forall j :: 0 <= j < i ==> refs[j] == M.RenameRow(row, oldId, newId)[j]
      invariant forall j :: i <= j < |refs| ==> refs[j] == row[j]
    {
      if refs[i].handleId == oldId {
        refs := refs[i := refs[i].(handleId := newId)];
      }
    }
  }

  lemma RenameSame(rows: map<BusKey, seq<M.Subscriber>>, id: HandleId)
    ensures M.RenameRows(rows, id, id) == rows
  {
    forall k | k in rows ensures M.RenameRow(rows[k], id, id) == rows[k] {
    }
  }

  lemma EnumeratedKeys(w: M.World, keys: seq<BusKey>, name: string, entries: set<string>)
    requires Enumerates(keys, M.Removed(w, name, entries))
    ensures forall k :: k in keys ==> k in w.buses
  {
    EnumeratesMembers(keys, M.Removed(w, name, entries));
  }

  lemma ErrorsOfWaiting(w: M.World, name: string, entryId: string, order: seq<HandleId>, errors: seq<M.RegistryError>)
    requires Enumerates(order, M.Waiting(w, M.BusKey(name, entryId))) && |errors| == |order|
    requires forall e :: e in errors ==> e == M.UpstreamCancelled(name, entryId)
    ensures (forall id :: id in order ==> id in w.pending) && errors == M.CancelErrors(w, order)
  {
    EnumeratesMembers(order, M.Waiting(w, M.BusKey(name, entryId)));
    forall i | 0 <= i < |order| ensures errors[i] == M.CancelErrors(w, order)[i] {
      assert errors[i] in errors && order[i] in order;
    }
  }

  /** The next waiter to cancel is still pending, as it was. */
  lemma CancelLeaves(w: M.World, order: seq<HandleId>, key: BusKey, i: nat)
    requires Enumerates(order, M.Waiting(w, key)) && i < |order|
    ensures var s := M.Cancel(w, order[..i]);
            order[i] in s.pending && s.pending[order[i]].Key() == key
  {
    EnumeratesMembers(order, M.Waiting(w, key));
    assert order[i] in order;
    CancelKeeps(w, order[..i], order[i]);
  }

  lemma {:induction false} CancelKeeps(w: M.World, order: seq<HandleId>, id: HandleId)
    requires id in w.pending && id !in order
    ensures var s := M.Cancel(w, order);
            id in s.pending && s.pending[id] == w.pending[id]
    decreases |order|
  {
    if order != [] {
      CancelKeeps(w, order[..|order| - 1], id);
      assert order[|order| - 1] in order;
    }
  }

  function Told(slot: map<M.Sender, M.Edge>, tx: Option<M.Sender>): map<M.Sender, M.Edge>
  {
    if tx.Some? then slot[tx.value := M.UpstreamGone] else slot
  }

  /** The slots once the first `i` subscriptions have been told. */
  function ToldUpTo(start: map<M.Sender, M.Edge>, subs: seq<M.Subscription>, i: nat): map<M.Sender, M.Edge>
    requires i <= |subs|
  {
    start + M.Gone(subs[..i])
  }

  lemma ToldNext(start: map<M.Sender, M.Edge>, subs: seq<M.Subscription>, i: nat)
    requires i < |subs|
    ensures ToldUpTo(start, subs, i + 1) == Told(Told(ToldUpTo(start, subs, i), subs[i].whileTx), subs[i].afterTx)
  {
    assert subs[..i + 1] == subs[..i] + [subs[i]];
    GoneSnoc(start, subs[..i], subs[i]);
  }

  lemma GoneSnoc(start: map<M.Sender, M.Edge>, subs: seq<M.Subscription>, s: M.Subscription)
    ensures start + M.Gone(subs + [s]) == Told(Told(start + M.Gone(subs), s.whileTx), s.afterTx)
  {
    ChannelsSnoc(subs, s);
    var l, r := start + M.Gone(subs + [s]), Told(Told(start + M.Gone(subs), s.whileTx), s.afterTx);
    assert l.Keys == r.Keys;
    forall tx | tx in l ensures l[tx] == r[tx] {
    }
  }

  lemma ChannelsSnoc(subs: seq<M.Subscription>, s: M.Subscription)
    ensures M.Channels(subs + [s]) ==
            M.Channels(subs) + (if s.whileTx.Some? then {s.whileTx.value} else {})
            + (if s.afterTx.Some? then {s.afterTx.value} else {})
  {
    assert forall x :: x in subs + [s] <==> x in subs || x == s;
  }

  ghost function ReadyAmong(w: M.World, keys: seq<HandleId>): set<HandleId>
  {
    set id | id in keys && id in ReadyIds(w)
  }

  lemma ReadyAmongSnoc(w: M.World, keys: seq<HandleId>, id: HandleId)
    requires id !in keys
    ensures |ReadyAmong(w, keys + [id])| == |ReadyAmong(w, keys)| + if id in ReadyIds(w) then 1 else 0
  {
    assert ReadyAmong(w, keys + [id]) ==
           if id in ReadyIds(w) then ReadyAmong(w, keys) + {id} else ReadyAmong(w, keys);
  }

  lemma ReadyAmongAll(w: M.World, keys: seq<HandleId>)
    requires Enumerates(keys, w.pending.Keys)
    ensures ReadyAmong(w, keys) == ReadyIds(w)
  {
    EnumeratesMembers(keys, w.pending.Keys);
  }

  /** The next key of a sweep is still pending, as it was. */
  lemma VisitOne(w: M.World, keys: seq<HandleId>, i: nat)
    requires M.KeysMatch(w) && Enumerates(keys, w.pending.Keys) && i < |keys|
    ensures var s := M.Sweep(w, keys[..i]);
            && keys[i] in w.pending && keys[i] in s.pending && s.pending[keys[i]] == w.pending[keys[i]]
            && keys[i] !in keys[..i] && s.stats.Keys == w.stats.Keys && s.buses == w.buses
  {
    EnumeratesMembers(keys, w.pending.Keys);
    assert Visits(w, keys[..i]);
    SweepLeaves(w, keys[..i]);
  }
}
