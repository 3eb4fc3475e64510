/** The two models of the registry agree: a call whose statements no other thread, panic or
    departing downstream interrupts does to the maps what the atomic operation does. */
module GateRefinement {
  import opened Orders
  import M = GateModel
  import GateSweep
  import opened GateProtocol

  type World = M.World
  type BusKey = M.BusKey
  type HandleId = M.HandleId

  /** The maps of `s` are those of `w`. */
  predicate Shows(s: State, w: World)
  {
    s.subs == w.subscribers && s.pending == w.pending && s.stats == w.stats && s.buses == w.buses
  }

  /** A statement of `t` itself. */
  predicate Own(s: State, t: Tid, a: Action, s': State)
  {
    Step(s, t, a, s') && !a.Env? && a != Lock(Panic)
  }

  ghost predicate OwnStep(s: State, t: Tid, s': State)
  {
    exists a :: Own(s, t, a, s')
  }

  /** Thread `t` runs its call, alone, from its first statement until it is idle again. */
  ghost predicate Solo(t: Tid, states: seq<State>)
  {
    && |states| > 1 && states[|states| - 1].Th(t).Idle?
    && forall i :: 0 <= i < |states| - 1 ==> !states[i].Th(t).Idle? && OwnStep(states[i], t, states[i + 1])
  }

  /** What holds in every reachable state of the protocol is what the atomic laws ask for. */
  lemma ReachableIsConsistent(s: State, w: World)
    requires Inv(s) && Shows(s, w)
    ensures M.Consistent(w)
  {
    forall i, j | i in w.pending && j in w.pending && i != j
      ensures M.Apart(w.pending[i].ToSubscriber(), w.pending[j].ToSubscriber())
    {
      assert Has(s, InPending(i)) && Has(s, InPending(j));
    }
    forall k, l, i, j
      | k in w.subscribers && l in w.subscribers
        && 0 <= i < |w.subscribers[k]| && 0 <= j < |w.subscribers[l]| && (k != l || i != j)
      ensures M.Apart(w.subscribers[k][i], w.subscribers[l][j])
    {
      assert Has(s, InRow(k, i)) && Has(s, InRow(l, j));
    }
    forall id, k, i | id in w.pending && k in w.subscribers && 0 <= i < |w.subscribers[k]|
      ensures M.Apart(w.pending[id].ToSubscriber(), w.subscribers[k][i])
    {
      assert Has(s, InPending(id)) && Has(s, InRow(k, i));
    }
  }

  // ---- Whose statement comes next ----

  predicate AtRequeue(th: Thread) { th.Requeueing? || th.RequeueingRow? }

  predicate AtRename(th: Thread) { th.RenamingPending? || th.RenamingEntry? || th.RenamingRows? }

  predicate AtCancel(th: Thread) { th.Cancelling? || th.CancellingEntry? }

  predicate AtPut(th: Thread) { th.Inserting? || th.Tracking? }

  lemma NextIsSweep(s: State, t: Tid, a: Action, s': State)
    requires Own(s, t, a, s') && AtSweep(s.Th(t))
    ensures a.Sweep? && SweepEnabled(s, t, a.sweep) && s' == SweepApply(s, t, a.sweep)
  {
    OnlyLockOrBody(s, t, a, s');
  }

  lemma NextIsRequeue(s: State, t: Tid, a: Action, s': State)
    requires Own(s, t, a, s') && AtRequeue(s.Th(t))
    ensures a.Requeue? && RequeueEnabled(s, t, a.requeue) && s' == RequeueApply(s, t, a.requeue)
  {
    OnlyLockOrBody(s, t, a, s');
  }

  lemma NextIsRename(s: State, t: Tid, a: Action, s': State)
    requires Own(s, t, a, s') && AtRename(s.Th(t))
    ensures a.Rename? && RenameEnabled(s, t, a.rename) && s' == RenameApply(s, t, a.rename)
  {
    OnlyLockOrBody(s, t, a, s');
  }

  lemma NextIsCancel(s: State, t: Tid, a: Action, s': State)
    requires Own(s, t, a, s') && AtCancel(s.Th(t))
    ensures a.Cancel? && CancelEnabled(s, t, a.cancel) && s' == CancelApply(s, t, a.cancel)
  {
    OnlyLockOrBody(s, t, a, s');
  }

  lemma NextIsLock(s: State, t: Tid, a: Action, s': State)
    requires Own(s, t, a, s') && !s.Th(t).Idle?
    requires !AtSweep(s.Th(t)) && !AtRequeue(s.Th(t)) && !AtRename(s.Th(t)) && !AtCancel(s.Th(t)) && !AtPut(s.Th(t))
    ensures a.Lock? && a.lock != Panic && LockEnabled(s, t, a.lock) && s' == LockApply(s, t, a.lock)
  {
    OnlyLockOrBody(s, t, a, s');
  }

  /** Each group of statements belongs to the threads inside that group's critical section. */
  lemma OnlyLockOrBody(s: State, t: Tid, a: Action, s': State)
    requires Own(s, t, a, s') && !s.Th(t).Idle?
    ensures match a
            case Lock(x) => !AtSweep(s.Th(t)) && !AtRequeue(s.Th(t)) && !AtRename(s.Th(t)) && !AtCancel(s.Th(t)) &&
                !AtPut(s.Th(t))
            case Put(x) => AtPut(s.Th(t))
            case Sweep(x) => AtSweep(s.Th(t))
            case Requeue(x) => AtRequeue(s.Th(t))
            case Rename(x) => AtRename(s.Th(t))
            case Cancel(x) => AtCancel(s.Th(t))
            case _ => false
  {
  }

  // ---- sweep_pending ----

  /** The sweep has visited `order` and has `todo` left. */
  ghost predicate Swept(s: State, w: World, todo: set<HandleId>, order: seq<HandleId>)
  {
    GateSweep.Visits(w, order) && todo <= w.pending.Keys && Enumerates(order, w.pending.Keys - todo) &&
        Shows(s, M.Sweep(w, order))
  }

  /** ... and is promoting `p`: out of the pending map, and counted as far as `stage` says. */
  ghost predicate Taken(s: State, w: World, todo: set<HandleId>, entry: M.Waiter, stage: nat, order: seq<HandleId>,
                        p: M.Waiter)
  {
    && GateSweep.Visits(w, order + [p.handleId]) && todo <= w.pending.Keys
    && Enumerates(order + [p.handleId], w.pending.Keys - todo)
    && var v := M.Sweep(w, order);
       && p.handleId in v.pending && v.pending[p.handleId] == p && M.Ready(v, p)
       && entry == (if stage == 0 then p else p.(attempts := M.SaturatingInc(p.attempts)))
       && Shows(s, v.(pending := v.pending - {p.handleId}, stats := if stage == 2 then Counted(v.stats, p.stats)
                      else v.stats))
  }

  /** ... or has found `id` alive. */
  ghost predicate Found(s: State, w: World, todo: set<HandleId>, id: HandleId, order: seq<HandleId>)
  {
    Swept(s, w, todo + {id}, order) && id !in todo && id in s.pending && Alive(s, s.pending[id].stats)
  }

  ghost predicate SweepAt(s: State, t: Tid, w: World)
  {
    match s.Th(t)
    case Sweeping(todo) => exists order :: Swept(s, w, todo, order)
    case Checked(todo, id) => exists order :: Found(s, w, todo, id, order)
    case Promoting(todo, entry, stage) => stage <= 2 && exists order, p :: Taken(s, w, todo, entry, stage, order, p)
    case HoldsBoth => exists order :: Swept(s, w, {}, order)
    case _ => false
  }

  lemma SweepStarts(s: State, w: World)
    requires Shows(s, w) && M.KeysMatch(w)
    ensures Swept(s, w, w.pending.Keys, [])
  {
  }

  lemma VisitsNext(w: World, todo: set<HandleId>, order: seq<HandleId>, id: HandleId)
    requires GateSweep.Visits(w, order) && todo <= w.pending.Keys && Enumerates(order, w.pending.Keys - todo) &&
             id in todo
    ensures GateSweep.Visits(w, order + [id]) && Enumerates(order + [id], w.pending.Keys - (todo - {id}))
    ensures id !in order && M.Sweep(w, order + [id]) == M.SweepOne(M.Sweep(w, order), id)
  {
    EnumeratesMembers(order, w.pending.Keys - todo);
    NoDuplicatesSnoc(order, id);
    assert (order + [id])[..|order|] == order;
    var elements := set x | x in order + [id];
    assert forall x :: x in order + [id] <==> x in order || x == id;
    assert elements == w.pending.Keys - (todo - {id});
  }

  lemma SweepVisits(s: State, t: Tid, w: World, x: SweepStep, order: seq<HandleId>)
    requires s.Th(t).Sweeping? && Swept(s, w, s.Th(t).todo, order) && SweepEnabled(s, t, x)
    ensures SweepAt(SweepApply(s, t, x), t, w)
  {
    var s', todo := SweepApply(s, t, x), s.Th(t).todo;
    match x
    case SweepDrop(id) =>
      VisitsNext(w, todo, order, id);
      assert Swept(s', w, todo - {id}, order + [id]);
    case SweepAlive(id) =>
      assert todo - {id} + {id} == todo;
      assert Found(s', w, todo - {id}, id, order);
    case EndSweep => assert Swept(s', w, {}, order);
  }

  lemma SweepLooksUp(s: State, t: Tid, w: World, x: SweepStep, order: seq<HandleId>)
    requires s.Th(t).Checked? && Found(s, w, s.Th(t).todo, s.Th(t).id, order) && SweepEnabled(s, t, x)
    ensures SweepAt(SweepApply(s, t, x), t, w)
  {
    var s', todo, id := SweepApply(s, t, x), s.Th(t).todo, s.Th(t).id;
    VisitsNext(w, todo + {id}, order, id);
    assert todo + {id} - {id} == todo;
    if x.SweepTake? {
      var p := s.pending[id];
      assert p.handleId == id;
      assert Taken(s', w, todo, p, 0, order, p);
    } else {
      assert Swept(s', w, todo, order + [id]);
    }
  }

  lemma SweepCounts(s: State, t: Tid, w: World, x: SweepStep, order: seq<HandleId>, p: M.Waiter)
    requires s.Th(t).Promoting? && Taken(s, w, s.Th(t).todo, s.Th(t).entry, s.Th(t).stage, order, p) &&
             SweepEnabled(s, t, x)
    requires x.CountEntry? || x.CountStats?
    ensures SweepAt(SweepApply(s, t, x), t, w)
  {
    var s' := SweepApply(s, t, x);
    assert Taken(s', w, s'.Th(t).todo, s'.Th(t).entry, s'.Th(t).stage, order, p);
  }

  /** Pushing the counted entry completes the atomic promotion. */
  lemma PushShows(s: State, t: Tid, v: World, p: M.Waiter)
    requires s.Th(t).Promoting? && s.Th(t).stage == 2 && s.Th(t).entry == p.(attempts := M.SaturatingInc(p.attempts))
    requires M.Ready(v, p) && Shows(s, v.(pending := v.pending - {p.handleId}, stats := Counted(v.stats, p.stats)))
    ensures Shows(SweepApply(s, t, PushEntry), M.Promote(v, p))
  {
  }

  lemma SweepPushes(s: State, t: Tid, w: World, order: seq<HandleId>, p: M.Waiter)
    requires s.Th(t).Promoting? && s.Th(t).stage == 2 &&
             Taken(s, w, s.Th(t).todo, s.Th(t).entry, s.Th(t).stage, order, p)
    ensures SweepAt(SweepApply(s, t, PushEntry), t, w)
  {
    assert (order + [p.handleId])[..|order|] == order;
    PushShows(s, t, M.Sweep(w, order), p);
    assert Swept(SweepApply(s, t, PushEntry), w, s.Th(t).todo, order + [p.handleId]);
  }

  /** One statement of the sweep's loop. */
  lemma SweepBodyAt(s: State, t: Tid, w: World, x: SweepStep)
    requires SweepAt(s, t, w) && SweepEnabled(s, t, x)
    ensures SweepAt(SweepApply(s, t, x), t, w)
  {
    match s.Th(t)
    case Sweeping(todo) =>
      var order :| Swept(s, w, todo, order);
      SweepVisits(s, t, w, x, order);
    case Checked(todo, id) =>
      var order :| Found(s, w, todo, id, order);
      SweepLooksUp(s, t, w, x, order);
    case Promoting(todo, entry, stage) =>
      var order, p :| Taken(s, w, todo, entry, stage, order, p);
      if x.PushEntry? {
        SweepPushes(s, t, w, order, p);
      } else {
        SweepCounts(s, t, w, x, order, p);
      }
  }

  // ---- requeue_subscribers ----

  ghost predicate RequeueAt(s: State, t: Tid, w: World, keys: seq<BusKey>)
  {
    match s.Th(t)
    case Requeueing(rest) => |rest| <= |keys| && rest == keys[|keys| - |rest|..] &&
        Shows(s, M.Requeue(w, keys[..|keys| - |rest|]))
    case RequeueingRow(rest, key, refs) =>
      && |rest| < |keys| && rest == keys[|keys| - |rest|..] && key == keys[|keys| - |rest| - 1]
      && RowAt(s, M.Requeue(w, keys[..|keys| - |rest| - 1]), key, refs)
    case HoldsBoth => Shows(s, M.Requeue(w, keys))
    case _ => false
  }

  /** The row of `key` is out of its map and requeued up to `refs`. */
  predicate RowAt(s: State, v: World, key: BusKey, refs: seq<M.Subscriber>)
  {
    && key in v.subscribers && |refs| <= |v.subscribers[key]|
    && var row := v.subscribers[key];
       && refs == row[|row| - |refs|..]
       && Shows(s, M.RequeueRow(v.(subscribers := v.subscribers - {key}), key, row[..|row| - |refs|]))
  }

  lemma RequeueRowNext(v: World, key: BusKey, row: seq<M.Subscriber>, i: nat)
    requires i < |row|
    ensures M.RequeueRow(v, key, row[..i + 1]) == M.RequeueOne(M.RequeueRow(v, key, row[..i]), key, row[i])
  {
    assert row[..i + 1][..i] == row[..i];
  }

  lemma HeadShows(s: State, t: Tid, v: World)
    requires s.Th(t).RequeueingRow? && s.Th(t).refs != [] && Shows(s, v)
    ensures Shows(RequeueApply(s, t, RequeueHead), M.RequeueOne(v, s.Th(t).key, s.Th(t).refs[0]))
    ensures RequeueApply(s, t, RequeueHead).Th(t) == s.Th(t).(refs := s.Th(t).refs[1..])
  {
  }

  lemma RowHead(s: State, t: Tid, v: World, key: BusKey)
    requires s.Th(t).RequeueingRow? && s.Th(t).key == key && RowAt(s, v, key, s.Th(t).refs) &&
             RequeueEnabled(s, t, RequeueHead)
    ensures var s' := RequeueApply(s, t, RequeueHead);
            RowAt(s', v, key, s.Th(t).refs[1..]) && s'.Th(t) == s.Th(t).(refs := s.Th(t).refs[1..])
  {
    var row, refs := v.subscribers[key], s.Th(t).refs;
    var i := |row| - |refs|;
    var v' := v.(subscribers := v.subscribers - {key});
    assert row[i] == refs[0] && refs[1..] == row[i + 1..];
    HeadShows(s, t, M.RequeueRow(v', key, row[..i]));
    RequeueRowNext(v', key, row, i);
  }

  lemma TakeRowOf(s: State, t: Tid, v: World, key: BusKey)
    requires s.Th(t).Requeueing? && s.Th(t).keys != [] && s.Th(t).keys[0] == key && Shows(s, v)
    ensures var s' := RequeueApply(s, t, TakeRow);
            if key in v.subscribers
            then s'.Th(t) == RequeueingRow(s.Th(t).keys[1..], key, v.subscribers[key]) &&
                RowAt(s', v, key, v.subscribers[key])
            else s'.Th(t) == Requeueing(s.Th(t).keys[1..]) && Shows(s', M.RequeueKey(v, key))
  {
    if key in v.subscribers {
      var row := v.subscribers[key];
      assert row[..0] == [] && row[0..] == row;
    }
  }

  lemma RequeueNext(w: World, keys: seq<BusKey>, i: nat)
    requires i < |keys|
    ensures M.Requeue(w, keys[..i + 1]) == M.RequeueKey(M.Requeue(w, keys[..i]), keys[i])
  {
    assert keys[..i + 1][..i] == keys[..i];
  }

  lemma TakeRowAt(s: State, t: Tid, w: World, keys: seq<BusKey>)
    requires s.Th(t).Requeueing? && RequeueAt(s, t, w, keys) && RequeueEnabled(s, t, TakeRow)
    ensures RequeueAt(RequeueApply(s, t, TakeRow), t, w, keys)
  {
    var rest := s.Th(t).keys;
    var i := |keys| - |rest|;
    assert rest[0] == keys[i] && rest[1..] == keys[i + 1..];
    TakeRowOf(s, t, M.Requeue(w, keys[..i]), keys[i]);
    RequeueNext(w, keys, i);
  }

  lemma EndRowAt(s: State, t: Tid, w: World, keys: seq<BusKey>)
    requires s.Th(t).RequeueingRow? && RequeueAt(s, t, w, keys) && RequeueEnabled(s, t, EndRow)
    ensures RequeueAt(RequeueApply(s, t, EndRow), t, w, keys)
  {
    var i := |keys| - |s.Th(t).keys| - 1;
    RequeueNext(w, keys, i);
    RowDone(s, M.Requeue(w, keys[..i]), keys[i]);
  }

  lemma RowDone(s: State, v: World, key: BusKey)
    requires RowAt(s, v, key, [])
    ensures Shows(s, M.RequeueKey(v, key))
  {
    var row := v.subscribers[key];
    assert row[..|row|] == row;
  }

  lemma RequeueEnds(s: State, t: Tid, w: World, keys: seq<BusKey>)
    requires s.Th(t).Requeueing? && RequeueAt(s, t, w, keys) && RequeueEnabled(s, t, EndRequeue)
    ensures RequeueAt(RequeueApply(s, t, EndRequeue), t, w, keys)
  {
    assert keys[..|keys|] == keys;
  }

  lemma RequeueHeadAt(s: State, t: Tid, w: World, keys: seq<BusKey>)
    requires s.Th(t).RequeueingRow? && RequeueAt(s, t, w, keys) && RequeueEnabled(s, t, RequeueHead)
    ensures RequeueAt(RequeueApply(s, t, RequeueHead), t, w, keys)
  {
    RowHead(s, t, M.Requeue(w, keys[..|keys| - |s.Th(t).keys| - 1]), s.Th(t).key);
  }

  /** One statement of the requeue's loops. */
  lemma RequeueBodyAt(s: State, t: Tid, w: World, keys: seq<BusKey>, x: RequeueStep)
    requires RequeueAt(s, t, w, keys) && RequeueEnabled(s, t, x)
    ensures RequeueAt(RequeueApply(s, t, x), t, w, keys)
  {
    match x
    case TakeRow => TakeRowAt(s, t, w, keys);
    case RequeueHead => RequeueHeadAt(s, t, w, keys);
    case EndRow => EndRowAt(s, t, w, keys);
    case EndRequeue => RequeueEnds(s, t, w, keys);
  }

  // ---- rename_handle ----

  /** Half-renamed rows rename to what the original rows rename to. */
  predicate RenameAt(s: State, t: Tid, w: World, o: HandleId, n: HandleId)
  {
    && s.stats == w.stats && s.buses == w.buses
    && match s.Th(t)
       case RenameCall(o', n') => o' == o && n' == n && Shows(s, w)
       case RenamingPending(o', n') => o' == o && n' == n && Shows(s, w)
       case RenamingEntry(o', n', held, renamed) =>
         && o' == o && n' == n && s.subs == w.subscribers && o in w.pending && s.pending == w.pending - {o}
         && held == if renamed then w.pending[o].(handleId := n) else w.pending[o]
       case RenameBetween(o', n', _, _) => o' == o && n' == n && s.subs == w.subscribers &&
           s.pending == M.RenamePending(w.pending, o, n)
       case RenamingRows(o', n', _) =>
         && o' == o && n' == n && s.pending == M.RenamePending(w.pending, o, n)
         && M.RenameRows(s.subs, o, n) == M.RenameRows(w.subscribers, o, n)
       case HoldsSubs => Shows(s, M.Rename(w, o, n))
       case Idle => Shows(s, M.Rename(w, o, n))
       case _ => false
  }

  lemma RecordRenamed(rows: map<BusKey, seq<M.Subscriber>>, key: BusKey, i: nat, o: HandleId, n: HandleId)
    requires o != n && key in rows && i < |rows[key]| && rows[key][i].handleId == o
    ensures var rows' := rows[key := rows[key][i := rows[key][i].(handleId := n)]];
            M.RenameRows(rows', o, n) == M.RenameRows(rows, o, n)
  {
    var row := rows[key];
    assert M.RenameRow(row[i := row[i].(handleId := n)], o, n) == M.RenameRow(row, o, n);
  }

  lemma AllRenamed(rows: map<BusKey, seq<M.Subscriber>>, o: HandleId, n: HandleId)
    requires forall k, i :: k in rows && 0 <= i < |rows[k]| ==> rows[k][i].handleId != o
    ensures M.RenameRows(rows, o, n) == rows
  {
    forall k | k in rows ensures M.RenameRow(rows[k], o, n) == rows[k] {
    }
  }

  lemma RenameStepAt(s: State, t: Tid, w: World, o: HandleId, n: HandleId, a: Action, s': State)
    requires o != n && RenameAt(s, t, w, o, n) && !s.Th(t).Idle? && Own(s, t, a, s')
    ensures RenameAt(s', t, w, o, n)
  {
    if s.Th(t).RenamingRows? {
      NextIsRename(s, t, a, s');
      RenameRowsAt(s, t, w, o, n, a.rename);
    } else if AtRename(s.Th(t)) {
      NextIsRename(s, t, a, s');
      RenamePendingAt(s, t, w, o, n, a.rename);
    } else {
      NextIsLock(s, t, a, s');
      RenameLocks(s, t, w, o, n, a.lock);
    }
  }

  lemma RenameRowsAt(s: State, t: Tid, w: World, o: HandleId, n: HandleId, x: RenameStep)
    requires o != n && s.Th(t).RenamingRows? && RenameAt(s, t, w, o, n) && RenameEnabled(s, t, x)
    ensures RenameAt(RenameApply(s, t, x), t, w, o, n)
  {
    if x.RenameRecord? {
      RecordRenamed(s.subs, x.key, x.i, o, n);
    } else {
      AllRenamed(s.subs, o, n);
    }
  }

  lemma RenamePendingAt(s: State, t: Tid, w: World, o: HandleId, n: HandleId, x: RenameStep)
    requires o != n && (s.Th(t).RenamingPending? || s.Th(t).RenamingEntry?) && RenameAt(s, t, w, o, n) &&
             RenameEnabled(s, t, x)
    ensures RenameAt(RenameApply(s, t, x), t, w, o, n)
  {
  }

  lemma RenameLocks(s: State, t: Tid, w: World, o: HandleId, n: HandleId, x: LockStep)
    requires o != n && RenameAt(s, t, w, o, n) && LockEnabled(s, t, x) && x != Panic && !s.Th(t).Idle?
    ensures RenameAt(LockApply(s, t, x), t, w, o, n)
  {
  }

  /** An uninterrupted `rename_handle` is the atomic one, over both of its critical sections. */
  lemma {:induction false} RenameIsAtomic(t: Tid, states: seq<State>, w: World, o: HandleId, n: HandleId, k: nat)
    requires Solo(t, states) && states[0].Th(t) == RenameCall(o, n) && o != n && Shows(states[0], w) && k < |states|
    ensures RenameAt(states[k], t, w, o, n)
    ensures k == |states| - 1 ==> Shows(states[k], M.Rename(w, o, n))
  {
    if k > 0 {
      RenameIsAtomic(t, states, w, o, n, k - 1);
      assert OwnStep(states[k - 1], t, states[k - 1 + 1]);
      var a :| Own(states[k - 1], t, a, states[k]);
      RenameStepAt(states[k - 1], t, w, o, n, a, states[k]);
    }
  }

  // ---- insert_pending and track_subscriber ----

  /** The atomic call: the record among the waiters, or at the end of its upstream's row. */
  function PutRecord(w: World, p: M.Waiter, insert: bool): World
  {
    if insert then w.(pending := w.pending[p.handleId := p])
    else
      var key := M.BusKey(p.scenarioName, p.entryId);
      var row := if key in w.subscribers then w.subscribers[key] else [];
      var r := M.Subscriber(p.handleId, p.stats, p.sender, p.spec, p.ifUnresolved, p.registeredAt, p.attempts);
      w.(subscribers := w.subscribers[key := row + [r]])
  }

  predicate PutAt(s: State, t: Tid, w: World, p: M.Waiter, insert: bool)
  {
    match s.Th(t)
    case InsertCall(q) => insert && q == p && Shows(s, w)
    case Inserting(q) => insert && q == p && Shows(s, w)
    case TrackCall(q) => !insert && q == p && Shows(s, w)
    case Tracking(q) => !insert && q == p && Shows(s, w)
    case HoldsPending => insert && Shows(s, PutRecord(w, p, true))
    case HoldsSubs => !insert && Shows(s, PutRecord(w, p, false))
    case Idle => Shows(s, PutRecord(w, p, insert))
    case _ => false
  }

  lemma PutStepAt(s: State, t: Tid, w: World, p: M.Waiter, insert: bool, a: Action, s': State)
    requires PutAt(s, t, w, p, insert) && !s.Th(t).Idle? && Own(s, t, a, s')
    ensures PutAt(s', t, w, p, insert)
  {
    if AtPut(s.Th(t)) {
      NextIsPut(s, t, a, s');
      PutBodyAt(s, t, w, p, insert, a.put);
    } else {
      NextIsLock(s, t, a, s');
      PutLocks(s, t, w, p, insert, a.lock);
    }
  }

  lemma NextIsPut(s: State, t: Tid, a: Action, s': State)
    requires Own(s, t, a, s') && AtPut(s.Th(t))
    ensures a.Put? && PutEnabled(s, t, a.put) && s' == PutApply(s, t, a.put)
  {
    OnlyLockOrBody(s, t, a, s');
  }

  lemma PutBodyAt(s: State, t: Tid, w: World, p: M.Waiter, insert: bool, x: PutStep)
    requires PutAt(s, t, w, p, insert) && PutEnabled(s, t, x)
    ensures PutAt(PutApply(s, t, x), t, w, p, insert)
  {
  }

  lemma PutLocks(s: State, t: Tid, w: World, p: M.Waiter, insert: bool, x: LockStep)
    requires PutAt(s, t, w, p, insert) && LockEnabled(s, t, x) && x != Panic && !s.Th(t).Idle?
    ensures PutAt(LockApply(s, t, x), t, w, p, insert)
  {
  }

  /** An uninterrupted `insert_pending` or `track_subscriber` puts exactly its record where it belongs. */
  lemma {:induction false} PutIsAtomic(t: Tid, states: seq<State>, w: World, p: M.Waiter, insert: bool, k: nat)
    requires Solo(t, states) && states[0].Th(t) == (if insert then InsertCall(p) else TrackCall(p))
    requires Shows(states[0], w) && k < |states|
    ensures PutAt(states[k], t, w, p, insert)
    ensures k == |states| - 1 ==> Shows(states[k], PutRecord(w, p, insert))
  {
    if k > 0 {
      PutIsAtomic(t, states, w, p, insert, k - 1);
      assert OwnStep(states[k - 1], t, states[k - 1 + 1]);
      var a :| Own(states[k - 1], t, a, states[k]);
      PutStepAt(states[k - 1], t, w, p, insert, a, states[k]);
    }
  }

  // ---- cancel_pending_for_upstream ----

  ghost predicate Cancelled(s: State, w: World, key: BusKey, todo: set<HandleId>, order: seq<HandleId>)
  {
    todo <= M.Waiting(w, key) && Enumerates(order, M.Waiting(w, key) - todo) && Shows(s, M.Cancel(w, order))
  }

  /** ... and `taken` is out of the map, its stats not settled yet. */
  ghost predicate Cancels(s: State, w: World, key: BusKey, todo: set<HandleId>, taken: M.Waiter, order: seq<HandleId>,
                          id: HandleId)
  {
    && todo <= M.Waiting(w, key) && Enumerates(order + [id], M.Waiting(w, key) - todo)
    && var v := M.Cancel(w, order);
       id in v.pending && taken == v.pending[id] && Shows(s, v.(pending := v.pending - {id}))
  }

  ghost predicate CancelAt(s: State, t: Tid, w: World, key: BusKey)
  {
    match s.Th(t)
    case Cancelling(todo) => exists order :: Cancelled(s, w, key, todo, order)
    case CancellingEntry(todo, taken) => exists order, id :: Cancels(s, w, key, todo, taken, order, id)
    case HoldsPending => exists order :: Cancelled(s, w, key, {}, order)
    case _ => false
  }

  lemma EnumeratesNext<T>(order: seq<T>, all: set<T>, todo: set<T>, x: T)
    requires todo <= all && Enumerates(order, all - todo) && x in todo
    ensures Enumerates(order + [x], all - (todo - {x}))
  {
    var seen := set y | y in order;
    assert seen == all - todo;
    assert x !in seen;
    NoDuplicatesSnoc(order, x);
    var elements := set y | y in order + [x];
    assert elements == seen + {x};
    assert all - (todo - {x}) == seen + {x};
  }

  /** One statement of the cancellation's loop. */
  lemma CancelBodyAt(s: State, t: Tid, w: World, key: BusKey, x: CancelStep)
    requires CancelAt(s, t, w, key) && CancelEnabled(s, t, x)
    ensures CancelAt(CancelApply(s, t, x), t, w, key)
  {
    if x.CancelSettle? {
      CancelSettles(s, t, w, key);
    } else {
      CancelTakes(s, t, w, key, x);
    }
  }

  lemma CancelTakes(s: State, t: Tid, w: World, key: BusKey, x: CancelStep)
    requires s.Th(t).Cancelling? && CancelAt(s, t, w, key) && CancelEnabled(s, t, x)
    ensures CancelAt(CancelApply(s, t, x), t, w, key)
  {
    var s', todo := CancelApply(s, t, x), s.Th(t).todo;
    var order :| Cancelled(s, w, key, todo, order);
    if x.EndCancel? {
      assert Cancelled(s', w, key, {}, order);
    } else {
      EnumeratesNext(order, M.Waiting(w, key), todo, x.id);
      assert Cancels(s', w, key, todo - {x.id}, s.pending[x.id], order, x.id);
    }
  }

  lemma CancelSettles(s: State, t: Tid, w: World, key: BusKey)
    requires s.Th(t).CancellingEntry? && CancelAt(s, t, w, key)
    ensures CancelAt(CancelApply(s, t, CancelSettle), t, w, key)
  {
    var s', todo, taken := CancelApply(s, t, CancelSettle), s.Th(t).todo, s.Th(t).taken;
    var order, id :| Cancels(s, w, key, todo, taken, order, id);
    assert (order + [id])[..|order|] == order;
    assert Cancelled(s', w, key, todo, order + [id]);
  }
}
