/** The registry's critical sections are atomic among all the other threads: from the last lock a
    call takes to the end of its loop, whatever the others do, the maps change by the atomic
    operation. */
module GateAtomicity {
  import opened Orders
  import M = GateModel
  import opened GateProtocol
  import opened GateProtocolProof
  import opened GateRefinement
  import GateRenameExact

  /** `s` with the statistics of the handles that had entered by some moment. */
  function View(s: State, known: set<M.StatsId>): State
  {
    s.(stats := Among(s.stats, known))
  }

  function Among(stats: map<M.StatsId, M.Stats>, known: set<M.StatsId>): map<M.StatsId, M.Stats>
  {
    map st | st in stats && st in known :: stats[st]
  }

  /** While `t` is in its loop no bus comes or goes, and no handle that had entered dies. */
  ghost predicate Steady(states: seq<State>, i: nat, k: nat)
    requires i <= k < |states|
  {
    forall m :: i <= m <= k ==> SteadyFrom(states, i, m)
  }

  predicate SteadyFrom(states: seq<State>, i: nat, m: nat)
  {
    i <= m < |states| && SteadyAt(states[i], states[m])
  }

  lemma SteadyUpTo(states: seq<State>, i: nat, k: nat, m: nat)
    requires i <= m <= k < |states| && Steady(states, i, k)
    ensures Steady(states, i, m)
  {
  }

  predicate SteadyAt(s: State, s': State)
  {
    s'.buses == s.buses && forall st :: st in s.entered ==> (st in s'.stats <==> st in s.stats)
  }

  // ---- What the others leave alone ----

  lemma CallKeeps(s: State, u: Tid, x: CallStep)
    requires CallEnabled(s, u, x)
    ensures CallApply(s, u, x).stats == s.stats && CallApply(s, u, x).buses == s.buses
  {
  }

  lemma LockKeeps(s: State, u: Tid, x: LockStep)
    requires LockEnabled(s, u, x)
    ensures LockApply(s, u, x).stats == s.stats && LockApply(s, u, x).buses == s.buses
  {
  }

  lemma RequeueKeeps(s: State, u: Tid, x: RequeueStep)
    requires RequeueEnabled(s, u, x)
    ensures RequeueApply(s, u, x).stats == s.stats && RequeueApply(s, u, x).buses == s.buses
  {
    match x
    case TakeRow =>
    case RequeueHead =>
    case EndRow =>
    case EndRequeue =>
  }

  lemma RenameKeeps(s: State, u: Tid, x: RenameStep)
    requires RenameEnabled(s, u, x)
    ensures RenameApply(s, u, x).stats == s.stats && RenameApply(s, u, x).buses == s.buses
  {
  }

  /** Only under the pending lock does a thread count or settle statistics. */
  lemma StatsLocal(s: State, u: Tid, a: Action, s': State)
    requires Step(s, u, a, s') && !a.Env? && !OwnsPending(s.Th(u))
    ensures s'.stats == s.stats && s'.buses == s.buses
  {
    match a
    case StartInsert(p) =>
    case StartTrack(p) =>
    case Call(x) => CallKeeps(s, u, x);
    case Lock(x) => LockKeeps(s, u, x);
    case Put(x) =>
    case Sweep(x) => assert false;
    case Requeue(x) => RequeueKeeps(s, u, x);
    case Rename(x) => RenameKeeps(s, u, x);
    case Cancel(x) => assert false;
  }

  /** What the surroundings do to the statistics of known handles shows in who is alive. */
  lemma EnvAmong(s: State, x: EnvStep, known: set<M.StatsId>)
    requires known <= s.entered.Keys
    requires forall st :: st in known ==> (st in EnvApply(s, x).stats <==> st in s.stats)
    ensures Among(EnvApply(s, x).stats, known) == Among(s.stats, known)
  {
  }

  lemma OthersKeep(s: State, t: Tid, u: Tid, a: Action, s': State, known: set<M.StatsId>)
    requires Inv(s) && Step(s, u, a, s') && (u != t || a.Env?) && OwnsPending(s.Th(t)) && known <= s.entered.Keys
    requires forall st :: st in known ==> (st in s'.stats <==> st in s.stats)
    ensures s'.Th(t) == s.Th(t) && s'.pending == s.pending && Among(s'.stats, known) == Among(s.stats, known)
    ensures OwnsSubs(s.Th(t)) ==> s'.subs == s.subs
  {
    assert ThreadOk(s, t) && ThreadOk(s, u);
    GateRenameExact.OtherStep(s, t, u, a, s');
    if a.Env? {
      EnvAmong(s, a.env, known);
    } else {
      StatsLocal(s, u, a, s');
    }
  }

  /** A step of the run: of `t`, or one that leaves everything `t` works on alone. */
  lemma StepOrKept(states: seq<State>, t: Tid, i: nat, m: nat) returns (own: bool, a: Action)
    requires Run(states) && i <= m < m + 1 < |states| && Steady(states, i, m + 1)
    requires OwnsPending(states[m].Th(t)) && states[i].entered.Keys <= states[m].entered.Keys
    ensures states[i].entered.Keys <= states[m + 1].entered.Keys
    ensures own ==> Step(states[m], t, a, states[m + 1]) && !a.Env?
    ensures !own ==>
              var s, s', known := states[m], states[m + 1], states[i].entered.Keys;
              && s'.Th(t) == s.Th(t) && s'.pending == s.pending && Among(s'.stats, known) == Among(s.stats, known)
              && (OwnsSubs(s.Th(t)) ==> s'.subs == s.subs)
  {
    EveryRunIsConsistent(states, m);
    var u;
    u, a := GateRenameExact.RunStep(states, m, t);
    GateRenameExact.StepLocal(states[m], u, a, states[m + 1], t);
    own := u == t && !a.Env?;
    if !own {
      assert SteadyFrom(states, i, m) && SteadyFrom(states, i, m + 1);
      OthersKeep(states[m], t, u, a, states[m + 1], states[i].entered.Keys);
    }
  }

  // ---- sweep_pending ----

  predicate InSweepLoop(states: seq<State>, t: Tid, m: nat)
  {
    m < |states| && AtSweep(states[m].Th(t))
  }

  /** The loop of a sweep, from its last lock at `i` to its end at `k`. */
  ghost predicate SweepLoop(states: seq<State>, t: Tid, i: nat, k: nat)
  {
    && Run(states) && i < k < |states| && Steady(states, i, k)
    && states[i].Th(t) == Sweeping(states[i].pending.Keys)
    && (forall m :: i <= m < k ==> InSweepLoop(states, t, m))
    && states[k].Th(t).HoldsBoth?
  }

  predicate PendingKnown(s: State, known: set<M.StatsId>)
  {
    forall id :: id in s.pending ==> s.pending[id].stats in known
  }

  lemma SweepViewed(s: State, t: Tid, x: SweepStep, known: set<M.StatsId>)
    requires SweepEnabled(s, t, x) && PendingKnown(s, known)
    ensures SweepEnabled(View(s, known), t, x)
    ensures View(SweepApply(s, t, x), known) == SweepApply(View(s, known), t, x)
    ensures PendingKnown(SweepApply(s, t, x), known)
  {
    if x.CountStats? {
      var st := s.Th(t).entry.stats;
      assert Among(Counted(s.stats, st), known) == Counted(Among(s.stats, known), st);
    }
  }

  /** What `SweepAt` says depends on the thread and the maps alone. */
  lemma SweepAtSame(s: State, s': State, t: Tid, w: World)
    requires SweepAt(s, t, w) && s'.Th(t) == s.Th(t)
    requires s'.subs == s.subs && s'.pending == s.pending && s'.stats == s.stats && s'.buses == s.buses
    ensures SweepAt(s', t, w)
  {
    match s.Th(t)
    case Sweeping(todo) =>
      var order :| Swept(s, w, todo, order);
      assert Swept(s', w, todo, order);
    case Checked(todo, id) =>
      var order :| Found(s, w, todo, id, order);
      assert Found(s', w, todo, id, order);
    case Promoting(todo, entry, stage) =>
      var order, p :| GateRefinement.Taken(s, w, todo, entry, stage, order, p);
      assert GateRefinement.Taken(s', w, todo, entry, stage, order, p);
    case HoldsBoth =>
      var order :| Swept(s, w, {}, order);
      assert Swept(s', w, {}, order);
  }

  ghost predicate SweepHolds(states: seq<State>, t: Tid, i: nat, m: nat, w: World)
    requires i <= m < |states|
  {
    var known := states[i].entered.Keys;
    && known <= states[m].entered.Keys && PendingKnown(states[m], known) && SweepAt(View(states[m], known), t, w)
  }

  lemma EnteredKnown(s: State)
    requires Inv(s)
    ensures PendingKnown(s, s.entered.Keys)
    ensures forall k, i :: k in s.subs && 0 <= i < |s.subs[k]| ==> s.subs[k][i].stats in s.entered
  {
    forall id | id in s.pending ensures s.pending[id].stats in s.entered {
      assert Has(s, InPending(id)) && FromEntry(s, At(s, InPending(id)));
    }
    forall k, i | k in s.subs && 0 <= i < |s.subs[k]| ensures s.subs[k][i].stats in s.entered {
      assert Has(s, InRow(k, i)) && FromEntry(s, At(s, InRow(k, i)));
    }
  }

  lemma SweepLoopStep(states: seq<State>, t: Tid, i: nat, m: nat, w: World)
    requires Run(states) && i <= m < m + 1 < |states| && Steady(states, i, m + 1) && M.KeysMatch(w)
    requires AtSweep(states[m].Th(t)) && !states[m + 1].Th(t).Idle? && SweepHolds(states, t, i, m, w)
    ensures SweepHolds(states, t, i, m + 1, w)
  {
    var s, s', known := states[m], states[m + 1], states[i].entered.Keys;
    var own, a := StepOrKept(states, t, i, m);
    if own {
      NextIsSweep(s, t, a, s');
      SweepViewed(s, t, a.sweep, known);
      SweepBodyAt(View(s, known), t, w, a.sweep);
    } else {
      assert SteadyFrom(states, i, m) && SteadyFrom(states, i, m + 1);
      SweepAtSame(View(s, known), View(s', known), t, w);
    }
  }

  lemma {:induction false} SweepLoopRun(states: seq<State>, t: Tid, i: nat, k: nat, w: World, m: nat)
    requires SweepLoop(states, t, i, k) && i <= m <= k && M.KeysMatch(w) &&
             Shows(View(states[i], states[i].entered.Keys), w)
    ensures SweepHolds(states, t, i, m, w)
    decreases m
  {
    if m == i {
      EveryRunIsConsistent(states, i);
      EnteredKnown(states[i]);
      SweepStarts(View(states[i], states[i].entered.Keys), w);
    } else {
      SweepLoopRun(states, t, i, k, w, m - 1);
      assert InSweepLoop(states, t, m - 1) && (m < k ==> InSweepLoop(states, t, m));
      SteadyUpTo(states, i, k, m);
      SweepLoopStep(states, t, i, m - 1, w);
    }
  }

  /** In every run, with any number of other threads: a sweep's loop is the atomic sweep of what it
      found when it took its last lock, in some order of the pending keys. */
  lemma SweepIsAtomicAmongOthers(states: seq<State>, t: Tid, i: nat, k: nat, w: World) returns (order: seq<HandleId>)
    requires SweepLoop(states, t, i, k) && M.KeysMatch(w) && Shows(View(states[i], states[i].entered.Keys), w)
    ensures Enumerates(order, w.pending.Keys)
    ensures Shows(View(states[k], states[i].entered.Keys), M.Sweep(w, order))
  {
    SweepLoopRun(states, t, i, k, w, k);
    order :| Swept(View(states[k], states[i].entered.Keys), w, {}, order);
    assert w.pending.Keys - {} == w.pending.Keys;
  }

  // ---- requeue_subscribers ----

  predicate InRequeueLoop(states: seq<State>, t: Tid, m: nat)
  {
    m < |states| && AtRequeue(states[m].Th(t))
  }

  ghost predicate RequeueLoop(states: seq<State>, t: Tid, keys: seq<BusKey>, i: nat, k: nat)
  {
    && Run(states) && i < k < |states| && Steady(states, i, k)
    && states[i].Th(t) == Requeueing(keys)
    && (forall m :: i <= m < k ==> InRequeueLoop(states, t, m))
    && states[k].Th(t).HoldsBoth?
  }

  ghost predicate RowsKnown(s: State, t: Tid, known: set<M.StatsId>)
  {
    && (forall k, i :: k in s.subs && 0 <= i < |s.subs[k]| ==> s.subs[k][i].stats in known)
    && (s.Th(t).RequeueingRow? ==> forall i :: 0 <= i < |s.Th(t).refs| ==> s.Th(t).refs[i].stats in known)
  }

  lemma RequeueViewed(s: State, t: Tid, x: RequeueStep, known: set<M.StatsId>)
    requires RequeueEnabled(s, t, x) && RowsKnown(s, t, known)
    ensures RequeueEnabled(View(s, known), t, x)
    ensures View(RequeueApply(s, t, x), known) == RequeueApply(View(s, known), t, x)
    ensures RowsKnown(RequeueApply(s, t, x), t, known)
  {
    match x
    case TakeRow => TakeRowViewed(s, t, known);
    case RequeueHead => HeadViewed(s, t, known);
    case _ =>
  }

  lemma TakeRowViewed(s: State, t: Tid, known: set<M.StatsId>)
    requires RequeueEnabled(s, t, TakeRow) && RowsKnown(s, t, known)
    ensures View(RequeueApply(s, t, TakeRow), known) == RequeueApply(View(s, known), t, TakeRow)
    ensures RowsKnown(RequeueApply(s, t, TakeRow), t, known)
  {
    TakeRowKeepsKnown(s, t, known);
  }

  lemma TakeRowKeepsKnown(s: State, t: Tid, known: set<M.StatsId>)
    requires RequeueEnabled(s, t, TakeRow) && RowsKnown(s, t, known)
    ensures RowsKnown(RequeueApply(s, t, TakeRow), t, known)
  {
    var s', key := RequeueApply(s, t, TakeRow), s.Th(t).keys[0];
    if key in s.subs {
      assert s'.subs == s.subs - {key} && s'.Th(t).refs == s.subs[key];
    } else {
      assert s'.subs == s.subs;
    }
  }

  lemma HeadViewed(s: State, t: Tid, known: set<M.StatsId>)
    requires RequeueEnabled(s, t, RequeueHead) && RowsKnown(s, t, known)
    ensures View(RequeueApply(s, t, RequeueHead), known) == RequeueApply(View(s, known), t, RequeueHead)
    ensures RowsKnown(RequeueApply(s, t, RequeueHead), t, known)
  {
    assert s.Th(t).refs[0].stats in known;
  }

  lemma RequeueAtSame(s: State, s': State, t: Tid, w: World, keys: seq<BusKey>)
    requires RequeueAt(s, t, w, keys) && s'.Th(t) == s.Th(t)
    requires s'.subs == s.subs && s'.pending == s.pending && s'.stats == s.stats && s'.buses == s.buses
    ensures RequeueAt(s', t, w, keys)
  {
  }

  ghost predicate RequeueHolds(states: seq<State>, t: Tid, i: nat, m: nat, w: World, keys: seq<BusKey>)
    requires i <= m < |states|
  {
    var known := states[i].entered.Keys;
    && known <= states[m].entered.Keys && RowsKnown(states[m], t, known)
    && RequeueAt(View(states[m], known), t, w, keys)
  }

  lemma RequeueLoopStep(states: seq<State>, t: Tid, i: nat, m: nat, w: World, keys: seq<BusKey>)
    requires Run(states) && i <= m < m + 1 < |states| && Steady(states, i, m + 1)
    requires AtRequeue(states[m].Th(t)) && !states[m + 1].Th(t).Idle? && RequeueHolds(states, t, i, m, w, keys)
    ensures RequeueHolds(states, t, i, m + 1, w, keys)
  {
    var s, s', known := states[m], states[m + 1], states[i].entered.Keys;
    var own, a := StepOrKept(states, t, i, m);
    if own {
      NextIsRequeue(s, t, a, s');
      RequeueViewed(s, t, a.requeue, known);
      RequeueBodyAt(View(s, known), t, w, keys, a.requeue);
    } else {
      assert SteadyFrom(states, i, m) && SteadyFrom(states, i, m + 1);
      RequeueAtSame(View(s, known), View(s', known), t, w, keys);
    }
  }

  lemma RequeueStarts(s: State, t: Tid, w: World, keys: seq<BusKey>)
    requires s.Th(t) == Requeueing(keys) && Shows(s, w)
    ensures RequeueAt(s, t, w, keys)
  {
    assert keys[..0] == [] && keys[0..] == keys;
  }

  lemma {:induction false} RequeueLoopRun(states: seq<State>, t: Tid, keys: seq<BusKey>, i: nat, k: nat, w: World,
                                          m: nat)
    requires RequeueLoop(states, t, keys, i, k) && i <= m <= k && Shows(View(states[i], states[i].entered.Keys), w)
    ensures RequeueHolds(states, t, i, m, w, keys)
    decreases m
  {
    if m == i {
      EveryRunIsConsistent(states, i);
      EnteredKnown(states[i]);
      RequeueStarts(View(states[i], states[i].entered.Keys), t, w, keys);
    } else {
      RequeueLoopRun(states, t, keys, i, k, w, m - 1);
      assert InRequeueLoop(states, t, m - 1) && (m < k ==> InRequeueLoop(states, t, m));
      SteadyUpTo(states, i, k, m);
      RequeueLoopStep(states, t, i, m - 1, w, keys);
    }
  }

  /** In every run, among any other threads: the requeue's loops are the atomic requeue. */
  lemma RequeueIsAtomicAmongOthers(states: seq<State>, t: Tid, keys: seq<BusKey>, i: nat, k: nat, w: World)
    requires RequeueLoop(states, t, keys, i, k) && Shows(View(states[i], states[i].entered.Keys), w)
    ensures Shows(View(states[k], states[i].entered.Keys), M.Requeue(w, keys))
  {
    RequeueLoopRun(states, t, keys, i, k, w, k);
  }

  // ---- cancel_pending_for_upstream ----

  predicate InCancelLoop(states: seq<State>, t: Tid, m: nat)
  {
    m < |states| && AtCancel(states[m].Th(t))
  }

  ghost predicate CancelLoop(states: seq<State>, t: Tid, key: BusKey, i: nat, k: nat)
  {
    && Run(states) && i < k < |states| && Steady(states, i, k)
    && states[i].Th(t) == Cancelling(set id | id in states[i].pending && states[i].pending[id].Key() == key)
    && (forall m :: i <= m < k ==> InCancelLoop(states, t, m))
    && states[k].Th(t).HoldsPending?
  }

  /** The same view, with the rows of the start: a cancellation has no part in them. */
  function PendingView(s: State, s0: State): State
  {
    View(s, s0.entered.Keys).(subs := s0.subs)
  }

  lemma CancelViewed(s: State, t: Tid, x: CancelStep, s0: State)
    requires CancelEnabled(s, t, x)
    ensures CancelEnabled(PendingView(s, s0), t, x)
    ensures PendingView(CancelApply(s, t, x), s0) == CancelApply(PendingView(s, s0), t, x)
  {
    if x.CancelSettle? {
      var st, known := s.Th(t).taken.stats, s0.entered.Keys;
      assert Among(Settled(s.stats, st), known) == Settled(Among(s.stats, known), st);
    }
  }

  lemma CancelAtSame(s: State, s': State, t: Tid, w: World, key: BusKey)
    requires CancelAt(s, t, w, key) && s'.Th(t) == s.Th(t)
    requires s'.subs == s.subs && s'.pending == s.pending && s'.stats == s.stats && s'.buses == s.buses
    ensures CancelAt(s', t, w, key)
  {
    match s.Th(t)
    case Cancelling(todo) =>
      var order :| Cancelled(s, w, key, todo, order);
      assert Cancelled(s', w, key, todo, order);
    case CancellingEntry(todo, taken) =>
      var order, id :| Cancels(s, w, key, todo, taken, order, id);
      assert Cancels(s', w, key, todo, taken, order, id);
    case HoldsPending =>
      var order :| Cancelled(s, w, key, {}, order);
      assert Cancelled(s', w, key, {}, order);
  }

  ghost predicate CancelHolds(states: seq<State>, t: Tid, i: nat, m: nat, w: World, key: BusKey)
    requires i <= m < |states|
  {
    && states[i].entered.Keys <= states[m].entered.Keys
    && CancelAt(PendingView(states[m], states[i]), t, w, key)
  }

  lemma CancelLoopStep(states: seq<State>, t: Tid, i: nat, m: nat, w: World, key: BusKey)
    requires Run(states) && i <= m < m + 1 < |states| && Steady(states, i, m + 1)
    requires AtCancel(states[m].Th(t)) && !states[m + 1].Th(t).Idle? && CancelHolds(states, t, i, m, w, key)
    ensures CancelHolds(states, t, i, m + 1, w, key)
  {
    var s, s' := states[m], states[m + 1];
    var own, a := StepOrKept(states, t, i, m);
    if own {
      NextIsCancel(s, t, a, s');
      CancelViewed(s, t, a.cancel, states[i]);
      CancelBodyAt(PendingView(s, states[i]), t, w, key, a.cancel);
    } else {
      assert SteadyFrom(states, i, m) && SteadyFrom(states, i, m + 1);
      CancelAtSame(PendingView(s, states[i]), PendingView(s', states[i]), t, w, key);
    }
  }

  lemma {:induction false} CancelLoopRun(states: seq<State>, t: Tid, key: BusKey, i: nat, k: nat, w: World, m: nat)
    requires CancelLoop(states, t, key, i, k) && i <= m <= k && Shows(View(states[i], states[i].entered.Keys), w)
    ensures CancelHolds(states, t, i, m, w, key)
    decreases m
  {
    if m == i {
      assert Cancelled(PendingView(states[i], states[i]), w, key, M.Waiting(w, key), []);
    } else {
      CancelLoopRun(states, t, key, i, k, w, m - 1);
      assert InCancelLoop(states, t, m - 1) && (m < k ==> InCancelLoop(states, t, m));
      SteadyUpTo(states, i, k, m);
      CancelLoopStep(states, t, i, m - 1, w, key);
    }
  }

  /** In every run, among any other threads, which may change the rows meanwhile: the cancellation's
      loop does to the waiters and the statistics what the atomic one does, in some order. */
  lemma CancelIsAtomicAmongOthers(states: seq<State>, t: Tid, key: BusKey, i: nat, k: nat, w: World)
    returns (order: seq<HandleId>)
    requires CancelLoop(states, t, key, i, k) && Shows(View(states[i], states[i].entered.Keys), w)
    ensures Enumerates(order, M.Waiting(w, key))
    ensures var w' := M.Cancel(w, order);
            states[k].pending == w'.pending && Among(states[k].stats, states[i].entered.Keys) == w'.stats
  {
    CancelLoopRun(states, t, key, i, k, w, k);
    order :| Cancelled(PendingView(states[k], states[i]), w, key, {}, order);
    assert M.Waiting(w, key) - {} == M.Waiting(w, key);
  }

  // ---- Where the loops begin ----

  /** The waiters on one upstream. */
  function OnUpstream(s: State, key: BusKey): set<HandleId>
  {
    set id | id in s.pending && s.pending[id].scenarioName == key.scenarioName && s.pending[id].entryId == key.entryId
  }

  /** How a thread gets into a loop: a sweep with every waiter there is, a requeue with the keys it was
      called with, a cancellation with every waiter on its upstream. */
  predicate Enters(s: State, th: Thread, s': State, th': Thread)
  {
    && (AtSweep(th') && !AtSweep(th) ==> th.SweepHasPending? && th' == Sweeping(s'.pending.Keys))
    && (AtRequeue(th') && !AtRequeue(th) ==> th.RequeueHasSubs? && th' == Requeueing(th.keys))
    && (AtCancel(th') && !AtCancel(th) ==> th.CancelCall? && th' == Cancelling(OnUpstream(s', th.upstream)))
  }

  lemma LockEnters(s: State, t: Tid, x: LockStep)
    requires LockEnabled(s, t, x)
    ensures Enters(s, s.Th(t), LockApply(s, t, x), LockApply(s, t, x).Th(t))
  {
  }

  lemma CallEnters(s: State, t: Tid, x: CallStep)
    requires CallEnabled(s, t, x)
    ensures Enters(s, s.Th(t), CallApply(s, t, x), CallApply(s, t, x).Th(t))
  {
  }

  lemma SweepEnters(s: State, t: Tid, x: SweepStep)
    requires SweepEnabled(s, t, x)
    ensures Enters(s, s.Th(t), SweepApply(s, t, x), SweepApply(s, t, x).Th(t))
  {
  }

  lemma RequeueEnters(s: State, t: Tid, x: RequeueStep)
    requires RequeueEnabled(s, t, x)
    ensures Enters(s, s.Th(t), RequeueApply(s, t, x), RequeueApply(s, t, x).Th(t))
  {
  }

  lemma RenameEnters(s: State, t: Tid, x: RenameStep)
    requires RenameEnabled(s, t, x)
    ensures Enters(s, s.Th(t), RenameApply(s, t, x), RenameApply(s, t, x).Th(t))
  {
  }

  lemma CancelEnters(s: State, t: Tid, x: CancelStep)
    requires CancelEnabled(s, t, x)
    ensures Enters(s, s.Th(t), CancelApply(s, t, x), CancelApply(s, t, x).Th(t))
  {
  }

  lemma StepEnters(s: State, t: Tid, a: Action, s': State)
    requires Step(s, t, a, s')
    ensures Enters(s, s.Th(t), s', s'.Th(t))
  {
    match a
    case Lock(x) => LockEnters(s, t, x);
    case Call(x) => CallEnters(s, t, x);
    case Sweep(x) => SweepEnters(s, t, x);
    case Requeue(x) => RequeueEnters(s, t, x);
    case Rename(x) => RenameEnters(s, t, x);
    case Cancel(x) => CancelEnters(s, t, x);
    case Put(x) => PutEnters(s, t, x);
    case StartInsert(p) => assert s'.Th(t) == InsertCall(p);
    case StartTrack(p) => assert s'.Th(t) == TrackCall(p);
    case Env(x) => assert s'.Th(t) == s.Th(t);
  }

  lemma PutEnters(s: State, t: Tid, x: PutStep)
    requires PutEnabled(s, t, x)
    ensures Enters(s, s.Th(t), PutApply(s, t, x), PutApply(s, t, x).Th(t))
  {
  }

  lemma RunEnters(states: seq<State>, k: nat, t: Tid)
    requires Run(states) && k + 1 < |states|
    ensures Enters(states[k], states[k].Th(t), states[k + 1], states[k + 1].Th(t))
  {
    assert StepsAt(states, k);
    var u: Tid, a :| Step(states[k], u, a, states[k + 1]);
    if t == u {
      StepEnters(states[k], t, a, states[k + 1]);
    } else {
      GateRenameExact.OthersStay(states[k], u, a, states[k + 1], t);
    }
  }

  /** Every sweep that is in its loop began it with all the waiters there were, and has been in it since:
      so `SweepIsAtomicAmongOthers` is about every sweep that ends its loop. */
  lemma {:induction false} SweepLoopBegins(states: seq<State>, k: nat, t: Tid) returns (i: nat)
    requires Run(states) && k < |states| && AtSweep(states[k].Th(t))
    ensures i <= k && states[i].Th(t) == Sweeping(states[i].pending.Keys)
    ensures forall m :: i <= m <= k ==> InSweepLoop(states, t, m)
    decreases k
  {
    RunEnters(states, k - 1, t);
    if AtSweep(states[k - 1].Th(t)) {
      i := SweepLoopBegins(states, k - 1, t);
    } else {
      i := k;
    }
  }

  /** The same of a requeue and the keys it was called with. */
  lemma {:induction false} RequeueLoopBegins(states: seq<State>, k: nat, t: Tid) returns (i: nat)
    requires Run(states) && k < |states| && AtRequeue(states[k].Th(t))
    ensures 0 < i <= k && states[i - 1].Th(t).RequeueHasSubs?
    ensures states[i].Th(t) == Requeueing(states[i - 1].Th(t).keys)
    ensures forall m :: i <= m <= k ==> InRequeueLoop(states, t, m)
    decreases k
  {
    RunEnters(states, k - 1, t);
    if AtRequeue(states[k - 1].Th(t)) {
      i := RequeueLoopBegins(states, k - 1, t);
    } else {
      i := k;
    }
  }

  /** And of a cancellation and the waiters on its upstream. */
  lemma {:induction false} CancelLoopBegins(states: seq<State>, k: nat, t: Tid) returns (i: nat)
    requires Run(states) && k < |states| && AtCancel(states[k].Th(t))
    ensures 0 < i <= k && states[i - 1].Th(t).CancelCall?
    ensures states[i].Th(t) == Cancelling(OnUpstream(states[i], states[i - 1].Th(t).upstream))
    ensures forall m :: i <= m <= k ==> InCancelLoop(states, t, m)
    decreases k
  {
    RunEnters(states, k - 1, t);
    if AtCancel(states[k - 1].Th(t)) {
      i := CancelLoopBegins(states, k - 1, t);
    } else {
      i := k;
    }
  }
}
