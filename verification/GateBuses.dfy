/** The concurrent registry with its third map: `register` and the first half of
    `unregister_entries` as steps under the lock of the buses, which a sweep holds for reading all
    along. It says when a row of subscribers is left under a key that has no bus. */
module GateBuses {
  import opened Orders
  import opened GateModel
  import opened GateProtocol
  import opened GateProtocolProof
  import GateAtomicity
  import GateRenameExact

  /** An `unregister_entries` that holds the lock of the buses: the keys it has still to remove, and
      those it has removed. */
  datatype Retiring = Retiring(todo: seq<BusKey>, removed: seq<BusKey>)

  /** The registry, the threads that read the buses, and the one, if any, that writes them. */
  datatype System = System(s: State, readers: set<Tid>, retiring: map<Tid, Retiring>)

  const BEGIN := System(INIT, {}, map[])

  datatype Event =
    | Statement(t: Tid, a: Action)
    | Register(key: BusKey, b: BusId)
    | BeginSweep(t: Tid)
    | BeginRetire(t: Tid, keys: seq<BusKey>) | RetireOne(t: Tid) | EndRetire(t: Tid) | RetirePanics(t: Tid)

  /** A statement of the two other maps: not one that changes the buses or needs their lock. */
  predicate Elsewhere(a: Action)
  {
    !(a.Env? && a.env.SetBuses?) && !(a.Call? && (a.call.StartSweep? || a.call.StartRequeue?))
  }

  predicate Happens(y: System, e: Event, y': System)
  {
    match e
    case Statement(t, a) =>
      && t !in y.retiring && Elsewhere(a) && Step(y.s, t, a, y'.s)
      && y' == System(y'.s, if y'.s.Th(t).Idle? then y.readers - {t} else y.readers, y.retiring)
    case Register(key, b) =>
      && y.readers == {} && y.retiring == map[] && key !in y.s.buses
      && y' == y.(s := y.s.(buses := y.s.buses[key := b]))
    case BeginSweep(t) =>
      && y.retiring == map[] && y.s.Th(t).Idle?
      && y' == y.(s := y.s.Set(t, SweepCall), readers := y.readers + {t})
    case BeginRetire(t, keys) =>
      && y.readers == {} && y.retiring == map[] && y.s.Th(t).Idle? && (forall k :: k in keys ==> k in y.s.buses)
      && y' == y.(retiring := map[t := Retiring(keys, [])])
    case RetireOne(t) =>
      && t in y.retiring && y.retiring[t].todo != []
      && var r := y.retiring[t];
         y' == if r.todo[0] in y.s.buses
               then y.(s := y.s.(buses := y.s.buses - {r.todo[0]}),
                       retiring := y.retiring[t := Retiring(r.todo[1..], r.removed + [r.todo[0]])])
               else y.(retiring := y.retiring[t := Retiring(r.todo[1..], r.removed)])
    case EndRetire(t) =>
      && t in y.retiring && y.retiring[t].todo == []
      && y' == y.(s := y.s.Set(t, RequeueCall(y.retiring[t].removed)), retiring := y.retiring - {t})
    case RetirePanics(t) => t in y.retiring && y' == y.(retiring := y.retiring - {t})
  }

  // ---- Who still has rows to requeue ----

  function OwedBy(th: Thread): seq<BusKey>
  {
    match th
    case RequeueCall(keys) => keys
    case RequeueHasSubs(keys) => keys
    case Requeueing(keys) => keys
    case RequeueingRow(keys, _, _) => keys
    case _ => []
  }

  /** Thread `t` has removed the bus of `key` and has not come to its row yet. */
  predicate Owes(y: System, t: Tid, key: BusKey)
  {
    (t in y.retiring && key in y.retiring[t].removed) || key in OwedBy(y.s.Th(t))
  }

  ghost predicate Owed(y: System, key: BusKey)
  {
    exists t: Tid :: Owes(y, t, key)
  }

  /** A row under a key without a bus, and nobody on the way to it. */
  ghost predicate Stranded(y: System, key: BusKey)
  {
    key in y.s.subs && key !in y.s.buses && !Owed(y, key)
  }

  // ---- The invariant ----

  /** A sweep reads the buses, so the bus of the waiter it promotes stays. */
  predicate ReaderOk(y: System, t: Tid)
  {
    var th := y.s.Th(t);
    && (InSweep(th) ==> t in y.readers)
    && (th.Promoting? ==> th.entry.Key() in y.s.buses)
    && (t in y.retiring ==> th.Idle?)
  }

  ghost predicate SystemOk(y: System)
  {
    && (forall t: Tid :: ReaderOk(y, t))
    && (y.readers != {} ==> y.retiring == map[])
    && (forall t, u :: t in y.retiring && u in y.retiring ==> t == u)
  }

  /** What a statement does to the keys of the rows, and to what its thread owes. */
  predicate KeysAfter(s: State, t: Tid, a: Action, s': State, key: BusKey)
  {
    && (key in s'.subs <==>
          || (key in s.subs && !(a == Requeue(TakeRow) && s.Th(t).Requeueing? && s.Th(t).keys != []
                                 && s.Th(t).keys[0] == key))
          || (a == Put(PushRow) && s.Th(t).Tracking? && s.Th(t).p.Key() == key)
          || (a == Sweep(PushEntry) && s.Th(t).Promoting? && s.Th(t).entry.Key() == key))
    && OwedBy(s'.Th(t)) == (if a == Lock(Panic) then []
                            else if a == Requeue(TakeRow) && OwedBy(s.Th(t)) != [] then OwedBy(s.Th(t))[1..]
                            else OwedBy(s.Th(t)))
    && s'.buses == s.buses
  }

  lemma EnvKeys(s: State, t: Tid, x: EnvStep, key: BusKey)
    requires !x.SetBuses?
    ensures KeysAfter(s, t, Env(x), EnvApply(s, x), key)
  {
  }

  lemma EnterKeys(s: State, t: Tid, p: Waiter, th: Thread, a: Action, key: BusKey)
    requires s.Th(t).Idle? && (th == InsertCall(p) || th == TrackCall(p)) && (a.StartInsert? || a.StartTrack?)
    ensures KeysAfter(s, t, a, Enter(s, t, p, th), key)
  {
  }

  lemma CallKeys(s: State, t: Tid, x: CallStep, key: BusKey)
    requires CallEnabled(s, t, x) && !x.StartRequeue?
    ensures KeysAfter(s, t, Call(x), CallApply(s, t, x), key)
  {
  }

  lemma PutKeys(s: State, t: Tid, x: PutStep, key: BusKey)
    requires PutEnabled(s, t, x)
    ensures KeysAfter(s, t, Put(x), PutApply(s, t, x), key)
  {
  }

  lemma LockKeys(s: State, t: Tid, x: LockStep, key: BusKey)
    requires LockEnabled(s, t, x)
    ensures KeysAfter(s, t, Lock(x), LockApply(s, t, x), key)
  {
  }

  lemma SweepKeys(s: State, t: Tid, x: SweepStep, key: BusKey)
    requires SweepEnabled(s, t, x)
    ensures KeysAfter(s, t, Sweep(x), SweepApply(s, t, x), key)
  {
  }

  lemma RequeueKeysAfter(s: State, t: Tid, x: RequeueStep, key: BusKey)
    requires RequeueEnabled(s, t, x)
    ensures KeysAfter(s, t, Requeue(x), RequeueApply(s, t, x), key)
  {
    match x
    case TakeRow => TakeRowKeys(s, t, key);
    case RequeueHead => HeadKeys(s, t, key);
    case EndRow =>
    case EndRequeue =>
  }

  lemma TakeRowKeys(s: State, t: Tid, key: BusKey)
    requires RequeueEnabled(s, t, TakeRow)
    ensures KeysAfter(s, t, Requeue(TakeRow), RequeueApply(s, t, TakeRow), key)
  {
  }

  lemma HeadKeys(s: State, t: Tid, key: BusKey)
    requires RequeueEnabled(s, t, RequeueHead)
    ensures KeysAfter(s, t, Requeue(RequeueHead), RequeueApply(s, t, RequeueHead), key)
  {
  }

  lemma RenameKeys(s: State, t: Tid, x: RenameStep, key: BusKey)
    requires RenameEnabled(s, t, x)
    ensures KeysAfter(s, t, Rename(x), RenameApply(s, t, x), key)
  {
  }

  lemma CancelKeys(s: State, t: Tid, x: CancelStep, key: BusKey)
    requires CancelEnabled(s, t, x)
    ensures KeysAfter(s, t, Cancel(x), CancelApply(s, t, x), key)
  {
  }

  lemma StatementKeys(s: State, t: Tid, a: Action, s': State, key: BusKey)
    requires Step(s, t, a, s') && Elsewhere(a)
    ensures KeysAfter(s, t, a, s', key)
  {
    match a
    case Env(x) => EnvKeys(s, t, x, key);
    case StartInsert(p) => EnterKeys(s, t, p, InsertCall(p), a, key);
    case StartTrack(p) => EnterKeys(s, t, p, TrackCall(p), a, key);
    case Call(x) => CallKeys(s, t, x, key);
    case Lock(x) => LockKeys(s, t, x, key);
    case Put(x) => PutKeys(s, t, x, key);
    case Sweep(x) => SweepKeys(s, t, x, key);
    case Requeue(x) => RequeueKeysAfter(s, t, x, key);
    case Rename(x) => RenameKeys(s, t, x, key);
    case Cancel(x) => CancelKeys(s, t, x, key);
  }

  lemma StatementOthers(s: State, t: Tid, a: Action, s': State, u: Tid)
    requires Step(s, t, a, s') && Elsewhere(a) && u != t
    ensures s'.Th(u) == s.Th(u)
  {
    GateRenameExact.StepLocal(s, t, a, s', u);
  }

  // ---- Every event keeps the invariant ----

  predicate InSweep(th: Thread) { th.SweepCall? || th.SweepHasPending? || AtSweep(th) }

  /** A thread is in a sweep only if it was, and the waiter it promotes has a bus. */
  predicate SweepsOn(s: State, th: Thread, th': Thread)
  {
    && (InSweep(th') ==> InSweep(th))
    && (th'.Promoting? ==> (th.Promoting? && th'.entry.Key() == th.entry.Key()) || th'.entry.Key() in s.buses)
  }

  lemma SweepSweepsOn(s: State, t: Tid, x: SweepStep)
    requires SweepEnabled(s, t, x)
    ensures SweepsOn(s, s.Th(t), SweepApply(s, t, x).Th(t))
  {
  }

  lemma LockSweepsOn(s: State, t: Tid, x: LockStep)
    requires LockEnabled(s, t, x)
    ensures SweepsOn(s, s.Th(t), LockApply(s, t, x).Th(t))
  {
  }

  lemma RequeueSweepsOn(s: State, t: Tid, x: RequeueStep)
    requires RequeueEnabled(s, t, x)
    ensures SweepsOn(s, s.Th(t), RequeueApply(s, t, x).Th(t))
  {
    match x
    case TakeRow =>
    case RequeueHead =>
    case EndRow =>
    case EndRequeue =>
  }

  lemma RenameSweepsOn(s: State, t: Tid, x: RenameStep)
    requires RenameEnabled(s, t, x)
    ensures SweepsOn(s, s.Th(t), RenameApply(s, t, x).Th(t))
  {
  }

  lemma CancelSweepsOn(s: State, t: Tid, x: CancelStep)
    requires CancelEnabled(s, t, x)
    ensures SweepsOn(s, s.Th(t), CancelApply(s, t, x).Th(t))
  {
  }

  lemma CallSweepsOn(s: State, t: Tid, x: CallStep)
    requires CallEnabled(s, t, x) && !x.StartSweep?
    ensures SweepsOn(s, s.Th(t), CallApply(s, t, x).Th(t))
  {
  }

  lemma PutSweepsOn(s: State, t: Tid, x: PutStep)
    requires PutEnabled(s, t, x)
    ensures SweepsOn(s, s.Th(t), PutApply(s, t, x).Th(t))
  {
  }

  lemma EnterSweepsOn(s: State, t: Tid, p: Waiter, th: Thread)
    requires th == InsertCall(p) || th == TrackCall(p)
    ensures SweepsOn(s, s.Th(t), Enter(s, t, p, th).Th(t))
  {
  }

  lemma StatementSweepsOn(s: State, t: Tid, a: Action, s': State)
    requires Step(s, t, a, s') && Elsewhere(a)
    ensures SweepsOn(s, s.Th(t), s'.Th(t))
  {
    match a
    case Env(x) => assert s'.threads == s.threads;
    case StartInsert(p) => EnterSweepsOn(s, t, p, InsertCall(p));
    case StartTrack(p) => EnterSweepsOn(s, t, p, TrackCall(p));
    case Call(x) => CallSweepsOn(s, t, x);
    case Put(x) => PutSweepsOn(s, t, x);
    case Lock(x) => LockSweepsOn(s, t, x);
    case Sweep(x) => SweepSweepsOn(s, t, x);
    case Requeue(x) => RequeueSweepsOn(s, t, x);
    case Rename(x) => RenameSweepsOn(s, t, x);
    case Cancel(x) => CancelSweepsOn(s, t, x);
  }

  lemma StatementOk(y: System, t: Tid, a: Action, y': System)
    requires SystemOk(y) && Happens(y, Statement(t, a), y')
    ensures SystemOk(y')
  {
    forall u: Tid ensures ReaderOk(y', u) {
      assert ReaderOk(y, u);
      StatementKeys(y.s, t, a, y'.s, BusKey("", ""));
      if u == t {
        StatementSweepsOn(y.s, t, a, y'.s);
      } else {
        StatementOthers(y.s, t, a, y'.s, u);
      }
    }
  }

  lemma EventOk(y: System, e: Event, y': System)
    requires SystemOk(y) && Happens(y, e, y')
    ensures SystemOk(y')
  {
    if e.Statement? {
      StatementOk(y, e.t, e.a, y');
    } else {
      forall u: Tid ensures ReaderOk(y', u) {
        assert ReaderOk(y, u);
      }
    }
  }

  // ---- What strands a row ----

  /** Nobody but `t` owes it. */
  ghost predicate OnlyOwer(y: System, t: Tid, key: BusKey)
  {
    Owes(y, t, key) && forall u: Tid :: Owes(y, u, key) ==> u == t
  }

  /** A panic of the only unregistration on its way to the row, or a `track_subscriber` that lands
      where there is no bus and no unregistration to come. */
  ghost predicate Strands(y: System, e: Event, key: BusKey)
  {
    match e
    case RetirePanics(t) => key in y.s.subs && key !in y.s.buses && OnlyOwer(y, t, key)
    case Statement(t, Lock(Panic)) => key in y.s.subs && key !in y.s.buses && OnlyOwer(y, t, key)
    case Statement(t, Put(PushRow)) =>
      y.s.Th(t).Tracking? && y.s.Th(t).p.Key() == key && key !in y.s.subs && key !in y.s.buses && !Owed(y, key)
    case _ => false
  }

  lemma OwesElse(y: System, e: Event, y': System, t: Tid, key: BusKey)
    requires Happens(y, e, y') && !e.Register? && e.t == t
    ensures forall u: Tid :: u != t ==> Owes(y', u, key) == Owes(y, u, key)
  {
    forall u: Tid | u != t ensures Owes(y', u, key) == Owes(y, u, key) {
      if e.Statement? {
        StatementOthers(y.s, t, e.a, y'.s, u);
      }
    }
  }

  /** Owed by `t`, or by another. */
  lemma OwedSplit(y: System, t: Tid, key: BusKey)
    ensures Owed(y, key) <==> Owes(y, t, key) || exists u: Tid :: u != t && Owes(y, u, key)
  {
  }

  lemma StatementStrands(y: System, t: Tid, a: Action, y': System, key: BusKey)
    requires SystemOk(y) && Happens(y, Statement(t, a), y')
    ensures !Stranded(y, key) && Stranded(y', key) <==> Strands(y, Statement(t, a), key)
    ensures Stranded(y, key) ==> Stranded(y', key)
  {
    StatementKeys(y.s, t, a, y'.s, key);
    OwesElse(y, Statement(t, a), y', t, key);
    OwedSplit(y, t, key);
    OwedSplit(y', t, key);
    assert ReaderOk(y, t);
    if a == Requeue(TakeRow) {
      assert OwedBy(y.s.Th(t)) == y.s.Th(t).keys;
    }
  }

  lemma EventStrands(y: System, e: Event, y': System, key: BusKey)
    requires SystemOk(y) && Happens(y, e, y')
    ensures !Stranded(y, key) && Stranded(y', key) <==> Strands(y, e, key)
    ensures Stranded(y, key) ==> (Stranded(y', key) <==> !(e.Register? && e.key == key))
  {
    match e
    case Statement(t, a) => StatementStrands(y, t, a, y', key);
    case Register(k, b) => RegisterStrands(y, e, y', key);
    case BeginSweep(t) => OtherStrands(y, e, y', key);
    case BeginRetire(t, keys) => OtherStrands(y, e, y', key);
    case RetireOne(t) => OtherStrands(y, e, y', key);
    case EndRetire(t) => OtherStrands(y, e, y', key);
    case RetirePanics(t) => OtherStrands(y, e, y', key);
  }

  lemma RegisterStrands(y: System, e: Event, y': System, key: BusKey)
    requires Happens(y, e, y') && e.Register?
    ensures !Stranded(y', key) || Stranded(y, key)
    ensures Stranded(y, key) ==> (Stranded(y', key) <==> e.key != key)
  {
    forall u: Tid ensures Owes(y', u, key) == Owes(y, u, key) {
    }
  }

  lemma OtherStrands(y: System, e: Event, y': System, key: BusKey)
    requires SystemOk(y) && Happens(y, e, y') && !e.Register? && !e.Statement?
    ensures !Stranded(y, key) && Stranded(y', key) <==> Strands(y, e, key)
    ensures Stranded(y, key) ==> Stranded(y', key)
  {
    OwesElse(y, e, y', e.t, key);
    OwedSplit(y, e.t, key);
    OwedSplit(y', e.t, key);
    assert ReaderOk(y, e.t);
  }

  // ---- Over whole runs ----

  ghost predicate History(ys: seq<System>, es: seq<Event>)
  {
    && |ys| == |es| + 1 && ys[0] == BEGIN
    && forall k :: 0 <= k < |es| ==> HappensAt(ys, es, k)
  }

  predicate HappensAt(ys: seq<System>, es: seq<Event>, k: nat)
  {
    k < |es| && k + 1 < |ys| && Happens(ys[k], es[k], ys[k + 1])
  }

  lemma {:induction false} HistoryOk(ys: seq<System>, es: seq<Event>, k: nat)
    requires History(ys, es) && k < |ys|
    ensures SystemOk(ys[k])
  {
    if k > 0 {
      HistoryOk(ys, es, k - 1);
      assert HappensAt(ys, es, k - 1);
      EventOk(ys[k - 1], es[k - 1], ys[k]);
    }
  }

  /** While a sweep holds the lock of the buses, nobody changes them: it sees one bus map from beginning
      to end. */
  lemma {:induction false} SweepSeesOneBusMap(ys: seq<System>, es: seq<Event>, i: nat, k: nat)
    requires History(ys, es) && i <= k < |ys| && forall m :: i <= m < k ==> Reads(ys, m)
    ensures ys[k].s.buses == ys[i].s.buses
    decreases k
  {
    if i < k {
      SweepSeesOneBusMap(ys, es, i, k - 1);
      assert HappensAt(ys, es, k - 1) && Reads(ys, k - 1);
      HistoryOk(ys, es, k - 1);
      ReadersKeepBuses(ys[k - 1], es[k - 1], ys[k]);
    }
  }

  predicate Reads(ys: seq<System>, m: nat)
  {
    m < |ys| && ys[m].readers != {}
  }

  lemma ReadersKeepBuses(y: System, e: Event, y': System)
    requires Happens(y, e, y') && SystemOk(y) && y.readers != {}
    ensures y'.s.buses == y.s.buses
  {
    if e.Statement? {
      StatementBuses(y.s, e.t, e.a, y'.s);
    }
  }

  lemma StatementBuses(s: State, t: Tid, a: Action, s': State)
    requires Step(s, t, a, s') && Elsewhere(a)
    ensures s'.buses == s.buses
  {
    match a
    case Call(x) => GateAtomicity.CallKeeps(s, t, x);
    case Lock(x) => GateAtomicity.LockKeeps(s, t, x);
    case Sweep(x) => SweepBuses(s, t, x);
    case Requeue(x) => GateAtomicity.RequeueKeeps(s, t, x);
    case Rename(x) => GateAtomicity.RenameKeeps(s, t, x);
    case Cancel(x) => CancelBuses(s, t, x);
    case _ => OutsideBuses(s, t, a, s');
  }

  lemma SweepBuses(s: State, t: Tid, x: SweepStep)
    requires SweepEnabled(s, t, x)
    ensures SweepApply(s, t, x).buses == s.buses
  {
  }

  lemma CancelBuses(s: State, t: Tid, x: CancelStep)
    requires CancelEnabled(s, t, x)
    ensures CancelApply(s, t, x).buses == s.buses
  {
  }

  lemma OutsideBuses(s: State, t: Tid, a: Action, s': State)
    requires Step(s, t, a, s') && Elsewhere(a) && (a.Env? || a.StartInsert? || a.StartTrack? || a.Put?)
    ensures s'.buses == s.buses
  {
  }

  /** Event `m` stranded the row of `key`, and nobody registered the key from then to `k`. */
  ghost predicate StrandedSince(ys: seq<System>, es: seq<Event>, key: BusKey, m: nat, k: nat)
    requires |ys| == |es| + 1 && k < |ys|
  {
    m < k && Strands(ys[m], es[m], key) && forall j :: m < j < k ==> !Registers(es, j, key)
  }

  predicate Registers(es: seq<Event>, j: nat, key: BusKey)
  {
    j < |es| && es[j].Register? && es[j].key == key
  }

  /** In every run a row is stranded exactly when such a panic or such a late track has stranded it and
      its key has not been registered since: no sweep and no unregistration ever comes to it. */
  lemma {:induction false} StrandedExactly(ys: seq<System>, es: seq<Event>, key: BusKey, k: nat)
    requires History(ys, es) && k < |ys|
    ensures Stranded(ys[k], key) <==> exists m: nat :: StrandedSince(ys, es, key, m, k)
  {
    if k > 0 {
      StrandedExactly(ys, es, key, k - 1);
      HistoryOk(ys, es, k - 1);
      assert HappensAt(ys, es, k - 1);
      EventStrands(ys[k - 1], es[k - 1], ys[k], key);
      if Stranded(ys[k], key) {
        if Stranded(ys[k - 1], key) {
          var m: nat :| StrandedSince(ys, es, key, m, k - 1);
          assert StrandedSince(ys, es, key, m, k);
        } else {
          assert StrandedSince(ys, es, key, k - 1, k);
        }
      }
      if m: nat :| StrandedSince(ys, es, key, m, k) {
        if m < k - 1 {
          assert StrandedSince(ys, es, key, m, k - 1);
          assert !Registers(es, k - 1, key);
        }
      }
    }
  }

  /** So without panics on the way to a row and without late tracks, a row whose key has no bus is
      always one an unregistration is on its way to. */
  lemma RowsHaveBuses(ys: seq<System>, es: seq<Event>, key: BusKey, k: nat)
    requires History(ys, es) && k < |ys| && forall m :: 0 <= m < |es| ==> !Strands(ys[m], es[m], key)
    ensures key in ys[k].s.subs ==> key in ys[k].s.buses || Owed(ys[k], key)
  {
    StrandedExactly(ys, es, key, k);
  }

  // ---- The invariant of the other two maps holds here too ----

  lemma RegisterIsAStep(y: System, e: Event, y': System)
    requires SystemOk(y) && Happens(y, e, y') && !e.Statement?
    ensures y'.s == y.s || StepsTo(y.s, y'.s)
  {
    match e
    case Register(_, _) => assert Step(y.s, 0, Env(SetBuses(y'.s.buses)), y'.s);
    case BeginSweep(t) => assert Step(y.s, t, Call(StartSweep), y'.s);
    case BeginRetire(_, _) =>
    case RetireOne(t) =>
      if y'.s != y.s {
        assert Step(y.s, 0, Env(SetBuses(y'.s.buses)), y'.s);
      }
    case EndRetire(t) =>
      assert ReaderOk(y, t);
      assert Step(y.s, t, Call(StartRequeue(y.retiring[t].removed)), y'.s);
    case RetirePanics(t) =>
  }

  lemma {:induction false} HistoryIsConsistent(ys: seq<System>, es: seq<Event>, k: nat)
    requires History(ys, es) && k < |ys|
    ensures Inv(ys[k].s) && OnePlace(ys[k].s) && CountsMatch(ys[k].s)
  {
    if k == 0 {
      EveryRunIsConsistent([INIT], 0);
    } else {
      HistoryIsConsistent(ys, es, k - 1);
      assert HappensAt(ys, es, k - 1);
      HistoryOk(ys, es, k - 1);
      EventInv(ys[k - 1], es[k - 1], ys[k]);
    }
    MapsAreOnePlace(ys[k].s);
    MapsCountsMatch(ys[k].s);
  }

  lemma EventInv(y: System, e: Event, y': System)
    requires SystemOk(y) && Inv(y.s) && Happens(y, e, y')
    ensures Inv(y'.s)
  {
    if e.Statement? {
      StepInv(y.s, e.t, e.a, y'.s);
    } else {
      RegisterIsAStep(y, e, y');
      if y'.s != y.s {
        StepsToInv(y.s, y'.s);
      }
    }
  }
}
