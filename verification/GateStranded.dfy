/** A stranded row is not out of reach for good: registering its key again and unregistering it takes
    the subscribers back to the pending map. */
module GateStranded {
  import opened Orders
  import opened GateModel
  import opened GateProtocol
  import opened GateRaces
  import opened GateBuses

  lemma Then(ys: seq<System>, es: seq<Event>, e: Event, y: System) returns (ys': seq<System>, es': seq<Event>)
    requires History(ys, es) && Happens(ys[|ys| - 1], e, y)
    ensures History(ys', es') && ys <= ys' && ys'[|ys'| - 1] == y
  {
    ys', es' := ys + [y], es + [e];
    forall k | 0 <= k < |es'| ensures HappensAt(ys', es', k) {
      if k < |es| {
        assert HappensAt(ys, es, k);
      }
    }
  }

  /** A downstream is tracked under a registered upstream, on a bus. */
  function Tracked(b: BusId): System
  {
    System(TRACKED.(buses := map[KEY := b]), {}, map[])
  }

  const WAITER := SUB.ToWaiter(KEY)
  const ENTERED := INIT.(buses := map[KEY := 0], stats := map[0 := Stats(0, RunState.Pending)], used := {"h"},
                         entered := map[0 := SUB], threads := map[0 := TrackCall(WAITER)])

  lemma Entered() returns (ys: seq<System>, es: seq<Event>)
    ensures History(ys, es) && ys[|ys| - 1] == System(ENTERED, {}, map[])
  {
    ys, es := [BEGIN], [];
    var s1 := INIT.(buses := map[KEY := 0]);
    ys, es := Then(ys, es, Event.Register(KEY, 0), System(s1, {}, map[]));
    var s2 := s1.(stats := map[0 := Stats(0, RunState.Pending)]);
    ys, es := Then(ys, es, Statement(0, Env(Spawn(0))), System(s2, {}, map[]));
    ys, es := Then(ys, es, Statement(0, StartTrack(WAITER)), System(ENTERED, {}, map[]));
  }

  lemma Lands(ys: seq<System>, es: seq<Event>) returns (ys': seq<System>, es': seq<Event>)
    requires History(ys, es) && ys[|ys| - 1] == System(ENTERED, {}, map[])
    ensures History(ys', es') && ys'[|ys'| - 1] == Tracked(0)
  {
    var s1 := ENTERED.(subsLock := Some(0), threads := map[0 := Tracking(WAITER)]);
    ys', es' := Then(ys, es, Statement(0, Lock(LockSubs)), System(s1, {}, map[]));
    assert WAITER.Key() == KEY && RowOf(s1, KEY) + [WAITER.ToSubscriber()] == [SUB];
    var s2 := s1.(subs := map[KEY := [SUB]], threads := map[0 := HoldsSubs]);
    ys', es' := Then(ys', es', Statement(0, Put(PushRow)), System(s2, {}, map[]));
    ys', es' := Then(ys', es', Statement(0, Lock(Unlock)), Tracked(0));
  }

  /** The upstream's bus has been removed by thread 2, which still holds the lock. */
  const REMOVED := System(TRACKED, {}, map[2 := Retiring([], [KEY])])

  lemma Removes(ys: seq<System>, es: seq<Event>, b: BusId) returns (ys': seq<System>, es': seq<Event>)
    requires History(ys, es) && ys[|ys| - 1] == Tracked(b)
    ensures History(ys', es') && ys <= ys' && ys'[|ys'| - 1] == REMOVED
  {
    var y1 := Tracked(b).(retiring := map[2 := Retiring([KEY], [])]);
    ys', es' := Then(ys, es, BeginRetire(2, [KEY]), y1);
    assert [KEY][1..] == [] && map[KEY := b] - {KEY} == map[] && [] + [KEY] == [KEY];
    ys', es' := Then(ys', es', RetireOne(2), REMOVED);
  }

  const LEFT := System(TRACKED, {}, map[])

  lemma LeftIsStranded()
    ensures Stranded(LEFT, KEY)
  {
    forall t: Tid ensures !Owes(LEFT, t, KEY) {
    }
  }

  /** Thread 2 panics, and the upstream registers again. */
  lemma PanicsAndReturns(ys: seq<System>, es: seq<Event>) returns (ys': seq<System>, es': seq<Event>, k: nat)
    requires History(ys, es) && ys[|ys| - 1] == REMOVED
    ensures History(ys', es') && ys'[|ys'| - 1] == Tracked(1) && k < |ys'| && ys'[k] == LEFT
  {
    assert map[2 := Retiring([], [KEY])] - {2} == map[];
    ys', es' := Then(ys, es, RetirePanics(2), LEFT);
    k := |ys'| - 1;
    ys', es' := Then(ys', es', Event.Register(KEY, 1), Tracked(1));
  }

  const CALLED := TRACKED.(threads := map[0 := Idle, 2 := RequeueCall([KEY])])
  const LOCKED := TRACKED.(subsLock := Some(2), pendingLock := Some(2),
                           threads := map[0 := Idle, 2 := Requeueing([KEY])])

  const HAS_ROWS := TRACKED.(subsLock := Some(2), threads := map[0 := Idle, 2 := RequeueHasSubs([KEY])])

  lemma GoesOn(ys: seq<System>, es: seq<Event>) returns (ys': seq<System>, es': seq<Event>)
    requires History(ys, es) && ys[|ys| - 1] == REMOVED
    ensures History(ys', es') && ys <= ys' && ys'[|ys'| - 1] == System(CALLED, {}, map[])
  {
    assert map[2 := Retiring([], [KEY])] - {2} == map[];
    ys', es' := Then(ys, es, EndRetire(2), System(CALLED, {}, map[]));
  }

  lemma LocksRows(ys: seq<System>, es: seq<Event>) returns (ys': seq<System>, es': seq<Event>)
    requires History(ys, es) && ys[|ys| - 1] == System(CALLED, {}, map[])
    ensures History(ys', es') && ys <= ys' && ys'[|ys'| - 1] == System(HAS_ROWS, {}, map[])
  {
    ys', es' := Then(ys, es, Statement(2, Lock(LockSubs)), System(HAS_ROWS, {}, map[]));
  }

  lemma LocksBoth(ys: seq<System>, es: seq<Event>) returns (ys': seq<System>, es': seq<Event>)
    requires History(ys, es) && ys[|ys| - 1] == System(HAS_ROWS, {}, map[])
    ensures History(ys', es') && ys <= ys' && ys'[|ys'| - 1] == System(LOCKED, {}, map[])
  {
    ys', es' := Then(ys, es, Statement(2, Lock(LockPending)), System(LOCKED, {}, map[]));
  }

  const BACK := LOCKED.(subs := map[], pending := map["h" := WAITER],
                        threads := map[0 := Idle, 2 := RequeueingRow([], KEY, [])])

  const EMPTIED := LOCKED.(subs := map[], threads := map[0 := Idle, 2 := RequeueingRow([], KEY, [SUB])])

  lemma TakesRow(ys: seq<System>, es: seq<Event>) returns (ys': seq<System>, es': seq<Event>)
    requires History(ys, es) && ys[|ys| - 1] == System(LOCKED, {}, map[])
    ensures History(ys', es') && ys <= ys' && ys'[|ys'| - 1] == System(EMPTIED, {}, map[])
  {
    assert [KEY][1..] == [] && LOCKED.subs - {KEY} == map[];
    ys', es' := Then(ys, es, Statement(2, Requeue(TakeRow)), System(EMPTIED, {}, map[]));
  }

  lemma PutsBack(ys: seq<System>, es: seq<Event>) returns (ys': seq<System>, es': seq<Event>)
    requires History(ys, es) && ys[|ys| - 1] == System(EMPTIED, {}, map[])
    ensures History(ys', es') && ys <= ys' && ys'[|ys'| - 1] == System(BACK, {}, map[])
  {
    assert [SUB][1..] == [];
    ys', es' := Then(ys, es, Statement(2, Requeue(RequeueHead)), System(BACK, {}, map[]));
  }

  /** There is a run in which a row is stranded and its subscriber waits again in the end. */
  lemma StrandedCanReturn() returns (ys: seq<System>, es: seq<Event>, k: nat)
    ensures History(ys, es) && k < |ys| && Stranded(ys[k], KEY)
    ensures var s := ys[|ys| - 1].s; "h" in s.pending && KEY !in s.subs
  {
    ys, es := Entered();
    ys, es := Lands(ys, es);
    ys, es := Removes(ys, es, 0);
    ys, es, k := PanicsAndReturns(ys, es);
    LeftIsStranded();
    ys, es := ReturnsFrom(ys, es, k);
  }

  lemma ReturnsFrom(ys: seq<System>, es: seq<Event>, k: nat) returns (ys': seq<System>, es': seq<Event>)
    requires History(ys, es) && ys[|ys| - 1] == Tracked(1) && k < |ys|
    ensures History(ys', es') && k < |ys'| && ys'[k] == ys[k] && ys'[|ys'| - 1] == System(BACK, {}, map[])
  {
    ys', es' := Removes(ys, es, 1);
    ys', es' := GoesOn(ys', es');
    ys', es' := LocksRows(ys', es');
    ys', es' := LocksBoth(ys', es');
    ys', es' := TakesRow(ys', es');
    ys', es' := PutsBack(ys', es');
  }
}
