/** What the concurrent registry does not promise: a rename is two critical sections, and a
    record that changes map between them keeps its old id. */
module GateRaces {
  import opened Orders
  import opened GateModel
  import opened GateProtocol
  import opened GateProtocolProof

  lemma Extend(run: seq<State>, t: Tid, a: Action, s': State) returns (longer: seq<State>)
    requires Run(run) && Step(run[|run| - 1], t, a, s')
    ensures Run(longer) && longer[|longer| - 1] == s'
  {
    longer := run + [s'];
    forall i | 0 <= i < |longer| - 1 ensures StepsAt(longer, i) {
      if i == |run| - 1 {
        assert Step(longer[i], t, a, longer[i + 1]);
      } else {
        assert StepsAt(run, i);
      }
    }
  }

  const KEY := BusKey("up", "m")
  const SUB := Subscriber("h", 0, 0, WhileSpec(GreaterThan, 0.0), Hold, 0, 0)

  /** A downstream is tracked. */
  const TRACKED := State(map[KEY := [SUB]], map[], map[], map[0 := Stats(0, RunState.Pending)], None, None,
                         map[0 := Idle], {"h"}, map[0 := SUB])

  lemma Track() returns (run: seq<State>)
    ensures Run(run) && run[|run| - 1] == TRACKED
  {
    run := [INIT];
    var p := SUB.ToWaiter(KEY);
    var s1 := INIT.(stats := map[0 := Stats(0, RunState.Pending)]);
    run := Extend(run, 0, Env(Spawn(0)), s1);
    var s2 := s1.(used := {"h"}, entered := map[0 := SUB], threads := map[0 := TrackCall(p)]);
    run := Extend(run, 0, StartTrack(p), s2);
    var s3 := s2.(subsLock := Some(0), threads := map[0 := Tracking(p)]);
    run := Extend(run, 0, Lock(LockSubs), s3);
    assert p.Key() == KEY && RowOf(s3, KEY) + [p.ToSubscriber()] == [SUB];
    var s4 := s3.(subs := map[KEY := [SUB]], threads := map[0 := HoldsSubs]);
    run := Extend(run, 0, Put(PushRow), s4);
    run := Extend(run, 0, Lock(Unlock), TRACKED);
  }

  /** Its rename has looked at the pending map and not found it there. */
  const BETWEEN := TRACKED.(used := {"h", "n"}, threads := map[0 := Idle, 1 := RenameBetween("h", "n", false, false)])

  lemma RenameHalf(before: seq<State>) returns (run: seq<State>)
    requires Run(before) && before[|before| - 1] == TRACKED
    ensures Run(run) && run[|run| - 1] == BETWEEN
  {
    var s1 := TRACKED.(used := {"h", "n"}, threads := map[0 := Idle, 1 := RenameCall("h", "n")]);
    run := Extend(before, 1, Call(StartRename("h", "n")), s1);
    run := RenameLooked(run);
  }

  lemma RenameLooked(before: seq<State>) returns (run: seq<State>)
    requires Run(before)
    requires before[|before| - 1] ==
             TRACKED.(used := {"h", "n"}, threads := map[0 := Idle, 1 := RenameCall("h", "n")])
    ensures Run(run) && run[|run| - 1] == BETWEEN
  {
    var s2 := before[|before| - 1].(pendingLock := Some(1), threads := map[0 := Idle, 1 := RenamingPending("h", "n")]);
    run := Extend(before, 1, Lock(LockPending), s2);
    run := RenameAbsentHere(run);
  }

  lemma RenameAbsentHere(before: seq<State>) returns (run: seq<State>)
    requires Run(before)
    requires before[|before| - 1] ==
             BETWEEN.(pendingLock := Some(1), threads := map[0 := Idle, 1 := RenamingPending("h", "n")])
    ensures Run(run) && run[|run| - 1] == BETWEEN
  {
    var s3 := BETWEEN.(pendingLock := Some(1), threads := map[0 := Idle, 1 := RenameBetween("h", "n", false, true)]);
    run := Extend(before, 1, Rename(RenameAbsent), s3);
    run := Extend(run, 1, Lock(Unlock), BETWEEN);
  }

  /** Meanwhile its upstream leaves, and it goes back to the pending map. */
  const REQUEUED := BETWEEN.(subs := map[], pending := map["h" := SUB.ToWaiter(KEY)],
                             threads := BETWEEN.threads[2 := Idle])

  const REQUEUEING := BETWEEN.(subsLock := Some(2), pendingLock := Some(2),
                               threads := BETWEEN.threads[2 := Requeueing([KEY])])

  lemma RequeueBetween(before: seq<State>) returns (run: seq<State>)
    requires Run(before) && before[|before| - 1] == BETWEEN
    ensures Run(run) && run[|run| - 1] == REQUEUED
  {
    run := Extend(before, 2, Call(StartRequeue([KEY])), BETWEEN.(threads := BETWEEN.threads[2 := RequeueCall([KEY])]));
    run := RequeueLocks(run);
    run := RequeueMoved(run);
    run := RequeueEnds(run);
  }

  lemma RequeueLocks(before: seq<State>) returns (run: seq<State>)
    requires Run(before) && before[|before| - 1] == BETWEEN.(threads := BETWEEN.threads[2 := RequeueCall([KEY])])
    ensures Run(run) && run[|run| - 1] == REQUEUEING
  {
    run := RequeueHasRows(before);
    run := Extend(run, 2, Lock(LockPending), REQUEUEING);
  }

  lemma RequeueHasRows(before: seq<State>) returns (run: seq<State>)
    requires Run(before) && before[|before| - 1] == BETWEEN.(threads := BETWEEN.threads[2 := RequeueCall([KEY])])
    ensures Run(run)
    ensures run[|run| - 1] == BETWEEN.(subsLock := Some(2), threads := BETWEEN.threads[2 := RequeueHasSubs([KEY])])
  {
    run := Extend(before, 2, Lock(LockSubs),
                  BETWEEN.(subsLock := Some(2), threads := BETWEEN.threads[2 := RequeueHasSubs([KEY])]));
  }

  const MOVED := REQUEUED.(subsLock := Some(2), pendingLock := Some(2),
                           threads := BETWEEN.threads[2 := RequeueingRow([], KEY, [])])

  const TAKEN := REQUEUEING.(subs := map[], threads := BETWEEN.threads[2 := RequeueingRow([], KEY, [SUB])])

  lemma RequeueTakes(before: seq<State>) returns (run: seq<State>)
    requires Run(before) && before[|before| - 1] == REQUEUEING
    ensures Run(run) && run[|run| - 1] == TAKEN
  {
    assert [KEY][1..] == [];
    assert REQUEUEING.subs - {KEY} == map[];
    run := Extend(before, 2, Requeue(TakeRow), TAKEN);
  }

  lemma RequeueMoved(before: seq<State>) returns (run: seq<State>)
    requires Run(before) && before[|before| - 1] == REQUEUEING
    ensures Run(run) && run[|run| - 1] == MOVED
  {
    run := RequeueTakes(before);
    assert [SUB][1..] == [];
    run := Extend(run, 2, Requeue(RequeueHead), MOVED);
  }

  lemma RequeueEnds(before: seq<State>) returns (run: seq<State>)
    requires Run(before) && before[|before| - 1] == MOVED
    ensures Run(run) && run[|run| - 1] == REQUEUED
  {
    run := RequeueLoopEnds(before);
    run := Extend(run, 2, Lock(Unlock), REQUEUED);
  }

  lemma RequeueLoopEnds(before: seq<State>) returns (run: seq<State>)
    requires Run(before) && before[|before| - 1] == MOVED
    ensures Run(run) && run[|run| - 1] == MOVED.(threads := BETWEEN.threads[2 := HoldsBoth])
  {
    run := Extend(before, 2, Requeue(EndRow), MOVED.(threads := BETWEEN.threads[2 := Requeueing([])]));
    run := Extend(run, 2, Requeue(EndRequeue), MOVED.(threads := BETWEEN.threads[2 := HoldsBoth]));
  }

  /** The rename finds nothing in the rows. */
  const MISSED := REQUEUED.(subsLock := Some(1), threads := REQUEUED.threads[1 := RenamingRows("h", "n", false)])

  lemma RenameFindsNothing(before: seq<State>) returns (run: seq<State>)
    requires Run(before) && before[|before| - 1] == REQUEUED
    ensures Run(run) && run[|run| - 1] == MISSED
  {
    run := Extend(before, 1, Lock(LockSubs), MISSED);
  }

  lemma RenameReturns(before: seq<State>) returns (run: seq<State>)
    requires Run(before) && before[|before| - 1] == MISSED
    ensures Run(run) && run[|run| - 1] == REQUEUED.(threads := REQUEUED.threads[1 := Idle])
  {
    run := Extend(before, 1, Rename(EndRename), MISSED.(threads := REQUEUED.threads[1 := HoldsSubs]));
    run := Extend(run, 1, Lock(Unlock), REQUEUED.(threads := REQUEUED.threads[1 := Idle]));
  }

  /** There is a run in which `rename_handle` has returned and the record still answers to the
      old id. */
  lemma RenameCanMiss() returns (run: seq<State>)
    ensures Run(run)
    ensures var s := run[|run| - 1];
            && (forall t: Tid :: s.Th(t).Idle?) && s.pendingLock.None? && s.subsLock.None?
            && {"h", "n"} <= s.used && "h" in s.pending && "n" !in s.pending && s.subs == map[]
  {
    run := Track();
    run := RenameHalf(run);
    run := RequeueBetween(run);
    run := RenameFindsNothing(run);
    run := RenameReturns(run);
  }
}
