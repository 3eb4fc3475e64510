/** When a concurrent `rename_handle` reaches its record: exactly when the record is in the
    pending map as the rename takes the lock of that map, or in a row as it takes the lock of
    the rows. */
module GateRenameExact {
  import opened Orders
  import opened GateModel
  import opened GateProtocol
  import opened GateProtocolProof
  import GateRefinement

  /** A rename before its second lock, and after it. */
  predicate FirstHalf(th: Thread, o: HandleId, n: HandleId)
  {
    (th.RenamingPending? || th.RenamingEntry? || th.RenameBetween?) && th.o == o && th.n == n
  }

  predicate SecondHalf(th: Thread, o: HandleId, n: HandleId)
  {
    th.RenamingRows? && th.o == o && th.n == n
  }

  /** The rename has given its new id to a record. */
  predicate Gave(th: Thread)
  {
    (th.RenamingEntry? || th.RenameBetween? || th.RenamingRows?) && th.renamed
  }

  predicate HasRow(rows: map<BusKey, seq<Subscriber>>, id: HandleId)
  {
    exists k, i :: k in rows && 0 <= i < |rows[k]| && rows[k][i].handleId == id
  }

  /** In a run, thread `t` has just locked the pending map at `i` and the rows at `j` to rename
      `o` to `n`, and is done with the rows at `k`. */
  ghost predicate Window(states: seq<State>, t: Tid, o: HandleId, n: HandleId, i: nat, j: nat, k: nat)
  {
    && Run(states) && i < j < k < |states|
    && states[i].Th(t) == RenamingPending(o, n)
    && (forall m :: i <= m < j ==> FirstHalf(states[m].Th(t), o, n))
    && (forall m :: j <= m < k ==> SecondHalf(states[m].Th(t), o, n))
    && states[k].Th(t).HoldsSubs?
  }

  // ---- What the other threads leave alone ----

  /** A step of `u`: only `u` moves, and a map changes only under its lock. */
  predicate Local(s: State, u: Tid, s': State, t: Tid)
  {
    && (u != t ==> s'.Th(t) == s.Th(t))
    && (!OwnsPending(s.Th(u)) ==> s'.pending == s.pending)
    && (!OwnsSubs(s.Th(u)) ==> s'.subs == s.subs)
    && s.entered.Keys <= s'.entered.Keys
  }

  lemma CallLocal(s: State, u: Tid, x: CallStep, t: Tid)
    requires CallEnabled(s, u, x)
    ensures Local(s, u, CallApply(s, u, x), t)
  {
  }

  lemma LockLocal(s: State, u: Tid, x: LockStep, t: Tid)
    requires LockEnabled(s, u, x)
    ensures Local(s, u, LockApply(s, u, x), t)
  {
  }

  lemma PutLocal(s: State, u: Tid, x: PutStep, t: Tid)
    requires PutEnabled(s, u, x)
    ensures Local(s, u, PutApply(s, u, x), t)
  {
  }

  lemma SweepLocal(s: State, u: Tid, x: SweepStep, t: Tid)
    requires SweepEnabled(s, u, x)
    ensures Local(s, u, SweepApply(s, u, x), t)
  {
  }

  lemma RequeueLocal(s: State, u: Tid, x: RequeueStep, t: Tid)
    requires RequeueEnabled(s, u, x)
    ensures Local(s, u, RequeueApply(s, u, x), t)
  {
  }

  lemma RenameLocal(s: State, u: Tid, x: RenameStep, t: Tid)
    requires RenameEnabled(s, u, x)
    ensures Local(s, u, RenameApply(s, u, x), t)
  {
  }

  lemma CancelLocal(s: State, u: Tid, x: CancelStep, t: Tid)
    requires CancelEnabled(s, u, x)
    ensures Local(s, u, CancelApply(s, u, x), t)
  {
  }

  lemma StepLocal(s: State, u: Tid, a: Action, s': State, t: Tid)
    requires Step(s, u, a, s')
    ensures if a.Env? then s'.threads == s.threads && s'.pending == s.pending && s'.subs == s.subs
            else Local(s, u, s', t)
    ensures s.entered.Keys <= s'.entered.Keys
  {
    match a
    case Env(x) =>
    case StartInsert(p) =>
    case StartTrack(p) =>
    case Call(x) => CallLocal(s, u, x, t);
    case Lock(x) => LockLocal(s, u, x, t);
    case Put(x) => PutLocal(s, u, x, t);
    case Sweep(x) => SweepLocal(s, u, x, t);
    case Requeue(x) => RequeueLocal(s, u, x, t);
    case Rename(x) => RenameLocal(s, u, x, t);
    case Cancel(x) => CancelLocal(s, u, x, t);
  }

  lemma OthersStay(s: State, u: Tid, a: Action, s': State, t: Tid)
    requires Step(s, u, a, s') && (u != t || a.Env?)
    ensures s'.Th(t) == s.Th(t)
  {
    StepLocal(s, u, a, s', t);
  }

  lemma OtherStep(s: State, t: Tid, u: Tid, a: Action, s': State)
    requires ThreadOk(s, t) && ThreadOk(s, u) && Step(s, u, a, s') && (u != t || a.Env?)
    ensures s'.Th(t) == s.Th(t)
    ensures OwnsPending(s.Th(t)) ==> s'.pending == s.pending
    ensures OwnsSubs(s.Th(t)) ==> s'.subs == s.subs
  {
    StepLocal(s, u, a, s', t);
  }

  /** A step of the run, taken by `t` itself or not. */
  lemma RunStep(states: seq<State>, m: nat, t: Tid) returns (u: Tid, a: Action)
    requires Run(states) && m + 1 < |states|
    ensures Step(states[m], u, a, states[m + 1]) && ThreadOk(states[m], t) && ThreadOk(states[m], u)
  {
    EveryRunIsConsistent(states, m);
    assert StepsAt(states, m);
    u, a :| Step(states[m], u, a, states[m + 1]);
  }

  // ---- What the rename itself does next ----

  lemma OwnStep(s: State, t: Tid, a: Action, s': State)
    requires Step(s, t, a, s') && !a.Env? && !s'.Th(t).Idle?
    requires s.Th(t).RenamingPending? || s.Th(t).RenamingEntry? || s.Th(t).RenameBetween? || s.Th(t).RenamingRows?
    ensures if s.Th(t).RenameBetween? then a.Lock? && a.lock != Panic && LockEnabled(s, t, a.lock) &&
            s' == LockApply(s, t, a.lock)
            else a.Rename? && RenameEnabled(s, t, a.rename) && s' == RenameApply(s, t, a.rename)
  {
    assert GateRefinement.Own(s, t, a, s');
    if s.Th(t).RenameBetween? {
      GateRefinement.NextIsLock(s, t, a, s');
    } else {
      GateRefinement.NextIsRename(s, t, a, s');
    }
  }

  // ---- The pending half ----

  /** Where the first half is, seen from the pending map `start` it locked. */
  predicate HalfAt(s: State, t: Tid, o: HandleId, n: HandleId, start: map<HandleId, Waiter>)
  {
    match s.Th(t)
    case RenamingPending(_, _) => s.pending == start
    case RenamingEntry(_, _, held, renamed) =>
      o in start && held == if renamed then start[o].(handleId := n) else start[o]
    case RenameBetween(_, _, renamed, locked) =>
      && renamed == (o in start)
      && (renamed && locked ==> n in s.pending && s.pending[n] == start[o].(handleId := n))
    case RenamingRows(_, _, renamed) => renamed == (o in start)
    case _ => false
  }

  lemma HalfRename(s: State, t: Tid, o: HandleId, n: HandleId, start: map<HandleId, Waiter>, x: RenameStep)
    requires FirstHalf(s.Th(t), o, n) && HalfAt(s, t, o, n, start) && RenameEnabled(s, t, x)
    ensures HalfAt(RenameApply(s, t, x), t, o, n, start)
  {
  }

  lemma HalfLock(s: State, t: Tid, o: HandleId, n: HandleId, start: map<HandleId, Waiter>, x: LockStep)
    requires s.Th(t).RenameBetween? && HalfAt(s, t, o, n, start) && LockEnabled(s, t, x) && x != Panic
    ensures HalfAt(LockApply(s, t, x), t, o, n, start)
  {
  }

  lemma HalfOwn(s: State, t: Tid, o: HandleId, n: HandleId, start: map<HandleId, Waiter>, a: Action, s': State)
    requires FirstHalf(s.Th(t), o, n) && HalfAt(s, t, o, n, start) && Step(s, t, a, s') && !a.Env? && !s'.Th(t).Idle?
    ensures HalfAt(s', t, o, n, start)
  {
    OwnStep(s, t, a, s');
    if s.Th(t).RenameBetween? {
      HalfLock(s, t, o, n, start, a.lock);
    } else {
      HalfRename(s, t, o, n, start, a.rename);
    }
  }

  lemma HalfStep(states: seq<State>, m: nat, t: Tid, o: HandleId, n: HandleId, start: map<HandleId, Waiter>)
    requires Run(states) && m + 1 < |states| && FirstHalf(states[m].Th(t), o, n) && !states[m + 1].Th(t).Idle?
    requires HalfAt(states[m], t, o, n, start)
    ensures HalfAt(states[m + 1], t, o, n, start)
  {
    var u, a := RunStep(states, m, t);
    if u == t && !a.Env? {
      HalfOwn(states[m], t, o, n, start, a, states[m + 1]);
    } else {
      OtherStep(states[m], t, u, a, states[m + 1]);
    }
  }

  lemma {:induction false} HalfRun(states: seq<State>, t: Tid, o: HandleId, n: HandleId, i: nat, j: nat, k: nat, m: nat)
    requires Window(states, t, o, n, i, j, k) && i <= m <= j
    ensures HalfAt(states[m], t, o, n, states[i].pending)
    decreases m
  {
    if m > i {
      HalfRun(states, t, o, n, i, j, k, m - 1);
      assert FirstHalf(states[m - 1].Th(t), o, n) && !states[m].Th(t).Idle?;
      HalfStep(states, m - 1, t, o, n, states[i].pending);
    }
  }

  /** The record waited when the rename looked: it goes back into the map under the new id. */
  ghost predicate PutBackAt(states: seq<State>, m: nat, o: HandleId, n: HandleId, start: map<HandleId, Waiter>)
    requires m < |states|
  {
    o in start && n in states[m].pending && states[m].pending[n] == start[o].(handleId := n)
  }

  lemma {:induction false} PutBackSoon(states: seq<State>, t: Tid, o: HandleId, n: HandleId, i: nat, j: nat, k: nat,
                                       m: nat)
    returns (p: nat)
    requires Window(states, t, o, n, i, j, k) && i <= m < j && o in states[i].pending && states[m].Th(t).RenameBetween?
    ensures i < p <= m && PutBackAt(states, p, o, n, states[i].pending)
    decreases m
  {
    HalfRun(states, t, o, n, i, j, k, m);
    if states[m].Th(t).locked {
      p := m;
    } else {
      assert FirstHalf(states[m - 1].Th(t), o, n);
      StillBetween(states, m - 1, t, o, n);
      p := PutBackSoon(states, t, o, n, i, j, k, m - 1);
    }
  }

  lemma StillBetween(states: seq<State>, m: nat, t: Tid, o: HandleId, n: HandleId)
    requires Run(states) && m + 1 < |states| && FirstHalf(states[m].Th(t), o, n)
    requires states[m + 1].Th(t).RenameBetween? && !states[m + 1].Th(t).locked
    ensures states[m].Th(t).RenameBetween?
  {
    var u, a := RunStep(states, m, t);
    if u == t && !a.Env? {
      OwnStep(states[m], t, a, states[m + 1]);
    } else {
      OtherStep(states[m], t, u, a, states[m + 1]);
    }
  }

  // ---- The rows half ----

  /** `rows` with some records of id `o` renamed. */
  predicate SameOrRenamed(start: map<BusKey, seq<Subscriber>>, rows: map<BusKey, seq<Subscriber>>, o: HandleId,
                          n: HandleId)
  {
    && rows.Keys == start.Keys
    && forall k :: k in start ==>
         && |rows[k]| == |start[k]|
         && forall i :: 0 <= i < |start[k]| ==>
              rows[k][i] == start[k][i] || (start[k][i].handleId == o && rows[k][i] == start[k][i].(handleId := n))
  }

  /** Where the second half is, seen from the rows `start` it locked; `found` in the first half. */
  predicate RowsAt(s: State, t: Tid, o: HandleId, n: HandleId, start: map<BusKey, seq<Subscriber>>, found: bool)
  {
    && s.Th(t).RenamingRows? && SameOrRenamed(start, s.subs, o, n)
    && (found ==> s.Th(t).renamed)
    && (s.Th(t).renamed ==> found || HasRow(start, o))
    && (!s.Th(t).renamed ==> s.subs == start)
  }

  lemma RecordGiven(start: map<BusKey, seq<Subscriber>>, rows: map<BusKey, seq<Subscriber>>, o: HandleId, n: HandleId,
                    key: BusKey, x: nat)
    requires o != n && SameOrRenamed(start, rows, o, n) && key in rows && x < |rows[key]| && rows[key][x].handleId == o
    ensures SameOrRenamed(start, rows[key := rows[key][x := rows[key][x].(handleId := n)]], o, n) && HasRow(start, o)
  {
    assert rows[key][x] == start[key][x];
  }

  lemma RowsStep(states: seq<State>, m: nat, t: Tid, o: HandleId, n: HandleId, start: map<BusKey, seq<Subscriber>>,
                 found: bool)
    requires Run(states) && m + 1 < |states| && SecondHalf(states[m].Th(t), o, n) &&
             SecondHalf(states[m + 1].Th(t), o, n)
    requires RowsAt(states[m], t, o, n, start, found)
    ensures RowsAt(states[m + 1], t, o, n, start, found)
  {
    var u, a := RunStep(states, m, t);
    if u == t && !a.Env? {
      OwnStep(states[m], t, a, states[m + 1]);
      RecordGiven(start, states[m].subs, o, n, a.rename.key, a.rename.i);
    } else {
      OtherStep(states[m], t, u, a, states[m + 1]);
    }
  }

  lemma {:induction false} RowsRun(states: seq<State>, t: Tid, o: HandleId, n: HandleId, i: nat, j: nat, k: nat, m: nat)
    requires Window(states, t, o, n, i, j, k) && j <= m < k
    ensures RowsAt(states[m], t, o, n, states[j].subs, o in states[i].pending)
    decreases m
  {
    if m == j {
      HalfRun(states, t, o, n, i, j, k, j);
      assert SecondHalf(states[j].Th(t), o, n);
    } else {
      RowsRun(states, t, o, n, i, j, k, m - 1);
      assert SecondHalf(states[m - 1].Th(t), o, n) && SecondHalf(states[m].Th(t), o, n);
      RowsStep(states, m - 1, t, o, n, states[j].subs, o in states[i].pending);
    }
  }

  /** The rename's last statement before it drops the guard. */
  lemma LastStep(states: seq<State>, t: Tid, o: HandleId, n: HandleId, i: nat, j: nat, k: nat)
    requires Window(states, t, o, n, i, j, k)
    ensures states[k] == states[k - 1].Set(t, HoldsSubs) && !HasRow(states[k - 1].subs, o)
    ensures SecondHalf(states[k - 1].Th(t), o, n)
  {
    assert SecondHalf(states[k - 1].Th(t), o, n);
    var u, a := RunStep(states, k - 1, t);
    if u == t && !a.Env? {
      OwnStep(states[k - 1], t, a, states[k]);
    } else {
      OthersStay(states[k - 1], u, a, states[k], t);
    }
  }

  // ---- The exact condition ----

  /** The rename saw its record in one of its two critical sections. */
  predicate Saw(first: State, second: State, o: HandleId)
  {
    o in first.pending || HasRow(second.subs, o)
  }

  /** At the end the rename has given its id out exactly if it saw the record. */
  lemma GaveExactly(states: seq<State>, t: Tid, o: HandleId, n: HandleId, i: nat, j: nat, k: nat)
    requires Window(states, t, o, n, i, j, k)
    ensures SecondHalf(states[k - 1].Th(t), o, n) && (Gave(states[k - 1].Th(t)) <==> Saw(states[i], states[j], o))
  {
    RowsRun(states, t, o, n, i, j, k, k - 1);
    LastStep(states, t, o, n, i, j, k);
  }

  /** Until then it has not, if it did not see it. */
  lemma NotBefore(states: seq<State>, t: Tid, o: HandleId, n: HandleId, i: nat, j: nat, k: nat, m: nat)
    requires Window(states, t, o, n, i, j, k) && i <= m < k && !Saw(states[i], states[j], o)
    ensures Reserved(states[m].Th(t)) == Some(n)
  {
    if m < j {
      HalfRun(states, t, o, n, i, j, k, m);
      assert FirstHalf(states[m].Th(t), o, n);
    } else {
      RowsRun(states, t, o, n, i, j, k, m);
      assert SecondHalf(states[m].Th(t), o, n);
    }
  }

  lemma NobodyAtEnd(s: State, t: Tid, id: HandleId)
    requires Nobody(s, id) && Hand(s.Th(t)) == []
    ensures Nobody(s.Set(t, HoldsSubs), id)
  {
    var s' := s.Set(t, HoldsSubs);
    forall l | Has(s', l) ensures At(s', l).handleId != id {
      assert Has(s, l) && At(s, l) == At(s', l);
    }
  }

  /** Whatever the other threads do: some record gets the new id during the rename if and only if
      the rename saw a record with the old one, and then nobody has the old one when it ends. A
      record seen in the pending map goes back there renamed, one seen in a row is renamed in
      its place, and nothing else of them changes. */
  lemma RenameExactly(states: seq<State>, t: Tid, o: HandleId, n: HandleId, i: nat, j: nat, k: nat)
    requires Window(states, t, o, n, i, j, k)
    ensures Saw(states[i], states[j], o) <==> exists m :: i <= m <= k && !Nobody(states[m], n)
    ensures Saw(states[i], states[j], o) ==> Nobody(states[k], o)
    ensures o in states[i].pending ==> exists p :: i < p < j && PutBackAt(states, p, o, n, states[i].pending)
    ensures forall key, x
              | key in states[j].subs && 0 <= x < |states[j].subs[key]| && states[j].subs[key][x].handleId == o ::
              && key in states[k].subs && x < |states[k].subs[key]|
              && states[k].subs[key][x] == states[j].subs[key][x].(handleId := n)
  {
    LastStep(states, t, o, n, i, j, k);
    GaveExactly(states, t, o, n, i, j, k);
    RowsRun(states, t, o, n, i, j, k, k - 1);
    if Saw(states[i], states[j], o) {
      SawThenGiven(states, t, o, n, i, j, k);
    } else {
      NotSawNobody(states, t, o, n, i, j, k);
    }
    if o in states[i].pending {
      HalfRun(states, t, o, n, i, j, k, j - 1);
      LastOfFirstHalf(states, t, o, n, i, j, k);
      var p := PutBackSoon(states, t, o, n, i, j, k, j - 1);
    }
  }

  lemma LastOfFirstHalf(states: seq<State>, t: Tid, o: HandleId, n: HandleId, i: nat, j: nat, k: nat)
    requires Window(states, t, o, n, i, j, k)
    ensures states[j - 1].Th(t).RenameBetween?
  {
    assert FirstHalf(states[j - 1].Th(t), o, n) && SecondHalf(states[j].Th(t), o, n);
    var u, a := RunStep(states, j - 1, t);
    if u == t && !a.Env? {
      OwnStep(states[j - 1], t, a, states[j]);
    } else {
      OthersStay(states[j - 1], u, a, states[j], t);
    }
  }

  lemma SawThenGiven(states: seq<State>, t: Tid, o: HandleId, n: HandleId, i: nat, j: nat, k: nat)
    requires Window(states, t, o, n, i, j, k) && Saw(states[i], states[j], o)
    ensures exists m :: i <= m <= k && !Nobody(states[m], n)
    ensures Nobody(states[k], o)
  {
    GaveExactly(states, t, o, n, i, j, k);
    LastStep(states, t, o, n, i, j, k);
    EveryRunIsConsistent(states, k - 1);
    assert TagsOk(states[k - 1], t);
    NobodyAtEnd(states[k - 1], t, o);
    if o in states[i].pending {
      LastOfFirstHalf(states, t, o, n, i, j, k);
      var p := PutBackSoon(states, t, o, n, i, j, k, j - 1);
      assert Has(states[p], InPending(n)) && At(states[p], InPending(n)).handleId == n;
    } else {
      var key, x :| key in states[j].subs && 0 <= x < |states[j].subs[key]| && states[j].subs[key][x].handleId == o;
      RowsRun(states, t, o, n, i, j, k, k - 1);
      assert Has(states[k - 1], InRow(key, x)) && At(states[k - 1], InRow(key, x)).handleId == n;
    }
  }

  lemma NotSawNobody(states: seq<State>, t: Tid, o: HandleId, n: HandleId, i: nat, j: nat, k: nat)
    requires Window(states, t, o, n, i, j, k) && !Saw(states[i], states[j], o)
    ensures forall m :: i <= m <= k ==> Nobody(states[m], n)
  {
    forall m | i <= m <= k ensures Nobody(states[m], n) {
      var l := if m == k then k - 1 else m;
      NotBefore(states, t, o, n, i, j, k, l);
      EveryRunIsConsistent(states, l);
      assert TagsOk(states[l], t);
      if m == k {
        LastStep(states, t, o, n, i, j, k);
        NobodyAtEnd(states[k - 1], t, n);
      }
    }
  }

  // ---- One record, from the start of the rename to its end ----

  /** No other thread renames from or to the two ids. */
  ghost predicate Undisturbed(states: seq<State>, t: Tid, o: HandleId, n: HandleId, i: nat, k: nat)
    requires k <= |states|
  {
    forall m, u: Tid :: i <= m < k && u != t && IsRename(states[m].Th(u)) ==>
        states[m].Th(u).o != o && states[m].Th(u).o != n
  }

  /** The record of the handle with statistics `st`, wherever it is, has the id the rename has
      brought it to. */
  ghost predicate IdAt(s: State, t: Tid, o: HandleId, n: HandleId, st: StatsId)
  {
    forall l :: Has(s, l) && At(s, l).stats == st ==> At(s, l).handleId == if Gave(s.Th(t)) then n else o
  }

  lemma EntryOrigin(s: State, u: Tid, p: Waiter, th: Thread, l: Loc)
    requires s.Th(u).Idle? && (th == InsertCall(p) || th == TrackCall(p)) && Has(Enter(s, u, p, th), l)
    ensures if l == InHand(u, 0) then At(Enter(s, u, p, th), l).stats == p.stats
            else Has(s, l) && At(s, l) == At(Enter(s, u, p, th), l)
  {
  }

  /** Where a known handle's record was before a step, and under which id. */
  lemma Origin(s: State, u: Tid, a: Action, s': State, l: Loc) returns (l0: Loc)
    requires Inv(s) && Step(s, u, a, s') && Has(s', l) && At(s', l).stats in s.entered
    ensures Has(s, l0) && At(s, l0).stats == At(s', l).stats
    ensures At(s, l0).handleId == At(s', l).handleId
            || (a.Rename? && GivesId(a.rename) && At(s, l0).handleId == s.Th(u).o)
  {
    if a.StartInsert? {
      EntryOrigin(s, u, a.p, InsertCall(a.p), l);
      l0 := l;
    } else if a.StartTrack? {
      EntryOrigin(s, u, a.p, TrackCall(a.p), l);
      l0 := l;
    } else {
      assert ThreadOk(s, u);
      var v, g, o, n := StepMoves(s, u, a, s');
      l0 := g(l);
      assert From(s, s', l, l0, o, n);
    }
  }

  /** Whether the rename has given its id changes only in the step that gives it. */
  lemma GaveKept(s: State, t: Tid, a: Action, s': State)
    requires Step(s, t, a, s') && !a.Env? && !(a.Rename? && GivesId(a.rename))
    requires s.Th(t).RenamingPending? || s.Th(t).RenamingEntry? || s.Th(t).RenameBetween? || s.Th(t).RenamingRows?
    requires !s'.Th(t).Idle? && !s'.Th(t).HoldsSubs?
    ensures Gave(s'.Th(t)) == Gave(s.Th(t))
  {
    OwnStep(s, t, a, s');
    if s.Th(t).RenameBetween? {
      LockKeepsGave(s, t, a.lock);
    } else {
      RenameKeepsGave(s, t, a.rename);
    }
  }

  lemma LockKeepsGave(s: State, t: Tid, x: LockStep)
    requires s.Th(t).RenameBetween? && LockEnabled(s, t, x) && x != Panic
    ensures Gave(LockApply(s, t, x).Th(t)) == Gave(s.Th(t))
  {
  }

  lemma RenameKeepsGave(s: State, t: Tid, x: RenameStep)
    requires RenameEnabled(s, t, x) && !GivesId(x) && !RenameApply(s, t, x).Th(t).HoldsSubs?
    ensures Gave(RenameApply(s, t, x).Th(t)) == Gave(s.Th(t))
  {
  }

  /** A step that gives nothing of `o` or `n` keeps the record's id. */
  lemma IdKept(s: State, t: Tid, o: HandleId, n: HandleId, st: StatsId, u: Tid, a: Action, s': State)
    requires Inv(s) && IdAt(s, t, o, n, st) && st in s.entered && Step(s, u, a, s') && Gave(s'.Th(t)) == Gave(s.Th(t))
    requires a.Rename? && GivesId(a.rename) ==> s.Th(u).o != o && s.Th(u).o != n
    ensures IdAt(s', t, o, n, st)
  {
    forall l | Has(s', l) && At(s', l).stats == st ensures At(s', l).handleId == if Gave(s.Th(t)) then n else o {
      var l0 := Origin(s, u, a, s', l);
    }
  }

  /** The step that gives the id gives it to that record. */
  lemma IdGiven(s: State, t: Tid, o: HandleId, n: HandleId, st: StatsId, x: RenameStep)
    requires Inv(s) && IdAt(s, t, o, n, st) && RenameEnabled(s, t, x) && GivesId(x) && s.Th(t).o == o && s.Th(t).n == n
    ensures IdAt(RenameApply(s, t, x), t, o, n, st)
  {
    var s' := RenameApply(s, t, x);
    var g := RenameMoves(s, t, x);
    var o', n', place := GivesOnce(s, t, x);
    forall l | Has(s', l) && At(s', l).stats == st ensures At(s', l).handleId == n {
      assert From(s, s', l, l, o, n);
      assert !Apart(At(s, l), At(s, place));
      assert l == place;
    }
  }

  lemma IdStep(states: seq<State>, m: nat, t: Tid, o: HandleId, n: HandleId, st: StatsId)
    requires Run(states) && m + 1 < |states| && Undisturbed(states, t, o, n, m, m + 1)
    requires FirstHalf(states[m].Th(t), o, n) || SecondHalf(states[m].Th(t), o, n)
    requires FirstHalf(states[m + 1].Th(t), o, n) || SecondHalf(states[m + 1].Th(t), o, n)
    requires IdAt(states[m], t, o, n, st) && st in states[m].entered
    ensures IdAt(states[m + 1], t, o, n, st) && st in states[m + 1].entered
  {
    var s, s' := states[m], states[m + 1];
    EveryRunIsConsistent(states, m);
    var u, a := RunStep(states, m, t);
    StepLocal(s, u, a, s', t);
    if u == t && a.Rename? && GivesId(a.rename) {
      IdGiven(s, t, o, n, st, a.rename);
    } else if u == t && !a.Env? {
      GaveKept(s, t, a, s');
      IdKept(s, t, o, n, st, u, a, s');
    } else {
      OthersStay(s, u, a, s', t);
      IdKept(s, t, o, n, st, u, a, s');
    }
  }

  lemma {:induction false} IdRun(states: seq<State>, t: Tid, o: HandleId, n: HandleId, i: nat, j: nat, k: nat,
                                 l0: Loc, m: nat)
    requires Window(states, t, o, n, i, j, k) && Undisturbed(states, t, o, n, i, k) && i <= m < k
    requires Has(states[i], l0) && At(states[i], l0).handleId == o
    ensures IdAt(states[m], t, o, n, At(states[i], l0).stats) && At(states[i], l0).stats in states[m].entered
    decreases m
  {
    if m == i {
      EveryRunIsConsistent(states, i);
      IdStarts(states[i], t, o, n, l0);
    } else {
      IdRun(states, t, o, n, i, j, k, l0, m - 1);
      assert FirstHalf(states[m - 1].Th(t), o, n) || SecondHalf(states[m - 1].Th(t), o, n);
      assert FirstHalf(states[m].Th(t), o, n) || SecondHalf(states[m].Th(t), o, n);
      IdStep(states, m - 1, t, o, n, At(states[i], l0).stats);
    }
  }

  lemma IdStarts(s: State, t: Tid, o: HandleId, n: HandleId, l0: Loc)
    requires Inv(s) && Has(s, l0) && At(s, l0).handleId == o && !Gave(s.Th(t))
    ensures IdAt(s, t, o, n, At(s, l0).stats) && At(s, l0).stats in s.entered
  {
    assert FromEntry(s, At(s, l0));
    forall l | Has(s, l) && At(s, l).stats == At(s, l0).stats ensures At(s, l).handleId == o {
      assert l != l0 ==> Apart(At(s, l), At(s, l0));
    }
  }

  /** The record that has the old id when the rename takes its first lock, wherever it is then and
      wherever it is when the rename ends, ends with the new id if and only if it is in the
      pending map at the first lock or in a row at the second; otherwise it keeps the old one. */
  lemma RenameReachesExactly(states: seq<State>, t: Tid, o: HandleId, n: HandleId, i: nat, j: nat, k: nat, l0: Loc,
                             l: Loc)
    requires Window(states, t, o, n, i, j, k) && Undisturbed(states, t, o, n, i, k)
    requires Has(states[i], l0) && At(states[i], l0).handleId == o
    requires Has(states[k], l) && At(states[k], l).stats == At(states[i], l0).stats
    ensures At(states[k], l).handleId == if Saw(states[i], states[j], o) then n else o
  {
    IdRun(states, t, o, n, i, j, k, l0, k - 1);
    GaveExactly(states, t, o, n, i, j, k);
    LastStep(states, t, o, n, i, j, k);
    assert Has(states[k - 1], l) && At(states[k - 1], l) == At(states[k], l);
  }

  // ---- What a caller can arrange ----

  /** No thread is moving rows back to the pending map. */
  ghost predicate NoRequeue(states: seq<State>, i: nat, j: nat)
    requires j < |states|
  {
    forall m, u: Tid :: i <= m <= j ==> !GateRefinement.AtRequeue(states[m].Th(u))
  }

  predicate RowHas(s: State, key: BusKey, x: nat, r: Subscriber)
  {
    key in s.subs && x < |s.subs[key]| && s.subs[key][x] == r
  }

  lemma RowStays(s: State, u: Tid, a: Action, s': State, key: BusKey, i: nat, r: Subscriber)
    requires Step(s, u, a, s') && RowHas(s, key, i, r) && !GateRefinement.AtRequeue(s.Th(u))
    requires s.Th(u).RenamingRows? ==> s.Th(u).o != r.handleId
    ensures RowHas(s', key, i, r)
  {
    match a
    case Lock(x) => LockRowsStay(s, u, x);
    case Put(x) => PutRowStays(s, u, x, key, i, r);
    case Sweep(x) => SweepRowStays(s, u, x, key, i, r);
    case Requeue(x) => assert false;
    case Rename(x) => RenameRowStays(s, u, x, key, i, r);
    case Cancel(x) => CancelRowsStay(s, u, x);
    case _ =>
  }

  lemma LockRowsStay(s: State, u: Tid, x: LockStep)
    requires LockEnabled(s, u, x)
    ensures LockApply(s, u, x).subs == s.subs
  {
  }

  lemma CancelRowsStay(s: State, u: Tid, x: CancelStep)
    requires CancelEnabled(s, u, x)
    ensures CancelApply(s, u, x).subs == s.subs
  {
  }

  lemma PutRowStays(s: State, u: Tid, x: PutStep, key: BusKey, i: nat, r: Subscriber)
    requires PutEnabled(s, u, x) && RowHas(s, key, i, r)
    ensures RowHas(PutApply(s, u, x), key, i, r)
  {
  }

  lemma SweepRowStays(s: State, u: Tid, x: SweepStep, key: BusKey, i: nat, r: Subscriber)
    requires SweepEnabled(s, u, x) && RowHas(s, key, i, r)
    ensures RowHas(SweepApply(s, u, x), key, i, r)
  {
  }

  lemma RenameRowStays(s: State, u: Tid, x: RenameStep, key: BusKey, i: nat, r: Subscriber)
    requires RenameEnabled(s, u, x) && RowHas(s, key, i, r) && (s.Th(u).RenamingRows? ==> s.Th(u).o != r.handleId)
    ensures RowHas(RenameApply(s, u, x), key, i, r)
  {
  }

  lemma {:induction false} RowUntilSecondLock(states: seq<State>, t: Tid, o: HandleId, n: HandleId, i: nat, j: nat,
                                              k: nat,
                                              key: BusKey, x: nat, r: Subscriber, m: nat)
    requires Window(states, t, o, n, i, j, k) && Undisturbed(states, t, o, n, i, k) && NoRequeue(states, i, j)
    requires RowHas(states[i], key, x, r) && r.handleId == o && i <= m <= j
    ensures RowHas(states[m], key, x, r)
    decreases m
  {
    if m > i {
      RowUntilSecondLock(states, t, o, n, i, j, k, key, x, r, m - 1);
      assert FirstHalf(states[m - 1].Th(t), o, n);
      var u, a := RunStep(states, m - 1, t);
      assert u != t && IsRename(states[m - 1].Th(u)) ==> states[m - 1].Th(u).o != o;
      RowStays(states[m - 1], u, a, states[m], key, x, r);
    }
  }

  /** A rename of a tracked handle that no requeue and no other rename of the handle overlaps up to
      its second lock always succeeds: the record is in its place under the new id. */
  lemma RenameWithoutRequeue(states: seq<State>, t: Tid, o: HandleId, n: HandleId, i: nat, j: nat, k: nat,
                             key: BusKey, x: nat,
                             r: Subscriber)
    requires Window(states, t, o, n, i, j, k) && Undisturbed(states, t, o, n, i, k) && NoRequeue(states, i, j)
    requires RowHas(states[i], key, x, r) && r.handleId == o
    ensures RowHas(states[k], key, x, r.(handleId := n)) && Nobody(states[k], o)
  {
    RowUntilSecondLock(states, t, o, n, i, j, k, key, x, r, j);
    RenameExactly(states, t, o, n, i, j, k);
  }
}
