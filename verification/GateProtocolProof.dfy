/** Every reachable state of the concurrent registry is consistent. */
module GateProtocolProof {
  import opened Orders
  import opened GateModel
  import opened GateProtocol

  // ---- Every step moves records, and never copies one ----

  ghost predicate OnlyHand(s: State, s': State, t: Tid)
  {
    forall u: Tid :: u != t ==> s'.Th(u) == s.Th(u)
  }

  predicate SameHandle(a: Subscriber, b: Subscriber)
  {
    a.stats == b.stats && a.sender == b.sender && a.spec == b.spec
    && a.ifUnresolved == b.ifUnresolved && a.registeredAt == b.registeredAt
  }

  /** The record at `l` in `s'` is the one at `m` in `s`, under its id or renamed from `o` to `n`. */
  predicate From(s: State, s': State, l: Loc, m: Loc, o: HandleId, n: HandleId)
    requires Has(s', l)
  {
    && Has(s, m) && SameHandle(At(s', l), At(s, m))
    && (At(s', l).handleId == At(s, m).handleId || (At(s, m).handleId == o && At(s', l).handleId == n))
  }

  /** In the hand of a thread other than `t`. */
  predicate Elsewhere(l: Loc, t: Tid) { l.InHand? && l.t != t }

  /** Every record of `s'` comes from one of `s`, and no two from the same one; a step of `t`
      leaves every other thread's hand alone. */
  ghost predicate MovesBy(s: State, s': State, t: Tid, g: Loc -> Loc, o: HandleId, n: HandleId)
  {
    && OnlyHand(s, s', t)
    && (forall l :: Has(s', l) ==> From(s, s', l, g(l), o, n))
    && (forall l, m :: Has(s', l) && Has(s', m) && l != m ==> g(l) != g(m))
    && (forall l :: if Elsewhere(l, t) then g(l) == l else !Elsewhere(g(l), t))
  }

  /** The step leaves every attempt count as it is. */
  ghost predicate CountsBy(s: State, s': State, g: Loc -> Loc)
  {
    forall l :: Has(s', l) && Has(s, g(l)) ==> At(s', l).attempts == At(s, g(l)).attempts
  }

  const STAY: Loc -> Loc := (l: Loc) => l

  function Taken(t: Tid, id: HandleId): Loc -> Loc
  {
    (l: Loc) => if l == InHand(t, 0) then InPending(id) else l
  }

  function PutBack(t: Tid, id: HandleId): Loc -> Loc
  {
    (l: Loc) => if l == InPending(id) then InHand(t, 0) else if l.InHand? && l.t == t then InHand(t, l.j + 1) else l
  }

  function Pushed(t: Tid, key: BusKey, i: nat): Loc -> Loc
  {
    (l: Loc) => if l == InRow(key, i) then InHand(t, 0) else l
  }

  function RowTaken(t: Tid, key: BusKey): Loc -> Loc
  {
    (l: Loc) => if l.InHand? && l.t == t then InRow(key, l.j) else l
  }

  function Shifted(t: Tid): Loc -> Loc
  {
    (l: Loc) => if l.InHand? && l.t == t then InHand(t, l.j + 1) else l
  }

  // ---- The shapes a step can have, seen from the maps and the hands ----

  /** Nothing moves; some pending records and part of the hand may be dropped. */
  lemma ShapeStay(s: State, s': State, t: Tid)
    requires OnlyHand(s, s', t) && s'.subs == s.subs
    requires forall id :: id in s'.pending ==> id in s.pending && s'.pending[id] == s.pending[id]
    requires var h, h' := Hand(s.Th(t)), Hand(s'.Th(t));
             |h'| <= |h| && forall j :: 0 <= j < |h'| ==> SameHandle(h'[j], h[j]) && h'[j].handleId == h[j].handleId
    ensures MovesBy(s, s', t, STAY, "", "")
    ensures (forall j :: 0 <= j < |Hand(s'.Th(t))| ==> Hand(s'.Th(t))[j].attempts == Hand(s.Th(t))[j].attempts) ==>
            CountsBy(s, s', STAY)
  {
    forall l | Has(s', l) ensures From(s, s', l, l, "", "") {
      assert l.InHand? && l.t != t ==> s'.Th(l.t) == s.Th(l.t);
    }
  }

  /** A pending record goes into an empty hand. */
  lemma ShapeTake(s: State, s': State, t: Tid, id: HandleId)
    requires OnlyHand(s, s', t) && s'.subs == s.subs && id in s.pending && s'.pending == s.pending - {id}
    requires Hand(s.Th(t)) == [] && Hand(s'.Th(t)) == [s.pending[id].ToSubscriber()]
    ensures MovesBy(s, s', t, Taken(t, id), "", "")
    ensures CountsBy(s, s', Taken(t, id))
  {
    forall l | Has(s', l) ensures From(s, s', l, Taken(t, id)(l), "", "") {
      assert l.InHand? && l.t != t ==> s'.Th(l.t) == s.Th(l.t);
    }
  }

  /** The head of the hand goes into the pending map. */
  lemma ShapePut(s: State, s': State, t: Tid, w: Waiter)
    requires OnlyHand(s, s', t) && s'.subs == s.subs && s'.pending == s.pending[w.handleId := w]
    requires Hand(s.Th(t)) != [] && Hand(s.Th(t))[0] == w.ToSubscriber() && Hand(s'.Th(t)) == Hand(s.Th(t))[1..]
    ensures MovesBy(s, s', t, PutBack(t, w.handleId), "", "")
    ensures CountsBy(s, s', PutBack(t, w.handleId))
  {
    var g := PutBack(t, w.handleId);
    forall l | Has(s', l)
      ensures From(s, s', l, g(l), "", "") && (Has(s, g(l)) ==> At(s', l).attempts == At(s, g(l)).attempts)
    {
      PutOne(s, s', t, w, l);
    }
  }

  lemma PutOne(s: State, s': State, t: Tid, w: Waiter, l: Loc)
    requires OnlyHand(s, s', t) && s'.subs == s.subs && s'.pending == s.pending[w.handleId := w] && Has(s', l)
    requires Hand(s.Th(t)) != [] && Hand(s.Th(t))[0] == w.ToSubscriber() && Hand(s'.Th(t)) == Hand(s.Th(t))[1..]
    ensures var m := PutBack(t, w.handleId)(l);
            Has(s, m) && At(s', l) == At(s, m)
  {
    assert l.InHand? && l.t != t ==> s'.Th(l.t) == s.Th(l.t);
  }

  /** The one record in hand goes to the end of a row. */
  lemma ShapePush(s: State, s': State, t: Tid, key: BusKey)
    requires OnlyHand(s, s', t) && s'.pending == s.pending && |Hand(s.Th(t))| == 1 && Hand(s'.Th(t)) == []
    requires s'.subs == s.subs[key := RowOf(s, key) + Hand(s.Th(t))]
    ensures MovesBy(s, s', t, Pushed(t, key, |RowOf(s, key)|), "", "")
    ensures CountsBy(s, s', Pushed(t, key, |RowOf(s, key)|))
  {
    var g := Pushed(t, key, |RowOf(s, key)|);
    forall l | Has(s', l) ensures From(s, s', l, g(l), "", "") {
      assert l.InHand? && l.t != t ==> s'.Th(l.t) == s.Th(l.t);
    }
  }

  /** A whole row goes into an empty hand. */
  lemma ShapeRow(s: State, s': State, t: Tid, key: BusKey)
    requires OnlyHand(s, s', t) && s'.pending == s.pending && Hand(s.Th(t)) == []
    requires key in s.subs && s'.subs == s.subs - {key} && Hand(s'.Th(t)) == s.subs[key]
    ensures MovesBy(s, s', t, RowTaken(t, key), "", "")
    ensures CountsBy(s, s', RowTaken(t, key))
  {
    forall l | Has(s', l) ensures From(s, s', l, RowTaken(t, key)(l), "", "") {
      assert l.InHand? && l.t != t ==> s'.Th(l.t) == s.Th(l.t);
    }
  }

  /** The head of the hand is dropped. */
  lemma ShapeShift(s: State, s': State, t: Tid)
    requires OnlyHand(s, s', t) && s'.pending == s.pending && s'.subs == s.subs
    requires Hand(s.Th(t)) != [] && Hand(s'.Th(t)) == Hand(s.Th(t))[1..]
    ensures MovesBy(s, s', t, Shifted(t), "", "")
    ensures CountsBy(s, s', Shifted(t))
  {
    forall l | Has(s', l) ensures From(s, s', l, Shifted(t)(l), "", "") {
      assert l.InHand? && l.t != t ==> s'.Th(l.t) == s.Th(l.t);
    }
  }

  /** The one record in hand gets a new id. */
  lemma ShapeRenameHand(s: State, s': State, t: Tid, o: HandleId, n: HandleId)
    requires OnlyHand(s, s', t) && s'.pending == s.pending && s'.subs == s.subs && |Hand(s.Th(t))| == 1
    requires Hand(s.Th(t))[0].handleId == o && Hand(s'.Th(t)) == [Hand(s.Th(t))[0].(handleId := n)]
    ensures MovesBy(s, s', t, STAY, o, n)
    ensures CountsBy(s, s', STAY)
  {
    forall l | Has(s', l) ensures From(s, s', l, l, o, n) {
      assert l.InHand? && l.t != t ==> s'.Th(l.t) == s.Th(l.t);
    }
  }

  /** One record of a row gets a new id. */
  lemma ShapeRenameRow(s: State, s': State, t: Tid, key: BusKey, i: nat, n: HandleId)
    requires OnlyHand(s, s', t) && s'.pending == s.pending && Hand(s.Th(t)) == Hand(s'.Th(t)) == []
    requires key in s.subs && i < |s.subs[key]|
    requires s'.subs == s.subs[key := s.subs[key][i := s.subs[key][i].(handleId := n)]]
    ensures MovesBy(s, s', t, STAY, s.subs[key][i].handleId, n)
    ensures CountsBy(s, s', STAY)
  {
    forall l | Has(s', l) ensures From(s, s', l, l, s.subs[key][i].handleId, n) {
      assert l.InHand? && l.t != t ==> s'.Th(l.t) == s.Th(l.t);
    }
  }

  // ---- Which shape each step has ----

  lemma EnvMoves(s: State, x: EnvStep)
    ensures MovesBy(s, EnvApply(s, x), 0, STAY, "", "")
    ensures CountsBy(s, EnvApply(s, x), STAY)
  {
    ShapeStay(s, EnvApply(s, x), 0);
  }

  lemma CallMoves(s: State, t: Tid, x: CallStep)
    requires CallEnabled(s, t, x)
    ensures MovesBy(s, CallApply(s, t, x), t, STAY, "", "")
    ensures CountsBy(s, CallApply(s, t, x), STAY)
  {
    ShapeStay(s, CallApply(s, t, x), t);
  }

  lemma LockMoves(s: State, t: Tid, x: LockStep)
    requires LockEnabled(s, t, x)
    ensures MovesBy(s, LockApply(s, t, x), t, STAY, "", "")
    ensures CountsBy(s, LockApply(s, t, x), STAY)
  {
    ShapeStay(s, LockApply(s, t, x), t);
  }

  lemma PutMoves(s: State, t: Tid, x: PutStep) returns (g: Loc -> Loc)
    requires PutEnabled(s, t, x)
    ensures MovesBy(s, PutApply(s, t, x), t, g, "", "")
    ensures CountsBy(s, PutApply(s, t, x), g)
  {
    var p, s' := s.Th(t).p, PutApply(s, t, x);
    if x.PutPending? {
      ShapePut(s, s', t, p);
      g := PutBack(t, p.handleId);
    } else {
      ShapePush(s, s', t, p.Key());
      g := Pushed(t, p.Key(), |RowOf(s, p.Key())|);
    }
  }

  lemma SweepMoves(s: State, t: Tid, x: SweepStep) returns (g: Loc -> Loc)
    requires SweepEnabled(s, t, x)
    ensures MovesBy(s, SweepApply(s, t, x), t, g, "", "")
    ensures x.CountEntry? || CountsBy(s, SweepApply(s, t, x), g)
  {
    var s' := SweepApply(s, t, x);
    match x
    case SweepTake => ShapeTake(s, s', t, s.Th(t).id); g := Taken(t, s.Th(t).id);
    case PushEntry =>
      var key := s.Th(t).entry.Key();
      ShapePush(s, s', t, key);
      g := Pushed(t, key, |RowOf(s, key)|);
    case _ => ShapeStay(s, s', t); g := STAY;
  }

  lemma RequeueMoves(s: State, t: Tid, x: RequeueStep) returns (g: Loc -> Loc)
    requires RequeueEnabled(s, t, x)
    ensures MovesBy(s, RequeueApply(s, t, x), t, g, "", "")
    ensures CountsBy(s, RequeueApply(s, t, x), g)
  {
    var th, s' := s.Th(t), RequeueApply(s, t, x);
    if x.TakeRow? && th.keys[0] in s.subs {
      ShapeRow(s, s', t, th.keys[0]);
      g := RowTaken(t, th.keys[0]);
    } else if x.RequeueHead? {
      g := RequeueHeadMoves(s, t);
    } else {
      ShapeStay(s, s', t);
      g := STAY;
    }
  }

  lemma RequeueHeadMoves(s: State, t: Tid) returns (g: Loc -> Loc)
    requires RequeueEnabled(s, t, RequeueHead)
    ensures MovesBy(s, RequeueApply(s, t, RequeueHead), t, g, "", "")
    ensures CountsBy(s, RequeueApply(s, t, RequeueHead), g)
  {
    var th, s' := s.Th(t), RequeueApply(s, t, RequeueHead);
    assert Hand(th) == th.refs && Hand(s'.Th(t)) == th.refs[1..];
    if Alive(s, th.refs[0].stats) {
      ShapePut(s, s', t, th.refs[0].ToWaiter(th.key));
      g := PutBack(t, th.refs[0].handleId);
    } else {
      ShapeShift(s, s', t);
      g := Shifted(t);
    }
  }

  predicate GivesId(x: RenameStep) { x.RenameSetId? || x.RenameRecord? }

  lemma RenameMoves(s: State, t: Tid, x: RenameStep) returns (g: Loc -> Loc)
    requires RenameEnabled(s, t, x) && ThreadOk(s, t)
    ensures if GivesId(x) then MovesBy(s, RenameApply(s, t, x), t, g, s.Th(t).o, s.Th(t).n)
            else MovesBy(s, RenameApply(s, t, x), t, g, "", "")
    ensures CountsBy(s, RenameApply(s, t, x), g) && (GivesId(x) ==> g == STAY)
  {
    var th, s' := s.Th(t), RenameApply(s, t, x);
    match x
    case RenameTake => ShapeTake(s, s', t, th.o); g := Taken(t, th.o);
    case RenameSetId => ShapeRenameHand(s, s', t, th.o, th.n); g := STAY;
    case RenamePut => ShapePut(s, s', t, th.held); g := PutBack(t, th.n);
    case RenameRecord(key, i) => ShapeRenameRow(s, s', t, key, i, th.n); g := STAY;
    case _ => ShapeStay(s, s', t); g := STAY;
  }

  lemma CancelMoves(s: State, t: Tid, x: CancelStep) returns (g: Loc -> Loc)
    requires CancelEnabled(s, t, x)
    ensures MovesBy(s, CancelApply(s, t, x), t, g, "", "")
    ensures CountsBy(s, CancelApply(s, t, x), g)
  {
    var s' := CancelApply(s, t, x);
    if x.CancelTake? {
      ShapeTake(s, s', t, x.id);
      g := Taken(t, x.id);
    } else {
      ShapeStay(s, s', t);
      g := STAY;
    }
  }

  // ---- What moving keeps ----

  lemma KeepUnique(s: State, s': State, t: Tid, g: Loc -> Loc, o: HandleId, n: HandleId)
    requires Unique(s) && MovesBy(s, s', t, g, o, n) && (o != n ==> Nobody(s, n))
    ensures Unique(s')
  {
    forall l, m | Has(s', l) && Has(s', m) && l != m ensures Apart(At(s', l), At(s', m)) {
      assert From(s, s', l, g(l), o, n) && From(s, s', m, g(m), o, n);
      assert Apart(At(s, g(l)), At(s, g(m)));
    }
  }

  lemma KeepFaithful(s: State, s': State, t: Tid, g: Loc -> Loc, o: HandleId, n: HandleId)
    requires Faithful(s) && MovesBy(s, s', t, g, o, n) && (o != n ==> n in s.used)
    requires s.used <= s'.used && s'.entered == s.entered
    ensures Faithful(s')
  {
    forall l | Has(s', l) ensures FromEntry(s', At(s', l)) {
      assert From(s, s', l, g(l), o, n);
      assert FromEntry(s, At(s, g(l)));
    }
  }

  lemma KeepNobody(s: State, s': State, t: Tid, g: Loc -> Loc, o: HandleId, n: HandleId, id: HandleId)
    requires Nobody(s, id) && MovesBy(s, s', t, g, o, n) && (o != n ==> id != n)
    ensures Nobody(s', id)
  {
    forall l | Has(s', l) ensures At(s', l).handleId != id {
      assert From(s, s', l, g(l), o, n);
    }
  }

  /** The thread's reserved and vacated ids are as before, or given up. */
  predicate TagsKept(s: State, s': State, t: Tid)
  {
    && (Reserved(s'.Th(t)).Some? ==> Reserved(s'.Th(t)) == Reserved(s.Th(t)))
    && (Vacated(s'.Th(t)).Some? ==> Vacated(s'.Th(t)) == Vacated(s.Th(t)))
  }

  ghost predicate Tags(s: State)
  {
    (forall t: Tid :: TagsOk(s, t)) && (forall t: Tid, u: Tid :: TagsApart(s, t, u))
  }

  lemma KeepTags(s: State, s': State, t: Tid, g: Loc -> Loc)
    requires Tags(s) && MovesBy(s, s', t, g, "", "") && TagsKept(s, s', t) && s.used <= s'.used
    ensures Tags(s')
  {
    forall u: Tid ensures TagsOk(s', u) {
      assert TagsOk(s, u);
      if Reserved(s'.Th(u)).Some? { KeepNobody(s, s', t, g, "", "", Reserved(s'.Th(u)).value); }
      if Vacated(s'.Th(u)).Some? { KeepNobody(s, s', t, g, "", "", Vacated(s'.Th(u)).value); }
    }
    forall u: Tid, v: Tid ensures TagsApart(s', u, v) {
      assert TagsApart(s, u, v);
    }
  }

  /** A record between the two counting statements of its promotion. */
  predicate MidCount(th: Thread) { th.Promoting? && th.stage == 1 }

  /** Counts that no stats object of a record changed. */
  predicate StatsKept(s: State, s': State)
  {
    forall st :: st in s'.stats && st in s.entered ==> st in s.stats && s'.stats[st].attempts == s.stats[st].attempts
  }

  lemma KeepAttempts(s: State, s': State, t: Tid, g: Loc -> Loc, o: HandleId, n: HandleId)
    requires AttemptsAgree(s) && Faithful(s) && MovesBy(s, s', t, g, o, n) && CountsBy(s, s', g) && StatsKept(s, s')
    requires !MidCount(s'.Th(t)) && (MidCount(s.Th(t)) ==> Hand(s'.Th(t)) == [] && g == STAY)
    ensures AttemptsAgree(s')
  {
    forall l | Has(s', l) ensures Agrees(s', l) {
      assert From(s, s', l, g(l), o, n);
      assert Agrees(s, g(l)) && FromEntry(s, At(s, g(l)));
    }
  }

  /** What is to prove about one step, besides the threads' own state. */
  ghost predicate RecordsOk(s: State)
  {
    Unique(s) && Faithful(s) && AttemptsAgree(s) && Tags(s)
  }

  lemma KeepRecords(s: State, s': State, t: Tid, g: Loc -> Loc)
    requires RecordsOk(s) && MovesBy(s, s', t, g, "", "") && CountsBy(s, s', g) && StatsKept(s, s')
    requires TagsKept(s, s', t) && s.used <= s'.used && s'.entered == s.entered
    requires !MidCount(s'.Th(t)) && (MidCount(s.Th(t)) ==> Hand(s'.Th(t)) == [] && g == STAY)
    ensures RecordsOk(s')
  {
    KeepUnique(s, s', t, g, "", "");
    KeepFaithful(s, s', t, g, "", "");
    KeepAttempts(s, s', t, g, "", "");
    KeepTags(s, s', t, g);
  }

  // ---- The records over each kind of step ----

  lemma EnvRecords(s: State, x: EnvStep)
    requires RecordsOk(s)
    ensures RecordsOk(EnvApply(s, x))
  {
    var s' := EnvApply(s, x);
    EnvMoves(s, x);
    KeepUnique(s, s', 0, STAY, "", "");
    KeepFaithful(s, s', 0, STAY, "", "");
    KeepTags(s, s', 0, STAY);
    forall l | Has(s', l) ensures Agrees(s', l) {
      assert Has(s, l) && At(s', l) == At(s, l) && Agrees(s, l) && FromEntry(s, At(s, l));
    }
  }

  lemma CallRecords(s: State, t: Tid, x: CallStep)
    requires RecordsOk(s) && CallEnabled(s, t, x)
    ensures RecordsOk(CallApply(s, t, x))
  {
    var s' := CallApply(s, t, x);
    CallMoves(s, t, x);
    if x.StartRename? {
      KeepUnique(s, s', t, STAY, "", "");
      KeepFaithful(s, s', t, STAY, "", "");
      KeepAttempts(s, s', t, STAY, "", "");
      StartRenameTags(s, s', t, x.n);
    } else {
      KeepRecords(s, s', t, STAY);
    }
  }

  /** A rename starts by reserving an id that has never been used. */
  lemma StartRenameTags(s: State, s': State, t: Tid, n: HandleId)
    requires Tags(s) && Faithful(s) && MovesBy(s, s', t, STAY, "", "") && n !in s.used && s'.used == s.used + {n}
    requires Reserved(s.Th(t)).None? && Reserved(s'.Th(t)) == Some(n) && Vacated(s'.Th(t)).None?
    ensures Tags(s')
  {
    assert Nobody(s, n) by {
      forall l | Has(s, l) ensures At(s, l).handleId != n {
        assert FromEntry(s, At(s, l));
      }
    }
    KeepNobody(s, s', t, STAY, "", "", n);
    forall u: Tid ensures TagsOk(s', u) {
      assert TagsOk(s, u);
      if Reserved(s'.Th(u)).Some? && u != t { KeepNobody(s, s', t, STAY, "", "", Reserved(s'.Th(u)).value); }
      if Vacated(s'.Th(u)).Some? { KeepNobody(s, s', t, STAY, "", "", Vacated(s'.Th(u)).value); }
    }
    forall u: Tid, v: Tid ensures TagsApart(s', u, v) {
      assert TagsApart(s, u, v) && TagsOk(s, u) && TagsOk(s, v);
    }
  }

  lemma LockRecords(s: State, t: Tid, x: LockStep)
    requires RecordsOk(s) && LockEnabled(s, t, x)
    ensures RecordsOk(LockApply(s, t, x))
  {
    LockMoves(s, t, x);
    KeepRecords(s, LockApply(s, t, x), t, STAY);
  }

  lemma PutRecords(s: State, t: Tid, x: PutStep)
    requires RecordsOk(s) && PutEnabled(s, t, x)
    ensures RecordsOk(PutApply(s, t, x))
  {
    var g := PutMoves(s, t, x);
    KeepRecords(s, PutApply(s, t, x), t, g);
  }

  lemma SweepRecords(s: State, t: Tid, x: SweepStep)
    requires RecordsOk(s) && SweepEnabled(s, t, x)
    ensures RecordsOk(SweepApply(s, t, x))
  {
    var s' := SweepApply(s, t, x);
    var g := SweepMoves(s, t, x);
    if x.CountEntry? || x.CountStats? {
      KeepUnique(s, s', t, g, "", "");
      KeepFaithful(s, s', t, g, "", "");
      KeepTags(s, s', t, g);
      CountAttempts(s, t, x);
    } else {
      KeepRecords(s, s', t, g);
    }
  }

  /** The record's counter and its stats' counter go up one after the other, and nobody else
      shares the stats. */
  lemma CountAttempts(s: State, t: Tid, x: SweepStep)
    requires Unique(s) && AttemptsAgree(s) && SweepEnabled(s, t, x) && (x.CountEntry? || x.CountStats?)
    ensures AttemptsAgree(SweepApply(s, t, x))
  {
    var s' := SweepApply(s, t, x);
    var own := InHand(t, 0);
    assert Has(s, own) && At(s, own).stats == s.Th(t).entry.stats;
    forall l | Has(s', l) ensures Agrees(s', l) {
      assert Has(s, l) && Agrees(s, l);
      if l != own {
        assert Apart(At(s, l), At(s, own));
      }
    }
  }

  lemma RequeueRecords(s: State, t: Tid, x: RequeueStep)
    requires RecordsOk(s) && RequeueEnabled(s, t, x)
    ensures RecordsOk(RequeueApply(s, t, x))
  {
    var g := RequeueMoves(s, t, x);
    RequeueKeepsRest(s, t, x);
    KeepRecords(s, RequeueApply(s, t, x), t, g);
  }

  lemma RequeueKeepsRest(s: State, t: Tid, x: RequeueStep)
    requires RequeueEnabled(s, t, x)
    ensures var s' := RequeueApply(s, t, x);
            && StatsKept(s, s') && TagsKept(s, s', t) && s'.used == s.used && s'.entered == s.entered
            && !MidCount(s'.Th(t)) && !MidCount(s.Th(t))
  {
  }

  lemma RenameRecords(s: State, t: Tid, x: RenameStep)
    requires RecordsOk(s) && ThreadOk(s, t) && RenameEnabled(s, t, x)
    ensures RecordsOk(RenameApply(s, t, x))
  {
    var s' := RenameApply(s, t, x);
    var g := RenameMoves(s, t, x);
    if GivesId(x) {
      var o, n, place := GivesOnce(s, t, x);
      KeepUnique(s, s', t, g, o, n);
      KeepFaithful(s, s', t, g, o, n);
      KeepAttempts(s, s', t, g, o, n);
      GiveTags(s, s', t, g, o, n, place);
    } else {
      KeepRecords(s, s', t, g);
    }
  }

  /** A rename gives its new id out once, to the one record that has the old one. */
  lemma GivesOnce(s: State, t: Tid, x: RenameStep) returns (o: HandleId, n: HandleId, place: Loc)
    requires Tags(s) && ThreadOk(s, t) && RenameEnabled(s, t, x) && GivesId(x)
    ensures o == s.Th(t).o && n == s.Th(t).n && Reserved(s.Th(t)) == Some(n) && Nobody(s, n) && n in s.used && o != n
    ensures Has(s, place) && At(s, place).handleId == o
    ensures Has(RenameApply(s, t, x), place) && At(RenameApply(s, t, x), place).handleId == n && !Elsewhere(place, t)
    ensures Reserved(RenameApply(s, t, x).Th(t)).None? && Vacated(RenameApply(s, t, x).Th(t)) == Some(o)
  {
    o, n := s.Th(t).o, s.Th(t).n;
    place := if x.RenameSetId? then InHand(t, 0) else InRow(x.key, x.i);
    assert TagsOk(s, t);
    assert Has(s, place) && At(s, place).handleId == o;
  }

  /** Once given out, the new id is somebody's and the old one nobody's. */
  lemma GiveTags(s: State, s': State, t: Tid, g: Loc -> Loc, o: HandleId, n: HandleId, place: Loc)
    requires Tags(s) && Unique(s) && Unique(s') && Faithful(s) && MovesBy(s, s', t, g, o, n) && g == STAY
    requires Reserved(s.Th(t)) == Some(n) && Nobody(s, n) && o != n && s'.used == s.used
    requires Has(s, place) && At(s, place).handleId == o && Has(s', place) && At(s', place).handleId == n
    requires Reserved(s'.Th(t)).None? && Vacated(s'.Th(t)) == Some(o)
    ensures Tags(s')
  {
    assert FromEntry(s, At(s, place));
    assert Nobody(s', o) by {
      forall l | Has(s', l) ensures At(s', l).handleId != o {
        assert From(s, s', l, l, o, n);
        assert l != place ==> Apart(At(s, l), At(s, place));
      }
    }
    forall u: Tid ensures TagsOk(s', u) {
      assert TagsOk(s, u) && TagsApart(s, t, u) && TagsApart(s, u, t);
      if u != t {
        if Reserved(s'.Th(u)).Some? { KeepNobody(s, s', t, g, o, n, Reserved(s'.Th(u)).value); }
        if Vacated(s'.Th(u)).Some? { KeepNobody(s, s', t, g, o, n, Vacated(s'.Th(u)).value); }
      }
    }
    forall u: Tid, v: Tid ensures TagsApart(s', u, v) {
      assert TagsApart(s, u, v) && TagsOk(s, u);
    }
  }

  lemma CancelRecords(s: State, t: Tid, x: CancelStep)
    requires RecordsOk(s) && CancelEnabled(s, t, x)
    ensures RecordsOk(CancelApply(s, t, x))
  {
    var g := CancelMoves(s, t, x);
    KeepRecords(s, CancelApply(s, t, x), t, g);
  }

  /** A new handle's record shares nothing with any other. */
  lemma EnterRecords(s: State, t: Tid, p: Waiter, th: Thread)
    requires RecordsOk(s) && s.Th(t).Idle? && NewHandle(s, p) && (th == InsertCall(p) || th == TrackCall(p))
    ensures RecordsOk(Enter(s, t, p, th))
  {
    var s' := Enter(s, t, p, th);
    forall l | Has(s', l) ensures FromEntry(s', At(s', l)) && Agrees(s', l) {
      EnterOne(s, t, p, th, l);
    }
    forall l, m | Has(s', l) && Has(s', m) && l != m ensures Apart(At(s', l), At(s', m)) {
      EnterOne(s, t, p, th, l);
      EnterOne(s, t, p, th, m);
    }
    EnterTags(s, t, p, th);
  }

  /** A record after an entry: the newcomer's, or one from before that is apart from it. */
  lemma EnterOne(s: State, t: Tid, p: Waiter, th: Thread, l: Loc)
    requires RecordsOk(s) && s.Th(t).Idle? && NewHandle(s, p) && (th == InsertCall(p) || th == TrackCall(p))
    requires Has(Enter(s, t, p, th), l)
    ensures var s' := Enter(s, t, p, th);
            && FromEntry(s', At(s', l)) && Agrees(s', l)
            && if l == InHand(t, 0) then At(s', l) == p.ToSubscriber()
               else Has(s, l) && At(s', l) == At(s, l) && Apart(At(s, l), p.ToSubscriber())
                    && Apart(p.ToSubscriber(), At(s, l))
  {
    var s' := Enter(s, t, p, th);
    assert l.InHand? && l.t != t ==> s'.Th(l.t) == s.Th(l.t);
    if l != InHand(t, 0) {
      assert Has(s, l) && FromEntry(s, At(s, l)) && Agrees(s, l);
    }
  }

  lemma EnterTags(s: State, t: Tid, p: Waiter, th: Thread)
    requires RecordsOk(s) && s.Th(t).Idle? && NewHandle(s, p) && (th == InsertCall(p) || th == TrackCall(p))
    ensures Tags(Enter(s, t, p, th))
  {
    var s' := Enter(s, t, p, th);
    forall u: Tid ensures TagsOk(s', u) {
      assert TagsOk(s, u);
      forall l | Has(s', l) ensures l == InHand(t, 0) || (Has(s, l) && At(s', l) == At(s, l)) {
        EnterOne(s, t, p, th, l);
      }
    }
    forall u: Tid, v: Tid ensures TagsApart(s', u, v) {
      assert TagsApart(s, u, v);
    }
  }

  // ---- The threads over each kind of step ----

  lemma EnvThreads(s: State, x: EnvStep, u: Tid)
    requires ThreadOk(s, u)
    ensures ThreadOk(EnvApply(s, x), u)
    ensures EnvApply(s, x).pending == s.pending
  {
  }

  lemma EnterThreads(s: State, t: Tid, p: Waiter, th: Thread, u: Tid)
    requires ThreadOk(s, t) && ThreadOk(s, u) && s.Th(t).Idle? && (th == InsertCall(p) || th == TrackCall(p))
    ensures ThreadOk(Enter(s, t, p, th), u)
  {
  }

  lemma CallThreads(s: State, t: Tid, x: CallStep, u: Tid)
    requires ThreadOk(s, t) && ThreadOk(s, u) && CallEnabled(s, t, x)
    ensures ThreadOk(CallApply(s, t, x), u)
    ensures CallApply(s, t, x).pending == s.pending
  {
  }

  lemma LockThreads(s: State, t: Tid, x: LockStep, u: Tid)
    requires ThreadOk(s, t) && ThreadOk(s, u) && LockEnabled(s, t, x)
    ensures ThreadOk(LockApply(s, t, x), u)
    ensures LockApply(s, t, x).pending == s.pending
  {
  }

  lemma PutThreads(s: State, t: Tid, x: PutStep, u: Tid)
    requires ThreadOk(s, t) && ThreadOk(s, u) && PendingKeysMatch(s) && PutEnabled(s, t, x)
    ensures ThreadOk(PutApply(s, t, x), u) && PendingKeysMatch(PutApply(s, t, x))
  {
  }

  /** Only the thread that owns the pending lock takes anything out of the map. */
  lemma SweepThreads(s: State, t: Tid, x: SweepStep, u: Tid)
    requires ThreadOk(s, t) && ThreadOk(s, u) && PendingKeysMatch(s) && SweepEnabled(s, t, x)
    ensures ThreadOk(SweepApply(s, t, x), u) && PendingKeysMatch(SweepApply(s, t, x))
  {
  }

  lemma RequeueThreads(s: State, t: Tid, x: RequeueStep, u: Tid)
    requires ThreadOk(s, t) && ThreadOk(s, u) && PendingKeysMatch(s) && RequeueEnabled(s, t, x)
    ensures ThreadOk(RequeueApply(s, t, x), u) && PendingKeysMatch(RequeueApply(s, t, x))
  {
    RequeueKeys(s, t, x);
    RequeueOwners(s, t, x, u);
  }

  lemma RequeueKeys(s: State, t: Tid, x: RequeueStep)
    requires PendingKeysMatch(s) && RequeueEnabled(s, t, x)
    ensures PendingKeysMatch(RequeueApply(s, t, x))
  {
  }

  lemma RequeueOwners(s: State, t: Tid, x: RequeueStep, u: Tid)
    requires ThreadOk(s, t) && ThreadOk(s, u) && RequeueEnabled(s, t, x)
    ensures ThreadOk(RequeueApply(s, t, x), u)
  {
    RequeueOnlyAdds(s, t, x);
    OwnersKept(s, RequeueApply(s, t, x), t, u);
  }

  lemma RequeueOnlyAdds(s: State, t: Tid, x: RequeueStep)
    requires RequeueEnabled(s, t, x)
    ensures var s' := RequeueApply(s, t, x);
            && OnlyHand(s, s', t) && s'.pendingLock == s.pendingLock && s'.subsLock == s.subsLock
            && s.pending.Keys <= s'.pending.Keys
            && (s'.Th(t).Requeueing? || s'.Th(t).RequeueingRow? || s'.Th(t).HoldsBoth?)
            && (s.Th(t).Requeueing? || s.Th(t).RequeueingRow?)
  {
  }

  lemma OwnersKept(s: State, s': State, t: Tid, u: Tid)
    requires ThreadOk(s, t) && ThreadOk(s, u) && OnlyHand(s, s', t)
    requires s'.pendingLock == s.pendingLock && s'.subsLock == s.subsLock && s.pending.Keys <= s'.pending.Keys
    requires s.Th(t).Requeueing? || s.Th(t).RequeueingRow?
    requires s'.Th(t).Requeueing? || s'.Th(t).RequeueingRow? || s'.Th(t).HoldsBoth?
    ensures ThreadOk(s', u)
  {
  }

  lemma RenameThreads(s: State, t: Tid, x: RenameStep, u: Tid)
    requires ThreadOk(s, t) && ThreadOk(s, u) && PendingKeysMatch(s) && RenameEnabled(s, t, x)
    ensures ThreadOk(RenameApply(s, t, x), u) && PendingKeysMatch(RenameApply(s, t, x))
  {
  }

  lemma CancelThreads(s: State, t: Tid, x: CancelStep, u: Tid)
    requires ThreadOk(s, t) && ThreadOk(s, u) && PendingKeysMatch(s) && CancelEnabled(s, t, x)
    ensures ThreadOk(CancelApply(s, t, x), u) && PendingKeysMatch(CancelApply(s, t, x))
  {
  }

  lemma StepThreads(s: State, t: Tid, a: Action, s': State, u: Tid)
    requires ThreadOk(s, t) && ThreadOk(s, u) && PendingKeysMatch(s) && Step(s, t, a, s')
    ensures ThreadOk(s', u) && PendingKeysMatch(s')
  {
    match a
    case Env(x) => EnvThreads(s, x, u);
    case StartInsert(p) => EnterThreads(s, t, p, InsertCall(p), u);
    case StartTrack(p) => EnterThreads(s, t, p, TrackCall(p), u);
    case Call(x) => CallThreads(s, t, x, u);
    case Lock(x) => LockThreads(s, t, x, u);
    case Put(x) => PutThreads(s, t, x, u);
    case Sweep(x) => SweepThreads(s, t, x, u);
    case Requeue(x) => RequeueThreads(s, t, x, u);
    case Rename(x) => RenameThreads(s, t, x, u);
    case Cancel(x) => CancelThreads(s, t, x, u);
  }

  lemma StepRecords(s: State, t: Tid, a: Action, s': State)
    requires ThreadOk(s, t) && RecordsOk(s) && Step(s, t, a, s')
    ensures RecordsOk(s')
  {
    match a
    case Env(x) => EnvRecords(s, x);
    case StartInsert(p) => EnterRecords(s, t, p, InsertCall(p));
    case StartTrack(p) => EnterRecords(s, t, p, TrackCall(p));
    case Call(x) => CallRecords(s, t, x);
    case Lock(x) => LockRecords(s, t, x);
    case Put(x) => PutRecords(s, t, x);
    case Sweep(x) => SweepRecords(s, t, x);
    case Requeue(x) => RequeueRecords(s, t, x);
    case Rename(x) => RenameRecords(s, t, x);
    case Cancel(x) => CancelRecords(s, t, x);
  }

  // ---- Main results ----

  lemma StepInv(s: State, t: Tid, a: Action, s': State)
    requires Inv(s) && Step(s, t, a, s')
    ensures Inv(s')
  {
    StepRecords(s, t, a, s');
    StepThreads(s, t, a, s', t);
    forall u: Tid ensures ThreadOk(s', u) {
      StepThreads(s, t, a, s', u);
    }
  }

  /** A run: from an empty registry, one step of some thread after the other. */
  ghost predicate Run(states: seq<State>)
  {
    && |states| > 0 && states[0] == INIT
    && forall i :: 0 <= i < |states| - 1 ==> StepsAt(states, i)
  }

  ghost predicate StepsAt(states: seq<State>, i: nat)
  {
    i + 1 < |states| && StepsTo(states[i], states[i + 1])
  }

  ghost predicate StepsTo(s: State, s': State)
  {
    exists t: Tid, a :: Step(s, t, a, s')
  }

  lemma StepsToInv(s: State, s': State)
    requires Inv(s) && StepsTo(s, s')
    ensures Inv(s')
  {
    var t: Tid, a :| Step(s, t, a, s');
    StepInv(s, t, a, s');
  }

  /** In every interleaving, panics included: no handle has two records, every pending key is
      its record's id, every record carries what its handle entered with, live counters agree,
      and the lookups of a loop's snapshot succeed. */
  lemma {:induction false} EveryRunIsConsistent(states: seq<State>, i: nat)
    requires Run(states) && i < |states|
    ensures Inv(states[i])
  {
    if i > 0 {
      EveryRunIsConsistent(states, i - 1);
      assert StepsAt(states, i - 1);
      StepsToInv(states[i - 1], states[i]);
    }
  }

  /** The maps alone: a handle id names at most one record, in one of the two maps. */
  ghost predicate OnePlace(s: State)
  {
    && (forall id :: id in s.pending ==> s.pending[id].handleId == id)
    && (forall id, k, i :: id in s.pending && k in s.subs && 0 <= i < |s.subs[k]| ==> s.subs[k][i].handleId != id)
    && (forall k, i, l, j
          | k in s.subs && l in s.subs && 0 <= i < |s.subs[k]| && 0 <= j < |s.subs[l]| && (k, i) != (l, j)
          :: s.subs[k][i].handleId != s.subs[l][j].handleId)
  }

  /** A stored record counts as many attempts as the live stats it belongs to. */
  ghost predicate CountsMatch(s: State)
  {
    && (forall id :: id in s.pending && s.pending[id].stats in s.stats ==>
          s.pending[id].attempts == s.stats[s.pending[id].stats].attempts)
    && (forall k, i :: k in s.subs && 0 <= i < |s.subs[k]| && s.subs[k][i].stats in s.stats ==>
          s.subs[k][i].attempts == s.stats[s.subs[k][i].stats].attempts)
  }

  lemma MapsAreOnePlace(s: State)
    requires Inv(s)
    ensures OnePlace(s)
  {
    forall id, k, i | id in s.pending && k in s.subs && 0 <= i < |s.subs[k]| ensures s.subs[k][i].handleId != id {
      assert Has(s, InPending(id)) && Has(s, InRow(k, i));
    }
    forall k, i, l, j | k in s.subs && l in s.subs && 0 <= i < |s.subs[k]| && 0 <= j < |s.subs[l]| && (k, i) != (l, j)
      ensures s.subs[k][i].handleId != s.subs[l][j].handleId
    {
      assert Has(s, InRow(k, i)) && Has(s, InRow(l, j)) && InRow(k, i) != InRow(l, j);
    }
  }

  lemma MapsCountsMatch(s: State)
    requires Inv(s)
    ensures CountsMatch(s)
  {
    forall id | id in s.pending && s.pending[id].stats in s.stats
      ensures s.pending[id].attempts == s.stats[s.pending[id].stats].attempts
    {
      assert Has(s, InPending(id)) && Agrees(s, InPending(id));
    }
    forall k, i | k in s.subs && 0 <= i < |s.subs[k]| && s.subs[k][i].stats in s.stats
      ensures s.subs[k][i].attempts == s.stats[s.subs[k][i].stats].attempts
    {
      assert Has(s, InRow(k, i)) && Agrees(s, InRow(k, i));
    }
  }

  /** What a reader of the maps sees, at every point of every run, even in the middle of a
      critical section or after a panic there. */
  lemma NoHandleTwice(states: seq<State>, i: nat)
    requires Run(states) && i < |states|
    ensures OnePlace(states[i]) && CountsMatch(states[i])
  {
    EveryRunIsConsistent(states, i);
    MapsAreOnePlace(states[i]);
    MapsCountsMatch(states[i]);
  }

  /** Every step but a handle's entry moves records; only a rename changes an id. */
  lemma StepMoves(s: State, u: Tid, a: Action, s': State) returns (v: Tid, g: Loc -> Loc, o: HandleId, n: HandleId)
    requires ThreadOk(s, u) && Step(s, u, a, s') && !a.StartInsert? && !a.StartTrack?
    ensures MovesBy(s, s', v, g, o, n)
    ensures o != n ==> a.Rename? && GivesId(a.rename) && o == s.Th(u).o && n == s.Th(u).n
  {
    v, g, o, n := u, STAY, "", "";
    match a
    case Env(x) => EnvMoves(s, x); v := 0;
    case Call(x) => CallMoves(s, u, x);
    case Lock(x) => LockMoves(s, u, x);
    case Put(x) => g := PutMoves(s, u, x);
    case Sweep(x) => g := SweepMoves(s, u, x);
    case Requeue(x) => g := RequeueMoves(s, u, x);
    case Rename(x) =>
      g := RenameMoves(s, u, x);
      if GivesId(x) {
        o, n := s.Th(u).o, s.Th(u).n;
      }
    case Cancel(x) => g := CancelMoves(s, u, x);
  }

  /** Outside of a new handle's entry, no step, panic or not, makes a record: each one after
      the step was there before, and no two were the same one. */
  lemma NoStepCopies(s: State, t: Tid, a: Action, s': State)
    requires ThreadOk(s, t) && Step(s, t, a, s') && !a.StartInsert? && !a.StartTrack?
    ensures exists u: Tid, g, o, n :: MovesBy(s, s', u, g, o, n)
  {
    var u, g, o, n := StepMoves(s, t, a, s');
  }
}
