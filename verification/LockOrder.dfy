/** The lock acquisitions of the registry's calls (`sonda-server/src/gate_registry.rs`), as
    programs over three read-write locks, and when concurrent calls can wait for each other in
    a circle. */
module LockOrder {

  datatype Lock = Buses | Subscribers | Pending
  datatype Mode = Read | Write
  datatype Op = Acquire(lock: Lock, mode: Mode) | Release(lock: Lock)

  datatype Call = Register | Lookup | NameInUse | UnregisterEntries | SweepPending | InsertPending
                | PendingForHandle | TrackSubscriber | RenameHandle | CancelPending

  /** The guards of each call, in the order they are taken and dropped. */
  function Program(c: Call): seq<Op>
  {
    match c
    case Register => [Acquire(Buses, Write), Release(Buses)]
    case Lookup => [Acquire(Buses, Read), Release(Buses)]
    case NameInUse => [Acquire(Buses, Read), Release(Buses)]
    case UnregisterEntries => [Acquire(Buses, Write), Release(Buses), Acquire(Subscribers, Write),
                               Acquire(Pending, Write), Release(Pending), Release(Subscribers)]
    case SweepPending => [Acquire(Buses, Read), Acquire(Pending, Write), Acquire(Subscribers, Write),
                          Release(Subscribers), Release(Pending), Release(Buses)]
    case InsertPending => [Acquire(Pending, Write), Release(Pending)]
    case PendingForHandle => [Acquire(Pending, Read), Release(Pending)]
    case TrackSubscriber => [Acquire(Subscribers, Write), Release(Subscribers)]
    case RenameHandle => [Acquire(Pending, Write), Release(Pending), Acquire(Subscribers, Write), Release(Subscribers)]
    case CancelPending => [Acquire(Pending, Write), Release(Pending)]
  }

  /** The maps a call changes, and those it only looks at. */
  function Changes(c: Call): set<Lock>
  {
    match c
    case Register => {Buses}
    case UnregisterEntries => {Buses, Subscribers, Pending}
    case SweepPending => {Subscribers, Pending}
    case InsertPending => {Pending}
    case CancelPending => {Pending}
    case TrackSubscriber => {Subscribers}
    case RenameHandle => {Subscribers, Pending}
    case _ => {}
  }

  function LooksAt(c: Call): set<Lock>
  {
    match c
    case Lookup => {Buses}
    case NameInUse => {Buses}
    case SweepPending => {Buses}
    case PendingForHandle => {Pending}
    case _ => {}
  }

  /** Each call takes the locks of the maps it needs, for writing exactly those it changes, and gives
      all of them back. */
  lemma TakesWhatItNeeds(c: Call)
    ensures forall l :: Acquire(l, Write) in Program(c) <==> l in Changes(c)
    ensures forall l :: Acquire(l, Read) in Program(c) <==> l in LooksAt(c)
    ensures Held(Program(c)) == map[]
  {
    GivesBack(c);
  }

  lemma GivesBack(c: Call)
    ensures Held(Program(c)) == map[]
  {
    var p := Program(c);
    assert p[..|p|] == p && p[..0] == [];
    HeldNext(p, 0);
    HeldNext(p, 1);
    if |p| > 2 {
      HeldNext(p, 2);
      HeldNext(p, 3);
    }
    if |p| > 4 {
      HeldNext(p, 4);
      HeldNext(p, 5);
    }
  }

  lemma HeldNext(p: seq<Op>, k: nat)
    requires k < |p|
    ensures Held(p[..k + 1]) == match p[k] { case Acquire(l, m) => Held(p[..k])[l := m]
                                             case Release(l) => Held(p[..k]) - {l} }
  {
    assert p[..k + 1][..k] == p[..k];
  }

  /** A call in progress: its next operation is `Program(call)[pc]`. */
  datatype Thread = Thread(call: Call, pc: nat)

  /** The locks taken and not dropped in a prefix of a program, with the mode they are held in. */
  function Held(ops: seq<Op>): map<Lock, Mode>
  {
    if ops == [] then map[]
    else
      var before, op := Held(ops[..|ops| - 1]), ops[|ops| - 1];
      match op
      case Acquire(l, m) => before[l := m]
      case Release(l) => before - {l}
  }

  function Holds(t: Thread): map<Lock, Mode>
  {
    if t.pc <= |Program(t.call)| then Held(Program(t.call)[..t.pc]) else map[]
  }

  type State = seq<Thread>

  /** A read-write lock lets an acquisition through unless a holder's mode conflicts. */
  predicate Grants(s: State, i: nat, l: Lock, m: Mode)
  {
    forall j :: 0 <= j < |s| && j != i && l in Holds(s[j]) ==> m.Read? && Holds(s[j])[l].Read?
  }

  predicate CanStep(s: State, i: nat)
  {
    i < |s| && s[i].pc < |Program(s[i].call)|
    && (Program(s[i].call)[s[i].pc].Acquire? ==>
          Grants(s, i, Program(s[i].call)[s[i].pc].lock, Program(s[i].call)[s[i].pc].mode))
  }

  /** One operation, or a panic, which drops every guard. */
  predicate Step(s: State, s': State, i: nat)
  {
    || (CanStep(s, i) && s' == s[i := Thread(s[i].call, s[i].pc + 1)])
    || (i < |s| && s' == s[i := Thread(s[i].call, |Program(s[i].call)|)])
  }

  function Start(calls: seq<Call>): State
  {
    seq(|calls|, i requires 0 <= i < |calls| => Thread(calls[i], 0))
  }

  ghost predicate Run(calls: seq<Call>, states: seq<State>)
  {
    && |states| > 0 && states[0] == Start(calls)
    && forall k :: 0 <= k < |states| - 1 ==> StepsTo(states[k], states[k + 1])
  }

  ghost predicate StepsTo(s: State, s': State)
  {
    exists i: nat :: Step(s, s', i)
  }

  // ---- Circular waits ----

  /** The lock a call asks for next, if it asks for one. */
  predicate Asks(t: Thread)
  {
    t.pc < |Program(t.call)| && Program(t.call)[t.pc].Acquire?
  }

  function Asked(t: Thread): Op
    requires Asks(t)
  {
    Program(t.call)[t.pc]
  }

  /** `a` cannot go on before `b` drops a lock. */
  predicate Blocks(a: Thread, b: Thread)
  {
    Asks(a) && Asked(a).lock in Holds(b) && (Asked(a).mode.Write? || Holds(b)[Asked(a).lock].Write?)
  }

  /** The `k`-th call of the circle waits for the one after it. */
  predicate Link(s: State, circle: seq<nat>, k: nat)
    requires k < |circle|
  {
    var i, j := circle[k], circle[if k + 1 == |circle| then 0 else k + 1];
    i < |s| && j < |s| && i != j && Blocks(s[i], s[j])
  }

  ghost predicate Circle(s: State, circle: seq<nat>)
  {
    |circle| > 0 && forall k :: 0 <= k < |circle| ==> Link(s, circle, k)
  }

  /** An order of the locks that every call without one of the two nested calls respects. */
  function Rank(l: Lock, sweeps: bool): nat
  {
    match l
    case Buses => 0
    case Pending => if sweeps then 1 else 2
    case Subscribers => if sweeps then 2 else 1
  }

  /** The call never sweeps and unregisters in the same world. */
  predicate Respects(c: Call, sweeps: bool)
  {
    if sweeps then c != UnregisterEntries else c != SweepPending
  }

  /** Whatever a call holds when it asks for a lock comes before that lock. */
  lemma OrderedAcquire(t: Thread, h: Lock, sweeps: bool)
    requires Respects(t.call, sweeps) && Asks(t) && h in Holds(t)
    ensures Rank(h, sweeps) < Rank(Asked(t).lock, sweeps)
  {
    HeldOnTheWay();
    HeldNothing(t.call);
  }

  lemma HeldNothing(c: Call)
    ensures Holds(Thread(c, 0)) == map[]
  {
    assert Program(c)[..0] == [];
  }

  /** The locks held at the later acquisitions. */
  lemma HeldOnTheWay()
    ensures Holds(Thread(UnregisterEntries, 1)) == map[Buses := Write]
    ensures Holds(Thread(UnregisterEntries, 2)) == map[]
    ensures Holds(Thread(UnregisterEntries, 3)) == map[Subscribers := Write]
    ensures Holds(Thread(SweepPending, 1)) == map[Buses := Read]
    ensures Holds(Thread(SweepPending, 2)) == map[Buses := Read, Pending := Write]
    ensures Holds(Thread(RenameHandle, 2)) == map[]
  {
    var u, w, r := Program(UnregisterEntries), Program(SweepPending), Program(RenameHandle);
    assert u[..1][..0] == [] && w[..1][..0] == [] && r[..1][..0] == [];
    assert u[..2][..1] == u[..1] && w[..2][..1] == w[..1] && r[..2][..1] == r[..1];
    assert u[..3][..2] == u[..2];
  }

  lemma {:induction false} RanksClimb(s: State, circle: seq<nat>, sweeps: bool, k: nat)
    requires Circle(s, circle) && k < |circle|
    requires forall i :: 0 <= i < |s| ==> Respects(s[i].call, sweeps)
    ensures Link(s, circle, 0) && Link(s, circle, k)
    ensures Rank(Asked(s[circle[k]]).lock, sweeps) >= Rank(Asked(s[circle[0]]).lock, sweeps) + k
  {
    assert Link(s, circle, 0) && Link(s, circle, k);
    if k > 0 {
      RanksClimb(s, circle, sweeps, k - 1);
      LinkClimbs(s, circle, sweeps, k - 1);
    }
  }

  lemma LinkClimbs(s: State, circle: seq<nat>, sweeps: bool, k: nat)
    requires k + 1 < |circle| && Link(s, circle, k) && Link(s, circle, k + 1)
    requires forall i :: 0 <= i < |s| ==> Respects(s[i].call, sweeps)
    ensures Rank(Asked(s[circle[k + 1]]).lock, sweeps) > Rank(Asked(s[circle[k]]).lock, sweeps)
  {
    RankClimbs(s[circle[k]], s[circle[k + 1]], sweeps);
  }

  lemma RankClimbs(a: Thread, b: Thread, sweeps: bool)
    requires Blocks(a, b) && Asks(b) && Respects(b.call, sweeps)
    ensures Rank(Asked(b).lock, sweeps) > Rank(Asked(a).lock, sweeps)
  {
    OrderedAcquire(b, Asked(a).lock, sweeps);
  }

  /** Calls that leave out the sweep, or leave out unregistration, never wait in a circle. */
  lemma NoCircle(s: State, circle: seq<nat>, sweeps: bool)
    requires forall i :: 0 <= i < |s| ==> Respects(s[i].call, sweeps)
    ensures !Circle(s, circle)
  {
    if Circle(s, circle) {
      var n := |circle|;
      RanksClimb(s, circle, sweeps, n - 1);
      OrderedAcquire(s[circle[0]], Asked(s[circle[n - 1]]).lock, sweeps);
    }
  }

  /** Every state of a run is about the calls it started with. */
  lemma {:induction false} RunKeepsCalls(calls: seq<Call>, states: seq<State>, k: nat)
    requires Run(calls, states) && k < |states|
    ensures |states[k]| == |calls| && forall i :: 0 <= i < |calls| ==> states[k][i].call == calls[i]
  {
    if k > 0 {
      RunKeepsCalls(calls, states, k - 1);
      assert StepsTo(states[k - 1], states[k - 1 + 1]);
      var i: nat :| Step(states[k - 1], states[k], i);
    }
  }

  ghost predicate EndsInCircle(calls: seq<Call>, states: seq<State>, circle: seq<nat>)
  {
    Run(calls, states) && Circle(states[|states| - 1], circle)
  }

  ghost predicate CanDeadlock(calls: seq<Call>)
  {
    exists states: seq<State>, circle: seq<nat> :: EndsInCircle(calls, states, circle)
  }

  // ---- The state in which a sweep and an unregistration wait for each other ----

  function At(calls: seq<Call>, u: nat, pu: nat, w: nat, pw: nat): State
    requires u < |calls| && w < |calls|
  {
    Start(calls)[u := Thread(calls[u], pu)][w := Thread(calls[w], pw)]
  }

  /** The unregistration retires its buses. */
  lemma Retires(calls: seq<Call>, u: nat, w: nat) returns (run: seq<State>)
    requires u < |calls| && w < |calls| && calls[u] == UnregisterEntries && calls[w] == SweepPending
    ensures Run(calls, run) && run[|run| - 1] == At(calls, u, 2, w, 0)
  {
    assert At(calls, u, 0, w, 0) == Start(calls);
    run := [At(calls, u, 0, w, 0)];
    DeadlockStep(calls, u, w, 0, 0, u);
    run := Extend(calls, run, At(calls, u, 1, w, 0));
    DeadlockStep(calls, u, w, 1, 0, u);
    run := Extend(calls, run, At(calls, u, 2, w, 0));
  }

  /** The sweep takes its first two locks. */
  lemma SweepBegins(calls: seq<Call>, u: nat, w: nat, before: seq<State>) returns (run: seq<State>)
    requires u < |calls| && w < |calls| && calls[u] == UnregisterEntries && calls[w] == SweepPending
    requires Run(calls, before) && before[|before| - 1] == At(calls, u, 2, w, 0)
    ensures Run(calls, run) && run[|run| - 1] == At(calls, u, 2, w, 2)
  {
    DeadlockStep(calls, u, w, 2, 0, w);
    run := Extend(calls, before, At(calls, u, 2, w, 1));
    DeadlockStep(calls, u, w, 2, 1, w);
    run := Extend(calls, run, At(calls, u, 2, w, 2));
  }

  lemma Deadlock(calls: seq<Call>, u: nat, w: nat)
    requires u < |calls| && w < |calls| && calls[u] == UnregisterEntries && calls[w] == SweepPending
    ensures CanDeadlock(calls)
  {
    var run := Retires(calls, u, w);
    run := SweepBegins(calls, u, w, run);
    DeadlockStep(calls, u, w, 2, 2, u);
    run := Extend(calls, run, At(calls, u, 3, w, 2));
    WaitForEachOther(calls, u, w);
    assert EndsInCircle(calls, run, [u, w]);
  }

  lemma Extend(calls: seq<Call>, run: seq<State>, s': State) returns (longer: seq<State>)
    requires Run(calls, run) && StepsTo(run[|run| - 1], s')
    ensures Run(calls, longer) && longer[|longer| - 1] == s'
  {
    longer := run + [s'];
    forall k | 0 <= k < |longer| - 1 ensures StepsTo(longer[k], longer[k + 1]) {
      assert k < |run| - 1 ==> StepsTo(run[k], run[k + 1]);
    }
  }

  /** The unregistration has the subscribers and asks for the pending map; the sweep the other
      way round. */
  lemma WaitForEachOther(calls: seq<Call>, u: nat, w: nat)
    requires u < |calls| && w < |calls| && calls[u] == UnregisterEntries && calls[w] == SweepPending
    ensures Circle(At(calls, u, 3, w, 2), [u, w])
  {
    HeldOnTheWay();
    var s := At(calls, u, 3, w, 2);
    assert s[u] == Thread(UnregisterEntries, 3) && s[w] == Thread(SweepPending, 2);
    assert Link(s, [u, w], 0) && Link(s, [u, w], 1);
  }

  lemma DeadlockStep(calls: seq<Call>, u: nat, w: nat, pu: nat, pw: nat, i: nat)
    requires u < |calls| && w < |calls| && calls[u] == UnregisterEntries && calls[w] == SweepPending &&
             (i == u || i == w)
    requires (pu, pw) in {(0, 0), (1, 0), (2, 0), (2, 1), (2, 2)} && (i == w <==> (pu, pw) in {(2, 0), (2, 1)})
    ensures StepsTo(At(calls, u, pu, w, pw),
                    At(calls, u, if i == u then pu + 1 else pu, w, if i == w then pw + 1 else pw))
  {
    HeldOnTheWay();
    var s := At(calls, u, pu, w, pw);
    forall j | 0 <= j < |s| && j != u && j != w ensures Holds(s[j]) == map[] {
      HeldNothing(calls[j]);
    }
    HeldNothing(calls[u]);
    HeldNothing(calls[w]);
    assert CanStep(s, i);
    assert StepsTo(s, At(calls, u, if i == u then pu + 1 else pu, w, if i == w then pw + 1 else pw)) by {
      assert Step(s, At(calls, u, if i == u then pu + 1 else pu, w, if i == w then pw + 1 else pw), i);
    }
  }

  /** Concurrent calls can reach a circular wait exactly when a sweep and an unregistration are
      both among them. */
  lemma DeadlockExactlyWhenBoth(calls: seq<Call>)
    ensures CanDeadlock(calls) <==> SweepPending in calls && UnregisterEntries in calls
  {
    if SweepPending in calls && UnregisterEntries in calls {
      var u: nat :| u < |calls| && calls[u] == UnregisterEntries;
      var w: nat :| w < |calls| && calls[w] == SweepPending;
      Deadlock(calls, u, w);
    } else if CanDeadlock(calls) {
      var states: seq<State>, circle: seq<nat> :| EndsInCircle(calls, states, circle);
      RunKeepsCalls(calls, states, |states| - 1);
      NoCircle(states[|states| - 1], circle, UnregisterEntries !in calls);
    }
  }
}
