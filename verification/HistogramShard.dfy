/** The lock-free request histogram of `sonda-server/src/state.rs`: any number of `observe`
    calls interleaved at their atomic operations. Atomic operations are taken to be
    sequentially consistent; `f64` addition is an arbitrary function. */
module HistogramShard {

  type Id = nat

  datatype F64 = NaN | NegInfinity | PosInfinity | Finite(r: real)

  const BOUNDS: seq<real> := [0.005, 0.01, 0.025, 0.05, 0.1, 0.25, 0.5, 1.0, 2.5, 5.0, 10.0]
  const N: nat := 11
  const U64: nat := 0x1_0000_0000_0000_0000

  /** `seconds <= bound`, which is false of NaN. */
  predicate Leq(x: F64, bound: real)
  {
    x.NegInfinity? || (x.Finite? && x.r <= bound)
  }

  /** Where an `observe` call is: below 11 at that bucket, then at `plus_inf`, at `count`, at
      the load of the sum, in the compare-and-swap loop, and done. */
  const PLUS_INF: nat := 11
  const COUNT: nat := 12
  const LOAD: nat := 13
  const CAS: nat := 14
  const DONE: nat := 15

  datatype Observer = Observer(x: F64, pc: nat, current: F64)

  /** The shard, with the calls on it, and the order in which their swaps succeeded. */
  datatype State = State(buckets: seq<nat>, plusInf: nat, count: nat, sum: F64,
                         calls: map<Id, Observer>, wins: seq<Id>)

  const ZERO: F64 := Finite(0.0)
  const INIT := State([0, 0, 0, 0, 0, 0, 0, 0, 0, 0, 0], 0, 0, ZERO, map[], [])

  function FetchAdd(n: nat): nat { (n + 1) % U64 }

  function Advance(s: State, o: Id): State
    requires o in s.calls
  {
    s.(calls := s.calls[o := s.calls[o].(pc := s.calls[o].pc + 1)])
  }

  datatype Action = Observe(x: F64) | Next | Fail

  /** A compare-and-swap may fail although the value is the expected one. */
  predicate Step(add: (F64, F64) -> F64, s: State, o: Id, a: Action, s': State)
  {
    match a
    case Observe(x) => o !in s.calls && s' == s.(calls := s.calls[o := Observer(x, 0, ZERO)])
    case Fail => o in s.calls && s.calls[o].pc == CAS
                 && s' == s.(calls := s.calls[o := s.calls[o].(current := s.sum)])
    case Next =>
      && o in s.calls && |s.buckets| == N
      && var c := s.calls[o];
         if c.pc < PLUS_INF then
           s' == Advance(if Leq(c.x, BOUNDS[c.pc]) then s.(buckets := s.buckets[c.pc := FetchAdd(s.buckets[c.pc])])
                         else s, o)
         else if c.pc == PLUS_INF then s' == Advance(s.(plusInf := FetchAdd(s.plusInf)), o)
         else if c.pc == COUNT then s' == Advance(s.(count := FetchAdd(s.count)), o)
         else if c.pc == LOAD then s' == s.(calls := s.calls[o := c.(pc := CAS, current := s.sum)])
         else c.pc == CAS && s.sum == c.current
              && s' == Advance(s.(sum := add(c.current, c.x), wins := s.wins + [o]), o)
  }

  // ---- The invariant ----

  /** The calls whose increment of bucket `i` has happened. */
  function Passed(s: State, i: nat): set<Id>
    requires i < N
  {
    set o | o in s.calls && s.calls[o].pc > i && Leq(s.calls[o].x, BOUNDS[i])
  }

  function Beyond(s: State, pc: nat): set<Id>
  {
    set o | o in s.calls && s.calls[o].pc > pc
  }

  function InFlight(s: State): set<Id>
  {
    set o | o in s.calls && s.calls[o].pc < DONE
  }

  /** The sum of the observations of `order`, added up in that order. */
  function Fold(add: (F64, F64) -> F64, s: State, order: seq<Id>): F64
    requires forall o :: o in order ==> o in s.calls
    decreases |order|
  {
    if order == [] then ZERO
    else add(Fold(add, s, order[..|order| - 1]), s.calls[order[|order| - 1]].x)
  }

  /** `wins` lists the finished calls, each once. */
  ghost predicate WinsAreDone(s: State)
  {
    && (forall o :: o in s.wins <==> o in s.calls && s.calls[o].pc == DONE)
    && forall i, j :: 0 <= i < j < |s.wins| ==> s.wins[i] != s.wins[j]
  }

  ghost predicate Counters(s: State)
  {
    && |s.buckets| == N
    && (forall i :: 0 <= i < N ==> s.buckets[i] == |Passed(s, i)| % U64)
    && s.plusInf == |Beyond(s, PLUS_INF)| % U64
    && s.count == |Beyond(s, COUNT)| % U64
    && forall o :: o in s.calls ==> s.calls[o].pc <= DONE
  }

  ghost predicate Inv(add: (F64, F64) -> F64, s: State)
  {
    Counters(s) && WinsAreDone(s) && s.sum == Fold(add, s, s.wins)
  }

  lemma Incremented(n: nat, m: nat)
    requires m == n % U64
    ensures FetchAdd(m) == (n + 1) % U64
  {
  }

  /** A step is about one call: it starts it, moves it on by one, or leaves it where it is. */
  lemma StepCalls(add: (F64, F64) -> F64, s: State, o: Id, a: Action, s': State)
    requires Counters(s) && Step(add, s, o, a, s')
    ensures o in s'.calls && s'.calls == s.calls[o := s'.calls[o]]
    ensures if a.Observe? then o !in s.calls && s'.calls[o].pc == 0
            else o in s.calls && s'.calls[o].x == s.calls[o].x
                 && s'.calls[o].pc == s.calls[o].pc + (if a.Next? then 1 else 0) && s'.calls[o].pc <= DONE
    ensures |s'.buckets| == N
    ensures forall i :: 0 <= i < N ==>
              s'.buckets[i] ==
                if a.Next? && s.calls[o].pc == i && Leq(s.calls[o].x, BOUNDS[i]) then FetchAdd(s.buckets[i])
                else s.buckets[i]
    ensures s'.plusInf == if a.Next? && s.calls[o].pc == PLUS_INF then FetchAdd(s.plusInf) else s.plusInf
    ensures s'.count == if a.Next? && s.calls[o].pc == COUNT then FetchAdd(s.count) else s.count
  {
  }

  lemma StepBuckets(add: (F64, F64) -> F64, s: State, o: Id, a: Action, s': State, i: nat)
    requires Counters(s) && Step(add, s, o, a, s') && i < N
    ensures |s'.buckets| == N && s'.buckets[i] == |Passed(s', i)| % U64
  {
    StepCalls(add, s, o, a, s');
    var counts := a.Next? && s.calls[o].pc == i && Leq(s.calls[o].x, BOUNDS[i]);
    PassedChanges(s, s', o, i, counts);
    Incremented(|Passed(s, i)|, s.buckets[i]);
  }

  lemma PassedChanges(s: State, s': State, o: Id, i: nat, counts: bool)
    requires i < N && o in s'.calls && s'.calls == s.calls[o := s'.calls[o]]
    requires o in s'.calls && (o in Passed(s', i) <==> o in Passed(s, i) || counts) && (counts ==> o !in Passed(s, i))
    ensures |Passed(s', i)| == |Passed(s, i)| + if counts then 1 else 0
  {
    assert Passed(s', i) == if counts then Passed(s, i) + {o} else Passed(s, i);
  }

  lemma StepBeyond(add: (F64, F64) -> F64, s: State, o: Id, a: Action, s': State, pc: nat)
    requires Counters(s) && Step(add, s, o, a, s')
    ensures |Beyond(s', pc)| == |Beyond(s, pc)| + if a.Next? && s.calls[o].pc == pc then 1 else 0
  {
    StepCalls(add, s, o, a, s');
    BeyondChanges(s, s', o, pc, a.Next? && s.calls[o].pc == pc);
  }

  lemma BeyondChanges(s: State, s': State, o: Id, pc: nat, counts: bool)
    requires o in s'.calls && s'.calls == s.calls[o := s'.calls[o]]
    requires (o in Beyond(s', pc) <==> o in Beyond(s, pc) || counts) && (counts ==> o !in Beyond(s, pc))
    ensures |Beyond(s', pc)| == |Beyond(s, pc)| + if counts then 1 else 0
  {
    assert Beyond(s', pc) == if counts then Beyond(s, pc) + {o} else Beyond(s, pc);
  }

  lemma StepCounters(add: (F64, F64) -> F64, s: State, o: Id, a: Action, s': State)
    requires Counters(s) && Step(add, s, o, a, s')
    ensures Counters(s')
  {
    forall i | 0 <= i < N ensures |s'.buckets| == N && s'.buckets[i] == |Passed(s', i)| % U64 {
      StepBuckets(add, s, o, a, s', i);
    }
    StepCalls(add, s, o, a, s');
    StepBeyond(add, s, o, a, s', PLUS_INF);
    StepBeyond(add, s, o, a, s', COUNT);
    Incremented(|Beyond(s, PLUS_INF)|, s.plusInf);
    Incremented(|Beyond(s, COUNT)|, s.count);
  }

  lemma {:induction false} FoldSame(add: (F64, F64) -> F64, s: State, s': State, order: seq<Id>)
    requires forall o :: o in order ==> o in s.calls && o in s'.calls && s.calls[o].x == s'.calls[o].x
    ensures Fold(add, s, order) == Fold(add, s', order)
    decreases |order|
  {
    if order != [] {
      var n := |order| - 1;
      assert order[n] in order && forall o :: o in order[..n] ==> o in order;
      FoldSame(add, s, s', order[..n]);
    }
  }

  lemma StepSum(add: (F64, F64) -> F64, s: State, o: Id, a: Action, s': State)
    requires Inv(add, s) && Step(add, s, o, a, s')
    ensures WinsAreDone(s') && s'.sum == Fold(add, s', s'.wins)
  {
    if a.Next? && s.calls[o].pc == CAS {
      SwapSum(add, s, o, s');
    } else {
      StepCalls(add, s, o, a, s');
      KeptSum(add, s, o, s');
    }
  }

  lemma SwapSum(add: (F64, F64) -> F64, s: State, o: Id, s': State)
    requires WinsAreDone(s) && s.sum == Fold(add, s, s.wins) && o in s.calls && s.calls[o].pc == CAS
    requires s' == Advance(s.(sum := add(s.sum, s.calls[o].x), wins := s.wins + [o]), o)
    ensures WinsAreDone(s') && s'.sum == Fold(add, s', s'.wins)
  {
    WinAdded(s, o, s');
    FoldSame(add, s, s', s.wins);
    assert s'.wins[..|s.wins|] == s.wins;
  }

  lemma KeptSum(add: (F64, F64) -> F64, s: State, o: Id, s': State)
    requires WinsAreDone(s) && s.sum == Fold(add, s, s.wins) && s'.sum == s.sum && s'.wins == s.wins
    requires o in s'.calls && s'.calls == s.calls[o := s'.calls[o]] && s'.calls[o].pc < DONE
    requires o in s.calls ==> s.calls[o].pc < DONE && s.calls[o].x == s'.calls[o].x
    ensures WinsAreDone(s') && s'.sum == Fold(add, s', s'.wins)
  {
    WinsKept(s, o, s');
    FoldSame(add, s, s', s.wins);
  }

  lemma WinsKept(s: State, o: Id, s': State)
    requires WinsAreDone(s) && s'.wins == s.wins && o in s'.calls && s'.calls == s.calls[o := s'.calls[o]]
    requires s'.calls[o].pc < DONE && (o in s.calls ==> s.calls[o].pc < DONE)
    ensures WinsAreDone(s')
  {
  }

  lemma WinAdded(s: State, o: Id, s': State)
    requires WinsAreDone(s) && o in s.calls && s.calls[o].pc == CAS
    requires s'.wins == s.wins + [o] && s'.calls == s.calls[o := s.calls[o].(pc := DONE)]
    ensures WinsAreDone(s')
  {
  }

  lemma StepInv(add: (F64, F64) -> F64, s: State, o: Id, a: Action, s': State)
    requires Inv(add, s) && Step(add, s, o, a, s')
    ensures Inv(add, s')
  {
    StepCounters(add, s, o, a, s');
    StepSum(add, s, o, a, s');
  }

  ghost predicate Run(add: (F64, F64) -> F64, states: seq<State>)
  {
    && |states| > 0 && states[0] == INIT
    && forall k :: 0 <= k < |states| - 1 ==> StepsTo(add, states[k], states[k + 1])
  }

  ghost predicate StepsTo(add: (F64, F64) -> F64, s: State, s': State)
  {
    exists o: Id, a :: Step(add, s, o, a, s')
  }

  lemma InitInv(add: (F64, F64) -> F64)
    ensures Inv(add, INIT)
  {
    forall i | 0 <= i < N ensures INIT.buckets[i] == |Passed(INIT, i)| % U64 {
      assert Passed(INIT, i) == {};
    }
    assert Beyond(INIT, PLUS_INF) == {} && Beyond(INIT, COUNT) == {};
  }

  lemma {:induction false} RunInv(add: (F64, F64) -> F64, states: seq<State>, k: nat)
    requires Run(add, states) && k < |states|
    ensures Inv(add, states[k])
  {
    if k == 0 {
      InitInv(add);
    } else {
      RunInv(add, states, k - 1);
      assert StepsTo(add, states[k - 1], states[k - 1 + 1]);
      var o: Id, a :| Step(add, states[k - 1], o, a, states[k]);
      StepInv(add, states[k - 1], o, a, states[k]);
    }
  }

  // ---- Main results ----

  /** The observations at or below a bound. */
  function AtMost(s: State, i: nat): set<Id>
    requires i < N
  {
    set o | o in s.calls && (s.calls[o].x.NegInfinity? || (s.calls[o].x.Finite? && s.calls[o].x.r <= BOUNDS[i]))
  }

  lemma BoundsAscend(x: F64, i: nat, j: nat)
    requires i <= j < N && Leq(x, BOUNDS[i])
    ensures Leq(x, BOUNDS[j])
  {
  }

  lemma Subset<T>(a: set<T>, b: set<T>)
    requires a <= b
    ensures |a| <= |b|
  {
    assert b == a + (b - a);
  }

  /** Once every call has returned: each bucket is the number of observations at or below its
      bound, the buckets do not decrease, both totals are the number of observations, and the
      sum adds every observation exactly once, in the order the swaps succeeded. */
  lemma Quiescent(add: (F64, F64) -> F64, states: seq<State>)
    requires Run(add, states)
    requires InFlight(states[|states| - 1]) == {} && |states[|states| - 1].calls| < U64
    ensures var s := states[|states| - 1];
            && |s.buckets| == N && (forall i :: 0 <= i < N ==> s.buckets[i] == |AtMost(s, i)|)
            && (forall i, j :: 0 <= i <= j < N ==> s.buckets[i] <= s.buckets[j] <= s.plusInf)
            && s.plusInf == s.count == |s.calls|
            && WinsAreDone(s) && (forall o :: o in s.wins <==> o in s.calls) && s.sum == Fold(add, s, s.wins)
  {
    var s := states[|states| - 1];
    RunInv(add, states, |states| - 1);
    forall o | o in s.calls ensures s.calls[o].pc == DONE {
      assert o !in InFlight(s);
    }
    assert Beyond(s, PLUS_INF) == s.calls.Keys && Beyond(s, COUNT) == s.calls.Keys;
    forall i | 0 <= i < N ensures s.buckets[i] == |AtMost(s, i)| <= |s.calls| {
      assert Passed(s, i) == AtMost(s, i);
      Subset(AtMost(s, i), s.calls.Keys);
    }
    forall i, j | 0 <= i <= j < N ensures s.buckets[i] <= s.buckets[j] {
      forall o | o in AtMost(s, i) ensures o in AtMost(s, j) {
        BoundsAscend(s.calls[o].x, i, j);
      }
      Subset(AtMost(s, i), AtMost(s, j));
    }
  }

  /** At any moment of any run: the count never exceeds `+Inf`, and a bucket exceeds a later
      one, or `+Inf`, by at most the number of calls in flight. */
  lemma MidRun(add: (F64, F64) -> F64, states: seq<State>, k: nat)
    requires Run(add, states) && k < |states| && |states[k].calls| < U64
    ensures var s := states[k];
            && s.count <= s.plusInf && |s.buckets| == N
            && (forall i, j :: 0 <= i <= j < N ==> s.buckets[i] <= s.buckets[j] + |InFlight(s)|)
            && (forall i :: 0 <= i < N ==> s.buckets[i] <= s.plusInf + |InFlight(s)|)
  {
    var s := states[k];
    RunInv(add, states, k);
    Subset(Beyond(s, COUNT), Beyond(s, PLUS_INF));
    Subset(Beyond(s, PLUS_INF), s.calls.Keys);
    forall i | 0 <= i < N
      ensures |Passed(s, i)| <= |s.calls| && |Passed(s, i)| <= |Beyond(s, PLUS_INF)| + |InFlight(s)|
    {
      Subset(Passed(s, i), s.calls.Keys);
      Gap(Passed(s, i), Beyond(s, PLUS_INF), InFlight(s));
    }
    forall i, j | 0 <= i <= j < N ensures s.buckets[i] <= s.buckets[j] + |InFlight(s)| {
      forall o | o in Passed(s, i) ensures o in Passed(s, j) || o in InFlight(s) {
        BoundsAscend(s.calls[o].x, i, j);
      }
      Gap(Passed(s, i), Passed(s, j), InFlight(s));
    }
  }

  lemma Gap<T(!new)>(a: set<T>, b: set<T>, c: set<T>)
    requires forall x :: x in a ==> x in b || x in c
    ensures |a| <= |b| + |c|
  {
    assert a <= b + c;
    Subset(a, b + c);
    Subset(c - b, c);
    assert b + c == b + (c - b);
  }

  // ---- Snapshots ----

  /** `snapshot` reads the fields one after the other, so it spreads over a run: the buckets,
      `plus_inf`, the sum and the count, each at its own moment `ts`. */
  ghost predicate Reads(states: seq<State>, ts: seq<nat>)
  {
    && |ts| == N + 3
    && (forall i :: 0 <= i < |ts| ==> ts[i] < |states|)
    && forall i, j :: 0 <= i <= j < |ts| ==> ts[i] <= ts[j]
  }

  /** Calls only move on: what has been counted stays counted. */
  lemma {:induction false} RunGrows(add: (F64, F64) -> F64, states: seq<State>, k: nat, l: nat, o: Id)
    requires Run(add, states) && k <= l < |states| && o in states[k].calls
    ensures o in states[l].calls && states[l].calls[o].x == states[k].calls[o].x
    ensures states[k].calls[o].pc <= states[l].calls[o].pc
    decreases l
  {
    if k < l {
      RunGrows(add, states, k, l - 1, o);
      RunInv(add, states, l - 1);
      assert StepsTo(add, states[l - 1], states[l - 1 + 1]);
      CallGrows(add, states[l - 1], states[l], o);
    }
  }

  lemma CallGrows(add: (F64, F64) -> F64, s: State, s': State, o: Id)
    requires Counters(s) && StepsTo(add, s, s') && o in s.calls
    ensures o in s'.calls && s'.calls[o].x == s.calls[o].x && s.calls[o].pc <= s'.calls[o].pc
  {
    var u: Id, a :| Step(add, s, u, a, s');
    StepCalls(add, s, u, a, s');
  }

  /** In a snapshot a bucket exceeds a later one by at most the calls in flight when it was
      read, however long the snapshot takes. */
  lemma SnapshotBuckets(add: (F64, F64) -> F64, states: seq<State>, ts: seq<nat>, i: nat, j: nat)
    requires Run(add, states) && Reads(states, ts) && i <= j < N
    requires |states[ts[i]].calls| < U64 && |states[ts[j]].calls| < U64
    ensures |states[ts[i]].buckets| == N && |states[ts[j]].buckets| == N
    ensures states[ts[i]].buckets[i] <= states[ts[j]].buckets[j] + |InFlight(states[ts[i]])|
  {
    var s, s' := states[ts[i]], states[ts[j]];
    MidRun(add, states, ts[i]);
    RunInv(add, states, ts[i]);
    RunInv(add, states, ts[j]);
    forall o | o in Passed(s, j) ensures o in Passed(s', j) {
      RunGrows(add, states, ts[i], ts[j], o);
    }
    Subset(Passed(s, j), Passed(s', j));
    Subset(Passed(s, j), s.calls.Keys);
    Subset(Passed(s', j), s'.calls.Keys);
  }

  /** The calls that reached `plus_inf` only after the snapshot's read of it, at `s`, and were
      counted by its read of the count, at `s'`: they are in the second number alone. */
  function Overtook(s: State, s': State): set<Id>
  {
    Beyond(s', COUNT) - Beyond(s, PLUS_INF)
  }

  /** The calls that stood between their two increments from one read to the other: they are in
      the first number alone. */
  function Straddled(s: State, s': State): set<Id>
  {
    Beyond(s, PLUS_INF) - Beyond(s', COUNT)
  }

  /** Calls between their two increments. */
  function Between(s: State): set<Id>
  {
    set o | o in s.calls && s.calls[o].pc == COUNT
  }

  lemma Differences<T>(a: set<T>, b: set<T>)
    ensures |a| + |b - a| == |b| + |a - b|
  {
    assert a == (a * b) + (a - b) && b == (a * b) + (b - a);
    assert |a| == |a * b| + |a - b| && |b| == |a * b| + |b - a|;
  }

  /** What a snapshot's two totals are, unwrapped. */
  lemma SnapshotTotals(add: (F64, F64) -> F64, states: seq<State>, ts: seq<nat>)
    requires Run(add, states) && Reads(states, ts) && |states[ts[N + 2]].calls| < U64
    ensures var s, s' := states[ts[N]], states[ts[N + 2]];
            && s.plusInf == |Beyond(s, PLUS_INF)| && s'.plusInf == |Beyond(s', PLUS_INF)|
            && s'.count == |Beyond(s', COUNT)|
            && Beyond(s, PLUS_INF) <= Beyond(s', PLUS_INF)
  {
    var s, s' := states[ts[N]], states[ts[N + 2]];
    RunInv(add, states, ts[N]);
    RunInv(add, states, ts[N + 2]);
    forall o | o in Beyond(s, PLUS_INF) ensures o in Beyond(s', PLUS_INF) {
      RunGrows(add, states, ts[N], ts[N + 2], o);
    }
    Subset(Beyond(s, PLUS_INF), Beyond(s', PLUS_INF));
    Subset(Beyond(s', PLUS_INF), s'.calls.Keys);
    Subset(Beyond(s', COUNT), s'.calls.Keys);
  }

  /** A snapshot's count is above its `plus_inf` exactly when more calls overtook the snapshot
      than straddled it; which is when `plus_inf` grew, during the snapshot, by more than the
      number of calls between their two increments at its end. */
  lemma SnapshotTearsExactly(add: (F64, F64) -> F64, states: seq<State>, ts: seq<nat>)
    requires Run(add, states) && Reads(states, ts) && |states[ts[N + 2]].calls| < U64
    ensures var s, s' := states[ts[N]], states[ts[N + 2]];
            && (s'.count > s.plusInf <==> |Overtook(s, s')| > |Straddled(s, s')|)
            && (s'.count > s.plusInf <==> s'.plusInf - s.plusInf > |Between(s')|)
  {
    var s, s' := states[ts[N]], states[ts[N + 2]];
    SnapshotTotals(add, states, ts);
    Differences(Beyond(s, PLUS_INF), Beyond(s', COUNT));
    assert Beyond(s', PLUS_INF) == Beyond(s', COUNT) + Between(s');
    assert Beyond(s', COUNT) !! Between(s');
  }

  /** So two totals read while no `observe` call is under way agree: every call known at the
      second read had returned before the first. */
  lemma QuietSnapshotAgrees(add: (F64, F64) -> F64, states: seq<State>, ts: seq<nat>)
    requires Run(add, states) && Reads(states, ts) && |states[ts[N + 2]].calls| < U64
    requires forall o :: o in states[ts[N + 2]].calls ==>
               o in states[ts[N]].calls && states[ts[N]].calls[o].pc == DONE
    ensures states[ts[N + 2]].count == states[ts[N]].plusInf == |states[ts[N + 2]].calls|
  {
    var s, s' := states[ts[N]], states[ts[N + 2]];
    SnapshotTotals(add, states, ts);
    forall o | o in s'.calls ensures o in Beyond(s', COUNT) && o in Beyond(s, PLUS_INF) {
      RunGrows(add, states, ts[N], ts[N + 2], o);
    }
    assert Beyond(s', COUNT) == s'.calls.Keys == Beyond(s, PLUS_INF);
  }

  /** A single observation of eleven seconds, which is in no bucket, up to its two totals. */
  function Torn(k: nat): State
  {
    if k == 0 then INIT
    else INIT.(calls := map[0 := Observer(Finite(11.0), k - 1, ZERO)], plusInf := if k >= 13 then 1 else 0,
               count := if k >= 14 then 1 else 0)
  }

  lemma TornStep(add: (F64, F64) -> F64, k: nat)
    requires k < 14
    ensures StepsTo(add, Torn(k), Torn(k + 1))
  {
    if k == 0 {
      assert Step(add, Torn(0), 0, Observe(Finite(11.0)), Torn(1));
    } else {
      assert Torn(k + 1).calls == Torn(k).calls[0 := Torn(k).calls[0].(pc := k)];
      assert Step(add, Torn(k), 0, Next, Torn(k + 1));
    }
  }

  /** So a snapshot can hold a count above its `plus_inf`, although no state does. */
  lemma SnapshotCanTear(add: (F64, F64) -> F64) returns (states: seq<State>, ts: seq<nat>)
    ensures Run(add, states) && Reads(states, ts)
    ensures states[ts[N + 2]].count == 1 && states[ts[N]].plusInf == 0
  {
    states := seq(15, k requires 0 <= k < 15 => Torn(k));
    ts := [0, 0, 0, 0, 0, 0, 0, 0, 0, 0, 0, 12, 12, 14];
    forall k | 0 <= k < |states| - 1 ensures StepsTo(add, states[k], states[k + 1]) {
      TornStep(add, k);
    }
  }

  // ---- Nobody has to wait ----

  /** A call's own steps, from `s` on. */
  ghost predicate Alone(add: (F64, F64) -> F64, o: Id, states: seq<State>)
  {
    |states| > 0 && forall k :: 0 <= k < |states| - 1 ==> OwnStep(add, o, states, k)
  }

  ghost predicate OwnStep(add: (F64, F64) -> F64, o: Id, states: seq<State>, k: nat)
  {
    k + 1 < |states| && exists a: Action :: !a.Observe? && Step(add, states[k], o, a, states[k + 1])
  }

  /** The steps a call needs: those to the swap, one retry if its expected value is out of date, and the
      swap. */
  function Needs(s: State, o: Id): nat
    requires o in s.calls && s.calls[o].pc <= DONE
  {
    DONE - s.calls[o].pc + if s.calls[o].pc == CAS && s.calls[o].current != s.sum then 1 else 0
  }

  /** The next of them. */
  lemma OneStep(add: (F64, F64) -> F64, s: State, o: Id) returns (a: Action, s': State)
    requires Counters(s) && o in s.calls && s.calls[o].pc < DONE
    ensures !a.Observe? && Step(add, s, o, a, s') && o in s'.calls && s'.calls[o].pc <= DONE
    ensures Needs(s', o) + 1 == Needs(s, o)
  {
    var c := s.calls[o];
    if c.pc < PLUS_INF {
      a, s' := Next, Advance(if Leq(c.x, BOUNDS[c.pc])
                             then s.(buckets := s.buckets[c.pc := FetchAdd(s.buckets[c.pc])]) else s, o);
    } else if c.pc == PLUS_INF {
      a, s' := Next, Advance(s.(plusInf := FetchAdd(s.plusInf)), o);
    } else if c.pc == COUNT {
      a, s' := Next, Advance(s.(count := FetchAdd(s.count)), o);
    } else if c.pc == LOAD {
      a, s' := Next, s.(calls := s.calls[o := c.(pc := CAS, current := s.sum)]);
    } else if s.sum != c.current {
      a, s' := Fail, s.(calls := s.calls[o := c.(current := s.sum)]);
    } else {
      a, s' := Next, Advance(s.(sum := add(c.current, c.x), wins := s.wins + [o]), o);
    }
  }

  /** From every reachable state, a call in flight that runs alone finishes, in at most 15 steps of its
      own: whatever the others do, nobody waits for them. */
  lemma {:induction false} FinishesAlone(add: (F64, F64) -> F64, s: State, o: Id) returns (states: seq<State>)
    requires Inv(add, s) && o in s.calls
    ensures Alone(add, o, states) && states[0] == s && |states| == Needs(s, o) + 1 <= 16
    ensures var end := states[|states| - 1]; o in end.calls && end.calls[o].pc == DONE
    decreases Needs(s, o)
  {
    if s.calls[o].pc == DONE {
      states := [s];
    } else {
      var a, s' := OneStep(add, s, o);
      StepInv(add, s, o, a, s');
      var rest := FinishesAlone(add, s', o);
      states := [s] + rest;
      forall k | 0 <= k < |states| - 1 ensures OwnStep(add, o, states, k) {
        if k == 0 {
          assert Step(add, states[0], o, a, states[1]);
        } else {
          assert OwnStep(add, o, rest, k - 1);
        }
      }
    }
  }
}
