/** The autostart sweep (`sonda-server/src/autostart.rs`), its supervisor and the shutdown
    sequence (`sonda-server/src/main.rs`), and the sweep status probes read
    (`sonda-server/src/state.rs`), interleaved with requests that add and delete scenarios.
    Atomic operations are taken to be sequentially consistent. */
module SweepLifecycle {

  type Id = nat
  type Tid = nat

  datatype Phase = NotConfigured | InProgress | Finished | Failed

  /** How the task that admits one entry ends. */
  datatype Outcome = Admitted | Rejected | Panicked

  // ---- The sweep by itself ----

  function CountAdmitted(outcomes: seq<Outcome>): nat
  {
    if outcomes == [] then 0
    else CountAdmitted(outcomes[..|outcomes| - 1]) + if outcomes[|outcomes| - 1].Admitted? then 1 else 0
  }

  class SweepStatus {
    var phase: Phase
    var started: nat
    const expected: nat

    constructor InProgress(expected: nat)
      ensures phase == Phase.InProgress && started == 0 && this.expected == expected
    {
      phase, started, this.expected := Phase.InProgress, 0, expected;
    }

    method RecordStarted()
      modifies this`started
      ensures started == old(started) + 1
    {
      started := started + 1;
    }

    method Finish()
      modifies this`phase
      ensures phase == Finished
    {
      phase := Finished;
    }

    /** `start_entries_with`: `cancelled[i]` is what the token says at entry `i`, `outcomes[i]`
        how that entry's admission ends. The sweep attempts the entries before the first one
        that finds the token cancelled, and reports itself finished exactly when it attempted
        them all; with no entries at all that is so even if the token was cancelled before. */
    method StartEntries(cancelled: seq<bool>, outcomes: seq<Outcome>) returns (attempted: nat)
      requires |cancelled| == |outcomes|
      modifies this
      ensures attempted <= |outcomes| && (forall i :: 0 <= i < attempted ==> !cancelled[i])
      ensures attempted < |outcomes| ==> cancelled[attempted]
      ensures started == old(started) + CountAdmitted(outcomes[..attempted])
      ensures phase == if attempted == |outcomes| then Finished else old(phase)
    {
      attempted := 0;
      while attempted < |outcomes|
        invariant attempted <= |outcomes| && phase == old(phase)
        invariant forall i :: 0 <= i < attempted ==> !cancelled[i]
        invariant started == old(started) + CountAdmitted(outcomes[..attempted])
      {
        if cancelled[attempted] {
          return;
        }
        assert outcomes[..attempted + 1][..attempted] == outcomes[..attempted];
        match outcomes[attempted] {
          case Admitted => RecordStarted();
          case Rejected =>
          case Panicked =>
        }
        attempted := attempted + 1;
      }
      Finish();
    }
  }

  // ---- The sweep among everything else ----

  /** `index` entries have been attempted. */
  datatype Sweep =
    | Boundary(index: nat)                          // about to ask the token
    | Admitting(index: nat)                         // the entry's own task is running
    | Recording(index: nat)                         // it returned true
    | Ended(early: bool)                            // returned, at a boundary or after finishing
    | Crashed

  datatype Shutdown = Serving | Cancelling | Joining | Stopping | Draining | Drained | Over

  /** A probe's `snapshot`: it reads the phase, then the count. */
  datatype Probe = Fresh | ReadPhase(seen: Phase) | Snapshot(seen: Phase, count: nat)

  /** `admitted` are the scenarios the sweep added; `late` those a request added after the stop
      loop and before the drain; `handles` those drained and not joined yet. */
  datatype State = State(expected: nat, phase: Phase, started: nat, cancelled: bool, sweep: Sweep,
                         attempted: seq<nat>, supervisorDone: bool, shutdown: Shutdown,
                         scenarios: set<Id>, everAdded: set<Id>, admitted: set<Id>, late: set<Id>,
                         stopped: set<Id>, handles: set<Id>, joined: set<Id>, probes: map<Tid, Probe>)

  function Init(expected: nat): State
  {
    State(expected, InProgress, 0, false, Boundary(0), [], false, Serving, {}, {}, {}, {}, {}, {}, {}, map[])
  }

  datatype Action =
    | AskToken | SweepAdds(id: Id) | AdmissionEnds(outcome: Outcome) | Record | SweepCrashes | FinishSweep
    | Supervise
    | SignalShutdown | CancelSweep | JoinSweep | StopAll | Drain | JoinOne(id: Id) | JoinedAll
    | Post(id: Id) | Delete(id: Id)
    | ReadPhaseOf(t: Tid) | ReadCountOf(t: Tid)

  function ProbeOf(s: State, t: Tid): Probe
  {
    if t in s.probes then s.probes[t] else Fresh
  }

  predicate SweepStep(s: State, a: Action, s': State)
  {
    match a
    case AskToken => s.sweep.Boundary? && s.sweep.index < s.expected
                     && s' == if s.cancelled then s.(sweep := Ended(true))
                              else s.(sweep := Admitting(s.sweep.index), attempted := s.attempted + [s.sweep.index])
    case SweepAdds(id) => s.sweep.Admitting? && id !in s.everAdded
                          && s' == s.(scenarios := s.scenarios + {id}, everAdded := s.everAdded + {id},
                                      admitted := s.admitted + {id})
    case AdmissionEnds(o) => s.sweep.Admitting?
                             && s' == s.(sweep := if o.Admitted? then Recording(s.sweep.index)
                                         else Boundary(s.sweep.index + 1))
    case Record => s.sweep.Recording? && s' == s.(started := s.started + 1, sweep := Boundary(s.sweep.index + 1))
    case FinishSweep => s.sweep.Boundary? && s.sweep.index == s.expected &&
        s' == s.(phase := Finished, sweep := Ended(false))
    case SweepCrashes => (s.sweep.Boundary? || s.sweep.Recording?) && s' == s.(sweep := Crashed)
    case Supervise => (s.sweep.Ended? || s.sweep.Crashed?) && !s.supervisorDone
                      && s' == s.(supervisorDone := true, phase := if s.sweep.Crashed? then Failed else s.phase)
    case _ => false
  }

  predicate ShutdownStep(s: State, a: Action, s': State)
  {
    match a
    case SignalShutdown => s.shutdown.Serving? && s' == s.(shutdown := Cancelling)
    case CancelSweep => s.shutdown.Cancelling? && s' == s.(cancelled := true, shutdown := Joining)
    case JoinSweep => s.shutdown.Joining? && s.supervisorDone && s' == s.(shutdown := Stopping)
    case StopAll => s.shutdown.Stopping? && s' == s.(stopped := s.stopped + s.scenarios, shutdown := Draining)
    case Drain => s.shutdown.Draining? && s' == s.(handles := s.scenarios, scenarios := {}, shutdown := Drained)
    case JoinOne(id) => s.shutdown.Drained? && id in s.handles &&
        s' == s.(handles := s.handles - {id}, joined := s.joined + {id})
    case JoinedAll => s.shutdown.Drained? && s.handles == {} && s' == s.(shutdown := Over)
    case _ => false
  }

  /** Requests keep being served while the shutdown runs. */
  predicate RequestStep(s: State, a: Action, s': State)
  {
    match a
    case Post(id) => id !in s.everAdded
                     && s' == s.(scenarios := s.scenarios + {id}, everAdded := s.everAdded + {id},
                                 late := if s.shutdown.Draining? then s.late + {id} else s.late)
    case Delete(id) => id in s.scenarios
                       && s' == s.(scenarios := s.scenarios - {id}, stopped := s.stopped + {id})
    case ReadPhaseOf(t) => ProbeOf(s, t).Fresh? && s' == s.(probes := s.probes[t := ReadPhase(s.phase)])
    case ReadCountOf(t) => ProbeOf(s, t).ReadPhase?
                           && s' == s.(probes := s.probes[t := Snapshot(ProbeOf(s, t).seen, s.started)])
    case _ => false
  }

  predicate Step(s: State, a: Action, s': State)
  {
    SweepStep(s, a, s') || ShutdownStep(s, a, s') || RequestStep(s, a, s')
  }

  // ---- The invariant ----

  function Attempts(s: State): nat
  {
    match s.sweep
    case Boundary(i) => i
    case Admitting(i) => i + 1
    case Recording(i) => i + 1
    case _ => |s.attempted|
  }

  /** Entries `0..n` in order. */
  predicate InOrder(attempted: seq<nat>)
  {
    forall i :: 0 <= i < |attempted| ==> attempted[i] == i
  }

  ghost predicate SweepOk(s: State)
  {
    && InOrder(s.attempted) && |s.attempted| == Attempts(s) <= s.expected
    && (s.sweep.Boundary? ==> s.started <= s.sweep.index)
    && (s.sweep.Admitting? || s.sweep.Recording? ==> s.started <= s.sweep.index < s.expected)
    && s.started <= s.expected
    && (s.sweep.Ended? && s.sweep.early ==> s.cancelled && |s.attempted| < s.expected && s.phase.InProgress?)
    && (s.sweep.Ended? && !s.sweep.early ==> |s.attempted| == s.expected && s.phase.Finished?)
    && (s.phase.Finished? ==> s.sweep.Ended? && !s.sweep.early)
    && (s.phase.Failed? ==> s.sweep.Crashed? && s.supervisorDone)
    && (s.sweep.Crashed? && s.supervisorDone ==> s.phase.Failed?)
    && (s.supervisorDone ==> s.sweep.Ended? || s.sweep.Crashed?)
    && !s.phase.NotConfigured?
  }

  predicate ProbeOk(s: State, t: Tid)
  {
    match ProbeOf(s, t)
    case Fresh => true
    case ReadPhase(p) => p.Finished? ==> s.phase.Finished?
    case Snapshot(p, n) => n <= s.started && (p.Finished? ==> s.phase.Finished? && n == s.started)
  }

  ghost predicate ProbesOk(s: State)
  {
    forall t: Tid :: ProbeOk(s, t)
  }

  ghost predicate ShutdownOk(s: State)
  {
    && (s.shutdown.Stopping? || s.shutdown.Draining? || s.shutdown.Drained? || s.shutdown.Over? ==> s.supervisorDone)
    && s.scenarios <= s.everAdded && s.admitted <= s.everAdded && s.handles <= s.everAdded && s.joined <= s.everAdded
    && s.stopped <= s.everAdded && s.late <= s.everAdded && s.late !! s.admitted
    && (!s.shutdown.Draining? && !s.shutdown.Drained? && !s.shutdown.Over? ==>
        s.late == {} && s.handles == {} && s.joined == {})
    && (s.shutdown.Draining? ==>
          && s.handles == {} && s.joined == {}
          && forall id :: id in s.scenarios ==> (id in s.stopped <==> id !in s.late))
    && (s.shutdown.Drained? || s.shutdown.Over? ==>
          && (forall id :: id in s.handles || id in s.joined ==> (id in s.stopped <==> id !in s.late))
          && s.scenarios !! s.handles && s.scenarios !! s.joined)
  }

  ghost predicate Inv(s: State)
  {
    SweepOk(s) && ProbesOk(s) && ShutdownOk(s)
  }

  lemma StepSweepOk(s: State, a: Action, s': State)
    requires SweepOk(s) && Step(s, a, s')
    ensures SweepOk(s')
    ensures s.started <= s'.started && (s.phase.Finished? ==> s'.phase.Finished? && s'.started == s.started)
    ensures s'.expected == s.expected
  {
  }

  lemma StepProbesOk(s: State, a: Action, s': State)
    requires Inv(s) && Step(s, a, s')
    ensures ProbesOk(s')
  {
    StepSweepOk(s, a, s');
    forall t: Tid ensures ProbeOk(s', t) {
      assert ProbeOk(s, t);
    }
  }

  lemma StepShutdownOk(s: State, a: Action, s': State)
    requires SweepOk(s) && ShutdownOk(s) && Step(s, a, s')
    ensures ShutdownOk(s')
  {
  }

  lemma StepInv(s: State, a: Action, s': State)
    requires Inv(s) && Step(s, a, s')
    ensures Inv(s')
  {
    StepSweepOk(s, a, s');
    StepProbesOk(s, a, s');
    StepShutdownOk(s, a, s');
  }

  ghost predicate Run(n: nat, states: seq<State>)
  {
    && |states| > 0 && states[0] == Init(n)
    && forall k :: 0 <= k < |states| - 1 ==> StepsAt(states, k)
  }

  ghost predicate StepsAt(states: seq<State>, k: nat)
  {
    k + 1 < |states| && StepsTo(states[k], states[k + 1])
  }

  ghost predicate StepsTo(s: State, s': State)
  {
    exists a :: Step(s, a, s')
  }

  lemma {:induction false} RunInv(n: nat, states: seq<State>, k: nat)
    requires Run(n, states) && k < |states|
    ensures Inv(states[k]) && states[k].expected == n
  {
    if k > 0 {
      RunInv(n, states, k - 1);
      var a := StepAt(n, states, k - 1);
      StepInv(states[k - 1], a, states[k]);
      StepSweepOk(states[k - 1], a, states[k]);
    }
  }

  lemma StepAt(n: nat, states: seq<State>, k: nat) returns (a: Action)
    requires Run(n, states) && k + 1 < |states|
    ensures Step(states[k], a, states[k + 1])
  {
    assert StepsAt(states, k);
    a :| Step(states[k], a, states[k + 1]);
  }

  // ---- Main results ----

  /** Entries are attempted in order, each at most once, and no more are counted than expected;
      a sweep that stopped at a boundary never reads finished, and one that reads finished has
      attempted every entry. */
  lemma SweepIsOrderly(n: nat, states: seq<State>, k: nat)
    requires Run(n, states) && k < |states|
    ensures var s := states[k];
            && InOrder(s.attempted) && |s.attempted| <= n && s.started <= n
            && (s.sweep.Ended? && s.sweep.early ==> s.cancelled && !s.phase.Finished? && |s.attempted| < n)
            && (s.phase.Finished? ==> |s.attempted| == n)
            && (s.phase.Failed? <==> s.sweep.Crashed? && s.supervisorDone)
  {
    RunInv(n, states, k);
  }

  lemma {:induction false} FinishedStays(n: nat, states: seq<State>, k: nat, l: nat)
    requires Run(n, states) && k <= l < |states| && states[k].phase.Finished?
    ensures states[l].phase.Finished? && states[l].started == states[k].started
    decreases l
  {
    if k < l {
      FinishedStays(n, states, k, l - 1);
      FinishedNext(n, states, l - 1);
    }
  }

  lemma FinishedNext(n: nat, states: seq<State>, k: nat)
    requires Run(n, states) && k + 1 < |states| && states[k].phase.Finished?
    ensures states[k + 1].phase.Finished? && states[k + 1].started == states[k].started
  {
    RunInv(n, states, k);
    var a := StepAt(n, states, k);
    StepSweepOk(states[k], a, states[k + 1]);
  }

  /** A snapshot that reads finished carries the final count: the one of every later state. */
  lemma FinishedSnapshotIsFinal(n: nat, states: seq<State>, k: nat, l: nat, t: Tid)
    requires Run(n, states) && k <= l < |states|
    requires ProbeOf(states[k], t).Snapshot? && ProbeOf(states[k], t).seen.Finished?
    ensures ProbeOf(states[k], t).count == states[l].started && states[l].phase.Finished?
  {
    RunInv(n, states, k);
    assert ProbeOk(states[k], t);
    FinishedStays(n, states, k, l);
  }

  /** What the shutdown joins was stopped before, except exactly for what a request added
      between the stop loop and the drain; so everything the sweep admitted was. */
  lemma StoppedBeforeJoined(n: nat, states: seq<State>, k: nat, id: Id)
    requires Run(n, states) && k < |states| && id in states[k].joined
    ensures id in states[k].stopped <==> id !in states[k].late
    ensures id in states[k].admitted ==> id in states[k].stopped
  {
    RunInv(n, states, k);
  }

  // ---- What the count counts ----

  /** The step after state `k` ends an admission with `Admitted`. */
  predicate Admits(states: seq<State>, k: nat)
    requires k + 1 < |states|
  {
    states[k].sweep.Admitting? && states[k + 1].sweep.Recording?
  }

  /** How many of the first `k` steps do. */
  function Admissions(states: seq<State>, k: nat): nat
    requires k < |states|
  {
    if k == 0 then 0 else Admissions(states, k - 1) + if Admits(states, k - 1) then 1 else 0
  }

  /** The last admission is not counted yet, or never will be, because the sweep crashed before. */
  ghost predicate Uncounted(states: seq<State>, k: nat)
    requires k < |states|
  {
    states[k].sweep.Recording? || exists j :: 0 <= j < k && CrashesUncounted(states, j)
  }

  predicate CrashesUncounted(states: seq<State>, j: int)
  {
    0 <= j && j + 1 < |states| && states[j].sweep.Recording? && states[j + 1].sweep.Crashed?
  }

  /** What one step does to the count, by where the sweep is before and after it. */
  lemma StepCounts(s: State, a: Action, s': State)
    requires Step(s, a, s')
    ensures a == AdmissionEnds(Admitted) <==> s.sweep.Admitting? && s'.sweep.Recording?
    ensures s'.started == s.started + if s.sweep.Recording? && s'.sweep.Boundary? then 1 else 0
    ensures s'.sweep.Recording? ==> s.sweep.Admitting? || s.sweep == s'.sweep
    ensures s.sweep.Recording? ==> s'.sweep == s.sweep || s'.sweep.Boundary? || s'.sweep.Crashed?
    ensures s.sweep.Crashed? ==> s'.sweep.Crashed?
  {
  }

  /** In every state the count is the number of admissions that ended with `Admitted` so far, less the
      last one while it is not counted. */
  lemma {:induction false} StartedCountsAdmissions(n: nat, states: seq<State>, k: nat)
    requires Run(n, states) && k < |states|
    ensures states[k].started == Admissions(states, k) - if Uncounted(states, k) then 1 else 0
    ensures (exists j :: 0 <= j < k && CrashesUncounted(states, j)) ==> states[k].sweep.Crashed?
  {
    if k > 0 {
      var l := k - 1;
      StartedCountsAdmissions(n, states, l);
      var a := StepAt(n, states, l);
      StepCounts(states[l], a, states[k]);
      assert (exists j :: 0 <= j < k && CrashesUncounted(states, j)) <==>
             (exists j :: 0 <= j < l && CrashesUncounted(states, j)) || CrashesUncounted(states, l);
    }
  }

  /** A snapshot that reads finished carries the number of entries admitted in the whole run. */
  lemma FinishedSnapshotCountsAdmissions(n: nat, states: seq<State>, k: nat, l: nat, t: Tid)
    requires Run(n, states) && k <= l < |states|
    requires ProbeOf(states[k], t).Snapshot? && ProbeOf(states[k], t).seen.Finished?
    ensures ProbeOf(states[k], t).count == Admissions(states, l)
  {
    FinishedSnapshotIsFinal(n, states, k, l, t);
    RunInv(n, states, l);
    StartedCountsAdmissions(n, states, l);
  }

  /** A run with the action of each of its steps. */
  ghost predicate Traced(n: nat, states: seq<State>, actions: seq<Action>)
  {
    && |states| == |actions| + 1 && states[0] == Init(n)
    && forall k :: 0 <= k < |actions| ==> Step(states[k], actions[k], states[k + 1])
  }

  lemma TracedRuns(n: nat, states: seq<State>, actions: seq<Action>)
    requires Traced(n, states, actions)
    ensures Run(n, states)
  {
    forall k | 0 <= k < |states| - 1 ensures StepsAt(states, k) {
      assert Step(states[k], actions[k], states[k + 1]);
    }
  }

  lemma {:induction false} EveryRunIsTraced(n: nat, states: seq<State>) returns (actions: seq<Action>)
    requires Run(n, states)
    ensures Traced(n, states, actions)
    decreases |states|
  {
    actions := [];
    if |states| > 1 {
      var l := |states| - 1;
      var init := states[..l];
      forall k | 0 <= k < |init| - 1 ensures StepsAt(init, k) {
        assert StepsAt(states, k);
      }
      actions := EveryRunIsTraced(n, init);
      var a := StepAt(n, states, l - 1);
      actions := actions + [a];
    }
  }

  /** How the entries' admissions ended, in order. */
  function Outcomes(actions: seq<Action>): seq<Outcome>
  {
    if actions == [] then []
    else
      var before, a := Outcomes(actions[..|actions| - 1]), actions[|actions| - 1];
      if a.AdmissionEnds? then before + [a.outcome] else before
  }

  /** The entries attempted whose admission has ended. */
  function EndedAdmissions(s: State): int
  {
    |s.attempted| - if s.sweep.Admitting? then 1 else 0
  }

  lemma StepEnds(s: State, a: Action, s': State)
    requires Step(s, a, s')
    ensures EndedAdmissions(s') == EndedAdmissions(s) + if a.AdmissionEnds? then 1 else 0
  {
  }

  lemma {:induction false} OutcomesSoFar(n: nat, states: seq<State>, actions: seq<Action>, k: nat)
    requires Traced(n, states, actions) && k < |states|
    ensures |Outcomes(actions[..k])| == EndedAdmissions(states[k])
    ensures CountAdmitted(Outcomes(actions[..k])) == Admissions(states, k)
  {
    if k > 0 {
      var l := k - 1;
      OutcomesSoFar(n, states, actions, l);
      assert Step(states[l], actions[l], states[l + 1]);
      StepCounts(states[l], actions[l], states[k]);
      StepEnds(states[l], actions[l], states[k]);
      assert actions[..k][..l] == actions[..l];
      var before := Outcomes(actions[..l]);
      if actions[l].AdmissionEnds? {
        assert (before + [actions[l].outcome])[..|before|] == before;
      }
    }
  }

  /** What the sets of scenarios record: those the sweep added, those a request added between the stop
      loop and the drain, and all of them. */
  lemma {:induction false} ScenariosRecorded(n: nat, states: seq<State>, actions: seq<Action>, k: nat, id: Id)
    requires Traced(n, states, actions) && k < |states|
    ensures id in states[k].admitted <==> SweepAdds(id) in actions[..k]
    ensures id in states[k].everAdded <==> SweepAdds(id) in actions[..k] || Post(id) in actions[..k]
    ensures id in states[k].late <==> exists j :: 0 <= j < k && PostedLate(states, actions, j, id)
  {
    if k > 0 {
      var l := k - 1;
      ScenariosRecorded(n, states, actions, l, id);
      assert actions[..k] == actions[..l] + [actions[l]];
      assert Step(states[l], actions[l], states[l + 1]);
      AddsOne(states[l], actions[l], states[k], id);
      assert (exists j :: 0 <= j < k && PostedLate(states, actions, j, id)) <==>
             (exists j :: 0 <= j < l && PostedLate(states, actions, j, id)) || PostedLate(states, actions, l, id);
    }
  }

  predicate PostedLate(states: seq<State>, actions: seq<Action>, j: int, id: Id)
  {
    0 <= j < |actions| && j < |states| && actions[j] == Post(id) && states[j].shutdown.Draining?
  }

  lemma AddsOne(s: State, a: Action, s': State, id: Id)
    requires Step(s, a, s')
    ensures id in s'.admitted <==> id in s.admitted || a == SweepAdds(id)
    ensures id in s'.everAdded <==> id in s.everAdded || a == SweepAdds(id) || a == Post(id)
    ensures id in s'.late <==> id in s.late || (a == Post(id) && s.shutdown.Draining?)
  {
  }

  /** So once the sweep reads finished, every entry has an outcome and the count is how many of them
      are `Admitted`. */
  lemma FinishedCountsOutcomes(n: nat, states: seq<State>, actions: seq<Action>, k: nat)
    requires Traced(n, states, actions) && k < |states| && states[k].phase.Finished?
    ensures |Outcomes(actions[..k])| == n && states[k].started == CountAdmitted(Outcomes(actions[..k]))
  {
    TracedRuns(n, states, actions);
    RunInv(n, states, k);
    StartedCountsAdmissions(n, states, k);
    OutcomesSoFar(n, states, actions, k);
  }

  // ---- What probes, requests and the shutdown can rely on ----

  /** A snapshot's phase and count are those of two states of the run, the phase's no later. */
  ghost predicate ReadInOrder(states: seq<State>, k: nat, p: Probe)
    requires k < |states|
  {
    match p
    case Fresh => true
    case ReadPhase(seen) => exists i :: 0 <= i <= k && states[i].phase == seen
    case Snapshot(seen, count) =>
      exists i, j :: 0 <= i <= j <= k && states[i].phase == seen && states[j].started == count
  }

  lemma {:induction false} SnapshotReadsPhaseThenCount(n: nat, states: seq<State>, k: nat, t: Tid)
    requires Run(n, states) && k < |states|
    ensures ReadInOrder(states, k, ProbeOf(states[k], t))
  {
    if k > 0 {
      var l := k - 1;
      SnapshotReadsPhaseThenCount(n, states, l, t);
      var a := StepAt(n, states, l);
      ProbeMoves(states[l], a, states[k], t);
      ReadOn(states, l, ProbeOf(states[l], t), ProbeOf(states[k], t));
    }
  }

  /** What one step does to a probe. */
  predicate ProbeStep(s: State, p: Probe, p': Probe)
  {
    || p' == p
    || (p.Fresh? && p' == ReadPhase(s.phase))
    || (p.ReadPhase? && p' == Snapshot(p.seen, s.started))
  }

  lemma ProbeMoves(s: State, a: Action, s': State, t: Tid)
    requires Step(s, a, s')
    ensures ProbeStep(s, ProbeOf(s, t), ProbeOf(s', t))
  {
  }

  lemma ReadOn(states: seq<State>, l: nat, p: Probe, p': Probe)
    requires l + 1 < |states| && ReadInOrder(states, l, p) && ProbeStep(states[l], p, p')
    ensures ReadInOrder(states, l + 1, p')
  {
    if p' != p && p.ReadPhase? {
      var i :| 0 <= i <= l && states[i].phase == p.seen;
      assert states[l].started == p'.count && i <= l;
    }
  }

  /** Once the token is cancelled no further entry is attempted. */
  lemma {:induction false} NoAttemptAfterCancel(n: nat, states: seq<State>, k: nat, l: nat)
    requires Run(n, states) && k <= l < |states| && states[k].cancelled
    ensures states[l].cancelled && states[l].attempted == states[k].attempted
    decreases l
  {
    if k < l {
      NoAttemptAfterCancel(n, states, k, l - 1);
      var a := StepAt(n, states, l - 1);
      CancelledStep(states[l - 1], a, states[l]);
    }
  }

  lemma CancelledStep(s: State, a: Action, s': State)
    requires Step(s, a, s') && s.cancelled
    ensures s'.cancelled && s'.attempted == s.attempted
  {
  }

  /** Every scenario ever added is still registered, or with the shutdown, or was stopped. */
  lemma {:induction false} NoScenarioIsLost(n: nat, states: seq<State>, k: nat, id: Id)
    requires Run(n, states) && k < |states|
    ensures id in states[k].everAdded ==>
              id in states[k].scenarios || id in states[k].handles || id in states[k].joined || id in states[k].stopped
  {
    if k > 0 {
      NoScenarioIsLost(n, states, k - 1, id);
      RunInv(n, states, k - 1);
      var a := StepAt(n, states, k - 1);
      NotLost(states[k - 1], a, states[k], id);
    }
  }

  predicate Kept(s: State, id: Id)
  {
    id in s.everAdded ==> id in s.scenarios || id in s.handles || id in s.joined || id in s.stopped
  }

  lemma NotLost(s: State, a: Action, s': State, id: Id)
    requires Step(s, a, s') && ShutdownOk(s) && Kept(s, id)
    ensures Kept(s', id)
  {
  }

  /** A shutdown that is over has joined everything it drained. */
  lemma {:induction false} OverJoinedTheDrained(n: nat, states: seq<State>, k: nat, l: nat, id: Id)
    requires Run(n, states) && k < l < |states| && id in states[k].scenarios
    requires states[k].shutdown.Draining? && states[k + 1].shutdown.Drained?
    ensures states[l].shutdown.Drained? || states[l].shutdown.Over?
    ensures id in states[l].joined || (id in states[l].handles && states[l].shutdown.Drained?)
    decreases l
  {
    var a := StepAt(n, states, l - 1);
    if k < l - 1 {
      OverJoinedTheDrained(n, states, k, l - 1, id);
      JoinsOn(states[l - 1], a, states[l], id);
    } else {
      DrainTakes(states[k], a, states[l], id);
    }
  }

  lemma DrainTakes(s: State, a: Action, s': State, id: Id)
    requires Step(s, a, s') && s.shutdown.Draining? && s'.shutdown.Drained? && id in s.scenarios
    ensures id in s'.handles
  {
  }

  lemma JoinsOn(s: State, a: Action, s': State, id: Id)
    requires Step(s, a, s') && (s.shutdown.Drained? || s.shutdown.Over?)
    requires id in s.joined || (id in s.handles && s.shutdown.Drained?)
    ensures s'.shutdown.Drained? || s'.shutdown.Over?
    ensures id in s'.joined || (id in s'.handles && s'.shutdown.Drained?)
  {
  }

  // ---- A scenario that is joined without having been stopped ----

  lemma Extend(n: nat, run: seq<State>, a: Action, s': State) returns (longer: seq<State>)
    requires Run(n, run) && Step(run[|run| - 1], a, s')
    ensures Run(n, longer) && longer[|longer| - 1] == s'
  {
    longer := run + [s'];
    forall k | 0 <= k < |longer| - 1 ensures StepsAt(longer, k) {
      if k == |run| - 1 {
        assert Step(longer[k], a, longer[k + 1]);
      } else {
        assert StepsAt(run, k);
      }
    }
  }

  /** The shutdown of a server without catalog entries, up to the end of its stop loop. */
  const STOPPED_ALL := Init(0).(phase := Finished, sweep := Ended(false), supervisorDone := true,
                                cancelled := true, shutdown := Draining)

  lemma ShutDownToDrain() returns (run: seq<State>)
    ensures Run(0, run) && run[|run| - 1] == STOPPED_ALL
  {
    run := [Init(0)];
    var s1 := Init(0).(phase := Finished, sweep := Ended(false));
    run := Extend(0, run, FinishSweep, s1);
    var s2 := s1.(supervisorDone := true);
    run := Extend(0, run, Supervise, s2);
    run := ShutDownFrom(run, s2);
  }

  lemma ShutDownFrom(before: seq<State>, s2: State) returns (run: seq<State>)
    requires Run(0, before) && before[|before| - 1] == s2
    requires s2 == STOPPED_ALL.(cancelled := false, shutdown := Serving)
    ensures Run(0, run) && run[|run| - 1] == STOPPED_ALL
  {
    run := Extend(0, before, SignalShutdown, s2.(shutdown := Cancelling));
    var s3 := s2.(cancelled := true, shutdown := Joining);
    run := Extend(0, run, CancelSweep, s3);
    run := Extend(0, run, JoinSweep, s3.(shutdown := Stopping));
    run := Extend(0, run, StopAll, STOPPED_ALL);
  }

  /** A request served between the stop loop and the drain adds a scenario that the shutdown
      joins and never stops. */
  lemma LateScenarioIsNotStopped() returns (run: seq<State>)
    ensures Run(0, run) && var s := run[|run| - 1]; 7 in s.joined && 7 !in s.stopped
  {
    run := ShutDownToDrain();
    var s4 := STOPPED_ALL.(scenarios := {7}, everAdded := {7}, late := {7});
    run := Extend(0, run, Post(7), s4);
    var s5 := s4.(shutdown := Drained, scenarios := {}, handles := {7});
    run := Extend(0, run, Drain, s5);
    run := Extend(0, run, JoinOne(7), s5.(handles := {}, joined := {7}));
  }
}
