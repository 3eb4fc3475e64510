/** `SondaRun` of `scripts/live_infra_uat.py`: one `start`, any number of `restart` and `wait`
    calls on any threads, interleaved at their statements, with child processes that may exit
    at any time. */
module SondaRun {
  import opened Orders

  type Tid = nat
  type RunId = nat

  /** Where a call is. `Raised` is every exit by exception. */
  datatype Thread =
    | Idle
    | StartCall | StartOpened                       // before and after its temporary files
    | RestartCall | RestartLocked
    | Stopping(proc: RunId)                         // SIGINT sent, waiting for the exit
    | Killing(proc: RunId)                          // 30 s passed, killed, waiting for the exit
    | Stopped(proc: RunId, code: int)
    | Collected(code: int)
    | Opened                                        // the new temporary files exist
    | Restarted                                     // spawned, lock still held
    | Failing                                       // about to raise, lock still held
    | WaitLoop | WaitLocked
    | Waiting(proc: RunId)
    | TimedOut(proc: RunId)
    | Exited(proc: RunId)
    | Checking(proc: RunId)                         // exited, lock held again
    | Reading(proc: RunId)                          // it is the current run; collected if needed
    | Returned(proc: RunId, code: int, output: seq<Chunk>)
    | Raised

  /** One read of a pair of temporary files: the run that wrote them, or none when the spawn
      that should have used them failed. */
  type Chunk = Option<RunId>

  /** `runs` counts the runs started, numbered from 0; `current` is `_proc`; `files` is `_files`;
      `output` what was collected; `codes` the exit codes of the children that have exited, and `seen`
      the runs whose `returncode` is set because some call has seen them exit. */
  datatype State = State(runs: nat, current: Option<RunId>, files: Option<Chunk>, output: seq<Chunk>,
                         codes: map<RunId, int>, seen: set<RunId>, begun: bool, lock: Option<Tid>,
                         threads: map<Tid, Thread>)
  {
    function Th(t: Tid): Thread { if t in threads then threads[t] else Idle }
    function Set(t: Tid, th: Thread): State { this.(threads := threads[t := th]) }
    function Free(t: Tid): State { this.(lock := None) }
    function See(run: RunId): State { this.(seen := seen + {run}) }
  }

  const INIT := State(0, None, None, [], map[], {}, false, None, map[])

  datatype Action =
    | ChildExits(run: RunId, code: int)
    | CallStart | CallRestart | CallWait
    | Lock | Unlock
    | OpenFiles | Spawn | SpawnFails
    | Signal | SignalLate(waiter: Tid) | StopExits | StopTimeout | Collect | Judge
    | TakeProc | ProcExits | WaitTimeout | CheckCurrent | Return

  predicate HoldsLock(th: Thread)
  {
    th.RestartLocked? || th.Stopping? || th.Killing? || th.Stopped? || th.Collected? || th.Opened? || th.Restarted?
    || th.Failing? || th.WaitLocked? || th.Checking? || th.Reading?
  }

  function Spawned(s: State): State
  {
    s.(runs := s.runs + 1, current := Some(s.runs), files := Some(Some(s.runs)))
  }

  function CollectedState(s: State): State
    requires s.files.Some?
  {
    s.(output := s.output + [s.files.value], files := None)
  }

  predicate Step(s: State, t: Tid, a: Action, s': State)
  {
    var th := s.Th(t);
    match a
    case ChildExits(r, code) => r < s.runs && r !in s.codes && s' == s.(codes := s.codes[r := code])
    case CallStart => th.Idle? && !s.begun && s' == s.(begun := true).Set(t, StartCall)
    case CallRestart => th.Idle? && s' == s.Set(t, RestartCall)
    case CallWait => th.Idle? && s' == s.Set(t, WaitLoop)
    case Lock =>
      && s.lock.None?
      && (th.RestartCall? || th.WaitLoop? || th.Exited?)
      && s' == s.(lock := Some(t)).Set(t, if th.RestartCall? then RestartLocked else if th.WaitLoop? then WaitLocked
                                       else Checking(th.proc))
    case Unlock => (th.Restarted? || th.Failing?) && s' == s.Free(t).Set(t, if th.Restarted? then Idle else Raised)
    // _spawn: the files first, then the process, which may fail to start
    case OpenFiles => (th.StartCall? || (th.Collected? && th.code == 0))
                      && s' == s.(files := Some(None)).Set(t, if th.StartCall? then StartOpened else Opened)
    case Spawn =>
      (th.StartOpened? || th.Opened?) && s' == Spawned(s).Set(t, if th.StartOpened? then Idle else Restarted)
    case SpawnFails => (th.StartOpened? || th.Opened?) && s' == s.Set(t, if th.StartOpened? then Raised else Failing)
    // restart: the poll before the signal sees an exit, or goes without an answer because a wait is
    // asking the system at that moment and nobody has been told yet
    case Signal => th.RestartLocked?
                   && s' == if s.current.None? then s.Set(t, Failing)
                            else if s.current.value in s.codes then s.See(s.current.value).Set(t, Failing)
                            else s.Set(t, Stopping(s.current.value))
    case SignalLate(u) => th.RestartLocked? && s.current.Some? && s.current.value !in s.seen && u != t
                          && (s.Th(u) == Waiting(s.current.value) || s.Th(u) == TimedOut(s.current.value))
                          && s' == s.Set(t, Stopping(s.current.value))
    case StopExits => (th.Stopping? || th.Killing?) && th.proc in s.codes
                      && s' == s.See(th.proc).Set(t, if th.Stopping? then Stopped(th.proc, s.codes[th.proc])
                                                     else Failing)
    case StopTimeout => th.Stopping? && s' == s.Set(t, Killing(th.proc))
    case Collect =>
      || (th.Stopped? && s' == (if s.files.Some? then CollectedState(s) else s).Set(t, Collected(th.code)))
      || (th.Checking? && s.current == Some(th.proc)
          && s' == (if s.files.Some? then CollectedState(s) else s).Set(t, Reading(th.proc)))
    case Judge => th.Collected? && th.code != 0 && s' == s.Set(t, Failing)
    // wait
    case TakeProc => th.WaitLocked? && s' == s.Free(t).Set(t, if s.current.None? then Raised
                                                           else Waiting(s.current.value))
    case ProcExits => (th.Waiting? || th.TimedOut?) && th.proc in s.codes
                      && s' == s.See(th.proc).Set(t, if th.Waiting? then Exited(th.proc) else Raised)
    case WaitTimeout => th.Waiting? && s' == s.Set(t, TimedOut(th.proc))
    case CheckCurrent => th.Checking? && s.current != Some(th.proc) && s' == s.Free(t).Set(t, WaitLoop)
    case Return => th.Reading? && th.proc in s.codes
                   && s' == s.Free(t).Set(t, Returned(th.proc, s.codes[th.proc], s.output))
  }

  // ---- The invariant ----

  /** The runs among the chunks, in order. */
  function RunsOf(chunks: seq<Chunk>): seq<RunId>
  {
    if chunks == [] then []
    else
      var rest := RunsOf(chunks[..|chunks| - 1]);
      if chunks[|chunks| - 1].None? then rest else rest + [chunks[|chunks| - 1].value]
  }

  function UpTo(n: nat): seq<RunId>
  {
    seq(n, i requires 0 <= i < n => i)
  }

  /** The runs started are those collected, in order, and then the one still in the files. */
  predicate OutputInOrder(s: State)
  {
    && (s.runs == 0 ==> s.files != Some(Some(0)))
    && (match s.files
        case Some(Some(r)) => r + 1 == s.runs && RunsOf(s.output) == UpTo(r)
        case _ => RunsOf(s.output) == UpTo(s.runs))
  }

  ghost predicate Shared(s: State)
  {
    && (if s.runs == 0 then s.current.None? else s.current == Some(s.runs - 1))
    && (forall r :: r in s.codes ==> r < s.runs)
    && (forall r :: 0 <= r < s.runs - 1 ==> r in s.codes && s.codes[r] == 0)
    && s.seen <= s.codes.Keys
    && (s.runs > 0 ==> s.begun)
    && OutputInOrder(s)
  }

  /** A restart that has not seen the current run exit, or has stopped it, and not yet started the
      next one. */
  predicate MayStart(th: Thread)
  {
    th.Stopping? || th.Stopped? || th.Collected? || th.Opened? || th.StartCall? || th.StartOpened?
  }

  predicate ThreadOk(s: State, t: Tid)
  {
    var th := s.Th(t);
    && (HoldsLock(th) <==> s.lock == Some(t))
    && (th.StartCall? || th.StartOpened? ==> s.runs == 0 && s.begun)
    && (th.Stopping? || th.Killing? ==> s.current == Some(th.proc))
    && (th.Stopped? ==> s.current == Some(th.proc) && th.proc in s.codes && s.codes[th.proc] == th.code)
    && (th.Collected? ==> s.runs > 0 && s.runs - 1 in s.codes && s.codes[s.runs - 1] == th.code && s.files.None?)
    && (th.Opened? ==> s.runs > 0 && s.runs - 1 in s.codes && s.codes[s.runs - 1] == 0 && s.files == Some(None))
    && (th.StartOpened? ==> s.files == Some(None))
    && (th.Waiting? || th.TimedOut? ==> th.proc < s.runs)
    && (th.Exited? || th.Checking? || th.Reading? || th.Returned? ==> th.proc in s.seen && th.proc in s.codes)
    && (th.Reading? ==> s.current == Some(th.proc) && th.proc in s.codes && s.files.None?)
    && (th.Returned? ==> s.current == Some(th.proc) && th.proc in s.codes && s.codes[th.proc] == th.code
                         && RunsOf(th.output) == UpTo(s.runs) && s.files.None?)
  }

  /** While a run may still be started, no `wait` has returned. */
  predicate Apart(s: State, t: Tid, u: Tid)
  {
    && !(MayStart(s.Th(t)) && s.Th(u).Returned?)
    && (t != u && (s.Th(t).StartCall? || s.Th(t).StartOpened?) ==> !s.Th(u).StartCall? && !s.Th(u).StartOpened?)
  }

  ghost predicate Inv(s: State)
  {
    Shared(s) && (forall t: Tid :: ThreadOk(s, t)) && forall t: Tid, u: Tid :: Apart(s, t, u)
  }

  lemma RunsOfSnoc(chunks: seq<Chunk>, c: Chunk)
    ensures RunsOf(chunks + [c]) == RunsOf(chunks) + if c.None? then [] else [c.value]
  {
    assert (chunks + [c])[..|chunks|] == chunks;
  }

  lemma UpToSnoc(n: nat)
    ensures UpTo(n + 1) == UpTo(n) + [n]
  {
  }

  /** Collecting takes the run in the files over to the end of the output. */
  lemma CollectInOrder(s: State)
    requires OutputInOrder(s) && s.files.Some?
    ensures RunsOf(CollectedState(s).output) == UpTo(s.runs) && OutputInOrder(CollectedState(s))
  {
    RunsOfSnoc(s.output, s.files.value);
    if s.files.value.Some? {
      UpToSnoc(s.files.value.value);
    }
  }

  lemma StepShared(s: State, t: Tid, a: Action, s': State)
    requires Shared(s) && ThreadOk(s, t) && Step(s, t, a, s')
    ensures Shared(s')
  {
    if a.Collect? {
      CollectShared(s, t, s');
    } else {
      StepSharedElse(s, t, a, s');
    }
  }

  lemma CollectShared(s: State, t: Tid, s': State)
    requires Shared(s) && Step(s, t, Collect, s')
    ensures Shared(s')
  {
    if s.files.Some? {
      CollectInOrder(s);
    }
  }

  lemma StepSharedElse(s: State, t: Tid, a: Action, s': State)
    requires Shared(s) && ThreadOk(s, t) && Step(s, t, a, s') && !a.Collect?
    ensures Shared(s')
  {
    if Spawning(a) {
      SpawnShared(s, t, a, s');
    }
  }

  /** A step of `_spawn`. */
  predicate Spawning(a: Action)
  {
    a.OpenFiles? || a.Spawn? || a.SpawnFails?
  }

  lemma SpawnShared(s: State, t: Tid, a: Action, s': State)
    requires Shared(s) && ThreadOk(s, t) && Step(s, t, a, s') && Spawning(a)
    ensures Shared(s')
  {
  }

  lemma StepThread(s: State, t: Tid, a: Action, s': State, u: Tid)
    requires Shared(s) && ThreadOk(s, t) && ThreadOk(s, u) && Apart(s, t, u) && Apart(s, u, t) && Step(s, t, a, s')
    ensures ThreadOk(s', u)
  {
    if u == t {
      StepOwnThread(s, t, a, s');
    } else {
      StepOtherThread(s, t, a, s', u);
    }
  }

  lemma StepOwnThread(s: State, t: Tid, a: Action, s': State)
    requires Shared(s) && ThreadOk(s, t) && Step(s, t, a, s')
    ensures ThreadOk(s', t)
  {
    if a.Collect? || a.Return? {
      StepCollecting(s, t, a, s');
    } else if a.Lock? || a.Unlock? || a.TakeProc? || a.CheckCurrent? || a.ProcExits? || a.WaitTimeout? {
      StepWaiting(s, t, a, s');
    } else {
      StepRestarting(s, t, a, s');
    }
  }

  lemma StepCollecting(s: State, t: Tid, a: Action, s': State)
    requires Shared(s) && ThreadOk(s, t) && Step(s, t, a, s') && (a.Collect? || a.Return?)
    ensures ThreadOk(s', t)
  {
    if a.Collect? && s.files.Some? {
      CollectInOrder(s);
    }
  }

  lemma StepWaiting(s: State, t: Tid, a: Action, s': State)
    requires Shared(s) && ThreadOk(s, t) && Step(s, t, a, s')
    requires a.Lock? || a.Unlock? || a.TakeProc? || a.CheckCurrent? || a.ProcExits? || a.WaitTimeout?
    ensures ThreadOk(s', t)
  {
  }

  lemma StepRestarting(s: State, t: Tid, a: Action, s': State)
    requires Shared(s) && ThreadOk(s, t) && Step(s, t, a, s')
    requires !(a.Collect? || a.Return? || a.Lock? || a.Unlock? || a.TakeProc? || a.CheckCurrent? || a.ProcExits? ||
               a.WaitTimeout?)
    ensures ThreadOk(s', t)
  {
    if Spawning(a) {
      StepSpawning(s, t, a, s');
    } else {
      StepStopping(s, t, a, s');
    }
  }

  lemma StepSpawning(s: State, t: Tid, a: Action, s': State)
    requires Shared(s) && ThreadOk(s, t) && Step(s, t, a, s') && Spawning(a)
    ensures ThreadOk(s', t)
  {
  }

  lemma StepStopping(s: State, t: Tid, a: Action, s': State)
    requires Shared(s) && ThreadOk(s, t) && Step(s, t, a, s') && !Spawning(a)
    requires !(a.Collect? || a.Return? || a.Lock? || a.Unlock? || a.TakeProc? || a.CheckCurrent? || a.ProcExits? ||
               a.WaitTimeout?)
    ensures ThreadOk(s', t)
  {
  }

  /** What another thread does needs the lock, or leaves alone what this one relies on. */
  lemma StepOtherThread(s: State, t: Tid, a: Action, s': State, u: Tid)
    requires Shared(s) && ThreadOk(s, t) && ThreadOk(s, u) && Apart(s, t, u) && Apart(s, u, t) && Step(s, t, a, s') &&
             u != t
    ensures ThreadOk(s', u)
  {
    if Spawning(a) {
      SpawnOther(s, t, a, s', u);
    } else if a.Collect? {
      CollectOther(s, t, s', u);
    } else {
      ElseOther(s, t, a, s', u);
    }
  }

  lemma SpawnOther(s: State, t: Tid, a: Action, s': State, u: Tid)
    requires Shared(s) && ThreadOk(s, t) && ThreadOk(s, u) && Apart(s, t, u) && Apart(s, u, t) && u != t
    requires Step(s, t, a, s') && Spawning(a)
    ensures ThreadOk(s', u)
  {
    assert s'.Th(u) == s.Th(u);
  }

  lemma CollectOther(s: State, t: Tid, s': State, u: Tid)
    requires Shared(s) && ThreadOk(s, t) && ThreadOk(s, u) && Step(s, t, Collect, s') && u != t
    ensures ThreadOk(s', u)
  {
    assert s'.Th(u) == s.Th(u);
  }

  lemma ElseOther(s: State, t: Tid, a: Action, s': State, u: Tid)
    requires Shared(s) && ThreadOk(s, t) && ThreadOk(s, u) && Step(s, t, a, s') && !Spawning(a) && !a.Collect? && u != t
    ensures ThreadOk(s', u)
  {
    assert s'.Th(u) == s.Th(u);
  }

  lemma StepApart(s: State, t: Tid, a: Action, s': State, u: Tid, v: Tid)
    requires Inv(s) && Step(s, t, a, s')
    ensures Apart(s', u, v)
  {
    assert ThreadOk(s, t) && ThreadOk(s, u) && ThreadOk(s, v);
    assert Apart(s, u, v) && Apart(s, t, v) && Apart(s, u, t) && Apart(s, v, t) && Apart(s, t, u);
  }

  lemma StepInv(s: State, t: Tid, a: Action, s': State)
    requires Inv(s) && Step(s, t, a, s')
    ensures Inv(s')
  {
    assert ThreadOk(s, t);
    StepShared(s, t, a, s');
    forall u: Tid ensures ThreadOk(s', u) {
      assert ThreadOk(s, u) && Apart(s, t, u) && Apart(s, u, t);
      StepThread(s, t, a, s', u);
    }
    forall u: Tid, v: Tid ensures Apart(s', u, v) {
      StepApart(s, t, a, s', u, v);
    }
  }

  // ---- Main results ----

  ghost predicate Run(states: seq<State>)
  {
    && |states| > 0 && states[0] == INIT
    && forall k :: 0 <= k < |states| - 1 ==> StepsAt(states, k)
  }

  ghost predicate StepsAt(states: seq<State>, k: nat)
  {
    k + 1 < |states| && StepsTo(states[k], states[k + 1])
  }

  ghost predicate StepsTo(s: State, s': State)
  {
    exists t: Tid, a :: Step(s, t, a, s')
  }

  lemma {:induction false} RunInv(states: seq<State>, k: nat)
    requires Run(states) && k < |states|
    ensures Inv(states[k])
  {
    if k > 0 {
      RunInv(states, k - 1);
      assert StepsAt(states, k - 1);
      StepsToInv(states[k - 1], states[k]);
    }
  }

  lemma StepsToInv(s: State, s': State)
    requires Inv(s) && StepsTo(s, s')
    ensures Inv(s')
  {
    var t: Tid, a :| Step(s, t, a, s');
    StepInv(s, t, a, s');
  }

  /** At every moment, whatever raised: the runs collected so far are the first ones started,
      each once and in start order, and only the last run started can be missing. */
  lemma CollectedInStartOrder(states: seq<State>, k: nat)
    requires Run(states) && k < |states|
    ensures var s := states[k];
            RunsOf(s.output) == UpTo(s.runs) || (s.runs > 0 && RunsOf(s.output) == UpTo(s.runs - 1) &&
                                                 s.files == Some(Some(s.runs - 1)))
  {
    RunInv(states, k);
  }

  /** A run follows another only if the other exited with 0. */
  lemma RestartedAfterZero(states: seq<State>, k: nat, r: RunId)
    requires Run(states) && k < |states| && r + 1 < states[k].runs
    ensures r in states[k].codes && states[k].codes[r] == 0
  {
    RunInv(states, k);
  }

  /** A `wait` that returned reports the exit code of the last run started, in every later
      state too, and every run's output, each once and in start order. */
  lemma WaitReportsTheLastRun(states: seq<State>, k: nat, t: Tid)
    requires Run(states) && k < |states| && states[k].Th(t).Returned?
    ensures var s, w := states[k], states[k].Th(t);
            && w.proc + 1 == s.runs && w.proc in s.codes && w.code == s.codes[w.proc]
            && RunsOf(w.output) == UpTo(s.runs) == RunsOf(s.output)
  {
    RunInv(states, k);
    assert ThreadOk(states[k], t);
  }

  /** No run starts after a `wait` has returned. */
  lemma {:induction false} NothingStartsAfterWait(states: seq<State>, k: nat, l: nat, t: Tid)
    requires Run(states) && k <= l < |states| && states[k].Th(t).Returned?
    ensures states[l].runs == states[k].runs && states[l].Th(t) == states[k].Th(t)
    decreases l
  {
    if k < l {
      NothingStartsAfterWait(states, k, l - 1, t);
      assert StepsAt(states, l - 1);
      RunInv(states, l - 1);
      NothingStartsNext(states[l - 1], states[l], t);
    }
  }

  lemma NothingStartsNext(s: State, s': State, t: Tid)
    requires Inv(s) && StepsTo(s, s') && s.Th(t).Returned?
    ensures s'.runs == s.runs && s'.Th(t) == s.Th(t)
  {
    var u: Tid, a :| Step(s, u, a, s');
    assert ThreadOk(s, u) && Apart(s, u, t);
    AfterReturn(s, u, a, s', t);
  }

  lemma AfterReturn(s: State, u: Tid, a: Action, s': State, t: Tid)
    requires ThreadOk(s, u) && Apart(s, u, t) && s.Th(t).Returned? && Step(s, u, a, s')
    ensures s'.runs == s.runs && s'.Th(t) == s.Th(t)
  {
  }

  // ---- How a call goes on, and how it ends ----

  /** Where a call at `th` can be next, in state `s`. */
  predicate Moves(s: State, th: Thread, th': Thread)
  {
    match th
    case Idle => th'.StartCall? || th'.RestartCall? || th'.WaitLoop?
    case StartCall => th'.StartOpened?
    case StartOpened => th'.Idle? || th'.Raised?
    case RestartCall => th'.RestartLocked?
    case RestartLocked =>
      || (th'.Failing? && (s.current.None? || s.current.value in s.codes))
      || (s.current.Some? && th' == Stopping(s.current.value))
    case Stopping(p) => th' == Killing(p) || (p in s.codes && th' == Stopped(p, s.codes[p]))
    case Killing(p) => p in s.codes && th'.Failing?
    case Stopped(_, code) => th' == Collected(code)
    case Collected(code) => if code == 0 then th'.Opened? else th'.Failing?
    case Opened => th'.Restarted? || th'.Failing?
    case Restarted => th'.Idle?
    case Failing => th'.Raised?
    case WaitLoop => th'.WaitLocked?
    case WaitLocked => if s.current.None? then th'.Raised? else th' == Waiting(s.current.value)
    case Waiting(p) => th' == TimedOut(p) || (p in s.codes && th' == Exited(p))
    case TimedOut(p) => p in s.codes && th'.Raised?
    case Exited(p) => th' == Checking(p)
    case Checking(p) => if s.current == Some(p) then th' == Reading(p) else th'.WaitLoop?
    case Reading(p) => p in s.codes && th' == Returned(p, s.codes[p], s.output)
    case Returned(_, _, _) => false
    case Raised => false
  }

  /** A step moves at most one call, and only so. */
  lemma StepMoves(s: State, u: Tid, a: Action, s': State, t: Tid)
    requires Step(s, u, a, s')
    ensures s'.Th(t) == s.Th(t) || (t == u && Moves(s, s.Th(t), s'.Th(t)))
  {
    if t != u {
      assert s'.Th(t) == s.Th(t);
    } else if a.Lock? || a.Unlock? || a.TakeProc? || a.ProcExits? || a.WaitTimeout? || a.CheckCurrent? || a.Return? {
      WaitMoves(s, u, a, s');
    } else {
      OtherMoves(s, u, a, s');
    }
  }

  lemma WaitMoves(s: State, u: Tid, a: Action, s': State)
    requires Step(s, u, a, s')
    requires a.Lock? || a.Unlock? || a.TakeProc? || a.ProcExits? || a.WaitTimeout? || a.CheckCurrent? || a.Return?
    ensures Moves(s, s.Th(u), s'.Th(u))
  {
  }

  lemma OtherMoves(s: State, u: Tid, a: Action, s': State)
    requires Step(s, u, a, s')
    requires !(a.Lock? || a.Unlock? || a.TakeProc? || a.ProcExits? || a.WaitTimeout? || a.CheckCurrent? || a.Return?)
    ensures s'.Th(u) == s.Th(u) || Moves(s, s.Th(u), s'.Th(u))
  {
  }

  lemma CallMoves(states: seq<State>, k: nat, t: Tid)
    requires Run(states) && k + 1 < |states|
    ensures states[k + 1].Th(t) == states[k].Th(t) || Moves(states[k], states[k].Th(t), states[k + 1].Th(t))
  {
    assert StepsAt(states, k);
    var u: Tid, a :| Step(states[k], u, a, states[k + 1]);
    StepMoves(states[k], u, a, states[k + 1], t);
  }

  lemma {:induction false} RaisedStays(states: seq<State>, k: nat, l: nat, t: Tid)
    requires Run(states) && k <= l < |states| && states[k].Th(t).Raised?
    ensures states[l].Th(t).Raised?
    decreases l
  {
    if k < l {
      RaisedStays(states, k, l - 1, t);
      CallMoves(states, l - 1, t);
    }
  }

  /** A `wait` whose time has run out only waits for the killed run to exit, and raises: it never
      returns. */
  lemma {:induction false} TimedOutRaises(states: seq<State>, k: nat, l: nat, t: Tid)
    requires Run(states) && k <= l < |states| && states[k].Th(t).TimedOut?
    ensures states[l].Th(t) == states[k].Th(t) || states[l].Th(t).Raised?
    decreases l
  {
    if k < l {
      TimedOutRaises(states, k, l - 1, t);
      CallMoves(states, l - 1, t);
    }
  }

  /** A `wait` that sees its run exit in time goes on to look whether it was the last one. */
  lemma ExitInTimeGoesOn(states: seq<State>, k: nat, t: Tid, p: RunId)
    requires Run(states) && k + 1 < |states| && states[k].Th(t) == Waiting(p) != states[k + 1].Th(t)
    requires !states[k + 1].Th(t).TimedOut?
    ensures states[k + 1].Th(t) == Exited(p) && p in states[k].codes && p in states[k + 1].seen
  {
    CallMoves(states, k, t);
    RunInv(states, k + 1);
    assert ThreadOk(states[k + 1], t);
  }

  /** A step at which thread `t` sees run `p` exit in time. */
  predicate SeesExit(states: seq<State>, m: int, t: Tid, p: RunId)
  {
    0 <= m && m + 1 < |states| && states[m].Th(t) == Waiting(p) && states[m + 1].Th(t) == Exited(p)
  }

  predicate Past(th: Thread, p: RunId)
  {
    th == Exited(p) || th == Checking(p) || th == Reading(p) || (th.Returned? && th.proc == p)
  }

  /** A `wait` that returns has seen the run it reports exit, in time. */
  lemma {:induction false} ReturnedSawTheExit(states: seq<State>, k: nat, t: Tid, p: RunId)
    requires Run(states) && k < |states| && Past(states[k].Th(t), p)
    ensures exists m :: m < k && SeesExit(states, m, t, p)
  {
    if k > 0 {
      CallMoves(states, k - 1, t);
      if Past(states[k - 1].Th(t), p) {
        ReturnedSawTheExit(states, k - 1, t, p);
      } else {
        assert SeesExit(states, k - 1, t, p);
      }
    }
  }

  predicate InWait(th: Thread)
  {
    th.WaitLoop? || th.WaitLocked? || th.Waiting? || th.TimedOut? || th.Exited? || th.Checking? || th.Reading?
  }

  /** A moment at which a `wait` is bound to raise: its time has run out, or nothing was ever started. */
  predicate Doomed(states: seq<State>, m: int, t: Tid)
  {
    && 0 <= m < |states|
    && (states[m].Th(t).TimedOut? || (states[m].Th(t).WaitLocked? && states[m].current.None?))
  }

  /** A `wait` raises only if its time ran out, or nothing was ever started. */
  lemma {:induction false} WaitRaisesOnlySo(states: seq<State>, j: nat, l: nat, t: Tid)
    requires Run(states) && j <= l < |states| && InWait(states[j].Th(t))
    ensures InWait(states[l].Th(t)) || states[l].Th(t).Returned? || states[l].Th(t).Raised?
    ensures states[l].Th(t).Raised? ==> exists m :: j <= m < l && Doomed(states, m, t)
    decreases l
  {
    if j < l {
      WaitRaisesOnlySo(states, j, l - 1, t);
      CallMoves(states, l - 1, t);
      if states[l].Th(t).Raised? && !states[l - 1].Th(t).Raised? {
        assert Doomed(states, l - 1, t);
      }
    }
  }

  /** A `wait` asks again only because the run it waited for has been replaced. */
  lemma LoopsOnlyAfterARestart(states: seq<State>, k: nat, t: Tid, p: RunId)
    requires Run(states) && k + 1 < |states| && states[k].Th(t) == Checking(p) && states[k + 1].Th(t).WaitLoop?
    ensures p + 1 < states[k].runs
  {
    CallMoves(states, k, t);
    RunInv(states, k);
    assert ThreadOk(states[k], t);
  }

  /** `start` leaves one run behind, the current one, if it returns, and none if it raises. */
  lemma StartStartsOneOrRaises(states: seq<State>, k: nat, t: Tid)
    requires Run(states) && k + 1 < |states| && states[k].Th(t).StartOpened? && !states[k + 1].Th(t).StartOpened?
    ensures states[k + 1].Th(t).Idle? || states[k + 1].Th(t).Raised?
    ensures states[k + 1].Th(t).Idle? <==> states[k + 1].runs == 1
    ensures states[k + 1].Th(t).Raised? <==> states[k + 1].runs == 0
    ensures states[k + 1].Th(t).Idle? ==> states[k + 1].current == Some(0)
  {
    RunInv(states, k);
    assert ThreadOk(states[k], t);
    CallMoves(states, k, t);
    assert StepsAt(states, k);
    var u: Tid, a :| Step(states[k], u, a, states[k + 1]);
    StartEnds(states[k], u, a, states[k + 1], t);
  }

  lemma StartEnds(s: State, u: Tid, a: Action, s': State, t: Tid)
    requires Step(s, u, a, s') && s.Th(t).StartOpened? && !s'.Th(t).StartOpened? && s.runs == 0
    ensures s'.Th(t).Idle? ==> s'.runs == 1 && s'.current == Some(0)
    ensures s'.Th(t).Raised? ==> s'.runs == 0
  {
    assert t == u || s'.Th(t) == s.Th(t);
  }

  // ---- restart starts one run or raises ----

  /** The restart of thread `t` has the lock since state `j`. */
  ghost predicate Restarting(states: seq<State>, j: nat, l: nat, t: Tid)
  {
    j <= l < |states| && states[j].Th(t).RestartLocked? && forall m :: j <= m < l ==> states[m].lock == Some(t)
  }

  predicate BeforeSpawn(th: Thread)
  {
    th.RestartLocked? || th.Stopping? || th.Killing? || th.Stopped? || th.Collected? || th.Opened? || th.Failing?
  }

  /** With the lock held, only its holder starts runs, once there is one. */
  lemma OnlyTheHolderStarts(s: State, u: Tid, a: Action, s': State, t: Tid)
    requires Inv(s) && Step(s, u, a, s') && s.lock == Some(t) && s.runs > 0
    ensures s'.runs == s.runs + if s.Th(t).Opened? && s'.Th(t).Restarted? then 1 else 0
  {
    assert ThreadOk(s, u) && ThreadOk(s, t);
    StepMoves(s, u, a, s', t);
  }

  /** A restart that finds a run starts exactly one if it returns, and none if it raises. */
  lemma {:induction false} RestartStartsOneOrRaises(states: seq<State>, j: nat, l: nat, t: Tid)
    requires Run(states) && Restarting(states, j, l, t) && states[j].runs > 0
    ensures var th := states[l].Th(t);
            || (BeforeSpawn(th) && states[l].lock == Some(t) && states[l].runs == states[j].runs)
            || (th.Restarted? && states[l].lock == Some(t) && states[l].runs == states[j].runs + 1)
            || (th.Raised? && states[l].lock != Some(t) && states[l].runs == states[j].runs)
            || (th.Idle? && states[l].lock != Some(t) && states[l].runs == states[j].runs + 1)
    decreases l
  {
    RunInv(states, l);
    assert ThreadOk(states[l], t);
    if j < l {
      RestartStartsOneOrRaises(states, j, l - 1, t);
      RestartGoesOn(states, l - 1, t);
    }
  }

  lemma RestartGoesOn(states: seq<State>, k: nat, t: Tid)
    requires Run(states) && k + 1 < |states| && states[k].lock == Some(t) && states[k].runs > 0
    requires BeforeSpawn(states[k].Th(t)) || states[k].Th(t).Restarted?
    ensures var th := states[k + 1].Th(t);
            && (states[k].Th(t).Restarted? ==> th.Restarted? || th.Idle?)
            && (BeforeSpawn(states[k].Th(t)) ==> BeforeSpawn(th) || th.Restarted? || th.Raised?)
            && states[k + 1].runs == states[k].runs + if BeforeSpawn(states[k].Th(t)) && th.Restarted? then 1 else 0
  {
    RunInv(states, k);
    assert StepsAt(states, k);
    HolderGoesOn(states[k], states[k + 1], t);
  }

  lemma HolderGoesOn(s: State, s': State, t: Tid)
    requires Inv(s) && StepsTo(s, s') && s.lock == Some(t) && s.runs > 0
    ensures s'.Th(t) == s.Th(t) || Moves(s, s.Th(t), s'.Th(t))
    ensures s'.runs == s.runs + if s.Th(t).Opened? && s'.Th(t).Restarted? then 1 else 0
  {
    var u: Tid, a :| Step(s, u, a, s');
    StepMoves(s, u, a, s', t);
    OnlyTheHolderStarts(s, u, a, s', t);
  }

  /** A restart that had to kill the run, or is about to raise for another reason, raises. */
  lemma {:induction false} KillingRaises(states: seq<State>, k: nat, l: nat, t: Tid)
    requires Run(states) && k <= l < |states| && (states[k].Th(t).Killing? || states[k].Th(t).Failing?)
    ensures states[l].Th(t) == states[k].Th(t) || states[l].Th(t).Failing? || states[l].Th(t).Raised?
    decreases l
  {
    if k < l {
      KillingRaises(states, k, l - 1, t);
      CallMoves(states, l - 1, t);
    }
  }

  // ---- A restart of a run that has already exited ----

  /** What the restart does with it: it raises and starts nothing, unless nobody has seen the exit and
      a wait is asking for it; and if somebody has, it always raises. */
  lemma ExitedRunRaises(s: State, t: Tid, a: Action, s': State)
    requires s.Th(t).RestartLocked? && s.current.Some? && s.current.value in s.codes
    requires Step(s, t, a, s') && !a.ChildExits?
    ensures s'.runs == s.runs
    ensures s'.Th(t).Failing? || (s'.Th(t) == Stopping(s.current.value) && s.current.value !in s.seen && a.SignalLate?)
    ensures s'.Th(t).Failing? ==> s.current.value in s'.seen
  {
  }

  lemma Extend(run: seq<State>, t: Tid, a: Action, s': State) returns (longer: seq<State>)
    requires Run(run) && Step(run[|run| - 1], t, a, s')
    ensures Run(longer) && run <= longer && longer[|longer| - 1] == s'
  {
    longer := run + [s'];
    forall k | 0 <= k < |longer| - 1 ensures StepsAt(longer, k) {
      if k == |run| - 1 {
        assert Step(longer[k], t, a, longer[k + 1]);
      } else {
        assert StepsAt(run, k);
      }
    }
  }

  /** One run, started by thread 0, and a wait for it on thread 1. */
  const STARTED := State(1, Some(0), Some(Some(0)), [], map[], {}, true, None, map[0 := Idle])
  const AWAITED := STARTED.(threads := map[0 := Idle, 1 := Waiting(0)])

  lemma Started() returns (run: seq<State>)
    ensures Run(run) && run[|run| - 1] == STARTED
  {
    var s1 := INIT.(begun := true, threads := map[0 := StartCall]);
    run := Extend([INIT], 0, CallStart, s1);
    var s2 := s1.(files := Some(None), threads := map[0 := StartOpened]);
    run := Extend(run, 0, OpenFiles, s2);
    run := Extend(run, 0, Spawn, STARTED);
  }

  lemma Awaited(before: seq<State>) returns (run: seq<State>)
    requires Run(before) && before[|before| - 1] == STARTED
    ensures Run(run) && run[|run| - 1] == AWAITED
  {
    run := Extend(before, 1, CallWait, STARTED.(threads := map[0 := Idle, 1 := WaitLoop]));
    run := Extend(run, 1, Lock, STARTED.(lock := Some(1), threads := map[0 := Idle, 1 := WaitLocked]));
    run := Extend(run, 1, TakeProc, AWAITED);
  }

  /** The run exits with 0, and a restart on thread 2 takes the lock. */
  const LATE := AWAITED.(codes := map[0 := 0], lock := Some(2), threads := AWAITED.threads[2 := RestartLocked])

  lemma Late(before: seq<State>) returns (run: seq<State>)
    requires Run(before) && before[|before| - 1] == AWAITED
    ensures Run(run) && run[|run| - 1] == LATE
  {
    var s1 := AWAITED.(codes := map[0 := 0]);
    run := Extend(before, 0, ChildExits(0, 0), s1);
    var s2 := s1.(threads := AWAITED.threads[2 := RestartCall]);
    run := Extend(run, 2, CallRestart, s2);
    run := Extend(run, 2, Lock, LATE);
  }

  const STOPPED := LATE.(seen := {0}, threads := AWAITED.threads[2 := Stopped(0, 0)])

  lemma StoppedLate(before: seq<State>) returns (run: seq<State>)
    requires Run(before) && before[|before| - 1] == LATE
    ensures Run(run) && before <= run && run[|run| - 1] == STOPPED
  {
    var s1 := LATE.(threads := AWAITED.threads[2 := Stopping(0)]);
    run := Extend(before, 2, SignalLate(1), s1);
    run := Extend(run, 2, StopExits, STOPPED);
  }

  const AGAIN := STOPPED.(runs := 2, current := Some(1), files := Some(Some(1)), output := [Some(0)],
                          threads := AWAITED.threads[2 := Restarted])

  lemma StartedAgain(before: seq<State>) returns (run: seq<State>)
    requires Run(before) && before[|before| - 1] == STOPPED
    ensures Run(run) && before <= run && run[|run| - 1] == AGAIN
  {
    var s1 := STOPPED.(files := None, output := [Some(0)], threads := AWAITED.threads[2 := Collected(0)]);
    assert STOPPED.output + [STOPPED.files.value] == [Some(0)];
    run := Extend(before, 2, Collect, s1);
    var s2 := s1.(files := Some(None), threads := AWAITED.threads[2 := Opened]);
    run := Extend(run, 2, OpenFiles, s2);
    run := Extend(run, 2, Spawn, AGAIN);
  }

  /** So there is a run in which a restart finds the current run exited and starts another. */
  lemma RestartCanFollowAnExit() returns (run: seq<State>, k: nat)
    ensures Run(run) && k < |run| && run[k].Th(2).RestartLocked? && run[k].current == Some(0) && 0 in run[k].codes
    ensures run[|run| - 1].runs == 2 && run[|run| - 1].Th(2).Restarted?
  {
    var before := Started();
    before := Awaited(before);
    before := Late(before);
    run, k := FollowedFrom(before);
  }

  lemma FollowedFrom(before: seq<State>) returns (run: seq<State>, k: nat)
    requires Run(before) && before[|before| - 1] == LATE
    ensures Run(run) && k < |run| && run[k] == LATE && run[|run| - 1] == AGAIN
  {
    k := |before| - 1;
    run := StoppedLate(before);
    run := StartedAgain(run);
  }

  // ---- A wait that returns, and a restart that works ----

  /** A run that exits with `code` while it is waited for: the wait returns that code and the run's
      output. */
  lemma WaitReturnsTheCode(code: int) returns (run: seq<State>)
    ensures Run(run) && run[|run| - 1].Th(1) == Returned(0, code, [Some(0)])
  {
    run := Started();
    run := Awaited(run);
    run := Extend(run, 0, ChildExits(0, code), AWAITED.(codes := map[0 := code]));
    run := Answered(run, code);
  }

  /** The exit seen, in time, and the lock taken again. */
  function CheckedAt(code: int): State
  {
    AWAITED.(codes := map[0 := code], seen := {0}, lock := Some(1), threads := map[0 := Idle, 1 := Checking(0)])
  }

  lemma Answered(before: seq<State>, code: int) returns (run: seq<State>)
    requires Run(before) && before[|before| - 1] == AWAITED.(codes := map[0 := code])
    ensures Run(run) && run[|run| - 1].Th(1) == Returned(0, code, [Some(0)])
  {
    var s1 := CheckedAt(code).(lock := None, threads := map[0 := Idle, 1 := Exited(0)]);
    run := Extend(before, 1, ProcExits, s1);
    run := Extend(run, 1, Lock, CheckedAt(code));
    run := Reported(run, code);
  }

  lemma Reported(before: seq<State>, code: int) returns (run: seq<State>)
    requires Run(before) && before[|before| - 1] == CheckedAt(code)
    ensures Run(run) && run[|run| - 1].Th(1) == Returned(0, code, [Some(0)])
  {
    var s := CheckedAt(code);
    var s1 := s.(files := None, output := [Some(0)], threads := map[0 := Idle, 1 := Reading(0)]);
    assert s.output + [s.files.value] == [Some(0)];
    run := Extend(before, 1, Collect, s1);
    run := Extend(run, 1, Return, s1.(lock := None, threads := map[0 := Idle, 1 := Returned(0, code, [Some(0)])]));
  }

  /** The state of a restart on thread 1, with the lock. */
  function RestartAt(th: Thread): State
  {
    STARTED.(lock := Some(1), threads := map[0 := Idle, 1 := th])
  }

  /** A restart of a run that is alive and exits 0 on the signal starts the next one and returns. */
  lemma RestartWorks() returns (run: seq<State>)
    ensures Run(run) && run[|run| - 1].Th(1).Idle? && run[|run| - 1].runs == 2
    ensures run[|run| - 1].current == Some(1) && run[|run| - 1].lock == None
  {
    run := Started();
    run := Extend(run, 1, CallRestart, STARTED.(threads := map[0 := Idle, 1 := RestartCall]));
    run := Extend(run, 1, Lock, RestartAt(RestartLocked));
    run := Extend(run, 1, Signal, RestartAt(Stopping(0)));
    run := Extend(run, 0, ChildExits(0, 0), RestartAt(Stopping(0)).(codes := map[0 := 0]));
    run := StoppedInTime(run);
  }

  const TAKEN := RestartAt(Collected(0)).(codes := map[0 := 0], seen := {0}, files := None, output := [Some(0)])

  lemma StoppedInTime(before: seq<State>) returns (run: seq<State>)
    requires Run(before) && before[|before| - 1] == RestartAt(Stopping(0)).(codes := map[0 := 0])
    ensures Run(run) && run[|run| - 1].Th(1).Idle? && run[|run| - 1].runs == 2
    ensures run[|run| - 1].current == Some(1) && run[|run| - 1].lock == None
  {
    var s1 := RestartAt(Stopped(0, 0)).(codes := map[0 := 0], seen := {0});
    run := Extend(before, 1, StopExits, s1);
    assert s1.output + [s1.files.value] == [Some(0)];
    run := Extend(run, 1, Collect, TAKEN);
    run := SpawnedNext(run);
  }

  lemma SpawnedNext(before: seq<State>) returns (run: seq<State>)
    requires Run(before) && before[|before| - 1] == TAKEN
    ensures Run(run) && run[|run| - 1].Th(1).Idle? && run[|run| - 1].runs == 2
    ensures run[|run| - 1].current == Some(1) && run[|run| - 1].lock == None
  {
    var s1 := TAKEN.(files := Some(None), threads := map[0 := Idle, 1 := Opened]);
    run := Extend(before, 1, OpenFiles, s1);
    var s2 := s1.(runs := 2, current := Some(1), files := Some(Some(1)), threads := map[0 := Idle, 1 := Restarted]);
    run := Extend(run, 1, Spawn, s2);
    run := Extend(run, 1, Unlock, s2.(lock := None, threads := map[0 := Idle, 1 := Idle]));
  }
}
