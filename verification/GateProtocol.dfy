/** The registry under concurrency: every call as statements between lock operations, any
    number of threads, any interleaving, and a panic possible between any two statements. A
    panicking thread drops what it holds in local variables and its guards; the recovering
    locks let the next thread in. Bus lookups see arbitrary bus maps, so nothing here depends
    on who registers or leaves when. Each step is atomic and sequentially consistent. */
module GateProtocol {
  import opened Orders
  import opened GateModel

  type Tid = nat

  /** Where a thread is in its call, with its local variables. */
  datatype Thread =
    | Idle
    | HoldsPending                                  // about to drop the pending guard
    | HoldsSubs                                     // about to drop the subscribers guard
    | HoldsBoth                                     // about to drop both
    | InsertCall(p: Waiter) | Inserting(p: Waiter)
    | TrackCall(p: Waiter) | Tracking(p: Waiter)
    | SweepCall | SweepHasPending
    | Sweeping(todo: set<HandleId>)
    | Checked(todo: set<HandleId>, id: HandleId)    // found alive; its bus not looked up yet
    | Promoting(todo: set<HandleId>, entry: Waiter, stage: nat)
    | RequeueCall(keys: seq<BusKey>) | RequeueHasSubs(keys: seq<BusKey>)
    | Requeueing(keys: seq<BusKey>)
    | RequeueingRow(keys: seq<BusKey>, key: BusKey, refs: seq<Subscriber>)
    | RenameCall(o: HandleId, n: HandleId) | RenamingPending(o: HandleId, n: HandleId)
    | RenamingEntry(o: HandleId, n: HandleId, held: Waiter, renamed: bool)
    | RenameBetween(o: HandleId, n: HandleId, renamed: bool, locked: bool)
    | RenamingRows(o: HandleId, n: HandleId, renamed: bool)
    | CancelCall(upstream: BusKey)
    | Cancelling(todo: set<HandleId>)
    | CancellingEntry(todo: set<HandleId>, taken: Waiter)

  /** `used` are the ids ever given to a handle, `entered` the record each handle came with. */
  datatype State = State(subs: map<BusKey, seq<Subscriber>>, pending: map<HandleId, Waiter>,
                         buses: map<BusKey, BusId>, stats: map<StatsId, Stats>,
                         pendingLock: Option<Tid>, subsLock: Option<Tid>, threads: map<Tid, Thread>,
                         used: set<HandleId>, entered: map<StatsId, Subscriber>)
  {
    function Th(t: Tid): Thread
    {
      if t in threads then threads[t] else Idle
    }

    function Set(t: Tid, th: Thread): State
    {
      this.(threads := threads[t := th])
    }
  }

  const INIT := State(map[], map[], map[], map[], None, None, map[], {}, map[])

  /** Inside the loop of a sweep. */
  predicate AtSweep(th: Thread) { th.Sweeping? || th.Checked? || th.Promoting? }

  predicate OwnsPending(th: Thread)
  {
    th.HoldsPending? || th.HoldsBoth? || th.Inserting? || th.SweepHasPending? || AtSweep(th)
    || th.Requeueing? || th.RequeueingRow? || th.RenamingPending? || th.RenamingEntry?
    || (th.RenameBetween? && th.locked) || th.Cancelling? || th.CancellingEntry?
  }

  predicate OwnsSubs(th: Thread)
  {
    th.HoldsSubs? || th.HoldsBoth? || th.Tracking? || AtSweep(th) || th.RequeueHasSubs?
    || th.Requeueing? || th.RequeueingRow? || th.RenamingRows?
  }

  /** The records in a thread's local variables. */
  function Hand(th: Thread): seq<Subscriber>
  {
    match th
    case InsertCall(p) => [p.ToSubscriber()]
    case Inserting(p) => [p.ToSubscriber()]
    case TrackCall(p) => [p.ToSubscriber()]
    case Tracking(p) => [p.ToSubscriber()]
    case Promoting(_, entry, _) => [entry.ToSubscriber()]
    case RequeueingRow(_, _, refs) => refs
    case RenamingEntry(_, _, held, _) => [held.ToSubscriber()]
    case CancellingEntry(_, taken) => [taken.ToSubscriber()]
    case _ => []
  }

  // ---- Steps, by the call they belong to ----

  /** What happens around the registry: downstreams come and go, and so do buses. */
  datatype EnvStep = Spawn(st: StatsId) | DropStats(st: StatsId) | SetBuses(buses: map<BusKey, BusId>)

  datatype CallStep = StartSweep | StartRequeue(keys: seq<BusKey>) | StartRename(o: HandleId, n: HandleId)
      | StartCancel(key: BusKey)

  /** Guards taken and dropped; a panic drops them with everything in hand. */
  datatype LockStep = LockPending | LockSubs | Unlock | Panic

  /** `insert_pending` and `track_subscriber` under their lock. */
  datatype PutStep = PutPending | PushRow

  datatype SweepStep = SweepDrop(id: HandleId) | SweepAlive(id: HandleId) | SweepSkip | SweepTake
                     | CountEntry | CountStats | PushEntry | EndSweep

  datatype RequeueStep = TakeRow | RequeueHead | EndRow | EndRequeue

  datatype RenameStep = RenameTake | RenameSetId | RenamePut | RenameAbsent | RenameRecord(key: BusKey, i: nat)
      | EndRename

  datatype CancelStep = CancelTake(id: HandleId) | CancelSettle | EndCancel

  datatype Action =
    | Env(env: EnvStep) | StartInsert(p: Waiter) | StartTrack(p: Waiter) | Call(call: CallStep) | Lock(lock: LockStep)
    | Put(put: PutStep) | Sweep(sweep: SweepStep) | Requeue(requeue: RequeueStep) | Rename(rename: RenameStep)
    | Cancel(cancel: CancelStep)

  predicate Alive(s: State, st: StatsId) { st in s.stats }

  function RowOf(s: State, key: BusKey): seq<Subscriber>
  {
    if key in s.subs then s.subs[key] else []
  }

  function Push(s: State, p: Waiter): State
  {
    s.(subs := s.subs[p.Key() := RowOf(s, p.Key()) + [p.ToSubscriber()]])
  }

  function EnvApply(s: State, x: EnvStep): State
  {
    match x
    case Spawn(st) => if st in s.stats || st in s.entered then s
        else s.(stats := s.stats[st := Stats(0, RunState.Pending)])
    case DropStats(st) => s.(stats := s.stats - {st})
    case SetBuses(b) => s.(buses := b)
  }

  /** A handle's record comes in: a new id, its own live stats with the same attempt count,
      and its own channel. */
  predicate NewHandle(s: State, p: Waiter)
  {
    p.handleId !in s.used && p.stats in s.stats && p.stats !in s.entered && p.attempts == s.stats[p.stats].attempts
    && forall st :: st in s.entered ==> s.entered[st].sender != p.sender
  }

  function Enter(s: State, t: Tid, p: Waiter, th: Thread): State
  {
    s.(used := s.used + {p.handleId}, entered := s.entered[p.stats := p.ToSubscriber()]).Set(t, th)
  }

  predicate CallEnabled(s: State, t: Tid, x: CallStep)
  {
    s.Th(t).Idle? && (x.StartRename? ==> x.n !in s.used && x.o != x.n)
  }

  function CallApply(s: State, t: Tid, x: CallStep): State
    requires CallEnabled(s, t, x)
  {
    match x
    case StartSweep => s.Set(t, SweepCall)
    case StartRequeue(keys) => s.Set(t, RequeueCall(keys))
    case StartRename(o, n) => s.(used := s.used + {n}).Set(t, RenameCall(o, n))
    case StartCancel(key) => s.Set(t, CancelCall(key))
  }

  /** What a thread that waits for the pending lock does next once it has it. */
  function WithPending(s: State, th: Thread): Option<Thread>
  {
    match th
    case InsertCall(p) => Some(Inserting(p))
    case SweepCall => Some(SweepHasPending)
    case RequeueHasSubs(keys) => Some(Requeueing(keys))
    case RenameCall(o, n) => Some(RenamingPending(o, n))
    case CancelCall(key) => Some(Cancelling(set id | id in s.pending && s.pending[id].Key() == key))
    case _ => None
  }

  function WithSubs(s: State, th: Thread): Option<Thread>
  {
    match th
    case TrackCall(p) => Some(Tracking(p))
    case SweepHasPending => Some(Sweeping(s.pending.Keys))
    case RequeueCall(keys) => Some(RequeueHasSubs(keys))
    case RenameBetween(o, n, renamed, false) => Some(RenamingRows(o, n, renamed))
    case _ => None
  }

  function Free(lock: Option<Tid>, t: Tid): Option<Tid>
  {
    if lock == Some(t) then None else lock
  }

  predicate LockEnabled(s: State, t: Tid, x: LockStep)
  {
    var th := s.Th(t);
    match x
    case LockPending => s.pendingLock.None? && WithPending(s, th).Some?
    case LockSubs => s.subsLock.None? && WithSubs(s, th).Some?
    case Unlock => th.HoldsPending? || th.HoldsSubs? || th.HoldsBoth? || (th.RenameBetween? && th.locked)
    case Panic => !th.Idle?
  }

  function LockApply(s: State, t: Tid, x: LockStep): State
    requires LockEnabled(s, t, x)
  {
    var th := s.Th(t);
    match x
    case LockPending => s.(pendingLock := Some(t)).Set(t, WithPending(s, th).value)
    case LockSubs => s.(subsLock := Some(t)).Set(t, WithSubs(s, th).value)
    case Unlock => s.(pendingLock := Free(s.pendingLock, t), subsLock := Free(s.subsLock, t))
                   .Set(t, if th.RenameBetween? then th.(locked := false) else Idle)
    case Panic => s.(pendingLock := Free(s.pendingLock, t), subsLock := Free(s.subsLock, t)).Set(t, Idle)
  }

  predicate PutEnabled(s: State, t: Tid, x: PutStep)
  {
    if x.PutPending? then s.Th(t).Inserting? else s.Th(t).Tracking?
  }

  function PutApply(s: State, t: Tid, x: PutStep): State
    requires PutEnabled(s, t, x)
  {
    var p := s.Th(t).p;
    if x.PutPending? then s.(pending := s.pending[p.handleId := p]).Set(t, HoldsPending)
    else Push(s, p).Set(t, HoldsSubs)
  }

  predicate SweepEnabled(s: State, t: Tid, x: SweepStep)
  {
    var th := s.Th(t);
    match x
    case SweepDrop(id) => th.Sweeping? && id in th.todo && id in s.pending && !Alive(s, s.pending[id].stats)
    case SweepAlive(id) => th.Sweeping? && id in th.todo && id in s.pending && Alive(s, s.pending[id].stats)
    case SweepSkip => th.Checked? && th.id in s.pending && s.pending[th.id].Key() !in s.buses
    case SweepTake => th.Checked? && th.id in s.pending && s.pending[th.id].Key() in s.buses
    case CountEntry => th.Promoting? && th.stage == 0
    case CountStats => th.Promoting? && th.stage == 1
    case PushEntry => th.Promoting? && th.stage == 2
    case EndSweep => th.Sweeping? && th.todo == {}
  }

  function Counted(stats: map<StatsId, Stats>, st: StatsId): map<StatsId, Stats>
  {
    if st in stats then stats[st := stats[st].(attempts := SaturatingInc(stats[st].attempts))] else stats
  }

  function SweepApply(s: State, t: Tid, x: SweepStep): State
    requires SweepEnabled(s, t, x)
  {
    var th := s.Th(t);
    match x
    case SweepDrop(id) => s.(pending := s.pending - {id}).Set(t, Sweeping(th.todo - {id}))
    case SweepAlive(id) => s.Set(t, Checked(th.todo - {id}, id))
    case SweepSkip => s.Set(t, Sweeping(th.todo))
    case SweepTake => s.(pending := s.pending - {th.id}).Set(t, Promoting(th.todo, s.pending[th.id], 0))
    case CountEntry => s.Set(t, Promoting(th.todo, th.entry.(attempts := SaturatingInc(th.entry.attempts)), 1))
    case CountStats => s.(stats := Counted(s.stats, th.entry.stats)).Set(t, Promoting(th.todo, th.entry, 2))
    case PushEntry => Push(s, th.entry).Set(t, Sweeping(th.todo))
    case EndSweep => s.Set(t, HoldsBoth)
  }

  predicate RequeueEnabled(s: State, t: Tid, x: RequeueStep)
  {
    var th := s.Th(t);
    match x
    case TakeRow => th.Requeueing? && th.keys != []
    case RequeueHead => th.RequeueingRow? && th.refs != []
    case EndRow => th.RequeueingRow? && th.refs == []
    case EndRequeue => th.Requeueing? && th.keys == []
  }

  function RequeueApply(s: State, t: Tid, x: RequeueStep): State
    requires RequeueEnabled(s, t, x)
  {
    var th := s.Th(t);
    match x
    case TakeRow =>
      var key := th.keys[0];
      if key in s.subs then s.(subs := s.subs - {key}).Set(t, RequeueingRow(th.keys[1..], key, s.subs[key]))
      else s.Set(t, Requeueing(th.keys[1..]))
    case RequeueHead =>
      var sub := th.refs[0];
      var s' := s.Set(t, RequeueingRow(th.keys, th.key, th.refs[1..]));
      if Alive(s, sub.stats) then s'.(pending := s.pending[sub.handleId := sub.ToWaiter(th.key)]) else s'
    case EndRow => s.Set(t, Requeueing(th.keys))
    case EndRequeue => s.Set(t, HoldsBoth)
  }

  predicate RenameEnabled(s: State, t: Tid, x: RenameStep)
  {
    var th := s.Th(t);
    match x
    case RenameTake => th.RenamingPending? && th.o in s.pending
    case RenameSetId => th.RenamingEntry? && !th.renamed
    case RenamePut => th.RenamingEntry? && th.renamed
    case RenameAbsent => th.RenamingPending? && th.o !in s.pending
    case RenameRecord(k, i) => th.RenamingRows? && k in s.subs && i < |s.subs[k]| && s.subs[k][i].handleId == th.o
    case EndRename => th.RenamingRows?
                      && forall k, i :: k in s.subs && 0 <= i < |s.subs[k]| ==> s.subs[k][i].handleId != th.o
  }

  function RenameApply(s: State, t: Tid, x: RenameStep): State
    requires RenameEnabled(s, t, x)
  {
    var th := s.Th(t);
    match x
    case RenameTake => s.(pending := s.pending - {th.o}).Set(t, RenamingEntry(th.o, th.n, s.pending[th.o], false))
    case RenameSetId => s.Set(t, RenamingEntry(th.o, th.n, th.held.(handleId := th.n), true))
    case RenamePut => s.(pending := s.pending[th.n := th.held]).Set(t, RenameBetween(th.o, th.n, true, true))
    case RenameAbsent => s.Set(t, RenameBetween(th.o, th.n, false, true))
    case RenameRecord(k, i) =>
      s.(subs := s.subs[k := s.subs[k][i := s.subs[k][i].(handleId := th.n)]]).Set(t, RenamingRows(th.o, th.n, true))
    case EndRename => s.Set(t, HoldsSubs)
  }

  predicate CancelEnabled(s: State, t: Tid, x: CancelStep)
  {
    var th := s.Th(t);
    match x
    case CancelTake(id) => th.Cancelling? && id in th.todo && id in s.pending
    case CancelSettle => th.CancellingEntry?
    case EndCancel => th.Cancelling? && th.todo == {}
  }

  function Settled(stats: map<StatsId, Stats>, st: StatsId): map<StatsId, Stats>
  {
    if st in stats && !stats[st].state.Finished? then stats[st := stats[st].(state := RunState.Unresolved)] else stats
  }

  function CancelApply(s: State, t: Tid, x: CancelStep): State
    requires CancelEnabled(s, t, x)
  {
    var th := s.Th(t);
    match x
    case CancelTake(id) => s.(pending := s.pending - {id}).Set(t, CancellingEntry(th.todo - {id}, s.pending[id]))
    case CancelSettle => s.(stats := Settled(s.stats, th.taken.stats)).Set(t, Cancelling(th.todo))
    case EndCancel => s.Set(t, HoldsPending)
  }

  /** One step of thread `t`, or of the surroundings. */
  predicate Step(s: State, t: Tid, a: Action, s': State)
  {
    match a
    case Env(x) => s' == EnvApply(s, x)
    case StartInsert(p) => s.Th(t).Idle? && NewHandle(s, p) && s' == Enter(s, t, p, InsertCall(p))
    case StartTrack(p) => s.Th(t).Idle? && NewHandle(s, p) && s' == Enter(s, t, p, TrackCall(p))
    case Call(x) => CallEnabled(s, t, x) && s' == CallApply(s, t, x)
    case Lock(x) => LockEnabled(s, t, x) && s' == LockApply(s, t, x)
    case Put(x) => PutEnabled(s, t, x) && s' == PutApply(s, t, x)
    case Sweep(x) => SweepEnabled(s, t, x) && s' == SweepApply(s, t, x)
    case Requeue(x) => RequeueEnabled(s, t, x) && s' == RequeueApply(s, t, x)
    case Rename(x) => RenameEnabled(s, t, x) && s' == RenameApply(s, t, x)
    case Cancel(x) => CancelEnabled(s, t, x) && s' == CancelApply(s, t, x)
  }

  // ---- Where the records are ----

  datatype Loc = InPending(id: HandleId) | InRow(key: BusKey, i: nat) | InHand(t: Tid, j: nat)

  predicate Has(s: State, l: Loc)
  {
    match l
    case InPending(id) => id in s.pending
    case InRow(key, i) => key in s.subs && i < |s.subs[key]|
    case InHand(t, j) => j < |Hand(s.Th(t))|
  }

  function At(s: State, l: Loc): Subscriber
    requires Has(s, l)
  {
    match l
    case InPending(id) => s.pending[id].ToSubscriber()
    case InRow(key, i) => s.subs[key][i]
    case InHand(t, j) => Hand(s.Th(t))[j]
  }

  // ---- The invariant ----

  /** A thread owns a lock exactly while it is between taking and dropping the guard; the
      entry it is renaming has the right id; and the snapshot its loop still has to visit is in
      the map, so that its lookups succeed. */
  ghost predicate ThreadOk(s: State, t: Tid)
  {
    var th := s.Th(t);
    && (OwnsPending(th) <==> s.pendingLock == Some(t))
    && (OwnsSubs(th) <==> s.subsLock == Some(t))
    && (th.RenamingEntry? ==> th.held.handleId == if th.renamed then th.n else th.o)
    && (IsRename(th) ==> th.o != th.n)
    && (th.Promoting? ==> th.stage <= 2)
    && (th.Checked? ==> th.id in s.pending && th.id !in th.todo)
    && ((AtSweep(th) || th.Cancelling? || th.CancellingEntry?) ==> th.todo <= s.pending.Keys)
  }

  predicate IsRename(th: Thread)
  {
    th.RenameCall? || th.RenamingPending? || th.RenamingEntry? || th.RenameBetween? || th.RenamingRows?
  }

  /** No two records share a handle id, a stats object or a channel. */
  ghost predicate Unique(s: State)
  {
    forall a, b :: Has(s, a) && Has(s, b) && a != b ==> Apart(At(s, a), At(s, b))
  }

  ghost predicate PendingKeysMatch(s: State)
  {
    forall id :: id in s.pending ==> s.pending[id].handleId == id
  }

  /** Every record still carries what its handle entered with. */
  predicate FromEntry(s: State, r: Subscriber)
  {
    r.handleId in s.used && r.stats in s.entered
    && r.sender == s.entered[r.stats].sender && r.spec == s.entered[r.stats].spec
    && r.ifUnresolved == s.entered[r.stats].ifUnresolved && r.registeredAt == s.entered[r.stats].registeredAt
  }

  ghost predicate Faithful(s: State)
  {
    forall l :: Has(s, l) ==> FromEntry(s, At(s, l))
  }

  /** The id a rename has reserved and not given to a record yet. */
  function Reserved(th: Thread): Option<HandleId>
  {
    match th
    case RenameCall(_, n) => Some(n)
    case RenamingPending(_, n) => Some(n)
    case RenamingEntry(_, n, _, false) => Some(n)
    case RenameBetween(_, n, false, _) => Some(n)
    case RenamingRows(_, n, false) => Some(n)
    case _ => None
  }

  /** The id a rename has taken away from its record. */
  function Vacated(th: Thread): Option<HandleId>
  {
    match th
    case RenamingEntry(o, _, _, true) => Some(o)
    case RenameBetween(o, _, true, _) => Some(o)
    case RenamingRows(o, _, true) => Some(o)
    case _ => None
  }

  /** No record has the id `id`. */
  ghost predicate Nobody(s: State, id: HandleId)
  {
    forall l :: Has(s, l) ==> At(s, l).handleId != id
  }

  /** What a rename has reserved or vacated belongs to no record. */
  ghost predicate TagsOk(s: State, t: Tid)
  {
    && (Reserved(s.Th(t)).Some? ==> Reserved(s.Th(t)).value in s.used && Nobody(s, Reserved(s.Th(t)).value))
    && (Vacated(s.Th(t)).Some? ==> Vacated(s.Th(t)).value in s.used && Nobody(s, Vacated(s.Th(t)).value))
  }

  predicate TagsApart(s: State, t: Tid, u: Tid)
  {
    Reserved(s.Th(t)).Some? ==>
      (t != u ==> Reserved(s.Th(t)) != Reserved(s.Th(u))) && Reserved(s.Th(t)) != Vacated(s.Th(u))
  }

  /** A record and its live stats count the same attempts, except between the two counting
      statements of the promotion that holds the record. */
  predicate Agrees(s: State, l: Loc)
    requires Has(s, l)
  {
    var r := At(s, l);
    r.stats in s.stats ==>
      if l.InHand? && s.Th(l.t).Promoting? && s.Th(l.t).stage == 1
      then r.attempts == SaturatingInc(s.stats[r.stats].attempts)
      else r.attempts == s.stats[r.stats].attempts
  }

  ghost predicate AttemptsAgree(s: State)
  {
    forall l :: Has(s, l) ==> Agrees(s, l)
  }

  ghost predicate Inv(s: State)
  {
    && (forall t: Tid :: ThreadOk(s, t))
    && (forall t: Tid :: TagsOk(s, t))
    && (forall t: Tid, u: Tid :: TagsApart(s, t, u))
    && Unique(s) && PendingKeysMatch(s) && Faithful(s) && AttemptsAgree(s)
  }

}
