/** The values behind `GateBusRegistry` (`sonda-server/src/gate_registry.rs`): its three maps,
    the buses, channels and stats they refer to, and every operation as a function on them. */
module GateModel {
  import opened Orders

  type HandleId = string
  type StatsId = nat
  type Sender = nat
  type BusId = nat

  datatype BusKey = BusKey(scenarioName: string, entryId: string)
  datatype WhileOp = LessThan | GreaterThan
  datatype WhileSpec = WhileSpec(op: WhileOp, threshold: real)
  datatype Unresolved = Open | Closed | Hold
  datatype Edge = AfterFired | WhileOpen | WhileClose | UpstreamGone
  datatype RunState = Pending | Running | Paused | Held | Unresolved | Finished

  /** An upstream value: a number, or NaN, for which every gate stays closed. */
  datatype Value = NaN | Number(n: real)

  datatype Waiter = Waiter(handleId: HandleId, stats: StatsId, sender: Sender, scenarioName: string,
                           entryId: string, ifUnresolved: Unresolved, registeredAt: int,
                           attempts: nat, spec: WhileSpec)
  {
    function Key(): BusKey { BusKey(scenarioName, entryId) }

    /** `SubscriberRef::from_pending`, without the key. */
    function ToSubscriber(): Subscriber
    {
      Subscriber(handleId, stats, sender, spec, ifUnresolved, registeredAt, attempts)
    }
  }

  datatype Subscriber = Subscriber(handleId: HandleId, stats: StatsId, sender: Sender, spec: WhileSpec,
                                   ifUnresolved: Unresolved, registeredAt: int, attempts: nat)
  {
    /** `SubscriberRef::into_pending`. */
    function ToWaiter(key: BusKey): Waiter
    {
      Waiter(handleId, stats, sender, key.scenarioName, key.entryId, ifUnresolved, registeredAt,
             attempts, spec)
    }
  }

  /** One subscription of a bus: the `while:` channel and the `after:` channel, if any. */
  datatype Subscription = Subscription(spec: Option<WhileSpec>, whileTx: Option<Sender>, afterTx: Option<Sender>)

  datatype Bus = Bus(subs: seq<Subscription>, value: Option<Value>)

  datatype Stats = Stats(attempts: nat, state: RunState)

  datatype RegistryError =
    | DuplicateScenarioName(name: string)
    | UpstreamCancelled(scenarioName: string, entryId: string)

  /** The registry's maps, with what they point to. A bus identity without an entry in `bus`
      is a bus nobody has ticked or subscribed to; a stats identity is in `stats` while a
      strong reference to it exists; `slot` holds the latest edge of each channel. */
  datatype World = World(buses: map<BusKey, BusId>, subscribers: map<BusKey, seq<Subscriber>>,
                         pending: map<HandleId, Waiter>, bus: map<BusId, Bus>,
                         slot: map<Sender, Edge>, stats: map<StatsId, Stats>)
  {
    function Row(key: BusKey): seq<Subscriber>
    {
      if key in subscribers then subscribers[key] else []
    }

    function BusOf(b: BusId): Bus
    {
      if b in bus then bus[b] else Bus([], None)
    }
  }

  const U64_MAX: nat := 0xffff_ffff_ffff_ffff

  function SaturatingInc(n: nat): nat
  {
    if n >= U64_MAX then n else n + 1
  }

  function StrictEval(v: Value, spec: WhileSpec): bool
  {
    match v
    case NaN => false
    case Number(n) => match spec.op
      case LessThan => n < spec.threshold
      case GreaterThan => n > spec.threshold
  }

  // ---- What a bus does for the registry ----

  /** The edge a new `while:` subscription sends at once, when the bus has a value. */
  function InitialEdge(b: Bus, spec: WhileSpec): Option<Edge>
  {
    if b.value.None? then None
    else Some(if StrictEval(b.value.value, spec) then WhileOpen else WhileClose)
  }

  function WhileSubscription(spec: WhileSpec, tx: Sender): Subscription
  {
    Subscription(Some(spec), Some(tx), None)
  }

  function Channels(subs: seq<Subscription>): set<Sender>
  {
    (set s | s in subs && s.whileTx.Some? :: s.whileTx.value)
    + (set s | s in subs && s.afterTx.Some? :: s.afterTx.value)
  }

  /** Every channel of `subs`, told that its upstream is gone. */
  function Gone(subs: seq<Subscription>): map<Sender, Edge>
  {
    map tx | tx in Channels(subs) :: UpstreamGone
  }

  function Broadcast(w: World, b: BusId): World
  {
    w.(slot := w.slot + Gone(w.BusOf(b).subs))
  }

  // ---- register ----

  function Register(w: World, key: BusKey, b: BusId): (World, Option<RegistryError>)
  {
    if key in w.buses then (w, Some(DuplicateScenarioName(key.scenarioName)))
    else (w.(buses := w.buses[key := b]), None)
  }

  // ---- insert_pending and track_subscriber ----

  function InsertPending(w: World, p: Waiter): World
  {
    w.(pending := w.pending[p.handleId := p])
  }

  function TrackSubscriber(w: World, p: Waiter): World
  {
    w.(subscribers := w.subscribers[p.Key() := w.Row(p.Key()) + [p.ToSubscriber()]])
  }

  // ---- sweep_pending ----

  predicate Live(w: World, s: StatsId) { s in w.stats }

  /** A waiter the sweep promotes: alive, with its bus registered. */
  predicate Ready(w: World, p: Waiter) { Live(w, p.stats) && p.Key() in w.buses }

  /** A waiter the sweep leaves: alive, with no bus yet. */
  predicate Waits(w: World, p: Waiter) { Live(w, p.stats) && p.Key() !in w.buses }

  function Promoted(p: Waiter): Subscriber
  {
    p.(attempts := SaturatingInc(p.attempts)).ToSubscriber()
  }

  function Promote(w: World, p: Waiter): World
    requires Ready(w, p)
  {
    var s := w.stats[p.stats];
    var b := w.buses[p.Key()];
    var bus := w.BusOf(b);
    var edge := InitialEdge(bus, p.spec);
    World(w.buses,
          w.subscribers[p.Key() := w.Row(p.Key()) + [Promoted(p)]],
          w.pending - {p.handleId},
          w.bus[b := bus.(subs := bus.subs + [WhileSubscription(p.spec, p.sender)])],
          if edge.Some? then w.slot[p.sender := edge.value] else w.slot,
          w.stats[p.stats := s.(attempts := SaturatingInc(s.attempts))])
  }

  function SweepOne(w: World, id: HandleId): World
    requires KeysMatch(w)
  {
    if id !in w.pending then w
    else if !Live(w, w.pending[id].stats) then w.(pending := w.pending - {id})
    else if !Ready(w, w.pending[id]) then w
    else Promote(w, w.pending[id])
  }

  /** The sweep's loop over the snapshot `order` of the pending keys. */
  function Sweep(w: World, order: seq<HandleId>): (w': World)
    requires KeysMatch(w)
    ensures KeysMatch(w')
    decreases |order|
  {
    if order == [] then w
    else SweepOne(Sweep(w, order[..|order| - 1]), order[|order| - 1])
  }

  // ---- unregister_entries ----

  function Removed(w: World, name: string, entries: set<string>): set<BusKey>
  {
    set k | k in w.buses && k.scenarioName == name && k.entryId in entries
  }

  /** The buses are taken out first; then each retired bus tells its channels. */
  function BroadcastAll(w: World, buses: seq<BusId>): World
    decreases |buses|
  {
    if buses == [] then w
    else Broadcast(BroadcastAll(w, buses[..|buses| - 1]), buses[|buses| - 1])
  }

  function Retired(buses: map<BusKey, BusId>, keys: seq<BusKey>): seq<BusId>
    requires forall k :: k in keys ==> k in buses
  {
    seq(|keys|, i requires 0 <= i < |keys| => buses[keys[i]])
  }

  function Retire(w: World, keys: seq<BusKey>): World
    requires forall k :: k in keys ==> k in w.buses
  {
    BroadcastAll(w.(buses := w.buses - set k | k in keys), Retired(w.buses, keys))
  }

  function RequeueOne(w: World, key: BusKey, sub: Subscriber): World
  {
    if !Live(w, sub.stats) then w
    else w.(slot := w.slot[sub.sender := UpstreamGone],
            pending := w.pending[sub.handleId := sub.ToWaiter(key)])
  }

  function RequeueRow(w: World, key: BusKey, refs: seq<Subscriber>): World
    decreases |refs|
  {
    if refs == [] then w
    else RequeueOne(RequeueRow(w, key, refs[..|refs| - 1]), key, refs[|refs| - 1])
  }

  function RequeueKey(w: World, key: BusKey): World
  {
    if key !in w.subscribers then w
    else RequeueRow(w.(subscribers := w.subscribers - {key}), key, w.subscribers[key])
  }

  function Requeue(w: World, keys: seq<BusKey>): World
    decreases |keys|
  {
    if keys == [] then w
    else RequeueKey(Requeue(w, keys[..|keys| - 1]), keys[|keys| - 1])
  }

  /** `unregister_entries`, visiting the removed keys in the order `keys`. */
  function Unregister(w: World, keys: seq<BusKey>): World
    requires forall k :: k in keys ==> k in w.buses
  {
    Requeue(Retire(w, keys), keys)
  }

  // ---- cancel_pending_for_upstream ----

  function Waiting(w: World, key: BusKey): set<HandleId>
  {
    set id | id in w.pending && w.pending[id].Key() == key
  }

  function CancelOne(w: World, id: HandleId): World
  {
    if id !in w.pending then w
    else
      var p := w.pending[id];
      w.(pending := w.pending - {id},
         slot := w.slot[p.sender := UpstreamGone],
         stats := if p.stats in w.stats && !w.stats[p.stats].state.Finished?
                  then w.stats[p.stats := w.stats[p.stats].(state := RunState.Unresolved)]
                  else w.stats)
  }

  function Cancel(w: World, order: seq<HandleId>): World
    decreases |order|
  {
    if order == [] then w
    else CancelOne(Cancel(w, order[..|order| - 1]), order[|order| - 1])
  }

  /** The errors the cancellation of `order` returns, one a waiter. */
  function CancelErrors(w: World, order: seq<HandleId>): (errors: seq<RegistryError>)
    requires forall id :: id in order ==> id in w.pending
    ensures |errors| == |order|
  {
    seq(|order|, i requires 0 <= i < |order| =>
      UpstreamCancelled(w.pending[order[i]].scenarioName, w.pending[order[i]].entryId))
  }

  // ---- rename_handle ----

  function RenamedId(id: HandleId, oldId: HandleId, newId: HandleId): HandleId
  {
    if id == oldId then newId else id
  }

  function RenameRow(row: seq<Subscriber>, oldId: HandleId, newId: HandleId): (r: seq<Subscriber>)
  {
    seq(|row|, i requires 0 <= i < |row| => row[i].(handleId := RenamedId(row[i].handleId, oldId, newId)))
  }

  function RenamePending(pending: map<HandleId, Waiter>, oldId: HandleId, newId: HandleId): map<HandleId, Waiter>
  {
    if oldId == newId || oldId !in pending then pending
    else (pending - {oldId})[newId := pending[oldId].(handleId := newId)]
  }

  function RenameRows(rows: map<BusKey, seq<Subscriber>>, oldId: HandleId, newId: HandleId)
    : map<BusKey, seq<Subscriber>>
  {
    map k | k in rows :: RenameRow(rows[k], oldId, newId)
  }

  function Rename(w: World, oldId: HandleId, newId: HandleId): World
  {
    w.(pending := RenamePending(w.pending, oldId, newId),
       subscribers := RenameRows(w.subscribers, oldId, newId))
  }

  // ---- Which worlds are consistent ----

  ghost predicate KeysMatch(w: World)
  {
    forall id :: id in w.pending ==> w.pending[id].handleId == id
  }

  /** Two records of different handles: no id, stats or channel in common. */
  predicate Apart(a: Subscriber, b: Subscriber)
  {
    a.handleId != b.handleId && a.stats != b.stats && a.sender != b.sender
  }

  ghost predicate PendingApart(w: World)
  {
    forall i, j :: i in w.pending && j in w.pending && i != j ==>
      Apart(w.pending[i].ToSubscriber(), w.pending[j].ToSubscriber())
  }

  ghost predicate RowsApart(w: World)
  {
    forall k, l, i, j
      | k in w.subscribers && l in w.subscribers
        && 0 <= i < |w.subscribers[k]| && 0 <= j < |w.subscribers[l]| && (k != l || i != j)
      :: Apart(w.subscribers[k][i], w.subscribers[l][j])
  }

  ghost predicate PendingApartFromRows(w: World)
  {
    forall id, k, i ::
      id in w.pending && k in w.subscribers && 0 <= i < |w.subscribers[k]| ==>
        Apart(w.pending[id].ToSubscriber(), w.subscribers[k][i])
  }

  /** No handle has two records, and every pending key is its record's handle id. */
  ghost predicate Consistent(w: World)
  {
    KeysMatch(w) && PendingApart(w) && RowsApart(w) && PendingApartFromRows(w)
  }

  /** `id` names no record. */
  ghost predicate Fresh(w: World, id: HandleId)
  {
    && id !in w.pending
    && forall k, i :: k in w.subscribers && 0 <= i < |w.subscribers[k]| ==> w.subscribers[k][i].handleId != id
  }
}
