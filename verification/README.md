# A verified model of sonda's hardest logic

sonda generates synthetic telemetry. This project models, in Dafny, the parts of it whose
correctness is not visible from reading one function, and proves what those parts promise:
for every input, for every reachable state, or for every run of any number of threads.
`dafny verify dfyconfig.toml` checks all of it.

Each property is a lemma or a method contract. Where the code does not keep a natural promise,
the model keeps the code as it is: a lemma exhibits an input or a run that breaks the promise,
and another says exactly when the promise holds.

## What is modelled

**64-bit mixing** (`Words`, `Mixing`, `MixingAnchor`). `splitmix64`, its hand-written inverse, the loop
that undoes an xor-shift, and Newton's iteration for inverses modulo 2^64. Words are integers below
2^64 with their own recursive exclusive or, so nothing is checked by enumeration. The constants are
held to the published output for 0, computed digit by digit.

**The civil calendar** (`Calendar`). The date arithmetic of `epoch_to_ymdhms`, against a calendar
defined by nothing but "the next day" and the Gregorian leap rule of ISO 8601.

**The gate registry** (sixteen `Gate` modules and `LockOrder`). Three maps between which subscribers
move as upstreams come and go.
- `GateModel` is the atomic meaning of every operation; `GateRegistry` is the class with the loops
  of the source, proved against it; `GateConsistency`, `GateOrders`, `GateSweep`, `GateRename` and
  `GateRoundTrip` prove the laws. `GateOutcomes` says what every call leaves, field by field, in
  predicates that use none of the model's functions.
- `GateProtocol` is the same registry one statement at a time, under any interleaving, with a panic
  allowed between any two statements. `GateProtocolProof` proves its invariant for every run.
  `GateRefinement` and `GateAtomicity` prove that its reachable states are consistent and that its
  critical sections, among any other threads, are the atomic operations. `GateRaces` shows a rename
  that misses its record, and `GateRenameExact` says exactly when that happens.
- `GateBuses` adds the map of buses to the protocol, with `register` and the removal of buses as steps,
  and says exactly when a row of subscribers is left without a bus; `GateStranded` shows one return.
- `LockOrder` decides which sets of concurrent calls can deadlock.

**Counters and lifecycles** (`HistogramShard`, `SweepLifecycle`, `SondaRun`). The lock-free
histogram, the autostart sweep with its supervisor, probes and shutdown, and the process wrapper of
the live checks, each a state machine whose steps are single atomic operations.

**Transformations and folds** (`SchemaWidening`, `Heatmap`, `FeatureClosure`, `ClockGroups`).
Schema widening against the meaning of JSON Schema draft 2020-12, the heatmap's de-cumulation, the
default-feature closure and the clock-group report.

## Findings

- `sweep_pending` and `unregister_entries` can deadlock: they take the locks of `pending` and
  `subscribers` in opposite orders. No other set of the registry's calls can (`LockOrder`).
- `rename_handle` is two critical sections, and can return with the record still under its old id
  (`GateRaces`). It reaches the record if and only if the record is in `pending` when the first lock
  is taken or in a row when the second is (`GateRenameExact`). So it misses one that is requeued
  between the two, and one still in another thread's hand, such as a `track_subscriber` that lands
  too late; it never misses a tracked one that no requeue and no other rename overlaps.
- A snapshot of the histogram can report a `count` above its `plus_inf`. It does exactly when more
  calls made both increments after the snapshot read `plus_inf` than were caught between the two
  (`HistogramShard`).
- A scenario posted between the stop loop and the drain of a shutdown is joined without having
  been told to stop; no scenario started by the sweep is (`SweepLifecycle`).
- Widening can make a `oneOf` reject what it accepted, when two branches begin to overlap. It rewrites
  an `enum` or `const` value that holds a marker or an open string type, and exactly those. A marked
  position does not keep its meaning through a `$ref`, because the definition it names is widened. And
  a property or definition named like the marker is taken for the marker: it is dropped, and the
  schemas beside it are not widened (`SchemaWidening`).
- A panic inside `unregister_entries` can leave a row of subscribers without a bus. The documentation
  in `sonda-server/src/locks.rs` says they are not resolved again while the process lives; they are, if
  their upstream registers again and is unregistered again (`GateStranded`).
- `restart` promises to start nothing when the current run had already exited. It can start another
  run all the same if that run exited with 0 and a `wait` is asking for it at that moment (`SondaRun`).
- The benchmark's date is the calendar's exactly up to the last second of the year 2^31 - 1, where
  the year stops fitting its 32-bit type (`Calendar`).

## Assumptions

- Atomic operations and critical sections are sequentially consistent; a weak `compare_exchange`
  may fail for no reason.
- A handle enters the concurrent registry with an id never used before, its own statistics object and
  its own channel, and with equal attempt counts; a new id given to `rename_handle` is unused. The
  atomic model does without: its contracts say for which records the registry stays consistent.
- A poll of a child process may go without an answer while another thread waits for that process and
  nobody has seen it exit, as CPython's `Popen.poll` does.
- Buses, channels and statistics are identities in maps; a statistics object is alive while it is in
  its map. A channel holds the last edge sent on it.
- `f64` values are reals, with NaN and the infinities where the code can meet them. Addition of
  `f64` is an arbitrary function, so no law of addition is used.
- A schema is evaluated to a given depth of nested keywords. A value is valid if it is accepted at
  every depth from some depth on.

## Model

| member | source | states |
|---|---|---|
| Mixing.XorShiftInjective | sonda-core/src/util.rs:51-60 | no two words have the same xor-shift |
| Mixing.Unxorshift | sonda-core/src/util.rs:52-60 | the loop returns the one word whose xor-shift is the argument, for every shift from 1 to 63 |
| Mixing.NewtonDoubles | sonda-core/src/util.rs:62-72 | one step turns an inverse modulo 2^e into one modulo 2^(2e) |
| Mixing.NewtonBits | sonda-core/src/util.rs:62-72 | after k steps the product with an odd number is 1 modulo 2^(3*2^k) |
| Mixing.NewtonExact | sonda-core/src/util.rs:62-72 | five steps give an exact inverse modulo 2^64 |
| Mixing.InverseOfOdd | sonda-core/src/util.rs:64-72 | the loop returns the inverse of every odd word |
| Mixing.SplitMix64Inverse | sonda-core/src/util.rs:45-49 | the result is the one preimage of the argument, so the two functions are inverse on both sides |
| Mixing.SplitMix64Injective | sonda-core/src/util.rs:34-39 | the mixing is a bijection of 64-bit words |
| MixingAnchor.CanonicalOutput | sonda-core/src/util.rs:163-172 | the mix of 0 is 16294208416658607535, so the three constants and the three shifts are the canonical ones |
| Mixing.RandomSpikeIndex | sonda-core/src/util.rs:80-85 | the index found hashes to the argument, and is below a cardinality exactly when some index of that spike has the hash |
| Mixing.SpikeMembership | sonda-core/src/util.rs:80-85 | an index is below the cardinality exactly when its hash belongs to the spike |
| Mixing.SpikeHashInjective | sonda-core/src/util.rs:74-78 | two indices of a spike never share a hash |
| Mixing.HexReads | sonda-core/src/util.rs:87-91 | the padded lower-case hexadecimal digits of a number that fits read back as the number |
| Mixing.SpikeValueReads | sonda-core/src/util.rs:87-91 | a spike's value is the prefix and sixteen digits that read back as the mix of seed and index |
| Mixing.SpikeValuesDistinct | sonda-core/src/util.rs:87-91 | two indices of a spike never render to the same string |
| Mixing.SpikeSize | sonda-core/src/util.rs:74-91 | a spike of c values has c distinct strings |
| Calendar.YearOfEra | sonda-core/benches/scheduler_baseline.rs:628 | the year-of-era division finds the one March-based year that holds the day, for all 146097 days |
| Calendar.MarchDateCounts | sonda-core/benches/scheduler_baseline.rs:631-634 | month and day of a day of the March-based year are valid and count back to it |
| Calendar.CivilIsDayNumber | sonda-core/benches/scheduler_baseline.rs:625-634 | the date is valid and the plain count of days before it is the argument |
| Calendar.NextDayCounts | sonda-core/benches/scheduler_baseline.rs:619-636 | the calendar's next day is valid and one day later by the plain count |
| Calendar.DayNumberInjective | sonda-core/benches/scheduler_baseline.rs:619-636 | different dates have different day counts |
| Calendar.CivilIsNthDay | sonda-core/benches/scheduler_baseline.rs:625-634 | the date is what stepping day by day from 1970-01-01 reaches |
| Calendar.NoUnderflow | sonda-core/benches/scheduler_baseline.rs:625-634 | for every day count no subtraction of unsigned values goes below zero, and the month index is at most 11 |
| Calendar.EpochIsTheCalendar | sonda-core/benches/scheduler_baseline.rs:619-636 | for every 64-bit second count the time of day is exact, and the date is the calendar's if and only if the second is before the first whose year does not fit |
| Calendar.NextDayOfStamp | sonda-core/benches/scheduler_baseline.rs:619-636 | 86400 seconds more is the calendar's next day at the same time |
| Calendar.StampRoundTrip | sonda-core/benches/scheduler_baseline.rs:619-636 | counting days and seconds back from the stamp gives the second it came from |
| GateRegistry.GateBusRegistry.constructor | sonda-server/src/gate_registry.rs:69-82 | a new registry is empty and consistent |
| GateRegistry.GateBusRegistry.Register | sonda-server/src/gate_registry.rs:163-178 | a free key gets the bus; a taken one is an error and nothing changes; the registry stays consistent |
| GateRegistry.GateBusRegistry.InsertPending | sonda-server/src/gate_registry.rs:237-240 | the record waits under its id and nothing else changes; a registry in which no handle has two records stays one exactly when the record shares no id, statistics or channel with another, the waiter it replaces aside |
| GateRegistry.GateBusRegistry.TrackSubscriber | sonda-server/src/gate_registry.rs:256-260 | the record is last in its upstream's row, field for field; the registry stays consistent exactly when the record is a newcomer: its id, statistics and channel belong to nobody |
| GateConsistency.InsertConsistent | sonda-server/src/gate_registry.rs:237-240 | inserting keeps the registry consistent if and only if the record is apart from all others |
| GateConsistency.TrackConsistent | sonda-server/src/gate_registry.rs:256-260 | tracking keeps it consistent if and only if the record is a newcomer |
| GateConsistency.WaitingThenSweptIsTracked | sonda-server/src/gate_registry.rs:203-260 | inserting a newcomer whose upstream is registered and sweeping it leaves the rows and the waiters that tracking it, one attempt later, would |
| GateConsistency.SweepConsistent | sonda-server/src/gate_registry.rs:203-235 | a sweep keeps the registry consistent |
| GateConsistency.UnregisterConsistent | sonda-server/src/gate_registry.rs:114-160 | so does an unregister |
| GateConsistency.CancelConsistent | sonda-server/src/gate_registry.rs:262-290 | and a cancellation |
| GateRegistry.GateBusRegistry.BroadcastUpstreamGone | sonda-core/src/schedule/gate_bus.rs:474-487 | every channel of the bus, and no other, holds the edge that the upstream is gone |
| GateRegistry.GateBusRegistry.RetireBuses | sonda-server/src/gate_registry.rs:114-141 | exactly the named buses are removed; the `while:` and `after:` channels of their subscriptions, and no others, hear that the upstream is gone |
| GateRegistry.GateBusRegistry.RequeueSubscribers | sonda-server/src/gate_registry.rs:142-160 | the nested loops are the atomic requeue of the rows |
| GateRegistry.GateBusRegistry.UnregisterEntries | sonda-server/src/gate_registry.rs:198-201 | the named buses and their rows are gone and no others; a channel hears that its upstream is gone if a subscription of a removed bus or a live record of a removed row has it, and otherwise is as before; exactly those live records wait again, with every field; the registry stays consistent |
| GateRegistry.GateBusRegistry.SweepEntry | sonda-server/src/gate_registry.rs:210-232 | one round of the loop drops, leaves or promotes its waiter, and says whether it promoted |
| GateRegistry.GateBusRegistry.SweepPending | sonda-server/src/gate_registry.rs:203-235 | returns the number of live waiters whose bus is registered; each of them has a record in its row and statistics with one attempt more, or the same at 2^64 - 1, a subscription on its bus, and the state of its gate on its channel; nothing else changes but that dead waiters go; the registry stays consistent |
| GateRegistry.GateBusRegistry.SubscribeWithWhileSender | sonda-core/src/schedule/gate_bus.rs:380-416 | the bus gains the subscription, and the channel gets the gate's state if the bus has a value |
| GateRegistry.GateBusRegistry.CancelPendingForUpstream | sonda-server/src/gate_registry.rs:262-290 | exactly the matching waiters are taken out and told, those of their statistics not finished read unresolved, and one error each names the upstream; nothing else changes; the registry stays consistent |
| GateRegistry.GateBusRegistry.RenameHandle | sonda-server/src/gate_registry.rs:94-112 | every record of the old id has the new one, in its place and with its other fields; a waiter under the new id gives way to a renamed one; nothing else changes; with a fresh id the registry stays consistent |
| GateRegistry.RenameInRow | sonda-server/src/gate_registry.rs:105-111 | a row with every occurrence of the id replaced and nothing else |
| GateOutcomes.FirstRegistrationStands | sonda-server/src/gate_registry.rs:163-178 | the first registration of a key stands: a second is refused with the scenario's name and changes nothing |
| GateOutcomes.UnregisteredKeyIsFree | sonda-server/src/gate_registry.rs:114-178 | a key that was unregistered can be registered again |
| GateOutcomes.SweepOutcome | sonda-server/src/gate_registry.rs:203-235 | for every visiting order the sweep leaves each map as the fields of the old ones say: rows, buses, channels, statistics and waiters, with the attempt counts as numbers |
| GateOutcomes.SweepRowOutcome | sonda-server/src/gate_registry.rs:223-232 | in any registry a row keeps its records and gains exactly one for each waiter promoted to it, with the waiter's fields and `attempts` one more, or the same at 2^64 - 1 |
| GateOutcomes.SweepStatsOutcome | sonda-server/src/gate_registry.rs:224-228 | the attempts in each promoted waiter's statistics are one more, or the same at 2^64 - 1; no other statistics change |
| GateOutcomes.UnregisterSlotsOutcome | sonda-server/src/gate_registry.rs:133-159 | in any registry the channels told are exactly those of subscriptions of removed buses and of live records of removed rows |
| GateOutcomes.UnregisterMapsOutcome | sonda-server/src/gate_registry.rs:114-160 | exactly the named keys lose their bus and their row; buses and statistics keep their contents |
| GateOutcomes.UnregisterPendingOutcome | sonda-server/src/gate_registry.rs:142-160 | exactly the live records of the removed rows are new among the waiters, each with its fields and its upstream's key |
| GateOutcomes.CancelOutcome | sonda-server/src/gate_registry.rs:262-290 | what a cancellation leaves of each map, for every visiting order |
| GateOutcomes.RenameOutcome | sonda-server/src/gate_registry.rs:94-112 | what a rename leaves of each map |
| GateSweep.SweepPending | sonda-server/src/gate_registry.rs:203-235 | what is left is exactly the live waiters with no bus |
| GateSweep.SweepRow | sonda-server/src/gate_registry.rs:223-232 | a row gains exactly the promoted waiters of its key, in visiting order, each with its fields and one more attempt below 2^64 - 1 |
| GateSweep.SweepBus | sonda-server/src/gate_registry.rs:229 | a bus gains exactly the subscriptions of the waiters promoted to it |
| GateSweep.SweepSlotSet | sonda-server/src/gate_registry.rs:229 | a promoted waiter's channel says open if the bus's value is strictly beyond the threshold, and closed if not or if it is NaN |
| GateSweep.SweepSlotKept | sonda-server/src/gate_registry.rs:203-235 | every other channel is untouched |
| GateSweep.SweepStatsBumped | sonda-server/src/gate_registry.rs:224-228 | a promoted waiter's statistics count one more attempt below 2^64 - 1, and keep their state |
| GateSweep.SweepStatsKept | sonda-server/src/gate_registry.rs:203-235 | all other statistics are untouched |
| GateSweep.SweepOrderIrrelevant | sonda-server/src/gate_registry.rs:209-210 | any two orders of the hash map's keys give the same registry, rows and subscriptions taken as multisets |
| GateSweep.SweepTwice | sonda-server/src/gate_registry.rs:203-235 | a second sweep finds nothing to promote and changes nothing |
| GateOrders.UnregisterOrderIrrelevant | sonda-server/src/gate_registry.rs:116-130 | any two orders of the removed keys give the same registry |
| GateOrders.CancelOrderIrrelevant | sonda-server/src/gate_registry.rs:268-274 | any two orders of the matching waiters give the same registry |
| GateRename.RenameThenSweep | sonda-server/src/gate_registry.rs:92-112 | renaming before or after a sweep gives the same registry |
| GateRename.RenameKeepsPromoted | sonda-server/src/gate_registry.rs:203-235 | and the two sweeps return the same number |
| GateRename.RenameEnumerates | sonda-server/src/gate_registry.rs:92-112 | the renamed visiting order visits the renamed registry's keys, so the two sweeps are full sweeps |
| GateRename.RenameThenUnregister | sonda-server/src/gate_registry.rs:92-112 | renaming before or after an unregister gives the same registry |
| GateRename.RenameThenCancel | sonda-server/src/gate_registry.rs:92-112 | renaming before or after a cancellation gives the same registry |
| GateRename.RenameKeepsCancelled | sonda-server/src/gate_registry.rs:262-290 | the renamed order visits exactly the waiters the cancellation of the renamed registry matches, and the two return the same errors in the same order |
| GateRename.RenameWaiting | sonda-server/src/gate_registry.rs:268-272 | a cancellation of the renamed registry matches the renamed waiters |
| GateRename.RenameConsistent | sonda-server/src/gate_registry.rs:92-112 | renaming to a fresh id keeps the registry consistent |
| GateRename.RenameBack | sonda-server/src/gate_registry.rs:92-112 | renaming there and back is no change |
| GateRoundTrip.RequeueRowAdds | sonda-server/src/gate_registry.rs:145-159 | each live record of a row waits under its id with its own data, its channel told; dead ones are gone; other waiters stay |
| GateRoundTrip.BounceFacts | sonda-server/src/gate_registry.rs:198-201 | after an upstream leaves and returns its row is empty, its live subscribers wait, and nothing else moved |
| GateRoundTrip.BounceAndSweep | sonda-server/src/gate_registry.rs:114-235 | unregister, register and sweep give back every live subscriber of the key with one more attempt, below 2^64 - 1, in its record and its statistics and all else unchanged; every other row, the waiters, the value and subscriptions of every bus but the old and the new one, and all other statistics are as a plain sweep leaves them |
| GateRoundTrip.BounceSignals | sonda-server/src/gate_registry.rs:114-235 | each of those subscribers' channels holds the new gate's state, or that the upstream is gone if the new bus has no value |
| GateProtocolProof.StepInv | sonda-server/src/locks.rs:21-31 | every statement of every call, and a panic at any point, keeps the whole invariant |
| GateProtocolProof.EveryRunIsConsistent | sonda-server/src/locks.rs:10-31 | the invariant holds in every state of every run: one record per handle across both maps and all threads, keys equal ids, data as entered, lookups of a loop's snapshot succeed |
| GateProtocolProof.NoHandleTwice | sonda-server/src/gate_registry.rs:94-260 | in every state of every run no id is in two records of `pending` and `subscribers`, every pending key is its record's id, and a record's attempts equal its live statistics' |
| GateProtocolProof.NoStepCopies | sonda-server/src/locks.rs:26-31 | no step other than a new handle's entry creates a record: each one after it was one before, and no two were the same |
| GateRefinement.ReachableIsConsistent | sonda-server/src/locks.rs:21-31 | the invariant of the concurrent registry is at least the consistency the atomic laws require |
| GateRefinement.RenameIsAtomic | sonda-server/src/gate_registry.rs:94-112 | every uninterrupted run of a rename, over both critical sections, is the atomic rename |
| GateRefinement.PutIsAtomic | sonda-server/src/gate_registry.rs:237-260 | every uninterrupted insert puts its record among the waiters and every uninterrupted track at the end of its row, and changes nothing else |
| GateAtomicity.SweepIsAtomicAmongOthers | sonda-server/src/gate_registry.rs:203-235 | in every run, whatever other threads do, the loop of a sweep from its last lock to its end is the atomic sweep of what it found, in some order, if no bus comes or goes and no handle dies meanwhile |
| GateAtomicity.RequeueIsAtomicAmongOthers | sonda-server/src/gate_registry.rs:142-160 | under the same conditions the loops of a requeue are the atomic requeue |
| GateAtomicity.CancelIsAtomicAmongOthers | sonda-server/src/gate_registry.rs:262-290 | and the loop of a cancellation does to the waiters and statistics what the atomic one does, though other threads may change the rows |
| GateAtomicity.SweepLoopBegins | sonda-server/src/gate_registry.rs:204-210 | in every run a sweep inside its loop began it, with both locks, on all the waiters there were at that moment |
| GateAtomicity.RequeueLoopBegins | sonda-server/src/gate_registry.rs:142-145 | a requeue inside its loops began them with exactly the keys it was called with |
| GateAtomicity.CancelLoopBegins | sonda-server/src/gate_registry.rs:262-274 | a cancellation inside its loop began it on exactly the waiters whose scenario and entry it names |
| GateRaces.RenameCanMiss | sonda-server/src/gate_registry.rs:98-111 | a run in which a rename completes, all threads are idle, and the record still has the old id |
| GateRenameExact.RenameExactly | sonda-server/src/gate_registry.rs:94-112 | in every run a rename gives its new id to a record if and only if it saw one with the old id in `pending` under the first lock or in a row under the second; then nobody has the old id when it ends, and the record is otherwise unchanged |
| GateRenameExact.RenameReachesExactly | sonda-server/src/gate_registry.rs:94-112 | without another rename of these ids, the record that had the old id at the first lock, wherever it was and wherever it ends, has the new id at the end if and only if it was in `pending` at the first lock or in a row at the second, and the old one otherwise |
| GateRenameExact.RenameWithoutRequeue | sonda-server/src/gate_registry.rs:94-112 | the rename of a tracked handle that no requeue overlaps before its second lock, and no other rename of its ids, always succeeds, in place |
| GateBuses.EventStrands | sonda-server/src/locks.rs:26-31 | a step leaves a row without a bus and without an unregistration on its way to it if and only if it is a panic of the only such unregistration, or a track that lands under a key with neither; nothing but registering the key ends that |
| GateBuses.StrandedExactly | sonda-server/src/locks.rs:26-31 | in every state of every run a row is so stranded if and only if such a step has happened and the key has not been registered since |
| GateBuses.RowsHaveBuses | sonda-server/src/gate_registry.rs:114-235 | without such steps every row has a bus or an unregistration on its way to it |
| GateBuses.HistoryIsConsistent | sonda-server/src/gate_registry.rs:94-260 | the invariant of the two other maps holds in every run with registrations and removals as steps too |
| GateBuses.SweepSeesOneBusMap | sonda-server/src/gate_registry.rs:203-206 | while a sweep reads the buses nobody registers or removes one: it sees one bus map from beginning to end |
| GateStranded.StrandedCanReturn | sonda-server/src/locks.rs:26-31 | a run in which a row is stranded and its subscriber waits in the pending map in the end |
| LockOrder.NoCircle | sonda-server/src/gate_registry.rs:142-144 | threads that all take locks in one order never wait in a circle |
| LockOrder.Deadlock | sonda-server/src/gate_registry.rs:203-206 | with a sweep and an unregister among the calls a run reaches a circular wait |
| LockOrder.DeadlockExactlyWhenBoth | sonda-server/src/gate_registry.rs:114-290 | a set of concurrent calls can reach a circular wait if and only if it has both a sweep and an unregister |
| LockOrder.TakesWhatItNeeds | sonda-server/src/gate_registry.rs:94-290 | each call takes the locks of the maps it touches, for writing exactly those it changes, and gives all of them back |
| HistogramShard.StepInv | sonda-server/src/state.rs:55-78 | every atomic operation of every observer keeps the invariant |
| HistogramShard.RunInv | sonda-server/src/state.rs:55-78 | the invariant holds in every state of every run |
| HistogramShard.Quiescent | sonda-server/src/state.rs:55-78 | once no observer is in flight each bucket counts the observations at or below its bound, buckets ascend, `plus_inf` and `count` are the number of observations, and the sum folds each once in the order the exchanges succeeded |
| HistogramShard.MidRun | sonda-server/src/state.rs:55-78 | at any time `count` is at most `plus_inf`, and a bucket exceeds a later one by at most the observers in flight |
| HistogramShard.FinishesAlone | sonda-server/src/state.rs:55-78 | from every reachable state an observer that goes on alone returns within 15 steps of its own, so none waits for another |
| HistogramShard.SnapshotBuckets | sonda-server/src/state.rs:80-88 | two buckets of one snapshot, read at different times, are out of order by at most the observers in flight at the first read |
| HistogramShard.SnapshotTearsExactly | sonda-server/src/state.rs:80-88 | the count of a snapshot exceeds its `plus_inf` if and only if more calls made both increments after the first read and before the second than stood between theirs throughout; equivalently, if `plus_inf` grew by more than the calls between their increments at the second read |
| HistogramShard.QuietSnapshotAgrees | sonda-server/src/state.rs:80-88 | if every call known at the second read had returned before the first, both totals are the number of observations |
| HistogramShard.SnapshotCanTear | sonda-server/src/state.rs:80-88 | a run and a snapshot of it with `count` 1 and `plus_inf` 0 |
| SondaRun.StepInv | scripts/live_infra_uat.py:709-781 | every statement of every caller keeps the invariant |
| SondaRun.CollectedInStartOrder | scripts/live_infra_uat.py:717-722 | in every state of every run the output holds each run once in start order, all of them or all but the one whose files are open |
| SondaRun.WaitReportsTheLastRun | scripts/live_infra_uat.py:757-781 | a `wait` that returned reports the exit code of the last run started, with the output of every run once in order |
| SondaRun.TimedOutRaises | scripts/live_infra_uat.py:767-771 | a `wait` whose time ran out never returns, looks or asks again: it raises once the killed run is gone |
| SondaRun.ExitInTimeGoesOn | scripts/live_infra_uat.py:766-773 | a `wait` that leaves its waiting without a timeout has seen its run exit and goes on to check it |
| SondaRun.ReturnedSawTheExit | scripts/live_infra_uat.py:757-781 | a `wait` that returned saw the run it reports exit while it waited for it, in time |
| SondaRun.WaitRaisesOnlySo | scripts/live_infra_uat.py:757-781 | a `wait` raises only if its time ran out or nothing was ever started |
| SondaRun.LoopsOnlyAfterARestart | scripts/live_infra_uat.py:772-773 | a `wait` asks again only if a later run has replaced the one it waited for |
| SondaRun.WaitReturnsTheCode | scripts/live_infra_uat.py:757-781 | for every code a run of the protocol in which a child exits with it and the wait returns that code and the child's output |
| SondaRun.StartStartsOneOrRaises | scripts/live_infra_uat.py:709-727 | a `start` that returns leaves one run, the current one; one that raises leaves none |
| SondaRun.RestartStartsOneOrRaises | scripts/live_infra_uat.py:729-755 | a restart that finds a run starts exactly one more if it returns and none if it raises, whatever the other callers do |
| SondaRun.KillingRaises | scripts/live_infra_uat.py:742-746 | a restart that had to kill the run raises |
| SondaRun.RestartWorks | scripts/live_infra_uat.py:729-755 | a run of the protocol in which a restart stops a living run and starts the next |
| SondaRun.NothingStartsAfterWait | scripts/live_infra_uat.py:729-781 | after a `wait` has returned no run starts, whatever the other callers do |
| SondaRun.RestartedAfterZero | scripts/live_infra_uat.py:741-754 | in every run of the protocol, only a run that exited with 0 is followed by another |
| SondaRun.ExitedRunRaises | scripts/live_infra_uat.py:734-739 | a restart that finds the current run exited raises and has then seen the exit, unless nobody had seen it and a wait is asking for it |
| SondaRun.RestartCanFollowAnExit | scripts/live_infra_uat.py:729-755 | a run of the protocol in which a restart finds the current run exited and starts another |
| SweepLifecycle.SweepStatus.InProgress | sonda-server/src/state.rs:169-175 | a sweep begins in progress with nothing started |
| SweepLifecycle.SweepStatus.RecordStarted | sonda-server/src/state.rs:177-179 | one more entry is started and the phase stays |
| SweepLifecycle.SweepStatus.Finish | sonda-server/src/state.rs:181-184 | the phase is finished and the count stays |
| SweepLifecycle.SweepStatus.StartEntries | sonda-server/src/autostart.rs:61-102 | the loop attempts the entries in order up to the first cancelled boundary, counts the admitted ones, and finishes only if it reached the end |
| SweepLifecycle.SweepIsOrderly | sonda-server/src/autostart.rs:61-102 | in every run entries are attempted in order and at most once, `started` never exceeds `expected`, a cancelled sweep never reports finished, and failed means crashed |
| SweepLifecycle.FinishedStays | sonda-server/src/state.rs:181-184 | once finished, phase and count never change again |
| SweepLifecycle.FinishedSnapshotIsFinal | sonda-server/src/state.rs:191-199 | a snapshot that reads finished carries the count of every later state |
| SweepLifecycle.StartedCountsAdmissions | sonda-server/src/autostart.rs:83-84 | in every state of every run the count is the number of steps so far that ended an admission with success, less the last while it is not recorded or if the sweep crashed before recording it |
| SweepLifecycle.FinishedSnapshotCountsAdmissions | sonda-server/src/state.rs:191-199 | a snapshot that reads finished carries the number of admissions of the whole run |
| SweepLifecycle.FinishedCountsOutcomes | sonda-server/src/autostart.rs:70-94 | once finished every entry has an outcome, and the count is the number of those that are admissions |
| SweepLifecycle.EveryRunIsTraced | sonda-server/src/autostart.rs:61-102 | every run has a sequence of actions behind it, so the laws about actions are about all runs |
| SweepLifecycle.SnapshotReadsPhaseThenCount | sonda-server/src/state.rs:191-199 | a snapshot's phase and count are those of two moments, the phase's no later than the count's |
| SweepLifecycle.NoAttemptAfterCancel | sonda-server/src/autostart.rs:70-80 | once the token is cancelled no further entry is attempted |
| SweepLifecycle.ScenariosRecorded | sonda-server/src/main.rs:363-407 | the scenarios called admitted are those the sweep added, and the late ones those posted between the stop loop and the drain |
| SweepLifecycle.NoScenarioIsLost | sonda-server/src/main.rs:379-407 | a scenario ever added is still registered, or with the shutdown, or was stopped |
| SweepLifecycle.OverJoinedTheDrained | sonda-server/src/main.rs:387-407 | a shutdown that is over has waited for everything it drained |
| SweepLifecycle.StoppedBeforeJoined | sonda-server/src/main.rs:363-407 | a joined scenario was stopped if and only if it was not posted between the stop loop and the drain; every scenario the sweep admitted was |
| SweepLifecycle.LateScenarioIsNotStopped | sonda-server/src/main.rs:383-391 | a run in which a scenario is joined and was never stopped |
| SchemaWidening.WidenScalarStrings | sonda-core/src/schema.rs:341-384 | the result is the widened tree; of an unmarked object without `enum` and `const`, a `type` of "string" becomes the three scalar names and a list with "string" gains "number" and "boolean", each unless listed; keys stay and other values are descended into; of a marked one only the marker goes |
| SchemaWidening.WidenObject | sonda-core/src/schema.rs:344-377 | the same, key by key, of the tree the other laws speak of |
| SchemaWidening.TypeKept | sonda-core/src/schema.rs:349-366 | beside an `enum` or a `const`, and without "string", a `type` of names is unchanged |
| SchemaWidening.ListWidened | sonda-core/src/schema.rs:356-362 | an open list of names with "string" keeps its names in place; a missing "number" or "boolean" is there once after, and every other name as often as before |
| SchemaWidening.RewriteThenDescend | sonda-core/src/schema.rs:350-367 | rewriting a `type` and then descending into it is descending first and rewriting after |
| SchemaWidening.TypeWiden | sonda-core/src/schema.rs:350-367 | the widened `type` admits exactly what the original admits where strings are read from scalars |
| SchemaWidening.FixedExactly | sonda-core/src/schema.rs:341-384 | widening leaves a JSON value unchanged if and only if no object in it carries the marker and none without `enum` and `const` has a `type` that lists strings without numbers or booleans |
| SchemaWidening.ValuesWiden | sonda-core/src/schema.rs:335-338 | `enum`, `const`, `required` and `$ref` keep their values and meaning |
| SchemaWidening.ResolveWiden | sonda-core/src/schema.rs:369-376 | a reference into the widened document finds the widened definition |
| SchemaWidening.NamedWidenExactly | sonda-core/src/schema.rs:346-376 | a map of named schemas is widened name by name if and only if no name is the marker |
| SchemaWidening.Exact | sonda-core/src/schema.rs:314-340 | at every depth, the widened document accepts a value if and only if the scenario reader would take it against the original, `oneOf` included |
| SchemaWidening.ExactlyWhatTheReaderTakes | sonda-core/src/schema.rs:314-340 | the same for validity |
| SchemaWidening.StrictSame | sonda-core/src/schema.rs:338-343 | under a marker the widened document means what the original does |
| SchemaWidening.MarkedExactly | sonda-core/src/schema.rs:338-343 | a marked subtree of any document keeps its meaning at a value exactly when reading its references leniently makes no difference there; widened, it is read strictly but for those |
| SchemaWidening.MarkedKeepsMeaning | sonda-core/src/schema.rs:338-343 | without a reference in it, it accepts exactly the same values |
| SchemaWidening.MarkedReferenceCanChange | sonda-core/src/schema.rs:338-376 | a document whose marked reference accepts no number before widening and every number after |
| SchemaWidening.MarkedDocumentKeepsMeaning | sonda-core/src/schema.rs:338-348 | a document marked as a whole accepts exactly the same values, references included |
| SchemaWidening.MarkerAsNameCanReject | sonda-core/src/schema.rs:346-376 | a document with a property named like the marker accepts an object with that property before widening and rejects it after |
| SchemaWidening.ApartExcludes | sonda-core/src/schema.rs:314-340 | branches with different constants, different tags or incompatible types never accept the same value, even where strings are read from scalars |
| SchemaWidening.AtMostOneMatches | sonda-core/src/schema.rs:314-340 | of branches that are pairwise apart at most one matches |
| SchemaWidening.WideningKeepsAccepted | sonda-core/src/schema.rs:314-340 | if every `oneOf` has branches that are apart, a value accepted to some depth stays accepted to it, and so does it with strings written as numbers or booleans wherever the schemas that accept them are open and unmarked |
| SchemaWidening.WideningKeepsValid | sonda-core/src/schema.rs:314-340 | the same for validity |
| SchemaWidening.OneOfCanReject | sonda-core/src/schema.rs:314-340 | `oneOf` over a string and a number accepts every number before widening and none after |
| SchemaWidening.ConstantKeptExactly | sonda-core/src/schema.rs:369-376 | a document that names one value goes on accepting it if and only if widening leaves the value alone |
| SchemaWidening.ConstantCanChange | sonda-core/src/schema.rs:369-376 | it loses one that looks like a schema of strings |
| Heatmap.HistogramGenerator.constructor | sonda-core/src/generator/histogram.rs:160-182 | a new generator has counted nothing |
| Heatmap.HistogramGenerator.Observe | sonda-core/src/generator/histogram.rs:226-260 | the counts are those of all values seen, per bucket and in total |
| Heatmap.OneCell | sonda-wasm/src/lib.rs:344-347 | every observation, NaN included, belongs to exactly one cell: a number to that of the first bound it does not exceed |
| Heatmap.CellIsDifference | sonda-wasm/src/lib.rs:359-365 | a cell is its bucket's count less that of the bucket before, which is never larger |
| Heatmap.TickCounts | sonda-wasm/src/lib.rs:352-358 | the differences across ticks are that tick's own counts, and none is clipped |
| Heatmap.ChainCells | sonda-wasm/src/lib.rs:359-365 | the differences along the chain are the cells of the tick's observations, and none is clipped |
| Heatmap.SampleHistogram | sonda-wasm/src/lib.rs:344-370 | every row of the heatmap counts that tick's observations, each in its cell |
| Heatmap.RowSums | sonda-wasm/src/lib.rs:344-370 | the cells up to a bucket add up to the tick's count for it, the whole row to its observations |
| Heatmap.BlockSums | sonda-wasm/src/lib.rs:344-370 | sums along both axes give back the generator's cumulative counts |
| FeatureClosure.ClosedHoldsAll | scripts/check_compose_features.py:185-195 | a set that holds the first names and what its names list holds every name on a chain from `default` |
| FeatureClosure.DefaultFeatureClosure | scripts/check_compose_features.py:185-195 | the worklist ends on every table, cyclic ones included, with exactly the names on a chain from `default` |
| FeatureClosure.DefaultNeedsACycle | scripts/check_compose_features.py:185-195 | `default` itself is in the result exactly when it, or a name it turns on, lists it |
| ClockGroups.BuildClockGroupStats | sonda/src/main.rs:630-664 | one line per group in order of first appearance with its first flag and its totals; the lookup of a listed group never fails |
| ClockGroups.AppearancesAre | sonda/src/main.rs:636-654 | the groups listed are those of the scenarios, each once |
| ClockGroups.OrderedByAppearance | sonda/src/main.rs:636-654 | a group listed before another appeared before every scenario of the other |
| ClockGroups.DistinctGroupCount | sonda/src/main.rs:667-670 | the count is the number of lines of the report |
| ClockGroups.ReportConserves | sonda/src/main.rs:630-664 | the lines add up to the scenarios' events, bytes and errors, and to their number |

## Left out

- Mixing.Unxorshift: shift 0 is excluded, because the source's loop does not end there and its documentation excludes it.
- HistogramShard.Quiescent: stated for fewer than 2^64 observations, where the counters have not wrapped; the wrap itself is in the steps.
- SchemaWidening.WideningKeepsValid: the condition on `oneOf` is sufficient and not necessary; SchemaWidening.Exact gives the equivalence for every well-formed document.
- SchemaWidening.Exact: a well-formed document has keywords of the shapes the specification gives them, only constants that widening leaves alone, and no property or definition named like the marker; SchemaWidening.ConstantKeptExactly and SchemaWidening.MarkerAsNameCanReject show what goes wrong with any other.
- SchemaWidening.WidenScalarStrings: the JSON tree is a value that is rebuilt, so update in place is not modelled; a `type` is rewritten after the descent into it (see SchemaWidening.RewriteThenDescend).
- ClockGroups.BuildClockGroupStats: takes the zipped pairs of groups and statistics, and its totals do not wrap at 2^64.
- Heatmap.SampleHistogram: the drawn values and the number of ticks are inputs; counters do not wrap at 2^64, and `bounded_ticks` and the running sum are not part of this model.
- GateAtomicity.SweepIsAtomicAmongOthers: leaves out buses that come or go and handles that die during the loop; GateBuses.SweepSeesOneBusMap shows that the first does not happen, and after the second only the invariant of GateProtocolProof is proved.
- Weak memory orderings and IEEE rounding of the histogram's sum.
- `GateBus` beyond subscription and the broadcast: ticks, `after:` edges and the delay logic.
- The recovery counters of `RecoveringLock`, and `pending_for_handle`, `lookup` and `scenario_name_in_use`, which only read.
- Fairness and writer preference of the locks: the deadlock result is about who can be waiting for whom.
- JSON Schema keywords other than `type`, `enum`, `const`, `required`, `$ref` into `$defs`, `allOf`, `anyOf`, `oneOf`, `properties`, `additionalProperties` and `items`.
- The other functions of `sonda-core/src/schema.rs`, and the proof that the scenario reader takes what the model's reading of a schema says.
- The `ValueError` of `restart` when `argv` has no `--duration`, and the clock readings it reports.
- `constant_time_eq`, whose point is its timing.
- Schedulers, encoders, sinks, the compiler, HTTP routing, the command line and the catalog.
