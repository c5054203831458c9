# Causal-consistency clock and domain placement of a streaming dataflow engine

This project models, in Dafny, two pieces of bookkeeping of a sharded,
partially-replicated dataflow engine that maintains materialized views.

- **The causal-consistency clock** (module `Timestamp`, `timestamp.dfy`).
  - A base table stamps every fresh write with a time on the origin path (`TimestampAssigner`).
  - Every downstream (node, shard) keeps one time per incoming path (`VectorTime`).
  - A node translates the (ancestor, incoming path) of an update into its own outgoing path (`PathMap`).
  - A node decides whether it is torn, i.e. whether it has applied some but not all redundant copies of an update (`NodeTimeState`).
- **Domain placement** (module `Placement`, `placement.dfy`). Two policies pick the worker that hosts a (domain, shard):
  - `ShardIdPlacer` takes the shard index modulo the number of workers;
  - `RoundRobinPlacer` cycles over the workers.
- **Client scenarios** (module `Scenarios`, `scenarios.dfy`). Small deployments drive the clock. Each method states, in its `ensures`, the outcome that follows from the contracts alone:
  - a remapped forward;
  - two redundant copies that tear a merge node and then heal it;
  - cloning an unused assigner.

How the code is represented:

- The source's objects that change in place are classes with `modifies` clauses: the assigner's counter, the vector time's component list, and the round-robin cursor.
- The path map and the shard-index placer are values (datatypes) with functions.
- A `u64` is the subset type `U64`. The source's assertion failures and index panics are preconditions; the debug-build overflow checks are preconditions too.
- `is_consistent` is the one read-only loop. It is a method with nested loops, proved against `ScanVerdict`. That recursive function gives the outcome of the source's scan: uniform, torn, or a panic from indexing out of range. A lemma shows that on well-formed groups the scan never panics. The same lemma shows that the scan reports "uniform" exactly when every group agrees (`Consistent`).
- The worker map is its set of keys. Its iteration order is not specified, so `IterationOrder` picks the keys one at a time with `:|`, and any order is allowed.

Where the code departs from what its names and doc comments suggest, the model follows the code:

- `VectorTime::extend` accepts the path id one past the current length, not the path id equal to it. It then stores the time at index `length`.
- `ShardIdPlacer::place_domain` panics on an empty worker set (`si % 0`). It does not return `None`. Only `RoundRobinPlacer` returns `None`.
- `process_update` advances the slot of the incoming path id, not the remapped one.
- A base table's first write is stamped 0. As written, a fresh node cannot apply that write (see Findings). The merge scenario therefore uses the corrected assigner, which stamps 1, 2 and 3.

## Model

| member | source | states |
|---|---|---|
| `Timestamp.TimestampAssigner.constructor` | noria-server/dataflow/src/timestamp.rs:8-9 | the derived default assigner starts with counter 0 |
| `Timestamp.TimestampAssigner.Assign` | noria-server/dataflow/src/timestamp.rs:11-17 | returns the counter before the call on path 0 and increments the counter by exactly one; overflow of the increment is excluded |
| `Timestamp.IssuedGapless` | noria-server/dataflow/src/timestamp.rs:11-17 | k successive assignments from counter `start` carry times start, start+1, …, start+k-1, all on the origin path: no gaps, no repeats |
| `Timestamp.IssuedStrictlyIncreasing` | noria-server/dataflow/src/timestamp.rs:11-17 | an earlier assignment always carries a strictly smaller time than a later one |
| `Timestamp.IssueWrites` | noria-server/dataflow/src/timestamp.rs:11-17 | k successive `assign` calls on one assigner return exactly `Issued(start, k)` for the counter `start` they began with, and leave the counter at start + k |
| `Timestamp.TimestampAssigner.Clone` | noria-server/dataflow/src/timestamp.rs:19-24 | cloning requires the counter to be 0; the clone is a fresh assigner at 0 and the original is unchanged |
| `Timestamp.PathMap.Lookup` | noria-server/dataflow/src/timestamp.rs:39-44 | in pass-through mode the incoming path comes back unchanged for every ancestor; with a table, both indices must be in range and the result is an entry of that ancestor's row |
| `Timestamp.LookupBelow` | noria-server/dataflow/src/timestamp.rs:39-44 | a table whose entries are all below n only yields outgoing paths below n |
| `Timestamp.IdentityRowsPassThrough` | noria-server/dataflow/src/timestamp.rs:39-44 | a table of identity rows gives the same answer as the absent table wherever it is defined |
| `Timestamp.VectorTime.constructor` | noria-server/dataflow/src/timestamp.rs:53-55 | a new vector time has no slots |
| `Timestamp.VectorTime.WithLength` | noria-server/dataflow/src/timestamp.rs:57-59 | `with_length(n)` has exactly n slots, each at time 0 |
| `Timestamp.VectorTime.Extend` | noria-server/dataflow/src/timestamp.rs:62-66 | accepts only path id = length + 1 and appends the time: the length grows by one and every old slot keeps its time |
| `Timestamp.VectorTime.Advance` | noria-server/dataflow/src/timestamp.rs:69-73 | accepts only a known path whose new time is exactly the old time plus one; that slot takes the new time, the length and every other slot are unchanged |
| `Timestamp.ExtendMissesRegisteredPath` | noria-server/dataflow/src/timestamp.rs:62-66 | as written, immediately after registration the path id just registered equals the new length, so no update on that path can advance yet |
| `Timestamp.ExtendCrossWires` | noria-server/dataflow/src/timestamp.rs:62-73 | as written, after two registrations in a row the first path's time sits one slot below it, its own slot holds the second path's time, and `advance` on the first path is accepted exactly when it continues the second path's time, overwriting that slot |
| `Timestamp.ExtendRejectsFirstPath` | noria-server/dataflow/src/timestamp.rs:64 | as written, path 0 can never be registered on an empty vector time |
| `Timestamp.VectorTime.ExtendNext` | noria-server/dataflow/src/timestamp.rs:62-66 | corrected registration: path id = length; the new slot is that path's slot and holds the given time, old slots unchanged |
| `Timestamp.RegisteredPathAdvances` | noria-server/dataflow/src/timestamp.rs:62-73 | after the corrected registration, the next time on the new path is accepted by `advance` |
| `Timestamp.FirstIssuedTimeRejected` | noria-server/dataflow/src/timestamp.rs:11-17 | the first time the as-written assigner issues (0) is rejected by `advance` on any slot of a fresh `with_length` vector time |
| `Timestamp.TimestampAssigner.AssignCounted` | noria-server/dataflow/src/timestamp.rs:11-17 | corrected assignment: returns the counter after the increment on path 0 |
| `Timestamp.IssueAndApply` | noria-server/dataflow/src/timestamp.rs:69-73 | with the corrected assigner, k successive stamps carry counter+1 … counter+k, and a slot that has observed the writes issued so far accepts each of them in turn through `advance`, ending at counter+k with every other slot unchanged |
| `Timestamp.NodeTimeState.constructor` | noria-server/dataflow/src/timestamp.rs:78-82 | a node state holds exactly the given vector time, path map and base-path groups |
| `Timestamp.NodeTimeState.IsConsistent` | noria-server/dataflow/src/timestamp.rs:85-95 | with the groups in scan order, returns true iff the scan finds every group uniform; it panics only where the scan indexes out of range before a disagreement; it changes nothing |
| `Timestamp.MembersVerdictMeaning` | noria-server/dataflow/src/timestamp.rs:88-92 | when all members are known paths, the inner loop never panics and finds no disagreement iff every remaining member holds the first member's time |
| `Timestamp.ScanVerdictFrom` | noria-server/dataflow/src/timestamp.rs:86-94 | on well-formed groups the outer loop, started at any group, never panics and returns true iff every remaining group is uniform |
| `Timestamp.ScanVerdictMeaning` | noria-server/dataflow/src/timestamp.rs:85-95 | on non-empty groups of known paths, `is_consistent` never panics and returns true iff every member of every group holds the time of its group's first member |
| `Timestamp.AdvanceTearsGroup` | noria-server/dataflow/src/timestamp.rs:85-105 | applying one copy of an update to a consistent node tears it when the advanced path shares a group with a different path |
| `Timestamp.UngroupedAdvanceKeepsConsistency` | noria-server/dataflow/src/timestamp.rs:85-105 | advancing a path that belongs to no group leaves the consistency verdict unchanged |
| `Timestamp.NodeTimeState.ProcessUpdate` | noria-server/dataflow/src/timestamp.rs:99-105 | advances the slot of the incoming path under `advance`'s preconditions; returns the same time on the path the map gives for (ancestor, incoming path); the path map and groups cannot change |
| `Scenarios.RemappedForwarding` | noria-server/dataflow/src/timestamp.rs:99-105 | with (ancestor 0, path 2) mapped to 5 and slot 2 at 6, processing {path 2, time 7} leaves slot 2 at 7 and forwards {path 5, time 7} |
| `Scenarios.BaseWrites` | noria-server/dataflow/src/timestamp.rs:11-17 | a fresh corrected assigner stamps three writes 1, 2, 3 on the origin path |
| `Scenarios.RelayCopy` | noria-server/dataflow/src/timestamp.rs:99-105 | a single-ancestor relay whose table relabels the origin path forwards each write with its time unchanged on the relabelled path |
| `Scenarios.RedundantCopiesMerge` | noria-server/dataflow/src/timestamp.rs:85-105 | a merge node whose one group holds two redundant copies is torn after write 3 arrives on one copy only, and consistent after it arrives on both |
| `Scenarios.CloneBeforeUse` | noria-server/dataflow/src/timestamp.rs:19-24 | an unused assigner and its clone both issue time 0 on the origin path first |
| `Placement.IterationOrder` | src/flow/placement/mod.rs:37 | iterating the worker map yields every worker exactly once, in some order |
| `Placement.NewShardIdPlacer` | src/flow/placement/mod.rs:35-39 | the placer's ids are exactly the workers, each once |
| `Placement.ShardIdPlacer.PlaceDomain` | src/flow/placement/mod.rs:43-45 | requires at least one worker (the modulo panics otherwise); always returns some worker of the set, and shard index si < n goes to the si-th id |
| `Placement.CongruentShardsShareWorker` | src/flow/placement/mod.rs:43-45 | shard indices congruent modulo the number of workers get the same worker, for any domains |
| `Placement.EveryWorkerPlaced` | src/flow/placement/mod.rs:43-45 | every worker is chosen for some shard index below the number of workers |
| `Placement.RoundRobinPlacer.constructor` | src/flow/placement/mod.rs:17-21 | the cycle runs over every worker exactly once per round; no placement has been made yet |
| `Placement.RoundRobinPlacer.PlaceDomain` | src/flow/placement/mod.rs:25-27 | with no workers always `None`; otherwise the k-th call (from 0) returns the worker at position k mod n, the same worker the shard-index placer gives shard k; domain and shard are ignored |

## Findings

| source | as written | input that shows it | evidently intended | confidence | as-written member | corrected member |
|---|---|---|---|---|---|---|
| noria-server/dataflow/src/timestamp.rs:64 | `extend` asserts `len + 1 == path` and pushes the time at index `len` | on an empty vector time, `extend({path 0, time 0})` fails its assertion; `extend({path 1, time 0})` stores the time in slot 0, and a following `advance({path 1, time 1})` indexes out of range; after a further `extend({path 2, time 5})`, `advance` on path 1 checks and overwrites slot 1, which holds path 2's time 5 | the path id equals the current length, so the new slot is that path's slot | medium, not executed | `Timestamp.ExtendMissesRegisteredPath` | `Timestamp.VectorTime.ExtendNext` |
| noria-server/dataflow/src/timestamp.rs:14 | `assign` returns the counter before the increment, so the first write is stamped 0 | a fresh assigner's first write `{path 0, time 0}`, processed by a node whose vector time came from `with_length`: `advance` asserts `0 + 1 == 0` and panics | a time counts the writes issued so far, so the first write is stamped 1, which a fresh slot accepts | low, not executed | `Timestamp.FirstIssuedTimeRejected` | `Timestamp.IssueAndApply` |

## Left out

- `PathAssignments::add_node` is `unimplemented!()`. `PathAssignments::make_node_state` always panics on its `base_paths` field. Neither returns a value, so neither is modelled. The stored per-node path maps are not modelled either.
- Serialization derives and the `BTreeMap` storage are not modelled.
- `NodeIndex`, `Graph`, `WorkerEndpoint` and `domain::Index` are foreign types. Node and domain ids are natural numbers. Worker ids are an opaque type, and the worker map is its key set, since the endpoints are never read.
- The `DomainPlacementStrategy` interface is not a separate type. Both placers offer the same `PlaceDomain(domain, shard)` operation.
- `RoundRobinPlacer` borrows the worker map for a lifetime. The model keeps a copy of the key order, plus a cursor that plays the role of the cycling iterator.
- Hash-map iteration order is left arbitrary. Every duplicate-free order of the keys is allowed.
- Ownership is not modelled. A `NodeTimeState` refers to its `VectorTime` object, where the source owns it by value, so the model does not rule out two states sharing one vector time. There is no concurrency in the source.
- The derived `Clone`, `Eq` and `Ord` implementations of the value types are not modelled.
- `Timestamp.TimestampAssigner.Assign`: requires the counter below 2^64 − 1. This models the debug-build overflow panic. The release-build wrap-around is not modelled. The same holds for the `+ 1` inside `advance`.
- The `as usize` conversions of path ids assume a 64-bit target, where they never truncate.
