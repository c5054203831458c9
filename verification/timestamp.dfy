/** Causal-consistency clock of a dataflow node: timestamp assignment at base
    tables, per-path vector times, path remapping between nodes and the check
    for torn (partially applied) state. */
module Timestamp {

  /** Exclusive upper bound of Rust's `u64`. */
  const U64_LIMIT: int := 0x1_0000_0000_0000_0000

  type U64 = x: int | 0 <= x < U64_LIMIT

  /** Number of updates observed on one path. */
  type Time = U64

  /** Node-local identifier of one delivery route. */
  type Path = U64

  /** Opaque graph node identifier. */
  type NodeIndex = nat

  /** The path a base table stamps every fresh write with. */
  const ORIGIN_PATH: Path := 0

  /** The (path, time) pair attached to an in-flight update. */
  datatype TimeComponent = TimeComponent(path: Path, time: Time)

  // ---------------------------------------------------------------------------
  // TimestampAssigner

  /** The times `k` successive `Assign` calls hand out when the counter starts
      at `start` (`IssueWrites` proves it); the counter ends at `start + k`,
      which must stay a `u64`. */
  function Issued(start: nat, k: nat): (s: seq<TimeComponent>)
    requires start + k < U64_LIMIT
    decreases k
  {
    if k == 0 then [] else [TimeComponent(ORIGIN_PATH, start)] + Issued(start + 1, k - 1)
  }

  /** Successive assignments are gapless: the i-th one carries `start + i`. */
  lemma {:induction false} IssuedGapless(start: nat, k: nat)
    requires start + k < U64_LIMIT
    ensures |Issued(start, k)| == k
    ensures forall i :: 0 <= i < k ==> Issued(start, k)[i] == TimeComponent(ORIGIN_PATH, start + i)
    decreases k
  {
    if k > 0 {
      IssuedGapless(start + 1, k - 1);
    }
  }

  /** Successive assignments are strictly increasing in time. */
  lemma IssuedStrictlyIncreasing(start: nat, k: nat)
    requires start + k < U64_LIMIT
    ensures forall i, j :: 0 <= i < j < |Issued(start, k)| ==> Issued(start, k)[i].time < Issued(start, k)[j].time
  {
    IssuedGapless(start, k);
  }

  /** The single generator of logical time for one lineage of writes. */
  class TimestampAssigner {
    var counter: U64

    /** The derived `Default`: a counter at zero. */
    constructor ()
      ensures counter == 0
    {
      counter := 0;
    }

    /** Stamps a fresh write: the time is the counter before the call, the path
        the origin path. The increment panics on overflow. */
    method Assign() returns (c: TimeComponent)
      requires counter < U64_LIMIT - 1
      modifies this
      ensures c == TimeComponent(ORIGIN_PATH, old(counter))
      ensures counter == old(counter) + 1
    {
      counter := counter + 1;
      c := TimeComponent(ORIGIN_PATH, counter - 1);
    }

    /** Corrected assignment: the time is the counter after the call, i.e.
        the number of writes issued so far, the value a fresh vector-time slot
        accepts first. */
    method AssignCounted() returns (c: TimeComponent)
      requires counter < U64_LIMIT - 1
      modifies this
      ensures c == TimeComponent(ORIGIN_PATH, old(counter) + 1)
      ensures counter == old(counter) + 1
    {
      counter := counter + 1;
      c := TimeComponent(ORIGIN_PATH, counter);
    }

    /** Duplicating a generator is only allowed before it has issued a time;
        the copy starts over at zero. */
    method Clone() returns (a: TimestampAssigner)
      requires counter == 0
      ensures fresh(a) && a.counter == 0
    {
      a := new TimestampAssigner();
    }
  }

  /** A base table stamping `k` writes in a row: the stamps are exactly
      `Issued` from the counter it started with. */
  method IssueWrites(a: TimestampAssigner, k: nat) returns (out: seq<TimeComponent>)
    requires a.counter + k < U64_LIMIT
    modifies a
    ensures out == Issued(old(a.counter), k)
    ensures a.counter == old(a.counter) + k
  {
    out := [];
    for i := 0 to k
      invariant a.counter == old(a.counter) + i
      invariant out + Issued(a.counter, k - i) == Issued(old(a.counter), k)
    {
      var c := a.Assign();
      out := out + [c];
    }
  }

  /** With the corrected assigner, the next `k` stamps carry the times
      counter + 1, ..., counter + k, gaplessly, and a slot that has observed
      exactly the writes issued so far accepts each of them, in order, each
      from the state the previous `Advance` left; afterwards the slot has
      observed them all and every other slot is unchanged. */
  method IssueAndApply(a: TimestampAssigner, vt: VectorTime, p: Path, k: nat) returns (out: seq<TimeComponent>)
    requires p < |vt.components| && vt.components[p] == a.counter
    requires a.counter + k < U64_LIMIT
    modifies a, vt
    ensures |out| == k
    ensures forall i :: 0 <= i < k ==> out[i] == TimeComponent(ORIGIN_PATH, old(a.counter) + 1 + i)
    ensures a.counter == old(a.counter) + k
    ensures vt.components == old(vt.components)[p := old(a.counter) + k]
  {
    out := [];
    for i := 0 to k
      invariant a.counter == old(a.counter) + i
      invariant vt.components == old(vt.components)[p := a.counter]
      invariant |out| == i
      invariant forall j :: 0 <= j < i ==> out[j] == TimeComponent(ORIGIN_PATH, old(a.counter) + 1 + j)
    {
      var c := a.AssignCounted();
      vt.Advance(c.(path := p));
      out := out + [c];
    }
  }

  // ---------------------------------------------------------------------------
  // PathMap

  /** Translates (ancestor ordinal, incoming path) into this node's outgoing
      path; `PassThrough` is the absent table. */
  datatype PathMap = PassThrough | Remap(table: seq<seq<Path>>)
  {
    /** The lookup does not index out of range. */
    predicate Covers(ancestor: nat, incoming: Path) {
      Remap? ==> ancestor < |table| && incoming < |table[ancestor]|
    }

    function Lookup(ancestor: nat, incoming: Path): (r: Path)
      requires Covers(ancestor, incoming)
      ensures PassThrough? ==> r == incoming
      ensures Remap? ==> r in table[ancestor]
    {
      match this
      case Remap(v) => v[ancestor][incoming]
      case PassThrough => incoming
    }

    /** Every outgoing path the table names is below `n`. */
    predicate TargetsBelow(n: nat) {
      Remap? ==> forall a, i :: 0 <= a < |table| && 0 <= i < |table[a]| ==> table[a][i] < n
    }

    /** Every row of the table maps each path to itself. */
    predicate IdentityRows() {
      Remap? ==> forall a, i :: 0 <= a < |table| && 0 <= i < |table[a]| ==> table[a][i] == i
    }
  }

  /** A table whose outgoing ids are dense below `n` only ever yields paths
      below `n`. */
  lemma LookupBelow(m: PathMap, n: nat, ancestor: nat, incoming: Path)
    requires m.Remap? && m.TargetsBelow(n) && m.Covers(ancestor, incoming)
    ensures m.Lookup(ancestor, incoming) < n
  {
  }

  /** A populated table made of identity rows behaves exactly as the absent
      table wherever it is defined. */
  lemma IdentityRowsPassThrough(m: PathMap, ancestor: nat, incoming: Path)
    requires m.IdentityRows() && m.Covers(ancestor, incoming)
    ensures m.Lookup(ancestor, incoming) == PassThrough.Lookup(ancestor, incoming)
  {
  }

  // ---------------------------------------------------------------------------
  // VectorTime

  /** `extend` as written accepts exactly the path one past the current
      length. */
  predicate ExtendAccepts(components: seq<Time>, c: TimeComponent) {
    |components| + 1 == c.path
  }

  /** `advance` accepts a component whose path is a slot and whose time is
      exactly that slot's time plus one. */
  predicate CanAdvance(components: seq<Time>, c: TimeComponent) {
    c.path < |components| && components[c.path] as int + 1 == c.time
  }

  /** One time per locally known path. */
  class VectorTime {
    var components: seq<Time>

    /** The empty vector time. */
    constructor ()
      ensures components == []
    {
      components := [];
    }

    /** A vector time of `n` slots, all at time zero. */
    constructor WithLength(n: nat)
      ensures |components| == n
      ensures forall i :: 0 <= i < n ==> components[i] == 0
    {
      components := seq(n, _ => 0);
    }

    /** Registers one more path (as written: the path id must be one past the
        current length, and the time lands in slot `length`). */
    method Extend(c: TimeComponent)
      requires ExtendAccepts(components, c)
      modifies this
      ensures components == old(components) + [c.time]
    {
      components := components + [c.time];
    }

    /** Corrected registration: the path id must equal the current length,
        so the new slot is the slot of `c.path`. */
    method ExtendNext(c: TimeComponent)
      requires c.path == |components|
      modifies this
      ensures |components| == c.path + 1 && components[c.path] == c.time
      ensures components[..c.path] == old(components)
    {
      components := components + [c.time];
    }

    /** Moves one path forward by exactly one step; every other slot and the
        length are unchanged. */
    method Advance(c: TimeComponent)
      requires CanAdvance(components, c)
      modifies this
      ensures |components| == |old(components)|
      ensures components[c.path] == c.time == old(components)[c.path] as int + 1
      ensures forall p :: 0 <= p < |components| && p != c.path ==> components[p] == old(components)[p]
    {
      components := components[c.path := c.time];
    }
  }

  /** As written, immediately after `extend` registers a path, that path id
      equals the new length, so no component on it can advance yet. */
  lemma ExtendMissesRegisteredPath(components: seq<Time>, c: TimeComponent, next: TimeComponent)
    requires ExtendAccepts(components, c) && next.path == c.path
    ensures !CanAdvance(components + [c.time], next)
  {
  }

  /** As written, two registrations in a row cross-wire the slots: the time
      registered for the first path sits one slot below it, and the slot of
      the first path holds the second path's time, so an advance on the
      first path is accepted exactly when it continues the second path's
      time, and it overwrites that slot. */
  lemma ExtendCrossWires(components: seq<Time>, c1: TimeComponent, c2: TimeComponent, t: Time)
    requires ExtendAccepts(components, c1) && ExtendAccepts(components + [c1.time], c2)
    ensures (components + [c1.time] + [c2.time])[c1.path - 1] == c1.time
    ensures (components + [c1.time] + [c2.time])[c1.path] == c2.time
    ensures CanAdvance(components + [c1.time] + [c2.time], TimeComponent(c1.path, t)) <==> t == c2.time + 1
  {
  }

  /** As written, the first path id 0 can never be registered. */
  lemma ExtendRejectsFirstPath(c: TimeComponent)
    requires c.path == 0
    ensures !ExtendAccepts([], c)
  {
  }

  /** With the corrected registration the new path advances from its
      registered time. */
  lemma RegisteredPathAdvances(components: seq<Time>, c: TimeComponent)
    requires c.path == |components| && c.time + 1 < U64_LIMIT
    ensures CanAdvance(components + [c.time], TimeComponent(c.path, c.time + 1))
  {
  }

  /** The first time the as-written assigner issues (0) is never accepted by
      a fresh slot (0), whatever the path. */
  lemma FirstIssuedTimeRejected(n: nat, p: Path)
    requires p < n
    ensures !CanAdvance(seq(n, _ => 0), Issued(0, 1)[0].(path := p))
  {
  }

  // ---------------------------------------------------------------------------
  // NodeTimeState

  /** The local paths of one node that descend from the same base-table
      shard. */
  datatype BasePathGroup = BasePathGroup(base: NodeIndex, shard: nat, paths: seq<Path>)

  /** Outcome of the scan `is_consistent` performs: `Fault` when the scan
      indexes out of range (the source panics). */
  datatype Verdict = Uniform | Torn | Fault

  /** Scan of one group's members from position `i` against the group's
      first time `t`. */
  function MembersVerdict(components: seq<Time>, paths: seq<Path>, i: nat, t: Time): (v: Verdict)
    decreases |paths| - i
  {
    if i >= |paths| then Uniform
    else if paths[i] >= |components| then Fault
    else if components[paths[i]] != t then Torn
    else MembersVerdict(components, paths, i + 1, t)
  }

  function GroupVerdict(components: seq<Time>, paths: seq<Path>): (v: Verdict) {
    if |paths| == 0 || paths[0] >= |components| then Fault
    else MembersVerdict(components, paths, 1, components[paths[0]])
  }

  /** Scan of the groups from position `g`, stopping at the first group that
      is not uniform. */
  function ScanVerdict(components: seq<Time>, groups: seq<BasePathGroup>, g: nat): (v: Verdict)
    decreases |groups| - g
  {
    if g >= |groups| then Uniform
    else
      match GroupVerdict(components, groups[g].paths)
      case Uniform => ScanVerdict(components, groups, g + 1)
      case v => v
  }

  /** Every group is non-empty and names only known paths. */
  predicate WellFormedGroups(components: seq<Time>, groups: seq<BasePathGroup>) {
    forall g :: 0 <= g < |groups| ==>
      |groups[g].paths| > 0 && forall i :: 0 <= i < |groups[g].paths| ==> groups[g].paths[i] < |components|
  }

  /** Reference definition: within every group, every member's time equals
      the time of the group's first member. */
  predicate Consistent(components: seq<Time>, groups: seq<BasePathGroup>)
    requires WellFormedGroups(components, groups)
  {
    forall g, i :: 0 <= g < |groups| && 0 <= i < |groups[g].paths| ==>
      components[groups[g].paths[i]] == components[groups[g].paths[0]]
  }

  lemma {:induction false} MembersVerdictMeaning(components: seq<Time>, paths: seq<Path>, i: nat, t: Time)
    requires forall j :: 0 <= j < |paths| ==> paths[j] < |components|
    ensures MembersVerdict(components, paths, i, t) != Fault
    ensures MembersVerdict(components, paths, i, t) == Uniform <==>
            forall j :: i <= j < |paths| ==> components[paths[j]] == t
    decreases |paths| - i
  {
    if i < |paths| && components[paths[i]] == t {
      MembersVerdictMeaning(components, paths, i + 1, t);
    }
  }

  lemma {:induction false} ScanVerdictFrom(components: seq<Time>, groups: seq<BasePathGroup>, g: nat)
    requires WellFormedGroups(components, groups)
    ensures ScanVerdict(components, groups, g) != Fault
    ensures ScanVerdict(components, groups, g) == Uniform <==>
            forall h, i :: g <= h < |groups| && 0 <= i < |groups[h].paths| ==>
              components[groups[h].paths[i]] == components[groups[h].paths[0]]
    decreases |groups| - g
  {
    if g < |groups| {
      var ps := groups[g].paths;
      MembersVerdictMeaning(components, ps, 1, components[ps[0]]);
      ScanVerdictFrom(components, groups, g + 1);
    }
  }

  /** On well-formed groups the scan never faults, and it reports `Uniform`
      exactly when the node is consistent. */
  lemma ScanVerdictMeaning(components: seq<Time>, groups: seq<BasePathGroup>)
    requires WellFormedGroups(components, groups)
    ensures ScanVerdict(components, groups, 0) != Fault
    ensures ScanVerdict(components, groups, 0) == Uniform <==> Consistent(components, groups)
  {
    ScanVerdictFrom(components, groups, 0);
  }

  /** Applying one copy of an update to a consistent node tears it whenever
      the advanced path shares its group with another path. */
  lemma AdvanceTearsGroup(components: seq<Time>, groups: seq<BasePathGroup>, g: nat, i: nat, j: nat, c: TimeComponent)
    requires WellFormedGroups(components, groups) && Consistent(components, groups)
    requires g < |groups| && i < |groups[g].paths| && j < |groups[g].paths|
    requires groups[g].paths[i] == c.path && groups[g].paths[j] != c.path
    requires CanAdvance(components, c)
    ensures WellFormedGroups(components[c.path := c.time], groups)
    ensures !Consistent(components[c.path := c.time], groups)
  {
  }

  /** Applying an update on a path outside every group keeps the verdict. */
  lemma UngroupedAdvanceKeepsConsistency(components: seq<Time>, groups: seq<BasePathGroup>, c: TimeComponent)
    requires WellFormedGroups(components, groups)
    requires CanAdvance(components, c)
    requires forall g, i :: 0 <= g < |groups| && 0 <= i < |groups[g].paths| ==> groups[g].paths[i] != c.path
    ensures WellFormedGroups(components[c.path := c.time], groups)
    ensures Consistent(components[c.path := c.time], groups) == Consistent(components, groups)
  {
  }

  /** All time related state of one (node, shard). */
  class NodeTimeState {
    const time: VectorTime
    const paths: PathMap
    const basePaths: seq<BasePathGroup>

    /** The struct literal that assembles a node's state. */
    constructor (time: VectorTime, paths: PathMap, basePaths: seq<BasePathGroup>)
      ensures this.time == time && this.paths == paths && this.basePaths == basePaths
    {
      this.time := time;
      this.paths := paths;
      this.basePaths := basePaths;
    }

    /** Whether this node shows no torn update: every group's members agree
        on their time. Panics (excluded here) exactly where the scan indexes
        out of range before it finds a disagreement. */
    method IsConsistent() returns (b: bool)
      requires ScanVerdict(time.components, basePaths, 0) != Fault
      ensures b <==> ScanVerdict(time.components, basePaths, 0) == Uniform
    {
      var components := time.components;
      for g := 0 to |basePaths|
        invariant ScanVerdict(components, basePaths, g) == ScanVerdict(components, basePaths, 0)
      {
        var ps := basePaths[g].paths;
        var t := components[ps[0]];
        for i := 1 to |ps|
          invariant MembersVerdict(components, ps, i, t) == MembersVerdict(components, ps, 1, t)
        {
          if components[ps[i]] != t {
            return false;
          }
        }
      }
      return true;
    }

    /** Applies an update that arrived from `ancestor`: advances the slot of
        the incoming path and forwards the same time on the remapped path. */
    method ProcessUpdate(ancestor: nat, c: TimeComponent) returns (out: TimeComponent)
      requires CanAdvance(time.components, c)
      requires paths.Covers(ancestor, c.path)
      modifies time
      ensures time.components == old(time.components)[c.path := c.time]
      ensures out.time == c.time && out.path == paths.Lookup(ancestor, c.path)
    {
      time.Advance(c);
      out := TimeComponent(paths.Lookup(ancestor, c.path), c.time);
    }
  }
}
