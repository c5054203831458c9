/** Client code that drives the clock through small deployments; each method
    states the outcome its callers can rely on from the contracts alone. */
module Scenarios {
  import opened Timestamp

  /** A node whose table sends (ancestor 0, path 2) to path 5 forwards an
      update {path 2, time 7} on path 5 after its path-2 slot held 6. */
  method RemappedForwarding() returns (slot: Time, out: TimeComponent)
    ensures slot == 7 && out == TimeComponent(5, 7)
  {
    var vt := new VectorTime.WithLength(3);
    for t := 1 to 7
      invariant vt.components == [0, 0, t - 1]
    {
      vt.Advance(TimeComponent(2, t));
    }
    var node := new NodeTimeState(vt, Remap([[0, 1, 5]]), []);
    out := node.ProcessUpdate(0, TimeComponent(2, 7));
    slot := vt.components[2];
  }

  /** A base table issues three writes, stamped 1, 2 and 3 on the origin
      path by the corrected assigner. */
  method BaseWrites() returns (w1: TimeComponent, w2: TimeComponent, w3: TimeComponent)
    ensures w1 == TimeComponent(ORIGIN_PATH, 1)
    ensures w2 == TimeComponent(ORIGIN_PATH, 2)
    ensures w3 == TimeComponent(ORIGIN_PATH, 3)
  {
    var base := new TimestampAssigner();
    w1 := base.AssignCounted();
    w2 := base.AssignCounted();
    w3 := base.AssignCounted();
  }

  /** A single-ancestor node whose table relabels the origin path as `outgoing`
      forwards the three writes unchanged in time on path `outgoing`. */
  method RelayCopy(outgoing: Path, w1: TimeComponent, w2: TimeComponent, w3: TimeComponent)
    returns (c1: TimeComponent, c2: TimeComponent, c3: TimeComponent)
    requires w1 == TimeComponent(ORIGIN_PATH, 1)
    requires w2 == TimeComponent(ORIGIN_PATH, 2)
    requires w3 == TimeComponent(ORIGIN_PATH, 3)
    ensures c1 == TimeComponent(outgoing, 1)
    ensures c2 == TimeComponent(outgoing, 2)
    ensures c3 == TimeComponent(outgoing, 3)
  {
    var vt := new VectorTime.WithLength(1);
    var relay := new NodeTimeState(vt, Remap([[outgoing]]), []);
    c1 := relay.ProcessUpdate(0, w1);
    c2 := relay.ProcessUpdate(0, w2);
    c3 := relay.ProcessUpdate(0, w3);
  }

  /** Two redundant relays carry the base table's writes to a merge node as
      its paths 0 and 1, which form one group there. The merge node is torn
      while it has applied write 3 on path 0 only, and consistent once the
      second copy arrives. */
  method RedundantCopiesMerge() returns (torn: bool, healed: bool)
    ensures !torn && healed
  {
    var w1, w2, w3 := BaseWrites();
    var a1, a2, a3 := RelayCopy(0, w1, w2, w3);
    var b1, b2, b3 := RelayCopy(1, w1, w2, w3);

    var vt := new VectorTime.WithLength(2);
    var merge := new NodeTimeState(vt, Remap([[0], [0, 0]]), [BasePathGroup(0, 0, [0, 1])]);
    var _ := merge.ProcessUpdate(0, a1);
    var _ := merge.ProcessUpdate(1, b1);
    assert vt.components == [1, 1];
    var _ := merge.ProcessUpdate(0, a2);
    var _ := merge.ProcessUpdate(1, b2);
    assert vt.components == [2, 2];
    var _ := merge.ProcessUpdate(0, a3);
    assert vt.components == [3, 2];
    ScanVerdictMeaning(vt.components, merge.basePaths);
    assert vt.components[merge.basePaths[0].paths[1]] != vt.components[merge.basePaths[0].paths[0]];
    torn := merge.IsConsistent();

    var _ := merge.ProcessUpdate(1, b3);
    assert vt.components == [3, 3];
    ScanVerdictMeaning(vt.components, merge.basePaths);
    healed := merge.IsConsistent();
  }

  /** A generator that has not issued anything may be duplicated; both copies
      then issue the same first time on the origin path. */
  method CloneBeforeUse() returns (first: TimeComponent, second: TimeComponent)
    ensures first == second == TimeComponent(ORIGIN_PATH, 0)
  {
    var a := new TimestampAssigner();
    var b := a.Clone();
    first := a.Assign();
    second := b.Assign();
  }
}
