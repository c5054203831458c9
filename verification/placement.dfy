/** Domain placement: choosing the worker that hosts a (domain, shard). The
    worker map is represented by its key set; the endpoints it maps to are
    never read. */
module Placement {

  datatype Option<T> = None | Some(value: T)

  /** Opaque domain identifier; both policies ignore it. */
  type DomainIndex = nat

  predicate NoDuplicates<W(==)>(s: seq<W>) {
    forall i, j :: 0 <= i < j < |s| ==> s[i] != s[j]
  }

  /** `s` lists every element of `workers` exactly once. */
  predicate Enumerates<W>(s: seq<W>, workers: set<W>) {
    NoDuplicates(s) && |s| == |workers| &&
    (forall i :: 0 <= i < |s| ==> s[i] in workers) && (forall w :: w in workers ==> w in s)
  }

  /** Iteration over the worker map: each key once, in an order that is not
      specified (every choice is allowed). */
  method IterationOrder<W>(workers: set<W>) returns (ids: seq<W>)
    ensures Enumerates(ids, workers)
  {
    ids := [];
    var rest := workers;
    while rest != {}
      invariant rest <= workers
      invariant NoDuplicates(ids)
      invariant |ids| + |rest| == |workers|
      invariant forall i :: 0 <= i < |ids| ==> ids[i] in workers && ids[i] !in rest
      invariant forall w :: w in workers && w !in rest ==> w in ids
      decreases |rest|
    {
      var w :| w in rest;
      ids := ids + [w];
      rest := rest - {w};
    }
  }

  // ---------------------------------------------------------------------------
  // ShardIdPlacer

  /** Fixed mapping from shard index to worker, modulo the number of
      workers. */
  datatype ShardIdPlacer<W> = ShardIdPlacer(ids: seq<W>)
  {
    /** The worker at position `si mod n` of the ids; the modulo panics when
        there are no workers. */
    function PlaceDomain(d: DomainIndex, si: nat): (r: Option<W>)
      requires |ids| > 0
      ensures r.Some? && r.value in ids
      ensures si < |ids| ==> r == Some(ids[si])
    {
      Some(ids[si % |ids|])
    }
  }

  method NewShardIdPlacer<W>(workers: set<W>) returns (p: ShardIdPlacer<W>)
    ensures Enumerates(p.ids, workers)
  {
    var ids := IterationOrder(workers);
    p := ShardIdPlacer(ids);
  }

  /** Shard indices congruent modulo the number of workers get the same
      worker, whatever the domain. */
  lemma CongruentShardsShareWorker<W>(p: ShardIdPlacer<W>, d1: DomainIndex, d2: DomainIndex, si: nat, sj: nat)
    requires |p.ids| > 0 && si % |p.ids| == sj % |p.ids|
    ensures p.PlaceDomain(d1, si) == p.PlaceDomain(d2, sj)
  {
  }

  /** Every worker hosts some shard index below the number of workers. */
  lemma EveryWorkerPlaced<W>(p: ShardIdPlacer<W>, d: DomainIndex, w: W)
    requires w in p.ids
    ensures exists si :: 0 <= si < |p.ids| && p.PlaceDomain(d, si) == Some(w)
  {
    var si :| 0 <= si < |p.ids| && p.ids[si] == w;
    assert p.PlaceDomain(d, si) == Some(w);
  }

  // ---------------------------------------------------------------------------
  // RoundRobinPlacer

  /** Cycles over the workers in iteration order. */
  class RoundRobinPlacer<W(==)> {
    const ids: seq<W>
    /** Position of the next worker in `ids`. */
    var cursor: nat
    /** Number of placements made so far. */
    ghost var calls: nat

    ghost predicate Valid()
      reads this
    {
      if |ids| == 0 then cursor == 0 else cursor == calls % |ids|
    }

    constructor (workers: set<W>)
      ensures Valid() && Enumerates(ids, workers) && calls == 0
    {
      var order := IterationOrder(workers);
      ids := order;
      cursor := 0;
      calls := 0;
    }

    /** The `calls`-th placement (counting from zero) goes to the worker at
        position `calls mod n`; with no workers every placement is `None`.
        Domain and shard are ignored. */
    method PlaceDomain(d: DomainIndex, s: nat) returns (r: Option<W>)
      requires Valid()
      modifies this
      ensures Valid() && calls == old(calls) + 1
      ensures |ids| == 0 <==> r == None
      ensures |ids| > 0 ==> r == Some(ids[old(calls) % |ids|])
      ensures |ids| > 0 ==> r == ShardIdPlacer(ids).PlaceDomain(d, old(calls))
    {
      if |ids| == 0 {
        r := None;
      } else {
        r := Some(ids[cursor]);
        NextResidue(calls, |ids|);
        cursor := if cursor + 1 == |ids| then 0 else cursor + 1;
      }
      calls := calls + 1;
    }
  }

  /** The residue of `k + 1` is the successor of the residue of `k`, wrapping
      to zero at `n`. */
  lemma NextResidue(k: nat, n: nat)
    requires n > 0
    ensures (k + 1) % n == if k % n + 1 == n then 0 else k % n + 1
  {
    var q := k / n;
    if k % n + 1 == n {
      ResidueUnique(k + 1, n, q + 1, 0);
    } else {
      ResidueUnique(k + 1, n, q, k % n + 1);
    }
  }

  /** Euclidean division has a unique remainder. */
  lemma ResidueUnique(x: int, n: int, q: int, r: int)
    requires n > 0 && 0 <= r < n && x == q * n + r
    ensures x % n == r
  {
    var q', r' := x / n, x % n;
    assert x == q' * n + r';
    var d := q - q';
    assert d * n == q * n - q' * n;
    assert d * n == r' - r;
    if d > 0 {
      ProductAtLeast(d, n);
    } else if d < 0 {
      ProductAtLeast(-d, n);
    }
  }

  lemma ProductAtLeast(d: int, n: int)
    requires d >= 1 && n > 0
    ensures d * n >= n
  {
  }
}
