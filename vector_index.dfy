/** The approximate-nearest-neighbour index a workspace owns (an hnswlib
    HierarchicalNSW graph over 128-dimensional float vectors, L2 distance).
    Only what the workspace's bookkeeping depends on is kept: the labels that
    have been inserted, in insertion order, and the fixed capacity. Vectors,
    distances and the graph are not modelled, so the nearest-neighbour query
    is an abstract choice among the inserted labels. */
module VectorIndex {
  import opened Wrappers

  /** Capacity the workspace gives every index it creates. */
  const IndexCapacity: nat := 100000

  datatype AnnIndex = AnnIndex(labels: seq<nat>, capacity: nat)
  {
    /** Number of points stored. */
    function Count(): nat { |labels| }

    /** True when a search returns nothing. */
    predicate IsEmpty() { |labels| == 0 }
  }

  /** A freshly constructed index with the workspace's capacity. */
  function Fresh(): (ix: AnnIndex)
    ensures ix.IsEmpty() && ix.capacity == IndexCapacity
  {
    AnnIndex([], IndexCapacity)
  }

  /** `addPoint(data, label)`: a label that is already present has its point
      replaced and the label set is unchanged; otherwise the point is
      appended, unless the index already holds `capacity` points, in which
      case the insert throws (`None`). */
  function AddPoint(ix: AnnIndex, lbl: nat): (r: Option<AnnIndex>)
    ensures r.Some? <==> (lbl in ix.labels || ix.Count() < ix.capacity)
    ensures r.Some? ==> r.value.capacity == ix.capacity
    ensures r.Some? ==> lbl in r.value.labels
    ensures r.Some? ==> forall l :: l in r.value.labels <==> l in ix.labels || l == lbl
    ensures r.Some? && lbl !in ix.labels ==> r.value.labels == ix.labels + [lbl]
    ensures r.Some? && lbl in ix.labels ==> r.value == ix
  {
    if lbl in ix.labels then Some(ix)
    else if ix.Count() < ix.capacity then Some(AnnIndex(ix.labels + [lbl], ix.capacity))
    else None
  }
}
