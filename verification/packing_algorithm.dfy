/** `optimizeContainerPacking` of `src/utils/packingAlgorithm.ts`: pallets
    first, boxes in what is left, then the volume and weight metrics. */
module PackingAlgorithm {
  import opened Types
  import opened Geometry
  import opened PalletPacking
  import opened BoxPacking

  datatype Result<T> = Ok(value: T) | Err(message: string)

  const NO_PALLETS: string := "No pallets provided"

  /** `items.reduce((acc, item) => acc + volume(item), 0)`: a left fold, so
      the last item is added last. */
  function SumVolumes(items: seq<Item>): real
  {
    if |items| == 0 then 0.0
    else SumVolumes(items[..|items| - 1]) + Volume(items[|items| - 1].dimensions)
  }

  /** `items.reduce((acc, item) => acc + item.weight, 0)`. */
  function SumWeights(items: seq<Item>): real
  {
    if |items| == 0 then 0.0
    else SumWeights(items[..|items| - 1]) + items[|items| - 1].weight
  }

  /** Items of one fixed weight weigh that weight times their number. */
  lemma {:induction false} SumWeightsUniform(items: seq<Item>, w: real)
    requires forall i :: 0 <= i < |items| ==> items[i].weight == w
    ensures SumWeights(items) == w * |items| as real
  {
    if |items| > 0 {
      var init := items[..|items| - 1];
      assert forall i :: 0 <= i < |init| ==> init[i] == items[i];
      SumWeightsUniform(init, w);
    }
  }

  /** Items with no negative edge have a non-negative total volume. */
  lemma {:induction false} SumVolumesNonNegative(items: seq<Item>)
    requires forall i :: 0 <= i < |items| ==>
               items[i].dimensions.width >= 0.0 && items[i].dimensions.height >= 0.0 &&
               items[i].dimensions.depth >= 0.0
    ensures SumVolumes(items) >= 0.0
  {
    if |items| > 0 {
      var init := items[..|items| - 1];
      assert forall i :: 0 <= i < |init| ==> init[i] == items[i];
      SumVolumesNonNegative(init);
      var d := items[|items| - 1].dimensions;
      MulNonNegative3(d.width, d.height, d.depth);
    }
  }

  lemma MulNonNegative3(a: real, b: real, c: real)
    requires a >= 0.0 && b >= 0.0 && c >= 0.0
    ensures a * b * c >= 0.0
  {
    assert a * b >= 0.0;
  }

  /** The pallets `placePallets` returns stand in the floor plan the box
      spaces are derived from. */
  lemma GreedyPalletsInFloorPlan(c: Container, base: Dimensions, ps: seq<Pallet>)
    requires Positive(base)
    requires forall i :: 0 <= i < |ps| ==> GreedyChoice(ps, i, c, base) && ScanSlot(ps[i].position, c, base)
    ensures forall i :: 0 <= i < |ps| ==> InFloorPlan(c, ps[i])
    ensures forall i :: 0 <= i < |ps| ==> WithinContainer(ps[i].position, ps[i].dimensions, c)
    ensures forall i :: 0 <= i < |ps| ==> ps[i].weight == PALLET_WEIGHT && Positive(ps[i].dimensions)
  {
    OrientationEdges(base);
    forall i | 0 <= i < |ps|
      ensures InFloorPlan(c, ps[i]) && WithinContainer(ps[i].position, ps[i].dimensions, c)
      ensures ps[i].weight == PALLET_WEIGHT && Positive(ps[i].dimensions)
    {
      assert GreedyChoice(ps, i, c, base);
      var o := ps[i].dimensions;
      assert o in PalletOrientations(base);
      assert o.height > 0.0 by {
        var os := PalletOrientations(base);
        var k :| 0 <= k < 6 && os[k] == o;
      }
    }
  }

  /** Pallets and boxes that are each pairwise disjoint, disjoint from each
      other and inside the container form one disjoint load inside it. */
  lemma LoadSound(c: Container, ps: seq<Pallet>, bs: seq<Box>)
    requires PairwiseDisjoint(ps) && PairwiseDisjoint(bs) && DisjointFrom(bs, ps)
    requires forall i :: 0 <= i < |ps| ==> WithinContainer(ps[i].position, ps[i].dimensions, c)
    requires forall i :: 0 <= i < |bs| ==> InsideSpace(ItemSpace(bs[i]), ContainerSpace(c))
    ensures PairwiseDisjoint(ps + bs)
    ensures forall it: Item :: it in ps + bs ==> WithinContainer(it.position, it.dimensions, c)
  {
    PairwiseDisjointConcat(ps, bs);
    forall it: Item | it in ps + bs ensures WithinContainer(it.position, it.dimensions, c) {
      if it in bs {
        var i :| 0 <= i < |bs| && bs[i] == it;
        InsideIsWithin(it, c);
      } else {
        var i :| 0 <= i < |ps| && ps[i] == it;
      }
    }
  }

  /** The two percentages add up: used share plus unused share is 100. */
  lemma SharesAddUp(total: real, used: real)
    requires total != 0.0
    ensures used / total * 100.0 + (total - used) / total * 100.0 == 100.0
  {
    var q := used / total;
    var u := (total - used) / total;
    assert q * total == used;
    assert u * total == total - used;
    assert (q + u - 1.0) * total == 0.0;
    assert q + u == 1.0;
  }

  /** The volume metrics reported for `res` in `c`: the unused space is
      what the load leaves of the container, the utilization is the used share
      in percent, and the two shares add up to 100 percent. */
  ghost predicate ReportsVolumes(c: Container, res: PackingResult)
    requires Volume(c.dimensions) != 0.0
  {
    var used := SumVolumes(res.pallets) + SumVolumes(res.boxes);
    && res.unusedSpace + used == Volume(c.dimensions)
    && res.utilizationPercentage * Volume(c.dimensions) == used * 100.0
    && res.utilizationPercentage + res.unusedSpace / Volume(c.dimensions) * 100.0 == 100.0
  }

  /** The result record of `optimizeContainerPacking`: the placed items and
      the volume and weight metrics over them. */
  function Metrics(c: Container, ps: seq<Pallet>, bs: seq<Box>): (res: PackingResult)
    requires Volume(c.dimensions) != 0.0
    ensures res.pallets == ps && res.boxes == bs
    ensures ReportsVolumes(c, res)
    ensures res.totalWeight == SumWeights(res.pallets) + SumWeights(res.boxes)
  {
    var totalVolume := c.dimensions.width * c.dimensions.height * c.dimensions.depth;
    var totalUsedVolume := SumVolumes(ps) + SumVolumes(bs);
    SharesAddUp(totalVolume, totalUsedVolume);
    PackingResult(
      ps,
      bs,
      totalVolume - totalUsedVolume,
      SumWeights(ps) + SumWeights(bs),
      (totalUsedVolume / totalVolume) * 100.0)
  }

  /** The total weight of the load: 30 per pallet plus 5 per box. */
  lemma LoadWeight(ps: seq<Pallet>, bs: seq<Box>)
    requires forall i :: 0 <= i < |ps| ==> ps[i].weight == PALLET_WEIGHT
    requires forall i :: 0 <= i < |bs| ==> bs[i].weight == BOX_WEIGHT
    ensures SumWeights(ps) + SumWeights(bs) == PALLET_WEIGHT * |ps| as real + BOX_WEIGHT * |bs| as real
  {
    SumWeightsUniform(ps, PALLET_WEIGHT);
    SumWeightsUniform(bs, BOX_WEIGHT);
  }

  /** What the two placement calls promise, put together: the greedy
      pallets and the infill boxes form one disjoint load in the container. */
  lemma LoadFacts(c: Container, base: Dimensions, bd: Dimensions, ps: seq<Pallet>, bs: seq<Box>)
    requires Positive(base)
    requires PairwiseDisjoint(ps)
    requires forall i :: 0 <= i < |ps| ==> GreedyChoice(ps, i, c, base) && ScanSlot(ps[i].position, c, base)
    requires forall i :: 0 <= i < |bs| ==>
               bs[i].weight == BOX_WEIGHT && bs[i].dimensions in BoxOrientations(bd)
    requires PairwiseDisjoint(bs) && DisjointFrom(bs, ps)
    requires (forall i :: 0 <= i < |ps| ==> InFloorPlan(c, ps[i])) ==>
               forall i :: 0 <= i < |bs| ==> InsideSpace(ItemSpace(bs[i]), ContainerSpace(c))
    ensures forall i :: 0 <= i < |ps| ==> ps[i].weight == PALLET_WEIGHT
    ensures PairwiseDisjoint(ps + bs)
    ensures forall it: Item :: it in ps + bs ==> WithinContainer(it.position, it.dimensions, c)
  {
    GreedyPalletsInFloorPlan(c, base, ps);
    LoadSound(c, ps, bs);
  }

  /** The two placement calls of `optimizeContainerPacking`: pallets of
      size `base` first, then boxes of size `bd` in the spaces they leave. */
  method PlaceLoad(c: Container, base: Dimensions, bd: Dimensions)
    returns (ps: seq<Pallet>, bs: seq<Box>)
    requires Positive(base) && Positive(bd)
    ensures forall i :: 0 <= i < |ps| ==> GreedyChoice(ps, i, c, base)
    ensures forall i :: 0 <= i < |bs| ==>
              bs[i].weight == BOX_WEIGHT && bs[i].dimensions in BoxOrientations(bd)
    ensures SumWeights(ps) + SumWeights(bs) == PALLET_WEIGHT * |ps| as real + BOX_WEIGHT * |bs| as real
    ensures PairwiseDisjoint(ps + bs)
    ensures forall it: Item :: it in ps + bs ==> WithinContainer(it.position, it.dimensions, c)
    ensures |ps| == 0 ==> bs == []
    ensures ps == PalletScan(c, base) && bs == BoxScan(c, bd, ps)
  {
    ps := PlacePallets(c, base);
    ghost var origin;
    bs, origin := PlaceBoxes(c, bd, ps);
    LoadFacts(c, base, bd, ps, bs);
    LoadWeight(ps, bs);
  }

  /** `optimizeContainerPacking`. Fails on an empty pallet list; otherwise
      packs pallets of the FIRST pallet's size, then boxes, and reports the
      metrics. Nothing but `pallets[0].dimensions` is read from the list. */
  method OptimizeContainerPacking(c: Container, pallets: seq<Pallet>, bd: Dimensions)
    returns (r: Result<PackingResult>)
    requires |pallets| > 0 ==> Positive(pallets[0].dimensions)
    requires |pallets| > 0 ==> Positive(bd)
    requires |pallets| > 0 ==> Volume(c.dimensions) != 0.0
    ensures r.Err? <==> |pallets| == 0
    ensures r.Err? ==> r.message == NO_PALLETS
    ensures r.Ok? ==>
              var res := r.value;
              // the metrics
              ReportsVolumes(c, res) &&
              res.totalWeight == PALLET_WEIGHT * |res.pallets| as real + BOX_WEIGHT * |res.boxes| as real &&
              // the placement
              (forall i :: 0 <= i < |res.pallets| ==>
                 GreedyChoice(res.pallets, i, c, pallets[0].dimensions)) &&
              (forall i :: 0 <= i < |res.boxes| ==>
                 res.boxes[i].weight == BOX_WEIGHT && res.boxes[i].dimensions in BoxOrientations(bd)) &&
              PairwiseDisjoint(res.pallets + res.boxes) &&
              (forall it: Item :: it in res.pallets + res.boxes ==> WithinContainer(it.position, it.dimensions, c)) &&
              // the two scans, run with the first pallet's size only
              res.pallets == PalletScan(c, pallets[0].dimensions) &&
              res.boxes == BoxScan(c, bd, res.pallets)
  {
    if |pallets| == 0 {
      return Err(NO_PALLETS);
    }
    var base := pallets[0].dimensions;
    var placedPallets, placedBoxes := PlaceLoad(c, base, bd);
    r := Ok(Metrics(c, placedPallets, placedBoxes));
  }
}
