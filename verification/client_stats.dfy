/** The figures the client shows beside the packing: the volume of a box, of
    the whole order, the share of the container it fills, and how many boxes
    the container takes (`client/src/lib/packing-algorithm.ts`, lines
    151-230). `calculateVolume` is `Types.Volume`. */
module ClientStats {
  import opened Types
  import opened Arith
  import opened Lattice
  import opened ClientPacking
  import opened ClientProperties

  lemma VolumeSign(d: Dimensions)
    ensures NonNegative(d) ==> Volume(d) >= 0.0
    ensures Positive(d) ==> Volume(d) > 0.0
  {
    if NonNegative(d) {
      MulNonNegative(d.width, d.height);
      MulNonNegative(d.width * d.height, d.depth);
    }
    if Positive(d) {
      MulPositive(d.width, d.height);
      MulPositive(d.width * d.height, d.depth);
    }
  }

  /** `calculateTotalVolume`: the volume of `quantity` boxes. It is zero
      exactly when there are no boxes or the box is flat, and positive for
      a positive box and quantity. */
  function TotalVolume(b: Dimensions, quantity: int): (v: real)
    ensures v == 0.0 <==> quantity == 0 || b.width == 0.0 || b.height == 0.0 || b.depth == 0.0
    ensures Positive(b) && quantity > 0 ==> v > 0.0
  {
    ProductZero(Volume(b), quantity as real);
    Volume(b) * quantity as real
  }

  /** The summed volume of placed items. */
  function PackedVolume(items: seq<PackedItem>): real
  {
    if |items| == 0 then 0.0
    else PackedVolume(items[..|items| - 1]) + Volume(items[|items| - 1].dimensions)
  }

  /** Pallets are standard pallets and boxes are of size `b`. */
  predicate KindsSized(items: seq<PackedItem>, b: Dimensions)
  {
    forall i :: 0 <= i < |items| ==>
      (items[i].kind == PalletItem ==> items[i].dimensions == STANDARD_PALLET) &&
      (items[i].kind == BoxItem ==> items[i].dimensions == b)
  }

  /** The volume of `boxes` boxes of size `b` and `pallets` standard pallets. */
  function LoadVolume(b: Dimensions, boxes: int, pallets: int): real
  {
    Volume(b) * boxes as real + Volume(STANDARD_PALLET) * pallets as real
  }

  /** More boxes and more pallets never make a smaller load. */
  lemma LoadVolumeMonotone(b: Dimensions, q1: int, q2: int, n1: int, n2: int)
    requires NonNegative(b) && q1 <= q2 && n1 <= n2
    ensures LoadVolume(b, q1, n1) <= LoadVolume(b, q2, n2)
  {
    VolumeSign(b);
    VolumeSign(STANDARD_PALLET);
    ScaleMonotone(Volume(b), q1 as real, q2 as real);
    ScaleMonotone(Volume(STANDARD_PALLET), n1 as real, n2 as real);
  }

  /** One more box, or one more pallet, adds its volume to the load. */
  lemma LoadVolumeStep(b: Dimensions, boxes: int, pallets: int)
    ensures LoadVolume(b, boxes + 1, pallets) == LoadVolume(b, boxes, pallets) + Volume(b)
    ensures LoadVolume(b, boxes, pallets + 1) == LoadVolume(b, boxes, pallets) + Volume(STANDARD_PALLET)
  {
    var vp, vb := Volume(STANDARD_PALLET), Volume(b);
    assert vp * (pallets as real + 1.0) == vp * pallets as real + vp;
    assert vb * (boxes as real + 1.0) == vb * boxes as real + vb;
  }

  lemma {:induction false} VolumeByKind(items: seq<PackedItem>, b: Dimensions)
    requires KindsSized(items, b)
    ensures PackedVolume(items) == LoadVolume(b, Count(items, BoxItem), Count(items, PalletItem))
  {
    if |items| > 0 {
      var init := items[..|items| - 1];
      assert forall i :: 0 <= i < |init| ==> init[i] == items[i];
      VolumeByKind(init, b);
      LoadVolumeStep(b, Count(init, BoxItem), Count(init, PalletItem));
    }
  }

  /** The volume `calculateFillPercentage` counts: the boxes ordered, plus,
      in pallet mode, the pallets they need (lines 177-194, where lines
      183-189 repeat the pallet arithmetic of `packBoxes`). */
  function CountedVolume(c: Dimensions, b: Dimensions, quantity: int, usePallets: bool): (v: real)
    requires ValidInput(c, b, quantity) && (usePallets ==> FitsPallet(b))
    ensures v >= TotalVolume(b, quantity) >= 0.0
  {
    VolumeSign(b);
    MulNonNegative(Volume(b), quantity as real);
    var boxes := TotalVolume(b, quantity);
    if usePallets then
      var needed := PlanOf(c, b, quantity).needed;
      MulNonNegative(Volume(STANDARD_PALLET), needed as real);
      LoadVolume(b, quantity, needed)
    else
      boxes
  }

  /** `calculateFillPercentage`: the counted volume as a percentage of the
      container's, capped at 100. */
  function FillPercentage(c: Dimensions, b: Dimensions, quantity: int, usePallets: bool): (r: real)
    requires ValidInput(c, b, quantity) && (usePallets ==> FitsPallet(b)) && Volume(c) > 0.0
    ensures CappedShare(r, CountedVolume(c, b, quantity, usePallets), Volume(c))
  {
    CappedPercent(CountedVolume(c, b, quantity, usePallets), Volume(c))
  }

  /** `r` is `part` as a percentage of `whole`, capped at 100: it is 100
      exactly when the part is at least the whole, and the exact share
      otherwise. */
  predicate CappedShare(r: real, part: real, whole: real)
  {
    && 0.0 <= r <= 100.0
    && (r == 100.0 <==> part >= whole)
    && (r < 100.0 ==> r * whole == part * 100.0)
  }

  /** `Math.min(100, part / whole * 100)`: the share of a positive whole in
      percent, capped at 100. */
  function CappedPercent(part: real, whole: real): (r: real)
    requires part >= 0.0 && whole > 0.0
    ensures CappedShare(r, part, whole)
  {
    ShareOfWhole(part, whole);
    Min(100.0, part / whole * 100.0)
  }

  /** Percent of a positive whole: non-negative, and at least 100 exactly
      when the part is at least the whole. */
  lemma ShareOfWhole(part: real, whole: real)
    requires part >= 0.0 && whole > 0.0
    ensures part / whole * 100.0 >= 0.0
    ensures part / whole * 100.0 >= 100.0 <==> part >= whole
    ensures part / whole * 100.0 * whole == part * 100.0
  {
    var q := part / whole;
    assert q * whole == part;
    if q < 1.0 {
      assert (1.0 - q) * whole > 0.0;
    } else {
      MulNonNegative(q - 1.0, whole);
    }
  }

  /** Ordering more boxes never lowers the fill percentage. */
  lemma FillMonotone(c: Dimensions, b: Dimensions, q1: int, q2: int, usePallets: bool)
    requires ValidInput(c, b, q1) && ValidInput(c, b, q2) && q1 <= q2
    requires (usePallets ==> FitsPallet(b)) && Volume(c) > 0.0
    ensures FillPercentage(c, b, q1, usePallets) <= FillPercentage(c, b, q2, usePallets)
  {
    var v1, v2 := CountedVolume(c, b, q1, usePallets), CountedVolume(c, b, q2, usePallets);
    CountedVolumeMonotone(c, b, q1, q2, usePallets);
    var V := Volume(c);
    ShareOfWhole(v1, V);
    ShareOfWhole(v2, V);
    DivMonotone(v1, v2, V);
  }

  /** Ordering more boxes never lowers the counted volume. */
  lemma CountedVolumeMonotone(c: Dimensions, b: Dimensions, q1: int, q2: int, usePallets: bool)
    requires ValidInput(c, b, q1) && ValidInput(c, b, q2) && q1 <= q2
    requires usePallets ==> FitsPallet(b)
    ensures CountedVolume(c, b, q1, usePallets) <= CountedVolume(c, b, q2, usePallets)
  {
    VolumeSign(b);
    if usePallets {
      PalletVolumeMonotone(c, b, q1, q2);
    } else {
      ScaleMonotone(Volume(b), q1 as real, q2 as real);
    }
  }

  lemma PalletVolumeMonotone(c: Dimensions, b: Dimensions, q1: int, q2: int)
    requires ValidInput(c, b, q1) && ValidInput(c, b, q2) && q1 <= q2 && FitsPallet(b)
    ensures CountedVolume(c, b, q1, true) <= CountedVolume(c, b, q2, true)
  {
    PalletsNeededMonotone(c, b, q1, q2);
    LoadVolumeMonotone(b, q1, q2, PlanOf(c, b, q1).needed, PlanOf(c, b, q2).needed);
  }

  lemma ScaleMonotone(v: real, x: real, y: real)
    requires v >= 0.0 && x <= y
    ensures v * x <= v * y
  {
    MulNonNegative(v, y - x);
    assert v * (y - x) == v * y - v * x;
  }

  /** More boxes never need fewer pallets. */
  lemma PalletsNeededMonotone(c: Dimensions, b: Dimensions, q1: int, q2: int)
    requires ValidInput(c, b, q1) && ValidInput(c, b, q2) && q1 <= q2 && FitsPallet(b)
    ensures PlanOf(c, b, q1).needed <= PlanOf(c, b, q2).needed
  {
    var p1, p2 := PlanOf(c, b, q1), PlanOf(c, b, q2);
    assert p1.perPallet == p2.perPallet;
    NeededMonotone(q1, q2, p1.needed, p2.needed, p1.perPallet);
  }

  lemma DivMonotone(a: real, b: real, w: real)
    requires a <= b && w > 0.0
    ensures a / w * 100.0 <= b / w * 100.0
  {
    assert (b / w - a / w) * w == b - a;
  }

  /** `Math.ceil(q / k)` grows with `q`. */
  lemma NeededMonotone(q1: int, q2: int, n1: int, n2: int, k: int)
    requires k > 0 && q1 <= q2
    requires (n1 - 1) * k < q1 && q2 <= n2 * k
    ensures n1 <= n2
  {
    if n1 > n2 {
      MulMonotone(n2, n1 - 1, k);
      assert false;
    }
  }

  /** With pallets off, when the container takes the whole order, the fill
      percentage is the packed boxes' share of the container. */
  lemma DirectFillMeasuresPacking(c: Dimensions, b: Dimensions, quantity: int)
    requires ValidInput(c, b, quantity) && quantity <= Cells(GridOf(c, b))
    ensures CountedVolume(c, b, quantity, false) == PackedVolume(DirectPacking(c, b, quantity))
  {
    var r := DirectPacking(c, b, quantity);
    DirectInside(c, b, quantity);
    VolumeByKind(r, b);
    CountUniform(r, BoxItem);
  }

  /** With pallets on, when the container takes every pallet needed, the fill
      percentage is the packed pallets' and boxes' share of the container. */
  lemma PalletFillMeasuresPacking(c: Dimensions, b: Dimensions, quantity: int)
    requires ValidInput(c, b, quantity) && FitsPallet(b)
    requires PlanOf(c, b, quantity).toPack == PlanOf(c, b, quantity).needed
    ensures CountedVolume(c, b, quantity, true) == PackedVolume(PalletPacking(c, b, quantity))
  {
    var r := PalletPacking(c, b, quantity);
    FullPalletLoad(c, b, quantity);
    VolumeByKind(r, b);
  }

  /** When every pallet needed fits, the load holds that many standard
      pallets and the whole order of boxes. */
  lemma FullPalletLoad(c: Dimensions, b: Dimensions, quantity: int)
    requires ValidInput(c, b, quantity) && FitsPallet(b)
    requires PlanOf(c, b, quantity).toPack == PlanOf(c, b, quantity).needed
    ensures var r := PalletPacking(c, b, quantity);
            && KindsSized(r, b)
            && Count(r, PalletItem) == PlanOf(c, b, quantity).needed
            && Count(r, BoxItem) == quantity
  {
    var r := PalletPacking(c, b, quantity);
    PalletsStacked(c, b, quantity);
    StackedSized(r, b, PlanOf(c, b, quantity));
    PalletCounts(c, b, quantity);
    AllPlacedIffPalletsFit(c, b, quantity);
  }

  lemma StackedSized(items: seq<PackedItem>, b: Dimensions, plan: PalletPlan)
    requires Stacked(items, b, plan)
    ensures KindsSized(items, b)
  {
    forall i | 0 <= i < |items|
      ensures (items[i].kind == PalletItem ==> items[i].dimensions == STANDARD_PALLET)
      ensures (items[i].kind == BoxItem ==> items[i].dimensions == b)
    {
      assert StackedAt(items, i, b, plan);
    }
  }

  /** `calculateMaxBoxes`: the grid capacity with pallets off; with pallets
      on, the boxes on every pallet the container takes. */
  function MaxBoxes(c: Dimensions, b: Dimensions, usePallets: bool): (n: int)
    requires NonNegative(c) && Positive(b)
    ensures n >= 0
    ensures usePallets && !FitsPallet(b) ==> n == 0
  {
    if !usePallets then
      var g := GridOf(c, b);
      PositiveProduct(g.nx, g.ny, g.nz);
      g.nx * g.ny * g.nz
    else
      var onPallet := GridOf(STANDARD_PALLET, b);
      var inContainer := GridOf(c, STANDARD_PALLET);
      PositiveProduct(inContainer.nx, inContainer.ny, inContainer.nz);
      PositiveProduct(inContainer.nx * inContainer.ny * inContainer.nz, onPallet.nx, onPallet.nz);
      NoCellFits(onPallet.nx, b.width, STANDARD_PALLET.width);
      NoCellFits(onPallet.nz, b.depth, STANDARD_PALLET.depth);
      inContainer.nx * inContainer.ny * inContainer.nz * (onPallet.nx * onPallet.nz)
  }

  /** No cell of width `w` fits in a length `a` shorter than `w`. */
  lemma NoCellFits(k: int, w: real, a: real)
    requires k >= 0 && w > 0.0 && k as real * w <= a
    ensures a < w ==> k == 0
  {
    if k >= 1 {
      ScaleMonotone(w, 1.0, k as real);
    }
  }

  lemma PositiveProduct(a: int, b: int, c: int)
    requires a >= 0 && b >= 0 && c >= 0
    ensures a * b * c >= 0 && a * (b * c) >= 0
  {
    assert a * b >= 0;
  }

  /** Both packers place `min(quantity, calculateMaxBoxes)` boxes: the
      capacity the statistics report is the one the packers obey. */
  lemma PlacedIsCapped(c: Dimensions, b: Dimensions, quantity: int, usePallets: bool)
    requires ValidInput(c, b, quantity) && (usePallets ==> FitsPallet(b))
    ensures !usePallets ==> |DirectPacking(c, b, quantity)| == IntMin(quantity, MaxBoxes(c, b, false))
    ensures usePallets ==>
              Count(PalletPacking(c, b, quantity), BoxItem) == IntMin(quantity, MaxBoxes(c, b, true))
  {
    if usePallets {
      var plan := PlanOf(c, b, quantity);
      PalletCounts(c, b, quantity);
      var maxPallets := plan.across * plan.layers * plan.deep;
      assert MaxBoxes(c, b, true) == maxPallets * plan.perPallet;
      PositiveProduct(plan.across, plan.layers, plan.deep);
      if plan.needed <= maxPallets {
        MulMonotone(plan.needed, maxPallets, plan.perPallet);
      } else {
        MulMonotone(maxPallets, plan.needed, plan.perPallet);
      }
    }
  }
}
