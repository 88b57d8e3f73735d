/** What the client packer's output satisfies. Everything is stated on the
    reference definitions `DirectPacking` and `PalletPacking`, which
    `PackBoxes` is proved to compute. */
module ClientProperties {
  import opened Types
  import opened Arith
  import opened Geometry
  import opened Lattice
  import opened ClientPacking

  /** `it` lies inside a container of size `c` whose corner is the origin. */
  predicate InsideContainer(it: PackedItem, c: Dimensions)
  {
    && 0.0 <= it.position.x && it.position.x + it.dimensions.width <= c.width
    && 0.0 <= it.position.y && it.position.y + it.dimensions.height <= c.height
    && 0.0 <= it.position.z && it.position.z + it.dimensions.depth <= c.depth
  }

  /** `p` comes before `q` in the order of the direct loops: z first, then y, then x. */
  predicate ZMajorBefore(p: Position, q: Position)
  {
    p.z < q.z || (p.z == q.z && (p.y < q.y || (p.y == q.y && p.x < q.x)))
  }

  /** Cell `k` of a row of `n > k` cells of width `w`, which starts at `x`,
      lies in `[0, total]` when the row does. Whole cell numbers are passed
      as reals. */
  lemma CellInside(k: real, n: real, w: real, total: real, x: real)
    requires 0.0 <= k && k + 1.0 <= n && w > 0.0 && n * w <= total && x == k * w
    ensures 0.0 <= x && x + w <= total
  {
    MulNonNegative(k, w);
    MulNonNegative(n - k - 1.0, w);
    assert (n - k - 1.0) * w == n * w - k * w - w;
  }

  /** Cell `i`, starting at `x`, ends where or before cell `j > i`, starting
      at `y`, begins. */
  lemma CellBefore(i: real, j: real, w: real, x: real, y: real)
    requires i + 1.0 <= j && w > 0.0 && x == i * w && y == j * w
    ensures x + w <= y
  {
    MulNonNegative(j - i - 1.0, w);
    assert (j - i - 1.0) * w == j * w - i * w - w;
  }

  // ---------------------------------------------------------------------
  // Direct packing
  // ---------------------------------------------------------------------

  /** The box in cell `n` of a grid of `cells` boxes lies inside the container. */
  lemma DirectCellInside(c: Dimensions, b: Dimensions, g: Grid, n: nat)
    requires Positive(b) && g.nx > 0 && g.ny > 0 && n < Cells(g)
    requires g.nx as real * b.width <= c.width
    requires g.ny as real * b.height <= c.height
    requires g.nz as real * b.depth <= c.depth
    ensures InsideContainer(DirectItem(b, DigitsOf(n, g.nx, g.ny)), c)
  {
    var d := DigitsOf(n, g.nx, g.ny);
    var p := DirectItem(b, d).position;
    SlowBound(n, g.nx, g.ny, g.nz);
    CellInside(d.fast as real, g.nx as real, b.width, c.width, p.x);
    CellInside(d.mid as real, g.ny as real, b.height, c.height, p.y);
    CellInside(d.slow as real, g.nz as real, b.depth, c.depth, p.z);
  }

  /** Every box of the direct packer has the input size and lies inside the container. */
  lemma DirectInside(c: Dimensions, b: Dimensions, quantity: int)
    requires ValidInput(c, b, quantity)
    ensures forall i :: 0 <= i < |DirectPacking(c, b, quantity)| ==>
              && DirectPacking(c, b, quantity)[i].kind == BoxItem
              && DirectPacking(c, b, quantity)[i].dimensions == b
              && InsideContainer(DirectPacking(c, b, quantity)[i], c)
  {
    var r := DirectPacking(c, b, quantity);
    var g := GridOf(c, b);
    if |r| > 0 {
      PositiveFactors(g.nx, g.ny, g.nz);
      forall i | 0 <= i < |r|
        ensures r[i].kind == BoxItem && r[i].dimensions == b && InsideContainer(r[i], c)
      {
        DirectCellInside(c, b, g, i);
      }
    }
  }

  /** Boxes in cells `a` before `d` come in z-major order and do not intersect. */
  lemma CellsApart(a: Digits, d: Digits, b: Dimensions)
    requires Positive(b) && LexBefore(a, d)
    ensures ZMajorBefore(DirectItem(b, a).position, DirectItem(b, d).position)
    ensures !CheckIntersection(PackedSpace(DirectItem(b, a)), PackedSpace(DirectItem(b, d)))
  {
    var p, q := DirectItem(b, a).position, DirectItem(b, d).position;
    if a.slow < d.slow {
      CellBefore(a.slow as real, d.slow as real, b.depth, p.z, q.z);
    } else if a.mid < d.mid {
      CellBefore(a.mid as real, d.mid as real, b.height, p.y, q.y);
    } else {
      CellBefore(a.fast as real, d.fast as real, b.width, p.x, q.x);
    }
  }

  /** The direct packer lists its boxes z-major, then by y, then by x, and no
      two of them intersect. */
  lemma DirectOrderedAndDisjoint(c: Dimensions, b: Dimensions, quantity: int)
    requires ValidInput(c, b, quantity)
    ensures forall i, j :: 0 <= i < j < |DirectPacking(c, b, quantity)| ==>
              ZMajorBefore(DirectPacking(c, b, quantity)[i].position, DirectPacking(c, b, quantity)[j].position)
    ensures forall i, j :: 0 <= i < j < |DirectPacking(c, b, quantity)| ==>
              !CheckIntersection(PackedSpace(DirectPacking(c, b, quantity)[i]),
                                 PackedSpace(DirectPacking(c, b, quantity)[j]))
  {
    var r := DirectPacking(c, b, quantity);
    var g := GridOf(c, b);
    if |r| > 0 {
      PositiveFactors(g.nx, g.ny, g.nz);
      forall i, j | 0 <= i < j < |r|
        ensures ZMajorBefore(r[i].position, r[j].position)
        ensures !CheckIntersection(PackedSpace(r[i]), PackedSpace(r[j]))
      {
        DigitsOrdered(i, j, g.nx, g.ny);
        CellsApart(DigitsOf(i, g.nx, g.ny), DigitsOf(j, g.nx, g.ny), b);
      }
    }
  }

  // ---------------------------------------------------------------------
  // Pallet packing: counts
  // ---------------------------------------------------------------------

  /** `boxesRemaining` in closed form: what `p` full pallets leave of the quantity. */
  lemma {:induction false} RemainingClosedForm(quantity: int, perPallet: int, p: nat)
    requires quantity >= 0 && perPallet >= 0
    ensures Remaining(quantity, perPallet, p) == IntMax(0, quantity - p * perPallet)
  {
    if p > 0 {
      RemainingClosedForm(quantity, perPallet, p - 1);
      assert (p - 1) * perPallet == p * perPallet - perPallet;
    }
  }

  /** The first `k` pallet groups hold `k` pallets, and their boxes plus the
      boxes still remaining make up the quantity. */
  lemma {:induction false} LoadsCount(b: Dimensions, plan: PalletPlan, quantity: int, k: nat)
    requires plan.across > 0 && plan.deep > 0 && plan.perRow > 0
    ensures Count(PalletLoads(b, plan, quantity, k), PalletItem) == k
    ensures Count(PalletLoads(b, plan, quantity, k), BoxItem) + Remaining(quantity, plan.perPallet, k) == quantity
  {
    if k > 0 {
      var before := PalletLoads(b, plan, quantity, k - 1);
      var group := PalletGroup(b, plan, quantity, k - 1);
      LoadsCount(b, plan, quantity, k - 1);
      var boxes := group[1..];
      assert group == [group[0]] + boxes;
      CountUniform([group[0]], PalletItem);
      CountUniform(boxes, BoxItem);
      CountConcat([group[0]], boxes, PalletItem);
      CountConcat([group[0]], boxes, BoxItem);
      CountConcat(before, group, PalletItem);
      CountConcat(before, group, BoxItem);
    }
  }

  /** The pallet packer places `palletsToPack` pallets and
      `min(quantity, palletsToPack * boxesPerPallet)` boxes. */
  lemma PalletCounts(c: Dimensions, b: Dimensions, quantity: int)
    requires ValidInput(c, b, quantity) && FitsPallet(b)
    ensures Count(PalletPacking(c, b, quantity), PalletItem) == PlanOf(c, b, quantity).toPack
    ensures Count(PalletPacking(c, b, quantity), BoxItem) ==
            IntMin(quantity, PlanOf(c, b, quantity).toPack * PlanOf(c, b, quantity).perPallet)
  {
    var plan := PlanOf(c, b, quantity);
    if plan.across > 0 && plan.deep > 0 {
      LoadsCount(b, plan, quantity, plan.toPack);
      RemainingClosedForm(quantity, plan.perPallet, plan.toPack);
    }
  }

  lemma MulMonotone(a: int, a': int, k: int)
    requires a <= a' && k >= 0
    ensures a * k <= a' * k
  {
    assert a' * k - a * k == (a' - a) * k;
  }

  /** Every box is placed exactly when the container takes every pallet needed. */
  lemma AllPlacedIffPalletsFit(c: Dimensions, b: Dimensions, quantity: int)
    requires ValidInput(c, b, quantity) && FitsPallet(b)
    ensures Count(PalletPacking(c, b, quantity), BoxItem) == quantity <==>
            PlanOf(c, b, quantity).toPack == PlanOf(c, b, quantity).needed
  {
    var plan := PlanOf(c, b, quantity);
    PalletCounts(c, b, quantity);
    if plan.toPack < plan.needed {
      MulMonotone(plan.toPack, plan.needed - 1, plan.perPallet);
    }
  }

  // ---------------------------------------------------------------------
  // Pallet packing: where pallets and boxes go
  // ---------------------------------------------------------------------

  /** `pos` is a slot of the plan's pallet grid: `across` wide, `deep` deep and
      `layers` high. */
  ghost predicate PalletSlot(pos: Position, plan: PalletPlan)
  {
    exists d :: InGrid(d, plan.across, plan.deep) && d.slow < plan.layers && pos == PalletPosition(plan, d)
  }

  /** `box` rests on the top face of `pallet`, within its footprint. */
  predicate OnPallet(box: PackedItem, pallet: PackedItem)
  {
    && box.position.y == pallet.position.y + pallet.dimensions.height
    && pallet.position.x <= box.position.x
    && box.position.x + box.dimensions.width <= pallet.position.x + pallet.dimensions.width
    && pallet.position.z <= box.position.z
    && box.position.z + box.dimensions.depth <= pallet.position.z + pallet.dimensions.depth
  }

  /** Item `i` is a standard pallet in a slot of the grid, or a box of size
      `b` on an earlier pallet. */
  ghost predicate StackedAt(items: seq<PackedItem>, i: int, b: Dimensions, plan: PalletPlan)
    requires 0 <= i < |items|
  {
    if items[i].kind == PalletItem then
      items[i].dimensions == STANDARD_PALLET && PalletSlot(items[i].position, plan)
    else
      items[i].dimensions == b &&
      exists j :: 0 <= j < i && items[j].kind == PalletItem && OnPallet(items[i], items[j])
  }

  ghost predicate Stacked(items: seq<PackedItem>, b: Dimensions, plan: PalletPlan)
  {
    forall i :: 0 <= i < |items| ==> StackedAt(items, i, b, plan)
  }

  /** `m / n < rows` for `m < n * rows`. */
  lemma QuotientBound(m: nat, n: int, rows: int)
    requires n > 0 && m < n * rows
    ensures m / n < rows
  {
    assert n * (m / n) <= m;
    if m / n >= rows {
      MulMonotone(rows, m / n, n);
      assert false;
    }
  }

  /** Box `m` of a full pallet load lies on the pallet's footprint. */
  lemma BoxOnPalletFits(b: Dimensions, plan: PalletPlan, pallet: PackedItem, m: nat)
    requires Positive(b) && pallet.dimensions == STANDARD_PALLET
    requires plan.perRow >= 1 && plan.rows >= 1 && m < plan.perRow * plan.rows
    requires plan.perRow as real * b.width <= STANDARD_PALLET.width
    requires plan.rows as real * b.depth <= STANDARD_PALLET.depth
    ensures OnPallet(BoxOnPallet(b, pallet.position, plan.perRow, m), pallet)
  {
    QuotientBound(m, plan.perRow, plan.rows);
    var offset := BoxOnPallet(b, Position(0.0, 0.0, 0.0), plan.perRow, m).position;
    CellInside((m % plan.perRow) as real, plan.perRow as real, b.width, STANDARD_PALLET.width, offset.x);
    CellInside((m / plan.perRow) as real, plan.rows as real, b.depth, STANDARD_PALLET.depth, offset.z);
  }

  /** Plan facts the stacking argument relies on. */
  predicate StackPlan(b: Dimensions, plan: PalletPlan)
  {
    && Positive(b) && plan.across > 0 && plan.deep > 0
    && plan.perRow >= 1 && plan.rows >= 1 && plan.perPallet == plan.perRow * plan.rows
    && plan.perRow as real * b.width <= STANDARD_PALLET.width
    && plan.rows as real * b.depth <= STANDARD_PALLET.depth
  }

  /** Every item of group `p` is stacked when the items before it are. */
  lemma GroupStacked(b: Dimensions, plan: PalletPlan, quantity: int, before: seq<PackedItem>, p: nat)
    requires StackPlan(b, plan) && p < plan.across * plan.deep * plan.layers
    requires Stacked(before, b, plan)
    ensures Stacked(before + PalletGroup(b, plan, quantity, p), b, plan)
  {
    var group := PalletGroup(b, plan, quantity, p);
    var items := before + group;
    var d := DigitsOf(p, plan.across, plan.deep);
    SlowBound(p, plan.across, plan.deep, plan.layers);
    var n := |before|;
    assert forall j :: 0 <= j < n ==> items[j] == before[j];
    forall i | 0 <= i < |items| ensures StackedAt(items, i, b, plan) {
      if i < n {
        assert StackedAt(before, i, b, plan);
      } else if i == n {
        assert items[i].position == PalletPosition(plan, d);
      } else {
        var m := i - n - 1;
        assert items[i] == BoxOnPallet(b, items[n].position, plan.perRow, m);
        BoxOnPalletFits(b, plan, items[n], m);
      }
    }
  }

  lemma {:induction false} LoadsStacked(b: Dimensions, plan: PalletPlan, quantity: int, k: nat)
    requires StackPlan(b, plan) && k <= plan.across * plan.deep * plan.layers
    ensures Stacked(PalletLoads(b, plan, quantity, k), b, plan)
  {
    if k > 0 {
      LoadsStacked(b, plan, quantity, k - 1);
      GroupStacked(b, plan, quantity, PalletLoads(b, plan, quantity, k - 1), k - 1);
    }
  }

  /** Every pallet stands in a slot of the pallet grid and every box rests on
      an earlier pallet, within its footprint. */
  lemma PalletsStacked(c: Dimensions, b: Dimensions, quantity: int)
    requires ValidInput(c, b, quantity) && FitsPallet(b)
    ensures Stacked(PalletPacking(c, b, quantity), b, PlanOf(c, b, quantity))
  {
    var plan := PlanOf(c, b, quantity);
    if plan.across > 0 && plan.deep > 0 {
      SwapLastFactors(plan.across, plan.layers, plan.deep);
      LoadsStacked(b, plan, quantity, plan.toPack);
    }
  }

  /** A slot of the pallet grid lies in the grid's floor plan, and its layer
      ends at or below `layers` pitches from the floor. */
  lemma SlotInGrid(plan: PalletPlan, pos: Position)
    requires PalletSlot(pos, plan) && plan.pitch > 0.0
    ensures 0.0 <= pos.x && pos.x + STANDARD_PALLET.width <= plan.across as real * STANDARD_PALLET.width
    ensures 0.0 <= pos.z && pos.z + STANDARD_PALLET.depth <= plan.deep as real * STANDARD_PALLET.depth
    ensures 0.0 <= pos.y && pos.y + plan.pitch <= plan.layers as real * plan.pitch
  {
    var d :| InGrid(d, plan.across, plan.deep) && d.slow < plan.layers && pos == PalletPosition(plan, d);
    var w, h, l := plan.across as real * STANDARD_PALLET.width, plan.layers as real * plan.pitch,
                   plan.deep as real * STANDARD_PALLET.depth;
    CellInside(d.fast as real, plan.across as real, STANDARD_PALLET.width, w, pos.x);
    CellInside(d.mid as real, plan.deep as real, STANDARD_PALLET.depth, l, pos.z);
    CellInside(d.slow as real, plan.layers as real, plan.pitch, h, pos.y);
  }

  /** `it` stands on the floor plan of container `c`, at or above the floor. */
  predicate OnFloorPlan(it: PackedItem, c: Dimensions)
  {
    && 0.0 <= it.position.x && it.position.x + it.dimensions.width <= c.width
    && 0.0 <= it.position.z && it.position.z + it.dimensions.depth <= c.depth
    && 0.0 <= it.position.y
  }

  /** Stacked items of a pallet grid that fits the container's floor plan
      stand on that floor plan; when the grid's layers, pitches included, fit
      under the ceiling, they lie inside the container. */
  lemma StackedInside(items: seq<PackedItem>, c: Dimensions, b: Dimensions, plan: PalletPlan)
    requires Stacked(items, b, plan) && plan.pitch == STANDARD_PALLET.height + b.height && b.height > 0.0
    requires plan.across as real * STANDARD_PALLET.width <= c.width
    requires plan.deep as real * STANDARD_PALLET.depth <= c.depth
    ensures forall i :: 0 <= i < |items| ==> OnFloorPlan(items[i], c)
    ensures plan.layers as real * plan.pitch <= c.height ==>
              forall i :: 0 <= i < |items| ==> InsideContainer(items[i], c)
  {
    forall i | 0 <= i < |items|
      ensures OnFloorPlan(items[i], c)
      ensures plan.layers as real * plan.pitch <= c.height ==> InsideContainer(items[i], c)
    {
      assert StackedAt(items, i, b, plan);
      if items[i].kind == PalletItem {
        SlotInGrid(plan, items[i].position);
      } else {
        var j :| 0 <= j < i && items[j].kind == PalletItem && OnPallet(items[i], items[j]);
        assert StackedAt(items, j, b, plan);
        SlotInGrid(plan, items[j].position);
      }
    }
  }

  /** Every pallet and every box of the pallet packer stands on the
      container's floor plan. Nothing bounds them from above: see
      `PalletPackingInside`. */
  lemma PalletPackingOnFloorPlan(c: Dimensions, b: Dimensions, quantity: int)
    requires ValidInput(c, b, quantity) && FitsPallet(b)
    ensures forall i :: 0 <= i < |PalletPacking(c, b, quantity)| ==>
              OnFloorPlan(PalletPacking(c, b, quantity)[i], c)
  {
    PalletsStacked(c, b, quantity);
    StackedInside(PalletPacking(c, b, quantity), c, b, PlanOf(c, b, quantity));
  }

  /** The layers are `pitch` apart, not a pallet height apart as counted: when
      that many layers of pallet-plus-box still fit under the ceiling, every
      pallet and every box lies inside the container. `LayersCanOverflowHeight`
      shows a container where they do not. */
  lemma PalletPackingInside(c: Dimensions, b: Dimensions, quantity: int)
    requires ValidInput(c, b, quantity) && FitsPallet(b)
    requires PlanOf(c, b, quantity).layers as real * (STANDARD_PALLET.height + b.height) <= c.height
    ensures forall i :: 0 <= i < |PalletPacking(c, b, quantity)| ==>
              InsideContainer(PalletPacking(c, b, quantity)[i], c)
  {
    PalletsStacked(c, b, quantity);
    StackedInside(PalletPacking(c, b, quantity), c, b, PlanOf(c, b, quantity));
  }

  // ---------------------------------------------------------------------
  // Pallet packing: no two items overlap
  // ---------------------------------------------------------------------

  /** No two items of `items` intersect. */
  predicate NoOverlap(items: seq<PackedItem>)
  {
    forall i, j :: 0 <= i < j < |items| ==> !CheckIntersection(PackedSpace(items[i]), PackedSpace(items[j]))
  }

  /** The room of pallet slot `d`: the pallet's footprint, one layer pitch high. */
  function SlotCell(plan: PalletPlan, d: Digits): Space
  {
    SpaceOf(PalletPosition(plan, d), Dimensions(STANDARD_PALLET.width, plan.pitch, STANDARD_PALLET.depth))
  }

  /** Spaces inside rooms that one axis separates do not intersect. */
  lemma InSeparateRooms(p: Space, q: Space, a: Space, d: Space)
    requires InsideSpace(p, a) && InsideSpace(q, d)
    requires a.x + a.width <= d.x || a.y + a.height <= d.y || a.z + a.depth <= d.z
    ensures !CheckIntersection(p, q) && !CheckIntersection(q, p)
  {
  }

  /** Rooms of earlier slots end, along some axis, before the rooms of later ones. */
  lemma SlotsApart(plan: PalletPlan, g: nat, h: nat)
    requires plan.across > 0 && plan.deep > 0 && plan.pitch > 0.0 && g < h
    ensures var a, d := SlotCell(plan, DigitsOf(g, plan.across, plan.deep)), SlotCell(plan, DigitsOf(h, plan.across, plan.deep));
            a.x + a.width <= d.x || a.y + a.height <= d.y || a.z + a.depth <= d.z
  {
    var a, d := DigitsOf(g, plan.across, plan.deep), DigitsOf(h, plan.across, plan.deep);
    var p, q := PalletPosition(plan, a), PalletPosition(plan, d);
    DigitsOrdered(g, h, plan.across, plan.deep);
    if a.slow < d.slow {
      CellBefore(a.slow as real, d.slow as real, plan.pitch, p.y, q.y);
    } else if a.mid < d.mid {
      CellBefore(a.mid as real, d.mid as real, STANDARD_PALLET.depth, p.z, q.z);
    } else {
      CellBefore(a.fast as real, d.fast as real, STANDARD_PALLET.width, p.x, q.x);
    }
  }

  /** Plan facts the overlap argument relies on. */
  predicate RoomPlan(b: Dimensions, plan: PalletPlan)
  {
    StackPlan(b, plan) && plan.pitch == STANDARD_PALLET.height + b.height
  }

  /** Every item of group `p` lies in the room of slot `p`. */
  lemma GroupInRoom(b: Dimensions, plan: PalletPlan, quantity: int, p: nat)
    requires RoomPlan(b, plan)
    ensures var g := PalletGroup(b, plan, quantity, p);
            forall k :: 0 <= k < |g| ==>
              InsideSpace(PackedSpace(g[k]), SlotCell(plan, DigitsOf(p, plan.across, plan.deep)))
  {
    var g := PalletGroup(b, plan, quantity, p);
    GroupShape(b, plan, quantity, p);
    forall k | 1 <= k < |g|
      ensures InsideSpace(PackedSpace(g[k]), SlotCell(plan, DigitsOf(p, plan.across, plan.deep)))
    {
      BoxOnPalletFits(b, plan, g[0], k - 1);
    }
  }

  /** Boxes `m1 < m2` of one pallet do not intersect: a later row, or a later
      place in the same row. */
  lemma BoxesApart(b: Dimensions, pos: Position, n: int, m1: nat, m2: nat)
    requires Positive(b) && n > 0 && m1 < m2
    ensures !CheckIntersection(PackedSpace(BoxOnPallet(b, pos, n, m1)), PackedSpace(BoxOnPallet(b, pos, n, m2)))
  {
    var p, q := BoxOnPallet(b, pos, n, m1).position, BoxOnPallet(b, pos, n, m2).position;
    DigitsOrdered(m1, m2, n, 1);
    if m1 / n < m2 / n {
      CellBefore((m1 / n) as real, (m2 / n) as real, b.depth, p.z - pos.z, q.z - pos.z);
    } else {
      CellBefore((m1 % n) as real, (m2 % n) as real, b.width, p.x - pos.x, q.x - pos.x);
    }
  }

  /** Within a group the boxes sit on the pallet's top face and apart from each other. */
  lemma GroupNoOverlap(b: Dimensions, plan: PalletPlan, quantity: int, p: nat)
    requires RoomPlan(b, plan)
    ensures NoOverlap(PalletGroup(b, plan, quantity, p))
  {
    var g := PalletGroup(b, plan, quantity, p);
    GroupShape(b, plan, quantity, p);
    forall i, j | 0 <= i < j < |g| ensures !CheckIntersection(PackedSpace(g[i]), PackedSpace(g[j])) {
      if i > 0 {
        BoxesApart(b, g[0].position, plan.perRow, i - 1, j - 1);
      }
    }
  }

  /** `it` lies in the room of one of the first `k` slots. */
  ghost predicate InEarlierRoom(it: PackedItem, plan: PalletPlan, k: nat)
    requires plan.across > 0 && plan.deep > 0
  {
    exists g: nat :: g < k && InsideSpace(PackedSpace(it), SlotCell(plan, DigitsOf(g, plan.across, plan.deep)))
  }

  /** Adding group `k` to the first `k` groups keeps them free of overlaps. */
  lemma AddGroupNoOverlap(b: Dimensions, plan: PalletPlan, quantity: int, before: seq<PackedItem>, k: nat)
    requires RoomPlan(b, plan)
    requires NoOverlap(before) && forall i :: 0 <= i < |before| ==> InEarlierRoom(before[i], plan, k)
    ensures var items := before + PalletGroup(b, plan, quantity, k);
            NoOverlap(items) && forall i :: 0 <= i < |items| ==> InEarlierRoom(items[i], plan, k + 1)
  {
    var g := PalletGroup(b, plan, quantity, k);
    var items := before + g;
    var n := |before|;
    var room := SlotCell(plan, DigitsOf(k, plan.across, plan.deep));
    GroupInRoom(b, plan, quantity, k);
    GroupNoOverlap(b, plan, quantity, k);
    forall i, j | 0 <= i < j < |items| ensures !CheckIntersection(PackedSpace(items[i]), PackedSpace(items[j])) {
      if j < n {
        assert items[i] == before[i] && items[j] == before[j];
      } else if i >= n {
        assert items[i] == g[i - n] && items[j] == g[j - n];
      } else {
        assert items[i] == before[i] && items[j] == g[j - n];
        var h: nat :| h < k && InsideSpace(PackedSpace(before[i]), SlotCell(plan, DigitsOf(h, plan.across, plan.deep)));
        SlotsApart(plan, h, k);
        InSeparateRooms(PackedSpace(items[i]), PackedSpace(items[j]), SlotCell(plan, DigitsOf(h, plan.across, plan.deep)), room);
      }
    }
    forall i | 0 <= i < |items| ensures InEarlierRoom(items[i], plan, k + 1) {
      if i < n {
        assert items[i] == before[i] && InEarlierRoom(before[i], plan, k);
      } else {
        assert items[i] == g[i - n];
        assert InsideSpace(PackedSpace(items[i]), room);
      }
    }
  }

  lemma {:induction false} LoadsNoOverlap(b: Dimensions, plan: PalletPlan, quantity: int, k: nat)
    requires RoomPlan(b, plan)
    ensures NoOverlap(PalletLoads(b, plan, quantity, k))
    ensures forall i :: 0 <= i < |PalletLoads(b, plan, quantity, k)| ==>
              InEarlierRoom(PalletLoads(b, plan, quantity, k)[i], plan, k)
  {
    if k > 0 {
      LoadsNoOverlap(b, plan, quantity, k - 1);
      AddGroupNoOverlap(b, plan, quantity, PalletLoads(b, plan, quantity, k - 1), k - 1);
    }
  }

  /** No two items of the pallet packer, pallets or boxes, intersect. */
  lemma PalletPackingNoOverlap(c: Dimensions, b: Dimensions, quantity: int)
    requires ValidInput(c, b, quantity) && FitsPallet(b)
    ensures NoOverlap(PalletPacking(c, b, quantity))
  {
    var plan := PlanOf(c, b, quantity);
    if plan.across > 0 && plan.deep > 0 {
      LoadsNoOverlap(b, plan, quantity, plan.toPack);
    }
  }
}
