/** The browser-side packer of `client/src/lib/packing-algorithm.ts`: boxes
    either on a regular floor-division grid in the container, or on a grid of
    fixed 80 × 14 × 120 pallets, each pallet carrying one layer of boxes.

    Inputs are those the input fields admit: unsigned decimals for sizes and
    an unsigned integer quantity. Box edges must be positive, since the
    source divides by them. */
module ClientPacking {
  import opened Types
  import opened Arith
  import opened Geometry
  import opened Lattice

  /** `type: 'box' | 'pallet'`. */
  datatype ItemKind = BoxItem | PalletItem

  datatype PackedItem = PackedItem(position: Position, dimensions: Dimensions, kind: ItemKind)

  /** The fixed pallet, in centimetres. */
  const STANDARD_PALLET: Dimensions := Dimensions(80.0, 14.0, 120.0)

  /** Sizes as the input fields admit them: no negative edge. */
  predicate NonNegative(d: Dimensions)
  {
    d.width >= 0.0 && d.height >= 0.0 && d.depth >= 0.0
  }

  /** What every entry point of the client packer may assume of its inputs. */
  predicate ValidInput(c: Dimensions, b: Dimensions, quantity: int)
  {
    NonNegative(c) && Positive(b) && quantity >= 0
  }

  /** A box no wider and no deeper than the pallet: at least one fits on it. */
  predicate FitsPallet(b: Dimensions)
  {
    b.width <= STANDARD_PALLET.width && b.depth <= STANDARD_PALLET.depth
  }

  function PackedSpace(it: PackedItem): Space
  {
    SpaceOf(it.position, it.dimensions)
  }

  /** How many items of `kind` the sequence holds. */
  function Count(items: seq<PackedItem>, kind: ItemKind): nat
  {
    if |items| == 0 then 0
    else Count(items[..|items| - 1], kind) + (if items[|items| - 1].kind == kind then 1 else 0)
  }

  lemma {:induction false} CountConcat(a: seq<PackedItem>, b: seq<PackedItem>, kind: ItemKind)
    ensures Count(a + b, kind) == Count(a, kind) + Count(b, kind)
  {
    if |b| > 0 {
      var b' := b[..|b| - 1];
      assert (a + b)[..|a + b| - 1] == a + b';
      assert (a + b)[|a + b| - 1] == b[|b| - 1];
      CountConcat(a, b', kind);
    } else {
      assert a + b == a;
    }
  }

  lemma {:induction false} CountUniform(items: seq<PackedItem>, kind: ItemKind)
    requires forall i :: 0 <= i < |items| ==> items[i].kind == kind
    ensures Count(items, kind) == |items|
    ensures forall other :: other != kind ==> Count(items, other) == 0
  {
    if |items| > 0 {
      var init := items[..|items| - 1];
      assert forall i :: 0 <= i < |init| ==> init[i] == items[i];
      CountUniform(init, kind);
    }
  }

  // ---------------------------------------------------------------------
  // Direct packing (`packBoxesDirectly`)
  // ---------------------------------------------------------------------

  /** Whole cells of a `cell`-sized grid along each axis of `c`. */
  datatype Grid = Grid(nx: int, ny: int, nz: int)

  function GridOf(c: Dimensions, cell: Dimensions): (g: Grid)
    requires Positive(cell)
    ensures g.nx as real * cell.width <= c.width < (g.nx + 1) as real * cell.width
    ensures g.ny as real * cell.height <= c.height < (g.ny + 1) as real * cell.height
    ensures g.nz as real * cell.depth <= c.depth < (g.nz + 1) as real * cell.depth
    ensures NonNegative(c) ==> g.nx >= 0 && g.ny >= 0 && g.nz >= 0
  {
    FloorCellsFit(c.width, cell.width);
    FloorCellsMaximal(c.width, cell.width);
    FloorCellsFit(c.height, cell.height);
    FloorCellsMaximal(c.height, cell.height);
    FloorCellsFit(c.depth, cell.depth);
    FloorCellsMaximal(c.depth, cell.depth);
    Grid(Floor(c.width / cell.width), Floor(c.height / cell.height), Floor(c.depth / cell.depth))
  }

  function Cells(g: Grid): int
  {
    g.nx * g.ny * g.nz
  }

  /** The box in grid cell `d` (`d.fast` along x, `d.mid` along y, `d.slow` along z). */
  function DirectItem(b: Dimensions, d: Digits): PackedItem
  {
    PackedItem(Position(d.fast as real * b.width, d.mid as real * b.height, d.slow as real * b.depth), b, BoxItem)
  }

  /** Reference definition of the direct packer: the first
      `min(quantity, cells)` cells of the grid, x fastest, then y, then z. */
  function DirectPacking(c: Dimensions, b: Dimensions, quantity: int): (r: seq<PackedItem>)
    requires ValidInput(c, b, quantity)
    ensures |r| == IntMin(quantity, Cells(GridOf(c, b)))
  {
    var g := GridOf(c, b);
    if g.nx > 0 && g.ny > 0 && g.nz > 0 then
      seq(IntMin(quantity, Cells(g)), n requires 0 <= n => DirectItem(b, DigitsOf(n, g.nx, g.ny)))
    else
      []
  }

  /** `items` are the first `|items|` cells of grid `g`. */
  predicate DirectPrefix(items: seq<PackedItem>, b: Dimensions, g: Grid)
    requires g.nx > 0 && g.ny > 0
  {
    forall n :: 0 <= n < |items| ==> items[n] == DirectItem(b, DigitsOf(n, g.nx, g.ny))
  }

  /** The `x` loop of `packBoxesDirectly` along row `y` of layer `z`. */
  method DirectRow(b: Dimensions, g: Grid, toPack: int, items: seq<PackedItem>, y: int, z: int)
    returns (items': seq<PackedItem>)
    requires g.nx > 0 && g.ny > 0 && 0 <= y < g.ny && 0 <= z
    requires DirectPrefix(items, b, g) && |items| == IndexOf(0, y, z, g.nx, g.ny) < toPack
    ensures DirectPrefix(items', b, g)
    ensures |items'| == IntMin(toPack, IndexOf(0, y, z, g.nx, g.ny) + g.nx)
  {
    items' := items;
    var x := 0;
    while x < g.nx && |items'| < toPack
      invariant 0 <= x <= g.nx
      invariant |items'| == |items| + x <= toPack
      invariant DirectPrefix(items', b, g)
    {
      var position := Position(x as real * b.width, y as real * b.height, z as real * b.depth);
      DirectExtend(items', b, g, x, y, z);
      items' := items' + [PackedItem(position, b, BoxItem)];
      x := x + 1;
    }
  }

  /** Appending cell `(x, y, z)` at its own iteration number keeps the prefix. */
  lemma DirectExtend(items: seq<PackedItem>, b: Dimensions, g: Grid, x: int, y: int, z: int)
    requires g.nx > 0 && g.ny > 0 && 0 <= x < g.nx && 0 <= y < g.ny && 0 <= z
    requires DirectPrefix(items, b, g) && |items| == IndexOf(x, y, z, g.nx, g.ny)
    ensures DirectPrefix(items + [DirectItem(b, Digits(x, y, z))], b, g)
  {
    DigitsOfIndex(x, y, z, g.nx, g.ny);
    var items' := items + [DirectItem(b, Digits(x, y, z))];
    forall n | 0 <= n < |items'|
      ensures items'[n] == DirectItem(b, DigitsOf(n, g.nx, g.ny))
    {
      if n < |items| {
        assert items'[n] == items[n];
      }
    }
  }

  /** The `y` loop of `packBoxesDirectly` over layer `z`. */
  method DirectLayer(b: Dimensions, g: Grid, toPack: int, items: seq<PackedItem>, z: int)
    returns (items': seq<PackedItem>)
    requires g.nx > 0 && g.ny > 0 && 0 <= z
    requires DirectPrefix(items, b, g) && |items| == IndexOf(0, 0, z, g.nx, g.ny) < toPack
    ensures DirectPrefix(items', b, g)
    ensures |items'| == IntMin(toPack, IndexOf(0, 0, z + 1, g.nx, g.ny))
  {
    items' := items;
    var y := 0;
    while y < g.ny && |items'| < toPack
      invariant 0 <= y <= g.ny
      invariant |items'| == IntMin(toPack, IndexOf(0, y, z, g.nx, g.ny))
      invariant DirectPrefix(items', b, g)
    {
      items' := DirectRow(b, g, toPack, items', y, z);
      NextRow(y, z, g.nx, g.ny);
      y := y + 1;
    }
    RowsFillPlane(y, z, g.nx, g.ny);
  }

  /** `packBoxesDirectly`: three nested loops, z outermost and x innermost,
      each stopping once `min(quantity, maxBoxes)` boxes are placed. */
  method PackBoxesDirectly(container: Dimensions, box: Dimensions, quantity: int)
    returns (items: seq<PackedItem>)
    requires ValidInput(container, box, quantity)
    ensures items == DirectPacking(container, box, quantity)
  {
    var g := GridOf(container, box);
    var maxBoxes := g.nx * g.ny * g.nz;
    var boxesToPack := IntMin(quantity, maxBoxes);
    if boxesToPack > 0 {
      PositiveFactors(g.nx, g.ny, g.nz);
    }
    items := [];
    var z := 0;
    while z < g.nz && |items| < boxesToPack
      invariant 0 <= z <= IntMax(0, g.nz)
      invariant boxesToPack <= 0 ==> items == []
      invariant boxesToPack > 0 ==>
                  DirectPrefix(items, box, g) && |items| == IntMin(boxesToPack, IndexOf(0, 0, z, g.nx, g.ny))
    {
      items := DirectLayer(box, g, boxesToPack, items, z);
      z := z + 1;
    }
    if boxesToPack > 0 {
      PlanesFillGrid(z, g.nx, g.ny, g.nz);
      assert |items| == boxesToPack;
    }
  }

  // ---------------------------------------------------------------------
  // Pallet packing (`packBoxes` with `usePallets`)
  // ---------------------------------------------------------------------

  /** The constants `packBoxes` derives before its pallet loops. */
  datatype PalletPlan = PalletPlan(
    perRow: int,      // boxesPerPalletX
    rows: int,        // boxesPerPalletZ
    perPallet: int,   // boxesPerPallet
    needed: int,      // palletsNeeded
    across: int,      // palletsPerContainerX
    layers: int,      // palletsPerContainerY
    deep: int,        // palletsPerContainerZ
    toPack: int,      // palletsToPack
    pitch: real)      // vertical distance between pallet layers

  lemma MulPositive(a: real, b: real)
    requires a > 0.0 && b > 0.0
    ensures a * b > 0.0
  {
  }

  lemma DivSelf(x: real)
    requires x != 0.0
    ensures x / x == 1.0
  {
  }

  lemma CastMul(a: int, b: int)
    ensures (a * b) as real == a as real * b as real
  {
  }

  /** `n >= x` units of size `k` cover `total = x * k`. */
  lemma CeilCoversTotal(x: real, k: real, n: real, total: real)
    requires k > 0.0 && x <= n && x * k == total
    ensures n * k >= total
  {
    MulNonNegative(n - x, k);
    assert (n - x) * k == n * k - x * k;
  }

  /** `n - 1 < x` units of size `k` fall short of `total = x * k`. */
  lemma OneLessFallsShort(x: real, k: real, n: real, total: real)
    requires k > 0.0 && n < x + 1.0 && x * k == total
    ensures (n - 1.0) * k < total
  {
    MulPositive(x - (n - 1.0), k);
    assert (x - (n - 1.0)) * k == x * k - (n - 1.0) * k;
  }

  /** `Math.ceil(q / k)` pallets of `k` boxes hold `q` boxes, and one fewer does not. */
  lemma CeilCovers(q: int, k: int)
    requires q >= 0 && k > 0
    ensures Ceil(q as real / k as real) >= 0
    ensures (Ceil(q as real / k as real) - 1) * k < q <= Ceil(q as real / k as real) * k
  {
    var x := q as real / k as real;
    var n := Ceil(x);
    assert x * k as real == q as real;
    CeilCoversTotal(x, k as real, n as real, q as real);
    OneLessFallsShort(x, k as real, n as real, q as real);
    CoverInIntegers(n, k, q);
  }

  lemma CoverInIntegers(n: int, k: int, q: int)
    requires (n as real - 1.0) * k as real < q as real <= n as real * k as real
    ensures (n - 1) * k < q <= n * k
  {
    CastMul(n, k);
    CastMul(n - 1, k);
    assert (n - 1) as real == n as real - 1.0;
  }

  /** `Math.ceil(quantity / boxesPerPallet)` (line 46): just enough pallets. */
  function PalletsNeeded(quantity: int, perPallet: int): (n: int)
    requires quantity >= 0 && perPallet >= 1
    ensures n >= 0 && (n - 1) * perPallet < quantity <= n * perPallet
  {
    CeilCovers(quantity, perPallet);
    Ceil(quantity as real / perPallet as real)
  }

  /** The layer pitch of line 65. Its ceiling divides `boxesPerPallet` by
      the very product it was computed as, so it is always 1. */
  function LayerPitch(b: Dimensions, perRow: int, rows: int): (pitch: real)
    requires perRow >= 1 && rows >= 1
    ensures pitch == STANDARD_PALLET.height + b.height
  {
    var perPallet := perRow * rows;
    MulAtLeastOne(perRow, rows);
    DivSelf(perPallet as real);
    STANDARD_PALLET.height + b.height * Ceil(perPallet as real / (perRow * rows) as real) as real
  }

  /** Lines 41-55 and the pitch of line 65: how many boxes fit on a pallet,
      how many pallets are needed and how many fit in the container. */
  function PlanOf(c: Dimensions, b: Dimensions, quantity: int): (p: PalletPlan)
    requires ValidInput(c, b, quantity) && FitsPallet(b)
    // a pallet carries one layer of perRow × rows boxes, and no more fit on it
    ensures p.perRow >= 1 && p.rows >= 1 && p.perPallet == p.perRow * p.rows
    ensures p.perRow as real * b.width <= STANDARD_PALLET.width < (p.perRow + 1) as real * b.width
    ensures p.rows as real * b.depth <= STANDARD_PALLET.depth < (p.rows + 1) as real * b.depth
    // just enough pallets for the quantity
    ensures p.needed >= 0
    ensures (p.needed - 1) * p.perPallet < quantity <= p.needed * p.perPallet
    // the pallet grid of the container
    ensures p.across >= 0 && p.layers >= 0 && p.deep >= 0
    ensures p.across as real * STANDARD_PALLET.width <= c.width < (p.across + 1) as real * STANDARD_PALLET.width
    ensures p.layers as real * STANDARD_PALLET.height <= c.height < (p.layers + 1) as real * STANDARD_PALLET.height
    ensures p.deep as real * STANDARD_PALLET.depth <= c.depth < (p.deep + 1) as real * STANDARD_PALLET.depth
    ensures p.toPack == IntMin(p.needed, p.across * p.layers * p.deep) && p.toPack >= 0
    // layers are stacked a pallet plus a box apart
    ensures p.pitch == STANDARD_PALLET.height + b.height
  {
    var onPallet := GridOf(STANDARD_PALLET, b);
    var perRow := onPallet.nx;
    var rows := onPallet.nz;
    AtLeastOneCell(perRow, STANDARD_PALLET.width, b.width);
    AtLeastOneCell(rows, STANDARD_PALLET.depth, b.depth);
    var perPallet := perRow * rows;
    MulAtLeastOne(perRow, rows);
    var needed := PalletsNeeded(quantity, perPallet);
    var inContainer := GridOf(c, STANDARD_PALLET);
    var maxPallets := inContainer.nx * inContainer.ny * inContainer.nz;
    var toPack := IntMin(needed, maxPallets);
    var pitch := LayerPitch(b, perRow, rows);
    PalletPlan(perRow, rows, perPallet, needed, inContainer.nx, inContainer.ny, inContainer.nz, toPack, pitch)
  }

  /** Where pallet `d` stands: `d.fast` across x, `d.mid` along z, `d.slow` up y. */
  function PalletPosition(plan: PalletPlan, d: Digits): Position
  {
    Position(d.fast as real * STANDARD_PALLET.width, d.slow as real * plan.pitch, d.mid as real * STANDARD_PALLET.depth)
  }

  /** Box `k` on the pallet at `pallet`: `k % perRow` across, `k / perRow` deep,
      resting on the pallet's top face. */
  function BoxOnPallet(b: Dimensions, pallet: Position, perRow: int, k: nat): PackedItem
    requires perRow > 0
  {
    PackedItem(
      Position(pallet.x + (k % perRow) as real * b.width,
               pallet.y + STANDARD_PALLET.height,
               pallet.z + (k / perRow) as real * b.depth),
      b, BoxItem)
  }

  /** `Math.min(boxesPerPallet, boxesRemaining)`, as far as the loops place it. */
  function Loaded(remaining: int, perPallet: int): nat
  {
    IntMax(0, IntMin(perPallet, remaining))
  }

  /** `boxesRemaining` once `p` pallets are loaded. */
  function Remaining(quantity: int, perPallet: int, p: nat): int
  {
    if p == 0 then quantity
    else
      var r := Remaining(quantity, perPallet, p - 1);
      r - Loaded(r, perPallet)
  }

  /** Pallet `p` followed by the boxes loaded onto it. */
  function PalletGroup(b: Dimensions, plan: PalletPlan, quantity: int, p: nat): seq<PackedItem>
    requires plan.across > 0 && plan.deep > 0 && plan.perRow > 0
  {
    var pos := PalletPosition(plan, DigitsOf(p, plan.across, plan.deep));
    [PackedItem(pos, STANDARD_PALLET, PalletItem)]
      + seq(Loaded(Remaining(quantity, plan.perPallet, p), plan.perPallet),
            k requires 0 <= k => BoxOnPallet(b, pos, plan.perRow, k))
  }

  /** Pallet group `p` item by item: the pallet, then box `k` at index `1 + k`. */
  lemma GroupShape(b: Dimensions, plan: PalletPlan, quantity: int, p: nat)
    requires plan.across > 0 && plan.deep > 0 && plan.perRow > 0
    ensures var g := PalletGroup(b, plan, quantity, p);
            var pos := PalletPosition(plan, DigitsOf(p, plan.across, plan.deep));
            && |g| == 1 + Loaded(Remaining(quantity, plan.perPallet, p), plan.perPallet)
            && g[0] == PackedItem(pos, STANDARD_PALLET, PalletItem)
            && forall k :: 1 <= k < |g| ==> g[k] == BoxOnPallet(b, pos, plan.perRow, k - 1)
  {
  }

  /** The first `count` pallet groups, in loop order. */
  function PalletLoads(b: Dimensions, plan: PalletPlan, quantity: int, count: nat): seq<PackedItem>
    requires plan.across > 0 && plan.deep > 0 && plan.perRow > 0
  {
    if count == 0 then []
    else PalletLoads(b, plan, quantity, count - 1) + PalletGroup(b, plan, quantity, count - 1)
  }

  /** Reference definition of the pallet packer: `palletsToPack` groups. */
  function PalletPacking(c: Dimensions, b: Dimensions, quantity: int): seq<PackedItem>
    requires ValidInput(c, b, quantity) && FitsPallet(b)
  {
    var plan := PlanOf(c, b, quantity);
    if plan.across > 0 && plan.deep > 0 then PalletLoads(b, plan, quantity, plan.toPack) else []
  }

  /** The items after pallet `p` and its first `placed` boxes. */
  predicate BoxesSoFar(items: seq<PackedItem>, before: seq<PackedItem>, b: Dimensions, pos: Position,
                       perRow: int, placed: nat)
    requires perRow > 0
  {
    && |items| == |before| + 1 + placed
    && items[..|before|] == before
    && items[|before|] == PackedItem(pos, STANDARD_PALLET, PalletItem)
    && forall k :: 0 <= k < placed ==> items[|before| + 1 + k] == BoxOnPallet(b, pos, perRow, k)
  }

  /** The `bx` loop: one row `bz` of boxes on a pallet. */
  method PalletBoxRow(b: Dimensions, plan: PalletPlan, ghost before: seq<PackedItem>, pos: Position,
                      items: seq<PackedItem>, remaining: int, placed: int, forThis: int, bz: int)
    returns (items': seq<PackedItem>, remaining': int, placed': int)
    requires plan.perRow > 0 && 0 <= bz
    requires placed == plan.perRow * bz < forThis
    requires BoxesSoFar(items, before, b, pos, plan.perRow, placed)
    ensures placed' == IntMin(forThis, plan.perRow * bz + plan.perRow)
    ensures remaining' == remaining - (placed' - placed)
    ensures BoxesSoFar(items', before, b, pos, plan.perRow, placed')
  {
    items', remaining', placed' := items, remaining, placed;
    var bx := 0;
    while bx < plan.perRow && placed' < forThis
      invariant 0 <= bx <= plan.perRow
      invariant placed' == placed + bx <= forThis
      invariant remaining' == remaining - bx
      invariant BoxesSoFar(items', before, b, pos, plan.perRow, placed')
    {
      DivModUnique(placed', plan.perRow, bz, bx);
      var boxPosition := Position(pos.x + bx as real * b.width,
                                  pos.y + STANDARD_PALLET.height,
                                  pos.z + bz as real * b.depth);
      items' := items' + [PackedItem(boxPosition, b, BoxItem)];
      placed' := placed' + 1;
      remaining' := remaining' - 1;
      bx := bx + 1;
    }
  }

  /** Lines 70-97: pushes pallet `p` at `pos`, then its boxes row by row. */
  method LoadPallet(b: Dimensions, plan: PalletPlan, quantity: int, items: seq<PackedItem>,
                    remaining: int, p: nat, pos: Position)
    returns (items': seq<PackedItem>, remaining': int)
    requires plan.across > 0 && plan.deep > 0
    requires plan.perRow >= 1 && plan.rows >= 1 && plan.perPallet == plan.perRow * plan.rows
    requires pos == PalletPosition(plan, DigitsOf(p, plan.across, plan.deep))
    requires remaining == Remaining(quantity, plan.perPallet, p)
    ensures items' == items + PalletGroup(b, plan, quantity, p)
    ensures remaining' == Remaining(quantity, plan.perPallet, p + 1)
  {
    items' := items + [PackedItem(pos, STANDARD_PALLET, PalletItem)];
    var boxesForThisPallet := IntMin(plan.perPallet, remaining);
    var boxesPlaced := 0;
    remaining' := remaining;
    var bz := 0;
    while bz < plan.rows && boxesPlaced < boxesForThisPallet
      invariant 0 <= bz <= plan.rows
      invariant boxesPlaced == IntMax(0, IntMin(boxesForThisPallet, plan.perRow * bz))
      invariant remaining' == remaining - boxesPlaced
      invariant BoxesSoFar(items', items, b, pos, plan.perRow, boxesPlaced)
    {
      assert plan.perRow * bz >= 0;
      items', remaining', boxesPlaced :=
        PalletBoxRow(b, plan, items, pos, items', remaining', boxesPlaced, boxesForThisPallet, bz);
      assert plan.perRow * (bz + 1) == plan.perRow * bz + plan.perRow;
      bz := bz + 1;
    }
    assert boxesPlaced == Loaded(remaining, plan.perPallet);
    assert items' == items + PalletGroup(b, plan, quantity, p);
  }

  /** Plan facts the pallet loops rely on. */
  predicate LoopPlan(plan: PalletPlan)
  {
    && plan.across > 0 && plan.deep > 0 && plan.layers > 0
    && plan.perRow >= 1 && plan.rows >= 1 && plan.perPallet == plan.perRow * plan.rows
    && 0 <= plan.toPack <= plan.across * plan.layers * plan.deep
  }

  /** The `px` loop: pallets across row `pz` of layer `py`. */
  method PalletRow(b: Dimensions, plan: PalletPlan, quantity: int, items: seq<PackedItem>,
                   remaining: int, count: nat, pz: int, py: int)
    returns (items': seq<PackedItem>, remaining': int, count': nat)
    requires LoopPlan(plan) && 0 <= pz < plan.deep && 0 <= py
    requires count == IndexOf(0, pz, py, plan.across, plan.deep) < plan.toPack
    requires items == PalletLoads(b, plan, quantity, count)
    requires remaining == Remaining(quantity, plan.perPallet, count)
    ensures count' == IntMin(plan.toPack, count + plan.across)
    ensures items' == PalletLoads(b, plan, quantity, count')
    ensures remaining' == Remaining(quantity, plan.perPallet, count')
  {
    items', remaining', count' := items, remaining, count;
    var px := 0;
    while px < plan.across && count' < plan.toPack
      invariant 0 <= px <= plan.across
      invariant count' == count + px <= plan.toPack
      invariant items' == PalletLoads(b, plan, quantity, count')
      invariant remaining' == Remaining(quantity, plan.perPallet, count')
    {
      PalletCell(plan, count, px, pz, py);
      var position := Position(px as real * STANDARD_PALLET.width,
                               py as real * plan.pitch,
                               pz as real * STANDARD_PALLET.depth);
      items', remaining' := LoadPallet(b, plan, quantity, items', remaining', count', position);
      count' := count' + 1;
      px := px + 1;
    }
  }

  /** Pallet `px` of the row starting at pallet number `count` stands where
      the reference numbering puts pallet `count + px`. */
  lemma PalletCell(plan: PalletPlan, count: int, px: int, pz: int, py: int)
    requires plan.across > 0 && plan.deep > 0
    requires 0 <= px < plan.across && 0 <= pz < plan.deep && 0 <= py
    requires count == IndexOf(0, pz, py, plan.across, plan.deep)
    ensures count + px >= 0
    ensures PalletPosition(plan, DigitsOf(count + px, plan.across, plan.deep)) ==
            Position(px as real * STANDARD_PALLET.width, py as real * plan.pitch, pz as real * STANDARD_PALLET.depth)
  {
    DigitsOfIndex(px, pz, py, plan.across, plan.deep);
  }

  /** The `pz` loop: rows of pallets in layer `py`. */
  method PalletLayer(b: Dimensions, plan: PalletPlan, quantity: int, items: seq<PackedItem>,
                     remaining: int, count: nat, py: int)
    returns (items': seq<PackedItem>, remaining': int, count': nat)
    requires LoopPlan(plan) && 0 <= py
    requires count == IndexOf(0, 0, py, plan.across, plan.deep) < plan.toPack
    requires items == PalletLoads(b, plan, quantity, count)
    requires remaining == Remaining(quantity, plan.perPallet, count)
    ensures count' == IntMin(plan.toPack, IndexOf(0, 0, py + 1, plan.across, plan.deep))
    ensures items' == PalletLoads(b, plan, quantity, count')
    ensures remaining' == Remaining(quantity, plan.perPallet, count')
  {
    items', remaining', count' := items, remaining, count;
    var pz := 0;
    while pz < plan.deep && count' < plan.toPack
      invariant 0 <= pz <= plan.deep
      invariant count' == IntMin(plan.toPack, IndexOf(0, pz, py, plan.across, plan.deep))
      invariant items' == PalletLoads(b, plan, quantity, count')
      invariant remaining' == Remaining(quantity, plan.perPallet, count')
    {
      items', remaining', count' := PalletRow(b, plan, quantity, items', remaining', count', pz, py);
      NextRow(pz, py, plan.across, plan.deep);
      pz := pz + 1;
    }
    RowsFillPlane(pz, py, plan.across, plan.deep);
  }

  /** The pallet branch of `packBoxes` (lines 41-104). */
  method PackOnPallets(container: Dimensions, box: Dimensions, quantity: int)
    returns (items: seq<PackedItem>)
    requires ValidInput(container, box, quantity) && FitsPallet(box)
    ensures items == PalletPacking(container, box, quantity)
  {
    var plan := PlanOf(container, box, quantity);
    if plan.toPack > 0 {
      PositiveFactors(plan.across, plan.layers, plan.deep);
    }
    items := [];
    var boxesRemaining := quantity;
    var palletCount: nat := 0;
    var py := 0;
    while py < plan.layers && palletCount < plan.toPack
      invariant 0 <= py <= IntMax(0, plan.layers)
      invariant plan.toPack <= 0 ==> items == [] && palletCount == 0
      invariant plan.toPack > 0 ==>
                  && palletCount == IntMin(plan.toPack, IndexOf(0, 0, py, plan.across, plan.deep))
                  && items == PalletLoads(box, plan, quantity, palletCount)
                  && boxesRemaining == Remaining(quantity, plan.perPallet, palletCount)
    {
      items, boxesRemaining, palletCount :=
        PalletLayer(box, plan, quantity, items, boxesRemaining, palletCount, py);
      py := py + 1;
    }
    if plan.toPack > 0 {
      PlanesFillGrid(py, plan.across, plan.deep, plan.layers);
      SwapLastFactors(plan.across, plan.layers, plan.deep);
      assert palletCount == plan.toPack;
    }
  }

  /** `packBoxes`: the direct packer when pallets are off, the pallet packer otherwise. */
  method PackBoxes(container: Dimensions, box: Dimensions, quantity: int, usePallets: bool)
    returns (items: seq<PackedItem>)
    requires ValidInput(container, box, quantity)
    requires usePallets ==> FitsPallet(box)
    ensures !usePallets ==> items == DirectPacking(container, box, quantity)
    ensures usePallets ==> items == PalletPacking(container, box, quantity)
  {
    if !usePallets {
      items := PackBoxesDirectly(container, box, quantity);
      return;
    }
    items := PackOnPallets(container, box, quantity);
  }
}
