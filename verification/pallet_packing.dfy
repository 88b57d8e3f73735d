/** The layered pallet placer of `src/utils/palletPacking.ts`: orientation
    enumeration, the placement test `canPlace`, and the greedy scan
    `placePallets` over layers in Y, columns in X and rows in Z. */
module PalletPacking {
  import opened Types
  import opened Geometry
  import opened Sequences
  import opened Arith

  /** Every placed pallet weighs this much, whatever its size. */
  const PALLET_WEIGHT: real := 30.0

  /** `getPalletOrientations`: two standing, two on-side and two on-end
      variants. Entry 3 is `(depth, depth, height)` exactly as the source
      writes it, which is not a rotation of the input unless width = depth. */
  function PalletOrientations(d: Dimensions): (r: seq<Dimensions>)
    ensures |r| == 6 && r[0] == d
  {
    [ Dimensions(d.width, d.height, d.depth),
      Dimensions(d.depth, d.height, d.width),
      Dimensions(d.width, d.depth, d.height),
      Dimensions(d.depth, d.depth, d.height),
      Dimensions(d.height, d.width, d.depth),
      Dimensions(d.height, d.depth, d.width) ]
  }

  lemma PalletOrientationsArePermutations(d: Dimensions)
    ensures forall i :: 0 <= i < 6 && i != 3 ==> IsPermutationOf(PalletOrientations(d)[i], d)
  {
    var os := PalletOrientations(d);
    assert IsPermutationOf(os[0], d);
    assert IsPermutationOf(os[1], d);
    assert IsPermutationOf(os[2], d);
    assert IsPermutationOf(os[4], d);
    assert IsPermutationOf(os[5], d);
  }

  /** The on-side entry `(depth, depth, height)` is a rotation of the input
      exactly when width and depth coincide. */
  lemma MalformedOrientation(d: Dimensions)
    ensures IsPermutationOf(PalletOrientations(d)[3], d) <==> d.width == d.depth
  {
    var o := PalletOrientations(d)[3];
    if d.width != d.depth {
      var lhs := multiset{o.width, o.height, o.depth};
      var rhs := multiset{d.width, d.height, d.depth};
      assert lhs[d.depth] == rhs[d.depth] + 1;
    }
  }

  function WidthOf(d: Dimensions): real
  {
    d.width
  }

  /** The shortest edge: a lower bound for every width and depth an orientation can have. */
  function MinEdge(d: Dimensions): real
  {
    Min(Min(d.width, d.height), d.depth)
  }

  lemma OrientationEdges(base: Dimensions)
    ensures forall o :: o in PalletOrientations(base) ==>
              o.width >= MinEdge(base) && o.depth >= MinEdge(base)
  {
  }

  /** The orientations in the order `placePallets` tries them. */
  function SortedOrientations(base: Dimensions): seq<Dimensions>
  {
    SortBy(PalletOrientations(base), WidthOf)
  }

  /** `canPlace`: inside the container up to EPSILON on every side, and
      clear of every pallet placed so far. */
  function CanPlace(p: Position, d: Dimensions, c: Container, placed: seq<Pallet>): (r: bool)
    ensures r <==> WithinContainer(p, d, c) &&
                   forall i :: 0 <= i < |placed| ==> !CheckIntersection(SpaceOf(p, d), ItemSpace(placed[i]))
  {
    if p.x + d.width > c.dimensions.width + EPSILON ||
       p.y + d.height > c.dimensions.height + EPSILON ||
       p.z + d.depth > c.dimensions.depth + EPSILON ||
       p.x < -EPSILON || p.y < -EPSILON || p.z < -EPSILON
    then false
    else !Any(placed, (q: Pallet) => CheckIntersection(SpaceOf(p, d), ItemSpace(q)))
  }

  /** The test an orientation must pass at a scan position: its far X face is
      within the container width (no tolerance), and `canPlace` holds. */
  predicate PalletFits(p: Position, o: Dimensions, c: Container, placed: seq<Pallet>)
  {
    p.x + o.width <= c.dimensions.width && CanPlace(p, o, c, placed)
  }

  function FitsAt(p: Position, c: Container, placed: seq<Pallet>): Dimensions -> bool
  {
    (o: Dimensions) => PalletFits(p, o, c, placed)
  }

  /** Some orientation of `base` fits at `p`. */
  predicate SomeOrientationFits(p: Position, c: Container, base: Dimensions, placed: seq<Pallet>)
  {
    exists o :: o in PalletOrientations(base) && PalletFits(p, o, c, placed)
  }

  /** `sorted` lists the orientations of `base` narrowest first. */
  ghost predicate TryOrder(sorted: seq<Dimensions>, base: Dimensions)
  {
    |sorted| == 6 && SortedBy(sorted, WidthOf) &&
    forall o :: o in sorted <==> o in PalletOrientations(base)
  }

  /** Every orientation in `sorted` is at least `u` wide and `u` deep: what
      the Z and X loops need to make progress. */
  predicate EdgesAtLeast(sorted: seq<Dimensions>, u: real)
  {
    forall k :: 0 <= k < |sorted| ==> sorted[k].width >= u && sorted[k].depth >= u
  }

  lemma TryOrderEdges(sorted: seq<Dimensions>, base: Dimensions)
    requires TryOrder(sorted, base)
    ensures EdgesAtLeast(sorted, MinEdge(base))
  {
    OrientationEdges(base);
    forall k | 0 <= k < |sorted| ensures sorted[k].width >= MinEdge(base) && sorted[k].depth >= MinEdge(base) {
      assert sorted[k] in sorted;
    }
  }

  lemma SortedOrientationsTryOrder(base: Dimensions)
    ensures TryOrder(SortedOrientations(base), base)
  {
    var sorted := SortedOrientations(base);
    SortByPermutes(PalletOrientations(base), WidthOf);
    SortByIsSorted(PalletOrientations(base), WidthOf);
    forall o ensures o in sorted <==> o in PalletOrientations(base) {
      assert o in sorted <==> o in multiset(sorted);
    }
  }

  /** The orientations of `base` in the order `placePallets` tries them. */
  method OrientationsByWidth(base: Dimensions) returns (sorted: seq<Dimensions>)
    ensures TryOrder(sorted, base)
    ensures sorted == SortedOrientations(base)
  {
    sorted := SortedOrientations(base);
    SortedOrientationsTryOrder(base);
  }

  lemma FirstFitFound(sorted: seq<Dimensions>, p: Position, c: Container, base: Dimensions, placed: seq<Pallet>)
    requires TryOrder(sorted, base)
    ensures FirstIndex(sorted, FitsAt(p, c, placed)) < 6
            <==> SomeOrientationFits(p, c, base, placed)
  {
    var k := FirstIndex(sorted, FitsAt(p, c, placed));
    if k < 6 {
      assert sorted[k] in sorted;
    }
    if SomeOrientationFits(p, c, base, placed) {
      var o :| o in PalletOrientations(base) && PalletFits(p, o, c, placed);
      assert o in sorted;
      var j :| 0 <= j < |sorted| && sorted[j] == o;
      assert FitsAt(p, c, placed)(sorted[j]);
    }
  }

  /** Pallet `i` of `ps` is what the greedy scan puts at its position: weight
      30, an orientation of `base`, passing the fit test against the pallets
      placed before it, and no wider than any other orientation that would
      fit there (the narrowest-first order of the stable width sort). */
  predicate GreedyChoice(ps: seq<Pallet>, i: nat, c: Container, base: Dimensions)
    requires i < |ps|
  {
    ps[i].weight == PALLET_WEIGHT &&
    ps[i].dimensions in PalletOrientations(base) &&
    PalletFits(ps[i].position, ps[i].dimensions, c, ps[..i]) &&
    forall o :: o in PalletOrientations(base) && PalletFits(ps[i].position, o, c, ps[..i]) ==>
      ps[i].dimensions.width <= o.width
  }

  lemma GreedyChoicePrefix(ps: seq<Pallet>, qs: seq<Pallet>, i: nat, c: Container, base: Dimensions)
    requires i < |ps| <= |qs| && qs[..|ps|] == ps
    ensures GreedyChoice(qs, i, c, base) <==> GreedyChoice(ps, i, c, base)
  {
    assert qs[..i] == ps[..i];
    assert qs[i] == ps[i];
  }

  /** Greedy choices never intersect an earlier pallet. */
  lemma GreedyChoicesAreDisjoint(ps: seq<Pallet>, c: Container, base: Dimensions)
    requires forall i :: 0 <= i < |ps| ==> GreedyChoice(ps, i, c, base)
    ensures PairwiseDisjoint(ps)
  {
    forall i, j | 0 <= j < i < |ps|
      ensures !CheckIntersection(ItemSpace(ps[i]), ItemSpace(ps[j]))
    {
      assert GreedyChoice(ps, i, c, base);
      assert ps[..i][j] == ps[j];
    }
  }

  /** No pallet of `ps` sits at column `x` of layer `y`. */
  predicate NoPalletAt(ps: seq<Pallet>, x: real, y: real)
  {
    forall i :: 0 <= i < |ps| ==> !(ps[i].position.x == x && ps[i].position.y == y)
  }

  function AtColumn(x: real, y: real): Pallet -> bool
  {
    (p: Pallet) => p.position.x == x && p.position.y == y
  }

  /** The first pallet `find` meets at column `(x, y)` is the one the current
      column placed at `z = 0`, when no earlier pallet sits at that column. */
  lemma FindColumnStart(ps: seq<Pallet>, n: nat, x: real, y: real)
    requires n < |ps| && ps[n].position.x == x && ps[n].position.y == y
    ensures NoPalletAt(ps[..n], x, y) ==> Find(ps, AtColumn(x, y)) == Some(ps[n])
  {
    if NoPalletAt(ps[..n], x, y) {
      var k := FirstIndex(ps, AtColumn(x, y));
      assert AtColumn(x, y)(ps[n]);
      assert k <= n;
    }
  }

  /** Appending the first orientation (in sorted order) that fits at `pos`
      keeps every pallet from index `from` on a greedy choice. */
  lemma AppendFirstFit(sorted: seq<Dimensions>, prev: seq<Pallet>, from: nat, pos: Position, c: Container,
                        base: Dimensions, k: nat)
    requires TryOrder(sorted, base)
    requires from <= |prev|
    requires forall i :: from <= i < |prev| ==> GreedyChoice(prev, i, c, base)
    requires k == FirstIndex(sorted, FitsAt(pos, c, prev)) && k < 6
    ensures forall i :: from <= i <= |prev| ==>
              GreedyChoice(prev + [Item(sorted[k], PALLET_WEIGHT, pos)], i, c, base)
  {
    var o := sorted[k];
    var next := prev + [Item(o, PALLET_WEIGHT, pos)];
    assert o in sorted;
    FirstIndexMinimizesKey(sorted, FitsAt(pos, c, prev), WidthOf);
    forall o' | o' in PalletOrientations(base) && PalletFits(pos, o', c, prev)
      ensures o.width <= o'.width
    {
      assert o' in sorted;
      var j :| 0 <= j < |sorted| && sorted[j] == o';
      assert FitsAt(pos, c, prev)(sorted[j]);
    }
    assert next[..|prev|] == prev;
    forall i | from <= i < |prev|
      ensures GreedyChoice(next, i, c, base)
    {
      GreedyChoicePrefix(prev, next, i, c, base);
    }
    assert GreedyChoice(next, |prev|, c, base);
  }

  /** What the Z loop of one column has established after placing the
      pallets `placed'[|placed|..]`, with the row cursor at `z`. */
  predicate ColumnSoFar(placed: seq<Pallet>, placed': seq<Pallet>, x: real, y: real, z: real,
                        c: Container, base: Dimensions)
  {
    |placed| <= |placed'| && placed'[..|placed|] == placed &&
    (z == 0.0 <==> |placed'| == |placed|) &&
    (|placed'| > |placed| ==> placed'[|placed|].position == Position(x, y, 0.0)) &&
    (forall i :: |placed| <= i < |placed'| ==>
       GreedyChoice(placed', i, c, base) &&
       placed'[i].position.x == x && placed'[i].position.y == y &&
       0.0 <= placed'[i].position.z <= c.dimensions.depth - base.depth &&
       placed'[i].position.z < z) &&
    (forall i, j :: |placed| <= i < j < |placed'| ==>
       placed'[i].position.z < placed'[j].position.z)
  }

  /** One step of the Z loop: placing the first orientation that fits at
      `(x, y, z)` keeps `ColumnSoFar`, with the cursor moved by its depth. */
  lemma ColumnStep(sorted: seq<Dimensions>, placed: seq<Pallet>, placed': seq<Pallet>, x: real, y: real,
                   z: real, c: Container, base: Dimensions, k: nat)
    requires TryOrder(sorted, base) && Positive(base)
    requires ColumnSoFar(placed, placed', x, y, z, c, base)
    requires 0.0 <= z <= c.dimensions.depth - base.depth
    requires k == FirstIndex(sorted, FitsAt(Position(x, y, z), c, placed')) && k < 6
    ensures sorted[k].depth >= MinEdge(base) > 0.0
    ensures ColumnSoFar(placed, placed' + [Item(sorted[k], PALLET_WEIGHT, Position(x, y, z))],
                        x, y, z + sorted[k].depth, c, base)
  {
    var o := sorted[k];
    assert o in sorted;
    OrientationEdges(base);
    AppendFirstFit(sorted, placed', |placed|, Position(x, y, z), c, base, k);
    var next := placed' + [Item(o, PALLET_WEIGHT, Position(x, y, z))];
    assert next[..|placed|] == placed'[..|placed|];
  }

  // ---------------------------------------------------------------------
  // The scan as functions: the reference the loops below are proved equal to
  // ---------------------------------------------------------------------

  /** No pallet of `ps` is narrower than `w`; with `w = MinEdge(base)` this
      holds of every orientation of `base`, so each column the scan fills
      moves the X cursor on by at least that much. */
  predicate WidthsAtLeast(ps: seq<Pallet>, w: real)
  {
    forall i :: 0 <= i < |ps| ==> ps[i].dimensions.width >= w
  }

  /** The index of the first orientation of `sorted` that fits at `p`, or
      `|sorted|` when none does: the orientation loop with its `break`. */
  function FirstFit(sorted: seq<Dimensions>, p: Position, c: Container, placed: seq<Pallet>): (k: nat)
    ensures k <= |sorted|
  {
    if |sorted| == 0 then 0
    else if PalletFits(p, sorted[0], c, placed) then 0
    else 1 + FirstFit(sorted[1..], p, c, placed)
  }

  lemma {:induction false} FirstFitIsFirstIndex(sorted: seq<Dimensions>, p: Position, c: Container,
                                                placed: seq<Pallet>)
    ensures FirstFit(sorted, p, c, placed) == FirstIndex(sorted, FitsAt(p, c, placed))
    decreases |sorted|
  {
    if |sorted| > 0 {
      FirstFitIsFirstIndex(sorted[1..], p, c, placed);
    }
  }

  /** Where the Z loop of a column stops: the pallets so far and the row cursor. */
  datatype ColumnEnd = ColumnEnd(placed: seq<Pallet>, z: real)

  /** The pallets `placed'[|placed|..]` stand edge to edge along Z in column
      `(x, y)`: the first at `z0`, each next one where the previous ends, and
      the last one ending at `zEnd` (which is `z0` when there are none). */
  ghost predicate RowsContiguous(placed: seq<Pallet>, placed': seq<Pallet>, x: real, y: real, z0: real, zEnd: real)
  {
    |placed| <= |placed'| && placed'[..|placed|] == placed &&
    (|placed'| == |placed| ==> zEnd == z0) &&
    (|placed'| > |placed| ==>
       placed'[|placed|].position.z == z0 &&
       placed'[|placed'| - 1].position.z + placed'[|placed'| - 1].dimensions.depth == zEnd) &&
    (forall i :: |placed| <= i < |placed'| ==> placed'[i].position.x == x && placed'[i].position.y == y) &&
    forall i, j :: |placed| <= i < j < |placed'| && j == i + 1 ==>
      placed'[i].position.z + placed'[i].dimensions.depth == placed'[j].position.z
  }

  /** The Z loop's exit condition at row cursor `z`: past the last row, or no
      orientation fits there. */
  predicate ColumnStopped(c: Container, base: Dimensions, x: real, y: real, z: real, placed: seq<Pallet>)
  {
    z > c.dimensions.depth - base.depth || !SomeOrientationFits(Position(x, y, z), c, base, placed)
  }

  /** The Z loop of column `(x, y)` from row cursor `z`: while the cursor is
      within the last row, put the first orientation (in `sorted` order) that
      fits there and move the cursor by its depth; stop at the first row where
      none fits. */
  function ColumnFrom(c: Container, base: Dimensions, sorted: seq<Dimensions>, x: real, y: real, z: real,
                      placed: seq<Pallet>): ColumnEnd
    requires Positive(base) && EdgesAtLeast(sorted, MinEdge(base))
    decreases Ticks(c.dimensions.depth - base.depth - z, MinEdge(base)), 1
  {
    if z > c.dimensions.depth - base.depth then ColumnEnd(placed, z)
    else ColumnTurn(c, base, sorted, x, y, z, placed, FirstFit(sorted, Position(x, y, z), c, placed))
  }

  /** One row of the Z loop once the orientation loop has settled on `k`:
      place `sorted[k]` and go on, or stop when `k` is past the end. */
  function ColumnTurn(c: Container, base: Dimensions, sorted: seq<Dimensions>, x: real, y: real, z: real,
                      placed: seq<Pallet>, k: nat): ColumnEnd
    requires Positive(base) && EdgesAtLeast(sorted, MinEdge(base)) && z <= c.dimensions.depth - base.depth
    decreases Ticks(c.dimensions.depth - base.depth - z, MinEdge(base)), 0
  {
    if k < |sorted| then
      SortedEdges(sorted, base, k);
      TicksDecrease(c.dimensions.depth - base.depth - z, sorted[k].depth, MinEdge(base));
      ColumnFrom(c, base, sorted, x, y, z + sorted[k].depth, placed + [Item(sorted[k], PALLET_WEIGHT, Position(x, y, z))])
    else
      ColumnEnd(placed, z)
  }

  /** The row cursor of the Z loop never moves back, and it has moved exactly
      when some pallet was placed. */
  lemma {:induction false} ColumnFromCursor(c: Container, base: Dimensions, sorted: seq<Dimensions>,
                                            x: real, y: real, z: real, placed: seq<Pallet>)
    requires Positive(base) && EdgesAtLeast(sorted, MinEdge(base))
    ensures var r := ColumnFrom(c, base, sorted, x, y, z, placed);
            |r.placed| >= |placed| && r.z >= z && (r.z == z <==> |r.placed| == |placed|)
    decreases Ticks(c.dimensions.depth - base.depth - z, MinEdge(base))
  {
    var pos := Position(x, y, z);
    var k := FirstFit(sorted, pos, c, placed);
    if z <= c.dimensions.depth - base.depth && k < |sorted| {
      var next := placed + [Item(sorted[k], PALLET_WEIGHT, pos)];
      SortedEdges(sorted, base, k);
      TicksDecrease(c.dimensions.depth - base.depth - z, sorted[k].depth, MinEdge(base));
      ColumnFromPlace(c, base, sorted, x, y, z, placed, k);
      ColumnFromCursor(c, base, sorted, x, y, z + sorted[k].depth, next);
    } else {
      ColumnFromStop(c, base, sorted, x, y, z, placed);
    }
  }

  /** The pallets the Z loop adds stand edge to edge along Z from `z` up to
      the final cursor. */
  lemma {:induction false} ColumnFromContiguous(c: Container, base: Dimensions, sorted: seq<Dimensions>,
                                                x: real, y: real, z: real, placed: seq<Pallet>)
    requires Positive(base) && EdgesAtLeast(sorted, MinEdge(base))
    ensures var r := ColumnFrom(c, base, sorted, x, y, z, placed);
            RowsContiguous(placed, r.placed, x, y, z, r.z)
    decreases Ticks(c.dimensions.depth - base.depth - z, MinEdge(base))
  {
    var pos := Position(x, y, z);
    var k := FirstFit(sorted, pos, c, placed);
    if z <= c.dimensions.depth - base.depth && k < |sorted| {
      var next := placed + [Item(sorted[k], PALLET_WEIGHT, pos)];
      SortedEdges(sorted, base, k);
      TicksDecrease(c.dimensions.depth - base.depth - z, sorted[k].depth, MinEdge(base));
      ColumnFromPlace(c, base, sorted, x, y, z, placed, k);
      ColumnFromContiguous(c, base, sorted, x, y, z + sorted[k].depth, next);
      var r := ColumnFrom(c, base, sorted, x, y, z + sorted[k].depth, next);
      ContiguousStep(placed, Item(sorted[k], PALLET_WEIGHT, pos), r.placed, x, y, z, z + sorted[k].depth, r.z);
    } else {
      ColumnFromStop(c, base, sorted, x, y, z, placed);
      assert placed[..|placed|] == placed;
    }
  }

  /** The Z loop ends past the last row or at a row where no orientation fits. */
  lemma {:induction false} ColumnFromStopped(c: Container, base: Dimensions, sorted: seq<Dimensions>,
                                             x: real, y: real, z: real, placed: seq<Pallet>)
    requires Positive(base) && TryOrder(sorted, base) && EdgesAtLeast(sorted, MinEdge(base))
    ensures var r := ColumnFrom(c, base, sorted, x, y, z, placed);
            ColumnStopped(c, base, x, y, r.z, r.placed)
    decreases Ticks(c.dimensions.depth - base.depth - z, MinEdge(base))
  {
    var pos := Position(x, y, z);
    var k := FirstFit(sorted, pos, c, placed);
    if z <= c.dimensions.depth - base.depth && k < |sorted| {
      var next := placed + [Item(sorted[k], PALLET_WEIGHT, pos)];
      SortedEdges(sorted, base, k);
      TicksDecrease(c.dimensions.depth - base.depth - z, sorted[k].depth, MinEdge(base));
      ColumnFromPlace(c, base, sorted, x, y, z, placed, k);
      ColumnFromStopped(c, base, sorted, x, y, z + sorted[k].depth, next);
    } else {
      ColumnFromStop(c, base, sorted, x, y, z, placed);
      if z <= c.dimensions.depth - base.depth {
        FirstFitIsFirstIndex(sorted, pos, c, placed);
        FirstFitFound(sorted, pos, c, base, placed);
      }
    }
  }

  /** The pallets the Z loop adds are orientations of `base`. */
  lemma {:induction false} ColumnFromOriented(c: Container, base: Dimensions, sorted: seq<Dimensions>,
                                              x: real, y: real, z: real, placed: seq<Pallet>)
    requires Positive(base) && EdgesAtLeast(sorted, MinEdge(base))
    ensures var r := ColumnFrom(c, base, sorted, x, y, z, placed);
            forall i :: |placed| <= i < |r.placed| ==> r.placed[i].dimensions in sorted
    decreases Ticks(c.dimensions.depth - base.depth - z, MinEdge(base))
  {
    var pos := Position(x, y, z);
    var k := FirstFit(sorted, pos, c, placed);
    if z <= c.dimensions.depth - base.depth && k < |sorted| {
      var next := placed + [Item(sorted[k], PALLET_WEIGHT, pos)];
      SortedEdges(sorted, base, k);
      TicksDecrease(c.dimensions.depth - base.depth - z, sorted[k].depth, MinEdge(base));
      ColumnFromPlace(c, base, sorted, x, y, z, placed, k);
      ColumnFromOriented(c, base, sorted, x, y, z + sorted[k].depth, next);
      ColumnFromPrefix(c, base, sorted, x, y, z + sorted[k].depth, next);
      var r := ColumnFrom(c, base, sorted, x, y, z + sorted[k].depth, next);
      PrefixOfPrefix(r.placed, placed, Item(sorted[k], PALLET_WEIGHT, pos), next);
      assert sorted[k] in sorted;
    } else {
      ColumnFromStop(c, base, sorted, x, y, z, placed);
    }
  }

  /** One more pallet `item` at `(x, y, z0)` in front of a contiguous run that
      starts where it ends makes a contiguous run from `z0`. */
  lemma ContiguousStep(placed: seq<Pallet>, item: Pallet, placed': seq<Pallet>, x: real, y: real,
                       z0: real, z1: real, zEnd: real)
    requires item.position == Position(x, y, z0) && z0 + item.dimensions.depth == z1
    requires RowsContiguous(placed + [item], placed', x, y, z1, zEnd)
    ensures RowsContiguous(placed, placed', x, y, z0, zEnd)
  {
    var next := placed + [item];
    assert next[..|placed|] == placed;
    assert placed'[..|next|][..|placed|] == placed'[..|placed|];
    assert placed'[|placed|] == next[|placed|] by {
      assert placed'[..|next|][|placed|] == placed'[|placed|];
    }
  }

  /** A turn of the Z loop that places orientation `k` goes on from the next
      row cursor. */
  lemma ColumnFromPlace(c: Container, base: Dimensions, sorted: seq<Dimensions>, x: real, y: real, z: real,
                        placed: seq<Pallet>, k: nat)
    requires Positive(base) && EdgesAtLeast(sorted, MinEdge(base)) && z <= c.dimensions.depth - base.depth
    requires k == FirstFit(sorted, Position(x, y, z), c, placed) && k < |sorted|
    ensures ColumnFrom(c, base, sorted, x, y, z, placed) ==
            ColumnFrom(c, base, sorted, x, y, z + sorted[k].depth,
                       placed + [Item(sorted[k], PALLET_WEIGHT, Position(x, y, z))])
  {
  }

  /** The Z loop ends past the last row, or at a row where nothing fits. */
  lemma ColumnFromStop(c: Container, base: Dimensions, sorted: seq<Dimensions>, x: real, y: real, z: real,
                       placed: seq<Pallet>)
    requires Positive(base) && EdgesAtLeast(sorted, MinEdge(base))
    requires z > c.dimensions.depth - base.depth || FirstFit(sorted, Position(x, y, z), c, placed) == |sorted|
    ensures ColumnFrom(c, base, sorted, x, y, z, placed) == ColumnEnd(placed, z)
  {
  }

  /** Every orientation in the trying order has width and depth at least the
      shortest edge of `base`. */
  lemma SortedEdges(sorted: seq<Dimensions>, base: Dimensions, k: nat)
    requires Positive(base) && EdgesAtLeast(sorted, MinEdge(base)) && k < |sorted|
    ensures sorted[k].width >= MinEdge(base) > 0.0 && sorted[k].depth >= MinEdge(base)
  {
  }


  /** A sequence that starts with `placed` and one more element `item`
      starts with `placed` and has `item` next. */
  lemma PrefixOfPrefix(ps: seq<Pallet>, placed: seq<Pallet>, item: Pallet, next: seq<Pallet>)
    requires next == placed + [item]
    requires |next| <= |ps| && ps[..|next|] == next
    ensures ps[..|placed|] == placed && ps[|placed|] == item
  {
    assert ps[..|placed| + 1][..|placed|] == ps[..|placed|];
    assert ps[..|placed| + 1][|placed|] == ps[|placed|];
  }

  /** Pallet `i` of `ps` is what the orientation loop puts at its position:
      weight 30 and the first orientation of `sorted` that fits there against
      the pallets before it. */
  predicate FirstFitChoice(ps: seq<Pallet>, i: nat, sorted: seq<Dimensions>, c: Container)
    requires i < |ps|
  {
    var k := FirstFit(sorted, ps[i].position, c, ps[..i]);
    ps[i].weight == PALLET_WEIGHT && k < |sorted| && ps[i].dimensions == sorted[k]
  }

  /** The first fit in narrowest-first order is a greedy choice. */
  lemma FirstFitGreedy(ps: seq<Pallet>, i: nat, sorted: seq<Dimensions>, c: Container, base: Dimensions)
    requires TryOrder(sorted, base) && i < |ps| && FirstFitChoice(ps, i, sorted, c)
    ensures GreedyChoice(ps, i, c, base)
  {
    var prev := ps[..i];
    var pos := ps[i].position;
    var k := FirstFit(sorted, pos, c, prev);
    FirstFitIsFirstIndex(sorted, pos, c, prev);
    AppendFirstFit(sorted, prev, |prev|, pos, c, base, k);
    assert prev + [Item(sorted[k], PALLET_WEIGHT, pos)] == ps[..i + 1];
    GreedyChoicePrefix(ps[..i + 1], ps, i, c, base);
  }

  /** The Z loop only appends to the pallets placed before it. */
  lemma {:induction false} ColumnFromPrefix(c: Container, base: Dimensions, sorted: seq<Dimensions>,
                                            x: real, y: real, z: real, placed: seq<Pallet>)
    requires Positive(base) && EdgesAtLeast(sorted, MinEdge(base))
    ensures var r := ColumnFrom(c, base, sorted, x, y, z, placed);
            |placed| <= |r.placed| && r.placed[..|placed|] == placed
    decreases Ticks(c.dimensions.depth - base.depth - z, MinEdge(base))
  {
    var pos := Position(x, y, z);
    var k := FirstFit(sorted, pos, c, placed);
    if z <= c.dimensions.depth - base.depth && k < |sorted| {
      var next := placed + [Item(sorted[k], PALLET_WEIGHT, pos)];
      SortedEdges(sorted, base, k);
      TicksDecrease(c.dimensions.depth - base.depth - z, sorted[k].depth, MinEdge(base));
      ColumnFromPlace(c, base, sorted, x, y, z, placed, k);
      ColumnFromPrefix(c, base, sorted, x, y, z + sorted[k].depth, next);
      var r := ColumnFrom(c, base, sorted, x, y, z + sorted[k].depth, next);
      PrefixOfPrefix(r.placed, placed, Item(sorted[k], PALLET_WEIGHT, pos), next);
    } else {
      ColumnFromStop(c, base, sorted, x, y, z, placed);
    }
  }

  /** Every pallet the Z loop adds is the orientation loop's first fit. */
  lemma {:induction false} ColumnFromChoices(c: Container, base: Dimensions, sorted: seq<Dimensions>,
                                             x: real, y: real, z: real, placed: seq<Pallet>)
    requires Positive(base) && EdgesAtLeast(sorted, MinEdge(base))
    ensures var r := ColumnFrom(c, base, sorted, x, y, z, placed);
            forall i :: |placed| <= i < |r.placed| ==> FirstFitChoice(r.placed, i, sorted, c)
    decreases Ticks(c.dimensions.depth - base.depth - z, MinEdge(base))
  {
    var pos := Position(x, y, z);
    var k := FirstFit(sorted, pos, c, placed);
    if z <= c.dimensions.depth - base.depth && k < |sorted| {
      var next := placed + [Item(sorted[k], PALLET_WEIGHT, pos)];
      SortedEdges(sorted, base, k);
      TicksDecrease(c.dimensions.depth - base.depth - z, sorted[k].depth, MinEdge(base));
      ColumnFromPlace(c, base, sorted, x, y, z, placed, k);
      ColumnFromChoices(c, base, sorted, x, y, z + sorted[k].depth, next);
      ColumnFromPrefix(c, base, sorted, x, y, z + sorted[k].depth, next);
      var r := ColumnFrom(c, base, sorted, x, y, z + sorted[k].depth, next);
      PrefixOfPrefix(r.placed, placed, Item(sorted[k], PALLET_WEIGHT, pos), next);
      assert FirstFitChoice(r.placed, |placed|, sorted, c);
    } else {
      ColumnFromStop(c, base, sorted, x, y, z, placed);
    }
  }

  /** The pallets the Z loop adds sit at row cursors from `z` up to the last
      row, below the final cursor. */
  lemma {:induction false} ColumnFromRows(c: Container, base: Dimensions, sorted: seq<Dimensions>,
                                          x: real, y: real, z: real, placed: seq<Pallet>)
    requires Positive(base) && EdgesAtLeast(sorted, MinEdge(base))
    ensures var r := ColumnFrom(c, base, sorted, x, y, z, placed);
            forall i :: |placed| <= i < |r.placed| ==>
              z <= r.placed[i].position.z <= c.dimensions.depth - base.depth &&
              r.placed[i].position.z < r.z
    decreases Ticks(c.dimensions.depth - base.depth - z, MinEdge(base))
  {
    var pos := Position(x, y, z);
    var k := FirstFit(sorted, pos, c, placed);
    if z <= c.dimensions.depth - base.depth && k < |sorted| {
      var next := placed + [Item(sorted[k], PALLET_WEIGHT, pos)];
      SortedEdges(sorted, base, k);
      TicksDecrease(c.dimensions.depth - base.depth - z, sorted[k].depth, MinEdge(base));
      ColumnFromPlace(c, base, sorted, x, y, z, placed, k);
      ColumnFromRows(c, base, sorted, x, y, z + sorted[k].depth, next);
      ColumnFromCursor(c, base, sorted, x, y, z + sorted[k].depth, next);
      ColumnFromPrefix(c, base, sorted, x, y, z + sorted[k].depth, next);
      var r := ColumnFrom(c, base, sorted, x, y, z + sorted[k].depth, next);
      PrefixOfPrefix(r.placed, placed, Item(sorted[k], PALLET_WEIGHT, pos), next);
    } else {
      ColumnFromStop(c, base, sorted, x, y, z, placed);
    }
  }

  /** The pallets the Z loop adds are in ascending Z. */
  lemma {:induction false} ColumnFromAscending(c: Container, base: Dimensions, sorted: seq<Dimensions>,
                                               x: real, y: real, z: real, placed: seq<Pallet>)
    requires Positive(base) && EdgesAtLeast(sorted, MinEdge(base))
    ensures var r := ColumnFrom(c, base, sorted, x, y, z, placed);
            forall i, j :: |placed| <= i < j < |r.placed| ==> r.placed[i].position.z < r.placed[j].position.z
    decreases Ticks(c.dimensions.depth - base.depth - z, MinEdge(base))
  {
    var pos := Position(x, y, z);
    var k := FirstFit(sorted, pos, c, placed);
    if z <= c.dimensions.depth - base.depth && k < |sorted| {
      var next := placed + [Item(sorted[k], PALLET_WEIGHT, pos)];
      SortedEdges(sorted, base, k);
      TicksDecrease(c.dimensions.depth - base.depth - z, sorted[k].depth, MinEdge(base));
      ColumnFromPlace(c, base, sorted, x, y, z, placed, k);
      ColumnFromAscending(c, base, sorted, x, y, z + sorted[k].depth, next);
      ColumnFromRows(c, base, sorted, x, y, z + sorted[k].depth, next);
      ColumnFromPrefix(c, base, sorted, x, y, z + sorted[k].depth, next);
      var r := ColumnFrom(c, base, sorted, x, y, z + sorted[k].depth, next);
      PrefixOfPrefix(r.placed, placed, Item(sorted[k], PALLET_WEIGHT, pos), next);
    } else {
      ColumnFromStop(c, base, sorted, x, y, z, placed);
    }
  }

  /** The Z loop from the first row, as `FillColumn` runs it, keeps
      `ColumnSoFar`: each pallet it adds is a greedy choice in the column. */
  lemma ColumnFromSoFar(c: Container, base: Dimensions, sorted: seq<Dimensions>, x: real, y: real,
                        placed: seq<Pallet>)
    requires Positive(base) && TryOrder(sorted, base) && EdgesAtLeast(sorted, MinEdge(base))
    ensures var r := ColumnFrom(c, base, sorted, x, y, 0.0, placed);
            ColumnSoFar(placed, r.placed, x, y, r.z, c, base)
  {
    var r := ColumnFrom(c, base, sorted, x, y, 0.0, placed);
    ColumnFromCursor(c, base, sorted, x, y, 0.0, placed);
    ColumnFromContiguous(c, base, sorted, x, y, 0.0, placed);
    ColumnFromChoices(c, base, sorted, x, y, 0.0, placed);
    ColumnFromRows(c, base, sorted, x, y, 0.0, placed);
    ColumnFromAscending(c, base, sorted, x, y, 0.0, placed);
    forall i | |placed| <= i < |r.placed| ensures GreedyChoice(r.placed, i, c, base) {
      FirstFitGreedy(r.placed, i, sorted, c, base);
    }
  }

  /** Where a column leaves the scan: the pallets so far and the next X. */
  datatype ScanCursor = ScanCursor(placed: seq<Pallet>, x: real)

  /** One column of the scan: the Z loop at `(x, y)`, then the X advance. When
      nothing fits at the first row, X moves by `min(width, depth)` inside the
      Z loop and again after it; otherwise it moves by the width of the first
      pallet `find` meets in this column. */
  function ColumnAdvance(c: Container, base: Dimensions, sorted: seq<Dimensions>, x: real, y: real,
                         placed: seq<Pallet>): (r: ScanCursor)
    requires Positive(base) && EdgesAtLeast(sorted, MinEdge(base)) && WidthsAtLeast(placed, MinEdge(base))
    ensures WidthsAtLeast(r.placed, MinEdge(base))
    ensures r.x >= x + MinEdge(base)
  {
    var m := Min(base.width, base.depth);
    var col := ColumnFrom(c, base, sorted, x, y, 0.0, placed);
    ColumnFromCursor(c, base, sorted, x, y, 0.0, placed);
    ColumnFromContiguous(c, base, sorted, x, y, 0.0, placed);
    ColumnFromOriented(c, base, sorted, x, y, 0.0, placed);
    var x1 := if col.z == 0.0 && c.dimensions.depth - base.depth >= 0.0 then x + m else x;
    assert WidthsAtLeast(col.placed, MinEdge(base)) by {
      forall i | 0 <= i < |col.placed| ensures col.placed[i].dimensions.width >= MinEdge(base) {
        if i < |placed| {
          assert col.placed[..|placed|][i] == col.placed[i];
        } else {
          assert col.placed[i].dimensions in sorted;
        }
      }
    }
    if col.z == 0.0 then
      ScanCursor(col.placed, x1 + m)
    else if |col.placed| > 0 then
      assert AtColumn(x1, y)(col.placed[|placed|]);
      var first := Find(col.placed, AtColumn(x1, y));
      if first.Some? then
        ScanCursor(col.placed, x1 + first.value.dimensions.width)
      else
        ScanCursor(col.placed, x1)
    else
      ScanCursor(col.placed, x1)
  }

  /** The X loop of layer `y` from column `x`. */
  function LayerFrom(c: Container, base: Dimensions, sorted: seq<Dimensions>, y: real, x: real,
                     placed: seq<Pallet>): (r: seq<Pallet>)
    requires Positive(base) && EdgesAtLeast(sorted, MinEdge(base)) && WidthsAtLeast(placed, MinEdge(base))
    ensures WidthsAtLeast(r, MinEdge(base))
    decreases Ticks(c.dimensions.width - Min(base.width, base.depth) - x, MinEdge(base))
  {
    if x > c.dimensions.width - Min(base.width, base.depth) then placed
    else
      var col := ColumnAdvance(c, base, sorted, x, y, placed);
      CursorTicks(c.dimensions.width - Min(base.width, base.depth), x, col.x, MinEdge(base));
      LayerFrom(c, base, sorted, y, col.x, col.placed)
  }

  /** Moving a cursor at least one unit forward takes a tick off the span left
      to `limit`. */
  lemma CursorTicks(limit: real, x: real, x': real, unit: real)
    requires unit > 0.0 && x' >= x + unit && x <= limit
    ensures Ticks(limit - x', unit) < Ticks(limit - x, unit)
  {
    TicksDecrease(limit - x, x' - x, unit);
    assert limit - x - (x' - x) == limit - x';
  }

  /** The Y loop from layer `y`. */
  function LayersFrom(c: Container, base: Dimensions, sorted: seq<Dimensions>, y: real,
                      placed: seq<Pallet>): (r: seq<Pallet>)
    requires Positive(base) && EdgesAtLeast(sorted, MinEdge(base)) && WidthsAtLeast(placed, MinEdge(base))
    decreases Ticks(c.dimensions.height - base.height - y, base.height)
  {
    if y > c.dimensions.height - base.height then placed
    else
      TicksDecrease(c.dimensions.height - base.height - y, base.height, base.height);
      LayersFrom(c, base, sorted, y + base.height, LayerFrom(c, base, sorted, y, 0.0, placed))
  }

  /** The whole scan of `placePallets`, with the orientations in the order of
      the stable width sort. */
  function PalletScan(c: Container, base: Dimensions): seq<Pallet>
    requires Positive(base)
  {
    SortedOrientationsTryOrder(base);
    TryOrderEdges(SortedOrientations(base), base);
    LayersFrom(c, base, SortedOrientations(base), 0.0, [])
  }

  /** The Z loop of one column at `(x, y)`: places the first fitting
      orientation at each row cursor `z` and stops at the first row where
      none fits. When that happens at `z = 0` the loop itself already moves
      `x` on by `min(width, depth)`. */
  method FillColumn(c: Container, base: Dimensions, sorted: seq<Dimensions>, x: real, y: real,
                    placed: seq<Pallet>)
    returns (placed': seq<Pallet>, x': real, z: real)
    requires Positive(base) && TryOrder(sorted, base) && EdgesAtLeast(sorted, MinEdge(base))
    ensures ColumnSoFar(placed, placed', x, y, z, c, base)
    ensures ColumnFrom(c, base, sorted, x, y, 0.0, placed) == ColumnEnd(placed', z)
    ensures RowsContiguous(placed, placed', x, y, 0.0, z) && ColumnStopped(c, base, x, y, z, placed')
    ensures c.dimensions.depth - base.depth < 0.0 ==> placed' == placed && x' == x
    ensures c.dimensions.depth - base.depth >= 0.0 &&
            !SomeOrientationFits(Position(x, y, 0.0), c, base, placed) ==>
              placed' == placed && x' == x + Min(base.width, base.depth)
    ensures c.dimensions.depth - base.depth >= 0.0 &&
            SomeOrientationFits(Position(x, y, 0.0), c, base, placed) ==>
              |placed'| > |placed| && x' == x
  {
    var m := Min(base.width, base.depth);
    ghost var unit := MinEdge(base);
    assert unit > 0.0;
    placed' := placed;
    x' := x;
    z := 0.0;
    ghost var rest := c.dimensions.depth - base.depth;
    while z <= c.dimensions.depth - base.depth
      invariant x' == x && z >= 0.0 && rest == c.dimensions.depth - base.depth - z
      invariant z == 0.0 ==> placed' == placed
      invariant ColumnFrom(c, base, sorted, x, y, z, placed') == ColumnFrom(c, base, sorted, x, y, 0.0, placed)
      decreases Ticks(rest, unit)
    {
      var pos := Position(x, y, z);
      var k := FirstFit(sorted, pos, c, placed');
      FirstFitIsFirstIndex(sorted, pos, c, placed');
      FirstFitFound(sorted, pos, c, base, placed');
      if k < |sorted| {
        var o := sorted[k];
        SortedEdges(sorted, base, k);
        ColumnFromPlace(c, base, sorted, x, y, z, placed', k);
        placed' := placed' + [Item(o, PALLET_WEIGHT, pos)];
        TicksDecrease(rest, o.depth, unit);
        z := z + o.depth;
        rest := rest - o.depth;
      } else {
        ColumnFromStop(c, base, sorted, x, y, z, placed');
        if z == 0.0 {
          x' := x' + m;
        }
        break;
      }
    }
    if z > c.dimensions.depth - base.depth {
      ColumnFromStop(c, base, sorted, x, y, z, placed');
    }
    assert ColumnFrom(c, base, sorted, x, y, 0.0, placed) == ColumnEnd(placed', z);
    ColumnFromSoFar(c, base, sorted, x, y, placed);
    ColumnFromContiguous(c, base, sorted, x, y, 0.0, placed);
    ColumnFromStopped(c, base, sorted, x, y, 0.0, placed);
  }

  /** One column of the scan: the Z loop at `(x, y)` followed by the X
      advance. Returns the grown pallet list and the next X. */
  method ScanColumn(c: Container, base: Dimensions, sorted: seq<Dimensions>, x: real, y: real,
                    placed: seq<Pallet>)
    returns (placed': seq<Pallet>, x': real)
    requires Positive(base) && TryOrder(sorted, base) && EdgesAtLeast(sorted, MinEdge(base)) && WidthsAtLeast(placed, MinEdge(base))
    ensures ColumnAdvance(c, base, sorted, x, y, placed) == ScanCursor(placed', x')
    // The Z loop stopped at a row where nothing fits, or past the last row,
    // after pallets standing edge to edge from z = 0.
    ensures exists zEnd :: RowsContiguous(placed, placed', x, y, 0.0, zEnd) &&
                           ColumnStopped(c, base, x, y, zEnd, placed')
    ensures |placed| <= |placed'| && placed'[..|placed|] == placed
    ensures forall i :: |placed| <= i < |placed'| ==>
              GreedyChoice(placed', i, c, base) &&
              placed'[i].position.x == x && placed'[i].position.y == y &&
              0.0 <= placed'[i].position.z <= c.dimensions.depth - base.depth
    ensures forall i, j :: |placed| <= i < j < |placed'| ==>
              placed'[i].position.z < placed'[j].position.z
    // The Z loop never runs: advance by min(width, depth).
    ensures c.dimensions.depth - base.depth < 0.0 ==>
              placed' == placed && x' == x + Min(base.width, base.depth)
    // Nothing fits at z = 0: the advance is applied twice.
    ensures c.dimensions.depth - base.depth >= 0.0 &&
            !SomeOrientationFits(Position(x, y, 0.0), c, base, placed) ==>
              placed' == placed && x' == x + 2.0 * Min(base.width, base.depth)
    // Something fits at z = 0: advance by the width of the first pallet found in this column.
    ensures c.dimensions.depth - base.depth >= 0.0 &&
            SomeOrientationFits(Position(x, y, 0.0), c, base, placed) ==>
              |placed'| > |placed| && placed'[|placed|].position == Position(x, y, 0.0) &&
              (NoPalletAt(placed, x, y) ==> x' == x + placed'[|placed|].dimensions.width)
  {
    var m := Min(base.width, base.depth);
    var z;
    placed', x', z := FillColumn(c, base, sorted, x, y, placed);
    if z == 0.0 {
      x' := x' + m;
    } else if |placed'| > 0 {
      FindColumnStart(placed', |placed|, x', y);
      var first := Find(placed', AtColumn(x', y));
      if first.Some? {
        x' := x' + first.value.dimensions.width;
      }
    }
  }

  function LayerHeight(k: nat, h: real): real
  {
    k as real * h
  }

  lemma LayerHeightNext(k: nat, h: real)
    ensures LayerHeight(k + 1, h) == LayerHeight(k, h) + h
  {
  }

  /** `y` is a whole number of layers of height `h` above the floor. */
  ghost predicate OnLayer(y: real, h: real)
  {
    exists k: nat :: LayerHeight(k, h) == y
  }

  /** The scan bounds every placement position respects. */
  ghost predicate ScanSlot(p: Position, c: Container, base: Dimensions)
  {
    OnLayer(p.y, base.height) && 0.0 <= p.y <= c.dimensions.height - base.height &&
    0.0 <= p.x <= c.dimensions.width - Min(base.width, base.depth) &&
    0.0 <= p.z <= c.dimensions.depth - base.depth
  }

  predicate ScanOrdered(ps: seq<Pallet>)
  {
    forall i, j :: 0 <= i < j < |ps| ==> ScanBefore(ps[i].position, ps[j].position)
  }

  /** Every pallet of `ps` is a greedy choice at a scan position strictly
      before column `x` of layer `y`, and `ps` is in scan order. */
  ghost predicate ScanSoFar(ps: seq<Pallet>, c: Container, base: Dimensions, y: real, x: real)
  {
    ScanOrdered(ps) &&
    forall i :: 0 <= i < |ps| ==>
      GreedyChoice(ps, i, c, base) && ScanSlot(ps[i].position, c, base) &&
      (ps[i].position.y < y || (ps[i].position.y == y && ps[i].position.x < x))
  }

  /** A column scanned at `(x0, y)` extends a scan that had reached it. */
  lemma ColumnExtendsScan(before: seq<Pallet>, placed: seq<Pallet>, c: Container, base: Dimensions,
                          layer: nat, y: real, x0: real, x: real)
    requires y == LayerHeight(layer, base.height)
    requires 0.0 <= y <= c.dimensions.height - base.height
    requires 0.0 <= x0 <= c.dimensions.width - Min(base.width, base.depth) && x0 < x
    requires ScanSoFar(before, c, base, y, x0)
    requires |before| <= |placed| && placed[..|before|] == before
    requires forall i :: |before| <= i < |placed| ==>
               GreedyChoice(placed, i, c, base) &&
               placed[i].position.x == x0 && placed[i].position.y == y &&
               0.0 <= placed[i].position.z <= c.dimensions.depth - base.depth
    requires forall i, j :: |before| <= i < j < |placed| ==>
               placed[i].position.z < placed[j].position.z
    ensures ScanSoFar(placed, c, base, y, x)
  {
    forall i | 0 <= i < |before|
      ensures GreedyChoice(placed, i, c, base) && placed[i] == before[i]
    {
      GreedyChoicePrefix(before, placed, i, c, base);
      assert placed[..|before|][i] == placed[i];
    }
    forall i | |before| <= i < |placed|
      ensures ScanSlot(placed[i].position, c, base)
    {
      assert LayerHeight(layer, base.height) == placed[i].position.y;
    }
  }

  /** Every pallet of a scan so far has an orientation of `base`, so none is
      narrower than its shortest edge. */
  lemma ScanWidths(ps: seq<Pallet>, c: Container, base: Dimensions, y: real, x: real)
    requires ScanSoFar(ps, c, base, y, x)
    ensures WidthsAtLeast(ps, MinEdge(base))
  {
    OrientationEdges(base);
    forall i | 0 <= i < |ps| ensures ps[i].dimensions.width >= MinEdge(base) {
      assert GreedyChoice(ps, i, c, base);
    }
  }

  /** One layer of the scan: the X loop at height `y`, one column at a time. */
  method ScanLayer(c: Container, base: Dimensions, sorted: seq<Dimensions>, ghost layer: nat, y: real,
                   placed: seq<Pallet>)
    returns (placed': seq<Pallet>)
    requires Positive(base) && TryOrder(sorted, base) && EdgesAtLeast(sorted, MinEdge(base))
    requires y == LayerHeight(layer, base.height) && 0.0 <= y <= c.dimensions.height - base.height
    requires ScanSoFar(placed, c, base, y, 0.0) && WidthsAtLeast(placed, MinEdge(base))
    ensures ScanSoFar(placed', c, base, y + base.height, 0.0)
    ensures placed' == LayerFrom(c, base, sorted, y, 0.0, placed)
  {
    var m := Min(base.width, base.depth);
    ghost var unit := MinEdge(base);
    OrientationEdges(base);
    placed' := placed;
    var x := 0.0;
    ghost var restX := c.dimensions.width - m;
    while x <= c.dimensions.width - m
      invariant x >= 0.0 && restX == c.dimensions.width - m - x
      invariant ScanSoFar(placed', c, base, y, x)
      invariant WidthsAtLeast(placed', MinEdge(base))
      invariant LayerFrom(c, base, sorted, y, x, placed') == LayerFrom(c, base, sorted, y, 0.0, placed)
      decreases Ticks(restX, unit)
    {
      var before := placed';
      var x0 := x;
      assert NoPalletAt(before, x0, y);
      placed', x := ScanColumn(c, base, sorted, x0, y, before);
      assert x >= x0 + unit by {
        if |placed'| > |before| {
          assert placed'[|before|].dimensions in PalletOrientations(base);
        }
      }
      ColumnExtendsScan(before, placed', c, base, layer, y, x0, x);
      ScanWidths(placed', c, base, y, x);
      TicksDecrease(restX, x - x0, unit);
      restX := restX - (x - x0);
    }
  }

  /** `placePallets`. Every pallet it returns is a greedy choice at a scan
      position; the pallets are pairwise disjoint and come in scan order. */
  method PlacePallets(c: Container, base: Dimensions) returns (placed: seq<Pallet>)
    requires Positive(base)
    ensures PairwiseDisjoint(placed)
    ensures ScanOrdered(placed)
    ensures forall i :: 0 <= i < |placed| ==>
              GreedyChoice(placed, i, c, base) && ScanSlot(placed[i].position, c, base)
    ensures placed == PalletScan(c, base)
  {
    var sorted := OrientationsByWidth(base);
    TryOrderEdges(sorted, base);
    placed := [];
    var y := 0.0;
    ghost var layer: nat := 0;
    ghost var restY := c.dimensions.height - base.height;
    while y <= c.dimensions.height - base.height
      invariant y == LayerHeight(layer, base.height) && y >= 0.0
      invariant restY == c.dimensions.height - base.height - y
      invariant ScanSoFar(placed, c, base, y, 0.0)
      invariant WidthsAtLeast(placed, MinEdge(base))
      invariant LayersFrom(c, base, sorted, y, placed) == PalletScan(c, base)
      decreases Ticks(restY, base.height)
    {
      placed := ScanLayer(c, base, sorted, layer, y, placed);
      ScanWidths(placed, c, base, y + base.height, 0.0);
      TicksDecrease(restY, base.height, base.height);
      LayerHeightNext(layer, base.height);
      y := y + base.height;
      restY := restY - base.height;
      layer := layer + 1;
    }
    GreedyChoicesAreDisjoint(placed, c, base);
  }
}
