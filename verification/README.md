# Container packing: a verified model

This project models, in Dafny, the two packing engines of a container-loading
web application, and proves what their code promises.

**The layered engine** (`src/utils/`) works in three steps:

1. `placePallets` fills the container with pallets. It scans layers up the
   height, columns across the width and rows along the depth. At each position
   it places the narrowest of six pallet orientations that fits. The orientations
   are stably sorted by width, and `canPlace` tests each one against the
   container walls, with a 0.001 tolerance, and against the pallets already
   placed.
2. `findSideSpaces` and `findSpacesAbovePallets` derive the residual spaces the
   pallets leave. `placeBoxes` grid-scans each of these spaces, side spaces first,
   and places the first of three box orientations that fits the space and
   overlaps nothing placed so far.
3. `optimizeContainerPacking` rejects an empty pallet list. It then packs with
   the first pallet's size and reports unused volume, total weight and
   utilisation.

**The client packer** (`client/src/lib/packing-algorithm.ts`) is simpler:

- Without pallets, it fills a floor-division grid of box cells, x fastest, then
  y, then z.
- With pallets, it stands fixed 80 × 14 × 120 pallets on a floor-division grid,
  one layer pitch (pallet height plus box height) apart. It loads each pallet
  with one layer of boxes until the quantity runs out.
- Beside the packer there are volume, fill-percentage and capacity calculators.

## How the model is organised

The modules follow the program's structure.

**Supporting modules:**

- **`Types`**: the records of `src/types/types.ts`. `Pallet` and `Box` share one
  datatype `Item`, because the source declares them as identical interfaces.
- **`Geometry`**: the shared `Space` record, `checkIntersection`, the tolerant
  container test of `canPlace`, and disjointness of item lists.
- **`Sequences`**: the JavaScript array operations the engine relies on, with
  their JavaScript meaning:
  - `some` is `Any`;
  - the first element that passes, as a `for … break` finds it, is `FirstIndex`;
  - `find` is `Find`;
  - the stable `sort` is `SortBy`.
- **`Arith`**: `Math.min`, `Math.floor` and `Math.ceil` over exact reals, and
  the measure that shows each scanning loop terminates.
- **`Lattice`**: how three nested counting loops number the cells they visit.
  This is what the client packer's loops are proved against.

**The engines:**

- **`PalletPacking`**: orientations, `canPlace` and `placePallets`.
  `placePallets` is split into methods by loop: `FillColumn` (z loop),
  `ScanColumn` (z loop plus the x advance), `ScanLayer` (x loop) and
  `PlacePallets` (y loop). Each loop is proved equal to a recursive reference
  definition of the same scan (`ColumnFrom`, `ColumnAdvance`, `LayerFrom`,
  `LayersFrom`, `PalletScan`), and lemmas state what that scan places.
- **`BoxPacking`**: box orientations, `hasIntersections`, both space finders, and
  `placeBoxes`. The loops of `placeBoxes` are `TryCell` (orientation loop),
  `FillRow` (z), `FillLayer` (x), `FillSpace` (y) and `FillSpaces` (the spaces).
  They too are proved equal to a reference definition of the scan (`CellFrom`,
  `RowFrom`, `LayerOfBoxes`, `SpaceFrom`, `SpacesFrom`, `BoxScan`).
- **`PackingAlgorithm`**: `optimizeContainerPacking`, with the error case as a
  `Result`.

**The client packer:**

- **`ClientPacking`**: the client packer's loops, each proved equal to a
  reference definition:
  - `DirectPacking`: cell `n` of the box grid, for every `n` below
    `min(quantity, cells)`;
  - `PalletPacking`: pallet group `p` for every `p` below `palletsToPack`.
- **`ClientProperties`**: what those reference definitions satisfy, namely
  containment, order, disjointness, counts and stacking.
- **`ClientOverflow`**: a concrete load whose boxes rise above the container
  roof.
- **`ClientStats`**: the volume, fill-percentage and capacity calculators, and
  how they relate to the packers' output.

**Arithmetic.** Dimensions are exact `real`s. The engine's tolerance constant
is kept: `EPSILON = 0.001`. Every scanning loop advances by at least the
shortest edge of a positive-size item, and that gives the loops their
termination measure.

**Inputs.** The client's input fields accept only unsigned decimals for sizes
(`client/src/components/ui/DimensionInput.tsx:20`) and digits for quantities
(`client/src/components/ui/QuantityInput.tsx:19`). The client packer therefore
assumes the following:

- no negative container edge;
- positive box edges;
- a non-negative quantity;
- in pallet mode, a box that fits on the pallet's footprint (see Left out).

**Where the code's own comments and the code disagree, the model follows the code.**

- **No interval merge.** `findSideSpaces` only sorts the pallets' X extents by
  start; it does not merge them. Gaps are measured between neighbours in that
  order. The right-hand space starts at the end of the extent that starts last
  (`src/utils/boxPacking.ts:86,103-130`). So side spaces are guaranteed clear of
  pallets only when the sorted extents do not overlap
  (`BoxPacking.SideSpacesClearWhenChained`). `BoxPacking.RightSpaceCanOverlapPallet`
  exhibits a right-hand space that cuts through a pallet.
- **Malformed orientation.** The doc comment of `getPalletOrientations` says it
  returns all admissible rotations of the pallet
  (`src/utils/palletPacking.ts:21-22`). The fourth entry (`src/utils/palletPacking.ts:35`) is
  `(depth, depth, height)`, which is a permutation only when width equals depth
  (`PalletPacking.MalformedOrientation`).
- **Double x advance.** When nothing fits at the start of a column, the code
  advances x by `min(width, depth)` twice: once inside the z loop
  (`src/utils/palletPacking.ts:148`) and again after it (`:157-158`).
  `PalletPacking.ScanColumn` states the double advance.
- **Client vertical containment.** The client packer counts layers from the
  pallet height alone (`client/src/lib/packing-algorithm.ts:50`) but stacks them
  one pallet-plus-box pitch apart (`:65`). Its boxes can therefore rise above the
  container roof (`ClientOverflow.LayersCanOverflowHeight`). Containment is proved
  only when all the layers fit (`ClientProperties.PalletPackingInside`).

## Model

| member | source | states |
|---|---|---|
| Sequences.Any | src/utils/palletPacking.ts:92-97 | `some` is true exactly when some element passes the test |
| Sequences.FirstIndex | src/utils/palletPacking.ts:127-143 | the `for … break` loop stops at the first passing element: none before it passes, and it passes unless the list is exhausted |
| Sequences.Find | src/utils/palletPacking.ts:160 | `find` returns a value exactly when some element passes, and then returns the first such element |
| Sequences.SortBy | src/utils/palletPacking.ts:112 | the sort keeps the length of its input |
| Sequences.SortByPermutes | src/utils/palletPacking.ts:112 | the sorted list is a permutation of the input |
| Sequences.SortByIsSorted | src/utils/palletPacking.ts:112 | the sorted list is in ascending key order |
| Sequences.SortByIsStable | src/utils/palletPacking.ts:112 | the sort is stable: for every key, the elements with that key keep their relative order |
| Sequences.FirstIndexMinimizesKey | src/utils/palletPacking.ts:112-143 | in a width-sorted list, the first orientation that fits is at least as narrow as every other orientation that fits |
| Arith.Floor | client/src/lib/packing-algorithm.ts:41 | `Math.floor(x)` is the integer `r` with `r <= x < r + 1` |
| Arith.Ceil | client/src/lib/packing-algorithm.ts:46 | `Math.ceil(x)` is the integer `r` with `x <= r < x + 1` |
| Arith.Min | src/utils/palletPacking.ts:119 | `Math.min` is one of its arguments and no larger than either |
| Arith.FloorCellsFit | client/src/lib/packing-algorithm.ts:119-121 | `floor(a / b)` cells of width `b` fit in `a` |
| Arith.FloorCellsMaximal | client/src/lib/packing-algorithm.ts:119-121 | one cell more than `floor(a / b)` does not fit in `a` |
| Geometry.CheckIntersectionSymmetric | src/utils/palletPacking.ts:50-59 | the overlap test gives the same answer with its arguments swapped |
| Geometry.TouchingFacesDoNotIntersect | src/utils/palletPacking.ts:50-59 | boxes that only share a face on some axis do not intersect |
| Geometry.IntersectionIsCommonPoint | src/utils/palletPacking.ts:50-59 | for boxes of positive size, the separating-interval test holds exactly when the two half-open boxes share a point |
| Geometry.InsideIsWithin | src/utils/palletPacking.ts:77-81 | an item that lies inside the container with no tolerance also passes the tolerant wall test of `canPlace` |
| Geometry.PairwiseDisjointConcat | src/utils/packingAlgorithm.ts:24-27 | two pairwise-disjoint lists that are disjoint from each other form one pairwise-disjoint list |
| PalletPacking.PalletOrientations | src/utils/palletPacking.ts:26-41 | six orientations, the first being the input |
| PalletPacking.PalletOrientationsArePermutations | src/utils/palletPacking.ts:30-39 | every entry except the fourth lists the input's three edges in some order |
| PalletPacking.MalformedOrientation | src/utils/palletPacking.ts:35 | the fourth entry `(depth, depth, height)` is a permutation of the input exactly when width equals depth |
| PalletPacking.OrientationEdges | src/utils/palletPacking.ts:26-41 | no orientation is narrower or shallower than the input's shortest edge, which bounds every scan step from below |
| PalletPacking.CanPlace | src/utils/palletPacking.ts:70-98 | true exactly when the item is within the walls up to EPSILON on every side, with no coordinate below −EPSILON, and intersects no placed pallet |
| PalletPacking.SortedOrientationsTryOrder | src/utils/palletPacking.ts:111-112 | the stably width-sorted list holds exactly the six orientations, narrowest first |
| PalletPacking.OrientationsByWidth | src/utils/palletPacking.ts:111-112 | the orientations come in the order the scan tries them |
| PalletPacking.FirstFitFound | src/utils/palletPacking.ts:127-143 | the orientation loop finds an orientation exactly when some orientation passes the width test and `canPlace` |
| PalletPacking.GreedyChoicePrefix | src/utils/palletPacking.ts:132-137 | whether pallet `i` was a greedy choice depends only on the pallets placed before it |
| PalletPacking.GreedyChoicesAreDisjoint | src/utils/palletPacking.ts:92-97 | pallets that each passed `canPlace` against their predecessors are pairwise disjoint |
| PalletPacking.FindColumnStart | src/utils/palletPacking.ts:160 | when no earlier pallet stands in column `(x, y)`, `find` returns the first pallet this column placed |
| PalletPacking.AppendFirstFit | src/utils/palletPacking.ts:127-141 | appending the first fitting orientation, with weight 30, keeps every pallet a greedy choice |
| PalletPacking.ColumnStep | src/utils/palletPacking.ts:123-141 | one placement in the z loop keeps the column's record, and the z cursor advances by at least the shortest edge |
| PalletPacking.FirstFitIsFirstIndex | src/utils/palletPacking.ts:127-143 | the first fit of the reference column is the index at which the `for … break` orientation loop stops |
| PalletPacking.FirstFitGreedy | src/utils/palletPacking.ts:112-141 | a pallet of weight 30 whose orientation is the first in width order to fit at its position is a greedy choice: the narrowest orientation that fits there |
| PalletPacking.ColumnFromCursor | src/utils/palletPacking.ts:123-152 | the z loop only appends, its cursor never moves back, and the cursor stays where it started exactly when nothing was placed |
| PalletPacking.ColumnFromPrefix | src/utils/palletPacking.ts:123-152 | the z loop keeps every pallet placed before it |
| PalletPacking.ColumnFromContiguous | src/utils/palletPacking.ts:123-141 | the pallets the z loop adds stand in column `(x, y)` edge to edge along z: the first at the start cursor, each at the far face of the one before, the last ending at the final cursor |
| PalletPacking.ColumnFromStopped | src/utils/palletPacking.ts:120-152 | the z loop ends only past the last row or at a row where no orientation fits |
| PalletPacking.ColumnFromOriented | src/utils/palletPacking.ts:127-137 | every pallet the z loop adds has one of the tried orientations |
| PalletPacking.ColumnFromChoices | src/utils/palletPacking.ts:127-141 | every pallet the z loop adds weighs 30 and is the first orientation in try order that fits at its position against the pallets before it |
| PalletPacking.ColumnFromRows | src/utils/palletPacking.ts:120-141 | every pallet the z loop adds stands at a row cursor between the start and `cd − bd`, below the final cursor |
| PalletPacking.ColumnFromAscending | src/utils/palletPacking.ts:120-141 | the pallets the z loop adds are in strictly ascending z |
| PalletPacking.ColumnFromSoFar | src/utils/palletPacking.ts:120-154 | a column scanned from z = 0 adds greedy choices in column `(x, y)` at rows within the container, in ascending z |
| PalletPacking.ColumnAdvance | src/utils/palletPacking.ts:119-164 | one column step moves x on by at least the base's shortest edge, and every pallet it adds is at least that wide |
| PalletPacking.FillColumn | src/utils/palletPacking.ts:120-154 | the z loop computes exactly the reference column from z = 0. Its pallets are greedy choices standing edge to edge in column `(x, y)` from z = 0 to the final cursor, and it stops only past the last row or at a row where nothing fits. If the loop never runs, it places nothing; if nothing fits at z = 0, it places nothing and moves x by `min(width, depth)`; otherwise it places at least one pallet |
| PalletPacking.ScanColumn | src/utils/palletPacking.ts:119-164 | one column computes exactly the reference column step. Its pallets stand edge to edge from z = 0 up to a row where nothing fits or past the last row. The x advance rules: if the z loop never runs, x moves by `min(w, d)`. If nothing fits at z = 0, x moves by `2·min(w, d)`. Otherwise x moves by the width of the pallet the column placed at `(x, y, 0)` |
| PalletPacking.ColumnExtendsScan | src/utils/palletPacking.ts:119-165 | a scanned column extends the scan's record: every pallet is a greedy choice at a scan position, in scan order |
| PalletPacking.ScanLayer | src/utils/palletPacking.ts:116-165 | the x loop of one layer computes exactly the reference layer, and keeps every pallet a greedy choice at a scan slot, in scan order |
| PalletPacking.PlacePallets | src/utils/palletPacking.ts:108-169 | the placed pallets are pairwise disjoint and in scan order. Each pallet is a greedy choice: weight 30, an orientation of the input, `x + width <= cw` with no tolerance, within `canPlace`, and the narrowest orientation that fits there. Each stands at a scan slot: y is a whole number of base heights with `y <= ch − bh`, `0 <= x <= cw − min(bw, bd)` and `0 <= z <= cd − bd`. The result is exactly the reference scan: layers up, columns across, rows along the depth, the first fitting orientation at each row |
| BoxPacking.BoxOrientations | src/utils/boxPacking.ts:27-34 | three orientations `(w,h,d)`, `(d,h,w)` and `(h,w,d)`, each a permutation of the input, the first being the input |
| BoxPacking.HasIntersections | src/utils/boxPacking.ts:44-69 | true exactly when the candidate intersects some placed pallet or some placed box |
| BoxPacking.XRanges | src/utils/boxPacking.ts:80-83 | one X extent per pallet, in pallet order |
| BoxPacking.SortedXRangesMembers | src/utils/boxPacking.ts:80-86 | the sorted extents are sorted by start and are exactly the pallets' extents |
| BoxPacking.LeftSpace | src/utils/boxPacking.ts:91-100 | at most one space, only when there are pallets, spanning from x = 0 to the first start at full height and depth |
| BoxPacking.GapSpaces | src/utils/boxPacking.ts:103-115 | each gap space runs from the end of one extent to the start of its neighbour in sorted order, at full height and depth |
| BoxPacking.RightSpace | src/utils/boxPacking.ts:117-130 | at most one space, from the end of the last extent in start order to the far wall |
| BoxPacking.FindSideSpaces | src/utils/boxPacking.ts:78-133 | no spaces without pallets, and at most one more space than pallets. Each space is a full-height, full-depth slab at y = z = 0 |
| BoxPacking.LeftSpaceIsClear | src/utils/boxPacking.ts:91-100 | the left space intersects no pallet |
| BoxPacking.GapSpacesClearOfLaterRanges | src/utils/boxPacking.ts:103-115 | each gap is clear of its neighbours and of every later extent; with no merge, an earlier extent may still reach into it |
| BoxPacking.ChainedSideSpacesClear | src/utils/boxPacking.ts:78-133 | over extents that follow one another without overlap, every side space is clear of every extent |
| BoxPacking.SideSpacesClearWhenChained | src/utils/boxPacking.ts:78-133 | when the sorted extents do not overlap, no side space intersects a pallet |
| BoxPacking.ChainedEnds | src/utils/boxPacking.ts:86 | in non-overlapping sorted extents, every extent ends before any later one starts |
| BoxPacking.RightSpaceCanOverlapPallet | src/utils/boxPacking.ts:117-130 | with overlapping extents, the right space can start inside a pallet and intersect it |
| BoxPacking.MaxTop | src/utils/boxPacking.ts:146-148 | `Math.max` of the pallet tops is one of them and no smaller than any |
| BoxPacking.MinStart | src/utils/boxPacking.ts:160 | `Math.min` of the starts is one of them and no larger than any |
| BoxPacking.MaxEnd | src/utils/boxPacking.ts:161 | `Math.max` of the ends is one of them and no smaller than any |
| BoxPacking.HullOfPallets | src/utils/boxPacking.ts:151-161 | the smallest start and the largest end bound every pallet's X extent, and both are attained |
| BoxPacking.FindSpacesAbovePallets | src/utils/boxPacking.ts:142-176 | none without pallets, otherwise one space exactly when more than EPSILON is left above the highest pallet. That space starts at the highest top, reaches the roof, spans from the smallest start to the largest end at full depth, and intersects no pallet |
| BoxPacking.AllSpaces | src/utils/boxPacking.ts:195-197 | the side spaces, then the space above: at most two more spaces than pallets |
| BoxPacking.SideSpacesInside | src/utils/boxPacking.ts:78-133 | over extents within the container width, every side space lies inside the container |
| BoxPacking.AllSpacesInside | src/utils/boxPacking.ts:195-197 | over pallets in the container's floor plan, every residual space lies inside the container |
| BoxPacking.BoxChoiceSound | src/utils/boxPacking.ts:206-221 | a chosen box is an orientation of the input, lies inside its space, and intersects no pallet and no earlier box |
| BoxPacking.BoxChoicePrefix | src/utils/boxPacking.ts:215 | whether box `i` was a valid choice depends only on the boxes placed before it |
| BoxPacking.CellFromChoice | src/utils/boxPacking.ts:206-224 | the reference orientation loop appends one box exactly when some orientation fits the space and overlaps nothing, and that box stands at the cell with the first such orientation; otherwise the list is unchanged |
| BoxPacking.TryCell | src/utils/boxPacking.ts:206-224 | the orientation loop adds exactly one box at the cell exactly when some orientation fits the space and overlaps nothing, and then it adds the first such orientation. Otherwise it adds nothing. It is exactly the reference orientation loop |
| BoxPacking.CellStep | src/utils/boxPacking.ts:204-225 | trying one cell keeps the record of boxes chosen in scan order before the cursor |
| BoxPacking.RowFromPrefix | src/utils/boxPacking.ts:204-225 | the reference z loop keeps every box placed before it |
| BoxPacking.RowFromFilled | src/utils/boxPacking.ts:204-225 | every box the reference z loop adds is a valid first choice at its cell, after the earlier boxes in scan order and before the next column |
| BoxPacking.FillRow | src/utils/boxPacking.ts:204-225 | the z loop computes exactly the reference row: at each cell, the first orientation that fits, or nothing. It only appends, and every box it adds is a valid choice in scan order |
| BoxPacking.FillLayer | src/utils/boxPacking.ts:203-226 | the x loop computes exactly the reference layer of rows. It only appends, and every box it adds is a valid choice in scan order |
| BoxPacking.FillSpace | src/utils/boxPacking.ts:202-227 | the y loop computes exactly the reference scan of the space. It only appends, and every box it adds was chosen while scanning this space, in scan order |
| BoxPacking.SpaceStep | src/utils/boxPacking.ts:200-228 | scanning the next space extends the record of which space each box came from |
| BoxPacking.FilledSpacesSound | src/utils/boxPacking.ts:200-228 | every box weighs 5, is an orientation of the input and lies inside its space. The boxes are pairwise disjoint and disjoint from the pallets |
| BoxPacking.FillSpaces | src/utils/boxPacking.ts:200-228 | the spaces are scanned in order with one shared box list, the result is exactly the reference scan of all the spaces from an empty list, and every box is a valid choice in its space |
| BoxPacking.PlaceBoxes | src/utils/boxPacking.ts:186-231 | the result is exactly the reference grid scan of the side spaces and then the space above. Every box weighs 5 and is an orientation of the input. The boxes are pairwise disjoint and disjoint from the pallets. There are no boxes without pallets. Over pallets in the floor plan, every box lies inside the container |
| BoxPacking.FilledSpacesInContainer | src/utils/boxPacking.ts:194-197 | over pallets in the floor plan, boxes placed in the residual spaces lie inside the container |
| PackingAlgorithm.SumWeightsUniform | src/utils/packingAlgorithm.ts:44-45 | items of one weight weigh that weight times their number |
| PackingAlgorithm.SumVolumesNonNegative | src/utils/packingAlgorithm.ts:31-36 | items with no negative edge have non-negative summed volume |
| PackingAlgorithm.GreedyPalletsInFloorPlan | src/utils/packingAlgorithm.ts:24 | greedily placed pallets stand in the floor plan, pass the tolerant wall test, weigh 30 and have positive size |
| PackingAlgorithm.LoadSound | src/utils/packingAlgorithm.ts:24-27 | disjoint pallets and boxes, each inside the container, form one disjoint load inside it |
| PackingAlgorithm.SharesAddUp | src/utils/packingAlgorithm.ts:43-46 | the used share and the unused share add up to 100 percent |
| PackingAlgorithm.Metrics | src/utils/packingAlgorithm.ts:29-47 | unused space plus the used volume is the container volume. Utilisation times the container volume is 100 times the used volume, with no clamping. Total weight is the sum of all weights |
| PackingAlgorithm.LoadWeight | src/utils/packingAlgorithm.ts:44-45 | the total weight is 30 per pallet plus 5 per box |
| PackingAlgorithm.LoadFacts | src/utils/packingAlgorithm.ts:24-27 | the greedy pallets and the infill boxes together are pairwise disjoint and within the container |
| PackingAlgorithm.PlaceLoad | src/utils/packingAlgorithm.ts:23-27 | the two placement calls give exactly the reference pallet scan and the reference box scan around those pallets: greedy pallets and boxes that are valid orientations, weigh 30·pallets + 5·boxes, are pairwise disjoint and are within the container. Without pallets there are no boxes |
| PackingAlgorithm.OptimizeContainerPacking | src/utils/packingAlgorithm.ts:14-48 | fails with "No pallets provided" exactly when the list is empty. Otherwise its load is exactly the reference pallet scan with `pallets[0]`'s size and the reference box scan around it, disjoint and within the container, with exact metrics |
| Lattice.DigitsOf | client/src/lib/packing-algorithm.ts:130-132 | the digits of an iteration number lie within the loop bounds |
| Lattice.DigitsOfIndex | client/src/lib/packing-algorithm.ts:130-132 | the digits of a cell's iteration number are that cell |
| Lattice.IndexOfDigits | client/src/lib/packing-algorithm.ts:130-132 | every iteration number is the number of its digits' cell |
| Lattice.IndexLess | client/src/lib/packing-algorithm.ts:130-132 | iteration numbers grow along the loops' order, slowest digit first |
| Lattice.DigitsOrdered | client/src/lib/packing-algorithm.ts:130-132 | later iterations visit lexicographically later cells |
| Lattice.SlowBound | client/src/lib/packing-algorithm.ts:130 | an iteration number below the grid size has its outer digit below the outer bound |
| ClientPacking.CountConcat | client/src/lib/packing-algorithm.ts:16 | counting items of a kind distributes over concatenation |
| ClientPacking.CountUniform | client/src/lib/packing-algorithm.ts:139-143 | in a list of one kind, that kind counts every item and the other kind none |
| ClientPacking.GridOf | client/src/lib/packing-algorithm.ts:119-121 | per axis, the whole number of cells that fit and no more, never negative in a non-negative container |
| ClientPacking.DirectPacking | client/src/lib/packing-algorithm.ts:119-127 | exactly `min(quantity, floor(cw/bw)·floor(ch/bh)·floor(cd/bd))` boxes |
| ClientPacking.DirectRow | client/src/lib/packing-algorithm.ts:132-144 | the x loop extends the grid prefix to the end of its row or to the quantity |
| ClientPacking.DirectExtend | client/src/lib/packing-algorithm.ts:133-143 | the box pushed at `(x·bw, y·bh, z·bd)` is the reference cell of its iteration number |
| ClientPacking.DirectLayer | client/src/lib/packing-algorithm.ts:131-145 | the y loop extends the grid prefix to the end of its layer or to the quantity |
| ClientPacking.PackBoxesDirectly | client/src/lib/packing-algorithm.ts:111-149 | the three loops produce exactly the reference sequence: cell `n` for every `n` below `min(quantity, cells)` |
| ClientPacking.CeilCovers | client/src/lib/packing-algorithm.ts:46 | `ceil(q / k)` pallets of `k` boxes hold `q` boxes, and one fewer does not |
| ClientPacking.PalletsNeeded | client/src/lib/packing-algorithm.ts:46 | just enough pallets for the quantity |
| ClientPacking.LayerPitch | client/src/lib/packing-algorithm.ts:65 | the ceiling factor is 1, so the pitch is pallet height plus box height |
| ClientPacking.PlanOf | client/src/lib/packing-algorithm.ts:41-55 | the most boxes per pallet row and per pallet that fit on 80 × 120, just enough pallets for the quantity, the whole pallet grid of the container, and `palletsToPack = min(needed, maxPallets)` |
| ClientPacking.GroupShape | client/src/lib/packing-algorithm.ts:70-97 | a pallet group is the pallet at its grid slot, then box `k` at index `1 + k`, with `min(perPallet, remaining)` boxes |
| ClientPacking.PalletBoxRow | client/src/lib/packing-algorithm.ts:81-96 | the `bx` loop places boxes up to the end of the row or to this pallet's share, and lowers `boxesRemaining` by as many |
| ClientPacking.LoadPallet | client/src/lib/packing-algorithm.ts:70-97 | the pallet, then its boxes row by row, form exactly the reference group, and `boxesRemaining` drops accordingly |
| ClientPacking.PalletRow | client/src/lib/packing-algorithm.ts:62-100 | the `px` loop appends the next reference groups up to the end of the row or to `palletsToPack` |
| ClientPacking.PalletCell | client/src/lib/packing-algorithm.ts:63-67 | pallet `px` of a row stands where the reference numbering puts it |
| ClientPacking.PalletLayer | client/src/lib/packing-algorithm.ts:61-101 | the `pz` loop appends the next reference groups up to the end of the layer or to `palletsToPack` |
| ClientPacking.PackOnPallets | client/src/lib/packing-algorithm.ts:41-104 | the pallet loops produce exactly the reference sequence of `palletsToPack` pallet groups |
| ClientPacking.PackBoxes | client/src/lib/packing-algorithm.ts:27-105 | with pallets off, the result is exactly the direct packing; with pallets on, it is exactly the pallet packing |
| ClientProperties.DirectCellInside | client/src/lib/packing-algorithm.ts:133-137 | the box in any cell of the grid lies inside the container |
| ClientProperties.DirectInside | client/src/lib/packing-algorithm.ts:130-144 | every direct item is a box of the input size inside the container |
| ClientProperties.CellsApart | client/src/lib/packing-algorithm.ts:133-137 | boxes in earlier cells come z-major before later ones and do not intersect them |
| ClientProperties.DirectOrderedAndDisjoint | client/src/lib/packing-algorithm.ts:130-144 | the direct items are ordered z-major, then by y, then by x, and are pairwise disjoint |
| ClientProperties.RemainingClosedForm | client/src/lib/packing-algorithm.ts:55-95 | after `p` pallets, `boxesRemaining` is `max(0, quantity − p·perPallet)` |
| ClientProperties.LoadsCount | client/src/lib/packing-algorithm.ts:70-99 | `k` pallet groups hold `k` pallets, and their boxes plus `boxesRemaining` make up the quantity |
| ClientProperties.PalletCounts | client/src/lib/packing-algorithm.ts:55-102 | the packer places `palletsToPack` pallets and `min(quantity, palletsToPack·perPallet)` boxes |
| ClientProperties.AllPlacedIffPalletsFit | client/src/lib/packing-algorithm.ts:46-55 | every box is placed exactly when the container takes every pallet needed |
| ClientProperties.QuotientBound | client/src/lib/packing-algorithm.ts:80 | box `m` of a pallet with `m < perRow·rows` lies in a row below `rows` |
| ClientProperties.BoxOnPalletFits | client/src/lib/packing-algorithm.ts:80-86 | each box on a pallet rests on its top face at `pallet.y + 14`, within its 80 × 120 footprint |
| ClientProperties.GroupStacked | client/src/lib/packing-algorithm.ts:63-97 | every item of a group is a standard pallet in a grid slot, or a box of the input size on that pallet |
| ClientProperties.LoadsStacked | client/src/lib/packing-algorithm.ts:60-102 | every item of the first `k` groups is stacked that way |
| ClientProperties.PalletsStacked | client/src/lib/packing-algorithm.ts:60-102 | every pallet of the packer stands in a slot at `(px·80, py·(14 + bh), pz·120)`, and every box rests on a pallet within its footprint |
| ClientProperties.SlotInGrid | client/src/lib/packing-algorithm.ts:63-67 | a slot lies within `across·80` and `deep·120`, and its layer within `layers·pitch` |
| ClientProperties.StackedInside | client/src/lib/packing-algorithm.ts:49-67 | stacked items stand on the container's floor plan, and lie inside it when all layers fit the height |
| ClientProperties.PalletPackingOnFloorPlan | client/src/lib/packing-algorithm.ts:49-67 | every pallet and box satisfies `x + width <= cw`, `z + depth <= cd` and `y >= 0` |
| ClientProperties.PalletPackingInside | client/src/lib/packing-algorithm.ts:49-67 | when `layers·(14 + bh)` fits the container height, every item lies inside the container |
| ClientProperties.InSeparateRooms | client/src/lib/packing-algorithm.ts:60-67 | items in rooms that one axis separates do not intersect |
| ClientProperties.SlotsApart | client/src/lib/packing-algorithm.ts:60-67 | the room of an earlier slot ends, along some axis, before the room of a later one |
| ClientProperties.GroupInRoom | client/src/lib/packing-algorithm.ts:63-86 | every item of group `p` lies in the room of slot `p`, one pitch high |
| ClientProperties.BoxesApart | client/src/lib/packing-algorithm.ts:80-86 | two different boxes on one pallet do not intersect |
| ClientProperties.GroupNoOverlap | client/src/lib/packing-algorithm.ts:70-97 | no two items of one group intersect |
| ClientProperties.AddGroupNoOverlap | client/src/lib/packing-algorithm.ts:60-102 | adding the next group keeps the load free of overlaps |
| ClientProperties.LoadsNoOverlap | client/src/lib/packing-algorithm.ts:60-102 | no two items of the first `k` groups intersect |
| ClientProperties.PalletPackingNoOverlap | client/src/lib/packing-algorithm.ts:60-102 | no two items of the pallet packer, pallets or boxes, intersect |
| ClientOverflow.OverflowPlan | client/src/lib/packing-algorithm.ts:41-55 | for two 80 × 10 × 120 boxes in an 80 × 28 × 120 container, the plan is one box per pallet, two pallets needed, two layers and a 24 cm pitch |
| ClientOverflow.FirstGroup | client/src/lib/packing-algorithm.ts:70-97 | the first pallet carries one box |
| ClientOverflow.SecondGroup | client/src/lib/packing-algorithm.ts:63-86 | the second pallet stands 24 cm up, and its 10 cm box rests at 38 cm |
| ClientOverflow.OverflowLoads | client/src/lib/packing-algorithm.ts:60-102 | the load is four items, the last a box at 38 cm |
| ClientOverflow.LayersCanOverflowHeight | client/src/lib/packing-algorithm.ts:49-86 | in that 28 cm high container, the packer's last box reaches 48 cm, above the roof |
| ClientStats.VolumeSign | client/src/lib/packing-algorithm.ts:155-157 | `calculateVolume` is non-negative for non-negative edges and positive for positive ones |
| Types.Volume | client/src/lib/packing-algorithm.ts:155-157 | `calculateVolume` is zero exactly when some edge is zero, and positive for a positive size |
| ClientStats.TotalVolume | client/src/lib/packing-algorithm.ts:163-165 | `calculateTotalVolume` is zero exactly when the quantity is zero or the box is flat, and positive for a positive box and quantity |
| ClientStats.LoadVolumeMonotone | client/src/lib/packing-algorithm.ts:193 | more boxes and more pallets never make a smaller volume |
| ClientStats.VolumeByKind | client/src/lib/packing-algorithm.ts:155-165 | the summed volume of a load is one pallet volume per pallet plus one box volume per box |
| ClientStats.CountedVolume | client/src/lib/packing-algorithm.ts:177-194 | the volume the fill percentage counts is at least `calculateTotalVolume`, which is non-negative |
| ClientStats.FillPercentage | client/src/lib/packing-algorithm.ts:171-197 | between 0 and 100. It is 100 exactly when the counted volume reaches the container volume. Otherwise it is exactly 100 times the counted share |
| ClientStats.CappedPercent | client/src/lib/packing-algorithm.ts:196 | the capped share: between 0 and 100, 100 exactly when the part reaches the whole, otherwise the exact share |
| ClientStats.ShareOfWhole | client/src/lib/packing-algorithm.ts:196 | the uncapped share is non-negative, at least 100 exactly when the part reaches the whole, and times the whole is 100 times the part |
| ClientStats.FillMonotone | client/src/lib/packing-algorithm.ts:171-197 | ordering more boxes never lowers the fill percentage |
| ClientStats.CountedVolumeMonotone | client/src/lib/packing-algorithm.ts:177-194 | ordering more boxes never lowers the counted volume |
| ClientStats.PalletVolumeMonotone | client/src/lib/packing-algorithm.ts:180-194 | in pallet mode, ordering more boxes never lowers the counted volume |
| ClientStats.PalletsNeededMonotone | client/src/lib/packing-algorithm.ts:183-189 | more boxes never need fewer pallets |
| ClientStats.NeededMonotone | client/src/lib/packing-algorithm.ts:189 | `ceil(q / k)` grows with `q` |
| ClientStats.DirectFillMeasuresPacking | client/src/lib/packing-algorithm.ts:177-178 | without pallets, when the grid takes the whole order, the counted volume is the volume of the packed boxes |
| ClientStats.PalletFillMeasuresPacking | client/src/lib/packing-algorithm.ts:180-194 | with pallets, when the container takes every pallet needed, the counted volume is the volume of the packed pallets and boxes |
| ClientStats.FullPalletLoad | client/src/lib/packing-algorithm.ts:55-102 | when every pallet needed fits, the load holds that many standard pallets and the whole order of boxes |
| ClientStats.StackedSized | client/src/lib/packing-algorithm.ts:70-92 | in a stacked load, pallets have the standard size and boxes the input size |
| ClientStats.MaxBoxes | client/src/lib/packing-algorithm.ts:203-230 | `calculateMaxBoxes` is never negative, and in pallet mode it is 0 for a box wider or deeper than the 80 × 120 pallet, since no box fits the pallet's footprint |
| ClientStats.PlacedIsCapped | client/src/lib/packing-algorithm.ts:203-230 | with or without pallets, the packer places exactly `min(quantity, calculateMaxBoxes)` boxes |

## Left out

- Rendering, camera animation, forms, statistics panel, localisation and audio
  are UI code, not packing logic. This covers `src/components/ContainerScene.tsx`,
  `client/src/components/*`, `client/src/lib/i18n.ts`, `LanguageContext.tsx` and
  `stores/useAudio.tsx`.
- IEEE floating point is not modelled. Dimensions are exact reals, so rounding,
  NaN and Infinity do not arise.
- `Container.maxWeight` is carried as data only. The engine never compares the
  load's weight against it.
- ClientPacking.PlanOf: it requires a box no wider than 80 and no deeper than 120
  (`FitsPallet`). A wider or deeper box gives `boxesPerPallet = 0`, and the source
  then divides by zero (lines 46 and 65) and works with Infinity and NaN.
- ClientStats.FillPercentage: it requires a container of positive volume. With
  zero volume the source divides by zero.
- ClientProperties.PalletPackingInside: containment is proved only when all
  layers fit the height. The source's layer count ignores the box height, so
  containment does not hold in general (`ClientOverflow.LayersCanOverflowHeight`).
- BoxPacking.PlaceBoxes: it is not proved that the infill places as many boxes
  as fit. The loops are proved equal to the reference grid scan, and every box
  is the first orientation that fits at its cell, but no lemma compares the
  count with other placements.
- BoxPacking.SideSpacesClearWhenChained: clearance of the side spaces is proved
  only for sorted extents that do not overlap. Without a merge it does not hold
  in general (`BoxPacking.RightSpaceCanOverlapPallet`).
- PackingAlgorithm.OptimizeContainerPacking: for a non-empty pallet list it
  requires positive pallet and box sizes and a container of non-zero volume.
  A zero edge makes one of the scanning loops advance by zero, so the source
  can loop forever once a pallet row or a residual space is scanned. With zero
  container volume the utilisation is NaN. The requires also exclude degenerate
  inputs that do terminate, and the model states nothing about them: a
  zero-edge pallet in a container lower than the pallet, where the y loop
  (`src/utils/palletPacking.ts:114`) never runs, and a zero-edge box when no
  residual space is found, where the `forEach` over the spaces
  (`src/utils/boxPacking.ts:200`) runs zero times. An empty list is rejected
  before any size is read, so it is allowed with any sizes.
- Total placed volume against container volume is not proved. It would follow
  from disjointness and containment, but the source does not promise it.
- The statistics panel's `min(quantity, maxBoxes)`
  (`client/src/components/PackageStats.tsx:73`) is UI code. The same quantity
  is stated of the packers by `ClientStats.PlacedIsCapped`.
