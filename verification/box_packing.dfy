/** The box infill of `src/utils/boxPacking.ts`: the three box orientations,
    the overlap test against pallets and boxes, the residual spaces beside
    and above the pallets, and the grid scan that fills them. */
module BoxPacking {
  import opened Types
  import opened Geometry
  import opened Sequences
  import opened Arith

  /** Every placed box weighs this much, whatever its size. */
  const BOX_WEIGHT: real := 5.0

  /** `getBoxOrientations`: the input, then width and depth swapped, then
      width and height swapped. */
  function BoxOrientations(d: Dimensions): (r: seq<Dimensions>)
    ensures |r| == 3 && r[0] == d
    ensures forall i :: 0 <= i < 3 ==> IsPermutationOf(r[i], d)
    ensures r[1] == Dimensions(d.depth, d.height, d.width)
    ensures r[2] == Dimensions(d.height, d.width, d.depth)
  {
    [ Dimensions(d.width, d.height, d.depth),
      Dimensions(d.depth, d.height, d.width),
      Dimensions(d.height, d.width, d.depth) ]
  }

  function Overlaps(s: Space): Item -> bool
  {
    (it: Item) => CheckIntersection(s, ItemSpace(it))
  }

  /** `hasIntersections`: the candidate box overlaps a placed pallet or a
      placed box. Pallets are checked first; boxes only when no pallet overlaps. */
  function HasIntersections(p: Position, d: Dimensions, pallets: seq<Pallet>, boxes: seq<Box>): (r: bool)
    ensures r <==> ((exists i :: 0 <= i < |pallets| && CheckIntersection(SpaceOf(p, d), ItemSpace(pallets[i]))) ||
                    (exists j :: 0 <= j < |boxes| && CheckIntersection(SpaceOf(p, d), ItemSpace(boxes[j]))))
  {
    if Any(pallets, Overlaps(SpaceOf(p, d))) then true
    else Any(boxes, Overlaps(SpaceOf(p, d)))
  }

  // ---------------------------------------------------------------------
  // Residual spaces
  // ---------------------------------------------------------------------

  /** The X extent `[start, end)` of one pallet. */
  datatype Range = Range(start: real, end: real)

  function StartOf(r: Range): real
  {
    r.start
  }

  function XRange(p: Pallet): Range
  {
    Range(p.position.x, p.position.x + p.dimensions.width)
  }

  /** `placedPallets.map(...)` to X extents, in pallet order. */
  function XRanges(ps: seq<Pallet>): (r: seq<Range>)
    ensures |r| == |ps| && forall i :: 0 <= i < |ps| ==> r[i] == XRange(ps[i])
  {
    seq(|ps|, i requires 0 <= i < |ps| => XRange(ps[i]))
  }

  /** The X extents sorted by start only (stable), as both space finders do. */
  function SortedXRanges(ps: seq<Pallet>): seq<Range>
  {
    SortBy(XRanges(ps), StartOf)
  }

  /** The sorted extents are exactly the pallets' extents. */
  lemma SortedXRangesMembers(ps: seq<Pallet>)
    ensures |SortedXRanges(ps)| == |ps| && SortedBy(SortedXRanges(ps), StartOf)
    ensures forall i :: 0 <= i < |ps| ==> XRange(ps[i]) in SortedXRanges(ps)
    ensures forall r :: r in SortedXRanges(ps) ==> exists i :: 0 <= i < |ps| && XRange(ps[i]) == r
  {
    var rs := SortedXRanges(ps);
    var xs := XRanges(ps);
    SortByPermutes(xs, StartOf);
    SortByIsSorted(xs, StartOf);
    forall i | 0 <= i < |ps| ensures XRange(ps[i]) in rs {
      assert xs[i] in multiset(xs);
    }
    forall r | r in rs ensures exists i :: 0 <= i < |ps| && XRange(ps[i]) == r {
      assert r in multiset(xs);
      var i :| 0 <= i < |xs| && xs[i] == r;
    }
  }

  /** A space spanning the full container height and depth over the X
      interval `[x, x + width)`. */
  function SideSpace(c: Container, x: real, width: real): Space
  {
    Space(x, 0.0, 0.0, width, c.dimensions.height, c.dimensions.depth)
  }

  /** The shape every side space has. */
  predicate IsSideSpace(s: Space, c: Container)
  {
    s.y == 0.0 && s.z == 0.0 && s.height == c.dimensions.height &&
    s.depth == c.dimensions.depth && s.width > EPSILON
  }

  /** The space left of the first range, when that range starts beyond EPSILON. */
  function LeftSpace(c: Container, rs: seq<Range>): (r: seq<Space>)
    ensures |r| <= 1 && (|rs| == 0 ==> r == [])
    ensures forall s :: s in r ==> IsSideSpace(s, c) && s.x == 0.0 && s.width == rs[0].start
  {
    if |rs| > 0 && rs[0].start > EPSILON then [SideSpace(c, 0.0, rs[0].start)] else []
  }

  /** The gaps wider than EPSILON between range `i` and range `i + 1`, for
      every `i` from the given index on, in that order. */
  function GapSpaces(c: Container, rs: seq<Range>, i: nat): (r: seq<Space>)
    ensures |r| + i + 1 <= |rs| || r == []
    ensures forall s :: s in r ==> IsSideSpace(s, c)
    ensures forall s :: s in r ==>
              exists j :: i <= j && j + 1 < |rs| && s.x == rs[j].end && s.x + s.width == rs[j + 1].start
    decreases |rs| - i
  {
    if i + 1 >= |rs| then []
    else
      var gap := rs[i + 1].start - rs[i].end;
      var rest := GapSpaces(c, rs, i + 1);
      (if gap > EPSILON then [SideSpace(c, rs[i].end, gap)] else []) + rest
  }

  /** The space right of the end of the LAST range in sorted order, when that
      end is more than EPSILON short of the container width. */
  function RightSpace(c: Container, rs: seq<Range>): (r: seq<Space>)
    ensures |r| <= 1 && (|rs| == 0 ==> r == [])
    ensures forall s :: s in r ==> IsSideSpace(s, c) && s.x == rs[|rs| - 1].end &&
                                   s.x + s.width == c.dimensions.width
  {
    if |rs| > 0 && rs[|rs| - 1].end < c.dimensions.width - EPSILON
    then [SideSpace(c, rs[|rs| - 1].end, c.dimensions.width - rs[|rs| - 1].end)]
    else []
  }

  /** `findSideSpaces`: the left space, the gaps, then the right space. The
      extents are sorted by start but never merged. */
  function FindSideSpaces(c: Container, ps: seq<Pallet>): (r: seq<Space>)
    ensures |ps| == 0 ==> r == []
    ensures |r| <= |ps| + 1
    ensures forall s :: s in r ==> IsSideSpace(s, c)
  {
    var rs := SortedXRanges(ps);
    LeftSpace(c, rs) + GapSpaces(c, rs, 0) + RightSpace(c, rs)
  }

  /** The space's X interval ends before the range starts or begins after it ends. */
  predicate XClear(s: Space, r: Range)
  {
    s.x + s.width <= r.start || s.x >= r.end
  }

  lemma XClearIsDisjoint(s: Space, p: Pallet)
    requires XClear(s, XRange(p))
    ensures !CheckIntersection(s, ItemSpace(p))
  {
  }

  /** The left space ends where the smallest start begins, so it is clear of
      every pallet. */
  lemma LeftSpaceIsClear(c: Container, ps: seq<Pallet>)
    ensures forall s, i :: s in LeftSpace(c, SortedXRanges(ps)) && 0 <= i < |ps| ==>
              !CheckIntersection(s, ItemSpace(ps[i]))
  {
    var rs := SortedXRanges(ps);
    SortedXRangesMembers(ps);
    forall s, i | s in LeftSpace(c, rs) && 0 <= i < |ps|
      ensures !CheckIntersection(s, ItemSpace(ps[i]))
    {
      var j :| 0 <= j < |rs| && rs[j] == XRange(ps[i]);
      assert rs[0].start <= rs[j].start;
    }
  }

  /** Each gap lies between two neighbours in start order and is clear of
      the left neighbour and of every range after it. Ranges sorted before
      the left neighbour may still reach into it: there is no merge. */
  lemma GapSpacesClearOfLaterRanges(c: Container, rs: seq<Range>)
    requires SortedBy(rs, StartOf)
    ensures forall s :: s in GapSpaces(c, rs, 0) ==>
              exists j :: 0 <= j && j + 1 < |rs| && s.x == rs[j].end &&
                          forall k :: j <= k < |rs| ==> XClear(s, rs[k])
  {
    forall s | s in GapSpaces(c, rs, 0)
      ensures exists j :: 0 <= j && j + 1 < |rs| && s.x == rs[j].end &&
                          forall k :: j <= k < |rs| ==> XClear(s, rs[k])
    {
      var j :| 0 <= j && j + 1 < |rs| && s.x == rs[j].end && s.x + s.width == rs[j + 1].start;
      forall k | j <= k < |rs| ensures XClear(s, rs[k]) {
        if k > j {
          assert StartOf(rs[j + 1]) <= StartOf(rs[k]);
        }
      }
    }
  }

  /** Extents that follow one another: each ends before the next begins. */
  predicate Chained(rs: seq<Range>)
  {
    (forall k :: 0 <= k < |rs| ==> rs[k].start <= rs[k].end) &&
    (forall k :: 0 <= k < |rs| - 1 ==> rs[k].end <= rs[k + 1].start)
  }

  /** Over chained extents, every side space is X-clear of every extent. */
  lemma ChainedSideSpacesClear(c: Container, rs: seq<Range>)
    requires Chained(rs)
    ensures forall s, k :: s in LeftSpace(c, rs) + GapSpaces(c, rs, 0) + RightSpace(c, rs) && 0 <= k < |rs| ==>
              XClear(s, rs[k])
  {
    assert forall k, m :: 0 <= k < m < |rs| ==> rs[k].end <= rs[m].start by {
      forall k, m | 0 <= k < m < |rs| ensures rs[k].end <= rs[m].start {
        ChainedEnds(rs, k, m);
      }
    }
    assert SortedBy(rs, StartOf);
    GapSpacesClearOfLaterRanges(c, rs);
    forall s, k | s in LeftSpace(c, rs) + GapSpaces(c, rs, 0) + RightSpace(c, rs) && 0 <= k < |rs|
      ensures XClear(s, rs[k])
    {
      if s in LeftSpace(c, rs) {
        assert s.x + s.width == rs[0].start <= rs[k].start;
      } else if s in GapSpaces(c, rs, 0) {
        var g :| 0 <= g && g + 1 < |rs| && s.x == rs[g].end &&
                 forall m :: g <= m < |rs| ==> XClear(s, rs[m]);
        if k < g {
          assert rs[k].end <= rs[g].start <= rs[g].end;
        }
      } else {
        assert s in RightSpace(c, rs);
        if k < |rs| - 1 {
          assert rs[k].end <= rs[|rs| - 1].start <= rs[|rs| - 1].end;
        }
      }
    }
  }

  /** When the sorted extents follow one another without overlap, every side
      space is clear of every pallet. */
  lemma SideSpacesClearWhenChained(c: Container, ps: seq<Pallet>)
    requires Chained(SortedXRanges(ps))
    ensures forall s, i :: s in FindSideSpaces(c, ps) && 0 <= i < |ps| ==>
              !CheckIntersection(s, ItemSpace(ps[i]))
  {
    var rs := SortedXRanges(ps);
    SortedXRangesMembers(ps);
    ChainedSideSpacesClear(c, rs);
    forall s, i | s in FindSideSpaces(c, ps) && 0 <= i < |ps|
      ensures !CheckIntersection(s, ItemSpace(ps[i]))
    {
      var j :| 0 <= j < |rs| && rs[j] == XRange(ps[i]);
      XClearIsDisjoint(s, ps[i]);
    }
  }

  lemma {:induction false} ChainedEnds(rs: seq<Range>, k: nat, m: nat)
    requires Chained(rs)
    requires k < m < |rs|
    ensures rs[k].end <= rs[m].start
    decreases m - k
  {
    if k + 1 < m {
      ChainedEnds(rs, k + 1, m);
    }
  }

  /** With overlapping extents the right space can start inside a pallet:
      extents `[0, 10)` and `[2, 4)` in a container 20 wide give a right space
      from x = 4 that cuts through the first pallet. */
  lemma RightSpaceCanOverlapPallet()
    ensures var c := Container(Dimensions(20.0, 10.0, 10.0), 1000.0);
            var ps := [Item(Dimensions(10.0, 1.0, 1.0), 30.0, Position(0.0, 0.0, 0.0)),
                       Item(Dimensions(2.0, 1.0, 1.0), 30.0, Position(2.0, 0.0, 0.0))];
            FindSideSpaces(c, ps) == [SideSpace(c, 4.0, 16.0)] &&
            CheckIntersection(FindSideSpaces(c, ps)[0], ItemSpace(ps[0]))
  {
    var c := Container(Dimensions(20.0, 10.0, 10.0), 1000.0);
    var ps := [Item(Dimensions(10.0, 1.0, 1.0), 30.0, Position(0.0, 0.0, 0.0)),
               Item(Dimensions(2.0, 1.0, 1.0), 30.0, Position(2.0, 0.0, 0.0))];
    var xs := XRanges(ps);
    assert xs == [Range(0.0, 10.0), Range(2.0, 4.0)];
    assert xs[1..] == [Range(2.0, 4.0)];
    assert SortBy(xs[1..][1..], StartOf) == [];
    assert SortBy(xs[1..], StartOf) == [Range(2.0, 4.0)];
    var rs := SortedXRanges(ps);
    assert rs == [Range(0.0, 10.0), Range(2.0, 4.0)];
    assert LeftSpace(c, rs) == [];
    assert GapSpaces(c, rs, 1) == [];
    assert GapSpaces(c, rs, 0) == [];
    assert RightSpace(c, rs) == [SideSpace(c, 4.0, 16.0)];
  }

  function Top(p: Pallet): real
  {
    p.position.y + p.dimensions.height
  }

  /** `Math.max` of the pallet tops. */
  function MaxTop(ps: seq<Pallet>): (r: real)
    requires |ps| > 0
    ensures forall i :: 0 <= i < |ps| ==> Top(ps[i]) <= r
    ensures exists i :: 0 <= i < |ps| && Top(ps[i]) == r
  {
    if |ps| == 1 then Top(ps[0])
    else
      var m := MaxTop(ps[1..]);
      assert forall i :: 1 <= i < |ps| ==> ps[i] == ps[1..][i - 1];
      if Top(ps[0]) >= m then Top(ps[0]) else m
  }

  /** `Math.min` of the range starts. */
  function MinStart(rs: seq<Range>): (r: real)
    requires |rs| > 0
    ensures forall i :: 0 <= i < |rs| ==> r <= rs[i].start
    ensures exists i :: 0 <= i < |rs| && rs[i].start == r
  {
    if |rs| == 1 then rs[0].start
    else
      var m := MinStart(rs[1..]);
      assert forall i :: 1 <= i < |rs| ==> rs[i] == rs[1..][i - 1];
      if rs[0].start <= m then rs[0].start else m
  }

  /** `Math.max` of the range ends. */
  function MaxEnd(rs: seq<Range>): (r: real)
    requires |rs| > 0
    ensures forall i :: 0 <= i < |rs| ==> rs[i].end <= r
    ensures exists i :: 0 <= i < |rs| && rs[i].end == r
  {
    if |rs| == 1 then rs[0].end
    else
      var m := MaxEnd(rs[1..]);
      assert forall i :: 1 <= i < |rs| ==> rs[i] == rs[1..][i - 1];
      if rs[0].end >= m then rs[0].end else m
  }

  /** The smallest start and the largest end among the sorted extents bound
      every pallet's X extent and are attained by some pallet. */
  lemma HullOfPallets(ps: seq<Pallet>)
    requires |ps| > 0
    ensures var rs := SortedXRanges(ps);
            |rs| == |ps| &&
            (forall i :: 0 <= i < |ps| ==>
               MinStart(rs) <= ps[i].position.x &&
               ps[i].position.x + ps[i].dimensions.width <= MaxEnd(rs)) &&
            (exists i :: 0 <= i < |ps| && MinStart(rs) == ps[i].position.x) &&
            (exists i :: 0 <= i < |ps| && MaxEnd(rs) == ps[i].position.x + ps[i].dimensions.width)
  {
    var rs := SortedXRanges(ps);
    SortedXRangesMembers(ps);
    var minX := MinStart(rs);
    var maxX := MaxEnd(rs);
    forall i | 0 <= i < |ps|
      ensures minX <= ps[i].position.x && ps[i].position.x + ps[i].dimensions.width <= maxX
    {
      var j :| 0 <= j < |rs| && rs[j] == XRange(ps[i]);
    }
    var j :| 0 <= j < |rs| && rs[j].start == minX;
    assert rs[j] in rs;
    var i :| 0 <= i < |ps| && XRange(ps[i]) == rs[j];
    var j' :| 0 <= j' < |rs| && rs[j'].end == maxX;
    assert rs[j'] in rs;
    var i' :| 0 <= i' < |ps| && XRange(ps[i']) == rs[j'];
  }

  /** `findSpacesAbovePallets`: at most one space, from the highest pallet
      top to the container top, over the X hull of the pallets and the full
      container depth, kept only when it is more than EPSILON high. */
  function FindSpacesAbovePallets(c: Container, ps: seq<Pallet>): (r: seq<Space>)
    ensures |ps| == 0 ==> r == []
    ensures |ps| > 0 ==> (|r| == 1 <==> c.dimensions.height - MaxTop(ps) > EPSILON)
    ensures |r| <= 1
    ensures |r| == 1 ==>
              r[0].z == 0.0 && r[0].depth == c.dimensions.depth &&
              r[0].height > EPSILON && r[0].y + r[0].height == c.dimensions.height &&
              r[0].y == MaxTop(ps) &&
              (forall i :: 0 <= i < |ps| ==>
                 r[0].x <= ps[i].position.x &&
                 ps[i].position.x + ps[i].dimensions.width <= r[0].x + r[0].width) &&
              (exists i :: 0 <= i < |ps| && r[0].x == ps[i].position.x) &&
              (exists i :: 0 <= i < |ps| && r[0].x + r[0].width == ps[i].position.x + ps[i].dimensions.width)
    ensures |r| == 1 ==> forall i :: 0 <= i < |ps| ==> !CheckIntersection(r[0], ItemSpace(ps[i]))
  {
    if |ps| == 0 then []
    else
      var top := MaxTop(ps);
      var rs := SortedXRanges(ps);
      var minX := MinStart(rs);
      var maxX := MaxEnd(rs);
      HullOfPallets(ps);
      var above := Space(minX, top, 0.0, maxX - minX, c.dimensions.height - top, c.dimensions.depth);
      if above.height > EPSILON then [above] else []
  }

  /** The spaces `placeBoxes` fills, side spaces first. */
  function AllSpaces(c: Container, ps: seq<Pallet>): (r: seq<Space>)
    ensures |r| <= |ps| + 2
  {
    FindSideSpaces(c, ps) + FindSpacesAbovePallets(c, ps)
  }

  /** Every pallet stands on or above the floor and within the container's
      width, with no negative edge: what `placePallets` produces. */
  predicate InFloorPlan(c: Container, p: Pallet)
  {
    0.0 <= p.position.x && 0.0 <= p.dimensions.width &&
    p.position.x + p.dimensions.width <= c.dimensions.width &&
    0.0 <= p.position.y && 0.0 <= p.dimensions.height
  }

  /** Every extent lies within `[0, width]` of the container. */
  predicate RangesInside(c: Container, rs: seq<Range>)
  {
    forall k :: 0 <= k < |rs| ==> 0.0 <= rs[k].start <= rs[k].end <= c.dimensions.width
  }

  lemma SideSpacesInside(c: Container, rs: seq<Range>)
    requires RangesInside(c, rs)
    ensures forall s :: s in LeftSpace(c, rs) + GapSpaces(c, rs, 0) + RightSpace(c, rs) ==>
              InsideSpace(s, ContainerSpace(c))
  {
    forall s | s in LeftSpace(c, rs) + GapSpaces(c, rs, 0) + RightSpace(c, rs)
      ensures InsideSpace(s, ContainerSpace(c))
    {
      if s in GapSpaces(c, rs, 0) {
        var j :| 0 <= j && j + 1 < |rs| && s.x == rs[j].end && s.x + s.width == rs[j + 1].start;
      }
    }
  }

  /** Over pallets in the floor plan, every residual space lies inside the container. */
  lemma AllSpacesInside(c: Container, ps: seq<Pallet>)
    requires forall i :: 0 <= i < |ps| ==> InFloorPlan(c, ps[i])
    ensures forall s :: s in AllSpaces(c, ps) ==> InsideSpace(s, ContainerSpace(c))
  {
    var rs := SortedXRanges(ps);
    SortedXRangesMembers(ps);
    forall k | 0 <= k < |rs| ensures 0.0 <= rs[k].start <= rs[k].end <= c.dimensions.width {
      assert rs[k] in rs;
      var i :| 0 <= i < |ps| && XRange(ps[i]) == rs[k];
    }
    SideSpacesInside(c, rs);
    if |ps| > 0 {
      var top := MaxTop(ps);
      assert top >= 0.0 by {
        assert Top(ps[0]) <= top;
      }
    }
  }

  // ---------------------------------------------------------------------
  // Box infill
  // ---------------------------------------------------------------------

  /** The bounds test of the orientation loop: the far faces stay within the space. */
  predicate FitsInSpace(p: Position, o: Dimensions, s: Space)
  {
    p.x + o.width <= s.x + s.width &&
    p.y + o.height <= s.y + s.height &&
    p.z + o.depth <= s.z + s.depth
  }

  /** The whole test an orientation must pass at a grid cell. */
  predicate BoxFits(p: Position, o: Dimensions, s: Space, pallets: seq<Pallet>, boxes: seq<Box>)
  {
    FitsInSpace(p, o, s) && !HasIntersections(p, o, pallets, boxes)
  }

  function BoxFitsAt(p: Position, s: Space, pallets: seq<Pallet>, boxes: seq<Box>): Dimensions -> bool
  {
    (o: Dimensions) => BoxFits(p, o, s, pallets, boxes)
  }

  /** Box `i` of `bs` is what the orientation loop places at its position
      while scanning `s`: weight 5, at or beyond the space's origin, in the
      first orientation of `bd` (list order) that fits given the pallets and
      the boxes placed before it. */
  predicate BoxChoice(bs: seq<Box>, i: nat, s: Space, pallets: seq<Pallet>, bd: Dimensions)
    requires i < |bs|
  {
    bs[i].weight == BOX_WEIGHT &&
    s.x <= bs[i].position.x && s.y <= bs[i].position.y && s.z <= bs[i].position.z &&
    exists k :: 0 <= k < 3 && BoxOrientations(bd)[k] == bs[i].dimensions &&
                BoxFits(bs[i].position, bs[i].dimensions, s, pallets, bs[..i]) &&
                forall j :: 0 <= j < k ==> !BoxFits(bs[i].position, BoxOrientations(bd)[j], s, pallets, bs[..i])
  }

  /** A chosen box is an orientation of `bd`, lies inside its space, and
      meets neither a pallet nor an earlier box. */
  lemma BoxChoiceSound(bs: seq<Box>, i: nat, s: Space, pallets: seq<Pallet>, bd: Dimensions)
    requires i < |bs| && BoxChoice(bs, i, s, pallets, bd)
    ensures bs[i].dimensions in BoxOrientations(bd)
    ensures InsideSpace(ItemSpace(bs[i]), s)
    ensures forall j :: 0 <= j < |pallets| ==> !CheckIntersection(ItemSpace(bs[i]), ItemSpace(pallets[j]))
    ensures forall j :: 0 <= j < i ==> !CheckIntersection(ItemSpace(bs[i]), ItemSpace(bs[j]))
  {
    forall j | 0 <= j < i ensures !CheckIntersection(ItemSpace(bs[i]), ItemSpace(bs[j])) {
      assert bs[..i][j] == bs[j];
    }
  }

  lemma BoxChoicePrefix(bs: seq<Box>, qs: seq<Box>, i: nat, s: Space, pallets: seq<Pallet>, bd: Dimensions)
    requires i < |bs| <= |qs| && qs[..|bs|] == bs
    ensures BoxChoice(qs, i, s, pallets, bd) <==> BoxChoice(bs, i, s, pallets, bd)
  {
    assert qs[..i] == bs[..i];
    assert qs[i] == bs[i];
  }

  lemma ScanBeforeTransitive(p: Position, q: Position, r: Position)
    requires ScanBefore(p, q) && ScanBefore(q, r)
    ensures ScanBefore(p, r)
  {
  }

  /** The boxes from index `from` on were chosen while scanning `s`, in scan order. */
  predicate FilledFrom(from: nat, bs: seq<Box>, s: Space, pallets: seq<Pallet>, bd: Dimensions)
  {
    from <= |bs| &&
    (forall i :: from <= i < |bs| ==> BoxChoice(bs, i, s, pallets, bd)) &&
    (forall i, j :: from <= i < j < |bs| ==> ScanBefore(bs[i].position, bs[j].position))
  }

  /** ... and all of them come before the grid cursor `q`. */
  predicate FilledBefore(from: nat, bs: seq<Box>, s: Space, pallets: seq<Pallet>, bd: Dimensions, q: Position)
  {
    FilledFrom(from, bs, s, pallets, bd) &&
    forall i :: from <= i < |bs| ==> ScanBefore(bs[i].position, q)
  }

  lemma FilledBeforeLater(from: nat, bs: seq<Box>, s: Space, pallets: seq<Pallet>, bd: Dimensions,
                          q: Position, q': Position)
    requires FilledBefore(from, bs, s, pallets, bd, q) && ScanBefore(q, q')
    ensures FilledBefore(from, bs, s, pallets, bd, q')
  {
    forall i | from <= i < |bs| ensures ScanBefore(bs[i].position, q') {
      ScanBeforeTransitive(bs[i].position, q, q');
    }
  }

  // ---------------------------------------------------------------------
  // The infill scan as functions: the reference the loops below are proved equal to
  // ---------------------------------------------------------------------

  /** The orientation loop at grid cell `p` of space `s`: the first
      orientation of `bd` that fits is pushed with weight 5; when none fits
      the list is left as it is. */
  function CellFrom(s: Space, bd: Dimensions, pallets: seq<Pallet>, boxes: seq<Box>, p: Position): seq<Box>
  {
    CellFromOrientation(s, bd, pallets, boxes, p, 0)
  }

  /** The orientation loop from orientation `k` on. */
  function CellFromOrientation(s: Space, bd: Dimensions, pallets: seq<Pallet>, boxes: seq<Box>, p: Position,
                               k: nat): seq<Box>
    decreases 3 - k
  {
    if k >= 3 then boxes
    else if BoxFits(p, BoxOrientations(bd)[k], s, pallets, boxes) then boxes + [Item(BoxOrientations(bd)[k], BOX_WEIGHT, p)]
    else CellFromOrientation(s, bd, pallets, boxes, p, k + 1)
  }

  /** The Z loop of grid column `(x, y)` of `s` from row `z`. */
  function RowFrom(s: Space, bd: Dimensions, pallets: seq<Pallet>, x: real, y: real, z: real,
                   boxes: seq<Box>): seq<Box>
    requires Positive(bd)
    decreases Ticks(s.z + s.depth - bd.depth - z, bd.depth)
  {
    if z > s.z + s.depth - bd.depth then boxes
    else
      TicksDecrease(s.z + s.depth - bd.depth - z, bd.depth, bd.depth);
      RowFrom(s, bd, pallets, x, y, z + bd.depth, CellFrom(s, bd, pallets, boxes, Position(x, y, z)))
  }

  /** The X loop of layer `y` of `s` from column `x`. */
  function LayerOfBoxes(s: Space, bd: Dimensions, pallets: seq<Pallet>, y: real, x: real,
                        boxes: seq<Box>): seq<Box>
    requires Positive(bd)
    decreases Ticks(s.x + s.width - bd.width - x, bd.width)
  {
    if x > s.x + s.width - bd.width then boxes
    else
      TicksDecrease(s.x + s.width - bd.width - x, bd.width, bd.width);
      LayerOfBoxes(s, bd, pallets, y, x + bd.width, RowFrom(s, bd, pallets, x, y, s.z, boxes))
  }

  /** The Y loop over space `s` from layer `y`. */
  function SpaceFrom(s: Space, bd: Dimensions, pallets: seq<Pallet>, y: real, boxes: seq<Box>): seq<Box>
    requires Positive(bd)
    decreases Ticks(s.y + s.height - bd.height - y, bd.height)
  {
    if y > s.y + s.height - bd.height then boxes
    else
      TicksDecrease(s.y + s.height - bd.height - y, bd.height, bd.height);
      SpaceFrom(s, bd, pallets, y + bd.height, LayerOfBoxes(s, bd, pallets, y, s.x, boxes))
  }

  /** The `forEach` over the spaces from space `n` on, one shared box list. */
  function SpacesFrom(spaces: seq<Space>, bd: Dimensions, pallets: seq<Pallet>, n: nat, boxes: seq<Box>): seq<Box>
    requires Positive(bd)
    decreases |spaces| - n
  {
    if n >= |spaces| then boxes
    else SpacesFrom(spaces, bd, pallets, n + 1, SpaceFrom(spaces[n], bd, pallets, spaces[n].y, boxes))
  }

  /** The whole infill of `placeBoxes`: the side spaces, then the space above. */
  function BoxScan(c: Container, bd: Dimensions, pallets: seq<Pallet>): seq<Box>
    requires Positive(bd)
  {
    SpacesFrom(AllSpaces(c, pallets), bd, pallets, 0, [])
  }

  /** A turn of the Z loop tries cell `(x, y, z)` and goes on from the next row. */
  lemma RowFromStep(s: Space, bd: Dimensions, pallets: seq<Pallet>, x: real, y: real, z: real, boxes: seq<Box>)
    requires Positive(bd) && z <= s.z + s.depth - bd.depth
    ensures RowFrom(s, bd, pallets, x, y, z, boxes) ==
            RowFrom(s, bd, pallets, x, y, z + bd.depth, CellFrom(s, bd, pallets, boxes, Position(x, y, z)))
  {
  }

  /** A turn of the X loop fills column `x` and goes on from the next column. */
  lemma LayerOfBoxesStep(s: Space, bd: Dimensions, pallets: seq<Pallet>, y: real, x: real, boxes: seq<Box>)
    requires Positive(bd) && x <= s.x + s.width - bd.width
    ensures LayerOfBoxes(s, bd, pallets, y, x, boxes) ==
            LayerOfBoxes(s, bd, pallets, y, x + bd.width, RowFrom(s, bd, pallets, x, y, s.z, boxes))
  {
  }

  /** A turn of the Y loop fills layer `y` and goes on from the next layer. */
  lemma SpaceFromStep(s: Space, bd: Dimensions, pallets: seq<Pallet>, y: real, boxes: seq<Box>)
    requires Positive(bd) && y <= s.y + s.height - bd.height
    ensures SpaceFrom(s, bd, pallets, y, boxes) ==
            SpaceFrom(s, bd, pallets, y + bd.height, LayerOfBoxes(s, bd, pallets, y, s.x, boxes))
  {
  }

  /** A turn of the loop over the spaces fills space `n` and goes on from the next one. */
  lemma SpacesFromStep(spaces: seq<Space>, bd: Dimensions, pallets: seq<Pallet>, n: nat, boxes: seq<Box>)
    requires Positive(bd) && n < |spaces|
    ensures SpacesFrom(spaces, bd, pallets, n, boxes) ==
            SpacesFrom(spaces, bd, pallets, n + 1, SpaceFrom(spaces[n], bd, pallets, spaces[n].y, boxes))
  {
  }

  /** The orientation loop appends at most one box and keeps the boxes before it. */
  lemma CellFromExtends(s: Space, bd: Dimensions, pallets: seq<Pallet>, boxes: seq<Box>, p: Position)
    ensures var r := CellFrom(s, bd, pallets, boxes, p);
            |boxes| <= |r| <= |boxes| + 1 && r[..|boxes|] == boxes
  {
  }

  /** The reference cell adds one box exactly when some orientation of `bd`
      fits at `p`; that box stands at `p` and is the loop's choice there.
      Otherwise the list is unchanged. */
  lemma CellFromChoice(s: Space, bd: Dimensions, pallets: seq<Pallet>, boxes: seq<Box>, p: Position)
    requires s.x <= p.x && s.y <= p.y && s.z <= p.z
    ensures var r := CellFrom(s, bd, pallets, boxes, p);
            ((exists o :: o in BoxOrientations(bd) && BoxFits(p, o, s, pallets, boxes)) <==> |r| == |boxes| + 1) &&
            (|r| == |boxes| + 1 ==>
               r[..|boxes|] == boxes && r[|boxes|].position == p && BoxChoice(r, |boxes|, s, pallets, bd)) &&
            (|r| != |boxes| + 1 ==> r == boxes)
  {
    var os := BoxOrientations(bd);
    var r := CellFrom(s, bd, pallets, boxes, p);
    if |r| == |boxes| + 1 {
      assert r[..|boxes|] == boxes;
      var k := if BoxFits(p, os[0], s, pallets, boxes) then 0
               else if BoxFits(p, os[1], s, pallets, boxes) then 1 else 2;
      assert r[|boxes|].dimensions == os[k];
      assert forall j :: 0 <= j < k ==> !BoxFits(p, os[j], s, pallets, boxes);
    } else {
      forall o | o in os ensures !BoxFits(p, o, s, pallets, boxes) {
      }
    }
  }


  /** The orientation loop at one grid cell `p`: places the first
      orientation that fits, or nothing when none does. */
  method TryCell(s: Space, bd: Dimensions, pallets: seq<Pallet>, boxes: seq<Box>, p: Position)
    returns (boxes': seq<Box>)
    requires s.x <= p.x && s.y <= p.y && s.z <= p.z
    ensures (exists o :: o in BoxOrientations(bd) && BoxFits(p, o, s, pallets, boxes)) <==> |boxes'| == |boxes| + 1
    ensures |boxes'| == |boxes| + 1 ==>
              boxes'[..|boxes|] == boxes && boxes'[|boxes|].position == p &&
              BoxChoice(boxes', |boxes|, s, pallets, bd)
    ensures |boxes'| != |boxes| + 1 ==> boxes' == boxes
    ensures boxes' == CellFrom(s, bd, pallets, boxes, p)
  {
    var os := BoxOrientations(bd);
    var k := FirstIndex(os, BoxFitsAt(p, s, pallets, boxes));
    assert forall j :: 0 <= j < k ==> !BoxFitsAt(p, s, pallets, boxes)(os[j]);
    if k < |os| {
      assert BoxFitsAt(p, s, pallets, boxes)(os[k]);
      boxes' := boxes + [Item(os[k], BOX_WEIGHT, p)];
    } else {
      boxes' := boxes;
    }
    CellFromChoice(s, bd, pallets, boxes, p);
  }

  /** The orientation loop as the Z loop sees it: the reference cell. */
  /** One grid cell: trying it keeps the scan's record, with the cursor
      moved on to any later position. */
  lemma CellStep(from: nat, bs: seq<Box>, bs': seq<Box>, s: Space, pallets: seq<Pallet>, bd: Dimensions,
                 p: Position, q: Position)
    requires FilledBefore(from, bs, s, pallets, bd, p) && ScanBefore(p, q)
    requires bs' == bs ||
             (|bs'| == |bs| + 1 && bs'[..|bs|] == bs && bs'[|bs|].position == p &&
              BoxChoice(bs', |bs|, s, pallets, bd))
    ensures FilledBefore(from, bs', s, pallets, bd, q)
    ensures |bs| <= |bs'| && bs'[..|bs|] == bs
  {
    FilledBeforeLater(from, bs, s, pallets, bd, p, q);
    if bs' != bs {
      forall i | from <= i < |bs| ensures BoxChoice(bs', i, s, pallets, bd) {
        BoxChoicePrefix(bs, bs', i, s, pallets, bd);
      }
      forall i | from <= i < |bs'| ensures ScanBefore(bs'[i].position, q) {
        if i < |bs| {
          assert bs'[i] == bs[i];
        }
      }
      forall i, j | from <= i < j < |bs'| ensures ScanBefore(bs'[i].position, bs'[j].position) {
        assert bs'[i] == bs[i];
        if j < |bs| {
          assert bs'[j] == bs[j];
        }
      }
    }
  }

  /** The Z loop of one grid column `(x, y)` of space `s`. */
  method FillRow(s: Space, bd: Dimensions, pallets: seq<Pallet>, ghost from: nat, boxes: seq<Box>,
                 x: real, y: real)
    returns (boxes': seq<Box>)
    requires Positive(bd) && s.x <= x && s.y <= y
    requires FilledBefore(from, boxes, s, pallets, bd, Position(x, y, s.z))
    ensures |boxes| <= |boxes'| && boxes'[..|boxes|] == boxes
    ensures FilledBefore(from, boxes', s, pallets, bd, Position(x + bd.width, y, s.z))
    ensures boxes' == RowFrom(s, bd, pallets, x, y, s.z, boxes)
  {
    boxes' := boxes;
    var z := s.z;
    ghost var rest := s.z + s.depth - bd.depth - z;
    while z <= s.z + s.depth - bd.depth
      invariant z >= s.z && rest == s.z + s.depth - bd.depth - z
      invariant RowFrom(s, bd, pallets, x, y, z, boxes') == RowFrom(s, bd, pallets, x, y, s.z, boxes)
      decreases Ticks(rest, bd.depth)
    {
      var p := Position(x, y, z);
      var next := TryCell(s, bd, pallets, boxes', p);
      RowFromStep(s, bd, pallets, x, y, z, boxes');
      boxes' := next;
      TicksDecrease(rest, bd.depth, bd.depth);
      z := z + bd.depth;
      rest := rest - bd.depth;
    }
    RowFromPrefix(s, bd, pallets, x, y, s.z, boxes);
    RowFromFilled(s, bd, pallets, from, x, y, s.z, boxes);
  }

  /** The Z loop keeps the record of choices in scan order: the boxes it adds
      are choices at its cells, and come before the next column. */
  lemma {:induction false} RowFromPrefix(s: Space, bd: Dimensions, pallets: seq<Pallet>,
                                         x: real, y: real, z: real, boxes: seq<Box>)
    requires Positive(bd)
    ensures var r := RowFrom(s, bd, pallets, x, y, z, boxes);
            |boxes| <= |r| && r[..|boxes|] == boxes
    decreases Ticks(s.z + s.depth - bd.depth - z, bd.depth)
  {
    if z <= s.z + s.depth - bd.depth {
      var next := CellFrom(s, bd, pallets, boxes, Position(x, y, z));
      CellFromExtends(s, bd, pallets, boxes, Position(x, y, z));
      RowFromStep(s, bd, pallets, x, y, z, boxes);
      TicksDecrease(s.z + s.depth - bd.depth - z, bd.depth, bd.depth);
      RowFromPrefix(s, bd, pallets, x, y, z + bd.depth, next);
      var r := RowFrom(s, bd, pallets, x, y, z + bd.depth, next);
      assert r[..|next|][..|boxes|] == r[..|boxes|];
    }
  }

  lemma {:induction false} RowFromFilled(s: Space, bd: Dimensions, pallets: seq<Pallet>, from: nat,
                                         x: real, y: real, z: real, boxes: seq<Box>)
    requires Positive(bd) && s.x <= x && s.y <= y && s.z <= z
    requires FilledBefore(from, boxes, s, pallets, bd, Position(x, y, z))
    ensures FilledBefore(from, RowFrom(s, bd, pallets, x, y, z, boxes), s, pallets, bd, Position(x + bd.width, y, s.z))
    decreases Ticks(s.z + s.depth - bd.depth - z, bd.depth)
  {
    var p := Position(x, y, z);
    if z <= s.z + s.depth - bd.depth {
      var next := CellFrom(s, bd, pallets, boxes, p);
      CellFromChoice(s, bd, pallets, boxes, p);
      CellStep(from, boxes, next, s, pallets, bd, p, Position(x, y, z + bd.depth));
      RowFromStep(s, bd, pallets, x, y, z, boxes);
      TicksDecrease(s.z + s.depth - bd.depth - z, bd.depth, bd.depth);
      RowFromFilled(s, bd, pallets, from, x, y, z + bd.depth, next);
    } else {
      FilledBeforeLater(from, boxes, s, pallets, bd, p, Position(x + bd.width, y, s.z));
    }
  }


  /** The X loop of one layer `y` of space `s`. */
  method FillLayer(s: Space, bd: Dimensions, pallets: seq<Pallet>, ghost from: nat, boxes: seq<Box>, y: real)
    returns (boxes': seq<Box>)
    requires Positive(bd) && s.y <= y
    requires FilledBefore(from, boxes, s, pallets, bd, Position(s.x, y, s.z))
    ensures |boxes| <= |boxes'| && boxes'[..|boxes|] == boxes
    ensures FilledBefore(from, boxes', s, pallets, bd, Position(s.x, y + bd.height, s.z))
    ensures boxes' == LayerOfBoxes(s, bd, pallets, y, s.x, boxes)
  {
    boxes' := boxes;
    var x := s.x;
    ghost var rest := s.x + s.width - bd.width - x;
    while x <= s.x + s.width - bd.width
      invariant x >= s.x && rest == s.x + s.width - bd.width - x
      invariant |boxes| <= |boxes'| && boxes'[..|boxes|] == boxes
      invariant FilledBefore(from, boxes', s, pallets, bd, Position(x, y, s.z))
      invariant LayerOfBoxes(s, bd, pallets, y, x, boxes') == LayerOfBoxes(s, bd, pallets, y, s.x, boxes)
      decreases Ticks(rest, bd.width)
    {
      var prev := boxes';
      boxes' := FillRow(s, bd, pallets, from, boxes', x, y);
      LayerOfBoxesStep(s, bd, pallets, y, x, prev);
      assert boxes'[..|boxes|] == prev[..|boxes|];
      TicksDecrease(rest, bd.width, bd.width);
      x := x + bd.width;
      rest := rest - bd.width;
    }
    FilledBeforeLater(from, boxes', s, pallets, bd, Position(x, y, s.z), Position(s.x, y + bd.height, s.z));
  }

  /** The Y loop over one residual space: every box it adds was chosen while
      scanning `s`, and the boxes it adds come in scan order. */
  method FillSpace(s: Space, bd: Dimensions, pallets: seq<Pallet>, boxes: seq<Box>)
    returns (boxes': seq<Box>)
    requires Positive(bd)
    ensures |boxes| <= |boxes'| && boxes'[..|boxes|] == boxes
    ensures FilledFrom(|boxes|, boxes', s, pallets, bd)
    ensures boxes' == SpaceFrom(s, bd, pallets, s.y, boxes)
  {
    boxes' := boxes;
    var y := s.y;
    ghost var rest := s.y + s.height - bd.height - y;
    while y <= s.y + s.height - bd.height
      invariant y >= s.y && rest == s.y + s.height - bd.height - y
      invariant |boxes| <= |boxes'| && boxes'[..|boxes|] == boxes
      invariant FilledBefore(|boxes|, boxes', s, pallets, bd, Position(s.x, y, s.z))
      invariant SpaceFrom(s, bd, pallets, y, boxes') == SpaceFrom(s, bd, pallets, s.y, boxes)
      decreases Ticks(rest, bd.height)
    {
      var prev := boxes';
      boxes' := FillLayer(s, bd, pallets, |boxes|, boxes', y);
      SpaceFromStep(s, bd, pallets, y, prev);
      assert boxes'[..|boxes|] == prev[..|boxes|];
      TicksDecrease(rest, bd.height, bd.height);
      y := y + bd.height;
      rest := rest - bd.height;
    }
  }

  /** Box `i` of `bs` was chosen while scanning space `origin[i]`, one of the
      first `n` spaces; spaces were scanned one after another, and the boxes
      of one space are in scan order. */
  predicate FilledSpaces(bs: seq<Box>, origin: seq<nat>, spaces: seq<Space>, n: nat,
                         pallets: seq<Pallet>, bd: Dimensions)
  {
    |origin| == |bs| && n <= |spaces| &&
    (forall i :: 0 <= i < |bs| ==> origin[i] < n && BoxChoice(bs, i, spaces[origin[i]], pallets, bd)) &&
    (forall i, j :: 0 <= i < j < |bs| ==> origin[i] <= origin[j]) &&
    (forall i, j :: 0 <= i < j < |bs| && origin[i] == origin[j] ==>
       ScanBefore(bs[i].position, bs[j].position))
  }

  /** Scanning space `n` after the first `n` extends the record. */
  lemma SpaceStep(bs: seq<Box>, bs': seq<Box>, origin: seq<nat>, spaces: seq<Space>, n: nat,
                  pallets: seq<Pallet>, bd: Dimensions)
    requires FilledSpaces(bs, origin, spaces, n, pallets, bd) && n < |spaces|
    requires |bs| <= |bs'| && bs'[..|bs|] == bs
    requires FilledFrom(|bs|, bs', spaces[n], pallets, bd)
    ensures FilledSpaces(bs', origin + seq(|bs'| - |bs|, _ => n), spaces, n + 1, pallets, bd)
  {
    var origin' := origin + seq(|bs'| - |bs|, _ => n);
    SpaceStepChoices(bs, bs', origin, origin', spaces, n, pallets, bd);
    SpaceStepOrder(bs, bs', origin, origin', n);
  }

  lemma SpaceStepChoices(bs: seq<Box>, bs': seq<Box>, origin: seq<nat>, origin': seq<nat>, spaces: seq<Space>,
                         n: nat, pallets: seq<Pallet>, bd: Dimensions)
    requires |origin| == |bs| <= |bs'| && bs'[..|bs|] == bs && n < |spaces|
    requires origin' == origin + seq(|bs'| - |bs|, _ => n)
    requires forall i :: 0 <= i < |bs| ==> origin[i] < n && BoxChoice(bs, i, spaces[origin[i]], pallets, bd)
    requires forall i :: |bs| <= i < |bs'| ==> BoxChoice(bs', i, spaces[n], pallets, bd)
    ensures forall i :: 0 <= i < |bs'| ==> origin'[i] < n + 1 && BoxChoice(bs', i, spaces[origin'[i]], pallets, bd)
  {
    forall i | 0 <= i < |bs'| ensures origin'[i] < n + 1 && BoxChoice(bs', i, spaces[origin'[i]], pallets, bd) {
      if i < |bs| {
        assert origin'[i] == origin[i];
        BoxChoicePrefix(bs, bs', i, spaces[origin[i]], pallets, bd);
      } else {
        assert origin'[i] == n;
      }
    }
  }

  lemma SpaceStepOrder(bs: seq<Box>, bs': seq<Box>, origin: seq<nat>, origin': seq<nat>, n: nat)
    requires |origin| == |bs| <= |bs'| && bs'[..|bs|] == bs
    requires origin' == origin + seq(|bs'| - |bs|, _ => n)
    requires forall i :: 0 <= i < |bs| ==> origin[i] < n
    requires forall i, j :: 0 <= i < j < |bs| ==> origin[i] <= origin[j]
    requires forall i, j :: 0 <= i < j < |bs| && origin[i] == origin[j] ==>
               ScanBefore(bs[i].position, bs[j].position)
    requires forall i, j :: |bs| <= i < j < |bs'| ==> ScanBefore(bs'[i].position, bs'[j].position)
    ensures forall i, j :: 0 <= i < j < |bs'| ==> origin'[i] <= origin'[j]
    ensures forall i, j :: 0 <= i < j < |bs'| && origin'[i] == origin'[j] ==>
              ScanBefore(bs'[i].position, bs'[j].position)
  {
    assert forall i :: 0 <= i < |bs| ==> origin'[i] == origin[i] && bs'[i] == bs[i];
    assert forall i :: |bs| <= i < |bs'| ==> origin'[i] == n;
  }

  lemma InsideSpaceTransitive(a: Space, b: Space, c: Space)
    requires InsideSpace(a, b) && InsideSpace(b, c)
    ensures InsideSpace(a, c)
  {
  }

  /** What the record of a full scan guarantees: boxes of the right
      orientation and weight, inside their spaces, meeting no pallet and no
      other box. */
  lemma FilledSpacesSound(bs: seq<Box>, origin: seq<nat>, spaces: seq<Space>, n: nat,
                          pallets: seq<Pallet>, bd: Dimensions)
    requires FilledSpaces(bs, origin, spaces, n, pallets, bd)
    ensures forall i :: 0 <= i < |bs| ==>
              bs[i].weight == BOX_WEIGHT && bs[i].dimensions in BoxOrientations(bd) &&
              InsideSpace(ItemSpace(bs[i]), spaces[origin[i]])
    ensures PairwiseDisjoint(bs) && DisjointFrom(bs, pallets)
  {
    forall i | 0 <= i < |bs|
      ensures bs[i].dimensions in BoxOrientations(bd) && InsideSpace(ItemSpace(bs[i]), spaces[origin[i]])
      ensures forall j :: 0 <= j < |pallets| ==> !CheckIntersection(ItemSpace(bs[i]), ItemSpace(pallets[j]))
      ensures forall j :: 0 <= j < i ==> !CheckIntersection(ItemSpace(bs[i]), ItemSpace(bs[j]))
    {
      BoxChoiceSound(bs, i, spaces[origin[i]], pallets, bd);
    }
  }

  /** `placeBoxes`: scans the side spaces and then the space above, sharing
      one box list. `origin[i]` is the index, in `AllSpaces`, of the space
      box `i` was placed in. */
  method PlaceBoxes(c: Container, bd: Dimensions, pallets: seq<Pallet>)
    returns (boxes: seq<Box>, ghost origin: seq<nat>)
    requires Positive(bd)
    ensures FilledSpaces(boxes, origin, AllSpaces(c, pallets), |AllSpaces(c, pallets)|, pallets, bd)
    ensures forall i :: 0 <= i < |boxes| ==>
              boxes[i].weight == BOX_WEIGHT && boxes[i].dimensions in BoxOrientations(bd)
    ensures PairwiseDisjoint(boxes) && DisjointFrom(boxes, pallets)
    ensures |pallets| == 0 ==> boxes == []
    ensures (forall i :: 0 <= i < |pallets| ==> InFloorPlan(c, pallets[i])) ==>
              forall i :: 0 <= i < |boxes| ==> InsideSpace(ItemSpace(boxes[i]), ContainerSpace(c))
    ensures boxes == BoxScan(c, bd, pallets)
  {
    var spaces := FindSideSpaces(c, pallets) + FindSpacesAbovePallets(c, pallets);
    boxes, origin := FillSpaces(spaces, bd, pallets);
    FilledSpacesSound(boxes, origin, spaces, |spaces|, pallets, bd);
    FilledSpacesInContainer(c, boxes, origin, pallets, bd);
  }

  /** The loop of `placeBoxes`: fill the spaces one after another, each
      against the pallets and every box placed so far. */
  method FillSpaces(spaces: seq<Space>, bd: Dimensions, pallets: seq<Pallet>)
    returns (boxes: seq<Box>, ghost origin: seq<nat>)
    requires Positive(bd)
    ensures FilledSpaces(boxes, origin, spaces, |spaces|, pallets, bd)
    ensures |spaces| == 0 ==> boxes == []
    ensures boxes == SpacesFrom(spaces, bd, pallets, 0, [])
  {
    boxes := [];
    origin := [];
    var n := 0;
    while n < |spaces|
      invariant n <= |spaces|
      invariant FilledSpaces(boxes, origin, spaces, n, pallets, bd)
      invariant n == 0 ==> boxes == []
      invariant SpacesFrom(spaces, bd, pallets, n, boxes) == SpacesFrom(spaces, bd, pallets, 0, [])
    {
      var next := FillSpace(spaces[n], bd, pallets, boxes);
      SpacesFromStep(spaces, bd, pallets, n, boxes);
      assert SpacesFrom(spaces, bd, pallets, n + 1, next) == SpacesFrom(spaces, bd, pallets, 0, []);
      SpaceStep(boxes, next, origin, spaces, n, pallets, bd);
      origin := origin + seq(|next| - |boxes|, _ => n);
      boxes := next;
      n := n + 1;
    }
  }

  /** Boxes placed in the residual spaces of pallets in the floor plan lie
      inside the container. */
  lemma FilledSpacesInContainer(c: Container, bs: seq<Box>, origin: seq<nat>, pallets: seq<Pallet>, bd: Dimensions)
    requires FilledSpaces(bs, origin, AllSpaces(c, pallets), |AllSpaces(c, pallets)|, pallets, bd)
    ensures (forall i :: 0 <= i < |pallets| ==> InFloorPlan(c, pallets[i])) ==>
              forall i :: 0 <= i < |bs| ==> InsideSpace(ItemSpace(bs[i]), ContainerSpace(c))
  {
    var spaces := AllSpaces(c, pallets);
    if forall i :: 0 <= i < |pallets| ==> InFloorPlan(c, pallets[i]) {
      AllSpacesInside(c, pallets);
      forall i | 0 <= i < |bs| ensures InsideSpace(ItemSpace(bs[i]), ContainerSpace(c)) {
        BoxChoiceSound(bs, i, spaces[origin[i]], pallets, bd);
        assert spaces[origin[i]] in spaces;
        InsideSpaceTransitive(ItemSpace(bs[i]), spaces[origin[i]], ContainerSpace(c));
      }
    }
  }
}
