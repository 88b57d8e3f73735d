/** Axis-aligned boxes: the `Space` record shared by `palletPacking.ts` and
    `boxPacking.ts`, the separating-interval overlap test `checkIntersection`,
    and the containment and disjointness predicates the engine's invariants
    are stated with. */
module Geometry {
  import opened Types

  /** Absolute tolerance of the container-boundary tests. */
  const EPSILON: real := 0.001

  /** The half-open box `[x, x+width) × [y, y+height) × [z, z+depth)`. */
  datatype Space = Space(x: real, y: real, z: real, width: real, height: real, depth: real)

  function SpaceOf(p: Position, d: Dimensions): Space
  {
    Space(p.x, p.y, p.z, d.width, d.height, d.depth)
  }

  function ItemSpace(it: Item): Space
  {
    SpaceOf(it.position, it.dimensions)
  }

  /** `checkIntersection`: the boxes overlap unless, on some axis, one ends
      where or before the other begins. No tolerance is applied here. */
  predicate CheckIntersection(a: Space, b: Space)
  {
    !(a.x + a.width <= b.x ||
      a.x >= b.x + b.width ||
      a.y + a.height <= b.y ||
      a.y >= b.y + b.height ||
      a.z + a.depth <= b.z ||
      a.z >= b.z + b.depth)
  }

  /** Point `p` lies in the half-open box `s`. */
  predicate Contains(s: Space, p: Position)
  {
    s.x <= p.x < s.x + s.width &&
    s.y <= p.y < s.y + s.height &&
    s.z <= p.z < s.z + s.depth
  }

  predicate PositiveSize(s: Space)
  {
    s.width > 0.0 && s.height > 0.0 && s.depth > 0.0
  }

  lemma CheckIntersectionSymmetric(a: Space, b: Space)
    ensures CheckIntersection(a, b) == CheckIntersection(b, a)
  {
  }

  /** Boxes that only share a face on some axis do not intersect. */
  lemma TouchingFacesDoNotIntersect(a: Space, b: Space)
    requires a.x + a.width == b.x || a.y + a.height == b.y || a.z + a.depth == b.z
    ensures !CheckIntersection(a, b) && !CheckIntersection(b, a)
  {
  }

  /** For boxes of positive size, `checkIntersection` holds exactly when the
      two boxes share a point. */
  lemma IntersectionIsCommonPoint(a: Space, b: Space)
    requires PositiveSize(a) && PositiveSize(b)
    ensures CheckIntersection(a, b) <==> exists p :: Contains(a, p) && Contains(b, p)
  {
    if CheckIntersection(a, b) {
      var p := Position(if a.x <= b.x then b.x else a.x,
                        if a.y <= b.y then b.y else a.y,
                        if a.z <= b.z then b.z else a.z);
      assert Contains(a, p) && Contains(b, p);
    }
  }

  /** The container-boundary test of `canPlace`: the box may stick out of the
      container, and may start below zero, by at most EPSILON on each axis. */
  predicate WithinContainer(p: Position, d: Dimensions, c: Container)
  {
    p.x + d.width <= c.dimensions.width + EPSILON &&
    p.y + d.height <= c.dimensions.height + EPSILON &&
    p.z + d.depth <= c.dimensions.depth + EPSILON &&
    p.x >= -EPSILON && p.y >= -EPSILON && p.z >= -EPSILON
  }

  /** `inner` lies within `outer`, with no tolerance. */
  predicate InsideSpace(inner: Space, outer: Space)
  {
    outer.x <= inner.x && inner.x + inner.width <= outer.x + outer.width &&
    outer.y <= inner.y && inner.y + inner.height <= outer.y + outer.height &&
    outer.z <= inner.z && inner.z + inner.depth <= outer.z + outer.depth
  }

  function ContainerSpace(c: Container): Space
  {
    Space(0.0, 0.0, 0.0, c.dimensions.width, c.dimensions.height, c.dimensions.depth)
  }

  lemma InsideIsWithin(it: Item, c: Container)
    requires InsideSpace(ItemSpace(it), ContainerSpace(c))
    ensures WithinContainer(it.position, it.dimensions, c)
  {
  }

  /** No later item intersects an earlier one (and so, by symmetry of
      `CheckIntersection`, no two items intersect). */
  predicate PairwiseDisjoint(items: seq<Item>)
  {
    forall i, j :: 0 <= j < i < |items| ==> !CheckIntersection(ItemSpace(items[i]), ItemSpace(items[j]))
  }

  /** No item of `items` intersects any item of `others`. */
  predicate DisjointFrom(items: seq<Item>, others: seq<Item>)
  {
    forall i, j :: 0 <= i < |items| && 0 <= j < |others| ==>
      !CheckIntersection(ItemSpace(items[i]), ItemSpace(others[j]))
  }

  /** Two disjoint families, each pairwise disjoint, form a pairwise disjoint whole. */
  lemma PairwiseDisjointConcat(a: seq<Item>, b: seq<Item>)
    requires PairwiseDisjoint(a) && PairwiseDisjoint(b) && DisjointFrom(b, a)
    ensures PairwiseDisjoint(a + b)
  {
    var ab := a + b;
    forall i, j | 0 <= j < i < |ab|
      ensures !CheckIntersection(ItemSpace(ab[i]), ItemSpace(ab[j]))
    {
      if i < |a| {
        assert ab[i] == a[i] && ab[j] == a[j];
      } else if j < |a| {
        assert ab[i] == b[i - |a|] && ab[j] == a[j];
      } else {
        assert ab[i] == b[i - |a|] && ab[j] == b[j - |a|];
      }
    }
  }

  /** `p` comes before `q` in the order both placers scan positions in:
      by Y (layer), then X (column), then Z (row). */
  predicate ScanBefore(p: Position, q: Position)
  {
    p.y < q.y || (p.y == q.y && (p.x < q.x || (p.x == q.x && p.z < q.z)))
  }
}
