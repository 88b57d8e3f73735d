/** The records exchanged by the packing engine (`src/types/types.ts`). */
module Types {

  /** Edge lengths of an item or of the container, in one consistent unit. */
  datatype Dimensions = Dimensions(width: real, height: real, depth: real)

  /** Minimum corner of an item; the origin is the container's bottom, near, left corner. */
  datatype Position = Position(x: real, y: real, z: real)

  /** The container; `maxWeight` is carried but never enforced by the engine. */
  datatype Container = Container(dimensions: Dimensions, maxWeight: real)

  /** A placed pallet or box. The source declares `Pallet` and `Box` as two
      interfaces with the same three fields, so one datatype serves both. */
  datatype Item = Item(dimensions: Dimensions, weight: real, position: Position)

  type Pallet = Item
  type Box = Item

  datatype PackingResult = PackingResult(
    pallets: seq<Pallet>,
    boxes: seq<Box>,
    unusedSpace: real,
    totalWeight: real,
    utilizationPercentage: real)

  predicate Positive(d: Dimensions)
  {
    d.width > 0.0 && d.height > 0.0 && d.depth > 0.0
  }

  /** `calculateVolume`, the product of the three edges. It is zero exactly
      when one edge is, and positive for a positive size. */
  function Volume(d: Dimensions): (v: real)
    ensures v == 0.0 <==> d.width == 0.0 || d.height == 0.0 || d.depth == 0.0
    ensures Positive(d) ==> v > 0.0
  {
    ProductZero(d.width, d.height);
    ProductZero(d.width * d.height, d.depth);
    d.width * d.height * d.depth
  }

  lemma ProductZero(a: real, b: real)
    ensures a * b == 0.0 <==> a == 0.0 || b == 0.0
    ensures a > 0.0 && b > 0.0 ==> a * b > 0.0
  {
  }

  /** `a` lists the same three edge lengths as `b`, in some order. */
  predicate IsPermutationOf(a: Dimensions, b: Dimensions)
  {
    multiset{a.width, a.height, a.depth} == multiset{b.width, b.height, b.depth}
  }
}
