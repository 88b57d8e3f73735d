/** A concrete pallet load of the client packer whose boxes rise above the
    container: `palletsPerContainerY` counts layers of bare pallets, while the
    layers are stacked a pallet plus a box apart. */
module ClientOverflow {
  import opened Types
  import opened Lattice
  import opened ClientPacking

  /** The plan for two 80 × 10 × 120 boxes in an 80 × 28 × 120 container:
      one box per pallet, two pallets needed, one column of two layers. */
  lemma OverflowPlan()
    ensures PlanOf(Dimensions(80.0, 28.0, 120.0), Dimensions(80.0, 10.0, 120.0), 2)
            == PalletPlan(1, 1, 1, 2, 1, 2, 1, 2, 24.0)
  {
    var plan := PlanOf(Dimensions(80.0, 28.0, 120.0), Dimensions(80.0, 10.0, 120.0), 2);
    assert plan.perRow == 1 && plan.rows == 1;
    assert plan.across == 1 && plan.deep == 1 && plan.layers == 2;
    assert plan.needed == 2;
  }

  /** The box and the plan of the example. */
  predicate Example(b: Dimensions, plan: PalletPlan)
  {
    b == Dimensions(80.0, 10.0, 120.0) && plan == PalletPlan(1, 1, 1, 2, 1, 2, 1, 2, 24.0)
  }

  /** The first pallet carries one box. */
  lemma FirstGroup(b: Dimensions, plan: PalletPlan)
    requires Example(b, plan)
    ensures |PalletGroup(b, plan, 2, 0)| == 2
  {
    GroupShape(b, plan, 2, 0);
  }

  /** The second pallet stands one layer pitch, 24 cm, up, and carries one
      box, on top of it at 38 cm. */
  lemma SecondGroup(b: Dimensions, plan: PalletPlan)
    requires Example(b, plan)
    ensures var g := PalletGroup(b, plan, 2, 1);
            |g| == 2 && g[1].kind == BoxItem && g[1].position.y == 38.0 && g[1].dimensions.height == 10.0
  {
    GroupShape(b, plan, 2, 1);
    assert Remaining(2, 1, 1) == 1;
    assert DigitsOf(1, 1, 1) == Digits(0, 0, 1);
  }

  /** The two pallet groups of that plan, in loop order. */
  lemma OverflowLoads(b: Dimensions, plan: PalletPlan)
    requires Example(b, plan)
    ensures var loads := PalletLoads(b, plan, 2, 2);
            |loads| == 4 && loads[3].kind == BoxItem && loads[3].position.y == 38.0 &&
            loads[3].dimensions.height == 10.0
  {
    FirstGroup(b, plan);
    SecondGroup(b, plan);
    var first, second := PalletGroup(b, plan, 2, 0), PalletGroup(b, plan, 2, 1);
    assert PalletLoads(b, plan, 2, 1) == first;
    assert PalletLoads(b, plan, 2, 2) == first + second;
  }

  /** Layers are counted from the pallet height alone (line 50) but stacked a
      pallet plus a box apart (line 65), so a layer's boxes can end above the
      container: in a 28 cm high container two layers are counted, and the
      box on the second pallet spans 38 to 48 cm. */
  lemma LayersCanOverflowHeight()
    ensures var c, b := Dimensions(80.0, 28.0, 120.0), Dimensions(80.0, 10.0, 120.0);
            var r := PalletPacking(c, b, 2);
            && |r| == 4 && r[3].kind == BoxItem
            && r[3].position.y == 38.0
            && r[3].position.y + r[3].dimensions.height > c.height
  {
    OverflowPlan();
    OverflowLoads(Dimensions(80.0, 10.0, 120.0), PalletPlan(1, 1, 1, 2, 1, 2, 1, 2, 24.0));
  }
}
