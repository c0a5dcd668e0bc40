/**
 * The pricing engine of the concrete flatwork bid calculator: from an area
 * (square feet) and a slab thickness (inches) it prices three work
 * categories (soil removal, road base, concrete) in whole cents under a
 * fixed markup, totals them and derives an operational handoff record.
 */
module Bid {
  import opened JsMath

  // ---- Rate table ----

  const Markup: real := 1.43
  /** Dollars per labor hour. */
  const LaborRate: real := 48.0
  /** Road base material, dollars per cubic yard. */
  const BaseMaterialRate: real := 35.0
  /** Compactor rental, dollars, charged once per road base job. */
  const CompactorRental: real := 250.0
  /** Concrete material, dollars per cubic yard. */
  const ConcreteMaterialRate: real := 225.0
  /** Flatwork labor, dollars per square foot. */
  const FlatworkRate: real := 1.75
  /** Floor on the flatwork labor charge, dollars. */
  const FlatworkMin: real := 1500.0
  /** Loose volume of road base over its design volume. */
  const RoadCompaction: real := 1.2
  /** Ordered concrete over its design volume (20% waste). */
  const ConcreteWaste: real := 1.2
  /** Soil removal labor hours per cubic yard. */
  const SoilHoursPerCY: real := 0.6
  /** Road base labor hours per loose cubic yard. */
  const BaseHoursPerCY: real := 1.0
  /** Square feet times inches per cubic yard: 12 inches per foot, 27 cubic feet per yard. */
  const InchSqFtPerCY: real := 324.0

  // ---- The result record ----

  datatype SoilResult = SoilResult(priceC: int)
  datatype RoadBaseResult = RoadBaseResult(priceC: int, looseCY: real)
  datatype ConcreteResult = ConcreteResult(priceC: int, designCY: real, orderedCY: real)
  datatype TotalsResult = TotalsResult(priceC: int)

  datatype InstallPrep = InstallPrep(totalLaborHours: real)
  datatype HandoffRoadBase = HandoffRoadBase(looseCY: real)
  datatype HandoffConcrete = HandoffConcrete(designCY: real, orderedCY: real, budgetCents: int)
  datatype Handoff = Handoff(installPrep: InstallPrep, roadBase: HandoffRoadBase, concrete: HandoffConcrete)

  datatype BidResult = BidResult(
    soil: SoilResult,
    roadBase: RoadBaseResult,
    concrete: ConcreteResult,
    totals: TotalsResult,
    handoff: Handoff)

  datatype Option<T> = None | Some(value: T)

  // ---- Quantities ----

  /** Design volume of the slab in cubic yards. */
  function DesignCY(sf: real, thicknessInches: real): (cy: real)
    ensures cy * InchSqFtPerCY == sf * thicknessInches
    ensures sf > 0.0 && thicknessInches > 0.0 ==> cy > 0.0
  {
    (sf * thicknessInches) / InchSqFtPerCY
  }

  // ---- Category costs, in cents, before markup ----

  /** Soil removal: labor only; the exact dollar cost to within half a cent. */
  function SoilCostC(cy: real): (c: int)
    ensures c as real - 0.5 <= cy * SoilHoursPerCY * LaborRate * 100.0 < c as real + 0.5
  {
    var soilLaborHours := cy * SoilHoursPerCY;
    ToCents(soilLaborHours * LaborRate)
  }

  /**
   * Road base: material and labor on the loose volume plus the compactor
   * rental; the exact dollar cost to within one cent, never below the rental.
   */
  function RoadBaseCostC(cy: real): (c: int)
    ensures var exact := cy * RoadCompaction * (BaseMaterialRate + BaseHoursPerCY * LaborRate) * 100.0 + 25000.0;
      exact - 1.0 <= c as real <= exact + 1.0
    ensures cy >= 0.0 ==> c >= 25000
  {
    var baseLooseCY := cy * RoadCompaction;
    var baseMaterialCostC := ToCents(baseLooseCY * BaseMaterialRate);
    var baseLaborHours := baseLooseCY * BaseHoursPerCY;
    var baseLaborCostC := ToCents(baseLaborHours * LaborRate);
    var compactorRentalC := ToCents(CompactorRental);
    ToCentsWhole(250);
    baseMaterialCostC + baseLaborCostC + compactorRentalC
  }

  /** Concrete material on the ordered volume; the exact dollar cost to within half a cent. */
  function CreteMaterialCostC(cy: real): (c: int)
    ensures c as real - 0.5 <= cy * ConcreteWaste * ConcreteMaterialRate * 100.0 < c as real + 0.5
  {
    var creteOrderedCY := cy * ConcreteWaste;
    ToCents(creteOrderedCY * ConcreteMaterialRate)
  }

  /** Flatwork labor: the area charge, but never less than the minimum. */
  function FlatworkC(sf: real): (c: int)
    ensures c >= 150000 && c >= ToCents(sf * FlatworkRate)
    ensures c == 150000 || c == ToCents(sf * FlatworkRate)
  {
    ToCentsWhole(1500);
    var minC := ToCents(FlatworkMin);
    var areaC := ToCents(sf * FlatworkRate);
    if minC >= areaC then minC else areaC
  }

  // ---- The pipeline ----

  /**
   * calculateBid. Total for every input, as the original is; its caller
   * only invokes it on positive inputs (see Calculate).
   */
  function CalculateBid(sf: real, thicknessInches: real): (r: BidResult)
    ensures r.totals.priceC == r.soil.priceC + r.roadBase.priceC + r.concrete.priceC
    ensures r.concrete.designCY * InchSqFtPerCY == sf * thicknessInches
    ensures r.roadBase.looseCY == r.handoff.roadBase.looseCY == r.handoff.concrete.orderedCY
    ensures r.roadBase.looseCY == Round2(r.concrete.orderedCY)
    ensures r.handoff.concrete.designCY == Round2(r.concrete.designCY)
    ensures r.handoff.installPrep.totalLaborHours == Round2(1.8 * r.concrete.designCY)
    ensures r.handoff.concrete.budgetCents == CentsMul(CreteMaterialCostC(r.concrete.designCY), Markup)
  {
    var cy := DesignCY(sf, thicknessInches);

    var soilLaborHours := cy * SoilHoursPerCY;
    var soilPriceC := CentsMul(SoilCostC(cy), Markup);

    var baseLooseCY := cy * RoadCompaction;
    var baseLaborHours := baseLooseCY * BaseHoursPerCY;
    var basePriceC := CentsMul(RoadBaseCostC(cy), Markup);

    var creteDesignCY := cy;
    var creteOrderedCY := creteDesignCY * ConcreteWaste;
    var cretePriceC := CentsMul(CreteMaterialCostC(cy) + FlatworkC(sf), Markup);

    var totalPriceC := soilPriceC + basePriceC + cretePriceC;

    assert soilLaborHours + baseLaborHours == 1.8 * cy;
    BidResult(
      SoilResult(soilPriceC),
      RoadBaseResult(basePriceC, Round2(baseLooseCY)),
      ConcreteResult(cretePriceC, creteDesignCY, creteOrderedCY),
      TotalsResult(totalPriceC),
      Handoff(
        InstallPrep(Round2(soilLaborHours + baseLaborHours)),
        HandoffRoadBase(Round2(baseLooseCY)),
        // the budget is recomputed from the ordered volume, not reused
        HandoffConcrete(Round2(creteDesignCY), Round2(creteOrderedCY),
                        CentsMul(ToCents(creteOrderedCY * ConcreteMaterialRate), Markup))))
  }

  // ---- The validity gate of the caller ----

  /** The inputs the caller accepts; any other input produces no bid. */
  predicate ValidInput(sf: real, thicknessInches: real)
    ensures ValidInput(sf, thicknessInches) ==> DesignCY(sf, thicknessInches) > 0.0
  {
    sf > 0.0 && thicknessInches > 0.0
  }

  /** Validates, then calculates; None stands for the hidden result panel. */
  function Calculate(sf: real, thicknessInches: real): (r: Option<BidResult>)
    ensures r.Some? <==> sf > 0.0 && thicknessInches > 0.0
    ensures r.Some? ==> r.value == CalculateBid(sf, thicknessInches)
    ensures r.Some? ==> r.value.totals.priceC >= 250250
  {
    if ValidInput(sf, thicknessInches) then
      PriceFloors(sf, thicknessInches);
      Some(CalculateBid(sf, thicknessInches))
    else
      None
  }

  // ---- Properties ----

  /**
   * The flatwork charge is never below the $1500 minimum, and it is the
   * area charge exactly when the area charge reaches the minimum.
   */
  lemma FlatworkFloor(sf: real)
    ensures FlatworkC(sf) >= 150000
    ensures FlatworkC(sf) == ToCents(sf * FlatworkRate) <==> ToCents(sf * FlatworkRate) >= 150000
  {
    ToCentsWhole(1500);
  }

  /**
   * Below the threshold area (where the area charge is under $1500) the
   * flatwork charge is exactly the minimum; at or above it, it is the
   * area charge, rounded to the cent.
   */
  lemma FlatworkThreshold(sf: real)
    ensures sf * FlatworkRate < FlatworkMin ==> FlatworkC(sf) == 150000
    ensures sf * FlatworkRate >= FlatworkMin ==> FlatworkC(sf) == ToCents(sf * FlatworkRate)
  {
    ToCentsWhole(1500);
    if sf * FlatworkRate < FlatworkMin {
      ToCentsMonotone(sf * FlatworkRate, FlatworkMin);
    } else {
      ToCentsMonotone(FlatworkMin, sf * FlatworkRate);
    }
  }

  /**
   * Fixed costs put floors under the prices of a valid bid: the compactor
   * rental under road base, the flatwork minimum under concrete.
   */
  lemma PriceFloors(sf: real, thicknessInches: real)
    requires sf > 0.0 && thicknessInches > 0.0
    ensures var r := CalculateBid(sf, thicknessInches);
      && r.soil.priceC >= 0
      && r.roadBase.priceC >= CentsMul(25000, Markup) == 35750
      && r.concrete.priceC >= CentsMul(150000, Markup) == 214500
      && r.totals.priceC >= 250250
  {
    var cy := DesignCY(sf, thicknessInches);
    assert cy >= 0.0 by {
      assert sf * thicknessInches > 0.0;
    }
    ToCentsNonnegative(cy * SoilHoursPerCY * LaborRate);
    CentsMulNonnegative(SoilCostC(cy), Markup);
    CentsMulMonotone(25000, RoadBaseCostC(cy), Markup);
    FlatworkFloor(sf);
    ToCentsNonnegative(cy * ConcreteWaste * ConcreteMaterialRate);
    CentsMulMonotone(150000, CreteMaterialCostC(cy) + FlatworkC(sf), Markup);
  }

  /**
   * The handoff budget is the concrete material cost after markup; it never
   * exceeds the concrete price, and the concrete price is the budget plus the
   * marked-up flatwork charge to within one cent.
   */
  lemma BudgetWithinConcretePrice(sf: real, thicknessInches: real)
    requires sf > 0.0 && thicknessInches > 0.0
    ensures var r := CalculateBid(sf, thicknessInches);
      && r.handoff.concrete.budgetCents <= r.concrete.priceC
      && -1 <= r.concrete.priceC - r.handoff.concrete.budgetCents - CentsMul(FlatworkC(sf), Markup) <= 1
  {
    var cy := DesignCY(sf, thicknessInches);
    FlatworkFloor(sf);
    CentsMulMonotone(CreteMaterialCostC(cy), CreteMaterialCostC(cy) + FlatworkC(sf), Markup);
    CentsMulAdditive(CreteMaterialCostC(cy), FlatworkC(sf), Markup);
  }

  /**
   * The one-cent slack of BudgetWithinConcretePrice is attained on both
   * sides: marking up material and flatwork together is not the same as
   * marking them up separately.
   */
  lemma BudgetSlackAttained()
    ensures exists sf, thicknessInches :: (sf > 0.0 && thicknessInches > 0.0 &&
      var r := CalculateBid(sf, thicknessInches);
      r.concrete.priceC - r.handoff.concrete.budgetCents - CentsMul(FlatworkC(sf), Markup) == 1)
    ensures exists sf, thicknessInches :: (sf > 0.0 && thicknessInches > 0.0 &&
      var r := CalculateBid(sf, thicknessInches);
      r.concrete.priceC - r.handoff.concrete.budgetCents - CentsMul(FlatworkC(sf), Markup) == -1)
  {
    // 901 sq ft at 5 in: 375417 + 157675 cents marks up to 762322, separately to 536846 + 225475
    ConcreteSlackAt(901.0, 5.0, 375417, 157675, 762322, 536846, 225475);
    // 902 sq ft at 4 in: 300667 + 157850 cents marks up to 655679, separately to 429954 + 225726
    ConcreteSlackAt(902.0, 4.0, 300667, 157850, 655679, 429954, 225726);
  }

  /** The concrete costs and marked-up amounts of one bid, given their values. */
  lemma ConcreteSlackAt(sf: real, thicknessInches: real, material: int, flatwork: int,
                        price: int, budget: int, flatworkPrice: int)
    requires ToCents(DesignCY(sf, thicknessInches) * ConcreteWaste * ConcreteMaterialRate) == material
    requires ToCents(sf * FlatworkRate) == flatwork >= 150000
    requires CentsMul(material + flatwork, Markup) == price
    requires CentsMul(material, Markup) == budget
    requires CentsMul(flatwork, Markup) == flatworkPrice
    ensures var r := CalculateBid(sf, thicknessInches);
      r.concrete.priceC - r.handoff.concrete.budgetCents - CentsMul(FlatworkC(sf), Markup)
        == price - budget - flatworkPrice
  {
    ToCentsWhole(1500);
  }

  /** Both sides of the flatwork maximum occur for valid areas. */
  lemma FlatworkBranchesReachable()
    ensures exists sf :: sf > 0.0 && FlatworkC(sf) == 150000 > ToCents(sf * FlatworkRate)
    ensures exists sf :: sf > 0.0 && FlatworkC(sf) == ToCents(sf * FlatworkRate) > 150000
  {
    assert FlatworkC(500.0) == 150000 > ToCents(500.0 * FlatworkRate);
    assert FlatworkC(1000.0) == ToCents(1000.0 * FlatworkRate) > 150000;
  }

  /** Road base loose volume and concrete ordered volume are the same 1.2 x design volume. */
  lemma LooseEqualsOrdered(sf: real, thicknessInches: real)
    ensures var r := CalculateBid(sf, thicknessInches);
      && r.concrete.orderedCY == 1.2 * (sf * thicknessInches / 324.0)
      && r.roadBase.looseCY == Round2(r.concrete.orderedCY) == r.handoff.concrete.orderedCY
  {
  }

  /** Multiplying by a non-negative factor keeps order. */
  lemma MulMonotone(a: real, b: real, k: real)
    requires a <= b && k >= 0.0
    ensures a * k <= b * k
  {
    assert (b - a) * k >= 0.0;
  }

  /** Every price of the bid, as a function of the design volume and the area. */
  lemma PricesMonotone(sf1: real, cy1: real, sf2: real, cy2: real)
    requires sf1 <= sf2 && cy1 <= cy2
    ensures CentsMul(SoilCostC(cy1), Markup) <= CentsMul(SoilCostC(cy2), Markup)
    ensures CentsMul(RoadBaseCostC(cy1), Markup) <= CentsMul(RoadBaseCostC(cy2), Markup)
    ensures CentsMul(CreteMaterialCostC(cy1) + FlatworkC(sf1), Markup)
         <= CentsMul(CreteMaterialCostC(cy2) + FlatworkC(sf2), Markup)
  {
    ToCentsMonotone(cy1 * SoilHoursPerCY * LaborRate, cy2 * SoilHoursPerCY * LaborRate);
    CentsMulMonotone(SoilCostC(cy1), SoilCostC(cy2), Markup);

    ToCentsMonotone(cy1 * RoadCompaction * BaseMaterialRate, cy2 * RoadCompaction * BaseMaterialRate);
    ToCentsMonotone(cy1 * RoadCompaction * BaseHoursPerCY * LaborRate, cy2 * RoadCompaction * BaseHoursPerCY * LaborRate);
    CentsMulMonotone(RoadBaseCostC(cy1), RoadBaseCostC(cy2), Markup);

    ToCentsMonotone(cy1 * ConcreteWaste * ConcreteMaterialRate, cy2 * ConcreteWaste * ConcreteMaterialRate);
    ToCentsMonotone(sf1 * FlatworkRate, sf2 * FlatworkRate);
    CentsMulMonotone(CreteMaterialCostC(cy1) + FlatworkC(sf1), CreteMaterialCostC(cy2) + FlatworkC(sf2), Markup);
  }

  /** With the thickness fixed, a larger area never lowers any price or the total. */
  lemma MonotoneInArea(sf1: real, sf2: real, thicknessInches: real)
    requires sf1 <= sf2 && thicknessInches >= 0.0
    ensures var r1, r2 := CalculateBid(sf1, thicknessInches), CalculateBid(sf2, thicknessInches);
      && r1.soil.priceC <= r2.soil.priceC
      && r1.roadBase.priceC <= r2.roadBase.priceC
      && r1.concrete.priceC <= r2.concrete.priceC
      && r1.totals.priceC <= r2.totals.priceC
  {
    MulMonotone(sf1, sf2, thicknessInches);
    PricesMonotone(sf1, DesignCY(sf1, thicknessInches), sf2, DesignCY(sf2, thicknessInches));
  }

  /** With the area fixed and non-negative, a thicker slab never lowers any price or the total. */
  lemma MonotoneInThickness(sf: real, t1: real, t2: real)
    requires sf >= 0.0 && t1 <= t2
    ensures var r1, r2 := CalculateBid(sf, t1), CalculateBid(sf, t2);
      && r1.soil.priceC <= r2.soil.priceC
      && r1.roadBase.priceC <= r2.roadBase.priceC
      && r1.concrete.priceC <= r2.concrete.priceC
      && r1.totals.priceC <= r2.totals.priceC
  {
    MulMonotone(t1, t2, sf);
    assert sf * t1 <= sf * t2;
    PricesMonotone(sf, DesignCY(sf, t1), sf, DesignCY(sf, t2));
  }

  /** A 500 square foot, 4 inch slab, priced exactly. */
  lemma Example500By4()
    ensures var r := CalculateBid(500.0, 4.0);
      && r.soil.priceC == 25423
      && r.roadBase.priceC == 123669
      && r.concrete.priceC == 452834
      && r.totals.priceC == 601926
      && r.roadBase.looseCY == 7.41
      && r.handoff.installPrep.totalLaborHours == 11.11
      && r.handoff.concrete.designCY == 6.17
      && r.handoff.concrete.budgetCents == 238334
  {
  }
}
