/**
 * Solar system sizing: monthly bill to units, goal-adjusted size rounded to
 * 0.5 kW and clamped, roof-space override, snap to a standard size, and the
 * savings, cost, payback and panel figures for the chosen size.
 */
module SolarCalculator {
  import opened Wrappers
  import opened RealMath

  datatype SolarType = Residential | Commercial

  datatype SolarGoal = ReduceBills | Independence | Backup | Environmental

  /** Average electricity rate (currency per unit). */
  const AvgRatePerUnit: real := 6.0
  /** Units generated per kW per month. */
  const UnitsPerKwPerMonth: real := 120.0
  /** Roof area needed per kW (sq. ft). */
  const SqftPerKw: real := 100.0
  /** System cost per kW (currency). */
  const CostPerKw: int := 60000
  /** Panels per kW. */
  const PanelsPerKw: int := 3
  /** Share of the bill that savings can never exceed. */
  const SavingsCap: real := 0.8

  /** estimateMonthlyUnits: the least integer not below bill / rate. */
  function EstimateMonthlyUnits(monthlyBill: real): (units: int)
    ensures monthlyBill / AvgRatePerUnit <= units as real < monthlyBill / AvgRatePerUnit + 1.0
  {
    Ceil(monthlyBill / AvgRatePerUnit)
  }

  function GoalFactor(goal: SolarGoal): (f: real)
    ensures f > 0.0
  {
    match goal
    case ReduceBills => 0.75
    case Independence => 1.2
    case Backup => 0.6
    case Environmental => 0.8
  }

  /** The largest size (kW) an installation type allows before snapping. */
  function MaxSize(solarType: SolarType): real {
    if solarType == Residential then 10.0 else 50.0
  }

  /** `x` is a whole multiple of 0.5. */
  predicate IsHalfStep(x: real) {
    (2.0 * x).Floor as real == 2.0 * x
  }

  /** The goal-adjusted size before rounding and clamping. */
  function TargetSize(monthlyUnits: int, goal: SolarGoal): real {
    monthlyUnits as real / UnitsPerKwPerMonth * GoalFactor(goal)
  }

  /** Math.round(x * 2) / 2: the nearest multiple of 0.5, halves rounded upward. */
  function RoundToHalf(x: real): (h: real)
    ensures IsHalfStep(h) && h - 0.25 <= x < h + 0.25
  {
    var n := Round(x * 2.0);
    assert (2.0 * (n as real / 2.0)).Floor == n;
    n as real / 2.0
  }

  /** The two clamps: at least 3 kW, at most the type's maximum. */
  function ClampSize(kw: real, solarType: SolarType): real {
    Min(MaxSize(solarType), Max(3.0, kw))
  }

  /**
   * The size half-up rounded to a multiple of 0.5 and clamped to [3, MaxSize]:
   * a target below 2.75 gives 3, one at or above MaxSize + 0.25 gives MaxSize,
   * and any other target lies within 0.25 of the result (ties counted upward).
   */
  function SystemSize(monthlyUnits: int, goal: SolarGoal, solarType: SolarType): (kw: real)
    ensures 3.0 <= kw <= MaxSize(solarType) && IsHalfStep(kw)
    ensures var x := TargetSize(monthlyUnits, goal);
      && (x < 2.75 ==> kw == 3.0)
      && (x >= MaxSize(solarType) + 0.25 ==> kw == MaxSize(solarType))
      && (2.75 <= x < MaxSize(solarType) + 0.25 ==> kw - 0.25 <= x < kw + 0.25)
  {
    var x := TargetSize(monthlyUnits, goal);
    var rounded := RoundToHalf(x);
    var n := (2.0 * rounded).Floor;
    assert rounded == n as real / 2.0;
    assert x >= 2.75 ==> n >= 6;
    assert x < MaxSize(solarType) + 0.25 ==> n as real <= 2.0 * MaxSize(solarType);
    var kw := ClampSize(rounded, solarType);
    assert kw == 3.0 || kw == MaxSize(solarType) || kw == rounded;
    assert IsHalfStep(3.0) && IsHalfStep(MaxSize(solarType));
    kw
  }

  /** calculateSystemSize: reassigns the size through the goal switch, the rounding and the two clamps. */
  method CalculateSystemSize(monthlyUnits: int, goal: SolarGoal, solarType: SolarType) returns (systemKW: real)
    ensures systemKW == SystemSize(monthlyUnits, goal, solarType)
  {
    systemKW := monthlyUnits as real / UnitsPerKwPerMonth;
    match goal {
      case ReduceBills => systemKW := systemKW * 0.75;
      case Independence => systemKW := systemKW * 1.2;
      case Backup => systemKW := systemKW * 0.6;
      case Environmental => systemKW := systemKW * 0.8;
    }
    assert systemKW == TargetSize(monthlyUnits, goal);
    systemKW := Round(systemKW * 2.0) as real / 2.0;
    assert systemKW == RoundToHalf(TargetSize(monthlyUnits, goal));
    systemKW := Max(3.0, systemKW);
    if solarType == Residential {
      systemKW := Min(10.0, systemKW);
    } else {
      systemKW := Min(50.0, systemKW);
    }
  }

  /** The size never decreases as consumption grows. */
  lemma SystemSizeMonotone(units1: int, units2: int, goal: SolarGoal, solarType: SolarType)
    requires units1 <= units2
    ensures SystemSize(units1, goal, solarType) <= SystemSize(units2, goal, solarType)
  {
    var x1, x2 := TargetSize(units1, goal), TargetSize(units2, goal);
    assert x1 <= x2;
    RoundMonotone(x1 * 2.0, x2 * 2.0);
  }

  /** checkRoofSpace: the roof holds a system when its area is at least 100 sq. ft per kW. */
  function CheckRoofSpace(systemKW: real, availableSpace: real): bool {
    availableSpace >= systemKW * SqftPerKw
  }

  /** A roof that holds a system also holds any smaller one, and so does any larger roof. */
  lemma RoofCheckMonotone(kw1: real, kw2: real, roof1: real, roof2: real)
    requires kw1 <= kw2 && roof2 <= roof1 && CheckRoofSpace(kw2, roof2)
    ensures CheckRoofSpace(kw1, roof1)
  {
  }

  /** The size the roof-space override assigns: whole kW that fit, but at least 3. */
  function RoofLimitedSize(roofSpace: real): (kw: int)
    ensures kw >= 3
    ensures roofSpace >= 300.0 ==> CheckRoofSpace(kw as real, roofSpace) && !CheckRoofSpace(kw as real + 1.0, roofSpace)
    ensures roofSpace < 300.0 ==> kw == 3 && !CheckRoofSpace(kw as real, roofSpace)
  {
    var whole := Floor(roofSpace / SqftPerKw);
    if 3 >= whole then 3 else whole
  }

  /** When the roof is too small for a size of at least 3 kW, the override never enlarges the system. */
  lemma RoofOverrideNeverGrows(systemKW: real, roofSpace: real)
    requires systemKW >= 3.0 && !CheckRoofSpace(systemKW, roofSpace)
    ensures RoofLimitedSize(roofSpace) as real <= systemKW
  {
    assert roofSpace / SqftPerKw < systemKW;
  }

  // ---------------------------------------------------------------------------
  // Standard sizes

  function StandardSizes(solarType: SolarType): (sizes: seq<int>)
    ensures |sizes| > 0
  {
    if solarType == Residential then [3, 5, 7, 10] else [3, 5, 10, 15, 20, 25, 30]
  }

  lemma StandardSizesIncreasing(solarType: SolarType)
    ensures var s := StandardSizes(solarType); forall i, j :: 0 <= i < j < |s| ==> s[i] < s[j]
  {
  }

  function Dist(size: int, x: real): real {
    Abs(size as real - x)
  }

  /**
   * The position `reduce` settles on when scanning `sizes` from the left and moving
   * only to a strictly closer entry: a closest entry, and every earlier entry is
   * strictly farther.
   */
  function ClosestIndex(sizes: seq<int>, x: real): (k: nat)
    requires |sizes| > 0
    ensures k < |sizes|
    ensures forall j :: 0 <= j < |sizes| ==> Dist(sizes[k], x) <= Dist(sizes[j], x)
    ensures forall j :: 0 <= j < k ==> Dist(sizes[j], x) > Dist(sizes[k], x)
  {
    if |sizes| == 1 then 0
    else
      var init := sizes[..|sizes| - 1];
      var prev := ClosestIndex(init, x);
      assert init[prev] == sizes[prev];
      if Dist(sizes[|sizes| - 1], x) < Dist(sizes[prev], x) then |sizes| - 1 else prev
  }

  /**
   * roundToStandardSize: a standard size for the type, no standard size is strictly
   * closer, and of two equally close sizes the smaller is returned.
   */
  function RoundToStandardSize(systemKW: real, solarType: SolarType): (r: int)
    ensures r in StandardSizes(solarType)
    ensures forall s :: s in StandardSizes(solarType) ==> Dist(r, systemKW) <= Dist(s, systemKW)
    ensures forall s :: s in StandardSizes(solarType) && Dist(s, systemKW) == Dist(r, systemKW) ==> r <= s
    ensures 3 <= r <= (if solarType == Residential then 10 else 30)
  {
    var sizes := StandardSizes(solarType);
    StandardSizesIncreasing(solarType);
    var k := ClosestIndex(sizes, systemKW);
    assert forall j :: 0 <= j < |sizes| && Dist(sizes[j], systemKW) == Dist(sizes[k], systemKW) ==> k <= j;
    sizes[k]
  }

  // ---------------------------------------------------------------------------
  // Financials

  datatype Savings = Savings(monthly: int, annual: int)

  /** Monthly savings before rounding: generation value, capped at 80% of the bill. */
  function MonthlySavingsExact(systemKW: real, monthlyBill: real): real {
    Min(systemKW * UnitsPerKwPerMonth * AvgRatePerUnit, monthlyBill * SavingsCap)
  }

  /**
   * calculateSavings: monthly and annual savings are the unrounded monthly figure
   * and twelve times it, each rounded; the monthly figure never exceeds the rounded
   * cap of 80% of the bill, and the annual figure is within 6 of twelve times it.
   */
  function CalculateSavings(systemKW: real, monthlyBill: real): (s: Savings)
    ensures var exact := MonthlySavingsExact(systemKW, monthlyBill);
      && s.monthly as real - 0.5 <= exact < s.monthly as real + 0.5
      && s.annual as real - 0.5 <= 12.0 * exact < s.annual as real + 0.5
    ensures s.monthly <= Round(monthlyBill * SavingsCap)
    ensures s.monthly <= Round(systemKW * UnitsPerKwPerMonth * AvgRatePerUnit)
    ensures -6 <= s.annual - 12 * s.monthly <= 6
  {
    var monthlySavings := MonthlySavingsExact(systemKW, monthlyBill);
    RoundMonotone(monthlySavings, monthlyBill * SavingsCap);
    RoundMonotone(monthlySavings, systemKW * UnitsPerKwPerMonth * AvgRatePerUnit);
    Savings(Round(monthlySavings), Round(monthlySavings * 12.0))
  }

  /** The annual figure is not the rounded monthly figure times twelve. */
  lemma AnnualSavingsNotTwelveMonths()
    ensures CalculateSavings(3.0, 125.5) == Savings(100, 1205)
  {
    assert MonthlySavingsExact(3.0, 125.5) == 100.4;
    CeilUnique(0.0, 0);
    assert Round(100.4) == 100;
    assert Round(1204.8) == 1205;
  }

  /** Payback in years to one decimal, or undefined when there are no annual savings. */
  datatype Payback = Years(years: real) | Undefined

  predicate IsTenth(y: real) {
    (y * 10.0).Floor as real == y * 10.0
  }

  /** calculateROI: cost over annual savings, rounded half-up to one decimal. */
  function CalculateROI(systemKW: real, annualSavings: int): (p: Payback)
    ensures p.Undefined? <==> annualSavings == 0
    ensures p.Years? ==>
      var exact := systemKW * CostPerKw as real / annualSavings as real;
      IsTenth(p.years) && p.years - 0.05 <= exact < p.years + 0.05
  {
    if annualSavings == 0 then Undefined
    else
      var roiYears := systemKW * CostPerKw as real / annualSavings as real;
      var tenths := Round(roiYears * 10.0);
      assert (tenths as real / 10.0 * 10.0).Floor == tenths;
      Years(tenths as real / 10.0)
  }

  // ---------------------------------------------------------------------------
  // Recommendation

  /** The explanation's content: whether the roof limited the size, and the figures quoted. */
  datatype SolarExplanation = SolarExplanation(
    monthlyBill: real,
    monthlyUnits: int,
    systemKW: int,
    roofLimit: Option<real>,
    billReductionPercent: Option<int>,
    payback: Payback)

  datatype SolarRecommendation = SolarRecommendation(
    systemSize: int,
    systemType: string,
    panelCount: int,
    estimatedMonthlySavings: int,
    estimatedAnnualSavings: int,
    estimatedCost: int,
    roiYears: Payback,
    explanation: SolarExplanation,
    roofSpaceNeeded: real,
    isRoofSufficient: bool)

  function SystemTypeDescription(solarType: SolarType): string {
    if solarType == Residential then "Off-Grid Solar System with Battery Backup" else "On-Grid Solar System"
  }

  /** Savings as a rounded percentage of the bill; undefined for a zero bill. */
  function BillReduction(monthlySavings: int, monthlyBill: real): Option<int> {
    if monthlyBill == 0.0 then None else Some(Round(monthlySavings as real / monthlyBill * 100.0))
  }

  /** The size after the roof check, before snapping. */
  function PreSnapSize(solarType: SolarType, monthlyBill: real, roofSpace: real, goal: SolarGoal): real {
    var kw := SystemSize(EstimateMonthlyUnits(monthlyBill), goal, solarType);
    if CheckRoofSpace(kw, roofSpace) then kw else RoofLimitedSize(roofSpace) as real
  }

  /**
   * The figures reported for a snapped size `size`, given the units and the
   * pre-override size `sized` the roof was checked against.
   */
  function Figures(solarType: SolarType, monthlyBill: real, roofSpace: real, units: int, sized: real, size: int)
    : SolarRecommendation
  {
    var fits := CheckRoofSpace(sized, roofSpace);
    var savings := CalculateSavings(size as real, monthlyBill);
    var roi := CalculateROI(size as real, savings.annual);
    SolarRecommendation(
      size, SystemTypeDescription(solarType), size * PanelsPerKw,
      savings.monthly, savings.annual, size * CostPerKw, roi,
      SolarExplanation(monthlyBill, units, size, if fits then None else Some(roofSpace),
        BillReduction(savings.monthly, monthlyBill), roi),
      sized * SqftPerKw, fits)
  }

  /** The recommendation for an installation type, bill, roof area and goal. */
  function SolarPlan(solarType: SolarType, monthlyBill: real, roofSpace: real, goal: SolarGoal): SolarRecommendation {
    var units := EstimateMonthlyUnits(monthlyBill);
    var sized := SystemSize(units, goal, solarType);
    var size := RoundToStandardSize(PreSnapSize(solarType, monthlyBill, roofSpace, goal), solarType);
    Figures(solarType, monthlyBill, roofSpace, units, sized, size)
  }

  /** getSolarRecommendation: sizes, applies the roof override, snaps, and builds the figures and explanation. */
  method GetSolarRecommendation(solarType: SolarType, monthlyBill: real, roofSpace: real, goal: SolarGoal)
    returns (rec: SolarRecommendation)
    ensures rec == SolarPlan(solarType, monthlyBill, roofSpace, goal)
  {
    var monthlyUnits := EstimateMonthlyUnits(monthlyBill);
    var systemKW := CalculateSystemSize(monthlyUnits, goal, solarType);
    ghost var sized := systemKW;

    var requiredSpace := systemKW * SqftPerKw;
    var isRoofSufficient := roofSpace >= requiredSpace;

    if !isRoofSufficient {
      systemKW := Floor(roofSpace / SqftPerKw) as real;
      systemKW := Max(3.0, systemKW);
    }
    assert systemKW == PreSnapSize(solarType, monthlyBill, roofSpace, goal);

    var recommendedSystemKW := RoundToStandardSize(systemKW, solarType);
    assert SolarPlan(solarType, monthlyBill, roofSpace, goal)
        == Figures(solarType, monthlyBill, roofSpace, monthlyUnits, sized, recommendedSystemKW);

    var savings := CalculateSavings(recommendedSystemKW as real, monthlyBill);
    var estimatedCost := recommendedSystemKW * CostPerKw;
    var roiYears := CalculateROI(recommendedSystemKW as real, savings.annual);
    var panelCount := recommendedSystemKW * PanelsPerKw;

    var systemTypeDesc := SystemTypeDescription(solarType);

    var explanation := SolarExplanation(monthlyBill, monthlyUnits, recommendedSystemKW, None, None, Undefined);
    if !isRoofSufficient {
      explanation := explanation.(roofLimit := Some(roofSpace));
    }
    explanation := explanation.(billReductionPercent := BillReduction(savings.monthly, monthlyBill), payback := roiYears);

    rec := SolarRecommendation(
      recommendedSystemKW, systemTypeDesc, panelCount,
      savings.monthly, savings.annual, estimatedCost, roiYears, explanation,
      requiredSpace, isRoofSufficient);
  }

  /**
   * The roof check and its override: the reported requirement is that of the size
   * before the override; when the roof is short, the pre-snap size becomes the whole
   * kW that fit (at least 3), which fits any roof of at least 300 sq. ft and never
   * exceeds the size it replaced.
   */
  lemma RoofOverride(solarType: SolarType, monthlyBill: real, roofSpace: real, goal: SolarGoal)
    ensures var rec := SolarPlan(solarType, monthlyBill, roofSpace, goal);
      var sized := SystemSize(EstimateMonthlyUnits(monthlyBill), goal, solarType);
      var pre := PreSnapSize(solarType, monthlyBill, roofSpace, goal);
      && rec.roofSpaceNeeded == sized * SqftPerKw
      && (rec.isRoofSufficient <==> roofSpace >= rec.roofSpaceNeeded)
      && (rec.isRoofSufficient ==> pre == sized && rec.explanation.roofLimit == None)
      && (!rec.isRoofSufficient ==>
            pre == RoofLimitedSize(roofSpace) as real && pre <= sized && rec.explanation.roofLimit == Some(roofSpace))
      && (!rec.isRoofSufficient && roofSpace >= 300.0 ==> CheckRoofSpace(pre, roofSpace))
  {
    var sized := SystemSize(EstimateMonthlyUnits(monthlyBill), goal, solarType);
    if !CheckRoofSpace(sized, roofSpace) {
      RoofOverrideNeverGrows(sized, roofSpace);
    }
  }

  /** Snapping can round the roof-limited size up past what the roof holds: a 900 sq. ft roof gets 10 kW. */
  lemma SnapCanExceedRoof()
    ensures var rec := SolarPlan(Residential, 50000.0, 900.0, Independence);
      !rec.isRoofSufficient && rec.systemSize == 10 && !CheckRoofSpace(rec.systemSize as real, 900.0)
  {
    var units := EstimateMonthlyUnits(50000.0);
    CeilUnique(50000.0 / AvgRatePerUnit, 8334);
    assert SystemSize(units, Independence, Residential) == 10.0;
    assert RoofLimitedSize(900.0) == 9;
    assert Dist(10, 9.0) < Dist(7, 9.0);
  }

  /** Monthly savings never exceed the rounded 80% of the bill. */
  lemma SavingsCapped(solarType: SolarType, monthlyBill: real, roofSpace: real, goal: SolarGoal)
    ensures SolarPlan(solarType, monthlyBill, roofSpace, goal).estimatedMonthlySavings <= Round(monthlyBill * SavingsCap)
  {
  }

  /**
   * For a bill of at least 1 the annual savings are positive, so the payback is
   * defined, and it is a whole number of tenths of a year.
   */
  lemma PaybackDefined(solarType: SolarType, monthlyBill: real, roofSpace: real, goal: SolarGoal)
    requires monthlyBill >= 1.0
    ensures var rec := SolarPlan(solarType, monthlyBill, roofSpace, goal);
      rec.estimatedAnnualSavings > 0 && rec.roiYears.Years? && IsTenth(rec.roiYears.years)
  {
    var rec := SolarPlan(solarType, monthlyBill, roofSpace, goal);
    var size := rec.systemSize;
    assert size >= 3;
    var exact := MonthlySavingsExact(size as real, monthlyBill);
    assert size as real * UnitsPerKwPerMonth * AvgRatePerUnit >= 2160.0;
    assert exact >= 0.8;
    assert rec.estimatedAnnualSavings as real + 0.5 > 12.0 * exact;
  }

  /** The size, panel count and cost are whole numbers tied to one standard size. */
  lemma WholeFigures(solarType: SolarType, monthlyBill: real, roofSpace: real, goal: SolarGoal)
    ensures var rec := SolarPlan(solarType, monthlyBill, roofSpace, goal);
      && rec.systemSize in StandardSizes(solarType)
      && rec.panelCount == rec.systemSize * PanelsPerKw && rec.estimatedCost == rec.systemSize * CostPerKw
      && 9 <= rec.panelCount <= 3 * (if solarType == Residential then 10 else 30)
      && rec.estimatedCost == rec.panelCount * 20000
  {
  }

  /** A 5000 bill, 500 sq. ft roof, residential, reduce-bills: 834 units, 5 kW, 15 panels, roof sufficient. */
  lemma ExampleReduceBills()
    ensures var rec := SolarPlan(Residential, 5000.0, 500.0, ReduceBills);
      rec.explanation.monthlyUnits == 834 && rec.systemSize == 5 && rec.panelCount == 15 && rec.isRoofSufficient
  {
    CeilUnique(5000.0 / AvgRatePerUnit, 834);
    assert TargetSize(834, ReduceBills) == 5.2125;
    assert Round(10.425) == 10;
    assert SystemSize(834, ReduceBills, Residential) == 5.0;
    assert 5 in StandardSizes(Residential);
  }

  /** A 50000 bill on a 100 sq. ft roof, residential, independence: capped at 10 kW, overridden to 3 kW. */
  lemma ExampleSmallRoof()
    ensures var rec := SolarPlan(Residential, 50000.0, 100.0, Independence);
      rec.roofSpaceNeeded == 1000.0 && !rec.isRoofSufficient && rec.systemSize == 3
  {
    CeilUnique(50000.0 / AvgRatePerUnit, 8334);
    assert SystemSize(8334, Independence, Residential) == 10.0;
    assert RoofLimitedSize(100.0) == 3;
    assert 3 in StandardSizes(Residential);
  }
}
