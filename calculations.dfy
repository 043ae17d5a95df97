/** The scoring and economics engine of src/utils/calculations.ts: the
    weighted risk score, the three-tier grade, the non-linear fuel model, the
    CO2 estimate, the per-vehicle analysis and the fleet insights.

    `Math.pow(x, 1.3)` is the parameter `pow`, constrained by `PowLaw` to
    the facts the model uses on [0, 1]. */
module Calculations {
  import opened Vehicle
  import opened Sorting

  // ---------------------------------------------------------------------
  // Constants (calculations.ts lines 26-44)

  const IdealEfficiency: real := 6.0   // 기본연비, km/L
  const DieselPrice: real := 1600.0    // 경유가격, won/L
  const CO2PerLitre: real := 2.65      // CO2배출계수, kg/L
  const TreeAbsorption: real := 6.6    // 나무CO2흡수량, kg per tree and year
  const MaxDegradation: real := 0.35   // 최대악화율
  const SaturationScore: real := 50.0  // the score at which risk saturates

  /** 위험행동가중치: fuel-economy weight of each behaviour. */
  function Weight(b: Behavior): (w: real)
    ensures 0.7 <= w <= 2.0
  {
    match b
    case HardAcceleration => 1.5
    case HardLaunch => 1.3
    case HardDeceleration => 1.0
    case HardBraking => 1.2
    case Speeding => 1.4
    case ProlongedSpeeding => 2.0
    case HardLeftTurn => 0.7
    case HardRightTurn => 0.7
    case HardUTurn => 0.8
    case HardOvertake => 0.9
    case HardLaneChange => 0.8
  }

  /** The facts about `Math.pow(x, 1.3)` on [0, 1] the model relies on. */
  ghost predicate PowLaw(pow: real -> real) {
    && pow(0.0) == 0.0
    && pow(1.0) == 1.0
    && forall x, y :: 0.0 <= x <= y <= 1.0 ==> pow(x) <= pow(y)
  }

  // ---------------------------------------------------------------------
  // Rounding

  /** `Math.round`: the nearest integer, halves rounded up. */
  function Round(x: real): (n: int)
    ensures n as real - 0.5 <= x < n as real + 0.5
  {
    (x + 0.5).Floor
  }

  /** `Math.round(x * 10) / 10`: one decimal place. */
  function Round1(x: real): (r: real)
    ensures r - 0.05 <= x < r + 0.05
    ensures (r * 10.0).Floor as real == r * 10.0
  {
    Round(x * 10.0) as real / 10.0
  }

  // ---------------------------------------------------------------------
  // Scoring engine (lines 67-86, 202-205)

  /** The weighted sum of the eleven counts, as written out at lines 71-82
      and again at 142-153; counts are already per 100 km. */
  function WeightedSum(v: VehicleData): (sum: real)
    ensures NonNegativeCounts(v) ==> sum >= 0.0
  {
    v.hardAcceleration * Weight(HardAcceleration) +
    v.hardLaunch * Weight(HardLaunch) +
    v.hardDeceleration * Weight(HardDeceleration) +
    v.hardBraking * Weight(HardBraking) +
    v.speeding * Weight(Speeding) +
    v.prolongedSpeeding * Weight(ProlongedSpeeding) +
    v.hardLeftTurn * Weight(HardLeftTurn) +
    v.hardRightTurn * Weight(HardRightTurn) +
    v.hardUTurn * Weight(HardUTurn) +
    v.hardOvertake * Weight(HardOvertake) +
    v.hardLaneChange * Weight(HardLaneChange)
  }

  /** A behaviour's weighted contribution: count times weight. */
  function WeightedCount(v: VehicleData, b: Behavior): real {
    Count(v, b) * Weight(b)
  }

  /** The records the fuel model has a value for: from 1 km on, the
      weighted score is not negative. A negative score would reach
      `Math.pow` with a negative base, which is NaN in JavaScript. */
  predicate ScoreDefined(v: VehicleData) {
    v.totalDistance >= 1.0 ==> WeightedSum(v) >= 0.0
  }

  /** calculateWeightedRiskScore: 0 below 1 km, else the weighted sum. */
  function WeightedRiskScore(v: VehicleData): (score: real)
    ensures v.totalDistance < 1.0 ==> score == 0.0
    ensures NonNegativeCounts(v) ==> score >= 0.0
    ensures ScoreDefined(v) <==> score >= 0.0
  {
    if v.totalDistance < 1.0 then 0.0 else WeightedSum(v)
  }

  /** calculateRiskScore: the weighted score rounded to the nearest integer. */
  function RiskScore(v: VehicleData): (n: int)
    ensures n as real - 0.5 <= WeightedRiskScore(v) < n as real + 0.5
    ensures NonNegativeCounts(v) ==> n >= 0
    ensures ScoreDefined(v) ==> n >= 0
    ensures v.totalDistance < 1.0 ==> n == 0
  {
    Round(WeightedRiskScore(v))
  }

  // ---------------------------------------------------------------------
  // Grade classifier (lines 94-121)

  /** The tier of a weighted score; each tier includes its lower bound. */
  function GradeOf(score: real): (g: SafetyGrade)
    ensures g == Danger <==> score >= 30.0
    ensures g == Warning <==> 10.0 <= score < 30.0
    ensures g == Safe <==> score < 10.0
  {
    if score >= 30.0 then Danger
    else if score >= 10.0 then Warning
    else Safe
  }

  /** calculateSafetyGrade: graded on the unrounded weighted score. */
  function CalculateSafetyGrade(v: VehicleData): (g: SafetyGrade)
    ensures v.totalDistance < 1.0 ==> g == Safe
    ensures v.totalDistance >= 1.0 ==> (g == Danger <==> WeightedSum(v) >= 30.0)
  {
    GradeOf(WeightedRiskScore(v))
  }

  // ---------------------------------------------------------------------
  // Economics model (lines 127-197)

  /** 정규화위험도 = min(score / 50, 1.0). */
  function NormalizedRisk(score: real): (r: real)
    ensures r <= 1.0
    ensures score >= 0.0 ==> 0.0 <= r
    ensures score <= SaturationScore ==> r == score / SaturationScore
    ensures score >= SaturationScore ==> r == 1.0
  {
    if score / SaturationScore <= 1.0 then score / SaturationScore else 1.0
  }

  /** 연비악화율 = 0.35 * pow(normalized risk). */
  function DegradationRate(score: real, pow: real -> real): (rate: real)
    requires PowLaw(pow)
    requires score >= 0.0
    ensures 0.0 <= rate <= MaxDegradation
  {
    var n := NormalizedRisk(score);
    assert pow(0.0) <= pow(n) <= pow(1.0);
    MaxDegradation * pow(n)
  }

  /** 현재연비 before rounding: 6 * (1 - degradation rate). */
  function RawEfficiency(score: real, pow: real -> real): (e: real)
    requires PowLaw(pow)
    requires score >= 0.0
    ensures 3.9 <= e <= IdealEfficiency
  {
    IdealEfficiency * (1.0 - DegradationRate(score, pow))
  }

  /** 절감가능연료: fuel used at efficiency `e` minus fuel used at the ideal. */
  function RecoverableFuel(distance: real, e: real): (fuel: real)
    requires 0.0 < e <= IdealEfficiency
    requires distance >= 0.0
    ensures fuel >= 0.0
  {
    DivAntitone(distance, e, IdealEfficiency);
    distance / e - distance / IdealEfficiency
  }

  /** 연비개선율 before rounding, in percent. */
  function RawImprovement(e: real): (pct: real)
    requires 3.9 <= e <= IdealEfficiency
    ensures 0.0 <= pct <= 53.85
  {
    DivAntitone(IdealEfficiency, 3.9, e);
    assert (IdealEfficiency - e) / e == IdealEfficiency / e - 1.0;
    (IdealEfficiency - e) / e * 100.0
  }

  datatype FuelSaving = FuelSaving(
    saving: int,        // 절감액, won
    improvement: real,  // 연비개선율, percent to one decimal
    efficiency: real    // 현재연비, km/L to one decimal
  )

  /** Steps 2-7 of calculateFuelSavings for a distance of at least 1 km and
      a non-negative weighted score. */
  function FuelModel(distance: real, score: real, pow: real -> real): (f: FuelSaving)
    requires PowLaw(pow)
    requires distance >= 1.0 && score >= 0.0
    ensures 3.9 <= f.efficiency <= IdealEfficiency
    ensures f.saving >= 0
    ensures 0.0 <= f.improvement <= 53.9
  {
    var e := RawEfficiency(score, pow);
    var fuel := RecoverableFuel(distance, e);
    var pct := RawImprovement(e);
    Round1Monotone(3.9, e);
    Round1Monotone(e, IdealEfficiency);
    Round1Monotone(0.0, pct);
    Round1Monotone(pct, 53.85);
    FuelSaving(Round(fuel * DieselPrice), Round1(pct), Round1(e))
  }

  /** calculateFuelSavings, for the records with a non-negative score (a
      negative one would reach `Math.pow` with a negative base). */
  function FuelSavings(v: VehicleData, pow: real -> real): (f: FuelSaving)
    requires PowLaw(pow)
    requires ScoreDefined(v)
    ensures v.totalDistance < 1.0 ==> f == FuelSaving(0, 0.0, IdealEfficiency)
    ensures v.totalDistance >= 1.0 ==>
      && 3.9 <= f.efficiency <= IdealEfficiency
      && f.saving >= 0
      && 0.0 <= f.improvement <= 53.9
  {
    if v.totalDistance < 1.0 then FuelSaving(0, 0.0, IdealEfficiency)
    else FuelModel(v.totalDistance, WeightedSum(v), pow)
  }

  /** The CO2 figure before rounding, re-derived from the rounded saving. */
  function RawCO2(saving: int): real {
    saving as real / DieselPrice * CO2PerLitre
  }

  datatype CO2Reduction = CO2Reduction(co2: int, trees: int)

  /** calculateCO2Reduction: kg of CO2 from the saved money, rounded, and
      the whole trees absorbing the UNROUNDED figure in a year. */
  function CalculateCO2Reduction(saving: int): (c: CO2Reduction)
    ensures c.co2 as real - 0.5 <= RawCO2(saving) < c.co2 as real + 0.5
    ensures c.trees as real * TreeAbsorption <= RawCO2(saving) < (c.trees + 1) as real * TreeAbsorption
    ensures saving >= 0 ==> c.co2 >= 0 && c.trees >= 0
  {
    var raw := RawCO2(saving);
    var trees := (raw / TreeAbsorption).Floor;
    assert trees as real * TreeAbsorption <= raw by {
      assert trees as real <= raw / TreeAbsorption;
    }
    assert raw < (trees + 1) as real * TreeAbsorption by {
      assert raw / TreeAbsorption < (trees + 1) as real;
    }
    CO2Reduction(Round(raw), trees)
  }

  // ---------------------------------------------------------------------
  // Vehicle analyzer (lines 210-228)

  /** The computed fields of `a` are those of its own record. */
  ghost predicate DerivedFrom(a: VehicleAnalysis, pow: real -> real)
    requires PowLaw(pow)
    requires ScoreDefined(a.data)
  {
    var f := FuelSavings(a.data, pow);
    var c := CalculateCO2Reduction(f.saving);
    && a.grade == CalculateSafetyGrade(a.data)
    && a.saving == f.saving
    && a.improvement == f.improvement
    && a.currentEfficiency == f.efficiency
    && a.co2 == c.co2
    && a.trees == c.trees
    && a.riskScore == RiskScore(a.data)
  }

  /** The ranges every analysis of a well-formed record stays in. */
  ghost predicate InRange(a: VehicleAnalysis) {
    && a.saving >= 0 && a.co2 >= 0 && a.trees >= 0 && a.riskScore >= 0
    && 0.0 <= a.improvement <= 53.9
    && 3.9 <= a.currentEfficiency <= IdealEfficiency
  }

  /** One element of the `vehicles.map` callback. */
  function AnalyzeVehicle(v: VehicleData, pow: real -> real): (a: VehicleAnalysis)
    requires PowLaw(pow)
    requires ScoreDefined(v)
    ensures a.data == v
    ensures DerivedFrom(a, pow)
    ensures InRange(a)
  {
    var f := FuelSavings(v, pow);
    var c := CalculateCO2Reduction(f.saving);
    VehicleAnalysis(v, CalculateSafetyGrade(v), f.saving, c.co2, RiskScore(v),
                    c.trees, f.improvement, f.efficiency)
  }

  /** The records `analyzeVehicles` accepts. */
  ghost predicate WellFormedFleet(vs: seq<VehicleData>) {
    forall i :: 0 <= i < |vs| ==> ScoreDefined(vs[i])
  }

  /** analyzeVehicles: one analysis per record, in input order. */
  function AnalyzeVehicles(vs: seq<VehicleData>, pow: real -> real): (r: seq<VehicleAnalysis>)
    requires PowLaw(pow)
    requires WellFormedFleet(vs)
    ensures |r| == |vs|
    ensures forall i :: 0 <= i < |vs| ==> r[i].data == vs[i] && DerivedFrom(r[i], pow)
    ensures forall i :: 0 <= i < |r| ==> InRange(r[i])
  {
    seq(|vs|, i requires 0 <= i < |vs| => AnalyzeVehicle(vs[i], pow))
  }

  // ---------------------------------------------------------------------
  // Fleet insights (lines 233-289)

  function RiskKey(a: VehicleAnalysis): real { a.riskScore as real }
  function SavingKey(a: VehicleAnalysis): real { a.saving as real }
  function SavingOf(a: VehicleAnalysis): int { a.saving }
  function CO2Of(a: VehicleAnalysis): int { a.co2 }
  function ImprovementOf(a: VehicleAnalysis): real { a.improvement }
  function EfficiencyOf(a: VehicleAnalysis): real { a.currentEfficiency }
  function IsDanger(a: VehicleAnalysis): bool { a.grade == Danger }
  function IsWarning(a: VehicleAnalysis): bool { a.grade == Warning }
  function PairValue(p: (Behavior, real)): real { p.1 }

  /** The six behaviours of 위험행동합계, in that object's key order. */
  const FleetBehaviors: seq<Behavior> :=
    [HardAcceleration, HardDeceleration, Speeding, HardBraking, HardLaunch, ProlongedSpeeding]

  /** The fleet total of one behaviour's count. */
  function FleetTotal(vs: seq<VehicleAnalysis>, b: Behavior): real {
    if vs == [] then 0.0 else Count(vs[0].data, b) + FleetTotal(vs[1..], b)
  }

  /** `Object.entries(위험행동합계)`: six (behaviour, total) pairs. */
  function BehaviorTotals(vs: seq<VehicleAnalysis>): (t: seq<(Behavior, real)>)
    ensures |t| == |FleetBehaviors|
    ensures forall i :: 0 <= i < |t| ==> t[i] == (FleetBehaviors[i], FleetTotal(vs, FleetBehaviors[i]))
  {
    seq(|FleetBehaviors|, i requires 0 <= i < |FleetBehaviors| =>
      (FleetBehaviors[i], FleetTotal(vs, FleetBehaviors[i])))
  }

  /** top3: the first three of the stable sort by descending risk score. */
  function Top3(vs: seq<VehicleAnalysis>): (t: seq<VehicleAnalysis>)
    ensures |t| == Min(3, |vs|)
    ensures multiset(t) <= multiset(vs)
  {
    Take(SortDesc(vs, RiskKey), 3)
  }

  /** 가장많은행동: the six totals by the stable descending sort. */
  function MostFrequentBehaviors(vs: seq<VehicleAnalysis>): (m: seq<(Behavior, real)>)
    ensures |m| == |FleetBehaviors|
    ensures multiset(m) == multiset(BehaviorTotals(vs))
  {
    SortDesc(BehaviorTotals(vs), PairValue)
  }

  /** The min(5, n) vehicles with the largest savings, stable sort order. */
  function Top5BySaving(vs: seq<VehicleAnalysis>): (t: seq<VehicleAnalysis>)
    ensures |t| == Min(5, |vs|)
    ensures multiset(t) <= multiset(vs)
  {
    Take(SortDesc(vs, SavingKey), Min(5, |vs|))
  }

  /** An average of `f` over the fleet, rounded to one decimal. */
  function Average1(vs: seq<VehicleAnalysis>, f: VehicleAnalysis -> real): (r: real)
    requires vs != []
    ensures r - 0.05 <= SumReal(vs, f) / |vs| as real < r + 0.05
  {
    Round1(SumReal(vs, f) / |vs| as real)
  }

  /** generateInsights. */
  function GenerateInsights(vs: seq<VehicleAnalysis>): (ins: Insights)
    ensures ins.totalCount == |vs|
    ensures |ins.top3| == Min(3, |vs|)
    ensures vs != [] ==> |ins.mostFrequent| == |FleetBehaviors|
  {
    if vs == [] then
      Insights([], [], 0, 0, 0, 0, 0, 0, 0.0, IdealEfficiency)
    else
      Insights(
        Top3(vs),
        MostFrequentBehaviors(vs),
        SumInt(Top5BySaving(vs), SavingOf),
        SumInt(vs, SavingOf),
        SumInt(vs, CO2Of),
        CountWhere(vs, IsDanger),
        CountWhere(vs, IsWarning),
        |vs|,
        Average1(vs, ImprovementOf),
        Average1(vs, EfficiencyOf))
  }

  // ---------------------------------------------------------------------
  // Vehicle detail (lines 294-327)

  datatype BehaviorItem = BehaviorItem(name: Behavior, count: real, weight: real)

  function ItemValue(item: BehaviorItem): real { item.count * item.weight }
  function HasCount(item: BehaviorItem): bool { item.count > 0.0 }

  /** 위험행동들: every behaviour with its count and weight, in table order. */
  function BehaviorItems(v: VehicleData): (items: seq<BehaviorItem>)
    ensures |items| == |Behaviors|
    ensures forall i :: 0 <= i < |items| ==>
      items[i] == BehaviorItem(Behaviors[i], Count(v, Behaviors[i]), Weight(Behaviors[i]))
  {
    seq(|Behaviors|, i requires 0 <= i < |Behaviors| =>
      BehaviorItem(Behaviors[i], Count(v, Behaviors[i]), Weight(Behaviors[i])))
  }

  datatype VehicleDetail = VehicleDetail(
    plate: string,
    grade: SafetyGrade,
    riskScore: int,
    saving: int,
    improvement: real,
    efficiency: real,
    idealEfficiency: real,
    co2: int,
    trees: int,
    totalDistance: real,
    topBehaviors: seq<BehaviorItem>  // top3위험행동
  )

  /** top3위험행동: behaviours with a positive count, by descending weighted
      value, first three. */
  function TopBehaviors(v: VehicleData): (t: seq<BehaviorItem>)
    ensures |t| <= 3
  {
    Take(SortDesc(Filter(BehaviorItems(v), HasCount), ItemValue), 3)
  }

  /** getVehicleDetail. */
  function GetVehicleDetail(a: VehicleAnalysis): (d: VehicleDetail)
    ensures |d.topBehaviors| <= 3
  {
    VehicleDetail(a.data.plate, a.grade, a.riskScore, a.saving, a.improvement,
                  a.currentEfficiency, IdealEfficiency, a.co2, a.trees,
                  a.data.totalDistance, TopBehaviors(a.data))
  }

  // ---------------------------------------------------------------------
  // Arithmetic helpers

  lemma DivAntitone(d: real, a: real, b: real)
    requires 0.0 < a <= b
    requires d >= 0.0
    ensures d / b <= d / a
  {
    assert d / b * b == d;
    assert d / a * a == d;
    assert d / b * a <= d / b * b;
  }

  lemma RoundMonotone(x: real, y: real)
    requires x <= y
    ensures Round(x) <= Round(y)
  {
  }

  lemma Round1Monotone(x: real, y: real)
    requires x <= y
    ensures Round1(x) <= Round1(y)
  {
    RoundMonotone(x * 10.0, y * 10.0);
  }
}
