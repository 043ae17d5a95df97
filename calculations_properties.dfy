/** What the engine of src/utils/calculations.ts promises about its results,
    proved about the model in module Calculations. */
module CalculationsProperties {
  import opened Vehicle
  import opened Sorting
  import opened Calculations

  /** The weighted score by the weight table: the sum over `bs` of count
      times weight. */
  function TableSum(v: VehicleData, bs: seq<Behavior>): real {
    if bs == [] then 0.0 else WeightedCount(v, bs[0]) + TableSum(v, bs[1..])
  }

  /** Above the distance guard the score is the table-driven sum over all
      eleven behaviours, with no division by distance. */
  lemma {:induction false} WeightedScoreIsTableSum(v: VehicleData)
    requires v.totalDistance >= 1.0
    ensures WeightedRiskScore(v) == TableSum(v, Behaviors)
  {
    TableSumIsWeightedSum(v);
  }

  /** The weight-table sum over all eleven behaviours is the written-out sum. */
  lemma {:induction false} TableSumIsWeightedSum(v: VehicleData)
    ensures TableSum(v, Behaviors) == WeightedSum(v)
  {
    var bs := Behaviors;
    assert bs[1..][1..][1..][1..][1..][1..][1..][1..][1..][1..][1..] == [];
    calc {
      TableSum(v, bs);
      WeightedCount(v, HardAcceleration) + TableSum(v, bs[1..]);
      WeightedCount(v, HardAcceleration) + WeightedCount(v, HardLaunch)
        + TableSum(v, bs[1..][1..]);
      WeightedCount(v, HardAcceleration) + WeightedCount(v, HardLaunch)
        + WeightedCount(v, HardDeceleration) + WeightedCount(v, HardBraking)
        + TableSum(v, bs[1..][1..][1..][1..]);
      WeightedCount(v, HardAcceleration) + WeightedCount(v, HardLaunch)
        + WeightedCount(v, HardDeceleration) + WeightedCount(v, HardBraking)
        + WeightedCount(v, Speeding) + WeightedCount(v, ProlongedSpeeding)
        + TableSum(v, bs[1..][1..][1..][1..][1..][1..]);
      WeightedCount(v, HardAcceleration) + WeightedCount(v, HardLaunch)
        + WeightedCount(v, HardDeceleration) + WeightedCount(v, HardBraking)
        + WeightedCount(v, Speeding) + WeightedCount(v, ProlongedSpeeding)
        + WeightedCount(v, HardLeftTurn) + WeightedCount(v, HardRightTurn)
        + TableSum(v, bs[1..][1..][1..][1..][1..][1..][1..][1..]);
      WeightedCount(v, HardAcceleration) + WeightedCount(v, HardLaunch)
        + WeightedCount(v, HardDeceleration) + WeightedCount(v, HardBraking)
        + WeightedCount(v, Speeding) + WeightedCount(v, ProlongedSpeeding)
        + WeightedCount(v, HardLeftTurn) + WeightedCount(v, HardRightTurn)
        + WeightedCount(v, HardUTurn) + WeightedCount(v, HardOvertake)
        + TableSum(v, bs[1..][1..][1..][1..][1..][1..][1..][1..][1..][1..]);
      WeightedSum(v);
    }
  }

  /** The detail view's items for behaviours `bs`, in that order. */
  function ItemsFor(v: VehicleData, bs: seq<Behavior>): (items: seq<BehaviorItem>)
    ensures |items| == |bs|
    ensures forall i :: 0 <= i < |bs| ==> items[i] == BehaviorItem(bs[i], Count(v, bs[i]), Weight(bs[i]))
  {
    if bs == [] then [] else [BehaviorItem(bs[0], Count(v, bs[0]), Weight(bs[0]))] + ItemsFor(v, bs[1..])
  }

  lemma {:induction false} ItemsForSum(v: VehicleData, bs: seq<Behavior>)
    ensures SumReal(ItemsFor(v, bs), ItemValue) == TableSum(v, bs)
  {
    if bs != [] {
      ItemsForSum(v, bs[1..]);
      assert ItemsFor(v, bs)[1..] == ItemsFor(v, bs[1..]);
    }
  }

  /** The detail view's list (lines 295-307) carries the whole score: the
      weighted values of its items add up to the weighted sum of lines 71-82. */
  lemma BehaviorItemsSum(v: VehicleData)
    ensures SumReal(BehaviorItems(v), ItemValue) == WeightedSum(v)
  {
    assert BehaviorItems(v) == ItemsFor(v, Behaviors);
    ItemsForSum(v, Behaviors);
    TableSumIsWeightedSum(v);
  }

  /** A score above the saturation point of 50 degrades as much as it can:
      rate 0.35, efficiency 3.9 km/L, improvement 53.8 %. */
  lemma Saturation(d: real, score: real, pow: real -> real)
    requires PowLaw(pow)
    requires d >= 1.0 && score >= SaturationScore
    ensures NormalizedRisk(score) == 1.0
    ensures DegradationRate(score, pow) == MaxDegradation
    ensures RawEfficiency(score, pow) == 3.9
    ensures FuelModel(d, score, pow).efficiency == 3.9
    ensures FuelModel(d, score, pow).improvement == 53.8
  {
    assert RawImprovement(3.9) * 10.0 == 21000.0 / 39.0;
    assert Round(21000.0 / 39.0) == 538;
  }

  /** A negative count is accepted as long as the weighted score is not
      negative: one speeding event less than nothing and ten hard
      accelerations over 100 km score 13.6. */
  lemma NegativeCountWithDefinedScore()
    ensures var v := VehicleData(0, "", 100.0, 9.0, -1.0, 0.0, 10.0, 0.0, 0.0, 0.0,
                                 0.0, 0.0, 0.0, 0.0, 0.0);
      && !NonNegativeCounts(v) && ScoreDefined(v)
      && WeightedRiskScore(v) == 13.6 && CalculateSafetyGrade(v) == Warning
  {
  }

  /** A trip under 1 km has no impact at all (the guards at lines 68 and 133). */
  lemma ShortTripIsNeutral(v: VehicleData, pow: real -> real)
    requires PowLaw(pow)
    requires v.totalDistance < 1.0
    ensures var a := AnalyzeVehicle(v, pow);
      && a.riskScore == 0 && a.grade == Safe
      && a.saving == 0 && a.improvement == 0.0 && a.currentEfficiency == IdealEfficiency
      && a.co2 == 0 && a.trees == 0
  {
  }

  /** All eleven counts are zero. */
  predicate NoEvents(v: VehicleData) {
    && v.speeding == 0.0 && v.prolongedSpeeding == 0.0
    && v.hardAcceleration == 0.0 && v.hardLaunch == 0.0
    && v.hardDeceleration == 0.0 && v.hardBraking == 0.0
    && v.hardLeftTurn == 0.0 && v.hardRightTurn == 0.0
    && v.hardUTurn == 0.0 && v.hardOvertake == 0.0 && v.hardLaneChange == 0.0
  }

  /** A record without events scores 0, is graded safe and saves nothing. */
  lemma EventFreeIsNeutral(v: VehicleData, pow: real -> real)
    requires PowLaw(pow)
    requires v.totalDistance >= 1.0
    requires NoEvents(v)
    ensures var a := AnalyzeVehicle(v, pow);
      && a.riskScore == 0 && a.grade == Safe
      && a.saving == 0 && a.improvement == 0.0 && a.currentEfficiency == IdealEfficiency
      && a.co2 == 0 && a.trees == 0
  {
    assert WeightedSum(v) == 0.0;
    assert DegradationRate(0.0, pow) == 0.0;
    assert RecoverableFuel(v.totalDistance, IdealEfficiency) == 0.0;
  }

  /** The tier boundaries: exactly 30 is danger, exactly 10 is warning. */
  lemma GradeBoundaries()
    ensures GradeOf(30.0) == Danger && GradeOf(29.999) == Warning
    ensures GradeOf(10.0) == Warning && GradeOf(9.999) == Safe
  {
  }

  /** A higher score never gives a milder grade. */
  lemma GradeMonotone(s: real, t: real)
    requires s <= t
    ensures GradeOf(s).Severity() <= GradeOf(t).Severity()
  {
  }

  /** Every count of `u` is at most the same count of `v`. */
  predicate CountsLe(u: VehicleData, v: VehicleData) {
    && u.speeding <= v.speeding && u.prolongedSpeeding <= v.prolongedSpeeding
    && u.hardAcceleration <= v.hardAcceleration && u.hardLaunch <= v.hardLaunch
    && u.hardDeceleration <= v.hardDeceleration && u.hardBraking <= v.hardBraking
    && u.hardLeftTurn <= v.hardLeftTurn && u.hardRightTurn <= v.hardRightTurn
    && u.hardUTurn <= v.hardUTurn && u.hardOvertake <= v.hardOvertake
    && u.hardLaneChange <= v.hardLaneChange
  }

  lemma WeightedSumMonotone(u: VehicleData, v: VehicleData)
    requires CountsLe(u, v)
    ensures WeightedSum(u) <= WeightedSum(v)
  {
  }

  /** A higher score never gives a higher efficiency before rounding. */
  lemma RawEfficiencyAntitone(s: real, t: real, pow: real -> real)
    requires PowLaw(pow)
    requires 0.0 <= s <= t
    ensures RawEfficiency(t, pow) <= RawEfficiency(s, pow)
  {
    var ns, nt := NormalizedRisk(s), NormalizedRisk(t);
    assert ns <= nt;
    assert pow(ns) <= pow(nt);
  }

  lemma RecoverableFuelAntitone(d: real, es: real, et: real)
    requires d >= 1.0 && 0.0 < et <= es <= IdealEfficiency
    ensures RecoverableFuel(d, es) <= RecoverableFuel(d, et)
  {
    DivAntitone(d, et, es);
  }

  lemma RawImprovementAntitone(es: real, et: real)
    requires 3.9 <= et <= es <= IdealEfficiency
    ensures RawImprovement(es) <= RawImprovement(et)
  {
    DivAntitone(IdealEfficiency, et, es);
    assert (IdealEfficiency - es) / es == IdealEfficiency / es - 1.0;
    assert (IdealEfficiency - et) / et == IdealEfficiency / et - 1.0;
  }

  /** Over one trip, a higher weighted score never raises the efficiency and
      never lowers the saving or the improvement. */
  lemma FuelModelMonotone(d: real, s: real, t: real, pow: real -> real)
    requires PowLaw(pow)
    requires d >= 1.0 && 0.0 <= s <= t
    ensures FuelModel(d, s, pow).efficiency >= FuelModel(d, t, pow).efficiency
    ensures FuelModel(d, s, pow).saving <= FuelModel(d, t, pow).saving
    ensures FuelModel(d, s, pow).improvement <= FuelModel(d, t, pow).improvement
  {
    var es, et := RawEfficiency(s, pow), RawEfficiency(t, pow);
    RawEfficiencyAntitone(s, t, pow);
    Round1Monotone(et, es);
    RecoverableFuelAntitone(d, es, et);
    RoundMonotone(RecoverableFuel(d, es) * DieselPrice, RecoverableFuel(d, et) * DieselPrice);
    RawImprovementAntitone(es, et);
    Round1Monotone(RawImprovement(es), RawImprovement(et));
  }

  /** More events over the same trip never improve the outcome: the score
      and grade do not drop, the efficiency does not rise, and the saving
      and improvement do not shrink. */
  lemma MoreEventsNeverBetter(u: VehicleData, v: VehicleData, pow: real -> real)
    requires PowLaw(pow)
    requires u.totalDistance == v.totalDistance >= 1.0
    requires NonNegativeCounts(u) && CountsLe(u, v)
    ensures NonNegativeCounts(v)
    ensures RiskScore(u) <= RiskScore(v)
    ensures CalculateSafetyGrade(u).Severity() <= CalculateSafetyGrade(v).Severity()
    ensures FuelSavings(u, pow).efficiency >= FuelSavings(v, pow).efficiency
    ensures FuelSavings(u, pow).saving <= FuelSavings(v, pow).saving
    ensures FuelSavings(u, pow).improvement <= FuelSavings(v, pow).improvement
  {
    WeightedSumMonotone(u, v);
    RoundMonotone(WeightedSum(u), WeightedSum(v));
    GradeMonotone(WeightedSum(u), WeightedSum(v));
    FuelModelMonotone(u.totalDistance, WeightedSum(u), WeightedSum(v), pow);
  }

  /** CO2 comes from the ROUNDED saving: a recoverable fuel of 4999/26500 L
      gives 0 kg when rounded directly, but saves 302 won, which gives 1 kg. */
  lemma CO2FromRoundedSaving()
    ensures var fuel := 4999.0 / 26500.0;
      && Round(fuel * CO2PerLitre) == 0
      && Round(fuel * DieselPrice) == 302
      && CalculateCO2Reduction(302).co2 == 1
  {
    assert RawCO2(302) == 302.0 / 1600.0 * 2.65;
  }

  /** Trees come from the UNROUNDED CO2: 3950 won gives 7 kg (6.54 before
      rounding) and no tree, although 7 / 6.6 is above 1. */
  lemma TreesFromUnroundedCO2()
    ensures CalculateCO2Reduction(3950) == CO2Reduction(7, 0)
    ensures (7.0 / TreeAbsorption).Floor == 1
  {
    assert RawCO2(3950) == 3950.0 / 1600.0 * 2.65;
  }

  /** The grade reads the unrounded score: 21.2 speeding events score 29.68,
      shown as 30, yet the vehicle is graded warning, not danger. */
  lemma DisplayedScoreVersusGrade()
    ensures var v := VehicleData(0, "", 100.0, 21.2, 21.2, 0.0, 0.0, 0.0, 0.0, 0.0,
                                 0.0, 0.0, 0.0, 0.0, 0.0);
      RiskScore(v) == 30 && CalculateSafetyGrade(v) == Warning
  {
  }

  /** 100 km with ten hard accelerations: score 15, normalised 0.3, warning. */
  lemma HardAccelerationScenario()
    ensures var v := VehicleData(0, "", 100.0, 10.0, 0.0, 0.0, 10.0, 0.0, 0.0, 0.0,
                                 0.0, 0.0, 0.0, 0.0, 0.0);
      && WeightedRiskScore(v) == 15.0 && NormalizedRisk(WeightedRiskScore(v)) == 0.3
      && RiskScore(v) == 15 && CalculateSafetyGrade(v) == Warning
  {
  }

  /** The identity on [0, 1] obeys PowLaw, so the law is consistent. */
  lemma PowLawSatisfiable()
    ensures PowLaw(x => x)
  {
  }

  // ---------------------------------------------------------------------
  // Fleet insights

  /** An empty fleet gives the neutral summary, efficiency defaulting to 6. */
  lemma InsightsOfEmptyFleet()
    ensures GenerateInsights([]) == Insights([], [], 0, 0, 0, 0, 0, 0, 0.0, IdealEfficiency)
  {
  }

  /** For a non-empty fleet each field of the insights is its own part. */
  lemma InsightsFields(vs: seq<VehicleAnalysis>)
    requires vs != []
    ensures var ins := GenerateInsights(vs);
      && ins.top3 == Top3(vs)
      && ins.mostFrequent == MostFrequentBehaviors(vs)
      && ins.top5Saving == SumInt(Top5BySaving(vs), SavingOf)
      && ins.totalSaving == SumInt(vs, SavingOf)
      && ins.totalCO2 == SumInt(vs, CO2Of)
      && ins.dangerCount == CountWhere(vs, IsDanger)
      && ins.warningCount == CountWhere(vs, IsWarning)
      && ins.totalCount == |vs|
      && ins.averageImprovement == Average1(vs, ImprovementOf)
      && ins.averageEfficiency == Average1(vs, EfficiencyOf)
  {
  }

  /** top3: min(3, n) vehicles in descending risk order, none scoring below a
      vehicle left out, and within a score the earliest in input order. */
  lemma InsightsTop3(vs: seq<VehicleAnalysis>)
    ensures var t := Top3(vs);
      && |t| == Min(3, |vs|)
      && multiset(t) <= multiset(vs)
      && SortedDesc(t, RiskKey)
      && (forall x, i :: 0 <= i < |t| && multiset(t)[x] < multiset(vs)[x] ==> RiskKey(x) <= RiskKey(t[i]))
      && (forall k :: WithKey(t, RiskKey, k) <= WithKey(vs, RiskKey, k))
  {
    TopN(vs, 3, RiskKey);
  }

  /** top5절감 sums the savings of min(5, n) vehicles, none saving less
      than a vehicle left out. */
  lemma InsightsTop5Selection(vs: seq<VehicleAnalysis>)
    ensures var t := Top5BySaving(vs);
      && |t| == Min(5, |vs|)
      && multiset(t) <= multiset(vs)
      && (forall x, i :: 0 <= i < |t| && multiset(t)[x] < multiset(vs)[x] ==> x.saving <= t[i].saving)
  {
    TopN(vs, Min(5, |vs|), SavingKey);
  }

  /** With non-negative savings top5절감 lies between 0 and 총절감액, and
      equals it for five vehicles or fewer. */
  lemma InsightsTop5Bounds(vs: seq<VehicleAnalysis>)
    ensures (forall i :: 0 <= i < |vs| ==> vs[i].saving >= 0) ==>
      0 <= SumInt(Top5BySaving(vs), SavingOf) <= SumInt(vs, SavingOf)
    ensures |vs| <= 5 ==> SumInt(Top5BySaving(vs), SavingOf) == SumInt(vs, SavingOf)
  {
    if forall i :: 0 <= i < |vs| ==> vs[i].saving >= 0 {
      TopNSumBounds(vs, Min(5, |vs|), SavingKey, SavingOf);
    }
    if |vs| <= 5 {
      TopNSumAll(vs, Min(5, |vs|), SavingKey, SavingOf);
    }
  }

  /** Danger and warning vehicles are disjoint, so together they are at most
      the fleet size, which is the input length. */
  lemma InsightsGradeCounts(vs: seq<VehicleAnalysis>)
    ensures var ins := GenerateInsights(vs);
      ins.dangerCount + ins.warningCount <= ins.totalCount == |vs|
  {
    CountWhereDisjoint(vs, IsDanger, IsWarning);
  }

  /** 가장많은행동: the six behaviour totals, largest first, ties in the
      declared order 급가속, 급감속, 과속, 급정지, 급출발, 장기과속. */
  lemma InsightsMostFrequent(vs: seq<VehicleAnalysis>)
    requires vs != []
    ensures var m := MostFrequentBehaviors(vs);
      && |m| == 6
      && multiset(m) == multiset(BehaviorTotals(vs))
      && (forall i, j :: 0 <= i < j < |m| ==> m[i].1 >= m[j].1)
      && StableWrt(m, BehaviorTotals(vs), PairValue)
  {
    var m := MostFrequentBehaviors(vs);
    SortDescStable(BehaviorTotals(vs), PairValue);
    assert forall i, j :: 0 <= i < j < |m| ==> PairValue(m[i]) >= PairValue(m[j]);
  }

  /** With every analysis in its range, the rounded averages stay in range:
      efficiency in [3.9, 6], improvement in [0, 53.9]. */
  lemma InsightsAverages(vs: seq<VehicleAnalysis>)
    requires forall i :: 0 <= i < |vs| ==> InRange(vs[i])
    ensures var ins := GenerateInsights(vs);
      && 3.9 <= ins.averageEfficiency <= IdealEfficiency
      && 0.0 <= ins.averageImprovement <= 53.9
  {
    if vs != [] {
      AverageBounds(vs, EfficiencyOf, 3.9, IdealEfficiency);
      AverageBounds(vs, ImprovementOf, 0.0, 53.9);
    }
  }

  lemma AverageBounds(vs: seq<VehicleAnalysis>, f: VehicleAnalysis -> real, lo: real, hi: real)
    requires vs != []
    requires Round1(lo) == lo && Round1(hi) == hi
    requires forall i :: 0 <= i < |vs| ==> lo <= f(vs[i]) <= hi
    ensures lo <= Average1(vs, f) <= hi
  {
    var n := |vs| as real;
    SumRealBounds(vs, f, lo, hi);
    var e := SumReal(vs, f) / n;
    MeanBetween(SumReal(vs, f), n, lo, hi);
    Round1Monotone(lo, e);
    Round1Monotone(e, hi);
  }

  /** A sum between `n lo` and `n hi` has its mean between `lo` and `hi`. */
  lemma MeanBetween(sum: real, n: real, lo: real, hi: real)
    requires n > 0.0 && n * lo <= sum <= n * hi
    ensures lo <= sum / n <= hi
  {
    assert (sum - n * lo) / n >= 0.0;
    assert (n * hi - sum) / n >= 0.0;
    assert (sum - n * lo) / n == sum / n - lo;
    assert (n * hi - sum) / n == hi - sum / n;
  }

  /** The fleet totals of an analysed fleet are the totals of the raw
      records: analysis keeps every count. */
  lemma FleetTotalOfAnalysis(vs: seq<VehicleData>, pow: real -> real, b: Behavior)
    requires PowLaw(pow)
    requires WellFormedFleet(vs)
    ensures FleetTotal(AnalyzeVehicles(vs, pow), b) == TableCount(vs, b)
  {
    FleetTotalOfData(AnalyzeVehicles(vs, pow), vs, b);
  }

  /** Fleet totals only read the records' counts. */
  lemma {:induction false} FleetTotalOfData(analyses: seq<VehicleAnalysis>, vs: seq<VehicleData>, b: Behavior)
    requires |analyses| == |vs|
    requires forall i :: 0 <= i < |analyses| ==> analyses[i].data == vs[i]
    ensures FleetTotal(analyses, b) == TableCount(vs, b)
  {
    if vs != [] {
      FleetTotalOfData(analyses[1..], vs[1..], b);
    }
  }

  /** A fleet total is a sum over vehicles: the totals of two fleets put
      together are the sums of their totals. */
  lemma {:induction false} FleetTotalConcat(a: seq<VehicleAnalysis>, b: seq<VehicleAnalysis>, beh: Behavior)
    ensures FleetTotal(a + b, beh) == FleetTotal(a, beh) + FleetTotal(b, beh)
  {
    if a != [] {
      assert (a + b)[0] == a[0] && (a + b)[1..] == a[1..] + b;
      FleetTotalConcat(a[1..], b, beh);
    } else {
      assert a + b == b;
    }
  }

  /** 위험행동합계 adds up over fleets, behaviour by behaviour. */
  lemma BehaviorTotalsConcat(a: seq<VehicleAnalysis>, b: seq<VehicleAnalysis>)
    ensures forall i :: 0 <= i < |FleetBehaviors| ==>
      BehaviorTotals(a + b)[i] == (FleetBehaviors[i], BehaviorTotals(a)[i].1 + BehaviorTotals(b)[i].1)
  {
    forall i | 0 <= i < |FleetBehaviors|
      ensures BehaviorTotals(a + b)[i] == (FleetBehaviors[i], BehaviorTotals(a)[i].1 + BehaviorTotals(b)[i].1)
    {
      FleetTotalConcat(a, b, FleetBehaviors[i]);
    }
  }

  /** The total count of one behaviour over raw records. */
  function TableCount(vs: seq<VehicleData>, b: Behavior): real {
    if vs == [] then 0.0 else Count(vs[0], b) + TableCount(vs[1..], b)
  }

  // ---------------------------------------------------------------------
  // Vehicle detail

  /** top3위험행동: at most three behaviours with a positive count, by
      descending weighted value, none below a behaviour left out, ties in
      table order; the other fields are copied, with the ideal efficiency 6. */
  lemma VehicleDetailSpec(a: VehicleAnalysis)
    ensures var d := GetVehicleDetail(a);
      && d.plate == a.data.plate && d.grade == a.grade && d.riskScore == a.riskScore
      && d.saving == a.saving && d.improvement == a.improvement
      && d.efficiency == a.currentEfficiency && d.idealEfficiency == IdealEfficiency
      && d.co2 == a.co2 && d.trees == a.trees && d.totalDistance == a.data.totalDistance
      && d.topBehaviors == TopBehaviors(a.data)
    ensures var c := Filter(BehaviorItems(a.data), HasCount);
      var t := TopBehaviors(a.data);
      && |t| == Min(3, |c|)
      && (forall i, j :: 0 <= i < j < |t| ==> ItemValue(t[i]) >= ItemValue(t[j]))
      && (forall x, i :: 0 <= i < |t| && multiset(t)[x] < multiset(c)[x] ==> ItemValue(x) <= ItemValue(t[i]))
      && (forall k :: WithKey(t, ItemValue, k) <= WithKey(c, ItemValue, k))
  {
    TopN(Filter(BehaviorItems(a.data), HasCount), 3, ItemValue);
  }

  /** Every listed behaviour is one of the vehicle's, with a positive count. */
  lemma TopBehaviorsArePositive(v: VehicleData)
    ensures var t := TopBehaviors(v);
      forall i :: 0 <= i < |t| ==> t[i].count > 0.0 && t[i] in BehaviorItems(v)
  {
    var items := BehaviorItems(v);
    var c := Filter(items, HasCount);
    var t := TopBehaviors(v);
    TopN(c, 3, ItemValue);
    forall i | 0 <= i < |t| ensures t[i].count > 0.0 && t[i] in items {
      assert t[i] in multiset(c);
      assert t[i] in c;
      var j :| 0 <= j < |c| && c[j] == t[i];
      assert HasCount(c[j]);
      assert c[j] in multiset(items);
    }
  }
}
