/**
  One refresh of the dashboard: from the sidebar state and the three
  predictions for it, the cost, the card statuses, the radar spokes and the
  advice that are shown.
 */
module Dashboard {
  import opened Formulation
  import Cost
  import Radar
  import Kpi

  datatype View = View(
    cost: real,
    costDelta: Kpi.CostDelta,
    impactStatus: Kpi.Status,
    tensileStatus: Kpi.Status,
    radar: Radar.RadarValues,
    advice: Kpi.Advice)

  /** Cost and cost spoke bounds for sidebar settings. */
  lemma SliderCost(c: Controls)
    ensures InSliderRanges(c) ==>
      var cost := Cost.MaterialCost(c.poe as real, c.talc as real);
      4800.0 <= cost <= 10000.0 && 0.0 <= Radar.CostScore(cost) <= 104.0
  {
    if InSliderRanges(c) {
      Radar.CostScoreOnSliders(c.poe as real, c.talc as real);
    }
  }

  /**
    Everything derived from the sidebar and the predictions: the card
    statuses and the advice follow their thresholds, and the spokes are the
    radar values of the predictions and the cost. For sidebar
    settings the cost lies in [4800, 10000], the cost card shows a drop
    exactly when twice the toughener share minus the talc share is at most
    17, and the cost spoke lies in [0, 104]. The radar fits its axis exactly
    when no prediction is negative and the cost is at least 5000, that is,
    when 2 * POE - Talc >= -45.
   */
  function Refresh(c: Controls, p: Predictions): (v: View)
    ensures v.cost == 6800.0 + 80.0 * (c.poe as real) - 40.0 * (c.talc as real)
    ensures InSliderRanges(c) ==> 4800.0 <= v.cost <= 10000.0
    ensures InSliderRanges(c) ==> 0.0 <= v.radar.costScore <= 104.0
    ensures v.costDelta == Kpi.Down50 <==> 2 * c.poe - c.talc <= 17
    ensures v.impactStatus == Kpi.Met <==> p.impact > 15.0
    ensures v.tensileStatus == Kpi.Met <==> p.tensile > 20.0
    // corollary of the impact-card and impact-warning clauses below: impact > 15 excludes impact < 10
    ensures v.impactStatus == Kpi.Met ==> v.advice != Kpi.RaiseImpact
    ensures v.advice == Kpi.RaiseImpact <==> p.impact < 10.0
    ensures v.advice == Kpi.RaiseTensile <==> p.impact >= 10.0 && p.tensile < 20.0
    ensures v.advice == Kpi.Balanced <==> p.impact >= 10.0 && p.tensile >= 20.0
    ensures v.radar == Radar.Values(p, v.cost)
    ensures Radar.AllOnAxis(v.radar) <==>
      p.impact >= 0.0 && p.tensile >= 0.0 && p.finalMfi >= 0.0 && 2 * c.poe - c.talc >= -45
  {
    var cost := Cost.MaterialCost(c.poe as real, c.talc as real);
    Kpi.CostCardOnSliders(c.poe, c.talc);
    Radar.AllOnAxisIff(p, cost);
    assert cost >= 5000.0 <==> 2 * c.poe - c.talc >= -45 by {
      assert cost >= 5000.0 <==> ((2 * c.poe - c.talc) as real) >= -45.0;
    }
    SliderCost(c);
    View(
      cost,
      Kpi.CostCard(cost),
      Kpi.ImpactCard(p.impact),
      Kpi.TensileCard(p.tensile),
      Radar.Values(p, cost),
      Kpi.Advise(p))
  }
}
