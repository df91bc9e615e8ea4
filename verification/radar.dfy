/**
  The radar chart: three predictions are scaled up for display and capped at
  100, and a cost-advantage score that grows as the cost falls is floored at
  0. The chart's radial axis is fixed to [0, 100]; nothing clamps the values
  into it from the other side.
 */
module Radar {
  import opened Formulation
  import Cost

  /** Upper end of the radial axis; the axis starts at 0. */
  const AxisMax: real := 100.0

  /** Display factors for impact, tensile strength and melt index. */
  const ImpactFactor: real := 4.0
  const TensileFactor: real := 3.0
  const FlowFactor: real := 5.0

  /** Cost at and above which the cost score is 0, and cost per score point. */
  const CostCeiling: real := 10000.0
  const CostPerPoint: real := 50.0

  /** The four radar spokes, in chart order. */
  datatype RadarValues = RadarValues(impact: real, tensile: real, flow: real, costScore: real)

  /** A prediction scaled by a positive factor and capped at the axis top, with no lower clamp. */
  function Scaled(p: real, factor: real): (r: real)
    requires factor > 0.0
    ensures r <= AxisMax
    ensures p * factor <= AxisMax ==> r == p * factor
    ensures p * factor > AxisMax ==> r == AxisMax
    ensures r < 0.0 <==> p < 0.0
  {
    if p * factor <= AxisMax then p * factor else AxisMax
  }

  /** Scaling is monotone in the prediction. */
  lemma ScaledMonotone(p: real, q: real, factor: real)
    requires factor > 0.0
    requires p <= q
    ensures Scaled(p, factor) <= Scaled(q, factor)
  {
  }

  /** Cost advantage: one point per 50 yuan below 10000, never negative. */
  function CostScore(cost: real): (s: real)
    ensures s >= 0.0
    ensures s == 0.0 <==> cost >= CostCeiling
    ensures s > 0.0 ==> s * CostPerPoint == CostCeiling - cost
  {
    var raw := (CostCeiling - cost) / CostPerPoint;
    if 0.0 < raw then raw else 0.0
  }

  /** A cheaper formulation never scores lower. */
  lemma CostScoreAntitone(cost: real, cost': real)
    requires cost <= cost'
    ensures CostScore(cost') <= CostScore(cost)
  {
  }

  /**
    Within the slider ranges the cost score lies in [0, 104]; it leaves the
    radial axis exactly when the cost falls below 5000, and the cheapest
    slider setting reaches 104.
   */
  lemma CostScoreOnSliders(poe: real, talc: real)
    requires 0.0 <= poe <= 40.0 && 0.0 <= talc <= 50.0
    ensures 0.0 <= CostScore(Cost.MaterialCost(poe, talc)) <= 104.0
    ensures CostScore(Cost.MaterialCost(poe, talc)) > AxisMax <==> Cost.MaterialCost(poe, talc) < 5000.0
    ensures CostScore(Cost.MaterialCost(0.0, 50.0)) == 104.0
  {
    Cost.SliderBounds(poe, talc);
  }

  /** The four spokes for a set of predictions and a cost. */
  function Values(p: Predictions, cost: real): (r: RadarValues)
    ensures r.impact <= AxisMax && r.tensile <= AxisMax && r.flow <= AxisMax
    ensures p.impact * ImpactFactor <= AxisMax ==> r.impact == p.impact * ImpactFactor
    ensures p.impact * ImpactFactor > AxisMax ==> r.impact == AxisMax
    ensures p.tensile * TensileFactor <= AxisMax ==> r.tensile == p.tensile * TensileFactor
    ensures p.tensile * TensileFactor > AxisMax ==> r.tensile == AxisMax
    ensures p.finalMfi * FlowFactor <= AxisMax ==> r.flow == p.finalMfi * FlowFactor
    ensures p.finalMfi * FlowFactor > AxisMax ==> r.flow == AxisMax
    ensures r.costScore >= 0.0
    ensures r.costScore == 0.0 <==> cost >= CostCeiling
    ensures r.costScore > 0.0 ==> r.costScore * CostPerPoint == CostCeiling - cost
  {
    RadarValues(
      Scaled(p.impact, ImpactFactor),
      Scaled(p.tensile, TensileFactor),
      Scaled(p.finalMfi, FlowFactor),
      CostScore(cost))
  }

  predicate OnAxis(x: real) {
    0.0 <= x <= AxisMax
  }

  /** Every spoke is drawn inside the fixed radial axis. */
  predicate AllOnAxis(r: RadarValues) {
    OnAxis(r.impact) && OnAxis(r.tensile) && OnAxis(r.flow) && OnAxis(r.costScore)
  }

  /**
    The chart fits its axis exactly when no prediction is negative and the
    cost is at least 5000.
   */
  lemma AllOnAxisIff(p: Predictions, cost: real)
    ensures AllOnAxis(Values(p, cost)) <==>
      p.impact >= 0.0 && p.tensile >= 0.0 && p.finalMfi >= 0.0 && cost >= 5000.0
  {
  }
}
