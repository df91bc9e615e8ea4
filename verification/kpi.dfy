/**
  The metric cards' status labels and the formulation advice. Both are fixed
  threshold rules on the cost and on the predicted impact and tensile
  strength; the two use different thresholds.
 */
module Kpi {
  import opened Formulation
  import Cost

  /** Cost below which the cost card shows a year-on-year drop. */
  const CostTarget: real := 7500.0
  /** Impact and tensile strength above which the cards report the target met. */
  const ImpactTarget: real := 15.0
  const TensileTarget: real := 20.0
  /** Impact and tensile strength below which the advice asks for a change. */
  const ImpactFloor: real := 10.0
  const TensileFloor: real := 20.0

  /** Delta shown on the cost card. */
  datatype CostDelta = Down50 | Up120 {
    function Text(): string {
      match this
      case Down50 => "-50 (同比)"
      case Up120 => "+120"
    }
  }

  /** Delta shown on the impact and the tensile card. */
  datatype Status = Met | Missed

  function ImpactText(s: Status): string {
    match s
    case Met => "达标"
    case Missed => "未达标"
  }

  function TensileText(s: Status): string {
    match s
    case Met => "达标"
    case Missed => "偏低"
  }

  function CostCard(cost: real): (d: CostDelta)
    ensures d == Down50 <==> cost < CostTarget
  {
    if cost < CostTarget then Down50 else Up120
  }

  function ImpactCard(impact: real): (s: Status)
    ensures s == Met <==> impact > ImpactTarget
  {
    if impact > ImpactTarget then Met else Missed
  }

  function TensileCard(tensile: real): (s: Status)
    ensures s == Met <==> tensile > TensileTarget
  {
    if tensile > TensileTarget then Met else Missed
  }

  /** The two texts of each card differ, so a card's text determines its status. */
  lemma CardTextsDistinct()
    ensures Down50.Text() != Up120.Text()
    ensures ImpactText(Met) != ImpactText(Missed)
    ensures TensileText(Met) != TensileText(Missed)
  {
  }

  /**
    For sidebar settings the cost card shows a drop exactly when twice the
    toughener share minus the talc share is at most 17.
   */
  lemma CostCardOnSliders(poe: int, talc: int)
    ensures CostCard(Cost.MaterialCost(poe as real, talc as real)) == Down50 <==> 2 * poe - talc <= 17
  {
    var cost := Cost.MaterialCost(poe as real, talc as real);
    assert cost == 6800.0 + 80.0 * (poe as real) - 40.0 * (talc as real);
    assert cost < CostTarget <==> ((2 * poe - talc) as real) < 17.5;
  }

  /** The three outcomes of the advice panel. */
  datatype Advice = RaiseImpact | RaiseTensile | Balanced

  /**
    Impact is checked first, so a formulation weak in both properties gets
    only the impact warning.
   */
  function Advise(p: Predictions): (a: Advice)
    ensures a == RaiseImpact <==> p.impact < ImpactFloor
    ensures a == RaiseTensile <==> p.impact >= ImpactFloor && p.tensile < TensileFloor
    ensures a == Balanced <==> p.impact >= ImpactFloor && p.tensile >= TensileFloor
  {
    if p.impact < ImpactFloor then RaiseImpact
    else if p.tensile < TensileFloor then RaiseTensile
    else Balanced
  }

  /** An impact card that reports the target met rules out the impact warning. */
  lemma ImpactMetRulesOutImpactWarning(p: Predictions)
    ensures ImpactCard(p.impact) == Met ==> Advise(p) != RaiseImpact
  {
  }

  /**
    The advice can call a formulation balanced while the impact card says the
    target is missed: exactly when impact is in [10, 15] and tensile strength
    is at least 20.
   */
  lemma BalancedWithMissedImpact(p: Predictions)
    ensures Advise(p) == Balanced && ImpactCard(p.impact) == Missed <==>
      10.0 <= p.impact <= 15.0 && p.tensile >= 20.0
  {
  }

  /**
    Likewise for tensile strength, at the single value 20: the advice floor
    admits it, the card's strict threshold does not.
   */
  lemma BalancedWithLowTensile(p: Predictions)
    ensures Advise(p) == Balanced && TensileCard(p.tensile) == Missed <==>
      p.impact >= 10.0 && p.tensile == 20.0
  {
  }

  /** Both cards met implies balanced advice; the converse fails. */
  lemma CardsMetImplyBalanced(p: Predictions)
    ensures ImpactCard(p.impact) == Met && TensileCard(p.tensile) == Met ==> Advise(p) == Balanced
    ensures var q := Predictions(12.0, 25.0, p.finalMfi);
            Advise(q) == Balanced && ImpactCard(q.impact) == Missed
  {
  }
}
