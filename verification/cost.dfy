/**
  Cost of one tonne of compound: the base resin fills whatever share the
  toughener and the filler leave, each ingredient is charged at a fixed price
  per tonne in proportion to its share, and a flat processing fee is added.
 */
module Cost {

  /** Prices in yuan per tonne. */
  const RppPrice: real := 6000.0
  const PoePrice: real := 14000.0
  const TalcPrice: real := 2000.0
  const ProcessingFee: real := 800.0

  /** The batch the shares are percentages of. */
  const TotalWeight: real := 100.0

  /** Share of recycled base resin, in percent. */
  function BaseResinShare(poe: real, talc: real): (pp: real)
    ensures pp + poe + talc == TotalWeight
  {
    TotalWeight - poe - talc
  }

  /**
    Cost in yuan per tonne. Base resin is replaced by toughener at 8000 per
    tonne more and by talc at 4000 per tonne less, which gives the closed form.
   */
  function MaterialCost(poe: real, talc: real): (cost: real)
    ensures cost == 6800.0 + 80.0 * poe - 40.0 * talc
  {
    BaseResinShare(poe, talc) / 100.0 * RppPrice
      + poe / 100.0 * PoePrice
      + talc / 100.0 * TalcPrice
      + ProcessingFee
  }

  /** Within the slider ranges, at least 10 % of the batch is base resin and the cost lies in [4800, 10000]. */
  lemma SliderBounds(poe: real, talc: real)
    requires 0.0 <= poe <= 40.0 && 0.0 <= talc <= 50.0
    ensures BaseResinShare(poe, talc) >= 10.0
    ensures 4800.0 <= MaterialCost(poe, talc) <= 10000.0
  {
  }

  /** Both cost bounds are reached by slider settings. */
  lemma SliderBoundsAttained()
    ensures MaterialCost(0.0, 50.0) == 4800.0
    ensures MaterialCost(40.0, 0.0) == 10000.0
    ensures BaseResinShare(40.0, 50.0) == 10.0
  {
  }

  /** More toughener always costs more. */
  lemma CostIncreasesWithPoe(poe: real, poe': real, talc: real)
    requires poe < poe'
    ensures MaterialCost(poe, talc) < MaterialCost(poe', talc)
  {
  }

  /** More filler always costs less. */
  lemma CostDecreasesWithTalc(poe: real, talc: real, talc': real)
    requires talc < talc'
    ensures MaterialCost(poe, talc') < MaterialCost(poe, talc)
  {
  }
}
