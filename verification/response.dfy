/**
  The synthetic "physics" the training data is generated from: each response
  is an affine law of the six features plus a zero-mean Gaussian noise draw.
  The draws are parameters here, one per response and row.
 */
module Response {
  import opened Formulation

  /** The three noise draws of one training row. */
  datatype Noise = Noise(impact: real, tensile: real, finalMfi: real)

  /** One uniform feature draw together with its noise draws. */
  datatype Draw = Draw(features: FeatureVector, noise: Noise)

  /** A generated row: features and the three responses the regressors are fit on. */
  datatype TrainingRow = TrainingRow(features: FeatureVector, response: Predictions)

  /** Notched impact strength: toughener raises it strongly, talc and ash lower it. */
  function Impact(v: FeatureVector, noise: real): real {
    3.0 + 1.8 * v.poe - 0.1 * v.talc - 0.6 * v.rppAsh + noise
  }

  /** Tensile strength: talc raises it, toughener and ash lower it. */
  function Tensile(v: FeatureVector, noise: real): real {
    22.0 - 0.4 * v.poe + 0.5 * v.talc - 0.5 * v.rppAsh + noise
  }

  /**
    Melt flow index of the compound: follows the base resin, talc lowers it,
    heat degrades the resin and raises it. The comment above this law in
    app.py also names high screw speed as a cause of degradation, but the law
    has no screw-speed term, and the model follows the law.
   */
  function FinalMfi(v: FeatureVector, noise: real): real {
    v.rppMfi * 0.8 - 0.2 * v.talc + 0.01 * (v.barrelTemp - 180.0) + noise
  }

  function Row(d: Draw): TrainingRow {
    TrainingRow(d.features, Predictions(
      Impact(d.features, d.noise.impact),
      Tensile(d.features, d.noise.tensile),
      FinalMfi(d.features, d.noise.finalMfi)))
  }

  /**
    The training table, one row per draw, in draw order. Each response
    minus its own noise draw is the noise-free law, so no response depends
    on another response's noise.
   */
  function TrainingSet(draws: seq<Draw>): (rows: seq<TrainingRow>)
    ensures |rows| == |draws|
    ensures forall i :: 0 <= i < |draws| ==>
      && rows[i].features == draws[i].features
      && rows[i].response.impact - draws[i].noise.impact == Impact(draws[i].features, 0.0)
      && rows[i].response.tensile - draws[i].noise.tensile == Tensile(draws[i].features, 0.0)
      && rows[i].response.finalMfi - draws[i].noise.finalMfi == FinalMfi(draws[i].features, 0.0)
  {
    seq(|draws|, i requires 0 <= i < |draws| => Row(draws[i]))
  }

  /** Draws from the training ranges give a table whose features lie in the training ranges. */
  lemma TrainingSetInBox(draws: seq<Draw>)
    requires forall i :: 0 <= i < |draws| ==> TrainingBox.Contains(draws[i].features)
    ensures forall r :: r in TrainingSet(draws) ==> TrainingBox.Contains(r.features)
  {
    var rows := TrainingSet(draws);
    forall r | r in rows
      ensures TrainingBox.Contains(r.features)
    {
      var i :| 0 <= i < |rows| && rows[i] == r;
      assert rows[i].features == draws[i].features;
    }
  }

  /** The generated table: 500 draws from the training ranges give 500 rows inside those ranges. */
  lemma GeneratedTable(draws: seq<Draw>)
    requires |draws| == TrainingRows
    requires forall i :: 0 <= i < |draws| ==> TrainingBox.Contains(draws[i].features)
    ensures |TrainingSet(draws)| == 500
    ensures forall i :: 0 <= i < 500 ==> TrainingBox.Contains(TrainingSet(draws)[i].features)
  {
    TrainingSetInBox(draws);
  }

  /** The noise enters each response additively and with unit weight. */
  lemma NoiseIsAdditive(v: FeatureVector, e: real, e': real)
    ensures Impact(v, e') - Impact(v, e) == e' - e
    ensures Tensile(v, e') - Tensile(v, e) == e' - e
    ensures FinalMfi(v, e') - FinalMfi(v, e) == e' - e
  {
  }

  /** Impact strictly increases with toughener and strictly decreases with talc and with ash. */
  lemma ImpactMonotone(v: FeatureVector, d: real, e: real)
    requires d > 0.0
    ensures Impact(v.(poe := v.poe + d), e) > Impact(v, e)
    ensures Impact(v.(talc := v.talc + d), e) < Impact(v, e)
    ensures Impact(v.(rppAsh := v.rppAsh + d), e) < Impact(v, e)
  {
  }

  /** Impact ignores base-resin melt index, screw speed and barrel temperature. */
  lemma ImpactIgnoresMfiAndProcess(v: FeatureVector, mfi: real, rpm: real, temp: real, e: real)
    ensures Impact(v.(rppMfi := mfi, screwRpm := rpm, barrelTemp := temp), e) == Impact(v, e)
  {
  }

  /** Tensile strength strictly increases with talc and strictly decreases with toughener and with ash. */
  lemma TensileMonotone(v: FeatureVector, d: real, e: real)
    requires d > 0.0
    ensures Tensile(v.(talc := v.talc + d), e) > Tensile(v, e)
    ensures Tensile(v.(poe := v.poe + d), e) < Tensile(v, e)
    ensures Tensile(v.(rppAsh := v.rppAsh + d), e) < Tensile(v, e)
  {
  }

  /** Tensile strength ignores base-resin melt index, screw speed and barrel temperature. */
  lemma TensileIgnoresMfiAndProcess(v: FeatureVector, mfi: real, rpm: real, temp: real, e: real)
    ensures Tensile(v.(rppMfi := mfi, screwRpm := rpm, barrelTemp := temp), e) == Tensile(v, e)
  {
  }

  /** The compound's melt index ignores toughener, ash and screw speed. */
  lemma FinalMfiIgnoresPoeAshRpm(v: FeatureVector, poe: real, ash: real, rpm: real, e: real)
    ensures FinalMfi(v.(poe := poe, rppAsh := ash, screwRpm := rpm), e) == FinalMfi(v, e)
  {
  }

  /** The compound's melt index rises with base-resin melt index and temperature and falls with talc. */
  lemma FinalMfiMonotone(v: FeatureVector, d: real, e: real)
    requires d > 0.0
    ensures FinalMfi(v.(rppMfi := v.rppMfi + d), e) > FinalMfi(v, e)
    ensures FinalMfi(v.(barrelTemp := v.barrelTemp + d), e) > FinalMfi(v, e)
    ensures FinalMfi(v.(talc := v.talc + d), e) < FinalMfi(v, e)
  {
  }

  /** Over the training ranges the noise-free laws stay within fixed bands. */
  lemma NoiseFreeBandsOnTrainingBox(v: FeatureVector)
    requires TrainingBox.Contains(v)
    ensures -4.0 <= Impact(v, 0.0) <= 56.7
    ensures 7.5 <= Tensile(v, 0.0) <= 41.75
    ensures -4.0 <= FinalMfi(v, 0.0) <= 20.5
  {
  }
}
