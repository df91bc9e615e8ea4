/**
  The inputs of the recycled-polypropylene digital twin: the six model features,
  the sidebar controls that produce them, the value ranges the sidebar and the
  synthetic training data draw from, and the three predicted responses.
 */
module Formulation {

  /** One row of model input, in the feature column order of app.py. */
  datatype FeatureVector = FeatureVector(
    rppMfi: real,      // melt flow index of the recycled base resin, g/10min
    rppAsh: real,      // ash / impurity content of the base resin, %
    poe: real,         // toughener (POE) share, %
    talc: real,        // filler (talc) share, %
    screwRpm: real,    // screw speed, RPM
    barrelTemp: real)  // barrel temperature, degrees C

  /** The three responses the regressors predict for a feature vector. */
  datatype Predictions = Predictions(impact: real, tensile: real, finalMfi: real)

  /**
    The sidebar state. The melt-index and ash sliders have real bounds; the
    other four sliders have whole-number bounds and defaults, so they yield
    whole numbers.
   */
  datatype Controls = Controls(
    rppMfi: real,
    rppAsh: real,
    poe: int,
    talc: int,
    screwRpm: int,
    barrelTemp: int)

  /** A closed interval of reals. */
  datatype Interval = Interval(lo: real, hi: real) {
    predicate Contains(x: real) {
      lo <= x <= hi
    }

    predicate Within(other: Interval) {
      other.lo <= lo && hi <= other.hi
    }
  }

  /** One interval per feature. */
  datatype Box = Box(
    rppMfi: Interval,
    rppAsh: Interval,
    poe: Interval,
    talc: Interval,
    screwRpm: Interval,
    barrelTemp: Interval)
  {
    predicate Contains(v: FeatureVector) {
      && rppMfi.Contains(v.rppMfi)
      && rppAsh.Contains(v.rppAsh)
      && poe.Contains(v.poe)
      && talc.Contains(v.talc)
      && screwRpm.Contains(v.screwRpm)
      && barrelTemp.Contains(v.barrelTemp)
    }

    predicate Within(other: Box) {
      && rppMfi.Within(other.rppMfi)
      && rppAsh.Within(other.rppAsh)
      && poe.Within(other.poe)
      && talc.Within(other.talc)
      && screwRpm.Within(other.screwRpm)
      && barrelTemp.Within(other.barrelTemp)
    }
  }

  /** The ranges the sidebar sliders allow. */
  const SliderBox := Box(
    Interval(5.0, 30.0),
    Interval(0.0, 5.0),
    Interval(0.0, 40.0),
    Interval(0.0, 50.0),
    Interval(100.0, 800.0),
    Interval(180.0, 240.0))

  /**
    The uniform ranges the 500 synthetic training rows are drawn from.
    Each draw lies in the half-open range [lo, hi); the box holds their
    closed hulls, so the upper bounds themselves count as inside.
   */
  const TrainingBox := Box(
    Interval(5.0, 25.0),
    Interval(0.5, 5.0),
    Interval(0.0, 30.0),
    Interval(0.0, 40.0),
    Interval(200.0, 600.0),
    Interval(180.0, 230.0))

  /** Number of synthetic training rows. */
  const TrainingRows: nat := 500

  /** The sidebar's initial position. */
  const DefaultControls := Controls(12.0, 1.5, 15, 10, 350, 210)

  /** The one-row feature table built from the sidebar. */
  function ToFeatures(c: Controls): FeatureVector {
    FeatureVector(c.rppMfi, c.rppAsh, c.poe as real, c.talc as real,
                  c.screwRpm as real, c.barrelTemp as real)
  }

  /** The sidebar state is one the sliders can produce. */
  predicate InSliderRanges(c: Controls) {
    SliderBox.Contains(ToFeatures(c))
  }

  /** Every feature vector of the training box lies within the slider ranges. */
  lemma TrainingBoxWithinSliderBox(v: FeatureVector)
    ensures TrainingBox.Within(SliderBox)
    ensures TrainingBox.Contains(v) ==> SliderBox.Contains(v)
  {
  }

  /**
    The converse fails: the sliders reach settings outside the training data,
    where the regressors only extrapolate. Full toughener is one of them.
   */
  lemma SlidersReachBeyondTraining()
    ensures InSliderRanges(DefaultControls)
    ensures TrainingBox.Contains(ToFeatures(DefaultControls))
    ensures var c := DefaultControls.(poe := 40);
            InSliderRanges(c) && !TrainingBox.Contains(ToFeatures(c))
  {
  }

  /** A slider-range feature vector lies outside the training box exactly when one of its coordinates overshoots a training bound. */
  lemma OutsideTrainingBox(c: Controls)
    requires InSliderRanges(c)
    ensures !TrainingBox.Contains(ToFeatures(c)) <==>
            || c.rppMfi > 25.0 || c.rppAsh < 0.5 || c.poe > 30 || c.talc > 40
            || c.screwRpm < 200 || c.screwRpm > 600 || c.barrelTemp > 230
  {
  }
}
